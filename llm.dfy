/** The request and response shaping of the chat-completion client: the
    module-level configuration and its initialisation, the JSON bodies sent
    by getChatCompletion and getCompletion, the chat request headers, and
    the helpers that build a chat message and pick the reply text out of a
    completion. The HTTP calls themselves are not modelled. */
module LlmIntegration {
  import opened Js

  /** The initial contents of LLM_CONFIG. */
  function DefaultSettings(): (m: map<string, Value>)
    ensures m.Keys == {"baseUrl", "model", "temperature", "max_tokens", "headers"}
  {
    map[
      "baseUrl" := Str("http://localhost:8000/v1"),
      "model" := Str("local-model"),
      "temperature" := Num(0.7),
      "max_tokens" := Num(1000.0),
      "headers" := Obj(map["Content-Type" := Str("application/json")])]
  }

  /** `after` is what Object.assign leaves of `before` when it copies the own
      properties of `config`: every key of config takes config's value, every
      other key keeps its old value, and no key is removed. */
  predicate Assigned(before: map<string, Value>, config: map<string, Value>, after: map<string, Value>)
  {
    && after.Keys == before.Keys + config.Keys
    && (forall k :: k in config ==> after[k] == config[k])
    && (forall k :: k in before && k !in config ==> after[k] == before[k])
  }

  /** The module-level LLM_CONFIG object, updated in place by initializeLLM. */
  class LlmConfig {
    var settings: map<string, Value>

    constructor ()
      ensures settings == DefaultSettings()
    {
      settings := DefaultSettings();
    }

    /** initializeLLM(config): Object.assign(LLM_CONFIG, config) copies every
        own property of config over the current settings. */
    method Initialize(config: map<string, Value>)
      modifies this
      ensures Assigned(old(settings), config, settings)
    {
      settings := settings + config;
    }
  }

  /** The body object of getChatCompletion before JSON serialisation. The
      `||` fallbacks come first and `...options` last, so every key of
      options wins. */
  function ChatBody(settings: map<string, Value>, messages: Value, options: map<string, Value>)
    : (body: map<string, Value>)
    ensures body.Keys == {"messages", "model", "temperature", "max_tokens"} + options.Keys
    ensures forall k :: k in options ==> body[k] == options[k]
    ensures "messages" !in options ==> body["messages"] == messages
    ensures "model" !in options ==> body["model"] == Get(settings, "model")
    ensures "temperature" !in options ==> body["temperature"] == Get(settings, "temperature")
    ensures "max_tokens" !in options ==> body["max_tokens"] == Get(settings, "max_tokens")
  {
    map[
      "messages" := messages,
      "model" := Get(settings, "model"),
      "temperature" := Or(Get(options, "temperature"), Get(settings, "temperature")),
      "max_tokens" := Or(Get(options, "max_tokens"), Get(settings, "max_tokens"))]
      + options
  }

  /** The body object of getCompletion before JSON serialisation. */
  function CompletionBody(settings: map<string, Value>, prompt: Value, options: map<string, Value>)
    : (body: map<string, Value>)
    ensures body.Keys == {"model", "prompt", "temperature", "max_tokens"} + options.Keys
    ensures forall k :: k in options ==> body[k] == options[k]
    ensures "prompt" !in options ==> body["prompt"] == prompt
    ensures "model" !in options ==> body["model"] == Get(settings, "model")
    ensures "temperature" !in options ==> body["temperature"] == Get(settings, "temperature")
    ensures "max_tokens" !in options ==> body["max_tokens"] == Get(settings, "max_tokens")
  {
    map[
      "model" := Get(settings, "model"),
      "prompt" := prompt,
      "temperature" := Or(Get(options, "temperature"), Get(settings, "temperature")),
      "max_tokens" := Or(Get(options, "max_tokens"), Get(settings, "max_tokens"))]
      + options
  }

  /** The headers of getChatCompletion: a JSON content type, overridden by
      the configured headers when they are an object. */
  function ChatHeaders(settings: map<string, Value>): (headers: map<string, Value>)
    ensures headers.Keys == {"Content-Type"} + Spread(Get(settings, "headers")).Keys
    ensures forall k :: k in Spread(Get(settings, "headers")) ==> k in headers && headers[k] == Spread(Get(settings, "headers"))[k]
    ensures "Content-Type" !in Spread(Get(settings, "headers")) ==> headers["Content-Type"] == Str("application/json")
  {
    map["Content-Type" := Str("application/json")] + Spread(Or(Get(settings, "headers"), Obj(map[])))
  }

  /** createChatMessage(role, content): the object { role, content }. */
  function CreateChatMessage(role: Value, content: Value): (message: Value)
    ensures message.Obj? && message.props.Keys == {"role", "content"}
    ensures Member(message, "role") == Ok(role)
    ensures Member(message, "content") == Ok(content)
    ensures Truthy(message)
  {
    Obj(map["role" := role, "content" := content])
  }

  /** Whether `choices && choices.length > 0` holds. */
  predicate HasChoices(choices: Value): (b: bool)
    ensures !Truthy(choices) ==> !b
    ensures choices.Arr? ==> (b <==> |choices.items| > 0)
    ensures choices.Str? ==> (b <==> |choices.s| > 0)
    ensures choices.Obj? ==> (b <==> Get(choices.props, "length").Num? && Get(choices.props, "length").x > 0.0)
  {
    Truthy(choices) &&
    match Member(choices, "length")
    case Ok(Num(len)) => len > 0.0
    case _ => false
  }

  /** `choices[0]` for a value with a positive length. */
  function FirstChoice(choices: Value): (first: Value)
    ensures choices.Arr? && |choices.items| > 0 ==> first == choices.items[0]
    ensures choices.Str? && |choices.s| > 0 ==> first.Str? && first.s == choices.s[..1]
    ensures choices.Obj? ==> first == Get(choices.props, "0")
    ensures !HasChoices(choices) && !choices.Obj? ==> first == Undefined
  {
    match choices
    case Arr(xs) => if |xs| > 0 then xs[0] else Undefined
    case Str(s) => if |s| > 0 then Str([s[0]]) else Undefined
    case Obj(m) => Get(m, "0")
    case _ => Undefined
  }

  /** extractResponseText(completion): '' unless choices is non-empty; then
      the first choice's message.content when it has a truthy message, its
      text otherwise. Property access on null or undefined is a TypeError. */
  function ExtractResponseText(completion: Value): (r: Result<Value, JsError>)
    ensures completion.Undefined? || completion.Null? ==> r == Err(TypeError)
    ensures completion.Obj? && !HasChoices(Get(completion.props, "choices")) ==> r == Ok(Str(""))
    ensures r.Err? ==> r.error == TypeError
  {
    match Member(completion, "choices")
    case Err(e) => Err(e)
    case Ok(choices) =>
      if HasChoices(choices) then
        var first := FirstChoice(choices);
        match Member(first, "message")
        case Err(e) => Err(e)
        case Ok(message) =>
          if Truthy(message) then Member(message, "content") else Member(first, "text")
      else Ok(Str(""))
  }

  /** The `||` fallbacks never decide anything: spreading options last gives
      the same body as taking the configured temperature and max_tokens
      outright, so a falsy option (temperature: 0) is kept, and an absent one
      falls back to LLM_CONFIG. */
  lemma ChatBodyFallbackIsOverridden(settings: map<string, Value>, messages: Value, options: map<string, Value>)
    ensures ChatBody(settings, messages, options)
      == map[
           "messages" := messages,
           "model" := Get(settings, "model"),
           "temperature" := Get(settings, "temperature"),
           "max_tokens" := Get(settings, "max_tokens")] + options
  {
    var plain := map[
      "messages" := messages,
      "model" := Get(settings, "model"),
      "temperature" := Get(settings, "temperature"),
      "max_tokens" := Get(settings, "max_tokens")] + options;
    var body := ChatBody(settings, messages, options);
    assert body.Keys == plain.Keys;
    forall k | k in body
      ensures body[k] == plain[k]
    {
    }
  }

  /** The same holds for the getCompletion body. */
  lemma CompletionBodyFallbackIsOverridden(settings: map<string, Value>, prompt: Value, options: map<string, Value>)
    ensures CompletionBody(settings, prompt, options)
      == map[
           "model" := Get(settings, "model"),
           "prompt" := prompt,
           "temperature" := Get(settings, "temperature"),
           "max_tokens" := Get(settings, "max_tokens")] + options
  {
    var plain := map[
      "model" := Get(settings, "model"),
      "prompt" := prompt,
      "temperature" := Get(settings, "temperature"),
      "max_tokens" := Get(settings, "max_tokens")] + options;
    var body := CompletionBody(settings, prompt, options);
    assert body.Keys == plain.Keys;
    forall k | k in body
      ensures body[k] == plain[k]
    {
    }
  }

  /** After initializeLLM(config), a chat request that does not set model,
      temperature or max_tokens itself carries the value config set for it,
      or the value configured before when config does not set it. */
  lemma InitializedSettingsReachBody(before: map<string, Value>, config: map<string, Value>,
                                     after: map<string, Value>, messages: Value, options: map<string, Value>)
    requires Assigned(before, config, after)
    ensures forall k :: k in {"model", "temperature", "max_tokens"} && k !in options && k in config ==>
      ChatBody(after, messages, options)[k] == config[k]
    ensures forall k :: k in {"model", "temperature", "max_tokens"} && k !in options && k !in config ==>
      ChatBody(after, messages, options)[k] == Get(before, k)
  {
  }

  /** Before initializeLLM, the chat headers are the JSON content type alone;
      after initializeLLM sets an object of headers, they are that object
      laid over the JSON content type, and a config without headers leaves
      them as they were. */
  lemma InitializedHeadersReachRequest(before: map<string, Value>, config: map<string, Value>,
                                       after: map<string, Value>)
    requires Assigned(before, config, after)
    ensures ChatHeaders(DefaultSettings()) == map["Content-Type" := Str("application/json")]
    ensures "headers" in config && config["headers"].Obj? ==>
      ChatHeaders(after) == map["Content-Type" := Str("application/json")] + config["headers"].props
    ensures "headers" !in config ==> ChatHeaders(after) == ChatHeaders(before)
  {
  }

  /** A completion whose first choice has a truthy message yields that
      message's content; one whose first choice has none yields its text. */
  lemma ExtractFromFirstChoice(completion: map<string, Value>, choices: seq<Value>, first: map<string, Value>)
    requires Get(completion, "choices") == Arr(choices)
    requires |choices| > 0 && choices[0] == Obj(first)
    ensures Truthy(Get(first, "message")) ==>
      ExtractResponseText(Obj(completion)) == Member(Get(first, "message"), "content")
    ensures Get(first, "message").Obj? ==>
      ExtractResponseText(Obj(completion)) == Ok(Get(Get(first, "message").props, "content"))
    ensures !Truthy(Get(first, "message")) ==>
      ExtractResponseText(Obj(completion)) == Ok(Get(first, "text"))
  {
  }

  /** Only the first choice is consulted: completions whose choice lists
      share their first element give the same result. */
  lemma ExtractOnlyFirstChoice(completion: map<string, Value>, xs: seq<Value>, ys: seq<Value>)
    requires |xs| > 0 && |ys| > 0 && xs[0] == ys[0]
    ensures ExtractResponseText(Obj(completion["choices" := Arr(xs)]))
         == ExtractResponseText(Obj(completion["choices" := Arr(ys)]))
  {
  }

  /** A message built by createChatMessage and returned as the first choice
      is extracted back as its content. */
  lemma ExtractCreatedMessage(role: Value, content: Value, rest: seq<Value>)
    ensures ExtractResponseText(Obj(map["choices" := Arr([Obj(map["message" := CreateChatMessage(role, content)])] + rest)]))
         == Ok(content)
  {
  }
}
