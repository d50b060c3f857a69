# Verified model of the voice-assistant demo's WAV encoder and LLM request shaping

This project models, in Dafny, the two pieces of original logic in a browser voice-assistant demo.

- `pcm2wav`, in the speech-synthesis integration. It turns a buffer of audio samples, a channel count and a sample rate into a RIFF/WAVE byte stream: a 44-byte header, then one little-endian signed 16-bit PCM value per sample, with out-of-range samples clamped.
- The request and response helpers of the chat-completion client:
  - the module-level `LLM_CONFIG` and `initializeLLM`;
  - the JSON bodies built by `getChatCompletion` and `getCompletion`, and the chat request headers;
  - `createChatMessage` and `extractResponseText`.

Files:

- `js.dfy` (module `Js`). The JavaScript semantics the code relies on: a `Value` datatype for JSON-shaped data, truthiness, `||`, property access (which is a `TypeError` on `null`/`undefined`), object spread, and `Result`.
- `pcm2wav.dfy` (module `PiperWav`). The encoder is the imperative method `Pcm2Wav`. It allocates a zero-filled `array<uint8>` and writes the header fields and then the samples through `SetUint32`/`SetUint16`, which model `DataView.setUint32/setUint16/setInt16` with little-endian byte order. The source writes every field in increasing offset order. So each write is specified as appending its bytes to the prefix written so far, with the rest of the buffer still zero. The method is proved equal to the pure specification `WavBytes`, which is built from:
  - `EncodeHeader(HeaderFor(...))`, over a `WavHeader` record;
  - `SampleBytes`;
  - the zero padding.

  The lemmas about `WavBytes` state each header field at its offset, where each sample lands, the length, the padding and the read-back error. Header integers are reduced modulo 2^16 or 2^32, as the DataView does; the lemmas state these modular results. Samples are reals. `x | 0` is modelled as truncation toward zero followed by 32-bit wrap-around (`BitOrZero`).
- `llm.dfy` (module `LlmIntegration`).
  - `LLM_CONFIG` is the class `LlmConfig`, whose `settings` map `Initialize` updates in place, as `Object.assign` does.
  - The bodies, headers, `createChatMessage` and `extractResponseText` are pure functions over `Value`.
  - The request builders take the configuration map they read as a parameter.

Notes on the code as written:

- When `numChannels > 1`, the buffer length and the RIFF size count `2 * numChannels * n` data bytes. But the data chunk declares `2 * n`, and only `n` samples are written. The rest of the file stays zero (`WavPadding`). The chunk sizes add up exactly when `numChannels == 1` or the buffer is empty (`ChunkSizesAgree`). The one caller in the repository passes `numChannels = 1`.
- `pcm2wav` does not validate its inputs. When `numChannels < 1` and the buffer is non-empty, it throws a `RangeError`. Either the `ArrayBuffer` length is negative, or a `DataView` write falls outside a buffer of at most 44 bytes. `Pcm2Wav` returns `Err(RangeError)` in exactly that case. With an empty buffer it returns the 44-byte header for any channel count.
- In both request bodies, `...options` comes after the `||` fallbacks. So every key that `options` holds wins, even a falsy one such as `temperature: 0`, and the fallbacks never decide anything (`ChatBodyFallbackIsOverridden`).

## Model

| member | source | states |
|---|---|---|
| `PiperWav.Pcm2Wav` | piper-integration.js:33-58 | Fails with a RangeError exactly when the buffer is non-empty and numChannels < 1. Otherwise it returns a freshly allocated buffer whose bytes are `WavBytes(buffer, numChannels, sampleRate)`. |
| `PiperWav.WriteHeader` | piper-integration.js:36-48 | Writing the thirteen header fields in offset order into a zero-filled buffer leaves the 44 header bytes first and zeros after them. |
| `PiperWav.SetUint32` | piper-integration.js:36-47 | In a buffer that holds the bytes written so far followed by zeros, it writes at the end of that prefix. The little-endian encoding of the value mod 2^32 is appended to the prefix, and every later byte stays zero. |
| `PiperWav.SetUint16` | piper-integration.js:41-54 | The same as SetUint32 for two bytes, the value mod 2^16; this also covers setInt16, which stores the same bytes. |
| `PiperWav.LE32` | piper-integration.js:36-48 | setUint32 stores four bytes, low byte first, and getUint32 reads them back as the value mod 2^32. |
| `PiperWav.LE16` | piper-integration.js:41-54 | setUint16 and setInt16 store two bytes, low byte first, and getUint16 reads them back as the value mod 2^16. |
| `PiperWav.LE16SignedDecodes` | piper-integration.js:52-54 | A signed 16-bit write of a value in [-32768, 32767] reads back unchanged as two's complement. |
| `PiperWav.Trunc` | piper-integration.js:54 | The result is the integer next to x on the side of zero: within 1 of x and no further from zero. |
| `PiperWav.BitOrZero` | piper-integration.js:54 | The bitwise-or with zero lies in the signed 32-bit range, and it equals the truncation of x whenever that fits. |
| `PiperWav.Quantize` | piper-integration.js:51-54 | The clamp-and-quantise rule applied to a sample always gives a value in the signed 16-bit range [-32768, 32767]. |
| `PiperWav.QuantizeRange` | piper-integration.js:52-54 | Every quantised sample is in [-32768, 32767]. v >= 1 gives 32767 and v <= -1 gives -32768. An in-range sample gives a value in [-32767, 32767], so the 16-bit store never wraps. |
| `PiperWav.QuantizeInRange` | piper-integration.js:54 | For -1 < v < 1 the sample is trunc(v * 32768). It keeps the sign of v and lies strictly within 1 of v * 32768. |
| `PiperWav.QuantizeOdd` | piper-integration.js:54 | For in-range samples, quantising -v gives minus the value for v; truncation is toward zero, not floor. |
| `PiperWav.QuantizeMonotone` | piper-integration.js:51-54 | The clamp-and-quantise rule preserves the order of samples. |
| `PiperWav.FileSize` | piper-integration.js:35 | The allocated length is 44 for an empty buffer. It is at least 44 + 2n when numChannels >= 1, and at most 44 when numChannels < 1. |
| `PiperWav.HeaderFor` | piper-integration.js:36-48 | The header describes 16-bit PCM (fmt size 16, format 1) with the given channels and sample rate. Block align is channels * bitsPerSample / 8, byte rate is sampleRate * blockAlign, the data size is n * bitsPerSample / 8, and the RIFF size is the allocated length minus 8. |
| `PiperWav.EncodeHeader` | piper-integration.js:36-48 | The encoded header is 44 bytes long. |
| `PiperWav.HeaderLayout` | piper-integration.js:36-48 | In an encoded header, each field reads back at its fixed offset: the four tag constants, the nine fields, and each value reduced mod 2^16 or 2^32. |
| `PiperWav.ChunkTagsAreAscii` | piper-integration.js:36-47 | The u32 constants 0x46464952, 0x45564157, 0x20746d66 and 0x61746164, written little-endian, are the ASCII bytes of "RIFF", "WAVE", "fmt " and "data". |
| `PiperWav.Throws` | piper-integration.js:35-56 | pcm2wav throws exactly when there are samples and the allocated buffer is shorter than 44 + 2n, the bytes the header and sample writes reach. |
| `PiperWav.SampleBytes` | piper-integration.js:49-56 | The sample area holds two bytes per sample. |
| `PiperWav.SampleBytesAt` | piper-integration.js:49-56 | Sample i's quantised value sits little-endian at bytes 2i and 2i+1 of the sample area, in input order. |
| `PiperWav.WavBytes` | piper-integration.js:33-58 | The byte stream pcm2wav returns is exactly as long as the buffer it allocates, `n * numChannels * 2 + 44`. |
| `PiperWav.FileSizeCoversSamples` | piper-integration.js:35 | The allocated length `n * numChannels * 2 + 44` is the header, plus 2n sample bytes, plus the padding. |
| `PiperWav.HeaderPrefix` | piper-integration.js:35-48 | The first 44 bytes of the output are the encoded header for (n, numChannels, sampleRate). |
| `PiperWav.WavLength` | piper-integration.js:34-35 | The output length is exactly `n * numChannels * 2 + 44`. |
| `PiperWav.WavHeaderFields` | piper-integration.js:36-48 | The output carries these header fields:<br>- the ASCII tags "RIFF", "WAVE", "fmt " and "data" at offsets 0, 8, 12 and 36;<br>- the RIFF size at offset 4, equal to the length minus 8;<br>- fmt size 16, format 1 and 16 bits per sample;<br>- numChannels, sampleRate, numChannels*2*sampleRate and numChannels*2, each mod its field width;<br>- the data size 2n mod 2^32 at offset 40. |
| `PiperWav.WavSampleAt` | piper-integration.js:49-56 | Sample i is stored at byte offset 44 + 2i. It reads back as its clamped, quantised value. |
| `PiperWav.WavPadding` | piper-integration.js:35-56 | Every byte after 44 + 2n is zero. When numChannels > 1, this is the trailing 2(numChannels-1)n bytes. |
| `PiperWav.WavEmpty` | piper-integration.js:34-50 | An empty buffer yields exactly 44 bytes, with data size 0 and RIFF size 36, for any channel count. |
| `PiperWav.ChunkSizesAgree` | piper-integration.js:35-48 | Assume numChannels >= 1 and a length below 2^32. Then RIFF size == 36 + data size holds exactly when numChannels == 1 or n == 0. |
| `PiperWav.DecodedSampleError` | piper-integration.js:51-54 | Take a sample in [-1, 1], read back and divided by 32768. It is within 1/32768 of the input, and exactly -1 for -1. |
| `PiperWav.WavHeaderRoundTrip` | piper-integration.js:41-48 | When the values fit their fields, a reader of the header gets back numChannels, sampleRate, format 1, 16 bits per sample, and n as data size / 2. |
| `LlmIntegration.DefaultSettings` | llm-integration.js:17-25 | The initial configuration has exactly the keys baseUrl, model, temperature, max_tokens and headers. |
| `LlmIntegration.LlmConfig.constructor` | llm-integration.js:17-25 | LLM_CONFIG starts with the default settings. |
| `LlmIntegration.LlmConfig.Initialize` | llm-integration.js:32-34 | The new settings are Object.assign of config over the old ones: every key of config takes config's value, every other key keeps its old value, and no key is added or removed beyond config's. |
| `LlmIntegration.ChatBody` | llm-integration.js:53-59 | The chat body has the keys messages, model, temperature and max_tokens, plus the option keys. Every option key carries the option's value, falsy or not. A key absent from options takes messages or the configured model, temperature or max_tokens. |
| `LlmIntegration.CompletionBody` | llm-integration.js:89-95 | The same as ChatBody for the completion body, with prompt in place of messages. |
| `LlmIntegration.ChatHeaders` | llm-integration.js:49-52 | The chat headers have exactly the keys Content-Type and those of the configured headers. Every configured header is carried over, and Content-Type is application/json unless the configured headers set one. |
| `LlmIntegration.CreateChatMessage` | llm-integration.js:134-135 | The message is an object with exactly the keys role and content. Reading each back gives the argument, and the message is truthy. |
| `LlmIntegration.HasChoices` | llm-integration.js:119 | `choices && choices.length > 0` holds exactly for a non-empty array or string, or an object whose length property is a positive number; never for a falsy value. |
| `LlmIntegration.FirstChoice` | llm-integration.js:120-123 | `choices[0]` is the first element of a non-empty array, the first character of a non-empty string, the "0" property of an object, and undefined for any non-object without choices. |
| `LlmIntegration.ExtractResponseText` | llm-integration.js:118-126 | A null or undefined completion is a TypeError, and TypeError is the only possible error. An object completion without choices (no choices key, a falsy value, an empty array or string) gives ''. |
| `LlmIntegration.ChatBodyFallbackIsOverridden` | llm-integration.js:53-59 | The chat body equals the body built with the configured temperature and max_tokens outright, with options spread last. The or-fallback never changes the result. |
| `LlmIntegration.CompletionBodyFallbackIsOverridden` | llm-integration.js:89-95 | The same for the completion body. |
| `LlmIntegration.InitializedSettingsReachBody` | llm-integration.js:32-59 | After initializeLLM(config), for each of model, temperature and max_tokens that the request options do not set, the chat body carries config's value when config sets it, and the previously configured value otherwise. |
| `LlmIntegration.InitializedHeadersReachRequest` | llm-integration.js:17-52 | With the default configuration the chat headers are just the JSON content type. After initializeLLM sets an object of headers, they are that object laid over the JSON content type. A config without headers leaves them unchanged. |
| `LlmIntegration.ExtractFromFirstChoice` | llm-integration.js:119-123 | With a truthy message on the first choice, the result is message.content. Without one, it is the first choice's text. |
| `LlmIntegration.ExtractOnlyFirstChoice` | llm-integration.js:119-123 | Two completions whose choice arrays share their first element give the same result. |
| `LlmIntegration.ExtractCreatedMessage` | llm-integration.js:118-135 | A message built by createChatMessage, placed as the first choice, is extracted back as its content. |

## Left out

- `fetchBlob`, `createBlobUrl` and `predict` (piper-integration.js:65-154): network fetches, Blob and URL objects, the WASM phonemiser and ONNX inference are foreign library calls.
- The `fetch` calls of `getChatCompletion`/`getCompletion`, their HTTP status checks, their parsing of the response JSON, their error logging and rethrowing, and the headers `getCompletion` passes through unchanged. These are network client code.
- `JSON.stringify` of the bodies is not modelled. In particular, key order and the dropping of undefined-valued keys are not captured; bodies are maps.
- moonshine-integration.js, index.js, script.js, tts-ui.js, vad-demo.js and server.py are not part of this model. They are DOM wiring, timers, library wrappers and a Flask endpoint.
- IEEE-754 behaviour is not modelled. Samples are exact reals, so NaN (which the source turns into 0), infinities and Float32 rounding are not captured.
- Pcm2Wav: numChannels and sampleRate are integers. Non-integer arguments and products beyond 2^53, where JavaScript numbers lose exactness, are not modelled. Neither is the RangeError for an ArrayBuffer too large to allocate.
- Pcm2Wav: the RangeError that JavaScript raises part-way through the writes is decided up front. No buffer is returned either way.
- Js.Spread: spreading a string or array value, which copies its index keys, is modelled as spreading nothing. It only matters for a non-object `headers` setting.
- Js.Member: index properties and inherited prototype properties (such as `toString`) are not modelled.
- LlmIntegration.ExtractResponseText: a `choices.length` that is not a number (a string, a boolean) counts as no choices. JavaScript's `>` would coerce it.
- LlmIntegration.LlmConfig.Initialize: object identity is not modelled. Object.assign copies references, so the configured headers object stays shared. Non-object arguments to initializeLLM (such as null) are also not modelled.
- A null `options` argument is not modelled; reading `options.temperature` would then throw a TypeError. `options` is modelled as an object.
