# mcp-say: tool-argument validation, 16-bit PCM encoding and playback, in Dafny

mcp-say is an MCP server that exposes text-to-speech tools (`google_tts`,
`openai_tts`, ...) and plays the audio it gets back. Its test file
`cmd/root_test.go` re-creates the logic of two tool handlers, the PCM audio
layout, a mock audio player and the contract of the `PCMStream` playback
type. This project models those parts and proves their properties:

- `ToolArgs` (tool_args.dfy): the `google_tts` and `openai_tts` handlers as
  pure functions over an argument map (`Str | Num | Other` values) and an
  environment (`map<string, string>`, unset = ""). The result is either the
  handler's error text or the resolved request. The proofs cover:
  - the fixed error order: non-string text, then empty text, then a missing
    API key;
  - Google's fallback from `GOOGLE_AI_API_KEY` to `GEMINI_API_KEY`;
  - the per-provider voice and model defaults;
  - OpenAI's speed: a number in [0.25, 4.0] is kept, anything else becomes
    1.0, and speed never causes an error;
  - OpenAI's instructions: the argument first, then `OPENAI_TTS_INSTRUCTIONS`;
  - that the success text contains what the tests check for.
- `Pcm16` (pcm16.dfy): the sample loop of `generateTestAudio` as a method that
  fills an array in place, plus a decoder. It proves the byte layout, the
  buffer length and both round trips (encode-then-decode and
  decode-then-encode).
- `Playback` (playback.dfy): `MockAudioPlayer` and `PCMStream` as classes.
  Their contracts generalise what the tests assert:
  - `Seek` succeeds for every target from 0 to `Len()`, not only for 100;
  - `Play` leaves the player's duration unchanged;
  - a new stream satisfies the invariant `0 <= position <= Len()` with no error recorded, and `Err()` is nil whenever it holds.

  The module also has the two test scenarios as methods. The playback
  scenario adds that the played buffer decodes back to the samples.
- `Wrappers` (wrappers.dfy): `Option` and `Result`.

## Model

| member | source | states |
|---|---|---|
| `ToolArgs.Getenv` | cmd/root_test.go:166-168 | a set variable reads as its value; an unset one reads as "" (also used at lines 686 and 717) |
| `ToolArgs.CheckText` | cmd/root_test.go:152-163 | "text must be a string" exactly when `text` is absent or not a string; "Empty text provided" exactly when it is ""; otherwise the non-empty text itself |
| `ToolArgs.ResolveString` | cmd/root_test.go:177-185 | an optional argument is the caller's value exactly when it is a non-empty string, otherwise the default; a non-empty default guarantees a non-empty result |
| `ToolArgs.GoogleApiKey` | cmd/root_test.go:166-169 | `GOOGLE_AI_API_KEY` when non-empty, otherwise `GEMINI_API_KEY`; the key is missing exactly when both are empty |
| `ToolArgs.GoogleTts` | cmd/root_test.go:148-190 | error precedence (text type, emptiness, then key); success exactly when the text is a non-empty string and a key resolves; the request carries that text and key; voice and model are the caller's non-empty strings, otherwise "Kore" and "gemini-2.5-flash-preview-tts" |
| `ToolArgs.ResolveSpeed` | cmd/root_test.go:704-709 | the speed is always within [0.25, 4.0]; it is the caller's number exactly when that number is in range, and 1.0 otherwise |
| `ToolArgs.ResolveInstructions` | cmd/root_test.go:711-718 | the argument when it is a non-empty string, otherwise `OPENAI_TTS_INSTRUCTIONS` |
| `ToolArgs.OpenAiTts` | cmd/root_test.go:668-726 | same text checks, then `OPENAI_API_KEY` with no fallback; success exactly when the text is a non-empty string and the key is set; voice and model are the caller's non-empty strings, otherwise "coral" and "gpt-4o-mini-tts"; speed is the caller's number in [0.25, 4.0], otherwise 1.0; instructions are the caller's non-empty string, otherwise `OPENAI_TTS_INSTRUCTIONS` |
| `ToolArgs.GoogleResultText` | cmd/root_test.go:188-189 | the Google success text starts with "Speaking: " and the text, and ends with ")" |
| `ToolArgs.GoogleResultMentions` | cmd/root_test.go:188-189 | the Google success text contains "Google TTS", "voice " followed by the voice, and the model |
| `ToolArgs.OpenAiBaseText` | cmd/root_test.go:721 | the OpenAI success text before its suffix starts with "Speaking: " and the text, and ends with ")" |
| `ToolArgs.OpenAiResultText` | cmd/root_test.go:721-724 | the full OpenAI text extends the base text, and equals it exactly when the instructions are empty |
| `ToolArgs.OpenAiBaseMentions` | cmd/root_test.go:721 | the OpenAI success text before its suffix contains "OpenAI TTS" and "voice " followed by the voice |
| `ToolArgs.OpenAiResultMentions` | cmd/root_test.go:721-724 | the full OpenAI text keeps both mentions; the " with instructions: ..." suffix is appended exactly when the resolved instructions are non-empty |
| `ToolArgs.GoogleHandler` | cmd/root_test.go:148-190 | IsError exactly when validation fails, and then the text is the error message; on success the text is the line-189 success text, which contains the provider name, the voice and the model |
| `ToolArgs.OpenAiHandler` | cmd/root_test.go:668-726 | IsError exactly when validation fails, and then the text is the error message; on success the text is the success text of 721-724 (with the instructions suffix exactly when the instructions are non-empty), which contains the provider name and the voice |
| `ToolArgs.KeyFromEnvironment` | cmd/root_test.go:166-174 | a key set in the environment (`GOOGLE_AI_API_KEY`, or `GEMINI_API_KEY` alone, or `OPENAI_API_KEY`) is found: a request with only a non-empty text succeeds with that key, the default voice and model, speed 1.0 and no instructions |
| `ToolArgs.TextChecksAgree` | cmd/root_test.go:152-163 | the Google checks at 152-163 and the OpenAI checks at 672-683 agree: both handlers report the same text error before reading any environment; once the text passes, the only possible error is the provider's missing-key error |
| `ToolArgs.OptionalArgumentsNeverFail` | cmd/root_test.go:694-718 | for the OpenAI options at 694-718 and the Google options at 176-185, changing any argument other than `text` never changes whether either handler fails, nor its error message |
| `ToolArgs.SpeedOnlyAffectsSpeed` | cmd/root_test.go:704-709 | any speed value, including an out-of-range one, leaves success unchanged and changes only the request's speed |
| `ToolArgs.VoiceOnlyAffectsVoice` | cmd/root_test.go:177-180 | on success, the voice argument changes only the resolved voice (both providers) |
| `ToolArgs.ModelOnlyAffectsModel` | cmd/root_test.go:182-185 | on success, the model argument changes only the resolved model (both providers) |
| `Pcm16.LowByte` | cmd/root_test.go:328 | the low byte is the sample reduced modulo 256 (its two's-complement low 8 bits) |
| `Pcm16.HighByte` | cmd/root_test.go:329 | the high byte, read as signed, times 256 plus the low byte gives back the sample (arithmetic shift by 8) |
| `Pcm16.SampleFromBytes` | cmd/root_test.go:328-329 | the inverse of the byte layout written at 328-329 (the file has no decoder): decoding a low/high byte pair gives `lo + 256*hi` taken as two's-complement 16-bit; the result is negative exactly when the high byte's top bit is set |
| `Pcm16.SampleRoundTrip` | cmd/root_test.go:328-329 | the low byte (`sample & 0xFF`) and high byte (`(sample >> 8) & 0xFF`) of any int16 decode back to that sample |
| `Pcm16.BytesRoundTrip` | cmd/root_test.go:328-329 | every byte pair is the encoding of the sample it decodes to |
| `Pcm16.Encode` | cmd/root_test.go:320 | the encoded buffer has exactly two bytes per sample |
| `Pcm16.Decode` | cmd/root_test.go:328-329 | the inverse of the layout written at 328-329 (the file has no decoder): an even-length buffer decodes to half as many samples |
| `Pcm16.EncodeAt` | cmd/root_test.go:328-329 | in the encoding, byte `2k` is the low byte and byte `2k+1` the high byte of sample `k` |
| `Pcm16.DecodeAt` | cmd/root_test.go:328-329 | decoded sample `i` comes from bytes `2i` and `2i+1` |
| `Pcm16.DecodeEncode` | cmd/root_test.go:318-333 | decoding the encoding of any samples gives the samples back |
| `Pcm16.EncodeDecode` | cmd/root_test.go:318-333 | encoding the decoding of any even-length buffer gives the buffer back |
| `Pcm16.EncodeSamples` | cmd/root_test.go:318-333 | the loop allocates `2*numSamples` bytes and writes each sample's low and high byte in place; the array equals `Encode(samples)` and decodes back to the samples |
| `Playback.MockAudioPlayer.constructor` | cmd/root_test.go:227-229 | a fresh player has played nothing and keeps the given duration |
| `Playback.MockAudioPlayer.Play` | cmd/root_test.go:23-29 | playing stores the buffer as `PlayedAudio`, sets `Played`, returns no error and leaves the duration alone |
| `Playback.PcmStream.constructor` | cmd/root_test.go:436-445 | a stream over `data` has `Len() == len(data)/2`, position 0 and no error |
| `Playback.PcmStream.Len` | cmd/root_test.go:443 | the length is the number of whole 16-bit samples in the buffer |
| `Playback.PcmStream.Position` | cmd/root_test.go:444 | in a valid stream the position lies between 0 and `Len()` |
| `Playback.PcmStream.Err` | cmd/root_test.go:445 | in a valid stream `Err()` is nil (None); the constructor establishes validity and `Seek` keeps it |
| `Playback.PcmStream.Seek` | cmd/root_test.go:448-450 | seeking to a sample inside the buffer succeeds and sets the position to it; only the position changes |
| `Playback.AudioPlaybackScenario` | cmd/root_test.go:225-248 | the encoded buffer reaches the player unchanged, playback reports no error, the buffer has two bytes per sample and decodes to the samples |
| `Playback.PcmStreamScenario` | cmd/root_test.go:432-453 | a stream over an encoded buffer of at least 100 samples has one sample per two bytes, starts at 0 with no error, and `Seek(100)` succeeds and moves it to 100 |

## Left out

- The production tool handlers and the `PCMStream` type are defined outside `cmd/root_test.go`. The handlers modelled are the test file's re-creations of them, and for `PCMStream` only what the test asserts is modelled.
- Playback.PcmStream.Seek: its contract covers only in-range targets (`0 <= target <= Len()`). The test asserts only `Seek(100)` on a 12000-sample stream.
- Playback.PcmStream: reads, end-of-stream and changes of the error state are not modelled, because the test never exercises them. The class invariant therefore includes "no error recorded", and `Err()` is nil in every valid stream.
- An out-of-range speed is silently replaced by 1.0, never reported as an error; the model does the same.
- `sinApprox`, the `int16(32767*0.1*...)` sample computation and `numSamples := int(float64(sampleRate)*duration)` are floating-point numerics. `EncodeSamples` takes the int16 samples, and hence their count, as input.
- `time.Sleep` in `Play`, `time.Since`, and all `t.Log` output are left out, as is the rest of the timing.
- Go slices are modelled as values (`seq`), so the aliasing between `audioData` and `PlayedAudio` is not captured. The tests compare them only by content.
- JSON marshalling, `mcp.CallToolRequest`, `GetArguments` and `mcp.NewToolResultText` are library calls. The argument map is taken as already decoded, and a result is a `ToolResult(text, isError)`. The handlers' second return value is always nil and is not modelled.
- `os.Getenv` and `os.Setenv` are not modelled as calls: the environment is a map parameter.
- `fmt.Sprintf("%.1f")` rendering of the speed is a `speedText` parameter of `OpenAiResultText`. The resolved speed itself is a `real` in the request.
- float64 is modelled as `real`. Rounding and NaN are not modelled; JSON cannot produce NaN.
- Voice and model allow-lists in the `*ParameterValidation` tests are left out, because the handlers never enforce them.
- The benchmark loops are left out. `BenchmarkOpenAITTSTool` resolves instructions without the environment fallback, and it is not the handler.
- `test/main.go` is a stdio MCP client. It is only I/O, with no logic to model.
