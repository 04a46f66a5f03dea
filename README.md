# llm-ls backend adaptors, modelled in Dafny

This project models the adaptor layer of llm-ls (`crates/llm-ls/src/adaptors.rs`).
The layer turns a prompt and generation parameters into the request body and
headers of one of four completion backends: the HuggingFace Inference API,
Text Generation Inference (TGI), Ollama and an OpenAI-compatible server. It
then turns the backend's JSON answer into an ordered list of generations or a
backend-tagged error.

Modules, one per concern of the source file:

- `Wrappers`: `Option` and `Result`.
- `Json`: the decoded JSON tree (`serde_json::Value`). Objects are maps. An `f32` is an opaque bit pattern that is only copied.
- `Serde`: what serde's derived `Deserialize` accepts for strings, `u32`, `Vec<T>` and structs. A struct reads from an object that holds all of its fields, where extra keys are ignored. It also reads from an array of exactly as many values as it has fields.
- `AdaptorKind`: the `Adaptor` enum, its default, `Display` and its lowercase serde tag.
- `OpenAIErrors`: `OpenAIErrorLoc`, `OpenAIErrorDetail` and `OpenAIError`, how they are read, and their `Display`. The `Display` for `OpenAIError` is a method with the source's loop. It is proved equal to a newline join of the detail lines.
- `LlmLs`: stand-ins for the parent-module and error-module types the adaptors use.
- `Bodies`: the four body builders. Each has a reader that stands for the backend's side, and a round-trip lemma showing what the body carries.
- `Headers`: the header builders. They are methods that insert into a local header map, and they are specified by the predicate `IsTgiHeaders`.
- `Responses`: the four response parsers. Each untagged enum tries its variants in declaration order.
- `Dispatch`: `adapt_body`, `adapt_headers` and `parse_generations`.

Response text that is not JSON at all is represented as `None` and yields the
`Deserialize` error. So does JSON that fits none of a backend's shapes.

## Model

| member | source | states |
|---|---|---|
| `AdaptorKind.Default` | crates/llm-ls/src/adaptors.rs:199-207 | the default adaptor is HuggingFace |
| `AdaptorKind.Resolve` | crates/llm-ls/src/adaptors.rs:221 | an absent selector resolves to HuggingFace and a present one to itself |
| `AdaptorKind.Display` | crates/llm-ls/src/adaptors.rs:209-218 | every adaptor displays as its own variant identifier lowercased (`HuggingFace` as `huggingface`, and so on), one of the four names |
| `AdaptorKind.FromTag` | crates/llm-ls/src/adaptors.rs:199-207 | a tag reads as a variant exactly when it is one of the four lowercase names, and then it is that variant's display name |
| `AdaptorKind.TagRoundTrip` | crates/llm-ls/src/adaptors.rs:199-218 | the lowercase serde tag names a variant exactly when it is that variant's display |
| `AdaptorKind.TagIsLoweredVariantName` | crates/llm-ls/src/adaptors.rs:199-206 | under `rename_all = "lowercase"`, each variant's identifier lowercased is the tag that selects that variant |
| `AdaptorKind.DisplayBijective` | crates/llm-ls/src/adaptors.rs:209-218 | display is injective, and its images are exactly the four names |
| `Json.FromFloat` | crates/llm-ls/src/adaptors.rs:17-19 | a float is copied into the JSON unchanged when finite, and becomes `null` exactly when it is not finite |
| `Serde.AsU32` | crates/llm-ls/src/adaptors.rs:146 | a `u32` reads only from a JSON integer in 0..2^32, and keeps its value |
| `Serde.StructFields` | crates/llm-ls/src/adaptors.rs:82-85 | a struct reads from an object holding all its fields or from an array of exactly its field count, and yields the field values in order |
| `Serde.DecodeAll` | crates/llm-ls/src/adaptors.rs:139 | a `Vec` reads iff every element reads; the result has the same length and each element's reading, in order |
| `Serde.StringArrayRoundTrip` | crates/llm-ls/src/adaptors.rs:20 | the stop tokens written into a body read back verbatim and in order |
| `OpenAIErrors.Decimal` | crates/llm-ls/src/adaptors.rs:153 | the decimal form of an integer is non-empty, all digits, and has no leading zero unless it is "0" |
| `OpenAIErrors.DecimalRoundTrip` | crates/llm-ls/src/adaptors.rs:153 | the decimal form denotes the integer it was made from |
| `OpenAIErrors.LocDisplay` | crates/llm-ls/src/adaptors.rs:149-156 | a string location renders as itself, and an integer location as its canonical decimal form, which denotes that integer |
| `OpenAIErrors.DetailLines` | crates/llm-ls/src/adaptors.rs:176 | one `loc: msg (type)` line per detail, in order |
| `OpenAIErrors.JoinLines` | crates/llm-ls/src/adaptors.rs:172-178 | the empty list joins to the empty string, and a single item to itself |
| `OpenAIErrors.JoinLinesSnoc` | crates/llm-ls/src/adaptors.rs:173-176 | appending an item to a non-empty join appends exactly one newline and the item |
| `OpenAIErrors.SplitJoinLines` | crates/llm-ls/src/adaptors.rs:172-178 | the items are separated by single newlines with none leading or trailing: splitting the output at newlines gives back every newline-free item, in order |
| `OpenAIErrors.Display` | crates/llm-ls/src/adaptors.rs:170-180 | the loop writes a newline before each detail except the first; the output is the newline join of the detail lines |
| `OpenAIErrors.DisplayExample` | crates/llm-ls/src/adaptors.rs:176 | the detail `{"loc":"body","msg":"bad","type":"value_error"}` renders as `body: bad (value_error)` |
| `OpenAIErrors.DecodeLoc` | crates/llm-ls/src/adaptors.rs:142-147 | the untagged location reads exactly a JSON string (as the String variant) or an integer in `0..2^32` (as the Int variant holding it); null, booleans, floats, negative or too-large integers, arrays and objects are refused |
| `OpenAIErrors.DecodeDetail` | crates/llm-ls/src/adaptors.rs:158-163 | a detail reads from an object with a readable `loc` and string `msg` and `type` (other keys ignored), taking those values, or from a three-element array `[loc, msg, type]`, taking them in that order |
| `OpenAIErrors.DecodeOpenAIError` | crates/llm-ls/src/adaptors.rs:165-168 | an error reads from an object whose `detail` is an array of readable details (other keys ignored), keeping them in order, or from a one-element array, taking its element's details in order |
| `OpenAIErrors.OpenAIErrorRoundTrip` | crates/llm-ls/src/adaptors.rs:142-168 | every OpenAI error payload reads back as the error it encodes, details in order |
| `Bodies.BuildTgiBody` | crates/llm-ls/src/adaptors.rs:12-23 | the TGI body has exactly the keys `inputs` and `parameters`, and `parameters` has exactly its five keys |
| `Bodies.BuildApiBody` | crates/llm-ls/src/adaptors.rs:48-50 | the HuggingFace body is the TGI body |
| `Bodies.ModelOf` | crates/llm-ls/src/adaptors.rs:67 | the `model` entry is the request body's `model`, or `null` when that key is missing |
| `Bodies.BuildOllamaBody` | crates/llm-ls/src/adaptors.rs:64-77 | the Ollama body has exactly `prompt`, `model`, `stream` and `options`, and `options` has exactly its four keys; it requires a request body |
| `Bodies.BuildOpenAIBody` | crates/llm-ls/src/adaptors.rs:109-118 | the OpenAI body has exactly its six keys; it requires a request body |
| `Bodies.TgiBodyRoundTrip` | crates/llm-ls/src/adaptors.rs:12-23 | whatever the floats are, a TGI server reads back the prompt, `max_new_tokens`, `do_sample` and the stop tokens unchanged, and each float as itself when finite and as absent otherwise |
| `Bodies.NonFiniteFloatsBecomeNull` | crates/llm-ls/src/adaptors.rs:12-23 | in all three bodies, temperature and top_p are `null` exactly when they are not finite |
| `Bodies.OllamaBodyRoundTrip` | crates/llm-ls/src/adaptors.rs:64-77 | whatever the floats are, an Ollama server reads the prompt, the caller's model (or null), `stream: false`, `num_predict = max_new_tokens` and the stop tokens verbatim, and each float as itself when finite and as absent otherwise |
| `Bodies.OpenAIBodyRoundTrip` | crates/llm-ls/src/adaptors.rs:109-118 | whatever the floats are, an OpenAI server reads the prompt, the caller's model (or null), `max_tokens = max_new_tokens` and the stop tokens verbatim, and each float as itself when finite and as absent otherwise |
| `Headers.HeaderValueFromStr` | crates/llm-ls/src/adaptors.rs:28 | a header value is accepted, unchanged, exactly when it is valid; otherwise the error is `InvalidHeaderValue` |
| `Headers.UserAgentValue` | crates/llm-ls/src/adaptors.rs:27 | the User-Agent is `NAME/`, then VERSION, then `; rust/unknown; ide/`, then the editor's debug string, each at its exact position; it is a valid header value exactly when VERSION and the debug string are |
| `Headers.ValidHeaderValueConcat` | crates/llm-ls/src/adaptors.rs:27 | a concatenation is a valid header value exactly when both parts are |
| `Headers.TgiHeadersUnique` | crates/llm-ls/src/adaptors.rs:25-38 | the header promise determines the outcome uniquely |
| `Headers.TokenWithControlCharFails` | crates/llm-ls/src/adaptors.rs:30-35 | a token holding a newline or another control character other than tab makes the build fail |
| `Headers.BuildTgiHeaders` | crates/llm-ls/src/adaptors.rs:25-38 | fails iff an inserted value is invalid; `User-Agent` is always present; `Authorization` is present iff a token is given, and then holds `Bearer <token>` |
| `Headers.BuildApiHeaders` | crates/llm-ls/src/adaptors.rs:52-54 | keeps the same promise as the TGI builder |
| `Headers.BuildOllamaHeaders` | crates/llm-ls/src/adaptors.rs:78-80 | always succeeds with an empty header map |
| `Headers.BuildOpenAIHeaders` | crates/llm-ls/src/adaptors.rs:120-122 | keeps the same promise as the TGI builder |
| `Responses.DecodeGeneration` | crates/llm-ls/src/adaptors.rs:41-42 | a generation reads from an object with a string `generated_text` (other keys ignored), taking that text, or from a one-string array, taking its string |
| `Responses.DecodeApiError` | crates/llm-ls/src/adaptors.rs:44 | an API error reads from an object with a string `error` (other keys ignored), taking that message, or from a one-string array, taking its string |
| `Responses.DecodeApiResponse` | crates/llm-ls/src/adaptors.rs:41-45 | the single generation wins when it reads; otherwise the list when it reads; otherwise the error object when it reads; nothing exactly when no shape reads |
| `Responses.ParseTgiText` | crates/llm-ls/src/adaptors.rs:40-46 | a single generation gives the singleton; `InvalidAdaptor` exactly when not a single generation but a list; otherwise an error object gives `Tgi(err)`; `Deserialize` exactly when the text is not JSON or no shape reads |
| `Responses.ParseApiText` | crates/llm-ls/src/adaptors.rs:56-62 | a single generation gives the singleton; otherwise a list is returned unchanged; otherwise an error object gives `InferenceApi(err)`; `Deserialize` exactly when the text is not JSON or no shape reads |
| `Responses.TgiIsApiWithoutLists` | crates/llm-ls/src/adaptors.rs:40-62 | TGI agrees with the API parser on success, turns every other API success into `InvalidAdaptor`, and reports the same backend errors under its own tag |
| `Responses.GenerationsRoundTrip` | crates/llm-ls/src/adaptors.rs:59 | a list of generation objects is not a single generation, and reads back as the same list |
| `Responses.ApiParsesList` | crates/llm-ls/src/adaptors.rs:59 | the API parser returns a list of generations unchanged, with the same length and order |
| `Responses.TgiRejectsList` | crates/llm-ls/src/adaptors.rs:43 | TGI answers `InvalidAdaptor` to every list of generation objects, including one of length 1 |
| `Responses.SingleGenerationParses` | crates/llm-ls/src/adaptors.rs:42 | a single generation object yields the list holding just that generation, for both parsers |
| `Responses.ApiErrorParses` | crates/llm-ls/src/adaptors.rs:44 | an error object yields `InferenceApi(err)` or `Tgi(err)` with `err` unchanged |
| `Responses.GenerationShapeWins` | crates/llm-ls/src/adaptors.rs:41-42 | any value that reads as a generation parses as that single generation, whatever else it holds |
| `Responses.OneStringArrayIsSingleGeneration` | crates/llm-ls/src/adaptors.rs:41-42 | the array `["text"]` reads as one generation, and TGI accepts it |
| `Responses.GenerationFromOllama` | crates/llm-ls/src/adaptors.rs:87-93 | the generation's text is the `response` field verbatim |
| `Responses.DecodeOllamaGeneration` | crates/llm-ls/src/adaptors.rs:82-85 | an Ollama generation reads from an object with a string `response` (other keys ignored), taking it, or from a one-string array, taking its string |
| `Responses.ParseOllamaText` | crates/llm-ls/src/adaptors.rs:102-107 | a generation shape gives exactly one generation holding `response` verbatim; otherwise an error object gives `Ollama(err)`; `Deserialize` exactly when the text is not JSON or neither shape reads |
| `Responses.OllamaParses` | crates/llm-ls/src/adaptors.rs:95-107 | `{"response": r}` yields the one generation `r`, and an error object yields `Ollama(err)` |
| `Responses.OllamaIgnoresExtraKeys` | crates/llm-ls/src/adaptors.rs:82-107 | an object with a string `response` and any other keys yields the one generation holding that response |
| `Responses.ErrorObjectIgnoresExtraKeys` | crates/llm-ls/src/adaptors.rs:40-107 | an object with a string `error`, other keys, and no generation key yields `InferenceApi`, `Tgi` or `Ollama` of that message |
| `Responses.GenerationFromChoice` | crates/llm-ls/src/adaptors.rs:129-135 | the generation's text is the choice's `text` verbatim |
| `Responses.DecodeChoice` | crates/llm-ls/src/adaptors.rs:124-127 | a choice reads from an object with a string `text` (other keys ignored), taking it, or from a one-string array, taking its string |
| `Responses.DecodeOpenAIGeneration` | crates/llm-ls/src/adaptors.rs:137-140 | a completion reads from an object whose `choices` is an array of readable choices (other keys ignored), keeping them in order, or from a one-element array, taking its element's choices in order |
| `Responses.GenerationsFromChoices` | crates/llm-ls/src/adaptors.rs:193 | one generation per choice, with the same length, each holding its choice's text in order |
| `Responses.ParseOpenAIText` | crates/llm-ls/src/adaptors.rs:189-197 | a completion shape gives one generation per choice, in order, holding its text; otherwise an error shape gives `OpenAI(err)` with the details unchanged; `Deserialize` exactly when the text is not JSON or neither shape reads |
| `Responses.OpenAIParsesChoices` | crates/llm-ls/src/adaptors.rs:189-194 | a completion payload yields one generation per choice, in order |
| `Responses.OpenAIIgnoresExtraKeys` | crates/llm-ls/src/adaptors.rs:124-140 | choices carrying extra keys, in an object with extra keys, still yield one generation per choice holding its `text`, in order |
| `Responses.OpenAIErrorParses` | crates/llm-ls/src/adaptors.rs:182-197 | an error payload yields `OpenAI(err)` with its details unchanged |
| `Responses.OpenAIExample` | crates/llm-ls/src/adaptors.rs:189-194 | `{"choices":[{"text":"a"},{"text":"b"}]}` yields the generations "a" then "b" |
| `Responses.ArrayFormsParse` | crates/llm-ls/src/adaptors.rs:82-85 | serde's positional struct form: `["hi"]` is the Ollama generation "hi", and `{"choices":[["a"]]}` the completion "a" |
| `Responses.ArrayLocIsDeserializeError` | crates/llm-ls/src/adaptors.rs:142-147 | an error payload whose `loc` is an array of path segments fits no location variant and gives `Deserialize`, not `OpenAI(err)` |
| `Dispatch.AdaptBody` | crates/llm-ls/src/adaptors.rs:220-227 | never fails; HuggingFace and TGI send the TGI body, Ollama the Ollama body and OpenAI the OpenAI body, so the round-trip lemmas apply; it requires a request body only for Ollama and OpenAI |
| `Dispatch.AdaptHeaders` | crates/llm-ls/src/adaptors.rs:229-240 | Ollama gets an empty map; the other three backends keep the TGI header promise |
| `Dispatch.ParseGenerations` | crates/llm-ls/src/adaptors.rs:242-249 | the result is the resolved backend's parser applied to the text; each backend-tagged error comes only from its own backend, and parsing never gives a header error |
| `Dispatch.AbsentIsHuggingFace` | crates/llm-ls/src/adaptors.rs:220-249 | an absent selector gives the same body and the same parse result as `Some(HuggingFace)` |
| `Dispatch.NonOllamaHeadersAgree` | crates/llm-ls/src/adaptors.rs:229-240 | an absent selector, HuggingFace, TGI and OpenAI give equal header results for the same token and editor, all keeping the TGI header promise |

## Left out

- Decoding text into JSON (`serde_json::from_str`) is not modelled. A parser receives the decoded tree, and `None` stands for text that is not JSON.
- The serde error's message is not modelled. A shape mismatch and malformed JSON are both the single `Deserialize` error.
- JSON object key order and duplicate keys are not modelled, because objects are maps.
- A `u32` location written as a float (`1.0`) is refused, as serde refuses it. Integers outside serde_json's 64-bit range are not distinguished.
- Float semantics are not modelled: `temperature` and `top_p` are opaque bit patterns. The `f32` to `f64` widening in `serde_json::Value` is not modelled. The one float rule that is modelled is that a non-finite value becomes `null`.
- The panics at crates/llm-ls/src/adaptors.rs:67 and :112 (the `.expect` in `build_ollama_body` and `build_openai_body`) are not turned into returned errors. They are the requirements that `request_body` is present, on `BuildOllamaBody`, `BuildOpenAIBody` and, for those two backends, `AdaptBody`.
- The parent module is not part of this model. `Generation`, `APIError`, `APIResponse`, `Ide`, `RequestParams`, `CompletionParams`, `internal_error`, `NAME` and `VERSION` are stand-ins:
  - `Generation` holds `generated_text`.
  - `APIError` holds a message read from an `error` string field.
  - `Ide` contributes only its `Debug` string.
  - `max_new_tokens` is an unbounded natural number.
  - `stop_tokens` is a list of strings.
  - `NAME` is `llm-ls`, and `VERSION` is an unspecified constant.
  - `APIResponse` is assumed untagged, with the variants Generation, Generations and Error in that order.
- The crate's `Error` type (crates/llm-ls/src/error.rs) is not part of this model. Only the variants the adaptors produce are declared.
- `reqwest`'s `HeaderMap` and `HeaderValue` internals are not modelled. A header map is a map from the two header names used to their string values. Header-value validity is checked character by character, with the byte rule `HeaderValue::from_str` applies.
- `OpenAIErrors.Display`: does not model a formatter that fails. The formatter here is an infallible string, so the `?` after each write never returns early.
- The `Serialize` derive of `Adaptor` and the forms of `Deserialize` other than a plain string tag are not modelled. The tag strings are the same as the display names.
- A shape mismatch does not name the backend or the payload size. The code only propagates serde_json's error, and the model follows the code.
- TGI does not reject every JSON array. The code relies on serde, whose derived structs also read from arrays, so `["text"]` is accepted as a single generation (`Responses.OneStringArrayIsSingleGeneration`). Every array of generation objects is rejected (`Responses.TgiRejectsList`).
- The build helper's flag parsing (`xtask/src/flags.rs`) is not part of this model. It is generated CLI parsing with no adaptor logic.
