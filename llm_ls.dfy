/**
 * Stand-ins for the types the adaptor layer takes from its parent module and
 * from the crate's error module, reduced to what the adaptors use.
 */
module LlmLs {
  import opened Wrappers
  import opened Json
  import opened AdaptorKind
  import opened OpenAIErrors

  /** The client's crate name, as sent in the `User-Agent` header. */
  const NAME: string := "llm-ls"

  /** The client's crate version; fixed at build time and not part of this model. */
  const VERSION: string

  /** One normalized completion. */
  datatype Generation = Generation(generated_text: string)

  /** The error object of the HuggingFace, TGI and Ollama backends: a free-form message. */
  datatype APIError = APIError(error: string)

  /** The editor the request comes from; only its `Debug` rendering is used here. */
  datatype Ide = Ide(debug: string)

  /** The sampling controls shared by all backends (`RequestParams`). */
  datatype RequestParams = RequestParams(
    max_new_tokens: nat,
    temperature: Float,
    do_sample: bool,
    top_p: Float,
    stop_tokens: seq<string>)

  /** The part of `CompletionParams` the adaptors read. */
  datatype CompletionParams = CompletionParams(
    adaptor: Option<Adaptor>,
    request_body: Option<map<string, Json>>,
    request_params: RequestParams)

  /** The crate's `Error`, restricted to the variants the adaptor layer produces. */
  datatype Error =
    | Deserialize        // serde_json could not read the text as the expected shape
    | InvalidHeaderValue // `HeaderValue::from_str` refused a value
    | InvalidAdaptor     // a TGI backend answered with a list of generations
    | InferenceApi(apiError: APIError)
    | Tgi(tgiError: APIError)
    | Ollama(ollamaError: APIError)
    | OpenAI(openAIError: OpenAIError)
}
