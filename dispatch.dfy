/**
 * The dispatchers `adapt_body`, `adapt_headers` and `parse_generations`:
 * each resolves the selector (HuggingFace when absent) and routes to the
 * backend's builder or parser.
 */
module Dispatch {
  import opened Wrappers
  import opened Json
  import opened AdaptorKind
  import opened LlmLs
  import opened Bodies
  import opened Headers
  import opened Responses

  /**
   * The backends that read the caller's `request_body` (for its `model`);
   * `build_ollama_body` and `build_openai_body` panic when it is absent, so
   * callers must supply it.
   */
  predicate NeedsRequestBody(a: Adaptor) {
    a == Adaptor.Ollama || a == Adaptor.OpenAi
  }

  /** `adapt_body`: never an error; HuggingFace and TGI send the same body. */
  function AdaptBody(prompt: string, params: CompletionParams): (r: Result<Json, Error>)
    requires NeedsRequestBody(Resolve(params.adaptor)) ==> params.request_body.Some?
    ensures r.Ok?
    ensures Resolve(params.adaptor) in {HuggingFace, Adaptor.Tgi} ==>
      r.value == BuildTgiBody(prompt, params.request_params)
    ensures Resolve(params.adaptor) == Adaptor.Ollama ==> r.value == BuildOllamaBody(prompt, params)
    ensures Resolve(params.adaptor) == Adaptor.OpenAi ==> r.value == BuildOpenAIBody(prompt, params)
    // The next two follow from the two above and the body round trips; they
    // spell out what each backend receives for the token limit.
    ensures Resolve(params.adaptor) == Adaptor.Ollama ==>
      Field(r.value, "stream") == JBool(false) &&
      Field(Field(r.value, "options"), "num_predict") == JInt(params.request_params.max_new_tokens)
    ensures Resolve(params.adaptor) == Adaptor.OpenAi ==>
      Field(r.value, "max_tokens") == JInt(params.request_params.max_new_tokens)
  {
    match Resolve(params.adaptor)
    case HuggingFace => Ok(BuildApiBody(prompt, params.request_params))
    case Ollama => Ok(BuildOllamaBody(prompt, params))
    case OpenAi => Ok(BuildOpenAIBody(prompt, params))
    case Tgi => Ok(BuildTgiBody(prompt, params.request_params))
  }

  /**
   * `adapt_headers`: Ollama gets no headers; the other three backends get
   * the same `User-Agent` and optional `Authorization` headers.
   */
  method AdaptHeaders(adaptor: Option<Adaptor>, apiToken: Option<string>, ide: Ide)
    returns (r: Result<HeaderMap, Error>)
    ensures Resolve(adaptor) == Adaptor.Ollama ==> r == Ok(map[])
    ensures Resolve(adaptor) != Adaptor.Ollama ==> IsTgiHeaders(r, apiToken, ide)
  {
    match Resolve(adaptor)
    case HuggingFace => r := BuildApiHeaders(apiToken, ide);
    case Ollama => r := BuildOllamaHeaders();
    case OpenAi => r := BuildOpenAIHeaders(apiToken, ide);
    case Tgi => r := BuildTgiHeaders(apiToken, ide);
  }

  /** `parse_generations`: the selected backend's parser decides the result. */
  function ParseGenerations(adaptor: Option<Adaptor>, text: Option<Json>): (r: Result<seq<Generation>, Error>)
    ensures Resolve(adaptor) == HuggingFace ==> r == ParseApiText(text)
    ensures Resolve(adaptor) == Adaptor.Ollama ==> r == ParseOllamaText(text)
    ensures Resolve(adaptor) == Adaptor.OpenAi ==> r == ParseOpenAIText(text)
    ensures Resolve(adaptor) == Adaptor.Tgi ==> r == ParseTgiText(text)
    ensures r.Err? && r.error.InvalidAdaptor? ==> Resolve(adaptor) == Adaptor.Tgi
    ensures r.Err? && r.error.InferenceApi? ==> Resolve(adaptor) == HuggingFace
    ensures r.Err? && r.error.Tgi? ==> Resolve(adaptor) == Adaptor.Tgi
    ensures r.Err? && r.error.Ollama? ==> Resolve(adaptor) == Adaptor.Ollama
    ensures r.Err? && r.error.OpenAI? ==> Resolve(adaptor) == Adaptor.OpenAi
    ensures r.Err? ==> !r.error.InvalidHeaderValue?
  {
    match Resolve(adaptor)
    case HuggingFace => ParseApiText(text)
    case Ollama => ParseOllamaText(text)
    case OpenAi => ParseOpenAIText(text)
    case Tgi => ParseTgiText(text)
  }

  /** An absent selector behaves exactly like `Some(HuggingFace)` in the body and parse dispatchers. */
  lemma AbsentIsHuggingFace(prompt: string, params: CompletionParams, text: Option<Json>)
    requires params.adaptor.None?
    ensures AdaptBody(prompt, params) == AdaptBody(prompt, params.(adaptor := Some(HuggingFace)))
    ensures ParseGenerations(None, text) == ParseGenerations(Some(HuggingFace), text)
  {
  }

  /**
   * A caller's view of `adapt_headers`: for the same token and editor, an
   * absent selector, HuggingFace, TGI and OpenAI all give the same headers
   * (or the same error). This follows from `AdaptHeaders`' promise together
   * with `TgiHeadersUnique`.
   */
  method NonOllamaHeadersAgree(apiToken: Option<string>, ide: Ide)
    returns (absent: Result<HeaderMap, Error>, huggingFace: Result<HeaderMap, Error>,
             tgi: Result<HeaderMap, Error>, openAi: Result<HeaderMap, Error>)
    ensures absent == huggingFace == tgi == openAi
    ensures IsTgiHeaders(absent, apiToken, ide)
  {
    absent := AdaptHeaders(None, apiToken, ide);
    huggingFace := AdaptHeaders(Some(HuggingFace), apiToken, ide);
    tgi := AdaptHeaders(Some(Adaptor.Tgi), apiToken, ide);
    openAi := AdaptHeaders(Some(Adaptor.OpenAi), apiToken, ide);
    TgiHeadersUnique(absent, huggingFace, apiToken, ide);
    TgiHeadersUnique(absent, tgi, apiToken, ide);
    TgiHeadersUnique(absent, openAi, apiToken, ide);
  }
}
