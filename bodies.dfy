/**
 * The request-body builders (`build_tgi_body`, `build_api_body`,
 * `build_ollama_body`, `build_openai_body`), each with the reading a backend
 * makes of the body, so that what a body carries can be stated as a round trip.
 */
module Bodies {
  import opened Wrappers
  import opened Json
  import opened Serde
  import opened LlmLs

  // ---------------------------------------------------------------------------
  // Builders

  /** `{"inputs": prompt, "parameters": {max_new_tokens, temperature, do_sample, top_p, stop_tokens}}`. */
  function BuildTgiBody(prompt: string, params: RequestParams): (r: Json)
    ensures r.JObj? && r.fields.Keys == {"inputs", "parameters"}
    ensures r.fields["parameters"].JObj?
    ensures r.fields["parameters"].fields.Keys == {"max_new_tokens", "temperature", "do_sample", "top_p", "stop_tokens"}
  {
    JObj(map[
      "inputs" := JStr(prompt),
      "parameters" := JObj(map[
        "max_new_tokens" := JInt(params.max_new_tokens),
        "temperature" := FromFloat(params.temperature),
        "do_sample" := JBool(params.do_sample),
        "top_p" := FromFloat(params.top_p),
        "stop_tokens" := StringArray(params.stop_tokens)])])
  }

  /** The HuggingFace Inference API takes the TGI body unchanged. */
  function BuildApiBody(prompt: string, params: RequestParams): (r: Json)
    ensures r == BuildTgiBody(prompt, params)
  {
    BuildTgiBody(prompt, params)
  }

  /**
   * `request_body.get("model")`: the caller's `model` entry, or `null` when
   * the request body has none.
   */
  function ModelOf(requestBody: map<string, Json>): (r: Json)
    ensures "model" !in requestBody ==> r == JNull
    ensures "model" in requestBody ==> r == requestBody["model"]
  {
    if "model" in requestBody then requestBody["model"] else JNull
  }

  /**
   * `{"prompt", "model", "stream": false, "options": {num_predict, temperature, top_p, stop}}`.
   * `build_ollama_body` panics (its `.expect`) when `request_body` is absent.
   */
  function BuildOllamaBody(prompt: string, params: CompletionParams): (r: Json)
    requires params.request_body.Some?
    ensures r.JObj? && r.fields.Keys == {"prompt", "model", "stream", "options"}
    ensures r.fields["options"].JObj?
    ensures r.fields["options"].fields.Keys == {"num_predict", "temperature", "top_p", "stop"}
  {
    var p := params.request_params;
    JObj(map[
      "prompt" := JStr(prompt),
      "model" := ModelOf(params.request_body.value),
      "stream" := JBool(false),
      "options" := JObj(map[
        "num_predict" := JInt(p.max_new_tokens),
        "temperature" := FromFloat(p.temperature),
        "top_p" := FromFloat(p.top_p),
        "stop" := StringArray(p.stop_tokens)])])
  }

  /**
   * `{"prompt", "model", "max_tokens", "temperature", "top_p", "stop"}`.
   * `build_openai_body` panics (its `.expect`) when `request_body` is absent.
   */
  function BuildOpenAIBody(prompt: string, params: CompletionParams): (r: Json)
    requires params.request_body.Some?
    ensures r.JObj? && r.fields.Keys == {"prompt", "model", "max_tokens", "temperature", "top_p", "stop"}
  {
    var p := params.request_params;
    JObj(map[
      "prompt" := JStr(prompt),
      "model" := ModelOf(params.request_body.value),
      "max_tokens" := JInt(p.max_new_tokens),
      "temperature" := FromFloat(p.temperature),
      "top_p" := FromFloat(p.top_p),
      "stop" := StringArray(p.stop_tokens)])
  }

  // ---------------------------------------------------------------------------
  // What a backend reads from a body

  function AsNat(j: Json): Option<nat> {
    if j.JInt? && j.i >= 0 then Some(j.i as nat) else None
  }

  function AsBool(j: Json): Option<bool> {
    if j.JBool? then Some(j.b) else None
  }

  /**
   * An optional float field as a backend reads it: `null` is no value, a
   * float is that value, anything else is refused.
   */
  function AsOptFloat(j: Json): Option<Option<Float>> {
    match j
    case JNull => Some(None)
    case JFloat(f) => Some(Some(f))
    case _ => None
  }

  /** What a backend receives for a float parameter: the value when finite, nothing otherwise. */
  function Sent(f: Float): Option<Float> {
    if f.IsFinite() then Some(f) else None
  }

  /** The entry `key` of an object, or `null` when it is missing (as an optional field reads). */
  function Field(j: Json, key: string): Json {
    Get(j, key).GetOr(JNull)
  }

  /** What a TGI server reads from a request: the prompt and the generation parameters. */
  datatype TgiRequest = TgiRequest(
    inputs: string, max_new_tokens: nat, temperature: Option<Float>,
    do_sample: bool, top_p: Option<Float>, stop_tokens: seq<string>)

  function ReadTgiBody(j: Json): Option<TgiRequest> {
    var ps := Field(j, "parameters");
    match (AsString(Field(j, "inputs")), AsNat(Field(ps, "max_new_tokens")), AsOptFloat(Field(ps, "temperature")),
           AsBool(Field(ps, "do_sample")), AsOptFloat(Field(ps, "top_p")), SeqOf(Field(ps, "stop_tokens"), AsString))
    case (Some(prompt), Some(n), Some(t), Some(s), Some(tp), Some(stop)) =>
      Some(TgiRequest(prompt, n, t, s, tp, stop))
    case _ => None
  }

  /** What an Ollama server reads from a request. */
  datatype OllamaRequest = OllamaRequest(
    prompt: string, model: Json, stream: bool,
    num_predict: nat, temperature: Option<Float>, top_p: Option<Float>, stop: seq<string>)

  function ReadOllamaBody(j: Json): Option<OllamaRequest> {
    var os := Field(j, "options");
    match (AsString(Field(j, "prompt")), AsBool(Field(j, "stream")), AsNat(Field(os, "num_predict")),
           AsOptFloat(Field(os, "temperature")), AsOptFloat(Field(os, "top_p")), SeqOf(Field(os, "stop"), AsString))
    case (Some(prompt), Some(stream), Some(n), Some(t), Some(tp), Some(stop)) =>
      Some(OllamaRequest(prompt, Field(j, "model"), stream, n, t, tp, stop))
    case _ => None
  }

  /** What an OpenAI-compatible server reads from a request. */
  datatype OpenAIRequest = OpenAIRequest(
    prompt: string, model: Json, max_tokens: nat, temperature: Option<Float>, top_p: Option<Float>, stop: seq<string>)

  function ReadOpenAIBody(j: Json): Option<OpenAIRequest> {
    match (AsString(Field(j, "prompt")), AsNat(Field(j, "max_tokens")), AsOptFloat(Field(j, "temperature")),
           AsOptFloat(Field(j, "top_p")), SeqOf(Field(j, "stop"), AsString))
    case (Some(prompt), Some(n), Some(t), Some(tp), Some(stop)) =>
      Some(OpenAIRequest(prompt, Field(j, "model"), n, t, tp, stop))
    case _ => None
  }

  // ---------------------------------------------------------------------------
  // Round trips

  /**
   * A TGI body carries the prompt and every generation parameter, stop tokens
   * verbatim and in order; a float arrives when finite and as nothing otherwise.
   */
  lemma TgiBodyRoundTrip(prompt: string, params: RequestParams)
    ensures ReadTgiBody(BuildTgiBody(prompt, params)) == Some(TgiRequest(
      prompt, params.max_new_tokens, Sent(params.temperature),
      params.do_sample, Sent(params.top_p), params.stop_tokens))
  {
    StringArrayRoundTrip(params.stop_tokens);
  }

  /**
   * In every body, temperature and top_p are sent as `null` exactly when they
   * are not finite.
   */
  lemma NonFiniteFloatsBecomeNull(prompt: string, params: CompletionParams)
    requires params.request_body.Some?
    ensures var p := params.request_params;
      var tgi := Field(BuildTgiBody(prompt, p), "parameters");
      var ollama := Field(BuildOllamaBody(prompt, params), "options");
      var openai := BuildOpenAIBody(prompt, params);
      && (!p.temperature.IsFinite() <==> Field(tgi, "temperature") == JNull)
      && (!p.top_p.IsFinite() <==> Field(tgi, "top_p") == JNull)
      && (!p.temperature.IsFinite() <==> Field(ollama, "temperature") == JNull)
      && (!p.top_p.IsFinite() <==> Field(ollama, "top_p") == JNull)
      && (!p.temperature.IsFinite() <==> Field(openai, "temperature") == JNull)
      && (!p.top_p.IsFinite() <==> Field(openai, "top_p") == JNull)
  {
  }

  /**
   * An Ollama body carries the prompt, the caller's `model` entry (`null` when
   * absent), `stream: false`, max_new_tokens as num_predict, the finite floats
   * and the stop tokens verbatim; `do_sample` is not sent.
   */
  lemma OllamaBodyRoundTrip(prompt: string, params: CompletionParams)
    requires params.request_body.Some?
    ensures ReadOllamaBody(BuildOllamaBody(prompt, params)) == Some(OllamaRequest(
      prompt, ModelOf(params.request_body.value), false,
      params.request_params.max_new_tokens, Sent(params.request_params.temperature),
      Sent(params.request_params.top_p), params.request_params.stop_tokens))
  {
    StringArrayRoundTrip(params.request_params.stop_tokens);
  }

  /**
   * An OpenAI body carries the prompt, the caller's `model` entry (`null` when
   * absent), max_new_tokens as max_tokens, the finite floats and the stop
   * tokens verbatim.
   */
  lemma OpenAIBodyRoundTrip(prompt: string, params: CompletionParams)
    requires params.request_body.Some?
    ensures ReadOpenAIBody(BuildOpenAIBody(prompt, params)) == Some(OpenAIRequest(
      prompt, ModelOf(params.request_body.value),
      params.request_params.max_new_tokens, Sent(params.request_params.temperature),
      Sent(params.request_params.top_p), params.request_params.stop_tokens))
  {
    StringArrayRoundTrip(params.request_params.stop_tokens);
  }
}
