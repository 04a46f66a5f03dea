/**
 * The response parsers (`parse_tgi_text`, `parse_api_text`,
 * `parse_ollama_text`, `parse_openai_text`). The raw text is seen through the
 * JSON decoder: `None` stands for text that is not JSON at all. Each untagged
 * response enum tries its variants in declaration order and takes the first
 * that fits; text that fits none is a `Deserialize` error.
 */
module Responses {
  import opened Wrappers
  import opened Json
  import opened Serde
  import opened OpenAIErrors
  import opened LlmLs

  // ---------------------------------------------------------------------------
  // HuggingFace Inference API and TGI: `APIResponse`

  /** `Generation`: an object with a string `generated_text` (other keys ignored), or `[text]`. */
  function DecodeGeneration(j: Json): (r: Option<Generation>)
    ensures j.JObj? ==> (r.Some? <==> "generated_text" in j.fields && j.fields["generated_text"].JStr?)
    ensures j.JObj? && r.Some? ==> r.value.generated_text == j.fields["generated_text"].s
    ensures j.JArr? ==> (r.Some? <==> |j.items| == 1 && j.items[0].JStr?)
    ensures j.JArr? && r.Some? ==> r.value.generated_text == j.items[0].s
    ensures !j.JObj? && !j.JArr? ==> r.None?
  {
    match StructFields(j, ["generated_text"])
    case None => None
    case Some(fs) =>
      match AsString(fs[0])
      case None => None
      case Some(text) => Some(Generation(text))
  }

  /** `APIError`: an object with a string `error` (other keys ignored), or `[message]`. */
  function DecodeApiError(j: Json): (r: Option<APIError>)
    ensures j.JObj? ==> (r.Some? <==> "error" in j.fields && j.fields["error"].JStr?)
    ensures j.JObj? && r.Some? ==> r.value.error == j.fields["error"].s
    ensures j.JArr? ==> (r.Some? <==> |j.items| == 1 && j.items[0].JStr?)
    ensures j.JArr? && r.Some? ==> r.value.error == j.items[0].s
    ensures !j.JObj? && !j.JArr? ==> r.None?
  {
    match StructFields(j, ["error"])
    case None => None
    case Some(fs) =>
      match AsString(fs[0])
      case None => None
      case Some(message) => Some(APIError(message))
  }

  /** None of the three `APIResponse` shapes reads the value. */
  predicate NoApiShape(j: Json) {
    DecodeGeneration(j).None? && SeqOf(j, DecodeGeneration).None? && DecodeApiError(j).None?
  }

  /** `#[serde(untagged)] enum APIResponse { Generation, Generations, Error }`. */
  datatype ApiResponse =
    | SingleGeneration(generation: Generation)
    | GenerationList(generations: seq<Generation>)
    | ErrorResponse(apiError: APIError)

  function DecodeApiResponse(j: Json): (r: Option<ApiResponse>)
    ensures DecodeGeneration(j).Some? ==> r == Some(SingleGeneration(DecodeGeneration(j).value))
    ensures DecodeGeneration(j).None? && SeqOf(j, DecodeGeneration).Some? ==>
      r == Some(GenerationList(SeqOf(j, DecodeGeneration).value))
    ensures DecodeGeneration(j).None? && SeqOf(j, DecodeGeneration).None? && DecodeApiError(j).Some? ==>
      r == Some(ErrorResponse(DecodeApiError(j).value))
    ensures r.None? <==> NoApiShape(j)
  {
    match DecodeGeneration(j)
    case Some(g) => Some(SingleGeneration(g))
    case None =>
      match SeqOf(j, DecodeGeneration)
      case Some(gs) => Some(GenerationList(gs))
      case None =>
        match DecodeApiError(j)
        case Some(e) => Some(ErrorResponse(e))
        case None => None
  }

  /** `parse_tgi_text`: one generation, or the backend's error; a list means the wrong adaptor. */
  function ParseTgiText(text: Option<Json>): (r: Result<seq<Generation>, Error>)
    ensures r.Ok? ==> |r.value| == 1 && text.Some? && DecodeGeneration(text.value) == Some(r.value[0])
    ensures text.Some? && DecodeGeneration(text.value).Some? ==> r == Ok([DecodeGeneration(text.value).value])
    ensures r == Err(InvalidAdaptor) <==>
      text.Some? && DecodeGeneration(text.value).None? && SeqOf(text.value, DecodeGeneration).Some?
    ensures (text.Some? && DecodeGeneration(text.value).None? && SeqOf(text.value, DecodeGeneration).None? &&
             DecodeApiError(text.value).Some?) ==>
      r == Err(Error.Tgi(DecodeApiError(text.value).value))
    ensures r == Err(Deserialize) <==> text.None? || NoApiShape(text.value)
  {
    match text
    case None => Err(Deserialize)
    case Some(j) =>
      match DecodeApiResponse(j)
      case None => Err(Deserialize)
      case Some(SingleGeneration(g)) => Ok([g])
      case Some(GenerationList(_)) => Err(InvalidAdaptor)
      case Some(ErrorResponse(e)) => Err(Error.Tgi(e))
  }

  /** `parse_api_text`: one generation as a singleton, a list unchanged, or the backend's error. */
  function ParseApiText(text: Option<Json>): (r: Result<seq<Generation>, Error>)
    ensures r.Ok? ==> (
      && text.Some?
      && ((|r.value| == 1 && DecodeGeneration(text.value) == Some(r.value[0])) ||
          (DecodeGeneration(text.value).None? && SeqOf(text.value, DecodeGeneration) == Some(r.value))))
    ensures r.Err? ==> r.error.Deserialize? || r.error.InferenceApi?
    ensures text.Some? && DecodeGeneration(text.value).Some? ==> r == Ok([DecodeGeneration(text.value).value])
    ensures text.Some? && DecodeGeneration(text.value).None? && SeqOf(text.value, DecodeGeneration).Some? ==>
      r == Ok(SeqOf(text.value, DecodeGeneration).value)
    ensures (text.Some? && DecodeGeneration(text.value).None? && SeqOf(text.value, DecodeGeneration).None? &&
             DecodeApiError(text.value).Some?) ==>
      r == Err(InferenceApi(DecodeApiError(text.value).value))
    ensures r == Err(Deserialize) <==> text.None? || NoApiShape(text.value)
  {
    match text
    case None => Err(Deserialize)
    case Some(j) =>
      match DecodeApiResponse(j)
      case None => Err(Deserialize)
      case Some(SingleGeneration(g)) => Ok([g])
      case Some(GenerationList(gs)) => Ok(gs)
      case Some(ErrorResponse(e)) => Err(InferenceApi(e))
  }

  /**
   * TGI is the API parser with lists refused: it succeeds only where the API
   * parser gives a single generation, turns every list the API parser accepts
   * into `InvalidAdaptor`, and reports the same backend errors under its own tag.
   */
  lemma TgiIsApiWithoutLists(text: Option<Json>)
    ensures ParseTgiText(text).Ok? ==> ParseApiText(text) == ParseTgiText(text)
    ensures ParseApiText(text).Ok? && !ParseTgiText(text).Ok? ==> ParseTgiText(text) == Err(InvalidAdaptor)
    ensures forall e :: ParseTgiText(text) == Err(Error.Tgi(e)) <==> ParseApiText(text) == Err(InferenceApi(e))
    ensures ParseTgiText(text) == Err(Deserialize) <==> ParseApiText(text) == Err(Deserialize)
  {
  }

  // ---------------------------------------------------------------------------
  // What a HuggingFace or TGI server sends

  function EncodeGeneration(g: Generation): Json {
    JObj(map["generated_text" := JStr(g.generated_text)])
  }

  function EncodeGenerations(gs: seq<Generation>): Json {
    JArr(seq(|gs|, i requires 0 <= i < |gs| => EncodeGeneration(gs[i])))
  }

  function EncodeApiError(e: APIError): Json {
    JObj(map["error" := JStr(e.error)])
  }

  /** A list of encoded generations reads back as the same generations, in order. */
  lemma GenerationsRoundTrip(gs: seq<Generation>)
    ensures DecodeGeneration(EncodeGenerations(gs)).None?
    ensures SeqOf(EncodeGenerations(gs), DecodeGeneration) == Some(gs)
  {
    var items := EncodeGenerations(gs).items;
    if |items| == 1 {
      assert AsString(items[0]).None?;
    }
    assert forall i :: 0 <= i < |items| ==> DecodeGeneration(items[i]) == Some(gs[i]);
    var r := DecodeAll(items, DecodeGeneration);
    assert r.Some? && r.value == gs;
  }

  /** The API parser returns a list of generations unchanged: same length, same order. */
  lemma ApiParsesList(gs: seq<Generation>)
    ensures ParseApiText(Some(EncodeGenerations(gs))) == Ok(gs)
  {
    GenerationsRoundTrip(gs);
  }

  /** TGI refuses a list of generations, whatever its length, one included. */
  lemma TgiRejectsList(gs: seq<Generation>)
    ensures ParseTgiText(Some(EncodeGenerations(gs))) == Err(InvalidAdaptor)
  {
    GenerationsRoundTrip(gs);
  }

  /** Both parsers turn a single generation into a list holding just it. */
  lemma SingleGenerationParses(g: Generation)
    ensures ParseApiText(Some(EncodeGeneration(g))) == Ok([g])
    ensures ParseTgiText(Some(EncodeGeneration(g))) == Ok([g])
  {
  }

  /** An error object is reported under the backend's own tag, message unchanged. */
  lemma ApiErrorParses(e: APIError)
    ensures ParseApiText(Some(EncodeApiError(e))) == Err(InferenceApi(e))
    ensures ParseTgiText(Some(EncodeApiError(e))) == Err(Error.Tgi(e))
  {
    assert DecodeGeneration(EncodeApiError(e)).None?;
  }

  /**
   * Shape precedence: whatever else an object holds, if it reads as a
   * generation it is one, before any list or error reading is tried.
   */
  lemma GenerationShapeWins(j: Json, g: Generation)
    requires DecodeGeneration(j) == Some(g)
    ensures ParseApiText(Some(j)) == Ok([g])
    ensures ParseTgiText(Some(j)) == Ok([g])
  {
  }

  /**
   * A derived struct also reads from an array of its field values, so the
   * one-element array `["text"]` is a single generation, not a list, and TGI
   * accepts it.
   */
  lemma OneStringArrayIsSingleGeneration(text: string)
    ensures ParseTgiText(Some(JArr([JStr(text)]))) == Ok([Generation(text)])
    ensures ParseApiText(Some(JArr([JStr(text)]))) == Ok([Generation(text)])
  {
  }

  // ---------------------------------------------------------------------------
  // Ollama: `OllamaAPIResponse`

  datatype OllamaGeneration = OllamaGeneration(response: string)

  /** `impl From<OllamaGeneration> for Generation`: the response text, verbatim. */
  function GenerationFromOllama(g: OllamaGeneration): (r: Generation)
    ensures r.generated_text == g.response
  {
    Generation(g.response)
  }

  /** `OllamaGeneration`: an object with a string `response` (other keys ignored), or `[response]`. */
  function DecodeOllamaGeneration(j: Json): (r: Option<OllamaGeneration>)
    ensures j.JObj? ==> (r.Some? <==> "response" in j.fields && j.fields["response"].JStr?)
    ensures j.JObj? && r.Some? ==> r.value.response == j.fields["response"].s
    ensures j.JArr? ==> (r.Some? <==> |j.items| == 1 && j.items[0].JStr?)
    ensures j.JArr? && r.Some? ==> r.value.response == j.items[0].s
    ensures !j.JObj? && !j.JArr? ==> r.None?
  {
    match StructFields(j, ["response"])
    case None => None
    case Some(fs) =>
      match AsString(fs[0])
      case None => None
      case Some(response) => Some(OllamaGeneration(response))
  }

  /** `parse_ollama_text`: the generation object first, then the error object. */
  function ParseOllamaText(text: Option<Json>): (r: Result<seq<Generation>, Error>)
    ensures r.Ok? ==> (
      && |r.value| == 1
      && text.Some?
      && DecodeOllamaGeneration(text.value) == Some(OllamaGeneration(r.value[0].generated_text)))
    ensures r.Err? && !r.error.Deserialize? ==> (
      && text.Some?
      && DecodeOllamaGeneration(text.value).None?
      && r.error.Ollama?
      && DecodeApiError(text.value) == Some(r.error.ollamaError))
    ensures text.Some? && DecodeOllamaGeneration(text.value).Some? ==>
      r == Ok([GenerationFromOllama(DecodeOllamaGeneration(text.value).value)])
    ensures text.Some? && DecodeOllamaGeneration(text.value).None? && DecodeApiError(text.value).Some? ==>
      r == Err(Error.Ollama(DecodeApiError(text.value).value))
    ensures r == Err(Deserialize) <==>
      text.None? || (DecodeOllamaGeneration(text.value).None? && DecodeApiError(text.value).None?)
  {
    match text
    case None => Err(Deserialize)
    case Some(j) =>
      match DecodeOllamaGeneration(j)
      case Some(g) => Ok([GenerationFromOllama(g)])
      case None =>
        match DecodeApiError(j)
        case Some(e) => Err(Error.Ollama(e))
        case None => Err(Deserialize)
  }

  /** `{"response": "hello"}` yields the one generation "hello"; the error object yields `Ollama(err)`. */
  lemma OllamaParses(response: string, e: APIError)
    ensures ParseOllamaText(Some(JObj(map["response" := JStr(response)]))) == Ok([Generation(response)])
    ensures ParseOllamaText(Some(EncodeApiError(e))) == Err(Error.Ollama(e))
  {
    assert DecodeOllamaGeneration(EncodeApiError(e)).None?;
  }

  /**
   * A real Ollama answer carries more keys (`model`, `done`, ...); they are
   * ignored and the `response` string becomes the one generation.
   */
  lemma OllamaIgnoresExtraKeys(m: map<string, Json>, response: string)
    requires "response" in m && m["response"] == JStr(response)
    ensures ParseOllamaText(Some(JObj(m))) == Ok([Generation(response)])
  {
  }

  /**
   * An error object with more keys (`estimated_time`, ...) and no generation
   * reading is reported under each backend's tag with its message unchanged.
   */
  lemma ErrorObjectIgnoresExtraKeys(m: map<string, Json>, message: string)
    requires "error" in m && m["error"] == JStr(message)
    requires "generated_text" !in m && "response" !in m
    ensures ParseApiText(Some(JObj(m))) == Err(InferenceApi(APIError(message)))
    ensures ParseTgiText(Some(JObj(m))) == Err(Error.Tgi(APIError(message)))
    ensures ParseOllamaText(Some(JObj(m))) == Err(Error.Ollama(APIError(message)))
  {
  }

  // ---------------------------------------------------------------------------
  // OpenAI-compatible: `OpenAIAPIResponse`

  datatype OpenAIGenerationChoice = OpenAIGenerationChoice(text: string)

  datatype OpenAIGeneration = OpenAIGeneration(choices: seq<OpenAIGenerationChoice>)

  /** `impl From<OpenAIGenerationChoice> for Generation`: the choice's text, verbatim. */
  function GenerationFromChoice(c: OpenAIGenerationChoice): (r: Generation)
    ensures r.generated_text == c.text
  {
    Generation(c.text)
  }

  /** `OpenAIGenerationChoice`: an object with a string `text` (other keys ignored), or `[text]`. */
  function DecodeChoice(j: Json): (r: Option<OpenAIGenerationChoice>)
    ensures j.JObj? ==> (r.Some? <==> "text" in j.fields && j.fields["text"].JStr?)
    ensures j.JObj? && r.Some? ==> r.value.text == j.fields["text"].s
    ensures j.JArr? ==> (r.Some? <==> |j.items| == 1 && j.items[0].JStr?)
    ensures j.JArr? && r.Some? ==> r.value.text == j.items[0].s
    ensures !j.JObj? && !j.JArr? ==> r.None?
  {
    match StructFields(j, ["text"])
    case None => None
    case Some(fs) =>
      match AsString(fs[0])
      case None => None
      case Some(text) => Some(OpenAIGenerationChoice(text))
  }

  /** `OpenAIGeneration`: an object whose `choices` is an array of choices (other keys ignored), or `[choices]`. */
  function DecodeOpenAIGeneration(j: Json): (r: Option<OpenAIGeneration>)
    ensures j.JObj? ==> (r.Some? <==> "choices" in j.fields && SeqOf(j.fields["choices"], DecodeChoice).Some?)
    ensures j.JObj? && r.Some? ==> Some(r.value.choices) == SeqOf(j.fields["choices"], DecodeChoice)
    ensures j.JArr? ==> (r.Some? <==> |j.items| == 1 && SeqOf(j.items[0], DecodeChoice).Some?)
    ensures j.JArr? && r.Some? ==> Some(r.value.choices) == SeqOf(j.items[0], DecodeChoice)
    ensures !j.JObj? && !j.JArr? ==> r.None?
  {
    match StructFields(j, ["choices"])
    case None => None
    case Some(fs) =>
      match SeqOf(fs[0], DecodeChoice)
      case None => None
      case Some(cs) => Some(OpenAIGeneration(cs))
  }

  /** `choices.into_iter().map(|x| x.into()).collect()`. */
  function GenerationsFromChoices(cs: seq<OpenAIGenerationChoice>): (gs: seq<Generation>)
    ensures |gs| == |cs|
    ensures forall i :: 0 <= i < |cs| ==> gs[i].generated_text == cs[i].text
  {
    seq(|cs|, i requires 0 <= i < |cs| => GenerationFromChoice(cs[i]))
  }

  /** `parse_openai_text`: the completion object first, then the error object. */
  function ParseOpenAIText(text: Option<Json>): (r: Result<seq<Generation>, Error>)
    ensures r.Ok? ==> (
      && text.Some?
      && DecodeOpenAIGeneration(text.value).Some?
      && var cs := DecodeOpenAIGeneration(text.value).value.choices;
         |r.value| == |cs| && forall i :: 0 <= i < |cs| ==> r.value[i].generated_text == cs[i].text)
    ensures r.Err? && !r.error.Deserialize? ==> (
      && text.Some?
      && DecodeOpenAIGeneration(text.value).None?
      && r.error.OpenAI?
      && DecodeOpenAIError(text.value) == Some(r.error.openAIError))
    ensures text.Some? && DecodeOpenAIGeneration(text.value).Some? ==>
      r == Ok(GenerationsFromChoices(DecodeOpenAIGeneration(text.value).value.choices))
    ensures text.Some? && DecodeOpenAIGeneration(text.value).None? && DecodeOpenAIError(text.value).Some? ==>
      r == Err(OpenAI(DecodeOpenAIError(text.value).value))
    ensures r == Err(Deserialize) <==>
      text.None? || (DecodeOpenAIGeneration(text.value).None? && DecodeOpenAIError(text.value).None?)
  {
    match text
    case None => Err(Deserialize)
    case Some(j) =>
      match DecodeOpenAIGeneration(j)
      case Some(completion) => Ok(GenerationsFromChoices(completion.choices))
      case None =>
        match DecodeOpenAIError(j)
        case Some(e) => Err(OpenAI(e))
        case None => Err(Deserialize)
  }

  function EncodeOpenAIGeneration(cs: seq<OpenAIGenerationChoice>): Json {
    JObj(map["choices" := JArr(seq(|cs|, i requires 0 <= i < |cs| => JObj(map["text" := JStr(cs[i].text)])))])
  }

  /** Every choice becomes one generation holding its text, in order. */
  lemma OpenAIParsesChoices(cs: seq<OpenAIGenerationChoice>)
    ensures ParseOpenAIText(Some(EncodeOpenAIGeneration(cs))) == Ok(GenerationsFromChoices(cs))
  {
    var items := EncodeOpenAIGeneration(cs).fields["choices"].items;
    assert forall i :: 0 <= i < |items| ==> DecodeChoice(items[i]) == Some(cs[i]);
    var r := DecodeAll(items, DecodeChoice);
    assert r.Some? && r.value == cs;
  }

  /** An error payload is reported as `OpenAI(err)` with its details unchanged. */
  lemma OpenAIErrorParses(e: OpenAIError)
    ensures ParseOpenAIText(Some(EncodeOpenAIError(e))) == Err(OpenAI(e))
  {
    OpenAIErrorRoundTrip(e);
    assert DecodeOpenAIGeneration(EncodeOpenAIError(e)).None?;
  }

  /**
   * A real completion carries more keys (`id`, `model`, and `index` or
   * `finish_reason` in each choice); they are ignored and each choice's `text`
   * becomes one generation, in order.
   */
  lemma OpenAIIgnoresExtraKeys(m: map<string, Json>)
    requires "choices" in m && m["choices"].JArr?
    requires forall i :: 0 <= i < |m["choices"].items| ==>
      var c := m["choices"].items[i]; c.JObj? && "text" in c.fields && c.fields["text"].JStr?
    ensures var r := ParseOpenAIText(Some(JObj(m)));
      && r.Ok?
      && |r.value| == |m["choices"].items|
      && forall i :: 0 <= i < |r.value| ==> r.value[i].generated_text == m["choices"].items[i].fields["text"].s
  {
    var items := m["choices"].items;
    assert forall i :: 0 <= i < |items| ==> DecodeChoice(items[i]).Some?;
    var cs := DecodeAll(items, DecodeChoice);
    assert cs.Some?;
  }

  /** `{"choices": [{"text": "a"}, {"text": "b"}]}` yields "a" then "b". */
  lemma OpenAIExample()
    ensures ParseOpenAIText(Some(EncodeOpenAIGeneration([OpenAIGenerationChoice("a"), OpenAIGenerationChoice("b")])))
         == Ok([Generation("a"), Generation("b")])
  {
    var cs := [OpenAIGenerationChoice("a"), OpenAIGenerationChoice("b")];
    OpenAIParsesChoices(cs);
    var gs := GenerationsFromChoices(cs);
    assert gs[0] == Generation(gs[0].generated_text) == Generation("a");
    assert gs[1] == Generation(gs[1].generated_text) == Generation("b");
    assert gs == [Generation("a"), Generation("b")];
  }

  /**
   * The positional forms: `["hi"]` is an Ollama generation whose response is
   * "hi", and `{"choices": [["a"]]}` a completion whose one choice is "a".
   */
  lemma ArrayFormsParse(text: string)
    ensures ParseOllamaText(Some(JArr([JStr(text)]))) == Ok([Generation(text)])
    ensures ParseOpenAIText(Some(JObj(map["choices" := JArr([JArr([JStr(text)])])]))) == Ok([Generation(text)])
  {
    var c := JArr([JStr(text)]);
    assert DecodeChoice(c) == Some(OpenAIGenerationChoice(text));
    var cs := DecodeAll([c], DecodeChoice);
    assert cs.Some? && cs.value == [OpenAIGenerationChoice(text)];
    var gs := GenerationsFromChoices([OpenAIGenerationChoice(text)]);
    assert gs[0] == Generation(gs[0].generated_text) == Generation(text);
    assert gs == [Generation(text)];
  }

  /**
   * A FastAPI-style error whose `loc` is an array of path segments fits no
   * location variant, so the payload is a `Deserialize` error, not `OpenAI`.
   */
  lemma ArrayLocIsDeserializeError(msg: string, kind: string)
    ensures var detail := JObj(map["loc" := JArr([JStr("body"), JStr("prompt")]), "msg" := JStr(msg), "type" := JStr(kind)]);
      ParseOpenAIText(Some(JObj(map["detail" := JArr([detail])]))) == Err(Deserialize)
  {
    var detail := JObj(map["loc" := JArr([JStr("body"), JStr("prompt")]), "msg" := JStr(msg), "type" := JStr(kind)]);
    assert DecodeDetail(detail).None?;
    assert DecodeAll([detail], DecodeDetail).None?;
  }
}
