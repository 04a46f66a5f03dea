/**
 * The header builders (`build_tgi_headers` and the three that reuse or
 * replace it). A `HeaderMap` is a map from header name to value; inserting
 * replaces any previous value for the name.
 */
module Headers {
  import opened Wrappers
  import opened LlmLs

  datatype HeaderName = UserAgent | Authorization

  type HeaderMap = map<HeaderName, string>

  /**
   * A valid header field value as `HeaderValue::from_str` accepts it (the
   * field-value grammar of section 5.5 of RFC 9110): every byte is a horizontal
   * tab or at least a space, and none is DEL. Characters beyond ASCII are
   * encoded as bytes of 0x80 and above, which are all accepted.
   */
  predicate ValidHeaderChar(c: char) {
    c == '\t' || (32 <= c as int && c as int != 127)
  }

  predicate ValidHeaderValue(s: string) {
    forall i :: 0 <= i < |s| ==> ValidHeaderChar(s[i])
  }

  /** `HeaderValue::from_str`, with its error mapped into the crate's `Error` by `?`. */
  function HeaderValueFromStr(s: string): (r: Result<string, Error>)
    ensures r.Ok? <==> ValidHeaderValue(s)
    ensures r.Ok? ==> r.value == s
    ensures r.Err? ==> r.error == InvalidHeaderValue
  {
    if ValidHeaderValue(s) then Ok(s) else Err(InvalidHeaderValue)
  }

  /** `format!("{NAME}/{VERSION}; rust/unknown; ide/{ide:?}")`. */
  function UserAgentValue(ide: Ide): (s: string)
    ensures |s| == |NAME| + |VERSION| + |ide.debug| + 21
    ensures s[..|NAME| + 1] == NAME + "/"
    ensures s[|NAME| + 1..|NAME| + 1 + |VERSION|] == VERSION
    ensures s[|NAME| + 1 + |VERSION|..|s| - |ide.debug|] == "; rust/unknown; ide/"
    ensures s[|s| - |ide.debug|..] == ide.debug
    ensures ValidHeaderValue(s) <==> ValidHeaderValue(VERSION) && ValidHeaderValue(ide.debug)
  {
    var fixedPart := "; rust/unknown; ide/";
    var s := NAME + "/" + VERSION + fixedPart + ide.debug;
    assert ValidHeaderValue(NAME + "/") && ValidHeaderValue(fixedPart);
    ValidHeaderValueConcat(NAME + "/", VERSION);
    ValidHeaderValueConcat(NAME + "/" + VERSION, fixedPart);
    ValidHeaderValueConcat(NAME + "/" + VERSION + fixedPart, ide.debug);
    s
  }

  /** A concatenation is a valid header value exactly when both parts are. */
  lemma ValidHeaderValueConcat(a: string, b: string)
    ensures ValidHeaderValue(a + b) <==> ValidHeaderValue(a) && ValidHeaderValue(b)
  {
    if ValidHeaderValue(a + b) {
      assert forall i :: 0 <= i < |a| ==> (a + b)[i] == a[i];
      assert forall i :: 0 <= i < |b| ==> (a + b)[|a| + i] == b[i];
    }
  }

  /** `format!("Bearer {api_token}")`. */
  function BearerValue(token: string): string {
    "Bearer " + token
  }

  /** Every value the TGI-style builder would insert is a valid header value. */
  predicate InsertedValuesValid(apiToken: Option<string>, ide: Ide) {
    ValidHeaderValue(UserAgentValue(ide)) && (apiToken.Some? ==> ValidHeaderValue(BearerValue(apiToken.value)))
  }

  /**
   * What the TGI-style header builders promise: they fail, with
   * `InvalidHeaderValue`, exactly when a value they insert is invalid;
   * otherwise `User-Agent` is always present and `Authorization` is present
   * exactly when a token is given, holding `Bearer <token>`.
   */
  ghost predicate IsTgiHeaders(r: Result<HeaderMap, Error>, apiToken: Option<string>, ide: Ide) {
    && (r.Ok? <==> InsertedValuesValid(apiToken, ide))
    && (r.Err? ==> r.error == InvalidHeaderValue)
    && (r.Ok? ==>
          && r.value.Keys == (if apiToken.Some? then {UserAgent, Authorization} else {UserAgent})
          && r.value[UserAgent] == UserAgentValue(ide)
          && (apiToken.Some? ==> r.value[Authorization] == BearerValue(apiToken.value)))
  }

  /** That promise leaves exactly one outcome, so builders that keep it agree on every input. */
  lemma TgiHeadersUnique(r1: Result<HeaderMap, Error>, r2: Result<HeaderMap, Error>, apiToken: Option<string>, ide: Ide)
    requires IsTgiHeaders(r1, apiToken, ide) && IsTgiHeaders(r2, apiToken, ide)
    ensures r1 == r2
  {
    if r1.Ok? {
      assert forall k :: k in r1.value ==> r1.value[k] == r2.value[k];
      assert r1.value == r2.value;
    }
  }

  /** A token holding a line break (or any control character but tab) makes the build fail. */
  lemma TokenWithControlCharFails(r: Result<HeaderMap, Error>, token: string, ide: Ide, i: nat)
    requires i < |token| && !ValidHeaderChar(token[i])
    requires IsTgiHeaders(r, Some(token), ide)
    ensures r == Err(InvalidHeaderValue)
  {
    assert BearerValue(token)[7 + i] == token[i];
  }

  /** `build_tgi_headers`: insert `User-Agent`, then `Authorization` when a token is given. */
  method BuildTgiHeaders(apiToken: Option<string>, ide: Ide) returns (r: Result<HeaderMap, Error>)
    ensures IsTgiHeaders(r, apiToken, ide)
  {
    var headers: HeaderMap := map[];
    var userAgent := HeaderValueFromStr(UserAgentValue(ide));
    if userAgent.Err? {
      return Err(userAgent.error);
    }
    headers := headers[UserAgent := userAgent.value];

    if apiToken.Some? {
      var bearer := HeaderValueFromStr(BearerValue(apiToken.value));
      if bearer.Err? {
        return Err(bearer.error);
      }
      headers := headers[Authorization := bearer.value];
    }

    return Ok(headers);
  }

  /** `build_api_headers`: the TGI headers. */
  method BuildApiHeaders(apiToken: Option<string>, ide: Ide) returns (r: Result<HeaderMap, Error>)
    ensures IsTgiHeaders(r, apiToken, ide)
  {
    r := BuildTgiHeaders(apiToken, ide);
  }

  /** `build_ollama_headers`: Ollama has no authentication; the map is empty and the build never fails. */
  method BuildOllamaHeaders() returns (r: Result<HeaderMap, Error>)
    ensures r.Ok? && r.value == map[]
  {
    r := Ok(map[]);
  }

  /** `build_openai_headers`: the HuggingFace API headers. */
  method BuildOpenAIHeaders(apiToken: Option<string>, ide: Ide) returns (r: Result<HeaderMap, Error>)
    ensures IsTgiHeaders(r, apiToken, ide)
  {
    r := BuildApiHeaders(apiToken, ide);
  }
}
