/**
 * The OpenAI-compatible error payload (`OpenAIError`, `OpenAIErrorDetail`,
 * `OpenAIErrorLoc`), how serde reads it and how it is displayed.
 */
module OpenAIErrors {
  import opened Wrappers
  import opened Json
  import opened Serde

  /** `#[serde(untagged)] enum OpenAIErrorLoc { String(String), Int(u32) }`. */
  datatype OpenAIErrorLoc = LocString(s: string) | LocInt(i: U32)

  /** `OpenAIErrorDetail`; the Rust field `r#type` is `kind` here. */
  datatype OpenAIErrorDetail = OpenAIErrorDetail(loc: OpenAIErrorLoc, msg: string, kind: string)

  datatype OpenAIError = OpenAIError(detail: seq<OpenAIErrorDetail>)

  // ---------------------------------------------------------------------------
  // Decimal rendering of an unsigned integer (`u32`'s Display)

  predicate IsDigit(c: char) {
    '0' <= c <= '9'
  }

  function DigitChar(d: nat): (c: char)
    requires d < 10
    ensures IsDigit(c) && c as int - '0' as int == d
  {
    (d + '0' as int) as char
  }

  /** The shortest decimal form of `n`: digits only, no leading zero unless `n` is 0. */
  function Decimal(n: nat): (s: string)
    ensures |s| >= 1
    ensures forall k :: 0 <= k < |s| ==> IsDigit(s[k])
    ensures s[0] == '0' ==> s == "0" && n == 0
    decreases n
  {
    if n < 10 then [DigitChar(n)] else Decimal(n / 10) + [DigitChar(n % 10)]
  }

  /** The number a string of decimal digits denotes. */
  function DigitsValue(s: string): nat
    requires forall k :: 0 <= k < |s| ==> IsDigit(s[k])
  {
    if s == [] then 0
    else
      assert IsDigit(s[|s| - 1]);
      DigitsValue(s[..|s| - 1]) * 10 + (s[|s| - 1] as int - '0' as int)
  }

  /** The decimal form reads back as the number it was made from. */
  lemma {:induction false} DecimalRoundTrip(n: nat)
    ensures DigitsValue(Decimal(n)) == n
    decreases n
  {
    var s := Decimal(n);
    if n >= 10 {
      DecimalRoundTrip(n / 10);
      assert s[..|s| - 1] == Decimal(n / 10);
    }
  }

  // ---------------------------------------------------------------------------
  // Display

  /** `impl Display for OpenAIErrorLoc`: the string itself, or the decimal form of the integer. */
  function LocDisplay(loc: OpenAIErrorLoc): (s: string)
    ensures loc.LocString? ==> s == loc.s
    ensures loc.LocInt? ==> s == Decimal(loc.i) && DigitsValue(s) == loc.i
  {
    match loc
    case LocString(str) => str
    case LocInt(i) => DecimalRoundTrip(i); Decimal(i)
  }

  /** One detail as written by `write!(f, "{}: {} ({})", loc, msg, type)`. */
  function DetailLine(d: OpenAIErrorDetail): string {
    LocDisplay(d.loc) + ": " + d.msg + " (" + d.kind + ")"
  }

  /** The detail lines, one per detail, in order. */
  function DetailLines(ds: seq<OpenAIErrorDetail>): (lines: seq<string>)
    ensures |lines| == |ds|
    ensures forall i :: 0 <= i < |ds| ==> lines[i] == DetailLine(ds[i])
  {
    seq(|ds|, i requires 0 <= i < |ds| => DetailLine(ds[i]))
  }

  /** The items separated by single newlines: none before the first or after the last. */
  function JoinLines(items: seq<string>): (s: string)
    ensures items == [] ==> s == ""
    ensures |items| == 1 ==> s == items[0]
  {
    if items == [] then ""
    else if |items| == 1 then items[0]
    else items[0] + "\n" + JoinLines(items[1..])
  }

  /** Appending an item to a non-empty list appends a newline and the item. */
  lemma {:induction false} JoinLinesSnoc(items: seq<string>, last: string)
    requires items != []
    ensures JoinLines(items + [last]) == JoinLines(items) + "\n" + last
  {
    if |items| > 1 {
      JoinLinesSnoc(items[1..], last);
      assert (items + [last])[1..] == items[1..] + [last];
    }
  }

  /** Splitting at every newline, as `str::split('\n')` does (the empty string is one empty line). */
  function SplitLines(s: string): (lines: seq<string>)
    ensures |lines| >= 1
  {
    if s == [] then [""]
    else
      var rest := SplitLines(s[1..]);
      if s[0] == '\n' then [""] + rest else [[s[0]] + rest[0]] + rest[1..]
  }

  lemma {:induction false} SplitLinesPrefix(line: string, t: string)
    requires '\n' !in line
    ensures SplitLines(line + t) == [line + SplitLines(t)[0]] + SplitLines(t)[1..]
  {
    var st := SplitLines(t);
    if line == [] {
      assert line + t == t;
      assert line + st[0] == st[0];
      assert [st[0]] + st[1..] == st;
    } else {
      assert line[0] in line;
      assert forall c :: c in line[1..] ==> c in line;
      SplitLinesPrefix(line[1..], t);
      var rest := SplitLines(line[1..] + t);
      assert rest[0] == line[1..] + st[0];
      assert rest[1..] == st[1..];
      var whole := line + t;
      assert whole != [] && whole[0] == line[0] && whole[0] != '\n';
      assert whole[1..] == line[1..] + t;
      assert SplitLines(whole) == [[line[0]] + rest[0]] + rest[1..];
      assert [line[0]] + (line[1..] + st[0]) == line + st[0];
    }
  }

  /**
   * The rendering is unambiguous: when no item holds a newline, splitting the
   * joined text at newlines gives back every item, in order.
   */
  lemma {:induction false} SplitJoinLines(items: seq<string>)
    requires items != []
    requires forall i :: 0 <= i < |items| ==> '\n' !in items[i]
    ensures SplitLines(JoinLines(items)) == items
  {
    if |items| == 1 {
      SplitLinesPrefix(items[0], "");
      assert items[0] + "" == items[0];
      assert SplitLines("") == [""];
      assert SplitLines(items[0]) == [items[0]];
    } else {
      SplitJoinLines(items[1..]);
      var tail := JoinLines(items[1..]);
      var nl := "\n" + tail;
      assert JoinLines(items) == items[0] + nl;
      SplitLinesPrefix(items[0], nl);
      assert nl != [] && nl[0] == '\n' && nl[1..] == tail;
      assert SplitLines(nl) == [""] + items[1..];
      assert items[0] + "" == items[0];
      assert SplitLines(JoinLines(items)) == [items[0]] + items[1..];
      assert [items[0]] + items[1..] == items;
    }
  }

  /**
   * `impl Display for OpenAIError`: the loop writes a newline before every
   * detail but the first, then the detail.
   */
  method Display(e: OpenAIError) returns (s: string)
    ensures s == JoinLines(DetailLines(e.detail))
  {
    s := "";
    for i := 0 to |e.detail|
      invariant s == JoinLines(DetailLines(e.detail[..i]))
    {
      var line := DetailLine(e.detail[i]);
      assert DetailLines(e.detail[..i + 1]) == DetailLines(e.detail[..i]) + [line];
      if i != 0 {
        JoinLinesSnoc(DetailLines(e.detail[..i]), line);
        s := s + "\n";
      }
      s := s + line;
    }
    assert e.detail[..|e.detail|] == e.detail;
  }

  /** The rendering of `{"loc": "body", "msg": "bad", "type": "value_error"}`. */
  lemma DisplayExample()
    ensures JoinLines(DetailLines([OpenAIErrorDetail(LocString("body"), "bad", "value_error")]))
         == "body: bad (value_error)"
  {
  }

  // ---------------------------------------------------------------------------
  // Deserialization

  /** The untagged location: a string first, then a `u32`. */
  function DecodeLoc(j: Json): (r: Option<OpenAIErrorLoc>)
    ensures r.Some? <==> j.JStr? || (j.JInt? && 0 <= j.i < 0x1_0000_0000)
    ensures j.JStr? ==> r == Some(LocString(j.s))
    ensures j.JInt? && 0 <= j.i < 0x1_0000_0000 ==> r == Some(LocInt(j.i))
  {
    match AsString(j)
    case Some(s) => Some(LocString(s))
    case None =>
      match AsU32(j)
      case Some(i) => Some(LocInt(i))
      case None => None
  }

  /** `OpenAIErrorDetail`: an object with `loc`, `msg` and `type` (other keys ignored), or `[loc, msg, type]`. */
  function DecodeDetail(j: Json): (r: Option<OpenAIErrorDetail>)
    ensures j.JObj? ==> (r.Some? <==>
      && "loc" in j.fields && DecodeLoc(j.fields["loc"]).Some?
      && "msg" in j.fields && j.fields["msg"].JStr?
      && "type" in j.fields && j.fields["type"].JStr?)
    ensures j.JObj? && r.Some? ==>
      r.value == OpenAIErrorDetail(DecodeLoc(j.fields["loc"]).value, j.fields["msg"].s, j.fields["type"].s)
    ensures j.JArr? ==> (r.Some? <==>
      |j.items| == 3 && DecodeLoc(j.items[0]).Some? && j.items[1].JStr? && j.items[2].JStr?)
    ensures j.JArr? && r.Some? ==>
      r.value == OpenAIErrorDetail(DecodeLoc(j.items[0]).value, j.items[1].s, j.items[2].s)
    ensures !j.JObj? && !j.JArr? ==> r.None?
  {
    match StructFields(j, ["loc", "msg", "type"])
    case None => None
    case Some(fs) =>
      match (DecodeLoc(fs[0]), AsString(fs[1]), AsString(fs[2]))
      case (Some(loc), Some(msg), Some(kind)) => Some(OpenAIErrorDetail(loc, msg, kind))
      case _ => None
  }

  /** `OpenAIError`: an object whose `detail` is an array of details (other keys ignored), or `[detail]`. */
  function DecodeOpenAIError(j: Json): (r: Option<OpenAIError>)
    ensures j.JObj? ==> (r.Some? <==> "detail" in j.fields && SeqOf(j.fields["detail"], DecodeDetail).Some?)
    ensures j.JObj? && r.Some? ==> Some(r.value.detail) == SeqOf(j.fields["detail"], DecodeDetail)
    ensures j.JArr? ==> (r.Some? <==> |j.items| == 1 && SeqOf(j.items[0], DecodeDetail).Some?)
    ensures j.JArr? && r.Some? ==> Some(r.value.detail) == SeqOf(j.items[0], DecodeDetail)
    ensures !j.JObj? && !j.JArr? ==> r.None?
  {
    match StructFields(j, ["detail"])
    case None => None
    case Some(fs) =>
      match SeqOf(fs[0], DecodeDetail)
      case None => None
      case Some(ds) => Some(OpenAIError(ds))
  }

  // ---------------------------------------------------------------------------
  // The payload an OpenAI-compatible server sends

  function EncodeLoc(loc: OpenAIErrorLoc): Json {
    match loc
    case LocString(s) => JStr(s)
    case LocInt(i) => JInt(i)
  }

  function EncodeDetail(d: OpenAIErrorDetail): Json {
    JObj(map["loc" := EncodeLoc(d.loc), "msg" := JStr(d.msg), "type" := JStr(d.kind)])
  }

  function EncodeOpenAIError(e: OpenAIError): Json {
    JObj(map["detail" := JArr(seq(|e.detail|, i requires 0 <= i < |e.detail| => EncodeDetail(e.detail[i])))])
  }

  /** Every error payload reads back as the error it encodes, details in order. */
  lemma OpenAIErrorRoundTrip(e: OpenAIError)
    ensures DecodeOpenAIError(EncodeOpenAIError(e)) == Some(e)
  {
    var items := EncodeOpenAIError(e).fields["detail"].items;
    forall i | 0 <= i < |items| ensures DecodeDetail(items[i]) == Some(e.detail[i]) {
      var d := e.detail[i];
      assert DecodeLoc(EncodeLoc(d.loc)) == Some(d.loc);
    }
    var r := DecodeAll(items, DecodeDetail);
    assert r.Some? && r.value == e.detail;
  }
}
