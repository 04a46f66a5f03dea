/** The closed set of backends (`enum Adaptor`), its default and its names. */
module AdaptorKind {
  import opened Wrappers

  datatype Adaptor = HuggingFace | Ollama | OpenAi | Tgi

  /** `#[default]`: the HuggingFace Inference API. */
  function Default(): (a: Adaptor)
    ensures a == HuggingFace
  {
    HuggingFace
  }

  /** `adaptor.unwrap_or(&Adaptor::default())`, as every dispatcher resolves its selector. */
  function Resolve(selector: Option<Adaptor>): (a: Adaptor)
    ensures selector.Some? ==> a == selector.value
    ensures selector.None? ==> a == HuggingFace
  {
    selector.GetOr(Default())
  }

  /** The variant's identifier as written in the enum declaration. */
  function VariantName(a: Adaptor): string {
    match a
    case HuggingFace => "HuggingFace"
    case Ollama => "Ollama"
    case OpenAi => "OpenAi"
    case Tgi => "Tgi"
  }

  function LowerChar(c: char): char {
    if 'A' <= c <= 'Z' then (c as int + 32) as char else c
  }

  /** ASCII lowercasing, serde's `rename_all = "lowercase"` rule for an identifier. */
  function Lower(s: string): (r: string)
    ensures |r| == |s|
  {
    seq(|s|, i requires 0 <= i < |s| => LowerChar(s[i]))
  }

  /** The four identifiers lowercased. */
  lemma LowerVariantNames()
    ensures Lower("HuggingFace") == "huggingface"
    ensures Lower("Ollama") == "ollama"
    ensures Lower("OpenAi") == "openai"
    ensures Lower("Tgi") == "tgi"
  {
  }

  /**
   * `impl Display for Adaptor`: the lowercase name of the backend, which is
   * the variant's identifier lowercased.
   */
  function Display(a: Adaptor): (s: string)
    ensures s in {"huggingface", "ollama", "openai", "tgi"}
    ensures s == Lower(VariantName(a))
  {
    LowerVariantNames();
    match a
    case HuggingFace => "huggingface"
    case Ollama => "ollama"
    case OpenAi => "openai"
    case Tgi => "tgi"
  }

  /**
   * `#[derive(Deserialize)]` with `rename_all = "lowercase"`: the variant a
   * configuration tag names, if any. Serialization writes the same names.
   */
  function FromTag(tag: string): (r: Option<Adaptor>)
    ensures r.Some? <==> tag in {"huggingface", "ollama", "openai", "tgi"}
    ensures r.Some? ==> Display(r.value) == tag
  {
    if tag == "huggingface" then Some(HuggingFace)
    else if tag == "ollama" then Some(Ollama)
    else if tag == "openai" then Some(OpenAi)
    else if tag == "tgi" then Some(Tgi)
    else None
  }

  /** The tag of each variant is its own identifier lowercased. */
  lemma TagIsLoweredVariantName(a: Adaptor)
    ensures FromTag(Lower(VariantName(a))) == Some(a)
  {
    LowerVariantNames();
  }

  /** Reading a tag back is exact: a tag names a variant iff it is that variant's display. */
  lemma TagRoundTrip(a: Adaptor, tag: string)
    ensures FromTag(tag) == Some(a) <==> Display(a) == tag
  {
  }

  /** Display is injective, and every one of the four names is the image of a variant. */
  lemma DisplayBijective(a: Adaptor, b: Adaptor, name: string)
    ensures Display(a) == Display(b) ==> a == b
    ensures name in {"huggingface", "ollama", "openai", "tgi"} <==> exists c :: Display(c) == name
  {
    if name in {"huggingface", "ollama", "openai", "tgi"} {
      var c := FromTag(name).value;
      TagRoundTrip(c, name);
    }
  }
}
