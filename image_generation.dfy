/** `AbstractImageGeneration`: the image size and response format tables shared
    by the image tasks, and the defaults of their fields. */
module ImageGeneration {
  import opened Outcomes

  /** `SIZE`. */
  datatype Size = Small | Medium | Large

  /** `FORMAT`. */
  datatype Format = Url | B64Json

  const DefaultSize: Size := Large
  const DefaultFormat: Format := Url

  /** `SIZE.getSize()`: the wire value of a size. */
  function SizeValue(s: Size): (v: string)
    ensures SizeOf(v) == Some(s)
  {
    match s
    case Small => "256x256"
    case Medium => assert "512x512"[0] != "256x256"[0]; "512x512"
    case Large => "1024x1024"
  }

  /** `FORMAT.getFormat()`: the wire value of a format. */
  function FormatValue(f: Format): (v: string)
    ensures FormatOf(v) == Some(f)
  {
    match f
    case Url => "url"
    case B64Json => "b64_json"
  }

  /** The size whose wire value is `value`, if any. */
  function SizeOf(value: string): Option<Size>
  {
    if value == "256x256" then Some(Small)
    else if value == "512x512" then Some(Medium)
    else if value == "1024x1024" then Some(Large)
    else None
  }

  /** The format whose wire value is `value`, if any. */
  function FormatOf(value: string): Option<Format>
  {
    if value == "url" then Some(Url)
    else if value == "b64_json" then Some(B64Json)
    else None
  }

  /** Every size has a wire value, and that value names this size and no other. */
  lemma SizeTable(s: Size, value: string)
    ensures SizeOf(value) == Some(s) <==> SizeValue(s) == value
    ensures s == Small ==> SizeValue(s) == "256x256"
    ensures s == Medium ==> SizeValue(s) == "512x512"
    ensures s == Large ==> SizeValue(s) == "1024x1024"
  {
    assert "256x256"[0] != "512x512"[0] && "256x256"[0] != "1024x1024"[0] && "512x512"[0] != "1024x1024"[0];
  }

  /** Every format has a wire value, and that value names this format and no other. */
  lemma FormatTable(f: Format, value: string)
    ensures FormatOf(value) == Some(f) <==> FormatValue(f) == value
    ensures f == Url ==> FormatValue(f) == "url"
    ensures f == B64Json ==> FormatValue(f) == "b64_json"
  {
    assert "url"[0] != "b64_json"[0];
  }

  /** Distinct sizes go over the wire as distinct strings. */
  lemma SizeValueInjective(a: Size, b: Size)
    ensures SizeValue(a) == SizeValue(b) <==> a == b
  {
    SizeTable(b, SizeValue(b));
    SizeTable(a, SizeValue(b));
  }

  /** Distinct formats go over the wire as distinct strings. */
  lemma FormatValueInjective(a: Format, b: Format)
    ensures FormatValue(a) == FormatValue(b) <==> a == b
  {
    FormatTable(b, FormatValue(b));
    FormatTable(a, FormatValue(b));
  }

  /** The defaults are the largest size, sent as "1024x1024", and URL images, sent as "url". */
  lemma Defaults()
    ensures DefaultSize == Large && SizeValue(DefaultSize) == "1024x1024"
    ensures DefaultFormat == Url && FormatValue(DefaultFormat) == "url"
  {
  }
}
