/**
  `MetadataExtractorJsonld`: the content is the JSON-LD itself. Empty content
  is an error, a JSON decoding error is wrapped into a `MetadataParseError`, a
  list is the metadata as it is and any other value is wrapped into a list of one.
*/
module MetadataExtractorJsonld {
  import opened Wrappers
  import opened Python
  import opened JsonValue
  import opened MetadataExtractor
  import Seqs

  const EMPTY_CONTENT: PyError := ParseError(InnerText("Empty content")).ToPyError()

  /** The list the metadata is: a list as it is, another value as its only element. */
  function AsList(v: Json): (items: seq<Json>)
    ensures v.JArray? ==> items == v.items
    ensures !v.JArray? ==> items == [v]
  {
    if v.JArray? then v.items else [v]
  }

  /** `MetadataExtractorJsonld.metadata(content, url)`, with `loads` for `json.loads`. */
  function Metadata(content: string, url: string, loads: string -> Result<Json, PyError>): (r: Result<seq<Json>, PyError>)
    ensures content == "" ==> r == Err(EMPTY_CONTENT)
    ensures content != "" && loads(content).Ok? ==> r == Ok(AsList(loads(content).value))
    ensures content != "" && loads(content).Err? && IsSubclass(loads(content).error.cls, JsonDecodeError) ==>
      r == Err(ParseError(InnerError(loads(content).error)).ToPyError())
    ensures content != "" && loads(content).Err? && !IsSubclass(loads(content).error.cls, JsonDecodeError) ==>
      r == Err(loads(content).error)
  {
    if content == "" then Err(EMPTY_CONTENT)
    else
      match loads(content)
      case Ok(v) => Ok(AsList(v))
      case Err(e) =>
        if IsSubclass(e.cls, JsonDecodeError) then Err(ParseError(InnerError(e)).ToPyError()) else Err(e)
  }

  /** `raw_metadata(content)`: the content as the one piece of unparsed metadata. */
  function RawMetadata(content: string): (r: Result<seq<string>, PyError>)
    ensures r == Ok([content])
    ensures r.Ok? && Seqs.Concat(r.value) == content
  {
    assert Seqs.Concat([content]) == content + Seqs.Concat([content][1..]);
    Ok([content])
  }

  function Impl(loads: string -> Result<Json, PyError>): Extractor {
    Extractor((content, url) => Metadata(content, url, loads), RawMetadata)
  }

  /** A value and the one-element list holding it are the same metadata. */
  lemma BareValueIsOneElementList(c1: string, c2: string, url: string, loads: string -> Result<Json, PyError>, v: Json)
    requires c1 != "" && c2 != ""
    requires !v.JArray? && loads(c1) == Ok(v) && loads(c2) == Ok(JArray([v]))
    ensures Metadata(c1, url, loads) == Metadata(c2, url, loads) == Ok([v])
  {
  }

  /** The metadata is never empty, unless the content is the empty list. */
  lemma NonEmptyUnlessEmptyList(content: string, url: string, loads: string -> Result<Json, PyError>)
    requires Metadata(content, url, loads).Ok?
    ensures |Metadata(content, url, loads).value| == 0 <==> loads(content) == Ok(JArray([]))
  {
  }

  /**
    Through the boundary, neither empty nor undecodable content raises: both
    give `None` and log the content itself as the suspicious data; decodable
    content gives its list.
  */
  lemma ExtractionNeverRaisesOnDecodeErrors(content: string, url: string, loads: string -> Result<Json, PyError>)
    requires loads(content).Ok? || IsSubclass(loads(content).error.cls, JsonDecodeError)
    ensures var r := GetMetadataOrLogError(Impl(loads), content, url);
      if content == "" || loads(content).Err? then r == Extraction(Ok(None), Some(content))
      else r == Extraction(Ok(Some(AsList(loads(content).value))), None)
  {
    var ex := Impl(loads);
    assert ex.metadata(content, url) == Metadata(content, url, loads);
    assert ex.rawMetadata(content) == RawMetadata(content);
    if content == "" || loads(content).Err? {
      assert IsSubclass(MetadataParseError, Exception);
      assert IsException(ex.metadata(content, url).error);
    }
  }
}
