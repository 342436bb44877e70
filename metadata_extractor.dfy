/**
  The contract every metadata extractor meets, and the boundary
  `get_metadata_or_log_error` draws around it: whatever `Exception` the
  extraction raises becomes `None`, and the unparsed metadata it could find is
  logged as suspicious data.
*/
module MetadataExtractor {
  import opened Wrappers
  import opened Python
  import opened JsonValue
  import Seqs

  /** What a `MetadataParseError` wraps: a message string or another exception. */
  datatype Inner = InnerText(text: string) | InnerError(error: PyError) {
    /** `str(inner_exception)`: the text itself, or the exception's message. */
    function Text(): string {
      match this
      case InnerText(t) => t
      case InnerError(e) => e.message
    }
  }

  const PARSE_ERROR_PREFIX: string := "Failed to parse metadata: "

  /** `MetadataParseError(inner_exception)`, a `RuntimeError` that keeps what it wraps. */
  datatype ParseError = ParseError(inner: Inner) {
    function Message(): string {
      PARSE_ERROR_PREFIX + inner.Text()
    }

    /** The exception raised: a `MetadataParseError` whose message is the prefix followed by the inner text. */
    function ToPyError(): (e: PyError)
      ensures IsException(e) && IsSubclass(e.cls, RuntimeError)
      ensures e.cls == MetadataParseError
      ensures |e.message| == |PARSE_ERROR_PREFIX| + |inner.Text()|
      ensures e.message[..|PARSE_ERROR_PREFIX|] == PARSE_ERROR_PREFIX
      ensures e.message[|PARSE_ERROR_PREFIX|..] == inner.Text()
    {
      PyError(MetadataParseError, Message())
    }
  }

  /** An extractor's two operations; `metadata` may raise, `raw_metadata` is expected not to. */
  datatype Extractor = Extractor(
    metadata: (string, string) -> Result<seq<Json>, PyError>,
    rawMetadata: string -> Result<seq<string>, PyError>)

  /** The value `get_metadata_or_log_error` returns or raises, and the suspicious data it logged. */
  datatype Extraction = Extraction(result: Result<Option<seq<Json>>, PyError>, logged: Option<string>)

  /** `extractor.get_metadata_or_log_error(content, url)`. */
  function GetMetadataOrLogError(extractor: Extractor, content: string, url: string): (r: Extraction)
    ensures r.result.Ok? && r.result.value.Some? <==> extractor.metadata(content, url).Ok?
    ensures r.result.Ok? && r.result.value.Some? ==> r.result.value.value == extractor.metadata(content, url).value
    ensures r.logged.Some? <==> r.result == Ok(None)
  {
    match extractor.metadata(content, url)
    case Ok(metadata) => Extraction(Ok(Some(metadata)), None)
    case Err(e) =>
      if !IsException(e) then Extraction(Err(e), None)
      else
        match extractor.rawMetadata(content)
        case Ok(parts) => Extraction(Ok(None), Some(Seqs.Concat(parts)))
        case Err(e2) => Extraction(Err(e2), None)
  }

  /**
    The boundary lets through only what an `except Exception` clause cannot
    catch, or what `raw_metadata` itself raised while the failure was being
    logged; every `Exception` of the extraction becomes `None` with the
    joined unparsed metadata in the log.
  */
  lemma {:induction false} OnlyUncatchableErrorsEscape(extractor: Extractor, content: string, url: string)
    ensures var r := GetMetadataOrLogError(extractor, content, url);
      var m := extractor.metadata(content, url);
      && (r.result.Err? ==>
            m.Err? &&
            ((!IsException(m.error) && r.result.error == m.error) ||
             (IsException(m.error) && extractor.rawMetadata(content) == Err(r.result.error))))
      && (m.Err? && IsException(m.error) && extractor.rawMetadata(content).Ok? ==>
            r == Extraction(Ok(None), Some(Seqs.Concat(extractor.rawMetadata(content).value))))
  {
    match extractor.metadata(content, url)
    case Ok(_) =>
    case Err(e) =>
      if IsException(e) {
        match extractor.rawMetadata(content)
        case Ok(_) =>
        case Err(_) =>
      }
  }
}
