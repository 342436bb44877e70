/**
  `HttpSession.get_decoded_url`: fetch the bytes an `http`, `https` or `file`
  URL addresses, detect their character encoding and decode them, sorting every
  failure into one of the four subclasses of `HttpSessionFetchError`.

  The network, the file system and the charset detector are parameters (`Io`).
  A fetch returns its outcome together with the I/O calls it made, in order,
  so that "no request is attempted" and "detection runs once" can be stated.
*/
module HttpSession {
  import opened Wrappers
  import opened Python
  import opened Strings
  import UrlParse
  import PurePosix

  newtype Byte = b: int | 0 <= b < 256

  type Bytes = seq<Byte>

  /** `HttpSessionConfig`: connection limit and the two timeouts, in seconds. */
  datatype HttpSessionConfig = HttpSessionConfig(connectionLimit: int, receiveTimeout: int, connectTimeout: int)

  /** The four error kinds a fetch reports. */
  predicate IsFetchErrorKind(c: ExceptionClass) {
    c == HttpSessionArgumentError || c == HttpSessionTechnicalError
      || c == HttpSessionResponseError || c == HttpSessionDecodeError
  }

  /** Each kind is a proper subclass of `HttpSessionFetchError` and so an `Exception`. */
  lemma FetchErrorKind(c: ExceptionClass)
    requires IsFetchErrorKind(c)
    ensures IsSubclass(c, HttpSessionFetchError) && IsSubclass(c, Exception) && c != HttpSessionFetchError
  {
    assert Base(c) == Some(HttpSessionFetchError);
  }

  /** The kinds are siblings: none is a subclass of another, so each `except` clause catches one kind. */
  lemma FetchErrorKindsDisjoint(c: ExceptionClass, d: ExceptionClass)
    requires IsFetchErrorKind(c) && IsFetchErrorKind(d) && c != d
    ensures !IsSubclass(c, d)
  {
    assert Base(c) == Some(HttpSessionFetchError);
    assert Base(HttpSessionFetchError) == Some(Exception);
  }

  /** What entering `self.get(url)` gives: the status and what `response.read()` would give. */
  datatype Response = Response(status: int, body: Result<Bytes, PyError>)

  /** The outside world a fetch talks to. */
  datatype Io = Io(
    get: string -> Result<Response, PyError>,                 // `async with self.get(url)`
    readFile: string -> Result<Bytes, PyError>,               // `aiofiles.open(path, 'rb')` and `read()`
    detect: Bytes -> Result<Option<string>, PyError>,         // `chardet.detect(b)['encoding']`
    decode: (Bytes, string) -> Result<string, PyError>)       // `b.decode(encoding)`

  datatype IoCall =
    | Get(url: string)
    | ReadBody(url: string)
    | ReadFile(path: string)
    | Detect(content: Bytes)
    | Decode(content: Bytes, encoding: string)

  /** An outcome and the I/O calls that produced it. */
  datatype Step<T> = Step(result: Result<T, PyError>, calls: seq<IoCall>)

  /** The exceptions `except (ClientError, asyncio.TimeoutError)` catches. */
  predicate IsNetworkError(e: PyError) {
    IsSubclass(e.cls, ClientError) || IsSubclass(e.cls, TimeoutError)
  }

  function StatusMessage(status: int, url: string): string {
    "Server error " + IntToString(status) + " for " + url
  }

  /** The `http`/`https` branch: request, status checks, body. */
  function Download(url: string, io: Io): (r: Step<Bytes>)
    ensures |r.calls| >= 1 && r.calls[0] == Get(url)
    ensures forall i | 0 <= i < |r.calls| :: r.calls[i] == Get(url) || r.calls[i] == ReadBody(url)
    ensures r.result.Ok? ==> io.get(url).Ok? && io.get(url).value.body == Ok(r.result.value)
  {
    match io.get(url)
    case Err(e) =>
      Step(Err(if IsNetworkError(e) then PyError(HttpSessionTechnicalError, "Cannot fetch " + url + ": " + e.message) else e),
           [Get(url)])
    case Ok(response) =>
      if 500 <= response.status < 600 then
        Step(Err(PyError(HttpSessionTechnicalError, StatusMessage(response.status, url))), [Get(url)])
      else if 400 <= response.status < 500 then
        Step(Err(PyError(HttpSessionResponseError, StatusMessage(response.status, url))), [Get(url)])
      else
        match response.body
        case Ok(content) => Step(Ok(content), [Get(url), ReadBody(url)])
        case Err(e) =>
          Step(Err(if IsNetworkError(e) then PyError(HttpSessionTechnicalError, "Cannot fetch " + url + ": " + e.message) else e),
               [Get(url), ReadBody(url)])
  }

  /**
    The local path a `file` URL names. A netloc equal to `PurePath('.')`
    (the empty netloc included) is joined with the path stripped of leading
    `/` and then of leading `\`; any other netloc is joined with the path as it is.
  */
  function FilePath(netloc: string, path: string): PurePosix.Path {
    if PurePosix.Parse(netloc) == PurePosix.DOT then
      PurePosix.Div(netloc, LStrip(LStrip(path, {'/'}), {'\\'}))
    else
      PurePosix.Div(netloc, path)
  }

  /** The `file` branch: any `Exception` while opening or reading becomes a response error. */
  function ReadLocal(url: string, netloc: string, path: string, io: Io): (r: Step<Bytes>)
    ensures r.calls == [ReadFile(PurePosix.ToString(FilePath(netloc, path)))]
    ensures r.result.Ok? ==> io.readFile(PurePosix.ToString(FilePath(netloc, path))) == Ok(r.result.value)
  {
    var file := PurePosix.ToString(FilePath(netloc, path));
    match io.readFile(file)
    case Ok(content) => Step(Ok(content), [ReadFile(file)])
    case Err(e) =>
      Step(Err(if IsException(e) then PyError(HttpSessionResponseError, "Cannot read file " + url + ": " + e.message) else e),
           [ReadFile(file)])
  }

  /** `str(encoding) or 'utf-8'`: a missing encoding prints as `"None"`, only an empty name falls back. */
  function EncodingName(encoding: Option<string>): (name: string)
    ensures name != ""
    ensures encoding.Some? && encoding.value != "" ==> name == encoding.value
  {
    match encoding
    case None => "None"
    case Some(s) => if s == "" then "utf-8" else s
  }

  /** The decoding step: detect once, decode with the detected name, any `Exception` becomes a decode error. */
  function DecodeContent(url: string, content: Bytes, io: Io): (r: Step<string>)
    ensures |r.calls| >= 1 && r.calls[0] == Detect(content)
    ensures r.result.Ok? ==>
      && io.detect(content).Ok?
      && r.calls == [Detect(content), Decode(content, EncodingName(io.detect(content).value))]
      && io.decode(content, EncodingName(io.detect(content).value)) == Ok(r.result.value)
    ensures r.result.Err? && IsException(r.result.error) ==> r.result.error.cls == HttpSessionDecodeError
  {
    match io.detect(content)
    case Err(e) => Step(Err(DecodeFailure(url, e)), [Detect(content)])
    case Ok(encoding) =>
      var name := EncodingName(encoding);
      match io.decode(content, name)
      case Ok(text) => Step(Ok(text), [Detect(content), Decode(content, name)])
      case Err(e) => Step(Err(DecodeFailure(url, e)), [Detect(content), Decode(content, name)])
  }

  function DecodeFailure(url: string, e: PyError): (r: PyError)
    ensures IsException(r) ==> r.cls == HttpSessionDecodeError
  {
    if IsException(e) then PyError(HttpSessionDecodeError, "cannot decode URL content from " + url + ": " + e.message) else e
  }

  predicate IsWebScheme(scheme: string) {
    scheme == "http" || scheme == "https"
  }

  /** The bytes of a parsed URL, by scheme; `None` for a scheme the session does not support. */
  function FetchBytes(url: string, parsed: UrlParse.ParseResult, io: Io): (r: Option<Step<Bytes>>)
    ensures r.None? <==> !IsWebScheme(parsed.scheme) && parsed.scheme != "file"
  {
    if IsWebScheme(parsed.scheme) then Some(Download(url, io))
    else if parsed.scheme == "file" then Some(ReadLocal(url, parsed.netloc, parsed.path, io))
    else None
  }

  function UnsupportedScheme(url: string, scheme: string): PyError {
    PyError(HttpSessionArgumentError, "Unsupported URL scheme: " + scheme + " in URL " + url)
  }

  /** Fetching, then decoding what was fetched. */
  function FetchAndDecode(url: string, parsed: UrlParse.ParseResult, io: Io): Step<string> {
    match FetchBytes(url, parsed, io)
    case None => Step(Err(UnsupportedScheme(url, parsed.scheme)), [])
    case Some(fetched) =>
      match fetched.result
      case Err(e) => Step(Err(e), fetched.calls)
      case Ok(content) =>
        var decoded := DecodeContent(url, content, io);
        Step(decoded.result, fetched.calls + decoded.calls)
  }

  /**
    `get_decoded_url` as written: the `ValueError` that `urlparse` raises for
    an authority with an unmatched bracket is not caught and leaves the
    function as it is, outside the `HttpSessionFetchError` hierarchy.
  */
  function GetDecodedUrlAsWritten(url: string, io: Io): Step<string> {
    match UrlParse.UrlParse(url)
    case Err(e) => Step(Err(e), [])
    case Ok(parsed) => FetchAndDecode(url, parsed, io)
  }

  /** `get_decoded_url`, with a URL `urlparse` rejects reported as an argument error. */
  function GetDecodedUrl(url: string, io: Io): Step<string> {
    match UrlParse.UrlParse(url)
    case Err(e) => Step(Err(PyError(HttpSessionArgumentError, "Invalid URL " + url + ": " + e.message)), [])
    case Ok(parsed) => FetchAndDecode(url, parsed, io)
  }

  /** `HttpSession(config)`: a failure while setting up the connector or timeouts is an argument error. */
  function NewSession(config: HttpSessionConfig, setup: HttpSessionConfig -> Result<(), PyError>): (r: Result<HttpSessionConfig, PyError>)
    ensures r.Ok? <==> setup(config).Ok?
    ensures r.Ok? ==> r.value == config
    ensures r.Err? && IsException(r.error) ==> r.error == PyError(HttpSessionArgumentError, "Could not create HttpSession object")
    ensures r.Err? && !IsException(r.error) ==> r == Err(setup(config).error)
  {
    match setup(config)
    case Ok(_) => Ok(config)
    case Err(e) => Err(if IsException(e) then PyError(HttpSessionArgumentError, "Could not create HttpSession object") else e)
  }

  // ---------------------------------------------------------------------------
  // Properties of the fetch

  /** The scheme `urlparse` finds in `url`, when it parses. */
  function SchemeOf(url: string): string
    requires UrlParse.UrlParse(url).Ok?
  {
    UrlParse.UrlParse(url).value.scheme
  }

  /** A scheme other than `http`, `https` and `file` is an argument error, and nothing is requested or read. */
  lemma UnsupportedSchemeNoIo(url: string, io: Io)
    requires UrlParse.UrlParse(url).Ok?
    requires !IsWebScheme(SchemeOf(url)) && SchemeOf(url) != "file"
    ensures GetDecodedUrl(url, io) == Step(Err(UnsupportedScheme(url, SchemeOf(url))), [])
    ensures GetDecodedUrl(url, io).result.error.cls == HttpSessionArgumentError
  {
  }

  /** A fetch makes no I/O call exactly when the URL is rejected before any I/O. */
  lemma NoIoExactlyWhenRejected(url: string, io: Io)
    ensures GetDecodedUrl(url, io).calls == [] <==>
      UrlParse.UrlParse(url).Err? || (!IsWebScheme(SchemeOf(url)) && SchemeOf(url) != "file")
  {
    if UrlParse.UrlParse(url).Ok? {
      var parsed := UrlParse.UrlParse(url).value;
      match FetchBytes(url, parsed, io)
      case None =>
      case Some(fetched) =>
        assert |fetched.calls| >= 1;
        if fetched.result.Ok? {
          var decoded := DecodeContent(url, fetched.result.value, io);
          assert |fetched.calls + decoded.calls| >= 1;
        }
    }
  }

  /** An `http(s)` response with a status in [500, 600) is a technical error, and its body is not read. */
  lemma ServerErrorIsTechnical(url: string, io: Io)
    requires UrlParse.UrlParse(url).Ok? && IsWebScheme(SchemeOf(url))
    requires io.get(url).Ok? && 500 <= io.get(url).value.status < 600
    ensures GetDecodedUrl(url, io)
         == Step(Err(PyError(HttpSessionTechnicalError, StatusMessage(io.get(url).value.status, url))), [Get(url)])
  {
  }

  /** An `http(s)` response with a status in [400, 500) is a response error, and its body is not read. */
  lemma ClientErrorIsResponseError(url: string, io: Io)
    requires UrlParse.UrlParse(url).Ok? && IsWebScheme(SchemeOf(url))
    requires io.get(url).Ok? && 400 <= io.get(url).value.status < 500
    ensures GetDecodedUrl(url, io)
         == Step(Err(PyError(HttpSessionResponseError, StatusMessage(io.get(url).value.status, url))), [Get(url)])
  {
  }

  /** Any other status goes on to read the body. */
  lemma OtherStatusReadsBody(url: string, io: Io)
    requires UrlParse.UrlParse(url).Ok? && IsWebScheme(SchemeOf(url))
    requires io.get(url).Ok? && !(400 <= io.get(url).value.status < 600)
    ensures var r := GetDecodedUrl(url, io); |r.calls| >= 2 && r.calls[..2] == [Get(url), ReadBody(url)]
  {
    var fetched := Download(url, io);
    assert fetched.calls == [Get(url), ReadBody(url)];
    if fetched.result.Ok? {
      var decoded := DecodeContent(url, fetched.result.value, io);
      assert (fetched.calls + decoded.calls)[..2] == fetched.calls;
    }
  }

  /** A `ClientError` or timeout while requesting is a technical error; any other error passes through unchanged. */
  lemma RequestFailure(url: string, io: Io)
    requires UrlParse.UrlParse(url).Ok? && IsWebScheme(SchemeOf(url))
    requires io.get(url).Err?
    ensures var e := io.get(url).error;
      GetDecodedUrl(url, io)
      == Step(Err(if IsNetworkError(e) then PyError(HttpSessionTechnicalError, "Cannot fetch " + url + ": " + e.message) else e),
              [Get(url)])
  {
  }

  /** A `ClientError` or timeout while reading the body is a technical error too. */
  lemma BodyFailure(url: string, io: Io)
    requires UrlParse.UrlParse(url).Ok? && IsWebScheme(SchemeOf(url))
    requires io.get(url).Ok? && !(400 <= io.get(url).value.status < 600)
    requires io.get(url).value.body.Err? && IsNetworkError(io.get(url).value.body.error)
    ensures GetDecodedUrl(url, io).result
         == Err(PyError(HttpSessionTechnicalError, "Cannot fetch " + url + ": " + io.get(url).value.body.error.message))
  {
  }

  /** The path a `file` URL is read from. */
  function FileOf(url: string): string
    requires UrlParse.UrlParse(url).Ok?
  {
    PurePosix.ToString(FilePath(UrlParse.UrlParse(url).value.netloc, UrlParse.UrlParse(url).value.path))
  }

  /** A `file` URL reads exactly its resolved path, and any `Exception` doing so is a response error. */
  lemma FileReadFailure(url: string, io: Io)
    requires UrlParse.UrlParse(url).Ok? && SchemeOf(url) == "file"
    requires io.readFile(FileOf(url)).Err? && IsException(io.readFile(FileOf(url)).error)
    ensures GetDecodedUrl(url, io) == Step(
      Err(PyError(HttpSessionResponseError, "Cannot read file " + url + ": " + io.readFile(FileOf(url)).error.message)),
      [ReadFile(FileOf(url))])
  {
  }

  /** A URL `urlparse` accepts is fetched and decoded by its parsed form. */
  lemma ParsedFetch(url: string, io: Io)
    requires UrlParse.UrlParse(url).Ok?
    ensures GetDecodedUrl(url, io) == FetchAndDecode(url, UrlParse.UrlParse(url).value, io)
  {
  }

  /**
    The fetch ends by detecting the encoding of `content`, once, and decoding
    it with the detected name; its text is what the decoder gave, and no
    earlier call detects or decodes.
  */
  predicate EndsByDecoding(r: Step<string>, content: Bytes, io: Io) {
    var n := |r.calls|;
    && n >= 2 && r.calls[n - 2] == Detect(content)
    && io.detect(content).Ok?
    && r.calls[n - 1] == Decode(content, EncodingName(io.detect(content).value))
    && r.result.Ok? && io.decode(content, EncodingName(io.detect(content).value)) == Ok(r.result.value)
    && (forall i | 0 <= i < n - 2 :: !r.calls[i].Detect? && !r.calls[i].Decode?)
  }

  /** `content` is the body of the response to `url`, or the file a `file` URL names. */
  predicate FetchedContent(url: string, parsed: UrlParse.ParseResult, content: Bytes, io: Io) {
    && (IsWebScheme(parsed.scheme) ==> io.get(url).Ok? && io.get(url).value.body == Ok(content))
    && (parsed.scheme == "file" ==> io.readFile(PurePosix.ToString(FilePath(parsed.netloc, parsed.path))) == Ok(content))
  }

  /** The bytes the successful fetch `r` decoded. */
  function DecodedBytes(r: Step<string>): Bytes
    requires |r.calls| >= 2 && r.calls[|r.calls| - 2].Detect?
  {
    r.calls[|r.calls| - 2].content
  }

  /**
    A successful fetch ends by detecting the encoding of the fetched bytes,
    once, and decoding them with the detected name; its text is what the
    decoder gave.
  */
  lemma SuccessDecodesFetchedBytes(url: string, io: Io)
    requires GetDecodedUrl(url, io).result.Ok?
    ensures UrlParse.UrlParse(url).Ok?
    ensures var r := GetDecodedUrl(url, io);
      && |r.calls| >= 2 && r.calls[|r.calls| - 2].Detect?
      && EndsByDecoding(r, DecodedBytes(r), io)
      && FetchedContent(url, UrlParse.UrlParse(url).value, DecodedBytes(r), io)
  {
    ParsedFetch(url, io);
    SuccessOfParsed(url, UrlParse.UrlParse(url).value, io);
  }

  lemma SuccessOfParsed(url: string, parsed: UrlParse.ParseResult, io: Io)
    requires FetchAndDecode(url, parsed, io).result.Ok?
    ensures var r := FetchAndDecode(url, parsed, io);
      && |r.calls| >= 2 && r.calls[|r.calls| - 2].Detect?
      && EndsByDecoding(r, DecodedBytes(r), io)
      && FetchedContent(url, parsed, DecodedBytes(r), io)
  {
    var fetched := FetchBytes(url, parsed, io).value;
    var content := fetched.result.value;
    var decoded := DecodeContent(url, content, io);
    var calls := fetched.calls + decoded.calls;
    assert calls[|calls| - 2] == Detect(content);
    assert calls[|calls| - 1] == decoded.calls[1];
    assert forall i | 0 <= i < |calls| - 2 :: calls[i] == fetched.calls[i];
  }

  /**
    The exchange the package's own test drives: a 200 response whose body is
    detected as UTF-8 gives the decoded body, after one request for the URL
    and one detection on the body.
  */
  lemma HttpsSuccess(url: string, io: Io, content: Bytes, text: string)
    requires UrlParse.UrlParse(url).Ok? && SchemeOf(url) == "https"
    requires io.get(url) == Ok(Response(200, Ok(content)))
    requires io.detect(content) == Ok(Some("utf-8"))
    requires io.decode(content, "utf-8") == Ok(text)
    ensures GetDecodedUrl(url, io)
         == Step(Ok(text), [Get(url), ReadBody(url), Detect(content), Decode(content, "utf-8")])
  {
  }

  /** A failing detection or decoding, when it is an `Exception`, is a decode error. */
  lemma DecodeFailureIsDecodeError(url: string, io: Io)
    requires GetDecodedUrl(url, io).result.Err?
    requires IsException(GetDecodedUrl(url, io).result.error)
    requires DetectCalled(GetDecodedUrl(url, io).calls)
    ensures GetDecodedUrl(url, io).result.error.cls == HttpSessionDecodeError
  {
    ParsedFetch(url, io);
    DecodeFailureOfParsed(url, UrlParse.UrlParse(url).value, io);
  }

  lemma DecodeFailureOfParsed(url: string, parsed: UrlParse.ParseResult, io: Io)
    requires FetchAndDecode(url, parsed, io).result.Err?
    requires IsException(FetchAndDecode(url, parsed, io).result.error)
    requires DetectCalled(FetchAndDecode(url, parsed, io).calls)
    ensures FetchAndDecode(url, parsed, io).result.error.cls == HttpSessionDecodeError
  {
    var fetched := FetchBytes(url, parsed, io).value;
    assert fetched.result.Ok?;
  }

  predicate DetectCalled(calls: seq<IoCall>) {
    exists i | 0 <= i < |calls| :: calls[i].Detect?
  }

  /**
    Every `Exception` a fetch raises is one of the four kinds, except an error
    of the request or the body read that is neither a `ClientError` nor a
    timeout, which passes through unchanged.
  */
  lemma ErrorsAreClassified(url: string, io: Io)
    requires GetDecodedUrl(url, io).result.Err?
    requires IsException(GetDecodedUrl(url, io).result.error)
    requires !IsFetchErrorKind(GetDecodedUrl(url, io).result.error.cls)
    ensures UrlParse.UrlParse(url).Ok? && IsWebScheme(SchemeOf(url))
    ensures var e := GetDecodedUrl(url, io).result.error;
      !IsNetworkError(e) && (io.get(url) == Err(e) || (io.get(url).Ok? && io.get(url).value.body == Err(e)))
  {
    ParsedFetch(url, io);
    ErrorsOfParsed(url, UrlParse.UrlParse(url).value, io);
  }

  /**
    An error `get_decoded_url` can report for `url`: one that is not an
    `Exception` (the handler lets it through), one of the four fetch-error
    kinds, or an aiohttp error that is not a network error, passed on
    unchanged from the request or the reading of the body.
  */
  predicate RaisedFor(url: string, io: Io, e: PyError) {
    || !IsException(e)
    || IsFetchErrorKind(e.cls)
    || (!IsNetworkError(e) && (io.get(url) == Err(e) || (io.get(url).Ok? && io.get(url).value.body == Err(e))))
  }

  /** Every error of `get_decoded_url` is of one of the kinds `RaisedFor` names. */
  lemma FetchErrorsAreClassified(url: string, io: Io)
    requires GetDecodedUrl(url, io).result.Err?
    ensures RaisedFor(url, io, GetDecodedUrl(url, io).result.error)
  {
    var e := GetDecodedUrl(url, io).result.error;
    if IsException(e) && !IsFetchErrorKind(e.cls) {
      ErrorsAreClassified(url, io);
    }
  }

  lemma ErrorsOfParsed(url: string, parsed: UrlParse.ParseResult, io: Io)
    requires FetchAndDecode(url, parsed, io).result.Err?
    requires IsException(FetchAndDecode(url, parsed, io).result.error)
    requires !IsFetchErrorKind(FetchAndDecode(url, parsed, io).result.error.cls)
    ensures IsWebScheme(parsed.scheme)
    ensures var e := FetchAndDecode(url, parsed, io).result.error;
      !IsNetworkError(e) && (io.get(url) == Err(e) || (io.get(url).Ok? && io.get(url).value.body == Err(e)))
  {
    var fetched := FetchBytes(url, parsed, io).value;
    if fetched.result.Ok? {
      var decoded := DecodeContent(url, fetched.result.value, io);
    }
  }

  /**
    As written, a URL `urlparse` rejects (`http://[x`, say) makes the fetch
    raise that `ValueError` itself, outside the `HttpSessionFetchError`
    hierarchy, before any I/O.
  */
  lemma AsWrittenInvalidUrlEscapes(url: string, io: Io)
    requires UrlParse.UrlParse(url).Err?
    ensures GetDecodedUrlAsWritten(url, io) == Step(Err(UrlParse.INVALID_IPV6), [])
    ensures !IsSubclass(ValueError, HttpSessionFetchError)
  {
  }

  /** Corrected, such a URL is an argument error, raised before any I/O. */
  lemma InvalidUrlIsArgumentError(url: string, io: Io)
    requires UrlParse.UrlParse(url).Err?
    ensures GetDecodedUrl(url, io).result.Err?
    ensures GetDecodedUrl(url, io).result.error.cls == HttpSessionArgumentError
    ensures GetDecodedUrl(url, io).calls == []
  {
  }

  /** `http://[x` is such a URL: as written its `ValueError` escapes, corrected it is an argument error. */
  lemma UnclosedBracketUrl(url: string, io: Io)
    requires url == "http://[x"
    ensures GetDecodedUrlAsWritten(url, io).result == Err(UrlParse.INVALID_IPV6)
    ensures GetDecodedUrl(url, io).result.Err? && GetDecodedUrl(url, io).result.error.cls == HttpSessionArgumentError
  {
    UrlParse.UnclosedBracketRaises(url);
    AsWrittenInvalidUrlEscapes(url, io);
    InvalidUrlIsArgumentError(url, io);
  }

  // ---------------------------------------------------------------------------
  // Resolving `file` URLs

  /**
    With an empty netloc or `.`, the URL path loses its leading `/`, so the
    file is looked up relative to the working directory: `file:///x` and
    `file://./x` both name the relative `x`.
  */
  lemma DotNetlocIsRelative(netloc: string, x: string)
    requires netloc == "" || netloc == "."
    requires x == "" || (x[0] != '/' && x[0] != '\\')
    ensures FilePath(netloc, "/" + x) == PurePosix.Parse(x)
    ensures PurePosix.Parse(x).root == ""
  {
    PurePosix.ParseSlashFree(netloc);
    StripLeadingSlash(x);
    if netloc == "" {
      EmptyBase(x);
    } else {
      PurePosix.DivRelative(netloc, x);
      PurePosix.ParseSlashFree(netloc);
    }
  }

  lemma StripLeadingSlash(x: string)
    requires x == "" || (x[0] != '/' && x[0] != '\\')
    ensures LStrip(LStrip("/" + x, {'/'}), {'\\'}) == x
  {
    var s := "/" + x;
    assert s[0] == '/' && s[1..] == x;
    assert LStrip(s, {'/'}) == LStrip(x, {'/'});
    assert LStrip(x, {'/'}) == x;
    assert LStrip(x, {'\\'}) == x;
  }

  lemma EmptyBase(x: string)
    requires !StartsWith(x, "/")
    ensures PurePosix.Div("", x) == PurePosix.Parse(x)
  {
    assert ["", x][..1] == [""];
    assert PurePosix.JoinAll([""]) == "" by { assert [""][..0] == []; }
    assert PurePosix.PosixJoin("", x) == x;
  }

  /** Any other netloc is dropped when the URL path is absolute: `file://host/x` names `/x`. */
  lemma OtherNetlocAbsolutePath(netloc: string, path: string)
    requires '/' !in netloc && netloc != "" && netloc != "."
    requires StartsWith(path, "/")
    ensures FilePath(netloc, path) == PurePosix.Parse(path)
  {
    PurePosix.ParseSlashFree(netloc);
  }

  /** A URL with a netloc and no path names the netloc: `file://test` names `test`. */
  lemma NetlocWithoutPath(netloc: string)
    requires '/' !in netloc && netloc != "" && netloc != "."
    ensures FilePath(netloc, "") == PurePosix.Path("", [netloc])
  {
    PurePosix.ParseSlashFree(netloc);
    PurePosix.DivRelative(netloc, "");
    PurePosix.ParseSlashFree("");
  }

  /** `file://<netloc><path>` reads the file its netloc and path resolve to, and nothing else first. */
  lemma FileUrlReadsResolvedPath(netloc: string, path: string, io: Io)
    requires '/' !in netloc && '?' !in netloc && '#' !in netloc && !UrlParse.UnbalancedBrackets(netloc)
    requires forall i | 0 <= i < |netloc| :: !UrlParse.IsUnsafe(netloc[i])
    requires path == "" || path[0] == '/'
    requires '?' !in path && '#' !in path
    requires forall i | 0 <= i < |path| :: !UrlParse.IsUnsafe(path[i])
    ensures var r := GetDecodedUrl("file" + "://" + netloc + path, io);
      |r.calls| >= 1 && r.calls[0] == ReadFile(PurePosix.ToString(FilePath(netloc, path)))
  {
    var url := "file" + "://" + netloc + path;
    UrlParse.FileComposed(netloc, path);
    ParsedFetch(url, io);
    FileReadFirst(url, UrlParse.UrlParse(url).value, io);
  }

  lemma FileReadFirst(url: string, parsed: UrlParse.ParseResult, io: Io)
    requires parsed.scheme == "file"
    ensures var r := FetchAndDecode(url, parsed, io);
      |r.calls| >= 1 && r.calls[0] == ReadFile(PurePosix.ToString(FilePath(parsed.netloc, parsed.path)))
  {
    var fetched := ReadLocal(url, parsed.netloc, parsed.path, io);
    if fetched.result.Ok? {
      var decoded := DecodeContent(url, fetched.result.value, io);
      assert (fetched.calls + decoded.calls)[0] == fetched.calls[0];
    }
  }

  /** `file:///x` reads the relative path `x`, not `/x`. */
  lemma TripleSlashIsRelative(x: string, io: Io)
    requires x == "" || (x[0] != '/' && x[0] != '\\')
    requires '?' !in x && '#' !in x
    requires forall i | 0 <= i < |x| :: !UrlParse.IsUnsafe(x[i])
    ensures var r := GetDecodedUrl("file:///" + x, io);
      |r.calls| >= 1 && r.calls[0] == ReadFile(PurePosix.ToString(PurePosix.Parse(x)))
    ensures PurePosix.Parse(x).root == ""
  {
    var url := "file:///" + x;
    TripleSlashParses(x);
    ParsedFetch(url, io);
    FileReadFirst(url, UrlParse.UrlParse(url).value, io);
  }

  /** `file:///x` parses into the empty netloc and the path `/x`, which resolves to the relative `x`. */
  lemma TripleSlashParses(x: string)
    requires x == "" || (x[0] != '/' && x[0] != '\\')
    requires '?' !in x && '#' !in x
    requires forall i | 0 <= i < |x| :: !UrlParse.IsUnsafe(x[i])
    ensures UrlParse.UrlParse("file:///" + x) == Ok(UrlParse.ParseResult("file", "", "/" + x, "", "", ""))
    ensures FilePath("", "/" + x) == PurePosix.Parse(x)
    ensures PurePosix.Parse(x).root == ""
  {
    var path := "/" + x;
    SlashPrefixed(x);
    UrlParse.FileComposed("", path);
    DotNetlocIsRelative("", x);
    TripleSlashSpelling(x);
  }

  lemma TripleSlashSpelling(x: string)
    ensures "file" + "://" + "" + ("/" + x) == "file:///" + x
  {
    assert "file" + "://" + "" == "file://";
    assert "file://" + ("/" + x) == ("file://" + "/") + x;
    assert "file://" + "/" == "file:///";
  }

  lemma SlashPrefixed(x: string)
    requires '?' !in x && '#' !in x
    requires forall i | 0 <= i < |x| :: !UrlParse.IsUnsafe(x[i])
    ensures '?' !in "/" + x && '#' !in "/" + x
    ensures forall i | 0 <= i < |"/" + x| :: !UrlParse.IsUnsafe(("/" + x)[i])
  {
    var path := "/" + x;
    assert forall i | 1 <= i < |path| :: path[i] == x[i - 1];
  }
}
