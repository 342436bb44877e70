/**
  The harvesting of one repository: choose the HTTP configuration, open a
  session, fetch the sitemap, let the registered sitemap parser list the
  dataset URLs, then fetch every dataset and let the registered metadata
  extractor turn it into metadata, with a report of how many entries were
  found and how many URLs failed.
*/
module MetadataScraper {
  import opened Wrappers
  import opened Python
  import opened JsonValue
  import Seqs
  import Strings
  import opened HttpSession
  import opened SitemapParser
  import opened MetadataExtractor
  import opened RegisteringAbc
  import SitemapThunenAtlas

  // ---------------------------------------------------------------------------
  // Configuration

  /**
    `MetadataScraperConfig`. `http_client` is the keyword dictionary for a
    specialised `HttpSessionConfig`, its members in insertion order.
  */
  datatype ScraperConfig = ScraperConfig(
    name: string,
    url: string,
    sitemap: string,
    metadata: Option<string>,
    commit: Option<bool>,
    httpClient: Option<seq<(string, int)>>)

  /** The parameters of `HttpSessionConfig.__new__`, in order. */
  const SESSION_FIELDS: seq<string> := ["connection_limit", "receive_timeout", "connect_timeout"]

  predicate HasKey(kwargs: seq<(string, int)>, key: string) {
    exists i | 0 <= i < |kwargs| :: kwargs[i].0 == key
  }

  /** The value given for `key` (the first member with that key). */
  function ValueOf(kwargs: seq<(string, int)>, key: string): (v: int)
    requires HasKey(kwargs, key)
    ensures exists i | 0 <= i < |kwargs| :: kwargs[i] == (key, v)
  {
    if kwargs[0].0 == key then kwargs[0].1 else ValueOf(kwargs[1..], key)
  }

  /** The index of the first keyword that is not a parameter, or `|kwargs|`. */
  function FirstUnexpected(kwargs: seq<(string, int)>): (k: nat)
    ensures k <= |kwargs|
    ensures k < |kwargs| ==> kwargs[k].0 !in SESSION_FIELDS
    ensures forall j | 0 <= j < k :: kwargs[j].0 in SESSION_FIELDS
  {
    if kwargs == [] then 0
    else if kwargs[0].0 !in SESSION_FIELDS then 0
    else 1 + FirstUnexpected(kwargs[1..])
  }

  /** The parameters without a keyword, in parameter order. */
  function Missing(kwargs: seq<(string, int)>): (names: seq<string>)
    ensures forall n | n in names :: n in SESSION_FIELDS && !HasKey(kwargs, n)
    ensures forall n | n in SESSION_FIELDS && !HasKey(kwargs, n) :: n in names
    ensures |names| <= 3
  {
    (if HasKey(kwargs, SESSION_FIELDS[0]) then [] else [SESSION_FIELDS[0]])
    + (if HasKey(kwargs, SESSION_FIELDS[1]) then [] else [SESSION_FIELDS[1]])
    + (if HasKey(kwargs, SESSION_FIELDS[2]) then [] else [SESSION_FIELDS[2]])
  }

  function Quoted(name: string): string {
    "'" + name + "'"
  }

  /** How Python lists missing parameter names: `'a'`, `'a' and 'b'`, `'a', 'b', and 'c'`. */
  function NameList(names: seq<string>): string
    requires 1 <= |names| <= 3
  {
    if |names| == 1 then Quoted(names[0])
    else if |names| == 2 then Quoted(names[0]) + " and " + Quoted(names[1])
    else Quoted(names[0]) + ", " + Quoted(names[1]) + ", and " + Quoted(names[2])
  }

  function MissingArguments(names: seq<string>): PyError
    requires 1 <= |names| <= 3
  {
    PyError(TypeError, "HttpSessionConfig.__new__() missing " + Digits(|names|) + " required positional argument"
      + (if |names| == 1 then "" else "s") + ": " + NameList(names))
  }

  function UnexpectedKeyword(name: string): PyError {
    PyError(TypeError, "HttpSessionConfig.__new__() got an unexpected keyword argument " + Quoted(name))
  }

  /**
    `HttpSessionConfig(**kwargs)`: an unknown keyword is reported first, then
    the parameters nobody gave; otherwise the three values.
  */
  function FromKwargs(kwargs: seq<(string, int)>): (r: Result<HttpSessionConfig, PyError>)
    ensures r.Ok? <==> (forall i | 0 <= i < |kwargs| :: kwargs[i].0 in SESSION_FIELDS)
                       && (forall n | n in SESSION_FIELDS :: HasKey(kwargs, n))
    ensures r.Ok? ==> r.value == HttpSessionConfig(ValueOf(kwargs, "connection_limit"),
                                                   ValueOf(kwargs, "receive_timeout"),
                                                   ValueOf(kwargs, "connect_timeout"))
    ensures r.Err? ==> r.error.cls == TypeError
    ensures FirstUnexpected(kwargs) < |kwargs| ==> r == Err(UnexpectedKeyword(kwargs[FirstUnexpected(kwargs)].0))
    ensures FirstUnexpected(kwargs) == |kwargs| && Missing(kwargs) != [] ==> r == Err(MissingArguments(Missing(kwargs)))
  {
    var k := FirstUnexpected(kwargs);
    if k < |kwargs| then Err(UnexpectedKeyword(kwargs[k].0))
    else
      var missing := Missing(kwargs);
      if missing != [] then
        assert missing[0] in SESSION_FIELDS && !HasKey(kwargs, missing[0]);
        Err(MissingArguments(missing))
      else
        Ok(HttpSessionConfig(ValueOf(kwargs, "connection_limit"),
                             ValueOf(kwargs, "receive_timeout"),
                             ValueOf(kwargs, "connect_timeout")))
  }

  /** The configuration the session is opened with: the repository's own when given and non-empty. */
  function SessionConfig(config: ScraperConfig, default: HttpSessionConfig): (r: Result<HttpSessionConfig, PyError>)
    ensures config.httpClient.None? || config.httpClient.value == [] ==> r == Ok(default)
    ensures config.httpClient.Some? && config.httpClient.value != [] ==> r == FromKwargs(config.httpClient.value)
  {
    match config.httpClient
    case Some(kwargs) => if kwargs == [] then Ok(default) else FromKwargs(kwargs)
    case None => Ok(default)
  }

  /** The three parameters given in any order make the configuration from exactly those values. */
  lemma {:induction false} OwnConfigInAnyOrder(config: ScraperConfig, default: HttpSessionConfig, limit: int, receive: int, connect: int)
    requires config.httpClient == Some([("connect_timeout", connect), ("connection_limit", limit), ("receive_timeout", receive)])
    ensures SessionConfig(config, default) == Ok(HttpSessionConfig(limit, receive, connect))
  {
    var kwargs := config.httpClient.value;
    assert kwargs[0].0 == SESSION_FIELDS[2];
    assert kwargs[1].0 == SESSION_FIELDS[0];
    assert kwargs[2].0 == SESSION_FIELDS[1];
    assert forall i | 0 <= i < |kwargs| :: kwargs[i].0 in SESSION_FIELDS;
    assert forall n | n in SESSION_FIELDS :: HasKey(kwargs, n);
    assert ValueOf(kwargs, "connection_limit") == limit by {
      assert kwargs[0].0 != "connection_limit";
      assert kwargs[1..][0] == kwargs[1];
    }
    assert ValueOf(kwargs, "receive_timeout") == receive by {
      assert kwargs[0].0 != "receive_timeout";
      assert kwargs[1..][0].0 != "receive_timeout";
      assert kwargs[1..][1..][0] == kwargs[2];
    }
  }

  /** No key appears twice, as in the dictionary `http_client` is read from. */
  predicate DistinctKeys(kwargs: seq<(string, int)>) {
    forall i, j | 0 <= i < j < |kwargs| :: kwargs[i].0 != kwargs[j].0
  }

  /** With distinct keys, the value of a member is the value given for its key. */
  lemma ValueOfMember(kwargs: seq<(string, int)>, key: string, v: int)
    requires DistinctKeys(kwargs) && (key, v) in kwargs
    ensures HasKey(kwargs, key) && ValueOf(kwargs, key) == v
  {
    var j :| 0 <= j < |kwargs| && kwargs[j] == (key, v);
    assert kwargs[j].0 == key;
    var i :| 0 <= i < |kwargs| && kwargs[i] == (key, ValueOf(kwargs, key));
    assert !(i < j) && !(j < i);
  }

  /** Members of `b` that all name parameters name parameters wherever they are listed. */
  lemma KeysWithin(a: seq<(string, int)>, b: seq<(string, int)>)
    requires forall x | x in a :: x in b
    requires forall i | 0 <= i < |b| :: b[i].0 in SESSION_FIELDS
    ensures forall i | 0 <= i < |a| :: a[i].0 in SESSION_FIELDS
  {
    forall i | 0 <= i < |a| ensures a[i].0 in SESSION_FIELDS {
      assert a[i] in b;
      var j :| 0 <= j < |b| && b[j] == a[i];
    }
  }

  /** What `HasKey` finds in `a` it finds in `b` when every member of `a` is one of `b`. */
  lemma HasKeyWithin(a: seq<(string, int)>, b: seq<(string, int)>, key: string)
    requires forall x | x in a :: x in b
    requires HasKey(a, key)
    ensures HasKey(b, key)
  {
    var i :| 0 <= i < |a| && a[i].0 == key;
    assert a[i] in b;
    var j :| 0 <= j < |b| && b[j] == a[i];
  }

  /**
    The order of a dictionary's members does not matter: the same members with
    distinct keys, in any order, are accepted or refused together, and when
    accepted make the same configuration.
  */
  lemma KwargsOrderIrrelevant(kwargs: seq<(string, int)>, reordered: seq<(string, int)>)
    requires DistinctKeys(kwargs)
    requires multiset(kwargs) == multiset(reordered)
    ensures FromKwargs(reordered).Ok? <==> FromKwargs(kwargs).Ok?
    ensures FromKwargs(kwargs).Ok? ==> FromKwargs(reordered) == FromKwargs(kwargs)
  {
    forall x ensures x in kwargs <==> x in reordered {
      assert x in kwargs <==> x in multiset(kwargs);
      assert x in reordered <==> x in multiset(reordered);
    }
    SameMembers(kwargs, reordered);
    if FromKwargs(kwargs).Ok? {
      forall n | n in SESSION_FIELDS ensures ValueOf(reordered, n) == ValueOf(kwargs, n) {
        ValueOfMember(kwargs, n, ValueOf(reordered, n));
      }
    }
  }

  /** Sequences with the same members agree on which keys they give and whether all are parameters. */
  lemma SameMembers(a: seq<(string, int)>, b: seq<(string, int)>)
    requires forall x :: x in a <==> x in b
    ensures (forall i | 0 <= i < |a| :: a[i].0 in SESSION_FIELDS) <==> (forall i | 0 <= i < |b| :: b[i].0 in SESSION_FIELDS)
    ensures forall n :: HasKey(a, n) <==> HasKey(b, n)
  {
    if forall i | 0 <= i < |a| :: a[i].0 in SESSION_FIELDS {
      KeysWithin(b, a);
    }
    if forall i | 0 <= i < |b| :: b[i].0 in SESSION_FIELDS {
      KeysWithin(a, b);
    }
    forall n ensures HasKey(a, n) <==> HasKey(b, n) {
      if HasKey(a, n) { HasKeyWithin(a, b, n); }
      if HasKey(b, n) { HasKeyWithin(b, a, n); }
    }
  }

  /** The first key that is not a parameter is found where it stands. */
  lemma {:induction false} FirstUnexpectedAt(kwargs: seq<(string, int)>, k: nat)
    requires k < |kwargs| && kwargs[k].0 !in SESSION_FIELDS
    requires forall j | 0 <= j < k :: kwargs[j].0 in SESSION_FIELDS
    ensures FirstUnexpected(kwargs) == k
    decreases k
  {
    if k > 0 {
      assert kwargs[0].0 in SESSION_FIELDS;
      var tail := kwargs[1..];
      assert forall j | 0 <= j < k - 1 :: tail[j] == kwargs[j + 1];
      FirstUnexpectedAt(tail, k - 1);
    }
  }

  /**
    A key that is not a parameter of `HttpSessionConfig` is a `TypeError`
    naming it, when every key before it is a parameter, however many follow.
  */
  lemma UnknownKeyIsTypeError(config: ScraperConfig, default: HttpSessionConfig, kwargs: seq<(string, int)>, k: nat)
    requires config.httpClient == Some(kwargs)
    requires k < |kwargs| && kwargs[k].0 !in SESSION_FIELDS
    requires forall j | 0 <= j < k :: kwargs[j].0 in SESSION_FIELDS
    ensures SessionConfig(config, default) == Err(UnexpectedKeyword(kwargs[k].0))
  {
    FirstUnexpectedAt(kwargs, k);
  }

  // ---------------------------------------------------------------------------
  // Extraction

  /** `session.get_decoded_url`: the decoded content of a URL, or why it could not be had. */
  type Fetch = string -> Result<string, PyError>

  /** `fetch` is a session's `get_decoded_url` over `io`. */
  ghost predicate IsSessionFetch(fetch: Fetch, io: Io) {
    forall url :: fetch(url) == GetDecodedUrl(url, io).result
  }

  /** The fetch of a session over `io`, as `HttpSession` defines it. */
  function SessionFetch(io: Io): (fetch: Fetch)
    ensures IsSessionFetch(fetch, io)
  {
    url => GetDecodedUrl(url, io).result
  }

  /**
    `_extract_metadata(url, session, extractor)`: a failed download is not
    caught; what the extractor cannot parse is `None`.
  */
  function ExtractMetadata(url: string, fetch: Fetch, extractor: Extractor): (r: Result<Option<seq<Json>>, PyError>)
    ensures fetch(url).Err? ==> r == Err(fetch(url).error)
    ensures r == Ok(None) ==>
      fetch(url).Ok? && extractor.metadata(fetch(url).value, url).Err? && IsException(extractor.metadata(fetch(url).value, url).error)
    ensures r.Ok? && r.value.Some? ==>
      fetch(url).Ok? && extractor.metadata(fetch(url).value, url) == Ok(r.value.value)
    ensures fetch(url).Ok? ==> r == GetMetadataOrLogError(extractor, fetch(url).value, url).result
  {
    var content :- fetch(url);
    GetMetadataOrLogError(extractor, content, url).result
  }

  /**
    `asyncio.gather` over `_extract_metadata` for every URL: the results in
    URL order, or the first failure in URL order.
  */
  function Gather(urls: seq<string>, fetch: Fetch, extractor: Extractor): (r: Result<seq<Option<seq<Json>>>, PyError>)
    ensures r.Ok? <==> forall i | 0 <= i < |urls| :: ExtractMetadata(urls[i], fetch, extractor).Ok?
    ensures r.Ok? ==> |r.value| == |urls|
    ensures r.Ok? ==> forall i | 0 <= i < |urls| :: ExtractMetadata(urls[i], fetch, extractor) == Ok(r.value[i])
    ensures r.Err? ==> exists k | 0 <= k < |urls| :: FirstFailure(urls, fetch, extractor, k, r.error)
    decreases |urls|
  {
    if urls == [] then Ok([])
    else
      match ExtractMetadata(urls[0], fetch, extractor)
      case Err(e) =>
        assert FirstFailure(urls, fetch, extractor, 0, e);
        Err(e)
      case Ok(first) =>
        match Gather(urls[1..], fetch, extractor)
        case Err(e) =>
          assert exists k | 0 <= k < |urls| :: FirstFailure(urls, fetch, extractor, k, e) by {
            var k :| 0 <= k < |urls[1..]| && FirstFailure(urls[1..], fetch, extractor, k, e);
            FirstFailureCons(urls, fetch, extractor, k, e);
          }
          Err(e)
        case Ok(rest) =>
          assert forall i | 1 <= i < |urls| :: urls[i] == urls[1..][i - 1];
          Ok([first] + rest)
  }

  /** The URL at `k` is the first whose extraction fails, and it fails with `e`. */
  predicate FirstFailure(urls: seq<string>, fetch: Fetch, extractor: Extractor, k: nat, e: PyError)
    requires k < |urls|
  {
    && ExtractMetadata(urls[k], fetch, extractor) == Err(e)
    && forall j | 0 <= j < k :: ExtractMetadata(urls[j], fetch, extractor).Ok?
  }

  lemma FirstFailureCons(urls: seq<string>, fetch: Fetch, extractor: Extractor, k: nat, e: PyError)
    requires 1 <= |urls| && k < |urls| - 1
    requires ExtractMetadata(urls[0], fetch, extractor).Ok?
    requires FirstFailure(urls[1..], fetch, extractor, k, e)
    ensures FirstFailure(urls, fetch, extractor, k + 1, e)
  {
    assert forall j | 1 <= j <= k + 1 :: urls[j] == urls[1..][j - 1];
  }

  /** The lists of the URLs that gave metadata, in URL order. */
  function Found(results: seq<Option<seq<Json>>>): (lists: seq<seq<Json>>)
    ensures |lists| <= |results|
    ensures forall i | 0 <= i < |results| && results[i].Some? :: results[i].value in lists
    ensures forall l | l in lists :: Some(l) in results
  {
    if results == [] then []
    else (if results[0].Some? then [results[0].value] else []) + Found(results[1..])
  }

  /** How many URLs gave `None`. */
  function Failures(results: seq<Option<seq<Json>>>): (n: nat)
    ensures n <= |results|
  {
    if results == [] then 0
    else (if results[0].None? then 1 else 0) + Failures(results[1..])
  }

  /** Every URL is counted once: as a failure or as a list that was found. */
  lemma {:induction false} FoundPlusFailures(results: seq<Option<seq<Json>>>)
    ensures |Found(results)| + Failures(results) == |results|
  {
    if results != [] {
      FoundPlusFailures(results[1..]);
    }
  }

  /** No failure means every URL gave metadata. */
  lemma {:induction false} NoFailures(results: seq<Option<seq<Json>>>)
    ensures Failures(results) == 0 <==> forall i | 0 <= i < |results| :: results[i].Some?
  {
    if results != [] {
      NoFailures(results[1..]);
      assert forall i | 1 <= i < |results| :: results[i] == results[1..][i - 1];
    }
  }

  lemma {:induction false} FoundAppend(a: seq<Option<seq<Json>>>, b: seq<Option<seq<Json>>>)
    ensures Found(a + b) == Found(a) + Found(b)
  {
    if a == [] {
      assert a + b == b;
    } else {
      var h := if a[0].Some? then [a[0].value] else [];
      assert (a + b)[0] == a[0];
      assert (a + b)[1..] == a[1..] + b;
      FoundAppend(a[1..], b);
      assert Found(a + b) == h + (Found(a[1..]) + Found(b));
    }
  }

  lemma {:induction false} FailuresAppend(a: seq<Option<seq<Json>>>, b: seq<Option<seq<Json>>>)
    ensures Failures(a + b) == Failures(a) + Failures(b)
  {
    if a == [] {
      assert a + b == b;
    } else {
      assert (a + b)[0] == a[0];
      assert (a + b)[1..] == a[1..] + b;
      FailuresAppend(a[1..], b);
    }
  }

  /** The `valid_entries` and `failed_entries` of a report. */
  datatype Report = Report(validEntries: nat, failedEntries: nat)

  /**
    `_extract_many_metadata(urls, session, extractor)`: the metadata of all
    URLs flattened in URL order, and the report counting the entries found
    and the URLs that failed.
  */
  function ExtractManyMetadata(urls: seq<string>, fetch: Fetch, extractor: Extractor): (r: Result<(seq<Json>, Report), PyError>)
    ensures r.Ok? <==> Gather(urls, fetch, extractor).Ok?
    ensures r.Err? ==> r.error == Gather(urls, fetch, extractor).error
    ensures r.Ok? ==> r.value.1.validEntries == |r.value.0|
  {
    var results :- Gather(urls, fetch, extractor);
    var metadata := Seqs.Concat(Found(results));
    Ok((metadata, Report(|metadata|, Failures(results))))
  }

  /**
    The error that ends an extraction is raised at the first URL that fails:
    by its download, or by the extractor's call on what was downloaded.
  */
  lemma ErrorIsFirstFailure(urls: seq<string>, fetch: Fetch, extractor: Extractor)
    requires ExtractManyMetadata(urls, fetch, extractor).Err?
    ensures var e := ExtractManyMetadata(urls, fetch, extractor).error;
      exists k | 0 <= k < |urls| ::
        && FirstFailure(urls, fetch, extractor, k, e)
        && (fetch(urls[k]).Err? ==> fetch(urls[k]) == Err(e))
        && (fetch(urls[k]).Ok? ==> GetMetadataOrLogError(extractor, fetch(urls[k]).value, urls[k]).result == Err(e))
  {
    var e := ExtractManyMetadata(urls, fetch, extractor).error;
    var k :| 0 <= k < |urls| && FirstFailure(urls, fetch, extractor, k, e);
    assert ExtractMetadata(urls[k], fetch, extractor) == Err(e);
  }

  /** Every failed download of `fetch` is an error `get_decoded_url` can report for that URL. */
  ghost predicate ClassifiedFetch(fetch: Fetch, io: Io) {
    forall url | fetch(url).Err? :: RaisedFor(url, io, fetch(url).error)
  }

  /** A session's fetch reports only such errors. */
  lemma SessionFetchClassified(fetch: Fetch, io: Io)
    requires IsSessionFetch(fetch, io)
    ensures ClassifiedFetch(fetch, io)
  {
    forall url | fetch(url).Err? ensures RaisedFor(url, io, fetch(url).error) {
      FetchErrorsAreClassified(url, io);
    }
  }

  /**
    Over a fetch that reports only classified errors, the error that ends an
    extraction is raised at the first URL that fails; when its download
    failed, it is that download's error, and one `get_decoded_url` can
    report for that URL.
  */
  lemma ClassifiedErrorsPropagate(urls: seq<string>, fetch: Fetch, io: Io, extractor: Extractor)
    requires ClassifiedFetch(fetch, io)
    requires ExtractManyMetadata(urls, fetch, extractor).Err?
    ensures var e := ExtractManyMetadata(urls, fetch, extractor).error;
      exists k | 0 <= k < |urls| ::
        && FirstFailure(urls, fetch, extractor, k, e)
        && (fetch(urls[k]).Err? ==> fetch(urls[k]).error == e && RaisedFor(urls[k], io, e))
  {
    var e := ExtractManyMetadata(urls, fetch, extractor).error;
    ErrorIsFirstFailure(urls, fetch, extractor);
    var k :| 0 <= k < |urls| && FirstFailure(urls, fetch, extractor, k, e)
      && (fetch(urls[k]).Err? ==> fetch(urls[k]) == Err(e))
      && (fetch(urls[k]).Ok? ==> GetMetadataOrLogError(extractor, fetch(urls[k]).value, urls[k]).result == Err(e));
  }

  /**
    The report accounts for every URL, and the number of entries is the sum
    of the lengths of the lists found.
  */
  lemma ReportAccountsForEveryUrl(urls: seq<string>, fetch: Fetch, extractor: Extractor)
    requires ExtractManyMetadata(urls, fetch, extractor).Ok?
    ensures var (metadata, report) := ExtractManyMetadata(urls, fetch, extractor).value;
      var results := Gather(urls, fetch, extractor).value;
      && report.failedEntries + |Found(results)| == |urls|
      && report.validEntries == Seqs.SumLengths(Found(results))
      && (report.failedEntries == 0 <==> forall i | 0 <= i < |urls| :: ExtractMetadata(urls[i], fetch, extractor).value.Some?)
  {
    var results := Gather(urls, fetch, extractor).value;
    FoundPlusFailures(results);
    Seqs.ConcatLength(Found(results));
    NoFailures(results);
  }

  lemma {:induction false} GatherAppend(a: seq<string>, b: seq<string>, fetch: Fetch, extractor: Extractor)
    requires Gather(a + b, fetch, extractor).Ok?
    ensures Gather(a, fetch, extractor).Ok? && Gather(b, fetch, extractor).Ok?
    ensures Gather(a + b, fetch, extractor).value == Gather(a, fetch, extractor).value + Gather(b, fetch, extractor).value
  {
    var ab := Gather(a + b, fetch, extractor).value;
    forall i | 0 <= i < |a|
      ensures ExtractMetadata(a[i], fetch, extractor) == Ok(ab[i])
    {
      assert (a + b)[i] == a[i];
    }
    forall i | 0 <= i < |b|
      ensures ExtractMetadata(b[i], fetch, extractor) == Ok(ab[|a| + i])
    {
      assert (a + b)[|a| + i] == b[i];
    }
    var ga := Gather(a, fetch, extractor).value;
    var gb := Gather(b, fetch, extractor).value;
    forall i | 0 <= i < |ab|
      ensures ab[i] == (ga + gb)[i]
    {
      if i >= |a| {
        assert ab[|a| + (i - |a|)] == gb[i - |a|];
      }
    }
  }

  /**
    Harvesting two URL lists together gives the first list's metadata
    followed by the second's, and the two reports added up.
  */
  lemma ExtractManyConcatenates(a: seq<string>, b: seq<string>, fetch: Fetch, extractor: Extractor)
    requires ExtractManyMetadata(a + b, fetch, extractor).Ok?
    ensures ExtractManyMetadata(a, fetch, extractor).Ok? && ExtractManyMetadata(b, fetch, extractor).Ok?
    ensures var (m, r) := ExtractManyMetadata(a + b, fetch, extractor).value;
      var (ma, ra) := ExtractManyMetadata(a, fetch, extractor).value;
      var (mb, rb) := ExtractManyMetadata(b, fetch, extractor).value;
      m == ma + mb && r == Report(ra.validEntries + rb.validEntries, ra.failedEntries + rb.failedEntries)
  {
    GatherAppend(a, b, fetch, extractor);
    var ga := Gather(a, fetch, extractor).value;
    var gb := Gather(b, fetch, extractor).value;
    FoundAppend(ga, gb);
    FailuresAppend(ga, gb);
    Seqs.ConcatAppend(Found(ga), Found(gb));
  }

  /**
    What one URL contributes: its metadata list and no failure, an empty list
    and one failure, or its error.
  */
  lemma ExtractManyOne(u: string, fetch: Fetch, extractor: Extractor)
    ensures var one := ExtractMetadata(u, fetch, extractor);
      var many := ExtractManyMetadata([u], fetch, extractor);
      && (one.Err? ==> many == Err(one.error))
      && (one == Ok(None) ==> many == Ok(([], Report(0, 1))))
      && (one.Ok? && one.value.Some? ==> many == Ok((one.value.value, Report(|one.value.value|, 0))))
  {
    var one := ExtractMetadata(u, fetch, extractor);
    assert [u][1..] == [];
    if one.Ok? {
      var results := Gather([u], fetch, extractor).value;
      assert results == [one.value];
      assert results[1..] == [];
      if one.value.Some? {
        assert Found(results) == [one.value.value];
        assert Failures(results) == 0;
        assert [one.value.value][1..] == [];
        var l: seq<Json> := one.value.value;
        assert Seqs.Concat<Json>([]) == [];
        assert Seqs.Concat(Found(results)) == l + Seqs.Concat<Json>([]);
        assert l + [] == l;
      } else {
        assert Found(results) == [];
        assert Failures(results) == 1;
      }
    }
  }

  /** When no URL gives metadata, the result is empty and every URL is a failure. */
  lemma AllFailedReport(urls: seq<string>, fetch: Fetch, extractor: Extractor)
    requires forall i | 0 <= i < |urls| :: ExtractMetadata(urls[i], fetch, extractor) == Ok(None)
    ensures ExtractManyMetadata(urls, fetch, extractor) == Ok(([], Report(0, |urls|)))
  {
    var results := Gather(urls, fetch, extractor).value;
    FoundPlusFailures(results);
    assert |Found(results)| == 0 by {
      NoneFound(results);
    }
  }

  lemma {:induction false} NoneFound(results: seq<Option<seq<Json>>>)
    requires forall i | 0 <= i < |results| :: results[i].None?
    ensures Found(results) == []
  {
    if results != [] {
      assert forall i | 0 <= i < |results[1..]| :: results[1..][i] == results[i + 1];
      NoneFound(results[1..]);
    }
  }

  // ---------------------------------------------------------------------------
  // Scraping a repository

  /**
    What a parser object created for the fetched sitemap offers:
    `has_metadata`, `metadata` and the `datasets` generator. Reading an
    attribute may raise.
  */
  datatype ParserView = ParserView(hasMetadata: Result<bool, PyError>, metadata: Result<seq<Json>, PyError>, datasets: Gen)

  /** `scrape_repo`'s result: a bare metadata list, or the metadata with its report. */
  datatype Outcome = Bare(metadata: seq<Json>) | WithReport(metadata: seq<Json>, report: Report)

  /** An outcome, and the URLs the session was asked to fetch. */
  datatype Scrape = Scrape(result: Result<Outcome, PyError>, fetched: seq<string>)

  /** What `scrape_repo` reaches through the session and the registry. */
  datatype ScrapeEnv = ScrapeEnv(
    setup: HttpSessionConfig -> Result<(), PyError>,   // opening the connector and timeouts
    fetch: Fetch,                                      // the session's `get_decoded_url`
    implementations: map<string, ImplClass>,           // the registry's table
    parserOf: (ImplClass, string) -> ParserView,       // a parser object over the sitemap content
    extractorOf: ImplClass -> Extractor)               // an extractor object

  /** The empty report of a repository without an extractor. */
  const EMPTY_REPORT: Report := Report(0, 0)

  /** `if config.metadata:` — an identifier that is neither `None` nor empty. */
  predicate HasExtractor(config: ScraperConfig) {
    config.metadata.Some? && config.metadata.value != ""
  }

  /**
    Everything after the sitemap was fetched: create the parser, return its
    own metadata if it has some, list the dataset URLs, then extract, or
    report nothing when no extractor is configured.
  */
  function Harvest(config: ScraperConfig, content: string, env: ScrapeEnv): (s: Scrape)
    ensures s.fetched == [] || (s.result.Ok? ==> s.result.value.WithReport?)
  {
    match ClassFor(env.implementations, config.sitemap)
    case Err(e) => Scrape(Err(e), [])
    case Ok(cls) =>
      var parser := env.parserOf(cls, content);
      match parser.hasMetadata
      case Err(e) => Scrape(Err(e), [])
      case Ok(hasMetadata) =>
        if hasMetadata then
          Scrape(match parser.metadata case Ok(m) => Ok(Bare(m)) case Err(e) => Err(e), [])
        else
          match ToList(parser.datasets)
          case Err(e) => Scrape(Err(e), [])
          case Ok(urls) =>
            if !HasExtractor(config) then Scrape(Ok(WithReport([], EMPTY_REPORT)), [])
            else
              match ClassFor(env.implementations, config.metadata.value)
              case Err(e) => Scrape(Err(e), [])
              case Ok(extractorClass) =>
                var extracted := ExtractManyMetadata(urls, env.fetch, env.extractorOf(extractorClass));
                Scrape(match extracted case Ok(mr) => Ok(WithReport(mr.0, mr.1)) case Err(e) => Err(e), urls)
  }

  /** The sitemap content, or why it could not be had, and the URLs fetched for it. */
  datatype Index = Index(content: Result<string, PyError>, fetched: seq<string>)

  /**
    Opening the session, then fetching the sitemap: the sitemap is fetched
    exactly when the configuration was built and the session opened, and
    the content is then what the fetch returned.
  */
  function FetchIndex(config: ScraperConfig, default: HttpSessionConfig, env: ScrapeEnv): (s: Index)
    ensures s.fetched == [] || s.fetched == [config.url]
    ensures s.fetched != [] <==>
      SessionConfig(config, default).Ok? && NewSession(SessionConfig(config, default).value, env.setup).Ok?
    ensures s.fetched != [] ==> s.content == env.fetch(config.url)
    ensures s.fetched == [] ==> s.content.Err?
  {
    match SessionConfig(config, default)
    case Err(e) => Index(Err(e), [])
    case Ok(sessionConfig) =>
      match NewSession(sessionConfig, env.setup)
      case Err(e) => Index(Err(e), [])
      case Ok(_) => Index(env.fetch(config.url), [config.url])
  }

  /** The error `SitemapParser.create_instance(config.sitemap, sitemap_content)` raises. */
  const CREATE_INSTANCE_ARITY: PyError :=
    PyError(TypeError, "RegisteringABC.create_instance() takes 2 positional arguments but 3 were given")

  /**
    `scrape_repo` as written: `create_instance` is passed the sitemap content
    as a second argument it does not take, so every run that fetched the
    sitemap ends in a `TypeError`.
  */
  function ScrapeRepoAsWritten(config: ScraperConfig, default: HttpSessionConfig, env: ScrapeEnv): Scrape {
    var index := FetchIndex(config, default, env);
    match index.content
    case Err(e) => Scrape(Err(e), index.fetched)
    case Ok(_) => Scrape(Err(CREATE_INSTANCE_ARITY), index.fetched)
  }

  /**
    `scrape_repo` with the parser created for the identifier and given the
    fetched sitemap content.
  */
  function ScrapeRepo(config: ScraperConfig, default: HttpSessionConfig, env: ScrapeEnv): (s: Scrape)
    ensures |s.fetched| >= 1 ==> s.fetched[0] == config.url
  {
    var index := FetchIndex(config, default, env);
    match index.content
    case Err(e) => Scrape(Err(e), index.fetched)
    case Ok(content) =>
      var harvested := Harvest(config, content, env);
      Scrape(harvested.result, index.fetched + harvested.fetched)
  }

  /** As written, no run returns metadata, and no dataset URL is ever fetched. */
  lemma AsWrittenNeverSucceeds(config: ScraperConfig, default: HttpSessionConfig, env: ScrapeEnv)
    ensures ScrapeRepoAsWritten(config, default, env).result.Err?
    ensures ScrapeRepoAsWritten(config, default, env).fetched in {[], [config.url]}
    ensures FetchIndex(config, default, env).content.Ok? ==>
      ScrapeRepoAsWritten(config, default, env) == Scrape(Err(CREATE_INSTANCE_ARITY), [config.url])
  {
  }

  /**
    The corrected scraper reaches the parser with the fetched sitemap: for a
    registered parser without own metadata and a registered extractor, the
    result is the extraction over the URLs the parser lists, and exactly the
    sitemap and those URLs are fetched.
  */
  lemma ScrapeExtractsListedUrls(config: ScraperConfig, default: HttpSessionConfig, env: ScrapeEnv, content: string, urls: seq<string>)
    requires FetchIndex(config, default, env).content == Ok(content)
    requires config.sitemap in env.implementations
    requires env.parserOf(env.implementations[config.sitemap], content).hasMetadata == Ok(false)
    requires env.parserOf(env.implementations[config.sitemap], content).datasets == Gen(urls, Exhausted)
    requires HasExtractor(config) && config.metadata.value in env.implementations
    ensures var s := ScrapeRepo(config, default, env);
      var extracted := ExtractManyMetadata(urls, env.fetch, env.extractorOf(env.implementations[config.metadata.value]));
      && s.fetched == [config.url] + urls
      && (extracted.Ok? ==> s.result == Ok(WithReport(extracted.value.0, extracted.value.1)))
      && (extracted.Err? ==> s.result == Err(extracted.error))
  {
  }

  /** The URLs a run fetches when the parser lists `urls`, as `ScrapeExtractsListedUrls` states them. */
  lemma ScrapeFetchesListedUrls(config: ScraperConfig, default: HttpSessionConfig, env: ScrapeEnv, content: string, urls: seq<string>)
    returns (fetched: seq<string>)
    requires FetchIndex(config, default, env).content == Ok(content)
    requires config.sitemap in env.implementations
    requires env.parserOf(env.implementations[config.sitemap], content).hasMetadata == Ok(false)
    requires env.parserOf(env.implementations[config.sitemap], content).datasets == Gen(urls, Exhausted)
    requires HasExtractor(config) && config.metadata.value in env.implementations
    ensures fetched == ScrapeRepo(config, default, env).fetched == [config.url] + urls
  {
    ScrapeExtractsListedUrls(config, default, env, content, urls);
    fetched := ScrapeRepo(config, default, env).fetched;
  }

  /**
    A repository registered with the Thünen Atlas parser, over an index whose
    `resources` all carry a `pk`: the session fetches the index, then one
    resource URL per element, in order.
  */
  lemma ThunenAtlasFetchesEveryResource(config: ScraperConfig, default: HttpSessionConfig, env: ScrapeEnv,
                                        content: string, loads: string -> Result<Json, PyError>, resources: seq<Json>)
    requires FetchIndex(config, default, env).content == Ok(content)
    requires config.sitemap in env.implementations && env.implementations[config.sitemap] == SitemapParserThunenAtlas
    requires env.parserOf(SitemapParserThunenAtlas, content).hasMetadata == Ok(false)
    requires env.parserOf(SitemapParserThunenAtlas, content).datasets == SitemapThunenAtlas.Datasets(content, loads)
    requires loads(content).Ok?
    requires Subscript(loads(content).value, "resources") == Ok(JArray(resources))
    requires forall i | 0 <= i < |resources| :: Subscript(resources[i], "pk").Ok?
    requires HasExtractor(config) && config.metadata.value in env.implementations
    ensures var s := ScrapeRepo(config, default, env);
      && |s.fetched| == 1 + |resources|
      && s.fetched[0] == config.url
      && forall i | 0 <= i < |resources| ::
           s.fetched[i + 1] == SitemapThunenAtlas.BASE_URL + Format(Subscript(resources[i], "pk").value)
  {
    SitemapThunenAtlas.OneUrlPerResource(content, loads, resources);
    var urls := SitemapThunenAtlas.Datasets(content, loads).yielded;
    var fetched := ScrapeFetchesListedUrls(config, default, env, content, urls);
    ResourceUrlsAfterIndex(fetched, config.url, urls, resources);
  }

  /** The index URL followed by one resource URL per element. */
  lemma ResourceUrlsAfterIndex(fetched: seq<string>, index: string, urls: seq<string>, resources: seq<Json>)
    requires fetched == [index] + urls
    requires forall i | 0 <= i < |resources| :: Subscript(resources[i], "pk").Ok?
    requires |urls| == |resources|
    requires forall i | 0 <= i < |resources| :: urls[i] == SitemapThunenAtlas.BASE_URL + Format(Subscript(resources[i], "pk").value)
    ensures |fetched| == 1 + |resources| && fetched[0] == index
    ensures forall i | 0 <= i < |resources| ::
              fetched[i + 1] == SitemapThunenAtlas.BASE_URL + Format(Subscript(resources[i], "pk").value)
  {
    forall i | 0 <= i < |resources|
      ensures fetched[i + 1] == SitemapThunenAtlas.BASE_URL + Format(Subscript(resources[i], "pk").value)
    {
      assert fetched[i + 1] == urls[i];
    }
  }

  /**
    Over a session's fetch, a run that fails while extracting fails with the
    error of the first dataset URL that fails, and a failed download there
    is one `get_decoded_url` can report for that URL.
  */
  lemma DatasetErrorsAreClassified(config: ScraperConfig, default: HttpSessionConfig, env: ScrapeEnv, io: Io,
                                   content: string, urls: seq<string>)
    requires IsSessionFetch(env.fetch, io)
    requires FetchIndex(config, default, env).content == Ok(content)
    requires config.sitemap in env.implementations
    requires env.parserOf(env.implementations[config.sitemap], content).hasMetadata == Ok(false)
    requires env.parserOf(env.implementations[config.sitemap], content).datasets == Gen(urls, Exhausted)
    requires HasExtractor(config) && config.metadata.value in env.implementations
    ensures var s := ScrapeRepo(config, default, env);
      var extractor := env.extractorOf(env.implementations[config.metadata.value]);
      s.result.Err? ==>
        exists k | 0 <= k < |urls| ::
          && FirstFailure(urls, env.fetch, extractor, k, s.result.error)
          && (env.fetch(urls[k]).Err? ==> env.fetch(urls[k]).error == s.result.error && RaisedFor(urls[k], io, s.result.error))
  {
    var extractor := env.extractorOf(env.implementations[config.metadata.value]);
    ScrapeExtractsListedUrls(config, default, env, content, urls);
    if ExtractManyMetadata(urls, env.fetch, extractor).Err? {
      SessionFetchClassified(env.fetch, io);
      ClassifiedErrorsPropagate(urls, env.fetch, io, extractor);
    }
  }

  /** A parser with metadata of its own answers alone: nothing but the sitemap is fetched. */
  lemma OwnMetadataFetchesNothingElse(config: ScraperConfig, default: HttpSessionConfig, env: ScrapeEnv, content: string)
    requires FetchIndex(config, default, env).content == Ok(content)
    requires config.sitemap in env.implementations
    requires env.parserOf(env.implementations[config.sitemap], content).hasMetadata == Ok(true)
    ensures var parser := env.parserOf(env.implementations[config.sitemap], content);
      var s := ScrapeRepo(config, default, env);
      && s.fetched == [config.url]
      && (parser.metadata.Ok? ==> s.result == Ok(Bare(parser.metadata.value)))
  {
  }

  /** Without an extractor the URLs are listed but not fetched, and the report is empty. */
  lemma NoExtractorEmptyReport(config: ScraperConfig, default: HttpSessionConfig, env: ScrapeEnv, content: string)
    requires FetchIndex(config, default, env).content == Ok(content)
    requires config.sitemap in env.implementations
    requires env.parserOf(env.implementations[config.sitemap], content).hasMetadata == Ok(false)
    requires env.parserOf(env.implementations[config.sitemap], content).datasets.stop == Exhausted
    requires !HasExtractor(config)
    ensures ScrapeRepo(config, default, env) == Scrape(Ok(WithReport([], Report(0, 0))), [config.url])
  {
  }

  /** Unregistered identifiers are `ValueError`s, and they stop the run before any dataset is fetched. */
  lemma UnregisteredSitemapParser(config: ScraperConfig, default: HttpSessionConfig, env: ScrapeEnv)
    requires FetchIndex(config, default, env).content.Ok?
    requires config.sitemap !in env.implementations
    ensures ScrapeRepo(config, default, env) == Scrape(Err(NotRegistered(config.sitemap)), [config.url])
  {
  }

  /** A configuration `HttpSessionConfig` refuses is the run's result, and nothing is fetched. */
  lemma ConfigFailureStopsEarly(config: ScraperConfig, default: HttpSessionConfig, env: ScrapeEnv)
    requires SessionConfig(config, default).Err?
    ensures ScrapeRepo(config, default, env) == Scrape(Err(SessionConfig(config, default).error), [])
  {
  }

  /** A session that cannot be opened is the run's result; the repository's config is used when given. */
  lemma SessionFailuresStopEarly(config: ScraperConfig, default: HttpSessionConfig, env: ScrapeEnv)
    requires SessionConfig(config, default).Ok?
    requires NewSession(SessionConfig(config, default).value, env.setup).Err?
    ensures ScrapeRepo(config, default, env) == Scrape(Err(NewSession(SessionConfig(config, default).value, env.setup).error), [])
  {
  }
}
