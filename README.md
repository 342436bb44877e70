# The harvesting core of the FAIRagro basic middleware, in Dafny

The FAIRagro basic middleware harvests research-data repositories. For each
configured repository, `scrape_repo`:

- opens an `HttpSession`;
- fetches the repository's sitemap with `get_decoded_url`;
- picks a sitemap parser from the string-keyed `RegisteringABC` registry, and
  asks it for the dataset URLs;
- fetches every dataset URL and runs the configured metadata extractor on
  each;
- flattens the per-URL metadata lists into one list and counts the URLs
  whose extraction failed.

This project models that pipeline and proves properties of the model. It
covers:

- the fetch classifier of `HttpSession.get_decoded_url`: scheme dispatch,
  HTTP status ranges, network errors, `file:` path resolution, charset
  detection and decoding;
- the registry, as a class over a shared `map`;
- the four sitemap parsers: the sitemaps.org XML walker, and the OpenAgrar,
  Publisso and Thünen-Atlas JSON-index walkers;
- the metadata extractor boundary `get_metadata_or_log_error` and the plain
  JSON-LD extractor;
- `_extract_metadata`, `_extract_many_metadata` and `scrape_repo`;
- the whitespace-insensitive code comparison in `test_utils`;
- the pure pieces of `GitRepo`: `_make_ssh_key_path`,
  `_setup_https_protocol`, the string and path parts of
  `_setup_ssh_protocol`, and the protocol dispatch at the top of `_setup`.

Everything the code reaches outside Python is a function-valued parameter
that returns a value or a `PyError`. This covers:

- aiohttp's `get`;
- reading a file;
- `chardet.detect`;
- `bytes.decode`;
- `json.loads`;
- `ElementTree.fromstring`;
- the embedded JSON-LD extractor;
- creation of the aiohttp connector.

`get_decoded_url` returns its outcome together with the trace of I/O calls it
made. That makes "no request is made" and "detection is called once, with
the fetched bytes" statements about the model. The Python library behaviour
the code depends on is modelled in helper modules:

- `urllib.parse.urlparse`, as in CPython 3.12;
- `PurePosixPath` parsing, `/` and `str()`;
- `str.split`, `strip`, `lstrip` and `rstrip`;
- `str()` of JSON values;
- the exception class hierarchy and `except Exception`.

Module layout: there is one module per source file of the core.

| module | file | models |
|---|---|---|
| `HttpSession` | `http_session.dfy` | `middleware/http_session/__init__.py` |
| `RegisteringAbc` | `registering_abc.dfy` | `middleware/utils/registering_abc.py`, plus the registrations made at import time |
| `SitemapXml` | `sitemap_xml.dfy` | the XML sitemap parser |
| `SitemapOpenAgrar` | `sitemap_openagrar.dfy` | the OpenAgrar JSON-index walker |
| `SitemapPublisso` | `sitemap_publisso.dfy` | the Publisso JSON-index walker |
| `SitemapThunenAtlas` | `sitemap_thunen_atlas.dfy` | the Thünen-Atlas JSON-index walker |
| `MetadataExtractor` | `metadata_extractor.dfy` | the extractor base class |
| `MetadataExtractorJsonld` | `metadata_extractor_jsonld.dfy` | the plain JSON-LD extractor |
| `MetadataScraper` | `metadata_scraper.dfy` | `middleware/metadata_scraper/__init__.py` |
| `TestUtils` | `test_utils.dfy` | `middleware/utils/test_utils.py` |
| `GitRepo` | `git_repo.dfy` | the pure parts of `middleware/git_repo/__init__.py` |

`SitemapParser` (`sitemap_parser.dfy`) holds what the three JSON walkers
share, and the generator type. The helper modules are:

- `Wrappers`;
- `Python`;
- `Strings`;
- `Seqs`;
- `JsonValue`;
- `XmlTree`;
- `PurePosix`;
- `UrlParse`.

Where the repository's design description and the code disagree, the model
follows the code:

- A fetch error in `_extract_metadata` is not caught. It propagates through
  `asyncio.gather` and fails the whole repository. The design description
  instead counts it as a failed entry.
- `valid_entries` counts metadata records, not URLs. So `validEntries +
  failedEntries` equals the number of URLs only when every successful URL
  yields exactly one record. `ReportAccountsForEveryUrl` states the relation
  that holds.
- There is no `skipped` field in the report.
- The `has_metadata` branch returns a bare list. The other branches return a
  `(metadata, report)` pair.
- `str(chardet.detect(b)['encoding']) or 'utf-8'` turns an undetected
  encoding into the name `"None"`, not into `utf-8`. Only an empty name falls
  back to `utf-8`.

## Model

| member | source | states |
|---|---|---|
| HttpSession.FetchErrorKind | middleware/http_session/__init__.py:32-49 | each of the argument, technical, response and decode errors is a proper subclass of `HttpSessionFetchError` and an `Exception` |
| HttpSession.FetchErrorKindsDisjoint | middleware/http_session/__init__.py:36-49 | the four error kinds are siblings: none is a subclass of another |
| HttpSession.NewSession | middleware/http_session/__init__.py:61-84 | the session is created exactly when the connector and timeouts can be set up; an `Exception` while doing so becomes `HttpSessionArgumentError("Could not create HttpSession object")`, and anything else propagates unchanged |
| HttpSession.Download | middleware/http_session/__init__.py:142-165 | the http(s) branch makes the request first and touches only that URL; bytes it returns are the body of a successful response |
| HttpSession.ReadLocal | middleware/http_session/__init__.py:166-186 | the file branch makes exactly one read, of the resolved path, and returns the bytes read |
| HttpSession.EncodingName | middleware/http_session/__init__.py:194 | the name used for decoding is never empty, and it is the detected name whenever that name is not empty |
| HttpSession.DecodeContent | middleware/http_session/__init__.py:193-201 | detection comes first; a decoded result means detection succeeded, the trace is exactly detect then decode with the detected name, and the text is what decode returned; a caught failure is an `HttpSessionDecodeError` |
| HttpSession.DecodeFailure | middleware/http_session/__init__.py:196-201 | an `Exception` from detection or decoding becomes an `HttpSessionDecodeError` |
| HttpSession.FetchBytes | middleware/http_session/__init__.py:142-191 | bytes are fetched exactly for the schemes `http`, `https` and `file` |
| HttpSession.UnsupportedSchemeNoIo | middleware/http_session/__init__.py:187-191 | any other scheme gives `HttpSessionArgumentError` with the source's message, and no I/O call is made |
| HttpSession.NoIoExactlyWhenRejected | middleware/http_session/__init__.py:141-191 | the fetch makes no I/O call if and only if the URL is rejected: either `urlparse` fails or the scheme is unsupported |
| HttpSession.ServerErrorIsTechnical | middleware/http_session/__init__.py:146-151 | a status in [500, 600) gives `HttpSessionTechnicalError("Server error <status> for <url>")` after the request alone |
| HttpSession.ClientErrorIsResponseError | middleware/http_session/__init__.py:153-158 | a status in [400, 500) gives `HttpSessionResponseError` with the same message, after the request alone |
| HttpSession.OtherStatusReadsBody | middleware/http_session/__init__.py:153-159 | any other status goes on to read the body: the trace starts with the request and then the body read |
| HttpSession.RequestFailure | middleware/http_session/__init__.py:160-165 | a `ClientError` or timeout during the request becomes `HttpSessionTechnicalError("Cannot fetch <url>: <e>")`; any other error propagates unchanged |
| HttpSession.BodyFailure | middleware/http_session/__init__.py:159-165 | a network error while reading the body is also an `HttpSessionTechnicalError` |
| HttpSession.FileReadFailure | middleware/http_session/__init__.py:178-186 | an `Exception` while opening or reading the file gives `HttpSessionResponseError("Cannot read file <url>: <e>")` after that one read |
| HttpSession.SuccessDecodesFetchedBytes | middleware/http_session/__init__.py:193-203 | a successful result is the decoding of the fetched bytes with the detected encoding; detection and decoding are the last two calls, they are not made anywhere else in the trace, and they are made with exactly the bytes the fetch returned |
| HttpSession.SuccessOfParsed | middleware/http_session/__init__.py:141-203 | the same, for the fetch over a parsed URL |
| HttpSession.HttpsSuccess | middleware/http_session/__init__.py:142-203 | an https URL with status 200, body `b` and detected `utf-8` gives the decoded text, with the trace request, body read, detect(b) and decode(b, utf-8) |
| HttpSession.DecodeFailureIsDecodeError | middleware/http_session/__init__.py:193-201 | a caught failure that happens after detection was called is always an `HttpSessionDecodeError` |
| HttpSession.DecodeFailureOfParsed | middleware/http_session/__init__.py:193-201 | the same, for the fetch over a parsed URL |
| HttpSession.ErrorsAreClassified | middleware/http_session/__init__.py:141-201 | (corrected URL handling, see Findings) a caught failure that is none of the four kinds can only be a non-network exception from aiohttp on an http(s) URL, passed on as is |
| HttpSession.ErrorsOfParsed | middleware/http_session/__init__.py:141-201 | the same, for the fetch over a parsed URL |
| HttpSession.FetchErrorsAreClassified | middleware/http_session/__init__.py:141-201 | (corrected URL handling) every error `get_decoded_url` reports is not an `Exception`, one of the four fetch-error kinds, or a non-network aiohttp error passed on unchanged from the request or the reading of the body |
| HttpSession.AsWrittenInvalidUrlEscapes | middleware/http_session/__init__.py:141 | as written, a URL that `urlparse` rejects raises the bare `ValueError("Invalid IPv6 URL")`, which is outside the `HttpSessionFetchError` hierarchy |
| HttpSession.InvalidUrlIsArgumentError | middleware/http_session/__init__.py:141 | in the corrected fetch, such a URL is an `HttpSessionArgumentError` and no I/O call is made |
| HttpSession.UnclosedBracketUrl | middleware/http_session/__init__.py:141 | `http://[x` raises `ValueError` as written, and is an argument error in the corrected fetch |
| HttpSession.DotNetlocIsRelative | middleware/http_session/__init__.py:173-175 | with netloc `.` or empty, the path after stripping the leading `/` and then `\` is resolved relative to `.` |
| HttpSession.StripLeadingSlash | middleware/http_session/__init__.py:175 | stripping `/` and then `\` from `/x` gives `x` back when `x` starts with neither |
| HttpSession.EmptyBase | middleware/http_session/__init__.py:173-177 | joining a relative path to `PurePath('')` gives that path |
| HttpSession.OtherNetlocAbsolutePath | middleware/http_session/__init__.py:176-177 | for any other netloc, an absolute URL path replaces the netloc |
| HttpSession.NetlocWithoutPath | middleware/http_session/__init__.py:169-177 | `file://test` resolves to the relative path `test` |
| HttpSession.FileUrlReadsResolvedPath | middleware/http_session/__init__.py:166-179 | for `file://<netloc><path>`, the first and only read is of the resolved path |
| HttpSession.FileReadFirst | middleware/http_session/__init__.py:166-179 | for any parsed `file:` URL, the first I/O call reads the path resolved from its netloc and path |
| HttpSession.TripleSlashIsRelative | middleware/http_session/__init__.py:170-179 | `file:///x` reads the relative path `x`: an empty netloc equals `PurePath('.')`, so the leading slash is stripped |
| HttpSession.TripleSlashParses | middleware/http_session/__init__.py:170 | `urlparse('file:///x')` has scheme `file`, an empty netloc and the path `/x` |
| UrlParse.UrlParse | middleware/http_session/__init__.py:141 | `urlparse` fails exactly when `urlsplit` fails, and then with `ValueError("Invalid IPv6 URL")`; otherwise it keeps the split's scheme, netloc, query and fragment, and splits parameters off the path only for the schemes that use them |
| UrlParse.UrlSplit | middleware/http_session/__init__.py:141 | the scheme is empty or well formed and lower case; the netloc holds no `/`, `?` or `#`, and no unmatched bracket |
| UrlParse.FileComposed | middleware/http_session/__init__.py:166 | `file://<netloc><path>` parses to scheme `file` with that netloc and path |
| UrlParse.UpperCaseScheme | middleware/http_session/__init__.py:141-142 | `urlparse` lower-cases the scheme, so `HTTP://h/` is handled as `http` |
| UrlParse.UnbalancedBracketRaises | middleware/http_session/__init__.py:141 | a netloc with `[` but no `]`, or the reverse, makes `urlparse` raise `ValueError` |
| UrlParse.UnclosedBracketRaises | middleware/http_session/__init__.py:141 | `urlparse('http://[x')` raises `ValueError("Invalid IPv6 URL")` |
| PurePosix.Div | middleware/http_session/__init__.py:175-177 | `PurePosixPath(a) / b` with an absolute `b` is `PurePosixPath(b)` |
| PurePosix.DivRelative | middleware/http_session/__init__.py:175-177 | for `PurePosixPath(a) / b` with a relative `b`, the parts of `a` are followed by the parts of `b` |
| PurePosix.ParseToString | middleware/git_repo/__init__.py:192 | `PurePosixPath(str(p)) == p` for every well-formed path |
| RegisteringAbc.Registry.constructor | middleware/utils/registering_abc.py:11 | the shared table starts empty |
| RegisteringAbc.Registry.RegisterImplementation | middleware/utils/registering_abc.py:14-33 | the table maps the identifier to the class; every other identifier keeps its mapping, or stays absent |
| RegisteringAbc.ClassFor | middleware/utils/registering_abc.py:54-58 | the lookup succeeds exactly for registered identifiers and gives the registered class; otherwise it gives a `ValueError` naming the identifier |
| RegisteringAbc.Registry.CreateInstance | middleware/utils/registering_abc.py:36-58 | a registered identifier gives a fresh instance of its class, whichever family the call goes through; an unregistered one gives `ValueError` |
| RegisteringAbc.Instance.constructor | middleware/utils/registering_abc.py:56 | an instance records the class it was made from |
| RegisteringAbc.Registry.RegisterPackageImplementations | middleware/metadata_scraper/sitemap_parser/__init__.py:11-14 | importing the packages adds the four sitemap parsers (`openagrar`, `publisso`, `thunen_atlas`, `xml`) and the two extractors (`embedded_jsonld`, `jsonld`, from `metadata_extractor/__init__.py`) to the one shared table |
| RegisteringAbc.PackageTableInjective | middleware/metadata_scraper/sitemap_parser/__init__.py:11-14 | each package class is registered under exactly one identifier |
| RegisteringAbc.LastRegistrationWins | middleware/utils/registering_abc.py:33 | after registering two classes under one identifier, `create_instance` returns the second, even when called through the other family |
| RegisteringAbc.TwoInstancesAreDistinct | middleware/utils/registering_abc.py:56 | two `create_instance` calls give two different objects of the same registered class |
| SitemapXml.Texts | middleware/metadata_scraper/sitemap_parser/xml.py:40-41 | elements whose text is `None` are skipped: there are at most as many texts as elements, and exactly as many when every element has a text |
| SitemapXml.TextsMembership | middleware/metadata_scraper/sitemap_parser/xml.py:40-41 | a string is yielded if and only if some selected element has it as its text |
| SitemapXml.LocTexts | middleware/metadata_scraper/sitemap_parser/xml.py:39-41 | every URL is the text of a namespaced `loc` descendant, and every such text is a URL; there are at most as many URLs as `loc` descendants, and equally many when all have text |
| SitemapXml.Datasets | middleware/metadata_scraper/sitemap_parser/xml.py:38-41 | a sitemap that does not parse raises before yielding; otherwise the output is the `loc` texts, so it depends only on the content |
| SitemapXml.LocTextsCons | middleware/metadata_scraper/sitemap_parser/xml.py:39 | document order: a first child's own `loc` text comes first, then its descendants' texts, then those of the following children |
| SitemapXml.RootNotSelected | middleware/metadata_scraper/sitemap_parser/xml.py:39 | `.//` selects descendants only, so the root's tag and text never matter |
| SitemapXml.FirstLocFirst | middleware/metadata_scraper/sitemap_parser/xml.py:39-41 | a `loc` that is the first child of the root is the first URL yielded |
| SitemapParser.JsonIndexDatasets | middleware/metadata_scraper/sitemap_parser/sitemap_parser_thunen_atlas.py:37-40 | the shared walker yields nothing when any step fails (all ids are collected first), fails exactly when the ids cannot all be collected, and otherwise yields one URL per id, each starting with the prefix and ending with the suffix |
| SitemapParser.JsonIndexOnePerElement | middleware/metadata_scraper/sitemap_parser/sitemap_parser_thunen_atlas.py:38-40 | the walker finishes if and only if every element has the key; it then yields, in order, prefix + `str(id)` + suffix for each element |
| SitemapParser.JsonIndexFailsEarly | middleware/metadata_scraper/sitemap_parser/sitemap_parser_thunen_atlas.py:38-39 | the error is that of the first element without the key, and nothing is yielded |
| SitemapOpenAgrar.Datasets | middleware/metadata_scraper/sitemap_parser/sitemap_parser_openagrar.py:39-42 | a failure yields nothing, and every URL starts with `https://www.openagrar.de/receive/` |
| SitemapOpenAgrar.OneUrlPerDoc | middleware/metadata_scraper/sitemap_parser/sitemap_parser_openagrar.py:40-42 | one URL per element of `response.docs`, in order, each `BASE_URL + str(id)` |
| SitemapOpenAgrar.MissingIdYieldsNothing | middleware/metadata_scraper/sitemap_parser/sitemap_parser_openagrar.py:40-41 | a document without `id` raises `KeyError('id')` before any URL is yielded |
| SitemapOpenAgrar.MissingResponseYieldsNothing | middleware/metadata_scraper/sitemap_parser/sitemap_parser_openagrar.py:39-40 | an index without `response` raises `KeyError('response')` before any URL is yielded |
| SitemapPublisso.Datasets | middleware/metadata_scraper/sitemap_parser/sitemap_parser_publisso.py:37-40 | a failure yields nothing, and every URL starts with `https://frl.publisso.de/resource/` and ends with `.json2` |
| SitemapPublisso.OneUrlPerRecord | middleware/metadata_scraper/sitemap_parser/sitemap_parser_publisso.py:38-40 | one URL per element of the top-level array, in order, each `BASE_URL + str(@id) + ".json2"` |
| SitemapPublisso.MissingIdYieldsNothing | middleware/metadata_scraper/sitemap_parser/sitemap_parser_publisso.py:38-39 | a record without `@id` raises `KeyError('@id')` before any URL is yielded |
| SitemapThunenAtlas.Datasets | middleware/metadata_scraper/sitemap_parser/sitemap_parser_thunen_atlas.py:37-40 | a failure yields nothing, and every URL starts with `https://atlas.thuenen.de/api/v2/resources/` |
| SitemapThunenAtlas.OneUrlPerResource | middleware/metadata_scraper/sitemap_parser/sitemap_parser_thunen_atlas.py:38-40 | exactly `len(resources)` URLs, in order, each `BASE_URL + str(pk)` |
| SitemapThunenAtlas.MissingPkYieldsNothing | middleware/metadata_scraper/sitemap_parser/sitemap_parser_thunen_atlas.py:37-39 | a resource without `pk` raises `KeyError('pk')` before any URL is yielded |
| SitemapThunenAtlas.IntegerPk | middleware/metadata_scraper/sitemap_parser/sitemap_parser_thunen_atlas.py:40 | an integer `pk` is formatted in decimal: `pk: 42` gives `.../resources/42` |
| JsonValue.CollectKey | middleware/metadata_scraper/sitemap_parser/sitemap_parser_thunen_atlas.py:38 | the list comprehension gives one value per element, each that element's subscript, or the error of the first element that lacks the key |
| MetadataExtractor.ToPyError | middleware/metadata_scraper/metadata_extractor/metadata_extractor.py:9-17 | `MetadataParseError` is a `RuntimeError`, and so an `Exception`; its message is `Failed to parse metadata: ` followed by the text of the wrapped exception or string |
| MetadataExtractor.GetMetadataOrLogError | middleware/metadata_scraper/metadata_extractor/metadata_extractor.py:69-97 | the metadata is returned exactly when `metadata(content, url)` returns, and it is that value; suspicious data is logged exactly when the result is `None` |
| MetadataExtractor.OnlyUncatchableErrorsEscape | middleware/metadata_scraper/metadata_extractor/metadata_extractor.py:87-97 | only a non-`Exception` from `metadata`, or an error from `raw_metadata` inside the handler, escapes; an `Exception` gives `None`, with the concatenation of `raw_metadata(content)` logged |
| MetadataExtractorJsonld.AsList | middleware/metadata_scraper/metadata_extractor/metadata_extractor_jsonld.py:42-44 | a list is returned as it is; any other value becomes its one element |
| MetadataExtractorJsonld.Metadata | middleware/metadata_scraper/metadata_extractor/metadata_extractor_jsonld.py:17-44 | empty content is a `MetadataParseError`; a JSON decode error is wrapped in one; any other error from `json.loads` propagates; otherwise the result is the parsed value as a list; the `url` argument is never used |
| MetadataExtractorJsonld.RawMetadata | middleware/metadata_scraper/metadata_extractor/metadata_extractor_jsonld.py:46-60 | the raw metadata is the one-element list `[content]`, so it joins back to the content, including the empty content |
| MetadataExtractorJsonld.BareValueIsOneElementList | middleware/metadata_scraper/metadata_extractor/metadata_extractor_jsonld.py:42-44 | a bare value and a one-element list holding it give the same result |
| MetadataExtractorJsonld.NonEmptyUnlessEmptyList | middleware/metadata_scraper/metadata_extractor/metadata_extractor_jsonld.py:42-44 | a successful result is empty if and only if the JSON is `[]` |
| MetadataExtractorJsonld.ExtractionNeverRaisesOnDecodeErrors | middleware/metadata_scraper/metadata_extractor/metadata_extractor_jsonld.py:34-44 | through `get_metadata_or_log_error`, empty or undecodable content gives `None` with the content logged, and valid JSON gives its list |
| MetadataScraper.FromKwargs | middleware/metadata_scraper/__init__.py:123 | `HttpSessionConfig(**kwargs)` succeeds exactly when the keys are the three fields, each given, and then takes each field from its keyword; otherwise a `TypeError` naming the first unexpected keyword, or, when there is none, listing the missing parameters |
| MetadataScraper.ValueOf | middleware/metadata_scraper/__init__.py:123 | the value taken for a keyword is one the dict holds for that key |
| MetadataScraper.FirstUnexpected | middleware/metadata_scraper/__init__.py:123 | the keyword reported as unexpected is the first one that is not a field |
| MetadataScraper.Missing | middleware/metadata_scraper/__init__.py:123 | the fields reported as missing are exactly those without a keyword |
| MetadataScraper.SessionConfig | middleware/metadata_scraper/__init__.py:122-125 | the repository's own `http_client` is used when it is present and not empty; otherwise the default is used |
| MetadataScraper.OwnConfigInAnyOrder | middleware/metadata_scraper/__init__.py:122-123 | one example: `connect_timeout`, `connection_limit`, `receive_timeout`, in that order, make the configuration of exactly those three values |
| MetadataScraper.ValueOfMember | middleware/metadata_scraper/__init__.py:123 | with distinct keys, as in a dictionary, the value passed for a keyword is the value of its member |
| MetadataScraper.KwargsOrderIrrelevant | middleware/metadata_scraper/__init__.py:122-123 | any reordering of an `http_client` dictionary (distinct keys, the same members) is accepted or refused together, and when accepted gives the same `HttpSessionConfig` |
| MetadataScraper.ConfigFailureStopsEarly | middleware/metadata_scraper/__init__.py:122-123 | an `http_client` that `HttpSessionConfig` refuses is the run's error, and nothing is fetched |
| MetadataScraper.UnknownKeyIsTypeError | middleware/metadata_scraper/__init__.py:123 | a key that is not a parameter, preceded only by parameters, makes `http_client` a `TypeError` naming that key, whatever follows it |
| MetadataScraper.SessionFetchClassified | middleware/metadata_scraper/__init__.py:58 | every failed download of a session's fetch is an error `get_decoded_url` can report for that URL: not an `Exception`, one of the four fetch-error kinds, or a non-network aiohttp error of that URL's request or body |
| MetadataScraper.ErrorIsFirstFailure | middleware/metadata_scraper/__init__.py:58-59 | the error that ends an extraction is raised at the first URL that fails, by its download or by the extractor's call on its content |
| MetadataScraper.ClassifiedErrorsPropagate | middleware/metadata_scraper/__init__.py:86-87 | over a fetch that reports only classified errors, a failed extraction fails at the first failing URL, and a failed download there is classified |
| MetadataScraper.ExtractMetadata | middleware/metadata_scraper/__init__.py:34-60 | a fetch error propagates; for fetched content the result is exactly what `get_metadata_or_log_error` gives, so `None` means extraction raised an `Exception` and a list is what the extractor returned |
| MetadataScraper.Gather | middleware/metadata_scraper/__init__.py:86-87 | `gather` succeeds exactly when every task does, with one result per URL, in order; otherwise it gives the error of the first failing URL |
| MetadataScraper.Found | middleware/metadata_scraper/__init__.py:88 | keeping the non-`None` results never makes the list longer; every list of a `Some` is kept, and only such lists are |
| MetadataScraper.Failures | middleware/metadata_scraper/__init__.py:90 | there are at most as many failures as results |
| MetadataScraper.FoundPlusFailures | middleware/metadata_scraper/__init__.py:88-90 | every result is either kept or counted as a failure |
| MetadataScraper.NoFailures | middleware/metadata_scraper/__init__.py:90 | there are no failures if and only if no result is `None` |
| MetadataScraper.FoundAppend | middleware/metadata_scraper/__init__.py:88 | filtering distributes over concatenation, keeping URL order |
| MetadataScraper.FailuresAppend | middleware/metadata_scraper/__init__.py:90 | failure counts add up over concatenation |
| MetadataScraper.ExtractManyMetadata | middleware/metadata_scraper/__init__.py:62-95 | it succeeds exactly when `gather` does, and passes on its error; `valid_entries` is the length of the flattened list (its contents: `ExtractManyOne` and `ExtractManyConcatenates`) |
| MetadataScraper.ReportAccountsForEveryUrl | middleware/metadata_scraper/__init__.py:86-95 | URLs with metadata plus failures equals the number of URLs; `valid_entries` is the total number of records; there are no failures if and only if every URL gave metadata |
| MetadataScraper.GatherAppend | middleware/metadata_scraper/__init__.py:86-87 | gathering over two URL lists joined is the two gathers joined |
| MetadataScraper.ExtractManyConcatenates | middleware/metadata_scraper/__init__.py:86-95 | the result for `a + b` is the result for `a` followed by the result for `b`, and the reports add up; with `ExtractManyOne` this fixes the result of every URL list as the concatenation, in URL order, of the per-URL lists |
| MetadataScraper.ExtractManyOne | middleware/metadata_scraper/__init__.py:86-95 | one URL contributes its list and no failure when it gives metadata, `[]` and one failure when it gives `None`, and its error when it fails |
| MetadataScraper.AllFailedReport | middleware/metadata_scraper/__init__.py:88-95 | when every extraction gives `None`, the result is `[]` with report `{0, len(urls)}` |
| MetadataScraper.NoneFound | middleware/metadata_scraper/__init__.py:88 | only `None` results leave nothing to flatten |
| MetadataScraper.FetchIndex | middleware/metadata_scraper/__init__.py:122-127 | before a parser exists at most the sitemap URL is fetched; it is fetched exactly when the configuration is accepted and the session opens, and the content is then what that fetch returned; otherwise the result is an error |
| MetadataScraper.Harvest | middleware/metadata_scraper/__init__.py:128-141 | (corrected: the parser is created by identifier and given the content) dataset URLs are fetched only on the branch that extracts, and that branch returns a `(metadata, report)` pair |
| MetadataScraper.ScrapeRepo | middleware/metadata_scraper/__init__.py:97-141 | (corrected, as for `Harvest`) the sitemap URL is the first URL fetched |
| MetadataScraper.AsWrittenNeverSucceeds | middleware/metadata_scraper/__init__.py:128 | as written, `scrape_repo` never succeeds: at most the sitemap URL is fetched, and then `create_instance(id, content)` raises `TypeError` |
| MetadataScraper.ScrapeExtractsListedUrls | middleware/metadata_scraper/__init__.py:131-134 | (corrected) with an extractor configured, exactly the sitemap URL and then the dataset URLs are fetched, and the result is that of `_extract_many_metadata` over those URLs |
| MetadataScraper.OwnMetadataFetchesNothingElse | middleware/metadata_scraper/__init__.py:129-130 | (corrected) a parser with `has_metadata` returns its metadata as a bare list, and no dataset URL is fetched |
| MetadataScraper.ThunenAtlasFetchesEveryResource | middleware/metadata_scraper/__init__.py:131-134 | (corrected) a repository whose sitemap identifier is registered to the Thünen-Atlas parser fetches the index, then `BASE_URL + str(pk)` for every resource, in order, and nothing else |
| MetadataScraper.DatasetErrorsAreClassified | middleware/metadata_scraper/__init__.py:134 | (corrected) over a session's fetch, a run that fails while extracting fails with the error of the first failing dataset URL, and a failed download there is classified as for `SessionFetchClassified` |
| MetadataScraper.NoExtractorEmptyReport | middleware/metadata_scraper/__init__.py:135-140 | (corrected) with no extractor identifier, the result is `[]` with report `{0, 0}`, and no dataset URL is fetched |
| MetadataScraper.UnregisteredSitemapParser | middleware/metadata_scraper/__init__.py:128 | (corrected) an unregistered sitemap identifier is a `ValueError` after the sitemap fetch |
| MetadataScraper.SessionFailuresStopEarly | middleware/metadata_scraper/__init__.py:126 | if the session cannot be created, nothing is fetched |
| TestUtils.Lines | middleware/utils/test_utils.py:29-30 | `s.strip().split('\n')` always has at least one line |
| TestUtils.FindMismatch | middleware/utils/test_utils.py:35-37 | the loop finds no mismatch if and only if all corresponding lines are equal once stripped; otherwise it finds the first pair that differs |
| TestUtils.AssertCodesEqual | middleware/utils/test_utils.py:12-37 | no `AssertionError` if and only if the codes are equal; a different line count is reported with both strings, and otherwise the first differing pair of lines is reported |
| TestUtils.CompareCodes | middleware/utils/test_utils.py:61-62 | the loop raises if and only if some pair of codes differs |
| TestUtils.AssertListOfCodesEqual | middleware/utils/test_utils.py:41-62 | no `AssertionError` if and only if the lists have equal length and their stripped codes pair up equal; a length difference is reported with both lists |
| TestUtils.DifferentLineCounts | middleware/utils/test_utils.py:32-33 | different line counts never compare equal |
| TestUtils.CodesEqualIsEquivalence | middleware/utils/test_utils.py:12-37 | the comparison is reflexive, symmetric and transitive |
| TestUtils.OnlyStrippedLinesMatter | middleware/utils/test_utils.py:35-37 | the outcome depends only on the stripped lines |
| TestUtils.PaddingIgnored | middleware/utils/test_utils.py:36 | whitespace added before or after a line never changes whether it matches |
| TestUtils.ListComparesCodes | middleware/utils/test_utils.py:61-62 | stripping each code before comparing changes nothing |
| TestUtils.StripIdempotent | middleware/utils/test_utils.py:62 | `strip()` is idempotent |
| Strings.Split | middleware/utils/test_utils.py:29-30 | `split` never loses a character: the parts joined with the separator give the string back, and no part holds the separator |
| Strings.SplitJoin | middleware/utils/test_utils.py:29-30 | splitting a join of separator-free parts gives the parts back |
| Strings.Find | middleware/git_repo/__init__.py:232 | `str.split(sep, 1)` splits at the first occurrence of the separator, or finds none |
| Strings.LStrip | middleware/http_session/__init__.py:175 | `lstrip` removes exactly the leading characters in the set, and then stops |
| Strings.RStrip | middleware/git_repo/__init__.py:191 | `rstrip` removes exactly the trailing characters in the set, and then stops |
| GitRepo.SshKeyParts | middleware/git_repo/__init__.py:189-191 | a first part ending in `:\` becomes `/` and the drive with trailing `:` and `\` removed; any other first part leaves the parts unchanged; the later parts keep their order; a path without parts raises `IndexError` |
| GitRepo.MakeSshKeyPath | middleware/git_repo/__init__.py:183-192 | the key path is a well-formed POSIX path, and it fails only for a path without parts |
| GitRepo.WindowsDriveBecomesRoot | middleware/git_repo/__init__.py:190-192 | `C:\` + parts becomes the POSIX path `/C/parts…` |
| GitRepo.WindowsDriveKeyString | middleware/git_repo/__init__.py:190-192 | the string of that path is `/` followed by the drive and parts joined with `/` |
| GitRepo.DriveStripped | middleware/git_repo/__init__.py:190-191 | `rstrip(':\\')` gives back the drive letter part |
| GitRepo.PosixPathUnchanged | middleware/git_repo/__init__.py:189-192 | a POSIX path is unchanged |
| GitRepo.SetupHttpsProtocol | middleware/git_repo/__init__.py:229-237 | without a (non-empty) token, the URL is unchanged; with one, the token is inserted after the first `https://`, so `split` fails exactly when there is no `https://` |
| GitRepo.TokenAfterScheme | middleware/git_repo/__init__.py:231-233 | for a URL that starts with `https://`, the token is placed right after the scheme |
| GitRepo.SplitsAtFirstOccurrence | middleware/git_repo/__init__.py:232 | for any URL whose first `https://` follows `prefix`, with any `rest` after it (later `https://` included), the result is `https://<token>@<rest>` |
| GitRepo.ProtocolOf | middleware/git_repo/__init__.py:245-253 | ssh exactly for `git@` URLs, https exactly for the remaining `https://` URLs, and otherwise a `ValueError` with the source's message |
| GitRepo.SetupSshProtocol | middleware/git_repo/__init__.py:194-227 | ssh setup succeeds exactly when `SSH_PRIVATE_KEY` is set, keeps the repository URL, takes both key paths from `_make_ssh_key_path(temp_dir / name)`, and builds the git ssh command from them |
| GitRepo.SetupProtocol | middleware/git_repo/__init__.py:240-253 | the dispatch rejects every other protocol, uses the ssh setup for `git@` URLs, and uses no ssh files only for https |
| GitRepo.HttpsSetup | middleware/git_repo/__init__.py:247-248 | for an https URL, the clone URL carries the token after the scheme when one is set, and is the configured URL otherwise |
| GitRepo.SshSetupOnPosix | middleware/git_repo/__init__.py:200-225 | on a POSIX temporary directory, the key files are `<dir>/ssh_key` and `<dir>/ssh_authorized_keys`, and the ssh command names them |
| Python.DigitsRoundTrip | middleware/http_session/__init__.py:150 | the decimal digits `str(n)` writes read back as `n` |

## Left out

- I/O, asynchrony and concurrency are not modelled: the network, the file system, `chardet`, `json.loads`, `ElementTree.fromstring` and the embedded JSON-LD extractor are parameters of the model. `asyncio.gather` is an order-preserving map.
- When several dataset URLs fail, which exception `gather` propagates depends on scheduling. The model reports the first failure in URL order.
- Tracing (OpenTelemetry spans, events and attributes) and logging are left out, except for the suspicious data `get_metadata_or_log_error` logs.
- aiohttp's `raise_for_status=True` and the behaviour of the connector and timeouts are part of the foreign `get`. Only the explicit status checks of `get_decoded_url` are modelled.
- `urlparse` is modelled after CPython 3.12. The model omits the validation of bracketed hosts by `ipaddress` and the NFKC check of the netloc.
- `HttpSession.__aenter__` and `__aexit__` only delegate, so they are not modelled.
- `has_metadata` and `metadata`, which `scrape_repo` reads from the parser object, are defined by no parser class. The parser object is therefore a parameter (`ParserView`). The scrape lemmas hold for any generator; `ThunenAtlasFetchesEveryResource` instantiates it with the Thünen-Atlas walker. The other three walkers are not wired in the same way.
- The sitemap parsers read their content either from `self.content` or from a `content` argument. Both are modelled as the content passed in.
- `MetadataExtractorEmbeddedJsonld` (the embedded JSON-LD extractor) is not part of this model. Only its registration is modelled.
- Values in `http_client` are integers. `HttpSessionConfig(**kwargs)` is modelled only for integer values and string keys.
- `middleware/metadata_scraper/__init__.py:26-27`: the `commit` field is followed by a stray, indented copy of its annotation's text. As written the file does not parse: importing it raises `IndentationError`, before the `create_instance` error in Findings could arise. The model takes the evidently intended single `commit` field, default `True`.
- The `file:` branch of `get_decoded_url` is modelled for a POSIX host only: `PurePath` is `PurePosixPath`, without Windows separators, drives or UNC prefixes.
- JsonValue.Format: `str()` of a JSON string is the string itself, but a string nested in a list or dictionary is written by `repr`. The model of `repr` escapes quotes, backslashes, `\n`, `\r`, `\t` and the code points below U+0020 and from U+007F to U+00A0. It does not model `str.isprintable`, so other code points `repr` escapes, such as U+00AD or U+2028, are kept as they are.
- GitRepo.SetupSshProtocol: the model does not capture writing the key and `authorized_keys` files, their `chmod`, the temporary directory or the write of `GIT_SSH_COMMAND` to `os.environ`. It returns the paths and the command instead.
- The rest of `GitRepo` (clone, config writer, branch creation, commit and push) touches only git and the file system, and is not modelled.
- The `MetadataScraperConfig.commit` flag and the writing of the harvested files are used only by callers outside the core.

## Findings

| source | as written | input that shows it | evidently intended | confidence | as-written member | corrected member |
|---|---|---|---|---|---|---|
| middleware/http_session/__init__.py:141 | `urlparse(url)` is commented as not raising, but it raises `ValueError` for a netloc with an unmatched bracket. That `ValueError` escapes `get_decoded_url` outside the `HttpSessionFetchError` hierarchy. | `http://[x` | an invalid URL is an `HttpSessionArgumentError`, with no request made | not executed | HttpSession.AsWrittenInvalidUrlEscapes | HttpSession.InvalidUrlIsArgumentError |
| middleware/metadata_scraper/__init__.py:128 | `SitemapParser.create_instance(config.sitemap, sitemap_content)` passes two arguments to a classmethod that takes one, so it raises `TypeError` | any configuration whose sitemap fetch succeeds | look up the parser by identifier, then list its datasets over the fetched content | not executed | MetadataScraper.AsWrittenNeverSucceeds | MetadataScraper.ScrapeExtractsListedUrls |
