/**
  `urllib.parse.urlsplit` and `urlparse` of CPython 3.12 on `str`, with the
  default empty scheme and fragments allowed.
*/
module UrlParse {
  import opened Wrappers
  import opened Python
  import opened Strings

  /** `_WHATWG_C0_CONTROL_OR_SPACE`: U+0000 to U+0020, stripped from the front. */
  predicate IsC0ControlOrSpace(c: char) {
    c <= ' '
  }

  /** `_UNSAFE_URL_BYTES_TO_REMOVE`: tab, CR and LF, removed everywhere. */
  predicate IsUnsafe(c: char) {
    c == '\t' || c == '\r' || c == '\n'
  }

  predicate IsAsciiLetter(c: char) {
    ('a' <= c <= 'z') || ('A' <= c <= 'Z')
  }

  /** `scheme_chars`: ASCII letters, digits, `+`, `-` and `.`. */
  predicate IsSchemeChar(c: char) {
    IsAsciiLetter(c) || ('0' <= c <= '9') || c == '+' || c == '-' || c == '.'
  }

  /** A scheme as section 3.1 of RFC 3986 writes it, in lower case. */
  predicate WellFormedScheme(s: string) {
    |s| >= 1 && 'a' <= s[0] <= 'z'
    && forall i | 0 <= i < |s| :: IsSchemeChar(s[i]) && !('A' <= s[i] <= 'Z')
  }

  function LowerChar(c: char): char {
    if 'A' <= c <= 'Z' then (c as int + 32) as char else c
  }

  /** `str.lower()` on a string of scheme characters. */
  function Lower(s: string): (r: string)
    ensures |r| == |s|
    ensures forall i | 0 <= i < |s| :: r[i] == LowerChar(s[i])
  {
    if s == [] then [] else [LowerChar(s[0])] + Lower(s[1..])
  }

  function LStripC0(s: string): (r: string)
    ensures |r| <= |s| && r == s[|s| - |r|..]
    ensures r == [] || !IsC0ControlOrSpace(r[0])
  {
    if |s| > 0 && IsC0ControlOrSpace(s[0]) then LStripC0(s[1..]) else s
  }

  function RemoveUnsafe(s: string): (r: string)
    ensures forall i | 0 <= i < |r| :: !IsUnsafe(r[i])
    ensures (forall i | 0 <= i < |s| :: !IsUnsafe(s[i])) ==> r == s
  {
    if s == [] then []
    else (if IsUnsafe(s[0]) then [] else [s[0]]) + RemoveUnsafe(s[1..])
  }

  /** The index of the first character of `s` at or after `k` that is in `cs`, or `|s|`. */
  function FirstOf(s: string, cs: set<char>, k: nat): (i: nat)
    requires k <= |s|
    ensures k <= i <= |s|
    ensures i < |s| ==> s[i] in cs
    ensures forall j | k <= j < i :: s[j] !in cs
    decreases |s| - k
  {
    if k == |s| || s[k] in cs then k else FirstOf(s, cs, k + 1)
  }

  /** The index of the last `c` in `s`, or -1 (`s.rfind(c)`). */
  function LastOf(s: string, c: char): (i: int)
    ensures -1 <= i < |s|
    ensures i >= 0 ==> s[i] == c
    ensures forall j | i < j < |s| :: s[j] != c
  {
    if s == [] then -1
    else if s[|s| - 1] == c then |s| - 1
    else LastOf(s[..|s| - 1], c)
  }

  /** `s.split(c, 1)` when `c` occurs in `s`. */
  function SplitOnce(s: string, c: char): (r: (string, string))
    requires c in s
    ensures c !in r.0 && s == r.0 + [c] + r.1
  {
    var i := FirstOf(s, {c}, 0);
    assert s == s[..i] + [c] + s[i + 1..];
    (s[..i], s[i + 1..])
  }

  datatype SplitResult = SplitResult(scheme: string, netloc: string, path: string,
                                     query: string, fragment: string)

  /** The scheme and the rest, by the rule `urlsplit` applies to the first `:`. */
  function SplitScheme(url: string): (r: (string, string))
    ensures r.0 == "" || WellFormedScheme(r.0)
    ensures r.0 == "" ==> r.1 == url
  {
    var i := Find(url, ":");
    if i > 0 && IsAsciiLetter(url[0]) && forall j | 0 <= j < i :: IsSchemeChar(url[j]) then
      (Lower(url[..i]), url[i + 1..])
    else
      ("", url)
  }

  const INVALID_IPV6: PyError := PyError(ValueError, "Invalid IPv6 URL")

  /** Whether a netloc holds one bracket of `[` and `]` without the other. */
  predicate UnbalancedBrackets(netloc: string) {
    ('[' in netloc && ']' !in netloc) || (']' in netloc && '[' !in netloc)
  }

  /** What `urlsplit` works on: the C0 controls and spaces stripped from the front, tab, CR and LF removed. */
  function Clean(url: string): string {
    RemoveUnsafe(LStripC0(url))
  }

  /** `_splitnetloc(url, 2)` after a leading `//`: the authority runs up to the first `/`, `?` or `#`. */
  function SplitNetloc(rest: string): (r: (string, string))
    ensures '/' !in r.0 && '?' !in r.0 && '#' !in r.0
    ensures !StartsWith(rest, "//") ==> r == ("", rest)
    ensures StartsWith(rest, "//") ==> rest == "//" + r.0 + r.1
  {
    if StartsWith(rest, "//") then
      var d := FirstOf(rest, {'/', '?', '#'}, 2);
      assert rest == "//" + rest[2..d] + rest[d..];
      (rest[2..d], rest[d..])
    else ("", rest)
  }

  /** The fragment split off at the first `#`, then the query at the first `?`. */
  function SplitTail(rest: string): (r: (string, string, string))
    ensures '?' !in r.0 && '#' !in r.0 && '#' !in r.1
    ensures ('?' !in rest && '#' !in rest) ==> r == (rest, "", "")
  {
    var fragment := if '#' in rest then SplitOnce(rest, '#') else (rest, "");
    var query := if '?' in fragment.0 then SplitOnce(fragment.0, '?') else (fragment.0, "");
    (query.0, query.1, fragment.1)
  }

  /** `urlsplit(url)`. */
  function UrlSplit(url: string): (r: Result<SplitResult, PyError>)
    ensures r.Err? ==> r.error == INVALID_IPV6
    ensures r.Ok? ==> var v := r.value;
      && (v.scheme == "" || WellFormedScheme(v.scheme))
      && '/' !in v.netloc && '?' !in v.netloc && '#' !in v.netloc && !UnbalancedBrackets(v.netloc)
      && '?' !in v.path && '#' !in v.path && '#' !in v.query
  {
    var scheme := SplitScheme(Clean(url));
    var netloc := SplitNetloc(scheme.1);
    if UnbalancedBrackets(netloc.0) then Err(INVALID_IPV6)
    else
      var tail := SplitTail(netloc.1);
      Ok(SplitResult(scheme.0, netloc.0, tail.0, tail.1, tail.2))
  }

  /** `uses_params`: the schemes whose path `urlparse` splits at `;`. */
  const USES_PARAMS: set<string> :=
    {"", "ftp", "hdl", "prospero", "http", "imap", "https", "shttp", "rtsp", "rtsps",
     "rtspu", "sip", "sips", "mms", "sftp", "tel"}

  /** `_splitparams`: the parameters start at the first `;` after the last `/`. */
  function SplitParams(path: string): (r: (string, string))
    ensures |r.0| <= |path| && r.0 == path[..|r.0|]
  {
    if '/' in path then
      var slash := LastOf(path, '/');
      var i := FirstOf(path, {';'}, slash + 1);
      if i == |path| then (path, "") else (path[..i], path[i + 1..])
    else
      var i := FirstOf(path, {';'}, 0);
      (path[..i], if i < |path| then path[i + 1..] else "")
  }

  /** `urlparse` leaves the path of a `file` URL whole. */
  lemma FileHasNoParams()
    ensures "file" !in USES_PARAMS
  {
  }

  datatype ParseResult = ParseResult(scheme: string, netloc: string, path: string, params: string,
                                     query: string, fragment: string)

  /** `urlparse(url)`: `urlsplit`, then the parameters split off the path for the schemes above. */
  function UrlParse(url: string): (r: Result<ParseResult, PyError>)
    ensures r.Err? <==> UrlSplit(url).Err?
    ensures r.Err? ==> r.error == INVALID_IPV6
    ensures r.Ok? ==> var s := UrlSplit(url).value;
      && r.value.scheme == s.scheme && r.value.netloc == s.netloc
      && r.value.query == s.query && r.value.fragment == s.fragment
      && (s.scheme !in USES_PARAMS ==> r.value.path == s.path && r.value.params == "")
  {
    var s :- UrlSplit(url);
    var params := if s.scheme in USES_PARAMS && ';' in s.path then SplitParams(s.path) else (s.path, "");
    Ok(ParseResult(s.scheme, s.netloc, params.0, params.1, s.query, s.fragment))
  }

  /** A scheme as a URL may spell it: a letter, then scheme characters, in either case. */
  predicate SchemeSpelling(s: string) {
    |s| >= 1 && IsAsciiLetter(s[0]) && forall i | 0 <= i < |s| :: IsSchemeChar(s[i])
  }

  /**
    Composing a URL from a scheme, an authority and an absolute path and
    splitting it gives the three back, with the scheme in lower case, unless
    the authority holds an unmatched bracket: `urlsplit` inverts the composition.
  */
  lemma {:induction false} SplitComposed(scheme: string, netloc: string, path: string)
    requires SchemeSpelling(scheme)
    requires '/' !in netloc && '?' !in netloc && '#' !in netloc
    requires forall i | 0 <= i < |netloc| :: !IsUnsafe(netloc[i])
    requires path == "" || path[0] == '/'
    requires '?' !in path && '#' !in path
    requires forall i | 0 <= i < |path| :: !IsUnsafe(path[i])
    ensures UrlSplit(scheme + "://" + netloc + path)
         == if UnbalancedBrackets(netloc) then Err(INVALID_IPV6)
            else Ok(SplitResult(Lower(scheme), netloc, path, "", ""))
  {
    SchemeOfComposed(scheme, netloc, path);
    NetlocComposed(netloc, path);
    UrlSplitStages(scheme + "://" + netloc + path, Lower(scheme), "//" + netloc + path, netloc, path);
  }

  /** The same for `urlparse`, for a scheme whose paths carry no parameters. */
  lemma ParseComposed(scheme: string, netloc: string, path: string)
    requires SchemeSpelling(scheme) && Lower(scheme) !in USES_PARAMS
    requires '/' !in netloc && '?' !in netloc && '#' !in netloc && !UnbalancedBrackets(netloc)
    requires forall i | 0 <= i < |netloc| :: !IsUnsafe(netloc[i])
    requires path == "" || path[0] == '/'
    requires '?' !in path && '#' !in path
    requires forall i | 0 <= i < |path| :: !IsUnsafe(path[i])
    ensures UrlParse(scheme + "://" + netloc + path) == Ok(ParseResult(Lower(scheme), netloc, path, "", "", ""))
  {
    SplitComposed(scheme, netloc, path);
  }

  /** `file://<netloc><path>` parses into its netloc and its whole path. */
  lemma FileComposed(netloc: string, path: string)
    requires '/' !in netloc && '?' !in netloc && '#' !in netloc && !UnbalancedBrackets(netloc)
    requires forall i | 0 <= i < |netloc| :: !IsUnsafe(netloc[i])
    requires path == "" || path[0] == '/'
    requires '?' !in path && '#' !in path
    requires forall i | 0 <= i < |path| :: !IsUnsafe(path[i])
    ensures UrlParse("file" + "://" + netloc + path) == Ok(ParseResult("file", netloc, path, "", "", ""))
  {
    assert SchemeSpelling("file");
    assert Lower("file") == "file";
    FileHasNoParams();
    ParseComposed("file", netloc, path);
  }

  lemma SchemeOfComposed(scheme: string, netloc: string, path: string)
    requires SchemeSpelling(scheme)
    requires forall i | 0 <= i < |netloc| :: !IsUnsafe(netloc[i])
    requires forall i | 0 <= i < |path| :: !IsUnsafe(path[i])
    ensures SplitScheme(Clean(scheme + "://" + netloc + path)) == (Lower(scheme), "//" + netloc + path)
  {
    CleanComposed(scheme, netloc, path);
    SchemeComposed(scheme, "//" + netloc + path);
    ColonThenSlashes(scheme, netloc + path);
    assert "//" + netloc + path == "//" + (netloc + path);
    assert scheme + "://" + netloc + path == scheme + "://" + (netloc + path);
  }

  lemma ColonThenSlashes(scheme: string, rest: string)
    ensures scheme + "://" + rest == scheme + ":" + ("//" + rest)
  {
    assert "://" == ":" + "//";
  }

  /** `UrlSplit` as the composition of its stages. */
  lemma UrlSplitStages(url: string, scheme: string, rest: string, netloc: string, rest2: string)
    requires SplitScheme(Clean(url)) == (scheme, rest)
    requires SplitNetloc(rest) == (netloc, rest2)
    requires '?' !in rest2 && '#' !in rest2
    ensures UrlSplit(url) == if UnbalancedBrackets(netloc) then Err(INVALID_IPV6)
                             else Ok(SplitResult(scheme, netloc, rest2, "", ""))
  {
    var t := SplitTail(rest2);
    assert t.0 == rest2 && t.1 == "" && t.2 == "";
  }

  lemma CleanComposed(scheme: string, netloc: string, path: string)
    requires SchemeSpelling(scheme)
    requires forall i | 0 <= i < |netloc| :: !IsUnsafe(netloc[i])
    requires forall i | 0 <= i < |path| :: !IsUnsafe(path[i])
    ensures Clean(scheme + "://" + netloc + path) == scheme + "://" + netloc + path
  {
    var url := scheme + "://" + netloc + path;
    assert LStripC0(url) == url by { assert url[0] == scheme[0]; }
    forall i | 0 <= i < |url|
      ensures !IsUnsafe(url[i])
    {
      if i < |scheme| {
        assert url[i] == scheme[i];
      } else if i < |scheme| + 3 {
      } else if i < |scheme| + 3 + |netloc| {
        assert url[i] == netloc[i - |scheme| - 3];
      } else {
        assert url[i] == path[i - |scheme| - 3 - |netloc|];
      }
    }
  }

  lemma SchemeComposed(scheme: string, rest: string)
    requires SchemeSpelling(scheme)
    ensures SplitScheme(scheme + ":" + rest) == (Lower(scheme), rest)
  {
    var url := scheme + ":" + rest;
    var colon := |scheme|;
    assert OccursAt(url, ":", colon);
    forall j | 0 <= j < colon
      ensures !OccursAt(url, ":", j)
    {
      assert url[j] == scheme[j];
    }
    assert Find(url, ":") == colon;
    assert url[..colon] == scheme;
    assert url[colon + 1..] == rest;
  }

  lemma NetlocComposed(netloc: string, path: string)
    requires '/' !in netloc && '?' !in netloc && '#' !in netloc
    requires path == "" || path[0] == '/'
    ensures SplitNetloc("//" + netloc + path) == (netloc, path)
  {
    var rest := "//" + netloc + path;
    var d := FirstOf(rest, {'/', '?', '#'}, 2);
    assert forall j | 2 <= j < 2 + |netloc| :: rest[j] == netloc[j - 2];
    if path != "" {
      assert rest[2 + |netloc|] == path[0];
    }
    assert d == 2 + |netloc|;
    assert rest[2..d] == netloc;
    assert rest[d..] == path;
  }

  /** `urlsplit` lower-cases the scheme: `HTTP://h/` has scheme `http`. */
  lemma UpperCaseScheme(url: string)
    requires url == "HTTP://h/"
    ensures UrlSplit(url) == Ok(SplitResult("http", "h", "/", "", ""))
  {
    UpperCaseSpelling();
    SplitComposed("HTTP", "h", "/");
  }

  lemma UpperCaseSpelling()
    ensures SchemeSpelling("HTTP") && Lower("HTTP") == "http"
    ensures "HTTP" + "://" + "h" + "/" == "HTTP://h/"
    ensures forall i | 0 <= i < |"h"| :: !IsUnsafe("h"[i])
    ensures forall i | 0 <= i < |"/"| :: !IsUnsafe("/"[i])
    ensures !UnbalancedBrackets("h")
  {
  }

  /** An authority with one bracket and not the other makes `urlsplit`, and so `urlparse`, raise `ValueError`. */
  lemma UnbalancedBracketRaises(scheme: string, netloc: string, path: string)
    requires SchemeSpelling(scheme)
    requires '/' !in netloc && '?' !in netloc && '#' !in netloc && UnbalancedBrackets(netloc)
    requires forall i | 0 <= i < |netloc| :: !IsUnsafe(netloc[i])
    requires path == "" || path[0] == '/'
    requires '?' !in path && '#' !in path
    requires forall i | 0 <= i < |path| :: !IsUnsafe(path[i])
    ensures UrlSplit(scheme + "://" + netloc + path) == Err(INVALID_IPV6)
    ensures UrlParse(scheme + "://" + netloc + path) == Err(INVALID_IPV6)
  {
    SplitComposed(scheme, netloc, path);
  }

  /** `http://[x` has an opening bracket without a closing one. */
  lemma UnclosedBracketRaises(url: string)
    requires url == "http://[x"
    ensures UrlParse(url) == Err(INVALID_IPV6)
  {
    UnclosedBracketSpelling();
    UnbalancedBracketRaises("http", "[x", "");
  }

  lemma UnclosedBracketSpelling()
    ensures SchemeSpelling("http")
    ensures '/' !in "[x" && '?' !in "[x" && '#' !in "[x" && UnbalancedBrackets("[x")
    ensures forall i | 0 <= i < |"[x"| :: !IsUnsafe("[x"[i])
    ensures "http" + "://" + "[x" + "" == "http://[x"
  {
    assert "[x"[0] == '[';
  }
}
