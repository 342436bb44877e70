/**
  `pathlib.PurePosixPath` as CPython 3.12 builds it: the raw segments are
  joined the way `posixpath.join` joins them, and the joined string is parsed
  into a root (`""`, `"/"` or `"//"`) and the non-empty parts other than
  `"."`. Two paths are equal when their string forms are, and the string form
  is determined by root and parts, so `Path` equality is path equality.
*/
module PurePosix {
  import opened Strings
  import Seqs

  datatype Path = Path(root: string, parts: seq<string>)

  /** What may appear as one part of a parsed path. */
  predicate IsPart(p: string) {
    p != "" && p != "." && '/' !in p
  }

  predicate Valid(p: Path) {
    p.root in {"", "/", "//"} && forall i | 0 <= i < |p.parts| :: IsPart(p.parts[i])
  }

  /** `PurePosixPath('.')`, which is also `PurePosixPath('')`. */
  const DOT: Path := Path("", [])

  /**
    `posixpath.splitroot` without the drive, which is always empty on POSIX:
    exactly two leading slashes are kept as the root `"//"`, one or more than
    two collapse to `"/"`.
  */
  function SplitRoot(s: string): (string, string) {
    if !StartsWith(s, "/") then ("", s)
    else if |s| < 2 || s[1] != '/' || (|s| >= 3 && s[2] == '/') then ("/", s[1..])
    else ("//", s[2..])
  }

  function KeepPart(x: string): bool {
    x != "" && x != "."
  }

  /** `PurePosixPath._parse_path`. */
  function Parse(s: string): (p: Path)
    ensures Valid(p)
    ensures p.root == "" <==> !StartsWith(s, "/")
  {
    var (root, rel) := SplitRoot(s);
    var pieces := Split(rel, '/');
    var parts := Seqs.Filter(KeepPart, pieces);
    assert forall i | 0 <= i < |parts| :: IsPart(parts[i]) by {
      forall i | 0 <= i < |parts|
        ensures IsPart(parts[i])
      {
        assert parts[i] in pieces;
        var j :| 0 <= j < |pieces| && pieces[j] == parts[i];
        assert '/' !in pieces[j];
      }
    }
    Path(root, parts)
  }

  /** `str(path)`: root and parts joined by `/`, or `"."` for the empty path. */
  function ToString(p: Path): string {
    if p.root == "" && p.parts == [] then "." else p.root + Join(p.parts, "/")
  }

  /** `posixpath.join(a, b)`: an absolute `b` replaces `a`. */
  function PosixJoin(a: string, b: string): string {
    if StartsWith(b, "/") then b
    else if a == "" || EndsWith(a, "/") then a + b
    else a + "/" + b
  }

  /** `posixpath.join(*segments)`, and `""` for no segments. */
  function JoinAll(segments: seq<string>): string {
    if |segments| == 0 then "" else PosixJoin(JoinAll(segments[..|segments| - 1]), segments[|segments| - 1])
  }

  /** `PurePosixPath(*segments)`. */
  function FromSegments(segments: seq<string>): Path {
    Parse(JoinAll(segments))
  }

  /** `PurePosixPath(a) / b`; an absolute `b` discards `a`. */
  function Div(a: string, b: string): (p: Path)
    ensures StartsWith(b, "/") ==> p == Parse(b)
  {
    assert [a, b][..1] == [a];
    FromSegments([a, b])
  }

  lemma JoinStartsWith(parts: seq<string>, sep: string)
    requires |parts| >= 1
    ensures StartsWith(Join(parts, sep), parts[0])
  {
  }

  /** Parsing what `str()` prints gives the same path back. */
  lemma {:induction false} ParseToString(p: Path)
    requires Valid(p)
    ensures Parse(ToString(p)) == p
  {
    if p.root == "" && p.parts == [] {
      SplitNoSeparator(".", '/');
    } else {
      var j := Join(p.parts, "/");
      var s := p.root + j;
      assert s == ToString(p);
      if p.parts != [] {
        JoinStartsWith(p.parts, "/");
        assert j[0] == p.parts[0][0];
        assert j[0] != '/';
      }
      assert SplitRoot(s) == (p.root, j) by {
        if p.root == "" {
          assert s == j;
        } else if p.root == "/" {
          assert s[1..] == j;
        } else {
          assert s[2..] == j;
        }
      }
      if p.parts == [] {
        assert j == "";
        SplitNoSeparator("", '/');
        assert Seqs.Filter(KeepPart, [""]) == [];
      } else {
        SplitJoin(p.parts, '/');
        Seqs.FilterAll(KeepPart, p.parts);
      }
    }
  }

  /** A string without `/` is one part, unless it is `""` or `"."`, which give the empty path. */
  lemma {:induction false} ParseSlashFree(s: string)
    requires '/' !in s
    ensures Parse(s) == (if s == "" || s == "." then DOT else Path("", [s]))
    ensures Parse(s) == DOT <==> s == "" || s == "."
  {
    assert s != [] ==> s[0] != '/';
    SplitNoSeparator(s, '/');
    assert Seqs.Filter(KeepPart, [s]) == (if KeepPart(s) then [s] else []);
  }

  /** A relative `b` below a slash-free, non-empty `a` appends `b`'s parts to `a`'s. */
  lemma {:induction false} DivRelative(a: string, b: string)
    requires a != "" && '/' !in a && !StartsWith(b, "/")
    ensures Div(a, b) == Path("", Parse(a).parts + Parse(b).parts)
  {
    assert [a, b][..1] == [a];
    assert JoinAll([a]) == a by { assert [a][..0] == []; }
    assert a[|a| - 1] in a;
    assert PosixJoin(a, b) == a + "/" + b;
    var s := a + "/" + b;
    assert s[0] == a[0] && a[0] != '/';
    assert SplitRoot(s) == ("", s);
    SplitPrefix(a, b, '/');
    Seqs.FilterAppend(KeepPart, [a], Split(b, '/'));
    SplitNoSeparator(a, '/');
    assert SplitRoot(b) == ("", b);
  }

  lemma {:induction false} JoinSnoc(parts: seq<string>, x: string, sep: string)
    requires |parts| >= 1
    ensures Join(parts + [x], sep) == Join(parts, sep) + sep + x
  {
    if |parts| == 1 {
      assert (parts + [x])[1..] == [x];
    } else {
      JoinSnoc(parts[1..], x, sep);
      assert (parts + [x])[1..] == parts[1..] + [x];
    }
  }

  lemma {:induction false} JoinAllRooted(parts: seq<string>)
    requires forall i | 0 <= i < |parts| :: IsPart(parts[i])
    ensures JoinAll(["/"] + parts) == "/" + Join(parts, "/")
  {
    if parts == [] {
      assert (["/"] + parts)[..0] == [];
    } else {
      var init := parts[..|parts| - 1];
      var x := parts[|parts| - 1];
      var segments := ["/"] + parts;
      assert segments[..|segments| - 1] == ["/"] + init;
      assert segments[|segments| - 1] == x;
      JoinAllRooted(init);
      assert JoinAll(segments) == PosixJoin("/" + Join(init, "/"), x);
      assert parts == init + [x];
      RootedSnoc(init, x);
    }
  }

  /** Appending a proper part to a rooted join. */
  lemma RootedSnoc(init: seq<string>, x: string)
    requires forall i | 0 <= i < |init| :: IsPart(init[i])
    requires IsPart(x)
    ensures PosixJoin("/" + Join(init, "/"), x) == "/" + Join(init + [x], "/")
  {
    assert !StartsWith(x, "/") by { assert x[0] in x; }
    var a := "/" + Join(init, "/");
    if init == [] {
      assert a == "/" && EndsWith(a, "/");
      assert PosixJoin(a, x) == "/" + x;
      assert init + [x] == [x];
      assert Join([x], "/") == x;
    } else {
      NoTrailingSlash(init);
      assert PosixJoin(a, x) == a + "/" + x;
      JoinSnoc(init, x, "/");
      Regroup("/", Join(init, "/"), "/", x);
    }
  }

  /** A rooted join of proper parts does not end in `/`. */
  lemma NoTrailingSlash(parts: seq<string>)
    requires |parts| >= 1 && forall i | 0 <= i < |parts| :: IsPart(parts[i])
    ensures !EndsWith("/" + Join(parts, "/"), "/")
  {
    var a := "/" + Join(parts, "/");
    JoinSnocLast(parts, "/");
    var last := parts[|parts| - 1];
    assert last[|last| - 1] != '/' by {
      assert last[|last| - 1] in last;
    }
    assert a[|a| - 1] != '/';
    assert a[|a| - 1..] != "/";
  }

  lemma Regroup(p: string, q: string, r: string, t: string)
    ensures p + (q + r + t) == p + q + r + t
  {
  }

  lemma {:induction false} JoinSnocLast(parts: seq<string>, sep: string)
    requires |parts| >= 1 && parts[|parts| - 1] != ""
    ensures |Join(parts, sep)| >= 1
    ensures Join(parts, sep)[|Join(parts, sep)| - 1] == parts[|parts| - 1][|parts[|parts| - 1]| - 1]
  {
    if |parts| > 1 {
      JoinSnocLast(parts[1..], sep);
    }
  }

  /** `PurePosixPath('/', *parts)` with proper parts is the absolute path of exactly those parts. */
  lemma {:induction false} FromSegmentsRooted(parts: seq<string>)
    requires forall i | 0 <= i < |parts| :: IsPart(parts[i])
    ensures FromSegments(["/"] + parts) == Path("/", parts)
    ensures ToString(FromSegments(["/"] + parts)) == "/" + Join(parts, "/")
  {
    JoinAllRooted(parts);
    ParseToString(Path("/", parts));
  }
}
