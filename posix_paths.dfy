/** Pure POSIX paths as Python's `pathlib.PurePosixPath` parses, joins and prints
    them, and `os.path.join` on strings. A parsed path keeps its root (`""`,
    `"/"`, or `"//"`, which POSIX lets an implementation treat specially) and
    its components; empty components (repeated slashes) and `.` components are
    dropped, while `..` is kept. */
module PosixPaths {
  import opened Text

  datatype PurePath = PurePath(root: string, parts: seq<string>)

  /** A component as pathlib keeps it after parsing. */
  predicate IsComponent(x: string) {
    x != "" && x != "." && '/' !in x
  }

  /** What parsing can produce: one of the three roots and proper components only. */
  predicate Normal(p: PurePath) {
    && (p.root == "" || p.root == "/" || p.root == "//")
    && forall k :: 0 <= k < |p.parts| ==> IsComponent(p.parts[k])
  }

  /** Python's `s.split("/")`: the pieces between slashes, empty ones included. */
  function SplitOn(s: string): (r: seq<string>)
    ensures |r| >= 1
    ensures forall k :: 0 <= k < |r| ==> '/' !in r[k]
  {
    if s == [] then [""]
    else
      var rest := SplitOn(s[1..]);
      if s[0] == '/' then [""] + rest else [[s[0]] + rest[0]] + rest[1..]
  }

  /** Python's `"/".join(parts)`. */
  function JoinWith(parts: seq<string>): string {
    if |parts| == 0 then ""
    else if |parts| == 1 then parts[0]
    else parts[0] + "/" + JoinWith(parts[1..])
  }

  /** `[x for x in xs if x and x != '.']`, the filter pathlib applies to the pieces. */
  function DropEmpty(xs: seq<string>): seq<string> {
    if xs == [] then []
    else (if xs[0] != "" && xs[0] != "." then [xs[0]] else []) + DropEmpty(xs[1..])
  }

  /** The components pathlib reads from a string. */
  function Components(s: string): seq<string> {
    DropEmpty(SplitOn(s))
  }

  /** `posixpath.splitroot`: no root, a single slash (also for three or more
      slashes), or exactly two slashes. Returns the root and the rest. */
  function SplitRoot(s: string): (string, string) {
    if !StartsWith(s, "/") then ("", s)
    else if !StartsWith(s[1..], "/") || StartsWith(s[2..], "/") then ("/", s[1..])
    else ("//", s[2..])
  }

  /** `pathlib.PurePosixPath(s)`. */
  function Parse(s: string): PurePath {
    var (root, rel) := SplitRoot(s);
    PurePath(root, Components(rel))
  }

  /** `str(path)`, which is also `path.as_posix()` on POSIX: the root followed by
      the components joined with slashes, or `.` for the empty relative path. */
  function Format(p: PurePath): string {
    if p.root != "" then p.root + JoinWith(p.parts)
    else if p.parts == [] then "."
    else JoinWith(p.parts)
  }

  predicate IsAbsolute(p: PurePath) {
    p.root != ""
  }

  /** `p.joinpath(q)`: an absolute `q` replaces `p`; otherwise the components are appended. */
  function JoinPath(p: PurePath, q: PurePath): PurePath {
    if IsAbsolute(q) then q else PurePath(p.root, p.parts + q.parts)
  }

  /** `path.name`: the last component, or the empty string when there is none. */
  function Name(p: PurePath): string {
    if p.parts == [] then "" else p.parts[|p.parts| - 1]
  }

  /** `os.path.join(a, b)` on POSIX: an absolute `b` wins; otherwise a slash is
      inserted unless `a` is empty or already ends with one. */
  function OsPathJoin(a: string, b: string): string {
    if StartsWith(b, "/") then b
    else if a == "" || EndsWith(a, "/") then a + b
    else a + "/" + b
  }

  // ---------------------------------------------------------------------------
  // Splitting and joining

  lemma {:induction false} SplitOnConcat(a: string, b: string)
    ensures SplitOn(a + "/" + b) == SplitOn(a) + SplitOn(b)
  {
    if a == [] {
      assert a + "/" + b == "/" + b;
      assert ("/" + b)[1..] == b;
    } else {
      var s := a + "/" + b;
      assert s[0] == a[0] && s[1..] == a[1..] + "/" + b;
      SplitOnConcat(a[1..], b);
      var x, y := SplitOn(a[1..]), SplitOn(b);
      assert SplitOn(s[1..]) == x + y;
      if a[0] != '/' {
        assert (x + y)[0] == x[0];
        assert (x + y)[1..] == x[1..] + y;
        assert SplitOn(s) == [[a[0]] + x[0]] + (x[1..] + y);
      }
    }
  }

  lemma {:induction false} SplitOnWord(w: string)
    requires '/' !in w
    ensures SplitOn(w) == [w]
  {
    if w != [] {
      SplitOnWord(w[1..]);
      assert [w[0]] + w[1..] == w;
    }
  }

  lemma {:induction false} SplitOnJoinWith(parts: seq<string>)
    requires |parts| >= 1
    requires forall k :: 0 <= k < |parts| ==> '/' !in parts[k]
    ensures SplitOn(JoinWith(parts)) == parts
  {
    if |parts| == 1 {
      SplitOnWord(parts[0]);
    } else {
      SplitOnJoinWith(parts[1..]);
      SplitOnConcat(parts[0], JoinWith(parts[1..]));
      SplitOnWord(parts[0]);
    }
  }

  /** Joining with one more part at the end adds a slash and that part. */
  lemma {:induction false} JoinWithSnoc(parts: seq<string>, x: string)
    requires |parts| >= 1
    ensures JoinWith(parts + [x]) == JoinWith(parts) + "/" + x
  {
    var ps := parts + [x];
    assert ps[0] == parts[0] && ps[1..] == parts[1..] + [x];
    if |parts| == 1 {
      assert ps[1..] == [x];
    } else {
      JoinWithSnoc(parts[1..], x);
    }
  }

  lemma {:induction false} DropEmptyConcat(xs: seq<string>, ys: seq<string>)
    ensures DropEmpty(xs + ys) == DropEmpty(xs) + DropEmpty(ys)
  {
    if xs != [] {
      DropEmptyConcat(xs[1..], ys);
      assert (xs + ys)[1..] == xs[1..] + ys;
    } else {
      assert xs + ys == ys;
    }
  }

  lemma {:induction false} DropEmptyKeeps(xs: seq<string>)
    requires forall k :: 0 <= k < |xs| ==> IsComponent(xs[k])
    ensures DropEmpty(xs) == xs
  {
    if xs != [] {
      DropEmptyKeeps(xs[1..]);
    }
  }

  lemma {:induction false} DropEmptyComponents(xs: seq<string>)
    requires forall k :: 0 <= k < |xs| ==> '/' !in xs[k]
    ensures forall k :: 0 <= k < |DropEmpty(xs)| ==> IsComponent(DropEmpty(xs)[k])
  {
    if xs != [] {
      DropEmptyComponents(xs[1..]);
    }
  }

  /** Concatenating lists of proper components gives a list of proper components. */
  lemma AllComponentsConcat(xs: seq<string>, ys: seq<string>)
    requires forall k :: 0 <= k < |xs| ==> IsComponent(xs[k])
    requires forall k :: 0 <= k < |ys| ==> IsComponent(ys[k])
    ensures forall k :: 0 <= k < |xs + ys| ==> IsComponent((xs + ys)[k])
  {
    forall k | 0 <= k < |xs + ys|
      ensures IsComponent((xs + ys)[k])
    {
      if k >= |xs| {
        assert (xs + ys)[k] == ys[k - |xs|];
      }
    }
  }

  /** The components of `a/b` are those of `a` followed by those of `b`. */
  lemma ComponentsConcat(a: string, b: string)
    ensures Components(a + "/" + b) == Components(a) + Components(b)
  {
    SplitOnConcat(a, b);
    DropEmptyConcat(SplitOn(a), SplitOn(b));
  }

  lemma ComponentsAreComponents(s: string)
    ensures forall k :: 0 <= k < |Components(s)| ==> IsComponent(Components(s)[k])
  {
    DropEmptyComponents(SplitOn(s));
  }

  /** Joining proper components with slashes and reading them back gives them again. */
  lemma ComponentsJoinWith(parts: seq<string>)
    requires forall k :: 0 <= k < |parts| ==> IsComponent(parts[k])
    ensures Components(JoinWith(parts)) == parts
  {
    if parts == [] {
      assert SplitOn("") == [""];
    } else {
      SplitOnJoinWith(parts);
      DropEmptyKeeps(parts);
    }
  }

  /** A leading slash adds only an empty piece, which is dropped. */
  lemma ComponentsSlash(s: string)
    ensures Components("/" + s) == Components(s)
  {
    ComponentsConcat("", s);
    assert "" + "/" + s == "/" + s;
    assert SplitOn("") == [""];
  }

  // ---------------------------------------------------------------------------
  // Parsing and printing

  /** Whatever the root, the components of a parsed string are those of the whole string. */
  lemma ParsePartsIgnoreRoot(s: string)
    ensures Parse(s).parts == Components(s)
  {
    if StartsWith(s, "/") {
      assert s == "/" + s[1..];
      ComponentsSlash(s[1..]);
      if StartsWith(s[1..], "/") && !StartsWith(s[2..], "/") {
        assert s[1..] == "/" + s[2..];
        ComponentsSlash(s[2..]);
      }
    }
  }

  /** Parsing always yields a normal path. */
  lemma ParseNormal(s: string)
    ensures Normal(Parse(s))
  {
    var (root, rel) := SplitRoot(s);
    ComponentsAreComponents(rel);
  }

  /** `PurePosixPath(str(p)) == p` for every path parsing can produce: printing
      loses nothing. */
  lemma ParseFormat(p: PurePath)
    requires Normal(p)
    ensures Parse(Format(p)) == p
  {
    var j := JoinWith(p.parts);
    ComponentsJoinWith(p.parts);
    JoinWithNoLeadingSlash(p.parts);
    if p.root == "" {
      if p.parts == [] {
        SplitOnWord(".");
      }
    } else {
      ParseRooted(p.root, j);
    }
  }

  lemma JoinWithNoLeadingSlash(parts: seq<string>)
    requires forall k :: 0 <= k < |parts| ==> IsComponent(parts[k])
    ensures !StartsWith(JoinWith(parts), "/")
  {
    if parts != [] {
      var j := JoinWith(parts);
      assert j[0] == parts[0][0];
      assert parts[0][0] in parts[0];
    }
  }

  /** A root followed by a string that does not start with a slash. */
  lemma ParseRooted(root: string, rel: string)
    requires root == "/" || root == "//"
    requires !StartsWith(rel, "/")
    ensures Parse(root + rel) == PurePath(root, Components(rel))
  {
    var s := root + rel;
    assert s[1..] == (if root == "/" then rel else "/" + rel);
    if root == "//" {
      assert s[2..] == rel;
    }
  }

  /** Parsing is idempotent: the printed form of a parsed path parses to the same path. */
  lemma ParseFormatParse(s: string)
    ensures Parse(Format(Parse(s))) == Parse(s)
  {
    ParseNormal(s);
    ParseFormat(Parse(s));
  }

  /** `os.path.join` with a relative second part adds that part's components. */
  lemma OsPathJoinComponents(a: string, b: string)
    requires !StartsWith(b, "/")
    ensures Components(OsPathJoin(a, b)) == Components(a) + Components(b)
  {
    if a == "" {
      assert SplitOn("") == [""];
      assert a + b == b;
    } else if EndsWith(a, "/") {
      var a' := a[..|a| - 1];
      assert a == a' + "/" + "";
      assert a + b == a' + "/" + b;
      ComponentsConcat(a', b);
      ComponentsConcat(a', "");
      assert SplitOn("") == [""];
    } else {
      ComponentsConcat(a, b);
    }
  }
}
