/**
 * Go's `path.Clean` and `path.Match`, as the core uses them, stated as
 * predicates over the slash-separated segments of a path.
 */
module Paths {
  import opened Wrappers
  import opened Text

  /** The segments of a slash-separated path (`strings.Split(p, "/")`). */
  function Segments(p: string): (segs: seq<string>)
    ensures |segs| >= 1
    ensures forall i :: 0 <= i < |segs| ==> '/' !in segs[i]
  {
    Split(p, '/')
  }

  /** A segment `path.Clean` keeps as it is: non-empty, and neither "." nor "..". */
  predicate CleanSegment(s: string)
  {
    s != "" && s != "." && s != ".."
  }

  /** The number of leading ".." segments, which `path.Clean` keeps in a relative path. */
  function DotDotRun(segs: seq<string>): (n: nat)
    ensures n <= |segs|
  {
    if |segs| == 0 || segs[0] != ".." then 0 else 1 + DotDotRun(segs[1..])
  }

  /**
   * `path.Clean(p) == p`: "." and "/" are clean; a rooted path is clean when
   * every segment after the root is; a relative path is clean when, after a
   * run of leading "..", every segment is. An empty segment stands for a
   * doubled or a trailing slash.
   */
  predicate IsClean(p: string)
  {
    p == "." || p == "/" ||
    (|p| > 0 &&
      var segs := Segments(p);
      if p[0] == '/' then forall i :: 1 <= i < |segs| ==> CleanSegment(segs[i])
      else forall i :: DotDotRun(segs) <= i < |segs| ==> CleanSegment(segs[i]))
  }

  /**
   * A `path.Match` pattern made of literal segments (`Some`) and `*`
   * segments (`None`); `*` matches any run of non-slash characters,
   * the empty run included.
   */
  type Pattern = seq<Option<string>>

  /** `path.Match(pattern, name)` for a pattern of literal and `*` segments. */
  predicate Matches(pattern: Pattern, name: string)
  {
    var segs := Segments(name);
    |segs| == |pattern| &&
    forall i :: 0 <= i < |segs| ==> pattern[i].Some? ==> segs[i] == pattern[i].value
  }

  /** A rooted path starts with an empty segment; "." is its only segment. */
  lemma FirstSegment(p: string)
    ensures |p| > 0 && p[0] == '/' ==> Segments(p)[0] == ""
    ensures p == "." ==> Segments(p) == ["."]
  {
    if p == "." {
      assert p[1..] == "";
      var rest := Split(p[1..], '/');
      assert rest == [""];
      assert Split(p, '/') == [[p[0]] + rest[0]] + rest[1..];
      assert [p[0]] + rest[0] == p;
    }
  }

  /** A relative path other than "." whose first segment is not ".." is clean exactly when all its segments are. */
  lemma CleanRelative(p: string)
    requires |p| > 0 && p[0] != '/' && p != "." && Segments(p)[0] != ".."
    ensures IsClean(p) <==> forall i :: 0 <= i < |Segments(p)| ==> CleanSegment(Segments(p)[i])
  {
    assert DotDotRun(Segments(p)) == 0;
  }
}
