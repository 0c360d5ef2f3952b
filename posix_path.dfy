/**
 * The part of Python's `pathlib` on POSIX that the config lookup relies on:
 * `Path(a) / b` (an absolute `b` replaces `a`) and `str(Path(p))`, which
 * drops empty and "." segments and keeps one leading "/" (two when the path
 * starts with exactly two).
 */
module PosixPath {
  import opened Wrappers
  import opened Strings

  /** `p.split("/")` */
  function Split(p: string): (parts: seq<string>)
    ensures |parts| >= 1
    decreases |p|
  {
    if p == [] then [""]
    else
      var rest := Split(p[1..]);
      if p[0] == '/' then [""] + rest else [[p[0]] + rest[0]] + rest[1..]
  }

  /** Splitting a leading segment off. */
  lemma {:induction false} SplitAt(head: string, rest: string)
    requires !HasChar(head, '/')
    ensures Split(head + "/" + rest) == [head] + Split(rest)
    decreases |head|
  {
    var p := head + "/" + rest;
    if head == [] {
      assert p[0] == '/' && p[1..] == rest;
    } else {
      assert p[0] == head[0] != '/';
      assert p[1..] == head[1..] + "/" + rest;
      assert !HasChar(head[1..], '/') by {
        forall i | 0 <= i < |head[1..]| ensures head[1..][i] != '/' { assert head[1..][i] == head[i + 1]; }
      }
      SplitAt(head[1..], rest);
      assert [head[0]] + head[1..] == head;
    }
  }

  /** A string without "/" is a single piece. */
  lemma {:induction false} SplitWhole(s: string)
    requires !HasChar(s, '/')
    ensures Split(s) == [s]
    decreases |s|
  {
    if s != [] {
      assert s[0] != '/';
      assert !HasChar(s[1..], '/') by {
        forall i | 0 <= i < |s[1..]| ensures s[1..][i] != '/' { assert s[1..][i] == s[i + 1]; }
      }
      SplitWhole(s[1..]);
      assert [s[0]] + s[1..] == s;
    }
  }

  /** A path segment that `pathlib` keeps as it is. */
  predicate Segment(s: string) {
    s != "" && s != "." && !HasChar(s, '/')
  }

  predicate AllSegments(segs: seq<string>) {
    forall i :: 0 <= i < |segs| ==> Segment(segs[i])
  }

  /** The segments `str(Path(p))` keeps. */
  function Kept(parts: seq<string>): seq<string> {
    if parts == [] then []
    else (if parts[0] == "" || parts[0] == "." then [] else [parts[0]]) + Kept(parts[1..])
  }

  /** `"/".join(parts)` */
  function JoinWith(parts: seq<string>): string {
    if parts == [] then ""
    else if |parts| == 1 then parts[0]
    else parts[0] + "/" + JoinWith(parts[1..])
  }

  /** The root `pathlib` keeps. */
  function Root(p: string): string {
    if StartsWith(p, "//") && !StartsWith(p, "///") then "//"
    else if StartsWith(p, "/") then "/"
    else ""
  }

  /** `str(Path(p))` */
  function Normalize(p: string): string {
    var body := JoinWith(Kept(Split(p)));
    if Root(p) == "" && body == "" then "." else Root(p) + body
  }

  /** `Path(base) / name` before normalisation: an absolute `name` replaces `base`. */
  function Join(base: string, name: string): (r: string)
    ensures StartsWith(name, "/") ==> r == name
    ensures !StartsWith(name, "/") && base != "" && !EndsWith(base, "/") ==> r == base + "/" + name
  {
    if StartsWith(name, "/") then name
    else if base == "" || EndsWith(base, "/") then base + name
    else base + "/" + name
  }

  lemma {:induction false} SplitJoin(segs: seq<string>)
    requires segs != [] && AllSegments(segs)
    ensures Split(JoinWith(segs)) == segs
    decreases |segs|
  {
    if |segs| == 1 {
      assert Segment(segs[0]);
      SplitWhole(segs[0]);
    } else {
      assert Segment(segs[0]);
      SplitAt(segs[0], JoinWith(segs[1..]));
      assert AllSegments(segs[1..]) by {
        forall i | 0 <= i < |segs[1..]| ensures Segment(segs[1..][i]) { assert segs[1..][i] == segs[i + 1]; }
      }
      SplitJoin(segs[1..]);
      assert [segs[0]] + segs[1..] == segs;
    }
  }

  lemma {:induction false} KeptAll(segs: seq<string>)
    requires AllSegments(segs)
    ensures Kept(segs) == segs
    decreases |segs|
  {
    if segs != [] {
      assert Segment(segs[0]);
      assert AllSegments(segs[1..]) by {
        forall i | 0 <= i < |segs[1..]| ensures Segment(segs[1..][i]) { assert segs[1..][i] == segs[i + 1]; }
      }
      KeptAll(segs[1..]);
      assert [segs[0]] + segs[1..] == segs;
    }
  }

  lemma {:induction false} JoinWithSnoc(segs: seq<string>, last: string)
    requires segs != []
    ensures JoinWith(segs + [last]) == JoinWith(segs) + "/" + last
    decreases |segs|
  {
    if |segs| == 1 {
      assert segs + [last] == [segs[0], last];
    } else {
      assert (segs + [last])[1..] == segs[1..] + [last];
      JoinWithSnoc(segs[1..], last);
    }
  }

  lemma JoinWithHead(segs: seq<string>)
    requires segs != [] && segs[0] != ""
    ensures JoinWith(segs) != [] && JoinWith(segs)[0] == segs[0][0]
  {
  }

  /** An absolute path made of kept segments is its own `str(Path(p))`. */
  lemma NormalizeClean(segs: seq<string>)
    requires segs != [] && AllSegments(segs)
    ensures Normalize("/" + JoinWith(segs)) == "/" + JoinWith(segs)
  {
    var body := JoinWith(segs);
    var p := "/" + body;
    assert Segment(segs[0]);
    JoinWithHead(segs);
    assert body[0] != '/';
    assert p == "" + "/" + body;
    SplitAt("", body);
    SplitJoin(segs);
    KeptAll(segs);
    assert Kept(Split(p)) == segs;
    assert p[1] == body[0];
    assert Root(p) == "/";
  }

  lemma {:induction false} JoinWithLast(segs: seq<string>)
    requires segs != [] && segs[|segs| - 1] != ""
    ensures var j := JoinWith(segs); j != "" && j[|j| - 1] == segs[|segs| - 1][|segs[|segs| - 1]| - 1]
    decreases |segs|
  {
    if |segs| > 1 {
      JoinWithLast(segs[1..]);
    }
  }

  lemma AllSegmentsSnoc(segs: seq<string>, name: string)
    requires AllSegments(segs) && Segment(name)
    ensures AllSegments(segs + [name])
  {
    forall i | 0 <= i < |segs + [name]| ensures Segment((segs + [name])[i]) {
      if i < |segs| { assert (segs + [name])[i] == segs[i]; }
    }
  }

  /** Joining a segment onto an absolute path of segments adds it as the last segment. */
  lemma JoinSegment(segs: seq<string>, name: string)
    requires segs != [] && AllSegments(segs) && Segment(name)
    ensures Join("/" + JoinWith(segs), name) == "/" + JoinWith(segs + [name])
    ensures AllSegments(segs + [name])
  {
    var p := "/" + JoinWith(segs);
    assert Segment(segs[|segs| - 1]);
    JoinWithLast(segs);
    assert !EndsWith(p, "/") by { assert p[|p| - 1..][0] == p[|p| - 1] != '/'; }
    assert !StartsWith(name, "/") by { assert name[..1][0] == name[0] != '/'; }
    JoinWithSnoc(segs, name);
    AllSegmentsSnoc(segs, name);
  }

  /** Two segments joined under an absolute path of segments give an already normal path. */
  lemma UnderSegments(segs: seq<string>, sub: string, file: string)
    requires segs != [] && AllSegments(segs) && Segment(sub) && Segment(file)
    ensures Normalize(Join(Join("/" + JoinWith(segs), sub), file)) == "/" + JoinWith(segs) + "/" + sub + "/" + file
  {
    JoinSegment(segs, sub);
    JoinSegment(segs + [sub], file);
    NormalizeClean(segs + [sub] + [file]);
    JoinWithSnoc(segs, sub);
    JoinWithSnoc(segs + [sub], file);
  }
}
