/** Node's POSIX `path` functions that the server and its example
    configuration rely on: `path.join` (with `path.normalize`),
    `path.basename` and `path.extname`, on '/'-separated strings. */
module Paths {

  /** The pieces of `s` between '/' characters, in order: "/a//b" gives
      ["", "a", "", "b"]. */
  function Split(s: string): (r: seq<string>)
    ensures |r| > 0
    ensures forall i :: 0 <= i < |r| ==> '/' !in r[i]
    decreases |s|
  {
    if |s| == 0 then [""]
    else if s[0] == '/' then [""] + Split(s[1..])
    else
      var t := Split(s[1..]);
      [[s[0]] + t[0]] + t[1..]
  }

  /** The pieces written out with one '/' between neighbours. */
  function JoinSegs(xs: seq<string>): string {
    if |xs| == 0 then ""
    else if |xs| == 1 then xs[0]
    else xs[0] + "/" + JoinSegs(xs[1..])
  }

  /** Splitting and joining again gives back the string. */
  lemma {:induction false} JoinSegsSplit(s: string)
    ensures JoinSegs(Split(s)) == s
    decreases |s|
  {
    if |s| > 0 {
      JoinSegsSplit(s[1..]);
      if s[0] != '/' {
        var t := Split(s[1..]);
        if |t| > 1 {
          assert JoinSegs(t) == t[0] + "/" + JoinSegs(t[1..]);
        }
      }
    }
  }

  /** Splitting at a '/' splits each side on its own. */
  lemma {:induction false} SplitConcat(a: string, b: string)
    ensures Split(a + "/" + b) == Split(a) + Split(b)
    decreases |a|
  {
    var s := a + "/" + b;
    if |a| == 0 {
      assert s[1..] == b;
    } else {
      assert s[1..] == a[1..] + "/" + b;
      SplitConcat(a[1..], b);
    }
  }

  /** A string without '/' is one piece. */
  lemma {:induction false} SplitPlain(a: string)
    requires '/' !in a
    ensures Split(a) == [a]
    decreases |a|
  {
    if |a| > 0 {
      SplitPlain(a[1..]);
      assert [a[0]] + a[1..] == a;
    }
  }

  /** Joining pieces that hold no '/' and splitting again gives back the pieces. */
  lemma {:induction false} SplitJoinSegs(xs: seq<string>)
    requires |xs| > 0
    requires forall i :: 0 <= i < |xs| ==> '/' !in xs[i]
    ensures Split(JoinSegs(xs)) == xs
  {
    if |xs| == 1 {
      SplitPlain(xs[0]);
    } else {
      SplitJoinSegs(xs[1..]);
      SplitConcat(xs[0], JoinSegs(xs[1..]));
      SplitPlain(xs[0]);
    }
  }

  lemma {:induction false} JoinSegsAppend(a: seq<string>, b: seq<string>)
    requires |a| > 0 && |b| > 0
    ensures JoinSegs(a + b) == JoinSegs(a) + "/" + JoinSegs(b)
  {
    if |a| > 1 {
      assert (a + b)[1..] == a[1..] + b;
      JoinSegsAppend(a[1..], b);
    } else {
      assert (a + b)[1..] == b;
    }
  }

  /** A piece that `normalize` keeps as it is. */
  predicate Plain(s: string) {
    s != "" && s != "." && s != ".." && '/' !in s
  }

  predicate AllPlain(xs: seq<string>) {
    forall i :: 0 <= i < |xs| ==> Plain(xs[i])
  }

  lemma AllPlainAppend(a: seq<string>, b: seq<string>)
    requires AllPlain(a) && AllPlain(b)
    ensures AllPlain(a + b)
  {
    assert forall i :: |a| <= i < |a + b| ==> (a + b)[i] == b[i - |a|];
  }

  /** The joined pieces end with the last piece. */
  lemma {:induction false} JoinSegsLast(xs: seq<string>)
    requires |xs| > 0
    ensures var s := JoinSegs(xs); var l := xs[|xs| - 1]; |l| <= |s| && s[|s| - |l|..] == l
  {
    if |xs| > 1 {
      JoinSegsLast(xs[1..]);
    }
  }

  /** One piece of Node's `normalizeString`: "" and "." vanish, ".." removes
      the last kept piece when that is not itself "..", and otherwise is kept
      only when the path is relative (`aboveRoot`); any other piece is kept. */
  function Step(acc: seq<string>, seg: string, aboveRoot: bool): seq<string> {
    if seg == "" || seg == "." then acc
    else if seg == ".." then
      if |acc| > 0 && acc[|acc| - 1] != ".." then acc[..|acc| - 1]
      else if aboveRoot then acc + [".."]
      else acc
    else acc + [seg]
  }

  /** `Step` applied to each piece of `segs` in order, starting from `acc`. */
  function Collapse(acc: seq<string>, segs: seq<string>, aboveRoot: bool): seq<string>
    decreases |segs|
  {
    if |segs| == 0 then acc
    else Step(Collapse(acc, segs[..|segs| - 1], aboveRoot), segs[|segs| - 1], aboveRoot)
  }

  lemma {:induction false} CollapseAppend(acc: seq<string>, a: seq<string>, b: seq<string>, aboveRoot: bool)
    ensures Collapse(acc, a + b, aboveRoot) == Collapse(Collapse(acc, a, aboveRoot), b, aboveRoot)
    decreases |b|
  {
    if |b| == 0 {
      assert a + b == a;
    } else {
      assert (a + b)[..|a + b| - 1] == a + b[..|b| - 1];
      CollapseAppend(acc, a, b[..|b| - 1], aboveRoot);
    }
  }

  /** Plain pieces are kept one after another. */
  lemma {:induction false} CollapsePlain(acc: seq<string>, xs: seq<string>, aboveRoot: bool)
    requires AllPlain(xs)
    ensures Collapse(acc, xs, aboveRoot) == acc + xs
    decreases |xs|
  {
    if |xs| > 0 {
      var init := xs[..|xs| - 1];
      CollapsePlain(acc, init, aboveRoot);
      assert acc + init + [xs[|xs| - 1]] == acc + xs;
    }
  }

  /** Without a ".." piece nothing already kept is removed. */
  lemma {:induction false} CollapseKeepsPrefix(acc: seq<string>, xs: seq<string>, aboveRoot: bool)
    requires ".." !in xs
    ensures acc <= Collapse(acc, xs, aboveRoot)
    decreases |xs|
  {
    if |xs| > 0 {
      assert xs[|xs| - 1] in xs;
      var init := xs[..|xs| - 1];
      assert forall s :: s in init ==> s in xs;
      CollapseKeepsPrefix(acc, init, aboveRoot);
    }
  }

  /** `path.normalize(p)`. */
  function Normalize(p: string): (r: string)
    // never empty; a leading and a trailing separator survive
    ensures r != ""
    ensures |p| > 0 && p[0] == '/' ==> r[0] == '/'
    ensures |p| > 0 && p[|p| - 1] == '/' ==> r[|r| - 1] == '/'
  {
    if |p| == 0 then "."
    else
      var absolute := p[0] == '/';
      var trailing := p[|p| - 1] == '/';
      var body := JoinSegs(Collapse([], Split(p), !absolute));
      if body == "" then (if absolute then "/" else if trailing then "./" else ".")
      else (if absolute then "/" else "") + body + (if trailing then "/" else "")
  }

  /** The non-empty arguments of `path.join` with '/' between them. */
  function JoinArgs(args: seq<string>): string {
    if |args| == 0 then ""
    else if args[0] == "" then JoinArgs(args[1..])
    else
      var rest := JoinArgs(args[1..]);
      if rest == "" then args[0] else args[0] + "/" + rest
  }

  /** `path.join(...args)` (Node gives "." when every argument is empty). */
  function Join(args: seq<string>): (r: string)
    // never empty; absolute when the first argument is
    ensures r != ""
    ensures |args| > 0 && |args[0]| > 0 && args[0][0] == '/' ==> r[0] == '/'
  {
    Normalize(JoinArgs(args))
  }

  /** The absolute path whose pieces are `segs`. */
  function Absolute(segs: seq<string>): string {
    "/" + JoinSegs(segs)
  }

  lemma {:induction false} JoinArgsPlain(names: seq<string>)
    requires AllPlain(names)
    ensures JoinArgs(names) == JoinSegs(names)
  {
    if |names| > 0 {
      JoinArgsPlain(names[1..]);
    }
  }

  /** The pieces of an absolute path: an empty one before the root, then `segs`. */
  lemma SplitAbsolute(segs: seq<string>)
    requires |segs| > 0 && forall i :: 0 <= i < |segs| ==> '/' !in segs[i]
    ensures Split(Absolute(segs)) == [""] + segs
  {
    var j := JoinSegs(segs);
    assert Absolute(segs) == "" + "/" + j;
    SplitConcat("", j);
    SplitJoinSegs(segs);
  }

  /** An absolute path of plain pieces does not end in '/'. */
  lemma AbsoluteEnd(segs: seq<string>)
    requires |segs| > 0 && AllPlain(segs)
    ensures JoinSegs(segs) != ""
    ensures Absolute(segs)[|Absolute(segs)| - 1] != '/'
  {
    var j := JoinSegs(segs);
    JoinSegsLast(segs);
    var l := segs[|segs| - 1];
    assert Plain(l);
    assert j[|j| - 1] == l[|l| - 1];
  }

  /** `normalize` leaves an absolute path of plain pieces as it is. */
  lemma NormalizeAbsolute(segs: seq<string>)
    requires |segs| > 0 && AllPlain(segs)
    ensures Normalize(Absolute(segs)) == Absolute(segs)
  {
    var p := Absolute(segs);
    assert forall i :: 0 <= i < |segs| ==> Plain(segs[i]);
    SplitAbsolute(segs);
    CollapseAppend([], [""], segs, false);
    assert Collapse([], [""], false) == [];
    CollapsePlain([], segs, false);
    assert Collapse([], Split(p), false) == segs;
    AbsoluteEnd(segs);
  }

  /** Joining plain names under a normalized absolute directory puts exactly
      one '/' before each name. */
  lemma JoinPlain(root: seq<string>, names: seq<string>)
    requires |root| > 0 && AllPlain(root) && AllPlain(names)
    ensures Join([Absolute(root)] + names) == Absolute(root + names)
  {
    var args := [Absolute(root)] + names;
    JoinArgsPlain(names);
    assert args[1..] == names;
    if |names| > 0 {
      JoinSegsLast(names);
      assert JoinSegs(names) != "";
      JoinSegsAppend(root, names);
      assert JoinArgs(args) == Absolute(root + names);
    } else {
      assert root + names == root;
      assert JoinArgs(args) == Absolute(root + names);
    }
    assert AllPlain(root + names);
    NormalizeAbsolute(root + names);
  }

  /** Joining plain names and then a last argument `p` under an absolute
      directory normalizes the directory, the names and `p` strung together. */
  lemma JoinThen(root: seq<string>, names: seq<string>, p: string)
    requires |root| > 0 && AllPlain(root) && AllPlain(names) && p != ""
    ensures Join([Absolute(root)] + names + [p]) == Normalize(Absolute(root + names) + "/" + p)
  {
    JoinArgsTail(names, p);
    var args := [Absolute(root)] + names + [p];
    assert args[1..] == names + [p];
    if |names| > 0 {
      JoinSegsAppend(root, names);
      assert JoinArgs(args) == Absolute(root + names) + "/" + p;
    } else {
      assert root + names == root;
      assert JoinArgs(args) == Absolute(root + names) + "/" + p;
    }
  }

  lemma {:induction false} JoinArgsTail(names: seq<string>, p: string)
    requires AllPlain(names) && p != ""
    ensures JoinArgs(names + [p]) == if |names| == 0 then p else JoinSegs(names) + "/" + p
  {
    if |names| == 0 {
      assert names + [p] == [p];
    } else {
      assert (names + [p])[1..] == names[1..] + [p];
      JoinArgsTail(names[1..], p);
    }
  }

  /** One more piece at the end of an absolute path. */
  lemma AbsoluteAppend(segs: seq<string>, name: string)
    requires |segs| > 0
    ensures Absolute(segs + [name]) == Absolute(segs) + "/" + name
  {
    JoinSegsAppend(segs, [name]);
  }

  /** `q` names `dir` itself or something inside it. */
  predicate Within(dir: string, q: string) {
    dir <= q && (|q| == |dir| || q[|dir|] == '/')
  }

  lemma SplitUnder(base: seq<string>, p: string)
    requires |base| > 0 && AllPlain(base)
    ensures Split(Absolute(base) + "/" + p) == [""] + base + Split(p)
  {
    var dir := Absolute(base);
    SplitConcat(dir, p);
    assert dir == "" + "/" + JoinSegs(base);
    SplitConcat("", JoinSegs(base));
    SplitJoinSegs(base);
  }

  lemma CollapseUnder(base: seq<string>, xs: seq<string>)
    requires AllPlain(base)
    ensures Collapse([], [""] + base + xs, false) == Collapse(base, xs, false)
  {
    CollapseAppend([], [""] + base, xs, false);
    CollapseAppend([], [""], base, false);
    assert [""][..0] == [];
    assert Collapse([], [""], false) == [];
    CollapsePlain([], base, false);
    assert Collapse([], [""] + base, false) == base;
  }

  /** Plain pieces joined and extended stay below the joined pieces. */
  lemma PrefixWithin(base: seq<string>, kept: seq<string>)
    requires |base| > 0 && AllPlain(base) && base <= kept
    ensures JoinSegs(kept) != "" && Within(JoinSegs(base), JoinSegs(kept))
  {
    AbsoluteEnd(base);
    if |kept| > |base| {
      assert kept == base + kept[|base|..];
      JoinSegsAppend(base, kept[|base|..]);
    } else {
      assert kept == base;
    }
  }

  lemma WithinRooted(d: string, b: string, t: string)
    requires Within(d, b) && (t == "" || t == "/")
    ensures Within("/" + d, "/" + b + t)
  {
    var q := "/" + b + t;
    assert q[1..|b| + 1] == b;
  }

  /** `normalize` of an absolute path whose kept pieces are not empty. */
  lemma NormalizeRooted(s: string)
    requires |s| > 0 && s[0] == '/' && JoinSegs(Collapse([], Split(s), false)) != ""
    ensures Normalize(s) == "/" + JoinSegs(Collapse([], Split(s), false)) + (if s[|s| - 1] == '/' then "/" else "")
  {
  }

  /** Normalizing a path below a directory stays inside that directory as
      long as the path has no ".." piece. */
  lemma NormalizeWithin(base: seq<string>, p: string)
    requires |base| > 0 && AllPlain(base)
    requires ".." !in Split(p)
    ensures Within(Absolute(base), Normalize(Absolute(base) + "/" + p))
  {
    var s := Absolute(base) + "/" + p;
    SplitUnder(base, p);
    CollapseUnder(base, Split(p));
    CollapseKeepsPrefix(base, Split(p), false);
    var kept := Collapse([], Split(s), false);
    PrefixWithin(base, kept);
    NormalizeRooted(s);
    WithinRooted(JoinSegs(base), JoinSegs(kept), if s[|s| - 1] == '/' then "/" else "");
  }

  /** The text after the last '/' of `s`. */
  function LastSegment(s: string): (r: string)
    ensures '/' !in r
    ensures |r| <= |s| && r == s[|s| - |r|..]
  {
    if |s| == 0 || s[|s| - 1] == '/' then ""
    else LastSegment(s[..|s| - 1]) + [s[|s| - 1]]
  }

  /** `s` without the '/' characters at its end. */
  function TrimTrailingSlashes(s: string): (r: string)
    ensures r <= s
    ensures r == "" || r[|r| - 1] != '/'
  {
    if |s| > 0 && s[|s| - 1] == '/' then TrimTrailingSlashes(s[..|s| - 1]) else s
  }

  /** `path.basename(p)`: the last piece, trailing separators ignored. */
  function Basename(p: string): string {
    LastSegment(TrimTrailingSlashes(p))
  }

  /** The position of the last '.' in `s`, or -1. */
  function LastDot(s: string): (r: int)
    ensures -1 <= r < |s|
    ensures r >= 0 ==> s[r] == '.'
    ensures forall i :: r < i < |s| ==> s[i] != '.'
  {
    if |s| == 0 then -1
    else if s[|s| - 1] == '.' then |s| - 1
    else LastDot(s[..|s| - 1])
  }

  /** `path.extname(p)`: from the last '.' of the base name to its end; empty
      when the base name has no '.', starts with its only '.', or is "..". */
  function Extname(p: string): (r: string)
    ensures r == "" || (r[0] == '.' && '/' !in r && forall i :: 0 < i < |r| ==> r[i] != '.')
    ensures r != "" ==> var name := Basename(p); |r| < |name| && name[|name| - |r|..] == r
  {
    var name := Basename(p);
    var dot := LastDot(name);
    if dot <= 0 || name == ".." then "" else name[dot..]
  }

  lemma {:induction false} LastSegmentAfterSlash(a: string, b: string)
    requires '/' !in b
    ensures LastSegment(a + "/" + b) == b
    decreases |b|
  {
    var s := a + "/" + b;
    if |b| == 0 {
      assert s[|s| - 1] == '/';
    } else {
      var c := b[|b| - 1];
      assert s[|s| - 1] == c;
      assert c in b;
      assert s[..|s| - 1] == a + "/" + b[..|b| - 1];
      assert '/' !in b[..|b| - 1] by {
        assert forall x :: x in b[..|b| - 1] ==> x in b;
      }
      LastSegmentAfterSlash(a, b[..|b| - 1]);
      assert LastSegment(s) == LastSegment(s[..|s| - 1]) + [c];
      assert b[..|b| - 1] + [c] == b;
    }
  }

  /** The base name of `dir/name` is `name`. */
  lemma BasenameOfName(dir: string, name: string)
    requires name != "" && '/' !in name
    ensures Basename(dir + "/" + name) == name
  {
    var p := dir + "/" + name;
    assert p[|p| - 1] == name[|name| - 1];
    assert name[|name| - 1] in name;
    assert TrimTrailingSlashes(p) == p;
    LastSegmentAfterSlash(dir, name);
  }

  lemma {:induction false} LastDotOfSuffix(a: string, b: string)
    requires |b| > 0 && b[0] == '.' && forall i :: 0 < i < |b| ==> b[i] != '.'
    ensures LastDot(a + b) == |a|
    decreases |b|
  {
    var s := a + b;
    if |b| > 1 {
      assert s[..|s| - 1] == a + b[..|b| - 1];
      LastDotOfSuffix(a, b[..|b| - 1]);
    }
  }

  lemma {:induction false} LastDotNone(s: string)
    requires '.' !in s
    ensures LastDot(s) == -1
    decreases |s|
  {
    if |s| > 0 {
      assert s[|s| - 1] in s;
      assert forall c :: c in s[..|s| - 1] ==> c in s;
      LastDotNone(s[..|s| - 1]);
    }
  }

  /** A file name `stem + ext` at the end of a path has extension `ext`. */
  lemma ExtnameOfName(dir: string, stem: string, ext: string)
    requires |ext| > 0 && ext[0] == '.' && '/' !in ext
    requires forall i :: 0 < i < |ext| ==> ext[i] != '.'
    requires stem != "" && stem != "." && '/' !in stem
    ensures Extname(dir + "/" + stem + ext) == ext
  {
    var name := stem + ext;
    assert dir + "/" + stem + ext == dir + "/" + name;
    assert '/' !in name by {
      assert forall x :: x in name ==> x in stem || x in ext;
    }
    BasenameOfName(dir, name);
    LastDotOfSuffix(stem, ext);
    assert name != ".." by {
      if |name| == 2 {
        assert |stem| == 1 && stem[0] == name[0];
      }
    }
    assert name[|stem|..] == ext;
  }

  /** A last piece without '.' has no extension. */
  lemma ExtnameNone(dir: string, name: string)
    requires name != "" && '/' !in name && '.' !in name
    ensures Extname(dir + "/" + name) == ""
  {
    BasenameOfName(dir, name);
    LastDotNone(name);
  }
}
