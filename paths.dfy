/** Node's POSIX `path` functions used by the build helper: `normalize`,
    `join`, `resolve` and `relative`, over paths split at '/' into segments.

    Normalisation is a left fold over the segments: empty segments and "."
    are dropped, ".." removes the last kept segment unless that is itself
    "..", and otherwise (at the start of a relative path) is kept or (at the
    root of an absolute path) dropped. The working directory of the process
    is a parameter: a sequence of plain segments. */
module Paths {

  /** An ordinary segment: not empty, no separator, neither "." nor "..". */
  predicate Plain(seg: string) {
    seg != "" && seg != "." && seg != ".." && '/' !in seg
  }

  predicate AllPlain(segs: seq<string>) {
    forall i :: 0 <= i < |segs| ==> Plain(segs[i])
  }

  /** The working directory `process.cwd()`, as its segments below the root. */
  type Cwd = segs: seq<string> | AllPlain(segs) witness []

  /** A segment kept by normalisation: not empty, not ".", no separator
      (".." is allowed: a relative path may climb above its start). */
  predicate Kept(seg: string) {
    seg != "" && seg != "." && '/' !in seg
  }

  predicate AllKept(segs: seq<string>) {
    forall i :: 0 <= i < |segs| ==> Kept(segs[i])
  }

  predicate NoSlash(segs: seq<string>) {
    forall i :: 0 <= i < |segs| ==> '/' !in segs[i]
  }

  function IndexOfSlash(s: string): (i: nat)
    requires '/' in s
    ensures i < |s| && s[i] == '/' && '/' !in s[..i]
  {
    if s[0] == '/' then 0
    else
      assert s == [s[0]] + s[1..];
      var j := IndexOfSlash(s[1..]);
      assert s[..1 + j] == [s[0]] + s[1..][..j];
      1 + j
  }

  /** `s.split('/')`: the pieces between separators, at least one. */
  function Split(s: string): (r: seq<string>)
    decreases |s|
    ensures |r| >= 1 && NoSlash(r)
  {
    if '/' !in s then [s]
    else
      var i := IndexOfSlash(s);
      [s[..i]] + Split(s[i + 1..])
  }

  /** `segs.join('/')`. */
  function Concat(segs: seq<string>): string {
    if segs == [] then ""
    else if |segs| == 1 then segs[0]
    else segs[0] + "/" + Concat(segs[1..])
  }

  predicate IsAbsolute(p: string) {
    |p| > 0 && p[0] == '/'
  }

  /** One step of Node's `normalizeString`: how segment `seg` changes the
      segments kept so far; `aboveRoot` says whether ".." may be kept. */
  function Step(acc: seq<string>, seg: string, aboveRoot: bool): seq<string> {
    if seg == "" || seg == "." then acc
    else if seg == ".." then
      if |acc| > 0 && acc[|acc| - 1] != ".." then acc[..|acc| - 1]
      else if aboveRoot then acc + [".."]
      else acc
    else acc + [seg]
  }

  function Fold(segs: seq<string>, acc: seq<string>, aboveRoot: bool): seq<string>
    decreases |segs|
  {
    if segs == [] then acc else Fold(segs[1..], Step(acc, segs[0], aboveRoot), aboveRoot)
  }

  /** `path.normalize(p)`. */
  function Normalize(p: string): string {
    if p == "" then "."
    else
      var abs := IsAbsolute(p);
      var trailing := p[|p| - 1] == '/';
      var body := Concat(Fold(Split(p), [], !abs));
      if body == "" then (if abs then "/" else if trailing then "./" else ".")
      else (if abs then "/" else "") + body + (if trailing then "/" else "")
  }

  function NonEmpty(parts: seq<string>): (r: seq<string>)
    ensures forall i :: 0 <= i < |r| ==> r[i] != ""
  {
    if parts == [] then []
    else if parts[0] == "" then NonEmpty(parts[1..])
    else [parts[0]] + NonEmpty(parts[1..])
  }

  /** `path.join(...parts)`: the non-empty parts joined by '/', normalised
      ("." when nothing is left). */
  function Join(parts: seq<string>): string {
    Normalize(Concat(NonEmpty(parts)))
  }

  /** The segments of `path.resolve(p)`: `p` itself when absolute, else `p`
      below the working directory; ".." never climbs above the root. */
  function Resolve(cwd: Cwd, p: string): seq<string> {
    var cwdPath := "/" + Concat(cwd);
    var full := if IsAbsolute(p) then p else if p == "" then cwdPath else cwdPath + "/" + p;
    Fold(Split(full), [], false)
  }

  function CommonPrefix(a: seq<string>, b: seq<string>): (k: nat)
    ensures k <= |a| && k <= |b| && a[..k] == b[..k]
    ensures k < |a| && k < |b| ==> a[k] != b[k]
  {
    if a == [] || b == [] || a[0] != b[0] then 0
    else
      var k := 1 + CommonPrefix(a[1..], b[1..]);
      assert a[..k] == [a[0]] + a[1..][..k - 1];
      assert b[..k] == [b[0]] + b[1..][..k - 1];
      k
  }

  function Ups(n: nat): (r: seq<string>)
    ensures |r| == n && forall i :: 0 <= i < n ==> r[i] == ".."
  {
    if n == 0 then [] else Ups(n - 1) + [".."]
  }

  /** `path.relative(from, to)`: climb out of what `from` does not share
      with `to`, then descend into the rest of `to`. */
  function Relative(cwd: Cwd, from: string, to: string): string {
    if from == to then ""
    else
      var f := Resolve(cwd, from);
      var t := Resolve(cwd, to);
      var k := CommonPrefix(f, t);
      Concat(Ups(|f| - k) + t[k..])
  }

  // ---------------------------------------------------------------------
  // Splitting and joining

  /** Splitting at the first separator. */
  lemma SplitAt(s: string, i: nat)
    requires i < |s| && s[i] == '/' && '/' !in s[..i]
    ensures Split(s) == [s[..i]] + Split(s[i + 1..])
  {
    IndexOfSlashUnique(s, i);
  }

  lemma {:induction false} SplitAppend(a: string, b: string)
    ensures Split(a + "/" + b) == Split(a) + Split(b)
    decreases |a|
  {
    var s := a + "/" + b;
    if '/' !in a {
      assert s[..|a|] == a && s[|a|] == '/';
      assert s[|a| + 1..] == b;
      SplitAt(s, |a|);
    } else {
      var i := IndexOfSlash(a);
      var rest := a[i + 1..];
      assert s[..i] == a[..i] && s[i] == '/';
      assert s[i + 1..] == rest + "/" + b;
      calc {
        Split(s);
        { SplitAt(s, i); }
        [a[..i]] + Split(rest + "/" + b);
        { SplitAppend(rest, b); }
        [a[..i]] + (Split(rest) + Split(b));
        ([a[..i]] + Split(rest)) + Split(b);
        { SplitAt(a, i); }
        Split(a) + Split(b);
      }
    }
  }

  lemma IndexOfSlashUnique(s: string, i: nat)
    requires i < |s| && s[i] == '/' && '/' !in s[..i]
    ensures IndexOfSlash(s) == i
  {
  }

  lemma {:induction false} SplitConcat(segs: seq<string>)
    requires |segs| >= 1 && NoSlash(segs)
    ensures Split(Concat(segs)) == segs
  {
    if |segs| > 1 {
      SplitAppend(segs[0], Concat(segs[1..]));
      SplitConcat(segs[1..]);
      assert segs == [segs[0]] + segs[1..];
    }
  }

  lemma {:induction false} ConcatEmpty(segs: seq<string>)
    requires forall i :: 0 <= i < |segs| ==> segs[i] != ""
    ensures Concat(segs) == "" <==> segs == []
    ensures segs != [] ==> Concat(segs)[0] == segs[0][0]
  {
    if |segs| > 1 {
      ConcatEmpty(segs[1..]);
    }
  }

  // ---------------------------------------------------------------------
  // The fold

  lemma {:induction false} FoldAppend(xs: seq<string>, ys: seq<string>, acc: seq<string>, aboveRoot: bool)
    ensures Fold(xs + ys, acc, aboveRoot) == Fold(ys, Fold(xs, acc, aboveRoot), aboveRoot)
    decreases |xs|
  {
    if xs != [] {
      assert (xs + ys)[0] == xs[0] && (xs + ys)[1..] == xs[1..] + ys;
      FoldAppend(xs[1..], ys, Step(acc, xs[0], aboveRoot), aboveRoot);
    } else {
      assert xs + ys == ys;
    }
  }

  /** Plain segments are simply kept. */
  lemma {:induction false} FoldPlain(ys: seq<string>, acc: seq<string>, aboveRoot: bool)
    requires AllPlain(ys)
    ensures Fold(ys, acc, aboveRoot) == acc + ys
    decreases |ys|
  {
    if ys != [] {
      FoldPlain(ys[1..], acc + [ys[0]], aboveRoot);
      assert acc + [ys[0]] + ys[1..] == acc + ys;
    }
  }

  /** Empty and "." segments change nothing. */
  lemma {:induction false} FoldSkips(n: nat, acc: seq<string>, aboveRoot: bool, seg: string)
    requires seg == "" || seg == "."
    ensures Fold(seq(n, _ => seg), acc, aboveRoot) == acc
  {
    if n > 0 {
      assert seq(n, _ => seg)[1..] == seq(n - 1, _ => seg);
      FoldSkips(n - 1, acc, aboveRoot, seg);
    }
  }

  /** Below the root, normalising plain segments keeps them plain. */
  lemma {:induction false} FoldAtRootPlain(xs: seq<string>, acc: seq<string>)
    requires AllPlain(acc) && NoSlash(xs)
    ensures AllPlain(Fold(xs, acc, false))
    decreases |xs|
  {
    if xs != [] {
      FoldAtRootPlain(xs[1..], Step(acc, xs[0], false));
    }
  }

  /** A relative normalisation keeps only kept segments. */
  lemma {:induction false} FoldKept(xs: seq<string>, acc: seq<string>)
    requires AllKept(acc) && NoSlash(xs)
    ensures AllKept(Fold(xs, acc, true))
    decreases |xs|
  {
    if xs != [] {
      FoldKept(xs[1..], Step(acc, xs[0], true));
    }
  }

  /** One step of the relative normal form, replayed below any start, has
      the effect of the original segment. */
  lemma StepAboveThenFold(b: seq<string>, x: string, acc: seq<string>)
    requires AllKept(b)
    ensures Fold(Step(b, x, true), acc, false) == Fold(b + [x], acc, false)
  {
    FoldAppend(b, [x], acc, false);
    if x == ".." && |b| > 0 && b[|b| - 1] != ".." {
      var b' := b[..|b| - 1];
      var p := b[|b| - 1];
      assert b == b' + [p];
      FoldAppend(b', [p], acc, false);
      FoldAppend(b', [p, x], acc, false);
      var m := Fold(b', acc, false);
      assert Fold([p], m, false) == m + [p];
      assert Fold(b, acc, false) == m + [p];
      assert (m + [p])[..|m + [p]| - 1] == m;
    }
  }

  /** A step of a relative path's normalisation keeps only kept segments. */
  lemma StepKept(b: seq<string>, x: string)
    requires AllKept(b) && '/' !in x
    ensures AllKept(Step(b, x, true))
  {
  }

  /** Resolving the relative normal form of `xs` below `acc` is resolving
      `xs` itself there. */
  lemma {:induction false} FoldAboveThenFold(xs: seq<string>, b: seq<string>, acc: seq<string>)
    requires AllKept(b) && NoSlash(xs)
    ensures Fold(Fold(xs, b, true), acc, false) == Fold(b + xs, acc, false)
    decreases |xs|
  {
    if xs == [] {
      assert b + xs == b;
    } else {
      var x, rest := xs[0], xs[1..];
      var b' := Step(b, x, true);
      StepKept(b, x);
      assert b + [x] + rest == b + xs;
      calc {
        Fold(Fold(xs, b, true), acc, false);
        Fold(Fold(rest, b', true), acc, false);
        { FoldAboveThenFold(rest, b', acc); }
        Fold(b' + rest, acc, false);
        { FoldAppend(b', rest, acc, false); }
        Fold(rest, Fold(b', acc, false), false);
        { StepAboveThenFold(b, x, acc); }
        Fold(rest, Fold(b + [x], acc, false), false);
        { FoldAppend(b + [x], rest, acc, false); }
        Fold(b + xs, acc, false);
      }
    }
  }

  // ---------------------------------------------------------------------
  // Resolution

  lemma SplitRooted(x: string)
    ensures Split("/" + x) == [""] + Split(x)
  {
    SplitAppend("", x);
    assert "" + "/" + x == "/" + x;
  }

  /** The working directory's own path resolves to its segments. */
  lemma ResolveCwd(cwd: Cwd)
    ensures Fold(Split("/" + Concat(cwd)), [], false) == cwd
  {
    SplitRooted(Concat(cwd));
    if cwd == [] {
      assert Split("") == [""];
    } else {
      SplitConcat(cwd);
      FoldAppend([""], cwd, [], false);
      FoldPlain(cwd, [], false);
    }
  }

  /** A relative path resolves by folding its segments below the working
      directory. */
  lemma ResolveRelative(cwd: Cwd, p: string)
    requires !IsAbsolute(p)
    ensures Resolve(cwd, p) == Fold(Split(p), cwd, false)
  {
    var cwdPath := "/" + Concat(cwd);
    ResolveCwd(cwd);
    if p == "" {
      assert Split(p) == [""];
    } else {
      SplitAppend(cwdPath, p);
      FoldAppend(Split(cwdPath), Split(p), [], false);
    }
  }

  /** Appending one separator adds one empty segment. */
  lemma SplitTrailing(x: string)
    ensures Split(x + "/") == Split(x) + [""]
  {
    SplitAppend(x, "");
    assert x + "/" + "" == x + "/";
  }

  lemma NormalizeResolvesAbsolute(cwd: Cwd, p: string)
    requires IsAbsolute(p)
    ensures Resolve(cwd, Normalize(p)) == Resolve(cwd, p)
  {
    var n := Fold(Split(p), [], false);
    var body := Concat(n);
    var q := Normalize(p);
    FoldAtRootPlain(Split(p), []);
    ConcatEmpty(n);
    if n == [] {
      assert q == "/";
      SplitRooted("");
      assert Split("") == [""];
      assert Fold(Split(q), [], false) == [];
    } else {
      SplitConcat(n);
      SplitRooted(body);
      FoldAppend([""], n, [], false);
      FoldPlain(n, [], false);
      assert Fold(Split("/" + body), [], false) == n;
      if p[|p| - 1] == '/' {
        assert q == "/" + body + "/";
        SplitTrailing("/" + body);
        FoldAppend(Split("/" + body), [""], [], false);
      } else {
        assert q == "/" + body;
      }
    }
  }

  /** The text a relative normal form is printed as resolves like the
      normal form's segments themselves. */
  lemma ResolveRelativeForm(cwd: Cwd, n: seq<string>, trailing: bool)
    requires AllKept(n)
    ensures var q := if n == [] then (if trailing then "./" else ".")
                     else Concat(n) + (if trailing then "/" else "");
            Resolve(cwd, q) == Fold(n, cwd, false)
  {
    ConcatEmpty(n);
    if n == [] {
      assert Split(".") == ["."];
      if trailing {
        SplitTrailing(".");
        assert "." + "/" == "./";
        assert Fold([".", ""], cwd, false) == cwd;
        ResolveRelative(cwd, "./");
      } else {
        ResolveRelative(cwd, ".");
      }
    } else {
      var body := Concat(n);
      SplitConcat(n);
      if trailing {
        SplitTrailing(body);
        FoldAppend(n, [""], cwd, false);
        ResolveRelative(cwd, body + "/");
      } else {
        assert body + "" == body;
        ResolveRelative(cwd, body);
      }
    }
  }

  lemma NormalizeResolvesRelative(cwd: Cwd, p: string)
    requires p != "" && !IsAbsolute(p)
    ensures Resolve(cwd, Normalize(p)) == Resolve(cwd, p)
  {
    var n := Fold(Split(p), [], true);
    var trailing := p[|p| - 1] == '/';
    var q := if n == [] then (if trailing then "./" else ".")
             else Concat(n) + (if trailing then "/" else "");
    FoldKept(Split(p), []);
    assert Normalize(p) == q by {
      ConcatEmpty(n);
    }
    calc {
      Resolve(cwd, q);
      { ResolveRelativeForm(cwd, n, trailing); }
      Fold(n, cwd, false);
      { FoldAboveThenFold(Split(p), [], cwd); }
      Fold([] + Split(p), cwd, false);
      { assert [] + Split(p) == Split(p); }
      Fold(Split(p), cwd, false);
      { ResolveRelative(cwd, p); }
      Resolve(cwd, p);
    }
  }

  /** Normalising a path does not change where it resolves to. */
  lemma NormalizeResolves(cwd: Cwd, p: string)
    ensures Resolve(cwd, Normalize(p)) == Resolve(cwd, p)
  {
    if p == "" {
      ResolveRelative(cwd, ".");
      ResolveRelative(cwd, "");
    } else if IsAbsolute(p) {
      NormalizeResolvesAbsolute(cwd, p);
    } else {
      NormalizeResolvesRelative(cwd, p);
    }
  }

  lemma JoinTwo(dir: string, r: string)
    requires r != ""
    ensures Join([dir, r]) == Normalize(if dir == "" then r else dir + "/" + r)
  {
    assert [dir, r][1..] == [r] && [r][1..] == [];
    assert NonEmpty([r]) == [r] + NonEmpty([]) == [r];
    assert Concat([dir, r]) == dir + "/" + Concat([r]);
    if dir == "" {
      assert NonEmpty([dir, r]) == [r];
    } else {
      assert NonEmpty([dir, r]) == [dir, r];
    }
  }

  /** Appending plain segments to a path appends them to its resolution. */
  lemma ResolveAppend(cwd: Cwd, dir: string, rel: seq<string>)
    requires |rel| >= 1 && AllPlain(rel)
    ensures var r := Concat(rel);
            Resolve(cwd, if dir == "" then r else dir + "/" + r) == Resolve(cwd, dir) + rel
  {
    var r := Concat(rel);
    ConcatEmpty(rel);
    SplitConcat(rel);
    if dir == "" {
      ResolveRelative(cwd, r);
      FoldPlain(rel, cwd, false);
      ResolveRelative(cwd, "");
      assert Split("") == [""];
    } else {
      var joined := dir + "/" + r;
      SplitAppend(dir, r);
      var start := if IsAbsolute(dir) then [] else cwd;
      if IsAbsolute(dir) {
        assert IsAbsolute(joined);
      } else {
        ResolveRelative(cwd, joined);
        ResolveRelative(cwd, dir);
      }
      assert Resolve(cwd, joined) == Fold(Split(dir) + rel, start, false);
      assert Resolve(cwd, dir) == Fold(Split(dir), start, false);
      FoldAppend(Split(dir), rel, start, false);
      FoldPlain(rel, Fold(Split(dir), start, false), false);
    }
  }

  /** `path.join(dir, rel)` resolves to `rel`'s segments below `dir`. */
  lemma ResolveJoin(cwd: Cwd, dir: string, rel: seq<string>)
    requires |rel| >= 1 && AllPlain(rel)
    ensures Resolve(cwd, Join([dir, Concat(rel)])) == Resolve(cwd, dir) + rel
  {
    var r := Concat(rel);
    ConcatEmpty(rel);
    JoinTwo(dir, r);
    NormalizeResolves(cwd, if dir == "" then r else dir + "/" + r);
    ResolveAppend(cwd, dir, rel);
  }

  /** Re-rooting: the path of `path.join(dir, rel)` relative to `dir` is
      `rel` again, for any directory and any plain relative path. */
  lemma RelativeOfJoin(cwd: Cwd, dir: string, rel: seq<string>)
    requires |rel| >= 1 && AllPlain(rel)
    ensures Relative(cwd, dir, Join([dir, Concat(rel)])) == Concat(rel)
  {
    var to := Join([dir, Concat(rel)]);
    ResolveJoin(cwd, dir, rel);
    var f := Resolve(cwd, dir);
    assert Resolve(cwd, to) == f + rel;
    assert dir != to;
    var k := CommonPrefix(f, f + rel);
    assert k == |f|;
    assert Ups(0) + (f + rel)[k..] == rel;
  }
}
