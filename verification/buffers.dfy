/**
 * Contents of sample buffers as values: `Overwrite(b, at, s)` is the buffer `b` after the samples
 * `s` have been written into it from index `at` on. Stating what a method does to an array as
 * `a[..] == Overwrite(old(a[..]), at, s)` says in one equation both what was written and that no
 * other index changed, which `OverwriteMeans` spells out index by index.
 */
module Buffers {

  function Overwrite(b: seq<real>, at: nat, s: seq<real>): seq<real>
    requires at + |s| <= |b|
  {
    b[..at] + s + b[at + |s|..]
  }

  /** `count` samples of silence. */
  function Silence(count: nat): (z: seq<real>)
    ensures |z| == count
  {
    seq(count, _ => 0.0)
  }

  /** The overwritten buffer keeps its length, holds `s` at `at` and the old samples everywhere else. */
  lemma OverwriteMeans(b: seq<real>, at: nat, s: seq<real>)
    requires at + |s| <= |b|
    ensures var r := Overwrite(b, at, s);
            |r| == |b| && r[at..at + |s|] == s
            && (forall i :: 0 <= i < at ==> r[i] == b[i])
            && (forall i :: at + |s| <= i < |b| ==> r[i] == b[i])
  {
    var r := Overwrite(b, at, s);
    assert r[at..at + |s|] == s;
    forall i | at + |s| <= i < |b|
      ensures r[i] == b[i]
    {
      assert r[i] == b[at + |s|..][i - at - |s|];
    }
  }

  /** Writing nothing leaves the buffer as it was. */
  lemma OverwriteNothing(b: seq<real>, at: nat)
    requires at <= |b|
    ensures Overwrite(b, at, []) == b
  {
    assert b[..at] + [] + b[at..] == b;
  }

  /** Writing one more sample just past what was written extends what was written by that sample. */
  lemma OverwriteStep(b: seq<real>, at: nat, s: seq<real>, x: real)
    requires at + |s| < |b|
    ensures Overwrite(b, at, s)[at + |s| := x] == Overwrite(b, at, s + [x])
  {
    var r, r' := Overwrite(b, at, s)[at + |s| := x], Overwrite(b, at, s + [x]);
    assert |r| == |r'|;
    forall i | 0 <= i < |r|
      ensures r[i] == r'[i]
    {
      if i > at + |s| {
        assert r[i] == b[at + |s|..][i - at - |s|];
        assert r'[i] == b[at + |s| + 1..][i - at - |s| - 1];
      }
    }
  }

  /** Writing `t` right after `s` is writing `s + t`. */
  lemma OverwriteAppend(b: seq<real>, at: nat, s: seq<real>, next: nat, t: seq<real>)
    requires next == at + |s| && next + |t| <= |b|
    ensures Overwrite(Overwrite(b, at, s), next, t) == Overwrite(b, at, s + t)
  {
    var m := Overwrite(b, at, s);
    assert m[..next] == b[..at] + s;
    assert m[next + |t|..] == b[at + |s + t|..];
  }

  /** Adjacent slices of a sequence join up. */
  lemma SliceJoin<T>(s: seq<T>, i: nat, j: nat, k: nat)
    requires i <= j <= k <= |s|
    ensures s[i..j] + s[j..k] == s[i..k]
  {
  }
}
