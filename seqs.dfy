/** Sequence helpers shared by the assembler and the builder. */
module Seqs {

  /** `f` applied to every element, in order. */
  function Map<A, B>(f: A -> B, s: seq<A>): (r: seq<B>)
    ensures |r| == |s|
    ensures forall i :: 0 <= i < |s| ==> r[i] == f(s[i])
  {
    seq(|s|, i requires 0 <= i < |s| => f(s[i]))
  }

  lemma MapSnoc<A, B>(f: A -> B, s: seq<A>, x: A)
    ensures Map(f, s + [x]) == Map(f, s) + [f(x)]
  {
  }

  /** `f` over one more element of a prefix. */
  lemma MapPrefix<A, B>(f: A -> B, s: seq<A>, i: nat)
    requires i < |s|
    ensures Map(f, s[..i + 1]) == Map(f, s[..i]) + [f(s[i])]
  {
    assert s[..i + 1] == s[..i] + [s[i]];
    MapSnoc(f, s[..i], s[i]);
  }

  lemma MapAppend<A, B>(f: A -> B, s: seq<A>, t: seq<A>)
    ensures Map(f, s + t) == Map(f, s) + Map(f, t)
  {
  }

  /** The concatenation of a sequence of sequences, in order. */
  function Flatten<T>(ss: seq<seq<T>>): seq<T> {
    if ss == [] then [] else Flatten(ss[..|ss| - 1]) + ss[|ss| - 1]
  }

  lemma FlattenSnoc<T>(ss: seq<seq<T>>, s: seq<T>)
    ensures Flatten(ss + [s]) == Flatten(ss) + s
  {
    assert (ss + [s])[..|ss|] == ss;
  }

  lemma {:induction false} FlattenAppend<T>(ss: seq<seq<T>>, tt: seq<seq<T>>)
    ensures Flatten(ss + tt) == Flatten(ss) + Flatten(tt)
    decreases |tt|
  {
    if tt == [] {
      assert ss + tt == ss;
    } else {
      var init, last := tt[..|tt| - 1], tt[|tt| - 1];
      assert ss + tt == (ss + init) + [last];
      assert tt == init + [last];
      FlattenSnoc(ss + init, last);
      FlattenAppend(ss, init);
      FlattenSnoc(init, last);
    }
  }

  /** `n` copies of `x`. */
  function Repeat<T>(x: T, n: nat): (r: seq<T>)
    ensures |r| == n
    ensures forall i :: 0 <= i < n ==> r[i] == x
  {
    seq(n, i => x)
  }
}
