/** Generic facts about sequences that the driver's loop proofs use: mapping a function
    over a sequence, and the shapes of appending to a prefix. */
module Seqs {

  /** `f` applied to every element of `s`, in order. */
  function Map<A, B>(f: A --> B, s: seq<A>): (r: seq<B>)
    requires forall i :: 0 <= i < |s| ==> f.requires(s[i])
    ensures |r| == |s|
  {
    seq(|s|, i requires 0 <= i < |s| => f(s[i]))
  }

  lemma MapAppend<A, B>(f: A --> B, a: seq<A>, b: seq<A>)
    requires forall i :: 0 <= i < |a| ==> f.requires(a[i])
    requires forall i :: 0 <= i < |b| ==> f.requires(b[i])
    ensures forall i :: 0 <= i < |a + b| ==> f.requires((a + b)[i])
    ensures Map(f, a + b) == Map(f, a) + Map(f, b)
  {
    assert forall i :: |a| <= i < |a + b| ==> (a + b)[i] == b[i - |a|];
  }

  lemma AppendAssoc<T>(a: seq<T>, b: seq<T>, c: seq<T>)
    ensures a + b + c == a + (b + c)
  {
  }

  lemma AppendToEmpty<T>(x: T)
    ensures [] + [x] == [x]
  {
  }

  lemma TakeAll<T>(s: seq<T>, n: nat)
    requires n == |s|
    ensures s[..n] == s
  {
  }

  lemma AppendNext<T>(prefix: seq<T>, s: seq<T>, i: nat, x: T)
    requires i < |s| && x == s[i]
    ensures prefix + s[..i] + [x] == prefix + s[..i + 1]
  {
    assert s[..i + 1] == s[..i] + [x];
  }
}
