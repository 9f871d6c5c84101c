/**
 * Lanes: the index view every vector shares.
 *
 * Whatever its storage (named fields or an array), a vector of arity N reads
 * as a sequence of N elements, slot 0 first. These helpers build and gather
 * such sequences and are used by every vector and matrix module.
 */
module Lanes {
  import opened Elements

  /** N copies of one value: the shape of `ZERO`, `ONE` and a broadcast scalar. */
  function Fill<T>(n: nat, v: T): (r: seq<T>)
    ensures |r| == n
    ensures forall i :: 0 <= i < n ==> r[i] == v
  {
    seq(n, _ => v)
  }

  /** The unit vector along axis k: `on` in slot k and `off` everywhere else. */
  function Unit<T>(st: States<T>, n: nat, k: nat): (r: seq<T>)
    ensures |r| == n
    ensures forall i :: 0 <= i < n ==> r[i] == (if i == k then st.on else st.off)
  {
    seq(n, i => if i == k then st.on else st.off)
  }

  /** Every entry of `order` addresses a slot of a vector of arity n. */
  predicate InRange(order: seq<nat>, n: nat)
  {
    forall k :: 0 <= k < |order| ==> order[k] < n
  }

  /** Swizzle: slot k of the result is the slot `order[k]` of `v`. The order may
      repeat slots; an out-of-range slot is a fatal index error. */
  function Gather<T>(v: seq<T>, order: seq<nat>): (r: seq<T>)
    requires InRange(order, |v|)
    ensures |r| == |order|
    ensures forall k :: 0 <= k < |order| ==> r[k] == v[order[k]]
  {
    seq(|order|, k requires 0 <= k < |order| => v[order[k]])
  }

  /** The identity order 0, 1, ..., n-1. */
  function Iota(n: nat): (r: seq<nat>)
    ensures |r| == n && InRange(r, n)
    ensures forall k :: 0 <= k < n ==> r[k] == k
  {
    seq(n, k => k)
  }

  /** Gathering in the identity order gives the vector back. */
  lemma GatherIota<T>(v: seq<T>)
    ensures Gather(v, Iota(|v|)) == v
  {
  }

  /** Gathering twice is gathering once through the composed order: a swizzle
      of a swizzle reads slot `outer[inner[k]]` of the original. */
  lemma GatherComposes<T>(v: seq<T>, outer: seq<nat>, inner: seq<nat>)
    requires InRange(outer, |v|) && InRange(inner, |outer|)
    ensures InRange(Gather(outer, inner), |v|)
    ensures Gather(Gather(v, outer), inner) == Gather(v, Gather(outer, inner))
  {
  }
}
