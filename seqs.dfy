/**
 * Order-preserving filtering. Every filter of the pipeline (`filter`,
 * `filter(...).map(...)`, `map(...)` with `return null` then
 * `filter(Boolean)`) is an instance of `FilterMap`; its meaning is fixed once
 * here by the positions it keeps.
 */
module Seqs {
  import opened Wrappers

  /** The one-element sequence of a present value, the empty one otherwise. */
  function Kept<B>(o: Option<B>): (r: seq<B>)
    ensures |r| <= 1
  {
    if o.Some? then [o.value] else []
  }

  /** Keeps the elements `f` maps to `Some`, replaced by their images, in their original order. */
  function FilterMap<A, B>(s: seq<A>, f: A -> Option<B>): (r: seq<B>)
    ensures |r| <= |s|
    decreases |s|
  {
    if s == [] then [] else Kept(f(s[0])) + FilterMap(s[1..], f)
  }

  function Shift(ix: seq<nat>): (r: seq<nat>)
    ensures |r| == |ix|
    ensures forall k :: 0 <= k < |ix| ==> r[k] == ix[k] + 1
  {
    seq(|ix|, k requires 0 <= k < |ix| => ix[k] + 1)
  }

  /** The positions of `s` that `f` keeps, in increasing order. */
  function KeptIndices<A, B>(s: seq<A>, f: A -> Option<B>): (ix: seq<nat>)
    ensures forall k :: 0 <= k < |ix| ==> ix[k] < |s| && f(s[ix[k]]).Some?
    decreases |s|
  {
    if s == [] then []
    else (if f(s[0]).Some? then [0] else []) + Shift(KeptIndices(s[1..], f))
  }

  /** The kept positions are strictly increasing. */
  lemma {:induction false} KeptIndicesIncreasing<A, B>(s: seq<A>, f: A -> Option<B>)
    ensures forall k, l :: 0 <= k < l < |KeptIndices(s, f)| ==> KeptIndices(s, f)[k] < KeptIndices(s, f)[l]
    decreases |s|
  {
    if s != [] {
      KeptIndicesIncreasing(s[1..], f);
      var rest := KeptIndices(s[1..], f);
      var ix := KeptIndices(s, f);
      var d := if f(s[0]).Some? then 1 else 0;
      assert ix == (if f(s[0]).Some? then [0] else []) + Shift(rest);
      forall k, l | 0 <= k < l < |ix| ensures ix[k] < ix[l] {
        assert ix[l] == rest[l - d] + 1;
        if k >= d {
          assert ix[k] == rest[k - d] + 1;
        }
      }
    }
  }

  /** Every position `f` keeps is among the kept positions; `k` is where. */
  lemma {:induction false} KeptIndicesComplete<A, B>(s: seq<A>, f: A -> Option<B>, i: nat) returns (k: nat)
    requires i < |s| && f(s[i]).Some?
    ensures k < |KeptIndices(s, f)| && KeptIndices(s, f)[k] == i
    decreases |s|
  {
    var ix := KeptIndices(s, f);
    var rest := KeptIndices(s[1..], f);
    var head: seq<nat> := if f(s[0]).Some? then [0] else [];
    assert ix == head + Shift(rest);
    if i == 0 {
      assert head == [0];
      k := 0;
    } else {
      assert s[1..][i - 1] == s[i];
      var k' := KeptIndicesComplete(s[1..], f, i - 1);
      var shifted := Shift(rest);
      assert shifted[k'] == i;
      k := k' + |head|;
      assert ix[k] == shifted[k'];
    }
  }

  /** The result is exactly the images of the kept positions, in increasing position order. */
  lemma {:induction false} FilterMapIndices<A, B>(s: seq<A>, f: A -> Option<B>)
    ensures |FilterMap(s, f)| == |KeptIndices(s, f)|
    ensures forall k :: 0 <= k < |KeptIndices(s, f)| ==>
      FilterMap(s, f)[k] == f(s[KeptIndices(s, f)[k]]).value
    decreases |s|
  {
    if s != [] {
      FilterMapIndices(s[1..], f);
      var r, ix := FilterMap(s, f), KeptIndices(s, f);
      var rr, rx := FilterMap(s[1..], f), KeptIndices(s[1..], f);
      var d := if f(s[0]).Some? then 1 else 0;
      assert r == Kept(f(s[0])) + rr;
      assert ix == (if f(s[0]).Some? then [0] else []) + Shift(rx);
      forall k | d <= k < |ix| ensures r[k] == f(s[ix[k]]).value {
        assert r[k] == rr[k - d];
        assert ix[k] == rx[k - d] + 1;
        assert s[ix[k]] == s[1..][rx[k - d]];
      }
    }
  }

  /** A value is in the result iff `f` maps some element of `s` to it. */
  lemma FilterMapMembership<A, B>(s: seq<A>, f: A -> Option<B>, y: B)
    ensures y in FilterMap(s, f) <==> exists i :: 0 <= i < |s| && f(s[i]) == Some(y)
  {
    FilterMapIndices(s, f);
    var r, ix := FilterMap(s, f), KeptIndices(s, f);
    if y in r {
      var k :| 0 <= k < |r| && r[k] == y;
      assert f(s[ix[k]]) == Some(y);
    }
    if i :| 0 <= i < |s| && f(s[i]) == Some(y) {
      var k := KeptIndicesComplete(s, f, i);
      assert r[k] == y;
    }
  }

  /** Filtering distributes over concatenation: each element contributes independently of the others. */
  lemma {:induction false} FilterMapAppend<A, B>(s: seq<A>, t: seq<A>, f: A -> Option<B>)
    ensures FilterMap(s + t, f) == FilterMap(s, f) + FilterMap(t, f)
    decreases |s|
  {
    if s != [] {
      assert (s + t)[0] == s[0];
      assert (s + t)[1..] == s[1..] + t;
      FilterMapAppend(s[1..], t, f);
      calc {
        FilterMap(s + t, f);
        Kept(f(s[0])) + FilterMap(s[1..] + t, f);
        Kept(f(s[0])) + (FilterMap(s[1..], f) + FilterMap(t, f));
        (Kept(f(s[0])) + FilterMap(s[1..], f)) + FilterMap(t, f);
      }
    } else {
      assert s + t == t;
    }
  }

  /** Extending the input by one element extends the result by that element's image, if any. */
  lemma FilterMapSnoc<A, B>(s: seq<A>, i: nat, f: A -> Option<B>)
    requires i < |s|
    ensures FilterMap(s[..i + 1], f) == FilterMap(s[..i], f) + Kept(f(s[i]))
  {
    assert s[..i + 1] == s[..i] + [s[i]];
    FilterMapAppend(s[..i], [s[i]], f);
    assert FilterMap([s[i]], f) == Kept(f(s[i])) + FilterMap([], f);
  }

  /** Two filters that agree on every element of `s` give the same result. */
  lemma {:induction false} FilterMapPointwise<A, B>(s: seq<A>, f: A -> Option<B>, g: A -> Option<B>)
    requires forall i :: 0 <= i < |s| ==> f(s[i]) == g(s[i])
    ensures FilterMap(s, f) == FilterMap(s, g)
    decreases |s|
  {
    if s != [] {
      assert forall i :: 0 <= i < |s[1..]| ==> s[1..][i] == s[i + 1];
      FilterMapPointwise(s[1..], f, g);
    }
  }

  /** When `f` keeps every element, `FilterMap` is the element-wise image of `s`. */
  lemma {:induction false} FilterMapTotal<A, B>(s: seq<A>, f: A -> Option<B>)
    requires forall i :: 0 <= i < |s| ==> f(s[i]).Some?
    ensures |FilterMap(s, f)| == |s|
    ensures forall k :: 0 <= k < |s| ==> FilterMap(s, f)[k] == f(s[k]).value
    decreases |s|
  {
    if s != [] {
      assert forall i :: 0 <= i < |s[1..]| ==> s[1..][i] == s[i + 1];
      FilterMapTotal(s[1..], f);
    }
  }
}
