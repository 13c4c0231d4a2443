/** The Rust iterator adaptors the projectors are built from (`map`, `filter`,
    `filter_map`, `flat_map`, each followed by `collect`), as functions on
    sequences, with the facts about them the projectors rely on. */
module Iter {
  import opened Wrappers

  function Map<T, U>(xs: seq<T>, f: T -> U): (ys: seq<U>)
    ensures |ys| == |xs|
    ensures forall i :: 0 <= i < |xs| ==> ys[i] == f(xs[i])
  {
    if xs == [] then [] else [f(xs[0])] + Map(xs[1..], f)
  }

  /** Keeps the elements satisfying `p`, in order. */
  function Filter<T>(xs: seq<T>, p: T -> bool): (ys: seq<T>)
    ensures |ys| <= |xs|
    ensures forall y :: y in ys ==> y in xs && p(y)
  {
    if xs == [] then [] else (if p(xs[0]) then [xs[0]] else []) + Filter(xs[1..], p)
  }

  /** Applies `f` to every element and keeps the `Some` results, in order. */
  function FilterMap<T, U>(xs: seq<T>, f: T -> Option<U>): (ys: seq<U>)
    ensures |ys| <= |xs|
  {
    if xs == [] then [] else AsSeq(f(xs[0])) + FilterMap(xs[1..], f)
  }

  /** The zero or one values an Option holds. */
  function AsSeq<U>(o: Option<U>): (s: seq<U>)
    ensures |s| <= 1
  {
    match o
    case Some(y) => [y]
    case None => []
  }

  /** Concatenates `f(x)` over the elements `x` of `xs`, in order. */
  function FlatMap<T, U>(xs: seq<T>, f: T -> seq<U>): seq<U> {
    if xs == [] then [] else f(xs[0]) + FlatMap(xs[1..], f)
  }

  /** The positions (counted from `offset`) of the elements on which `f` yields
      `Some`: where each output element of `FilterMap(xs, f)` comes from. */
  function KeptFrom<T, U>(xs: seq<T>, f: T -> Option<U>, offset: nat): seq<nat> {
    if xs == [] then []
    else (if f(xs[0]).Some? then [offset] else []) + KeptFrom(xs[1..], f, offset + 1)
  }

  function Kept<T, U>(xs: seq<T>, f: T -> Option<U>): seq<nat> {
    KeptFrom(xs, f, 0)
  }

  predicate StrictlyIncreasing(ks: seq<nat>) {
    forall k1, k2 :: 0 <= k1 < k2 < |ks| ==> ks[k1] < ks[k2]
  }

  lemma {:induction false} FilterMapAppend<T, U>(xs: seq<T>, ys: seq<T>, f: T -> Option<U>)
    ensures FilterMap(xs + ys, f) == FilterMap(xs, f) + FilterMap(ys, f)
  {
    if xs == [] {
      assert xs + ys == ys;
    } else {
      assert (xs + ys)[1..] == xs[1..] + ys;
      FilterMapAppend(xs[1..], ys, f);
    }
  }

  /** An element on which `f` yields None contributes nothing. */
  lemma {:induction false} FilterMapOfNothing<T, U>(xs: seq<T>, f: T -> Option<U>)
    requires forall i :: 0 <= i < |xs| ==> f(xs[i]).None?
    ensures FilterMap(xs, f) == []
  {
    if xs != [] {
      assert f(xs[0]).None?;
      FilterMapOfNothing(xs[1..], f);
    }
  }

  lemma {:induction false} KeptFromLength<T, U>(xs: seq<T>, f: T -> Option<U>, offset: nat)
    ensures |KeptFrom(xs, f, offset)| == |FilterMap(xs, f)|
  {
    if xs != [] {
      KeptFromLength(xs[1..], f, offset + 1);
    }
  }

  lemma {:induction false} KeptFromSources<T, U>(xs: seq<T>, f: T -> Option<U>, offset: nat)
    ensures |KeptFrom(xs, f, offset)| == |FilterMap(xs, f)|
    ensures forall k :: 0 <= k < |KeptFrom(xs, f, offset)| ==>
      offset <= KeptFrom(xs, f, offset)[k] < offset + |xs| &&
      f(xs[KeptFrom(xs, f, offset)[k] - offset]) == Some(FilterMap(xs, f)[k])
  {
    KeptFromLength(xs, f, offset);
    forall k | 0 <= k < |KeptFrom(xs, f, offset)|
      ensures offset <= KeptFrom(xs, f, offset)[k] < offset + |xs|
      ensures f(xs[KeptFrom(xs, f, offset)[k] - offset]) == Some(FilterMap(xs, f)[k])
    {
      KeptFromBoundAt(xs, f, offset, k);
      KeptFromSourceAt(xs, f, offset, k, KeptFrom(xs, f, offset), FilterMap(xs, f));
    }
  }

  /** The `k`-th kept position lies within `xs`. */
  lemma {:induction false} KeptFromBoundAt<T, U>(xs: seq<T>, f: T -> Option<U>, offset: nat, k: nat)
    requires k < |KeptFrom(xs, f, offset)|
    ensures offset <= KeptFrom(xs, f, offset)[k] < offset + |xs|
  {
    assert xs != [];
    if f(xs[0]).Some? && k == 0 {
      KeptHead(xs, f, offset);
    } else if f(xs[0]).Some? {
      KeptFromBoundAt(xs[1..], f, offset + 1, k - 1);
      KeptTailSome(xs, f, offset, k);
    } else {
      KeptFromBoundAt(xs[1..], f, offset + 1, k);
      KeptShiftedNone(xs, f, offset, k);
    }
  }

  /** The `k`-th kept position `ks[k]` holds the element the `k`-th output
      `ys[k]` comes from. */
  lemma {:induction false} KeptFromSourceAt<T, U>(xs: seq<T>, f: T -> Option<U>, offset: nat, k: nat, ks: seq<nat>, ys: seq<U>)
    requires ks == KeptFrom(xs, f, offset) && ys == FilterMap(xs, f)
    requires k < |ks| == |ys|
    requires offset <= ks[k] < offset + |xs|
    ensures f(xs[ks[k] - offset]) == Some(ys[k])
  {
    assert xs != [];
    var ks', ys' := KeptFrom(xs[1..], f, offset + 1), FilterMap(xs[1..], f);
    if f(xs[0]).Some? && k == 0 {
      KeptHead(xs, f, offset);
    } else {
      var k' := if f(xs[0]).Some? then k - 1 else k;
      if f(xs[0]).Some? {
        KeptTailSome(xs, f, offset, k);
        FilterMapTailSome(xs, f, k);
      } else {
        KeptShiftedNone(xs, f, offset, k);
      }
      KeptFromLength(xs[1..], f, offset + 1);
      KeptFromBoundAt(xs[1..], f, offset + 1, k');
      KeptFromSourceAt(xs[1..], f, offset + 1, k', ks', ys');
      var j := ks'[k'] - (offset + 1);
      assert xs[1..][j] == xs[ks[k] - offset];
    }
  }

  lemma KeptHead<T, U>(xs: seq<T>, f: T -> Option<U>, offset: nat)
    requires xs != [] && f(xs[0]).Some?
    ensures KeptFrom(xs, f, offset)[0] == offset
    ensures FilterMap(xs, f)[0] == f(xs[0]).value
  {
    assert KeptFrom(xs, f, offset) == [offset] + KeptFrom(xs[1..], f, offset + 1);
    assert FilterMap(xs, f) == [f(xs[0]).value] + FilterMap(xs[1..], f);
  }

  lemma KeptTailSome<T, U>(xs: seq<T>, f: T -> Option<U>, offset: nat, k: nat)
    requires xs != [] && f(xs[0]).Some? && 0 < k < |KeptFrom(xs, f, offset)|
    ensures KeptFrom(xs, f, offset)[k] == KeptFrom(xs[1..], f, offset + 1)[k - 1]
  {
    var tail := KeptFrom(xs[1..], f, offset + 1);
    assert KeptFrom(xs, f, offset) == [offset] + tail;
  }

  lemma FilterMapTailSome<T, U>(xs: seq<T>, f: T -> Option<U>, k: nat)
    requires xs != [] && f(xs[0]).Some? && 0 < k < |FilterMap(xs, f)|
    ensures FilterMap(xs, f)[k] == FilterMap(xs[1..], f)[k - 1]
  {
    var tail := FilterMap(xs[1..], f);
    assert FilterMap(xs, f) == [f(xs[0]).value] + tail;
  }

  lemma KeptShiftedNone<T, U>(xs: seq<T>, f: T -> Option<U>, offset: nat, k: nat)
    requires xs != [] && f(xs[0]).None? && k < |KeptFrom(xs, f, offset)|
    ensures KeptFrom(xs, f, offset) == KeptFrom(xs[1..], f, offset + 1)
    ensures FilterMap(xs, f) == FilterMap(xs[1..], f)
  {
    assert KeptFrom(xs, f, offset) == [] + KeptFrom(xs[1..], f, offset + 1);
    assert FilterMap(xs, f) == [] + FilterMap(xs[1..], f);
  }

  lemma {:induction false} KeptFromBounds<T, U>(xs: seq<T>, f: T -> Option<U>, offset: nat)
    ensures forall k :: 0 <= k < |KeptFrom(xs, f, offset)| ==>
      offset <= KeptFrom(xs, f, offset)[k] < offset + |xs|
    ensures StrictlyIncreasing(KeptFrom(xs, f, offset))
  {
    if xs != [] {
      KeptFromBounds(xs[1..], f, offset + 1);
    }
  }

  lemma {:induction false} KeptFromAtLeast<T, U>(xs: seq<T>, f: T -> Option<U>, offset: nat)
    ensures forall j :: j in KeptFrom(xs, f, offset) ==> offset <= j
  {
    if xs != [] {
      KeptFromAtLeast(xs[1..], f, offset + 1);
    }
  }

  lemma {:induction false} KeptFromComplete<T, U>(xs: seq<T>, f: T -> Option<U>, offset: nat)
    ensures forall i :: 0 <= i < |xs| ==> (offset + i in KeptFrom(xs, f, offset) <==> f(xs[i]).Some?)
  {
    if xs != [] {
      var ks := KeptFrom(xs, f, offset);
      var ks' := KeptFrom(xs[1..], f, offset + 1);
      KeptFromComplete(xs[1..], f, offset + 1);
      KeptFromAtLeast(xs[1..], f, offset + 1);
      assert ks == (if f(xs[0]).Some? then [offset] else []) + ks';
      forall i | 0 <= i < |xs| ensures offset + i in ks <==> f(xs[i]).Some? {
        if i == 0 {
          assert offset !in ks';
        } else {
          assert xs[i] == xs[1..][i - 1];
          assert (offset + i in ks) <==> (offset + 1) + (i - 1) in ks';
        }
      }
    }
  }

  /** `FilterMap(xs, f)` is exactly the `Some` values of `f` over `xs`, in the
      order of the elements they come from: `Kept(xs, f)` lists those elements'
      positions, strictly increasing, and holds every position where `f` yields
      `Some` and no other. */
  lemma FilterMapCharacterised<T, U>(xs: seq<T>, f: T -> Option<U>)
    ensures |Kept(xs, f)| == |FilterMap(xs, f)|
    ensures forall k :: 0 <= k < |Kept(xs, f)| ==>
      Kept(xs, f)[k] < |xs| && f(xs[Kept(xs, f)[k]]) == Some(FilterMap(xs, f)[k])
    ensures StrictlyIncreasing(Kept(xs, f))
    ensures forall i :: 0 <= i < |xs| ==> (i in Kept(xs, f) <==> f(xs[i]).Some?)
  {
    KeptSources(xs, f);
    KeptFromBounds(xs, f, 0);
    KeptComplete(xs, f);
  }

  lemma KeptSources<T, U>(xs: seq<T>, f: T -> Option<U>)
    ensures |Kept(xs, f)| == |FilterMap(xs, f)|
    ensures forall k :: 0 <= k < |Kept(xs, f)| ==>
      Kept(xs, f)[k] < |xs| && f(xs[Kept(xs, f)[k]]) == Some(FilterMap(xs, f)[k])
  {
    var ks := KeptFrom(xs, f, 0);
    assert Kept(xs, f) == ks;
    KeptFromSources(xs, f, 0);
    forall k | 0 <= k < |ks| ensures ks[k] < |xs| && f(xs[ks[k]]) == Some(FilterMap(xs, f)[k]) {
      assert ks[k] - 0 == ks[k];
    }
  }

  lemma KeptComplete<T, U>(xs: seq<T>, f: T -> Option<U>)
    ensures forall i :: 0 <= i < |xs| ==> (i in Kept(xs, f) <==> f(xs[i]).Some?)
  {
    var ks := KeptFrom(xs, f, 0);
    assert Kept(xs, f) == ks;
    KeptFromComplete(xs, f, 0);
    forall i | 0 <= i < |xs| ensures i in ks <==> f(xs[i]).Some? {
      assert 0 + i == i;
    }
  }

  /** Which positions are kept depends only on where `f` yields `Some`. */
  lemma {:induction false} KeptDependsOnlyOnSomeness<T, U, V>(xs: seq<T>, f: T -> Option<U>, g: T -> Option<V>, offset: nat)
    requires forall x :: f(x).Some? <==> g(x).Some?
    ensures KeptFrom(xs, f, offset) == KeptFrom(xs, g, offset)
  {
    if xs != [] {
      KeptDependsOnlyOnSomeness(xs[1..], f, g, offset + 1);
    }
  }

  /** `filter(p).filter_map(f)` is one `filter_map` by `q`, where `q` is `f` on
      the elements `p` keeps and None elsewhere. */
  lemma {:induction false} FilterThenFilterMap<T, U>(xs: seq<T>, p: T -> bool, f: T -> Option<U>, q: T -> Option<U>)
    requires forall x :: q(x) == if p(x) then f(x) else None
    ensures FilterMap(Filter(xs, p), f) == FilterMap(xs, q)
  {
    if xs != [] {
      var head := if p(xs[0]) then [xs[0]] else [];
      FilterMapAppend(head, Filter(xs[1..], p), f);
      FilterThenFilterMap(xs[1..], p, f, q);
      if p(xs[0]) {
        assert FilterMap(head, f) == AsSeq(f(xs[0])) by {
          assert head[1..] == [];
        }
      }
    }
  }

  /** `map(m).filter_map(f)` is one `filter_map` by `q = f . m`. */
  lemma {:induction false} MapThenFilterMap<T, V, U>(xs: seq<T>, m: T -> V, f: V -> Option<U>, q: T -> Option<U>)
    requires forall x :: q(x) == f(m(x))
    ensures FilterMap(Map(xs, m), f) == FilterMap(xs, q)
  {
    if xs != [] {
      assert Map(xs, m)[1..] == Map(xs[1..], m);
      MapThenFilterMap(xs[1..], m, f, q);
    }
  }

  /** Flattening commutes with `filter_map`: applying `f` inside each group and
      concatenating equals concatenating and then applying `f`. */
  lemma {:induction false} FlatMapOfFilterMaps<T, V, U>(xs: seq<T>, g: T -> seq<V>, f: V -> Option<U>, h: T -> seq<U>)
    requires forall x :: h(x) == FilterMap(g(x), f)
    ensures FlatMap(xs, h) == FilterMap(FlatMap(xs, g), f)
  {
    if xs != [] {
      FlatMapOfFilterMaps(xs[1..], g, f, h);
      FilterMapAppend(g(xs[0]), FlatMap(xs[1..], g), f);
    }
  }

  /** `flat_map` over a mapped sequence, with the groups compared pointwise. */
  lemma {:induction false} FlatMapOfMap<T, V, U>(xs: seq<T>, m: T -> V, g: V -> seq<U>, h: T -> seq<U>)
    requires forall x :: h(x) == g(m(x))
    ensures FlatMap(Map(xs, m), g) == FlatMap(xs, h)
  {
    if xs != [] {
      assert Map(xs, m)[1..] == Map(xs[1..], m);
      FlatMapOfMap(xs[1..], m, g, h);
    }
  }

  /** Filtering by `p` and then by `q` is filtering once by their conjunction. */
  lemma {:induction false} FilterTwice<T>(xs: seq<T>, p: T -> bool, q: T -> bool, r: T -> bool)
    requires forall x :: r(x) == (p(x) && q(x))
    ensures Filter(Filter(xs, p), q) == Filter(xs, r)
  {
    if xs != [] {
      FilterTwice(xs[1..], p, q, r);
      var head := if p(xs[0]) then [xs[0]] else [];
      FilterAppend(head, Filter(xs[1..], p), q);
      if p(xs[0]) {
        assert Filter(head, q) == (if q(xs[0]) then [xs[0]] else []) by {
          assert head[1..] == [];
        }
      }
    }
  }

  lemma {:induction false} FilterAppend<T>(xs: seq<T>, ys: seq<T>, p: T -> bool)
    ensures Filter(xs + ys, p) == Filter(xs, p) + Filter(ys, p)
  {
    if xs == [] {
      assert xs + ys == ys;
    } else {
      assert (xs + ys)[1..] == xs[1..] + ys;
      FilterAppend(xs[1..], ys, p);
    }
  }
}
