/**
 Bursts and the way the descriptor compiler cuts a flat list of bursts into chunks.

 `SplitTo` grows the chunk list one burst at a time; the lemmas say what the result is
 without reference to that construction.
 */
module Bursts {
  import opened Words

  /** One copy the engine performs: `sz` bytes from address `sar` to address `dar`. */
  datatype Burst = Burst(sar: u64, dar: u64, sz: u32)

  /** One linked list handed to the engine: its bursts, its cycle bit, its recorded size. */
  datatype ChunkValue = ChunkValue(bursts: seq<Burst>, cb: bool, sz: u64)

  /** The bytes the first n bursts of a list move. */
  function SizeTo(bs: seq<Burst>, n: nat): nat
    requires n <= |bs|
  {
    if n == 0 then 0 else SizeTo(bs, n - 1) + bs[n - 1].sz
  }

  function TotalSize(bs: seq<Burst>): nat {
    SizeTo(bs, |bs|)
  }

  lemma {:induction false} SizeToPrefix(a: seq<Burst>, b: seq<Burst>, n: nat)
    requires n <= |a| && a <= b
    ensures SizeTo(a, n) == SizeTo(b, n)
  {
    if n > 0 {
      SizeToPrefix(a, b, n - 1);
    }
  }

  lemma TotalSizeSnoc(bs: seq<Burst>, b: Burst)
    ensures TotalSize(bs + [b]) == TotalSize(bs) + b.sz
  {
    SizeToPrefix(bs, bs + [b], |bs|);
  }

  function Flatten<T>(parts: seq<seq<T>>): seq<T> {
    FlattenTo(parts, |parts|)
  }

  /** The first n parts, one after the other. */
  function FlattenTo<T>(parts: seq<seq<T>>, n: nat): seq<T>
    requires n <= |parts|
  {
    if n == 0 then [] else FlattenTo(parts, n - 1) + parts[n - 1]
  }

  lemma {:induction false} FlattenToAgree<T>(a: seq<seq<T>>, b: seq<seq<T>>, n: nat)
    requires n <= |a| && n <= |b| && forall k :: 0 <= k < n ==> a[k] == b[k]
    ensures FlattenTo(a, n) == FlattenTo(b, n)
  {
    if n > 0 {
      FlattenToAgree(a, b, n - 1);
    }
  }

  /** Adding one burst to a chunk list: a chunk is closed once it holds exactly `ll` bursts. */
  function PlaceIn(cs: seq<seq<Burst>>, b: Burst, ll: nat): (ds: seq<seq<Burst>>)
    requires cs != []
    ensures ds != []
  {
    var last := cs[|cs| - 1];
    if |last| == ll then cs + [[b]] else cs[|cs| - 1 := last + [b]]
  }

  /** Placing a burst is opening a chunk if need be and then growing the last one. */
  lemma PlaceInSteps(cs: seq<seq<Burst>>, b: Burst, ll: nat)
    requires cs != []
    ensures var open := if |cs[|cs| - 1]| == ll then cs + [[]] else cs;
            open[|open| - 1 := open[|open| - 1] + [b]] == PlaceIn(cs, b, ll)
  {
    var none: seq<Burst> := [];
    assert none + [b] == [b];
    assert (cs + [none])[|cs| := [b]] == cs + [[b]];
  }

  /** The chunk list after the first n bursts. */
  function SplitTo(bs: seq<Burst>, n: nat, ll: nat): (cs: seq<seq<Burst>>)
    requires n <= |bs|
    ensures cs != []
  {
    if n == 0 then [[]] else PlaceIn(SplitTo(bs, n - 1, ll), bs[n - 1], ll)
  }

  function Split(bs: seq<Burst>, ll: nat): (cs: seq<seq<Burst>>)
    ensures cs != []
  {
    SplitTo(bs, |bs|, ll)
  }

  lemma {:induction false} SplitToFlatten(bs: seq<Burst>, n: nat, ll: nat)
    requires n <= |bs|
    ensures Flatten(SplitTo(bs, n, ll)) == bs[..n]
  {
    if n == 0 {
      assert FlattenTo(SplitTo(bs, n, ll), 0) == [];
    } else {
      var prev := SplitTo(bs, n - 1, ll);
      var cs := SplitTo(bs, n, ll);
      var k := |prev| - 1;
      SplitToFlatten(bs, n - 1, ll);
      FlattenToAgree(prev, cs, k);
      assert bs[..n] == bs[..n - 1] + [bs[n - 1]];
      if |cs| > |prev| {
        FlattenToAgree(prev, cs, |prev|);
      } else {
        assert FlattenTo(cs, k) + (prev[k] + [bs[n - 1]]) == FlattenTo(cs, k) + prev[k] + [bs[n - 1]];
      }
    }
  }

  /** Cutting into chunks loses, adds and reorders nothing, whatever the bound. */
  lemma SplitFlatten(bs: seq<Burst>, ll: nat)
    ensures Flatten(Split(bs, ll)) == bs
  {
    SplitToFlatten(bs, |bs|, ll);
    assert bs[..|bs|] == bs;
  }

  /** The position in the flat list at which chunk k starts, kept as a sum so that proofs stay linear. */
  function Offset(k: nat, ll: nat): nat {
    if k == 0 then 0 else Offset(k - 1, ll) + ll
  }

  lemma {:induction false} OffsetIsProduct(k: nat, ll: nat)
    ensures Offset(k, ll) == k * ll
  {
    if k > 0 {
      OffsetIsProduct(k - 1, ll);
      assert k * ll == (k - 1) * ll + ll;
    }
  }

  lemma {:induction false} SplitToShape(bs: seq<Burst>, n: nat, ll: nat)
    requires 1 <= ll && n <= |bs|
    ensures var cs := SplitTo(bs, n, ll);
            && (forall k :: 0 <= k < |cs| - 1 ==> |cs[k]| == ll)
            && |cs[|cs| - 1]| <= ll
            && (0 < n ==> 1 <= |cs[|cs| - 1]|)
            && Offset(|cs| - 1, ll) + |cs[|cs| - 1]| == n
  {
    if n > 0 {
      SplitToShape(bs, n - 1, ll);
    }
  }

  /** With room for at least one burst, every chunk but the last holds exactly `ll` bursts. */
  lemma SplitShape(bs: seq<Burst>, ll: nat)
    requires 1 <= ll
    ensures var cs := Split(bs, ll);
            && (forall k :: 0 <= k < |cs| - 1 ==> |cs[k]| == ll)
            && |cs[|cs| - 1]| <= ll
            && (bs != [] ==> 1 <= |cs[|cs| - 1]|)
  {
    SplitToShape(bs, |bs|, ll);
  }

  /**
   A request of n bursts takes the ceiling of n / ll chunks (the one number C with
   (C - 1) * ll < n <= C * ll), and a single empty chunk when n is 0.
   */
  lemma SplitCount(bs: seq<Burst>, ll: nat)
    requires 1 <= ll
    ensures bs == [] ==> |Split(bs, ll)| == 1
    ensures bs != [] ==> (|Split(bs, ll)| - 1) * ll < |bs| <= |Split(bs, ll)| * ll
  {
    SplitToShape(bs, |bs|, ll);
    OffsetIsProduct(|Split(bs, ll)| - 1, ll);
    OffsetIsProduct(|Split(bs, ll)|, ll);
  }

  /** A part that is not last, or is full, stays as it is. */
  lemma PlaceInKeeps(cs: seq<seq<Burst>>, b: Burst, ll: nat, k: nat)
    requires k < |cs| && (k < |cs| - 1 || |cs[k]| == ll)
    ensures k < |PlaceIn(cs, b, ll)| && PlaceIn(cs, b, ll)[k] == cs[k]
  {
  }

  /** The last part takes the burst, or a new part does. */
  lemma PlaceInLast(cs: seq<seq<Burst>>, b: Burst, ll: nat)
    requires cs != []
    ensures var last := cs[|cs| - 1];
            if |last| == ll then |PlaceIn(cs, b, ll)| == |cs| + 1 && PlaceIn(cs, b, ll)[|cs|] == [b]
            else |PlaceIn(cs, b, ll)| == |cs| && PlaceIn(cs, b, ll)[|cs| - 1] == last + [b]
  {
  }

  /** A part is the stretch of the first n elements of a list that starts at `from`. */
  predicate IsStretch(bs: seq<Burst>, n: nat, from: nat, part: seq<Burst>) {
    from + |part| <= n <= |bs| && part == bs[from..from + |part|]
  }

  lemma StretchLater(bs: seq<Burst>, n: nat, from: nat, part: seq<Burst>)
    requires 0 < n <= |bs| && IsStretch(bs, n - 1, from, part)
    ensures IsStretch(bs, n, from, part)
  {
  }

  lemma StretchSnoc(bs: seq<Burst>, n: nat, from: nat, part: seq<Burst>)
    requires 0 < n <= |bs| && IsStretch(bs, n - 1, from, part) && from + |part| == n - 1
    ensures IsStretch(bs, n, from, part + [bs[n - 1]]) && IsStretch(bs, n, n - 1, [bs[n - 1]])
  {
  }

  /** Placing burst n - 1 makes a stretch of the part it goes to and keeps the others. */
  lemma PlacedStretch(bs: seq<Burst>, n: nat, ll: nat, k: nat, prev: seq<seq<Burst>>, from: nat, at: nat)
    requires 0 < n <= |bs| && prev != [] && k < |PlaceIn(prev, bs[n - 1], ll)|
    requires var grows := k == |prev| || (k == |prev| - 1 && |prev[k]| != ll);
             if grows then IsStretch(bs, n - 1, from, prev[|prev| - 1]) && from + |prev[|prev| - 1]| == n - 1
                           && at == if k == |prev| then n - 1 else from
             else k < |prev| && IsStretch(bs, n - 1, at, prev[k])
    ensures IsStretch(bs, n, at, PlaceIn(prev, bs[n - 1], ll)[k])
  {
    hide IsStretch, PlaceIn;
    PlaceInLast(prev, bs[n - 1], ll);
    if k < |prev| && (k < |prev| - 1 || |prev[k]| == ll) {
      PlaceInKeeps(prev, bs[n - 1], ll, k);
      StretchLater(bs, n, at, prev[k]);
    } else {
      StretchSnoc(bs, n, from, prev[|prev| - 1]);
    }
  }

  lemma {:induction false} SplitToStretch(bs: seq<Burst>, n: nat, ll: nat, k: nat, cs: seq<seq<Burst>>)
    requires 1 <= ll && n <= |bs| && cs == SplitTo(bs, n, ll) && k < |cs|
    ensures IsStretch(bs, n, Offset(k, ll), cs[k])
  {
    if n > 0 {
      var prev := SplitTo(bs, n - 1, ll);
      assert cs == PlaceIn(prev, bs[n - 1], ll);
      assert Offset(|prev|, ll) == Offset(|prev| - 1, ll) + ll;
      SplitToShape(bs, n - 1, ll);
      PlaceInLast(prev, bs[n - 1], ll);
      hide SplitTo, PlaceIn, Offset, IsStretch;
      SplitToStretch(bs, n - 1, ll, Min(k, |prev| - 1), prev);
      PlacedStretch(bs, n, ll, k, prev, Offset(|prev| - 1, ll), Offset(k, ll));
    }
  }

  lemma SplitToSlice(bs: seq<Burst>, n: nat, ll: nat, k: nat)
    requires 1 <= ll && n <= |bs| && k < |SplitTo(bs, n, ll)|
    ensures Offset(k, ll) + |SplitTo(bs, n, ll)[k]| <= n
    ensures SplitTo(bs, n, ll)[k] == bs[Offset(k, ll)..Offset(k, ll) + |SplitTo(bs, n, ll)[k]|]
  {
    hide SplitTo, Offset;
    SplitToStretch(bs, n, ll, k, SplitTo(bs, n, ll));
  }

  /** Chunk k is the k-th window of `ll` bursts of the flat list. */
  lemma SplitWindow(bs: seq<Burst>, ll: nat, k: nat)
    requires 1 <= ll && k < |Split(bs, ll)|
    ensures k * ll <= Min((k + 1) * ll, |bs|)
    ensures Split(bs, ll)[k] == bs[k * ll..Min((k + 1) * ll, |bs|)]
  {
    SplitToShape(bs, |bs|, ll);
    SplitToSlice(bs, |bs|, ll, k);
    OffsetIsProduct(k, ll);
    OffsetIsProduct(k + 1, ll);
  }

  /** With no room (`ll` is 0) the first chunk stays empty and the second takes every burst. */
  lemma {:induction false} SplitToNoRoom(bs: seq<Burst>, n: nat)
    requires n <= |bs|
    ensures SplitTo(bs, n, 0) == if n == 0 then [[]] else [[], bs[..n]]
  {
    if n > 0 {
      SplitToNoRoom(bs, n - 1);
      assert bs[..n] == bs[..n - 1] + [bs[n - 1]];
      if n == 1 {
        assert bs[..1] == [bs[0]];
      }
    }
  }

  lemma {:induction false} SplitToShort(bs: seq<Burst>, n: nat, ll: nat)
    requires n <= |bs| && n <= ll
    ensures SplitTo(bs, n, ll) == [bs[..n]]
  {
    if n > 0 {
      SplitToShort(bs, n - 1, ll);
      assert bs[..n] == bs[..n - 1] + [bs[n - 1]];
    }
  }

  /** No chunk exceeds the bound exactly when there is room for one burst or nothing to place. */
  lemma SplitBounded(bs: seq<Burst>, ll: nat)
    ensures (forall k :: 0 <= k < |Split(bs, ll)| ==> |Split(bs, ll)[k]| <= ll) <==> 1 <= ll || bs == []
  {
    if 1 <= ll {
      SplitShape(bs, ll);
    } else {
      SplitToNoRoom(bs, |bs|);
      if bs != [] {
        assert |Split(bs, ll)[1]| > ll;
      }
    }
  }

  /** Placing more bursts never needs fewer chunks. */
  lemma {:induction false} SplitToGrows(bs: seq<Burst>, n: nat, m: nat, ll: nat)
    requires n <= m <= |bs|
    ensures |SplitTo(bs, n, ll)| <= |SplitTo(bs, m, ll)|
  {
    if n < m {
      SplitToGrows(bs, n, m - 1, ll);
    }
  }
}
