/** What a compiled request looks like to the engine: which chunks it is handed, and how it is told to start them. */
module Starts {
  import opened Words
  import opened Bursts
  import opened Requests
  import opened Meaning
  import opened Heap
  import opened Descriptor
  import opened ChannelSpec
  import opened ChannelRuns

  lemma {:induction false} SizeConcat(a: seq<Burst>, b: seq<Burst>, n: nat)
    requires n <= |b|
    ensures SizeTo(a + b, |a| + n) == TotalSize(a) + SizeTo(b, n)
  {
    if n == 0 {
      SizeToPrefix(a, a + b, |a|);
    } else {
      SizeConcat(a, b, n - 1);
    }
  }

  /** The recorded sizes of the first k chunks add up to the bytes of their bursts, modulo 2^32. */
  lemma {:induction false} SumOfParts(parts: seq<seq<Burst>>, k: nat)
    requires k <= |parts|
    ensures Wrap32(SumTo(ChunksFrom(parts), k)) == Wrap32(TotalSize(FlattenTo(parts, k)))
  {
    if k > 0 {
      SumOfParts(parts, k - 1);
      SizeConcat(FlattenTo(parts, k - 1), parts[k - 1], |parts[k - 1]|);
      WrapSum(SumTo(ChunksFrom(parts), k - 1), TotalSize(FlattenTo(parts, k - 1)), TotalSize(parts[k - 1]));
    }
  }

  lemma WrapSum(a: nat, b: nat, x: nat)
    requires Wrap32(a) == Wrap32(b)
    ensures Wrap32(a + Wrap64(x)) == Wrap32(b + x)
  {
  }

  lemma {:induction false} FlattenIsPrefix(bs: seq<Burst>, ll: nat, k: nat)
    requires 1 <= ll && k <= |Split(bs, ll)|
    ensures FlattenTo(Split(bs, ll), k) == bs[..Min(k * ll, |bs|)]
  {
    if k > 0 {
      FlattenIsPrefix(bs, ll, k - 1);
      SplitWindow(bs, ll, k - 1);
    } else {
      assert 0 * ll == 0;
    }
  }

  lemma {:induction false} SizeOfPrefix(bs: seq<Burst>, n: nat)
    requires n <= |bs|
    ensures TotalSize(bs[..n]) == SizeTo(bs, n)
  {
    SizeToPrefix(bs[..n], bs, n);
  }

  /** Bytes in the first k chunks of a request: those of its first k * llMax bursts. */
  function BytesBefore(setup: Setup, dir: Direction, xfer: Transfer, k: nat): nat
    requires PayloadFits(xfer) && WellFormed(xfer) && 1 <= setup.llMax
  {
    var bs := BurstsOf(setup, dir, xfer);
    assert 0 <= k * setup.llMax;
    SizeTo(bs, Min(k * setup.llMax, |bs|))
  }

  lemma PlanSums(setup: Setup, dir: Direction, xfer: Transfer, k: nat)
    requires PayloadFits(xfer) && WellFormed(xfer) && 1 <= setup.llMax && k <= |Plan(setup, dir, xfer)|
    ensures Wrap32(SumTo(Plan(setup, dir, xfer), k)) == Wrap32(BytesBefore(setup, dir, xfer, k))
  {
    var bs := BurstsOf(setup, dir, xfer);
    SumOfParts(Split(bs, setup.llMax), k);
    FlattenIsPrefix(bs, setup.llMax, k);
    SizeOfPrefix(bs, Min(k * setup.llMax, |bs|));
  }

  /** A compiled descriptor is ready to be prepared on its channel. */
  lemma CompiledIsWhole(setup: Setup, dir: Direction, xfer: Transfer, id: nat, cookie: int)
    requires PayloadFits(xfer) && WellFormed(xfer)
    ensures var plan := Plan(setup, dir, xfer);
            Progressed(DescValue(id, cookie, plan, Wrap32(TotalSize(BurstsOf(setup, dir, xfer))), 0), plan, 0)
  {
    var parts := Split(BurstsOf(setup, dir, xfer), setup.llMax);
    SumOfParts(parts, |parts|);
    SplitFlatten(BurstsOf(setup, dir, xfer), setup.llMax);
  }

  lemma {:induction false} PlanStartsAt(id: nat, plan: seq<ChunkValue>, n: nat, k: nat)
    requires k < n <= |plan|
    ensures |PlanStarts(id, plan, n)| == n
    ensures PlanStarts(id, plan, n)[k] == Start(id, plan[k], Wrap32(SumTo(plan, k)) == 0)
  {
    PlanStartsLength(id, plan, n - 1);
    if k < n - 1 {
      PlanStartsAt(id, plan, n - 1, k);
    }
  }

  lemma {:induction false} PlanStartsLength(id: nat, plan: seq<ChunkValue>, n: nat)
    requires n <= |plan|
    ensures |PlanStarts(id, plan, n)| == n
  {
    if n > 0 {
      PlanStartsLength(id, plan, n - 1);
    }
  }

  /** The engine is set up for chunk k of a request exactly when a multiple of 2^32 bytes precedes it. */
  lemma SetUpFor(setup: Setup, dir: Direction, xfer: Transfer, id: nat, k: nat)
    requires PayloadFits(xfer) && WellFormed(xfer) && 1 <= setup.llMax && k < |Plan(setup, dir, xfer)|
    ensures var plan := Plan(setup, dir, xfer);
            && |PlanStarts(id, plan, |plan|)| == |plan|
            && PlanStarts(id, plan, |plan|)[k]
               == Start(id, plan[k], BytesBefore(setup, dir, xfer, k) % 0x1_0000_0000 == 0)
  {
    PlanStartsAt(id, Plan(setup, dir, xfer), |Plan(setup, dir, xfer)|, k);
    PlanSums(setup, dir, xfer, k);
  }

  /** The engine is set up for the first chunk of a request and for no other. */
  ghost predicate SetUpOnce(setup: Setup, dir: Direction, xfer: Transfer, id: nat)
    requires PayloadFits(xfer) && WellFormed(xfer)
  {
    var plan := Plan(setup, dir, xfer);
    var starts := PlanStarts(id, plan, |plan|);
    forall k :: 0 <= k < |starts| ==> (starts[k].first <==> k == 0)
  }

  /** Chunks begin at burst numbers that are multiples of llMax; none of these may fall on a multiple of 2^32 bytes. */
  ghost predicate NoRoundTotal(setup: Setup, dir: Direction, xfer: Transfer)
    requires PayloadFits(xfer) && WellFormed(xfer) && 1 <= setup.llMax
  {
    forall k :: 0 < k < |Plan(setup, dir, xfer)| ==> BytesBefore(setup, dir, xfer, k) % 0x1_0000_0000 != 0
  }

  lemma SetUpOnceIff(setup: Setup, dir: Direction, xfer: Transfer, id: nat)
    requires PayloadFits(xfer) && WellFormed(xfer) && 1 <= setup.llMax
    ensures SetUpOnce(setup, dir, xfer, id) <==> NoRoundTotal(setup, dir, xfer)
  {
    var plan := Plan(setup, dir, xfer);
    PlanStartsLength(id, plan, |plan|);
    forall k | 0 <= k < |plan|
      ensures PlanStarts(id, plan, |plan|)[k].first <==> BytesBefore(setup, dir, xfer, k) % 0x1_0000_0000 == 0
    {
      SetUpFor(setup, dir, xfer, id, k);
    }
    assert BytesBefore(setup, dir, xfer, 0) == 0;
  }

  lemma {:induction false} SizesPositive(bs: seq<Burst>, n: nat, m: nat)
    requires n <= m <= |bs| && forall i :: 0 <= i < |bs| ==> bs[i].sz > 0
    ensures SizeTo(bs, n) <= SizeTo(bs, m) && (n > 0 ==> SizeTo(bs, n) > 0)
    decreases m
  {
    if n < m {
      SizesPositive(bs, n, m - 1);
    } else if n > 0 {
      SizesPositive(bs, n - 1, n - 1);
    }
  }

  lemma SomeBytesBefore(bs: seq<Burst>, ll: nat, k: nat)
    requires 1 <= ll && 0 < k < |Split(bs, ll)| && forall i :: 0 <= i < |bs| ==> bs[i].sz > 0
    ensures 0 <= k * ll
    ensures 0 < SizeTo(bs, Min(k * ll, |bs|)) <= TotalSize(bs)
  {
    hide Split;
    SplitCount(bs, ll);
    assert bs != [];
    MulAtLeast(ll, k);
    SizesPositive(bs, Min(k * ll, |bs|), |bs|);
  }

  /** Any request of less than 4 GiB without empty bursts is set up once. */
  lemma SmallSetUpOnce(setup: Setup, dir: Direction, xfer: Transfer, id: nat)
    requires PayloadFits(xfer) && WellFormed(xfer) && 1 <= setup.llMax
    requires forall i :: 0 <= i < BurstCount(xfer) ==> BurstsOf(setup, dir, xfer)[i].sz > 0
    requires TotalSize(BurstsOf(setup, dir, xfer)) < 0x1_0000_0000
    ensures SetUpOnce(setup, dir, xfer, id)
  {
    hide BurstsOf, SizeTo, SetUpOnce;
    forall k | 0 < k < |Plan(setup, dir, xfer)|
      ensures BytesBefore(setup, dir, xfer, k) % 0x1_0000_0000 != 0
    {
      SomeBytesBefore(BurstsOf(setup, dir, xfer), setup.llMax, k);
    }
    SetUpOnceIff(setup, dir, xfer, id);
  }

  /** Three bursts of 2 GiB on a channel with one burst a chunk: the engine is set up again in mid-transfer. */
  function ThreeHalves(): Transfer {
    var e := SgEntry(0, 0x8000_0000);
    ScatterGather([e, e, e], 3)
  }

  lemma SetUpTwice(setup: Setup, dir: Direction, id: nat)
    requires setup.llMax == 1
    ensures !SetUpOnce(setup, dir, ThreeHalves(), id)
  {
    var xfer := ThreeHalves();
    PlanShape(setup, dir, xfer);
    var bs := BurstsOf(setup, dir, xfer);
    assert SizeTo(bs, 0) == 0;
    assert SizeTo(bs, 1) == 0x8000_0000;
    assert SizeTo(bs, 2) == 0x1_0000_0000;
    assert BytesBefore(setup, dir, xfer, 2) == 0x1_0000_0000;
    SetUpOnceIff(setup, dir, xfer, id);
  }

  /** One hand-over: the chunk is started, and its memory given back. */
  method HandOver(heap: Allocator, desc: Desc, id: nat, ghost plan: seq<ChunkValue>, ghost i: nat)
    returns (start: Start)
    requires i < |plan| && desc.Valid() && desc.Owned() <= heap.live && desc.chunks != []
    requires desc.Values() == plan[i..] && desc.xferSz == Wrap32(SumTo(plan, i))
    modifies heap, desc, desc.chunks[0]
    ensures desc.Valid() && desc.chunks == old(desc.chunks[1..])
    ensures desc.Values() == plan[i + 1..] && desc.xferSz == Wrap32(SumTo(plan, i + 1))
    ensures desc.Owned() <= heap.live && heap.live - desc.Owned() == old(heap.live - desc.Owned())
    ensures PlanStarts(id, plan, i + 1) == PlanStarts(id, plan, i) + [start]
  {
    hide Desc.Valid, Desc.Owned, Wrap32, Add32, Low32;
    SumNext(plan, i);
    var chunk, first := desc.TakeFirst(heap);
    start := Start(id, chunk, first);
  }

  /**
   A descriptor's whole life: compiled, up to n of its chunks handed over one by one, then freed with
   whatever is left. However far it got, exactly its memory is given back, each cell once, and the
   engine has seen the first chunks of the plan, in order.
   */
  method Lifecycle(heap: Allocator, setup: Setup, dir: Direction, xfer: Transfer, id: nat, n: nat)
    returns (compiled: bool, starts: seq<Start>)
    requires WellFormed(xfer)
    modifies heap
    ensures heap.live == old(heap.live)
    ensures compiled <==> Accepted(setup, dir, xfer) &&
                          !SomeFails(heap, old(heap.calls), old(heap.calls) + RequestsNeeded(setup, dir, xfer))
    ensures compiled ==>
              var plan := Plan(setup, dir, xfer); starts == PlanStarts(id, plan, Min(n, |plan|))
    ensures !compiled ==> starts == []
  {
    hide Desc.Valid, Desc.Owned, Plan, BurstsOf, Wrap32, Add32, Low32, SomeFails, RequestsNeeded, TotalSize, Meant,
      Flatten, PlanStarts;
    starts := [];
    var desc := DeviceTransfer(heap, setup, dir, xfer);
    if desc == null {
      return false, starts;
    }
    ghost var plan := Plan(setup, dir, xfer);
    ghost var i := 0;
    NothingStarted(id, plan);
    while |starts| < n && desc.chunks != []
      invariant 0 <= i <= |plan| && |starts| == i <= n
      invariant fresh(desc) && fresh(desc.chunks) && desc.Valid()
      invariant desc.Values() == plan[i..] && desc.xferSz == Wrap32(SumTo(plan, i))
      invariant desc.Owned() <= heap.live && heap.live - desc.Owned() == old(heap.live)
      invariant starts == PlanStarts(id, plan, i)
      decreases |desc.chunks|
    {
      var start := HandOver(heap, desc, id, plan, i);
      starts := starts + [start];
      i := i + 1;
    }
    assert |desc.Values()| == |plan[i..]|;
    assert i == Min(n, |plan|);
    desc.FreeDesc(heap);
    return true, starts;
  }

  lemma NothingStarted(id: nat, plan: seq<ChunkValue>)
    ensures Wrap32(SumTo(plan, 0)) == 0 && PlanStarts(id, plan, 0) == []
  {
  }

  lemma SumNext(plan: seq<ChunkValue>, i: nat)
    requires i < |plan|
    ensures Wrap32(SumTo(plan, i + 1)) == Add32(Wrap32(SumTo(plan, i)), Low32(plan[i].sz))
  {
    Add32Wraps(SumTo(plan, i), plan[i].sz);
  }
}
