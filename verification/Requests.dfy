/**
 Transfer requests and the flat list of bursts each of them means.

 Everything here is stated by position: burst i of a request is given directly, without the
 running addresses of the build loop, the chunks or the allocations.
 */
module Requests {
  import opened Words
  import opened Bursts

  datatype Direction = MemToDev | DevToMem | OtherDirection

  datatype ChannelDir = WriteChannel | ReadChannel

  datatype SgEntry = SgEntry(addr: u64, len: u32)

  /** One element of an interleaved frame; the gaps are what the kernel's icg helpers answer for it. */
  datatype DataChunk = DataChunk(size: u64, srcIcg: u64, dstIcg: u64)

  datatype Template = Template(srcStart: u64, dstStart: u64, srcInc: bool, dstInc: bool,
                               srcSgl: bool, dstSgl: bool, numf: u64, frameSize: u64, sgl: seq<DataChunk>)

  datatype Transfer =
    | ScatterGather(sgl: seq<SgEntry>, len: u32)
    | Cyclic(paddr: u64, period: u64, periods: u64)
    | Interleaved(il: Template)
    | UnknownType

  /** What the engine reads of a channel while it builds a descriptor. */
  datatype Setup = Setup(configured: bool, local: bool, dir: ChannelDir, llMax: u32,
                         srcAddr: u64, dstAddr: u64, pciAddress: u64 -> u64)

  /** The caller's template really has the `frame_size` elements it announces. */
  ghost predicate WellFormed(xfer: Transfer) {
    xfer.Interleaved? ==> xfer.il.frameSize <= |xfer.il.sgl|
  }

  /** The channel's direction fits the transfer's; a remote engine inverts the sense. */
  predicate DirectionFits(local: bool, chanDir: ChannelDir, dir: Direction) {
    if local then
      !((chanDir.ReadChannel? && dir != DevToMem) || (chanDir.WriteChannel? && dir != MemToDev))
    else
      !((chanDir.WriteChannel? && dir != DevToMem) || (chanDir.ReadChannel? && dir != MemToDev))
  }

  predicate PayloadFits(xfer: Transfer) {
    match xfer
    case Cyclic(_, period, periods) => period != 0 && periods != 0
    case ScatterGather(_, len) => len >= 1
    case Interleaved(il) => il.numf != 0 && il.frameSize >= 1 && il.srcInc && il.dstInc
    case UnknownType => false
  }

  predicate Accepted(setup: Setup, dir: Direction, xfer: Transfer) {
    setup.configured && DirectionFits(setup.local, setup.dir, dir) && PayloadFits(xfer)
  }

  /** The loop bound, a 32-bit counter: larger counts are truncated. */
  function LoopBound(xfer: Transfer): u32 {
    match xfer
    case Cyclic(_, _, periods) => Wrap32(periods)
    case ScatterGather(_, len) => len
    case Interleaved(il) => Wrap32(il.numf * il.frameSize)
    case UnknownType => 0
  }

  /** The number of bursts made: a scatter list that ends early stops the loop. */
  function BurstCount(xfer: Transfer): u32 {
    if xfer.ScatterGather? then Min(xfer.len, |xfer.sgl|) else LoopBound(xfer)
  }

  /** The signed loop counter seen as a 64-bit index: from 2^31 on it is sign-extended. */
  function LoopIndex(i: u32): u64 {
    if i < 0x8000_0000 then i else i + 0xFFFF_FFFF_0000_0000
  }

  function FrameElement(il: Template, i: u32): DataChunk
    requires 1 <= il.frameSize <= |il.sgl|
  {
    il.sgl[LoopIndex(i) % il.frameSize]
  }

  /** How far one element moves the source (or destination) address. */
  function Stride(il: Template, dc: DataChunk, source: bool): nat {
    Wrap32(dc.size) +
    (if source then if il.srcSgl then dc.srcIcg else 0
     else if il.dstSgl then dc.dstIcg else 0)
  }

  /** Sum of the first i lengths of a scatter list. */
  function SgOffset(sgl: seq<SgEntry>, i: nat): nat
    requires i <= |sgl|
  {
    if i == 0 then 0 else SgOffset(sgl, i - 1) + sgl[i - 1].len
  }

  /** Sum of the first i moves of an interleaved transfer. */
  function IlOffset(il: Template, i: nat, source: bool): nat
    requires 1 <= il.frameSize <= |il.sgl| && i <= U32_RANGE
  {
    if i == 0 then 0 else IlOffset(il, i - 1, source) + Stride(il, FrameElement(il, i - 1), source)
  }

  function SourceStart(setup: Setup, dir: Direction, xfer: Transfer): u64 {
    var a := if xfer.Interleaved? then xfer.il.srcStart else setup.srcAddr;
    if dir == DevToMem then setup.pciAddress(a) else a
  }

  function DestStart(setup: Setup, dir: Direction, xfer: Transfer): u64 {
    var a := if xfer.Interleaved? then xfer.il.dstStart else setup.dstAddr;
    if dir == DevToMem then a else setup.pciAddress(a)
  }

  /** The source (or destination) address burst i is made with; the device side of a scatter list is linear memory. */
  function AddressAt(setup: Setup, dir: Direction, xfer: Transfer, i: nat, source: bool): u64
    requires PayloadFits(xfer) && WellFormed(xfer) && i <= BurstCount(xfer)
  {
    var start := if source then SourceStart(setup, dir, xfer) else DestStart(setup, dir, xfer);
    match xfer
    case ScatterGather(sgl, _) => if (dir == DevToMem) == source then Wrap64(start + SgOffset(sgl, i)) else start
    case Cyclic(_, _, _) => start
    case Interleaved(il) => Wrap64(start + IlOffset(il, i, source))
  }

  /** What the loop stores into burst i, given its running addresses. */
  function MakeBurst(dir: Direction, xfer: Transfer, i: nat, src: u64, dst: u64): Burst
    requires PayloadFits(xfer) && WellFormed(xfer) && i < BurstCount(xfer)
  {
    match xfer
    case ScatterGather(sgl, _) =>
      if dir == DevToMem then Burst(src, sgl[i].addr, sgl[i].len) else Burst(sgl[i].addr, dst, sgl[i].len)
    case Cyclic(paddr, period, _) =>
      if dir == DevToMem then Burst(src, paddr, Wrap32(period)) else Burst(paddr, dst, Wrap32(period))
    case Interleaved(il) => Burst(src, dst, Wrap32(FrameElement(il, i).size))
  }

  /** Burst i of a request. */
  function BurstAt(setup: Setup, dir: Direction, xfer: Transfer, i: nat): Burst
    requires PayloadFits(xfer) && WellFormed(xfer) && i < BurstCount(xfer)
  {
    MakeBurst(dir, xfer, i, AddressAt(setup, dir, xfer, i, true), AddressAt(setup, dir, xfer, i, false))
  }

  /** The address after burst i, as the loop advances it. */
  function NextAddress(dir: Direction, xfer: Transfer, i: nat, source: bool, a: u64): u64
    requires PayloadFits(xfer) && WellFormed(xfer) && i < BurstCount(xfer)
  {
    match xfer
    case ScatterGather(sgl, _) => if (dir == DevToMem) == source then Add64(a, sgl[i].len) else a
    case Cyclic(_, _, _) => a
    case Interleaved(il) =>
      var dc := FrameElement(il, i);
      var b := Add64(a, Wrap32(dc.size));
      if source then if il.srcSgl then Add64(b, dc.srcIcg) else b
      else if il.dstSgl then Add64(b, dc.dstIcg) else b
  }

  /** The running addresses are the positional ones. */
  lemma AddressAdvances(setup: Setup, dir: Direction, xfer: Transfer, i: nat, source: bool)
    requires PayloadFits(xfer) && WellFormed(xfer) && i < BurstCount(xfer)
    ensures AddressAt(setup, dir, xfer, i + 1, source) ==
            NextAddress(dir, xfer, i, source, AddressAt(setup, dir, xfer, i, source))
  {
    hide IlOffset, SgOffset, SourceStart, DestStart, Wrap64, Add64, FrameElement, Stride;
    var start := if source then SourceStart(setup, dir, xfer) else DestStart(setup, dir, xfer);
    match xfer
    case ScatterGather(sgl, _) => ScatterNext(start, sgl, i);
    case Cyclic(_, _, _) =>
    case Interleaved(il) => InterleavedNext(start, dir, il, i, source);
  }

  lemma ScatterNext(start: u64, sgl: seq<SgEntry>, i: nat)
    requires i < |sgl|
    ensures Wrap64(start + SgOffset(sgl, i + 1)) == Add64(Wrap64(start + SgOffset(sgl, i)), sgl[i].len)
  {
    Add64Wraps(start + SgOffset(sgl, i), sgl[i].len);
  }

  lemma InterleavedNext(start: u64, dir: Direction, il: Template, i: nat, source: bool)
    requires PayloadFits(Interleaved(il)) && il.frameSize <= |il.sgl| && i < LoopBound(Interleaved(il))
    ensures Wrap64(start + IlOffset(il, i + 1, source)) ==
            NextAddress(dir, Interleaved(il), i, source, Wrap64(start + IlOffset(il, i, source)))
  {
    InterleavedAdvances(start + IlOffset(il, i, source), FrameElement(il, i));
  }

  lemma InterleavedAdvances(x: int, dc: DataChunk)
    ensures Add64(Wrap64(x), Wrap32(dc.size)) == Wrap64(x + Wrap32(dc.size))
    ensures Add64(Wrap64(x + Wrap32(dc.size)), dc.srcIcg) == Wrap64(x + (Wrap32(dc.size) + dc.srcIcg))
    ensures Add64(Wrap64(x + Wrap32(dc.size)), dc.dstIcg) == Wrap64(x + (Wrap32(dc.size) + dc.dstIcg))
  {
    Add64Wraps(x, Wrap32(dc.size));
    Add64Wraps(x + Wrap32(dc.size), dc.srcIcg);
    Add64Wraps(x + Wrap32(dc.size), dc.dstIcg);
  }

  lemma AddressStarts(setup: Setup, dir: Direction, xfer: Transfer, source: bool)
    requires PayloadFits(xfer) && WellFormed(xfer)
    ensures AddressAt(setup, dir, xfer, 0, source) ==
            if source then SourceStart(setup, dir, xfer) else DestStart(setup, dir, xfer)
  {
  }

  function BurstsOf(setup: Setup, dir: Direction, xfer: Transfer): (bs: seq<Burst>)
    requires PayloadFits(xfer) && WellFormed(xfer)
    ensures |bs| == BurstCount(xfer)
  {
    seq(BurstCount(xfer), i requires 0 <= i < BurstCount(xfer) => BurstAt(setup, dir, xfer, i))
  }

  /** A chunk as the engine sees it: chunks alternate the cycle bit, starting with 1. */
  function ChunkAt(parts: seq<seq<Burst>>, k: nat): ChunkValue
    requires k < |parts|
  {
    ChunkValue(parts[k], k % 2 == 0, Wrap64(TotalSize(parts[k])))
  }

  function ChunksFrom(parts: seq<seq<Burst>>): (cs: seq<ChunkValue>)
    ensures |cs| == |parts|
  {
    seq(|parts|, k requires 0 <= k < |parts| => ChunkAt(parts, k))
  }

  /** The chunk list a request compiles to. */
  function Plan(setup: Setup, dir: Direction, xfer: Transfer): seq<ChunkValue>
    requires PayloadFits(xfer) && WellFormed(xfer)
  {
    ChunksFrom(Split(BurstsOf(setup, dir, xfer), setup.llMax))
  }

  // Interleaved transfers: the running addresses have a closed form.

  /** Sum of the first r moves within one frame. */
  function FramePrefix(il: Template, r: nat, source: bool): nat
    requires r <= |il.sgl|
  {
    if r == 0 then 0 else FramePrefix(il, r - 1, source) + Stride(il, il.sgl[r - 1], source)
  }

  lemma MulAtLeast(m: int, k: int)
    requires 0 <= m
    ensures k >= 1 ==> m * k >= m
    ensures k <= -1 ==> m * k <= -m
  {
  }

  lemma MulDistributes(m: int, a: int, b: int)
    ensures m * (a - b) == m * a - m * b
    ensures m * (a + b) == m * a + m * b
  {
  }

  lemma DivModUnique(d: nat, m: nat, q: nat, r: nat)
    requires r < m && d == m * q + r
    ensures d / m == q && d % m == r
  {
    var e, f := d / m, d % m;
    assert d == m * e + f && 0 <= f < m;
    MulDistributes(m, e, q);
    MulAtLeast(m, e - q);
    assert e - q == 0;
  }

  /** The counter picks the intended element of the frame at every position below `cnt`. */
  ghost predicate IndexFaithful(cnt: nat, fsz: nat)
    requires 1 <= fsz && cnt <= U32_RANGE
  {
    forall i: u32 :: i < cnt ==> LoopIndex(i) % fsz == i % fsz
  }

  lemma ShiftedRemainder(x: nat, big: nat, m: nat)
    requires 1 <= m
    ensures (x + big) % m == x % m <==> big % m == 0
  {
    var r := x % m;
    assert x == m * (x / m) + r;
    assert big == m * (big / m) + big % m;
    if big % m == 0 {
      MulDistributes(m, x / m, big / m);
      DivModUnique(x + big, m, x / m + big / m, r);
    } else if (x + big) % m == r {
      assert x + big == m * ((x + big) / m) + r;
      MulDistributes(m, (x + big) / m, x / m);
      var q := (x + big) / m - x / m;
      assert big == m * q;
      MulAtLeast(m, q);
      DivModUnique(big, m, q, 0);
    }
  }

  /**
   The signed loop counter indexes frames correctly exactly when it never reaches 2^31 or the
   frame length divides 2^64 - 2^32, the amount by which sign extension shifts the index.
   */
  lemma IndexFaithfulIff(cnt: nat, fsz: nat)
    requires 1 <= fsz && cnt <= U32_RANGE
    ensures IndexFaithful(cnt, fsz) <==> IndexSafe(cnt, fsz)
  {
    if 0xFFFF_FFFF_0000_0000 % fsz == 0 {
      forall i: u32 | i < cnt
        ensures LoopIndex(i) % fsz == i % fsz
      {
        ShiftedRemainder(i, 0xFFFF_FFFF_0000_0000, fsz);
      }
    } else if cnt > 0x8000_0000 {
      ShiftedRemainder(0x8000_0000, 0xFFFF_FFFF_0000_0000, fsz);
      assert LoopIndex(0x8000_0000) % fsz != 0x8000_0000 % fsz;
    }
  }

  /** The exact condition, on a request, under which the signed counter is harmless. */
  predicate IndexSafe(cnt: nat, fsz: nat)
    requires 1 <= fsz
  {
    cnt <= 0x8000_0000 || 0xFFFF_FFFF_0000_0000 % fsz == 0
  }

  /** The element the loop picks at position q * frameSize + r is element r. */
  lemma ElementPicked(il: Template, i: u32, q: nat, r: nat)
    requires 1 <= il.frameSize <= |il.sgl| && IndexSafe(i + 1, il.frameSize)
    requires r < il.frameSize && i == Offset(q, il.frameSize) + r
    ensures FrameElement(il, i) == il.sgl[r]
  {
    OffsetIsProduct(q, il.frameSize);
    DivModUnique(i, il.frameSize, q, r);
    if i >= 0x8000_0000 {
      ShiftedRemainder(i, 0xFFFF_FFFF_0000_0000, il.frameSize);
    }
  }

  /** After q whole frames and r more elements the address has moved by q frame strides and a prefix. */
  lemma {:induction false} InterleavedPosition(il: Template, q: nat, r: nat, source: bool)
    requires 1 <= il.frameSize <= |il.sgl| && r <= il.frameSize
    requires Offset(q, il.frameSize) + r <= U32_RANGE && IndexSafe(Offset(q, il.frameSize) + r, il.frameSize)
    ensures IlOffset(il, Offset(q, il.frameSize) + r, source) ==
            Offset(q, FramePrefix(il, il.frameSize, source)) + FramePrefix(il, r, source)
    decreases q, r
  {
    if r > 0 {
      InterleavedPosition(il, q, r - 1, source);
      ElementPicked(il, Offset(q, il.frameSize) + r - 1, q, r - 1);
    } else if q > 0 {
      InterleavedPosition(il, q - 1, il.frameSize, source);
    }
  }

  lemma InterleavedOffset(il: Template, i: nat, q: nat, r: nat, source: bool)
    requires 1 <= il.frameSize <= |il.sgl| && r <= il.frameSize
    requires i <= U32_RANGE && IndexSafe(i, il.frameSize) && i == Offset(q, il.frameSize) + r
    ensures IlOffset(il, i, source) == q * FramePrefix(il, il.frameSize, source) + FramePrefix(il, r, source)
  {
    InterleavedPosition(il, q, r, source);
    OffsetIsProduct(q, FramePrefix(il, il.frameSize, source));
  }

  /**
   Interleaved compilation refines the closed form: burst i = q * frameSize + r copies element r,
   from and to the start address plus q frame strides plus the sizes and enabled gaps before it.
   */
  lemma InterleavedBurst(setup: Setup, dir: Direction, il: Template, i: nat, q: nat, r: nat)
    requires PayloadFits(Interleaved(il)) && il.frameSize <= |il.sgl|
    requires i < BurstCount(Interleaved(il)) && IndexSafe(i + 1, il.frameSize)
    requires r < il.frameSize && i == q * il.frameSize + r
    ensures BurstAt(setup, dir, Interleaved(il), i) ==
            Burst(Wrap64(SourceStart(setup, dir, Interleaved(il)) +
                         (q * FramePrefix(il, il.frameSize, true) + FramePrefix(il, r, true))),
                  Wrap64(DestStart(setup, dir, Interleaved(il)) +
                         (q * FramePrefix(il, il.frameSize, false) + FramePrefix(il, r, false))),
                  Wrap32(il.sgl[r].size))
  {
    OffsetIsProduct(q, il.frameSize);
    ElementPicked(il, i, q, r);
    InterleavedOffset(il, i, q, r, true);
    InterleavedOffset(il, i, q, r, false);
  }

  /** A little over 2^31 bursts in frames of 7 elements, of 1 to 7 bytes. */
  function ManyFrames(): Template {
    Template(0, 0, true, true, false, false, 0x1249_2493, 7,
             [DataChunk(1, 0, 0), DataChunk(2, 0, 0), DataChunk(3, 0, 0), DataChunk(4, 0, 0), DataChunk(5, 0, 0),
              DataChunk(6, 0, 0), DataChunk(7, 0, 0)])
  }

  /** Its burst number 2^31 stands for element 2 of a frame, of 3 bytes; the loop makes one of element 0, of 1 byte. */
  lemma InterleavedIndexDiverges(setup: Setup, dir: Direction)
    ensures var xfer := Interleaved(ManyFrames());
            && PayloadFits(xfer) && WellFormed(xfer) && 0x8000_0000 < BurstCount(xfer)
            && BurstAt(setup, dir, xfer, 0x8000_0000).sz == 1
            && ManyFrames().sgl[0x8000_0000 % 7].size == 3
    ensures !IndexFaithful(BurstCount(Interleaved(ManyFrames())), 7)
  {
    IndexFaithfulIff(BurstCount(Interleaved(ManyFrames())), 7);
    assert LoopIndex(0x8000_0000) % 7 == 0;
    assert FrameElement(ManyFrames(), 0x8000_0000) == ManyFrames().sgl[0];
    hide IlOffset, AddressAt;
  }

  // The compiled chunks taken together.

  function ChunkBursts(cs: seq<ChunkValue>): seq<seq<Burst>> {
    seq(|cs|, k requires 0 <= k < |cs| => cs[k].bursts)
  }

  /** Flattening a plan gives back exactly the bursts the request means, in order. */
  lemma PlanMeaning(setup: Setup, dir: Direction, xfer: Transfer)
    requires PayloadFits(xfer) && WellFormed(xfer)
    ensures Flatten(ChunkBursts(Plan(setup, dir, xfer))) == BurstsOf(setup, dir, xfer)
  {
    var parts := Split(BurstsOf(setup, dir, xfer), setup.llMax);
    assert ChunkBursts(ChunksFrom(parts)) == parts;
    SplitFlatten(BurstsOf(setup, dir, xfer), setup.llMax);
  }

  /** Shape of a plan: cycle bits 1,0,1,0,..., the ceiling number of chunks, full ones but for the last. */
  lemma PlanShape(setup: Setup, dir: Direction, xfer: Transfer)
    requires PayloadFits(xfer) && WellFormed(xfer) && 1 <= setup.llMax
    ensures var plan := Plan(setup, dir, xfer);
            var n := BurstCount(xfer);
            && 1 <= |plan|
            && (forall k :: 0 <= k < |plan| ==> plan[k].cb == (k % 2 == 0))
            && (forall k :: 0 <= k < |plan| - 1 ==> |plan[k].bursts| == setup.llMax)
            && |plan[|plan| - 1].bursts| <= setup.llMax
            && (n == 0 ==> |plan| == 1)
            && (n > 0 ==> (|plan| - 1) * setup.llMax < n <= |plan| * setup.llMax)
  {
    SplitShape(BurstsOf(setup, dir, xfer), setup.llMax);
    SplitCount(BurstsOf(setup, dir, xfer), setup.llMax);
  }
}
