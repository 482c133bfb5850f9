/**
 What an accepted request compiles to, read off the request itself: how many bursts, and for each one its
 length and both addresses, without the running addresses, loop bounds and chunks of the compiler.
 */
module Meaning {
  import opened Words
  import opened Bursts
  import opened Requests

  // Which requests are accepted.

  /** The one direction the channel advertises to its clients. */
  function CapsDirection(local: bool, chanDir: ChannelDir): Direction {
    if local then (if chanDir == ReadChannel then DevToMem else MemToDev)
    else if chanDir == WriteChannel then DevToMem else MemToDev
  }

  /** A transfer type with a payload to move. */
  predicate HasPayload(xfer: Transfer) {
    || (xfer.Cyclic? && 0 < xfer.period && 0 < xfer.periods)
    || (xfer.ScatterGather? && 0 < xfer.len)
    || (xfer.Interleaved? && 0 < xfer.il.numf && 0 < xfer.il.frameSize && xfer.il.srcInc && xfer.il.dstInc)
  }

  /** A configured channel accepts exactly the direction it advertises, with a payload; never any other direction. */
  lemma AcceptedExactly(setup: Setup, dir: Direction, xfer: Transfer)
    ensures Accepted(setup, dir, xfer) <==>
            setup.configured && dir == CapsDirection(setup.local, setup.dir) && HasPayload(xfer)
    ensures DirectionFits(true, WriteChannel, MemToDev) && !DirectionFits(true, WriteChannel, DevToMem)
    ensures DirectionFits(true, ReadChannel, DevToMem) && !DirectionFits(true, ReadChannel, MemToDev)
    ensures DirectionFits(false, WriteChannel, DevToMem) && !DirectionFits(false, WriteChannel, MemToDev)
    ensures DirectionFits(false, ReadChannel, MemToDev) && !DirectionFits(false, ReadChannel, DevToMem)
  {
  }

  // What they mean.

  /** The address of a burst on the device side. */
  function DeviceSide(dir: Direction, b: Burst): u64 {
    if dir == DevToMem then b.sar else b.dar
  }

  function HostSide(dir: Direction, b: Burst): u64 {
    if dir == DevToMem then b.dar else b.sar
  }

  /** The device address of a slave transfer, as seen on the bus. */
  function DeviceStart(setup: Setup, dir: Direction): u64 {
    setup.pciAddress(if dir == DevToMem then setup.srcAddr else setup.dstAddr)
  }

  /**
   Burst i has the length and bus address of list entry i, and on the device side begins where the one before
   it ended, the first one at the configured address.
   */
  predicate EntryMeant(setup: Setup, dir: Direction, sgl: seq<SgEntry>, bs: seq<Burst>, i: nat)
    requires i < |bs| <= |sgl|
  {
    && bs[i].sz == sgl[i].len && HostSide(dir, bs[i]) == sgl[i].addr
    && DeviceSide(dir, bs[i]) ==
       if i == 0 then DeviceStart(setup, dir)
       else (DeviceSide(dir, bs[i - 1]) + sgl[i - 1].len) % 0x1_0000_0000_0000_0000
  }

  /** One burst for every list entry, up to the length announced. */
  ghost predicate ScatterMeant(setup: Setup, dir: Direction, sgl: seq<SgEntry>, len: u32, bs: seq<Burst>) {
    && |bs| == (if len < |sgl| then len else |sgl|)
    && forall i :: 0 <= i < |bs| ==> EntryMeant(setup, dir, sgl, bs, i)
  }

  /** One burst a period, all alike, between the period's bus address and the configured device address. */
  ghost predicate CyclicMeant(setup: Setup, dir: Direction, paddr: u64, period: u64, periods: u64, bs: seq<Burst>) {
    && |bs| == periods % 0x1_0000_0000
    && (forall i :: 0 <= i < |bs| ==>
          && bs[i].sz == period % 0x1_0000_0000
          && HostSide(dir, bs[i]) == paddr && DeviceSide(dir, bs[i]) == DeviceStart(setup, dir))
  }

  /** How far the first r elements of a frame move the source address: their sizes, and their gaps if enabled. */
  function SourceMove(il: Template, r: nat): nat
    requires r <= |il.sgl|
  {
    if r == 0 then 0
    else SourceMove(il, r - 1) + il.sgl[r - 1].size % 0x1_0000_0000 + (if il.srcSgl then il.sgl[r - 1].srcIcg else 0)
  }

  /** The same of the destination address, with its own gaps. */
  function DestMove(il: Template, r: nat): nat
    requires r <= |il.sgl|
  {
    if r == 0 then 0
    else DestMove(il, r - 1) + il.sgl[r - 1].size % 0x1_0000_0000 + (if il.dstSgl then il.sgl[r - 1].dstIcg else 0)
  }

  /**
   Element r of frame q: read at the source and stored at the destination address, each moved by q whole frames
   and by the elements before it in its frame.
   */
  function FrameBurst(source: u64, dest: u64, il: Template, q: nat, r: nat): Burst
    requires r < il.frameSize <= |il.sgl|
  {
    Burst((source + (q * SourceMove(il, il.frameSize) + SourceMove(il, r))) % 0x1_0000_0000_0000_0000,
          (dest + (q * DestMove(il, il.frameSize) + DestMove(il, r))) % 0x1_0000_0000_0000_0000,
          il.sgl[r].size % 0x1_0000_0000)
  }

  /**
   One burst for each element of each frame, frame by frame, from the template's source to its destination
   address; the device side of the two is translated to a bus address.
   */
  ghost predicate InterleavedMeant(setup: Setup, dir: Direction, il: Template, bs: seq<Burst>)
    requires 1 <= il.frameSize <= |il.sgl|
  {
    var source := if dir == DevToMem then setup.pciAddress(il.srcStart) else il.srcStart;
    var dest := if dir == DevToMem then il.dstStart else setup.pciAddress(il.dstStart);
    && |bs| == (il.numf * il.frameSize) % 0x1_0000_0000
    && (IndexSafe(|bs|, il.frameSize) ==>
          forall q: nat, r: nat :: r < il.frameSize && 0 <= q * il.frameSize + r < |bs| ==>
            bs[q * il.frameSize + r] == FrameBurst(source, dest, il, q, r))
  }

  /** The bursts mean the request. */
  ghost predicate Meant(setup: Setup, dir: Direction, xfer: Transfer, bs: seq<Burst>)
    requires PayloadFits(xfer) && WellFormed(xfer)
  {
    match xfer
    case ScatterGather(sgl, len) => ScatterMeant(setup, dir, sgl, len, bs)
    case Cyclic(paddr, period, periods) => CyclicMeant(setup, dir, paddr, period, periods, bs)
    case Interleaved(il) => InterleavedMeant(setup, dir, il, bs)
    case UnknownType => false
  }

  lemma ScatterMeans(setup: Setup, dir: Direction, sgl: seq<SgEntry>, len: u32)
    requires 1 <= len
    ensures ScatterMeant(setup, dir, sgl, len, BurstsOf(setup, dir, ScatterGather(sgl, len)))
  {
    hide BurstsOf, DeviceSide, HostSide, DeviceStart, Wrap64;
    var bs := BurstsOf(setup, dir, ScatterGather(sgl, len));
    forall i | 0 <= i < |bs|
      ensures EntryMeant(setup, dir, sgl, bs, i)
    {
      EntryMeans(setup, dir, sgl, len, i);
    }
  }

  lemma EntryMeans(setup: Setup, dir: Direction, sgl: seq<SgEntry>, len: u32, i: nat)
    requires 1 <= len && i < BurstCount(ScatterGather(sgl, len))
    ensures EntryMeant(setup, dir, sgl, BurstsOf(setup, dir, ScatterGather(sgl, len)), i)
  {
    if 0 < i {
      AddressAdvances(setup, dir, ScatterGather(sgl, len), i - 1, dir == DevToMem);
      hide AddressAt;
    } else {
      AddressStarts(setup, dir, ScatterGather(sgl, len), dir == DevToMem);
    }
  }

  lemma CyclicMeans(setup: Setup, dir: Direction, paddr: u64, period: u64, periods: u64)
    requires 0 < period && 0 < periods
    ensures CyclicMeant(setup, dir, paddr, period, periods, BurstsOf(setup, dir, Cyclic(paddr, period, periods)))
  {
  }

  /** The compiler's running sums within a frame are these. */
  lemma {:induction false} MovesAre(il: Template, r: nat)
    requires r <= |il.sgl|
    ensures FramePrefix(il, r, true) == SourceMove(il, r) && FramePrefix(il, r, false) == DestMove(il, r)
  {
    if r > 0 {
      MovesAre(il, r - 1);
    }
  }

  lemma InterleavedMeans(setup: Setup, dir: Direction, il: Template)
    requires PayloadFits(Interleaved(il)) && il.frameSize <= |il.sgl|
    ensures InterleavedMeant(setup, dir, il, BurstsOf(setup, dir, Interleaved(il)))
  {
    var xfer := Interleaved(il);
    var bs := BurstsOf(setup, dir, xfer);
    assert |bs| == Wrap32(il.numf * il.frameSize);
    var source, dest := SourceStart(setup, dir, xfer), DestStart(setup, dir, xfer);
    if IndexSafe(|bs|, il.frameSize) {
      hide BurstsOf, FrameBurst, IndexSafe, Wrap32;
      forall q: nat, r: nat | r < il.frameSize && 0 <= q * il.frameSize + r < |bs|
        ensures bs[q * il.frameSize + r] == FrameBurst(source, dest, il, q, r)
      {
        var i := q * il.frameSize + r;
        SafeBelow(i + 1, |bs|, il.frameSize);
        ElementMeans(setup, dir, il, i, q, r);
      }
    }
    hide BurstsOf, FrameBurst, IndexSafe;
  }

  lemma SafeBelow(n: nat, cnt: nat, m: nat)
    requires 1 <= m && n <= cnt && IndexSafe(cnt, m)
    ensures IndexSafe(n, m)
  {
  }

  lemma ElementMeans(setup: Setup, dir: Direction, il: Template, i: nat, q: nat, r: nat)
    requires PayloadFits(Interleaved(il)) && il.frameSize <= |il.sgl|
    requires i < BurstCount(Interleaved(il)) && IndexSafe(i + 1, il.frameSize)
    requires r < il.frameSize && i == q * il.frameSize + r
    ensures var xfer := Interleaved(il);
            BurstsOf(setup, dir, xfer)[i] ==
            FrameBurst(SourceStart(setup, dir, xfer), DestStart(setup, dir, xfer), il, q, r)
  {
    InterleavedBurst(setup, dir, il, i, q, r);
    hide SourceStart, DestStart, IlOffset, AddressAt, IndexSafe, FramePrefix, SourceMove, DestMove, BurstAt, BurstCount;
    MovesAre(il, il.frameSize);
    MovesAre(il, r);
  }

  /** The chunks of a plan, taken together, mean the request. */
  lemma PlanMeans(setup: Setup, dir: Direction, xfer: Transfer)
    requires PayloadFits(xfer) && WellFormed(xfer)
    ensures Meant(setup, dir, xfer, Flatten(ChunkBursts(Plan(setup, dir, xfer))))
  {
    PlanMeaning(setup, dir, xfer);
    hide BurstsOf, Plan, ScatterMeant, CyclicMeant, InterleavedMeant;
    match xfer
    case ScatterGather(sgl, len) => ScatterMeans(setup, dir, sgl, len);
    case Cyclic(paddr, period, periods) => CyclicMeans(setup, dir, paddr, period, periods);
    case Interleaved(il) => InterleavedMeans(setup, dir, il);
    case UnknownType =>
  }
}
