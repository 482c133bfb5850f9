/**
 Byte memory of the host and of the device, and what running bursts does to it.

 A channel copies between the two memories: for MEM_TO_DEV the source addresses are host
 addresses and the destinations device addresses, for DEV_TO_MEM the other way round.
 */
module Memory {
  import opened Words
  import opened Bursts
  import opened Requests

  type Mem = int -> byte

  datatype World = World(host: Mem, dev: Mem)

  function Load(m: Mem, a: int, n: nat): (data: seq<byte>)
    ensures |data| == n
  {
    seq(n, i requires 0 <= i < n => m(a + i))
  }

  function Put(m: Mem, a: int, data: seq<byte>): Mem {
    (x: int) => if a <= x < a + |data| then data[x - a] else m(x)
  }

  ghost predicate Same(m: Mem, m': Mem) {
    forall a: int :: m(a) == m'(a)
  }

  /** What the engine does for one list entry. */
  function RunBurst(dir: Direction, w: World, b: Burst): World {
    if dir == DevToMem then
      World(Put(w.host, b.dar, Load(w.dev, b.sar, b.sz)), w.dev)
    else
      World(w.host, Put(w.dev, b.dar, Load(w.host, b.sar, b.sz)))
  }

  /** What it does for the first n entries. */
  function RunTo(dir: Direction, w: World, bs: seq<Burst>, n: nat): World
    requires n <= |bs|
  {
    if n == 0 then w else RunBurst(dir, RunTo(dir, w, bs, n - 1), bs[n - 1])
  }

  function RunBursts(dir: Direction, w: World, bs: seq<Burst>): World {
    RunTo(dir, w, bs, |bs|)
  }

  lemma {:induction false} RunToConcat(dir: Direction, w: World, a: seq<Burst>, b: seq<Burst>, n: nat)
    requires n <= |b|
    ensures RunTo(dir, w, a + b, |a| + n) == RunTo(dir, RunBursts(dir, w, a), b, n)
  {
    if n > 0 {
      RunToConcat(dir, w, a, b, n - 1);
      assert (a + b)[|a| + n - 1] == b[n - 1];
    } else {
      RunToPrefix(dir, w, a, a + b, |a|);
    }
  }

  lemma {:induction false} RunToPrefix(dir: Direction, w: World, a: seq<Burst>, b: seq<Burst>, n: nat)
    requires n <= |a| && a <= b
    ensures RunTo(dir, w, a, n) == RunTo(dir, w, b, n)
  {
    if n > 0 {
      RunToPrefix(dir, w, a, b, n - 1);
    }
  }

  /** The bytes a scatter list names, in list order. */
  function Gather(m: Mem, sgl: seq<SgEntry>, n: nat): (data: seq<byte>)
    requires n <= |sgl|
    ensures |data| == SgOffset(sgl, n)
  {
    if n == 0 then [] else Gather(m, sgl, n - 1) + Load(m, sgl[n - 1].addr, sgl[n - 1].len)
  }

  /** Cutting one run of bytes over the entries of a scatter list, in list order. */
  function Scatter(m: Mem, sgl: seq<SgEntry>, n: nat, data: seq<byte>): Mem
    requires n <= |sgl| && |data| == SgOffset(sgl, n)
  {
    if n == 0 then m
    else
      var k := SgOffset(sgl, n - 1);
      Put(Scatter(m, sgl, n - 1, data[..k]), sgl[n - 1].addr, data[k..])
  }

  lemma SgOffsetMonotone(sgl: seq<SgEntry>, i: nat, n: nat)
    requires i <= n <= |sgl|
    ensures SgOffset(sgl, i) <= SgOffset(sgl, n)
    decreases n - i
  {
    if i < n {
      SgOffsetMonotone(sgl, i + 1, n);
    }
  }

  /** Storing two runs of bytes next to each other is storing their concatenation. */
  lemma PutAppend(m: Mem, m': Mem, a: int, s: seq<byte>, t: seq<byte>, b: int)
    requires Same(m', Put(m, a, s)) && (t != [] ==> b == a + |s|)
    ensures Same(Put(m', b, t), Put(m, a, s + t))
  {
  }

  /**
   Writing to the device: the bursts of a scatter list together store the gathered bytes as one
   contiguous run at the start address, and nothing else changes.
   */
  lemma {:induction false} RunGathers(w: World, setup: Setup, xfer: Transfer, n: nat)
    requires xfer.ScatterGather? && 1 <= xfer.len && n <= xfer.len && n <= |xfer.sgl|
    requires setup.pciAddress(setup.dstAddr) + SgOffset(xfer.sgl, n) <= U64_RANGE
    ensures n <= BurstCount(xfer)
    ensures var w' := RunTo(MemToDev, w, BurstsOf(setup, MemToDev, xfer), n);
            && w'.host == w.host
            && Same(w'.dev, Put(w.dev, setup.pciAddress(setup.dstAddr), Gather(w.host, xfer.sgl, n)))
  {
    var bs := BurstsOf(setup, MemToDev, xfer);
    if n > 0 {
      hide BurstsOf, Wrap64, DestStart;
      RunGathers(w, setup, xfer, n - 1);
      var dst := setup.pciAddress(setup.dstAddr);
      var entry := xfer.sgl[n - 1];
      var before := RunTo(MemToDev, w, bs, n - 1);
      GatherBurst(setup, xfer, n - 1);
      PutAppend(w.dev, before.dev, dst, Gather(w.host, xfer.sgl, n - 1), Load(w.host, entry.addr, entry.len),
                bs[n - 1].dar);
    }
  }

  /** A burst towards the device lands where the earlier ones ended. */
  lemma GatherBurst(setup: Setup, xfer: Transfer, i: nat)
    requires xfer.ScatterGather? && 1 <= xfer.len && i < BurstCount(xfer)
    requires setup.pciAddress(setup.dstAddr) + SgOffset(xfer.sgl, i + 1) <= U64_RANGE
    ensures var b := BurstsOf(setup, MemToDev, xfer)[i];
            && b.sar == xfer.sgl[i].addr && b.sz == xfer.sgl[i].len
            && (b.sz > 0 ==> b.dar == setup.pciAddress(setup.dstAddr) + SgOffset(xfer.sgl, i))
  {
  }

  lemma PutSame(m: Mem, m': Mem, a: int, data: seq<byte>)
    requires Same(m, m')
    ensures Same(Put(m, a, data), Put(m', a, data))
  {
  }

  lemma LoadSplit(m: Mem, a: int, k: nat, n: nat)
    requires k <= n
    ensures Load(m, a, n)[..k] == Load(m, a, k)
    ensures Load(m, a, n)[k..] == Load(m, a + k, n - k)
  {
  }

  /**
   Reading from the device: the bursts of a scatter list together take one contiguous run from
   the start address and scatter it over the list, and nothing else changes.
   */
  lemma {:induction false} RunScatters(w: World, setup: Setup, xfer: Transfer, n: nat)
    requires xfer.ScatterGather? && 1 <= xfer.len && n <= xfer.len && n <= |xfer.sgl|
    requires setup.pciAddress(setup.srcAddr) + SgOffset(xfer.sgl, n) <= U64_RANGE
    ensures n <= BurstCount(xfer)
    ensures var w' := RunTo(DevToMem, w, BurstsOf(setup, DevToMem, xfer), n);
            && w'.dev == w.dev
            && Same(w'.host, Scatter(w.host, xfer.sgl, n,
                                     Load(w.dev, setup.pciAddress(setup.srcAddr), SgOffset(xfer.sgl, n))))
  {
    var bs := BurstsOf(setup, DevToMem, xfer);
    if n > 0 {
      hide BurstsOf, Wrap64;
      RunScatters(w, setup, xfer, n - 1);
      var src := setup.pciAddress(setup.srcAddr);
      var k := SgOffset(xfer.sgl, n - 1);
      var entry := xfer.sgl[n - 1];
      var before := RunTo(DevToMem, w, bs, n - 1);
      var data := Load(w.dev, src, SgOffset(xfer.sgl, n));
      LoadSplit(w.dev, src, k, SgOffset(xfer.sgl, n));
      ScatterBurst(setup, xfer, n - 1);
      assert Load(w.dev, bs[n - 1].sar, entry.len) == data[k..];
      PutSame(before.host, Scatter(w.host, xfer.sgl, n - 1, data[..k]), entry.addr, data[k..]);
    }
  }

  /** A burst from the device is read where the earlier ones ended. */
  lemma ScatterBurst(setup: Setup, xfer: Transfer, i: nat)
    requires xfer.ScatterGather? && 1 <= xfer.len && i < BurstCount(xfer)
    requires setup.pciAddress(setup.srcAddr) + SgOffset(xfer.sgl, i + 1) <= U64_RANGE
    ensures var b := BurstsOf(setup, DevToMem, xfer)[i];
            && b.dar == xfer.sgl[i].addr && b.sz == xfer.sgl[i].len
            && (b.sz > 0 ==> b.sar == setup.pciAddress(setup.srcAddr) + SgOffset(xfer.sgl, i))
  {
  }

  /**
   A cyclic request: every period moves the same bytes to the same place, between the period's bus
   address and the configured device address, so any number of periods does what one does.
   */
  lemma {:induction false} RunCyclic(w: World, setup: Setup, dir: Direction, xfer: Transfer, n: nat)
    requires PayloadFits(xfer) && xfer.Cyclic? && dir != OtherDirection && 1 <= n <= BurstCount(xfer)
    ensures BurstCount(xfer) == Wrap32(xfer.periods)
    ensures var w' := RunTo(dir, w, BurstsOf(setup, dir, xfer), n);
            var len := Wrap32(xfer.period);
            if dir == MemToDev then
              && w'.host == w.host
              && Same(w'.dev, Put(w.dev, setup.pciAddress(setup.dstAddr), Load(w.host, xfer.paddr, len)))
            else
              && w'.dev == w.dev
              && Same(w'.host, Put(w.host, xfer.paddr, Load(w.dev, setup.pciAddress(setup.srcAddr), len)))
  {
    var bs := BurstsOf(setup, dir, xfer);
    CyclicBurst(setup, dir, xfer, n - 1);
    if n > 1 {
      RunCyclic(w, setup, dir, xfer, n - 1);
      hide BurstsOf, Wrap32;
    } else {
      hide BurstsOf, Wrap32;
      assert RunTo(dir, w, bs, 0) == w;
    }
  }

  lemma CyclicBurst(setup: Setup, dir: Direction, xfer: Transfer, i: nat)
    requires PayloadFits(xfer) && xfer.Cyclic? && i < BurstCount(xfer)
    ensures BurstsOf(setup, dir, xfer)[i] ==
            if dir == DevToMem then Burst(setup.pciAddress(setup.srcAddr), xfer.paddr, Wrap32(xfer.period))
            else Burst(xfer.paddr, setup.pciAddress(setup.dstAddr), Wrap32(xfer.period))
  {
  }
}
