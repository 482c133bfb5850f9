/**
 The driver and the engine together: chunk after chunk is serialised into the channel's list region
 in device memory, read back from there by the engine, and executed.
 */
module Engine {
  import opened Words
  import opened Bursts
  import opened Requests
  import opened Memory
  import opened LinkedList
  import opened Layout

  /** A channel's list region: `size` 32-bit words of device memory from `base` on. */
  datatype Region = Region(base: u64, size: nat)

  /** Byte j of a word, least significant first. */
  function WordByte(v: u32, j: nat): byte
    requires j < 4
  {
    match j
    case 0 => v % 0x100
    case 1 => v / 0x100 % 0x100
    case 2 => v / 0x1_0000 % 0x100
    case _ => v / 0x100_0000
  }

  function WordAt(m: Mem, a: int): u32 {
    m(a) + 0x100 * m(a + 1) + 0x1_0000 * m(a + 2) + 0x100_0000 * m(a + 3)
  }

  function WordsAt(m: Mem, r: Region): (ws: seq<u32>)
    ensures |ws| == r.size
  {
    seq(r.size, i requires 0 <= i < r.size => WordAt(m, r.base + 4 * i))
  }

  function PutWords(m: Mem, r: Region, ws: seq<u32>): Mem
    requires |ws| == r.size
  {
    (x: int) => if r.base <= x < r.base + 4 * r.size then WordByte(ws[(x - r.base) / 4], (x - r.base) % 4) else m(x)
  }

  lemma BytesOfWord(v: u32)
    ensures WordByte(v, 0) + 0x100 * WordByte(v, 1) + 0x1_0000 * WordByte(v, 2) + 0x100_0000 * WordByte(v, 3) == v
  {
    Quotients(v);
  }

  lemma Quotients(v: nat)
    ensures v / 0x1_0000 == v / 0x100 / 0x100 && v / 0x100_0000 == v / 0x1_0000 / 0x100
  {
    var a := v / 0x100;
    var b := a / 0x100;
    var c := b / 0x100;
    assert v == 0x100 * a + v % 0x100 && a == 0x100 * b + a % 0x100 && b == 0x100 * c + b % 0x100;
    assert v == 0x1_0000 * b + (0x100 * (a % 0x100) + v % 0x100);
    assert v == 0x100_0000 * c + (0x1_0000 * (b % 0x100) + 0x100 * (a % 0x100) + v % 0x100);
  }

  lemma WordsBack(m: Mem, r: Region, ws: seq<u32>)
    requires |ws| == r.size
    ensures WordsAt(PutWords(m, r, ws), r) == ws
  {
    forall i | 0 <= i < r.size
      ensures WordsAt(PutWords(m, r, ws), r)[i] == ws[i]
    {
      var a := r.base + 4 * i;
      BytesOfWord(ws[i]);
      ByteOfWord(m, r, ws, i, 0);
      ByteOfWord(m, r, ws, i, 1);
      ByteOfWord(m, r, ws, i, 2);
      ByteOfWord(m, r, ws, i, 3);
    }
  }

  lemma ByteOfWord(m: Mem, r: Region, ws: seq<u32>, i: nat, j: nat)
    requires |ws| == r.size && i < r.size && j < 4
    ensures PutWords(m, r, ws)(r.base + 4 * i + j) == WordByte(ws[i], j)
  {
    assert (4 * i + j) / 4 == i && (4 * i + j) % 4 == j;
  }

  /** One chunk: written to the region, walked by the engine, and its bursts run. */
  function ServeChunk(dir: Direction, w: World, r: Region, local: bool, c: ChunkValue): World {
    var image := Apply(WordsAt(w.dev, r), ChunkStores(c.bursts, c.cb, local, r.base));
    var dev := PutWords(w.dev, r, image);
    RunBursts(dir, World(w.host, dev), Walk(WordsAt(dev, r), 0, c.cb))
  }

  /** The first n chunks of a plan, one after the other. */
  function ServeTo(dir: Direction, w: World, r: Region, local: bool, plan: seq<ChunkValue>, n: nat): World
    requires n <= |plan|
  {
    if n == 0 then w else ServeChunk(dir, ServeTo(dir, w, r, local, plan, n - 1), r, local, plan[n - 1])
  }

  predicate InRegion(r: Region, a: int) {
    r.base <= a < r.base + 4 * r.size
  }

  /** Two worlds that differ at most in the list region. */
  ghost predicate AgreeOff(w: World, w': World, r: Region) {
    Same(w.host, w'.host) && forall a: int :: !InRegion(r, a) ==> w.dev(a) == w'.dev(a)
  }

  /** The device side of a burst stays off the list region. */
  predicate Avoids(dir: Direction, b: Burst, r: Region) {
    var a := if dir == DevToMem then b.sar else b.dar;
    a + b.sz <= r.base || r.base + 4 * r.size <= a
  }

  lemma BurstAgrees(dir: Direction, w: World, w': World, b: Burst, r: Region)
    requires AgreeOff(w, w', r) && Avoids(dir, b, r)
    ensures AgreeOff(RunBurst(dir, w, b), RunBurst(dir, w', b), r)
  {
    if dir == DevToMem {
      assert Load(w.dev, b.sar, b.sz) == Load(w'.dev, b.sar, b.sz);
    } else {
      assert Load(w.host, b.sar, b.sz) == Load(w'.host, b.sar, b.sz);
    }
  }

  lemma {:induction false} RunAgrees(dir: Direction, w: World, w': World, bs: seq<Burst>, n: nat, r: Region)
    requires n <= |bs| && AgreeOff(w, w', r) && forall i :: 0 <= i < |bs| ==> Avoids(dir, bs[i], r)
    ensures AgreeOff(RunTo(dir, w, bs, n), RunTo(dir, w', bs, n), r)
  {
    hide AgreeOff, RunBurst, Avoids;
    if n > 0 {
      RunAgrees(dir, w, w', bs, n - 1, r);
      BurstAgrees(dir, RunTo(dir, w, bs, n - 1), RunTo(dir, w', bs, n - 1), bs[n - 1], r);
    }
  }

  /** Serving a chunk that fits is running its bursts, as far as anything off the region can tell. */
  lemma ChunkServed(dir: Direction, w: World, w': World, r: Region, local: bool, c: ChunkValue)
    requires WordsNeeded(|c.bursts|) <= r.size && AgreeOff(w, w', r)
    requires forall i :: 0 <= i < |c.bursts| ==> Avoids(dir, c.bursts[i], r)
    ensures AgreeOff(ServeChunk(dir, w, r, local, c), RunBursts(dir, w', c.bursts), r)
  {
    hide Avoids, Walk, Apply, RunTo;
    var words := WordsAt(w.dev, r);
    var image := Apply(words, ChunkStores(c.bursts, c.cb, local, r.base));
    var dev := PutWords(w.dev, r, image);
    RoundTrip(words, c.bursts, c.cb, local, r.base);
    WordsBack(w.dev, r, image);
    assert AgreeOff(World(w.host, dev), w', r);
    RunAgrees(dir, World(w.host, dev), w', c.bursts, |c.bursts|, r);
  }

  /** Every chunk of a plan fits the region, and no burst touches it on the device side. */
  ghost predicate Servable(dir: Direction, plan: seq<ChunkValue>, r: Region) {
    && (forall k :: 0 <= k < |plan| ==> WordsNeeded(|plan[k].bursts|) <= r.size)
    && (forall k, i :: 0 <= k < |plan| && 0 <= i < |plan[k].bursts| ==> Avoids(dir, plan[k].bursts[i], r))
  }

  lemma {:induction false} ServedTo(dir: Direction, w: World, r: Region, local: bool, plan: seq<ChunkValue>, n: nat)
    requires n <= |plan| && Servable(dir, plan, r)
    ensures AgreeOff(ServeTo(dir, w, r, local, plan, n), RunBursts(dir, w, FlattenTo(ChunkBursts(plan), n)), r)
  {
    hide AgreeOff, ServeChunk, Avoids;
    if n == 0 {
      AgreesWithItself(w, r);
    } else {
      ServedTo(dir, w, r, local, plan, n - 1);
      var before := FlattenTo(ChunkBursts(plan), n - 1);
      ChunkServed(dir, ServeTo(dir, w, r, local, plan, n - 1), RunBursts(dir, w, before), r, local, plan[n - 1]);
      RunToConcat(dir, w, before, plan[n - 1].bursts, |plan[n - 1].bursts|);
    }
  }

  lemma AgreesWithItself(w: World, r: Region)
    ensures AgreeOff(w, w, r)
  {
  }

  /**
   The whole pipeline means what the request means: compiling a request, cutting it into chunks,
   serialising them one after the other into the list region, reading them back by cycle bit and
   executing them has, outside that region, exactly the effect of the request's flat burst list.
   */
  lemma PipelineMeaning(setup: Setup, dir: Direction, xfer: Transfer, w: World, r: Region)
    requires PayloadFits(xfer) && WellFormed(xfer)
    requires Servable(dir, Plan(setup, dir, xfer), r)
    ensures var plan := Plan(setup, dir, xfer);
            AgreeOff(ServeTo(dir, w, r, setup.local, plan, |plan|), RunBursts(dir, w, BurstsOf(setup, dir, xfer)), r)
  {
    var plan := Plan(setup, dir, xfer);
    ServedTo(dir, w, r, setup.local, plan, |plan|);
    PlanMeaning(setup, dir, xfer);
  }

  /** Where an entry of a chunk stands in the flat list. */
  lemma PlaceOf(bs: seq<Burst>, ll: nat, k: nat, i: nat) returns (j: nat)
    requires 1 <= ll && k < |Split(bs, ll)| && i < |Split(bs, ll)[k]|
    ensures j < |bs| && bs[j] == Split(bs, ll)[k][i]
  {
    hide Split;
    SplitWindow(bs, ll, k);
    j := k * ll + i;
  }

  /** With a region of at least 48 bytes every plan fits it, whatever the request. */
  lemma PlanServable(setup: Setup, dir: Direction, xfer: Transfer, r: Region, regionBytes: u64)
    requires PayloadFits(xfer) && WellFormed(xfer)
    requires 48 <= regionBytes && regionBytes == 4 * r.size && setup.llMax == LlMax(regionBytes) && 1 <= setup.llMax
    requires forall i :: 0 <= i < BurstCount(xfer) ==> Avoids(dir, BurstsOf(setup, dir, xfer)[i], r)
    ensures Servable(dir, Plan(setup, dir, xfer), r)
  {
    hide Avoids, LlMax;
    var bs := BurstsOf(setup, dir, xfer);
    var parts := Split(bs, setup.llMax);
    FitsIff(regionBytes);
    forall k | 0 <= k < |parts|
      ensures WordsNeeded(|parts[k]|) <= r.size
    {
      assert ChunkFits(regionBytes, bs, k);
      FitsInWords(regionBytes, |parts[k]|);
    }
    hide Split, BurstsOf;
    forall k, i | 0 <= k < |parts| && 0 <= i < |parts[k]|
      ensures Avoids(dir, parts[k][i], r)
    {
      var j := PlaceOf(bs, setup.llMax, k, i);
    }
  }

  /** Towards the device, the pipeline stores the gathered bytes of a scatter list as one contiguous run. */
  lemma GatherPipeline(setup: Setup, xfer: Transfer, w: World, r: Region)
    requires xfer.ScatterGather? && 1 <= xfer.len && Servable(MemToDev, Plan(setup, MemToDev, xfer), r)
    requires setup.pciAddress(setup.dstAddr) + SgOffset(xfer.sgl, Min(xfer.len, |xfer.sgl|)) <= U64_RANGE
    ensures var plan := Plan(setup, MemToDev, xfer);
            AgreeOff(ServeTo(MemToDev, w, r, setup.local, plan, |plan|),
                     World(w.host, Put(w.dev, setup.pciAddress(setup.dstAddr),
                                       Gather(w.host, xfer.sgl, Min(xfer.len, |xfer.sgl|)))), r)
  {
    PipelineMeaning(setup, MemToDev, xfer, w, r);
    RunGathers(w, setup, xfer, Min(xfer.len, |xfer.sgl|));
    hide ServeTo, RunTo, Plan, BurstsOf, Gather, Put;
  }

  /** From the device, it takes one contiguous run and scatters it over the whole list. */
  lemma ScatterPipeline(setup: Setup, xfer: Transfer, w: World, r: Region)
    requires xfer.ScatterGather? && 1 <= xfer.len && Servable(DevToMem, Plan(setup, DevToMem, xfer), r)
    requires setup.pciAddress(setup.srcAddr) + SgOffset(xfer.sgl, Min(xfer.len, |xfer.sgl|)) <= U64_RANGE
    ensures var plan := Plan(setup, DevToMem, xfer);
            var n := Min(xfer.len, |xfer.sgl|);
            AgreeOff(ServeTo(DevToMem, w, r, setup.local, plan, |plan|),
                     World(Scatter(w.host, xfer.sgl, n,
                                   Load(w.dev, setup.pciAddress(setup.srcAddr), SgOffset(xfer.sgl, n))), w.dev), r)
  {
    PipelineMeaning(setup, DevToMem, xfer, w, r);
    RunScatters(w, setup, xfer, Min(xfer.len, |xfer.sgl|));
    hide ServeTo, RunTo, Plan, BurstsOf, Scatter, Load;
  }

  lemma PlanNeighbours(setup: Setup, dir: Direction, xfer: Transfer, k: nat)
    requires PayloadFits(xfer) && WellFormed(xfer) && 1 <= setup.llMax && 1 <= k < |Plan(setup, dir, xfer)|
    ensures var prev, next := Plan(setup, dir, xfer)[k - 1], Plan(setup, dir, xfer)[k];
            prev.cb == !next.cb && |prev.bursts| == setup.llMax && |next.bursts| <= setup.llMax
  {
    hide BurstsOf;
    SplitShape(BurstsOf(setup, dir, xfer), setup.llMax);
    hide Split;
  }

  /**
   Chunk k of a plan, written over the region that holds chunk k - 1, shows the engine after every
   single store exactly the entries completed so far: the predecessor is full and its cycle bit opposite.
   */
  lemma PlanPublishesSafely(setup: Setup, dir: Direction, xfer: Transfer, stale: seq<u32>, base: u64,
                            k: nat, i: nat, r: nat)
    requires PayloadFits(xfer) && WellFormed(xfer) && 1 <= setup.llMax && WordsNeeded(setup.llMax) <= |stale|
    requires 1 <= k < |Plan(setup, dir, xfer)| && IsPosition(|Plan(setup, dir, xfer)[k].bursts|, i, r)
    ensures var prev, next := Plan(setup, dir, xfer)[k - 1], Plan(setup, dir, xfer)[k];
            Visible(Apply(stale, ChunkStores(prev.bursts, prev.cb, setup.local, base)),
                    next.bursts, next.cb, setup.local, base, i, r) == next.bursts[..i]
  {
    PlanNeighbours(setup, dir, xfer, k);
    hide Plan, Visible, Apply, ChunkStores;
    var prev, next := Plan(setup, dir, xfer)[k - 1], Plan(setup, dir, xfer)[k];
    SafeOverPredecessor(stale, prev.bursts, next.bursts, next.cb, setup.local, base, i, r);
  }

  /** The region after a whole plan: what its last two chunks leave over older contents. */
  function RegionAfter(stale: seq<u32>, plan: seq<ChunkValue>, local: bool, base: u64): seq<u32>
    requires plan != []
  {
    var p := |plan|;
    var before := if p == 1 then stale else Apply(stale, ChunkStores(plan[p - 2].bursts, plan[p - 2].cb, local, base));
    Apply(before, ChunkStores(plan[p - 1].bursts, plan[p - 1].cb, local, base))
  }

  /**
   The first chunk of the next descriptor, of n bursts and with cycle bit 1, shows a reader only prefixes of
   itself, whatever its bursts, exactly when the previous plan has an even number of chunks and no entry of
   its last but one chunk is left uncovered. Otherwise only the doorbell keeps the engine away.
   */
  lemma NextDescriptorIff(setup: Setup, dir: Direction, xfer: Transfer, stale: seq<u32>, base: u64, n: nat)
    requires PayloadFits(xfer) && WellFormed(xfer) && 0 < BurstCount(xfer)
    requires 1 <= setup.llMax && WordsNeeded(setup.llMax) <= |stale| && n <= setup.llMax
    ensures var plan := Plan(setup, dir, xfer);
            var last := |plan[|plan| - 1].bursts|;
            AlwaysPrefix(RegionAfter(stale, plan, setup.local, base), n, true, setup.local, base)
            <==> |plan| % 2 == 0 && (n <= last || setup.llMax <= last + 1)
  {
    QuietAfterIff(setup, dir, xfer, stale, base, n);
    hide Quiet, RegionAfter, AlwaysPrefix, Plan;
    PublicationExact(RegionAfter(stale, Plan(setup, dir, xfer), setup.local, base), n, true, setup.local, base);
  }

  lemma QuietAfterIff(setup: Setup, dir: Direction, xfer: Transfer, stale: seq<u32>, base: u64, n: nat)
    requires PayloadFits(xfer) && WellFormed(xfer) && 0 < BurstCount(xfer)
    requires 1 <= setup.llMax && WordsNeeded(setup.llMax) <= |stale| && n <= setup.llMax
    ensures var plan := Plan(setup, dir, xfer);
            var m0 := RegionAfter(stale, plan, setup.local, base);
            var last := |plan[|plan| - 1].bursts|;
            && |m0| == |stale|
            && (Quiet(m0, n, true) <==> |plan| % 2 == 0 && (n <= last || setup.llMax <= last + 1))
  {
    LastChunk(setup, dir, xfer);
    hide Plan, Quiet, Apply, ChunkStores;
    var plan := Plan(setup, dir, xfer);
    if |plan| == 1 {
      OneChunkNotQuiet(stale, plan[0].bursts, plan[0].cb, setup.local, base, n);
    } else {
      PlanNeighbours(setup, dir, xfer, |plan| - 1);
      var prev, last := plan[|plan| - 2], plan[|plan| - 1];
      TwoChunksQuietIff(stale, prev.bursts, last.bursts, last.cb, setup.local, base, n);
    }
  }

  lemma LastChunk(setup: Setup, dir: Direction, xfer: Transfer)
    requires PayloadFits(xfer) && WellFormed(xfer) && 0 < BurstCount(xfer) && 1 <= setup.llMax
    ensures var plan := Plan(setup, dir, xfer);
            && 1 <= |plan| && 1 <= |plan[|plan| - 1].bursts| <= setup.llMax
            && (plan[|plan| - 1].cb <==> |plan| % 2 == 1)
  {
    var bs := BurstsOf(setup, dir, xfer);
    assert |bs| == BurstCount(xfer);
    SplitShape(bs, setup.llMax);
    hide Split, BurstsOf, BurstCount, PayloadFits, WellFormed, TotalSize;
  }
}
