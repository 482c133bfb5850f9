/**
 The character device on top of the engine: `read` and `write` move a byte range in pieces of at
 most 1024 bytes, each one a DMA transfer of its own.
 */
module Client {
  import opened Words
  import opened Bursts
  import opened Requests
  import opened Memory
  import opened Layout
  import opened Engine
  import opened Heap

  datatype Error = Inval | NoMem | Interrupted | BadAddress | ConfigFailed | SubmitFailed | TimedOut

  datatype Result = Moved(count: nat) | Failed(error: Error)

  /** How the environment lets one transfer end. In the last two a callback ends the wait. */
  datatype Ending = MapFails | ConfigFails | PrepFails | SubmitFails | TimesOut | Aborts | Completes

  /**
   What the environment does to one round of the loop: the bus address given to the buffer, a failing copy
   from or to the user, how many earlier callbacks run before this round clears the completion, the bytes
   left where a transfer stores that the client does not control (in device memory and in the buffer), the end.
   */
  datatype Fate = Fate(bus: u64, copyFails: bool, called: nat, junk: Mem, scrap: Mem, ending: Ending)

  /** A device range. */
  datatype Range = Range(addr: int, len: nat)

  predicate InRanges(rs: seq<Range>, a: int) {
    exists i :: 0 <= i < |rs| && rs[i].addr <= a < rs[i].addr + rs[i].len
  }

  /** Memory after transfers nobody waits for stored anything in their ranges. */
  function Scribble(m: Mem, rs: seq<Range>, junk: Mem): Mem {
    (a: int) => if InRanges(rs, a) then junk(a) else m(a)
  }

  /** The check made before anything else, in 64-bit arithmetic. */
  predicate IsAllowed(addr: u64, size: u64) {
    Wrap64(addr + size) < 0x2000_0000 || 0x2000_0100 <= addr
  }

  /** The byte range meets the 256 bytes of list memory. */
  predicate MeetsReserved(addr: u64, size: u64) {
    addr < 0x2000_0100 && 0x2000_0000 < addr + size
  }

  /** The range ends beyond 2^64, with its wrapped end below the list memory, and starts below its end. */
  predicate WrapsBelow(addr: u64, size: u64) {
    addr < 0x2000_0100 && 0x1_0000_0000_0000_0000 <= addr + size < 0x1_0000_0000_2000_0000
  }

  /** The check keeps list memory safe for exactly the ranges that do not wrap around below it. */
  lemma AllowedSafeIff(addr: u64, size: u64)
    ensures (IsAllowed(addr, size) ==> !MeetsReserved(addr, size)) <==> !WrapsBelow(addr, size)
  {
  }

  /** Below 2^63, where every file offset lies, the check refuses list memory and the ranges ending just at it. */
  lemma AllowedExact(addr: u64, size: u64)
    requires addr + size < 0x8000_0000_0000_0000
    ensures !IsAllowed(addr, size) <==> MeetsReserved(addr, size) || (addr + size == 0x2000_0000)
                                        || (size == 0 && 0x2000_0000 < addr < 0x2000_0100)
  {
  }

  /** The configuration a transfer makes: a remote engine on an identity-mapped bus, one burst a chunk. */
  function ClientSetup(dir: Direction, addr: u64, bus: u64): Setup {
    Setup(true, false, if dir == DevToMem then WriteChannel else ReadChannel, LlMax(0x40),
          if dir == DevToMem then addr else bus, if dir == DevToMem then bus else addr, (a: u64) => a)
  }

  function ClientTransfer(bus: u64, len: u32): Transfer {
    ScatterGather([SgEntry(bus, len)], 1)
  }

  /** A list region within the reserved memory, 64 bytes long. */
  predicate GoodRegion(r: Region) {
    r.size == 16 && 0x2000_0000 <= r.base <= 0x2000_00C0
  }

  predicate OffRegion(r: Region, addr: int, len: nat) {
    addr + len <= r.base || r.base + 4 * r.size <= addr
  }

  /**
   A client's request compiles to one chunk of one burst, from the configured source to the configured
   destination, both of which are configured although only one is read; a full chunk fits the list region.
   */
  lemma ClientPlan(dir: Direction, addr: u64, bus: u64, len: u32)
    requires dir != OtherDirection
    ensures Accepted(ClientSetup(dir, addr, bus), dir, ClientTransfer(bus, len))
    ensures var setup, xfer := ClientSetup(dir, addr, bus), ClientTransfer(bus, len);
            && BurstsOf(setup, dir, xfer) == [Burst(setup.srcAddr, setup.dstAddr, len)]
            && 1 <= setup.llMax && BytesNeeded(setup.llMax) <= 0x40
    ensures var setup, xfer := ClientSetup(dir, addr, bus), ClientTransfer(bus, len);
            && BurstsOf(setup, dir, xfer) == [if dir == DevToMem then Burst(addr, bus, len) else Burst(bus, addr, len)]
            && Plan(setup, dir, xfer) == [ChunkValue(BurstsOf(setup, dir, xfer), true, len)]
  {
    var setup, xfer := ClientSetup(dir, addr, bus), ClientTransfer(bus, len);
    var bs := BurstsOf(setup, dir, xfer);
    assert SgOffset(xfer.sgl, 0) == 0;
    SplitToShort(bs, 1, setup.llMax);
    assert bs[..1] == bs;
    assert SizeTo(bs, 0) == 0;
  }

  /** What one transfer does, off the list region. */
  lemma ClientServed(dir: Direction, w: World, r: Region, addr: u64, bus: u64, len: u32)
    requires dir != OtherDirection && GoodRegion(r) && OffRegion(r, addr, len)
    ensures var setup, xfer := ClientSetup(dir, addr, bus), ClientTransfer(bus, len);
            var plan := Plan(setup, dir, xfer);
            AgreeOff(ServeTo(dir, w, r, false, plan, |plan|),
                     if dir == DevToMem then World(Put(w.host, bus, Load(w.dev, addr, len)), w.dev)
                     else World(w.host, Put(w.dev, addr, Load(w.host, bus, len))), r)
  {
    var setup, xfer := ClientSetup(dir, addr, bus), ClientTransfer(bus, len);
    ClientPlan(dir, addr, bus, len);
    var bs := BurstsOf(setup, dir, xfer);
    assert Avoids(dir, bs[0], r);
    assert Servable(dir, Plan(setup, dir, xfer), r);
    PipelineMeaning(setup, dir, xfer, w, r);
    assert RunTo(dir, w, bs, 0) == w;
    assert RunBursts(dir, w, bs) == RunBurst(dir, w, bs[0]);
  }

  /** Off the list region, memory m is as m' says. */
  ghost predicate SameOff(m: Mem, m': Mem, r: Region) {
    forall a: int :: !InRegion(r, a) ==> m(a) == m'(a)
  }

  /** Off the list region and off some ranges, memory m is as m' says. */
  ghost predicate SameOffRanges(m: Mem, m': Mem, r: Region, rs: seq<Range>) {
    forall a: int :: !InRegion(r, a) && !InRanges(rs, a) ==> m(a) == m'(a)
  }

  /** Every byte of some ranges lies in others. */
  ghost predicate Within(rs: seq<Range>, ts: seq<Range>) {
    forall a: int :: InRanges(rs, a) ==> InRanges(ts, a)
  }

  /** Off the list region and off the bytes [lo, hi), memory m is as m' says. */
  ghost predicate SameOffBut(m: Mem, m': Mem, r: Region, lo: int, hi: int) {
    forall a: int :: !InRegion(r, a) && !(lo <= a < hi) ==> m(a) == m'(a)
  }

  /** The effect of one transfer whose buffer is mapped at `bus`. */
  lemma ClientMoves(dir: Direction, host: Mem, dev: Mem, r: Region, addr: u64, bus: u64, tmp: seq<byte>)
    requires dir != OtherDirection && |tmp| <= 1024 && GoodRegion(r) && OffRegion(r, addr, |tmp|)
    ensures var plan := Plan(ClientSetup(dir, addr, bus), dir, ClientTransfer(bus, |tmp|));
            var w := ServeTo(dir, World(Put(host, bus, tmp), dev), r, false, plan, |plan|);
            if dir == MemToDev then Load(w.host, bus, |tmp|) == tmp && SameOff(w.dev, Put(dev, addr, tmp), r)
            else Load(w.host, bus, |tmp|) == Load(dev, addr, |tmp|) && SameOff(w.dev, dev, r)
  {
    hide ServeTo, Plan, ClientSetup, AgreeOff, SameOff, Put, Load;
    var mapped := Put(host, bus, tmp);
    var data := Load(dev, addr, |tmp|);
    var plan := Plan(ClientSetup(dir, addr, bus), dir, ClientTransfer(bus, |tmp|));
    var w := ServeTo(dir, World(mapped, dev), r, false, plan, |plan|);
    ClientServed(dir, World(mapped, dev), r, addr, bus, |tmp|);
    LoadPut(host, bus, tmp);
    LoadPut(mapped, bus, data);
    if dir == MemToDev {
      Agreeing(w, World(mapped, Put(dev, addr, tmp)), r, bus, |tmp|);
    } else {
      Agreeing(w, World(Put(mapped, bus, data), dev), r, bus, |tmp|);
    }
  }

  lemma LoadPut(m: Mem, a: int, data: seq<byte>)
    ensures Load(Put(m, a, data), a, |data|) == data
  {
  }

  lemma Agreeing(w: World, w': World, r: Region, a: int, n: nat)
    requires AgreeOff(w, w', r)
    ensures Load(w.host, a, n) == Load(w'.host, a, n) && SameOff(w.dev, w'.dev, r)
  {
  }

  // One round of the loop.

  /** What a round reports and leaves: the buffer, device memory, the channel's outstanding callbacks. */
  datatype Report = Report(error: Option<Error>, after: seq<byte>, dev: Mem, late: seq<Range>)

  function Drop(late: seq<Range>, n: nat): seq<Range> {
    if n <= |late| then late[n..] else []
  }

  /**
   The bytes of a write's buffer when the engine fetches them. A read that timed out still stores to its
   buffer, which was freed and may be this one.
   */
  function Buffered(rx: seq<Range>, addr: int, tmp: seq<byte>, fate: Fate): (data: seq<byte>)
    ensures |data| == |tmp|
  {
    if rx == [] then tmp else Load(fate.scrap, addr, |tmp|)
  }

  /** The callbacks of a channel still outstanding after a transfer of `own` that found `late` outstanding. */
  function StillOpen(late: seq<Range>, own: Range, fate: Fate): seq<Range> {
    var rest := Drop(late, fate.called);
    match fate.ending
    case MapFails => late
    case ConfigFails => late
    case PrepFails => late
    case SubmitFails => rest
    case TimesOut => rest + [own]
    case _ => if rest == [] then [] else rest[1..] + [own]
  }

  /**
   One transfer of the buffer `tmp` to or from the device, off the list region. `tx` and `rx` are the writes
   and reads whose callback is still to come although nobody waits for it, oldest first; the writes may still
   store to the device and the reads to their freed buffers. Callbacks of a channel come in submission order,
   and every one ends whatever wait is going on there: with some outstanding, it is the oldest one's that
   ends this wait.
   */
  function Transferred(dir: Direction, dev: Mem, tx: seq<Range>, rx: seq<Range>, addr: int, tmp: seq<byte>,
                       fate: Fate): (r: Report)
    ensures r.late == StillOpen(if dir == MemToDev then tx else rx, Range(addr, |tmp|), fate)
  {
    var own := Range(addr, |tmp|);
    var d := Scribble(dev, tx, fate.junk);
    var spoilt := if dir == MemToDev then Scribble(d, [own], fate.junk) else d;
    var late := if dir == MemToDev then tx else rx;
    var left := StillOpen(late, own, fate);
    var data := if dir == MemToDev then Buffered(rx, addr, tmp, fate) else tmp;
    match fate.ending
    case MapFails => Report(Some(Inval), tmp, d, left)
    case ConfigFails => Report(Some(ConfigFailed), tmp, d, left)
    case PrepFails => Report(Some(Inval), tmp, d, left)
    case SubmitFails => Report(Some(Error.SubmitFailed), tmp, d, left)
    case TimesOut => Report(Some(TimedOut), tmp, spoilt, left)
    case _ =>
      if Drop(late, fate.called) == [] && fate.ending.Completes? then
        if dir == MemToDev then Report(None, data, Put(d, addr, data), left)
        else Report(None, Load(d, addr, |tmp|), d, left)
      else
        Report(None, if dir == MemToDev then data else Load(fate.scrap, addr, |tmp|), spoilt, left)
  }

  /** Buffer and device range hold the same bytes, and for a write it is the bytes that were to be stored. */
  predicate MovedBy(dir: Direction, addr: int, tmp: seq<byte>, r: Report) {
    r.after == Load(r.dev, addr, |tmp|) && (dir == MemToDev ==> r.after == tmp)
  }

  lemma NoRanges(m: Mem, junk: Mem)
    ensures forall a: int :: Scribble(m, [], junk)(a) == m(a)
  {
  }

  lemma LoadSame(m: Mem, m': Mem, a: int, n: nat)
    requires forall i: int :: a <= i < a + n ==> m(i) == m'(i)
    ensures Load(m, a, n) == Load(m', a, n)
  {
  }

  /** No earlier transfer disturbs this one: no read is outstanding, and for a write no write either. */
  predicate Clear(dir: Direction, tx: seq<Range>, rx: seq<Range>) {
    rx == [] && (dir == MemToDev ==> tx == [])
  }

  /** An undisturbed transfer that is reported as done and was not aborted has moved its buffer. */
  lemma TrustedMoves(dir: Direction, dev: Mem, addr: int, tmp: seq<byte>, tx: seq<Range>, rx: seq<Range>, fate: Fate)
    requires dir != OtherDirection && !fate.ending.Aborts? && Clear(dir, tx, rx)
    requires Transferred(dir, dev, tx, rx, addr, tmp, fate).error.None?
    ensures MovedBy(dir, addr, tmp, Transferred(dir, dev, tx, rx, addr, tmp, fate))
  {
    LoadPut(Scribble(dev, tx, fate.junk), addr, tmp);
  }

  /** The end in which a callback ends the wait, device memory stays as it is and a stray read fills buffers. */
  function Overtaken(m: Mem, wrong: byte): Fate {
    Fate(0, false, 0, m, (a: int) => wrong, Completes)
  }

  function Other(b: byte): byte {
    if b == 0 then 1 else 0
  }

  /** With a callback outstanding on the channel, nothing of this transfer need be moved. */
  lemma OvertakenStays(dir: Direction, dev: Mem, tx: seq<Range>, rx: seq<Range>, addr: int, tmp: seq<byte>, wrong: byte)
    requires dir != OtherDirection && (if dir == MemToDev then tx else rx) != []
    ensures var r := Transferred(dir, dev, tx, rx, addr, tmp, Overtaken(dev, wrong));
            && r.error.None? && Same(r.dev, dev) && |r.after| == |tmp|
            && (dir == MemToDev && rx == [] ==> r.after == tmp)
            && (dir != MemToDev ==> forall i :: 0 <= i < |tmp| ==> r.after[i] == wrong)
            && r.late == (if dir == MemToDev then tx else rx)[1..] + [Range(addr, |tmp|)]
  {
  }

  /** With a read outstanding, a write may store what that read put in its buffer. */
  lemma SpoiltStored(dev: Mem, rx: seq<Range>, addr: int, tmp: seq<byte>, wrong: byte)
    requires rx != []
    ensures var r := Transferred(MemToDev, dev, [], rx, addr, tmp, Overtaken(dev, wrong));
            && r.error.None? && r.late == [] && |r.after| == |tmp|
            && (forall i :: 0 <= i < |tmp| ==> r.after[i] == wrong)
            && (forall a: int :: addr <= a < addr + |tmp| ==> r.dev(a) == wrong)
  {
  }

  /** Some buffer is not what a device range holds; for a read, the range must hold something. */
  ghost predicate Differs(dir: Direction, dev: Mem, addr: int, tmp: seq<byte>) {
    tmp != [] && (dir == MemToDev ==> Load(dev, addr, |tmp|) != tmp)
  }

  /**
   A transfer reported as done has moved its buffer in every end but an abort exactly when no read has its
   callback outstanding and, for a write, no write either.
   */
  lemma SuccessMovesIff(dir: Direction, dev: Mem, tx: seq<Range>, rx: seq<Range>, addr: int, tmp: seq<byte>)
    requires dir != OtherDirection && Differs(dir, dev, addr, tmp)
    ensures (forall fate: Fate ::
               !fate.ending.Aborts? && Transferred(dir, dev, tx, rx, addr, tmp, fate).error.None? ==>
               MovedBy(dir, addr, tmp, Transferred(dir, dev, tx, rx, addr, tmp, fate)))
            <==> Clear(dir, tx, rx)
  {
    if Clear(dir, tx, rx) {
      forall fate: Fate | !fate.ending.Aborts? && Transferred(dir, dev, tx, rx, addr, tmp, fate).error.None?
        ensures MovedBy(dir, addr, tmp, Transferred(dir, dev, tx, rx, addr, tmp, fate))
      {
        TrustedMoves(dir, dev, addr, tmp, tx, rx, fate);
      }
    } else if dir == MemToDev && tx == [] {
      var wrong := Other(tmp[0]);
      SpoiltStored(dev, rx, addr, tmp, wrong);
      var r := Transferred(dir, dev, tx, rx, addr, tmp, Overtaken(dev, wrong));
      assert r.after[0] == wrong;
      assert !MovedBy(dir, addr, tmp, r);
    } else {
      var wrong := Other(if dir == MemToDev then tmp[0] else dev(addr));
      var r := Transferred(dir, dev, tx, rx, addr, tmp, Overtaken(dev, wrong));
      OvertakenStays(dir, dev, tx, rx, addr, tmp, wrong);
      LoadSame(r.dev, dev, addr, |tmp|);
      if dir != MemToDev {
        assert r.after[0] == wrong && Load(dev, addr, |tmp|)[0] == dev(addr);
      }
      assert !MovedBy(dir, addr, tmp, r);
    }
  }

  /**
   A write that times out, and one after it: the second is reported as done when the callback of the
   first comes, with nothing stored, and its own callback is now the one outstanding.
   */
  lemma StaleSuccess(dev: Mem, addr: int, tmp: seq<byte>, addr2: int, tmp2: seq<byte>)
    ensures var first := Transferred(MemToDev, dev, [], [], addr, tmp, Fate(0, false, 0, dev, dev, TimesOut));
            var second := Transferred(MemToDev, first.dev, first.late, [], addr2, tmp2, Overtaken(first.dev, 0));
            && first.error == Some(TimedOut) && second.error == None
            && Same(second.dev, dev) && second.late == [Range(addr2, |tmp2|)]
  {
    var first := Transferred(MemToDev, dev, [], [], addr, tmp, Fate(0, false, 0, dev, dev, TimesOut));
    OvertakenStays(MemToDev, first.dev, first.late, [], addr2, tmp2, 0);
    assert Same(first.dev, dev);
  }

  /** A read that times out, and a write after it: the write is reported as done, with any byte stored throughout. */
  lemma StaleReadSpoils(dev: Mem, addr: int, len: nat, addr2: int, tmp2: seq<byte>, wrong: byte)
    ensures var zeros := seq(len, _ => 0);
            var first := Transferred(DevToMem, dev, [], [], addr, zeros, Fate(0, false, 0, dev, dev, TimesOut));
            var second := Transferred(MemToDev, first.dev, [], first.late, addr2, tmp2, Overtaken(first.dev, wrong));
            && first.error == Some(TimedOut) && second.error == None && second.late == []
            && forall a: int :: addr2 <= a < addr2 + |tmp2| ==> second.dev(a) == wrong
  {
    var first := Transferred(DevToMem, dev, [], [], addr, seq(len, _ => 0), Fate(0, false, 0, dev, dev, TimesOut));
    SpoiltStored(first.dev, first.late, addr2, tmp2, wrong);
  }

  /** Some end, with this byte stored wherever somebody may store. */
  function Strayed(m: Mem, wrong: byte, ending: Ending): Fate {
    Fate(0, false, 0, (a: int) => wrong, m, ending)
  }

  /**
   What may change does: any byte of an outstanding write's range, other than the round's own bytes, may hold
   anything after a round, however that ends; and so may the own bytes of a write that times out.
   */
  lemma StrayStores(dir: Direction, dev: Mem, tx: seq<Range>, rx: seq<Range>, addr: int, tmp: seq<byte>,
                    ending: Ending, a: int, wrong: byte)
    requires dir != OtherDirection
    requires var own := dir == MemToDev && addr <= a < addr + |tmp|;
             if own then ending.TimesOut? else InRanges(tx, a)
    ensures Transferred(dir, dev, tx, rx, addr, tmp, Strayed(dev, wrong, ending)).dev(a) == wrong
  {
    InOwn([], Range(addr, |tmp|), a);
    assert [] + [Range(addr, |tmp|)] == [Range(addr, |tmp|)];
    hide InRanges;
  }

  /** The end in which a transfer is aborted, device memory and buffer being left as `m` and `scrap`. */
  function Aborted(m: Mem, scrap: Mem): Fate {
    Fate(0, false, 0, m, scrap, Aborts)
  }

  /**
   Success of an aborted transfer says nothing of its bytes: on an undisturbed channel, whatever bytes are
   named, some abort is reported as done, with no callback outstanding, and leaves them in the device range
   (of a write) or in the buffer (of a read).
   */
  lemma AbortReported(dir: Direction, dev: Mem, addr: int, tmp: seq<byte>, any: seq<byte>)
    requires dir != OtherDirection && |any| == |tmp|
    ensures var r := Transferred(dir, dev, [], [], addr, tmp, Aborted(Put(dev, addr, any), Put(dev, addr, any)));
            && r.error == None && r.late == []
            && (if dir == MemToDev then Load(r.dev, addr, |tmp|) == any && r.after == tmp else r.after == any)
  {
    LoadPut(dev, addr, any);
    var r := Transferred(dir, dev, [], [], addr, tmp, Aborted(Put(dev, addr, any), Put(dev, addr, any)));
    if dir == MemToDev {
      forall i: int | addr <= i < addr + |tmp|
        ensures r.dev(i) == Put(dev, addr, any)(i)
      {
        InOwn([], Range(addr, |tmp|), i);
        assert [] + [Range(addr, |tmp|)] == [Range(addr, |tmp|)];
      }
      LoadSame(r.dev, Put(dev, addr, any), addr, |tmp|);
    }
  }

  // The loops.

  /** Whether a round is reported as successful. */
  predicate Good(f: Fate) {
    !f.copyFails && (f.ending.Completes? || f.ending.Aborts?)
  }

  /** n rounds from number `from` on are all reported as successful. */
  ghost predicate AllGood(fates: nat -> Fate, from: nat, n: nat) {
    forall k :: from <= k < from + n ==> Good(fates(k))
  }

  /** None of n rounds from number `from` on is aborted. */
  ghost predicate NoAborts(fates: nat -> Fate, from: nat, n: nat) {
    forall k :: from <= k < from + n ==> !fates(k).ending.Aborts?
  }

  /** Rounds needed for a number of bytes. */
  function Rounds(n: nat): nat {
    (n + 1023) / 1024
  }

  /** All rounds so far moved 1024 bytes each, but for the last one when nothing is left. */
  predicate Pieces(done: int, begun: nat, left: nat) {
    if left == 0 then 1024 * begun - 1024 < done <= 1024 * begun else done == 1024 * begun
  }

  lemma RoundsStep(left: nat)
    requires left > 0
    ensures Rounds(left) == 1 + Rounds(left - Min(left, 1024))
  {
  }

  /** The error of a transfer that ends so, if any. */
  function EndCause(e: Ending): Option<Error> {
    match e
    case MapFails => Some(Inval)
    case ConfigFails => Some(ConfigFailed)
    case PrepFails => Some(Inval)
    case SubmitFails => Some(Error.SubmitFailed)
    case TimesOut => Some(TimedOut)
    case Aborts => None
    case Completes => None
  }

  /** The error of a round: a write copies from the user before its transfer, a read copies to the user after it. */
  function RoundCause(dir: Direction, f: Fate): Option<Error> {
    if dir == MemToDev && f.copyFails then Some(BadAddress)
    else if EndCause(f.ending).Some? then EndCause(f.ending)
    else if f.copyFails then Some(BadAddress)
    else None
  }

  /** What a call reports before its first round: a bad range first, then missing memory, then a broken-off wait. */
  function Refusal(allowed: bool, gotMemory: bool, gotChannel: bool): Option<Error> {
    if !allowed then Some(Inval)
    else if !gotMemory then Some(NoMem)
    else if !gotChannel then Some(Interrupted)
    else None
  }

  /** The last of the rounds from number `from` up to number `to` failed with this error, all before it went well. */
  ghost predicate FailedIn(fates: nat -> Fate, from: nat, to: nat, dir: Direction, e: Error) {
    from < to && AllGood(fates, from, to - 1 - from) && RoundCause(dir, fates(to - 1)) == Some(e)
  }

  lemma BadRound(fates: nat -> Fate, from: nat, k: nat, n: nat)
    requires k < n && !Good(fates(from + k))
    ensures !AllGood(fates, from, n)
  {
  }

  lemma NotAborted(fates: nat -> Fate, from: nat, k: nat, n: nat)
    requires k < n && NoAborts(fates, from, n)
    ensures !fates(from + k).ending.Aborts?
  {
  }

  /** One more piece stored behind the ones stored so far. */
  lemma PieceStored(d0: Mem, d1: Mem, d2: Mem, r: Region, ppos: nat, data: seq<byte>, done: nat, size: nat)
    requires done + size <= |data|
    requires SameOff(d1, Put(d0, ppos, data[..done]), r)
    requires SameOff(d2, Put(d1, ppos + done, data[done..done + size]), r)
    ensures SameOff(d2, Put(d0, ppos, data[..done + size]), r)
  {
  }

  /** What is stored so far, when the next piece may have gone wrong. */
  lemma PieceLost(d0: Mem, d1: Mem, d2: Mem, r: Region, ppos: nat, data: seq<byte>, done: nat, size: nat)
    requires done + size <= |data| && size <= 1024
    requires SameOff(d1, Put(d0, ppos, data[..done]), r)
    requires SameOffBut(d2, d1, r, ppos + done, ppos + done + size)
    ensures SameOffBut(d2, Put(d0, ppos, data[..done]), r, ppos + done, ppos + done + 1024)
  {
  }

  lemma NothingStored(m: Mem, r: Region, ppos: nat, data: seq<byte>, rs: seq<Range>)
    ensures SameOff(m, Put(m, ppos, data[..0]), r)
    ensures SameOffBut(m, Put(m, ppos, data[..0]), r, ppos, ppos + 1024)
    ensures SameOffRanges(m, m, r, rs) && Within(rs, rs + [Range(ppos, |data|)])
  {
    forall a: int | InRanges(rs, a)
      ensures InRanges(rs + [Range(ppos, |data|)], a)
    {
      var i :| 0 <= i < |rs| && rs[i].addr <= a < rs[i].addr + rs[i].len;
      assert (rs + [Range(ppos, |data|)])[i] == rs[i];
    }
  }

  lemma NothingLoaded(m: Mem, r: Region, ppos: nat, rs: seq<Range>)
    ensures SameOff(m, m, r) && Load(m, ppos, 0) == [] && SameOffRanges(m, m, r, rs)
  {
  }

  lemma NoRounds(fates: nat -> Fate, from: nat)
    ensures AllGood(fates, from, 0) && Rounds(0) == 0
  {
  }

  lemma NextRound(fates: nat -> Fate, from: nat, n: nat)
    requires AllGood(fates, from, n) && Good(fates(from + n))
    ensures AllGood(fates, from, n + 1)
  {
  }

  /** One more piece loaded behind the ones loaded so far; the list region is not part of it. */
  lemma PieceLoaded(d0: Mem, d1: Mem, r: Region, ppos: nat, done: nat, size: nat)
    requires OffRegion(r, ppos + done, size) && SameOff(d1, d0, r)
    ensures Load(d0, ppos, done) + Load(d1, ppos + done, size) == Load(d0, ppos, done + size)
  {
    var piece := Load(d1, ppos + done, size);
    forall i | 0 <= i < size
      ensures piece[i] == d0(ppos + done + i)
    {
      assert !InRegion(r, ppos + done + i);
    }
  }

  /** Loading back what was stored, off the region. */
  lemma LoadStored(m: Mem, d: Mem, r: Region, ppos: nat, data: seq<byte>)
    requires SameOff(d, Put(m, ppos, data), r) && OffRegion(r, ppos, |data|)
    ensures Load(d, ppos, |data|) == data
  {
    forall i | 0 <= i < |data|
      ensures Load(d, ppos, |data|)[i] == data[i]
    {
      assert !InRegion(r, ppos + i);
    }
  }

  lemma SameJoins(u: Mem, v: Mem, w: Mem, r: Region, rs: seq<Range>)
    requires SameOffRanges(u, v, r, rs) && SameOffRanges(v, w, r, rs)
    ensures SameOffRanges(u, w, r, rs)
  {
  }

  lemma SameOffJoins(u: Mem, v: Mem, w: Mem, r: Region)
    requires SameOff(u, v, r) && SameOff(v, w, r)
    ensures SameOff(u, w, r)
  {
  }

  lemma InOwn(rs: seq<Range>, own: Range, a: int)
    ensures InRanges(rs + [own], a) <==> InRanges(rs, a) || own.addr <= a < own.addr + own.len
  {
    if InRanges(rs, a) {
      var i :| 0 <= i < |rs| && rs[i].addr <= a < rs[i].addr + rs[i].len;
      assert (rs + [own])[i] == rs[i];
    }
    if own.addr <= a < own.addr + own.len {
      assert (rs + [own])[|rs|] == own;
    }
  }

  lemma InSuffix(rs: seq<Range>, k: nat, a: int)
    requires k <= |rs|
    ensures InRanges(rs[k..], a) ==> InRanges(rs, a)
  {
  }

  /** A round stores at most where outstanding transfers or its own range are, and leaves only these outstanding. */
  lemma Contained(dir: Direction, dev: Mem, tx: seq<Range>, rx: seq<Range>, addr: int, tmp: seq<byte>, fate: Fate,
                  r: Region, all: seq<Range>)
    requires dir != OtherDirection
    requires Within(tx, all) && (dir == MemToDev ==> Within([Range(addr, |tmp|)], all))
    ensures var o := Transferred(dir, dev, tx, rx, addr, tmp, fate);
            SameOffRanges(o.dev, dev, r, all) && (dir == MemToDev ==> Within(o.late, all))
  {
    forall a: int
      ensures InRanges([Range(addr, |tmp|)], a) <==> addr <= a < addr + |tmp|
    {
      InOwn([], Range(addr, |tmp|), a);
      assert [] + [Range(addr, |tmp|)] == [Range(addr, |tmp|)];
    }
    LateWithin(tx, fate.called, Range(addr, |tmp|), all);
    hide InRanges;
  }

  /** What stays outstanding after a round of a write. */
  lemma LateWithin(tx: seq<Range>, called: nat, own: Range, all: seq<Range>)
    requires Within(tx, all)
    ensures var rest := Drop(tx, called);
            && Within(rest, all) && Within([], all)
            && (Within([own], all) ==> Within(rest + [own], all) && (rest != [] ==> Within(rest[1..] + [own], all)))
  {
    var rest := Drop(tx, called);
    SuffixWithin(tx, if called <= |tx| then called else |tx|, all);
    assert rest == tx[if called <= |tx| then called else |tx|..];
    if Within([own], all) {
      SnocWithin(rest, own, all);
      if rest != [] {
        SuffixWithin(rest, 1, all);
        SnocWithin(rest[1..], own, all);
      }
    }
  }

  lemma SuffixWithin(rs: seq<Range>, k: nat, all: seq<Range>)
    requires k <= |rs| && Within(rs, all)
    ensures Within(rs[k..], all)
  {
    forall a: int | InRanges(rs[k..], a)
      ensures InRanges(all, a)
    {
      InSuffix(rs, k, a);
    }
  }

  lemma SnocWithin(rs: seq<Range>, own: Range, all: seq<Range>)
    requires Within(rs, all) && Within([own], all)
    ensures Within(rs + [own], all)
  {
    forall a: int | InRanges(rs + [own], a)
      ensures InRanges(all, a)
    {
      InOwn(rs, own, a);
      InOwn([], own, a);
      assert [] + [own] == [own];
    }
  }

  lemma ContainedOff(u: Mem, v: Mem, w: Mem, r: Region, rs: seq<Range>)
    requires SameOff(u, v, r) && SameOffRanges(v, w, r, rs)
    ensures SameOffRanges(u, w, r, rs)
  {
  }

  lemma OwnWithin(rs: seq<Range>, ppos: nat, n: nat, addr: nat, len: nat)
    requires ppos <= addr && addr + len <= ppos + n
    ensures Within([Range(addr, len)], rs + [Range(ppos, n)])
  {
    forall a: int | InRanges([Range(addr, len)], a)
      ensures InRanges(rs + [Range(ppos, n)], a)
    {
      InOwn(rs, Range(ppos, n), a);
    }
  }

  /** A round on a channel with nothing outstanding, in any end but an abort. */
  lemma CleanRound(dir: Direction, dev: Mem, addr: int, tmp: seq<byte>, fate: Fate)
    requires dir != OtherDirection && !fate.ending.Aborts?
    ensures var o := Transferred(dir, dev, [], [], addr, tmp, fate);
            && (o.error.None? && dir == MemToDev ==> Same(o.dev, Put(dev, addr, tmp)))
            && (o.error.None? && dir == DevToMem ==> o.after == Load(dev, addr, |tmp|))
            && (o.error.Some? && o.error != Some(TimedOut) ==> Same(o.dev, dev))
            && (o.error != Some(TimedOut) ==> o.late == [])
            && (dir == DevToMem ==> Same(o.dev, dev))
            && (forall a: int :: !(addr <= a < addr + |tmp|) ==> o.dev(a) == dev(a))
  {
    var d := Scribble(dev, [], fate.junk);
    NoRanges(dev, fate.junk);
    LoadSame(d, dev, addr, |tmp|);
    forall a: int
      ensures InRanges([Range(addr, |tmp|)], a) <==> addr <= a < addr + |tmp|
    {
      InOwn([], Range(addr, |tmp|), a);
      assert [] + [Range(addr, |tmp|)] == [Range(addr, |tmp|)];
    }
    hide InRanges;
  }

  /** A round of a write, on a channel with nothing outstanding. */
  lemma CleanWrite(d0: Mem, before: Mem, after: Mem, r: Region, ppos: nat, data: seq<byte>, done: nat, size: nat,
                   fate: Fate)
    requires done + size <= |data| && size <= 1024 && !fate.ending.Aborts?
    requires SameOff(before, Put(d0, ppos, data[..done]), r)
    requires SameOff(after, Transferred(MemToDev, before, [], [], ppos + done, data[done..done + size], fate).dev, r)
    ensures var o := Transferred(MemToDev, before, [], [], ppos + done, data[done..done + size], fate);
            && (o.error.None? ==> SameOff(after, Put(d0, ppos, data[..done + size]), r))
            && SameOffBut(after, Put(d0, ppos, data[..done]), r, ppos + done, ppos + done + 1024)
            && (o.error.Some? && o.error != Some(TimedOut) ==> SameOff(after, Put(d0, ppos, data[..done]), r))
            && (o.error != Some(TimedOut) ==> o.late == [])
  {
    var tmp := data[done..done + size];
    CleanRound(MemToDev, before, ppos + done, tmp, fate);
    var o := Transferred(MemToDev, before, [], [], ppos + done, tmp, fate);
    hide Transferred, Put;
    if o.error.None? {
      SameTo(after, o.dev, Put(before, ppos + done, tmp), r);
      PieceStored(d0, before, after, r, ppos, data, done, size);
    } else if o.error != Some(TimedOut) {
      SameTo(after, o.dev, before, r);
      SameOffJoins(after, before, Put(d0, ppos, data[..done]), r);
    }
    PieceLost(d0, before, after, r, ppos, data, done, size);
  }

  lemma SameTo(u: Mem, v: Mem, w: Mem, r: Region)
    requires SameOff(u, v, r) && Same(v, w)
    ensures SameOff(u, w, r)
  {
  }

  lemma AllWithin(rs: seq<Range>)
    ensures Within(rs, rs)
  {
  }

  lemma StoredSoFar(m: Mem, r: Region, ppos: nat, d0: Mem, data: seq<byte>, done: nat)
    requires done <= |data| && SameOff(m, Put(d0, ppos, data[..done]), r)
    ensures SameOffBut(m, Put(d0, ppos, data[..done]), r, ppos + done, ppos + done + 1024)
  {
  }

  /** A round's transfer is reported as done exactly when some callback ends the wait. */
  lemma GoodExactly(dir: Direction, dev: Mem, tx: seq<Range>, rx: seq<Range>, addr: int, tmp: seq<byte>, fate: Fate)
    requires dir != OtherDirection
    ensures var o := Transferred(dir, dev, tx, rx, addr, tmp, fate);
            && |o.after| == |tmp| && o.error == EndCause(fate.ending)
            && (Good(fate) <==> !fate.copyFails && o.error.None?)
            && (!fate.copyFails && o.error.Some? ==> RoundCause(dir, fate) == o.error)
            && (dir == DevToMem && o.error.Some? ==> RoundCause(dir, fate) == o.error)
  {
  }

  lemma WriteContained(d0: Mem, before: Mem, after: Mem, r: Region, tx: seq<Range>, rx: seq<Range>, addr: int,
                       tmp: seq<byte>, fate: Fate, all: seq<Range>)
    requires SameOffRanges(before, d0, r, all) && Within(tx, all) && Within([Range(addr, |tmp|)], all)
    requires SameOff(after, Transferred(MemToDev, before, tx, rx, addr, tmp, fate).dev, r)
    ensures SameOffRanges(after, d0, r, all)
    ensures Within(Transferred(MemToDev, before, tx, rx, addr, tmp, fate).late, all)
  {
    Contained(MemToDev, before, tx, rx, addr, tmp, fate, r, all);
    hide Transferred, Within, InRanges;
    ContainedOff(after, Transferred(MemToDev, before, tx, rx, addr, tmp, fate).dev, before, r, all);
    SameJoins(after, before, d0, r, all);
  }

  /** The device, its memory, and per direction the transfers whose callback is outstanding, oldest first. */
  class AkidaDevice {
    const txRegion: Region
    const rxRegion: Region
    /** What the environment does to the n-th round ever begun. */
    const fates: nat -> Fate
    var rounds: nat
    var host: Mem
    var dev: Mem
    var txLate: seq<Range>
    var rxLate: seq<Range>

    constructor (txRegion: Region, rxRegion: Region, fates: nat -> Fate, host: Mem, dev: Mem)
      ensures this.txRegion == txRegion && this.rxRegion == rxRegion && this.fates == fates
      ensures this.host == host && this.dev == dev && rounds == 0 && txLate == rxLate == []
    {
      this.txRegion, this.rxRegion, this.fates := txRegion, rxRegion, fates;
      this.host, this.dev, this.rounds, txLate, rxLate := host, dev, 0, [], [];
    }

    /** Between two calls: an outstanding callback runs, and nobody waits for it. */
    method LateCallback(dir: Direction, junk: Mem)
      requires dir != OtherDirection && (if dir == MemToDev then txLate else rxLate) != []
      modifies this`dev, this`txLate, this`rxLate
      ensures dev == Scribble(old(dev), old(txLate), junk)
      ensures if dir == MemToDev then txLate == old(txLate)[1..] && rxLate == old(rxLate)
              else rxLate == old(rxLate)[1..] && txLate == old(txLate)
    {
      dev := Scribble(dev, txLate, junk);
      if dir == MemToDev {
        txLate := txLate[1..];
      } else {
        rxLate := rxLate[1..];
      }
    }

    /** One DMA transfer between the bounce buffer and the device range [addr, addr + |tmp|). */
    method DmaTransfer(dir: Direction, addr: u64, tmp: seq<byte>, fate: Fate)
      returns (error: Option<Error>, after: seq<byte>)
      requires dir != OtherDirection && |tmp| <= 1024
      requires var r := if dir == MemToDev then txRegion else rxRegion; GoodRegion(r) && OffRegion(r, addr, |tmp|)
      modifies this`host, this`dev, this`txLate, this`rxLate
      ensures var o := Transferred(dir, old(dev), old(txLate), old(rxLate), addr, tmp, fate);
              && error == o.error && after == o.after
              && SameOff(dev, o.dev, if dir == MemToDev then txRegion else rxRegion)
              && txLate == (if dir == MemToDev then o.late else old(txLate))
              && rxLate == (if dir == MemToDev then old(rxLate) else o.late)
    {
      hide ServeTo, Plan, ClientSetup, InRanges;
      var r := if dir == MemToDev then txRegion else rxRegion;
      var late := if dir == MemToDev then txLate else rxLate;
      var own := Range(addr, |tmp|);
      dev := Scribble(dev, txLate, fate.junk);
      after := tmp;
      if fate.ending.MapFails? {
        return Some(Inval), after;
      }
      var data := if dir == MemToDev then Buffered(rxLate, addr, tmp, fate) else tmp;
      host := Put(host, fate.bus, data);
      if fate.ending.ConfigFails? {
        return Some(ConfigFailed), after;
      }
      if fate.ending.PrepFails? {
        return Some(Inval), after;
      }
      late := Drop(late, fate.called);
      if fate.ending.SubmitFails? {
        error := Some(Error.SubmitFailed);
      } else if fate.ending.Completes? && late == [] {
        ClientMoves(dir, old(host), dev, r, addr, fate.bus, data);
        var plan := Plan(ClientSetup(dir, addr, fate.bus), dir, ClientTransfer(fate.bus, |tmp|));
        var w := ServeTo(dir, World(host, dev), r, false, plan, |plan|);
        host, dev := w.host, w.dev;
        after := Load(host, fate.bus, |tmp|);
        error := None;
      } else {
        if dir == MemToDev {
          dev := Scribble(dev, [own], fate.junk);
        }
        if !fate.ending.TimesOut? {
          after := if dir == MemToDev then data else Load(fate.scrap, addr, |tmp|);
        }
        error := if fate.ending.TimesOut? then Some(TimedOut) else None;
        late := if fate.ending.TimesOut? then late + [own] else if late == [] then [] else late[1..] + [own];
      }
      if dir == MemToDev {
        txLate := late;
      } else {
        rxLate := late;
      }
    }

    /** One round of `write`: the next piece is copied from the user and transferred. */
    method WriteRound(data: seq<byte>, ppos: nat, done: nat, size: nat, ghost d0: Mem, ghost all: seq<Range>,
                      ghost clean: bool)
      returns (error: Option<Error>)
      requires GoodRegion(txRegion) && size <= 1024 && done + size <= |data|
      requires OffRegion(txRegion, ppos + done, size) && ppos + done < 0x1_0000_0000_0000_0000
      requires SameOffRanges(dev, d0, txRegion, all) && Within(txLate, all) && Within([Range(ppos + done, size)], all)
      requires clean ==>
                 && SameOff(dev, Put(d0, ppos, data[..done]), txRegion) && txLate == [] && rxLate == []
                 && !fates(rounds).ending.Aborts?
      modifies this`host, this`dev, this`rounds, this`txLate, this`rxLate
      ensures rxLate == old(rxLate) && rounds == old(rounds) + 1
      ensures error == RoundCause(MemToDev, fates(old(rounds))) && (error.None? <==> Good(fates(old(rounds))))
      ensures SameOffRanges(dev, d0, txRegion, all) && Within(txLate, all)
      ensures clean ==>
                && (error.None? ==> SameOff(dev, Put(d0, ppos, data[..done + size]), txRegion))
                && SameOffBut(dev, Put(d0, ppos, data[..done]), txRegion, ppos + done, ppos + done + 1024)
                && (error.Some? && error != Some(TimedOut) ==> SameOff(dev, Put(d0, ppos, data[..done]), txRegion))
                && (error != Some(TimedOut) ==> txLate == [])
    {
      hide SameOff, SameOffBut, SameOffRanges, Within, Put, Transferred;
      var fate := fates(rounds);
      rounds := rounds + 1;
      if fate.copyFails {
        if clean {
          StoredSoFar(dev, txRegion, ppos, d0, data, done);
        }
        return Some(BadAddress);
      }
      ghost var before, late := dev, txLate;
      var tmp := data[done..done + size];
      var failure, _ := DmaTransfer(MemToDev, ppos + done, tmp, fate);
      error := failure;
      WriteContained(d0, before, dev, txRegion, late, rxLate, ppos + done, tmp, fate, all);
      if clean {
        CleanWrite(d0, before, dev, txRegion, ppos, data, done, size, fate);
      }
      GoodExactly(MemToDev, before, late, rxLate, ppos + done, tmp, fate);
    }

    /** `write`: copies the user's bytes to the device from the file position on. */
    method Write(data: seq<byte>, ppos: nat, gotMemory: bool, gotChannel: bool) returns (result: Result, newPos: nat)
      requires ppos + |data| < 0x8000_0000_0000_0000 && GoodRegion(txRegion)
      modifies this`host, this`dev, this`rounds, this`txLate, this`rxLate
      ensures ppos <= newPos <= ppos + |data| && rxLate == old(rxLate)
      ensures result.Moved? <==> IsAllowed(ppos, |data|) && gotMemory && gotChannel &&
                                 AllGood(fates, old(rounds), Rounds(|data|))
      ensures result.Moved? ==>
                && result.count == |data| && newPos == ppos + |data| && rounds == old(rounds) + Rounds(|data|)
                && 1024 * (rounds - old(rounds)) - 1024 < |data| <= 1024 * (rounds - old(rounds))
      ensures var refusal := Refusal(IsAllowed(ppos, |data|), gotMemory, gotChannel);
              if refusal.Some? then result == Failed(refusal.value) && rounds == old(rounds) && dev == old(dev)
              else result.Failed? ==>
                && FailedIn(fates, old(rounds), rounds, MemToDev, result.error)
                && newPos == ppos + 1024 * (rounds - 1 - old(rounds))
      ensures var own := old(txLate) + [Range(ppos, |data|)];
              SameOffRanges(dev, old(dev), txRegion, own) && Within(txLate, own)
      ensures old(txLate) == [] && old(rxLate) == [] && NoAborts(fates, old(rounds), Rounds(|data|)) ==>
                && SameOffBut(dev, Put(old(dev), ppos, data[..newPos - ppos]), txRegion, newPos, newPos + 1024)
                && (result != Failed(TimedOut) ==>
                      SameOff(dev, Put(old(dev), ppos, data[..newPos - ppos]), txRegion) && txLate == [])
    {
      hide Rounds, AllGood, NoAborts, Good, RoundCause, EndCause;
      hide SameOff, SameOffBut, SameOffRanges, Within, Put, Transferred;
      ghost var all := txLate + [Range(ppos, |data|)];
      ghost var clean := txLate == [] && rxLate == [] && NoAborts(fates, rounds, Rounds(|data|));
      newPos := ppos;
      NothingStored(dev, txRegion, ppos, data, txLate);
      NothingStored(dev, txRegion, ppos, data, all);
      if !IsAllowed(ppos, |data|) {
        return Failed(Inval), newPos;
      }
      if !gotMemory {
        return Failed(NoMem), newPos;
      }
      if !gotChannel {
        return Failed(Interrupted), newPos;
      }
      AllowedSafeIff(ppos, |data|);
      NoRounds(fates, rounds);
      hide IsAllowed;
      var left := |data|;
      ghost var begun := 0;
      while left != 0
        invariant 0 <= left <= |data| && newPos == ppos + |data| - left
        invariant SameOffRanges(dev, old(dev), txRegion, all) && Within(txLate, all) && rxLate == old(rxLate)
        invariant clean ==> SameOff(dev, Put(old(dev), ppos, data[..newPos - ppos]), txRegion) && txLate == []
        invariant rounds == old(rounds) + begun && AllGood(fates, old(rounds), begun)
        invariant begun + Rounds(left) == Rounds(|data|) && Pieces(|data| - left, begun, left)
        decreases left
      {
        var size := if left > 1024 then 1024 else left;
        RoundsStep(left);
        OwnWithin(old(txLate), ppos, |data|, newPos, size);
        if clean {
          NotAborted(fates, old(rounds), begun, Rounds(|data|));
        }
        var error := WriteRound(data, ppos, newPos - ppos, size, old(dev), all, clean);
        if error.Some? {
          BadRound(fates, old(rounds), begun, Rounds(|data|));
          return Failed(error.value), newPos;
        }
        NextRound(fates, old(rounds), begun);
        newPos := newPos + size;
        left := left - size;
        begun := begun + 1;
      }
      if clean {
        StoredSoFar(dev, txRegion, ppos, old(dev), data, |data|);
      }
      return Moved(|data|), newPos;
    }

    /** One round of `read`: the next piece is transferred and copied to the user. */
    method ReadRound(ppos: nat, done: nat, size: nat, ghost d0: Mem, ghost clean: bool)
      returns (error: Option<Error>, piece: seq<byte>)
      requires GoodRegion(rxRegion) && size <= 1024
      requires OffRegion(rxRegion, ppos + done, size) && ppos + done < 0x1_0000_0000_0000_0000
      requires SameOffRanges(dev, d0, rxRegion, txLate)
      requires clean ==>
                 SameOff(dev, d0, rxRegion) && txLate == [] && rxLate == [] && !fates(rounds).ending.Aborts?
      modifies this`host, this`dev, this`rounds, this`txLate, this`rxLate
      ensures txLate == old(txLate) && rounds == old(rounds) + 1 && |piece| == size
      ensures error == RoundCause(DevToMem, fates(old(rounds))) && (error.None? <==> Good(fates(old(rounds))))
      ensures SameOffRanges(dev, d0, rxRegion, txLate)
      ensures clean ==>
                && SameOff(dev, d0, rxRegion) && (error != Some(TimedOut) ==> rxLate == [])
                && (error.None? ==> Load(d0, ppos, done) + piece == Load(d0, ppos, done + size))
    {
      hide SameOff, SameOffRanges, Within, Load, Transferred;
      var fate := fates(rounds);
      rounds := rounds + 1;
      ghost var before, late := dev, rxLate;
      var zeros := seq(size, _ => 0);
      error, piece := DmaTransfer(DevToMem, ppos + done, zeros, fate);
      ghost var o := Transferred(DevToMem, before, txLate, late, ppos + done, zeros, fate);
      AllWithin(txLate);
      Contained(DevToMem, before, txLate, late, ppos + done, zeros, fate, rxRegion, txLate);
      ContainedOff(dev, o.dev, before, rxRegion, txLate);
      SameJoins(dev, before, d0, rxRegion, txLate);
      GoodExactly(DevToMem, before, txLate, late, ppos + done, zeros, fate);
      if clean {
        CleanRound(DevToMem, before, ppos + done, zeros, fate);
        SameTo(dev, o.dev, before, rxRegion);
        SameOffJoins(dev, before, d0, rxRegion);
        PieceLoaded(d0, before, rxRegion, ppos, done, size);
      }
      if error.None? && fate.copyFails {
        error := Some(BadAddress);
      }
    }

    /** `read`: copies device bytes from the file position on to the user; `user` is what was delivered. */
    method Read(sz: nat, ppos: nat, gotMemory: bool, gotChannel: bool)
      returns (result: Result, newPos: nat, user: seq<byte>)
      requires ppos + sz < 0x8000_0000_0000_0000 && GoodRegion(rxRegion)
      modifies this`host, this`dev, this`rounds, this`txLate, this`rxLate
      ensures ppos <= newPos <= ppos + sz && txLate == old(txLate) && |user| == newPos - ppos
      ensures result.Moved? <==> IsAllowed(ppos, sz) && gotMemory && gotChannel &&
                                 AllGood(fates, old(rounds), Rounds(sz))
      ensures result.Moved? ==>
                && result.count == sz && newPos == ppos + sz && rounds == old(rounds) + Rounds(sz)
                && 1024 * (rounds - old(rounds)) - 1024 < sz <= 1024 * (rounds - old(rounds))
      ensures var refusal := Refusal(IsAllowed(ppos, sz), gotMemory, gotChannel);
              if refusal.Some? then result == Failed(refusal.value) && rounds == old(rounds) && dev == old(dev)
              else result.Failed? ==>
                && FailedIn(fates, old(rounds), rounds, DevToMem, result.error)
                && newPos == ppos + 1024 * (rounds - 1 - old(rounds))
      ensures SameOffRanges(dev, old(dev), rxRegion, old(txLate))
      ensures old(txLate) == [] && old(rxLate) == [] && NoAborts(fates, old(rounds), Rounds(sz)) ==>
                && user == Load(old(dev), ppos, newPos - ppos) && SameOff(dev, old(dev), rxRegion)
                && (result != Failed(TimedOut) ==> rxLate == [])
    {
      hide Rounds, AllGood, NoAborts, Good, RoundCause, EndCause, SameOff, SameOffRanges, Within, Load, Transferred;
      ghost var clean := txLate == [] && rxLate == [] && NoAborts(fates, rounds, Rounds(sz));
      newPos := ppos;
      NothingLoaded(dev, rxRegion, ppos, txLate);
      user := [];
      if !IsAllowed(ppos, sz) {
        return Failed(Inval), newPos, user;
      }
      if !gotMemory {
        return Failed(NoMem), newPos, user;
      }
      if !gotChannel {
        return Failed(Interrupted), newPos, user;
      }
      AllowedSafeIff(ppos, sz);
      NoRounds(fates, rounds);
      hide IsAllowed;
      var left := sz;
      ghost var begun := 0;
      while left != 0
        invariant 0 <= left <= sz && newPos == ppos + sz - left && |user| == sz - left
        invariant SameOffRanges(dev, old(dev), rxRegion, old(txLate)) && txLate == old(txLate)
        invariant clean ==>
                    SameOff(dev, old(dev), rxRegion) && user == Load(old(dev), ppos, sz - left) && rxLate == []
        invariant rounds == old(rounds) + begun && AllGood(fates, old(rounds), begun)
        invariant begun + Rounds(left) == Rounds(sz) && Pieces(sz - left, begun, left)
        decreases left
      {
        var size := if left > 1024 then 1024 else left;
        RoundsStep(left);
        if clean {
          NotAborted(fates, old(rounds), begun, Rounds(sz));
        }
        var error, tmp := ReadRound(ppos, newPos - ppos, size, old(dev), clean);
        if error.Some? {
          BadRound(fates, old(rounds), begun, Rounds(sz));
          return Failed(error.value), newPos, user;
        }
        NextRound(fates, old(rounds), begun);
        newPos := newPos + size;
        user := user + tmp;
        left := left - size;
        begun := begun + 1;
      }
      return Moved(sz), newPos, user;
    }
  }

  /** No callback of an earlier transfer is outstanding, and none of the next 2n rounds is aborted. */
  ghost predicate Undisturbed(txLate: seq<Range>, rxLate: seq<Range>, fates: nat -> Fate, from: nat, n: nat) {
    txLate == [] && rxLate == [] && NoAborts(fates, from, n) && NoAborts(fates, from + n, n)
  }

  /**
   Writing a range and reading it back. Both report success exactly when the range is allowed and no round
   fails. Then the same bytes come back, provided no earlier transfer on the two channels has its callback
   outstanding and none of these is aborted. Device memory outside the range, the two list regions and the
   ranges of outstanding transfers is as it was, in any case.
   */
  method WriteThenRead(d: AkidaDevice, data: seq<byte>, ppos: nat)
    returns (written: Result, read: Result, back: seq<byte>)
    requires ppos + |data| < 0x8000_0000_0000_0000 && GoodRegion(d.txRegion) && GoodRegion(d.rxRegion)
    modifies d
    ensures var n := Rounds(|data|);
            && (written.Moved? && read.Moved? <==>
                IsAllowed(ppos, |data|) && AllGood(d.fates, old(d.rounds), n) && AllGood(d.fates, old(d.rounds) + n, n))
            && (written.Moved? && read.Moved? ==>
                  Undisturbed(old(d.txLate), old(d.rxLate), d.fates, old(d.rounds), n) ==> back == data)
    ensures forall a: int :: !InRegion(d.txRegion, a) && !InRegion(d.rxRegion, a) ==>
              InRanges(old(d.txLate) + [Range(ppos, |data|)], a) || d.dev(a) == old(d.dev)(a)
  {
    hide Rounds, AllGood, NoAborts, Load, Put, InRanges;
    var newPos;
    written, newPos := d.Write(data, ppos, true, true);
    ghost var between := d.dev;
    read, newPos, back := d.Read(|data|, ppos, true, true);
    AllowedSafeIff(ppos, |data|);
    if written.Moved? && Undisturbed(old(d.txLate), old(d.rxLate), d.fates, old(d.rounds), Rounds(|data|)) {
      assert data[..|data|] == data;
      LoadStored(old(d.dev), between, d.txRegion, ppos, data);
    }
  }
}
