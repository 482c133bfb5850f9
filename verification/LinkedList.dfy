/**
 The linked list the engine consumes: one chunk serialised into a region of 32-bit words.

 An entry is six words (control, size, source low/high, destination low/high); a link entry uses
 the control word and the two pointer words of the next slot. The engine's side is `Walk`.
 A 64-bit store is written as its two halves, low half first.
 */
module LinkedList {
  import opened Words
  import opened Bursts

  /** The bits of a control word: cycle bit, toggle cycle bit, link entry, local and remote interrupt. */
  datatype Flags = Flags(cb: bool, tcb: bool, llp: bool, lie: bool, rie: bool)

  const NO_FLAGS := Flags(false, false, false, false, false)

  /** The control word with these bits set: bits 0 to 4 in the order of the fields. */
  function Word(f: Flags): u32 {
    (if f.cb then 1 else 0) + (if f.tcb then 2 else 0) + (if f.llp then 4 else 0)
    + (if f.lie then 8 else 0) + (if f.rie then 16 else 0)
  }

  /** One 32-bit store to the region. */
  datatype Store = Store(index: nat, value: u32)

  predicate HasCb(control: u32) { control % 2 == 1 }
  predicate HasTcb(control: u32) { control / 2 % 2 == 1 }
  predicate HasLlp(control: u32) { control / 4 % 2 == 1 }
  predicate HasLie(control: u32) { control / 8 % 2 == 1 }
  predicate HasRie(control: u32) { control / 16 % 2 == 1 }

  // What a reader of the region sees.

  /** Entry i lies in a region of `size` words. */
  predicate InBounds(i: nat, size: nat) {
    6 * i + 6 <= size
  }

  function Control(m: seq<u32>, i: nat): u32
    requires InBounds(i, |m|)
  {
    m[6 * i]
  }

  /** A control word at which a reader expecting cycle bit `cb` stops. */
  predicate Stops(control: u32, cb: bool) {
    HasCb(control) != cb || HasLlp(control)
  }

  function EntryAt(m: seq<u32>, i: nat): Burst
    requires InBounds(i, |m|)
  {
    Burst(Join64(m[6 * i + 2], m[6 * i + 3]),
          Join64(m[6 * i + 4], m[6 * i + 5]),
          m[6 * i + 1])
  }

  /** The bursts read from entry i on: up to the first cycle-bit mismatch, link entry or end of region. */
  function Walk(m: seq<u32>, i: nat, cb: bool): seq<Burst>
    decreases |m| - 6 * i
  {
    if !InBounds(i, |m|) || Stops(Control(m, i), cb) then []
    else [EntryAt(m, i)] + Walk(m, i + 1, cb)
  }

  // What the writer stores.

  /** Flags of data entry i: the cycle bit, and the interrupt bits on the last entry only. */
  function DataFlags(i: nat, n: nat, cb: bool, local: bool): Flags {
    Flags(cb, false, false, i + 1 == n, i + 1 == n && !local)
  }

  /** Flags of the link entry: a link that toggles, carrying the opposite cycle bit. */
  function LinkFlags(cb: bool): Flags {
    Flags(!cb, true, true, false, false)
  }

  /** The words of an entry after its control word. */
  function EntryWord(b: Burst, r: nat): u32
    requires r < 5
  {
    match r
    case 0 => b.sz
    case 1 => Low32(b.sar)
    case 2 => High32(b.sar)
    case 3 => Low32(b.dar)
    case _ => High32(b.dar)
  }

  /** A position in the program order of a chunk's stores: r stores into slot i (the link is slot n). */
  predicate IsPosition(n: nat, i: nat, r: nat) {
    (i < n && r < 6) || (i == n && r <= 3)
  }

  /** The store made at a position: an entry's control word comes last, and so does the link's. */
  function StoreAt(bs: seq<Burst>, cb: bool, local: bool, base: u64, i: nat, r: nat): Store
    requires (i < |bs| && r < 6) || (i == |bs| && r < 3)
  {
    if i < |bs| then
      if r < 5 then Store(6 * i + 1 + r, EntryWord(bs[i], r)) else Store(6 * i, Word(DataFlags(i, |bs|, cb, local)))
    else
      match r
      case 0 => Store(6 * i + 2, Low32(base))
      case 1 => Store(6 * i + 3, High32(base))
      case _ => Store(6 * i, Word(LinkFlags(cb)))
  }

  /** All stores before a position, in program order. */
  function StoresBefore(bs: seq<Burst>, cb: bool, local: bool, base: u64, i: nat, r: nat): seq<Store>
    requires IsPosition(|bs|, i, r)
    decreases i, r
  {
    if r > 0 then
      StoresBefore(bs, cb, local, base, i, r - 1) + [StoreAt(bs, cb, local, base, i, r - 1)]
    else if i > 0 then
      StoresBefore(bs, cb, local, base, i - 1, 5) + [StoreAt(bs, cb, local, base, i - 1, 5)]
    else
      []
  }

  /** Every store of one chunk, in program order. */
  function ChunkStores(bs: seq<Burst>, cb: bool, local: bool, base: u64): seq<Store> {
    StoresBefore(bs, cb, local, base, |bs|, 3)
  }

  /** The words a chunk of n bursts needs: its entries and the link. */
  function WordsNeeded(n: nat): nat {
    6 * n + 4
  }

  /** One store; outside the region it is none of the region's business. */
  function Poke(m: seq<u32>, s: Store): (m': seq<u32>)
    ensures |m'| == |m|
  {
    if s.index < |m| then m[s.index := s.value] else m
  }

  function Apply(m: seq<u32>, s: seq<Store>): (m': seq<u32>)
    ensures |m'| == |m|
  {
    if s == [] then m else Poke(Apply(m, s[..|s| - 1]), s[|s| - 1])
  }

  lemma ApplySnoc(m: seq<u32>, s: seq<Store>, st: Store)
    ensures Apply(m, s + [st]) == Poke(Apply(m, s), st)
  {
    assert (s + [st])[..|s|] == s;
  }

  lemma {:induction false} ApplyConcat(m: seq<u32>, a: seq<Store>, b: seq<Store>)
    ensures Apply(m, a + b) == Apply(Apply(m, a), b)
  {
    if b == [] {
      assert a + b == a;
    } else {
      var init := b[..|b| - 1];
      ApplyConcat(m, a, init);
      ApplySnoc(m, a + init, b[|b| - 1]);
      assert a + b == a + init + [b[|b| - 1]];
    }
  }

  /** The region with the stores before a position made. */
  function Written(m0: seq<u32>, bs: seq<Burst>, cb: bool, local: bool, base: u64, i: nat, r: nat): (m: seq<u32>)
    requires IsPosition(|bs|, i, r)
    ensures |m| == |m0|
    decreases i, r
  {
    if r > 0 then
      Poke(Written(m0, bs, cb, local, base, i, r - 1), StoreAt(bs, cb, local, base, i, r - 1))
    else if i > 0 then
      Poke(Written(m0, bs, cb, local, base, i - 1, 5), StoreAt(bs, cb, local, base, i - 1, 5))
    else
      m0
  }

  lemma {:induction false} WrittenIsApply(m0: seq<u32>, bs: seq<Burst>, cb: bool, local: bool, base: u64,
                                          i: nat, r: nat)
    requires IsPosition(|bs|, i, r)
    ensures Written(m0, bs, cb, local, base, i, r) == Apply(m0, StoresBefore(bs, cb, local, base, i, r))
    decreases i, r
  {
    if r > 0 {
      WrittenIsApply(m0, bs, cb, local, base, i, r - 1);
      ApplySnoc(m0, StoresBefore(bs, cb, local, base, i, r - 1), StoreAt(bs, cb, local, base, i, r - 1));
    } else if i > 0 {
      WrittenIsApply(m0, bs, cb, local, base, i - 1, 5);
      ApplySnoc(m0, StoresBefore(bs, cb, local, base, i - 1, 5), StoreAt(bs, cb, local, base, i - 1, 5));
    }
  }

  lemma JoinHalves(x: u64)
    ensures Join64(Low32(x), High32(x)) == x
  {
  }

  /**
   The region while a chunk is written over `m0`: i entries are complete and r words of entry i are
   stored; the control words from entry i on, and everything past the chunk's entries, are old.
   */
  ghost predicate Progress(m0: seq<u32>, m: seq<u32>, bs: seq<Burst>, cb: bool, local: bool, i: nat, r: nat)
    requires WordsNeeded(|bs|) <= |m0| && i <= |bs| && r < 6
  {
    && |m| == |m0|
    && (forall j :: 0 <= j < i ==> EntryAt(m, j) == bs[j] && Control(m, j) == Word(DataFlags(j, |bs|, cb, local)))
    && (forall j :: i <= j && InBounds(j, |m0|) ==> Control(m, j) == Control(m0, j))
    && (forall w :: 6 * |bs| <= w < |m0| ==> m[w] == m0[w])
    && (i < |bs| ==> Partial(m, bs[i], 6 * i, r))
  }

  ghost predicate Partial(m: seq<u32>, b: Burst, w: nat, r: nat)
    requires w + 6 <= |m| && r < 6
  {
    forall k :: 0 <= k < r ==> m[w + 1 + k] == EntryWord(b, k)
  }

  lemma EntryFrame(m: seq<u32>, m': seq<u32>, j: nat)
    requires InBounds(j, |m|) && |m'| == |m|
    requires forall k :: 6 * j <= k < 6 * j + 6 ==> m'[k] == m[k]
    ensures EntryAt(m', j) == EntryAt(m, j) && Control(m', j) == Control(m, j)
  {
  }

  lemma ProgressWord(m0: seq<u32>, m: seq<u32>, bs: seq<Burst>, cb: bool, local: bool, base: u64, i: nat, r: nat)
    requires WordsNeeded(|bs|) <= |m0| && i < |bs| && r < 5
    requires Progress(m0, m, bs, cb, local, i, r)
    ensures Progress(m0, Poke(m, StoreAt(bs, cb, local, base, i, r)), bs, cb, local, i, r + 1)
  {
    var m' := m[6 * i + 1 + r := EntryWord(bs[i], r)];
    forall j | 0 <= j < i
      ensures EntryAt(m', j) == EntryAt(m, j) && Control(m', j) == Control(m, j)
    {
      EntryFrame(m, m', j);
    }
  }

  lemma ProgressControl(m0: seq<u32>, m: seq<u32>, bs: seq<Burst>, cb: bool, local: bool, base: u64, i: nat)
    requires WordsNeeded(|bs|) <= |m0| && i < |bs|
    requires Progress(m0, m, bs, cb, local, i, 5)
    ensures Progress(m0, Poke(m, StoreAt(bs, cb, local, base, i, 5)), bs, cb, local, i + 1, 0)
  {
    var m' := m[6 * i := Word(DataFlags(i, |bs|, cb, local))];
    forall j | 0 <= j < i
      ensures EntryAt(m', j) == EntryAt(m, j) && Control(m', j) == Control(m, j)
    {
      EntryFrame(m, m', j);
    }
    var b := bs[i];
    assert m[6 * i + 1 + 0] == EntryWord(b, 0) && m[6 * i + 1 + 1] == EntryWord(b, 1);
    assert m[6 * i + 1 + 2] == EntryWord(b, 2);
    assert m[6 * i + 1 + 3] == EntryWord(b, 3) && m[6 * i + 1 + 4] == EntryWord(b, 4);
    JoinHalves(b.sar);
    JoinHalves(b.dar);
    assert EntryAt(m', i) == b;
  }

  lemma {:induction false} DataProgress(m0: seq<u32>, bs: seq<Burst>, cb: bool, local: bool, base: u64, i: nat, r: nat)
    requires WordsNeeded(|bs|) <= |m0| && i <= |bs| && r < 6 && (i == |bs| ==> r == 0)
    ensures Progress(m0, Written(m0, bs, cb, local, base, i, r), bs, cb, local, i, r)
    decreases i, r
  {
    if r > 0 {
      hide Progress, StoreAt, Poke;
      DataProgress(m0, bs, cb, local, base, i, r - 1);
      ProgressWord(m0, Written(m0, bs, cb, local, base, i, r - 1), bs, cb, local, base, i, r - 1);
    } else if i > 0 {
      hide Progress, StoreAt, Poke;
      DataProgress(m0, bs, cb, local, base, i - 1, 5);
      ProgressControl(m0, Written(m0, bs, cb, local, base, i - 1, 5), bs, cb, local, base, i - 1);
    }
  }

  lemma {:induction false} WalkYields(m: seq<u32>, bs: seq<Burst>, i: nat, k: nat, cb: bool)
    requires i <= k <= |bs| && 6 * k <= |m|
    requires forall j :: i <= j < k ==> !Stops(Control(m, j), cb) && EntryAt(m, j) == bs[j]
    requires InBounds(k, |m|) ==> Stops(Control(m, k), cb)
    ensures Walk(m, i, cb) == bs[i..k]
    decreases k - i
  {
    if i < k {
      assert !Stops(Control(m, i), cb);
      WalkYields(m, bs, i + 1, k, cb);
      assert bs[i..k] == [bs[i]] + bs[i + 1..k];
    }
  }

  /** Every data entry of the chunk is in the region. */
  ghost predicate DataDone(m: seq<u32>, bs: seq<Burst>, cb: bool, local: bool)
    requires WordsNeeded(|bs|) <= |m|
  {
    forall j :: 0 <= j < |bs| ==> EntryAt(m, j) == bs[j] && Control(m, j) == Word(DataFlags(j, |bs|, cb, local))
  }

  lemma DataDoneFrame(d: seq<u32>, m: seq<u32>, bs: seq<Burst>, cb: bool, local: bool)
    requires WordsNeeded(|bs|) <= |d| == |m| && DataDone(d, bs, cb, local)
    requires forall w :: 0 <= w < 6 * |bs| ==> m[w] == d[w]
    ensures DataDone(m, bs, cb, local)
  {
    forall j | 0 <= j < |bs|
      ensures EntryAt(m, j) == bs[j] && Control(m, j) == Word(DataFlags(j, |bs|, cb, local))
    {
      EntryFrame(d, m, j);
    }
  }

  /** The region `m` after all data entries and q stores of the link over `m0`. */
  ghost predicate LinkReached(m0: seq<u32>, m: seq<u32>, bs: seq<Burst>, cb: bool, local: bool, base: u64, q: nat)
    requires WordsNeeded(|bs|) <= |m0|
  {
    && |m| == |m0|
    && DataDone(m, bs, cb, local)
    && m[6 * |bs|] == (if q == 3 then Word(LinkFlags(cb)) else m0[6 * |bs|])
    && m[6 * |bs| + 1] == m0[6 * |bs| + 1]
    && (q >= 1 ==> m[6 * |bs| + 2] == Low32(base))
    && (q >= 2 ==> m[6 * |bs| + 3] == High32(base))
    && (forall w :: WordsNeeded(|bs|) <= w < |m0| ==> m[w] == m0[w])
  }

  lemma LinkStep(m0: seq<u32>, m: seq<u32>, bs: seq<Burst>, cb: bool, local: bool, base: u64, q: nat)
    requires WordsNeeded(|bs|) <= |m0| && q < 3
    requires LinkReached(m0, m, bs, cb, local, base, q)
    ensures LinkReached(m0, Poke(m, StoreAt(bs, cb, local, base, |bs|, q)), bs, cb, local, base, q + 1)
  {
    DataDoneFrame(m, Poke(m, StoreAt(bs, cb, local, base, |bs|, q)), bs, cb, local);
  }

  lemma {:induction false} LinkProgress(m0: seq<u32>, bs: seq<Burst>, cb: bool, local: bool, base: u64, q: nat)
    requires WordsNeeded(|bs|) <= |m0| && q <= 3
    ensures LinkReached(m0, Written(m0, bs, cb, local, base, |bs|, q), bs, cb, local, base, q)
  {
    if q == 0 {
      DataProgress(m0, bs, cb, local, base, |bs|, 0);
    } else {
      LinkProgress(m0, bs, cb, local, base, q - 1);
      LinkStep(m0, Written(m0, bs, cb, local, base, |bs|, q - 1), bs, cb, local, base, q - 1);
    }
  }

  lemma ControlBits(j: nat, n: nat, cb: bool, local: bool)
    ensures var c := Word(DataFlags(j, n, cb, local));
            && !Stops(c, cb)
            && HasLie(c) == (j + 1 == n)
            && HasRie(c) == (j + 1 == n && !local)
            && !HasTcb(c)
    ensures var c := Word(LinkFlags(cb));
            HasLlp(c) && HasTcb(c) && HasCb(c) != cb && !HasLie(c) && !HasRie(c) && Stops(c, cb) && Stops(c, !cb)
  {
  }

  /**
   Round trip: whatever the region held, after a chunk is written a walk with its cycle bit reads
   exactly its bursts; only the last entry raises interrupts; the link closes the ring on the
   region base with the opposite cycle bit; nothing past the link entry is touched.
   */
  lemma RoundTrip(m0: seq<u32>, bs: seq<Burst>, cb: bool, local: bool, base: u64)
    requires WordsNeeded(|bs|) <= |m0|
    ensures var m := Apply(m0, ChunkStores(bs, cb, local, base));
            && Walk(m, 0, cb) == bs
            && (forall j :: 0 <= j < |bs| ==>
                  HasLie(Control(m, j)) == (j == |bs| - 1) && HasRie(Control(m, j)) == (j == |bs| - 1 && !local))
            && HasLlp(m[6 * |bs|]) && HasTcb(m[6 * |bs|]) && HasCb(m[6 * |bs|]) != cb
            && Join64(m[6 * |bs| + 2], m[6 * |bs| + 3]) == base
            && (forall w :: WordsNeeded(|bs|) <= w < |m0| ==> m[w] == m0[w])
  {
    WrittenIsApply(m0, bs, cb, local, base, |bs|, 3);
    var m := Written(m0, bs, cb, local, base, |bs|, 3);
    LinkProgress(m0, bs, cb, local, base, 3);
    StopsAtLink(m0, m, bs, cb, local, base, 3);
    JoinHalves(base);
    ControlBits(0, |bs|, cb, local);
    forall j | 0 <= j < |bs|
      ensures HasLie(Control(m, j)) == (j == |bs| - 1) && HasRie(Control(m, j)) == (j == |bs| - 1 && !local)
    {
      ControlBits(j, |bs|, cb, local);
    }
  }

  /** A reader expecting `cb` stops at each of the entries 0..n of the region. */
  predicate Quiet(m: seq<u32>, n: nat, cb: bool) {
    forall j :: 0 <= j <= n && InBounds(j, |m|) ==> Stops(Control(m, j), cb)
  }

  /** What a reader sees when the stores before a position have been made. */
  function Visible(m0: seq<u32>, bs: seq<Burst>, cb: bool, local: bool, base: u64, i: nat, r: nat): seq<Burst>
    requires IsPosition(|bs|, i, r)
  {
    Walk(Written(m0, bs, cb, local, base, i, r), 0, cb)
  }

  /** Over a quiet region a reader sees, after every single store, the entries completed so far and no more. */
  lemma SafePublication(m0: seq<u32>, bs: seq<Burst>, cb: bool, local: bool, base: u64, i: nat, r: nat)
    requires WordsNeeded(|bs|) <= |m0| && Quiet(m0, |bs|, cb) && IsPosition(|bs|, i, r)
    ensures Visible(m0, bs, cb, local, base, i, r) == bs[..i]
  {
    if i < |bs| {
      DataProgress(m0, bs, cb, local, base, i, r);
      ForwardWalk(m0, Written(m0, bs, cb, local, base, i, r), bs, cb, local, i);
    } else {
      LinkProgress(m0, bs, cb, local, base, r);
      StopsAtLink(m0, Written(m0, bs, cb, local, base, i, r), bs, cb, local, base, r);
      assert bs[..i] == bs;
    }
  }

  lemma StopsAtLink(m0: seq<u32>, m: seq<u32>, bs: seq<Burst>, cb: bool, local: bool, base: u64, q: nat)
    requires WordsNeeded(|bs|) <= |m0| && (q == 3 || Quiet(m0, |bs|, cb))
    requires LinkReached(m0, m, bs, cb, local, base, q)
    ensures Walk(m, 0, cb) == bs
  {
    var n := |bs|;
    ControlBits(0, n, cb, local);
    if InBounds(n, |m|) {
      assert q < 3 ==> Stops(Control(m0, n), cb);
      assert Stops(Control(m, n), cb);
    }
    EntriesPass(m, bs, cb, local, n);
    WalkYields(m, bs, 0, n, cb);
    assert bs[0..n] == bs;
  }

  lemma EntriesPass(m: seq<u32>, bs: seq<Burst>, cb: bool, local: bool, i: nat)
    requires i <= |bs| && 6 * i <= |m|
    requires forall j :: 0 <= j < i ==> Control(m, j) == Word(DataFlags(j, |bs|, cb, local))
    ensures forall j :: 0 <= j < i ==> !Stops(Control(m, j), cb)
  {
    forall j | 0 <= j < i
      ensures !Stops(Control(m, j), cb)
    {
      ControlBits(j, |bs|, cb, local);
    }
  }

  lemma ForwardWalk(m0: seq<u32>, m: seq<u32>, bs: seq<Burst>, cb: bool, local: bool, i: nat)
    requires WordsNeeded(|bs|) <= |m0| && i < |bs| && |m| == |m0| && Quiet(m0, |bs|, cb)
    requires forall j :: 0 <= j < i ==> EntryAt(m, j) == bs[j] && Control(m, j) == Word(DataFlags(j, |bs|, cb, local))
    requires Control(m, i) == Control(m0, i)
    ensures Walk(m, 0, cb) == bs[..i]
  {
    EntriesPass(m, bs, cb, local, i);
    assert Stops(Control(m0, i), cb);
    WalkYields(m, bs, 0, i, cb);
  }

  /**
   Safe publication over a predecessor: a chunk written over a region that holds an at least as
   long chunk of the opposite cycle bit shows a reader, after every single store, exactly the
   entries completed so far: never a stale and never a half-written one.
   */
  lemma SafeOverPredecessor(stale: seq<u32>, prev: seq<Burst>, bs: seq<Burst>, cb: bool, local: bool, base: u64,
                            i: nat, r: nat)
    requires |bs| <= |prev| && WordsNeeded(|prev|) <= |stale| && IsPosition(|bs|, i, r)
    ensures Visible(Apply(stale, ChunkStores(prev, !cb, local, base)), bs, cb, local, base, i, r) == bs[..i]
  {
    WrittenIsApply(stale, prev, !cb, local, base, |prev|, 3);
    LinkProgress(stale, prev, !cb, local, base, 3);
    var m0 := Written(stale, prev, !cb, local, base, |prev|, 3);
    forall j | 0 <= j <= |bs| && InBounds(j, |m0|)
      ensures Stops(Control(m0, j), cb)
    {
      ControlBits(j, |prev|, !cb, local);
    }
    SafePublication(m0, bs, cb, local, base, i, r);
  }

  /** What a reader sees after every store is a prefix of the new chunk, for every chunk of n bursts. */
  ghost predicate AlwaysPrefix(m0: seq<u32>, n: nat, cb: bool, local: bool, base: u64) {
    forall bs: seq<Burst>, i: nat, r: nat ::
      |bs| == n && IsPosition(|bs|, i, r) ==> Visible(m0, bs, cb, local, base, i, r) <= bs
  }

  /**
   Publishing is safe for every chunk of n bursts exactly when the region is quiet for them. A first
   chunk has no such guarantee: it is only the doorbell that keeps the engine away from it.
   */
  lemma PublicationExact(m0: seq<u32>, n: nat, cb: bool, local: bool, base: u64)
    requires WordsNeeded(n) <= |m0|
    ensures AlwaysPrefix(m0, n, cb, local, base) <==> Quiet(m0, n, cb)
  {
    if Quiet(m0, n, cb) {
      forall bs: seq<Burst>, i: nat, r: nat | |bs| == n && IsPosition(|bs|, i, r)
        ensures Visible(m0, bs, cb, local, base, i, r) <= bs
      {
        SafePublication(m0, bs, cb, local, base, i, r);
      }
    } else {
      var i := FirstOpen(m0, n, cb);
      var size := if m0[6 * i + 1] == 0 then 1 else 0;
      var bs := seq(n, _ => Burst(0, 0, size));
      OpenEntryLeaks(m0, bs, cb, local, base, i);
    }
  }

  lemma FirstOpen(m0: seq<u32>, n: nat, cb: bool) returns (i: nat)
    requires !Quiet(m0, n, cb)
    ensures i <= n && InBounds(i, |m0|) && !Stops(Control(m0, i), cb)
    ensures forall j :: 0 <= j < i ==> Stops(Control(m0, j), cb)
  {
    i := 0;
    while Stops(Control(m0, i), cb)
      invariant i <= n && InBounds(i, |m0|)
      invariant forall j :: 0 <= j < i ==> Stops(Control(m0, j), cb)
      decreases n - i
    {
      i := i + 1;
    }
  }

  lemma {:induction false} WalkReaches(m: seq<u32>, i: nat, k: nat, cb: bool)
    requires i <= k && InBounds(k, |m|)
    requires forall j :: i <= j <= k ==> !Stops(Control(m, j), cb)
    ensures |Walk(m, i, cb)| > k - i && Walk(m, i, cb)[k - i] == EntryAt(m, k)
    decreases k - i
  {
    assert !Stops(Control(m, i), cb);
    if i < k {
      WalkReaches(m, i + 1, k, cb);
    }
  }

  lemma OpenEntryLeaks(m0: seq<u32>, bs: seq<Burst>, cb: bool, local: bool, base: u64, i: nat)
    requires WordsNeeded(|bs|) <= |m0| && i <= |bs| && InBounds(i, |m0|) && !Stops(Control(m0, i), cb)
    requires i < |bs| ==> bs[i].sz != m0[6 * i + 1]
    ensures !(Visible(m0, bs, cb, local, base, i, 0) <= bs)
  {
    DataProgress(m0, bs, cb, local, base, i, 0);
    UntouchedAhead(m0, bs, cb, local, base, i, 0, 6 * i + 1);
    LeakAt(Written(m0, bs, cb, local, base, i, 0), bs, cb, local, i);
  }

  lemma LeakAt(m: seq<u32>, bs: seq<Burst>, cb: bool, local: bool, i: nat)
    requires i <= |bs| && InBounds(i, |m|) && !Stops(Control(m, i), cb)
    requires forall j :: 0 <= j < i ==> Control(m, j) == Word(DataFlags(j, |bs|, cb, local))
    requires i < |bs| ==> bs[i].sz != EntryAt(m, i).sz
    ensures !(Walk(m, 0, cb) <= bs)
  {
    EntriesPass(m, bs, cb, local, i);
    WalkReaches(m, 0, i, cb);
  }

  /** Stores into earlier slots leave the later words alone. */
  lemma {:induction false} UntouchedAhead(m0: seq<u32>, bs: seq<Burst>, cb: bool, local: bool, base: u64,
                                          i: nat, r: nat, w: nat)
    requires i <= |bs| && r < 6 && (i == |bs| ==> r == 0) && 6 * i + r < w < |m0|
    ensures Written(m0, bs, cb, local, base, i, r)[w] == m0[w]
    decreases i, r
  {
    if r > 0 {
      UntouchedAhead(m0, bs, cb, local, base, i, r - 1, w);
    } else if i > 0 {
      UntouchedAhead(m0, bs, cb, local, base, i - 1, 5, w);
    }
  }

  /** What a chunk leaves behind, by entry: its own entries, its link, and old control words further on. */
  lemma ChunkLeaves(m0: seq<u32>, bs: seq<Burst>, cb: bool, local: bool, base: u64, j: nat)
    requires WordsNeeded(|bs|) <= |m0| && InBounds(j, |m0|)
    ensures var m := Apply(m0, ChunkStores(bs, cb, local, base));
            && |m| == |m0|
            && (j < |bs| ==> !Stops(Control(m, j), cb) && Stops(Control(m, j), !cb))
            && (j == |bs| ==> Stops(Control(m, j), cb) && Stops(Control(m, j), !cb))
            && (j > |bs| ==> Control(m, j) == Control(m0, j))
  {
    WrittenIsApply(m0, bs, cb, local, base, |bs|, 3);
    LinkProgress(m0, bs, cb, local, base, 3);
    ControlBits(j, |bs|, cb, local);
  }

  /** A chunk does not stop a reader that looks for its own cycle bit. */
  lemma OneChunkNotQuiet(stale: seq<u32>, bs: seq<Burst>, cb: bool, local: bool, base: u64, n: nat)
    requires WordsNeeded(|bs|) <= |stale| && bs != []
    ensures var m0 := Apply(stale, ChunkStores(bs, cb, local, base)); |m0| == |stale| && !Quiet(m0, n, cb)
  {
    ChunkLeaves(stale, bs, cb, local, base, 0);
  }

  /** After two chunks of opposite cycle bits, the second no longer than the first: which entries stop a reader. */
  lemma TwoChunksQuietIff(stale: seq<u32>, long: seq<Burst>, short: seq<Burst>, cb: bool, local: bool, base: u64,
                          n: nat)
    requires WordsNeeded(|long|) <= |stale| && 1 <= |short| <= |long| && n <= |long|
    ensures var m0 := Apply(Apply(stale, ChunkStores(long, !cb, local, base)), ChunkStores(short, cb, local, base));
            && |m0| == |stale| && !Quiet(m0, n, cb)
            && (Quiet(m0, n, !cb) <==> n <= |short| || |long| <= |short| + 1)
  {
    var m1 := Apply(stale, ChunkStores(long, !cb, local, base));
    var m0 := Apply(m1, ChunkStores(short, cb, local, base));
    ChunkLeaves(m1, short, cb, local, base, 0);
    assert !Stops(Control(m0, 0), cb);
    forall j | 0 <= j <= n && InBounds(j, |m0|)
      ensures Stops(Control(m0, j), !cb) <==> j <= |short| || j == |long|
    {
      ChunkLeaves(m1, short, cb, local, base, j);
      ChunkLeaves(stale, long, !cb, local, base, j);
    }
    if |short| < n && |short| + 1 < |long| {
      assert !Stops(Control(m0, |short| + 1), !cb);
    }
  }
}
