/** Interrupt vectors: how they are shared out among the channels, and who is called when they fire. */
module Irq {
  import opened Words
  import opened Requests
  import opened Layout
  import opened Heap

  // Sharing out the vectors.

  /** One step of the distribution: a vector for this direction, if any is left and it still wants one. */
  method DecIrqAlloc(vectors: nat, alloc: nat, cnt: nat) returns (left: nat, more: nat)
    ensures (left, more) == if vectors > 0 && alloc < cnt then (vectors - 1, alloc + 1) else (vectors, alloc)
  {
    left, more := vectors, alloc;
    if left > 0 && more < cnt {
      more := more + 1;
      left := left - 1;
    }
  }

  /** The write channels' share of the vectors: half, rounded up, or what the read channels leave over. */
  function WriteShare(vectors: nat, wrCnt: nat, rdCnt: nat): nat {
    Min(wrCnt, Max((vectors + 1) / 2, vectors - rdCnt))
  }

  function ReadShare(vectors: nat, wrCnt: nat, rdCnt: nat): nat {
    Min(rdCnt, Max(vectors / 2, vectors - wrCnt))
  }

  /** Alternates between the directions, writing first, until vectors or channels run out. */
  method Distribute(vectors: nat, wrCnt: nat, rdCnt: nat) returns (wrAlloc: nat, rdAlloc: nat)
    ensures wrAlloc == WriteShare(vectors, wrCnt, rdCnt) && rdAlloc == ReadShare(vectors, wrCnt, rdCnt)
  {
    var tmp: nat := vectors;
    wrAlloc, rdAlloc := 0, 0;
    ghost var k := 0;
    while tmp > 0 && wrAlloc + rdAlloc < wrCnt + rdCnt
      invariant wrAlloc <= wrCnt && rdAlloc <= rdCnt && tmp + wrAlloc + rdAlloc == vectors
      invariant 0 <= k
      invariant tmp > 0 ==> wrAlloc == Min(k, wrCnt) && rdAlloc == Min(k, rdCnt)
      invariant tmp == 0 ==> wrAlloc == WriteShare(vectors, wrCnt, rdCnt) && rdAlloc == ReadShare(vectors, wrCnt, rdCnt)
      decreases tmp
    {
      tmp, wrAlloc := DecIrqAlloc(tmp, wrAlloc, wrCnt);
      tmp, rdAlloc := DecIrqAlloc(tmp, rdAlloc, rdCnt);
      k := k + 1;
    }
  }

  /**
   The shares use every vector that any channel can use, never exceed the channels of a direction, and
   from two vectors on leave no direction that has channels without one.
   */
  lemma SharesFair(vectors: nat, wrCnt: nat, rdCnt: nat)
    ensures var w, r := WriteShare(vectors, wrCnt, rdCnt), ReadShare(vectors, wrCnt, rdCnt);
            && w <= wrCnt && r <= rdCnt && w + r == Min(vectors, wrCnt + rdCnt)
            && (2 <= vectors && 0 < wrCnt ==> 0 < w) && (2 <= vectors && 0 < rdCnt ==> 0 < r)
            && (w < wrCnt && r < rdCnt ==> r <= w <= r + 1)
  {
  }

  /** The least positive multiplier that covers the channels; it ends because the direction has a vector. */
  method AddIrqMask(alloc: nat, cnt: nat) returns (mask: nat)
    requires 0 < alloc || cnt == 0
    ensures 1 <= mask && cnt <= mask * alloc && (1 < mask ==> (mask - 1) * alloc < cnt)
  {
    mask := 1;
    while mask * alloc < cnt
      invariant 1 <= mask && (1 < mask ==> (mask - 1) * alloc < cnt)
      decreases cnt - mask * alloc
    {
      MulAtLeast(alloc, 1);
      MulDistributes(alloc, mask, 1);
      mask := mask + 1;
    }
  }

  // The channel table.

  datatype Row = Row(id: nat, dir: ChannelDir, llMax: u32)

  /** The channel counts, the vectors granted, their shares, and the list region sizes. */
  datatype Config = Config(wrCnt: nat, rdCnt: nat, nrIrqs: nat, wrAlloc: nat, rdAlloc: nat,
                           wrSizes: seq<u64>, rdSizes: seq<u64>)

  /** What the vector distribution hands to the table setup. */
  predicate Usable(c: Config) {
    && c.wrCnt <= 8 && c.rdCnt <= 8 && |c.wrSizes| == 8 && |c.rdSizes| == 8
    && 1 <= c.nrIrqs
    && (c.nrIrqs != 1 ==>
          && c.nrIrqs == c.wrAlloc + c.rdAlloc && c.wrAlloc <= c.wrCnt && c.rdAlloc <= c.rdCnt
          && (0 < c.wrCnt ==> 0 < c.wrAlloc) && (0 < c.rdCnt ==> 0 < c.rdAlloc))
  }

  datatype Error = Inval | NoMem | RequestFailed

  /** The vectors asked for: the single one, or as many as were shared out. */
  function VectorsUsed(vectors: nat, wrCnt: nat, rdCnt: nat): nat {
    if vectors == 1 then 1 else WriteShare(vectors, wrCnt, rdCnt) + ReadShare(vectors, wrCnt, rdCnt)
  }

  /** The configuration an interrupt request ends with. */
  function Granted(vectors: nat, wrCnt: nat, rdCnt: nat, wrSizes: seq<u64>, rdSizes: seq<u64>): Config {
    Config(wrCnt, rdCnt, VectorsUsed(vectors, wrCnt, rdCnt),
           if vectors == 1 then 0 else WriteShare(vectors, wrCnt, rdCnt),
           if vectors == 1 then 0 else ReadShare(vectors, wrCnt, rdCnt), wrSizes, rdSizes)
  }

  /** It is always one the table setup can work with: no direction with channels is left without a vector. */
  lemma GrantedUsable(vectors: nat, wrCnt: nat, rdCnt: nat, wrSizes: seq<u64>, rdSizes: seq<u64>)
    requires 1 <= vectors && 0 < wrCnt + rdCnt && wrCnt <= 8 && rdCnt <= 8 && |wrSizes| == 8 && |rdSizes| == 8
    ensures Usable(Granted(vectors, wrCnt, rdCnt, wrSizes, rdSizes))
  {
    SharesFair(vectors, wrCnt, rdCnt);
  }

  /**
   Requests the vectors, `ok(i)` saying whether request i succeeds. After a failure every vector
   requested so far has been given back.
   */
  method IrqRequest(vectors: nat, hasVectors: bool, gotMemory: bool, wrCnt: nat, rdCnt: nat, ok: nat -> bool)
    returns (error: Option<Error>, nrIrqs: nat, wrAlloc: nat, rdAlloc: nat, held: set<nat>)
    ensures error.None? <==> 1 <= vectors && hasVectors && gotMemory &&
                             forall i: nat :: i < VectorsUsed(vectors, wrCnt, rdCnt) ==> ok(i)
    ensures error.None? ==>
              && (forall i: nat :: i in held <==> i < nrIrqs)
              && forall ws: seq<u64>, rs: seq<u64> ::
                   Config(wrCnt, rdCnt, nrIrqs, wrAlloc, rdAlloc, ws, rs) == Granted(vectors, wrCnt, rdCnt, ws, rs)
    ensures error.Some? ==> held == {}
  {
    hide WriteShare, ReadShare;
    nrIrqs, wrAlloc, rdAlloc, held := 0, 0, 0, {};
    if vectors < 1 || !hasVectors {
      return Some(Inval), nrIrqs, wrAlloc, rdAlloc, held;
    }
    if !gotMemory {
      return Some(NoMem), nrIrqs, wrAlloc, rdAlloc, held;
    }
    if vectors == 1 {
      if !ok(0) {
        return Some(RequestFailed), 0, wrAlloc, rdAlloc, held;
      }
      return None, 1, wrAlloc, rdAlloc, {0};
    }
    wrAlloc, rdAlloc := Distribute(vectors, wrCnt, rdCnt);
    SharesFair(vectors, wrCnt, rdCnt);
    var _ := AddIrqMask(wrAlloc, wrCnt);
    var _ := AddIrqMask(rdAlloc, rdCnt);
    var i: int := 0;
    while i < wrAlloc + rdAlloc
      invariant 0 <= i <= wrAlloc + rdAlloc
      invariant forall k: nat :: k in held <==> k < i
      invariant forall k: nat :: k < i ==> ok(k)
    {
      if !ok(i) {
        ghost var failed := i;
        i := i - 1;
        while i >= 0
          invariant -1 <= i < failed && forall k: nat :: k in held <==> k <= i
        {
          held := held - {i};
          i := i - 1;
        }
        return Some(RequestFailed), nrIrqs, wrAlloc, rdAlloc, held;
      }
      held := held + {i};
      i := i + 1;
    }
    nrIrqs := i;
    error := None;
  }

  /** The vector of a channel. */
  function VectorOf(c: Config, dir: ChannelDir, id: nat): (p: nat)
    requires Usable(c) && id < (if dir == WriteChannel then c.wrCnt else c.rdCnt)
    ensures p < c.nrIrqs
  {
    if c.nrIrqs == 1 then 0
    else if dir == WriteChannel then id % c.wrAlloc
    else c.wrAlloc + id % c.rdAlloc
  }

  function CountOf(c: Config, dir: ChannelDir): nat {
    if dir == WriteChannel then c.wrCnt else c.rdCnt
  }

  /** The channels among the first n of a direction that vector p serves. */
  function MaskTo(c: Config, dir: ChannelDir, n: nat, p: nat): set<nat>
    requires Usable(c) && n <= CountOf(c, dir)
  {
    set id | 0 <= id < n && VectorOf(c, dir, id) == p
  }

  function Mask(c: Config, dir: ChannelDir, p: nat): set<nat>
    requires Usable(c)
  {
    MaskTo(c, dir, CountOf(c, dir), p)
  }

  function RowOf(c: Config, i: nat): Row
    requires Usable(c) && i < c.wrCnt + c.rdCnt
  {
    if i < c.wrCnt then Row(i, WriteChannel, LlMax(c.wrSizes[i]))
    else Row(i - c.wrCnt, ReadChannel, LlMax(c.rdSizes[i - c.wrCnt]))
  }

  lemma VectorBounds(c: Config, dir: ChannelDir, id: nat)
    requires Usable(c) && id < CountOf(c, dir) && c.nrIrqs != 1
    ensures VectorOf(c, dir, id) < c.wrAlloc <==> dir == WriteChannel
    ensures dir == WriteChannel && id < c.wrAlloc ==> VectorOf(c, dir, id) == id
    ensures dir == ReadChannel && id < c.rdAlloc ==> VectorOf(c, dir, id) == c.wrAlloc + id
  {
    if dir == WriteChannel {
      WriteVector(c, id);
    } else {
      ReadVector(c, id);
    }
    hide VectorOf, Usable;
  }

  lemma Remainder(id: nat, n: nat)
    requires 0 < n
    ensures id % n < n && (id < n ==> id % n == id)
  {
  }

  lemma WriteVector(c: Config, id: nat)
    requires Usable(c) && id < c.wrCnt && c.nrIrqs != 1
    ensures VectorOf(c, WriteChannel, id) < c.wrAlloc
    ensures id < c.wrAlloc ==> VectorOf(c, WriteChannel, id) == id
  {
    Remainder(id, c.wrAlloc);
  }

  lemma ReadVector(c: Config, id: nat)
    requires Usable(c) && id < c.rdCnt && c.nrIrqs != 1
    ensures c.wrAlloc <= VectorOf(c, ReadChannel, id)
    ensures id < c.rdAlloc ==> VectorOf(c, ReadChannel, id) == c.wrAlloc + id
  {
    Remainder(id, c.rdAlloc);
  }

  /** Channels go round the vectors of their direction: each one shares the vector of the one `alloc` before it. */
  lemma VectorRepeats(c: Config, dir: ChannelDir, id: nat)
    requires Usable(c) && c.nrIrqs != 1
    requires id + (if dir == WriteChannel then c.wrAlloc else c.rdAlloc) < CountOf(c, dir)
    ensures VectorOf(c, dir, id + (if dir == WriteChannel then c.wrAlloc else c.rdAlloc)) == VectorOf(c, dir, id)
  {
    RemainderRepeats(id, if dir == WriteChannel then c.wrAlloc else c.rdAlloc);
  }

  lemma RemainderRepeats(id: nat, n: nat)
    requires 0 < n
    ensures (id + n) % n == id % n
  {
    ShiftedRemainder(id, n, n);
  }

  /** A channel is in the mask of its own vector and in no other. */
  lemma MaskExact(c: Config, dir: ChannelDir, id: nat, p: nat)
    requires Usable(c)
    ensures id in Mask(c, dir, p) <==> id < CountOf(c, dir) && p == VectorOf(c, dir, id)
  {
    hide VectorOf;
  }

  /**
   No vector is without channels: with one vector it serves all; otherwise the first ones serve write
   channels only, the others read channels only, and each at least one.
   */
  lemma MaskNonempty(c: Config, p: nat)
    requires Usable(c) && p < c.nrIrqs && 0 < c.wrCnt + c.rdCnt
    ensures c.nrIrqs != 1 ==> (Mask(c, WriteChannel, p) != {} <==> p < c.wrAlloc)
    ensures c.nrIrqs != 1 ==> (Mask(c, ReadChannel, p) != {} <==> c.wrAlloc <= p)
    ensures Mask(c, WriteChannel, p) + Mask(c, ReadChannel, p) != {}
  {
    hide Mask, VectorOf;
    var dir := if c.nrIrqs == 1 then (if 0 < c.wrCnt then WriteChannel else ReadChannel)
               else if p < c.wrAlloc then WriteChannel else ReadChannel;
    var id := if c.nrIrqs == 1 then 0 else if p < c.wrAlloc then p else p - c.wrAlloc;
    if c.nrIrqs != 1 {
      VectorBounds(c, dir, id);
      forall d: ChannelDir, k: nat
        ensures k in Mask(c, d, p) ==> (d == WriteChannel <==> p < c.wrAlloc)
      {
        MaskExact(c, d, k, p);
        if k < CountOf(c, d) {
          VectorBounds(c, d, k);
        }
      }
    }
    MaskExact(c, dir, id, p);
    assert id in Mask(c, dir, p);
  }

  lemma MaskStep(c: Config, dir: ChannelDir, n: nat)
    requires Usable(c) && n < CountOf(c, dir)
    ensures forall p: nat :: MaskTo(c, dir, n + 1, p) ==
              if p == VectorOf(c, dir, n) then MaskTo(c, dir, n, p) + {n} else MaskTo(c, dir, n, p)
  {
    hide VectorOf;
  }

  class Tables {
    const chan: array<Row>
    const wrMask: array<set<nat>>
    const rdMask: array<set<nat>>

    constructor (chan: array<Row>, wrMask: array<set<nat>>, rdMask: array<set<nat>>)
      ensures this.chan == chan && this.wrMask == wrMask && this.rdMask == rdMask
    {
      this.chan, this.wrMask, this.rdMask := chan, wrMask, rdMask;
    }

    predicate Fits(c: Config) {
      && chan.Length == c.wrCnt + c.rdCnt && wrMask.Length == rdMask.Length && c.nrIrqs <= wrMask.Length
      && wrMask != rdMask
    }

    ghost predicate Cleared()
      reads wrMask, rdMask
    {
      && (forall p :: 0 <= p < wrMask.Length ==> wrMask[p] == {})
      && (forall p :: 0 <= p < rdMask.Length ==> rdMask[p] == {})
    }

    /** The write half of the table after n write channels. */
    ghost predicate WriteDone(c: Config, n: nat)
      requires Usable(c) && Fits(c) && n <= c.wrCnt
      reads chan, wrMask
    {
      && (forall i :: 0 <= i < n ==> chan[i] == RowOf(c, i))
      && (forall p :: 0 <= p < wrMask.Length ==> wrMask[p] == MaskTo(c, WriteChannel, n, p))
    }

    ghost predicate ReadDone(c: Config, n: nat)
      requires Usable(c) && Fits(c) && n <= c.rdCnt
      reads chan, rdMask
    {
      && (forall i :: c.wrCnt <= i < c.wrCnt + n ==> chan[i] == RowOf(c, i))
      && (forall p :: 0 <= p < rdMask.Length ==> rdMask[p] == MaskTo(c, ReadChannel, n, p))
    }

    /** The whole table is the one the configuration determines. */
    ghost predicate Complete(c: Config)
      requires Usable(c) && Fits(c)
      reads chan, wrMask, rdMask
    {
      WriteDone(c, c.wrCnt) && ReadDone(c, c.rdCnt)
    }

    /**
     The first rows are the write channels 0, 1, ..., the others the read channels 0, 1, ..., each with the burst
     limit of its own list region.
     */
    ghost predicate InOrder(c: Config)
      requires Usable(c) && Fits(c)
      reads chan
    {
      forall i :: 0 <= i < chan.Length ==>
        && (i < c.wrCnt ==>
              chan[i].dir == WriteChannel && chan[i].id == i && chan[i].llMax == LlMax(c.wrSizes[i]))
        && (c.wrCnt <= i ==>
              && chan[i].dir == ReadChannel && chan[i].id == i - c.wrCnt
              && chan[i].llMax == LlMax(c.rdSizes[i - c.wrCnt]))
    }

    lemma CompleteInOrder(c: Config)
      requires Usable(c) && Fits(c) && Complete(c)
      ensures InOrder(c)
    {
      hide LlMax, MaskTo, Usable;
    }

    /** A vector's masks are those of the configuration. */
    lemma MaskOfTable(c: Config, dir: ChannelDir, p: nat)
      requires Usable(c) && Fits(c) && Complete(c) && p < c.nrIrqs
      ensures (if dir == WriteChannel then wrMask[p] else rdMask[p]) == Mask(c, dir, p)
    {
      hide MaskTo, Usable, RowOf;
    }

    /** Enters write channel n in the table and in its vector's mask. */
    method EnterWrite(c: Config, n: nat, llMax: u32, pos: nat)
      requires Usable(c) && Fits(c) && n < c.wrCnt && WriteDone(c, n)
      requires pos == VectorOf(c, WriteChannel, n) && llMax == LlMax(c.wrSizes[n])
      modifies chan, wrMask
      ensures WriteDone(c, n + 1)
      ensures forall k :: 0 <= k < chan.Length && k != n ==> chan[k] == old(chan[k])
    {
      MaskStep(c, WriteChannel, n);
      assert RowOf(c, n) == Row(n, WriteChannel, llMax);
      hide LlMax, VectorOf, MaskTo, Usable, RowOf;
      chan[n] := Row(n, WriteChannel, llMax);
      wrMask[pos] := wrMask[pos] + {n};
    }

    method EnterRead(c: Config, n: nat, llMax: u32, pos: nat)
      requires Usable(c) && Fits(c) && n < c.rdCnt && ReadDone(c, n)
      requires pos == VectorOf(c, ReadChannel, n) && llMax == LlMax(c.rdSizes[n])
      modifies chan, rdMask
      ensures ReadDone(c, n + 1)
      ensures forall k :: 0 <= k < chan.Length && k != c.wrCnt + n ==> chan[k] == old(chan[k])
    {
      MaskStep(c, ReadChannel, n);
      assert RowOf(c, c.wrCnt + n) == Row(n, ReadChannel, llMax);
      hide LlMax, VectorOf, MaskTo, Usable, RowOf;
      chan[c.wrCnt + n] := Row(n, ReadChannel, llMax);
      rdMask[pos] := rdMask[pos] + {n};
    }

    /** The setup in one loop over all channels. */
    method SetupInOneLoop(c: Config)
      requires Usable(c) && Fits(c) && Cleared()
      modifies chan, wrMask, rdMask
      ensures Complete(c) && InOrder(c)
    {
      hide LlMax, MaskTo, RowOf, InOrder;
      NothingEntered(c);
      var i := 0;
      while i < c.wrCnt + c.rdCnt
        invariant 0 <= i <= c.wrCnt + c.rdCnt
        invariant WriteDone(c, Min(i, c.wrCnt)) && ReadDone(c, Max(0, i - c.wrCnt))
      {
        if i < c.wrCnt {
          var pos := if c.nrIrqs == 1 then 0 else i % c.wrAlloc;
          EnterWrite(c, i, LlMax(c.wrSizes[i]), pos);
        } else {
          var id := i - c.wrCnt;
          var pos := if c.nrIrqs == 1 then 0 else c.wrAlloc + id % c.rdAlloc;
          EnterRead(c, id, LlMax(c.rdSizes[id]), pos);
        }
        i := i + 1;
      }
      CompleteInOrder(c);
    }

    /** One pass of the two-pass setup: the channels of one direction, unless it got no vector. */
    method SetupPass(c: Config, write: bool)
      requires Usable(c) && Fits(c)
      requires if write then WriteDone(c, 0) else ReadDone(c, 0)
      modifies chan, if write then wrMask else rdMask
      ensures if write then WriteDone(c, c.wrCnt) else ReadDone(c, c.rdCnt)
      ensures forall k :: 0 <= k < chan.Length && (write <==> c.wrCnt <= k) ==> chan[k] == old(chan[k])
    {
      hide LlMax, MaskTo, RowOf;
      var cnt := if write then c.wrCnt else c.rdCnt;
      var alloc := if write then c.wrAlloc else c.rdAlloc;
      var offAlloc := if write then 0 else c.wrAlloc;
      var j := 0;
      while (alloc != 0 || c.nrIrqs == 1) && j < cnt
        invariant 0 <= j <= cnt
        invariant if write then WriteDone(c, j) else ReadDone(c, j)
        invariant forall k :: 0 <= k < chan.Length && (write <==> c.wrCnt <= k) ==> chan[k] == old(chan[k])
        decreases cnt - j
      {
        var pos := if c.nrIrqs == 1 then 0 else offAlloc + j % alloc;
        if write {
          EnterWrite(c, j, LlMax(c.wrSizes[j]), pos);
        } else {
          EnterRead(c, j, LlMax(c.rdSizes[j]), pos);
        }
        j := j + 1;
      }
    }

    lemma NothingEntered(c: Config)
      requires Usable(c) && Fits(c) && Cleared()
      ensures WriteDone(c, 0) && ReadDone(c, 0)
    {
    }

    /** The older setup, one pass a direction: it fills the very same table. */
    method SetupInTwoPasses(c: Config)
      requires Usable(c) && Fits(c) && Cleared()
      modifies chan, wrMask, rdMask
      ensures Complete(c) && InOrder(c)
    {
      hide MaskTo, RowOf, InOrder;
      NothingEntered(c);
      SetupPass(c, true);
      SetupPass(c, false);
      CompleteInOrder(c);
    }
  }

  // Dispatch.

  datatype CallKind = DoneCall | AbortCall

  /** A handler called for the channel at a table position. */
  datatype Call = Call(kind: CallKind, chan: nat)

  /** The calls for the first n bits of a status word, lowest bit first. */
  function CallsTo(kind: CallKind, bits: set<nat>, off: nat, n: nat): seq<Call> {
    if n == 0 then []
    else CallsTo(kind, bits, off, n - 1) + (if n - 1 in bits then [Call(kind, off + n - 1)] else [])
  }

  /** The same for a back end that looks at both status bits of a channel before the next channel. */
  function PairsTo(done: set<nat>, abort: set<nat>, off: nat, n: nat): seq<Call> {
    if n == 0 then []
    else PairsTo(done, abort, off, n - 1)
         + (if n - 1 in done then [Call(DoneCall, off + n - 1)] else [])
         + (if n - 1 in abort then [Call(AbortCall, off + n - 1)] else [])
  }

  function Times(c: Call, calls: seq<Call>): nat {
    if calls == [] then 0 else Times(c, calls[..|calls| - 1]) + (if calls[|calls| - 1] == c then 1 else 0)
  }

  lemma {:induction false} TimesConcat(c: Call, a: seq<Call>, b: seq<Call>)
    ensures Times(c, a + b) == Times(c, a) + Times(c, b)
  {
    if b == [] {
      assert a + b == a;
    } else {
      assert (a + b)[..|a + b| - 1] == a + b[..|b| - 1];
      TimesConcat(c, a, b[..|b| - 1]);
    }
  }

  lemma TimesOne(c: Call, d: Call)
    ensures Times(c, [d]) == if c == d then 1 else 0
  {
    assert [d][..0] == [];
  }

  /** How often the calls for a status word call a handler for bit `ch`. */
  lemma {:induction false} CallsOnce(kind: CallKind, other: CallKind, bits: set<nat>, off: nat, n: nat, ch: nat)
    ensures Times(Call(kind, off + ch), CallsTo(other, bits, off, n)) ==
            if kind == other && ch < n && ch in bits then 1 else 0
  {
    if n > 0 {
      CallsOnce(kind, other, bits, off, n - 1, ch);
      TimesOne(Call(kind, off + ch), Call(other, off + n - 1));
      TimesConcat(Call(kind, off + ch), CallsTo(other, bits, off, n - 1),
                  if n - 1 in bits then [Call(other, off + n - 1)] else []);
    }
  }

  /** Both back ends make the same calls, each as often as the other; only the order differs. */
  lemma {:induction false} SameCalls(c: Call, done: set<nat>, abort: set<nat>, off: nat, n: nat)
    ensures Times(c, PairsTo(done, abort, off, n)) ==
            Times(c, CallsTo(DoneCall, done, off, n) + CallsTo(AbortCall, abort, off, n))
  {
    TimesConcat(c, CallsTo(DoneCall, done, off, n), CallsTo(AbortCall, abort, off, n));
    if n > 0 {
      SameCalls(c, done, abort, off, n - 1);
      hide Times;
      var d := if n - 1 in done then [Call(DoneCall, off + n - 1)] else [];
      var a := if n - 1 in abort then [Call(AbortCall, off + n - 1)] else [];
      TimesConcat(c, PairsTo(done, abort, off, n - 1) + d, a);
      TimesConcat(c, PairsTo(done, abort, off, n - 1), d);
      TimesConcat(c, CallsTo(DoneCall, done, off, n - 1), d);
      TimesConcat(c, CallsTo(AbortCall, abort, off, n - 1), a);
      TimesConcat(c, CallsTo(DoneCall, done, off, n - 1), CallsTo(AbortCall, abort, off, n - 1));
    }
  }

  /** The status registers of one direction and the handler calls made. */
  class Controller {
    var done: set<nat>
    var abort: set<nat>
    var calls: seq<Call>

    constructor (done: set<nat>, abort: set<nat>)
      ensures this.done == done && this.abort == abort && calls == []
    {
      this.done, this.abort, calls := done, abort, [];
    }

    /** eDMA: one snapshot of the done bits, then one of the abort bits; each bit is cleared before its handler runs. */
    method HandleInt(mask: set<nat>, total: nat, off: nat) returns (handled: bool)
      requires forall b :: b in mask ==> b < total
      modifies this
      ensures done == old(done) - mask && abort == old(abort) - mask
      ensures calls == old(calls) + CallsTo(DoneCall, old(done) * mask, off, total)
                                  + CallsTo(AbortCall, old(abort) * mask, off, total)
      ensures handled <==> exists b :: b in mask && (b in old(done) || b in old(abort))
    {
      handled := false;
      var val := done * mask;
      var pos := 0;
      while pos < total
        invariant 0 <= pos <= total && abort == old(abort)
        invariant done == old(done) - (set b | b in val && b < pos)
        invariant calls == old(calls) + CallsTo(DoneCall, val, off, pos)
        invariant handled <==> exists b :: b in val && b < pos
      {
        if pos in val {
          done := done - {pos};
          calls := calls + [Call(DoneCall, off + pos)];
          handled := true;
        }
        pos := pos + 1;
      }
      ghost var between := calls;
      val := abort * mask;
      pos := 0;
      while pos < total
        invariant 0 <= pos <= total && done == old(done) - mask
        invariant abort == old(abort) - (set b | b in val && b < pos)
        invariant calls == between + CallsTo(AbortCall, val, off, pos)
        invariant handled <==> old(done) * mask != {} || exists b :: b in val && b < pos
      {
        if pos in val {
          abort := abort - {pos};
          calls := calls + [Call(AbortCall, off + pos)];
          handled := true;
        }
        pos := pos + 1;
      }
    }

    /** HDMA: channel by channel, reading its own status. */
    method HandleIntNative(mask: set<nat>, total: nat, off: nat) returns (handled: bool)
      requires forall b :: b in mask ==> b < total
      modifies this
      ensures done == old(done) - mask && abort == old(abort) - mask
      ensures calls == old(calls) + PairsTo(old(done) * mask, old(abort) * mask, off, total)
      ensures handled <==> exists b :: b in mask && (b in old(done) || b in old(abort))
    {
      handled := false;
      var pos := 0;
      while pos < total
        invariant 0 <= pos <= total
        invariant done == old(done) - (set b | b in mask && b < pos)
        invariant abort == old(abort) - (set b | b in mask && b < pos)
        invariant calls == old(calls) + PairsTo(old(done) * mask, old(abort) * mask, off, pos)
        invariant handled <==> exists b :: b in mask && b < pos && (b in old(done) || b in old(abort))
      {
        if pos in mask {
          if pos in done {
            done := done - {pos};
            calls := calls + [Call(DoneCall, off + pos)];
            handled := true;
          }
          if pos in abort {
            abort := abort - {pos};
            calls := calls + [Call(AbortCall, off + pos)];
            handled := true;
          }
        }
        pos := pos + 1;
      }
    }
  }

  function Base(c: Config, dir: ChannelDir): nat {
    if dir == WriteChannel then 0 else c.wrCnt
  }

  /** Of the channels served by the vectors below p, each pending one was called once; no other was called. */
  ghost predicate ServedBelow(c: Config, dir: ChannelDir, p: nat, kind: CallKind, pending: set<nat>, calls: seq<Call>)
    requires Usable(c)
  {
    forall ch: nat :: ch < CountOf(c, dir) ==>
      Times(Call(kind, Base(c, dir) + ch), calls) == if ch in pending && VectorOf(c, dir, ch) < p then 1 else 0
  }

  lemma ServesNext(c: Config, dir: ChannelDir, p: nat, kind: CallKind, done: set<nat>, abort: set<nat>,
                   doneNow: set<nat>, abortNow: set<nat>, calls: seq<Call>)
    requires Usable(c)
    requires ServedBelow(c, dir, p, kind, if kind == DoneCall then done else abort, calls)
    requires forall ch :: ch in Mask(c, dir, p) ==> (ch in doneNow <==> ch in done) && (ch in abortNow <==> ch in abort)
    ensures ServedBelow(c, dir, p + 1, kind, if kind == DoneCall then done else abort,
                        calls + CallsTo(DoneCall, doneNow * Mask(c, dir, p), Base(c, dir), CountOf(c, dir))
                              + CallsTo(AbortCall, abortNow * Mask(c, dir, p), Base(c, dir), CountOf(c, dir)))
  {
    hide CallsTo, Times, VectorOf, Usable, Mask;
    var off, n := Base(c, dir), CountOf(c, dir);
    var m := Mask(c, dir, p);
    var all := calls + CallsTo(DoneCall, doneNow * m, off, n) + CallsTo(AbortCall, abortNow * m, off, n);
    var pending := if kind == DoneCall then done else abort;
    forall ch: nat | ch < n
      ensures Times(Call(kind, off + ch), all) == if ch in pending && VectorOf(c, dir, ch) < p + 1 then 1 else 0
    {
      ServesOne(c, dir, p, kind, pending, doneNow * m, abortNow * m, ch, calls);
    }
  }

  lemma ServesOne(c: Config, dir: ChannelDir, p: nat, kind: CallKind, pending: set<nat>, doneNow: set<nat>,
                  abortNow: set<nat>, ch: nat, calls: seq<Call>)
    requires Usable(c) && ch < CountOf(c, dir)
    requires ch in (if kind == DoneCall then doneNow else abortNow) <==> ch in pending && ch in Mask(c, dir, p)
    requires Times(Call(kind, Base(c, dir) + ch), calls) == if ch in pending && VectorOf(c, dir, ch) < p then 1 else 0
    ensures Times(Call(kind, Base(c, dir) + ch),
                  calls + CallsTo(DoneCall, doneNow, Base(c, dir), CountOf(c, dir))
                        + CallsTo(AbortCall, abortNow, Base(c, dir), CountOf(c, dir))) ==
            if ch in pending && VectorOf(c, dir, ch) < p + 1 then 1 else 0
  {
    hide CallsTo, Times, VectorOf, Usable, Mask;
    MaskExact(c, dir, ch, p);
    NewCalls(kind, doneNow, abortNow, Base(c, dir), CountOf(c, dir), ch, calls);
  }

  lemma NewCalls(kind: CallKind, done: set<nat>, abort: set<nat>, off: nat, n: nat, ch: nat, calls: seq<Call>)
    ensures Times(Call(kind, off + ch), calls + CallsTo(DoneCall, done, off, n) + CallsTo(AbortCall, abort, off, n)) ==
            Times(Call(kind, off + ch), calls)
            + if ch < n && ch in (if kind == DoneCall then done else abort) then 1 else 0
  {
    hide CallsTo, Times;
    var a := CallsTo(DoneCall, done, off, n);
    var b := CallsTo(AbortCall, abort, off, n);
    TimesConcat(Call(kind, off + ch), calls + a, b);
    TimesConcat(Call(kind, off + ch), calls, a);
    CallsOnce(kind, DoneCall, done, off, n, ch);
    CallsOnce(kind, AbortCall, abort, off, n, ch);
  }

  /** All calls are of channels at the positions [off, off + n). */
  ghost predicate Inside(calls: seq<Call>, off: nat, n: nat) {
    forall j :: 0 <= j < |calls| ==> off <= calls[j].chan < off + n
  }

  lemma {:induction false} CallsInside(kind: CallKind, bits: set<nat>, off: nat, n: nat, m: nat)
    requires n <= m
    ensures Inside(CallsTo(kind, bits, off, n), off, m)
  {
    if n > 0 {
      CallsInside(kind, bits, off, n - 1, m);
    }
  }

  lemma {:induction false} TimesOutside(c: Call, calls: seq<Call>, off: nat, n: nat)
    requires Inside(calls, off, n) && !(off <= c.chan < off + n)
    ensures Times(c, calls) == 0
  {
    if calls != [] {
      TimesOutside(c, calls[..|calls| - 1], off, n);
    }
  }

  /**
   By the channel table: the handler of a row is called once if the row is of this direction and the bit of its
   own number is set, and otherwise never; nothing beyond the table is called.
   */
  ghost predicate RowsCalled(rows: seq<Row>, dir: ChannelDir, kind: CallKind, pending: set<nat>, calls: seq<Call>) {
    && (forall i :: 0 <= i < |rows| ==>
          Times(Call(kind, i), calls) == if rows[i].dir == dir && rows[i].id in pending then 1 else 0)
    && (forall j :: 0 <= j < |calls| ==> calls[j].chan < |rows|)
  }

  lemma ServedRows(t: Tables, c: Config, dir: ChannelDir, kind: CallKind, pending: set<nat>, calls: seq<Call>)
    requires Usable(c) && t.Fits(c) && t.InOrder(c)
    requires ServedBelow(c, dir, c.nrIrqs, kind, pending, calls) && Inside(calls, Base(c, dir), CountOf(c, dir))
    ensures RowsCalled(t.chan[..], dir, kind, pending, calls)
  {
    hide Times, VectorOf, Usable;
    forall i | 0 <= i < t.chan.Length
      ensures Times(Call(kind, i), calls) == if t.chan[i].dir == dir && t.chan[i].id in pending then 1 else 0
    {
      if Base(c, dir) <= i < Base(c, dir) + CountOf(c, dir) {
        assert i == Base(c, dir) + t.chan[i].id;
        assert VectorOf(c, dir, t.chan[i].id) < c.nrIrqs;
      } else {
        TimesOutside(Call(kind, i), calls, Base(c, dir), CountOf(c, dir));
      }
    }
  }

  lemma NothingServed(c: Config, dir: ChannelDir)
    requires Usable(c)
    ensures forall kind: CallKind, pending: set<nat> :: ServedBelow(c, dir, 0, kind, pending, [])
  {
  }

  /** What one vector's turn does. */
  lemma VectorServes(c: Config, dir: ChannelDir, p: nat, done0: set<nat>, abort0: set<nat>, done: set<nat>,
                     abort: set<nat>, calls: seq<Call>)
    requires Usable(c) && Inside(calls, Base(c, dir), CountOf(c, dir))
    requires ServedBelow(c, dir, p, DoneCall, done0, calls) && ServedBelow(c, dir, p, AbortCall, abort0, calls)
    requires Untouched(c, dir, p, done0, done) && Untouched(c, dir, p, abort0, abort)
    ensures var m, off, n := Mask(c, dir, p), Base(c, dir), CountOf(c, dir);
            var all := calls + CallsTo(DoneCall, done * m, off, n) + CallsTo(AbortCall, abort * m, off, n);
            && Inside(all, off, n)
            && ServedBelow(c, dir, p + 1, DoneCall, done0, all) && ServedBelow(c, dir, p + 1, AbortCall, abort0, all)
            && Untouched(c, dir, p + 1, done0, done - m) && Untouched(c, dir, p + 1, abort0, abort - m)
  {
    UntouchedNext(c, dir, p, done0, done);
    UntouchedNext(c, dir, p, abort0, abort);
    CallsInside(DoneCall, done * Mask(c, dir, p), Base(c, dir), CountOf(c, dir), CountOf(c, dir));
    CallsInside(AbortCall, abort * Mask(c, dir, p), Base(c, dir), CountOf(c, dir), CountOf(c, dir));
    hide Mask, ServedBelow, Untouched, Usable;
    ServesNext(c, dir, p, DoneCall, done0, abort0, done, abort, calls);
    ServesNext(c, dir, p, AbortCall, done0, abort0, done, abort, calls);
  }

  /** Servicing every vector once, with nothing new arriving meanwhile. */
  method ServeAll(ctl: Controller, t: Tables, c: Config, dir: ChannelDir)
    requires Usable(c) && t.Fits(c) && t.Complete(c) && ctl.calls == []
    modifies ctl
    ensures RowsCalled(t.chan[..], dir, DoneCall, old(ctl.done), ctl.calls)
    ensures RowsCalled(t.chan[..], dir, AbortCall, old(ctl.abort), ctl.calls)
    ensures forall i :: 0 <= i < t.chan.Length && t.chan[i].dir == dir ==>
              t.chan[i].id !in ctl.done && t.chan[i].id !in ctl.abort
  {
    NothingServed(c, dir);
    hide Tables.Complete, Times;
    var p := 0;
    while p < c.nrIrqs
      invariant 0 <= p <= c.nrIrqs && t.Complete(c)
      invariant ServedBelow(c, dir, p, DoneCall, old(ctl.done), ctl.calls)
      invariant ServedBelow(c, dir, p, AbortCall, old(ctl.abort), ctl.calls)
      invariant Inside(ctl.calls, Base(c, dir), CountOf(c, dir))
      invariant Untouched(c, dir, p, old(ctl.done), ctl.done) && Untouched(c, dir, p, old(ctl.abort), ctl.abort)
    {
      var mask := if dir == WriteChannel then t.wrMask[p] else t.rdMask[p];
      t.MaskOfTable(c, dir, p);
      MaskBits(c, dir, p);
      VectorServes(c, dir, p, old(ctl.done), old(ctl.abort), ctl.done, ctl.abort, ctl.calls);
      hide Mask, ServedBelow, Inside, Untouched, Usable;
      var _ := ctl.HandleInt(mask, CountOf(c, dir), Base(c, dir));
      p := p + 1;
    }
    t.CompleteInOrder(c);
    ServedRows(t, c, dir, DoneCall, old(ctl.done), ctl.calls);
    ServedRows(t, c, dir, AbortCall, old(ctl.abort), ctl.calls);
    AllClear(t, c, dir, old(ctl.done), ctl.done);
    AllClear(t, c, dir, old(ctl.abort), ctl.abort);
  }

  lemma AllClear(t: Tables, c: Config, dir: ChannelDir, before: set<nat>, now: set<nat>)
    requires Usable(c) && t.Fits(c) && t.InOrder(c) && Untouched(c, dir, c.nrIrqs, before, now)
    ensures forall i :: 0 <= i < t.chan.Length && t.chan[i].dir == dir ==> t.chan[i].id !in now
  {
    hide VectorOf, Usable;
  }

  /** Over both directions each row is called for the bit of its own channel, and for no other. */
  lemma BothDirections(rows: seq<Row>, kind: CallKind, wrPending: set<nat>, rdPending: set<nat>,
                       wrCalls: seq<Call>, rdCalls: seq<Call>, i: nat)
    requires RowsCalled(rows, WriteChannel, kind, wrPending, wrCalls) && i < |rows|
    requires RowsCalled(rows, ReadChannel, kind, rdPending, rdCalls)
    ensures Times(Call(kind, i), wrCalls + rdCalls) ==
            if rows[i].id in (if rows[i].dir == WriteChannel then wrPending else rdPending) then 1 else 0
  {
    TimesConcat(Call(kind, i), wrCalls, rdCalls);
    hide Times;
  }

  /** Bits of channels of later vectors are as they were, bits of earlier ones are clear. */
  ghost predicate Untouched(c: Config, dir: ChannelDir, p: nat, before: set<nat>, now: set<nat>)
    requires Usable(c)
  {
    forall ch :: 0 <= ch < CountOf(c, dir) ==> (ch in now <==> ch in before && p <= VectorOf(c, dir, ch))
  }

  lemma UntouchedNext(c: Config, dir: ChannelDir, p: nat, before: set<nat>, now: set<nat>)
    requires Usable(c) && Untouched(c, dir, p, before, now)
    ensures Untouched(c, dir, p + 1, before, now - Mask(c, dir, p))
    ensures forall ch :: ch in Mask(c, dir, p) ==> (ch in now <==> ch in before)
  {
    hide VectorOf;
  }

  lemma MaskBits(c: Config, dir: ChannelDir, p: nat)
    requires Usable(c)
    ensures forall b :: b in Mask(c, dir, p) ==> b < CountOf(c, dir)
  {
  }
}
