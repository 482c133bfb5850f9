/**
 The descriptor compiler with its allocations: chunks and bursts are heap cells that must all be
 owned by the descriptor, or all be freed again when any request fails.
 */
module Descriptor {
  import opened Words
  import opened Bursts
  import opened Requests
  import opened Meaning
  import opened Heap

  /** A linked list being built: its list head, its bursts with their cells, its counters. */
  class Chunk {
    const cell: nat
    const cb: bool
    var head: Option<nat>
    var bursts: seq<Burst>
    var cells: seq<nat>
    var burstsAlloc: u32
    var sz: u64

    /** The cells of the list: its bursts and its head. */
    ghost function ListCells(): set<nat>
      reads this
    {
      (set c | c in cells) + (if head.Some? then {head.value} else {})
    }

    ghost function Cells(): set<nat>
      reads this
    {
      {cell} + ListCells()
    }

    /** No cell is used twice. */
    ghost predicate Distinct()
      reads this
    {
      && (forall i, j :: 0 <= i < j < |cells| ==> cells[i] != cells[j])
      && (head.Some? ==> head.value !in cells)
      && cell !in ListCells()
    }

    /** The counter agrees with the list, and the list has its head. */
    ghost predicate Counted()
      reads this
    {
      |bursts| == |cells| && burstsAlloc == |bursts| && head.Some? && Distinct()
    }

    /** The recorded size, too, agrees with the list. */
    ghost predicate Valid()
      reads this
    {
      Counted() && sz == Wrap64(TotalSize(bursts))
    }

    function Value(): ChunkValue
      reads this
    {
      ChunkValue(bursts, cb, sz)
    }

    constructor (cell: nat, cb: bool)
      ensures this.cell == cell && this.cb == cb && head == None && bursts == [] && cells == []
      ensures burstsAlloc == 0 && sz == 0
    {
      this.cell, this.cb := cell, cb;
      head, bursts, cells, burstsAlloc, sz := None, [], [], 0, 0;
    }

    /** The first burst allocated becomes the list head, later ones are appended. */
    method AllocBurst(heap: Allocator) returns (ok: bool, ghost c: nat)
      requires |bursts| == |cells| && Distinct() && Cells() <= heap.live
      modifies this, heap
      ensures heap.calls == old(heap.calls) + 1 && ok == !heap.fails(old(heap.calls))
      ensures !ok ==> heap.live == old(heap.live) && unchanged(this)
      ensures ok ==> c !in old(heap.live) && heap.live == old(heap.live) + {c}
      ensures ok ==> Distinct() && ListCells() == old(ListCells()) + {c} && sz == old(sz)
      ensures ok && old(head).Some? ==>
                && head == old(head) && burstsAlloc == Add32(old(burstsAlloc), 1)
                && bursts == old(bursts) + [Burst(0, 0, 0)] && |cells| == |bursts|
      ensures ok && old(head).None? ==>
                head.Some? && burstsAlloc == 0 && bursts == old(bursts) && cells == old(cells)
    {
      c := 0;
      var burst := heap.Kzalloc();
      if burst.None? {
        return false, c;
      }
      c := burst.value;
      if head.Some? {
        burstsAlloc := Add32(burstsAlloc, 1);
        bursts := bursts + [Burst(0, 0, 0)];
        cells := cells + [burst.value];
      } else {
        burstsAlloc := 0;
        head := burst;
      }
      return true, c;
    }

    /** Appends a burst and accounts for its bytes. */
    method AddBurst(heap: Allocator, b: Burst) returns (ok: bool, ghost c: nat)
      requires Valid() && Cells() <= heap.live && |bursts| < 0xFFFF_FFFF
      modifies this, heap
      ensures heap.calls == old(heap.calls) + 1 && ok == !heap.fails(old(heap.calls))
      ensures Valid()
      ensures !ok ==> heap.live == old(heap.live) && Cells() == old(Cells())
      ensures ok ==> c !in old(heap.live) && heap.live == old(heap.live) + {c} && Cells() == old(Cells()) + {c}
      ensures ok ==> bursts == old(bursts) + [b]
    {
      ok, c := AllocBurst(heap);
      if ok {
        TotalSizeSnoc(old(bursts), b);
        Add64Wraps(TotalSize(old(bursts)), b.sz);
        bursts := bursts[|bursts| - 1 := b];
        assert bursts == old(bursts) + [b];
        sz := Add64(sz, b.sz);
      }
    }

    /** Frees every burst and the list head; the chunk itself stays. */
    method FreeBurst(heap: Allocator)
      requires Counted() && ListCells() <= heap.live
      modifies this, heap
      ensures heap.calls == old(heap.calls)
      ensures heap.live == old(heap.live) - old(ListCells())
      ensures head == None && bursts == [] && cells == [] && burstsAlloc == 0 && sz == old(sz)
    {
      ghost var i := 0;
      ghost var all := cells;
      while cells != []
        invariant 0 <= i <= |all| && cells == all[i..]
        invariant heap.calls == old(heap.calls)
        invariant |bursts| == |cells| && burstsAlloc == |bursts| && head == old(head) && sz == old(sz)
        invariant forall c :: c in heap.live <==> c in old(heap.live) && c !in all[..i]
        decreases |cells|
      {
        var child := cells[0];
        assert all[..i + 1] == all[..i] + [child];
        bursts, cells := bursts[1..], cells[1..];
        heap.Kfree(child);
        burstsAlloc := burstsAlloc - 1;
        i := i + 1;
      }
      heap.Kfree(head.value);
      head := None;
    }
  }

  /** Frees a chunk with its bursts and its list head. */
  method FreeChunk(heap: Allocator, chunk: Chunk)
    requires chunk.Valid() && chunk.Cells() <= heap.live
    modifies chunk, heap
    ensures heap.calls == old(heap.calls) && heap.live == old(heap.live) - old(chunk.Cells())
  {
    chunk.FreeBurst(heap);
    heap.Kfree(chunk.cell);
  }

  /** A chunk with its burst list head, or neither. */
  method NewChunk(heap: Allocator, cb: bool) returns (chunk: Chunk?)
    modifies heap
    ensures old(heap.calls) < heap.calls <= old(heap.calls) + 2
    ensures chunk != null <==> !heap.fails(old(heap.calls)) && !heap.fails(old(heap.calls) + 1)
    ensures chunk == null ==> heap.live == old(heap.live)
    ensures chunk != null ==>
              && fresh(chunk) && chunk.Valid() && chunk.bursts == [] && chunk.cb == cb
              && heap.calls == old(heap.calls) + 2
              && chunk.Cells() !! old(heap.live) && heap.live == old(heap.live) + chunk.Cells()
  {
    var cell := heap.Kzalloc();
    if cell.None? {
      return null;
    }
    chunk := new Chunk(cell.value, cb);
    var ok, c := chunk.AllocBurst(heap);
    if !ok {
      heap.Kfree(cell.value);
      return null;
    }
    assert chunk.Cells() == {cell.value, c};
  }

  // Collections of cells, one set per chunk.

  ghost function UnionTo(ss: seq<set<nat>>, n: nat): set<nat>
    requires n <= |ss|
  {
    if n == 0 then {} else UnionTo(ss, n - 1) + ss[n - 1]
  }

  ghost function Union(ss: seq<set<nat>>): set<nat> {
    UnionTo(ss, |ss|)
  }

  /** Each of the first n sets is disjoint from those before it. */
  ghost predicate DisjointTo(ss: seq<set<nat>>, n: nat)
    requires n <= |ss|
  {
    n == 0 || (DisjointTo(ss, n - 1) && UnionTo(ss, n - 1) !! ss[n - 1])
  }

  ghost predicate Disjoint(ss: seq<set<nat>>) {
    DisjointTo(ss, |ss|)
  }

  lemma {:induction false} SamePrefix(ss: seq<set<nat>>, tt: seq<set<nat>>, n: nat)
    requires n <= |ss| && n <= |tt| && ss[..n] == tt[..n]
    ensures UnionTo(ss, n) == UnionTo(tt, n) && DisjointTo(ss, n) == DisjointTo(tt, n)
  {
    if n > 0 {
      assert ss[..n][..n - 1] == ss[..n - 1] && tt[..n][..n - 1] == tt[..n - 1];
      assert ss[..n][n - 1] == ss[n - 1] && tt[..n][n - 1] == tt[n - 1];
      SamePrefix(ss, tt, n - 1);
    }
  }

  lemma UnionSnoc(ss: seq<set<nat>>, s: set<nat>)
    ensures Union(ss + [s]) == Union(ss) + s
    ensures Disjoint(ss) && Union(ss) !! s ==> Disjoint(ss + [s])
  {
    SamePrefix(ss, ss + [s], |ss|);
  }

  /** Adding an unused cell to the last set. */
  lemma UnionGrow(ss: seq<set<nat>>, c: nat)
    requires ss != [] && Disjoint(ss) && c !in Union(ss)
    ensures var t := ss[|ss| - 1 := ss[|ss| - 1] + {c}];
            Union(t) == Union(ss) + {c} && Disjoint(t)
  {
    SamePrefix(ss, ss[|ss| - 1 := ss[|ss| - 1] + {c}], |ss| - 1);
  }

  lemma {:induction false} UnionMember(ss: seq<set<nat>>, n: nat, k: nat)
    requires k < n <= |ss|
    ensures ss[k] <= UnionTo(ss, n)
  {
    if k < n - 1 {
      UnionMember(ss, n - 1, k);
    }
  }

  lemma {:induction false} UnionHeadTo(ss: seq<set<nat>>, n: nat)
    requires 0 < n <= |ss| && DisjointTo(ss, n)
    ensures UnionTo(ss, n) == ss[0] + UnionTo(ss[1..], n - 1)
    ensures DisjointTo(ss[1..], n - 1) && ss[0] !! UnionTo(ss[1..], n - 1)
  {
    if n > 1 {
      UnionHeadTo(ss, n - 1);
    }
  }

  /** Taking the first set off leaves disjoint sets, disjoint from it. */
  lemma UnionHead(ss: seq<set<nat>>)
    requires ss != [] && Disjoint(ss)
    ensures Union(ss) == ss[0] + Union(ss[1..]) && Disjoint(ss[1..]) && ss[0] !! Union(ss[1..])
  {
    UnionHeadTo(ss, |ss|);
  }

  /** Some allocation request from number `from` up to, but not including, number `to` fails. */
  ghost predicate SomeFails(heap: Allocator, from: nat, to: nat) {
    exists k :: from <= k < to && heap.fails(k)
  }

  lemma FailsOf(heap: Allocator, n: nat)
    ensures !SomeFails(heap, n, n) && (SomeFails(heap, n, n + 1) <==> heap.fails(n))
    ensures SomeFails(heap, n, n + 2) <==> heap.fails(n) || heap.fails(n + 1)
    ensures SomeFails(heap, n, n + 3) <==> heap.fails(n) || heap.fails(n + 1) || heap.fails(n + 2)
  {
  }

  lemma FailsJoin(heap: Allocator, a: nat, b: nat, c: nat)
    requires a <= b <= c
    ensures SomeFails(heap, a, c) <==> SomeFails(heap, a, b) || SomeFails(heap, b, c)
  {
  }

  /** Allocation requests needed to place one more burst. */
  ghost function CallsToPlace(cs: seq<seq<Burst>>, llMax: u32): nat
    requires cs != []
  {
    if |cs[|cs| - 1]| == llMax then 3 else 1
  }

  /** The counters of the last chunk and of the chunk list do not overflow. */
  ghost predicate HasRoom(cs: seq<seq<Burst>>) {
    cs != [] && |cs| < 0xFFFF_FFFF && |cs[|cs| - 1]| < 0xFFFF_FFFF
  }

  /** A descriptor: its chunk list head, its chunks, its counters. */
  class Desc {
    const cell: nat
    var head: Option<nat>
    var chunks: seq<Chunk>
    var chunksAlloc: u32
    var allocSz: u32
    var xferSz: u32
    /** The cells each chunk owns. */
    ghost var lists: seq<set<nat>>

    /** The descriptor's own cells: itself and its list head. */
    ghost function Own(): set<nat>
      reads this`head
    {
      {cell} + (if head.Some? then {head.value} else {})
    }

    /** Every cell to be freed with the descriptor. */
    ghost function Owned(): set<nat>
      reads this`head, this`lists
    {
      Own() + Union(lists)
    }

    /** No two chunks, and no chunk and the descriptor, share a cell. */
    ghost predicate Separate()
      reads this`head, this`lists
    {
      && (head.Some? ==> head.value != cell)
      && Own() !! Union(lists) && Disjoint(lists)
    }

    ghost predicate Valid()
      reads this, chunks
    {
      && head.Some? && Separate() && chunksAlloc == |chunks| == |lists|
      && forall k :: 0 <= k < |chunks| ==> chunks[k].Valid() && chunks[k].Cells() == lists[k]
    }

    /** The last chunk is none of the earlier ones, having cells of its own. */
    lemma LastDiffers()
      requires Valid() && chunks != []
      ensures forall k :: 0 <= k < |chunks| - 1 ==> chunks[k] != chunks[|chunks| - 1]
      ensures lists[|chunks| - 1] <= Owned()
    {
      forall k | 0 <= k < |chunks| - 1
        ensures chunks[k] != chunks[|chunks| - 1]
      {
        UnionMember(lists, |chunks| - 1, k);
        assert chunks[k].cell in lists[k] && chunks[|chunks| - 1].cell in lists[|chunks| - 1];
      }
    }

    function Lists(): (ls: seq<seq<Burst>>)
      reads this, chunks
      ensures |ls| == |chunks|
    {
      seq(|chunks|, k requires 0 <= k < |chunks| reads this, chunks => chunks[k].bursts)
    }

    function Values(): (vs: seq<ChunkValue>)
      reads this, chunks
      ensures |vs| == |chunks|
    {
      seq(|chunks|, k requires 0 <= k < |chunks| reads this, chunks => chunks[k].Value())
    }

    constructor (cell: nat)
      ensures this.cell == cell && head == None && chunks == [] && chunksAlloc == 0 && allocSz == 0 && xferSz == 0
      ensures lists == []
    {
      this.cell := cell;
      head, chunks, chunksAlloc, allocSz, xferSz, lists := None, [], 0, 0, 0, [];
    }

    /** The first chunk allocated becomes the list head. */
    method AllocHead(heap: Allocator) returns (ok: bool)
      requires head.None? && chunks == [] && lists == [] && cell in heap.live
      modifies this, heap
      ensures heap.calls == old(heap.calls) + 1 && ok == !heap.fails(old(heap.calls))
      ensures !ok ==> heap.live == old(heap.live)
      ensures ok ==> Valid() && head.value !in old(heap.live) && heap.live == old(heap.live) + {head.value}
      ensures chunks == [] && lists == [] && allocSz == old(allocSz) && xferSz == old(xferSz)
    {
      var chunk := heap.Kzalloc();
      if chunk.None? {
        return false;
      }
      chunksAlloc := 0;
      head := chunk;
      return true;
    }

    /** A further chunk, with its burst list head; the cycle bit alternates from 1. */
    method AllocChunk(heap: Allocator) returns (ok: bool)
      requires Valid() && Owned() <= heap.live && |chunks| < 0xFFFF_FFFF
      modifies this`chunks, this`chunksAlloc, this`lists, heap
      ensures old(heap.calls) < heap.calls <= old(heap.calls) + 2
      ensures ok <==> !heap.fails(old(heap.calls)) && !heap.fails(old(heap.calls) + 1)
      ensures !ok ==> heap.live == old(heap.live) && unchanged(this)
      ensures ok ==> heap.calls == old(heap.calls) + 2 && Valid()
      ensures ok ==> chunks != [] && chunks == old(chunks) + [chunks[|chunks| - 1]]
      ensures ok ==> var c := chunks[|chunks| - 1];
                     && fresh(c) && c.bursts == [] && c.cb == (|old(chunks)| % 2 == 0)
                     && c.Cells() !! old(heap.live) && heap.live == old(heap.live) + c.Cells()
                     && Owned() == old(Owned()) + c.Cells()
    {
      hide Chunk.Valid, Chunk.Cells, Chunk.Distinct;
      var chunk := NewChunk(heap, chunksAlloc % 2 == 0);
      if chunk == null {
        return false;
      }
      UnionSnoc(lists, chunk.Cells());
      chunksAlloc := chunksAlloc + 1;
      chunks := chunks + [chunk];
      lists := lists + [chunk.Cells()];
      return true;
    }

    /** Adds one burst to the last chunk and to the recorded sizes. */
    method AppendBurst(heap: Allocator, b: Burst) returns (ok: bool, ghost c: nat)
      requires Valid() && Owned() <= heap.live
      requires chunks != [] && |chunks[|chunks| - 1].bursts| < 0xFFFF_FFFF
      modifies this`allocSz, this`lists, chunks[|chunks| - 1], heap
      ensures heap.calls == old(heap.calls) + 1 && ok == !heap.fails(old(heap.calls))
      ensures Valid()
      ensures !ok ==> heap.live == old(heap.live) && lists == old(lists)
      ensures ok ==> c !in old(heap.live) && heap.live == old(heap.live) + {c} && Owned() == old(Owned()) + {c}
      ensures ok ==> allocSz == Add32(old(allocSz), b.sz)
      ensures ok ==> Lists() == old(Lists()[|chunks| - 1 := chunks[|chunks| - 1].bursts + [b]])
    {
      hide Chunk.Valid, Chunk.Cells, Chunk.Distinct;
      var chunk := chunks[|chunks| - 1];
      LastDiffers();
      ok, c := chunk.AddBurst(heap, b);
      if ok {
        Grow(c);
        allocSz := Add32(allocSz, b.sz);
      }
    }

    /** Records that the last chunk owns one more cell. */
    ghost method Grow(c: nat)
      requires lists != [] && Separate() && c !in Owned()
      modifies this`lists
      ensures Separate() && Owned() == old(Owned()) + {c}
      ensures lists == old(lists[|lists| - 1 := lists[|lists| - 1] + {c}])
    {
      UnionGrow(lists, c);
      lists := lists[|lists| - 1 := lists[|lists| - 1] + {c}];
    }

    /** What is left of a descriptor once its first chunk is gone. */
    ghost method DropFirst()
      requires lists != [] && Separate()
      modifies this`lists
      ensures Separate() && lists == old(lists)[1..]
      ensures Owned() == old(Owned()) - old(lists)[0]
    {
      UnionHead(lists);
      lists := lists[1..];
    }

    lemma FirstDiffers()
      requires Valid() && chunks != []
      ensures forall k :: 0 < k < |chunks| ==> chunks[k] != chunks[0]
      ensures lists[0] <= Owned() && chunks[0].Cells() == lists[0]
    {
      UnionMember(lists, |lists|, 0);
      forall k | 0 < k < |chunks|
        ensures chunks[k] != chunks[0]
      {
        UnionHead(lists);
        UnionMember(lists[1..], |lists| - 1, k - 1);
        assert chunks[k].cell in lists[k] && chunks[0].cell in lists[0];
      }
    }

    /** Frees the first chunk with its bursts. */
    method FreeFirst(heap: Allocator)
      requires Valid() && Owned() <= heap.live && chunks != []
      modifies this`chunks, this`chunksAlloc, this`lists, chunks[0], heap
      ensures Valid() && chunks == old(chunks)[1..] && heap.calls == old(heap.calls)
      ensures forall k :: 0 <= k < |chunks| ==> chunks[k].Value() == old(chunks[k + 1].Value())
      ensures Owned() == old(Owned()) - old(chunks[0].Cells())
      ensures heap.live == old(heap.live) - old(chunks[0].Cells())
      ensures Owned() <= heap.live && heap.live - Owned() == old(heap.live - Owned())
    {
      hide Chunk.Valid, Chunk.Cells;
      FirstDiffers();
      FreeChunk(heap, chunks[0]);
      chunks := chunks[1..];
      chunksAlloc := chunksAlloc - 1;
      DropFirst();
    }

    /** Hands the first chunk to the engine, then frees it; `first` tells the engine to set itself up. */
    method TakeFirst(heap: Allocator) returns (chunk: ChunkValue, first: bool)
      requires Valid() && Owned() <= heap.live && chunks != []
      modifies this`chunks, this`chunksAlloc, this`lists, this`xferSz, chunks[0], heap
      ensures Valid() && Owned() <= heap.live && heap.calls == old(heap.calls)
      ensures chunk == old(Values())[0] && first == (old(xferSz) == 0)
      ensures Values() == old(Values())[1..] && xferSz == Add32(old(xferSz), Low32(chunk.sz))
      ensures chunks == old(chunks)[1..]
      ensures heap.live - Owned() == old(heap.live - Owned())
    {
      hide Chunk.Valid, Chunk.Cells;
      FirstDiffers();
      chunk := chunks[0].Value();
      first := xferSz == 0;
      xferSz := Add32(xferSz, Low32(chunk.sz));
      FreeFirst(heap);
    }

    /** Frees all chunks and the list head. */
    method FreeChunks(heap: Allocator)
      requires Valid() && Owned() <= heap.live
      modifies this, chunks, heap
      ensures head == None && chunks == [] && heap.calls == old(heap.calls)
      ensures heap.live == old(heap.live) - (old(Owned()) - {cell})
    {
      hide Chunk.Valid, Chunk.Cells;
      ghost var rest := heap.live - Owned();
      while chunks != []
        invariant Valid() && heap.calls == old(heap.calls)
        invariant Owned() <= heap.live && heap.live - Owned() == rest && Own() == old(Own())
        invariant |chunks| <= |old(chunks)| && chunks == old(chunks)[|old(chunks)| - |chunks|..]
        decreases |chunks|
      {
        assert chunks[0] == old(chunks)[|old(chunks)| - |chunks|];
        FreeFirst(heap);
      }
      assert lists == [] && Owned() == {cell, head.value} && head.value != cell;
      assert heap.live == rest + {cell, head.value};
      heap.Kfree(head.value);
      head := None;
      assert heap.live == rest + {cell};
    }

    /** Frees the descriptor and everything it owns. */
    method FreeDesc(heap: Allocator)
      requires Valid() && Owned() <= heap.live
      modifies this, chunks, heap
      ensures heap.live == old(heap.live) - old(Owned()) && heap.calls == old(heap.calls)
    {
      FreeChunks(heap);
      heap.Kfree(cell);
    }

    /** Cycle bits alternate along the list, starting with 1. */
    ghost predicate Alternates()
      reads this`chunks
    {
      forall k :: 0 <= k < |chunks| ==> chunks[k].cb == (k % 2 == 0)
    }

    /** A further chunk, when the last one holds exactly `llMax` bursts. */
    method OpenIfFull(heap: Allocator, llMax: u32) returns (ok: bool)
      requires Valid() && Alternates() && Owned() <= heap.live && HasRoom(Lists())
      modifies this, heap
      ensures Valid() && Alternates() && Owned() <= heap.live && chunks != []
      ensures heap.live - Owned() == old(heap.live - Owned())
      ensures chunks == old(chunks) || (chunks == old(chunks) + [chunks[|chunks| - 1]] && fresh(chunks[|chunks| - 1]))
      ensures var full := |old(Lists())[|old(chunks)| - 1]| == llMax;
              var calls := if full then 2 else 0;
              && (ok <==> !SomeFails(heap, old(heap.calls), old(heap.calls) + calls))
              && (ok ==> heap.calls == old(heap.calls) + calls && allocSz == old(allocSz) && xferSz == old(xferSz))
              && (ok ==> Lists() == if full then old(Lists()) + [[]] else old(Lists()))
              && (ok ==> |chunks[|chunks| - 1].bursts| < 0xFFFF_FFFF)
    {
      hide Valid, UnionTo, SomeFails;
      FailsOf(heap, heap.calls);
      ok := true;
      if |chunks[|chunks| - 1].bursts| == llMax {
        ok := AllocChunk(heap);
        assert ok ==> Lists() == old(Lists()) + [[]];
      }
    }

    /** Places one burst, in a new chunk when the last one holds exactly `llMax`. */
    method Place(heap: Allocator, b: Burst, llMax: u32) returns (ok: bool)
      requires Valid() && Alternates() && Owned() <= heap.live && HasRoom(Lists())
      modifies this, chunks, heap
      ensures Valid() && Alternates() && Owned() <= heap.live && chunks != []
      ensures heap.live - Owned() == old(heap.live - Owned())
      ensures chunks == old(chunks) || (chunks == old(chunks) + [chunks[|chunks| - 1]] && fresh(chunks[|chunks| - 1]))
      ensures ok <==> !SomeFails(heap, old(heap.calls), old(heap.calls) + CallsToPlace(old(Lists()), llMax))
      ensures ok ==> heap.calls == old(heap.calls) + CallsToPlace(old(Lists()), llMax)
      ensures ok ==> allocSz == Add32(old(allocSz), b.sz) && xferSz == old(xferSz)
      ensures ok ==> Lists() == PlaceIn(old(Lists()), b, llMax)
    {
      hide Valid, UnionTo, Add32, PlaceIn, SomeFails, Alternates, Owned;
      FailsOf(heap, heap.calls);
      FailsOf(heap, heap.calls + 2);
      FailsJoin(heap, heap.calls, heap.calls + 2, heap.calls + 3);
      PlaceInSteps(Lists(), b, llMax);
      ok := OpenIfFull(heap, llMax);
      if ok {
        ghost var c;
        ok, c := AppendBurst(heap, b);
      }
    }
  }

  /** A descriptor with an empty chunk list, or nothing. */
  method AllocDesc(heap: Allocator) returns (desc: Desc?)
    modifies heap
    ensures old(heap.calls) < heap.calls <= old(heap.calls) + 2
    ensures desc != null <==> !heap.fails(old(heap.calls)) && !heap.fails(old(heap.calls) + 1)
    ensures desc == null ==> heap.live == old(heap.live)
    ensures desc != null ==>
              && fresh(desc) && desc.Valid() && desc.chunks == [] && desc.allocSz == 0 && desc.xferSz == 0
              && heap.calls == old(heap.calls) + 2
              && desc.Owned() !! old(heap.live) && heap.live == old(heap.live) + desc.Owned()
  {
    var cell := heap.Kzalloc();
    if cell.None? {
      return null;
    }
    desc := new Desc(cell.value);
    var ok := desc.AllocHead(heap);
    if !ok {
      heap.Kfree(cell.value);
      return null;
    }
  }

  /** Allocation requests a whole build makes: descriptor and list head, then two a chunk and one a burst. */
  function RequestsNeeded(setup: Setup, dir: Direction, xfer: Transfer): (n: nat)
    requires PayloadFits(xfer) && WellFormed(xfer)
    ensures 4 <= n
  {
    2 + 2 * |Plan(setup, dir, xfer)| + BurstCount(xfer)
  }

  /** The descriptor after i bursts. */
  ghost predicate Built(desc: Desc, setup: Setup, dir: Direction, xfer: Transfer, i: nat)
    requires PayloadFits(xfer) && WellFormed(xfer) && i <= BurstCount(xfer)
    reads desc, desc.chunks
  {
    var bs := BurstsOf(setup, dir, xfer);
    && desc.Valid() && desc.Alternates() && desc.xferSz == 0
    && desc.Lists() == SplitTo(bs, i, setup.llMax)
    && desc.allocSz == Wrap32(SizeTo(bs, i))
  }

  lemma {:induction false} SplitToSmall(bs: seq<Burst>, n: nat, ll: nat)
    requires n <= |bs|
    ensures var cs := SplitTo(bs, n, ll);
            |cs[|cs| - 1]| <= n && |cs| <= n + 1 && (1 <= ll && 1 <= n ==> |cs| <= n)
  {
    if n > 0 {
      SplitToSmall(bs, n - 1, ll);
    }
  }

  /** There are always fewer than 2^32 chunks before the last burst is placed, and none too long. */
  lemma RoomToPlace(bs: seq<Burst>, i: nat, ll: nat)
    requires i < |bs| <= 0xFFFF_FFFF
    ensures var cs := SplitTo(bs, i, ll);
            HasRoom(cs)
  {
    SplitToSmall(bs, i, ll);
    if ll == 0 {
      SplitToNoRoom(bs, i);
    }
  }

  /** The descriptor before the first burst: one empty chunk. */
  lemma BuiltStarts(desc: Desc, setup: Setup, dir: Direction, xfer: Transfer)
    requires PayloadFits(xfer) && WellFormed(xfer)
    requires desc.Valid() && |desc.chunks| == 1 && desc.chunks[0].bursts == [] && desc.chunks[0].cb
    requires desc.allocSz == desc.xferSz == 0
    ensures Built(desc, setup, dir, xfer, 0)
  {
    assert desc.Lists() == [[]];
  }

  /** Placing burst i leads from the descriptor after i bursts to the one after i + 1. */
  lemma BuiltNext(setup: Setup, dir: Direction, xfer: Transfer, i: nat)
    requires PayloadFits(xfer) && WellFormed(xfer) && i < BurstCount(xfer)
    ensures var bs := BurstsOf(setup, dir, xfer);
            var b := BurstAt(setup, dir, xfer, i);
            && PlaceIn(SplitTo(bs, i, setup.llMax), b, setup.llMax) == SplitTo(bs, i + 1, setup.llMax)
            && Add32(Wrap32(SizeTo(bs, i)), b.sz) == Wrap32(SizeTo(bs, i + 1))
  {
    hide BurstAt, PlaceIn, Add32, Wrap32;
    var bs := BurstsOf(setup, dir, xfer);
    assert bs[i] == BurstAt(setup, dir, xfer, i);
    Add32Wraps(SizeTo(bs, i), bs[i].sz);
    WrapsItself(bs[i].sz);
  }

  /** Allocation requests made by the time i bursts are placed. */
  ghost function CallsAfter(setup: Setup, dir: Direction, xfer: Transfer, i: nat): nat
    requires PayloadFits(xfer) && WellFormed(xfer) && i <= BurstCount(xfer)
  {
    2 + 2 * |SplitTo(BurstsOf(setup, dir, xfer), i, setup.llMax)| + i
  }

  /** The requests made while placing bursts stay within what the whole build needs. */
  lemma CallsBounded(setup: Setup, dir: Direction, xfer: Transfer, i: nat)
    requires PayloadFits(xfer) && WellFormed(xfer) && i < BurstCount(xfer)
    ensures var cs := SplitTo(BurstsOf(setup, dir, xfer), i, setup.llMax);
            CallsAfter(setup, dir, xfer, i + 1) == CallsAfter(setup, dir, xfer, i) + CallsToPlace(cs, setup.llMax)
    ensures CallsAfter(setup, dir, xfer, i + 1) <= RequestsNeeded(setup, dir, xfer)
  {
    var bs := BurstsOf(setup, dir, xfer);
    SplitToGrows(bs, i + 1, |bs|, setup.llMax);
  }

  lemma CallsStart(setup: Setup, dir: Direction, xfer: Transfer)
    requires PayloadFits(xfer) && WellFormed(xfer)
    ensures CallsAfter(setup, dir, xfer, 0) == 4
  {
  }

  lemma CallsEnd(setup: Setup, dir: Direction, xfer: Transfer)
    requires PayloadFits(xfer) && WellFormed(xfer)
    ensures CallsAfter(setup, dir, xfer, BurstCount(xfer)) == RequestsNeeded(setup, dir, xfer)
  {
  }

  /** A built descriptor is the request's plan. */
  lemma BuiltIsPlan(desc: Desc, setup: Setup, dir: Direction, xfer: Transfer)
    requires PayloadFits(xfer) && WellFormed(xfer)
    requires Built(desc, setup, dir, xfer, BurstCount(xfer))
    ensures desc.Values() == Plan(setup, dir, xfer)
    ensures desc.allocSz == Wrap32(TotalSize(BurstsOf(setup, dir, xfer))) && desc.xferSz == 0
  {
    var parts := Split(BurstsOf(setup, dir, xfer), setup.llMax);
    forall k | 0 <= k < |desc.chunks|
      ensures desc.Values()[k] == ChunkAt(parts, k)
    {
      assert desc.Lists()[k] == parts[k];
      assert desc.chunks[k].Valid();
    }
  }

  /** Placing burst i takes the descriptor after i bursts to the one after i + 1. */
  method PlaceNext(heap: Allocator, desc: Desc, setup: Setup, dir: Direction, xfer: Transfer, i: nat, b: Burst,
                   ghost start: nat)
    returns (ok: bool)
    requires PayloadFits(xfer) && WellFormed(xfer) && i < BurstCount(xfer)
    requires Built(desc, setup, dir, xfer, i) && desc.Owned() <= heap.live && b == BurstAt(setup, dir, xfer, i)
    requires heap.calls == start + CallsAfter(setup, dir, xfer, i) && !SomeFails(heap, start, heap.calls)
    modifies desc, desc.chunks, heap
    ensures desc.Valid() && desc.chunks != [] && desc.Owned() <= heap.live
    ensures heap.live - desc.Owned() == old(heap.live - desc.Owned())
    ensures var last := desc.chunks[|desc.chunks| - 1];
            desc.chunks == old(desc.chunks) || (desc.chunks == old(desc.chunks) + [last] && fresh(last))
    ensures ok ==> Built(desc, setup, dir, xfer, i + 1)
    ensures ok <==> !SomeFails(heap, start, start + CallsAfter(setup, dir, xfer, i + 1))
    ensures ok ==> heap.calls == start + CallsAfter(setup, dir, xfer, i + 1)
  {
    hide BurstsOf, SplitTo, SizeTo, PlaceIn, Desc.Valid, Desc.Owned, Desc.Alternates, Wrap32, Add32, BurstAt;
    hide SomeFails, CallsToPlace, HasRoom, CallsAfter, RequestsNeeded;
    CallsBounded(setup, dir, xfer, i);
    FailsJoin(heap, start, heap.calls, start + CallsAfter(setup, dir, xfer, i + 1));
    RoomToPlace(BurstsOf(setup, dir, xfer), i, setup.llMax);
    BuiltNext(setup, dir, xfer, i);
    ok := desc.Place(heap, b, setup.llMax);
  }

  /** A descriptor with its first, empty chunk, or nothing. */
  method Begin(heap: Allocator, setup: Setup, dir: Direction, xfer: Transfer) returns (desc: Desc?)
    requires PayloadFits(xfer) && WellFormed(xfer)
    modifies heap
    ensures desc != null <==> !SomeFails(heap, old(heap.calls), old(heap.calls) + 4)
    ensures desc == null ==> heap.live == old(heap.live)
    ensures desc != null ==>
              && fresh(desc) && fresh(desc.chunks) && Built(desc, setup, dir, xfer, 0) && desc.Valid()
              && desc.Owned() !! old(heap.live) && heap.live == old(heap.live) + desc.Owned()
              && heap.calls == old(heap.calls) + 4
  {
    hide SplitTo, SizeTo, BurstsOf, Desc.Valid, Desc.Owned, SomeFails;
    FailsJoin(heap, heap.calls, heap.calls + 2, heap.calls + 4);
    FailsOf(heap, heap.calls);
    FailsOf(heap, heap.calls + 2);
    desc := AllocDesc(heap);
    if desc == null {
      return null;
    }
    var ok := desc.AllocChunk(heap);
    if !ok {
      desc.FreeDesc(heap);
      return null;
    }
    BuiltStarts(desc, setup, dir, xfer);
  }

  /**
   Compiles a request. The descriptor is exactly the request's plan, which means the request; it is absent
   exactly when the request is not acceptable or one of the allocation requests of the build fails, and then
   everything allocated on the way has been freed again.
   */
  method DeviceTransfer(heap: Allocator, setup: Setup, dir: Direction, xfer: Transfer) returns (desc: Desc?)
    requires WellFormed(xfer)
    modifies heap
    ensures desc == null <==>
            !Accepted(setup, dir, xfer) ||
            SomeFails(heap, old(heap.calls), old(heap.calls) + RequestsNeeded(setup, dir, xfer))
    ensures desc == null ==> heap.live == old(heap.live)
    ensures desc != null ==>
              && fresh(desc) && fresh(desc.chunks) && desc.Valid()
              && desc.Owned() !! old(heap.live) && heap.live == old(heap.live) + desc.Owned()
              && desc.Values() == Plan(setup, dir, xfer) && desc.xferSz == 0
              && desc.allocSz == Wrap32(TotalSize(BurstsOf(setup, dir, xfer)))
              && Meant(setup, dir, xfer, Flatten(ChunkBursts(desc.Values())))
  {
    hide SplitTo, SizeTo, BurstsOf, AddressAt, NextAddress, SourceStart, DestStart, MakeBurst, PlaceIn, Plan;
    hide Desc.Valid, Desc.Owned, Desc.Alternates, Wrap32, Add32, SomeFails, CallsToPlace, HasRoom, RequestsNeeded,
      CallsAfter;
    if !Accepted(setup, dir, xfer) {
      return null;
    }
    hide Accepted, PayloadFits, WellFormed, Meant, Flatten;
    ghost var start := heap.calls;
    ghost var total := RequestsNeeded(setup, dir, xfer);
    ghost var bs := BurstsOf(setup, dir, xfer);
    CallsStart(setup, dir, xfer);
    FailsJoin(heap, start, start + 4, start + total);
    hide Built;
    desc := Begin(heap, setup, dir, xfer);
    if desc == null {
      return null;
    }
    AddressStarts(setup, dir, xfer, true);
    AddressStarts(setup, dir, xfer, false);
    var srcAddr := SourceStart(setup, dir, xfer);
    var dstAddr := DestStart(setup, dir, xfer);
    var cnt := LoopBound(xfer);
    var i := 0;
    while i < cnt
      invariant 0 <= i <= BurstCount(xfer) <= cnt
      invariant fresh(desc) && fresh(desc.chunks) && Built(desc, setup, dir, xfer, i)
      invariant desc.Valid() && desc.Owned() !! old(heap.live) && heap.live == old(heap.live) + desc.Owned()
      invariant heap.calls == start + CallsAfter(setup, dir, xfer, i) && !SomeFails(heap, start, heap.calls)
      invariant srcAddr == AddressAt(setup, dir, xfer, i, true)
      invariant dstAddr == AddressAt(setup, dir, xfer, i, false)
      decreases cnt - i
    {
      if xfer.ScatterGather? && i == |xfer.sgl| {
        break;
      }
      var b := MakeBurst(dir, xfer, i, srcAddr, dstAddr);
      CallsBounded(setup, dir, xfer, i);
      var ok := PlaceNext(heap, desc, setup, dir, xfer, i, b, start);
      if !ok {
        desc.FreeDesc(heap);
        FailsJoin(heap, start, start + CallsAfter(setup, dir, xfer, i + 1), start + total);
        return null;
      }
      AddressAdvances(setup, dir, xfer, i, true);
      AddressAdvances(setup, dir, xfer, i, false);
      srcAddr := NextAddress(dir, xfer, i, true, srcAddr);
      dstAddr := NextAddress(dir, xfer, i, false, dstAddr);
      i := i + 1;
    }
    BuiltIsPlan(desc, setup, dir, xfer);
    PlanMeans(setup, dir, xfer);
    CallsEnd(setup, dir, xfer);
    assert !SomeFails(heap, start, start + total);
  }
}
