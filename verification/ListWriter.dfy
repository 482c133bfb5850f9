/** The two back ends' `write_chunk`: the same stores to a region, in the order the code makes them. */
module ListWriter {
  import opened Words
  import opened Bursts
  import opened LinkedList

  /** The stores of data entry i. */
  function EntryStores(i: nat, control: Flags, b: Burst): seq<Store> {
    [Store(6 * i + 1, b.sz), Store(6 * i + 2, Low32(b.sar)), Store(6 * i + 3, High32(b.sar)),
     Store(6 * i + 4, Low32(b.dar)), Store(6 * i + 5, High32(b.dar)), Store(6 * i, Word(control))]
  }

  /** The stores of entry i are the next six of its chunk. */
  lemma EntryStoresNext(log: seq<Store>, bs: seq<Burst>, cb: bool, local: bool, base: u64, i: nat)
    requires i < |bs|
    ensures log + StoresBefore(bs, cb, local, base, i + 1, 0) ==
            log + StoresBefore(bs, cb, local, base, i, 0) + EntryStores(i, DataFlags(i, |bs|, cb, local), bs[i])
  {
    var e := EntryStores(i, DataFlags(i, |bs|, cb, local), bs[i]);
    var s := StoresBefore(bs, cb, local, base, i, 0);
    assert StoresBefore(bs, cb, local, base, i, 1) == s + e[..1];
    assert StoresBefore(bs, cb, local, base, i, 2) == s + e[..2];
    assert StoresBefore(bs, cb, local, base, i, 3) == s + e[..3];
    assert StoresBefore(bs, cb, local, base, i, 4) == s + e[..4];
    assert StoresBefore(bs, cb, local, base, i, 5) == s + e[..5];
    assert StoresBefore(bs, cb, local, base, i + 1, 0) == s + e;
    assert log + (s + e) == log + s + e;
  }

  function LinkStores(i: nat, control: Flags, pointer: u64): seq<Store> {
    [Store(6 * i + 2, Low32(pointer)), Store(6 * i + 3, High32(pointer)), Store(6 * i, Word(control))]
  }

  lemma LinkStoresLast(log: seq<Store>, bs: seq<Burst>, cb: bool, local: bool, base: u64)
    ensures log + ChunkStores(bs, cb, local, base) ==
            log + StoresBefore(bs, cb, local, base, |bs|, 0) + LinkStores(|bs|, LinkFlags(cb), base)
  {
    var e := LinkStores(|bs|, LinkFlags(cb), base);
    var s := StoresBefore(bs, cb, local, base, |bs|, 0);
    assert StoresBefore(bs, cb, local, base, |bs|, 1) == s + e[..1];
    assert StoresBefore(bs, cb, local, base, |bs|, 2) == s + e[..2];
    assert ChunkStores(bs, cb, local, base) == s + e;
    assert log + (s + e) == log + s + e;
  }

  /** The list region of one channel, with a record of every 32-bit store made to it. */
  class ListRegion {
    const mem: array<u32>
    const paddr: u64
    ghost const initial: seq<u32>
    ghost var log: seq<Store>

    /** The region is what the recorded stores, in order, make of its first contents. */
    ghost predicate Valid()
      reads this, mem
    {
      |initial| == mem.Length && mem[..] == Apply(initial, log)
    }

    constructor (mem: array<u32>, paddr: u64)
      ensures this.mem == mem && this.paddr == paddr && log == [] && Valid()
    {
      this.mem := mem;
      this.paddr := paddr;
      this.initial := mem[..];
      this.log := [];
    }

    method Writel(value: u32, k: nat)
      requires Valid() && k < mem.Length
      modifies mem, this`log
      ensures Valid() && log == old(log) + [Store(k, value)]
    {
      mem[k] := value;
      log := log + [Store(k, value)];
      ApplySnoc(initial, old(log), Store(k, value));
    }

    /** A 64-bit store, low half first. */
    method Writeq(value: u64, k: nat)
      requires Valid() && k + 1 < mem.Length
      modifies mem, this`log
      ensures Valid() && log == old(log) + [Store(k, Low32(value)), Store(k + 1, High32(value))]
    {
      Writel(Low32(value), k);
      Writel(High32(value), k + 1);
    }

    /** One data entry: size and addresses first, the control word last. */
    method WriteLlData(i: nat, control: Flags, b: Burst)
      requires Valid() && 6 * i + 6 <= mem.Length
      modifies mem, this`log
      ensures Valid() && log == old(log) + EntryStores(i, control, b)
    {
      Writel(b.sz, 6 * i + 1);
      Writeq(b.sar, 6 * i + 2);
      Writeq(b.dar, 6 * i + 4);
      Writel(Word(control), 6 * i);
    }

    method WriteLlLink(i: nat, control: Flags, pointer: u64)
      requires Valid() && 6 * i + 4 <= mem.Length
      modifies mem, this`log
      ensures Valid() && log == old(log) + LinkStores(i, control, pointer)
    {
      Writeq(pointer, 6 * i + 2);
      Writel(Word(control), 6 * i);
    }

    /**
     Serialises a chunk. `burstsAlloc` is the chunk's own counter, which decides where the
     interrupt bits go; it equals the list's length in every chunk the compiler builds.
     */
    method WriteChunk(bursts: seq<Burst>, burstsAlloc: u32, cb: bool, local: bool)
      requires Valid() && burstsAlloc == |bursts|
      requires WordsNeeded(|bursts|) <= mem.Length
      modifies mem, this`log
      ensures Valid() && log == old(log) + ChunkStores(bursts, cb, local, paddr)
      ensures mem[..] == Apply(old(mem[..]), ChunkStores(bursts, cb, local, paddr))
      ensures Walk(mem[..], 0, cb) == bursts
    {
      var control := NO_FLAGS;
      var i := 0;
      if cb {
        control := control.(cb := true);
      }
      var j: int := burstsAlloc;
      while i < |bursts|
        invariant 0 <= i <= |bursts| && j == |bursts| - i
        invariant control == Flags(cb, false, false, 0 < i == |bursts|, 0 < i == |bursts| && !local)
        invariant Valid() && log == old(log) + StoresBefore(bursts, cb, local, paddr, i, 0)
      {
        j := j - 1;
        if j == 0 {
          control := control.(lie := true);
          if !local {
            control := control.(rie := true);
          }
        }
        EntryStoresNext(old(log), bursts, cb, local, paddr, i);
        WriteLlData(i, control, bursts[i]);
        i := i + 1;
      }
      control := NO_FLAGS.(llp := true, tcb := true);
      if !cb {
        control := control.(cb := true);
      }
      LinkStoresLast(old(log), bursts, cb, local, paddr);
      WriteLlLink(i, control, paddr);
      ApplyConcat(initial, old(log), ChunkStores(bursts, cb, local, paddr));
      RoundTrip(old(mem[..]), bursts, cb, local, paddr);
    }
  }
}
