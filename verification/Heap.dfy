/** The kernel allocator as the descriptor code sees it: cells that are live or not, and calls that may fail. */
module Heap {

  datatype Option<+T> = None | Some(value: T)

  class Allocator {
    /** Whether the n-th allocation request ever made fails. */
    const fails: nat -> bool
    var calls: nat
    /** The cells handed out and not yet freed. */
    var live: set<nat>

    constructor (fails: nat -> bool)
      ensures live == {} && calls == 0 && this.fails == fails
    {
      this.fails := fails;
      calls, live := 0, {};
    }

    /** Returns a cell that is not live, so no cell is ever handed out twice; or none when this request fails. */
    method Kzalloc() returns (cell: Option<nat>)
      modifies this
      ensures calls == old(calls) + 1
      ensures cell.None? <==> fails(old(calls))
      ensures cell.None? ==> live == old(live)
      ensures cell.Some? ==> cell.value !in old(live) && live == old(live) + {cell.value}
    {
      var denied := fails(calls);
      calls := calls + 1;
      if denied {
        return None;
      }
      var c := Unused(live);
      live := live + {c};
      return Some(c);
    }

    /** Only a live cell may be freed: freeing a cell twice, or one never handed out, does not verify. */
    method Kfree(cell: nat)
      requires cell in live
      modifies this
      ensures calls == old(calls)
      ensures live == old(live) - {cell}
    {
      live := live - {cell};
    }
  }

  /** Some cell outside a finite collection. */
  method Unused(s: set<nat>) returns (c: nat)
    ensures c !in s
  {
    c := 0;
    var rest := s;
    while c in s
      invariant rest <= s && forall x :: x in s && x !in rest ==> x < c
      decreases rest
    {
      assert c in rest;
      rest := rest - {c};
      c := c + 1;
    }
  }
}
