/**
 Which callbacks are still to come after any history of transfers and late callbacks, counted from what was
 submitted and called back, without following the transfers themselves.
 */
module Outstanding {
  import opened Words
  import opened Requests
  import opened Memory
  import opened Client

  /** A transfer between buffer and device range, or, between two of them, a callback nobody waits for. */
  datatype Act = Round(dir: Direction, addr: int, tmp: seq<byte>, fate: Fate) | Late(dir: Direction, junk: Mem)

  /** Device memory and, per direction, the transfers whose callback is outstanding. */
  datatype Device = Device(dev: Mem, tx: seq<Range>, rx: seq<Range>)

  function LateOf(d: Device, dir: Direction): seq<Range> {
    if dir == MemToDev then d.tx else d.rx
  }

  predicate CanAct(d: Device, a: Act) {
    a.dir != OtherDirection && (a.Late? ==> LateOf(d, a.dir) != [])
  }

  function After(d: Device, a: Act): Device
    requires CanAct(d, a)
  {
    match a
    case Round(dir, addr, tmp, fate) =>
      var o := Transferred(dir, d.dev, d.tx, d.rx, addr, tmp, fate);
      if dir == MemToDev then Device(o.dev, o.late, d.rx) else Device(o.dev, d.tx, o.late)
    case Late(dir, junk) =>
      var dev := Scribble(d.dev, d.tx, junk);
      if dir == MemToDev then Device(dev, d.tx[1..], d.rx) else Device(dev, d.tx, d.rx[1..])
  }

  ghost predicate Acts(d: Device, acts: seq<Act>)
    decreases |acts|
  {
    acts == [] || (CanAct(d, acts[0]) && Acts(After(d, acts[0]), acts[1..]))
  }

  ghost function AfterAll(d: Device, acts: seq<Act>): Device
    requires Acts(d, acts)
    decreases |acts|
  {
    if acts == [] then d else AfterAll(After(d, acts[0]), acts[1..])
  }

  // The same history as a client's records of one direction show it.

  /** The transfers ever submitted, in order, and how many callbacks have run. */
  datatype Book = Book(submitted: seq<Range>, called: nat)

  /** A transfer is submitted unless one of the steps up to its submission fails. */
  predicate Submits(e: Ending) {
    e.TimesOut? || e.Aborts? || e.Completes?
  }

  /**
   Callbacks run in a round that finds `open` outstanding: some of these before it waits, if it gets as far as
   its submission, and one more that ends the wait, unless the wait times out.
   */
  function CallsIn(open: nat, fate: Fate): nat {
    match fate.ending
    case MapFails => 0
    case ConfigFails => 0
    case PrepFails => 0
    case SubmitFails => Min(fate.called, open)
    case TimesOut => Min(fate.called, open)
    case Aborts => Min(fate.called, open) + 1
    case Completes => Min(fate.called, open) + 1
  }

  function Noted(b: Book, dir: Direction, a: Act): Book {
    if a.dir != dir then b
    else
      match a
      case Round(_, addr, tmp, fate) =>
        Book(b.submitted + (if Submits(fate.ending) then [Range(addr, |tmp|)] else []),
             b.called + CallsIn(Max(0, |b.submitted| - b.called), fate))
      case Late(_, _) => b.(called := b.called + 1)
  }

  function NotedAll(b: Book, dir: Direction, acts: seq<Act>): Book
    decreases |acts|
  {
    if acts == [] then b else NotedAll(Noted(b, dir, acts[0]), dir, acts[1..])
  }

  /** What is outstanding is what was submitted and not called back, in submission order. */
  predicate Exact(b: Book, late: seq<Range>) {
    b.called <= |b.submitted| && late == b.submitted[b.called..]
  }

  /** What is left after n callbacks, and after one more transfer. */
  lemma CallsExact(b: Book, late: seq<Range>, n: nat, own: Range)
    requires Exact(b, late)
    ensures var k, rest := b.called + Min(n, |late|), Drop(late, n);
            && Exact(Book(b.submitted, k), rest) && Exact(Book(b.submitted + [own], k), rest + [own])
            && Exact(Book(b.submitted + [own], k + 1), if rest == [] then [] else rest[1..] + [own])
  {
  }

  lemma StillExact(b: Book, late: seq<Range>, own: Range, fate: Fate)
    requires Exact(b, late)
    ensures Exact(Book(b.submitted + (if Submits(fate.ending) then [own] else []), b.called + CallsIn(|late|, fate)),
                  StillOpen(late, own, fate))
  {
    CallsExact(b, late, fate.called, own);
    assert b.submitted + [] == b.submitted;
    hide Exact, Drop, Min;
  }

  lemma ActNoted(d: Device, b: Book, dir: Direction, a: Act)
    requires dir != OtherDirection && CanAct(d, a) && Exact(b, LateOf(d, dir))
    ensures Exact(Noted(b, dir, a), LateOf(After(d, a), dir))
  {
    if a.dir == dir && a.Round? {
      assert |LateOf(d, dir)| == Max(0, |b.submitted| - b.called);
      hide Exact, StillOpen, CallsIn, Submits, Max;
      StillExact(b, LateOf(d, dir), Range(a.addr, |a.tmp|), a.fate);
    }
    hide Transferred;
  }

  /**
   After any history the outstanding transfers of a direction are exactly those submitted whose callback has not
   run, in submission order: a timeout or a stray callback neither loses nor invents any.
   */
  lemma {:induction false} OutstandingExact(d: Device, b: Book, dir: Direction, acts: seq<Act>)
    requires dir != OtherDirection && Acts(d, acts) && Exact(b, LateOf(d, dir))
    ensures Exact(NotedAll(b, dir, acts), LateOf(AfterAll(d, acts), dir))
    decreases |acts|
  {
    hide After, Noted, CanAct;
    if acts != [] {
      ActNoted(d, b, dir, acts[0]);
      OutstandingExact(After(d, acts[0]), Noted(b, dir, acts[0]), dir, acts[1..]);
    }
  }
}
