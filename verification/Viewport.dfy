/**
 Channel registers behind a viewport: one select register decides which channel's bank an access
 reaches, and a lock keeps selecting and accessing together.
 */
module Viewport {
  import opened Words
  import opened Requests
  import opened Heap

  /** A register of one channel. */
  datatype Cell = Cell(dir: ChannelDir, ch: nat, reg: nat)

  /** A register access: a write of a value, or a read. */
  datatype Op = Op(cell: Cell, value: Option<u32>)

  /** Where a thread stands within an access. */
  datatype Phase = Begun(op: Op) | Chosen(op: Op) | Accessed

  /** An access that has reached its register, with what it returned. */
  datatype Result = Result(op: Op, value: u32)

  datatype State = State(sel: u32, banks: map<Cell, u32>, owner: Option<nat>, phases: map<nat, Phase>, log: seq<Result>)

  /** One micro-step of thread `t`. */
  datatype Event = Begin(t: nat, op: Op) | Select(t: nat) | Access(t: nat) | Release(t: nat)

  /** The select word: the channel in bits 0 to 2, and bit 31 for read channels. */
  function SelectWord(dir: ChannelDir, ch: nat): u32 {
    ch % 8 + (if dir == ReadChannel then 0x8000_0000 else 0)
  }

  /** The register the hardware reaches through the viewport. */
  function Reached(sel: u32, reg: nat): Cell {
    Cell(if sel >= 0x8000_0000 then ReadChannel else WriteChannel, sel % 8, reg)
  }

  function Get(banks: map<Cell, u32>, cell: Cell): u32 {
    if cell in banks then banks[cell] else 0
  }

  /** An access to a register directly. */
  function Effect(banks: map<Cell, u32>, cell: Cell, value: Option<u32>): (map<Cell, u32>, u32) {
    match value
    case Some(v) => (banks[cell := v], 0)
    case None => (banks, Get(banks, cell))
  }

  predicate Enabled(s: State, e: Event, locking: bool) {
    match e
    case Begin(t, _) => t !in s.phases && (locking ==> s.owner == None)
    case Select(t) => t in s.phases && s.phases[t].Begun?
    case Access(t) => t in s.phases && s.phases[t].Chosen?
    case Release(t) => t in s.phases && s.phases[t].Accessed?
  }

  function Next(s: State, e: Event, locking: bool): State
    requires Enabled(s, e, locking)
  {
    match e
    case Begin(t, op) => s.(owner := Some(t), phases := s.phases[t := Begun(op)])
    case Select(t) =>
      var op := s.phases[t].op;
      s.(sel := SelectWord(op.cell.dir, op.cell.ch), phases := s.phases[t := Chosen(op)])
    case Access(t) =>
      var op := s.phases[t].op;
      var (banks, value) := Effect(s.banks, Reached(s.sel, op.cell.reg), op.value);
      s.(banks := banks, phases := s.phases[t := Accessed], log := s.log + [Result(op, value)])
    case Release(t) => s.(owner := None, phases := s.phases - {t})
  }

  ghost predicate Runs(s: State, es: seq<Event>, locking: bool)
    decreases |es|
  {
    es == [] || (Enabled(s, es[0], locking) && Runs(Next(s, es[0], locking), es[1..], locking))
  }

  ghost function Exec(s: State, es: seq<Event>, locking: bool): State
    requires Runs(s, es, locking)
    decreases |es|
  {
    if es == [] then s else Exec(Next(s, es[0], locking), es[1..], locking)
  }

  // Independent banks: every channel has registers of its own, and each access is one step.

  /** The banks after the first n accesses of a log, made one after the other on independent banks. */
  function Replay(banks: map<Cell, u32>, log: seq<Result>, n: nat): map<Cell, u32>
    requires n <= |log|
  {
    if n == 0 then banks else Effect(Replay(banks, log, n - 1), log[n - 1].op.cell, log[n - 1].op.value).0
  }

  /** Hardware and log are those of independent banks that started as `banks`. */
  ghost predicate AsBanked(banks: map<Cell, u32>, s: State) {
    && s.banks == Replay(banks, s.log, |s.log|)
    && forall i :: 0 <= i < |s.log| ==>
         s.log[i].value == Effect(Replay(banks, s.log, i), s.log[i].op.cell, s.log[i].op.value).1
  }

  /** At most the lock's owner is inside an access; what it has selected is its own channel. */
  ghost predicate LockOk(s: State) {
    && (forall t :: t in s.phases <==> s.owner == Some(t))
    && (forall t :: t in s.phases && !s.phases[t].Accessed? ==> s.phases[t].op.cell.ch < 8)
    && (forall t :: t in s.phases && s.phases[t].Chosen? ==>
          s.sel == SelectWord(s.phases[t].op.cell.dir, s.phases[t].op.cell.ch))
  }

  predicate ChannelsBelow8(es: seq<Event>) {
    forall i :: 0 <= i < |es| && es[i].Begin? ==> es[i].op.cell.ch < 8
  }

  /** Through the viewport the right channel is reached exactly when its number fits in three bits. */
  lemma ReachesIff(cell: Cell)
    ensures Reached(SelectWord(cell.dir, cell.ch), cell.reg) == cell <==> cell.ch < 8
  {
  }

  lemma {:induction false} ReplaySnoc(banks: map<Cell, u32>, log: seq<Result>, r: Result, n: nat)
    requires n <= |log|
    ensures Replay(banks, log + [r], n) == Replay(banks, log, n)
  {
    if n > 0 {
      ReplaySnoc(banks, log, r, n - 1);
    }
  }

  lemma LogGrows(banks: map<Cell, u32>, s: State, u: State, r: Result)
    requires AsBanked(banks, s) && u.log == s.log + [r]
    requires (u.banks, r.value) == Effect(s.banks, r.op.cell, r.op.value)
    ensures AsBanked(banks, u)
  {
    hide Effect;
    ReplaySnoc(banks, s.log, r, |s.log|);
    forall i | 0 <= i < |s.log|
      ensures Replay(banks, u.log, i) == Replay(banks, s.log, i)
    {
      ReplaySnoc(banks, s.log, r, i);
    }
  }

  lemma StepBanked(banks: map<Cell, u32>, s: State, e: Event)
    requires Enabled(s, e, true) && LockOk(s) && AsBanked(banks, s) && (e.Begin? ==> e.op.cell.ch < 8)
    ensures LockOk(Next(s, e, true)) && AsBanked(banks, Next(s, e, true))
  {
    var u := Next(s, e, true);
    if e.Access? {
      var op := s.phases[e.t].op;
      ReachesIff(op.cell);
      LogGrows(banks, s, u, Result(op, Effect(s.banks, op.cell, op.value).1));
    }
    hide AsBanked, SelectWord, Effect;
  }

  /**
   Whatever the interleaving of the threads' steps, the locked accesses have the results and the
   effect of single steps on independent banks, one per direction and channel.
   */
  lemma {:induction false} RefinesBanks(banks: map<Cell, u32>, s: State, es: seq<Event>)
    requires LockOk(s) && AsBanked(banks, s) && Runs(s, es, true) && ChannelsBelow8(es)
    ensures LockOk(Exec(s, es, true)) && AsBanked(banks, Exec(s, es, true))
    decreases |es|
  {
    hide LockOk, AsBanked, Next, Enabled;
    if es != [] {
      StepBanked(banks, s, es[0]);
      RefinesBanks(banks, Next(s, es[0], true), es[1..]);
    }
  }

  function Start(banks: map<Cell, u32>): State {
    State(0, banks, None, map[], [])
  }

  lemma StartBanked(banks: map<Cell, u32>)
    ensures LockOk(Start(banks)) && AsBanked(banks, Start(banks))
  {
  }

  /** So from power-up, whatever the registers hold then. */
  lemma RefinesFromStart(banks: map<Cell, u32>, es: seq<Event>)
    requires Runs(Start(banks), es, true) && ChannelsBelow8(es)
    ensures AsBanked(banks, Exec(Start(banks), es, true))
  {
    StartBanked(banks);
    RefinesBanks(banks, Start(banks), es);
    hide AsBanked, Runs, Exec;
  }

  /** Two writes to different channels whose steps interleave as only a missing lock allows. */
  function Race(): seq<Event> {
    [Begin(0, Op(Cell(WriteChannel, 0, 0), Some(7))), Begin(1, Op(Cell(WriteChannel, 1, 0), Some(9))),
     Select(0), Select(1), Access(0)]
  }

  /** Without the lock the viewport is no set of independent banks: a write lands in another channel. */
  lemma RaceDiverges()
    ensures Runs(Start(map[]), Race(), false)
    ensures !AsBanked(map[], Exec(Start(map[]), Race(), false))
    ensures !Runs(Start(map[]), Race(), true)
  {
    var s0 := Start(map[]);
    var es := Race();
    var s1 := Next(s0, es[0], false);
    var s2 := Next(s1, es[1], false);
    var s3 := Next(s2, es[2], false);
    var s4 := Next(s3, es[3], false);
    var s5 := Next(s4, es[4], false);
    assert es[1..][0] == es[1] && es[1..][1..] == es[2..];
    assert es[2..][0] == es[2] && es[2..][1..] == es[3..];
    assert es[3..][0] == es[3] && es[3..][1..] == es[4..];
    assert es[4..][0] == es[4] && es[4..][1..] == [];
    assert Runs(s5, [], false) && Exec(s5, [], false) == s5;
    assert Runs(s4, es[4..], false) && Exec(s4, es[4..], false) == s5;
    assert Runs(s3, es[3..], false) && Exec(s3, es[3..], false) == s5;
    assert Runs(s2, es[2..], false) && Exec(s2, es[2..], false) == s5;
    assert Runs(s1, es[1..], false) && Exec(s1, es[1..], false) == s5;
    assert s5.banks == map[Cell(WriteChannel, 1, 0) := 7];
    assert Replay(map[], s5.log, 0) == map[];
    assert Replay(map[], s5.log, 1) == map[Cell(WriteChannel, 0, 0) := 7];
    assert Cell(WriteChannel, 0, 0) !in s5.banks;
    var t1 := Next(s0, es[0], true);
    assert !Enabled(t1, es[1], true);
    assert !Runs(t1, es[1..], true);
  }

  /** The engine's registers on a legacy controller, with the driver's two accessors. */
  class LegacyRegisters {
    var sel: u32
    var banks: map<Cell, u32>

    constructor ()
      ensures sel == 0 && banks == map[]
    {
      sel, banks := 0, map[];
    }

    /** `writel_ch`, the lock being held. */
    method WritelCh(dir: ChannelDir, ch: nat, reg: nat, value: u32)
      modifies this
      ensures banks == old(banks)[Cell(dir, ch % 8, reg) := value]
    {
      var viewportSel := ch % 8;
      if dir == ReadChannel {
        viewportSel := viewportSel + 0x8000_0000;
      }
      sel := viewportSel;
      banks := banks[Reached(sel, reg) := value];
    }

    /** `readl_ch`, the lock being held. */
    method ReadlCh(dir: ChannelDir, ch: nat, reg: nat) returns (value: u32)
      modifies this`sel
      ensures value == Get(banks, Cell(dir, ch % 8, reg))
    {
      var viewportSel := ch % 8;
      if dir == ReadChannel {
        viewportSel := viewportSel + 0x8000_0000;
      }
      sel := viewportSel;
      value := Get(banks, Reached(sel, reg));
    }
  }
}
