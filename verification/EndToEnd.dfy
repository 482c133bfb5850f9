/**
 A channel's run together with memory: starting a chunk writes the list region, the engine fetches and
 executes what it finds there entry by entry, and interrupts end what is in flight. The engine works on the
 chunk started last; chunks in flight before it are those whose interrupt has not come yet.
 */
module EndToEnd {
  import opened Bursts
  import opened Heap
  import opened Requests
  import opened Memory
  import opened LinkedList
  import opened ChannelSpec
  import opened ChannelRuns
  import opened ChannelSafety
  import opened ChannelProgress
  import opened Engine

  /** The channel's direction and list region, and memory when the channel is powered up. */
  datatype Setting = Setting(dir: Direction, region: Region, local: bool, start: World)

  /** The channel, memory, how many entries of the chunk started last were executed, and all bursts ever executed. */
  datatype Machine = Machine(sys: Sys, world: World, pos: nat, executed: seq<Burst>)

  /** A driver call or interrupt, or the engine executing the next entry. */
  datatype Step = Driver(event: Event) | Fetch

  /** The chunk the engine works on. */
  function Current(s: Sys): ChunkValue
    requires s.flight != []
  {
    s.flight[|s.flight| - 1].chunk
  }

  /** What the engine reads in the list region, looking for that chunk. */
  function Listed(x: Setting, m: Machine): seq<Burst> {
    if m.sys.flight == [] then [] else Walk(WordsAt(m.world.dev, x.region), 0, Current(m.sys).cb)
  }

  /** The driver writes a chunk to the list region. */
  function Publish(x: Setting, w: World, c: ChunkValue): World {
    World(w.host, PutWords(w.dev, x.region, Apply(WordsAt(w.dev, x.region),
                                                  ChunkStores(c.bursts, c.cb, x.local, x.region.base))))
  }

  /** The interrupts that end a chunk. */
  predicate Ends(e: Event) {
    e.Done? || e.Abort? || e.LoseInterrupt?
  }

  /**
   The done interrupt of the only chunk in flight comes when its list is exhausted. An abort may come, or an
   interrupt be lost, at any time.
   */
  predicate Possible(x: Setting, m: Machine, st: Step) {
    match st
    case Fetch => m.pos < |Listed(x, m)|
    case Driver(e) => Enabled(m.sys, e) && (e.Done? && |m.sys.flight| == 1 ==> |Listed(x, m)| <= m.pos)
  }

  predicate Starts(s: Sys, t: Sys) {
    |s.trace.starts| < |t.trace.starts|
  }

  function LastStart(t: Sys): ChunkValue
    requires t.trace.starts != []
  {
    t.trace.starts[|t.trace.starts| - 1].chunk
  }

  /** How far the engine is after a driver step: a start begins anew, an abort ends what it works on. */
  function PosAfter(s: Sys, e: Event, t: Sys, pos: nat): nat {
    if Starts(s, t) || t.flight == [] then 0 else if e.Abort? then |Current(t).bursts| else pos
  }

  function Move(x: Setting, m: Machine, st: Step): Machine
    requires Possible(x, m, st)
  {
    match st
    case Fetch =>
      var b := Listed(x, m)[m.pos];
      Machine(m.sys, RunBurst(x.dir, m.world, b), m.pos + 1, m.executed + [b])
    case Driver(e) =>
      var t := Next(m.sys, e);
      Machine(t, if Starts(m.sys, t) then Publish(x, m.world, LastStart(t)) else m.world,
              PosAfter(m.sys, e, t, m.pos), m.executed)
  }

  function PowerUp(x: Setting): Machine {
    Machine(Init(), x.start, 0, [])
  }

  /** What a step prepares fits the list region and stays off it. */
  ghost predicate Proper(x: Setting, st: Step) {
    st.Driver? && st.event.Prep? ==> Servable(x.dir, st.event.desc.chunks, x.region)
  }

  // What a step does to the chunks in flight.

  /** In every step the first chunk in flight ends, or none does, and a chunk started joins as the last one. */
  lemma FlightMoves(s: Sys, e: Event)
    requires Enabled(s, e)
    ensures var t := Next(s, e);
            var kept := if Ends(e) then s.flight[1..] else s.flight;
            if Starts(s, t) then t.flight != [] && t.flight[..|t.flight| - 1] == kept && Current(t) == LastStart(t)
            else t.flight == kept
  {
    hide Progressed;
  }

  /** A step starts a chunk while another stays in flight. */
  predicate StartsOver(s: Sys, e: Event)
    requires Enabled(s, e)
  {
    Starts(s, Next(s, e)) && |Next(s, e).flight| > 1
  }

  /** With one chunk in flight, of the issued head of a busy channel, no step does. */
  lemma StartsAlone(s: Sys, e: Event)
    requires Enabled(s, e) && FlightOk(s) && BusyOk(s)
    ensures !StartsOver(s, e)
  {
    hide Progressed;
  }

  /** As long as no step does, at most one chunk is in flight. */
  lemma OneWithoutOver(s: Sys, e: Event)
    requires Enabled(s, e) && |s.flight| <= 1
    ensures |Next(s, e).flight| <= 1 <==> !StartsOver(s, e)
  {
    FlightMoves(s, e);
    hide Next;
  }

  /** Every chunk still to start fits the list region and stays off it. */
  ghost predicate ChunksServable(x: Setting, c: Chan) {
    && (forall i :: 0 <= i < |c.prepared| ==> Servable(x.dir, c.prepared[i].chunks, x.region))
    && (forall i :: 0 <= i < |c.submitted| ==> Servable(x.dir, c.submitted[i].chunks, x.region))
    && (forall i :: 0 <= i < |c.issued| ==> Servable(x.dir, c.issued[i].chunks, x.region))
  }

  lemma ServableTail(x: Setting, chunks: seq<ChunkValue>)
    requires Servable(x.dir, chunks, x.region) && chunks != []
    ensures Servable(x.dir, chunks[1..], x.region) && Servable(x.dir, [chunks[0]], x.region)
  {
    hide Avoids;
  }

  lemma StartServable(x: Setting, c: Chan)
    requires ChunksServable(x, c)
    ensures var o := StartTransfer(c);
            ChunksServable(x, o.chan) && (o.start.Some? ==> Servable(x.dir, [o.start.value.chunk], x.region))
  {
    if c.issued != [] && c.issued[0].chunks != [] {
      ServableTail(x, c.issued[0].chunks);
    }
    hide Servable;
  }

  ghost predicate OutcomeServable(x: Setting, o: Outcome) {
    ChunksServable(x, o.chan) && (o.start.Some? ==> Servable(x.dir, [o.start.value.chunk], x.region))
  }

  lemma IssueServable(x: Setting, c: Chan)
    requires ChunksServable(x, c)
    ensures OutcomeServable(x, IssuePending(c))
  {
    hide Servable;
    StartServable(x, c.(issued := c.issued + c.submitted, submitted := [], status := Busy));
  }

  lemma DoneServable(x: Setting, c: Chan)
    requires ChunksServable(x, c)
    ensures OutcomeServable(x, DoneInterrupt(c))
  {
    hide Servable;
    if c.issued != [] {
      StartServable(x, if c.issued[0].chunks == [] then CompleteHead(c) else c);
      hide StartTransfer;
    }
  }

  lemma OtherServable(x: Setting, s: Sys, e: Event)
    requires Enabled(s, e) && ChunksServable(x, s.chan) && !e.Issue? && !e.Done? && !e.ResumeCall?
    requires e.Prep? ==> Servable(x.dir, e.desc.chunks, x.region)
    ensures ChunksServable(x, Next(s, e).chan) && !Starts(s, Next(s, e))
  {
    hide Servable, Progressed;
  }

  lemma StepServable(x: Setting, s: Sys, e: Event)
    requires Enabled(s, e) && ChunksServable(x, s.chan)
    requires e.Prep? ==> Servable(x.dir, e.desc.chunks, x.region)
    ensures ChunksServable(x, Next(s, e).chan)
    ensures Starts(s, Next(s, e)) ==> Servable(x.dir, [LastStart(Next(s, e))], x.region)
  {
    hide Servable, Progressed, ChunksServable, IssuePending, DoneInterrupt, StartTransfer;
    match e {
      case Issue => IssueServable(x, s.chan);
      case Done => DoneServable(x, s.chan);
      case ResumeCall => ResumeServable(x, s.chan);
      case _ => OtherServable(x, s, e);
    }
  }

  lemma ResumeServable(x: Setting, c: Chan)
    requires ChunksServable(x, c)
    ensures OutcomeServable(x, Resume(c).0)
  {
    hide Servable;
    StartServable(x, c.(status := Busy));
  }

  // Memory.

  /** The region shows the engine exactly the chunk it works on, and memory is what was executed. */
  ghost predicate ImageOk(x: Setting, m: Machine) {
    && AgreeOff(m.world, RunBursts(x.dir, x.start, m.executed), x.region)
    && (m.sys.flight == [] ==> m.pos == 0)
    && (m.sys.flight != [] ==>
          && Listed(x, m) == Current(m.sys).bursts && m.pos <= |Current(m.sys).bursts|
          && Servable(x.dir, [Current(m.sys)], x.region))
  }

  lemma PublishShows(x: Setting, w: World, c: ChunkValue)
    requires Servable(x.dir, [c], x.region)
    ensures Walk(WordsAt(Publish(x, w, c).dev, x.region), 0, c.cb) == c.bursts
    ensures AgreeOff(Publish(x, w, c), w, x.region)
  {
    hide Avoids, Walk, Apply, ChunkStores;
    assert WordsNeeded(|[c][0].bursts|) <= x.region.size;
    var words := WordsAt(w.dev, x.region);
    RoundTrip(words, c.bursts, c.cb, x.local, x.region.base);
    WordsBack(w.dev, x.region, Apply(words, ChunkStores(c.bursts, c.cb, x.local, x.region.base)));
  }

  /** Executing an entry that stays off the region leaves the region alone. */
  lemma FetchFrame(dir: Direction, w: World, b: Burst, r: Region)
    requires Avoids(dir, b, r)
    ensures WordsAt(RunBurst(dir, w, b).dev, r) == WordsAt(w.dev, r)
  {
    if dir != DevToMem {
      var w' := RunBurst(dir, w, b);
      forall i | 0 <= i < r.size
        ensures WordAt(w'.dev, r.base + 4 * i) == WordAt(w.dev, r.base + 4 * i)
      {
      }
    }
  }

  lemma FetchKeeps(x: Setting, m: Machine)
    requires ImageOk(x, m) && Possible(x, m, Fetch)
    ensures ImageOk(x, Move(x, m, Fetch))
  {
    hide AgreeOff, Avoids, RunBurst, Walk, WordsAt;
    var b := Listed(x, m)[m.pos];
    assert Avoids(x.dir, [Current(m.sys)][0].bursts[m.pos], x.region);
    FetchFrame(x.dir, m.world, b, x.region);
    BurstAgrees(x.dir, m.world, RunBursts(x.dir, x.start, m.executed), b, x.region);
    RunToPrefix(x.dir, x.start, m.executed, m.executed + [b], |m.executed|);
    hide Servable;
  }

  lemma AgreeJoins(u: World, v: World, w: World, r: Region)
    requires AgreeOff(u, v, r) && AgreeOff(v, w, r)
    ensures AgreeOff(u, w, r)
  {
  }

  lemma StartKeepsImage(x: Setting, m: Machine, e: Event)
    requires ImageOk(x, m) && Possible(x, m, Driver(e)) && Proper(x, Driver(e)) && ChunksServable(x, m.sys.chan)
    requires Starts(m.sys, Next(m.sys, e))
    ensures ImageOk(x, Move(x, m, Driver(e)))
  {
    var t := Next(m.sys, e);
    FlightMoves(m.sys, e);
    StepServable(x, m.sys, e);
    hide Next, AgreeOff, Servable, Walk, WordsAt, Publish, RunTo, ChunksServable, Enabled;
    PublishShows(x, m.world, LastStart(t));
    AgreeJoins(Publish(x, m.world, LastStart(t)), m.world, RunBursts(x.dir, x.start, m.executed), x.region);
  }

  lemma QuietKeepsImage(x: Setting, m: Machine, e: Event)
    requires ImageOk(x, m) && Possible(x, m, Driver(e)) && !Starts(m.sys, Next(m.sys, e))
    ensures ImageOk(x, Move(x, m, Driver(e)))
  {
    FlightMoves(m.sys, e);
    hide Next, AgreeOff, Servable, Walk, WordsAt, Publish, RunTo, Enabled;
  }

  lemma DriverKeeps(x: Setting, m: Machine, e: Event)
    requires ImageOk(x, m) && Possible(x, m, Driver(e)) && Proper(x, Driver(e)) && ChunksServable(x, m.sys.chan)
    ensures ImageOk(x, Move(x, m, Driver(e)))
  {
    if Starts(m.sys, Next(m.sys, e)) {
      StartKeepsImage(x, m, e);
    } else {
      QuietKeepsImage(x, m, e);
    }
    hide ImageOk, Proper, Move, Starts, Next, ChunksServable, Listed;
  }

  /** Everything the run theorems rest on. */
  ghost predicate MachineOk(x: Setting, m: Machine) {
    Inv(m.sys) && ChunksServable(x, m.sys.chan) && ImageOk(x, m)
  }

  lemma MachineKept(x: Setting, m: Machine, st: Step)
    requires MachineOk(x, m) && Possible(x, m, st) && Proper(x, st)
    ensures MachineOk(x, Move(x, m, st))
  {
    match st {
      case Fetch => FetchKeeps(x, m);
      case Driver(e) =>
        InvKept(m.sys, e);
        StepServable(x, m.sys, e);
        DriverKeeps(x, m, e);
    }
    hide Inv, ChunksServable, ImageOk, Next, Listed;
  }

  ghost predicate Steps(x: Setting, m: Machine, sts: seq<Step>)
    decreases |sts|
  {
    sts == [] ||
    (Possible(x, m, sts[0]) && Proper(x, sts[0]) && Steps(x, Move(x, m, sts[0]), sts[1..]))
  }

  ghost function Final(x: Setting, m: Machine, sts: seq<Step>): Machine
    requires Steps(x, m, sts)
    decreases |sts|
  {
    if sts == [] then m else Final(x, Move(x, m, sts[0]), sts[1..])
  }

  lemma {:induction false} StepsKeep(x: Setting, m: Machine, sts: seq<Step>)
    requires Steps(x, m, sts) && MachineOk(x, m)
    ensures MachineOk(x, Final(x, m, sts))
    decreases |sts|
  {
    hide MachineOk, Possible, Proper, Move;
    if sts != [] {
      MachineKept(x, m, sts[0]);
      StepsKeep(x, Move(x, m, sts[0]), sts[1..]);
    }
  }

  lemma PowerUpOk(x: Setting)
    ensures MachineOk(x, PowerUp(x))
  {
    InitInv();
    AgreesWithItself(x.start, x.region);
    hide Inv, AgreeOff;
    assert RunTo(x.dir, x.start, [], 0) == x.start;
  }

  // Conservation of bursts.

  /** The bursts of a list of chunks, in order. */
  function BurstsIn(chunks: seq<ChunkValue>): seq<Burst> {
    Flatten(ChunkBursts(chunks))
  }

  lemma {:induction false} FlattenConcat(a: seq<seq<Burst>>, b: seq<seq<Burst>>, n: nat)
    requires n <= |b|
    ensures FlattenTo(a + b, |a| + n) == Flatten(a) + FlattenTo(b, n)
  {
    if n == 0 {
      FlattenToAgree(a, a + b, |a|);
    } else {
      FlattenConcat(a, b, n - 1);
      assert (a + b)[|a| + n - 1] == b[n - 1];
    }
  }

  lemma BurstsConcat(a: seq<ChunkValue>, b: seq<ChunkValue>)
    ensures BurstsIn(a + b) == BurstsIn(a) + BurstsIn(b)
  {
    assert ChunkBursts(a + b) == ChunkBursts(a) + ChunkBursts(b);
    FlattenConcat(ChunkBursts(a), ChunkBursts(b), |b|);
  }

  lemma BurstsOfOne(c: ChunkValue)
    ensures BurstsIn([c]) == c.bursts
  {
    assert ChunkBursts([c]) == [c.bursts];
    assert FlattenTo([c.bursts], 0) == [];
  }

  lemma NoBursts()
    ensures BurstsIn([]) == []
  {
  }

  /** The chunks the queued descriptors still have. */
  function Left(c: Chan): seq<ChunkValue> {
    ChunksTo(Queue(c), |Queue(c)|)
  }

  /** The chunk a step started, if any. */
  function Opened(s: Sys, t: Sys): seq<ChunkValue> {
    if Starts(s, t) then [LastStart(t)] else []
  }

  /** The chunks a step completes the head without. */
  function Dropped(s: Sys, e: Event): seq<ChunkValue> {
    if s.chan.issued != [] && (e.Abort? || (e.Done? && s.chan.request == StopRequest)) then s.chan.issued[0].chunks
    else []
  }

  /** The chunks a step submits. */
  function Added(s: Sys, e: Event): seq<ChunkValue>
    requires Enabled(s, e)
  {
    if e.SubmitNth? then s.chan.prepared[e.k].chunks else []
  }

  lemma LeftStart(c: Chan)
    ensures var o := StartTransfer(c); Left(c) == (if o.start.Some? then [o.start.value.chunk] else []) + Left(o.chan)
  {
    var o := StartTransfer(c);
    if o.start.Some? {
      var d := o.chan.issued[0];
      assert Queue(o.chan) == Queue(c)[0 := d] && Queue(o.chan)[1..] == Queue(c)[1..];
      ChunksHead(Queue(c), Queue(o.chan), |Queue(c)|);
    }
  }

  lemma LeftComplete(c: Chan)
    requires c.issued != []
    ensures Left(c) == c.issued[0].chunks + Left(CompleteHead(c))
  {
    assert Queue(CompleteHead(c)) == Queue(c)[1..];
    ChunksTail(Queue(c), |Queue(c)|);
  }

  lemma LeftSubmit(c: Chan, k: nat)
    requires k < |c.prepared|
    ensures Left(Submit(c, k)) == Left(c) + c.prepared[k].chunks
  {
    var d := Submit(c, k);
    assert Queue(d) == Queue(c) + [c.prepared[k].(cookie := d.used)];
    ChunksPrefix(Queue(c), Queue(d), |Queue(c)|);
  }

  lemma LeftSpliced(c: Chan, d: Chan)
    requires d.issued == c.issued + c.submitted && d.submitted == []
    ensures Left(d) == Left(c)
  {
    assert Queue(d) == Queue(c);
  }

  lemma LeftIssue(c: Chan)
    ensures var o := IssuePending(c); Left(c) == (if o.start.Some? then [o.start.value.chunk] else []) + Left(o.chan)
  {
    if c.configured {
      var moved := c.(issued := c.issued + c.submitted, submitted := []);
      LeftSpliced(c, moved);
      LeftSpliced(c, moved.(status := Busy));
      LeftStart(moved.(status := Busy));
      hide StartTransfer, Left;
    }
  }

  lemma LeftDone(c: Chan)
    ensures var o := DoneInterrupt(c);
            Left(c) == (if c.issued != [] && c.request == StopRequest then c.issued[0].chunks else [])
                       + (if o.start.Some? then [o.start.value.chunk] else []) + Left(o.chan)
  {
    hide ChunksTo;
    if c.issued != [] {
      LeftComplete(c);
      var next := if c.issued[0].chunks == [] then CompleteHead(c) else c;
      LeftStart(next);
      hide StartTransfer;
    }
  }

  /** What is left to start, what is added, started and dropped balance. */
  ghost predicate Balanced(s: Sys, e: Event)
    requires Enabled(s, e)
  {
    Left(s.chan) + Added(s, e) == Dropped(s, e) + Opened(s, Next(s, e)) + Left(Next(s, e).chan)
  }

  lemma AfterOpens(s: Sys, o: Outcome, flight: seq<Start>)
    ensures Opened(s, ChannelRuns.After(s, o, flight)) == (if o.start.Some? then [o.start.value.chunk] else [])
    ensures ChannelRuns.After(s, o, flight).chan == o.chan
  {
    hide HeadIndex;
  }

  lemma IssueBalanced(s: Sys)
    ensures Balanced(s, Issue)
  {
    hide Left, IssuePending, Opened, ChannelRuns.After;
    LeftIssue(s.chan);
    AfterOpens(s, IssuePending(s.chan), s.flight);
  }

  lemma ResumeBalanced(s: Sys)
    ensures Balanced(s, ResumeCall)
  {
    LeftSame(s.chan, s.chan.(status := Busy));
    LeftStart(s.chan.(status := Busy));
    AfterOpens(s, Resume(s.chan).0, s.flight);
    hide Left, Opened, ChannelRuns.After, StartTransfer;
  }

  lemma DoneBalanced(s: Sys)
    requires s.flight != []
    ensures Balanced(s, Done)
  {
    hide Left, DoneInterrupt, Opened, ChannelRuns.After;
    LeftDone(s.chan);
    AfterOpens(s, DoneInterrupt(s.chan), s.flight[1..]);
  }

  lemma AbortBalanced(s: Sys)
    requires s.flight != []
    ensures Balanced(s, Abort)
  {
    hide Left, Opened, ChannelRuns.After;
    if s.chan.issued != [] {
      LeftComplete(s.chan);
      LeftSame(CompleteHead(s.chan), AbortInterrupt(s.chan));
    } else {
      LeftSame(s.chan, AbortInterrupt(s.chan));
    }
    hide CompleteHead, AbortInterrupt;
    AfterOpens(s, Outcome(AbortInterrupt(s.chan), None), s.flight[1..]);
  }

  lemma SubmitBalanced(s: Sys, k: nat)
    requires k < |s.chan.prepared|
    ensures Balanced(s, SubmitNth(k))
  {
    hide Left, Submit;
    LeftSubmit(s.chan, k);
  }

  lemma QuietStays(s: Sys, e: Event)
    requires Enabled(s, e) && !e.Issue? && !e.ResumeCall? && !e.Done? && !e.Abort? && !e.SubmitNth?
    ensures var t := Next(s, e);
            t.chan.issued == s.chan.issued && t.chan.submitted == s.chan.submitted && !Starts(s, t)
  {
    hide Progressed, Started;
  }

  lemma QuietBalanced(s: Sys, e: Event)
    requires Enabled(s, e) && !e.Issue? && !e.ResumeCall? && !e.Done? && !e.Abort? && !e.SubmitNth?
    ensures Balanced(s, e)
  {
    QuietStays(s, e);
    hide Left, Next, Starts;
    LeftSame(s.chan, Next(s, e).chan);
  }

  lemma LeftSame(c: Chan, d: Chan)
    requires d.issued == c.issued && d.submitted == c.submitted
    ensures Left(d) == Left(c)
  {
  }

  /** They balance in every step. */
  lemma LeftMoves(s: Sys, e: Event)
    requires Enabled(s, e)
    ensures var t := Next(s, e); Left(s.chan) + Added(s, e) == Dropped(s, e) + Opened(s, t) + Left(t.chan)
  {
    assert Balanced(s, e) by {
      hide Balanced, Next;
      match e {
        case Issue => IssueBalanced(s);
        case Done => DoneBalanced(s);
        case Abort => AbortBalanced(s);
        case ResumeCall => ResumeBalanced(s);
        case SubmitNth(k) => SubmitBalanced(s, k);
        case _ => QuietBalanced(s, e);
      }
    }
    hide Next, Left, Added, Dropped, Opened;
  }

  /** All chunks of the first n submissions. */
  function AllChunks(order: seq<nat>, plans: map<nat, seq<ChunkValue>>, n: nat): seq<ChunkValue>
    requires n <= |order| && forall j :: 0 <= j < |order| ==> order[j] in plans
  {
    if n == 0 then [] else AllChunks(order, plans, n - 1) + plans[order[n - 1]]
  }

  lemma {:induction false} AllChunksFrame(order: seq<nat>, plans: map<nat, seq<ChunkValue>>,
                                          order': seq<nat>, plans': map<nat, seq<ChunkValue>>, n: nat)
    requires n <= |order| && n <= |order'|
    requires forall j :: 0 <= j < |order| ==> order[j] in plans
    requires forall j :: 0 <= j < |order'| ==> order'[j] in plans'
    requires forall j :: 0 <= j < n ==> order[j] == order'[j] && plans[order[j]] == plans'[order'[j]]
    ensures AllChunks(order, plans, n) == AllChunks(order', plans', n)
  {
    if n > 0 {
      AllChunksFrame(order, plans, order', plans', n - 1);
    }
  }

  /** The chunks of the submissions from number `from` on. */
  ghost function OwedFrom(t: Trace, from: nat): seq<ChunkValue>
    requires from <= |t.order| && forall j :: 0 <= j < |t.order| ==> t.order[j] in t.plans
  {
    AllChunks(t.order[from..], t.plans, |t.order| - from)
  }

  lemma KnownPlans(s: Sys)
    requires Inv(s)
    ensures forall j :: 0 <= j < |s.trace.order| ==> s.trace.order[j] in s.trace.plans
    ensures forall i :: 0 <= i < |s.chan.prepared| ==>
              var d := s.chan.prepared[i]; d.id in s.trace.plans && s.trace.plans[d.id] == d.chunks
  {
    hide BusyOk, OrderOk, CookiesOk, QueueOk, UntouchedFrom, StartsOk;
  }

  lemma OwedMoves(s: Sys, e: Event, from: nat)
    requires Enabled(s, e) && Inv(s) && Inv(Next(s, e)) && from <= |s.trace.order|
    ensures forall j :: 0 <= j < |s.trace.order| ==> s.trace.order[j] in s.trace.plans
    ensures var t := Next(s, e);
            && from <= |t.trace.order|
            && (forall j :: 0 <= j < |t.trace.order| ==> t.trace.order[j] in t.trace.plans)
            && OwedFrom(t.trace, from) == OwedFrom(s.trace, from) + Added(s, e)
  {
    hide Inv, AllChunks, Progressed;
    KnownPlans(s);
    KnownPlans(Next(s, e));
    StepLater(s, e);
    if e.SubmitNth? {
      OwedGrows(s.trace, s.chan.prepared[e.k].id, from);
    } else {
      OrderStays(s, e);
      OwedStays(s.trace, Next(s, e).trace, from);
    }
  }

  lemma OwedGrows(t: Trace, id: nat, from: nat)
    requires from <= |t.order| && id in t.plans && forall j :: 0 <= j < |t.order| ==> t.order[j] in t.plans
    ensures OwedFrom(Submitted(t, id), from) == OwedFrom(t, from) + t.plans[id]
  {
    assert (t.order + [id])[from..] == t.order[from..] + [id];
    AllChunksFrame(t.order[from..], t.plans, t.order[from..] + [id], t.plans, |t.order| - from);
  }

  lemma OwedStays(t: Trace, u: Trace, from: nat)
    requires from <= |t.order| && u.order == t.order && forall j :: 0 <= j < |t.order| ==> t.order[j] in t.plans
    requires forall id :: id in t.plans ==> id in u.plans && u.plans[id] == t.plans[id]
    ensures OwedFrom(u, from) == OwedFrom(t, from)
  {
    AllChunksFrame(t.order[from..], t.plans, u.order[from..], u.plans, |t.order| - from);
  }

  lemma OrderStays(s: Sys, e: Event)
    requires Enabled(s, e) && !e.SubmitNth?
    ensures Next(s, e).trace.order == s.trace.order
  {
  }

  /** What of the chunk the engine works on is not yet executed. */
  function Rest(m: Machine): seq<Burst> {
    if m.sys.flight != [] && m.pos <= |Current(m.sys).bursts| then Current(m.sys).bursts[m.pos..] else []
  }

  /** Executed, in flight and waiting bursts, in this order. */
  function Held(m: Machine): seq<Burst> {
    m.executed + Rest(m) + BurstsIn(Left(m.sys.chan))
  }

  /** Together they are exactly the bursts of all submissions: none is lost, repeated or reordered. */
  ghost predicate Conserved(m: Machine) {
    && (forall j :: 0 <= j < |m.sys.trace.order| ==> m.sys.trace.order[j] in m.sys.trace.plans)
    && Held(m) == BurstsIn(OwedFrom(m.sys.trace, 0))
  }

  /**
   The step takes the engine off what it works on: another chunk is started over it, it is aborted, or its
   interrupt is lost with no other outstanding. (After its done interrupt nothing is left of it.)
   */
  predicate Interrupts(s: Sys, e: Event)
    requires Enabled(s, e)
  {
    Starts(s, Next(s, e)) || Next(s, e).flight == [] || e.Abort?
  }

  /** The bursts a step loses: of a chunk the engine is taken off, and of a descriptor that is cut short. */
  function Lost(x: Setting, m: Machine, st: Step): seq<Burst>
    requires Possible(x, m, st)
  {
    match st
    case Fetch => []
    case Driver(e) => (if Interrupts(m.sys, e) then Rest(m) else []) + BurstsIn(Dropped(m.sys, e))
  }

  lemma RestMoves(x: Setting, m: Machine, e: Event)
    requires Possible(x, m, Driver(e))
    ensures var m' := Move(x, m, Driver(e));
            var kept := if Interrupts(m.sys, e) then [] else Rest(m);
            Rest(m') == kept + BurstsIn(Opened(m.sys, m'.sys)) && (Starts(m.sys, m'.sys) ==> kept == [])
  {
    FlightMoves(m.sys, e);
    NoBursts();
    if Starts(m.sys, Next(m.sys, e)) {
      BurstsOfOne(LastStart(Next(m.sys, e)));
    } else if e.Abort? {
      NoStart(m.sys, e);
    }
    hide BurstsIn, Next, Enabled, Listed, Publish;
  }

  lemma NoStart(s: Sys, e: Event)
    requires Enabled(s, e) && e.Abort?
    ensures !Starts(s, Next(s, e))
  {
  }

  /** When the done interrupt of the only chunk in flight comes, nothing is left of it. */
  lemma DoneExhausts(x: Setting, m: Machine)
    requires MachineOk(x, m) && Possible(x, m, Driver(Done)) && |m.sys.flight| == 1
    ensures Rest(m) == []
  {
    hide Inv, AgreeOff, Walk, Servable, ChunksServable;
  }

  /** One list of bursts cut in two ways, with some of them lost in between. */
  lemma Balance(executed: seq<Burst>, kept: seq<Burst>, gone: seq<Burst>, left: seq<Burst>, added: seq<Burst>,
                dropped: seq<Burst>, started: seq<Burst>, left': seq<Burst>)
    requires left + added == dropped + started + left' && (kept == [] || started == [])
    ensures |executed + (gone + kept) + left| + |added| == |executed + (kept + started) + left'| + |gone + dropped|
    ensures gone + dropped == [] ==>
              executed + (gone + kept) + left + added == executed + (kept + started) + left'
  {
    assert |left + added| == |dropped + started + left'|;
    if gone + dropped == [] {
      assert gone == [] && dropped == [];
      assert executed + (gone + kept) + left + added == executed + kept + (left + added);
      assert executed + kept + (started + left') == executed + (kept + started) + left';
    }
  }

  /** What is held and what is owed change together, but for the bursts lost. */
  lemma NothingOpened(s: Sys, t: Sys)
    ensures !Starts(s, t) ==> BurstsIn(Opened(s, t)) == []
  {
    NoBursts();
  }

  lemma HeldMoves(x: Setting, m: Machine, e: Event)
    requires MachineOk(x, m) && Possible(x, m, Driver(e))
    ensures var m' := Move(x, m, Driver(e));
            var added := BurstsIn(Added(m.sys, e));
            && |Held(m)| + |added| == |Held(m')| + |Lost(x, m, Driver(e))|
            && (Lost(x, m, Driver(e)) == [] ==> Held(m) + added == Held(m'))
  {
    hide Left, BurstsIn, Rest, Next, MachineOk, Dropped, Added, Opened, Interrupts, Enabled, Starts, Listed, Publish;
    var m' := Move(x, m, Driver(e));
    var t := m'.sys;
    RestMoves(x, m, e);
    LeftMoves(m.sys, e);
    LeftBalance(Left(m.sys.chan), Added(m.sys, e), Dropped(m.sys, e), Opened(m.sys, t), Left(t.chan));
    var kept := if Interrupts(m.sys, e) then [] else Rest(m);
    var gone := if Interrupts(m.sys, e) then Rest(m) else [];
    assert gone + kept == Rest(m);
    NothingOpened(m.sys, t);
    Balance(m.executed, kept, gone, BurstsIn(Left(m.sys.chan)), BurstsIn(Added(m.sys, e)),
            BurstsIn(Dropped(m.sys, e)), BurstsIn(Opened(m.sys, t)), BurstsIn(Left(t.chan)));
  }

  lemma LeftBalance(left: seq<ChunkValue>, added: seq<ChunkValue>, dropped: seq<ChunkValue>, started: seq<ChunkValue>,
                    left': seq<ChunkValue>)
    requires left + added == dropped + started + left'
    ensures BurstsIn(left) + BurstsIn(added) == BurstsIn(dropped) + BurstsIn(started) + BurstsIn(left')
  {
    hide BurstsIn;
    BurstsConcat(left, added);
    BurstsConcat(dropped + started, left');
    BurstsConcat(dropped, started);
  }

  lemma Fetched(executed: seq<Burst>, bs: seq<Burst>, pos: nat, left: seq<Burst>)
    requires pos < |bs|
    ensures executed + [bs[pos]] + bs[pos + 1..] + left == executed + bs[pos..] + left
  {
    assert bs[pos..] == [bs[pos]] + bs[pos + 1..];
  }

  /** Fetching an entry moves it from what is in flight to what is executed. */
  lemma HeldFetched(x: Setting, m: Machine)
    requires MachineOk(x, m) && Possible(x, m, Fetch)
    ensures Held(Move(x, m, Fetch)) == Held(m)
  {
    hide Inv, AgreeOff, Walk, Servable, ChunksServable, BurstsIn, Left, RunBurst, WordsAt;
    assert Listed(x, m) == Current(m.sys).bursts;
    hide Listed, ImageOk, Current;
    Fetched(m.executed, Current(m.sys).bursts, m.pos, BurstsIn(Left(m.sys.chan)));
  }

  /**
   Counted from a base of bursts executed before submission number `from`: how many bursts short of what is
   owed since then the machine is.
   */
  ghost predicate ShortBy(m: Machine, base: seq<Burst>, from: nat, n: nat) {
    && from <= |m.sys.trace.order|
    && (forall j :: 0 <= j < |m.sys.trace.order| ==> m.sys.trace.order[j] in m.sys.trace.plans)
    && Short(Held(m), base + BurstsIn(OwedFrom(m.sys.trace, from)), n)
  }

  /** One list is n shorter than another, and is it when n is 0. */
  predicate Short(held: seq<Burst>, owed: seq<Burst>, n: nat) {
    |held| + n == |owed| && (n == 0 ==> held == owed)
  }

  lemma ShortGrows(held: seq<Burst>, owed: seq<Burst>, n: nat, added: seq<Burst>, lost: seq<Burst>, held': seq<Burst>)
    requires Short(held, owed, n) && |held| + |added| == |held'| + |lost| && (lost == [] ==> held + added == held')
    ensures Short(held', owed + added, n + |lost|)
  {
  }

  lemma ShortMoves(x: Setting, m: Machine, st: Step, base: seq<Burst>, from: nat, n: nat)
    requires MachineOk(x, m) && Possible(x, m, st) && Proper(x, st) && ShortBy(m, base, from, n)
    ensures ShortBy(Move(x, m, st), base, from, n + |Lost(x, m, st)|)
  {
    match st {
      case Fetch => ShortFetched(x, m, base, from, n);
      case Driver(e) => ShortDriven(x, m, e, base, from, n);
    }
  }

  lemma ShortFetched(x: Setting, m: Machine, base: seq<Burst>, from: nat, n: nat)
    requires MachineOk(x, m) && Possible(x, m, Fetch) && ShortBy(m, base, from, n)
    ensures ShortBy(Move(x, m, Fetch), base, from, n)
  {
    HeldFetched(x, m);
    hide MachineOk, Held, BurstsIn, OwedFrom, Listed, RunBurst, Short;
  }

  /** What is owed grows by what a step submits. */
  lemma OwedDriven(x: Setting, m: Machine, e: Event, base: seq<Burst>, from: nat)
    requires Inv(m.sys) && Enabled(m.sys, e) && from <= |m.sys.trace.order|
    ensures forall j :: 0 <= j < |m.sys.trace.order| ==> m.sys.trace.order[j] in m.sys.trace.plans
    ensures var t := Next(m.sys, e);
            && from <= |t.trace.order|
            && (forall j :: 0 <= j < |t.trace.order| ==> t.trace.order[j] in t.trace.plans)
            && base + BurstsIn(OwedFrom(t.trace, from))
               == base + BurstsIn(OwedFrom(m.sys.trace, from)) + BurstsIn(Added(m.sys, e))
  {
    hide Inv, BurstsIn, Added, Next, Enabled;
    InvKept(m.sys, e);
    OwedMoves(m.sys, e, from);
    hide OwedFrom;
    BurstsConcat(OwedFrom(m.sys.trace, from), Added(m.sys, e));
    Regroup(base, BurstsIn(OwedFrom(m.sys.trace, from)), BurstsIn(Added(m.sys, e)));
  }

  lemma Regroup(a: seq<Burst>, b: seq<Burst>, c: seq<Burst>)
    ensures a + (b + c) == a + b + c
  {
  }

  lemma ShortDriven(x: Setting, m: Machine, e: Event, base: seq<Burst>, from: nat, n: nat)
    requires MachineOk(x, m) && Possible(x, m, Driver(e)) && ShortBy(m, base, from, n)
    ensures ShortBy(Move(x, m, Driver(e)), base, from, n + |Lost(x, m, Driver(e))|)
  {
    assert Inv(m.sys);
    hide Inv, ChunksServable, ImageOk, Held, BurstsIn, Lost, Next, Listed, Added, Enabled, OwedFrom, Short;
    OwedDriven(x, m, e, base, from);
    HeldMoves(x, m, e);
    ShortGrows(Held(m), base + BurstsIn(OwedFrom(m.sys.trace, from)), n, BurstsIn(Added(m.sys, e)),
               Lost(x, m, Driver(e)), Held(Move(x, m, Driver(e))));
  }

  /** A step keeps every burst accounted for exactly when it loses none. */
  lemma ConservedIff(x: Setting, m: Machine, st: Step)
    requires MachineOk(x, m) && Possible(x, m, st) && Proper(x, st) && Conserved(m)
    ensures Conserved(Move(x, m, st)) <==> Lost(x, m, st) == []
  {
    hide MachineOk, Possible, Proper, Held, BurstsIn, OwedFrom, Lost, Move;
    Regroup([], [], BurstsIn(OwedFrom(m.sys.trace, 0)));
    ShortMoves(x, m, st, [], 0, 0);
  }

  /** A step that starts a chunk completes no descriptor with chunks left. */
  lemma StartDropsNone(s: Sys, e: Event)
    requires Enabled(s, e) && Starts(s, Next(s, e))
    ensures Dropped(s, e) == []
  {
    hide Progressed;
  }

  /** Starting a chunk while another is in flight loses exactly what the engine has not executed of that one. */
  lemma StartOverIff(x: Setting, m: Machine, e: Event)
    requires MachineOk(x, m) && Possible(x, m, Driver(e)) && Proper(x, Driver(e)) && Conserved(m)
    requires StartsOver(m.sys, e)
    ensures Lost(x, m, Driver(e)) == Rest(m)
    ensures Conserved(Move(x, m, Driver(e))) <==> Rest(m) == []
  {
    ConservedIff(x, m, Driver(e));
    StartDropsNone(m.sys, e);
    NoBursts();
    hide MachineOk, Conserved, BurstsIn, Rest, Next, Proper;
  }

  /** What can lose a burst: an abort, a lost interrupt, a done with a stop pending, a start over a chunk in flight. */
  predicate Lossy(s: Sys, e: Event)
    requires Enabled(s, e)
  {
    e.Abort? || e.LoseInterrupt? || (e.Done? && s.chan.request == StopRequest) || StartsOver(s, e)
  }

  /** With at most one chunk in flight, nothing else does. */
  lemma OnlyLossyLoses(x: Setting, m: Machine, e: Event)
    requires MachineOk(x, m) && Possible(x, m, Driver(e)) && |m.sys.flight| <= 1 && !Lossy(m.sys, e)
    ensures Lost(x, m, Driver(e)) == []
  {
    FlightMoves(m.sys, e);
    if e.Done? && |m.sys.flight| == 1 {
      DoneExhausts(x, m);
    }
    NoBursts();
    hide MachineOk, Next, BurstsIn, Listed, Enabled;
  }

  /** Terminating loses nothing by itself, whatever the engine answers. */
  lemma TerminateLosesNothing(x: Setting, m: Machine, hwComplete: bool)
    ensures Lost(x, m, Driver(Terminate(hwComplete))) == []
  {
    NoBursts();
  }

  /**
   Aborting the last chunk of the head looks to its client like its completion: the descriptor joins the
   completed list, its cookie completes and its callback comes exactly as after the done interrupt. But
   nothing more was executed; what was left of the chunk is lost.
   */
  lemma AbortLooksDone(x: Setting, m: Machine)
    requires m.sys.flight != [] && HeadSpent(m.sys.chan) && m.sys.chan.request == NoRequest
    ensures var a, d := Next(m.sys, Abort), Next(m.sys, Done);
            && a.chan.completed == d.chan.completed && a.chan.completedCookie == d.chan.completedCookie
            && a.chan.used == d.chan.used
            && Next(a, Tasklet).trace.freed == Next(d, Tasklet).trace.freed
    ensures Possible(x, m, Driver(Abort)) && Lost(x, m, Driver(Abort)) == Rest(m)
    ensures Move(x, m, Driver(Abort)).executed == m.executed && Move(x, m, Driver(Abort)).world == m.world
  {
    NoBursts();
    NoStart(m.sys, Abort);
    hide BurstsIn;
  }

  /** The bursts a whole run loses. */
  ghost function LostIn(x: Setting, m: Machine, sts: seq<Step>): nat
    requires Steps(x, m, sts)
    decreases |sts|
  {
    if sts == [] then 0 else |Lost(x, m, sts[0])| + LostIn(x, Move(x, m, sts[0]), sts[1..])
  }

  lemma {:induction false} RunShort(x: Setting, m: Machine, sts: seq<Step>, base: seq<Burst>, from: nat, n: nat)
    requires Steps(x, m, sts) && MachineOk(x, m) && ShortBy(m, base, from, n)
    ensures ShortBy(Final(x, m, sts), base, from, n + LostIn(x, m, sts))
    decreases |sts|
  {
    hide MachineOk, Possible, Proper, Move, ShortBy, Lost;
    if sts != [] {
      MachineKept(x, m, sts[0]);
      ShortMoves(x, m, sts[0], base, from, n);
      RunShort(x, Move(x, m, sts[0]), sts[1..], base, from, n + |Lost(x, m, sts[0])|);
    }
  }

  // The requests behind the descriptors.

  /** The request a descriptor was compiled from, and the channel set-up it was compiled with. */
  datatype Job = Job(setup: Setup, xfer: Transfer)

  /** Every descriptor prepared is the plan of its job. */
  ghost predicate Compiled(plans: map<nat, seq<ChunkValue>>, jobs: map<nat, Job>, dir: Direction) {
    forall id :: id in plans ==>
      && id in jobs && PayloadFits(jobs[id].xfer) && WellFormed(jobs[id].xfer)
      && plans[id] == Plan(jobs[id].setup, dir, jobs[id].xfer)
  }

  /** The bursts the first n submissions mean, in submission order. */
  ghost function JobBursts(order: seq<nat>, jobs: map<nat, Job>, dir: Direction, n: nat): seq<Burst>
    requires n <= |order|
    requires forall j :: 0 <= j < |order| ==>
      order[j] in jobs && PayloadFits(jobs[order[j]].xfer) && WellFormed(jobs[order[j]].xfer)
  {
    if n == 0 then [] else
      JobBursts(order, jobs, dir, n - 1) + BurstsOf(jobs[order[n - 1]].setup, dir, jobs[order[n - 1]].xfer)
  }

  /** All chunks together, flattened, are all bursts together. */
  lemma {:induction false} AllFlatten(order: seq<nat>, plans: map<nat, seq<ChunkValue>>, jobs: map<nat, Job>,
                                      dir: Direction, n: nat)
    requires n <= |order| && Compiled(plans, jobs, dir) && forall j :: 0 <= j < |order| ==> order[j] in plans
    ensures Flatten(ChunkBursts(AllChunks(order, plans, n))) == JobBursts(order, jobs, dir, n)
  {
    hide Plan, BurstsOf;
    if n > 0 {
      var job := jobs[order[n - 1]];
      AllFlatten(order, plans, jobs, dir, n - 1);
      BurstsConcat(AllChunks(order, plans, n - 1), plans[order[n - 1]]);
      PlanMeaning(job.setup, dir, job.xfer);
    } else {
      NoBursts();
    }
  }

  /**
   In every state of every run memory is, off the list region, what executing the bursts fetched so far,
   one after the other, makes of the first memory: nothing else is ever written there.
   */
  lemma MemoryAlways(x: Setting, sts: seq<Step>)
    requires Steps(x, PowerUp(x), sts)
    ensures var m := Final(x, PowerUp(x), sts);
            AgreeOff(m.world, RunBursts(x.dir, x.start, m.executed), x.region)
  {
    PowerUpOk(x);
    StepsKeep(x, PowerUp(x), sts);
    hide Steps, Final, AgreeOff, Inv;
  }

  lemma PowerUpShort(x: Setting)
    ensures ShortBy(PowerUp(x), [], 0, 0)
  {
    NoBursts();
  }

  /**
   As long as no step lost any burst, what was executed, what is in flight and what waits are together
   the bursts of the submitted requests, in submission order.
   */
  lemma AllAccounted(x: Setting, sts: seq<Step>, jobs: map<nat, Job>)
    requires Steps(x, PowerUp(x), sts) && Compiled(Final(x, PowerUp(x), sts).sys.trace.plans, jobs, x.dir)
    ensures var m := Final(x, PowerUp(x), sts);
            var order := m.sys.trace.order;
            && (forall j :: 0 <= j < |order| ==>
                  order[j] in jobs && PayloadFits(jobs[order[j]].xfer) && WellFormed(jobs[order[j]].xfer))
            && (Held(m) == JobBursts(order, jobs, x.dir, |order|) <==> LostIn(x, PowerUp(x), sts) == 0)
  {
    hide Steps, Final, LostIn, ShortBy, MachineOk, Compiled, Held, JobBursts;
    PowerUpOk(x);
    PowerUpShort(x);
    RunShort(x, PowerUp(x), sts, [], 0, 0);
    OwedIsJobs(Final(x, PowerUp(x), sts), jobs, x.dir, LostIn(x, PowerUp(x), sts));
  }

  lemma OwedIsJobs(m: Machine, jobs: map<nat, Job>, dir: Direction, n: nat)
    requires ShortBy(m, [], 0, n) && Compiled(m.sys.trace.plans, jobs, dir)
    ensures var order := m.sys.trace.order;
            && (forall j :: 0 <= j < |order| ==>
                  order[j] in jobs && PayloadFits(jobs[order[j]].xfer) && WellFormed(jobs[order[j]].xfer))
            && (Held(m) == JobBursts(order, jobs, dir, |order|) <==> n == 0)
  {
    hide Held, JobBursts, AllChunks, Plan, PayloadFits, WellFormed;
    assert m.sys.trace.order[0..] == m.sys.trace.order;
    AllFlatten(m.sys.trace.order, m.sys.trace.plans, jobs, dir, |m.sys.trace.order|);
  }

  /** A channel on which nothing waits and nothing is in flight holds what was executed, and no more. */
  lemma DrainedHeld(m: Machine)
    requires Queue(m.sys.chan) == [] && m.sys.flight == []
    ensures Held(m) == m.executed
  {
    NoBursts();
  }

  /**
   Whatever the interleaving of submissions, calls, interrupts and entries fetched: when a channel has
   completed all it was given and nothing is in flight, it executed exactly the bursts of the submitted
   requests, request after request in submission order, if and only if no step of the run lost a burst.
   Then memory is, off the list region, what these requests make of it.
   */
  lemma RunMeaning(x: Setting, sts: seq<Step>, jobs: map<nat, Job>)
    requires Steps(x, PowerUp(x), sts) && Compiled(Final(x, PowerUp(x), sts).sys.trace.plans, jobs, x.dir)
    requires Queue(Final(x, PowerUp(x), sts).sys.chan) == [] && Final(x, PowerUp(x), sts).sys.flight == []
    ensures var m := Final(x, PowerUp(x), sts);
            var order := m.sys.trace.order;
            && (forall j :: 0 <= j < |order| ==>
                  order[j] in jobs && PayloadFits(jobs[order[j]].xfer) && WellFormed(jobs[order[j]].xfer))
            && var bursts := JobBursts(order, jobs, x.dir, |order|);
               && (m.executed == bursts <==> LostIn(x, PowerUp(x), sts) == 0)
               && (LostIn(x, PowerUp(x), sts) == 0 ==> AgreeOff(m.world, RunBursts(x.dir, x.start, bursts), x.region))
  {
    AllAccounted(x, sts, jobs);
    MemoryAlways(x, sts);
    hide Steps, Final, LostIn, Held, AgreeOff, JobBursts, Compiled;
    DrainedHeld(Final(x, PowerUp(x), sts));
  }

  /**
   Why a chunk must not be started while another is in flight: written over it, a chunk of the opposite
   cycle bit leaves the engine nothing to fetch for the one it was working on.
   */
  lemma SecondStartHides(x: Setting, w: World, c: ChunkValue, next: ChunkValue)
    requires Servable(x.dir, [next], x.region) && next.bursts != [] && next.cb == !c.cb
    ensures Walk(WordsAt(Publish(x, w, next).dev, x.region), 0, c.cb) == []
  {
    PublishShows(x, w, next);
  }

  // From any state on.

  lemma AgreeTurns(u: World, v: World, r: Region)
    requires AgreeOff(u, v, r)
    ensures AgreeOff(v, u, r)
  {
  }

  /** What a run executed on top of what was executed before is what it did to memory. */
  lemma MemorySince(x: Setting, m: Machine, m': Machine, bs: seq<Burst>)
    requires MachineOk(x, m) && MachineOk(x, m') && m'.executed == m.executed + bs
    requires forall i :: 0 <= i < |bs| ==> Avoids(x.dir, bs[i], x.region)
    ensures AgreeOff(m'.world, RunBursts(x.dir, m.world, bs), x.region)
  {
    hide Inv, AgreeOff, RunTo, Walk, Servable, ChunksServable, Avoids;
    var before := RunBursts(x.dir, x.start, m.executed);
    RunToConcat(x.dir, x.start, m.executed, bs, |bs|);
    AgreeTurns(m.world, before, x.region);
    RunAgrees(x.dir, before, m.world, bs, |bs|, x.region);
    AgreeJoins(m'.world, RunBursts(x.dir, before, bs), RunBursts(x.dir, m.world, bs), x.region);
  }

  /** The driver calls and interrupts of a run. */
  function Events(sts: seq<Step>): seq<Event> {
    if sts == [] then []
    else if sts[0].Driver? then [sts[0].event] + Events(sts[1..])
    else Events(sts[1..])
  }

  /** With the engine's steps left out a run is a run of the channel, so all that holds of those holds here. */
  lemma {:induction false} ChannelRun(x: Setting, m: Machine, sts: seq<Step>)
    requires Steps(x, m, sts)
    ensures Runs(m.sys, Events(sts)) && Exec(m.sys, Events(sts)) == Final(x, m, sts).sys
    decreases |sts|
  {
    hide Next, Listed, Proper, Enabled;
    if sts != [] {
      ChannelRun(x, Move(x, m, sts[0]), sts[1..]);
      if sts[0].Driver? {
        assert ([sts[0].event] + Events(sts[1..]))[1..] == Events(sts[1..]);
      }
    }
  }

  /** Where no terminate forgets a chunk, nothing is in flight once nothing is queued. */
  lemma NothingLeft(x: Setting, m: Machine, sts: seq<Step>)
    requires Steps(x, m, sts) && MachineOk(x, m) && m.sys.flight == []
    requires Runs(m.sys, Events(sts)) && NeverPremature(m.sys, Events(sts))
    requires Queue(Final(x, m, sts).sys.chan) == []
    ensures Final(x, m, sts).sys.flight == []
  {
    NothingInFlight(m.sys);
    ChannelRun(x, m, sts);
    hide Steps, Final, Inv, Runs, Exec, NeverPremature;
    RunKeepsFlight(m.sys, Events(sts));
  }

  /** No aborts, lost interrupts and terminates. */
  predicate Plain(sts: seq<Step>) {
    forall i :: 0 <= i < |sts| && sts[i].Driver? ==>
      !sts[i].event.Abort? && !sts[i].event.LoseInterrupt? && !sts[i].event.Terminate?
  }

  lemma PlainParts(sts: seq<Step>)
    requires Plain(sts) && sts != []
    ensures Plain([sts[0]]) && Plain(sts[1..])
  {
  }

  lemma PlainStep(x: Setting, m: Machine, st: Step)
    requires MachineOk(x, m) && Possible(x, m, st) && Plain([st])
    requires FlightOk(m.sys) && m.sys.chan.request != StopRequest
    ensures FlightOk(Move(x, m, st).sys) && Move(x, m, st).sys.chan.request != StopRequest && Lost(x, m, st) == []
  {
    if st.Driver? {
      assert [st][0] == st;
      FlightKeptIff(m.sys, st.event);
      StartsAlone(m.sys, st.event);
      OnlyLossyLoses(x, m, st.event);
      NoStop(m.sys, st.event);
    }
    hide FlightOk, Inv, ChunksServable, ImageOk, Next, Enabled, Listed, Lost, StartsOver;
  }

  lemma NoStop(s: Sys, e: Event)
    requires Enabled(s, e) && !e.Terminate? && s.chan.request != StopRequest
    ensures Next(s, e).chan.request != StopRequest
  {
    hide Progressed, Started;
  }

  /** Runs of submissions, issues, pauses, resumes and done interrupts never lose a burst. */
  lemma {:induction false} PlainRunLosesNothing(x: Setting, m: Machine, sts: seq<Step>)
    requires Steps(x, m, sts) && MachineOk(x, m) && Plain(sts)
    requires FlightOk(m.sys) && m.sys.chan.request != StopRequest
    ensures LostIn(x, m, sts) == 0 && FlightOk(Final(x, m, sts).sys)
    decreases |sts|
  {
    if sts != [] {
      hide MachineOk, Possible, Proper, Move, FlightOk, Lost, Plain;
      PlainParts(sts);
      MachineKept(x, m, sts[0]);
      PlainStep(x, m, sts[0]);
      PlainRunLosesNothing(x, Move(x, m, sts[0]), sts[1..]);
    }
  }

  /** A machine with nothing queued and nothing in flight owes nothing since. */
  lemma NothingOwed(x: Setting, m: Machine)
    requires MachineOk(x, m) && Queue(m.sys.chan) == [] && m.sys.flight == []
    ensures ShortBy(m, m.executed, |m.sys.trace.order|, 0)
  {
    KnownPlans(m.sys);
    DrainedHeld(m);
    NoBursts();
    assert m.executed + [] == m.executed;
    hide Inv, BurstsIn, Held;
  }

  /**
   A channel on which nothing is queued or in flight is given one descriptor. In every run, once nothing is
   queued again, that descriptor is the one completed last; and when nothing is in flight, the engine executed
   exactly its bursts if and only if none was lost, and then memory changed by exactly these.
   */
  lemma OwnTransfer(x: Setting, m: Machine, sts: seq<Step>, id: nat)
    requires MachineOk(x, m) && Queue(m.sys.chan) == [] && m.sys.flight == [] && Steps(x, m, sts)
    requires Final(x, m, sts).sys.trace.order == m.sys.trace.order + [id] && Queue(Final(x, m, sts).sys.chan) == []
    ensures var t := Final(x, m, sts);
            && id in t.sys.trace.plans
            && t.sys.trace.freed + Ids(t.sys.chan.completed) == m.sys.trace.order + [id]
            && (t.sys.flight == [] ==> OwnOutcome(x, m, t, BurstsIn(t.sys.trace.plans[id]), LostIn(x, m, sts)))
  {
    hide Steps, Final, LostIn, MachineOk, Queue, BurstsIn, ShortBy, Ids, OwnOutcome;
    StepsKeep(x, m, sts);
    NothingOwed(x, m);
    RunShort(x, m, sts, m.executed, |m.sys.trace.order|, 0);
    OwnEnd(x, m, Final(x, m, sts), id, LostIn(x, m, sts));
  }

  /** These bursts were executed and no others since, if and only if none was lost; memory changed accordingly. */
  ghost predicate OwnOutcome(x: Setting, m: Machine, t: Machine, bs: seq<Burst>, lost: nat) {
    && (t.executed == m.executed + bs <==> lost == 0)
    && (lost == 0 && (forall i :: 0 <= i < |bs| ==> Avoids(x.dir, bs[i], x.region)) ==>
          AgreeOff(t.world, RunBursts(x.dir, m.world, bs), x.region))
  }

  lemma NothingInFlight(s: Sys)
    requires s.flight == []
    ensures FlightOk(s)
  {
  }

  lemma OwnEnd(x: Setting, m: Machine, t: Machine, id: nat, lost: nat)
    requires MachineOk(x, m) && MachineOk(x, t) && Queue(t.sys.chan) == []
    requires ShortBy(t, m.executed, |m.sys.trace.order|, lost) && t.sys.trace.order == m.sys.trace.order + [id]
    ensures id in t.sys.trace.plans
    ensures t.sys.trace.freed + Ids(t.sys.chan.completed) == m.sys.trace.order + [id]
    ensures t.sys.flight == [] ==> OwnOutcome(x, m, t, BurstsIn(t.sys.trace.plans[id]), lost)
  {
    Completed(t.sys);
    hide Inv, ChunksServable, ImageOk, Queue, BurstsIn, AgreeOff, Avoids, Ids, Held, RunTo, OwedFrom;
    OwedOne(t.sys.trace, m.sys.trace.order, id);
    if t.sys.flight == [] {
      DrainedHeld(t);
      var bs := BurstsIn(t.sys.trace.plans[id]);
      if lost == 0 && (forall i :: 0 <= i < |bs| ==> Avoids(x.dir, bs[i], x.region)) {
        MemorySince(x, m, t, bs);
      }
    }
  }

  lemma OwedOne(t: Trace, before: seq<nat>, id: nat)
    requires t.order == before + [id] && forall j :: 0 <= j < |t.order| ==> t.order[j] in t.plans
    ensures t.order[|before|] == id && OwedFrom(t, |before|) == t.plans[id]
  {
    assert t.order[|before|..] == [id];
    assert AllChunks([id], t.plans, 0) == [];
  }

  lemma Completed(s: Sys)
    requires Inv(s) && Queue(s.chan) == []
    ensures s.trace.freed + Ids(s.chan.completed) == s.trace.order
  {
    hide IdsOk, CookiesOk, PreparedOk, QueueOk, UntouchedFrom, StartsOk;
    var all := s.trace.freed + Ids(s.chan.completed);
    forall j | 0 <= j < |all|
      ensures all[j] == s.trace.order[j]
    {
    }
  }
}
