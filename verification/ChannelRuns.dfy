/**
 Runs of a channel together with its engine and its clients.

 A run is any sequence of driver calls and interrupts. The engine raises at most one interrupt for a
 chunk it was handed (or loses it); asked whether it is finished, it may answer anything at any time.
 */
module ChannelRuns {
  import opened Words
  import opened Bursts
  import opened Heap
  import opened Cookies
  import opened ChannelSpec

  /**
   What has happened so far: the chunks of every descriptor prepared, the descriptors submitted, how
   many chunks of each submission were started, the descriptors already freed, the chunks started.
   */
  datatype Trace = Trace(
    plans: map<nat, seq<ChunkValue>>,
    order: seq<nat>,
    begun: seq<nat>,
    freed: seq<nat>,
    starts: seq<Start>)

  /** The channel, the chunks the engine holds, whether an interrupt was lost, and the record of the run. */
  datatype Sys = Sys(chan: Chan, flight: seq<Start>, lost: bool, trace: Trace)

  datatype Event =
    | Config
    | Prep(desc: DescValue)
    | SubmitNth(k: nat)
    | Issue
    | Done
    | Abort
    | LoseInterrupt
    | PauseCall
    | ResumeCall
    | Terminate(hwComplete: bool)
    | Tasklet

  function Init(): Sys {
    Sys(InitialChan(), [], false, Trace(map[], [], [], [], []))
  }

  /** Bytes in the first n chunks of a plan. */
  function SumTo(plan: seq<ChunkValue>, n: nat): nat
    requires n <= |plan|
  {
    if n == 0 then 0 else SumTo(plan, n - 1) + plan[n - 1].sz
  }

  /** A descriptor of which the first n chunks have been handed over. */
  predicate Progressed(d: DescValue, plan: seq<ChunkValue>, n: nat) {
    && n <= |plan| && d.chunks == plan[n..]
    && d.xferSz == Wrap32(SumTo(plan, n)) && d.allocSz == Wrap32(SumTo(plan, |plan|))
  }

  predicate Enabled(s: Sys, e: Event) {
    match e
    case Prep(d) => s.chan.configured && d.id !in s.trace.plans && d.chunks != [] && Progressed(d, d.chunks, 0)
    case SubmitNth(k) => k < |s.chan.prepared|
    case Done => s.flight != []
    case Abort => s.flight != []
    case LoseInterrupt => s.flight != []
    case _ => true
  }

  /** The submission the head of the issued list came from. */
  function HeadIndex(c: Chan, t: Trace): nat {
    |t.freed| + |c.completed|
  }

  /** Records a chunk handed over by the head of the issued list. */
  function Started(c: Chan, t: Trace, start: Start): Trace {
    var h := HeadIndex(c, t);
    t.(begun := if h < |t.begun| then t.begun[h := t.begun[h] + 1] else t.begun, starts := t.starts + [start])
  }

  /** The system after a driver step, given what of the earlier flight is left. */
  function After(s: Sys, o: Outcome, flight: seq<Start>): Sys {
    var lost := s.lost && o.chan.status == Busy;
    match o.start
    case None => Sys(o.chan, flight, lost, s.trace)
    case Some(start) => Sys(o.chan, flight + [start], lost, Started(o.chan, s.trace, start))
  }

  function Next(s: Sys, e: Event): Sys
    requires Enabled(s, e)
  {
    match e
    case Config => s.(chan := Configure(s.chan))
    case Prep(d) => s.(chan := Prepare(s.chan, d), trace := s.trace.(plans := s.trace.plans[d.id := d.chunks]))
    case SubmitNth(k) => s.(chan := Submit(s.chan, k), trace := Submitted(s.trace, s.chan.prepared[k].id))
    case Issue => After(s, IssuePending(s.chan), s.flight)
    case Done => After(s, DoneInterrupt(s.chan), s.flight[1..])
    case Abort => After(s, Outcome(AbortInterrupt(s.chan), None), s.flight[1..])
    case LoseInterrupt => s.(flight := s.flight[1..], lost := s.chan.status == Busy)
    case PauseCall => s.(chan := RequestPause(s.chan).0)
    case ResumeCall => After(s, Resume(s.chan).0, s.flight)
    case Terminate(hwComplete) => After(s, Outcome(TerminateAll(s.chan, hwComplete).0, None), s.flight)
    case Tasklet => s.(chan := RunTasklet(s.chan), trace := s.trace.(freed := s.trace.freed + Ids(s.chan.completed)))
  }

  function Submitted(t: Trace, id: nat): Trace {
    t.(order := t.order + [id], begun := t.begun + [0])
  }

  function Ids(ds: seq<DescValue>): (r: seq<nat>)
    ensures |r| == |ds|
  {
    seq(|ds|, i requires 0 <= i < |ds| => ds[i].id)
  }

  /** Whether each event of a run was enabled when it happened. */
  ghost predicate Runs(s: Sys, es: seq<Event>)
    decreases |es|
  {
    es == [] || (Enabled(s, es[0]) && Runs(Next(s, es[0]), es[1..]))
  }

  /** The state after a run. */
  ghost function Exec(s: Sys, es: seq<Event>): Sys
    requires Runs(s, es)
    decreases |es|
  {
    if es == [] then s else Exec(Next(s, es[0]), es[1..])
  }

  // Control: who is busy, and with what.

  /** At most one chunk is in flight, and then its descriptor heads the issued list of a busy, configured channel. */
  predicate FlightOk(s: Sys) {
    && |s.flight| <= 1
    && (s.flight != [] ==>
          && s.chan.status == Busy && s.chan.configured
          && s.chan.issued != [] && s.chan.issued[0].id == s.flight[0].id
          && s.trace.starts != [] && s.trace.starts[|s.trace.starts| - 1] == s.flight[0])
  }

  /** The head of the issued list has no chunk left to start. */
  predicate HeadSpent(c: Chan) {
    c.issued != [] && c.issued[0].chunks == []
  }

  /**
   A busy channel has a chunk in flight, lost its interrupt, or is stuck on a spent head; a busy or
   paused channel, and one with a request pending, has a descriptor issued.
   */
  predicate BusyOk(s: Sys) {
    && (s.chan.status == Busy ==> s.flight != [] || s.lost || HeadSpent(s.chan))
    && (s.chan.status != Idle || s.chan.request != NoRequest ==> s.chan.issued != [])
  }

  lemma BusyKept(s: Sys, e: Event)
    requires Enabled(s, e) && BusyOk(s)
    ensures BusyOk(Next(s, e))
  {
    hide Progressed, Started;
  }

  /** A terminate that is told the engine has finished while a chunk is still in flight. */
  predicate Premature(s: Sys, e: Event) {
    e == Terminate(true) && s.flight != []
  }

  /** The one way to lose track of the chunk in flight. */
  lemma FlightKeptIff(s: Sys, e: Event)
    requires Enabled(s, e) && FlightOk(s) && BusyOk(s)
    ensures FlightOk(Next(s, e)) <==> !Premature(s, e)
  {
    hide Progressed;
  }

  // Data: the order of descriptors, their cookies and their progress.

  /** Every submitted descriptor not yet completed, in the order of service. */
  function Queue(c: Chan): seq<DescValue> {
    c.issued + c.submitted
  }

  /** The freed, the completed and the queued descriptors, in that order, are the submissions. */
  predicate OrderOk(order: seq<nat>, freed: seq<nat>, completed: seq<DescValue>, queue: seq<DescValue>) {
    && |order| == |freed| + |completed| + |queue| && freed == order[..|freed|]
    && (forall j :: 0 <= j < |completed| ==> completed[j].id == order[|freed| + j])
    && (forall j :: 0 <= j < |queue| ==> queue[j].id == order[|freed| + |completed| + j])
  }

  predicate NoDup(ids: seq<nat>) {
    forall i, j :: 0 <= i < j < |ids| ==> ids[i] != ids[j]
  }

  /** No descriptor was submitted twice, or is prepared as well as submitted. */
  predicate IdsOk(order: seq<nat>, prepared: seq<DescValue>, plans: map<nat, seq<ChunkValue>>) {
    && NoDup(order)
    && (forall i :: 0 <= i < |order| ==> order[i] in plans)
    && (forall i :: 0 <= i < |prepared| ==> prepared[i].id in plans && prepared[i].id !in order)
    && (forall i, j :: 0 <= i < j < |prepared| ==> prepared[i].id != prepared[j].id)
  }

  /** The first `done` of all submissions are completed; queued submission n carries the n-th cookie. */
  predicate CookiesOk(used: int, completed: int, queue: seq<DescValue>, done: nat) {
    && used == CookieOf(done + |queue|) && completed == CookieOf(done)
    && forall j :: 0 <= j < |queue| ==> queue[j].cookie == CookieOf(done + j + 1)
  }

  /** Nothing was handed over yet of a prepared descriptor. */
  predicate PreparedOk(prepared: seq<DescValue>, plans: map<nat, seq<ChunkValue>>) {
    && (forall i :: 0 <= i < |prepared| ==>
          prepared[i].id in plans && Progressed(prepared[i], plans[prepared[i].id], 0))
    && (forall id :: id in plans ==> plans[id] != [])
  }

  /** Of each queued descriptor, as much was handed over as is recorded. */
  predicate QueueOk(queue: seq<DescValue>, plans: map<nat, seq<ChunkValue>>, begun: seq<nat>, done: nat) {
    && |begun| == done + |queue|
    && forall j :: 0 <= j < |queue| ==>
         queue[j].id in plans && Progressed(queue[j], plans[queue[j].id], begun[done + j])
  }

  /** Nothing was handed over of any submission from number n on. */
  predicate UntouchedFrom(begun: seq<nat>, n: nat) {
    forall k :: n <= k < |begun| ==> begun[k] == 0
  }

  /** The first n starts of a descriptor: its chunks in order, set up when nothing is recorded as transferred. */
  function PlanStarts(id: nat, plan: seq<ChunkValue>, n: nat): seq<Start>
    requires n <= |plan|
  {
    if n == 0 then [] else
      PlanStarts(id, plan, n - 1) + [Start(id, plan[n - 1], Wrap32(SumTo(plan, n - 1)) == 0)]
  }

  predicate Recorded(order: seq<nat>, begun: seq<nat>, plans: map<nat, seq<ChunkValue>>) {
    && |begun| == |order|
    && forall j :: 0 <= j < |order| ==> order[j] in plans && begun[j] <= |plans[order[j]]|
  }

  /** What the first n submissions started, submission by submission. */
  function StartLog(order: seq<nat>, begun: seq<nat>, plans: map<nat, seq<ChunkValue>>, n: nat): seq<Start>
    requires n <= |order| && Recorded(order, begun, plans)
  {
    if n == 0 then [] else
      StartLog(order, begun, plans, n - 1) + PlanStarts(order[n - 1], plans[order[n - 1]], begun[n - 1])
  }

  /** The engine was handed a prefix of every submission's chunks, and in submission order. */
  predicate StartsOk(starts: seq<Start>, order: seq<nat>, begun: seq<nat>, plans: map<nat, seq<ChunkValue>>) {
    Recorded(order, begun, plans) && starts == StartLog(order, begun, plans, |order|)
  }

  predicate DataOk(c: Chan, t: Trace) {
    var queue := Queue(c);
    var done := HeadIndex(c, t);
    && OrderOk(t.order, t.freed, c.completed, queue)
    && IdsOk(t.order, c.prepared, t.plans)
    && CookiesOk(c.used, c.completedCookie, queue, done)
    && PreparedOk(c.prepared, t.plans)
    && QueueOk(queue, t.plans, t.begun, done)
    && UntouchedFrom(t.begun, done + (if c.issued == [] then 0 else 1))
    && StartsOk(t.starts, t.order, t.begun, t.plans)
  }

  lemma {:induction false} LogFrame(order: seq<nat>, begun: seq<nat>, plans: map<nat, seq<ChunkValue>>,
                                    order': seq<nat>, begun': seq<nat>, plans': map<nat, seq<ChunkValue>>, n: nat)
    requires Recorded(order, begun, plans) && Recorded(order', begun', plans') && n <= |order| && n <= |order'|
    requires forall j :: 0 <= j < n ==>
      order[j] == order'[j] && begun[j] == begun'[j] && plans[order[j]] == plans'[order[j]]
    ensures StartLog(order, begun, plans, n) == StartLog(order', begun', plans', n)
  {
    if n > 0 {
      LogFrame(order, begun, plans, order', begun', plans', n - 1);
    }
  }

  /** Submissions of which nothing was started add nothing to the log. */
  lemma {:induction false} LogRest(order: seq<nat>, begun: seq<nat>, plans: map<nat, seq<ChunkValue>>, m: nat, n: nat)
    requires Recorded(order, begun, plans) && m <= n <= |order| && UntouchedFrom(begun, m)
    ensures StartLog(order, begun, plans, n) == StartLog(order, begun, plans, m)
  {
    if m < n {
      LogRest(order, begun, plans, m, n - 1);
    }
  }

  /** Starting the next chunk of submission h, while nothing later was started, appends to the log. */
  lemma LogStart(starts: seq<Start>, order: seq<nat>, begun: seq<nat>, plans: map<nat, seq<ChunkValue>>,
                 h: nat, start: Start)
    requires StartsOk(starts, order, begun, plans) && h < |order| && begun[h] < |plans[order[h]]|
    requires UntouchedFrom(begun, h + 1)
    requires start == Start(order[h], plans[order[h]][begun[h]], Wrap32(SumTo(plans[order[h]], begun[h])) == 0)
    ensures StartsOk(starts + [start], order, begun[h := begun[h] + 1], plans)
    ensures UntouchedFrom(begun[h := begun[h] + 1], h + 1)
  {
    var after := begun[h := begun[h] + 1];
    LogRest(order, begun, plans, h + 1, |order|);
    LogRest(order, after, plans, h + 1, |order|);
    LogFrame(order, begun, plans, order, after, plans, h);
    var plan := plans[order[h]];
    var before := StartLog(order, begun, plans, h);
    var own := PlanStarts(order[h], plan, begun[h]);
    assert before + (own + [start]) == before + own + [start];
  }

  // Handing over a chunk of the head.

  lemma HeadProgresses(c: Chan, plan: seq<ChunkValue>, n: nat)
    requires c.issued != [] && c.issued[0].chunks != [] && Progressed(c.issued[0], plan, n)
    ensures n < |plan|
    ensures var o := StartTransfer(c);
            && o.chan.issued == c.issued[0 := o.chan.issued[0]] && Progressed(o.chan.issued[0], plan, n + 1)
            && o.chan.issued[0].id == c.issued[0].id && o.chan.issued[0].cookie == c.issued[0].cookie
            && o.start == Some(Start(c.issued[0].id, plan[n], Wrap32(SumTo(plan, n)) == 0))
  {
    Add32Wraps(SumTo(plan, n), plan[n].sz);
  }

  /** The queue with its head advanced. */
  lemma QueueAdvances(queue: seq<DescValue>, d: DescValue, order: seq<nat>, freed: seq<nat>, completed: seq<DescValue>,
                      plans: map<nat, seq<ChunkValue>>, begun: seq<nat>)
    requires OrderOk(order, freed, completed, queue) && queue != []
    requires var done := |freed| + |completed|;
             && QueueOk(queue, plans, begun, done) && d.id == queue[0].id
             && Progressed(d, plans[d.id], begun[done] + 1)
    ensures var done := |freed| + |completed|;
            && OrderOk(order, freed, completed, queue[0 := d])
            && QueueOk(queue[0 := d], plans, begun[done := begun[done] + 1], done)
  {
    hide Progressed;
  }

  lemma CookiesStay(used: int, completed: int, queue: seq<DescValue>, done: nat, d: DescValue)
    requires CookiesOk(used, completed, queue, done) && queue != [] && d.cookie == queue[0].cookie
    ensures CookiesOk(used, completed, queue[0 := d], done)
  {
    hide CookieOf;
  }

  lemma StartKeeps(c: Chan, t: Trace)
    requires DataOk(c, t) && c.issued != [] && c.issued[0].chunks != []
    ensures var o := StartTransfer(c); o.start.Some? && DataOk(o.chan, Started(o.chan, t, o.start.value))
  {
    hide IdsOk, CookiesOk, PreparedOk, UntouchedFrom, StartsOk, SumTo, Wrap32, Progressed;
    var done := HeadIndex(c, t);
    var head := c.issued[0];
    assert Queue(c)[0] == head;
    HeadProgresses(c, t.plans[head.id], t.begun[done]);
    var o := StartTransfer(c);
    LogStart(t.starts, t.order, t.begun, t.plans, done, o.start.value);
    QueueAdvances(Queue(c), o.chan.issued[0], t.order, t.freed, c.completed, t.plans, t.begun);
    CookiesStay(c.used, c.completedCookie, Queue(c), done, o.chan.issued[0]);
    hide OrderOk, QueueOk;
    assert Queue(o.chan) == Queue(c)[0 := o.chan.issued[0]];
  }

  // Completing the head.

  lemma QueueShrinks(queue: seq<DescValue>, order: seq<nat>, freed: seq<nat>, completed: seq<DescValue>,
                     plans: map<nat, seq<ChunkValue>>, begun: seq<nat>)
    requires OrderOk(order, freed, completed, queue) && queue != []
    requires QueueOk(queue, plans, begun, |freed| + |completed|)
    ensures OrderOk(order, freed, completed + [queue[0].(cookie := 0)], queue[1..])
    ensures QueueOk(queue[1..], plans, begun, |freed| + |completed| + 1)
  {
    hide Progressed;
    forall j | 0 <= j < |queue| - 1
      ensures queue[1..][j] == queue[j + 1]
    {
    }
  }

  lemma CookiesAdvance(used: int, completed: int, queue: seq<DescValue>, done: nat)
    requires CookiesOk(used, completed, queue, done) && queue != []
    ensures CookiesOk(used, queue[0].cookie, queue[1..], done + 1)
  {
    hide CookieOf;
    forall j | 0 <= j < |queue| - 1
      ensures queue[1..][j] == queue[j + 1]
    {
    }
  }

  lemma CompleteKeeps(c: Chan, t: Trace)
    requires DataOk(c, t) && c.issued != []
    ensures DataOk(CompleteHead(c), t)
  {
    assert Queue(c)[0] == c.issued[0];
    QueueShrinks(Queue(c), t.order, t.freed, c.completed, t.plans, t.begun);
    CookiesAdvance(c.used, c.completedCookie, Queue(c), HeadIndex(c, t));
    assert UntouchedFrom(t.begun, HeadIndex(c, t) + 2);
    hide IdsOk, OrderOk, CookiesOk, PreparedOk, QueueOk, StartsOk;
    assert Queue(CompleteHead(c)) == Queue(c)[1..];
  }

  /** Issuing moves the submitted descriptors behind the issued ones. */
  lemma SpliceKeeps(c: Chan, t: Trace)
    requires DataOk(c, t)
    ensures DataOk(c.(issued := c.issued + c.submitted, submitted := []), t)
  {
    hide IdsOk, OrderOk, CookiesOk, PreparedOk, QueueOk, StartsOk;
    assert Queue(c.(issued := c.issued + c.submitted, submitted := [])) == Queue(c);
  }

  // Submitting.

  lemma SubmitIds(c: Chan, t: Trace, k: nat)
    requires IdsOk(t.order, c.prepared, t.plans) && PreparedOk(c.prepared, t.plans) && k < |c.prepared|
    ensures IdsOk(t.order + [c.prepared[k].id], Submit(c, k).prepared, t.plans)
    ensures PreparedOk(Submit(c, k).prepared, t.plans)
  {
    hide Progressed;
    var rest := Submit(c, k).prepared;
    forall i | 0 <= i < |rest|
      ensures rest[i] == c.prepared[if i < k then i else i + 1]
    {
    }
  }

  lemma QueueGrows(queue: seq<DescValue>, d: DescValue, order: seq<nat>, freed: seq<nat>, completed: seq<DescValue>,
                   plans: map<nat, seq<ChunkValue>>, begun: seq<nat>)
    requires OrderOk(order, freed, completed, queue) && QueueOk(queue, plans, begun, |freed| + |completed|)
    requires d.id in plans && Progressed(d, plans[d.id], 0)
    ensures OrderOk(order + [d.id], freed, completed, queue + [d])
    ensures QueueOk(queue + [d], plans, begun + [0], |freed| + |completed|)
  {
    hide Progressed;
  }

  lemma SubmitLogged(t: Trace, id: nat)
    requires StartsOk(t.starts, t.order, t.begun, t.plans) && id in t.plans
    ensures StartsOk(t.starts, t.order + [id], t.begun + [0], t.plans)
  {
    LogFrame(t.order, t.begun, t.plans, t.order + [id], t.begun + [0], t.plans, |t.order|);
  }

  lemma CookiesGrow(used: s32, completed: int, queue: seq<DescValue>, done: nat, d: DescValue)
    requires CookiesOk(used, completed, queue, done) && d.cookie == NextCookie(used)
    ensures CookiesOk(d.cookie, completed, queue + [d], done)
  {
    NextCookieCounts(done + |queue|);
    hide CookieOf, NextCookie;
  }

  lemma SubmitKeeps(c: Chan, t: Trace, k: nat)
    requires DataOk(c, t) && k < |c.prepared|
    ensures DataOk(Submit(c, k), Submitted(t, c.prepared[k].id))
  {
    var d := c.prepared[k].(cookie := NextCookie(c.used));
    SubmitIds(c, t, k);
    QueueGrows(Queue(c), d, t.order, t.freed, c.completed, t.plans, t.begun);
    SubmitLogged(t, d.id);
    CookiesGrow(c.used, c.completedCookie, Queue(c), HeadIndex(c, t), d);
    assert UntouchedFrom(t.begun + [0], HeadIndex(c, t) + (if c.issued == [] then 0 else 1));
    hide IdsOk, OrderOk, CookiesOk, PreparedOk, QueueOk, StartsOk, UntouchedFrom, NextCookie;
    assert Queue(Submit(c, k)) == Queue(c) + [d];
  }

  // Preparing.

  lemma PlansGrow(t: Trace, d: DescValue, prepared: seq<DescValue>, queue: seq<DescValue>, done: nat)
    requires IdsOk(t.order, prepared, t.plans) && PreparedOk(prepared, t.plans)
    requires QueueOk(queue, t.plans, t.begun, done)
    requires d.id !in t.plans && d.chunks != [] && Progressed(d, d.chunks, 0)
    ensures var plans := t.plans[d.id := d.chunks];
            && IdsOk(t.order, prepared + [d], plans) && PreparedOk(prepared + [d], plans)
            && QueueOk(queue, plans, t.begun, done)
  {
    hide Progressed;
  }

  lemma PrepareLogged(t: Trace, id: nat, plan: seq<ChunkValue>)
    requires StartsOk(t.starts, t.order, t.begun, t.plans) && id !in t.plans
    ensures StartsOk(t.starts, t.order, t.begun, t.plans[id := plan])
  {
    LogFrame(t.order, t.begun, t.plans, t.order, t.begun, t.plans[id := plan], |t.order|);
  }

  lemma PrepareKeeps(c: Chan, t: Trace, d: DescValue)
    requires DataOk(c, t) && d.id !in t.plans && d.chunks != [] && Progressed(d, d.chunks, 0)
    ensures DataOk(Prepare(c, d), t.(plans := t.plans[d.id := d.chunks]))
  {
    hide IdsOk, OrderOk, PreparedOk, QueueOk, StartsOk, CookiesOk, Progressed, UntouchedFrom;
    PrepareLogged(t, d.id, d.chunks);
    PlansGrow(t, d, c.prepared, Queue(c), HeadIndex(c, t));
  }

  // Freeing the completed descriptors.

  lemma OrderFreed(order: seq<nat>, freed: seq<nat>, completed: seq<DescValue>, queue: seq<DescValue>)
    requires OrderOk(order, freed, completed, queue)
    ensures OrderOk(order, freed + Ids(completed), [], queue)
  {
    forall j | 0 <= j < |completed|
      ensures Ids(completed)[j] == order[|freed| + j]
    {
    }
    assert freed + Ids(completed) == order[..|freed| + |completed|];
  }

  lemma TaskletKeeps(c: Chan, t: Trace)
    requires DataOk(c, t)
    ensures DataOk(RunTasklet(c), t.(freed := t.freed + Ids(c.completed)))
  {
    OrderFreed(t.order, t.freed, c.completed, Queue(c));
    hide IdsOk, OrderOk, PreparedOk, QueueOk, StartsOk, CookiesOk, UntouchedFrom;
  }

  /** Fields the data does not depend on. */
  lemma ControlOnly(c: Chan, d: Chan, t: Trace)
    requires DataOk(c, t)
    requires d == c.(configured := d.configured, request := d.request, status := d.status)
    ensures DataOk(d, t)
  {
    hide IdsOk, OrderOk, PreparedOk, QueueOk, StartsOk, CookiesOk, UntouchedFrom;
  }
}
