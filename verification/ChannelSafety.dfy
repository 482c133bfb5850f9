/** What holds in every state a channel can reach, whatever the order of calls and interrupts. */
module ChannelSafety {
  import opened Words
  import opened Bursts
  import opened Heap
  import opened Cookies
  import opened ChannelSpec
  import opened ChannelRuns

  ghost predicate Inv(s: Sys) {
    BusyOk(s) && DataOk(s.chan, s.trace)
  }

  ghost predicate Reachable(s: Sys) {
    exists es :: Runs(Init(), es) && Exec(Init(), es) == s
  }

  /** The head starts a chunk if it has one, and the record follows. */
  lemma StartOrNot(c: Chan, t: Trace)
    requires DataOk(c, t)
    ensures var o := StartTransfer(c);
            DataOk(o.chan, if o.start.Some? then Started(o.chan, t, o.start.value) else t)
  {
    if c.issued != [] && c.issued[0].chunks != [] {
      StartKeeps(c, t);
    }
  }

  lemma IssueKeeps(c: Chan, t: Trace)
    requires DataOk(c, t)
    ensures var o := IssuePending(c);
            DataOk(o.chan, if o.start.Some? then Started(o.chan, t, o.start.value) else t)
  {
    hide DataOk, StartTransfer;
    if c.configured {
      var moved := c.(issued := c.issued + c.submitted, submitted := []);
      SpliceKeeps(c, t);
      ControlOnly(moved, moved.(status := Busy), t);
      StartOrNot(moved.(status := Busy), t);
    }
  }

  lemma DoneKeeps(c: Chan, t: Trace)
    requires DataOk(c, t)
    ensures var o := DoneInterrupt(c);
            DataOk(o.chan, if o.start.Some? then Started(o.chan, t, o.start.value) else t)
  {
    hide DataOk, StartTransfer;
    if c.issued != [] {
      CompleteKeeps(c, t);
      match c.request {
        case NoRequest =>
          var next := if c.issued[0].chunks == [] then CompleteHead(c) else c;
          StartOrNot(next, t);
          var o := StartTransfer(next);
          ControlOnly(o.chan, DoneInterrupt(c).chan, if o.start.Some? then Started(o.chan, t, o.start.value) else t);
        case StopRequest => ControlOnly(CompleteHead(c), DoneInterrupt(c).chan, t);
        case PauseRequest => ControlOnly(c, DoneInterrupt(c).chan, t);
      }
    }
  }

  lemma AbortKeeps(c: Chan, t: Trace)
    requires DataOk(c, t)
    ensures DataOk(AbortInterrupt(c), t)
  {
    hide DataOk;
    if c.issued != [] {
      CompleteKeeps(c, t);
    }
    ControlOnly(if c.issued == [] then c else CompleteHead(c), AbortInterrupt(c), t);
  }

  lemma ResumeKeeps(c: Chan, t: Trace)
    requires DataOk(c, t)
    ensures var o := Resume(c).0;
            DataOk(o.chan, if o.start.Some? then Started(o.chan, t, o.start.value) else t)
  {
    hide DataOk, StartTransfer;
    ControlOnly(c, c.(status := Busy), t);
    StartOrNot(c.(status := Busy), t);
  }

  lemma DataKept(s: Sys, e: Event)
    requires Enabled(s, e) && DataOk(s.chan, s.trace)
    ensures DataOk(Next(s, e).chan, Next(s, e).trace)
  {
    hide DataOk, Started, Progressed, DoneInterrupt, IssuePending, AbortInterrupt;
    match e {
      case Prep(d) => PrepareKeeps(s.chan, s.trace, d);
      case SubmitNth(k) => SubmitKeeps(s.chan, s.trace, k);
      case Issue => IssueKeeps(s.chan, s.trace);
      case Done => DoneKeeps(s.chan, s.trace);
      case Abort => AbortKeeps(s.chan, s.trace);
      case ResumeCall => ResumeKeeps(s.chan, s.trace);
      case Tasklet => TaskletKeeps(s.chan, s.trace);
      case _ => ControlOnly(s.chan, Next(s, e).chan, s.trace);
    }
  }

  lemma InvKept(s: Sys, e: Event)
    requires Enabled(s, e) && Inv(s)
    ensures Inv(Next(s, e))
  {
    BusyKept(s, e);
    DataKept(s, e);
  }

  lemma {:induction false} RunKeepsInv(s: Sys, es: seq<Event>)
    requires Runs(s, es) && Inv(s)
    ensures Inv(Exec(s, es))
    decreases |es|
  {
    hide Inv, Next, Enabled;
    if es != [] {
      InvKept(s, es[0]);
      RunKeepsInv(Next(s, es[0]), es[1..]);
    }
  }

  lemma InitInv()
    ensures Inv(Init())
  {
  }

  lemma ReachableInv(s: Sys)
    requires Reachable(s)
    ensures Inv(s)
  {
    hide Inv, Init, Runs, Exec;
    InitInv();
    var es :| Runs(Init(), es) && Exec(Init(), es) == s;
    RunKeepsInv(Init(), es);
  }

  lemma {:induction false} RunStep(s: Sys, es: seq<Event>, e: Event)
    requires Runs(s, es) && Enabled(Exec(s, es), e)
    ensures Runs(s, es + [e]) && Exec(s, es + [e]) == Next(Exec(s, es), e)
    decreases |es|
  {
    hide Next, Enabled;
    if es == [] {
      var t := Next(s, e);
      assert Runs(t, []) && Exec(t, []) == t;
      assert (es + [e])[1..] == [];
    } else {
      RunStep(Next(s, es[0]), es[1..], e);
      assert (es + [e])[1..] == es[1..] + [e];
    }
  }

  lemma StepReachable(s: Sys, e: Event)
    requires Reachable(s) && Enabled(s, e)
    ensures Reachable(Next(s, e))
  {
    var es :| Runs(Init(), es) && Exec(Init(), es) == s;
    hide Next, Enabled;
    RunStep(Init(), es, e);
  }

  // One chunk in flight.

  ghost predicate NeverPremature(s: Sys, es: seq<Event>)
    requires Runs(s, es)
    decreases |es|
  {
    es == [] || (!Premature(s, es[0]) && NeverPremature(Next(s, es[0]), es[1..]))
  }

  lemma {:induction false} RunKeepsFlight(s: Sys, es: seq<Event>)
    requires Runs(s, es) && NeverPremature(s, es) && Inv(s) && FlightOk(s)
    ensures FlightOk(Exec(s, es))
    decreases |es|
  {
    hide DataOk, FlightOk, BusyOk, Premature, Next, Enabled;
    if es != [] {
      InvKept(s, es[0]);
      FlightKeptIff(s, es[0]);
      RunKeepsFlight(Next(s, es[0]), es[1..]);
    }
  }

  /**
   From power-up, in every run in which no terminate is told the engine has finished with a chunk in
   flight, at most one chunk is in flight; the channel is then configured and busy, and the chunk is the
   last one handed over, by the descriptor at the head of the issued list.
   */
  lemma OneInFlight(es: seq<Event>)
    requires Runs(Init(), es) && NeverPremature(Init(), es)
    ensures var s := Exec(Init(), es);
            && |s.flight| <= 1
            && (s.flight != [] ==>
                  && s.chan.status == Busy && s.chan.configured
                  && s.chan.issued != [] && s.chan.issued[0].id == s.flight[0].id
                  && s.trace.starts != [] && s.trace.starts[|s.trace.starts| - 1] == s.flight[0])
  {
    InitInv();
    hide Inv, Runs, Exec, NeverPremature;
    assert FlightOk(Init());
    RunKeepsFlight(Init(), es);
  }

  /**
   Every descriptor is either prepared or was submitted, and only once. Service is in submission order:
   freed, completed, issued and submitted ones make up all submissions.
   */
  lemma FirstInFirstOut(s: Sys)
    requires Reachable(s)
    ensures s.trace.freed + Ids(s.chan.completed) + Ids(s.chan.issued) + Ids(s.chan.submitted) == s.trace.order
    ensures NoDup(s.trace.order) && NoDup(Ids(s.chan.prepared))
    ensures forall i :: 0 <= i < |s.chan.prepared| ==> s.chan.prepared[i].id !in s.trace.order
  {
    ReachableInv(s);
    var c, t := s.chan, s.trace;
    hide IdsOk, CookiesOk, PreparedOk, QueueOk, UntouchedFrom, StartsOk, NoDup;
    var all := t.freed + Ids(c.completed) + Ids(c.issued) + Ids(c.submitted);
    forall j | 0 <= j < |all|
      ensures all[j] == t.order[j]
    {
      if j >= HeadIndex(c, t) {
        assert Queue(c)[j - HeadIndex(c, t)].id == t.order[j];
      }
    }
  }

  /** Callbacks come in submission order: over any run, the j-th descriptor called back is the j-th submitted. */
  lemma CallbacksInOrder(s: Sys, es: seq<Event>, j: nat)
    requires Runs(s, es) && Inv(s) && j < |s.trace.order| && j < |Exec(s, es).trace.freed|
    ensures Exec(s, es).trace.freed[j] == s.trace.order[j]
  {
    RunKeepsInv(s, es);
    RunLater(s, es);
    hide IdsOk, CookiesOk, PreparedOk, QueueOk, UntouchedFrom, StartsOk, BusyOk, Exec, Runs;
  }

  /**
   The outstanding cookies are the circular interval behind the completed one, up to the last used one,
   in submission order; the next to complete is the completed cookie's successor.
   */
  lemma CookiesInterval(s: Sys)
    requires Reachable(s)
    ensures var done := HeadIndex(s.chan, s.trace);
            && s.chan.completedCookie == CookieOf(done) && s.chan.used == CookieOf(done + |Queue(s.chan)|)
            && (forall j :: 0 <= j < |Queue(s.chan)| ==> Queue(s.chan)[j].cookie == CookieOf(done + j + 1))
            && (Queue(s.chan) != [] ==> Queue(s.chan)[0].cookie == NextCookie(CookieOf(done)))
  {
    ReachableInv(s);
    NextCookieCounts(HeadIndex(s.chan, s.trace));
  }

  /** Every submission from number `from` on is still whole. */
  ghost predicate WholeFrom(s: Sys, from: nat) {
    forall j :: from <= j < |Queue(s.chan)| ==>
      && Queue(s.chan)[j].id in s.trace.plans
      && Queue(s.chan)[j].chunks == s.trace.plans[Queue(s.chan)[j].id]
  }

  /**
   Only the head of the issued list can have given chunks away: of it a suffix is left, of every other
   issued, submitted or prepared descriptor all chunks.
   */
  lemma OnlyHeadLosesChunks(s: Sys)
    requires Reachable(s)
    ensures WholeFrom(s, if s.chan.issued == [] then 0 else 1)
    ensures s.chan.issued != [] ==>
              var d := s.chan.issued[0];
              && d.id in s.trace.plans && |d.chunks| <= |s.trace.plans[d.id]|
              && d.chunks == s.trace.plans[d.id][|s.trace.plans[d.id]| - |d.chunks|..]
    ensures forall i :: 0 <= i < |s.chan.prepared| ==>
              var d := s.chan.prepared[i]; d.id in s.trace.plans && d.chunks == s.trace.plans[d.id]
  {
    ReachableInv(s);
    assert s.chan.issued != [] ==> Queue(s.chan)[0] == s.chan.issued[0];
  }

  /** What was handed to the engine: of each submission a prefix of its chunks, submission by submission. */
  lemma StartsInOrder(s: Sys)
    requires Reachable(s)
    ensures Recorded(s.trace.order, s.trace.begun, s.trace.plans)
    ensures s.trace.starts == StartLog(s.trace.order, s.trace.begun, s.trace.plans, |s.trace.order|)
    ensures UntouchedFrom(s.trace.begun, HeadIndex(s.chan, s.trace) + 1)
  {
    ReachableInv(s);
  }

  // What a client is told about a transfer.

  /** Bytes of submission k in chunks not yet handed to the engine. */
  function Remaining(t: Trace, k: nat): nat
    requires Recorded(t.order, t.begun, t.plans) && k < |t.order|
  {
    SumTail(t.plans[t.order[k]], t.begun[k])
  }

  /** Bytes in all but the first n chunks of a plan. */
  function SumTail(plan: seq<ChunkValue>, n: nat): nat
    requires n <= |plan|
    decreases |plan| - n
  {
    if n == |plan| then 0 else plan[n].sz + SumTail(plan, n + 1)
  }

  lemma {:induction false} SumSplits(plan: seq<ChunkValue>, n: nat)
    requires n <= |plan|
    ensures SumTo(plan, n) + SumTail(plan, n) == SumTo(plan, |plan|)
    decreases |plan| - n
  {
    if n < |plan| {
      SumSplits(plan, n + 1);
    }
  }

  lemma {:induction false} FindAt(ds: seq<DescValue>, j: nat)
    requires j < |ds| && forall i :: 0 <= i < j ==> ds[i].cookie != ds[j].cookie
    ensures FindIssued(ds, ds[j].cookie) == Some(ds[j])
  {
    if j > 0 {
      FindAt(ds[1..], j - 1);
    }
  }

  lemma {:induction false} FindNone(ds: seq<DescValue>, cookie: int)
    requires forall i :: 0 <= i < |ds| ==> ds[i].cookie != cookie
    ensures FindIssued(ds, cookie) == None
  {
    if ds != [] {
      FindNone(ds[1..], cookie);
    }
  }

  /** Two different queued submissions carry different cookies, as long as fewer than 2^31 - 1 are queued. */
  lemma QueueCookiesDiffer(c: Chan, queue: seq<DescValue>, done: nat, i: nat, j: nat)
    requires CookiesOk(c.used, c.completedCookie, queue, done) && i < j < |queue| && |queue| < COOKIES
    ensures queue[i].cookie != queue[j].cookie
  {
    if queue[i].cookie == queue[j].cookie {
      CookieUnique(done + i + 1, done + j + 1);
    }
  }

  lemma ResidueOf(d: DescValue, plan: seq<ChunkValue>, n: nat)
    requires Progressed(d, plan, n)
    ensures Sub32(d.allocSz, d.xferSz) == Wrap32(SumTail(plan, n))
  {
    SumSplits(plan, n);
    Sub32Wraps(SumTo(plan, |plan|), SumTo(plan, n));
  }

  /**
   What is reported for submission k, whose cookie is the k-th one counted from 1, while fewer than
   2^31 - 1 submissions came after it: complete exactly when it has completed; otherwise in progress or
   paused, with the bytes not yet handed to the engine as the residue once it is issued, and 0 before.
   */
  lemma ReportFaithful(s: Sys, k: nat)
    requires Reachable(s) && k < |s.trace.order| < k + COOKIES
    requires |Queue(s.chan)| < COOKIES
    ensures Recorded(s.trace.order, s.trace.begun, s.trace.plans)
    ensures var done := HeadIndex(s.chan, s.trace);
            TxStatusOf(s.chan, CookieOf(k + 1)) ==
            if k < done then (Complete, 0)
            else (if s.chan.status == Pause then Paused else InProgress,
                  if k < done + |s.chan.issued| then Wrap32(Remaining(s.trace, k)) else 0)
  {
    ReachableInv(s);
    var c, t := s.chan, s.trace;
    var done := HeadIndex(c, t);
    var cookie := CookieOf(k + 1);
    StatusWithin(cookie, done, |t.order|);
    if k < done {
      forall m | done < m <= |t.order|
        ensures CookieOf(m) != cookie
      {
        if CookieOf(m) == cookie {
          CookieUnique(k + 1, m);
        }
      }
    } else {
      ReportQueued(s, k);
    }
  }

  lemma ReportQueued(s: Sys, k: nat)
    requires Inv(s) && |Queue(s.chan)| < COOKIES
    requires HeadIndex(s.chan, s.trace) <= k < |s.trace.order|
    requires CookieStatus(CookieOf(k + 1), s.chan.completedCookie, s.chan.used) == InProgress
             <==> Outstanding(CookieOf(k + 1), HeadIndex(s.chan, s.trace), |s.trace.order|)
    ensures Recorded(s.trace.order, s.trace.begun, s.trace.plans)
    ensures TxStatusOf(s.chan, CookieOf(k + 1)) ==
            (if s.chan.status == Pause then Paused else InProgress,
             if k < HeadIndex(s.chan, s.trace) + |s.chan.issued| then Wrap32(Remaining(s.trace, k)) else 0)
  {
    var c, t := s.chan, s.trace;
    var queue := Queue(c);
    var done := HeadIndex(c, t);
    var j := k - done;
    assert Outstanding(CookieOf(k + 1), done, |t.order|);
    assert queue[j].cookie == CookieOf(k + 1);
    forall i | 0 <= i < |c.issued| && i != j
      ensures c.issued[i].cookie != CookieOf(k + 1)
    {
      assert queue[i] == c.issued[i];
      if i < j {
        QueueCookiesDiffer(c, queue, done, i, j);
      } else {
        QueueCookiesDiffer(c, queue, done, j, i);
      }
    }
    if j < |c.issued| {
      assert queue[j] == c.issued[j];
      FindAt(c.issued, j);
      ResidueOf(queue[j], t.plans[queue[j].id], t.begun[k]);
    } else {
      FindNone(c.issued, CookieOf(k + 1));
    }
  }

  /** Nothing already recorded changes, and no submission has fewer chunks started than before. */
  ghost predicate Later(t: Trace, u: Trace) {
    && t.order <= u.order && |t.begun| <= |u.begun|
    && (forall id :: id in t.plans ==> id in u.plans && u.plans[id] == t.plans[id])
    && (forall j :: 0 <= j < |t.begun| ==> t.begun[j] <= u.begun[j])
  }

  lemma StepLater(s: Sys, e: Event)
    requires Enabled(s, e)
    ensures Later(s.trace, Next(s, e).trace)
  {
  }

  lemma {:induction false} RunLater(s: Sys, es: seq<Event>)
    requires Runs(s, es)
    ensures Later(s.trace, Exec(s, es).trace)
    decreases |es|
  {
    if es != [] {
      StepLater(s, es[0]);
      RunLater(Next(s, es[0]), es[1..]);
    }
  }

  lemma {:induction false} TailShrinks(plan: seq<ChunkValue>, m: nat, n: nat)
    requires m <= n <= |plan|
    ensures SumTail(plan, n) <= SumTail(plan, m)
    decreases n - m
  {
    if m < n {
      TailShrinks(plan, m + 1, n);
    }
  }

  /** Over any run the bytes left of a submission never grow. */
  lemma RemainingNeverGrows(s: Sys, es: seq<Event>, k: nat)
    requires Runs(s, es) && Inv(s) && k < |s.trace.order|
    ensures Inv(Exec(s, es)) && k < |Exec(s, es).trace.order|
    ensures Remaining(Exec(s, es).trace, k) <= Remaining(s.trace, k)
  {
    RunKeepsInv(s, es);
    RunLater(s, es);
    var t, u := s.trace, Exec(s, es).trace;
    assert u.order[k] == t.order[k];
    TailShrinks(t.plans[t.order[k]], t.begun[k], u.begun[k]);
  }

  // Requests.

  /** A pause or stop can only be pending while the channel is busy. */
  predicate RequestOk(s: Sys) {
    s.chan.request != NoRequest ==> s.chan.status == Busy
  }

  /** The step that forgets a request: the channel is found idle behind the driver's back while one is pending. */
  predicate Forgets(s: Sys, e: Event) {
    e == Terminate(true) && s.chan.configured && s.chan.status == Busy && s.chan.request != NoRequest
  }

  /** The one way to leave a request pending on a channel that is not busy. */
  lemma RequestKeptIff(s: Sys, e: Event)
    requires Enabled(s, e) && Inv(s) && RequestOk(s)
    ensures RequestOk(Next(s, e)) <==> !Forgets(s, e)
  {
    hide DataOk, Started;
  }

  ghost predicate NeverForgets(s: Sys, es: seq<Event>)
    requires Runs(s, es)
    decreases |es|
  {
    es == [] || (!Forgets(s, es[0]) && NeverForgets(Next(s, es[0]), es[1..]))
  }

  lemma {:induction false} RunKeepsRequest(s: Sys, es: seq<Event>)
    requires Runs(s, es) && Inv(s) && RequestOk(s) && NeverForgets(s, es)
    ensures RequestOk(Exec(s, es))
    decreases |es|
  {
    hide Inv, RequestOk, Forgets, Next, Enabled;
    if es != [] {
      InvKept(s, es[0]);
      RequestKeptIff(s, es[0]);
      RunKeepsRequest(Next(s, es[0]), es[1..]);
    }
  }

  // Completion without loss.

  /** Every completed submission had all its chunks handed over. */
  ghost predicate CompletedWhole(c: Chan, t: Trace) {
    forall k :: 0 <= k < HeadIndex(c, t) && k < |t.begun| && k < |t.order| ==>
      t.order[k] in t.plans && t.begun[k] == |t.plans[t.order[k]]|
  }

  /** The steps that complete a descriptor with chunks left: an abort, or a done interrupt with a stop pending. */
  predicate Drops(s: Sys, e: Event) {
    && (e == Abort || (e == Done && s.chan.request == StopRequest))
    && s.chan.issued != [] && s.chan.issued[0].chunks != []
  }

  lemma HeadWhole(c: Chan, t: Trace)
    requires DataOk(c, t) && c.issued != []
    ensures var done := HeadIndex(c, t);
            && done < |t.order| == |t.begun| && t.order[done] in t.plans
            && (c.issued[0].chunks == [] <==> t.begun[done] == |t.plans[t.order[done]]|)
  {
    assert Queue(c)[0] == c.issued[0];
  }

  lemma CompleteWhole(c: Chan, t: Trace)
    requires DataOk(c, t) && CompletedWhole(c, t) && c.issued != []
    ensures CompletedWhole(CompleteHead(c), t) <==> c.issued[0].chunks == []
  {
    HeadWhole(c, t);
    hide DataOk;
    var done := HeadIndex(c, t);
    assert HeadIndex(CompleteHead(c), t) == done + 1;
    if CompletedWhole(CompleteHead(c), t) {
      assert t.begun[done] == |t.plans[t.order[done]]|;
    }
  }

  lemma StartWhole(c: Chan, t: Trace)
    requires CompletedWhole(c, t)
    ensures var o := StartTransfer(c);
            CompletedWhole(o.chan, if o.start.Some? then Started(o.chan, t, o.start.value) else t)
  {
  }

  lemma WholeSame(c: Chan, t: Trace, d: Chan, u: Trace)
    requires CompletedWhole(c, t) && HeadIndex(d, u) == HeadIndex(c, t) <= |t.order| == |t.begun|
    requires t.order <= u.order && t.begun <= u.begun
    requires forall id :: id in t.plans ==> id in u.plans && u.plans[id] == t.plans[id]
    ensures CompletedWhole(d, u)
  {
  }

  /** Chunks of a completed descriptor are lost in this step exactly when it drops some. */
  ghost predicate WholeExact(s: Sys, e: Event)
    requires Enabled(s, e)
  {
    CompletedWhole(Next(s, e).chan, Next(s, e).trace) <==> !Drops(s, e)
  }

  lemma ContinueWhole(c: Chan, t: Trace)
    requires DataOk(c, t) && CompletedWhole(c, t) && c.issued != []
    ensures var o := Continue(c);
            CompletedWhole(o.chan, if o.start.Some? then Started(o.chan, t, o.start.value) else t)
  {
    CompleteWhole(c, t);
    StartWhole(if c.issued[0].chunks == [] then CompleteHead(c) else c, t);
    hide DataOk, StartTransfer, Started;
  }

  lemma DoneWhole(s: Sys)
    requires Enabled(s, Done) && DataOk(s.chan, s.trace) && CompletedWhole(s.chan, s.trace)
    ensures WholeExact(s, Done)
  {
    if s.chan.issued != [] {
      CompleteWhole(s.chan, s.trace);
      ContinueWhole(s.chan, s.trace);
    }
    hide DataOk, Continue, Started;
  }

  lemma AbortWhole(s: Sys)
    requires Enabled(s, Abort) && DataOk(s.chan, s.trace) && CompletedWhole(s.chan, s.trace)
    ensures WholeExact(s, Abort)
  {
    if s.chan.issued != [] {
      CompleteWhole(s.chan, s.trace);
    }
    hide DataOk;
  }

  lemma IssueWhole(s: Sys)
    requires Enabled(s, Issue) && CompletedWhole(s.chan, s.trace)
    ensures WholeExact(s, Issue)
  {
    var c := s.chan;
    StartWhole(c.(issued := c.issued + c.submitted, submitted := [], status := Busy), s.trace);
    hide StartTransfer, Started;
  }

  lemma ResumeWhole(s: Sys)
    requires Enabled(s, ResumeCall) && CompletedWhole(s.chan, s.trace)
    ensures WholeExact(s, ResumeCall)
  {
    StartWhole(s.chan.(status := Busy), s.trace);
    hide CompletedWhole, StartTransfer, Started;
  }

  lemma LengthsOk(c: Chan, t: Trace)
    requires DataOk(c, t)
    ensures HeadIndex(c, t) <= |t.order| == |t.begun|
  {
  }

  lemma OtherWhole(s: Sys, e: Event)
    requires Enabled(s, e) && !e.Done? && !e.Abort? && !e.Issue? && !e.ResumeCall?
    requires CompletedWhole(s.chan, s.trace) && HeadIndex(s.chan, s.trace) <= |s.trace.order| == |s.trace.begun|
    ensures WholeExact(s, e)
  {
    hide CompletedWhole, Progressed;
    WholeSame(s.chan, s.trace, Next(s, e).chan, Next(s, e).trace);
  }

  /** Chunks of a completed descriptor are lost in exactly these steps. */
  lemma WholeKeptIff(s: Sys, e: Event)
    requires Enabled(s, e) && Inv(s) && CompletedWhole(s.chan, s.trace)
    ensures CompletedWhole(Next(s, e).chan, Next(s, e).trace) <==> !Drops(s, e)
  {
    LengthsOk(s.chan, s.trace);
    assert WholeExact(s, e) by {
      hide DataOk, CompletedWhole, WholeExact, Next, Drops;
      match e {
        case Done => DoneWhole(s);
        case Abort => AbortWhole(s);
        case Issue => IssueWhole(s);
        case ResumeCall => ResumeWhole(s);
        case _ => OtherWhole(s, e);
      }
    }
    hide DataOk, CompletedWhole, Next, Drops, Enabled;
  }

  ghost predicate NeverDrops(s: Sys, es: seq<Event>)
    requires Runs(s, es)
    decreases |es|
  {
    es == [] || (!Drops(s, es[0]) && NeverDrops(Next(s, es[0]), es[1..]))
  }

  /** Without aborts and stops every completed descriptor was handed over whole, whatever else happened. */
  lemma {:induction false} RunCompletesWhole(s: Sys, es: seq<Event>)
    requires Runs(s, es) && NeverDrops(s, es) && Inv(s) && CompletedWhole(s.chan, s.trace)
    ensures CompletedWhole(Exec(s, es).chan, Exec(s, es).trace)
    decreases |es|
  {
    hide Inv, CompletedWhole, Drops, Next, Enabled;
    if es != [] {
      InvKept(s, es[0]);
      WholeKeptIff(s, es[0]);
      RunCompletesWhole(Next(s, es[0]), es[1..]);
    }
  }
}
