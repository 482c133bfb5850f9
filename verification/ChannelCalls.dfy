/** What one call or interrupt means for the calls after it. */
module ChannelCalls {
  import opened Heap
  import opened Cookies
  import opened ChannelSpec
  import opened ChannelRuns
  import opened ChannelSafety

  // After the head was given up.

  /** The head is given up with this step: an abort, or the done interrupt a pending stop waits for. */
  predicate GivesUp(s: Sys, e: Event) {
    e == Abort || (e == Done && s.chan.request == StopRequest)
  }

  /** The descriptors queued behind the head, in the order of service. */
  function Behind(s: Sys): seq<DescValue> {
    (if s.chan.issued == [] then [] else s.chan.issued[1..]) + s.chan.submitted
  }

  /** Nothing was handed over yet of any of them. */
  lemma BehindWhole(s: Sys)
    requires Reachable(s) && Behind(s) != []
    ensures var d := Behind(s)[0];
            && d.id in s.trace.plans && s.trace.plans[d.id] != [] && d.chunks == s.trace.plans[d.id] && d.xferSz == 0
  {
    ReachableInv(s);
    var h := if s.chan.issued == [] then 0 else 1;
    assert Queue(s.chan)[h] == Behind(s)[0];
    hide OrderOk, IdsOk, CookiesOk, StartsOk;
  }

  /** The head goes, all others stay queued, and the channel is idle with nothing pending. */
  lemma GivenUp(s: Sys, e: Event)
    requires BusyOk(s) && s.flight != [] && GivesUp(s, e)
    ensures var t := Next(s, e);
            && t.chan.configured == s.chan.configured && t.flight == s.flight[1..] && Queue(t.chan) == Behind(s)
            && t.chan.status == Idle && t.chan.request == NoRequest
  {
    hide Started;
  }

  /** An idle channel starts the first chunk of the descriptor in front, if it is configured. */
  lemma IssueFirst(s: Sys)
    requires s.chan.status == Idle && s.chan.request == NoRequest
    ensures Queue(s.chan) != [] && Queue(s.chan)[0].chunks != [] && s.chan.configured ==>
              var d, t := Queue(s.chan)[0], Next(s, Issue);
              && t.flight == s.flight + [Start(d.id, d.chunks[0], d.xferSz == 0)]
              && t.chan.status == Busy && t.chan.issued != [] && t.chan.issued[0].id == d.id
    ensures Queue(s.chan) == [] ==> Next(s, Issue).flight == s.flight
  {
    hide Started;
  }

  /**
   When the head was given up and the channel is configured, the next issue hands over the first chunk of
   the descriptor behind it, set up anew, whether that was issued already or only submitted. With nothing behind
   it the channel is left idle, with nothing pending.
   */
  lemma GiveUpThenIssue(s: Sys, e: Event)
    requires Reachable(s) && s.flight != [] && GivesUp(s, e)
    ensures Next(s, e).chan.configured == s.chan.configured && Next(s, e).flight == s.flight[1..]
    ensures Behind(s) != [] && s.chan.configured ==>
              var d, t := Behind(s)[0], Next(Next(s, e), Issue);
              && d.id in s.trace.plans && s.trace.plans[d.id] != []
              && t.flight == s.flight[1..] + [Start(d.id, s.trace.plans[d.id][0], true)]
              && t.chan.status == Busy && t.chan.issued != [] && t.chan.issued[0].id == d.id
    ensures Behind(s) == [] ==>
              && Next(s, e).chan.status == Idle && Next(s, e).chan.request == NoRequest
              && Queue(Next(s, e).chan) == [] && Next(Next(s, e), Issue).flight == s.flight[1..]
  {
    ReachableInv(s);
    GivenUp(s, e);
    if Behind(s) != [] {
      BehindWhole(s);
    }
    hide DataOk, Next, Behind, Reachable, Enabled;
    IssueFirst(Next(s, e));
  }

  // From preparation to the callback.

  /** A descriptor prepared and then submitted is the last submission, whole and with the next cookie. */
  lemma PrepThenSubmit(s: Sys, d: DescValue)
    requires Reachable(s) && Enabled(s, Prep(d))
    ensures var k := |s.chan.prepared|;
            && Enabled(Next(s, Prep(d)), SubmitNth(k))
            && var t := Next(Next(s, Prep(d)), SubmitNth(k));
               && t.trace.order == s.trace.order + [d.id] && t.chan.prepared == s.chan.prepared
               && t.chan.submitted == s.chan.submitted + [d.(cookie := t.chan.used)]
               && t.chan.used == CookieOf(|s.trace.order| + 1)
  {
    ReachableInv(s);
    NextCookieCounts(|s.trace.order|);
    assert (s.chan.prepared + [d])[..|s.chan.prepared|] == s.chan.prepared;
    hide Progressed, Reachable, IdsOk, QueueOk, StartsOk, PreparedOk, UntouchedFrom, CookieOf;
  }

  /** No completed descriptor carries a cookie any more. */
  predicate CookiesCleared(c: Chan) {
    forall i :: 0 <= i < |c.completed| ==> c.completed[i].cookie == 0
  }

  lemma CookiesStayCleared(s: Sys, e: Event)
    requires Enabled(s, e) && CookiesCleared(s.chan)
    ensures CookiesCleared(Next(s, e).chan)
  {
    hide Progressed, Started;
  }

  lemma {:induction false} CompletedCleared(s: Sys, es: seq<Event>)
    requires Runs(s, es) && CookiesCleared(s.chan)
    ensures CookiesCleared(Exec(s, es).chan)
    decreases |es|
  {
    hide CookiesCleared, Next, Enabled;
    if es != [] {
      CookiesStayCleared(s, es[0]);
      CompletedCleared(Next(s, es[0]), es[1..]);
    }
  }

  // Pausing and resuming.

  /**
   A pause only delays. Requested while a chunk is in flight, carried out by its done interrupt and ended by a
   resume, it leads to the very state that interrupt would have led to: the head's next chunk is then started.
   */
  lemma PauseOnlyDelays(s: Sys)
    requires s.flight != [] && s.chan.configured && s.chan.status == Busy && s.chan.request == NoRequest
    requires s.chan.issued != [] && s.chan.issued[0].chunks != []
    ensures var p := Next(Next(s, PauseCall), Done);
            && p.chan.status == Pause && p.flight == s.flight[1..] && p.trace == s.trace
            && var t, u := Next(p, ResumeCall), Next(s, Done);
               && t.chan == u.chan && t.flight == u.flight && t.trace == u.trace
               && u.flight == s.flight[1..]
                              + [Start(s.chan.issued[0].id, s.chan.issued[0].chunks[0], s.chan.issued[0].xferSz == 0)]
  {
    hide Started;
  }

  /** A paused channel without a chunk in flight hands over nothing until it is resumed or terminated. */
  lemma {:induction false} PausedHolds(s: Sys, es: seq<Event>)
    requires s.chan.status == Pause && s.chan.request == NoRequest && s.flight == [] && Runs(s, es)
    requires forall i :: 0 <= i < |es| ==> !es[i].ResumeCall? && !es[i].Terminate?
    ensures Exec(s, es).chan.status == Pause && Exec(s, es).flight == []
    ensures Exec(s, es).trace.starts == s.trace.starts && Exec(s, es).chan.completedCookie == s.chan.completedCookie
    decreases |es|
  {
    if es != [] {
      PausedStep(s, es[0]);
      hide Next, Enabled;
      PausedHolds(Next(s, es[0]), es[1..]);
    }
  }

  lemma PausedStep(s: Sys, e: Event)
    requires s.chan.status == Pause && s.chan.request == NoRequest && s.flight == [] && Enabled(s, e)
    requires !e.ResumeCall? && !e.Terminate?
    ensures var t := Next(s, e);
            && t.chan.status == Pause && t.chan.request == NoRequest && t.flight == []
            && t.trace.starts == s.trace.starts && t.chan.completedCookie == s.chan.completedCookie
  {
    hide Progressed, Started;
  }

  // Requests.

  /** A pending stop ends exactly with an abort, or with the done interrupt of a channel with work issued. */
  lemma StopEndsIff(s: Sys, e: Event)
    requires Enabled(s, e) && s.chan.request == StopRequest
    ensures Next(s, e).chan.request != StopRequest <==> e.Abort? || (e.Done? && s.chan.issued != [])
    ensures Next(s, e).chan.request in {NoRequest, StopRequest}
  {
    hide Progressed, Started;
  }

  /** A pending pause ends exactly so too, or is replaced by a stop when a busy channel is terminated. */
  lemma PauseEndsIff(s: Sys, e: Event)
    requires Enabled(s, e) && s.chan.request == PauseRequest
    ensures Next(s, e).chan.request == NoRequest <==> e.Abort? || (e.Done? && s.chan.issued != [])
    ensures Next(s, e).chan.request == StopRequest <==>
            e == Terminate(false) && s.chan.configured && s.chan.status == Busy
  {
    hide Progressed, Started;
  }

  /** A request comes from nowhere but a pause or terminate call on a configured, busy channel. */
  lemma RequestComesFrom(s: Sys, e: Event)
    requires Enabled(s, e) && s.chan.request == NoRequest
    ensures Next(s, e).chan.request != NoRequest <==>
            (e == PauseCall || e == Terminate(false)) && s.chan.configured && s.chan.status == Busy
    ensures Next(s, e).chan.request == PauseRequest ==> e == PauseCall
    ensures Next(s, e).chan.request == StopRequest ==> e.Terminate?
  {
    hide Progressed, Started;
  }

  /** Pause and resume answer success exactly when they changed the channel. */
  lemma AnswersTrue(c: Chan)
    ensures RequestPause(c).1 == Success <==> RequestPause(c).0 != c
    ensures ChannelSpec.Resume(c).1 == Success <==> ChannelSpec.Resume(c).0 != Outcome(c, None)
    ensures RequestPause(c).1 == Success ==> ChannelSpec.Resume(c).1 != Success
  {
    hide StartTransfer;
    StartKeepsStatus(c.(status := Busy));
  }

  lemma StartKeepsStatus(c: Chan)
    ensures StartTransfer(c).chan.status == c.status
  {
  }

  // Configuration.

  /** This terminate unconfigures the channel: the engine is not busy, or is reported to have finished. */
  predicate Unconfigures(s: Sys, e: Event) {
    e.Terminate? && (s.chan.status != Busy || e.hwComplete)
  }

  /** A step ends a configuration exactly when it is such a terminate; only a configuration begins one. */
  lemma ConfiguredIff(s: Sys, e: Event)
    requires Enabled(s, e)
    ensures Next(s, e).chan.configured <==> e.Config? || (s.chan.configured && !Unconfigures(s, e))
  {
    hide Progressed, Started;
  }

  /** Without a configuration every preparation is refused and an issue does nothing, until there is one. */
  lemma {:induction false} RefusedUntilConfigured(s: Sys, es: seq<Event>, d: DescValue)
    requires Runs(s, es) && !s.chan.configured && forall i :: 0 <= i < |es| ==> !es[i].Config?
    ensures !Exec(s, es).chan.configured && !Enabled(Exec(s, es), Prep(d))
    ensures Next(Exec(s, es), Issue).chan == Exec(s, es).chan && Next(Exec(s, es), Issue).flight == Exec(s, es).flight
    ensures Exec(s, es).trace.plans == s.trace.plans
    decreases |es|
  {
    if es != [] {
      ConfiguredIff(s, es[0]);
      PlansStay(s, es[0]);
      RefusedUntilConfigured(Next(s, es[0]), es[1..], d);
    }
  }

  lemma PlansStay(s: Sys, e: Event)
    requires Enabled(s, e) && !e.Prep?
    ensures Next(s, e).trace.plans == s.trace.plans
  {
    hide Progressed;
  }

  lemma TerminateRefuses(s: Sys, hwComplete: bool, es: seq<Event>, d: DescValue)
    requires Unconfigures(s, Terminate(hwComplete)) && Runs(Next(s, Terminate(hwComplete)), es)
    requires forall i :: 0 <= i < |es| ==> !es[i].Config?
    ensures !Enabled(Exec(Next(s, Terminate(hwComplete)), es), Prep(d))
  {
    ConfiguredIff(s, Terminate(hwComplete));
    RefusedUntilConfigured(Next(s, Terminate(hwComplete)), es, d);
    hide Next, Enabled, Exec, Runs;
  }
}
