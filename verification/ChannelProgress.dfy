/** Which channels get on with their work: draining under done interrupts, and the states nothing leads out of. */
module ChannelProgress {
  import opened Bursts
  import opened Heap
  import opened ChannelSpec
  import opened ChannelRuns
  import opened ChannelSafety

  // Draining.

  /** Chunks not yet handed over by the first n descriptors. */
  function UnstartedTo(ds: seq<DescValue>, n: nat): nat
    requires n <= |ds|
  {
    if n == 0 then 0 else UnstartedTo(ds, n - 1) + |ds[n - 1].chunks|
  }

  function Unstarted(ds: seq<DescValue>): nat {
    UnstartedTo(ds, |ds|)
  }

  /** One done interrupt after another. */
  function Dones(n: nat): (es: seq<Event>)
    ensures |es| == n
  {
    if n == 0 then [] else [Done] + Dones(n - 1)
  }

  /** The chunks of the first n descriptors, in order. */
  function ChunksTo(ds: seq<DescValue>, n: nat): seq<ChunkValue>
    requires n <= |ds|
  {
    if n == 0 then [] else ChunksTo(ds, n - 1) + ds[n - 1].chunks
  }

  function StartedChunks(starts: seq<Start>): (r: seq<ChunkValue>)
    ensures |r| == |starts|
  {
    seq(|starts|, i requires 0 <= i < |starts| => starts[i].chunk)
  }

  lemma {:induction false} UnstartedHead(ds: seq<DescValue>, es: seq<DescValue>, n: nat)
    requires 1 <= n <= |ds| == |es| && es[1..] == ds[1..]
    ensures UnstartedTo(ds, n) - |ds[0].chunks| == UnstartedTo(es, n) - |es[0].chunks|
  {
    if n > 1 {
      UnstartedHead(ds, es, n - 1);
      assert ds[n - 1] == ds[1..][n - 2] && es[n - 1] == es[1..][n - 2];
    }
  }

  lemma {:induction false} UnstartedTail(ds: seq<DescValue>, n: nat)
    requires 1 <= n <= |ds|
    ensures UnstartedTo(ds, n) == |ds[0].chunks| + UnstartedTo(ds[1..], n - 1)
  {
    if n > 1 {
      UnstartedTail(ds, n - 1);
    }
  }

  lemma {:induction false} ChunksHead(ds: seq<DescValue>, es: seq<DescValue>, n: nat)
    requires 1 <= n <= |ds| == |es| && es[1..] == ds[1..] && ds[0].chunks != [] && es[0].chunks == ds[0].chunks[1..]
    ensures ChunksTo(ds, n) == [ds[0].chunks[0]] + ChunksTo(es, n)
  {
    if n > 1 {
      ChunksHead(ds, es, n - 1);
      assert ds[n - 1] == ds[1..][n - 2] && es[n - 1] == es[1..][n - 2];
    } else {
      assert ChunksTo(ds, 0) == [] && ChunksTo(es, 0) == [];
    }
  }

  lemma {:induction false} ChunksTail(ds: seq<DescValue>, n: nat)
    requires 1 <= n <= |ds|
    ensures ChunksTo(ds, n) == ds[0].chunks + ChunksTo(ds[1..], n - 1)
  {
    if n > 1 {
      ChunksTail(ds, n - 1);
    } else {
      assert ChunksTo(ds, 0) == [];
    }
  }

  lemma {:induction false} ChunksPrefix(ds: seq<DescValue>, es: seq<DescValue>, n: nat)
    requires n <= |ds| && n <= |es| && forall i :: 0 <= i < n ==> ds[i].chunks == es[i].chunks
    ensures ChunksTo(ds, n) == ChunksTo(es, n)
  {
    if n > 0 {
      ChunksPrefix(ds, es, n - 1);
    }
  }

  /** A chunk in flight, descriptors issued, chunks left in all of these but the head, and nothing pending. */
  ghost predicate Draining(s: Sys) {
    && s.flight != [] && s.chan.issued != [] && s.chan.request == NoRequest
    && forall j :: 1 <= j < |s.chan.issued| ==> s.chan.issued[j].chunks != []
  }

  /** The descriptors completed and issued, and the chunks started and still to start. */
  predicate SameWork(c: Chan, starts: seq<Start>, d: Chan, starts': seq<Start>) {
    && Ids(d.completed) + Ids(d.issued) == Ids(c.completed) + Ids(c.issued)
    && StartedChunks(starts') + ChunksTo(d.issued, |d.issued|) == StartedChunks(starts) + ChunksTo(c.issued, |c.issued|)
  }

  lemma StartDrains(c: Chan, starts: seq<Start>)
    requires c.issued != [] && c.issued[0].chunks != []
    ensures var o := StartTransfer(c);
            && o.start.Some? && SameWork(c, starts, o.chan, starts + [o.start.value])
            && Unstarted(o.chan.issued) == Unstarted(c.issued) - 1
  {
    var o := StartTransfer(c);
    var n := |c.issued|;
    assert o.chan.issued[1..] == c.issued[1..];
    UnstartedHead(c.issued, o.chan.issued, n);
    ChunksHead(c.issued, o.chan.issued, n);
    assert StartedChunks(starts + [o.start.value]) == StartedChunks(starts) + [c.issued[0].chunks[0]];
    assert Ids(o.chan.issued) == Ids(c.issued);
  }

  lemma CompleteDrains(c: Chan, starts: seq<Start>)
    requires c.issued != [] && c.issued[0].chunks == []
    ensures SameWork(c, starts, CompleteHead(c), starts)
    ensures Unstarted(CompleteHead(c).issued) == Unstarted(c.issued)
  {
    var d := CompleteHead(c);
    UnstartedTail(c.issued, |c.issued|);
    ChunksTail(c.issued, |c.issued|);
    assert Ids(c.issued) == [c.issued[0].id] + Ids(d.issued);
    assert Ids(d.completed) == Ids(c.completed) + [c.issued[0].id];
  }

  lemma {:induction false} NoneUnstarted(ds: seq<DescValue>, n: nat, j: nat)
    requires j < n <= |ds|
    ensures |ds[j].chunks| <= UnstartedTo(ds, n)
  {
    if j < n - 1 {
      NoneUnstarted(ds, n - 1, j);
    }
  }

  lemma OneUnstarted(ds: seq<DescValue>)
    requires |ds| == 1
    ensures Unstarted(ds) == |ds[0].chunks|
  {
    assert UnstartedTo(ds, 0) == 0;
  }

  /** One done interrupt while chunks are left hands over exactly one. */
  lemma DrainStep(s: Sys)
    requires Draining(s) && Unstarted(s.chan.issued) > 0
    ensures var t := Next(s, Done);
            && Draining(t) && |t.flight| == |s.flight| && t.chan.status == Busy
            && Unstarted(t.chan.issued) == Unstarted(s.chan.issued) - 1
            && SameWork(s.chan, s.trace.starts, t.chan, t.trace.starts)
  {
    hide Unstarted, StartedChunks, Ids, ChunksTo;
    var c, starts := s.chan, s.trace.starts;
    if c.issued[0].chunks == [] {
      CompleteDrains(c, starts);
      var d := CompleteHead(c);
      if |c.issued| == 1 {
        OneUnstarted(c.issued);
      }
      assert d.issued != [] && d.issued[0] == c.issued[1];
      StartDrains(d, starts);
    } else {
      StartDrains(c, starts);
    }
  }

  /** The last done interrupt. */
  lemma DrainEnds(s: Sys)
    requires Draining(s) && Unstarted(s.chan.issued) == 0
    ensures var t := Next(s, Done);
            && |t.flight| == |s.flight| - 1 && t.chan.status == Idle && t.chan.issued == []
            && SameWork(s.chan, s.trace.starts, t.chan, t.trace.starts)
  {
    forall j | 0 <= j < |s.chan.issued|
      ensures s.chan.issued[j].chunks == []
    {
      NoneUnstarted(s.chan.issued, |s.chan.issued|, j);
    }
    assert |s.chan.issued| == 1;
    CompleteDrains(s.chan, s.trace.starts);
    hide ChunksTo, Ids, StartedChunks, UnstartedTo, Unstarted;
  }

  lemma NoWorkLeft(c: Chan, starts: seq<Start>, d: Chan, starts': seq<Start>)
    requires SameWork(c, starts, d, starts') && d.issued == []
    ensures Ids(d.completed) == Ids(c.completed) + Ids(c.issued)
    ensures StartedChunks(starts') == StartedChunks(starts) + ChunksTo(c.issued, |c.issued|)
  {
    assert ChunksTo(d.issued, 0) == [];
    assert Ids(d.completed) + Ids(d.issued) == Ids(d.completed);
    assert StartedChunks(starts') + [] == StartedChunks(starts');
  }

  /**
   Draining: with nothing pending, a chunk in flight and K chunks of the issued descriptors not yet
   started, exactly K + 1 done interrupts start these K chunks, in order, complete every issued
   descriptor, in order, and leave the channel idle. What was in flight ends; only chunks that were in
   flight besides it, where there were any, still are.
   */
  lemma {:induction false} Drain(s: Sys)
    requires Draining(s)
    ensures var k := Unstarted(s.chan.issued);
            && Runs(s, Dones(k + 1))
            && var t := Exec(s, Dones(k + 1));
               && |t.flight| == |s.flight| - 1 && t.chan.status == Idle && t.chan.issued == []
               && Ids(t.chan.completed) == Ids(s.chan.completed) + Ids(s.chan.issued)
               && StartedChunks(t.trace.starts)
                  == StartedChunks(s.trace.starts) + ChunksTo(s.chan.issued, |s.chan.issued|)
    decreases Unstarted(s.chan.issued)
  {
    hide Unstarted, ChunksTo, Ids, StartedChunks, SameWork, Draining;
    var k := Unstarted(s.chan.issued);
    assert s.flight != [] by {
      DrainEnabled(s);
    }
    var t := Next(s, Done);
    assert Dones(k + 1)[0] == Done && Dones(k + 1)[1..] == Dones(k);
    hide Next, Dones;
    if k > 0 {
      DrainStep(s);
      Drain(t);
      DrainAdds(s, t, Exec(s, Dones(k + 1)));
    } else {
      DrainEnds(s);
      assert Dones(0) == [];
      assert Runs(t, []) && Exec(t, []) == t;
      NoWorkLeft(s.chan, s.trace.starts, t.chan, t.trace.starts);
    }
  }

  lemma DrainEnabled(s: Sys)
    requires Draining(s)
    ensures Enabled(s, Done) && s.flight != []
  {
  }

  lemma DrainAdds(s: Sys, t: Sys, u: Sys)
    requires SameWork(s.chan, s.trace.starts, t.chan, t.trace.starts)
    requires Ids(u.chan.completed) == Ids(t.chan.completed) + Ids(t.chan.issued)
    requires StartedChunks(u.trace.starts) == StartedChunks(t.trace.starts) + ChunksTo(t.chan.issued, |t.chan.issued|)
    ensures Ids(u.chan.completed) == Ids(s.chan.completed) + Ids(s.chan.issued)
    ensures StartedChunks(u.trace.starts) == StartedChunks(s.trace.starts) + ChunksTo(s.chan.issued, |s.chan.issued|)
  {
  }

  /** Until the last of them the channel is busy, with as many chunks in flight as before. */
  lemma {:induction false} BusyUntilDrained(s: Sys, n: nat)
    requires Draining(s) && 1 <= n <= Unstarted(s.chan.issued)
    ensures Runs(s, Dones(n)) && Draining(Exec(s, Dones(n)))
    ensures Exec(s, Dones(n)).chan.status == Busy && |Exec(s, Dones(n)).flight| == |s.flight|
    decreases n
  {
    DrainStep(s);
    var t := Next(s, Done);
    assert Dones(n)[0] == Done && Dones(n)[1..] == Dones(n - 1);
    if n > 1 {
      BusyUntilDrained(t, n - 1);
    } else {
      assert Runs(t, []) && Exec(t, []) == t;
    }
  }

  /** In a reachable state it is enough that something is issued and nothing pending: later descriptors are whole. */
  lemma ReachableDraining(s: Sys)
    requires Reachable(s) && s.flight != [] && s.chan.issued != [] && s.chan.request == NoRequest
    ensures Draining(s)
  {
    ReachableInv(s);
    OnlyHeadLosesChunks(s);
    forall j | 1 <= j < |s.chan.issued|
      ensures s.chan.issued[j].chunks != []
    {
      assert Queue(s.chan)[j] == s.chan.issued[j];
    }
  }

  // Dead channels.

  /** Nothing is in flight, and the head has nothing left to start or a request is pending. */
  predicate Dead(s: Sys) {
    s.flight == [] && (HeadSpent(s.chan) || s.chan.request != NoRequest)
  }

  lemma DeadStays(s: Sys, e: Event)
    requires Dead(s) && Enabled(s, e)
    ensures Dead(Next(s, e)) && Next(s, e).trace.starts == s.trace.starts
    ensures Next(s, e).chan.completedCookie == s.chan.completedCookie
  {
  }

  /** No run leads out of a dead state: no chunk is ever started again, no descriptor ever completed. */
  lemma {:induction false} DeadForever(s: Sys, es: seq<Event>)
    requires Dead(s) && Runs(s, es)
    ensures Dead(Exec(s, es)) && Exec(s, es).trace.starts == s.trace.starts
    ensures Exec(s, es).chan.completedCookie == s.chan.completedCookie
    decreases |es|
  {
    hide Dead, Next, Enabled;
    if es != [] {
      DeadStays(s, es[0]);
      DeadForever(Next(s, es[0]), es[1..]);
    }
  }

  /** The run that brings any other channel back to work. */
  function Revival(): seq<Event> {
    [Config, Terminate(true), Config, Issue]
  }

  lemma RunFour(s: Sys, a: Event, b: Event, c: Event, d: Event)
    requires Enabled(s, a) && Enabled(Next(s, a), b) && Enabled(Next(Next(s, a), b), c)
    requires Enabled(Next(Next(Next(s, a), b), c), d)
    ensures Runs(s, [a, b, c, d]) && Exec(s, [a, b, c, d]) == Next(Next(Next(Next(s, a), b), c), d)
  {
    var s1 := Next(s, a);
    var s2 := Next(s1, b);
    var s3 := Next(s2, c);
    var s4 := Next(s3, d);
    hide Next, Enabled;
    assert [a, b, c, d][1..] == [b, c, d] && [b, c, d][1..] == [c, d] && [c, d][1..] == [d] && [d][1..] == [];
    assert Runs(s4, []) && Exec(s4, []) == s4;
    assert Runs(s3, [d]) && Exec(s3, [d]) == s4;
    assert Runs(s2, [c, d]) && Exec(s2, [c, d]) == s4;
    assert Runs(s1, [b, c, d]) && Exec(s1, [b, c, d]) == s4;
  }

  /** Configured and idle, with the same work queued. */
  lemma Reset(s: Sys)
    requires s.flight == []
    ensures Enabled(Next(s, Config), Terminate(true))
    ensures var t := Next(Next(Next(s, Config), Terminate(true)), Config);
            t.flight == [] && t.trace == s.trace && t.chan == s.chan.(configured := true, status := Idle)
  {
  }

  lemma IssueStarts(s: Sys)
    requires s.chan.configured && s.chan.status == Idle && s.chan.request == NoRequest
    requires Queue(s.chan) != [] && Queue(s.chan)[0].chunks != []
    ensures |Next(s, Issue).trace.starts| == |s.trace.starts| + 1
  {
  }

  /** The next descriptor in line has a chunk left, unless it is a spent head. */
  lemma NextHasChunks(s: Sys)
    requires Reachable(s) && Queue(s.chan) != [] && !HeadSpent(s.chan)
    ensures Queue(s.chan)[0].chunks != []
  {
    hide Reachable;
    OnlyHeadLosesChunks(s);
    ReachableInv(s);
    hide OrderOk, IdsOk, CookiesOk, QueueOk, UntouchedFrom, StartsOk, Progressed;
  }

  lemma Revives(s: Sys)
    requires s.flight == [] && s.chan.request == NoRequest && Queue(s.chan) != [] && Queue(s.chan)[0].chunks != []
    ensures Runs(s, Revival()) && |Exec(s, Revival()).trace.starts| == |s.trace.starts| + 1
  {
    hide Next, Enabled, Runs, Exec;
    AlwaysEnabled(s);
    Reset(s);
    AlwaysEnabled(Next(Next(s, Config), Terminate(true)));
    var s3 := Next(Next(Next(s, Config), Terminate(true)), Config);
    AlwaysEnabled(s3);
    assert Queue(s3.chan) == Queue(s.chan);
    IssueStarts(s3);
    RunFour(s, Config, Terminate(true), Config, Issue);
  }

  lemma AlwaysEnabled(s: Sys)
    ensures Enabled(s, Config) && Enabled(s, Issue)
  {
  }

  /** Some run of a channel with nothing in flight starts a chunk. */
  ghost predicate CanStart(s: Sys) {
    exists es :: Runs(s, es) && Exec(s, es).trace.starts != s.trace.starts
  }

  /**
   A reachable channel with work queued and nothing in flight can be brought to hand over a chunk exactly
   when its head has a chunk left and no request is pending.
   */
  lemma CanStartIff(s: Sys)
    requires Reachable(s) && s.flight == [] && Queue(s.chan) != []
    ensures CanStart(s) <==> !HeadSpent(s.chan) && s.chan.request == NoRequest
  {
    if Dead(s) {
      forall es | Runs(s, es)
        ensures Exec(s, es).trace.starts == s.trace.starts
      {
        DeadForever(s, es);
      }
    } else {
      NextHasChunks(s);
      Revives(s);
    }
  }

  // How channels die.

  /**
   The done interrupt that carries out a pause leaves the channel dead exactly when it was for the head's
   last chunk: the head is not completed then, and resuming finds nothing to start.
   */
  lemma PausedDeadIff(s: Sys)
    requires Reachable(s) && |s.flight| == 1 && s.chan.request == PauseRequest
    ensures Dead(Next(s, Done)) <==> HeadSpent(s.chan)
    ensures Next(s, Done).chan.status == Pause
    ensures Resume(Next(s, Done).chan).1 == Success <==> s.chan.configured
    ensures Resume(Next(s, Done).chan).0.start.Some? <==> s.chan.configured && !Dead(Next(s, Done))
  {
    ReachableInv(s);
    hide DataOk;
  }

  /** Losing the interrupt of the last chunk, or any interrupt while a request is pending, kills the channel. */
  lemma LostDeadIff(s: Sys)
    requires |s.flight| == 1
    ensures Dead(Next(s, LoseInterrupt)) <==> HeadSpent(s.chan) || s.chan.request != NoRequest
  {
  }

  /** A channel working on the first chunk of its only descriptor. */
  function Working(d: DescValue): Sys
    requires d.chunks != [] && Progressed(d, d.chunks, 0)
  {
    Next(Next(Next(Next(Init(), Config), Prep(d)), SubmitNth(0)), Issue)
  }

  lemma WorkingReachable(d: DescValue)
    requires d.chunks != [] && Progressed(d, d.chunks, 0)
    ensures var s := Working(d);
            && Reachable(s) && |s.flight| == 1 && s.chan.request == NoRequest
            && |s.chan.issued| == 1 && s.chan.issued[0].id == d.id && s.chan.issued[0].chunks == d.chunks[1..]
            && s.chan.submitted == [] && s.chan.prepared == [] && s.chan.completed == []
            && s.chan.configured && s.chan.status == Busy && !s.lost && s.trace.plans == map[d.id := d.chunks]
            && |s.trace.starts| == 1
  {
    RunFour(Init(), Config, Prep(d), SubmitNth(0), Issue);
    assert Exec(Init(), [Config, Prep(d), SubmitNth(0), Issue]) == Working(d);
  }

  /** From power-up, by ordinary calls only: pausing during the last chunk, and the channel is dead. */
  lemma PauseKills(d: DescValue)
    requires |d.chunks| == 1 && Progressed(d, d.chunks, 0)
    ensures var s := Next(Next(Working(d), PauseCall), Done);
            Reachable(s) && Dead(s) && !s.lost && s.chan.status == Pause
  {
    WorkingReachable(d);
    hide Working, Reachable;
    var s := Working(d);
    StepReachable(s, PauseCall);
    StepReachable(Next(s, PauseCall), Done);
    PausedDeadIff(Next(s, PauseCall));
  }

  /** A lost interrupt with a pause pending, then terminating: idle, but never again able to start anything. */
  lemma TerminateKills(d: DescValue)
    requires d.chunks != [] && Progressed(d, d.chunks, 0)
    ensures var s := Next(Next(Next(Working(d), PauseCall), LoseInterrupt), Terminate(true));
            Reachable(s) && Dead(s) && s.chan.status == Idle && s.chan.request == PauseRequest
  {
    WorkingReachable(d);
    hide Working, Reachable, Started;
    var s := Working(d);
    var s1 := Next(s, PauseCall);
    StepReachable(s, PauseCall);
    StepReachable(s1, LoseInterrupt);
    StepReachable(Next(s1, LoseInterrupt), Terminate(true));
  }

  // What a hasty terminate does.

  /**
   From power-up: terminating during a descriptor's first chunk, told that the engine has finished, and
   issuing again hands over the second chunk while the first is still in flight.
   */
  lemma TwoInFlight(d: DescValue)
    requires |d.chunks| >= 2 && Progressed(d, d.chunks, 0)
    ensures var s := Next(Next(Next(Working(d), Terminate(true)), Config), Issue);
            && Reachable(s) && |s.flight| == 2
            && s.flight[0].chunk == d.chunks[0] && s.flight[1].chunk == d.chunks[1]
  {
    WorkingReachable(d);
    hide Working, Reachable, Started;
    var s := Working(d);
    var s1 := Next(s, Terminate(true));
    StepReachable(s, Terminate(true));
    StepReachable(s1, Config);
    StepReachable(Next(s1, Config), Issue);
  }

  /** A terminate during that transfer, and the next descriptor prepared, submitted and issued. */
  function Replaced(d: DescValue, e: DescValue): Sys
    requires |d.chunks| == 1 && Progressed(d, d.chunks, 0)
    requires e.id != d.id && e.chunks != [] && Progressed(e, e.chunks, 0)
  {
    WorkingReachable(d);
    Next(Next(Next(Next(Working(d), Terminate(false)), Prep(e)), SubmitNth(0)), Issue)
  }

  /** On a channel busy with its only descriptor a further one is issued behind it, and not started. */
  lemma IssueBehind(s: Sys, e: DescValue)
    requires Reachable(s) && Enabled(s, Prep(e))
    requires s.chan.configured && s.chan.status == Busy && s.chan.prepared == [] && s.chan.submitted == []
    ensures Enabled(Next(s, Prep(e)), SubmitNth(0))
    ensures var t := Next(Next(Next(s, Prep(e)), SubmitNth(0)), Issue);
            && Reachable(t) && t.flight == s.flight && t.chan.request == s.chan.request
            && t.chan.completed == s.chan.completed && |t.chan.issued| == |s.chan.issued| + 1
            && t.chan.issued[..|s.chan.issued|] == s.chan.issued
            && t.chan.issued[|s.chan.issued|].id == e.id && t.chan.issued[|s.chan.issued|].chunks == e.chunks
            && t.trace.starts == s.trace.starts
  {
    var s2 := Next(s, Prep(e));
    var s3 := Next(s2, SubmitNth(0));
    StepReachable(s, Prep(e));
    StepReachable(s2, SubmitNth(0));
    StepReachable(s3, Issue);
    hide Reachable, Progressed, Started;
  }

  lemma ReplacedReachable(d: DescValue, e: DescValue)
    requires |d.chunks| == 1 && Progressed(d, d.chunks, 0)
    requires e.id != d.id && e.chunks != [] && Progressed(e, e.chunks, 0)
    ensures var s := Replaced(d, e);
            && Reachable(s) && |s.flight| == 1 && s.chan.request == StopRequest && s.chan.completed == []
            && |s.chan.issued| == 2 && s.chan.issued[0].id == d.id
            && s.chan.issued[1].id == e.id && s.chan.issued[1].chunks == e.chunks
            && s.trace.starts == Working(d).trace.starts
  {
    WorkingReachable(d);
    hide Working, Reachable, Started, Progressed;
    var s1 := Next(Working(d), Terminate(false));
    StepReachable(Working(d), Terminate(false));
    IssueBehind(s1, e);
  }

  /**
   From power-up: a terminate while a chunk is in flight leaves a stop pending. The next descriptor is
   issued but not started, and the done interrupt that follows completes the earlier one, not it.
   */
  lemma StaleCompletion(d: DescValue, e: DescValue)
    requires |d.chunks| == 1 && Progressed(d, d.chunks, 0)
    requires e.id != d.id && e.chunks != [] && Progressed(e, e.chunks, 0)
    ensures var s := Next(Replaced(d, e), Done);
            && Reachable(s) && Ids(s.chan.completed) == [d.id]
            && Ids(s.chan.issued) == [e.id] && s.chan.issued[0].chunks == e.chunks
            && s.trace.starts == Working(d).trace.starts && s.flight == [] && s.chan.status == Idle
  {
    ReplacedReachable(d, e);
    StepReachable(Replaced(d, e), Done);
    hide Working, Reachable, Replaced, Progressed;
  }
}
