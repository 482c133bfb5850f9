/**
 The client driver's channel pool and the DMA mappings its transfers make, under any interleaving of
 clients, completion callbacks and timeouts.
 */
module Pool {
  import opened Heap

  /** What a client that holds a channel is doing; m is the mapping made for the transfer at hand. */
  datatype Phase = Holding(ch: nat) | Mapped(ch: nat, m: nat) | Waiting(ch: nat, m: nat)

  /**
   Per channel: whether it is used, the mapping it records, its completion. Then the clients holding a
   channel, the channel of each submitted transfer whose callback has not run, and how often each
   mapping ever made was unmapped.
   */
  datatype State = State(used: seq<bool>, buf: seq<nat>, completed: seq<bool>,
                         clients: map<nat, Phase>, pending: map<nat, nat>, unmaps: seq<nat>)

  datatype Event =
    | Acquire(c: nat)
    | Map(c: nat)
    | Fail(c: nat)
    | Submit(c: nat)
    | Callback(m: nat)
    | Finish(c: nat)
    | Timeout(c: nat)
    | Release(c: nat)

  /** The first channel not in use. */
  function FirstUnused(used: seq<bool>, from: nat): Option<nat>
    requires from <= |used|
    decreases |used| - from
  {
    if from == |used| then None else if !used[from] then Some(from) else FirstUnused(used, from + 1)
  }

  /** The search over the channel table. */
  method GetUnusedChan(used: seq<bool>) returns (r: Option<nat>)
    ensures r == FirstUnused(used, 0)
    ensures r.Some? ==> r.value < |used| && !used[r.value] && forall i :: 0 <= i < r.value ==> used[i]
    ensures r.None? <==> forall i :: 0 <= i < |used| ==> used[i]
  {
    var i := 0;
    while i < |used|
      invariant 0 <= i <= |used| && forall k :: 0 <= k < i ==> used[k]
      invariant FirstUnused(used, 0) == FirstUnused(used, i)
    {
      if !used[i] {
        return Some(i);
      }
      i := i + 1;
    }
    return None;
  }

  /** The table of one direction's channels. */
  class ChannelTable {
    var used: seq<bool>

    constructor (channels: nat)
      ensures used == seq(channels, _ => false)
    {
      used := seq(channels, _ => false);
    }

    /** One look of a waiting client: the channel it gets, or none and it keeps waiting. */
    method TryAcquire() returns (r: Option<nat>)
      modifies this
      ensures r == FirstUnused(old(used), 0)
      ensures r.Some? ==> r.value < |old(used)| && used == old(used)[r.value := true]
      ensures r.None? ==> used == old(used) && forall i :: 0 <= i < |used| ==> used[i]
    {
      r := GetUnusedChan(used);
      if r.Some? {
        used := used[r.value := true];
      }
    }

    method Release(ch: nat)
      requires ch < |used|
      modifies this
      ensures used == old(used)[ch := false]
    {
      used := used[ch := false];
    }
  }

  lemma {:induction false} FirstUnusedIs(used: seq<bool>, from: nat)
    requires from <= |used|
    ensures var r := FirstUnused(used, from);
            && (r.Some? ==> from <= r.value < |used| && !used[r.value])
            && (r.None? <==> forall i :: from <= i < |used| ==> used[i])
    decreases |used| - from
  {
    if from < |used| && used[from] {
      FirstUnusedIs(used, from + 1);
    }
  }

  predicate Enabled(s: State, e: Event) {
    match e
    case Acquire(c) => c !in s.clients && FirstUnused(s.used, 0).Some?
    case Map(c) => c in s.clients && s.clients[c].Holding?
    case Fail(c) => c in s.clients && s.clients[c].Mapped?
    case Submit(c) => c in s.clients && s.clients[c].Mapped?
    case Callback(m) => m in s.pending
    case Finish(c) => c in s.clients && s.clients[c].Waiting? && Bit(s.completed, s.clients[c].ch)
    case Timeout(c) => c in s.clients && s.clients[c].Waiting? && !Bit(s.completed, s.clients[c].ch)
    case Release(c) => c in s.clients && s.clients[c].Holding?
  }

  function Bit(s: seq<bool>, i: nat): bool {
    i < |s| && s[i]
  }

  function Put<T>(s: seq<T>, i: nat, v: T): seq<T> {
    if i < |s| then s[i := v] else s
  }

  /** One more unmapping of the mapping a channel records. */
  function Unmap(s: State, ch: nat): seq<nat> {
    if ch < |s.buf| && s.buf[ch] < |s.unmaps| then s.unmaps[s.buf[ch] := s.unmaps[s.buf[ch]] + 1] else s.unmaps
  }

  function Next(s: State, e: Event): State
    requires Enabled(s, e)
  {
    match e
    case Acquire(c) =>
      var ch := FirstUnused(s.used, 0).value;
      s.(used := Put(s.used, ch, true), clients := s.clients[c := Holding(ch)])
    case Map(c) =>
      var ch, m := s.clients[c].ch, |s.unmaps|;
      s.(buf := Put(s.buf, ch, m), unmaps := s.unmaps + [0], clients := s.clients[c := Mapped(ch, m)])
    case Fail(c) =>
      var ch := s.clients[c].ch;
      s.(unmaps := Unmap(s, ch), clients := s.clients[c := Holding(ch)])
    case Submit(c) =>
      var ch, m := s.clients[c].ch, s.clients[c].m;
      s.(completed := Put(s.completed, ch, false), pending := s.pending[m := ch],
         clients := s.clients[c := Waiting(ch, m)])
    case Callback(m) =>
      var ch := s.pending[m];
      s.(unmaps := Unmap(s, ch), completed := Put(s.completed, ch, true), pending := s.pending - {m})
    case Finish(c) => s.(clients := s.clients[c := Holding(s.clients[c].ch)])
    case Timeout(c) =>
      var ch := s.clients[c].ch;
      s.(unmaps := Unmap(s, ch), clients := s.clients[c := Holding(ch)])
    case Release(c) => s.(used := Put(s.used, s.clients[c].ch, false), clients := s.clients - {c})
  }

  function Init(channels: nat): State {
    State(seq(channels, _ => false), seq(channels, _ => 0), seq(channels, _ => false), map[], map[], [])
  }

  ghost predicate Runs(s: State, es: seq<Event>)
    decreases |es|
  {
    es == [] || (Enabled(s, es[0]) && Runs(Next(s, es[0]), es[1..]))
  }

  ghost function Exec(s: State, es: seq<Event>): State
    requires Runs(s, es)
    decreases |es|
  {
    if es == [] then s else Exec(Next(s, es[0]), es[1..])
  }

  // Holding channels.

  ghost predicate HeldBy(s: State, ch: nat, c: nat) {
    c in s.clients && s.clients[c].ch == ch
  }

  ghost predicate IsHeld(s: State, ch: nat) {
    exists c :: HeldBy(s, ch, c)
  }

  /** A channel is marked used exactly when some client holds it, and no two clients hold the same one. */
  ghost predicate HoldOk(s: State) {
    && |s.buf| == |s.used| && |s.completed| == |s.used|
    && (forall c :: c in s.clients ==> s.clients[c].ch < |s.used|)
    && (forall ch :: 0 <= ch < |s.used| ==> (s.used[ch] <==> IsHeld(s, ch)))
    && (forall c, d :: c in s.clients && d in s.clients && c != d ==> s.clients[c].ch != s.clients[d].ch)
  }

  lemma HolderUses(s: State, c: nat)
    requires HoldOk(s) && c in s.clients
    ensures s.used[s.clients[c].ch]
  {
    assert HeldBy(s, s.clients[c].ch, c);
  }

  lemma HoldAcquire(s: State, c: nat)
    requires Enabled(s, Acquire(c)) && HoldOk(s)
    ensures HoldOk(Next(s, Acquire(c)))
  {
    FirstUnusedIs(s.used, 0);
    var t := Next(s, Acquire(c));
    forall d | d in s.clients
      ensures t.clients[d] == s.clients[d] && t.clients[d].ch != t.clients[c].ch
    {
      HolderUses(s, d);
    }
    forall ch | 0 <= ch < |s.used|
      ensures t.used[ch] <==> IsHeld(t, ch)
    {
      if s.used[ch] {
        var d :| HeldBy(s, ch, d);
        assert HeldBy(t, ch, d);
      }
      if ch == t.clients[c].ch {
        assert HeldBy(t, ch, c);
      }
      forall d | HeldBy(t, ch, d)
        ensures t.used[ch]
      {
        if d != c {
          HolderUses(s, d);
        }
      }
    }
  }

  lemma HoldRelease(s: State, c: nat)
    requires Enabled(s, Release(c)) && HoldOk(s)
    ensures HoldOk(Next(s, Release(c)))
  {
    var t := Next(s, Release(c));
    forall ch | 0 <= ch < |s.used|
      ensures t.used[ch] <==> IsHeld(t, ch)
    {
      if t.used[ch] {
        var d :| HeldBy(s, ch, d);
        assert HeldBy(t, ch, d);
      } else {
        forall d
          ensures !HeldBy(t, ch, d)
        {
          if d in s.clients {
            HolderUses(s, d);
          }
        }
      }
    }
  }

  /** Steps that neither take nor give back a channel. */
  lemma HoldSame(s: State, t: State)
    requires HoldOk(s) && t.used == s.used && |t.buf| == |s.buf| && |t.completed| == |s.completed|
    requires forall c :: c in t.clients <==> c in s.clients
    requires forall c :: c in s.clients ==> t.clients[c].ch == s.clients[c].ch
    ensures HoldOk(t)
  {
    forall ch, c
      ensures HeldBy(t, ch, c) == HeldBy(s, ch, c)
    {
    }
  }

  lemma HoldKept(s: State, e: Event)
    requires Enabled(s, e) && HoldOk(s)
    ensures HoldOk(Next(s, e))
  {
    if e.Acquire? {
      HoldAcquire(s, e.c);
    } else if e.Release? {
      HoldRelease(s, e.c);
    } else {
      HoldSame(s, Next(s, e));
    }
  }

  lemma {:induction false} RunKeepsHold(s: State, es: seq<Event>)
    requires Runs(s, es) && HoldOk(s)
    ensures HoldOk(Exec(s, es))
    decreases |es|
  {
    hide HoldOk, Next, Enabled;
    if es != [] {
      HoldKept(s, es[0]);
      RunKeepsHold(Next(s, es[0]), es[1..]);
    }
  }

  /** A new client has to wait exactly when every channel is held by some client. */
  lemma WaitsIff(s: State, c: nat)
    requires HoldOk(s) && c !in s.clients
    ensures !Enabled(s, Acquire(c)) <==> forall ch :: 0 <= ch < |s.used| ==> IsHeld(s, ch)
  {
    FirstUnusedIs(s.used, 0);
  }

  lemma InitOk(channels: nat)
    ensures HoldOk(Init(channels)) && MapsOk(Init(channels))
  {
  }

  // Mappings.

  /** Some client's transfer with mapping m is under way: not submitted, or its callback has not run. */
  ghost predicate Active(s: State, m: nat) {
    exists c :: ActiveFor(s, m, c)
  }

  ghost predicate ActiveFor(s: State, m: nat, c: nat) {
    && c in s.clients
    && (s.clients[c].Mapped? || s.clients[c].Waiting?) && s.clients[c].m == m
    && (s.clients[c].Waiting? ==> m in s.pending)
  }

  /** Every mapping made is unmapped exactly once by the time its transfer is over, and not before. */
  ghost predicate Exact(s: State) {
    forall m :: 0 <= m < |s.unmaps| ==> s.unmaps[m] == if Active(s, m) then 0 else 1
  }

  /** What a client holding a channel may rely on. */
  ghost predicate ClientOk(s: State, c: nat)
    requires c in s.clients
  {
    match s.clients[c]
    case Holding(_) => true
    case Mapped(ch, m) => ch < |s.buf| && s.buf[ch] == m < |s.unmaps| && m !in s.pending
    case Waiting(ch, m) =>
      && ch < |s.buf| && s.buf[ch] == m < |s.unmaps|
      && (m in s.pending ==> s.pending[m] == ch) && (m in s.pending <==> !Bit(s.completed, ch))
  }

  /** Distinct transfers under way have distinct mappings. */
  ghost predicate MapsDistinct(s: State) {
    forall c, d :: c in s.clients && d in s.clients && c != d && !s.clients[c].Holding? && !s.clients[d].Holding? ==>
      s.clients[c].m != s.clients[d].m
  }

  ghost predicate PendingOk(s: State) {
    forall m :: m in s.pending ==>
      m < |s.unmaps| && s.pending[m] < |s.buf| && s.buf[s.pending[m]] < |s.unmaps|
  }

  ghost predicate MapsOk(s: State) {
    Exact(s) && (forall c :: c in s.clients ==> ClientOk(s, c)) && MapsDistinct(s) && PendingOk(s)
  }

  /** A callback that runs although no client waits for it any more: its client timed out. */
  ghost predicate Late(s: State, e: Event) {
    e.Callback? && forall c :: c in s.clients ==> !(s.clients[c].Waiting? && s.clients[c].m == e.m)
  }

  /** The mapping a client's transfer has, whether it was submitted or not. */
  lemma ActiveOnly(s: State, c: nat)
    requires MapsOk(s) && c in s.clients && !s.clients[c].Holding?
    requires s.clients[c].Waiting? ==> s.clients[c].m in s.pending
    ensures s.clients[c].m < |s.unmaps| && s.unmaps[s.clients[c].m] == 0
    ensures forall d :: ActiveFor(s, s.clients[c].m, d) <==> d == c
  {
    assert ClientOk(s, c);
    assert ActiveFor(s, s.clients[c].m, c);
  }

  /** Two states in which the same mappings are under way. */
  lemma ExactSame(s: State, t: State)
    requires Exact(s) && t.unmaps == s.unmaps
    requires forall m: nat, c: nat :: m < |s.unmaps| ==> (ActiveFor(t, m, c) <==> ActiveFor(s, m, c))
    ensures Exact(t)
  {
    forall m | 0 <= m < |t.unmaps|
      ensures Active(t, m) == Active(s, m)
    {
    }
  }

  /** The transfer with mapping k ends, and its mapping is unmapped. */
  lemma ExactEnds(s: State, t: State, k: nat)
    requires Exact(s) && k < |s.unmaps| && s.unmaps[k] == 0 && t.unmaps == s.unmaps[k := 1]
    requires forall m: nat, c: nat :: m < |s.unmaps| && m != k ==> (ActiveFor(t, m, c) <==> ActiveFor(s, m, c))
    requires forall c :: !ActiveFor(t, k, c)
    ensures Exact(t)
  {
    forall m | 0 <= m < |t.unmaps| && m != k
      ensures Active(t, m) == Active(s, m)
    {
    }
  }

  lemma MapKeeps(s: State, c: nat)
    requires Enabled(s, Map(c)) && HoldOk(s) && MapsOk(s)
    ensures MapsOk(Next(s, Map(c)))
  {
    var t := Next(s, Map(c));
    var k := |s.unmaps|;
    forall d | d in t.clients
      ensures ClientOk(t, d)
    {
      assert ClientOk(s, d);
    }
    assert ActiveFor(t, k, c);
    forall m | 0 <= m < |t.unmaps|
      ensures t.unmaps[m] == if Active(t, m) then 0 else 1
    {
      if m < k {
        forall d: nat
          ensures ActiveFor(t, m, d) <==> ActiveFor(s, m, d)
        {
        }
      }
    }
  }

  /** Error path before submission, or timeout with the callback still to come. */
  lemma EndKeeps(s: State, e: Event)
    requires (e.Fail? || e.Timeout?) && Enabled(s, e) && HoldOk(s) && MapsOk(s)
    ensures MapsOk(Next(s, e))
  {
    var t := Next(s, e);
    var k := s.clients[e.c].m;
    assert ClientOk(s, e.c);
    ActiveOnly(s, e.c);
    forall d | d in t.clients
      ensures ClientOk(t, d)
    {
      assert ClientOk(s, d);
    }
    ExactEnds(s, t, k);
  }

  lemma SubmitKeeps(s: State, c: nat)
    requires Enabled(s, Submit(c)) && HoldOk(s) && MapsOk(s)
    ensures MapsOk(Next(s, Submit(c)))
  {
    var t := Next(s, Submit(c));
    assert ClientOk(s, c);
    forall d | d in t.clients
      ensures ClientOk(t, d)
    {
      assert ClientOk(s, d);
    }
    ExactSame(s, t);
  }

  /** A callback whose client still waits. */
  lemma CallbackKeeps(s: State, m: nat, c: nat)
    requires Enabled(s, Callback(m)) && HoldOk(s) && MapsOk(s)
    requires c in s.clients && s.clients[c] == Waiting(s.clients[c].ch, m)
    ensures MapsOk(Next(s, Callback(m)))
  {
    var t := Next(s, Callback(m));
    assert ClientOk(s, c);
    ActiveOnly(s, c);
    forall d | d in t.clients
      ensures ClientOk(t, d)
    {
      assert ClientOk(s, d);
    }
    ExactEnds(s, t, m);
  }

  lemma QuietKeeps(s: State, e: Event)
    requires (e.Finish? || e.Acquire? || e.Release?) && Enabled(s, e) && HoldOk(s) && MapsOk(s)
    ensures MapsOk(Next(s, e))
  {
    FirstUnusedIs(s.used, 0);
    var t := Next(s, e);
    if e.Finish? {
      assert ClientOk(s, e.c);
    }
    forall d | d in t.clients
      ensures ClientOk(t, d)
    {
      if d in s.clients {
        assert ClientOk(s, d);
      }
    }
    ExactSame(s, t);
  }

  /** A late callback unmaps a mapping that is no longer, or still, in use. */
  lemma LateBreaks(s: State, m: nat)
    requires Enabled(s, Callback(m)) && MapsOk(s) && Late(s, Callback(m))
    ensures !Exact(Next(s, Callback(m)))
  {
    var t := Next(s, Callback(m));
    var k := s.buf[s.pending[m]];
    assert s.unmaps[k] == if Active(s, k) then 0 else 1;
    if Active(s, k) {
      var c :| ActiveFor(s, k, c);
      assert ClientOk(s, c);
      assert ActiveFor(t, k, c);
      assert t.unmaps[k] == 1;
    } else {
      assert t.unmaps[k] == 2;
    }
  }

  /** Mappings stay exactly-once in every step but a late callback, and never survive one. */
  lemma MapsKeptIff(s: State, e: Event)
    requires Enabled(s, e) && HoldOk(s) && MapsOk(s)
    ensures MapsOk(Next(s, e)) <==> !Late(s, e)
  {
    if Late(s, e) {
      LateBreaks(s, e.m);
    } else {
      match e {
        case Map(c) => MapKeeps(s, c);
        case Fail(_) => EndKeeps(s, e);
        case Timeout(_) => EndKeeps(s, e);
        case Submit(c) => SubmitKeeps(s, c);
        case Callback(m) =>
          var c :| c in s.clients && s.clients[c].Waiting? && s.clients[c].m == m;
          CallbackKeeps(s, m, c);
        case _ => QuietKeeps(s, e);
      }
    }
  }

  ghost predicate NeverLate(s: State, es: seq<Event>)
    requires Runs(s, es)
    decreases |es|
  {
    es == [] || (!Late(s, es[0]) && NeverLate(Next(s, es[0]), es[1..]))
  }

  /**
   In every run without a late callback each DMA mapping is unmapped exactly once, by the callback or
   by the error path, before its client can give the channel back.
   */
  lemma {:induction false} RunKeepsMaps(s: State, es: seq<Event>)
    requires Runs(s, es) && NeverLate(s, es) && HoldOk(s) && MapsOk(s)
    ensures HoldOk(Exec(s, es)) && MapsOk(Exec(s, es))
    decreases |es|
  {
    hide HoldOk, MapsOk, Late, Next, Enabled;
    if es != [] {
      HoldKept(s, es[0]);
      MapsKeptIff(s, es[0]);
      RunKeepsMaps(Next(s, es[0]), es[1..]);
    }
  }

  /** When no client has a transfer under way, every mapping ever made has been unmapped exactly once. */
  lemma AllUnmapped(s: State, m: nat)
    requires MapsOk(s) && m < |s.unmaps| && forall c :: c in s.clients ==> s.clients[c].Holding?
    ensures s.unmaps[m] == 1
  {
    assert !Active(s, m);
  }

  /** A transfer that times out and is called back afterwards: its mapping is unmapped twice. */
  lemma TimeoutUnmapsTwice(channels: nat)
    requires 1 <= channels
    ensures var s := Next(Next(Next(Next(Init(channels), Acquire(0)), Map(0)), Submit(0)), Timeout(0));
            Late(s, Callback(0)) && Next(s, Callback(0)).unmaps == [2]
  {
    FirstUnusedIs(Init(channels).used, 0);
  }

  /** Without late callbacks a wait ends only by the client's own callback, which has unmapped its buffer. */
  lemma FinishIsOwn(s: State, c: nat)
    requires MapsOk(s) && Enabled(s, Finish(c))
    ensures var m := s.clients[c].m; m !in s.pending && m < |s.unmaps| && s.unmaps[m] == 1
  {
    assert ClientOk(s, c);
    forall d
      ensures !ActiveFor(s, s.clients[c].m, d)
    {
    }
    assert !Active(s, s.clients[c].m);
  }

  /** In every run without a late callback: whoever's wait can end has been called back for its own transfer. */
  lemma RunFinishesOwn(channels: nat, es: seq<Event>, c: nat)
    requires Runs(Init(channels), es) && NeverLate(Init(channels), es)
    requires Enabled(Exec(Init(channels), es), Finish(c))
    ensures var s := Exec(Init(channels), es);
            var m := s.clients[c].m;
            m !in s.pending && m < |s.unmaps| && s.unmaps[m] == 1
  {
    InitOk(channels);
    RunKeepsMaps(Init(channels), es);
    FinishIsOwn(Exec(Init(channels), es), c);
  }

  /** One client's transfer times out, the next client takes the channel, and the first one's callback comes. */
  function StaleRun(channels: nat): State
    requires 1 <= channels
  {
    FirstUnusedIs(Init(channels).used, 0);
    var s := Next(Next(Next(Next(Init(channels), Acquire(0)), Map(0)), Submit(0)), Timeout(0));
    var t := Next(s, Release(0));
    FirstUnusedIs(t.used, 0);
    Next(Next(Next(Next(t, Acquire(1)), Map(1)), Submit(1)), Callback(0))
  }

  /** The next client's wait ends, although its own transfer has not been called back. */
  lemma StaleFinish(channels: nat)
    requires 1 <= channels
    ensures var s := StaleRun(channels);
            Enabled(s, Finish(1)) && s.clients[1].m == 1 && 1 in s.pending
  {
    FirstUnusedIs(Init(channels).used, 0);
  }
}
