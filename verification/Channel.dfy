/**
 The DMA channel as the driver keeps it: an object whose status fields and descriptor lists are
 changed in place. Each operation is proved to have the effect of its function in ChannelSpec.
 */
module Channel {
  import opened Words
  import opened Bursts
  import opened Heap
  import opened Cookies
  import opened ChannelSpec

  /** A descriptor on one of a channel's lists. */
  class VirtDesc {
    const id: nat
    const allocSz: u32
    var cookie: int
    var chunks: seq<ChunkValue>
    var chunksAlloc: u32
    var xferSz: u32

    constructor (id: nat, chunks: seq<ChunkValue>, allocSz: u32)
      requires |chunks| < 0x1_0000_0000
      ensures Counted() && Value() == DescValue(id, 0, chunks, allocSz, 0)
    {
      this.id, this.allocSz, this.chunks := id, allocSz, chunks;
      cookie, chunksAlloc, xferSz := 0, |chunks|, 0;
    }

    predicate Counted()
      reads this
    {
      chunksAlloc == |chunks|
    }

    function Value(): DescValue
      reads this
    {
      DescValue(id, cookie, chunks, allocSz, xferSz)
    }
  }

  function Values(ds: seq<VirtDesc>): (vs: seq<DescValue>)
    reads ds
    ensures |vs| == |ds|
  {
    seq(|ds|, i requires 0 <= i < |ds| reads ds => ds[i].Value())
  }

  lemma ValuesConcat(a: seq<VirtDesc>, b: seq<VirtDesc>)
    ensures Values(a + b) == Values(a) + Values(b)
  {
  }

  /** No descriptor twice on a list. */
  predicate Once(ds: seq<VirtDesc>) {
    forall i, j :: 0 <= i < j < |ds| ==> ds[i] != ds[j]
  }

  /** No descriptor on both lists. */
  predicate Clear(a: seq<VirtDesc>, b: seq<VirtDesc>) {
    forall i, j :: 0 <= i < |a| && 0 <= j < |b| ==> a[i] != b[j]
  }

  predicate Apart(p: seq<VirtDesc>, s: seq<VirtDesc>, i: seq<VirtDesc>, c: seq<VirtDesc>) {
    && Once(p) && Once(s) && Once(i) && Once(c)
    && Clear(p, s) && Clear(p, i) && Clear(p, c) && Clear(s, i) && Clear(s, c) && Clear(i, c)
  }

  lemma ApartMoved(p: seq<VirtDesc>, s: seq<VirtDesc>, i: seq<VirtDesc>, c: seq<VirtDesc>, k: nat)
    requires Apart(p, s, i, c) && k < |p|
    ensures Apart(p[..k] + p[k + 1..], s + [p[k]], i, c)
    ensures p[k] !in p[..k] + p[k + 1..] && p[k] !in s && p[k] !in i && p[k] !in c
  {
  }

  predicate Counted(ds: seq<VirtDesc>)
    reads ds
  {
    forall i :: 0 <= i < |ds| ==> ds[i].Counted()
  }

  class DmaChannel {
    var configured: bool
    var request: Request
    var status: Status
    var cookie: s32
    var completedCookie: int
    var prepared: seq<VirtDesc>
    var submitted: seq<VirtDesc>
    var issued: seq<VirtDesc>
    var completed: seq<VirtDesc>
    /** The chunks handed to the engine. */
    var engine: seq<Start>

    /** No descriptor is on two lists, or twice on one, and every counter agrees with its list. */
    ghost predicate Valid()
      reads this`prepared, this`submitted, this`issued, this`completed, prepared, submitted, issued, completed
    {
      && Apart(prepared, submitted, issued, completed)
      && Counted(prepared) && Counted(submitted) && Counted(issued) && Counted(completed)
    }

    function Abs(): Chan
      reads this, prepared, submitted, issued, completed
    {
      Chan(configured, request, status, cookie, completedCookie,
           Values(prepared), Values(submitted), Values(issued), Values(completed))
    }

    constructor ()
      ensures Valid() && Abs() == InitialChan() && engine == []
    {
      configured, request, status := false, NoRequest, Idle;
      cookie, completedCookie := MIN_COOKIE, MIN_COOKIE;
      prepared, submitted, issued, completed, engine := [], [], [], [], [];
    }

    method Config()
      requires Valid()
      modifies this`configured
      ensures Valid() && Abs() == Configure(old(Abs()))
    {
      configured := true;
    }

    method Prep(d: VirtDesc)
      requires Valid() && d.Counted()
      requires d !in prepared && d !in submitted && d !in issued && d !in completed
      modifies this`prepared
      ensures Valid() && Abs() == Prepare(old(Abs()), d.Value())
    {
      ValuesConcat(prepared, [d]);
      prepared := prepared + [d];
      assert Values([d]) == [d.Value()];
    }

    /** The kernel's submission: the next cookie, and from the prepared to the submitted list. */
    method TxSubmit(k: nat)
      requires Valid() && k < |prepared|
      modifies this`cookie, this`prepared, this`submitted, prepared[k]
      ensures Valid() && Abs() == Submit(old(Abs()), k)
    {
      ApartMoved(prepared, submitted, issued, completed, k);
      hide WrapSigned, Apart;
      var d := prepared[k];
      var next := WrapSigned(cookie + 1);
      if next < MIN_COOKIE {
        next := MIN_COOKIE;
      }
      cookie := next;
      d.cookie := next;
      prepared := prepared[..k] + prepared[k + 1..];
      submitted := submitted + [d];
    }

    method StartTransfer() returns (started: bool)
      requires Valid()
      modifies this`engine, issued
      ensures Valid()
      ensures var o := ChannelSpec.StartTransfer(old(Abs()));
              Abs() == o.chan && started == o.start.Some?
              && engine == old(engine) + (if o.start.Some? then [o.start.value] else [])
    {
      if issued == [] {
        return false;
      }
      var desc := issued[0];
      if desc.chunks == [] {
        return false;
      }
      assert desc.Counted();
      var child := desc.chunks[0];
      engine := engine + [Start(desc.id, child, desc.xferSz == 0)];
      desc.xferSz := Add32(desc.xferSz, Low32(child.sz));
      desc.chunks := desc.chunks[1..];
      desc.chunksAlloc := desc.chunksAlloc - 1;
      return true;
    }

    /** The head of the issued list is unlinked, its cookie completed, and it joins the completed list. */
    method CookieComplete()
      requires Valid() && issued != []
      modifies this`issued, this`completed, this`completedCookie, issued[0]
      ensures Valid() && Abs() == CompleteHead(old(Abs())) && issued == old(issued)[1..]
    {
      var vd := issued[0];
      issued := issued[1..];
      completedCookie := vd.cookie;
      vd.cookie := 0;
      completed := completed + [vd];
    }

    /** Moves the submitted descriptors behind the issued ones. */
    method Splice()
      requires Valid()
      modifies this`issued, this`submitted
      ensures Valid() && issued == old(issued) + old(submitted)
      ensures var c := old(Abs()); Abs() == c.(issued := c.issued + c.submitted, submitted := [])
    {
      ValuesConcat(issued, submitted);
      issued := issued + submitted;
      submitted := [];
    }

    /** Moves the submitted descriptors to the issued list and starts the head of an idle channel. */
    method IssuePending()
      requires Valid()
      modifies this`status, this`issued, this`submitted, this`engine, issued, submitted
      ensures Valid()
      ensures var o := ChannelSpec.IssuePending(old(Abs()));
              Abs() == o.chan && engine == old(engine) + (if o.start.Some? then [o.start.value] else [])
    {
      hide ChannelSpec.StartTransfer, Valid, Values;
      if !configured {
        return;
      }
      Splice();
      if issued != [] && request == NoRequest && status == Idle {
        status := Busy;
        var _ := StartTransfer();
      }
    }

    method Pause() returns (answer: Answer)
      requires Valid()
      modifies this`request
      ensures Valid() && (Abs(), answer) == RequestPause(old(Abs()))
    {
      if !configured {
        return NotPermitted;
      } else if status != Busy {
        return NotPermitted;
      } else if request != NoRequest {
        return NotPermitted;
      }
      request := PauseRequest;
      return Success;
    }

    method Resume() returns (answer: Answer)
      requires Valid()
      modifies this`status, this`engine, issued
      ensures Valid()
      ensures var (o, a) := ChannelSpec.Resume(old(Abs()));
              && Abs() == o.chan && answer == a
              && engine == old(engine) + (if o.start.Some? then [o.start.value] else [])
    {
      hide ChannelSpec.StartTransfer, Valid, Values;
      if !configured {
        return NotPermitted;
      } else if status != ChannelSpec.Pause {
        return NotPermitted;
      } else if request != NoRequest {
        return NotPermitted;
      }
      status := Busy;
      var _ := StartTransfer();
      return Success;
    }

    /** `hwComplete` is what the hardware answers when asked for the channel's status. */
    method TerminateAll(hwComplete: bool) returns (answer: Answer)
      requires Valid()
      modifies this`configured, this`status, this`request
      ensures Valid() && (Abs(), answer) == ChannelSpec.TerminateAll(old(Abs()), hwComplete)
    {
      answer := Success;
      if !configured {
      } else if status == ChannelSpec.Pause {
        status := Idle;
        configured := false;
      } else if status == Idle {
        configured := false;
      } else if hwComplete {
        status := Idle;
        configured := false;
      } else if Rank(request) > Rank(PauseRequest) {
        answer := NotPermitted;
      } else {
        request := StopRequest;
      }
    }

    /** Completes the head if its last chunk is gone. */
    method RetireSpent()
      requires Valid() && issued != []
      modifies this`issued, this`completed, this`completedCookie, issued[0]
      ensures Valid() && (issued == old(issued) || issued == old(issued)[1..])
      ensures Abs() == if old(Abs()).issued[0].chunks == [] then CompleteHead(old(Abs())) else old(Abs())
    {
      var desc := issued[0];
      assert desc.Counted() && Abs().issued[0] == desc.Value();
      hide CompleteHead, Valid, Values;
      if desc.chunksAlloc == 0 {
        CookieComplete();
      }
    }

    /** Goes on with the next chunk, having completed the head if that was its last one. */
    method Continue()
      requires Valid() && issued != []
      modifies this`status, this`issued, this`completed, this`completedCookie, this`engine, issued
      ensures Valid()
      ensures var o := ChannelSpec.Continue(old(Abs()));
              Abs() == o.chan && engine == old(engine) + (if o.start.Some? then [o.start.value] else [])
    {
      hide ChannelSpec.StartTransfer, CompleteHead, Valid, Values;
      RetireSpent();
      var started := StartTransfer();
      status := if started then Busy else Idle;
    }

    /** The engine reports a chunk done. */
    method DoneInterrupt()
      requires Valid()
      modifies this`status, this`request, this`issued, this`completed, this`completedCookie, this`engine, issued
      ensures Valid()
      ensures var o := ChannelSpec.DoneInterrupt(old(Abs()));
              Abs() == o.chan && engine == old(engine) + (if o.start.Some? then [o.start.value] else [])
    {
      hide ChannelSpec.Continue, CompleteHead, Valid, Values;
      if issued != [] {
        match request {
          case NoRequest => Continue();
          case StopRequest =>
            CookieComplete();
            request := NoRequest;
            status := Idle;
          case PauseRequest =>
            request := NoRequest;
            status := ChannelSpec.Pause;
        }
      }
    }

    /** The engine reports a chunk aborted. */
    method AbortInterrupt()
      requires Valid()
      modifies this`status, this`request, this`issued, this`completed, this`completedCookie, issued
      ensures Valid() && Abs() == ChannelSpec.AbortInterrupt(old(Abs()))
    {
      hide CompleteHead, Valid, Values;
      if issued != [] {
        CookieComplete();
      }
      request := NoRequest;
      status := Idle;
    }

    /** The completion tasklet takes all completed descriptors off and frees them. */
    method RunTasklet() returns (freed: seq<VirtDesc>)
      requires Valid()
      modifies this`completed
      ensures Valid() && Abs() == ChannelSpec.RunTasklet(old(Abs()))
      ensures freed == old(completed)
    {
      freed := completed;
      completed := [];
    }

    /** The kernel's search of the issued list. */
    method FindDesc(wanted: int) returns (found: Option<VirtDesc>)
      ensures found.None? <==> FindIssued(Values(issued), wanted) == None
      ensures found.Some? ==> FindIssued(Values(issued), wanted) == Some(found.value.Value())
    {
      var i := 0;
      while i < |issued|
        invariant 0 <= i <= |issued|
        invariant FindIssued(Values(issued), wanted) == FindIssued(Values(issued)[i..], wanted)
      {
        if issued[i].cookie == wanted {
          return Some(issued[i]);
        }
        assert Values(issued)[i..][1..] == Values(issued)[i + 1..];
        i := i + 1;
      }
      return None;
    }

    /** Status and residue, for a client that asked for both. */
    method TxStatus(wanted: int) returns (status: TxStatus, residue: u32)
      ensures (status, residue) == TxStatusOf(Abs(), wanted)
    {
      hide FindIssued;
      status := CookieStatus(wanted, completedCookie, cookie);
      residue := 0;
      if status == Complete {
        return;
      }
      if status == InProgress && this.status == ChannelSpec.Pause {
        status := Paused;
      }
      var vd := FindDesc(wanted);
      if vd.Some? {
        residue := Sub32(vd.value.allocSz, vd.value.xferSz);
      }
    }
  }
}
