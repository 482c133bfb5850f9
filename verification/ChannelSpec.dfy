/**
 One DMA channel as a value, and each driver operation on it as a function of that value.

 A descriptor value carries its identity, its cookie and what is left of its chunk list. An
 operation that hands a chunk to the engine says which one, and whether the engine is to be set up.
 */
module ChannelSpec {
  import opened Words
  import opened Bursts
  import opened Heap
  import opened Cookies

  datatype Status = Idle | Pause | Busy

  datatype Request = NoRequest | StopRequest | PauseRequest

  datatype DescValue = DescValue(id: nat, cookie: int, chunks: seq<ChunkValue>, allocSz: u32, xferSz: u32)

  datatype Start = Start(id: nat, chunk: ChunkValue, first: bool)

  datatype Chan = Chan(configured: bool, request: Request, status: Status, used: s32, completedCookie: int,
                       prepared: seq<DescValue>, submitted: seq<DescValue>,
                       issued: seq<DescValue>, completed: seq<DescValue>)

  /** The channel afterwards, and the chunk handed to the engine, if any. */
  datatype Outcome = Outcome(chan: Chan, start: Option<Start>)

  datatype Answer = Success | NotPermitted

  function InitialChan(): Chan {
    Chan(false, NoRequest, Idle, MIN_COOKIE, MIN_COOKIE, [], [], [], [])
  }

  /** The head of the issued list hands over its first chunk, if it has one left. */
  function StartTransfer(c: Chan): Outcome {
    if c.issued == [] || c.issued[0].chunks == [] then
      Outcome(c, None)
    else
      var head := c.issued[0];
      var chunk := head.chunks[0];
      var rest := head.(chunks := head.chunks[1..], xferSz := Add32(head.xferSz, Low32(chunk.sz)));
      Outcome(c.(issued := c.issued[0 := rest]), Some(Start(head.id, chunk, head.xferSz == 0)))
  }

  /** The head of the issued list is unlinked and its cookie completed. */
  function CompleteHead(c: Chan): Chan
    requires c.issued != []
  {
    var head := c.issued[0];
    c.(issued := c.issued[1..], completedCookie := head.cookie, completed := c.completed + [head.(cookie := 0)])
  }

  function Configure(c: Chan): Chan {
    c.(configured := true)
  }

  function Prepare(c: Chan, d: DescValue): Chan {
    c.(prepared := c.prepared + [d])
  }

  /** Submission gives the k-th prepared descriptor the next cookie and moves it to the submitted list. */
  function Submit(c: Chan, k: nat): Chan
    requires k < |c.prepared|
  {
    var cookie := NextCookie(c.used);
    c.(used := cookie,
       prepared := c.prepared[..k] + c.prepared[k + 1..],
       submitted := c.submitted + [c.prepared[k].(cookie := cookie)])
  }

  function IssuePending(c: Chan): Outcome {
    if !c.configured then
      Outcome(c, None)
    else
      var moved := c.(issued := c.issued + c.submitted, submitted := []);
      if moved.issued != [] && c.request == NoRequest && c.status == Idle then
        StartTransfer(moved.(status := Busy))
      else
        Outcome(moved, None)
  }

  function RequestPause(c: Chan): (Chan, Answer) {
    if c.configured && c.status == Busy && c.request == NoRequest then
      (c.(request := PauseRequest), Success)
    else
      (c, NotPermitted)
  }

  function Resume(c: Chan): (Outcome, Answer) {
    if c.configured && c.status == Pause && c.request == NoRequest then
      (StartTransfer(c.(status := Busy)), Success)
    else
      (Outcome(c, None), NotPermitted)
  }

  /** The rank of a request in its enumeration. */
  function Rank(r: Request): nat {
    match r case NoRequest => 0 case StopRequest => 1 case PauseRequest => 2
  }

  /** `hwComplete` is what the hardware answers when it is asked for the channel's status. */
  function TerminateAll(c: Chan, hwComplete: bool): (Chan, Answer) {
    if !c.configured then (c, Success)
    else if c.status == Pause then (c.(status := Idle, configured := false), Success)
    else if c.status == Idle then (c.(configured := false), Success)
    else if hwComplete then (c.(status := Idle, configured := false), Success)
    else if Rank(c.request) > Rank(PauseRequest) then (c, NotPermitted)
    else (c.(request := StopRequest), Success)
  }

  /** Goes on with the next chunk, having completed the head if that was its last one. */
  function Continue(c: Chan): Outcome
    requires c.issued != []
  {
    var next := if c.issued[0].chunks == [] then CompleteHead(c) else c;
    var o := StartTransfer(next);
    o.(chan := o.chan.(status := if o.start.Some? then Busy else Idle))
  }

  function DoneInterrupt(c: Chan): Outcome {
    if c.issued == [] then
      Outcome(c, None)
    else
      match c.request
      case NoRequest => Continue(c)
      case StopRequest => Outcome(CompleteHead(c).(request := NoRequest, status := Idle), None)
      case PauseRequest => Outcome(c.(request := NoRequest, status := Pause), None)
  }

  function AbortInterrupt(c: Chan): Chan {
    (if c.issued == [] then c else CompleteHead(c)).(request := NoRequest, status := Idle)
  }

  /** The completion tasklet runs the callbacks of all completed descriptors and frees them. */
  function RunTasklet(c: Chan): Chan {
    c.(completed := [])
  }

  /** The issued descriptor with this cookie, as the residue lookup finds it. */
  function FindIssued(ds: seq<DescValue>, cookie: int): Option<DescValue> {
    if ds == [] then None
    else if ds[0].cookie == cookie then Some(ds[0])
    else FindIssued(ds[1..], cookie)
  }

  /** Status and residue of a cookie. */
  function TxStatusOf(c: Chan, cookie: int): (TxStatus, u32) {
    var status := CookieStatus(cookie, c.completedCookie, c.used);
    if status == Complete then (Complete, 0)
    else
      var found := FindIssued(c.issued, cookie);
      (if c.status == Pause then Paused else InProgress,
       if found.Some? then Sub32(found.value.allocSz, found.value.xferSz) else 0)
  }

  /** Terminating never reports an error: no request ranks above a pause request. */
  lemma TerminateAlwaysSucceeds(c: Chan, hwComplete: bool)
    ensures TerminateAll(c, hwComplete).1 == Success
  {
  }
}
