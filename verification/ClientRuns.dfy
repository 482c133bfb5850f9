/** What stands behind a client's success: its own transfer on a channel, from preparation to callback. */
module ClientRuns {
  import opened Words
  import opened Bursts
  import opened Requests
  import opened Memory
  import opened Engine
  import opened ChannelSpec
  import opened ChannelRuns
  import opened ChannelSafety
  import opened EndToEnd
  import Client

  /** The chunks a client's transfer compiles to. */
  function ClientChunks(dir: Direction, addr: u64, bus: u64, len: u32): seq<ChunkValue> {
    Plan(Client.ClientSetup(dir, addr, bus), dir, Client.ClientTransfer(bus, len))
  }

  /** What the transfer makes of memory: one copy between the mapped buffer and the device range. */
  function Copied(dir: Direction, w: World, addr: u64, bus: u64, len: u32): World {
    if dir == DevToMem then World(Put(w.host, bus, Load(w.dev, addr, len)), w.dev)
    else World(w.host, Put(w.dev, addr, Load(w.host, bus, len)))
  }

  lemma ClientCopies(dir: Direction, w: World, r: Region, addr: u64, bus: u64, len: u32)
    requires dir != OtherDirection && Client.OffRegion(r, addr, len)
    ensures var bs := BurstsIn(ClientChunks(dir, addr, bus, len));
            && |bs| == 1 && Avoids(dir, bs[0], r)
            && RunBursts(dir, w, bs) == Copied(dir, w, addr, bus, len)
  {
    Client.ClientPlan(dir, addr, bus, len);
    var c := ClientChunks(dir, addr, bus, len)[0];
    BurstsOfOne(c);
    assert RunTo(dir, w, c.bursts, 0) == w;
  }

  /**
   A run that begins with nothing queued or in flight on the channel, in which just a client's transfer is
   submitted, and that ends with nothing queued.
   */
  ghost predicate Serves(x: Setting, m: Machine, sts: seq<Step>, id: nat, addr: u64, bus: u64, len: u32) {
    && x.dir != OtherDirection && Client.OffRegion(x.region, addr, len)
    && MachineOk(x, m) && Queue(m.sys.chan) == [] && m.sys.flight == [] && Steps(x, m, sts)
    && var t := Final(x, m, sts);
       && t.sys.trace.order == m.sys.trace.order + [id] && Queue(t.sys.chan) == []
       && id in t.sys.trace.plans && t.sys.trace.plans[id] == ClientChunks(x.dir, addr, bus, len)
  }

  /**
   In every such run the client's transfer is the one completed last; and when nothing is in flight, which is
   so wherever no terminate forgot a chunk, the engine executed exactly its copy if and only if no step lost
   it, and then memory is, off the list region, exactly what the copy makes of it.
   */
  lemma OwnCompletion(x: Setting, m: Machine, sts: seq<Step>, id: nat, addr: u64, bus: u64, len: u32)
    requires Serves(x, m, sts, id, addr, bus, len)
    ensures Runs(m.sys, Events(sts))
    ensures var t := Final(x, m, sts);
            && t.sys.trace.freed + Ids(t.sys.chan.completed) == m.sys.trace.order + [id]
            && (NeverPremature(m.sys, Events(sts)) ==> t.sys.flight == [])
            && (t.sys.flight == [] ==>
                  && (LostIn(x, m, sts) == 0 <==>
                      t.executed == m.executed + BurstsIn(ClientChunks(x.dir, addr, bus, len)))
                  && (LostIn(x, m, sts) == 0 ==>
                        AgreeOff(t.world, Copied(x.dir, m.world, addr, bus, len), x.region)))
  {
    hide Steps, Final, LostIn, MachineOk, AgreeOff, BurstsIn, RunTo, Copied, ClientChunks, Avoids, Queue, Runs,
      NeverPremature, Events;
    ChannelRun(x, m, sts);
    OwnTransfer(x, m, sts, id);
    ClientCopies(x.dir, m.world, x.region, addr, bus, len);
    if NeverPremature(m.sys, Events(sts)) {
      NothingLeft(x, m, sts);
    }
  }

  /** In particular every such run without aborts, lost interrupts and terminates has copied it. */
  lemma PlainCompletion(x: Setting, m: Machine, sts: seq<Step>, id: nat, addr: u64, bus: u64, len: u32)
    requires Serves(x, m, sts, id, addr, bus, len) && m.sys.chan.request != StopRequest && Plain(sts)
    ensures AgreeOff(Final(x, m, sts).world, Copied(x.dir, m.world, addr, bus, len), x.region)
  {
    NothingInFlight(m.sys);
    PlainRunLosesNothing(x, m, sts);
    OwnCompletion(x, m, sts, id, addr, bus, len);
    hide Steps, Final, LostIn, MachineOk, AgreeOff, Copied, ClientChunks, BurstsIn, Runs, NeverPremature, Plain;
  }
}
