/** The server class of src/TcpServer.cpp.

    The server's own fields change in place; the loops, the connection objects and what user code holds
    are its surroundings, and change when a functor is queued or a connection is established.  Each
    method is proved to do what the function of the same name in `Servers` does, so that what is proved
    there about runs holds of the object. */
module TcpServers {
  import opened Options
  import opened Servers
  import E = EventLoopThreadPools
  import C = Connections
  import P = Pollers

  class TcpServer {
    const loop: LoopId
    const ipPort: string
    const threadPool: E.EventLoopThreadPool
    var started: nat
    /** The acceptor listens, or the functor that makes it listen is queued on the base loop. */
    var listening: bool
    var listenQueued: bool
    var connections: map<string, Id>
    var nextConnId: nat

    var loops: map<LoopId, Loop>
    var conns: map<Id, Conn>
    var held: set<Id>

    /** Every connection is on the loop whose turn it was. */
    ghost predicate Valid()
      reads this, threadPool
    {
      && threadPool.Valid() && threadPool.baseLoop == loop
      && loop in loops && (forall l :: l in threadPool.loops ==> l in loops)
      && (started > 0 <==> threadPool.started)
      && (started > 0 <==> listening || listenQueued) && !(listening && listenQueued)
      && nextConnId == threadPool.calls + 1
      && (forall id :: id in conns <==> 1 <= id < nextConnId)
      && (forall id :: id in conns ==> threadPool.loops != [] && conns[id].loop == E.Turn(threadPool.loops, id - 1))
    }

    ghost function View(): Server
      reads this
    {
      Server(loop, ipPort, loops, conns, connections, nextConnId, held)
    }

    constructor (loop: LoopId, ipPort: string, workers: set<LoopId>)
      ensures Valid() && started == 0 && fresh(threadPool) && View() == Servers.Start(loop, workers, ipPort)
    {
      this.loop := loop;
      this.ipPort := ipPort;
      threadPool := new E.EventLoopThreadPool(loop);
      started := 0;
      listening, listenQueued := false, false;
      connections := map[];
      nextConnId := 1;
      loops := map l | l in workers + {loop} :: Loop(Polling, [], [], 0, [], None, map[]);
      conns := map[];
      held := {};
    }

    /** Only the first call starts the pool and has the acceptor listen: at once when it is made on the
        base loop, by a functor queued there otherwise. */
    method Start(spawned: seq<LoopId>, onBaseLoop: bool)
      requires Valid() && forall l :: l in spawned ==> l in loops
      modifies this`started, this`listening, this`listenQueued, threadPool
      ensures Valid() && started == old(started) + 1 && View() == old(View())
      ensures threadPool.loops == if old(started) == 0 then [loop] + spawned else old(threadPool.loops)
      ensures listening == if old(started) == 0 then onBaseLoop else old(listening)
      ensures listenQueued == if old(started) == 0 then !onBaseLoop else old(listenQueued)
    {
      assert nextConnId > 1 ==> 1 in conns;
      if started == 0 {
        threadPool.Start(spawned);
        if onBaseLoop {
          listening := true;
        } else {
          listenQueued := true;
        }
      }
      started := started + 1;
    }

    method QueueInLoop(l: LoopId, f: Functor)
      requires l in loops
      modifies this`loops
      ensures View() == old(View()).Queue(l, f)
    {
      loops := loops[l := loops[l].Push(f)];
    }

    method ConnectEstablished(id: Id)
      requires id in conns && conns[id].loop in loops
      modifies this`conns, this`loops
      ensures View() == Established(old(View()), id)
      ensures conns.Keys == old(conns.Keys) && loops.Keys == old(loops.Keys)
      ensures forall j :: j in conns ==> conns[j].loop == old(conns[j].loop)
    {
      var c := conns[id];
      conns := conns[id := c.(state := C.Connected, index := P.Added, phase := Up)];
      loops := loops[c.loop := loops[c.loop].(channels := loops[c.loop].channels[c.fd := id])];
    }

    /** A socket has been accepted on the base loop: the pool picks the loop, the map gets the entry, and
        the connection is established there. */
    method NewConnection(sockfd: Fd)
      requires Valid() && started > 0
      modifies this`nextConnId, this`connections, this`conns, this`loops, threadPool
      ensures Valid() && threadPool.loops == old(threadPool.loops)
      ensures E.Turn(threadPool.loops, old(nextConnId) - 1) in old(loops)
      ensures View() == Servers.NewConnection(old(View()), sockfd, E.Turn(threadPool.loops, old(nextConnId) - 1))
      ensures Inv(old(View())) && Enabled(old(View()), Accept(sockfd, E.Turn(threadPool.loops, old(nextConnId) - 1))) ==>
        Inv(View())
    {
      hide Inv, Enabled, Created, ConnName, Established, E.Turn;
      ghost var s := View();
      var picked := threadPool.GetNextLoop();
      var ioLoop := picked.value;
      var id := nextConnId;
      CreateConnection(sockfd, ioLoop);
      TurnTaken(s, ioLoop);
      RunEstablish(id, ioLoop);
      AcceptInv(s, sockfd, ioLoop);
    }

    /** What `Valid` needs of the new connection: the pool has picked the loop whose turn it was. */
    lemma TurnTaken(s: Server, ioLoop: LoopId)
      requires threadPool.loops != [] && s.nextConnId == threadPool.calls && s.nextConnId + 1 == nextConnId
      requires s.nextConnId >= 1 && ioLoop == E.Turn(threadPool.loops, s.nextConnId - 1)
      requires forall id :: id in s.conns <==> 1 <= id < s.nextConnId
      requires forall id :: id in s.conns ==> s.conns[id].loop == E.Turn(threadPool.loops, id - 1)
      requires conns.Keys == s.conns.Keys + {s.nextConnId} && conns[s.nextConnId].loop == ioLoop
      requires forall id :: id in s.conns && id != s.nextConnId ==> conns[id] == s.conns[id]
      ensures forall id :: id in conns <==> 1 <= id < nextConnId
      ensures forall id :: id in conns ==> conns[id].loop == E.Turn(threadPool.loops, id - 1)
    {
    }

    /** `runInLoop` of `connectEstablished`. */
    method RunEstablish(id: Id, ioLoop: LoopId)
      requires Valid() && id in conns && conns[id].loop == ioLoop
      modifies this`conns, this`loops
      ensures Valid() && ioLoop in old(loops)
      ensures View() == if ioLoop == loop then Established(old(View()), id) else old(View()).Queue(ioLoop, Establish(id))
    {
      if ioLoop == loop {
        ConnectEstablished(id);
      } else {
        QueueInLoop(ioLoop, Establish(id));
      }
    }

    /** The part of `newConnection` that makes the object and enters it into the map. */
    method CreateConnection(sockfd: Fd, ioLoop: LoopId)
      modifies this`nextConnId, this`connections, this`conns
      ensures View() == Created(old(View()), sockfd, ioLoop)
      ensures conns.Keys == old(conns.Keys) + {old(nextConnId)} && nextConnId == old(nextConnId) + 1
      ensures forall id :: id in old(conns) && id != old(nextConnId) ==> conns[id] == old(conns[id])
      ensures conns[old(nextConnId)].loop == ioLoop
    {
      var id := nextConnId;
      var connName := ConnName(ipPort, nextConnId);
      nextConnId := nextConnId + 1;
      conns := conns[id := Conn(connName, sockfd, ioLoop, C.Connecting, P.New, Establishing)];
      connections := connections[connName := id];
    }

    /** The close callback, on loop `here`. */
    method RemoveConnection(id: Id, here: LoopId)
      requires Valid() && id in conns
      modifies this`connections, this`conns, this`loops
      ensures Valid() && conns[id].loop in old(loops)
      ensures View() == if here == loop then Servers.RemoveConnectionInLoop(old(View()), id)
                        else old(View()).Queue(loop, RemoveInLoop(id))
      ensures old(View()).Strong(id) ==> RevivesNobody(old(View()), View())
    {
      ghost var s := View();
      if here == loop {
        RemoveConnectionInLoop(id);
      } else {
        QueueInLoop(loop, RemoveInLoop(id));
        QueueRevivesNobody(s, loop, RemoveInLoop(id));
      }
    }

    method RemoveConnectionInLoop(id: Id)
      requires Valid() && id in conns
      modifies this`connections, this`conns, this`loops
      ensures Valid() && conns[id].loop in old(loops)
      ensures View() == Servers.RemoveConnectionInLoop(old(View()), id)
      ensures old(View()).Strong(id) ==> RevivesNobody(old(View()), View())
    {
      ghost var s := View();
      var ioLoop := conns[id].loop;
      connections := connections - {conns[id].name};
      conns := conns[id := conns[id].(phase := Destroying)];
      QueueInLoop(ioLoop, Destroy(id));
      RemoveRevivesNobody(s, id);
    }

    /** `handleClose` of a connection, on the loop that dispatched its channel. */
    method HandleClose(id: Id, here: LoopId)
      requires Valid() && id in conns
      modifies this`connections, this`conns, this`loops
      ensures Valid() && conns[id].loop in old(loops) && View() == Closed(old(View()), id, here)
      ensures Inv(old(View())) && Enabled(old(View()), CloseEvent(here)) && old(View()).loops[here].guard == Some(id) ==>
        Inv(View())
    {
      hide Inv;
      ghost var s := View();
      conns := conns[id := conns[id].(state := C.Disconnected, index := P.Deleted, phase := Closing)];
      RemoveConnection(id, here);
      CloseInv(s, id, here);
    }

    method ConnectDestroyed(id: Id)
      requires id in conns && conns[id].loop in loops
      modifies this`conns, this`loops
      ensures View() == Destroyed(old(View()), id)
    {
      var c := conns[id];
      conns := conns[id := c.(state := if c.state == C.Connected then C.Disconnected else c.state,
                              index := P.New, phase := Gone)];
      loops := loops[c.loop := loops[c.loop].(channels := loops[c.loop].channels - {c.fd})];
    }

    /** A loop runs the next functor of its batch. */
    method RunFunctor(l: LoopId)
      requires Valid() && Enabled(View(), RunNext(l))
      modifies this`connections, this`conns, this`loops
      ensures Valid() && View() == Apply(old(View()), RunNext(l))
      ensures Inv(old(View())) ==> Inv(View())
    {
      hide Inv, Call;
      ghost var s := View();
      var f := loops[l].batch[loops[l].done];
      loops := loops[l := loops[l].(done := loops[l].done + 1)];
      CallFunctor(f);
      StepInv(s, RunNext(l));
    }

    method CallFunctor(f: Functor)
      requires Valid() && f.id in conns
      modifies this`connections, this`conns, this`loops
      ensures Valid() && conns[f.id].loop in old(loops) && View() == Call(old(View()), f)
    {
      match f
      case Establish(id) => ConnectEstablished(id);
      case RemoveInLoop(id) => RemoveConnectionInLoop(id);
      case Destroy(id) => ConnectDestroyed(id);
      case Callback(_) =>
    }
  }

  /** Nobody is alive in `r` who was not in `s`. */
  ghost predicate RevivesNobody(s: Server, r: Server) {
    forall j :: r.Strong(j) ==> s.Strong(j)
  }

  lemma QueueRevivesNobody(s: Server, l: LoopId, f: Functor)
    requires l in s.loops
    ensures s.Strong(f.id) ==> RevivesNobody(s, s.Queue(l, f))
  {
    hide Server.Strong;
    forall j | s.Strong(f.id) && s.Queue(l, f).Strong(j)
      ensures s.Strong(j)
    {
      QueueStrong(s, l, f, j);
    }
  }

  lemma RemoveRevivesNobody(s: Server, id: Id)
    requires id in s.conns && s.conns[id].loop in s.loops
    ensures s.Strong(id) ==> RevivesNobody(s, Servers.RemoveConnectionInLoop(s, id))
  {
    hide Server.Strong;
    forall j | s.Strong(id) && Servers.RemoveConnectionInLoop(s, id).Strong(j)
      ensures s.Strong(j)
    {
      RemoveStrong(s, id, j);
    }
  }

  lemma StepInv(s: Server, a: Action)
    requires Enabled(s, a)
    ensures Inv(s) ==> Inv(Apply(s, a))
  {
    hide Inv, Enabled, Apply;
    if Inv(s) {
      InvStep(s, a);
    }
  }

  lemma AcceptInv(s: Server, fd: Fd, io: LoopId)
    requires io in s.loops
    ensures Inv(s) && Enabled(s, Accept(fd, io)) ==> Inv(Servers.NewConnection(s, fd, io))
  {
    hide Inv;
    if Enabled(s, Accept(fd, io)) {
      StepInv(s, Accept(fd, io));
    }
  }

  lemma CloseInv(s: Server, id: Id, here: LoopId)
    requires id in s.conns && s.conns[id].loop in s.loops && s.base in s.loops
    ensures Inv(s) && Enabled(s, CloseEvent(here)) && s.loops[here].guard == Some(id) ==> Inv(Closed(s, id, here))
  {
    hide Inv;
    if Enabled(s, CloseEvent(here)) {
      StepInv(s, CloseEvent(here));
    }
  }

  /** The guarantees of the machine carry over: accepting on a descriptor nobody alive owns keeps the
      invariant, gives no dead connection its life back, and overwrites no entry of the map. */
  lemma AcceptKeeps(s: Server, fd: Fd, loops: seq<LoopId>, k: nat)
    requires Inv(s) && loops != [] && E.Turn(loops, k) in s.loops
    requires s.loops[s.base].mode == Dispatching && s.loops[s.base].guard == None && FdFree(s, fd)
    ensures var r := Servers.NewConnection(s, fd, E.Turn(loops, k));
      Inv(r) && (forall id :: id in s.conns && r.Strong(id) ==> s.Strong(id)) && s.connections.Keys < r.connections.Keys
  {
    hide ConnsOk, ChannelsOk, ActiveOk, FdsOk, Placed, LoopOk, Server.Strong;
    var a := Accept(fd, E.Turn(loops, k));
    InvStep(s, a);
    StrongOnlyShrinks(s, a);
    FreshId(s);
    assert ConnName(s.ipPort, s.nextConnId) in Apply(s, a).connections;
  }

  /** The connections numbered up to `k` that worker `w` was given. */
  function Given(conns: map<Id, Conn>, l: LoopId, k: nat): (ids: set<Id>) {
    set id | id in conns && 1 <= id <= k && conns[id].loop == l
  }

  /** Connections are shared evenly: of the first `k`, each of the workers has `k / n` or one more. */
  lemma {:induction false} ConnectionsAreShared(conns: map<Id, Conn>, loops: seq<LoopId>, k: nat, w: nat)
    requires |loops| > 1 && w < |loops| - 1
    requires forall i, j :: 0 <= i < j < |loops| ==> loops[i] != loops[j]
    requires forall id :: 1 <= id <= k ==> id in conns && conns[id].loop == E.Turn(loops, id - 1)
    ensures var n := |loops| - 1; |Given(conns, loops[1 + w], k)| == k / n + if w < k % n then 1 else 0
    ensures Given(conns, loops[0], k) == {}
  {
    GivenIsShare(conns, loops, k, w);
    E.SharesAreEven(k, |loops| - 1, w);
    forall id | id in conns && 1 <= id <= k
      ensures conns[id].loop != loops[0]
    {
      E.NeverTheBase(loops, id - 1);
    }
  }

  lemma {:induction false} GivenIsShare(conns: map<Id, Conn>, loops: seq<LoopId>, k: nat, w: nat)
    requires |loops| > 1 && w < |loops| - 1
    requires forall i, j :: 0 <= i < j < |loops| ==> loops[i] != loops[j]
    requires forall id :: 1 <= id <= k ==> id in conns && conns[id].loop == E.Turn(loops, id - 1)
    ensures |Given(conns, loops[1 + w], k)| == E.Share(k, |loops| - 1, w)
  {
    hide E.Turn;
    var l := loops[1 + w];
    if k == 0 {
      assert Given(conns, l, 0) == {};
    } else {
      GivenIsShare(conns, loops, k - 1, w);
      TurnIs(loops, k - 1, w);
      GivenNext(conns, l, k);
    }
  }

  lemma GivenNext(conns: map<Id, Conn>, l: LoopId, k: nat)
    requires k > 0 && k in conns
    ensures |Given(conns, l, k)| == |Given(conns, l, k - 1)| + if conns[k].loop == l then 1 else 0
  {
    var before := Given(conns, l, k - 1);
    if conns[k].loop == l {
      assert Given(conns, l, k) == before + {k};
    } else {
      assert Given(conns, l, k) == before;
    }
  }

  lemma TurnIs(loops: seq<LoopId>, k: nat, w: nat)
    requires |loops| > 1 && w < |loops| - 1
    requires forall i, j :: 0 <= i < j < |loops| ==> loops[i] != loops[j]
    ensures E.Turn(loops, k) == loops[1 + w] <==> k % (|loops| - 1) == w
  {
  }
}
