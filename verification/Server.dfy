/** How a connection's life is handed between the base loop and its I/O loop: src/TcpServer.cpp with
    the parts of src/TcpConnection.cpp, src/Channel.cpp and src/EventLoop.cpp it relies on.

    The base loop and the I/O loops take steps in any order.  An object lives as long as something
    holds a shared pointer to it, so being alive is not a field but a fact about the state: see
    `Strong`.  Channels are known to pollers and to a batch of active channels by bare pointer. */
module Servers {
  import opened Options
  import C = Connections
  import P = Pollers

  type LoopId = nat
  type Fd = nat
  /** A connection object, by the number it was created with. */
  type Id = nat

  /** Functors that hold a shared pointer to a connection. */
  datatype Functor =
    | Establish(id: Id)     // connectEstablished, on the I/O loop
    | RemoveInLoop(id: Id)  // removeConnectionInLoop, on the base loop
    | Destroy(id: Id)       // connectDestoryed, on the I/O loop
    | Callback(id: Id)      // a user callback queued by a send or a write

  /** Where a connection is in the hand-off; no code reads it. */
  datatype Phase = Establishing | Up | Closing | Destroying | Gone

  datatype Conn = Conn(name: string, fd: Fd, loop: LoopId, state: C.StateE, index: P.Index, phase: Phase)

  datatype Mode = Polling | Dispatching | Running

  /** One loop: the functor queue, the swapped batch with `done` of it run (the batch is kept, and its
      references with it, until all have run), the channels still to be dispatched, the guard taken
      while one is, and the poller's map. */
  datatype Loop = Loop(mode: Mode, pending: seq<Functor>, batch: seq<Functor>, done: nat,
                       active: seq<Id>, guard: Option<Id>, channels: map<Fd, Id>) {
    predicate Ok() {
      done <= |batch|
    }

    function Unrun(): multiset<Functor>
      requires Ok()
    {
      multiset(pending) + multiset(batch[done..])
    }

    predicate Holds(id: Id) {
      guard == Some(id) || (exists f :: f in pending && f.id == id) || (exists f :: f in batch && f.id == id)
    }

    function Push(f: Functor): Loop {
      this.(pending := pending + [f])
    }
  }

  /** `held` are the connections user code keeps a shared pointer to. */
  datatype Server = Server(base: LoopId, ipPort: string, loops: map<LoopId, Loop>, conns: map<Id, Conn>,
                           connections: map<string, Id>, nextConnId: nat, held: set<Id>) {
    /** Something holds a shared pointer to the connection: it is alive. */
    predicate Strong(id: Id) {
      || (exists name :: name in connections && connections[name] == id)
      || id in held
      || (exists l :: l in loops && loops[l].Holds(id))
    }

    function PutLoop(l: LoopId, x: Loop): Server {
      this.(loops := loops[l := x])
    }

    function PutConn(id: Id, c: Conn): Server {
      this.(conns := conns[id := c])
    }

    function Queue(l: LoopId, f: Functor): Server
      requires l in loops
    {
      PutLoop(l, loops[l].Push(f))
    }
  }

  // ---------------------------------------------------------------- names

  function Decimal(n: nat): (s: string)
    ensures s != []
  {
    if n < 10 then ["0123456789"[n]] else Decimal(n / 10) + ["0123456789"[n % 10]]
  }

  /** `fmt::format("{}#{}", ipPort_, nextConnId_)`. */
  function ConnName(ipPort: string, n: nat): string {
    ipPort + "#" + Decimal(n)
  }

  lemma {:induction false} DecimalInjective(m: nat, n: nat)
    requires Decimal(m) == Decimal(n)
    ensures m == n
  {
    var a, b := Decimal(m), Decimal(n);
    assert a[|a| - 1] == "0123456789"[m % 10] && b[|b| - 1] == "0123456789"[n % 10];
    if m >= 10 && n >= 10 {
      assert a[..|a| - 1] == Decimal(m / 10) && b[..|b| - 1] == Decimal(n / 10);
      DecimalInjective(m / 10, n / 10);
    }
  }

  lemma NameInjective(ipPort: string, m: nat, n: nat)
    requires ConnName(ipPort, m) == ConnName(ipPort, n)
    ensures m == n
  {
    var p := ipPort + "#";
    assert (p + Decimal(m))[|p|..] == Decimal(m) && (p + Decimal(n))[|p|..] == Decimal(n);
    DecimalInjective(m, n);
  }

  // ---------------------------------------------------------------- the steps

  /** `newConnection` on the base loop up to the hand-over: name, object, map entry. */
  function Created(s: Server, fd: Fd, io: LoopId): Server {
    var id := s.nextConnId;
    var name := ConnName(s.ipPort, s.nextConnId);
    s.(nextConnId := s.nextConnId + 1,
       conns := s.conns[id := Conn(name, fd, io, C.Connecting, P.New, Establishing)],
       connections := s.connections[name := id])
  }

  /** `newConnection`: the connection is established at once on the base loop, by a functor elsewhere. */
  function NewConnection(s: Server, fd: Fd, io: LoopId): Server
    requires io in s.loops
  {
    var c := Created(s, fd, io);
    if io == s.base then Established(c, s.nextConnId) else c.Queue(io, Establish(s.nextConnId))
  }

  /** `connectEstablished`: connected, tied, registered with its poller. */
  function Established(s: Server, id: Id): Server
    requires id in s.conns && s.conns[id].loop in s.loops
  {
    var c := s.conns[id];
    var l := s.loops[c.loop];
    s.PutConn(id, c.(state := C.Connected, index := P.Added, phase := Up))
     .PutLoop(c.loop, l.(channels := l.channels[c.fd := id]))
  }

  /** `removeConnectionInLoop` on the base loop. */
  function RemoveConnectionInLoop(s: Server, id: Id): Server
    requires id in s.conns && s.conns[id].loop in s.loops
  {
    var c := s.conns[id];
    s.(connections := s.connections - {c.name})
     .PutConn(id, c.(phase := Destroying)).Queue(c.loop, Destroy(id))
  }

  /** `handleClose` on loop `l`, with `removeConnection` as the close callback. */
  function Closed(s: Server, id: Id, l: LoopId): Server
    requires id in s.conns && s.conns[id].loop in s.loops && s.base in s.loops
  {
    var m := s.PutConn(id, s.conns[id].(state := C.Disconnected, index := P.Deleted, phase := Closing));
    if l == s.base then RemoveConnectionInLoop(m, id) else m.Queue(s.base, RemoveInLoop(id))
  }

  /** `connectDestoryed`: out of the poller. */
  function Destroyed(s: Server, id: Id): Server
    requires id in s.conns && s.conns[id].loop in s.loops
  {
    var c := s.conns[id];
    var l := s.loops[c.loop];
    s.PutConn(id, c.(state := if c.state == C.Connected then C.Disconnected else c.state, index := P.New, phase := Gone))
     .PutLoop(c.loop, l.(channels := l.channels - {c.fd}))
  }

  function Call(s: Server, f: Functor): Server
    requires f.id in s.conns && s.conns[f.id].loop in s.loops
  {
    match f
    case Establish(id) => Established(s, id)
    case RemoveInLoop(id) => RemoveConnectionInLoop(s, id)
    case Destroy(id) => Destroyed(s, id)
    case Callback(id) => s
  }

  datatype Action =
    | Accept(fd: Fd, io: LoopId)          // the base loop accepts a socket and picks a loop
    | Poll(l: LoopId, ready: seq<Id>)     // epoll_wait reports channels of the loop's table
    | Dispatch(l: LoopId)                 // handleEvent: the weak pointer is locked
    | CloseEvent(l: LoopId)               // the handler sees the connection end
    | EndEvent(l: LoopId)                 // handleEvent returns, the guard goes
    | Swap(l: LoopId) | RunNext(l: LoopId) | EndBatch(l: LoopId)
    | UserShutdown(id: Id) | UserHold(id: Id) | UserRelease(id: Id) | QueueCallback(id: Id)

  predicate Distinct(ids: seq<Id>) {
    forall i, j :: 0 <= i < j < |ids| ==> ids[i] != ids[j]
  }

  /** The kernel reports a channel only while it is in the loop's table, once per report list. */
  predicate Reportable(s: Server, l: LoopId, id: Id)
    requires l in s.loops
  {
    id in s.conns && s.conns[id].loop == l && s.conns[id].index == P.Added &&
    s.conns[id].fd in s.loops[l].channels && s.loops[l].channels[s.conns[id].fd] == id
  }

  /** A descriptor is in use while the connection that owns it is alive. */
  predicate FdFree(s: Server, fd: Fd) {
    forall id :: id in s.conns && s.Strong(id) ==> s.conns[id].fd != fd
  }

  predicate Enabled(s: Server, a: Action) {
    match a
    case Accept(fd, io) =>
      s.base in s.loops && s.loops[s.base].mode == Dispatching && s.loops[s.base].guard == None &&
      io in s.loops && FdFree(s, fd)
    case Poll(l, ready) =>
      l in s.loops && s.loops[l].mode == Polling && Distinct(ready) &&
      forall i :: 0 <= i < |ready| ==> Reportable(s, l, ready[i])
    case Dispatch(l) =>
      l in s.loops && s.loops[l].mode == Dispatching && s.loops[l].guard == None && s.loops[l].active != []
    case CloseEvent(l) =>
      l in s.loops && s.base in s.loops && s.loops[l].mode == Dispatching && s.loops[l].guard.Some? &&
      s.loops[l].guard.value in s.conns && s.conns[s.loops[l].guard.value].loop in s.loops &&
      (s.conns[s.loops[l].guard.value].state == C.Connected || s.conns[s.loops[l].guard.value].state == C.Disconnecting)
    case EndEvent(l) => l in s.loops && s.loops[l].mode == Dispatching && s.loops[l].guard.Some?
    case Swap(l) =>
      l in s.loops && s.loops[l].mode == Dispatching && s.loops[l].guard == None && s.loops[l].active == []
    case RunNext(l) =>
      l in s.loops && s.loops[l].mode == Running && s.loops[l].done < |s.loops[l].batch| &&
      s.loops[l].batch[s.loops[l].done].id in s.conns &&
      s.conns[s.loops[l].batch[s.loops[l].done].id].loop in s.loops
    case EndBatch(l) => l in s.loops && s.loops[l].mode == Running && s.loops[l].done == |s.loops[l].batch|
    case UserShutdown(id) => id in s.conns && s.Strong(id)
    case UserHold(id) => id in s.conns && s.Strong(id)
    case UserRelease(id) => id in s.held
    case QueueCallback(id) => id in s.conns && s.conns[id].loop in s.loops && s.Strong(id)
  }

  function Apply(s: Server, a: Action): Server
    requires Enabled(s, a)
  {
    match a
    case Accept(fd, io) => NewConnection(s, fd, io)
    case Poll(l, ready) => s.PutLoop(l, s.loops[l].(mode := Dispatching, active := ready))
    case Dispatch(l) =>
      var x := s.loops[l];
      s.PutLoop(l, x.(active := x.active[1..], guard := if s.Strong(x.active[0]) then Some(x.active[0]) else None))
    case CloseEvent(l) => Closed(s, s.loops[l].guard.value, l)
    case EndEvent(l) => s.PutLoop(l, s.loops[l].(guard := None))
    case Swap(l) => s.PutLoop(l, s.loops[l].(mode := Running, batch := s.loops[l].pending, pending := [], done := 0))
    case RunNext(l) =>
      var x := s.loops[l];
      Call(s.PutLoop(l, x.(done := x.done + 1)), x.batch[x.done])
    case EndBatch(l) => s.PutLoop(l, s.loops[l].(mode := Polling, batch := [], done := 0))
    case UserShutdown(id) =>
      if s.conns[id].state == C.Connected then s.PutConn(id, s.conns[id].(state := C.Disconnecting)) else s
    case UserHold(id) => s.(held := s.held + {id})
    case UserRelease(id) => s.(held := s.held - {id})
    case QueueCallback(id) => s.Queue(s.conns[id].loop, Callback(id))
  }

  function Exec(s: Server, acts: seq<Action>): Option<Server> {
    if acts == [] then Some(s)
    else
      var before := Exec(s, acts[..|acts| - 1]);
      if before.Some? && Enabled(before.value, acts[|acts| - 1])
      then Some(Apply(before.value, acts[|acts| - 1])) else None
  }

  /** A server that has just started: its loops poll, and there are no connections yet. */
  function Start(base: LoopId, workers: set<LoopId>, ipPort: string): Server {
    Server(base, ipPort, map l | l in workers + {base} :: Loop(Polling, [], [], 0, [], None, map[]),
           map[], map[], 1, {})
  }

  // ---------------------------------------------------------------- the invariant

  predicate LoopOk(x: Loop) {
    && x.Ok()
    && (x.mode != Dispatching ==> x.active == [] && x.guard == None)
    && (x.mode != Running ==> x.batch == [] && x.done == 0)
  }

  predicate LoopsOk(s: Server) {
    s.base in s.loops && forall l :: l in s.loops ==> LoopOk(s.loops[l])
  }

  /** The loop a functor belongs on. */
  function Target(s: Server, f: Functor): LoopId
    requires f.id in s.conns
  {
    if f.RemoveInLoop? then s.base else s.conns[f.id].loop
  }

  /** The functors of a loop belong on it. */
  ghost predicate FunctorsOk(s: Server, l: LoopId)
    requires LoopsOk(s) && l in s.loops
  {
    && (forall f :: f in s.loops[l].Unrun() ==> f.id in s.conns && Target(s, f) == l)
    && (forall f :: f in s.loops[l].batch ==> f.id in s.conns)
  }

  /** Everything that is referred to exists. */
  ghost predicate Placed(s: Server)
    requires LoopsOk(s)
  {
    && s.held <= s.conns.Keys
    && (forall l :: l in s.loops ==> FunctorsOk(s, l))
    && (forall name :: name in s.connections ==>
          s.connections[name] in s.conns && s.conns[s.connections[name]].name == name)
    && (forall id :: id in s.conns ==> id < s.nextConnId && s.conns[id].name == ConnName(s.ipPort, id))
  }

  predicate InMap(s: Server, id: Id)
    requires id in s.conns
  {
    s.conns[id].name in s.connections && s.connections[s.conns[id].name] == id
  }

  predicate InPoller(s: Server, id: Id)
    requires id in s.conns && s.conns[id].loop in s.loops
  {
    var c := s.conns[id];
    c.fd in s.loops[c.loop].channels && s.loops[c.loop].channels[c.fd] == id
  }

  /** How many functors of each kind are still to be run for a connection. */
  predicate Owes(s: Server, id: Id, e: nat, r: nat, d: nat)
    requires id in s.conns && s.conns[id].loop in s.loops && LoopsOk(s)
  {
    && s.loops[s.conns[id].loop].Unrun()[Establish(id)] == e
    && s.loops[s.base].Unrun()[RemoveInLoop(id)] == r
    && s.loops[s.conns[id].loop].Unrun()[Destroy(id)] == d
  }

  /** What each phase of the hand-off means. */
  predicate ConnOk(s: Server, id: Id)
    requires id in s.conns && LoopsOk(s)
  {
    var c := s.conns[id];
    && c.loop in s.loops
    && match c.phase
       case Establishing =>
         InMap(s, id) && !InPoller(s, id) && c.state == C.Connecting && c.index == P.New && Owes(s, id, 1, 0, 0)
       case Up =>
         InMap(s, id) && InPoller(s, id) && (c.state == C.Connected || c.state == C.Disconnecting) &&
         c.index == P.Added && Owes(s, id, 0, 0, 0)
       case Closing =>
         InMap(s, id) && InPoller(s, id) && c.state == C.Disconnected && c.index == P.Deleted && Owes(s, id, 0, 1, 0)
       case Destroying =>
         !InMap(s, id) && InPoller(s, id) && c.state == C.Disconnected && c.index == P.Deleted && Owes(s, id, 0, 0, 1)
       case Gone =>
         !InMap(s, id) && !InPoller(s, id) && c.state == C.Disconnected && c.index == P.New && Owes(s, id, 0, 0, 0)
  }

  ghost predicate ConnsOk(s: Server)
    requires LoopsOk(s)
  {
    forall id :: id in s.conns ==> ConnOk(s, id)
  }

  /** A poller's map holds only its own connections, each under its descriptor. */
  predicate ChannelsOk(s: Server) {
    forall l, fd :: l in s.loops && fd in s.loops[l].channels ==>
      var id := s.loops[l].channels[fd]; id in s.conns && s.conns[id].loop == l && s.conns[id].fd == fd
  }

  /** What is still to be dispatched is up, and is not what is being dispatched. */
  predicate ActiveOk(s: Server) {
    forall l :: l in s.loops ==>
      && Distinct(s.loops[l].active)
      && (forall i :: 0 <= i < |s.loops[l].active| ==>
            var id := s.loops[l].active[i];
            id in s.conns && s.conns[id].loop == l && s.conns[id].phase == Up && s.loops[l].guard != Some(id))
      && (s.loops[l].guard.Some? ==> s.loops[l].guard.value in s.conns && s.conns[s.loops[l].guard.value].loop == l)
  }

  /** No two living connections share a descriptor. */
  predicate FdsOk(s: Server) {
    forall i, j :: i in s.conns && j in s.conns && i != j && s.Strong(i) && s.Strong(j) ==>
      s.conns[i].fd != s.conns[j].fd
  }

  ghost predicate Inv(s: Server) {
    LoopsOk(s) && Placed(s) && ConnsOk(s) && ChannelsOk(s) && ActiveOk(s) && FdsOk(s)
  }

  // ---------------------------------------------------------------- consequences of the invariant

  /** Whatever is not gone is alive: the map, or the functor that is to destroy it, holds it. */
  lemma NotGoneIsStrong(s: Server, id: Id)
    requires Inv(s) && id in s.conns && s.conns[id].phase != Gone
    ensures s.Strong(id)
  {
    var c := s.conns[id];
    assert ConnOk(s, id);
    if c.phase == Destroying {
      var x := s.loops[c.loop];
      assert Destroy(id) in x.Unrun();
      assert x.Holds(id) by {
        if Destroy(id) !in x.pending {
          assert Destroy(id) in multiset(x.batch[x.done..]);
          assert Destroy(id) in x.batch[x.done..];
        }
      }
    }
  }

  /** A descriptor of a living connection that is not in its poller is not in the poller at all: a
      reused descriptor never meets a stale entry. */
  lemma NoStaleEntry(s: Server, l: LoopId, fd: Fd)
    requires Inv(s) && l in s.loops
    requires forall id :: id in s.conns && s.Strong(id) && s.conns[id].fd == fd ==> s.conns[id].loop == l && !InPoller(s, id)
    ensures fd !in s.loops[l].channels
  {
    if fd in s.loops[l].channels {
      var id := s.loops[l].channels[fd];
      assert ConnOk(s, id);
      NotGoneIsStrong(s, id);
    }
  }

  // ---------------------------------------------------------------- who is alive after a step

  lemma PutLoopStrong(s: Server, l: LoopId, x: Loop, id: Id)
    requires l in s.loops && s.PutLoop(l, x).Strong(id)
    requires x.Holds(id) ==> s.Strong(id)
    ensures s.Strong(id)
  {
    var r := s.PutLoop(l, x);
    if k :| k in r.loops && r.loops[k].Holds(id) {
      if k != l {
        assert s.loops[k].Holds(id);
      }
    }
  }

  lemma PushHolds(x: Loop, f: Functor, id: Id)
    requires x.Push(f).Holds(id)
    ensures x.Holds(id) || f.id == id
  {
  }

  lemma QueueStrong(s: Server, l: LoopId, f: Functor, id: Id)
    requires l in s.loops && s.Queue(l, f).Strong(id) && s.Strong(f.id)
    ensures s.Strong(id)
  {
    if s.loops[l].Push(f).Holds(id) {
      PushHolds(s.loops[l], f, id);
      if s.loops[l].Holds(id) {
        assert s.Strong(id);
      }
    }
    PutLoopStrong(s, l, s.loops[l].Push(f), id);
  }

  lemma PutConnStrong(s: Server, j: Id, c: Conn, id: Id)
    ensures s.PutConn(j, c).Strong(id) <==> s.Strong(id)
  {
    assert s.PutConn(j, c).loops == s.loops && s.PutConn(j, c).connections == s.connections;
  }

  lemma EraseStrong(s: Server, name: string, id: Id)
    requires s.(connections := s.connections - {name}).Strong(id)
    ensures s.Strong(id)
  {
    var r := s.(connections := s.connections - {name});
    if n :| n in r.connections && r.connections[n] == id {
      assert n in s.connections && s.connections[n] == id;
    }
  }

  lemma RemoveStrong(s: Server, j: Id, id: Id)
    requires j in s.conns && s.conns[j].loop in s.loops && s.Strong(j)
    requires RemoveConnectionInLoop(s, j).Strong(id)
    ensures s.Strong(id)
  {
    var c := s.conns[j];
    var m := s.(connections := s.connections - {c.name});
    var p := m.PutConn(j, c.(phase := Destroying));
    if p.loops[c.loop].Push(Destroy(j)).Holds(id) {
      PushHolds(p.loops[c.loop], Destroy(j), id);
    } else {
      PutLoopStrong(p, c.loop, p.loops[c.loop].Push(Destroy(j)), id);
      PutConnStrong(m, j, c.(phase := Destroying), id);
      EraseStrong(s, c.name, id);
    }
  }

  lemma ClosedStrong(s: Server, j: Id, l: LoopId, id: Id)
    requires j in s.conns && s.conns[j].loop in s.loops && s.base in s.loops && s.Strong(j)
    requires Closed(s, j, l).Strong(id)
    ensures s.Strong(id)
  {
    var c := s.conns[j].(state := C.Disconnected, index := P.Deleted, phase := Closing);
    var m := s.PutConn(j, c);
    PutConnStrong(s, j, c, j);
    if l == s.base {
      RemoveStrong(m, j, id);
    } else {
      QueueStrong(m, s.base, RemoveInLoop(j), id);
    }
    PutConnStrong(s, j, c, id);
  }

  lemma CallStrong(s: Server, l: LoopId, id: Id)
    requires LoopsOk(s) && Enabled(s, RunNext(l)) && Apply(s, RunNext(l)).Strong(id)
    ensures s.Strong(id)
  {
    var x := s.loops[l];
    var f := x.batch[x.done];
    var x' := x.(done := x.done + 1);
    var m := s.PutLoop(l, x');
    assert f in x.batch && x.Holds(f.id) && s.Strong(f.id);
    assert x'.Holds(f.id) && l in m.loops && m.loops[l].Holds(f.id);
    if !m.Strong(id) {
      match f
      case RemoveInLoop(j) => RemoveStrong(m, j, id);
      case Establish(j) => ChannelsStrong(m, j, m.conns[j].(state := C.Connected, index := P.Added, phase := Up),
                                          m.loops[m.conns[j].loop].channels[m.conns[j].fd := j], id);
      case Destroy(j) =>
        var c := m.conns[j];
        ChannelsStrong(m, j, c.(state := if c.state == C.Connected then C.Disconnected else c.state, index := P.New, phase := Gone),
                       m.loops[c.loop].channels - {c.fd}, id);
      case Callback(_) =>
    } else if !s.Strong(id) {
      assert x'.Holds(id) ==> x.Holds(id);
      PutLoopStrong(s, l, x', id);
    }
  }

  /** Changing a connection's record and its poller's map changes nobody's references. */
  lemma ChannelsStrong(s: Server, j: Id, c: Conn, channels: map<Fd, Id>, id: Id)
    requires j in s.conns && c.loop in s.loops
    requires s.PutConn(j, c).PutLoop(c.loop, s.loops[c.loop].(channels := channels)).Strong(id)
    ensures s.Strong(id)
  {
    var m := s.PutConn(j, c);
    var x := s.loops[c.loop].(channels := channels);
    assert x.Holds(id) ==> s.loops[c.loop].Holds(id);
    PutConnStrong(s, j, c, id);
    if x.Holds(id) {
      assert s.loops[c.loop].Holds(id);
    } else {
      PutLoopStrong(m, c.loop, x, id);
    }
  }

  /** No resurrection: a step gives nobody a reference to a connection that nothing referred to. */
  lemma NoResurrection(s: Server, a: Action, id: Id)
    requires LoopsOk(s) && Enabled(s, a) && id < s.nextConnId
    requires Apply(s, a).Strong(id)
    ensures s.Strong(id)
  {
    match a
    case Accept(fd, io) => AcceptStrong(s, fd, io, id);
    case Poll(l, ready) => PutLoopStrong(s, l, s.loops[l].(mode := Dispatching, active := ready), id);
    case Dispatch(l) => PutLoopStrong(s, l, Apply(s, a).loops[l], id);
    case CloseEvent(l) =>
      assert s.loops[l].Holds(s.loops[l].guard.value);
      ClosedStrong(s, s.loops[l].guard.value, l, id);
    case EndEvent(l) => PutLoopStrong(s, l, Apply(s, a).loops[l], id);
    case Swap(l) => PutLoopStrong(s, l, Apply(s, a).loops[l], id);
    case RunNext(l) => CallStrong(s, l, id);
    case EndBatch(l) => PutLoopStrong(s, l, Apply(s, a).loops[l], id);
    case UserShutdown(j) => PutConnStrong(s, j, s.conns[j].(state := C.Disconnecting), id);
    case UserHold(j) =>
    case UserRelease(j) =>
    case QueueCallback(j) => QueueStrong(s, s.conns[j].loop, Callback(j), id);
  }

  lemma AcceptStrong(s: Server, fd: Fd, io: LoopId, id: Id)
    requires io in s.loops && id < s.nextConnId && NewConnection(s, fd, io).Strong(id)
    ensures s.Strong(id)
  {
    var c := Created(s, fd, io);
    var new_ := s.nextConnId;
    if c.Strong(id) {
      if name :| name in c.connections && c.connections[name] == id {
        assert name in s.connections && s.connections[name] == id;
      }
    } else if io == s.base {
      ChannelsStrong(c, new_, c.conns[new_].(state := C.Connected, index := P.Added, phase := Up),
                     c.loops[io].channels[fd := new_], id);
    } else {
      if c.loops[io].Push(Establish(new_)).Holds(id) {
        PushHolds(c.loops[io], Establish(new_), id);
      } else {
        PutLoopStrong(c, io, c.loops[io].Push(Establish(new_)), id);
      }
    }
  }

  // ---------------------------------------------------------------- the invariant is kept

  lemma FdsKeep(s: Server, r: Server)
    requires FdsOk(s) && r.conns.Keys == s.conns.Keys
    requires forall i :: i in s.conns ==> r.conns[i].fd == s.conns[i].fd
    requires forall i :: i in s.conns && r.Strong(i) ==> s.Strong(i)
    ensures FdsOk(r)
  {
  }

  /** Nothing that `ConnOk` says about `j` has changed. */
  ghost predicate Untouched(s: Server, r: Server, j: Id)
    requires LoopsOk(s) && LoopsOk(r)
  {
    && j in s.conns && j in r.conns && r.conns[j] == s.conns[j] && r.base == s.base
    && s.conns[j].loop in s.loops && s.conns[j].loop in r.loops
    && (InMap(r, j) <==> InMap(s, j)) && (InPoller(r, j) <==> InPoller(s, j))
    && (forall f: Functor :: f.id == j ==>
          r.loops[s.conns[j].loop].Unrun()[f] == s.loops[s.conns[j].loop].Unrun()[f])
    && (forall f: Functor :: f.id == j ==> r.loops[s.base].Unrun()[f] == s.loops[s.base].Unrun()[f])
  }

  lemma UntouchedOk(s: Server, r: Server, j: Id)
    requires LoopsOk(s) && LoopsOk(r) && Untouched(s, r, j) && ConnOk(s, j)
    ensures ConnOk(r, j)
  {
  }

  lemma QuietPlaced(s: Server, l: LoopId, x: Loop)
    requires LoopsOk(s) && Placed(s) && l in s.loops && LoopOk(x)
    requires x.Unrun() == s.loops[l].Unrun() && forall f :: f in x.batch ==> f.id in s.conns
    ensures LoopsOk(s.PutLoop(l, x)) && Placed(s.PutLoop(l, x))
  {
    hide Loop.Unrun, ConnName;
    var r := s.PutLoop(l, x);
    forall k | k in r.loops
      ensures FunctorsOk(r, k)
    {
      assert FunctorsOk(s, k);
    }
  }

  lemma QuietConns(s: Server, l: LoopId, x: Loop)
    requires LoopsOk(s) && ConnsOk(s) && l in s.loops && LoopOk(x)
    requires x.Unrun() == s.loops[l].Unrun() && x.channels == s.loops[l].channels
    ensures LoopsOk(s.PutLoop(l, x)) && ConnsOk(s.PutLoop(l, x))
  {
    var r := s.PutLoop(l, x);
    forall j | j in r.conns
      ensures ConnOk(r, j)
    {
      assert ConnOk(s, j);
      UntouchedOk(s, r, j);
    }
  }

  /** A loop moves on without running or queueing anything. */
  lemma QuietStep(s: Server, l: LoopId, x: Loop)
    requires Inv(s) && l in s.loops && LoopOk(x)
    requires x.Unrun() == s.loops[l].Unrun() && x.channels == s.loops[l].channels
    requires forall f :: f in x.batch ==> f.id in s.conns
    requires forall id :: id in s.conns && s.PutLoop(l, x).Strong(id) ==> s.Strong(id)
    requires Distinct(x.active)
    requires forall i :: 0 <= i < |x.active| ==>
      x.active[i] in s.conns && s.conns[x.active[i]].loop == l && s.conns[x.active[i]].phase == Up &&
      x.guard != Some(x.active[i])
    requires x.guard.Some? ==> x.guard.value in s.conns && s.conns[x.guard.value].loop == l
    ensures Inv(s.PutLoop(l, x))
  {
    QuietPlaced(s, l, x);
    QuietConns(s, l, x);
    QuietActive(s, l, x);
    FdsKeep(s, s.PutLoop(l, x));
  }

  lemma QuietActive(s: Server, l: LoopId, x: Loop)
    requires ChannelsOk(s) && ActiveOk(s) && l in s.loops
    requires x.channels == s.loops[l].channels && Distinct(x.active)
    requires forall i :: 0 <= i < |x.active| ==>
      x.active[i] in s.conns && s.conns[x.active[i]].loop == l && s.conns[x.active[i]].phase == Up &&
      x.guard != Some(x.active[i])
    requires x.guard.Some? ==> x.guard.value in s.conns && s.conns[x.guard.value].loop == l
    ensures ChannelsOk(s.PutLoop(l, x)) && ActiveOk(s.PutLoop(l, x))
  {
  }

  lemma StrongOnlyShrinks(s: Server, a: Action)
    requires Inv(s) && Enabled(s, a)
    ensures forall id :: id in s.conns && Apply(s, a).Strong(id) ==> s.Strong(id)
  {
    forall id | id in s.conns && Apply(s, a).Strong(id)
      ensures s.Strong(id)
    {
      NoResurrection(s, a, id);
    }
  }

  lemma PollStep(s: Server, l: LoopId, ready: seq<Id>)
    requires Inv(s) && Enabled(s, Poll(l, ready))
    ensures Inv(Apply(s, Poll(l, ready)))
  {
    StrongOnlyShrinks(s, Poll(l, ready));
    forall i | 0 <= i < |ready|
      ensures ready[i] in s.conns && s.conns[ready[i]].phase == Up
    {
      assert Reportable(s, l, ready[i]) && ConnOk(s, ready[i]);
    }
    QuietStep(s, l, s.loops[l].(mode := Dispatching, active := ready));
  }

  lemma DispatchStep(s: Server, l: LoopId)
    requires Inv(s) && Enabled(s, Dispatch(l))
    ensures Inv(Apply(s, Dispatch(l)))
    ensures s.Strong(s.loops[l].active[0])
  {
    hide ConnOk, ConnsOk, ChannelsOk, FunctorsOk, FdsOk, Server.Strong;
    BatchKnown(s, l);
    StrongOnlyShrinks(s, Dispatch(l));
    NotGoneIsStrong(s, s.loops[l].active[0]);
    QuietStep(s, l, Apply(s, Dispatch(l)).loops[l]);
  }

  lemma BatchKnown(s: Server, l: LoopId)
    requires Inv(s) && l in s.loops
    ensures forall f :: f in s.loops[l].batch ==> f.id in s.conns
  {
    assert FunctorsOk(s, l);
  }

  lemma EndEventStep(s: Server, l: LoopId)
    requires Inv(s) && Enabled(s, EndEvent(l))
    ensures Inv(Apply(s, EndEvent(l)))
  {
    assert FunctorsOk(s, l);
    StrongOnlyShrinks(s, EndEvent(l));
    QuietStep(s, l, Apply(s, EndEvent(l)).loops[l]);
  }

  lemma SwapStep(s: Server, l: LoopId)
    requires Inv(s) && Enabled(s, Swap(l))
    ensures Inv(Apply(s, Swap(l)))
  {
    StrongOnlyShrinks(s, Swap(l));
    var x := Apply(s, Swap(l)).loops[l];
    assert x.batch[0..] == s.loops[l].pending;
    assert x.Unrun() == s.loops[l].Unrun();
    assert FunctorsOk(s, l);
    forall f | f in x.batch
      ensures f.id in s.conns
    {
      assert f in s.loops[l].Unrun();
    }
    QuietStep(s, l, x);
  }

  lemma EndBatchStep(s: Server, l: LoopId)
    requires Inv(s) && Enabled(s, EndBatch(l))
    ensures Inv(Apply(s, EndBatch(l)))
  {
    StrongOnlyShrinks(s, EndBatch(l));
    QuietStep(s, l, Apply(s, EndBatch(l)).loops[l]);
  }

  // Steps that change one connection.

  /** One functor less to be run. */
  lemma Advance(x: Loop)
    requires x.Ok() && x.done < |x.batch|
    ensures var y := x.(done := x.done + 1);
      y.Ok() && x.Unrun() == y.Unrun() + multiset{x.batch[x.done]}
  {
    assert x.batch[x.done..] == [x.batch[x.done]] + x.batch[x.done + 1..];
  }

  lemma Pushed(x: Loop, f: Functor)
    requires x.Ok()
    ensures x.Push(f).Ok() && x.Push(f).Unrun() == x.Unrun() + multiset{f}
  {
  }

  /** The functor about to run is owed, so the connection is in the phase the functor belongs to. */
  lemma OwedNow(s: Server, l: LoopId)
    requires Inv(s) && Enabled(s, RunNext(l))
    ensures var f := s.loops[l].batch[s.loops[l].done];
      && Target(s, f) == l
      && (f.Establish? ==> s.conns[f.id].phase == Establishing)
      && (f.RemoveInLoop? ==> s.conns[f.id].phase == Closing)
      && (f.Destroy? ==> s.conns[f.id].phase == Destroying)
  {
    var x := s.loops[l];
    Advance(x);
    assert x.batch[x.done] in x.Unrun();
    assert FunctorsOk(s, l);
    assert ConnOk(s, x.batch[x.done].id);
  }

  /** The connection being established meets an unused slot in its poller's map. */
  lemma SlotFree(s: Server, id: Id)
    requires Inv(s) && id in s.conns && s.conns[id].phase == Establishing
    ensures s.conns[id].loop in s.loops && s.conns[id].fd !in s.loops[s.conns[id].loop].channels
  {
    assert ConnOk(s, id);
    NotGoneIsStrong(s, id);
    NoStaleEntry(s, s.conns[id].loop, s.conns[id].fd);
  }

  /** From loop `x` to loop `y`, only functors of `id` and, if `home`, the slot of `fd` have changed. */
  ghost predicate LoopOnly(x: Loop, y: Loop, id: Id, home: bool, fd: Fd)
    requires x.Ok() && y.Ok()
  {
    && y.active == x.active && y.guard == x.guard && y.batch == x.batch
    && (forall f: Functor :: f.id != id ==> y.Unrun()[f] == x.Unrun()[f])
    && (forall d :: !(home && d == fd) ==> (d in y.channels <==> d in x.channels))
    && (forall d :: !(home && d == fd) && d in y.channels ==> y.channels[d] == x.channels[d])
    && (home && fd in x.channels ==> x.channels[fd] == id)
    && (home && fd in y.channels ==> y.channels[fd] == id)
  }

  /** Only connection `id` and what refers to it has changed. */
  ghost predicate Only(s: Server, r: Server, id: Id) {
    && LoopsOk(s) && LoopsOk(r) && id in r.conns && r.conns[id].loop in r.loops
    && r.base == s.base && r.ipPort == s.ipPort && r.held == s.held
    && r.loops.Keys == s.loops.Keys && r.conns.Keys == s.conns.Keys + {id}
    && r.conns[id].name == ConnName(r.ipPort, id)
    && (forall j :: j in s.conns && j != id ==> r.conns[j] == s.conns[j])
    && (forall n :: n != r.conns[id].name ==> (n in r.connections <==> n in s.connections))
    && (forall n :: n != r.conns[id].name && n in r.connections ==> r.connections[n] == s.connections[n])
    && (forall l :: l in s.loops ==>
          LoopOnly(s.loops[l], r.loops[l], id, l == r.conns[id].loop, r.conns[id].fd))
  }

  lemma OnlyConns(s: Server, r: Server, id: Id)
    requires Only(s, r, id) && Placed(s) && ConnsOk(s) && ConnOk(r, id)
    ensures ConnsOk(r)
  {
    forall j | j in r.conns
      ensures ConnOk(r, j)
    {
      if j != id {
        OtherUntouched(s, r, id, j);
        assert ConnOk(s, j);
        UntouchedOk(s, r, j);
      }
    }
  }

  lemma OtherUntouched(s: Server, r: Server, id: Id, j: Id)
    requires Only(s, r, id) && Placed(s) && j in s.conns && j != id && ConnOk(s, j)
    ensures Untouched(s, r, j)
  {
    hide ConnName, Owes;
    if s.conns[j].name == r.conns[id].name {
      NameInjective(s.ipPort, j, id);
    }
    assert LoopOnly(s.loops[s.conns[j].loop], r.loops[s.conns[j].loop], id, s.conns[j].loop == r.conns[id].loop, r.conns[id].fd);
    assert LoopOnly(s.loops[s.base], r.loops[s.base], id, s.base == r.conns[id].loop, r.conns[id].fd);
  }

  lemma OnlyChannels(s: Server, r: Server, id: Id)
    requires Only(s, r, id) && ChannelsOk(s)
    requires id in s.conns ==> s.conns[id].loop == r.conns[id].loop && s.conns[id].fd == r.conns[id].fd
    requires id !in s.conns ==> forall l, d :: l in s.loops && d in s.loops[l].channels ==> s.loops[l].channels[d] != id
    ensures ChannelsOk(r)
  {
    forall l, d | l in r.loops && d in r.loops[l].channels
      ensures var i := r.loops[l].channels[d]; i in r.conns && r.conns[i].loop == l && r.conns[i].fd == d
    {
      assert LoopOnly(s.loops[l], r.loops[l], id, l == r.conns[id].loop, r.conns[id].fd);
    }
  }

  lemma OnlyActive(s: Server, r: Server, id: Id)
    requires Only(s, r, id) && ActiveOk(s)
    requires r.conns[id].phase == Up || forall l :: l in s.loops ==> id !in s.loops[l].active
    requires id in s.conns ==> s.conns[id].loop == r.conns[id].loop
    ensures ActiveOk(r)
  {
    hide Loop.Unrun, ConnName, ActiveOk;
    forall l | l in r.loops
      ensures r.loops[l].active == s.loops[l].active && r.loops[l].guard == s.loops[l].guard
    {
      assert LoopOnly(s.loops[l], r.loops[l], id, l == r.conns[id].loop, r.conns[id].fd);
    }
    ActiveSame(s, r, id);
  }

  lemma ActiveSame(s: Server, r: Server, id: Id)
    requires ActiveOk(s) && r.loops.Keys == s.loops.Keys && id in r.conns
    requires forall l :: l in r.loops ==> r.loops[l].active == s.loops[l].active && r.loops[l].guard == s.loops[l].guard
    requires forall j :: j in s.conns && j != id ==> j in r.conns && r.conns[j] == s.conns[j]
    requires r.conns[id].phase == Up || forall l :: l in s.loops ==> id !in s.loops[l].active
    requires id in s.conns ==> s.conns[id].loop == r.conns[id].loop
    ensures ActiveOk(r)
  {
  }

  lemma OnlyPlaced(s: Server, r: Server, id: Id)
    requires Only(s, r, id) && Placed(s) && r.nextConnId >= s.nextConnId && id < r.nextConnId
    requires id in s.conns ==> s.conns[id].loop == r.conns[id].loop
    requires forall l, f :: l in r.loops && f in r.loops[l].Unrun() && f.id == id ==> Target(r, f) == l
    requires r.conns[id].name in r.connections ==> r.connections[r.conns[id].name] == id
    ensures Placed(r)
  {
    hide Loop.Unrun, ConnName, LoopOnly;
    forall l | l in r.loops
      ensures FunctorsOk(r, l)
    {
      OnlyFunctors(s, r, id, l);
    }
    OnlyNames(s, r, id);
  }

  lemma OnlyNames(s: Server, r: Server, id: Id)
    requires Only(s, r, id) && Placed(s)
    requires r.conns[id].name in r.connections ==> r.connections[r.conns[id].name] == id
    ensures forall name :: name in r.connections ==>
      r.connections[name] in r.conns && r.conns[r.connections[name]].name == name
  {
    hide Loop.Unrun, ConnName, LoopOnly;
    forall name | name in r.connections
      ensures r.connections[name] in r.conns && r.conns[r.connections[name]].name == name
    {
      if name != r.conns[id].name {
        var j := s.connections[name];
        assert s.conns[j].name == ConnName(s.ipPort, j) == name;
        assert j != id && r.connections[name] == j;
      }
    }
  }

  lemma OnlyFunctors(s: Server, r: Server, id: Id, l: LoopId)
    requires Only(s, r, id) && l in s.loops && FunctorsOk(s, l)
    requires id in s.conns ==> s.conns[id].loop == r.conns[id].loop
    requires forall f :: f in r.loops[l].Unrun() && f.id == id ==> Target(r, f) == l
    ensures FunctorsOk(r, l)
  {
    assert LoopOnly(s.loops[l], r.loops[l], id, l == r.conns[id].loop, r.conns[id].fd);
    forall f | f in r.loops[l].Unrun()
      ensures f.id in r.conns && Target(r, f) == l
    {
      if f.id != id {
        assert f in s.loops[l].Unrun();
      }
    }
  }

  /** The pieces put together. */
  lemma OnlyInv(s: Server, r: Server, id: Id)
    requires Inv(s) && Only(s, r, id) && ConnOk(r, id)
    requires id in s.conns && s.conns[id].loop == r.conns[id].loop && s.conns[id].fd == r.conns[id].fd
    requires r.nextConnId == s.nextConnId
    requires r.conns[id].phase == Up || forall l :: l in s.loops ==> id !in s.loops[l].active
    requires Targets(r, id)
    requires r.conns[id].name in r.connections ==> r.connections[r.conns[id].name] == id
    requires forall i :: i in s.conns && r.Strong(i) ==> s.Strong(i)
    ensures Inv(r)
  {
    OnlyFds(s, r, id);
    hide LoopOnly, ConnsOk, ChannelsOk, ActiveOk, Placed, FdsOk, FunctorsOk, LoopOk, ConnOk;
    OnlyConns(s, r, id);
    OnlyChannels(s, r, id);
    OnlyActive(s, r, id);
    OnlyPlaced(s, r, id);
  }

  lemma OnlyFds(s: Server, r: Server, id: Id)
    requires Only(s, r, id) && FdsOk(s) && id in s.conns && s.conns[id].fd == r.conns[id].fd
    requires forall i :: i in s.conns && r.Strong(i) ==> s.Strong(i)
    ensures FdsOk(r)
  {
    hide LoopOnly;
    FdsKeep(s, r);
  }

  /** The functors of `id` in `r` are on the loops they belong on. */
  ghost predicate Targets(r: Server, id: Id)
    requires LoopsOk(r) && id in r.conns
  {
    forall l, f :: l in r.loops && f in r.loops[l].Unrun() && f.id == id ==> Target(r, f) == l
  }

  lemma TargetsKept(s: Server, r: Server, id: Id)
    requires Inv(s) && LoopsOk(r) && id in s.conns && id in r.conns && r.loops.Keys == s.loops.Keys
    requires s.conns[id].loop == r.conns[id].loop && r.base == s.base
    requires forall l, g :: l in r.loops && g in r.loops[l].Unrun() && g.id == id && g !in s.loops[l].Unrun() ==>
      Target(r, g) == l
    ensures Targets(r, id)
  {
    forall l, g | l in r.loops && g in r.loops[l].Unrun() && g.id == id
      ensures Target(r, g) == l
    {
      assert FunctorsOk(s, l);
    }
  }

  /** The slot of a living connection in its poller's map holds nobody else. */
  lemma OwnSlot(s: Server, id: Id)
    requires Inv(s) && id in s.conns && s.Strong(id)
    ensures var c := s.conns[id];
      c.loop in s.loops && (c.fd in s.loops[c.loop].channels ==> s.loops[c.loop].channels[c.fd] == id)
  {
    var c := s.conns[id];
    assert ConnOk(s, id);
    if c.fd in s.loops[c.loop].channels {
      var j := s.loops[c.loop].channels[c.fd];
      assert ConnOk(s, j);
      NotGoneIsStrong(s, j);
    }
  }

  // Changes of one connection, built up from single updates.

  /** The record, and perhaps the entry under its name. */
  lemma RecordOnly(s: Server, id: Id, c: Conn, connections: map<string, Id>)
    requires LoopsOk(s) && c.loop in s.loops && c.name == ConnName(s.ipPort, id) && id in s.conns
    requires c.fd in s.loops[c.loop].channels ==> s.loops[c.loop].channels[c.fd] == id
    requires connections == s.connections || connections == s.connections - {c.name}
    ensures Only(s, s.(connections := connections).PutConn(id, c), id)
  {
    var r := s.(connections := connections).PutConn(id, c);
    assert r.loops == s.loops && LoopsOk(r);
    assert forall l :: l in s.loops ==> LoopOnly(s.loops[l], r.loops[l], id, l == c.loop, c.fd);
  }

  /** And then a loop. */
  lemma LoopOnlyStep(s: Server, m: Server, id: Id, l: LoopId, x: Loop)
    requires Only(s, m, id) && l in m.loops && LoopOk(x)
    requires LoopOnly(m.loops[l], x, id, l == m.conns[id].loop, m.conns[id].fd)
    ensures Only(s, m.PutLoop(l, x), id)
  {
    hide LoopOnly, Loop.Unrun;
    var r := m.PutLoop(l, x);
    assert LoopsOk(r);
    forall k | k in s.loops
      ensures LoopOnly(s.loops[k], r.loops[k], id, k == r.conns[id].loop, r.conns[id].fd)
    {
      assert LoopOnly(s.loops[k], m.loops[k], id, k == m.conns[id].loop, m.conns[id].fd);
      if k == l {
        LoopOnlyTrans(s.loops[k], m.loops[k], x, id, k == m.conns[id].loop, m.conns[id].fd);
      }
    }
  }

  lemma LoopOnlyTrans(x: Loop, y: Loop, z: Loop, id: Id, home: bool, fd: Fd)
    requires x.Ok() && y.Ok() && z.Ok() && LoopOnly(x, y, id, home, fd) && LoopOnly(y, z, id, home, fd)
    ensures LoopOnly(x, z, id, home, fd)
  {
  }

  function Advanced(x: Loop): Loop {
    x.(done := x.done + 1)
  }

  lemma AdvancedOk(s: Server, l: LoopId)
    requires LoopsOk(s) && Enabled(s, RunNext(l))
    ensures var x := s.loops[l];
      LoopOk(Advanced(x)) && x.Unrun() == Advanced(x).Unrun() + multiset{x.batch[x.done]}
  {
    Advance(s.loops[l]);
  }

  /** A functor's own update of a loop, made after the step to the next functor. */
  lemma TwoUpdates(s: Server, l: LoopId, x: Loop, y: Loop, id: Id, c: Conn)
    ensures s.PutLoop(l, x).PutConn(id, c).PutLoop(l, y) == s.PutConn(id, c).PutLoop(l, y)
  {
    assert s.loops[l := x][l := y] == s.loops[l := y];
  }

  lemma NotActive(s: Server, id: Id)
    requires ActiveOk(s) && id in s.conns && s.conns[id].phase != Up
    ensures forall l :: l in s.loops ==> id !in s.loops[l].active
  {
  }

  /** Nobody known to `s` is alive in `r` who was not before. */
  ghost predicate Shrinks(s: Server, r: Server) {
    forall i :: i in s.conns && r.Strong(i) ==> s.Strong(i)
  }

  /** One connection changes, and what is queued for it is queued where it belongs. */
  lemma OneConnInv(s: Server, r: Server, id: Id)
    requires Inv(s) && Only(s, r, id) && ConnOk(r, id) && Shrinks(s, r)
    requires id in s.conns && s.conns[id].loop == r.conns[id].loop && s.conns[id].fd == r.conns[id].fd
    requires r.nextConnId == s.nextConnId
    requires r.conns[id].phase == Up || s.conns[id].phase != Up || forall l :: l in s.loops ==> id !in s.loops[l].active
    requires forall l, f :: l in r.loops && f in r.loops[l].Unrun() && f.id == id && f !in s.loops[l].Unrun() ==>
      Target(r, f) == l
    requires r.conns[id].name in r.connections ==> r.connections[r.conns[id].name] == id
    ensures Inv(r)
  {
    if s.conns[id].phase != Up {
      NotActive(s, id);
    }
    TargetsKept(s, r, id);
    hide Only, ConnOk, ConnsOk, ChannelsOk, ActiveOk, FdsOk, FunctorsOk, Placed, LoopOk, Server.Strong, Targets;
    OnlyInv(s, r, id);
  }

  lemma Known(s: Server, id: Id)
    requires Inv(s) && id in s.conns
    ensures LoopsOk(s) && ConnOk(s, id) && s.conns[id].name == ConnName(s.ipPort, id)
  {
  }

  lemma EstablishedInv(s: Server, id: Id, y: Loop)
    requires Inv(s) && id in s.conns && s.conns[id].phase == Establishing && s.conns[id].loop in s.loops && LoopOk(y)
    requires var c := s.conns[id]; var x := s.loops[c.loop];
      && x.Ok() && LoopOnly(x, y, id, true, c.fd) && y.Unrun() == x.Unrun() - multiset{Establish(id)}
      && c.fd in y.channels
      && Shrinks(s, s.PutConn(id, c.(state := C.Connected, index := P.Added, phase := Up)).PutLoop(c.loop, y))
    ensures var c := s.conns[id].(state := C.Connected, index := P.Added, phase := Up);
      Inv(s.PutConn(id, c).PutLoop(c.loop, y))
  {
    hide Inv, ConnOk, Shrinks, Only, LoopsOk;
    var c := s.conns[id].(state := C.Connected, index := P.Added, phase := Up);
    var r := s.PutConn(id, c).PutLoop(c.loop, y);
    Known(s, id);
    EstablishedOk(s, id, y);
    RecordOnly(s, id, c, s.connections);
    LoopOnlyStep(s, s.PutConn(id, c), id, c.loop, y);
    OneConnInv(s, r, id);
  }

  lemma EstablishedOk(s: Server, id: Id, y: Loop)
    requires LoopsOk(s) && LoopOk(y) && id in s.conns && ConnOk(s, id) && s.conns[id].phase == Establishing
    requires var c := s.conns[id];
      y.Unrun() == s.loops[c.loop].Unrun() - multiset{Establish(id)} && c.fd in y.channels && y.channels[c.fd] == id
    ensures var c := s.conns[id].(state := C.Connected, index := P.Added, phase := Up);
      var r := s.PutConn(id, c).PutLoop(c.loop, y); LoopsOk(r) && ConnOk(r, id) && InMap(r, id)
  {
  }

  lemma EstablishValue(s: Server, l: LoopId)
    requires LoopsOk(s) && Enabled(s, RunNext(l)) && s.loops[l].batch[s.loops[l].done].Establish?
    requires s.conns[s.loops[l].batch[s.loops[l].done].id].loop == l
    ensures var id := s.loops[l].batch[s.loops[l].done].id;
      var c := s.conns[id].(state := C.Connected, index := P.Added, phase := Up);
      Apply(s, RunNext(l)) ==
        s.PutConn(id, c).PutLoop(l, Advanced(s.loops[l]).(channels := s.loops[l].channels[c.fd := id]))
  {
    var x := s.loops[l];
    var id := x.batch[x.done].id;
    var c := s.conns[id].(state := C.Connected, index := P.Added, phase := Up);
    TwoUpdates(s, l, Advanced(x), Advanced(x).(channels := x.channels[c.fd := id]), id, c);
  }

  lemma EstablishLoop(s: Server, l: LoopId, id: Id)
    requires LoopsOk(s) && Enabled(s, RunNext(l)) && s.loops[l].batch[s.loops[l].done] == Establish(id)
    requires s.conns[id].loop == l && s.conns[id].fd !in s.loops[l].channels
    ensures var x := s.loops[l];
      var y := Advanced(x).(channels := x.channels[s.conns[id].fd := id]);
      x.Ok() && LoopOk(y) && LoopOnly(x, y, id, true, s.conns[id].fd) && y.Unrun() == x.Unrun() - multiset{Establish(id)}
  {
    var x := s.loops[l];
    AdvancedOk(s, l);
    assert Advanced(x).(channels := x.channels[s.conns[id].fd := id]).Unrun() == Advanced(x).Unrun();
  }

  lemma EstablishStep(s: Server, l: LoopId)
    requires Inv(s) && Enabled(s, RunNext(l)) && s.loops[l].batch[s.loops[l].done].Establish?
    ensures Inv(Apply(s, RunNext(l)))
  {
    hide ConnOk, ConnsOk, ChannelsOk, ActiveOk, FdsOk, FunctorsOk, Placed, Apply, LoopOnly, Server.Strong;
    var x := s.loops[l];
    var id := x.batch[x.done].id;
    StrongOnlyShrinks(s, RunNext(l));
    OwedNow(s, l);
    SlotFree(s, id);
    EstablishValue(s, l);
    EstablishLoop(s, l, id);
    EstablishedInv(s, id, Advanced(x).(channels := x.channels[s.conns[id].fd := id]));
  }

  // connectDestoryed

  lemma DestroyedOk(s: Server, id: Id, c: Conn, y: Loop)
    requires LoopsOk(s) && LoopOk(y) && id in s.conns && ConnOk(s, id) && s.conns[id].phase == Destroying
    requires c == s.conns[id].(index := P.New, phase := Gone)
    requires y.Unrun() == s.loops[c.loop].Unrun() - multiset{Destroy(id)} && c.fd !in y.channels
    ensures var r := s.PutConn(id, c).PutLoop(c.loop, y); LoopsOk(r) && ConnOk(r, id) && !InMap(s, id)
  {
  }

  lemma DestroyedInv(s: Server, id: Id, c: Conn, y: Loop)
    requires Inv(s) && id in s.conns && s.conns[id].phase == Destroying && s.conns[id].loop in s.loops && LoopOk(y)
    requires c == s.conns[id].(index := P.New, phase := Gone)
    requires var x := s.loops[c.loop];
      && x.Ok() && LoopOnly(x, y, id, true, c.fd) && y.Unrun() == x.Unrun() - multiset{Destroy(id)}
      && c.fd !in y.channels
    requires Shrinks(s, s.PutConn(id, c).PutLoop(c.loop, y))
    ensures Inv(s.PutConn(id, c).PutLoop(c.loop, y))
  {
    hide Inv, ConnOk, Shrinks, Only, LoopsOk;
    var r := s.PutConn(id, c).PutLoop(c.loop, y);
    Known(s, id);
    DestroyedOk(s, id, c, y);
    NameEntry(s, id);
    RecordOnly(s, id, c, s.connections);
    LoopOnlyStep(s, s.PutConn(id, c), id, c.loop, y);
    OneConnInv(s, r, id);
  }

  /** Nobody else is in the map under a connection's name. */
  lemma NameEntry(s: Server, id: Id)
    requires Inv(s) && id in s.conns
    ensures s.conns[id].name in s.connections ==> s.connections[s.conns[id].name] == id
  {
    if s.conns[id].name in s.connections {
      NameInjective(s.ipPort, id, s.connections[s.conns[id].name]);
    }
  }

  lemma DestroyValue(s: Server, l: LoopId)
    requires LoopsOk(s) && Enabled(s, RunNext(l)) && s.loops[l].batch[s.loops[l].done].Destroy?
    requires s.conns[s.loops[l].batch[s.loops[l].done].id].loop == l
    requires s.conns[s.loops[l].batch[s.loops[l].done].id].state == C.Disconnected
    ensures var id := s.loops[l].batch[s.loops[l].done].id;
      var c := s.conns[id].(index := P.New, phase := Gone);
      Apply(s, RunNext(l)) ==
        s.PutConn(id, c).PutLoop(l, Advanced(s.loops[l]).(channels := s.loops[l].channels - {c.fd}))
  {
    var x := s.loops[l];
    var id := x.batch[x.done].id;
    var c := s.conns[id].(index := P.New, phase := Gone);
    TwoUpdates(s, l, Advanced(x), Advanced(x).(channels := x.channels - {c.fd}), id, c);
  }

  lemma DestroyLoop(s: Server, l: LoopId, id: Id)
    requires LoopsOk(s) && Enabled(s, RunNext(l)) && s.loops[l].batch[s.loops[l].done] == Destroy(id)
    requires s.conns[id].loop == l
    requires s.conns[id].fd in s.loops[l].channels ==> s.loops[l].channels[s.conns[id].fd] == id
    ensures var x := s.loops[l];
      var y := Advanced(x).(channels := x.channels - {s.conns[id].fd});
      x.Ok() && LoopOk(y) && LoopOnly(x, y, id, true, s.conns[id].fd) && y.Unrun() == x.Unrun() - multiset{Destroy(id)}
  {
    var x := s.loops[l];
    AdvancedOk(s, l);
    assert Advanced(x).(channels := x.channels - {s.conns[id].fd}).Unrun() == Advanced(x).Unrun();
  }

  lemma DestroyStep(s: Server, l: LoopId)
    requires Inv(s) && Enabled(s, RunNext(l)) && s.loops[l].batch[s.loops[l].done].Destroy?
    ensures Inv(Apply(s, RunNext(l)))
  {
    hide ConnsOk, ChannelsOk, ActiveOk, FdsOk, FunctorsOk, Placed, Apply, LoopOnly, Server.Strong;
    var x := s.loops[l];
    var id := x.batch[x.done].id;
    StrongOnlyShrinks(s, RunNext(l));
    OwedNow(s, l);
    Known(s, id);
    NotGoneIsStrong(s, id);
    OwnSlot(s, id);
    DestroyValue(s, l);
    DestroyLoop(s, l, id);
    DestroyedInv(s, id, s.conns[id].(index := P.New, phase := Gone),
                 Advanced(x).(channels := x.channels - {s.conns[id].fd}));
  }

  // a user callback: nothing of the connection changes

  lemma CallbackStep(s: Server, l: LoopId)
    requires Inv(s) && Enabled(s, RunNext(l)) && s.loops[l].batch[s.loops[l].done].Callback?
    ensures Inv(Apply(s, RunNext(l)))
  {
    hide ConnsOk, ChannelsOk, ActiveOk, FdsOk, FunctorsOk, Placed, LoopOnly, ConnOk, Server.Strong;
    var x := s.loops[l];
    var id := x.batch[x.done].id;
    StrongOnlyShrinks(s, RunNext(l));
    OwedNow(s, l);
    AdvancedOk(s, l);
    StillAlive(s, l);
    CallbackLoop(s, id, l, Advanced(x));
  }

  lemma StillAlive(s: Server, l: LoopId)
    requires LoopsOk(s) && Enabled(s, RunNext(l))
    ensures s.Strong(s.loops[l].batch[s.loops[l].done].id)
  {
    assert s.loops[l].batch[s.loops[l].done] in s.loops[l].batch;
    assert s.loops[l].Holds(s.loops[l].batch[s.loops[l].done].id);
  }

  /** User callbacks queued or run for a living connection change nothing else. */
  lemma CallbackLoop(s: Server, id: Id, l: LoopId, y: Loop)
    requires Inv(s) && id in s.conns && s.Strong(id) && s.conns[id].loop == l && l in s.loops && LoopOk(y)
    requires y.active == s.loops[l].active && y.guard == s.loops[l].guard && y.batch == s.loops[l].batch
    requires s.loops[l].Ok() && y.channels == s.loops[l].channels
    requires forall f :: f != Callback(id) ==> y.Unrun()[f] == s.loops[l].Unrun()[f]
    requires Shrinks(s, s.PutLoop(l, y))
    ensures Inv(s.PutLoop(l, y))
  {
    hide ConnOk, Inv, Only, Server.Strong, Loop.Unrun, LoopsOk;
    var r := s.PutLoop(l, y);
    Known(s, id);
    OwnSlot(s, id);
    CallbackOk(s, id, l, y);
    NameEntry(s, id);
    RecordOnly(s, id, s.conns[id], s.connections);
    SameRecord(s, id);
    LoopOnlyStep(s, s, id, l, y);
    OneConnInv(s, r, id);
  }

  lemma SameRecord(s: Server, id: Id)
    requires id in s.conns
    ensures s.(connections := s.connections).PutConn(id, s.conns[id]) == s
  {
    assert s.conns[id := s.conns[id]] == s.conns;
  }

  lemma CallbackOk(s: Server, id: Id, l: LoopId, y: Loop)
    requires LoopsOk(s) && LoopOk(y) && id in s.conns && ConnOk(s, id) && s.conns[id].loop == l && l in s.loops
    requires y.channels == s.loops[l].channels && forall f :: f != Callback(id) ==> y.Unrun()[f] == s.loops[l].Unrun()[f]
    ensures LoopsOk(s.PutLoop(l, y)) && ConnOk(s.PutLoop(l, y), id)
  {
    var r := s.PutLoop(l, y);
    assert Owes(s, id, 0, 0, 0) ==> Owes(r, id, 0, 0, 0);
  }

  // removeConnectionInLoop

  /** The entry erased, the record changed, loop `l` now `y`. */
  function Erased(s: Server, id: Id, c: Conn, l: LoopId, y: Loop): Server {
    s.(connections := s.connections - {c.name}).PutConn(id, c).PutLoop(l, y)
  }

  /** The destroy functor queued for a connection that is in its poller, owes nothing else and has been
      erased from the map. */
  lemma QueuedDestroyOk(m: Server, id: Id)
    requires LoopsOk(m) && id in m.conns && m.conns[id].loop in m.loops
    requires var c := m.conns[id]; c.state == C.Disconnected && c.index == P.Deleted && c.phase == Destroying
    requires !InMap(m, id) && InPoller(m, id) && Owes(m, id, 0, 0, 0)
    ensures var r := m.Queue(m.conns[id].loop, Destroy(id)); LoopsOk(r) && ConnOk(r, id)
  {
    Pushed(m.loops[m.conns[id].loop], Destroy(id));
    var r := m.Queue(m.conns[id].loop, Destroy(id));
    assert LoopsOk(r) && Owes(r, id, 0, 0, 1);
  }

  lemma ErasedOk(s: Server, id: Id, c: Conn, y: Loop)
    requires LoopsOk(s) && LoopOk(y) && id in s.conns && ConnOk(s, id) && s.conns[id].phase == Closing
    requires c == s.conns[id].(phase := Destroying) && y.channels == s.loops[s.base].channels
    requires y.Unrun() == s.loops[s.base].Unrun() - multiset{RemoveInLoop(id)}
    ensures var m := Erased(s, id, c, s.base, y);
      LoopsOk(m) && c.loop in m.loops && !InMap(m, id) && InPoller(m, id) && Owes(m, id, 0, 0, 0)
  {
  }

  lemma QueueOnly(s: Server, m: Server, id: Id, l: LoopId, f: Functor)
    requires Only(s, m, id) && l in m.loops && f.id == id && m.conns[id].loop in m.loops
    requires var c := m.conns[id]; c.fd in m.loops[c.loop].channels ==> m.loops[c.loop].channels[c.fd] == id
    ensures Only(s, m.Queue(l, f), id)
  {
    hide LoopOnly, Loop.Unrun;
    var x := m.loops[l];
    Pushed(x, f);
    PushLoopOnly(x, f, l == m.conns[id].loop, m.conns[id].fd);
    LoopOnlyStep(s, m, id, l, x.Push(f));
  }

  lemma PushLoopOnly(x: Loop, f: Functor, home: bool, fd: Fd)
    requires x.Ok() && (home && fd in x.channels ==> x.channels[fd] == f.id)
    ensures x.Push(f).Ok() && LoopOnly(x, x.Push(f), f.id, home, fd)
  {
    Pushed(x, f);
  }

  lemma RemovedInv(s: Server, id: Id, c: Conn, y: Loop)
    requires Inv(s) && id in s.conns && s.conns[id].phase == Closing && s.conns[id].loop in s.loops && LoopOk(y)
    requires c == s.conns[id].(phase := Destroying) && y.channels == s.loops[s.base].channels
    requires s.loops[s.base].Ok() && LoopOnly(s.loops[s.base], y, id, c.loop == s.base, c.fd)
    requires y.Unrun() == s.loops[s.base].Unrun() - multiset{RemoveInLoop(id)}
    requires c.loop in Erased(s, id, c, s.base, y).loops
    requires Shrinks(s, Erased(s, id, c, s.base, y).Queue(c.loop, Destroy(id)))
    ensures Inv(Erased(s, id, c, s.base, y).Queue(c.loop, Destroy(id)))
  {
    hide Inv, ConnOk, Shrinks, Only, LoopsOk, Loop.Unrun, LoopOnly;
    var m := Erased(s, id, c, s.base, y);
    var r := m.Queue(c.loop, Destroy(id));
    Known(s, id);
    ErasedOk(s, id, c, y);
    QueuedDestroyOk(m, id);
    RemovedOnly(s, id, c, y);
    QueuedTargets(s, m, id, c.loop, Destroy(id));
    OneConnInv(s, r, id);
  }

  lemma RemovedOnly(s: Server, id: Id, c: Conn, y: Loop)
    requires Inv(s) && id in s.conns && s.conns[id].phase == Closing && s.conns[id].loop in s.loops && LoopOk(y)
    requires c == s.conns[id].(phase := Destroying)
    requires s.loops[s.base].Ok() && LoopOnly(s.loops[s.base], y, id, c.loop == s.base, c.fd)
    requires y.channels == s.loops[s.base].channels
    requires c.loop in Erased(s, id, c, s.base, y).loops
    ensures Only(s, Erased(s, id, c, s.base, y), id)
    ensures Only(s, Erased(s, id, c, s.base, y).Queue(c.loop, Destroy(id)), id)
  {
    hide Inv, ConnOk, Only, Loop.Unrun, LoopOnly;
    var m := Erased(s, id, c, s.base, y);
    Known(s, id);
    NotGoneIsStrong(s, id);
    OwnSlot(s, id);
    RecordOnly(s, id, c, s.connections - {c.name});
    LoopOnlyStep(s, s.(connections := s.connections - {c.name}).PutConn(id, c), id, s.base, y);
    QueueOnly(s, m, id, c.loop, Destroy(id));
  }

  /** A queued functor is the only new one. */
  lemma QueuedTargets(s: Server, m: Server, id: Id, l: LoopId, g: Functor)
    requires LoopsOk(s) && LoopsOk(m) && s.loops.Keys == m.loops.Keys && l in m.loops && id in m.conns
    requires g.id == id && Target(m, g) == l
    requires forall k :: k in s.loops ==> m.loops[k].Unrun() <= s.loops[k].Unrun()
    ensures LoopsOk(m.Queue(l, g))
    ensures var r := m.Queue(l, g);
      forall k, f :: k in r.loops && f in r.loops[k].Unrun() && f.id == id && f !in s.loops[k].Unrun() ==> Target(r, f) == k
  {
    hide Loop.Unrun;
    Pushed(m.loops[l], g);
    var r := m.Queue(l, g);
    forall k, f | k in r.loops && f in r.loops[k].Unrun() && f.id == id && f !in s.loops[k].Unrun()
      ensures Target(r, f) == k
    {
      assert f !in m.loops[k].Unrun();
      assert k == l && f == g;
    }
  }

  lemma RemoveValue(s: Server, l: LoopId)
    requires LoopsOk(s) && Enabled(s, RunNext(l)) && s.loops[l].batch[s.loops[l].done].RemoveInLoop? && l == s.base
    ensures var id := s.loops[l].batch[s.loops[l].done].id;
      var c := s.conns[id].(phase := Destroying);
      c.loop in Erased(s, id, c, s.base, Advanced(s.loops[l])).loops &&
      Apply(s, RunNext(l)) == Erased(s, id, c, s.base, Advanced(s.loops[l])).Queue(c.loop, Destroy(id))
  {
  }

  lemma RemoveLoop(s: Server, l: LoopId, id: Id)
    requires LoopsOk(s) && Enabled(s, RunNext(l)) && s.loops[l].batch[s.loops[l].done] == RemoveInLoop(id)
    requires l == s.conns[id].loop && s.conns[id].fd in s.loops[l].channels ==> s.loops[l].channels[s.conns[id].fd] == id
    ensures var x := s.loops[l];
      x.Ok() && LoopOk(Advanced(x)) && LoopOnly(x, Advanced(x), id, s.conns[id].loop == l, s.conns[id].fd) &&
      Advanced(x).Unrun() == x.Unrun() - multiset{RemoveInLoop(id)}
  {
    AdvancedOk(s, l);
  }

  lemma RemoveStep(s: Server, l: LoopId)
    requires Inv(s) && Enabled(s, RunNext(l)) && s.loops[l].batch[s.loops[l].done].RemoveInLoop?
    ensures Inv(Apply(s, RunNext(l)))
  {
    hide ConnOk, ConnsOk, ChannelsOk, ActiveOk, FdsOk, FunctorsOk, Placed, Apply, LoopOnly, Server.Strong;
    var x := s.loops[l];
    var id := x.batch[x.done].id;
    StrongOnlyShrinks(s, RunNext(l));
    OwedNow(s, l);
    NotGoneIsStrong(s, id);
    OwnSlot(s, id);
    RemoveValue(s, l);
    RemoveLoop(s, l, id);
    RemovedInv(s, id, s.conns[id].(phase := Destroying), Advanced(x));
  }

  // handleClose

  /** What is being dispatched is not waiting to be dispatched. */
  lemma GuardedNotActive(s: Server, l: LoopId)
    requires ActiveOk(s) && l in s.loops && s.loops[l].guard.Some?
    ensures var id := s.loops[l].guard.value;
      id in s.conns && s.conns[id].loop == l && forall k :: k in s.loops ==> id !in s.loops[k].active
  {
  }

  /** A connection whose end is being handled is up. */
  lemma ClosingWasUp(s: Server, l: LoopId)
    requires Inv(s) && Enabled(s, CloseEvent(l))
    ensures var id := s.loops[l].guard.value;
      && s.conns[id].phase == Up && s.conns[id].loop == l && s.Strong(id)
      && forall k :: k in s.loops ==> id !in s.loops[k].active
  {
    hide ConnsOk, ChannelsOk, ActiveOk, FdsOk, FunctorsOk, Placed, Server.Strong, Loop.Unrun;
    var id := s.loops[l].guard.value;
    GuardedNotActive(s, l);
    Known(s, id);
    NotGoneIsStrong(s, id);
  }

  lemma QueuedRemoveOk(s: Server, id: Id, c: Conn)
    requires LoopsOk(s) && id in s.conns && ConnOk(s, id) && s.conns[id].phase == Up
    requires c == s.conns[id].(state := C.Disconnected, index := P.Deleted, phase := Closing)
    ensures var r := s.PutConn(id, c).Queue(s.base, RemoveInLoop(id)); LoopsOk(r) && ConnOk(r, id) && InMap(r, id)
  {
    Pushed(s.loops[s.base], RemoveInLoop(id));
    var r := s.PutConn(id, c).Queue(s.base, RemoveInLoop(id));
    assert LoopsOk(r) && Owes(r, id, 0, 1, 0);
  }

  lemma ClosedElsewhereInv(s: Server, id: Id, c: Conn)
    requires Inv(s) && id in s.conns && s.conns[id].phase == Up && s.base in s.loops
    requires c == s.conns[id].(state := C.Disconnected, index := P.Deleted, phase := Closing)
    requires forall k :: k in s.loops ==> id !in s.loops[k].active
    requires Shrinks(s, s.PutConn(id, c).Queue(s.base, RemoveInLoop(id)))
    ensures Inv(s.PutConn(id, c).Queue(s.base, RemoveInLoop(id)))
  {
    hide Inv, ConnOk, Shrinks, Only, Loop.Unrun, LoopOnly;
    var m := s.PutConn(id, c);
    var r := m.Queue(s.base, RemoveInLoop(id));
    Known(s, id);
    NotGoneIsStrong(s, id);
    OwnSlot(s, id);
    QueuedRemoveOk(s, id, c);
    RecordOnly(s, id, c, s.connections);
    QueueOnly(s, m, id, s.base, RemoveInLoop(id));
    QueuedTargets(s, m, id, s.base, RemoveInLoop(id));
    OneConnInv(s, r, id);
  }

  lemma ErasedUpOk(s: Server, id: Id, c: Conn)
    requires LoopsOk(s) && id in s.conns && ConnOk(s, id) && s.conns[id].phase == Up
    requires c == s.conns[id].(state := C.Disconnected, index := P.Deleted, phase := Destroying)
    ensures var m := s.(connections := s.connections - {c.name}).PutConn(id, c);
      LoopsOk(m) && c.loop in m.loops && !InMap(m, id) && InPoller(m, id) && Owes(m, id, 0, 0, 0)
  {
  }

  lemma ClosedHereInv(s: Server, id: Id, c: Conn)
    requires Inv(s) && id in s.conns && s.conns[id].phase == Up && s.conns[id].loop in s.loops
    requires c == s.conns[id].(state := C.Disconnected, index := P.Deleted, phase := Destroying)
    requires forall k :: k in s.loops ==> id !in s.loops[k].active
    requires Shrinks(s, s.(connections := s.connections - {c.name}).PutConn(id, c).Queue(c.loop, Destroy(id)))
    ensures Inv(s.(connections := s.connections - {c.name}).PutConn(id, c).Queue(c.loop, Destroy(id)))
  {
    hide Inv, ConnOk, Shrinks, Only, Loop.Unrun, LoopOnly;
    var m := s.(connections := s.connections - {c.name}).PutConn(id, c);
    var r := m.Queue(c.loop, Destroy(id));
    Known(s, id);
    NotGoneIsStrong(s, id);
    OwnSlot(s, id);
    ErasedUpOk(s, id, c);
    QueuedDestroyOk(m, id);
    RecordOnly(s, id, c, s.connections - {c.name});
    QueueOnly(s, m, id, c.loop, Destroy(id));
    QueuedTargets(s, m, id, c.loop, Destroy(id));
    OneConnInv(s, r, id);
  }

  lemma ClosedHereValue(s: Server, id: Id)
    requires id in s.conns && s.conns[id].loop in s.loops && s.base in s.loops
    ensures var c := s.conns[id].(state := C.Disconnected, index := P.Deleted, phase := Destroying);
      Closed(s, id, s.base) == s.(connections := s.connections - {c.name}).PutConn(id, c).Queue(c.loop, Destroy(id))
  {
    var c := s.conns[id].(state := C.Disconnected, index := P.Deleted);
    assert s.conns[id := c.(phase := Closing)][id := c.(phase := Destroying)] == s.conns[id := c.(phase := Destroying)];
  }

  lemma CloseStep(s: Server, l: LoopId)
    requires Inv(s) && Enabled(s, CloseEvent(l))
    ensures Inv(Apply(s, CloseEvent(l)))
  {
    hide ConnOk, ConnsOk, ChannelsOk, ActiveOk, FdsOk, FunctorsOk, Placed, LoopOnly, Server.Strong;
    var id := s.loops[l].guard.value;
    StrongOnlyShrinks(s, CloseEvent(l));
    ClosingWasUp(s, l);
    if l == s.base {
      ClosedHereValue(s, id);
      ClosedHereInv(s, id, s.conns[id].(state := C.Disconnected, index := P.Deleted, phase := Destroying));
    } else {
      ClosedElsewhereInv(s, id, s.conns[id].(state := C.Disconnected, index := P.Deleted, phase := Closing));
    }
  }

  // newConnection

  /** A new number is not in use anywhere, and its name is not in the map: no live entry is overwritten. */
  lemma FreshId(s: Server)
    requires Inv(s)
    ensures s.nextConnId !in s.conns
    ensures ConnName(s.ipPort, s.nextConnId) !in s.connections
    ensures forall l, d :: l in s.loops && d in s.loops[l].channels ==> s.loops[l].channels[d] != s.nextConnId
    ensures forall l :: l in s.loops ==> s.nextConnId !in s.loops[l].active
  {
    var name := ConnName(s.ipPort, s.nextConnId);
    if name in s.connections {
      NameInjective(s.ipPort, s.nextConnId, s.connections[name]);
    }
  }

  lemma FreshFunctors(s: Server, l: LoopId)
    requires Inv(s) && l in s.loops
    ensures forall f: Functor :: f.id == s.nextConnId ==> f !in s.loops[l].Unrun()
  {
    assert FunctorsOk(s, l);
  }

  /** The descriptor the kernel hands out is not in the poller's map: it was freed with its last owner. */
  lemma FreshSlot(s: Server, l: LoopId, fd: Fd)
    requires Inv(s) && l in s.loops && FdFree(s, fd)
    ensures fd !in s.loops[l].channels
  {
    NoStaleEntry(s, l, fd);
  }

  lemma CreatedOnly(s: Server, fd: Fd, io: LoopId)
    requires LoopsOk(s) && io in s.loops && fd !in s.loops[io].channels && s.nextConnId !in s.conns
    ensures Only(s, Created(s, fd, io), s.nextConnId)
  {
    var r := Created(s, fd, io);
    assert r.loops == s.loops && LoopsOk(r);
    assert forall l :: l in s.loops ==> LoopOnly(s.loops[l], r.loops[l], s.nextConnId, l == io, fd);
  }

  lemma CreatedOk(s: Server, fd: Fd, io: LoopId)
    requires LoopsOk(s) && io in s.loops && fd !in s.loops[io].channels
    requires forall f: Functor :: f.id == s.nextConnId ==> f !in s.loops[io].Unrun() && f !in s.loops[s.base].Unrun()
    ensures var m := Created(s, fd, io); var id := s.nextConnId;
      LoopsOk(m) && InMap(m, id) && !InPoller(m, id) && Owes(m, id, 0, 0, 0)
  {
  }

  /** One new connection, on a descriptor that nobody alive uses. */
  lemma NewConnInv(s: Server, r: Server, id: Id)
    requires Inv(s) && Only(s, r, id) && ConnOk(r, id) && Shrinks(s, r) && id !in s.conns
    requires id == s.nextConnId && r.nextConnId == id + 1 && FdFree(s, r.conns[id].fd)
    requires forall l, d :: l in s.loops && d in s.loops[l].channels ==> s.loops[l].channels[d] != id
    requires forall l :: l in s.loops ==> id !in s.loops[l].active
    requires Targets(r, id) && InMap(r, id)
    ensures Inv(r)
  {
    hide LoopOnly, ConnsOk, ChannelsOk, ActiveOk, Placed, FunctorsOk, LoopOk, ConnOk, FdsOk;
    OnlyConns(s, r, id);
    OnlyChannels(s, r, id);
    OnlyActive(s, r, id);
    OnlyPlaced(s, r, id);
    NewFds(s, r, id);
  }

  lemma NewFds(s: Server, r: Server, id: Id)
    requires Only(s, r, id) && FdsOk(s) && id !in s.conns && FdFree(s, r.conns[id].fd) && Shrinks(s, r)
    ensures FdsOk(r)
  {
    hide LoopOnly, Server.Strong;
  }

  lemma AcceptElsewhereInv(s: Server, fd: Fd, io: LoopId)
    requires Inv(s) && io in s.loops && FdFree(s, fd) && io != s.base
    requires Shrinks(s, NewConnection(s, fd, io))
    ensures Inv(NewConnection(s, fd, io))
  {
    hide Inv, ConnOk, Shrinks, Only, Loop.Unrun, LoopOnly, Created;
    var m := Created(s, fd, io);
    var id := s.nextConnId;
    AcceptReady(s, fd, io);
    var r := m.Queue(io, Establish(id));
    QueuedEstablishOk(m, id);
    QueueOnly(s, m, id, io, Establish(id));
    QueuedTargets(s, m, id, io, Establish(id));
    FreshTargets(s, r, id);
    NewConnInv(s, r, id);
  }

  /** What both ways of establishing a new connection start from. */
  lemma AcceptReady(s: Server, fd: Fd, io: LoopId)
    requires Inv(s) && io in s.loops && FdFree(s, fd)
    ensures var m := Created(s, fd, io); var id := s.nextConnId;
      && LoopsOk(s) && LoopsOk(m) && m.loops == s.loops && m.base == s.base && m.nextConnId == id + 1
      && id !in s.conns && id in m.conns && fd !in s.loops[io].channels
      && m.conns[id] == Conn(ConnName(s.ipPort, id), fd, io, C.Connecting, P.New, Establishing)
      && Only(s, m, id) && InMap(m, id) && !InPoller(m, id) && Owes(m, id, 0, 0, 0)
      && (forall l, d :: l in s.loops && d in s.loops[l].channels ==> s.loops[l].channels[d] != id)
      && (forall l :: l in s.loops ==> id !in s.loops[l].active)
  {
    hide ConnOk, Only, Loop.Unrun, LoopOnly, ConnsOk, ChannelsOk, ActiveOk, Placed, FunctorsOk, FdsOk;
    FreshId(s);
    FreshSlot(s, io, fd);
    FreshFunctors(s, io);
    FreshFunctors(s, s.base);
    CreatedOnly(s, fd, io);
    CreatedOk(s, fd, io);
  }

  lemma QueuedEstablishOk(m: Server, id: Id)
    requires LoopsOk(m) && id in m.conns && m.conns[id].loop in m.loops
    requires var c := m.conns[id]; c.state == C.Connecting && c.index == P.New && c.phase == Establishing
    requires InMap(m, id) && !InPoller(m, id) && Owes(m, id, 0, 0, 0)
    ensures var r := m.Queue(m.conns[id].loop, Establish(id)); LoopsOk(r) && ConnOk(r, id) && InMap(r, id)
  {
    Pushed(m.loops[m.conns[id].loop], Establish(id));
    var r := m.Queue(m.conns[id].loop, Establish(id));
    assert LoopsOk(r) && Owes(r, id, 1, 0, 0);
  }

  lemma FreshTargets(s: Server, r: Server, id: Id)
    requires Inv(s) && LoopsOk(r) && id !in s.conns && id in r.conns && s.loops.Keys == r.loops.Keys
    requires forall k, f :: k in r.loops && f in r.loops[k].Unrun() && f.id == id && f !in s.loops[k].Unrun() ==> Target(r, f) == k
    ensures Targets(r, id)
  {
    forall k, f | k in r.loops && f in r.loops[k].Unrun() && f.id == id
      ensures Target(r, f) == k
    {
      assert FunctorsOk(s, k);
    }
  }

  lemma ReRecordOnly(s: Server, m: Server, id: Id, c: Conn)
    requires Only(s, m, id) && c.name == m.conns[id].name && c.fd == m.conns[id].fd && c.loop == m.conns[id].loop
    ensures Only(s, m.PutConn(id, c), id)
  {
    assert LoopsOk(m.PutConn(id, c));
    hide LoopOnly;
  }

  lemma EstablishedHereOk(m: Server, id: Id)
    requires LoopsOk(m) && id in m.conns && m.conns[id].loop in m.loops
    requires InMap(m, id) && Owes(m, id, 0, 0, 0)
    ensures var r := Established(m, id); LoopsOk(r) && ConnOk(r, id) && InMap(r, id)
    ensures forall l :: l in m.loops ==> Established(m, id).loops[l].Unrun() == m.loops[l].Unrun()
  {
    var r := Established(m, id);
    assert LoopsOk(r);
    assert forall l :: l in m.loops ==> r.loops[l].Unrun() == m.loops[l].Unrun();
    assert Owes(r, id, 0, 0, 0);
  }

  lemma SlotTaken(x: Loop, id: Id, fd: Fd)
    requires LoopOk(x) && fd !in x.channels
    ensures var y := x.(channels := x.channels[fd := id]); LoopOk(y) && LoopOnly(x, y, id, true, fd)
  {
    assert x.(channels := x.channels[fd := id]).Unrun() == x.Unrun();
  }

  lemma AcceptHereInv(s: Server, fd: Fd)
    requires Inv(s) && s.base in s.loops && FdFree(s, fd)
    requires Shrinks(s, NewConnection(s, fd, s.base))
    ensures Inv(NewConnection(s, fd, s.base))
  {
    hide Inv, ConnOk, Shrinks, Only, Loop.Unrun, LoopOnly, Created;
    var m := Created(s, fd, s.base);
    var id := s.nextConnId;
    AcceptReady(s, fd, s.base);
    var c := m.conns[id].(state := C.Connected, index := P.Added, phase := Up);
    var r := Established(m, id);
    EstablishedHereOk(m, id);
    ReRecordOnly(s, m, id, c);
    SlotTaken(s.loops[s.base], id, fd);
    LoopOnlyStep(s, m.PutConn(id, c), id, s.base, s.loops[s.base].(channels := s.loops[s.base].channels[fd := id]));
    FreshTargets(s, r, id);
    NewConnInv(s, r, id);
  }

  lemma AcceptStep(s: Server, fd: Fd, io: LoopId)
    requires Inv(s) && Enabled(s, Accept(fd, io))
    ensures Inv(Apply(s, Accept(fd, io)))
  {
    hide ConnOk, ConnsOk, ChannelsOk, ActiveOk, FdsOk, FunctorsOk, Placed, LoopOnly, Server.Strong, NewConnection;
    StrongOnlyShrinks(s, Accept(fd, io));
    if io == s.base {
      AcceptHereInv(s, fd);
    } else {
      AcceptElsewhereInv(s, fd, io);
    }
  }

  // what user code and other threads do

  lemma ShutdownStep(s: Server, id: Id)
    requires Inv(s) && Enabled(s, UserShutdown(id))
    ensures Inv(Apply(s, UserShutdown(id)))
  {
    if s.conns[id].state == C.Connected {
      ShutdownInv(s, id);
    }
  }

  lemma ShutdownInv(s: Server, id: Id)
    requires Inv(s) && Enabled(s, UserShutdown(id)) && s.conns[id].state == C.Connected
    ensures Inv(s.PutConn(id, s.conns[id].(state := C.Disconnecting)))
  {
    hide ConnsOk, ChannelsOk, ActiveOk, FdsOk, FunctorsOk, Placed, LoopOnly, Server.Strong, Only, Loop.Unrun;
    var c := s.conns[id].(state := C.Disconnecting);
    StrongOnlyShrinks(s, UserShutdown(id));
    Known(s, id);
    OwnSlot(s, id);
    RecordOnly(s, id, c, s.connections);
    OneConnInv(s, s.PutConn(id, c), id);
  }

  lemma HeldPlaced(s: Server, held: set<Id>)
    requires LoopsOk(s) && Placed(s) && held <= s.conns.Keys
    ensures LoopsOk(s.(held := held)) && Placed(s.(held := held))
  {
    hide Loop.Unrun, ConnName;
    var r := s.(held := held);
    assert LoopsOk(r);
    forall l | l in r.loops
      ensures FunctorsOk(r, l)
    {
      assert FunctorsOk(s, l);
    }
  }

  lemma HeldConns(s: Server, held: set<Id>)
    requires LoopsOk(s) && LoopsOk(s.(held := held)) && ConnsOk(s)
    ensures ConnsOk(s.(held := held))
  {
    hide Loop.Unrun, ConnOk;
    var r := s.(held := held);
    forall j | j in r.conns
      ensures ConnOk(r, j)
    {
      assert ConnOk(s, j);
      HomeIsLoop(s, j);
      UntouchedOk(s, r, j);
    }
  }

  lemma HomeIsLoop(s: Server, id: Id)
    requires LoopsOk(s) && id in s.conns && ConnOk(s, id)
    ensures s.conns[id].loop in s.loops
  {
  }

  lemma HeldKeeps(s: Server, held: set<Id>)
    requires Inv(s) && held <= s.conns.Keys && Shrinks(s, s.(held := held))
    ensures Inv(s.(held := held))
  {
    hide ConnOk, FunctorsOk, Server.Strong;
    HeldPlaced(s, held);
    HeldConns(s, held);
  }

  lemma HoldStep(s: Server, a: Action)
    requires Inv(s) && Enabled(s, a) && (a.UserHold? || a.UserRelease?)
    ensures Inv(Apply(s, a))
  {
    hide ConnOk, ConnsOk, ChannelsOk, ActiveOk, FdsOk, FunctorsOk, LoopOnly, Server.Strong;
    StrongOnlyShrinks(s, a);
    HeldKeeps(s, Apply(s, a).held);
  }

  lemma QueueCallbackStep(s: Server, id: Id)
    requires Inv(s) && Enabled(s, QueueCallback(id))
    ensures Inv(Apply(s, QueueCallback(id)))
  {
    hide ConnOk, ConnsOk, ChannelsOk, ActiveOk, FdsOk, FunctorsOk, Placed, LoopOnly, Server.Strong;
    var l := s.conns[id].loop;
    StrongOnlyShrinks(s, QueueCallback(id));
    Pushed(s.loops[l], Callback(id));
    CallbackLoop(s, id, l, s.loops[l].Push(Callback(id)));
  }

  /** Every step keeps the invariant. */
  lemma InvStep(s: Server, a: Action)
    requires Inv(s) && Enabled(s, a)
    ensures Inv(Apply(s, a))
  {
    hide Inv, Apply;
    match a
    case Accept(fd, io) => AcceptStep(s, fd, io);
    case Poll(l, ready) => PollStep(s, l, ready);
    case Dispatch(l) => DispatchStep(s, l);
    case CloseEvent(l) => CloseStep(s, l);
    case EndEvent(l) => EndEventStep(s, l);
    case Swap(l) => SwapStep(s, l);
    case RunNext(l) =>
      match s.loops[l].batch[s.loops[l].done] {
        case Establish(_) => EstablishStep(s, l);
        case RemoveInLoop(_) => RemoveStep(s, l);
        case Destroy(_) => DestroyStep(s, l);
        case Callback(_) => CallbackStep(s, l);
      }
    case EndBatch(l) => EndBatchStep(s, l);
    case UserShutdown(id) => ShutdownStep(s, id);
    case UserHold(id) => HoldStep(s, a);
    case UserRelease(id) => HoldStep(s, a);
    case QueueCallback(id) => QueueCallbackStep(s, id);
  }

  lemma StartInv(base: LoopId, workers: set<LoopId>, ipPort: string)
    ensures Inv(Start(base, workers, ipPort))
  {
  }

  /** The invariant holds in every reachable state, whatever the interleaving of the loops. */
  lemma {:induction false} InvRun(base: LoopId, workers: set<LoopId>, ipPort: string, acts: seq<Action>)
    ensures var r := Exec(Start(base, workers, ipPort), acts); r.Some? ==> Inv(r.value)
  {
    hide Inv;
    if acts == [] {
      StartInv(base, workers, ipPort);
    } else {
      var before := Exec(Start(base, workers, ipPort), acts[..|acts| - 1]);
      InvRun(base, workers, ipPort, acts[..|acts| - 1]);
      if before.Some? && Enabled(before.value, acts[|acts| - 1]) {
        InvStep(before.value, acts[|acts| - 1]);
      }
    }
  }

  // ---------------------------------------------------------------- the guarantees

  /** A run has led here from a server that had just started. */
  ghost predicate Reachable(s: Server) {
    exists base, workers, ipPort, acts :: Exec(Start(base, workers, ipPort), acts) == Some(s)
  }

  lemma ReachableInv(s: Server)
    requires Reachable(s)
    ensures Inv(s)
  {
    hide Inv;
    var base, workers, ipPort, acts :| Exec(Start(base, workers, ipPort), acts) == Some(s);
    InvRun(base, workers, ipPort, acts);
  }

  /** Lifetime across loops: whatever a poller's map or a batch of active channels refers to by bare
      pointer is alive. */
  lemma ChannelsAreAlive(s: Server, l: LoopId)
    requires Reachable(s) && l in s.loops
    ensures forall fd :: fd in s.loops[l].channels ==> s.Strong(s.loops[l].channels[fd])
    ensures forall id :: id in s.loops[l].active ==> s.Strong(id)
  {
    hide Server.Strong, Loop.Unrun, FunctorsOk, Placed, Owes;
    ReachableInv(s);
    forall fd | fd in s.loops[l].channels
      ensures s.Strong(s.loops[l].channels[fd])
    {
      Known(s, s.loops[l].channels[fd]);
      NotGoneIsStrong(s, s.loops[l].channels[fd]);
    }
    forall id | id in s.loops[l].active
      ensures s.Strong(id)
    {
      NotGoneIsStrong(s, id);
    }
  }

  /** So the weak pointer of a channel about to be handled can always be locked. */
  lemma DispatchLocks(s: Server, l: LoopId)
    requires Reachable(s) && Enabled(s, Dispatch(l))
    ensures Apply(s, Dispatch(l)).loops[l].guard == Some(s.loops[l].active[0])
  {
    ChannelsAreAlive(s, l);
  }

  /** A connection that has died is disconnected, out of its poller and out of the map, and nothing is
      left to be run for it; its functors have all run. */
  lemma DeadIsFinished(s: Server, id: Id)
    requires Reachable(s) && id in s.conns && !s.Strong(id)
    ensures s.conns[id].state == C.Disconnected && s.conns[id].index == P.New
    ensures s.conns[id].name !in s.connections
    ensures forall l, fd :: l in s.loops && fd in s.loops[l].channels ==> s.loops[l].channels[fd] != id
    ensures forall l, f: Functor :: l in s.loops && f.id == id ==> f !in s.loops[l].pending && f !in s.loops[l].batch
  {
    hide LoopOk, ActiveOk, FdsOk, FunctorsOk, Loop.Unrun;
    ReachableInv(s);
    if s.conns[id].phase != Gone {
      NotGoneIsStrong(s, id);
    }
    Known(s, id);
    NameEntry(s, id);
    forall l, f: Functor | l in s.loops && f.id == id
      ensures f !in s.loops[l].pending && f !in s.loops[l].batch
    {
      QueueHolds(s, l, f);
    }
  }

  lemma QueueHolds(s: Server, l: LoopId, f: Functor)
    requires l in s.loops
    ensures f in s.loops[l].pending || f in s.loops[l].batch ==> s.Strong(f.id)
  {
    assert f in s.loops[l].pending || f in s.loops[l].batch ==> s.loops[l].Holds(f.id);
  }

  /** A descriptor nobody alive owns is in no poller's map: reusing it meets no stale entry. */
  lemma ReusedFdIsNowhere(s: Server, fd: Fd)
    requires Reachable(s) && FdFree(s, fd)
    ensures forall l :: l in s.loops ==> fd !in s.loops[l].channels
  {
    hide Inv;
    ReachableInv(s);
    forall l | l in s.loops
      ensures fd !in s.loops[l].channels
    {
      FreshSlot(s, l, fd);
    }
  }

  /** A new connection's name is not in the map: no live entry is overwritten, and the others stay. */
  lemma NewNameOverwritesNothing(s: Server, fd: Fd, io: LoopId)
    requires Reachable(s) && io in s.loops
    ensures forall name :: name in s.connections ==>
      name in NewConnection(s, fd, io).connections && NewConnection(s, fd, io).connections[name] == s.connections[name]
    ensures |NewConnection(s, fd, io).connections| == |s.connections| + 1
  {
    hide Inv;
    ReachableInv(s);
    FreshId(s);
    var name := ConnName(s.ipPort, s.nextConnId);
    var m := s.connections[name := s.nextConnId];
    assert NewConnection(s, fd, io).connections == m;
    assert m.Keys == s.connections.Keys + {name};
  }

  /** The poller's map, the index and the state agree: a connection is in its poller's map exactly when
      its index is not New, and the kernel reports it exactly when it is connected or disconnecting. */
  lemma PollerAndStateAgree(s: Server, id: Id)
    requires Reachable(s) && id in s.conns
    ensures s.conns[id].loop in s.loops
    ensures InPoller(s, id) <==> s.conns[id].index != P.New
    ensures s.conns[id].index == P.Added <==> s.conns[id].state == C.Connected || s.conns[id].state == C.Disconnecting
    ensures s.base in s.loops && (InMap(s, id) && s.conns[id].state == C.Disconnected ==>
      RemoveInLoop(id) in s.loops[s.base].pending || RemoveInLoop(id) in s.loops[s.base].batch)
  {
    hide ActiveOk, FdsOk, FunctorsOk, Placed, Loop.Unrun;
    ReachableInv(s);
    Known(s, id);
    UnrunIsQueued(s.loops[s.base], RemoveInLoop(id));
  }

  /** Each functor runs on the loop it is meant for, and finds the connection as it expects it. */
  lemma FunctorsRunInPlace(s: Server, l: LoopId)
    requires Reachable(s) && Enabled(s, RunNext(l))
    ensures var f := s.loops[l].batch[s.loops[l].done]; var c := s.conns[f.id];
      && s.Strong(f.id)
      && (f.Establish? ==> l == c.loop && c.state == C.Connecting && c.fd !in s.loops[l].channels)
      && (f.RemoveInLoop? ==> l == s.base && c.state == C.Disconnected && InMap(s, f.id))
      && (f.Destroy? ==> l == c.loop && c.state == C.Disconnected && InPoller(s, f.id) && !InMap(s, f.id))
  {
    hide ConnsOk, ActiveOk, FdsOk, FunctorsOk, Placed, Loop.Unrun, ChannelsOk, Apply, Server.Strong;
    ReachableInv(s);
    var id := s.loops[l].batch[s.loops[l].done].id;
    OwedNow(s, l);
    StillAlive(s, l);
    Known(s, id);
    if s.conns[id].phase == Establishing {
      SlotFree(s, id);
    }
  }

  /** No leak: once nothing is queued, dispatched or held by user code, a disconnected connection is dead. */
  lemma NothingKeepsTheDisconnected(s: Server, id: Id)
    requires Reachable(s) && id in s.conns && s.conns[id].state == C.Disconnected && id !in s.held
    requires forall l :: l in s.loops ==> s.loops[l].pending == [] && s.loops[l].batch == [] && s.loops[l].guard == None
    ensures !s.Strong(id)
  {
    hide ActiveOk, FdsOk, FunctorsOk, ChannelsOk;
    ReachableInv(s);
    Known(s, id);
    assert s.conns[id].phase == Gone;
    assert !InMap(s, id);
    assert forall l :: l in s.loops ==> !s.loops[l].Holds(id);
  }

  lemma UnrunIsQueued(x: Loop, f: Functor)
    requires x.Ok()
    ensures f in x.Unrun() ==> f in x.pending || f in x.batch
  {
    if f in x.Unrun() && f !in x.pending {
      assert f in x.batch[x.done..];
    }
  }

  // Nothing comes back.

  function Rank(p: Phase): nat {
    match p
    case Establishing => 0
    case Up => 1
    case Closing => 2
    case Destroying => 3
    case Gone => 4
  }

  /** What a later state may not change: a connection keeps its name, descriptor and loop, goes forward
      only, and once dead stays dead. */
  ghost predicate Later(s: Server, r: Server, id: Id)
    requires id in s.conns
  {
    && id in r.conns
    && r.conns[id].name == s.conns[id].name && r.conns[id].fd == s.conns[id].fd && r.conns[id].loop == s.conns[id].loop
    && Rank(r.conns[id].phase) >= Rank(s.conns[id].phase)
    && (r.Strong(id) ==> s.Strong(id))
  }

  lemma LaterStep(s: Server, a: Action, id: Id)
    requires Inv(s) && Enabled(s, a) && id in s.conns
    ensures Later(s, Apply(s, a), id)
  {
    hide Server.Strong, Inv, Apply, Enabled, Rank;
    StrongOnlyShrinks(s, a);
    RecordStep(s, a, id);
  }

  lemma RecordStep(s: Server, a: Action, id: Id)
    requires Inv(s) && Enabled(s, a) && id in s.conns
    ensures var r := Apply(s, a);
      && id in r.conns && r.conns[id].name == s.conns[id].name && r.conns[id].fd == s.conns[id].fd
      && r.conns[id].loop == s.conns[id].loop && Rank(r.conns[id].phase) >= Rank(s.conns[id].phase)
  {
    hide Server.Strong, Loop.Unrun, ConnsOk, ChannelsOk, ActiveOk, FdsOk, FunctorsOk, LoopOk, Decimal, ConnName, Owes;
    match a
    case RunNext(l) => RecordRun(s, l, id);
    case CloseEvent(l) => ClosingWasUp(s, l);
    case _ =>
  }

  lemma RecordRun(s: Server, l: LoopId, id: Id)
    requires Inv(s) && Enabled(s, RunNext(l)) && id in s.conns
    ensures var r := Apply(s, RunNext(l));
      && id in r.conns && r.conns[id].name == s.conns[id].name && r.conns[id].fd == s.conns[id].fd
      && r.conns[id].loop == s.conns[id].loop && Rank(r.conns[id].phase) >= Rank(s.conns[id].phase)
  {
    hide Server.Strong, Loop.Unrun, ConnsOk, ChannelsOk, ActiveOk, FdsOk, FunctorsOk, LoopOk, Decimal, ConnName, Owes;
    OwedNow(s, l);
  }

  /** Over any run, in any interleaving, connections only move forward, and the dead stay dead. */
  lemma {:induction false} LaterRun(s: Server, acts: seq<Action>, id: Id)
    requires Reachable(s) && id in s.conns
    ensures var r := Exec(s, acts); r.Some? ==> Inv(r.value) && Later(s, r.value, id)
  {
    hide Inv, Later;
    ReachableInv(s);
    if acts == [] {
      LaterSame(s, id);
    } else {
      var before := Exec(s, acts[..|acts| - 1]);
      LaterRun(s, acts[..|acts| - 1], id);
      if before.Some? && Enabled(before.value, acts[|acts| - 1]) {
        LaterNow(s, before.value, acts[|acts| - 1], id);
      }
    }
  }

  lemma LaterSame(s: Server, id: Id)
    requires id in s.conns
    ensures Later(s, s, id)
  {
  }

  lemma LaterNow(s: Server, m: Server, a: Action, id: Id)
    requires id in s.conns && Later(s, m, id) && Inv(m) && Enabled(m, a)
    ensures Later(s, Apply(m, a), id) && Inv(Apply(m, a))
  {
    hide Inv, Server.Strong, Apply, Enabled;
    LaterStep(m, a, id);
    InvStep(m, a);
  }
}
