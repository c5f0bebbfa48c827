/** The two views of a connection fit: what `Servers` records of one (its state and its index in the
    poller) is what the full machine of `Connections` makes of the same calls, and everything that the
    server's view leaves out changes neither.

    `System` puts them together: the server, and for each connection the calls it has seen.  Over every
    run of the system the calls of each connection are a run of the connection machine, so what is
    proved in `Connections` about runs holds of every connection a server has. */
module ServerConnections {
  import opened Options
  import C = Connections
  import P = Pollers
  import S = Servers

  type byte = bv8

  /** The server's record `x` describes the connection `c`. */
  predicate Describes(x: S.Conn, c: C.Conn) {
    x.state == c.state && x.index == c.chan.index && (x.phase == S.Gone <==> c.destroyed)
  }

  lemma FreshIsDescribed(s: S.Server, fd: S.Fd, io: S.LoopId, mark: nat, w: bool, h: bool)
    ensures Describes(S.Created(s, fd, io).conns[s.nextConnId], C.Fresh(mark, w, h))
  {
  }

  lemma EstablishedIsDescribed(s: S.Server, id: S.Id, c: C.Conn)
    requires S.Inv(s) && id in s.conns && s.conns[id].phase == S.Establishing
    requires Describes(s.conns[id], c) && C.Inv(c)
    ensures s.conns[id].loop in s.loops && C.Enabled(c, C.Establish)
    ensures Describes(S.Established(s, id).conns[id], C.Apply(c, C.Establish))
  {
    hide S.Inv;
    S.Known(s, id);
  }

  /** The handler sees the end of a connection as a hang-up or as a read of nothing. */
  lemma ClosedIsDescribed(s: S.Server, l: S.LoopId, c: C.Conn, a: C.Action)
    requires S.Inv(s) && S.Enabled(s, S.CloseEvent(l)) && (a == C.HangUp || a == C.Readable([]))
    requires Describes(s.conns[s.loops[l].guard.value], c) && C.Inv(c) && C.Enabled(c, a)
    ensures Describes(S.Apply(s, S.CloseEvent(l)).conns[s.loops[l].guard.value], C.Apply(c, a))
  {
    hide S.Inv;
    S.ClosingWasUp(s, l);
    S.Known(s, s.loops[l].guard.value);
  }

  /** A connection that is up is watched, so that end can always be seen. */
  lemma UpIsWatched(x: S.Conn, c: C.Conn)
    requires Describes(x, c) && C.Inv(c) && x.phase == S.Up && x.index == P.Added
    ensures C.Enabled(c, C.HangUp) && C.Enabled(c, C.Readable([]))
  {
  }

  lemma DestroyedIsDescribed(s: S.Server, id: S.Id, c: C.Conn)
    requires S.Inv(s) && id in s.conns && s.conns[id].phase == S.Destroying
    requires Describes(s.conns[id], c) && C.Inv(c)
    ensures s.conns[id].loop in s.loops && C.Enabled(c, C.Destroy)
    ensures Describes(S.Destroyed(s, id).conns[id], C.Apply(c, C.Destroy))
  {
    hide S.Inv;
    S.Known(s, id);
  }

  lemma ShutdownIsDescribed(s: S.Server, id: S.Id, c: C.Conn, inLoop: bool)
    requires S.Enabled(s, S.UserShutdown(id)) && Describes(s.conns[id], c)
    ensures Describes(S.Apply(s, S.UserShutdown(id)).conns[id], C.Apply(c, C.ShutdownCall(inLoop)))
  {
  }

  /** The calls and events the server's view leaves out. */
  predicate Unseen(a: C.Action) {
    a.SendCall? || a.TaskRun? || a.Writable? || a.SetHighWater? || a.UserReads? || (a.Readable? && a.data != [])
  }

  lemma SendKeepsRecord(c: C.Conn, msg: seq<byte>, k: nat)
    requires C.ChannelInv(c) && c.state != C.Connecting && (c.destroyed ==> c.state == C.Disconnected) && k <= |msg|
    ensures var r := c.SendInLoop(msg, k);
      r.state == c.state && r.chan.index == c.chan.index && r.destroyed == c.destroyed
  {
  }

  lemma WriteKeepsRecord(c: C.Conn, k: nat)
    requires C.ChannelInv(c) && (c.destroyed ==> c.state == C.Disconnected) && k <= |c.output|
    requires c.state == C.Connecting ==> !c.chan.interest.writing
    ensures var r := c.HandleWrite(k);
      r.state == c.state && r.chan.index == c.chan.index && r.destroyed == c.destroyed
  {
  }

  lemma TaskKeepsRecord(c: C.Conn, k: nat)
    requires C.ChannelInv(c) && (c.destroyed ==> c.state == C.Disconnected) && C.Enabled(c, C.TaskRun(k))
    ensures var r := c.RunTask(k);
      r.state == c.state && r.chan.index == c.chan.index && r.destroyed == c.destroyed
  {
    hide C.Conn.SendInLoop;
    var m := c.(tasks := c.tasks[1..]);
    match c.tasks[0]
    case SendTask(msg) => SendKeepsRecord(m, msg, k);
    case ShutdownTask =>
  }

  lemma UnseenIsDescribed(x: S.Conn, c: C.Conn, a: C.Action)
    requires Describes(x, c) && C.Inv(c) && C.Enabled(c, a) && Unseen(a) && (c.destroyed ==> c.state == C.Disconnected)
    ensures Describes(x, C.Apply(c, a))
  {
    hide C.Conn.SendInLoop, C.Conn.HandleWrite, C.Conn.RunTask;
    match a
    case SendCall(inLoop, msg, k) =>
      if inLoop && c.state == C.Connected {
        SendKeepsRecord(c, msg, k);
      }
    case TaskRun(k) => TaskKeepsRecord(c, k);
    case Writable(k) => WriteKeepsRecord(c, k);
    case _ =>
  }

  // ---------------------------------------------------------------- the system

  /** What user code sets on a new connection. */
  datatype Settings = Settings(mark: nat, hasWriteComplete: bool, hasHighWater: bool)

  datatype System = System(server: S.Server, settings: map<S.Id, Settings>, calls: map<S.Id, seq<C.Action>>) {
    predicate Has(id: S.Id) {
      id in settings && id in calls
    }

    /** The connection, if its calls are a run of the connection machine. */
    function Of(id: S.Id): Option<C.Conn>
      requires Has(id)
    {
      var o := settings[id];
      C.Exec(C.Fresh(o.mark, o.hasWriteComplete, o.hasHighWater), calls[id])
    }

    function Call(id: S.Id, acts: seq<C.Action>): System {
      if id in calls then this.(calls := calls[id := calls[id] + acts]) else this
    }
  }

  /** Something happens in the server, or a connection sees what the server does not: sends, queued
      tasks, writes, reads that deliver bytes. */
  datatype Event =
    | InServer(a: S.Action, o: Settings, inLoop: bool)
    | InConnection(id: S.Id, call: C.Action)

  /** The connection that a step of the server calls, and what it calls. */
  function Calls(s: S.Server, a: S.Action, inLoop: bool): Option<(S.Id, seq<C.Action>)>
    requires S.Enabled(s, a)
  {
    match a
    case CloseEvent(l) => Some((s.loops[l].guard.value, [C.HangUp]))
    case UserShutdown(id) => Some((id, [C.ShutdownCall(inLoop)]))
    case RunNext(l) =>
      (match s.loops[l].batch[s.loops[l].done]
       case Establish(id) => Some((id, [C.Establish]))
       case Destroy(id) => Some((id, [C.Destroy]))
       case _ => None)
    case _ => None
  }

  predicate Enabled(y: System, e: Event) {
    match e
    case InServer(a, _, _) => S.Enabled(y.server, a)
    case InConnection(id, a) => y.Has(id) && y.Of(id).Some? && C.Enabled(y.Of(id).value, a) && Unseen(a)
  }

  function Apply(y: System, e: Event): System
    requires Enabled(y, e)
  {
    match e
    case InServer(a, o, inLoop) =>
      var r := y.(server := S.Apply(y.server, a));
      if a.Accept? then
        var id := y.server.nextConnId;
        r.(settings := r.settings[id := o], calls := r.calls[id := if a.io == y.server.base then [C.Establish] else []])
      else
        (match Calls(y.server, a, inLoop)
         case Some((id, acts)) => r.Call(id, acts)
         case None => r)
    case InConnection(id, a) => y.Call(id, [a])
  }

  function Exec(y: System, events: seq<Event>): Option<System> {
    if events == [] then Some(y)
    else
      var before := Exec(y, events[..|events| - 1]);
      if before.Some? && Enabled(before.value, events[|events| - 1])
      then Some(Apply(before.value, events[|events| - 1])) else None
  }

  /** The calls of a connection are a run of its machine, and the server's record describes where it led. */
  ghost predicate Simulated(y: System, id: S.Id)
    requires id in y.server.conns && y.Has(id)
  {
    y.Of(id).Some? && Describes(y.server.conns[id], y.Of(id).value)
  }

  ghost predicate SystemInv(y: System) {
    && S.Inv(y.server)
    && y.settings.Keys == y.calls.Keys == y.server.conns.Keys
    && forall id :: id in y.server.conns ==> Simulated(y, id)
  }

  lemma OfIsInv(y: System, id: S.Id)
    requires y.Has(id) && y.Of(id).Some?
    ensures C.Inv(y.Of(id).value)
  {
    var o := y.settings[id];
    C.FreshInv(o.mark, o.hasWriteComplete, o.hasHighWater);
    C.InvRun(C.Fresh(o.mark, o.hasWriteComplete, o.hasHighWater), y.calls[id]);
  }

  lemma OneCall(y: System, id: S.Id, a: C.Action)
    requires y.Has(id) && y.Of(id).Some? && C.Enabled(y.Of(id).value, a)
    ensures var r := y.Call(id, [a]);
      && r.Has(id) && r.Of(id) == Some(C.Apply(y.Of(id).value, a))
      && r.settings == y.settings && r.calls.Keys == y.calls.Keys && r.server == y.server
      && forall j :: j in y.calls && j != id ==> r.calls[j] == y.calls[j]
  {
    assert (y.calls[id] + [a])[..|y.calls[id]|] == y.calls[id];
  }

  /** What `Describes` looks at is the same. */
  predicate Same(x: S.Conn, z: S.Conn) {
    z.state == x.state && z.index == x.index && (z.phase == S.Gone <==> x.phase == S.Gone)
  }

  /** A step of the server changes the record of the connection it calls, and of no other. */
  lemma OthersKept(s: S.Server, a: S.Action, inLoop: bool, j: S.Id)
    requires S.Inv(s) && S.Enabled(s, a) && j in s.conns
    requires Calls(s, a, inLoop).Some? ==> Calls(s, a, inLoop).value.0 != j
    ensures j in S.Apply(s, a).conns && Same(s.conns[j], S.Apply(s, a).conns[j])
  {
    hide S.Inv, S.Server.Strong, S.FdFree, S.Reportable, S.ConnName;
    match a
    case RunNext(l) => OthersKeptByRun(s, l, inLoop, j);
    case Accept(fd, io) => S.FreshId(s);
    case _ =>
  }

  lemma OthersKeptByRun(s: S.Server, l: S.LoopId, inLoop: bool, j: S.Id)
    requires S.Inv(s) && S.Enabled(s, S.RunNext(l)) && j in s.conns
    requires Calls(s, S.RunNext(l), inLoop).Some? ==> Calls(s, S.RunNext(l), inLoop).value.0 != j
    ensures j in S.Apply(s, S.RunNext(l)).conns && Same(s.conns[j], S.Apply(s, S.RunNext(l)).conns[j])
  {
    hide S.Inv, S.Server.Strong;
    S.OwedNow(s, l);
  }

  /** The connection that is called can take the call, and the record follows. */
  lemma CallIsDescribed(s: S.Server, a: S.Action, inLoop: bool, c: C.Conn)
    requires S.Inv(s) && S.Enabled(s, a) && Calls(s, a, inLoop).Some? && Calls(s, a, inLoop).value.0 in s.conns
    requires Describes(s.conns[Calls(s, a, inLoop).value.0], c) && C.Inv(c)
    ensures var (id, acts) := Calls(s, a, inLoop).value;
      && |acts| == 1 && C.Enabled(c, acts[0])
      && id in S.Apply(s, a).conns && Describes(S.Apply(s, a).conns[id], C.Apply(c, acts[0]))
  {
    hide S.Inv, S.Server.Strong, C.Inv;
    match a
    case CloseEvent(l) =>
      S.ClosingWasUp(s, l);
      S.Known(s, s.loops[l].guard.value);
      UpIsWatched(s.conns[s.loops[l].guard.value], c);
      ClosedIsDescribed(s, l, c, C.HangUp);
    case UserShutdown(id) => ShutdownIsDescribed(s, id, c, inLoop);
    case RunNext(l) =>
      S.OwedNow(s, l);
      match s.loops[l].batch[s.loops[l].done] {
        case Establish(id) => EstablishedIsDescribed(s, id, c);
        case Destroy(id) => DestroyedIsDescribed(s, id, c);
        case _ =>
      }
    case _ =>
  }

  lemma AcceptSimulated(y: System, fd: S.Fd, io: S.LoopId, o: Settings, inLoop: bool)
    requires SystemInv(y) && S.Enabled(y.server, S.Accept(fd, io))
    ensures SystemInv(Apply(y, InServer(S.Accept(fd, io), o, inLoop)))
  {
    hide S.Inv, S.Apply, S.Enabled, Simulated;
    var s, a := y.server, S.Accept(fd, io);
    var r := Apply(y, InServer(a, o, inLoop));
    S.InvStep(s, a);
    AcceptKeys(s, fd, io);
    forall j | j in r.server.conns
      ensures r.Has(j) && Simulated(r, j)
    {
      if j == s.nextConnId {
        NewIsSimulated(y, fd, io, o, inLoop);
      } else {
        OldStaysSimulated(y, fd, io, o, inLoop, j);
      }
    }
  }

  lemma NewIsSimulated(y: System, fd: S.Fd, io: S.LoopId, o: Settings, inLoop: bool)
    requires S.Enabled(y.server, S.Accept(fd, io))
    ensures var r, id := Apply(y, InServer(S.Accept(fd, io), o, inLoop)), y.server.nextConnId;
      id in r.server.conns && r.Has(id) && Simulated(r, id)
  {
    hide S.Apply, S.Enabled;
    AcceptedIsDescribed(y.server, fd, io, o);
  }

  lemma OldStaysSimulated(y: System, fd: S.Fd, io: S.LoopId, o: Settings, inLoop: bool, j: S.Id)
    requires SystemInv(y) && S.Enabled(y.server, S.Accept(fd, io)) && j in y.server.conns && j != y.server.nextConnId
    ensures var r := Apply(y, InServer(S.Accept(fd, io), o, inLoop));
      j in r.server.conns && r.Has(j) && Simulated(r, j)
  {
    hide S.Inv, S.Apply, S.Enabled, C.Exec;
    OthersKept(y.server, S.Accept(fd, io), inLoop, j);
    assert Simulated(y, j) && Apply(y, InServer(S.Accept(fd, io), o, inLoop)).Of(j) == y.Of(j);
  }

  lemma AcceptKeys(s: S.Server, fd: S.Fd, io: S.LoopId)
    requires S.Inv(s) && S.Enabled(s, S.Accept(fd, io))
    ensures s.nextConnId !in s.conns
    ensures S.Apply(s, S.Accept(fd, io)).conns.Keys == s.conns.Keys + {s.nextConnId}
  {
    hide S.Inv;
    S.FreshId(s);
  }

  lemma AcceptedIsDescribed(s: S.Server, fd: S.Fd, io: S.LoopId, o: Settings)
    requires S.Enabled(s, S.Accept(fd, io))
    ensures var f := C.Fresh(o.mark, o.hasWriteComplete, o.hasHighWater);
      var c := C.Exec(f, if io == s.base then [C.Establish] else []);
      s.nextConnId in S.Apply(s, S.Accept(fd, io)).conns &&
      c.Some? && Describes(S.Apply(s, S.Accept(fd, io)).conns[s.nextConnId], c.value)
  {
    var f := C.Fresh(o.mark, o.hasWriteComplete, o.hasHighWater);
    FreshIsDescribed(s, fd, io, o.mark, o.hasWriteComplete, o.hasHighWater);
    if io == s.base {
      var acts := C.ExecNext(f, [], f, C.Establish);
      assert acts == [C.Establish];
    }
  }

  lemma ServerSimulated(y: System, a: S.Action, o: Settings, inLoop: bool)
    requires SystemInv(y) && S.Enabled(y.server, a) && !a.Accept?
    ensures SystemInv(Apply(y, InServer(a, o, inLoop)))
  {
    hide S.Inv, S.Apply, S.Enabled, Simulated, Calls;
    var s, r := y.server, Apply(y, InServer(a, o, inLoop));
    S.InvStep(s, a);
    KeysKept(s, a);
    CalledExists(s, a, inLoop);
    forall j | j in r.server.conns
      ensures r.Has(j) && Simulated(r, j)
    {
      if Calls(s, a, inLoop).Some? && Calls(s, a, inLoop).value.0 == j {
        CalledSimulated(y, a, o, inLoop);
      } else {
        OtherSimulated(y, a, o, inLoop, j);
      }
    }
  }

  lemma CalledSimulated(y: System, a: S.Action, o: Settings, inLoop: bool)
    requires SystemInv(y) && S.Enabled(y.server, a) && !a.Accept? && Calls(y.server, a, inLoop).Some?
    ensures var r, id := Apply(y, InServer(a, o, inLoop)), Calls(y.server, a, inLoop).value.0;
      id in r.server.conns && r.Has(id) && Simulated(r, id)
  {
    hide S.Inv, C.Inv, S.Apply, C.Apply, S.Enabled, C.Enabled, Calls;
    var s := y.server;
    CalledExists(s, a, inLoop);
    var (id, acts) := Calls(s, a, inLoop).value;
    assert Simulated(y, id);
    OfIsInv(y, id);
    CallIsDescribed(s, a, inLoop, y.Of(id).value);
    assert acts == [acts[0]];
    OneCall(y, id, acts[0]);
    assert Apply(y, InServer(a, o, inLoop)).Of(id) == y.Call(id, acts).Of(id);
  }

  lemma OtherSimulated(y: System, a: S.Action, o: Settings, inLoop: bool, j: S.Id)
    requires SystemInv(y) && S.Enabled(y.server, a) && !a.Accept? && j in y.server.conns
    requires Calls(y.server, a, inLoop).Some? ==> Calls(y.server, a, inLoop).value.0 != j
    ensures var r := Apply(y, InServer(a, o, inLoop)); j in r.server.conns && r.Has(j) && Simulated(r, j)
  {
    hide S.Inv, S.Apply, S.Enabled, C.Exec, Calls;
    OthersKept(y.server, a, inLoop, j);
    assert Simulated(y, j) && Apply(y, InServer(a, o, inLoop)).Of(j) == y.Of(j);
  }

  lemma KeysKept(s: S.Server, a: S.Action)
    requires S.Enabled(s, a) && !a.Accept?
    ensures S.Apply(s, a).conns.Keys == s.conns.Keys
  {
  }

  lemma CalledExists(s: S.Server, a: S.Action, inLoop: bool)
    requires S.Enabled(s, a)
    ensures Calls(s, a, inLoop).Some? ==> Calls(s, a, inLoop).value.0 in s.conns
  {
  }

  lemma ConnectionSimulated(y: System, id: S.Id, a: C.Action)
    requires SystemInv(y) && Enabled(y, InConnection(id, a))
    ensures SystemInv(Apply(y, InConnection(id, a)))
  {
    hide S.Inv, C.Inv, C.Apply, C.Enabled;
    var r := Apply(y, InConnection(id, a));
    OfIsInv(y, id);
    OneCall(y, id, a);
    assert Simulated(y, id);
    GoneIsDown(y.server, id);
    UnseenIsDescribed(y.server.conns[id], y.Of(id).value, a);
    forall j | j in r.server.conns
      ensures r.Has(j) && Simulated(r, j)
    {
      if j != id {
        assert Simulated(y, j) && r.Of(j) == y.Of(j);
      }
    }
  }

  lemma GoneIsDown(s: S.Server, id: S.Id)
    requires S.Inv(s) && id in s.conns
    ensures s.conns[id].phase == S.Gone ==> s.conns[id].state == C.Disconnected
  {
    hide S.Inv;
    S.Known(s, id);
  }

  function Start(base: S.LoopId, workers: set<S.LoopId>, ipPort: string): System {
    System(S.Start(base, workers, ipPort), map[], map[])
  }

  /** The simulation: over every run of the system each connection's calls are a run of the connection
      machine, and the server's record of it describes the state that run has reached. */
  lemma {:induction false} ConnectionsAreSimulated(base: S.LoopId, workers: set<S.LoopId>, ipPort: string,
                                                   events: seq<Event>)
    ensures var r := Exec(Start(base, workers, ipPort), events); r.Some? ==> SystemInv(r.value)
  {
    hide SystemInv;
    if events == [] {
      StartIsSimulated(base, workers, ipPort);
    } else {
      var before, e := Exec(Start(base, workers, ipPort), events[..|events| - 1]), events[|events| - 1];
      ConnectionsAreSimulated(base, workers, ipPort, events[..|events| - 1]);
      if before.Some? && Enabled(before.value, e) {
        StepSimulated(before.value, e);
      }
    }
  }

  lemma StartIsSimulated(base: S.LoopId, workers: set<S.LoopId>, ipPort: string)
    ensures SystemInv(Start(base, workers, ipPort))
  {
    hide S.Inv;
    S.StartInv(base, workers, ipPort);
  }

  lemma StepSimulated(y: System, e: Event)
    requires SystemInv(y) && Enabled(y, e)
    ensures SystemInv(Apply(y, e))
  {
    hide SystemInv, Apply, S.Enabled;
    match e
    case InServer(a, o, inLoop) =>
      if a.Accept? {
        AcceptSimulated(y, a.fd, a.io, o, inLoop);
      } else {
        ServerSimulated(y, a, o, inLoop);
      }
    case InConnection(id, a) => ConnectionSimulated(y, id, a);
  }

  /** A connection the server is done with is down and out of the kernel's table in its own machine. */
  lemma GoneIsOutOfTheKernel(base: S.LoopId, workers: set<S.LoopId>, ipPort: string, events: seq<Event>, id: S.Id)
    requires Exec(Start(base, workers, ipPort), events).Some?
    requires var y := Exec(Start(base, workers, ipPort), events).value;
      id in y.server.conns && (y.server.conns[id].phase == S.Gone || !y.server.Strong(id))
    ensures var y := Exec(Start(base, workers, ipPort), events).value;
      && y.Has(id) && y.Of(id).Some?
      && var c := y.Of(id).value;
         c.state == C.Disconnected && c.destroyed && c.chan.kernel == None && !c.chan.inMap && c.chan.interest.IsNone()
  {
    hide S.Inv, S.Server.Strong;
    ConnectionsAreSimulated(base, workers, ipPort, events);
    var y := Exec(Start(base, workers, ipPort), events).value;
    assert Simulated(y, id);
    if y.server.conns[id].phase != S.Gone {
      S.NotGoneIsStrong(y.server, id);
    }
    GoneIsDown(y.server, id);
    OfIsInv(y, id);
    GoneIsNew(y.server, id);
  }

  lemma GoneIsNew(s: S.Server, id: S.Id)
    requires S.Inv(s) && id in s.conns
    ensures s.conns[id].phase == S.Gone ==> s.conns[id].index == P.New
  {
    hide S.Inv;
    S.Known(s, id);
  }

  // ---------------------------------------------------------------- the close callback

  /** The server has been told of the connection's end. */
  predicate Over(x: S.Conn) {
    x.phase == S.Closing || x.phase == S.Destroying || x.phase == S.Gone
  }

  /** This event is the handler of connection `id` seeing its end. */
  predicate Closes(y: System, e: Event, id: S.Id) {
    e.InServer? && e.a.CloseEvent? && e.a.l in y.server.loops && y.server.loops[e.a.l].guard == Some(id)
  }

  /** How often the server takes the end of connection `id`. */
  function Closings(y: System, events: seq<Event>, id: S.Id): nat {
    if events == [] then 0
    else
      var before := Exec(y, events[..|events| - 1]);
      Closings(y, events[..|events| - 1], id) +
      if before.Some? && Closes(before.value, events[|events| - 1], id) then 1 else 0
  }

  lemma EndsAppend(acts: seq<C.Action>, a: C.Action)
    ensures C.Ends(acts + [a]) == C.Ends(acts) + if a == C.HangUp || a == C.Readable([]) then 1 else 0
  {
    assert (acts + [a])[..|acts|] == acts;
  }

  /** The server's step on a connection that it does not call leaves its phase on the same side. */
  lemma OverKept(s: S.Server, a: S.Action, inLoop: bool, j: S.Id)
    requires S.Inv(s) && S.Enabled(s, a) && !a.Accept? && j in s.conns
    requires !(a.CloseEvent? && s.loops[a.l].guard == Some(j))
    ensures j in S.Apply(s, a).conns && (Over(S.Apply(s, a).conns[j]) <==> Over(s.conns[j]))
  {
    hide S.Inv, S.Server.Strong, S.Reportable;
    if a.RunNext? {
      S.OwedNow(s, a.l);
    }
  }

  lemma AcceptOver(s: S.Server, fd: S.Fd, io: S.LoopId, j: S.Id)
    requires S.Inv(s) && S.Enabled(s, S.Accept(fd, io)) && j in S.Apply(s, S.Accept(fd, io)).conns
    ensures if j in s.conns then S.Apply(s, S.Accept(fd, io)).conns[j] == s.conns[j] && j != s.nextConnId
            else j == s.nextConnId && !Over(S.Apply(s, S.Accept(fd, io)).conns[j])
  {
    hide S.Inv, S.Server.Strong, S.FdFree;
    S.FreshId(s);
  }

  lemma CloseOver(s: S.Server, l: S.LoopId)
    requires S.Inv(s) && S.Enabled(s, S.CloseEvent(l))
    ensures var id := s.loops[l].guard.value; !Over(s.conns[id]) && Over(S.Apply(s, S.CloseEvent(l)).conns[id])
  {
    hide S.Inv, S.Server.Strong;
    S.ClosingWasUp(s, l);
  }

  /** Ends seen in the calls of `id` and the phase of its record. */
  ghost predicate Counted(y: System, id: S.Id, closings: nat) {
    if id in y.server.conns
    then id in y.calls && C.Ends(y.calls[id]) == closings == if Over(y.server.conns[id]) then 1 else 0
    else closings == 0
  }

  lemma CountedStep(y: System, e: Event, id: S.Id, closings: nat)
    requires SystemInv(y) && Enabled(y, e) && Counted(y, id, closings)
    ensures Counted(Apply(y, e), id, closings + if Closes(y, e, id) then 1 else 0)
  {
    hide SystemInv, S.Apply, S.Enabled, S.Inv;
    SystemParts(y);
    match e
    case InConnection(j, a) => EndsAppend(y.calls[j], a);
    case InServer(a, o, inLoop) =>
      if a.Accept? {
        AcceptCounted(y, a.fd, a.io, o, inLoop, id, closings);
      } else if id in y.server.conns {
        CallCounted(y, a, o, inLoop, id, closings);
      } else {
        KeysKept(y.server, a);
        GuardKnown(y.server, a);
      }
  }

  lemma SystemParts(y: System)
    requires SystemInv(y)
    ensures S.Inv(y.server) && y.calls.Keys == y.server.conns.Keys
  {
  }

  lemma GuardKnown(s: S.Server, a: S.Action)
    requires S.Enabled(s, a)
    ensures a.CloseEvent? ==> a.l in s.loops && s.loops[a.l].guard.Some? && s.loops[a.l].guard.value in s.conns
  {
  }

  lemma AcceptCounted(y: System, fd: S.Fd, io: S.LoopId, o: Settings, inLoop: bool, id: S.Id, closings: nat)
    requires SystemInv(y) && S.Enabled(y.server, S.Accept(fd, io)) && Counted(y, id, closings)
    ensures Counted(Apply(y, InServer(S.Accept(fd, io), o, inLoop)), id, closings)
  {
    hide SystemInv, S.Apply, S.Enabled, S.Inv;
    SystemParts(y);
    AcceptKeys(y.server, fd, io);
    if id in S.Apply(y.server, S.Accept(fd, io)).conns {
      AcceptOver(y.server, fd, io, id);
      assert [C.Establish][..0] == [];
    }
  }

  lemma CallCounted(y: System, a: S.Action, o: Settings, inLoop: bool, id: S.Id, closings: nat)
    requires SystemInv(y) && S.Enabled(y.server, a) && !a.Accept? && Counted(y, id, closings) && id in y.server.conns
    ensures var e := InServer(a, o, inLoop);
      Counted(Apply(y, e), id, closings + if Closes(y, e, id) then 1 else 0)
  {
    hide SystemInv, S.Apply, S.Enabled, S.Inv;
    SystemParts(y);
    KeysKept(y.server, a);
    GuardKnown(y.server, a);
    CallEnds(y.server, a, inLoop);
    var called := Calls(y.server, a, inLoop);
    if called.Some? && called.value.0 == id {
      EndsAppend(y.calls[id], called.value.1[0]);
    }
    if Closes(y, InServer(a, o, inLoop), id) {
      CloseOver(y.server, a.l);
    } else {
      OverKept(y.server, a, inLoop, id);
    }
  }

  /** The only call of the server that ends a connection is that of `CloseEvent`. */
  lemma CallEnds(s: S.Server, a: S.Action, inLoop: bool)
    requires S.Enabled(s, a)
    ensures a.CloseEvent? ==> Calls(s, a, inLoop) == Some((s.loops[a.l].guard.value, [C.HangUp]))
    ensures !a.CloseEvent? && Calls(s, a, inLoop).Some? ==>
      (var acts := Calls(s, a, inLoop).value.1; acts == [acts[0]] && acts[0] != C.HangUp && acts[0] != C.Readable([]))
  {
  }

  lemma {:induction false} RunCounted(base: S.LoopId, workers: set<S.LoopId>, ipPort: string, events: seq<Event>, id: S.Id)
    requires Exec(Start(base, workers, ipPort), events).Some?
    ensures Counted(Exec(Start(base, workers, ipPort), events).value, id, Closings(Start(base, workers, ipPort), events, id))
  {
    hide Counted, SystemInv, Enabled, Apply;
    if events == [] {
      StartCounted(base, workers, ipPort, id);
    } else {
      var before := events[..|events| - 1];
      RunCounted(base, workers, ipPort, before, id);
      ConnectionsAreSimulated(base, workers, ipPort, before);
      var y := Exec(Start(base, workers, ipPort), before).value;
      CountedStep(y, events[|events| - 1], id, Closings(Start(base, workers, ipPort), before, id));
    }
  }

  lemma StartCounted(base: S.LoopId, workers: set<S.LoopId>, ipPort: string, id: S.Id)
    ensures Counted(Start(base, workers, ipPort), id, 0)
  {
  }

  /** Over every run the connection makes its close callback exactly when the server takes its end: once if
      it has, and never while it is coming up or is up. */
  lemma ClosedExactlyOnce(base: S.LoopId, workers: set<S.LoopId>, ipPort: string, events: seq<Event>, id: S.Id)
    requires Exec(Start(base, workers, ipPort), events).Some?
    requires id in Exec(Start(base, workers, ipPort), events).value.server.conns
    ensures var y := Exec(Start(base, workers, ipPort), events).value;
      && y.Has(id) && y.Of(id).Some?
      && C.CountOf(y.Of(id).value.events, C.Close) == Closings(Start(base, workers, ipPort), events, id)
      && Closings(Start(base, workers, ipPort), events, id) == if Over(y.server.conns[id]) then 1 else 0
  {
    hide S.Inv, Exec, Closings;
    ConnectionsAreSimulated(base, workers, ipPort, events);
    var y := Exec(Start(base, workers, ipPort), events).value;
    assert Simulated(y, id);
    RunCounted(base, workers, ipPort, events, id);
    var o := y.settings[id];
    C.ClosesAndMessages(o.mark, o.hasWriteComplete, o.hasHighWater, y.calls[id]);
  }

  /** So what holds of every run of a connection holds of every connection of every server: for instance
      that the bytes on the wire and in the buffer are the messages sent, and what the user has had and has
      still to read is what came in. */
  lemma EveryStreamIsConserved(base: S.LoopId, workers: set<S.LoopId>, ipPort: string, events: seq<Event>, id: S.Id)
    requires Exec(Start(base, workers, ipPort), events).Some?
    requires var y := Exec(Start(base, workers, ipPort), events).value; id in y.server.conns
    ensures var y := Exec(Start(base, workers, ipPort), events).value;
      && y.Has(id) && y.Of(id).Some?
      && var (o, c) := (y.settings[id], y.Of(id).value);
         c.wire + c.output == C.Stream(y.calls[id]) && c.consumed + c.input == C.Incoming(y.calls[id])
  {
    hide S.Inv;
    ConnectionsAreSimulated(base, workers, ipPort, events);
    var y := Exec(Start(base, workers, ipPort), events).value;
    assert Simulated(y, id);
    var o := y.settings[id];
    C.StreamConservation(o.mark, o.hasWriteComplete, o.hasHighWater, y.calls[id]);
  }
}
