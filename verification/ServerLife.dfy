/** One connection's whole life across two loops, step by step: accepted on the base loop, established on
    a worker, closed there, removed on the base loop, destroyed on the worker, and its descriptor used
    again.  It shows that the states the theorems of `Servers` speak of are reached. */
module ServerLives {
  import opened Options
  import opened Servers
  import C = Connections
  import P = Pollers

  const IDLE := Loop(Polling, [], [], 0, [], None, map[])
  const AWAKE := Loop(Dispatching, [], [], 0, [], None, map[])

  /** The base loop is 0 and the worker 1; connection 1 is the only one there is, and user code may hold
      it. */
  function World(ip: string, x: Loop, y: Loop, c: Conn, listed: bool, held: set<Id>): Server {
    Server(0, ip, map[0 := x, 1 := y], map[1 := c], if listed then map[c.name := 1] else map[], 2, held)
  }

  function First(ip: string, fd: Fd): Conn {
    Conn(ConnName(ip, 1), fd, 1, C.Connecting, P.New, Establishing)
  }

  function UpConn(ip: string, fd: Fd): Conn {
    First(ip, fd).(state := C.Connected, index := P.Added, phase := Up)
  }

  function ClosingConn(ip: string, fd: Fd): Conn {
    First(ip, fd).(state := C.Disconnected, index := P.Deleted, phase := Closing)
  }

  function GoneConn(ip: string, fd: Fd): Conn {
    First(ip, fd).(state := C.Disconnected, index := P.New, phase := Gone)
  }

  lemma Step(s0: Server, acts: seq<Action>, s: Server, a: Action, r: Server) returns (more: seq<Action>)
    requires Exec(s0, acts) == Some(s) && Enabled(s, a) && Apply(s, a) == r
    ensures more == acts + [a] && Exec(s0, more) == Some(r)
  {
    more := acts + [a];
    assert more[..|more| - 1] == acts;
  }

  // The steps that only move a loop on.

  lemma WorkerMoves(ip: string, x: Loop, y: Loop, z: Loop, c: Conn, listed: bool, held: set<Id>)
    ensures World(ip, x, y, c, listed, held).PutLoop(1, z) == World(ip, x, z, c, listed, held)
  {
    assert map[0 := x, 1 := y][1 := z] == map[0 := x, 1 := z];
  }

  lemma WorkerPolls(ip: string, x: Loop, y: Loop, c: Conn, listed: bool, held: set<Id>)
    requires y.mode == Polling
    ensures var s := World(ip, x, y, c, listed, held);
      Enabled(s, Poll(1, [])) &&
      Apply(s, Poll(1, [])) == World(ip, x, y.(mode := Dispatching, active := []), c, listed, held)
  {
    WorkerMoves(ip, x, y, y.(mode := Dispatching, active := []), c, listed, held);
  }

  lemma WorkerReports(ip: string, x: Loop, y: Loop, fd: Fd, held: set<Id>)
    requires y.mode == Polling && y.channels == map[fd := 1]
    ensures var s := World(ip, x, y, UpConn(ip, fd), true, held);
      Enabled(s, Poll(1, [1])) &&
      Apply(s, Poll(1, [1])) == World(ip, x, y.(mode := Dispatching, active := [1]), UpConn(ip, fd), true, held)
  {
    WorkerMoves(ip, x, y, y.(mode := Dispatching, active := [1]), UpConn(ip, fd), true, held);
  }

  lemma WorkerEndsEvent(ip: string, x: Loop, y: Loop, c: Conn, listed: bool, held: set<Id>)
    requires y.mode == Dispatching && y.guard.Some?
    ensures var s := World(ip, x, y, c, listed, held);
      Enabled(s, EndEvent(1)) && Apply(s, EndEvent(1)) == World(ip, x, y.(guard := None), c, listed, held)
  {
    WorkerMoves(ip, x, y, y.(guard := None), c, listed, held);
  }

  lemma WorkerSwaps(ip: string, x: Loop, y: Loop, c: Conn, listed: bool, held: set<Id>)
    requires y.mode == Dispatching && y.guard == None && y.active == []
    ensures var s := World(ip, x, y, c, listed, held);
      Enabled(s, Swap(1)) && Apply(s, Swap(1)) ==
        World(ip, x, y.(mode := Running, batch := y.pending, pending := [], done := 0), c, listed, held)
  {
    WorkerMoves(ip, x, y, y.(mode := Running, batch := y.pending, pending := [], done := 0), c, listed, held);
  }

  lemma WorkerEndsBatch(ip: string, x: Loop, y: Loop, c: Conn, listed: bool, held: set<Id>)
    requires y.mode == Running && y.done == |y.batch|
    ensures var s := World(ip, x, y, c, listed, held);
      Enabled(s, EndBatch(1)) &&
      Apply(s, EndBatch(1)) == World(ip, x, y.(mode := Polling, batch := [], done := 0), c, listed, held)
  {
    WorkerMoves(ip, x, y, y.(mode := Polling, batch := [], done := 0), c, listed, held);
  }

  lemma BaseMoves(ip: string, x: Loop, y: Loop, z: Loop, c: Conn, listed: bool, held: set<Id>)
    ensures World(ip, x, y, c, listed, held).PutLoop(0, z) == World(ip, z, y, c, listed, held)
  {
    assert map[0 := x, 1 := y][0 := z] == map[0 := z, 1 := y];
  }

  lemma BaseSwaps(ip: string, x: Loop, y: Loop, c: Conn, listed: bool, held: set<Id>)
    requires x.mode == Dispatching && x.guard == None && x.active == []
    ensures var s := World(ip, x, y, c, listed, held);
      Enabled(s, Swap(0)) && Apply(s, Swap(0)) ==
        World(ip, x.(mode := Running, batch := x.pending, pending := [], done := 0), y, c, listed, held)
  {
    BaseMoves(ip, x, y, x.(mode := Running, batch := x.pending, pending := [], done := 0), c, listed, held);
  }

  lemma BaseEndsBatch(ip: string, x: Loop, y: Loop, c: Conn, listed: bool, held: set<Id>)
    requires x.mode == Running && x.done == |x.batch|
    ensures var s := World(ip, x, y, c, listed, held);
      Enabled(s, EndBatch(0)) &&
      Apply(s, EndBatch(0)) == World(ip, x.(mode := Polling, batch := [], done := 0), y, c, listed, held)
  {
    BaseMoves(ip, x, y, x.(mode := Polling, batch := [], done := 0), c, listed, held);
  }

  // The life.

  function Listed(ip: string, fd: Fd): Server {
    World(ip, AWAKE, IDLE.(pending := [Establish(1)]), First(ip, fd), true, {})
  }

  lemma Accepting(ip: string, fd: Fd)
    ensures var s := Servers.Start(0, {1}, ip).PutLoop(0, AWAKE);
      Enabled(s, Accept(fd, 1)) && Apply(s, Accept(fd, 1)) == Listed(ip, fd)
  {
    var s := Servers.Start(0, {1}, ip).PutLoop(0, AWAKE);
    var r := Apply(s, Accept(fd, 1));
    var y := IDLE.Push(Establish(1));
    assert y.pending == [Establish(1)];
    assert r.loops == map[0 := AWAKE, 1 := y];
    assert r.conns == map[1 := First(ip, fd)];
    assert r.connections == map[ConnName(ip, 1) := 1];
  }

  /** Accepted on the base loop. */
  lemma ReachListed(ip: string, fd: Fd) returns (acts: seq<Action>)
    ensures Exec(Servers.Start(0, {1}, ip), acts) == Some(Listed(ip, fd))
  {
    var s0 := Servers.Start(0, {1}, ip);
    var s1 := s0.PutLoop(0, AWAKE);
    acts := Step(s0, [], s0, Poll(0, []), s1);
    Accepting(ip, fd);
    acts := Step(s0, acts, s1, Accept(fd, 1), Listed(ip, fd));
  }

  lemma EstablishedOnWorker(ip: string, fd: Fd)
    ensures var x := IDLE.(mode := Running, batch := [Establish(1)]);
      var s := World(ip, AWAKE, x, First(ip, fd), true, {});
      && Enabled(s, RunNext(1))
      && Apply(s, RunNext(1)) == World(ip, AWAKE, x.(done := 1, channels := map[fd := 1]), UpConn(ip, fd), true, {})
  {
    var x := IDLE.(mode := Running, batch := [Establish(1)]);
    var s := World(ip, AWAKE, x, First(ip, fd), true, {});
    var r := Apply(s, RunNext(1));
    assert r.loops == map[0 := AWAKE, 1 := x.(done := 1, channels := map[fd := 1])];
    assert r.conns == map[1 := UpConn(ip, fd)];
  }

  function UpAt(ip: string, fd: Fd, held: set<Id>): Server {
    World(ip, AWAKE, IDLE.(channels := map[fd := 1]), UpConn(ip, fd), true, held)
  }

  /** Established by a functor on the worker. */
  lemma ReachUp(ip: string, fd: Fd) returns (acts: seq<Action>)
    ensures Exec(Servers.Start(0, {1}, ip), acts) == Some(UpAt(ip, fd, {}))
  {
    hide Enabled, Apply, World, ConnName;
    var s0, c := Servers.Start(0, {1}, ip), First(ip, fd);
    acts := ReachListed(ip, fd);
    var s1 := World(ip, AWAKE, AWAKE.(pending := [Establish(1)]), c, true, {});
    WorkerPolls(ip, AWAKE, IDLE.(pending := [Establish(1)]), c, true, {});
    acts := Step(s0, acts, Listed(ip, fd), Poll(1, []), s1);
    WorkerSwaps(ip, AWAKE, AWAKE.(pending := [Establish(1)]), c, true, {});
    var s2 := World(ip, AWAKE, IDLE.(mode := Running, batch := [Establish(1)]), c, true, {});
    acts := Step(s0, acts, s1, Swap(1), s2);
    var y := IDLE.(channels := map[fd := 1]);
    var s3 := World(ip, AWAKE, y.(mode := Running, batch := [Establish(1)], done := 1), UpConn(ip, fd), true, {});
    EstablishedOnWorker(ip, fd);
    acts := Step(s0, acts, s2, RunNext(1), s3);
    WorkerEndsBatch(ip, AWAKE, y.(mode := Running, batch := [Establish(1)], done := 1), UpConn(ip, fd), true, {});
    acts := Step(s0, acts, s3, EndBatch(1), UpAt(ip, fd, {}));
  }

  lemma Guarded(ip: string, fd: Fd, held: set<Id>)
    ensures var y := AWAKE.(channels := map[fd := 1]);
      var s := World(ip, AWAKE, y.(active := [1]), UpConn(ip, fd), true, held);
      Enabled(s, Dispatch(1)) &&
      Apply(s, Dispatch(1)) == World(ip, AWAKE, y.(guard := Some(1)), UpConn(ip, fd), true, held)
  {
    var y := AWAKE.(channels := map[fd := 1]);
    var s := World(ip, AWAKE, y.(active := [1]), UpConn(ip, fd), true, held);
    var r := Apply(s, Dispatch(1));
    assert s.connections[ConnName(ip, 1)] == 1 && s.Strong(1);
    assert y.(active := [1]).active[1..] == [];
    assert r.loops == map[0 := AWAKE, 1 := y.(guard := Some(1))];
  }

  lemma ClosedOnWorker(ip: string, fd: Fd, held: set<Id>)
    ensures var y := AWAKE.(channels := map[fd := 1], guard := Some(1));
      var s := World(ip, AWAKE, y, UpConn(ip, fd), true, held);
      && Enabled(s, CloseEvent(1))
      && Apply(s, CloseEvent(1)) == World(ip, AWAKE.(pending := [RemoveInLoop(1)]), y, ClosingConn(ip, fd), true, held)
  {
    var y := AWAKE.(channels := map[fd := 1], guard := Some(1));
    var s := World(ip, AWAKE, y, UpConn(ip, fd), true, held);
    var r := Apply(s, CloseEvent(1));
    assert AWAKE.Push(RemoveInLoop(1)).pending == [RemoveInLoop(1)];
    assert r.loops == map[0 := AWAKE.(pending := [RemoveInLoop(1)]), 1 := y];
    assert r.conns == map[1 := ClosingConn(ip, fd)];
  }

  function ClosedAt(ip: string, fd: Fd, held: set<Id>): Server {
    World(ip, AWAKE.(pending := [RemoveInLoop(1)]), AWAKE.(channels := map[fd := 1]), ClosingConn(ip, fd), true, held)
  }

  /** Reported, dispatched under a guard, closed: the removal is queued on the base loop. */
  lemma UpToClosed(ip: string, fd: Fd, held: set<Id>) returns (acts: seq<Action>)
    ensures Exec(UpAt(ip, fd, held), acts) == Some(ClosedAt(ip, fd, held))
  {
    hide Enabled, Apply, World, ConnName;
    var s0, c := UpAt(ip, fd, held), UpConn(ip, fd);
    var y := AWAKE.(channels := map[fd := 1]);
    var s1 := World(ip, AWAKE, y.(active := [1]), c, true, held);
    WorkerReports(ip, AWAKE, IDLE.(channels := map[fd := 1]), fd, held);
    acts := Step(s0, [], s0, Poll(1, [1]), s1);
    Guarded(ip, fd, held);
    var s2 := World(ip, AWAKE, y.(guard := Some(1)), c, true, held);
    acts := Step(s0, acts, s1, Dispatch(1), s2);
    var s3 := World(ip, AWAKE.(pending := [RemoveInLoop(1)]), y.(guard := Some(1)), ClosingConn(ip, fd), true, held);
    ClosedOnWorker(ip, fd, held);
    acts := Step(s0, acts, s2, CloseEvent(1), s3);
    WorkerEndsEvent(ip, AWAKE.(pending := [RemoveInLoop(1)]), y.(guard := Some(1)), ClosingConn(ip, fd), true, held);
    acts := Step(s0, acts, s3, EndEvent(1), ClosedAt(ip, fd, held));
  }

  function UnlistedAt(ip: string, fd: Fd, held: set<Id>): Server {
    World(ip, IDLE.(mode := Running, batch := [RemoveInLoop(1)], done := 1),
          AWAKE.(channels := map[fd := 1], pending := [Destroy(1)]), ClosingConn(ip, fd).(phase := Destroying), false, held)
  }

  lemma Removed(ip: string, fd: Fd, held: set<Id>)
    ensures var y := AWAKE.(channels := map[fd := 1]);
      var s := World(ip, IDLE.(mode := Running, batch := [RemoveInLoop(1)]), y, ClosingConn(ip, fd), true, held);
      Enabled(s, RunNext(0)) && Apply(s, RunNext(0)) == UnlistedAt(ip, fd, held)
  {
    var y := AWAKE.(channels := map[fd := 1]);
    var s := World(ip, IDLE.(mode := Running, batch := [RemoveInLoop(1)]), y, ClosingConn(ip, fd), true, held);
    var r := Apply(s, RunNext(0));
    assert y.Push(Destroy(1)).pending == [Destroy(1)];
    assert r.loops == UnlistedAt(ip, fd, held).loops;
    assert r.conns == UnlistedAt(ip, fd, held).conns;
    assert r.connections == map[];
  }

  /** Removed on the base loop. */
  lemma ClosedToUnlisted(ip: string, fd: Fd, held: set<Id>) returns (acts: seq<Action>)
    ensures Exec(ClosedAt(ip, fd, held), acts) == Some(UnlistedAt(ip, fd, held))
  {
    hide Enabled, Apply, World, ConnName;
    var s0, y, c := ClosedAt(ip, fd, held), AWAKE.(channels := map[fd := 1]), ClosingConn(ip, fd);
    var s1 := World(ip, IDLE.(mode := Running, batch := [RemoveInLoop(1)]), y, c, true, held);
    BaseSwaps(ip, AWAKE.(pending := [RemoveInLoop(1)]), y, c, true, held);
    acts := Step(s0, [], s0, Swap(0), s1);
    Removed(ip, fd, held);
    acts := Step(s0, acts, s1, RunNext(0), UnlistedAt(ip, fd, held));
  }

  lemma DestroyedOnWorker(ip: string, fd: Fd, held: set<Id>)
    ensures var x := IDLE.(mode := Running, batch := [Destroy(1)]);
      var s := World(ip, IDLE, x.(channels := map[fd := 1]), ClosingConn(ip, fd).(phase := Destroying), false, held);
      && Enabled(s, RunNext(1))
      && Apply(s, RunNext(1)) == World(ip, IDLE, x.(done := 1), GoneConn(ip, fd), false, held)
  {
    var x := IDLE.(mode := Running, batch := [Destroy(1)]);
    var s := World(ip, IDLE, x.(channels := map[fd := 1]), ClosingConn(ip, fd).(phase := Destroying), false, held);
    var r := Apply(s, RunNext(1));
    assert r.loops == map[0 := IDLE, 1 := x.(done := 1)];
    assert r.conns == map[1 := GoneConn(ip, fd)];
  }

  function GoneAt(ip: string, fd: Fd, held: set<Id>): Server {
    World(ip, IDLE, IDLE, GoneConn(ip, fd), false, held)
  }

  /** Destroyed on the worker. */
  lemma UnlistedToGone(ip: string, fd: Fd, held: set<Id>) returns (acts: seq<Action>)
    ensures Exec(UnlistedAt(ip, fd, held), acts) == Some(GoneAt(ip, fd, held))
  {
    hide Enabled, Apply, World, ConnName;
    var s0, y := UnlistedAt(ip, fd, held), AWAKE.(channels := map[fd := 1]);
    var d := ClosingConn(ip, fd).(phase := Destroying);
    var s1 := World(ip, IDLE, y.(pending := [Destroy(1)]), d, false, held);
    BaseEndsBatch(ip, IDLE.(mode := Running, batch := [RemoveInLoop(1)], done := 1), y.(pending := [Destroy(1)]), d,
                  false, held);
    acts := Step(s0, [], s0, EndBatch(0), s1);
    WorkerSwaps(ip, IDLE, y.(pending := [Destroy(1)]), d, false, held);
    var s2 := World(ip, IDLE, y.(mode := Running, batch := [Destroy(1)]), d, false, held);
    acts := Step(s0, acts, s1, Swap(1), s2);
    var s3 := World(ip, IDLE, IDLE.(mode := Running, batch := [Destroy(1)], done := 1), GoneConn(ip, fd), false, held);
    DestroyedOnWorker(ip, fd, held);
    acts := Step(s0, acts, s2, RunNext(1), s3);
    WorkerEndsBatch(ip, IDLE, IDLE.(mode := Running, batch := [Destroy(1)], done := 1), GoneConn(ip, fd), false, held);
    acts := Step(s0, acts, s3, EndBatch(1), GoneAt(ip, fd, held));
  }

  lemma {:induction false} ExecAppend(s: Server, a: seq<Action>, b: seq<Action>)
    requires Exec(s, a).Some?
    ensures Exec(s, a + b) == Exec(Exec(s, a).value, b)
  {
    hide Enabled, Apply;
    if b == [] {
      assert a + b == a;
    } else {
      ExecAppend(s, a, b[..|b| - 1]);
      assert (a + b)[..|a + b| - 1] == a + b[..|b| - 1];
    }
  }

  /** From being up to being gone. */
  lemma UpToGone(ip: string, fd: Fd, held: set<Id>) returns (acts: seq<Action>)
    ensures Exec(UpAt(ip, fd, held), acts) == Some(GoneAt(ip, fd, held))
  {
    hide Enabled, Apply, UpAt, ClosedAt, UnlistedAt, GoneAt;
    var s := UpAt(ip, fd, held);
    var a := UpToClosed(ip, fd, held);
    var b := ClosedToUnlisted(ip, fd, held);
    var c := UnlistedToGone(ip, fd, held);
    ExecAppend(s, a, b);
    ExecAppend(s, a + b, c);
    acts := a + b + c;
  }

  /** The connection has died of itself, and the next one is given its descriptor. */
  lemma DescriptorIsReused(ip: string, fd: Fd) returns (acts: seq<Action>)
    ensures var r := Exec(Servers.Start(0, {1}, ip), acts);
      && r.Some? && r.value.conns.Keys == {1, 2}
      && !r.value.Strong(1) && r.value.Strong(2) && r.value.conns[1].fd == r.value.conns[2].fd == fd
      && r.value.connections == map[ConnName(ip, 2) := 2]
  {
    var s0 := Servers.Start(0, {1}, ip);
    acts := ReachUp(ip, fd);
    var more := UpToGone(ip, fd, {});
    ExecAppend(s0, acts, more);
    acts := acts + more;
    acts := ReusedAfter(ip, fd, acts);
  }

  lemma ReusedAfter(ip: string, fd: Fd, acts: seq<Action>) returns (more: seq<Action>)
    requires Exec(Servers.Start(0, {1}, ip), acts) == Some(GoneAt(ip, fd, {}))
    ensures var r := Exec(Servers.Start(0, {1}, ip), more);
      && r.Some? && r.value.conns.Keys == {1, 2}
      && !r.value.Strong(1) && r.value.Strong(2) && r.value.conns[1].fd == r.value.conns[2].fd == fd
      && r.value.connections == map[ConnName(ip, 2) := 2]
  {
    var s0, s1 := Servers.Start(0, {1}, ip), GoneAt(ip, fd, {});
    var s2 := World(ip, AWAKE, IDLE, GoneConn(ip, fd), false, {});
    more := Step(s0, acts, s1, Poll(0, []), s2);
    assert !s2.Strong(1);
    var s3 := Apply(s2, Accept(fd, 1));
    assert s3.connections == map[ConnName(ip, 2) := 2];
    assert s3.Strong(2) by {
      assert s3.connections[ConnName(ip, 2)] == 2;
    }
    assert !s3.Strong(1);
    more := Step(s0, more, s2, Accept(fd, 1), s3);
  }
}
