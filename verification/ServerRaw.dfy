/** The functors that hold no shared pointer.  `send` and `shutdown`, called from another thread, queue
    `sendInLoop` and `shutdownInLoop` with a raw `this` (src/TcpConnection.cpp:67-77 and 146-155), so
    nothing but the order of the queue keeps the connection alive until they run.

    The machine of `Servers` is extended by these functors and their places in the queues. */
module RawFunctors {
  import opened Options
  import opened Servers
  import C = Connections

  /** A raw functor in the queue of `loop`: `ahead` of the functors that hold pointers are still to be run
      before it, and it is in the batch if it has been `swapped`.  `sound` records what was so when it
      was queued; see `Sound`.  No two functors have the same `ticket`. */
  datatype Raw = Raw(id: Id, loop: LoopId, ahead: nat, swapped: bool, sound: bool, ticket: nat)

  /** `raws` are in the order in which they were queued; `tested` are the connections that some thread
      has found connected. */
  datatype State = State(server: Server, raws: seq<Raw>, tested: set<Id>, next: nat)

  datatype Action =
    | Serve(a: Servers.Action)
    | Ask(id: Id, shuts: bool)   // send or shutdown: test and push in one step
    | Test(id: Id)               // the test of the state alone
    | PushLate(id: Id)           // the push alone, some time after the test
    | RunRaw(i: nat)

  /** What a loop still has to run, in order. */
  function Rest(x: Loop): seq<Functor>
    requires x.Ok()
  {
    x.batch[x.done..] + x.pending
  }

  /** How much of the batch is left. */
  function Left(x: Loop): nat
    requires x.Ok()
  {
    |x.batch| - x.done
  }

  /** When a raw functor is queued for connection `id`: the connection is still in the server's map, or a
      functor that holds it waits in the same vector. */
  predicate Sound(s: Server, id: Id)
    requires id in s.conns && s.conns[id].loop in s.loops
  {
    InMap(s, id) || exists f :: f in s.loops[s.conns[id].loop].pending && f.id == id
  }

  function Queued(s: Server, id: Id, ticket: nat): Raw
    requires id in s.conns && s.conns[id].loop in s.loops && s.loops[s.conns[id].loop].Ok()
  {
    Raw(id, s.conns[id].loop, |Rest(s.loops[s.conns[id].loop])|, false, Sound(s, id), ticket)
  }

  /** A thread may queue a functor of a connection it can reach. */
  predicate Reached(s: Server, id: Id) {
    id in s.conns && s.conns[id].loop in s.loops && s.loops[s.conns[id].loop].Ok() && s.Strong(id)
  }

  predicate Enabled(y: State, a: Action) {
    match a
    case Serve(b) =>
      && Servers.Enabled(y.server, b)
      && (b.RunNext? ==> forall i :: 0 <= i < |y.raws| && y.raws[i].loop == b.l && y.raws[i].swapped ==> y.raws[i].ahead > 0)
      && (b.EndBatch? ==> forall i :: 0 <= i < |y.raws| && y.raws[i].loop == b.l ==> !y.raws[i].swapped)
    case Ask(id, _) => Reached(y.server, id) && y.server.conns[id].state == C.Connected
    case Test(id) => Reached(y.server, id) && y.server.conns[id].state == C.Connected
    case PushLate(id) => Reached(y.server, id) && id in y.tested
    case RunRaw(i) =>
      && i < |y.raws| && y.raws[i].swapped && y.raws[i].ahead == 0
      && y.raws[i].loop in y.server.loops && y.server.loops[y.raws[i].loop].mode == Running
      && forall j :: 0 <= j < i ==> y.raws[j].loop != y.raws[i].loop
  }

  /** How a step of the server moves a raw functor up its queue. */
  function Moved(r: Raw, a: Servers.Action): Raw {
    if a.RunNext? && a.l == r.loop && r.ahead > 0 then r.(ahead := r.ahead - 1)
    else if a.Swap? && a.l == r.loop then r.(swapped := true)
    else r
  }

  function Apply(y: State, a: Action): State
    requires Enabled(y, a)
  {
    match a
    case Serve(b) =>
      y.(server := Servers.Apply(y.server, b), raws := seq(|y.raws|, i requires 0 <= i < |y.raws| => Moved(y.raws[i], b)))
    case Ask(id, shuts) =>
      y.(server := if shuts then Servers.Apply(y.server, UserShutdown(id)) else y.server,
         raws := y.raws + [Queued(y.server, id, y.next)], next := y.next + 1)
    case Test(id) => y.(tested := y.tested + {id})
    case PushLate(id) => y.(raws := y.raws + [Queued(y.server, id, y.next)], next := y.next + 1)
    case RunRaw(i) => y.(raws := y.raws[..i] + y.raws[i + 1..])
  }

  function Exec(y: State, acts: seq<Action>): Option<State> {
    if acts == [] then Some(y)
    else
      var before := Exec(y, acts[..|acts| - 1]);
      if before.Some? && Enabled(before.value, acts[|acts| - 1])
      then Some(Apply(before.value, acts[|acts| - 1])) else None
  }

  function Start(base: LoopId, workers: set<LoopId>, ipPort: string): State {
    State(Servers.Start(base, workers, ipPort), [], {}, 0)
  }

  // ---------------------------------------------------------------- the invariant

  /** The functor is in the queue it says it is in. */
  predicate Places(s: Server, r: Raw) {
    && r.id in s.conns && s.conns[r.id].loop == r.loop
    && r.loop in s.loops && s.loops[r.loop].Ok() && r.ahead <= |Rest(s.loops[r.loop])|
    && (r.swapped ==> s.loops[r.loop].mode == Running && r.ahead <= Left(s.loops[r.loop]))
    && (!r.swapped ==> r.ahead >= Left(s.loops[r.loop]))
  }

  /** The connection is not gone and will not be before the functor runs. */
  predicate BeforeDestroy(s: Server, r: Raw)
    requires Places(s, r)
  {
    s.conns[r.id].phase != Gone && Destroy(r.id) !in Rest(s.loops[r.loop])[..r.ahead]
  }

  /** A functor that holds the connection is in the same vector. */
  predicate Accompanied(s: Server, r: Raw)
    requires Places(s, r)
  {
    exists f :: f in (if r.swapped then s.loops[r.loop].batch else s.loops[r.loop].pending) && f.id == r.id
  }

  predicate RawOk(s: Server, r: Raw) {
    Places(s, r) && (r.sound ==> BeforeDestroy(s, r) || Accompanied(s, r))
  }

  /** The raw functors of one loop are in the order of its queue. */
  predicate OrderOk(raws: seq<Raw>) {
    forall i, j :: 0 <= i < j < |raws| && raws[i].loop == raws[j].loop ==>
      raws[i].ahead <= raws[j].ahead && (raws[j].swapped ==> raws[i].swapped)
  }

  predicate TicketsOk(y: State) {
    && (forall i :: 0 <= i < |y.raws| ==> y.raws[i].ticket < y.next)
    && (forall i, j :: 0 <= i < j < |y.raws| ==> y.raws[i].ticket != y.raws[j].ticket)
  }

  ghost predicate RawInv(y: State) {
    && Inv(y.server) && (forall i :: 0 <= i < |y.raws| ==> RawOk(y.server, y.raws[i]))
    && OrderOk(y.raws) && TicketsOk(y)
  }

  /** The next raw functor of a loop finds its connection alive. */
  lemma SoundIsAlive(y: State, i: nat)
    requires RawInv(y) && Enabled(y, RunRaw(i)) && y.raws[i].sound
    ensures y.server.Strong(y.raws[i].id)
  {
    hide Inv, Server.Strong, Rest;
    var s, r := y.server, y.raws[i];
    assert RawOk(s, r);
    if BeforeDestroy(s, r) {
      NotGoneIsStrong(s, r.id);
    } else {
      var f :| f in s.loops[r.loop].batch && f.id == r.id;
      BatchHolds(s, r.loop, f);
    }
  }

  lemma BatchHolds(s: Server, l: LoopId, f: Functor)
    requires l in s.loops && f in s.loops[l].batch
    ensures s.Strong(f.id)
  {
    assert s.loops[l].Holds(f.id);
  }

  /** While a connection is in the map nothing is queued to destroy it. */
  lemma NothingAhead(s: Server, id: Id)
    requires Inv(s) && id in s.conns && InMap(s, id)
    ensures s.conns[id].loop in s.loops && s.loops[s.conns[id].loop].Ok() && s.conns[id].phase != Gone
    ensures Destroy(id) !in Rest(s.loops[s.conns[id].loop])
  {
    Known(s, id);
    var x := s.loops[s.conns[id].loop];
    if Destroy(id) in Rest(x) {
      RestIsUnrun(x, Destroy(id));
    }
  }

  lemma RestIsUnrun(x: Loop, f: Functor)
    requires x.Ok() && f in Rest(x)
    ensures f in x.Unrun()
  {
    if f !in x.pending {
      assert f in x.batch[x.done..];
    }
  }

  lemma QueuedIsOk(s: Server, id: Id, ticket: nat)
    requires Inv(s) && Reached(s, id)
    ensures RawOk(s, Queued(s, id, ticket))
  {
    hide Inv;
    var x := s.loops[s.conns[id].loop];
    if InMap(s, id) {
      NothingAhead(s, id);
      assert Rest(x)[..|Rest(x)|] == Rest(x);
    }
  }

  /** Test and push in one step always find the connection in the map. */
  lemma AskIsSound(s: Server, id: Id)
    requires Inv(s) && Reached(s, id) && s.conns[id].state == C.Connected
    ensures Sound(s, id)
  {
    hide Inv;
    Known(s, id);
  }

  // ---------------------------------------------------------------- what a step does to a loop's queue

  /** From `x` to `z` functors have only been added at the end, and the batch is the same. */
  predicate Grown(x: Loop, z: Loop) {
    && x.Ok() && z.Ok() && z.batch == x.batch && z.done == x.done && x.pending <= z.pending
    && (x.mode == Running ==> z.mode == Running)
  }

  lemma GrownRest(x: Loop, z: Loop)
    requires Grown(x, z)
    ensures Rest(x) <= Rest(z)
  {
  }

  /** Every loop of `r` has grown from the same loop of `s`. */
  predicate AllGrown(s: Server, r: Server) {
    r.loops.Keys == s.loops.Keys && forall l :: l in s.loops ==> Grown(s.loops[l], r.loops[l])
  }

  lemma CallGrows(s: Server, f: Functor)
    requires f.id in s.conns && s.conns[f.id].loop in s.loops && forall l :: l in s.loops ==> s.loops[l].Ok()
    ensures AllGrown(s, Call(s, f))
  {
  }

  lemma ClosedGrows(s: Server, id: Id, l: LoopId)
    requires LoopsOk(s) && id in s.conns && s.conns[id].loop in s.loops
    ensures AllGrown(s, Closed(s, id, l))
  {
  }

  lemma AcceptGrows(s: Server, fd: Fd, io: LoopId)
    requires LoopsOk(s) && io in s.loops
    ensures AllGrown(s, NewConnection(s, fd, io))
  {
  }

  /** Every step but the three that move through a batch only adds to the queues. */
  lemma StepGrows(s: Server, a: Servers.Action)
    requires LoopsOk(s) && Servers.Enabled(s, a) && !a.Swap? && !a.RunNext? && !a.EndBatch?
    ensures AllGrown(s, Servers.Apply(s, a))
  {
    hide Server.Strong, NewConnection, Closed, FdFree, Reportable;
    match a
    case Accept(fd, io) => AcceptGrows(s, fd, io);
    case CloseEvent(l) => ClosedGrows(s, s.loops[l].guard.value, l);
    case _ =>
  }

  // ---------------------------------------------------------------- the invariant is kept

  /** Only the functor that destroys a connection makes it go. */
  lemma StaysUnlessDestroyed(s: Server, a: Servers.Action, id: Id)
    requires Inv(s) && Servers.Enabled(s, a) && id in s.conns && s.conns[id].phase != Gone
    requires a.RunNext? ==> s.loops[a.l].batch[s.loops[a.l].done] != Destroy(id)
    ensures var r := Servers.Apply(s, a);
      id in r.conns && r.conns[id].loop == s.conns[id].loop && r.conns[id].phase != Gone
  {
    hide Inv, Server.Strong, FdFree, Reportable, ConnName;
    match a
    case Accept(_, _) => FreshId(s);
    case _ =>
  }

  lemma GrownKeepsRaw(s: Server, a: Servers.Action, r: Raw)
    requires Inv(s) && Servers.Enabled(s, a) && !a.Swap? && !a.RunNext? && !a.EndBatch? && RawOk(s, r)
    ensures RawOk(Servers.Apply(s, a), r)
  {
    hide Inv, Servers.Enabled, Servers.Apply, Rest;
    InvLoops(s);
    StepGrows(s, a);
    RecordStep(s, a, r.id);
    var z := Servers.Apply(s, a);
    GrownRest(s.loops[r.loop], z.loops[r.loop]);
    if s.conns[r.id].phase != Gone {
      StaysUnlessDestroyed(s, a, r.id);
    }
  }

  lemma InvLoops(s: Server)
    requires Inv(s)
    ensures LoopsOk(s)
  {
  }

  lemma SwapKeepsRaw(s: Server, l: LoopId, r: Raw)
    requires LoopsOk(s) && Servers.Enabled(s, Swap(l)) && RawOk(s, r)
    ensures RawOk(Servers.Apply(s, Swap(l)), Moved(r, Swap(l)))
  {
    var x := s.loops[l];
    assert Rest(x) == x.pending && Rest(Servers.Apply(s, Swap(l)).loops[l]) == x.pending;
  }

  lemma EndBatchKeepsRaw(s: Server, l: LoopId, r: Raw)
    requires LoopsOk(s) && Servers.Enabled(s, EndBatch(l)) && RawOk(s, r) && (r.loop == l ==> !r.swapped)
    ensures RawOk(Servers.Apply(s, EndBatch(l)), r)
  {
    var x := s.loops[l];
    assert Rest(x) == x.pending && Rest(Servers.Apply(s, EndBatch(l)).loops[l]) == x.pending;
  }

  lemma AdvancedRest(x: Loop)
    requires LoopOk(x) && x.mode == Running && x.done < |x.batch|
    ensures LoopOk(Advanced(x)) && Rest(x) == [x.batch[x.done]] + Rest(Advanced(x)) && Left(x) == Left(Advanced(x)) + 1
  {
    assert x.batch[x.done..] == [x.batch[x.done]] + x.batch[x.done + 1..];
  }

  lemma RunGrows(s: Server, l: LoopId)
    requires LoopsOk(s) && Servers.Enabled(s, RunNext(l))
    ensures AllGrown(s.PutLoop(l, Advanced(s.loops[l])), Servers.Apply(s, RunNext(l)))
  {
    hide Call;
    AdvancedRest(s.loops[l]);
    var m := s.PutLoop(l, Advanced(s.loops[l]));
    assert forall k :: k in m.loops ==> m.loops[k].Ok();
    CallGrows(m, s.loops[l].batch[s.loops[l].done]);
  }

  /** The functor that runs does not destroy a connection whose raw functor is safe in front of that. */
  lemma RunsAnother(s: Server, l: LoopId, r: Raw)
    requires l in s.loops && s.loops[l].done < |s.loops[l].batch| && Places(s, r) && BeforeDestroy(s, r)
    requires Servers.Enabled(s, RunNext(l)) && Inv(s)
    requires r.loop == l ==> r.ahead > 0
    ensures s.loops[l].batch[s.loops[l].done] != Destroy(r.id)
  {
    hide Inv, Rest;
    InvLoops(s);
    OwedNow(s, l);
    if r.loop == l {
      AdvancedRest(s.loops[l]);
      assert Rest(s.loops[l])[0] in Rest(s.loops[l])[..r.ahead];
    }
  }

  lemma RunKeepsPlace(s: Server, l: LoopId, r: Raw)
    requires Inv(s) && Servers.Enabled(s, RunNext(l)) && Places(s, r)
    requires r.loop == l && r.swapped ==> r.ahead > 0
    ensures var z := Servers.Apply(s, RunNext(l));
      && l in s.loops && s.loops[l].done < |s.loops[l].batch| && Places(z, Moved(r, RunNext(l)))
      && (r.loop == l ==> r.ahead > 0 && Rest(s.loops[l])[1..] <= Rest(z.loops[l]))
      && (r.loop != l ==> Rest(s.loops[r.loop]) <= Rest(z.loops[r.loop]))
      && (Accompanied(s, r) ==> Accompanied(z, Moved(r, RunNext(l))))
  {
    hide Inv, Servers.Apply, Rest, Call;
    InvLoops(s);
    RecordStep(s, RunNext(l), r.id);
    RunGrows(s, l);
    AdvancedRest(s.loops[l]);
    var m, z := s.PutLoop(l, Advanced(s.loops[l])), Servers.Apply(s, RunNext(l));
    GrownRest(m.loops[r.loop], z.loops[r.loop]);
    if r.loop == l {
      assert Rest(s.loops[l])[1..] == Rest(m.loops[l]);
    }
  }

  lemma RunKeepsRaw(s: Server, l: LoopId, r: Raw)
    requires Inv(s) && Servers.Enabled(s, RunNext(l)) && RawOk(s, r)
    requires r.loop == l && r.swapped ==> r.ahead > 0
    ensures RawOk(Servers.Apply(s, RunNext(l)), Moved(r, RunNext(l)))
  {
    hide Inv, Servers.Apply, Servers.Enabled, Rest;
    RunKeepsPlace(s, l, r);
    var z, q := Servers.Apply(s, RunNext(l)), Moved(r, RunNext(l));
    if r.sound && BeforeDestroy(s, r) {
      RunsAnother(s, l, r);
      StaysUnlessDestroyed(s, RunNext(l), r.id);
      var was, now := Rest(s.loops[r.loop]), Rest(z.loops[r.loop]);
      if r.loop == l {
        assert now[..q.ahead] == was[1..][..q.ahead] == was[1..r.ahead];
        assert forall f :: f in was[1..r.ahead] ==> f in was[..r.ahead];
      } else {
        assert now[..r.ahead] == was[..r.ahead];
      }
    }
  }

  lemma ServeStep(y: State, a: Servers.Action)
    requires RawInv(y) && Enabled(y, Serve(a))
    ensures RawInv(Apply(y, Serve(a)))
  {
    hide Inv, Servers.Apply, Servers.Enabled, RawOk;
    var z := Apply(y, Serve(a));
    InvLoops(y.server);
    InvStep(y.server, a);
    forall i | 0 <= i < |z.raws|
      ensures RawOk(z.server, z.raws[i])
    {
      var r := y.raws[i];
      assert RawOk(y.server, r);
      match a
      case RunNext(l) => RunKeepsRaw(y.server, l, r);
      case Swap(l) => SwapKeepsRaw(y.server, l, r);
      case EndBatch(l) => EndBatchKeepsRaw(y.server, l, r);
      case _ => GrownKeepsRaw(y.server, a, r);
    }
    ServeOrder(y, a);
  }

  lemma ServeOrder(y: State, a: Servers.Action)
    requires OrderOk(y.raws) && TicketsOk(y) && Enabled(y, Serve(a))
    ensures var z := Apply(y, Serve(a)); OrderOk(z.raws) && TicketsOk(z)
  {
    hide Servers.Apply, Servers.Enabled;
  }

  lemma PushOrder(y: State, r: Raw)
    requires OrderOk(y.raws) && TicketsOk(y) && r.ticket == y.next && !r.swapped
    requires forall i :: 0 <= i < |y.raws| && y.raws[i].loop == r.loop ==> y.raws[i].ahead <= r.ahead
    ensures OrderOk(y.raws + [r]) && TicketsOk(y.(raws := y.raws + [r], next := y.next + 1))
  {
  }

  lemma QueuedIsLast(y: State, id: Id)
    requires RawInv(y) && Reached(y.server, id)
    ensures var r := Queued(y.server, id, y.next);
      OrderOk(y.raws + [r]) && TicketsOk(y.(raws := y.raws + [r], next := y.next + 1))
  {
    hide Inv, Rest, Sound;
    assert forall i :: 0 <= i < |y.raws| ==> RawOk(y.server, y.raws[i]);
    PushOrder(y, Queued(y.server, id, y.next));
  }

  lemma RemoveOrder(y: State, i: nat)
    requires OrderOk(y.raws) && TicketsOk(y) && i < |y.raws|
    ensures var z := y.(raws := y.raws[..i] + y.raws[i + 1..]); OrderOk(z.raws) && TicketsOk(z)
  {
    var raws := y.raws[..i] + y.raws[i + 1..];
    assert forall k :: 0 <= k < |raws| ==> raws[k] == y.raws[if k < i then k else k + 1];
  }

  lemma AskStep(y: State, id: Id, shuts: bool)
    requires RawInv(y) && Enabled(y, Ask(id, shuts))
    ensures RawInv(Apply(y, Ask(id, shuts)))
  {
    hide Inv, RawOk, Servers.Apply, OrderOk, TicketsOk;
    QueuedIsOk(y.server, id, y.next);
    QueuedIsLast(y, id);
    SameTickets(y.(raws := y.raws + [Queued(y.server, id, y.next)], next := y.next + 1), Apply(y, Ask(id, shuts)));
    if shuts {
      InvStep(y.server, UserShutdown(id));
      forall r | RawOk(y.server, r)
        ensures RawOk(Servers.Apply(y.server, UserShutdown(id)), r)
      {
        GrownKeepsRaw(y.server, UserShutdown(id), r);
      }
    }
  }

  lemma SameTickets(y: State, z: State)
    requires TicketsOk(y) && z.raws == y.raws && z.next == y.next
    ensures TicketsOk(z)
  {
  }

  lemma RawStep(y: State, a: Action)
    requires RawInv(y) && Enabled(y, a)
    ensures RawInv(Apply(y, a))
  {
    hide Inv, RawOk, OrderOk, TicketsOk;
    match a
    case Serve(b) => ServeStep(y, b);
    case Ask(id, shuts) => AskStep(y, id, shuts);
    case Test(_) => SameTickets(y, Apply(y, a));
    case PushLate(id) =>
      QueuedIsOk(y.server, id, y.next);
      QueuedIsLast(y, id);
    case RunRaw(i) => RemoveOrder(y, i);
  }

  lemma {:induction false} RawRun(base: LoopId, workers: set<LoopId>, ipPort: string, acts: seq<Action>)
    ensures var r := Exec(Start(base, workers, ipPort), acts); r.Some? ==> RawInv(r.value)
  {
    hide RawInv, Apply, Enabled;
    if acts == [] {
      RawStart(base, workers, ipPort);
    } else {
      var before := Exec(Start(base, workers, ipPort), acts[..|acts| - 1]);
      RawRun(base, workers, ipPort, acts[..|acts| - 1]);
      if before.Some? && Enabled(before.value, acts[|acts| - 1]) {
        RawStep(before.value, acts[|acts| - 1]);
      }
    }
  }

  lemma RawStart(base: LoopId, workers: set<LoopId>, ipPort: string)
    ensures RawInv(Start(base, workers, ipPort))
  {
    hide Inv;
    StartInv(base, workers, ipPort);
  }

  // ---------------------------------------------------------------- the guarantees

  ghost predicate Reachable(y: State) {
    exists base, workers, ipPort, acts :: Exec(Start(base, workers, ipPort), acts) == Some(y)
  }

  /** A raw functor that was queued while the connection was in the server's map, or behind a functor
      that holds it in the same vector, runs on a living connection, whatever happened in between. */
  lemma SoundRunsAlive(y: State, i: nat)
    requires Reachable(y) && Enabled(y, RunRaw(i)) && y.raws[i].sound
    ensures y.server.Strong(y.raws[i].id)
  {
    hide RawInv, Enabled;
    var base, workers, ipPort, acts :| Exec(Start(base, workers, ipPort), acts) == Some(y);
    RawRun(base, workers, ipPort, acts);
    SoundIsAlive(y, i);
  }

  /** No thread pushes later than it tests. */
  predicate OneStep(acts: seq<Action>) {
    forall i :: 0 <= i < |acts| ==> !acts[i].PushLate?
  }

  /** So when test and push are one step, every raw functor runs on a living connection. */
  lemma OneStepRunsAlive(base: LoopId, workers: set<LoopId>, ipPort: string, acts: seq<Action>, i: nat)
    requires OneStep(acts) && Exec(Start(base, workers, ipPort), acts).Some?
    requires Enabled(Exec(Start(base, workers, ipPort), acts).value, RunRaw(i))
    ensures var y := Exec(Start(base, workers, ipPort), acts).value; y.server.Strong(y.raws[i].id)
  {
    hide RawInv;
    OneStepIsSound(base, workers, ipPort, acts);
    SoundRunsAlive(Exec(Start(base, workers, ipPort), acts).value, i);
  }

  lemma {:induction false} OneStepIsSound(base: LoopId, workers: set<LoopId>, ipPort: string, acts: seq<Action>)
    requires OneStep(acts) && Exec(Start(base, workers, ipPort), acts).Some?
    ensures forall i :: 0 <= i < |Exec(Start(base, workers, ipPort), acts).value.raws| ==>
      Exec(Start(base, workers, ipPort), acts).value.raws[i].sound
  {
    hide RawInv, Servers.Enabled, Servers.Apply;
    if acts != [] {
      var before, a := acts[..|acts| - 1], acts[|acts| - 1];
      OneStepIsSound(base, workers, ipPort, before);
      RawRun(base, workers, ipPort, before);
      SoundStep(Exec(Start(base, workers, ipPort), before).value, a);
    }
  }

  lemma SoundStep(y: State, a: Action)
    requires RawInv(y) && Enabled(y, a) && !a.PushLate? && forall i :: 0 <= i < |y.raws| ==> y.raws[i].sound
    ensures var z := Apply(y, a); forall i :: 0 <= i < |z.raws| ==> z.raws[i].sound
  {
    hide Inv, Servers.Enabled, Servers.Apply, RawOk, Sound;
    if a.Ask? {
      AskIsSound(y.server, a.id);
    }
  }

  // ---------------------------------------------------------------- once, and in order

  /** The connections of the waiting functors of one loop, in order. */
  function WaitingOn(raws: seq<Raw>, l: LoopId): seq<Id> {
    if raws == [] then []
    else WaitingOn(raws[..|raws| - 1], l) + if raws[|raws| - 1].loop == l then [raws[|raws| - 1].id] else []
  }

  /** The connections for which a run has queued a functor on loop `l`. */
  function QueuedOn(y: State, acts: seq<Action>, l: LoopId): seq<Id> {
    if acts == [] then []
    else
      var before, a := Exec(y, acts[..|acts| - 1]), acts[|acts| - 1];
      QueuedOn(y, acts[..|acts| - 1], l) +
      if (a.Ask? || a.PushLate?) && before.Some? && a.id in before.value.server.conns &&
         before.value.server.conns[a.id].loop == l then [a.id] else []
  }

  /** The connections whose functor loop `l` has run. */
  function RunOn(y: State, acts: seq<Action>, l: LoopId): seq<Id> {
    if acts == [] then []
    else
      var before, a := Exec(y, acts[..|acts| - 1]), acts[|acts| - 1];
      RunOn(y, acts[..|acts| - 1], l) +
      if a.RunRaw? && before.Some? && a.i < |before.value.raws| && before.value.raws[a.i].loop == l
      then [before.value.raws[a.i].id] else []
  }

  lemma {:induction false} WaitingAppend(a: seq<Raw>, b: seq<Raw>, l: LoopId)
    ensures WaitingOn(a + b, l) == WaitingOn(a, l) + WaitingOn(b, l)
  {
    if b == [] {
      assert a + b == a;
    } else {
      WaitingAppend(a, b[..|b| - 1], l);
      assert (a + b)[..|a + b| - 1] == a + b[..|b| - 1];
    }
  }

  lemma WaitingOne(r: Raw, l: LoopId)
    ensures WaitingOn([r], l) == if r.loop == l then [r.id] else []
  {
    assert [r][..0] == [];
  }

  lemma {:induction false} WaitingNone(a: seq<Raw>, l: LoopId)
    requires forall j :: 0 <= j < |a| ==> a[j].loop != l
    ensures WaitingOn(a, l) == []
  {
    if a != [] {
      WaitingNone(a[..|a| - 1], l);
    }
  }

  /** Moving up the queue changes neither connection nor loop. */
  lemma {:induction false} WaitingSame(a: seq<Raw>, b: seq<Raw>, l: LoopId)
    requires |a| == |b| && forall j :: 0 <= j < |a| ==> a[j].id == b[j].id && a[j].loop == b[j].loop
    ensures WaitingOn(a, l) == WaitingOn(b, l)
  {
    if a != [] {
      WaitingSame(a[..|a| - 1], b[..|b| - 1], l);
    }
  }

  lemma WaitingTaken(raws: seq<Raw>, i: nat, l: LoopId)
    requires i < |raws| && forall j :: 0 <= j < i ==> raws[j].loop != raws[i].loop
    ensures WaitingOn(raws, l) ==
      (if raws[i].loop == l then [raws[i].id] else []) + WaitingOn(raws[..i] + raws[i + 1..], l)
  {
    hide WaitingOn;
    assert raws == raws[..i] + ([raws[i]] + raws[i + 1..]);
    WaitingAppend(raws[..i], [raws[i]] + raws[i + 1..], l);
    WaitingAppend([raws[i]], raws[i + 1..], l);
    WaitingAppend(raws[..i], raws[i + 1..], l);
    WaitingOne(raws[i], l);
    if raws[i].loop == l {
      WaitingNone(raws[..i], l);
    }
  }

  lemma WaitingStep(y: State, a: Action, l: LoopId)
    requires Enabled(y, a)
    ensures WaitingOn(y.raws, l) + (if (a.Ask? || a.PushLate?) && y.server.conns[a.id].loop == l then [a.id] else []) ==
            (if a.RunRaw? && y.raws[a.i].loop == l then [y.raws[a.i].id] else []) + WaitingOn(Apply(y, a).raws, l)
  {
    hide Servers.Enabled, Servers.Apply, Sound, WaitingOn;
    match a
    case Serve(b) => WaitingSame(y.raws, Apply(y, a).raws, l);
    case Ask(id, _) =>
      WaitingAppend(y.raws, [Queued(y.server, id, y.next)], l);
      WaitingOne(Queued(y.server, id, y.next), l);
    case PushLate(id) =>
      WaitingAppend(y.raws, [Queued(y.server, id, y.next)], l);
      WaitingOne(Queued(y.server, id, y.next), l);
    case RunRaw(i) => WaitingTaken(y.raws, i, l);
    case Test(_) =>
  }

  /** Over every run each loop runs the functors queued on it by other threads once each, in the order in
      which they were queued. */
  lemma {:induction false} RawsRunInOrder(base: LoopId, workers: set<LoopId>, ipPort: string, acts: seq<Action>, l: LoopId)
    requires Exec(Start(base, workers, ipPort), acts).Some?
    ensures var s := Start(base, workers, ipPort);
      QueuedOn(s, acts, l) == RunOn(s, acts, l) + WaitingOn(Exec(s, acts).value.raws, l)
  {
    hide Enabled, Apply, WaitingOn;
    var s := Start(base, workers, ipPort);
    if acts == [] {
      WaitingNone([], l);
    } else {
      var before, a := acts[..|acts| - 1], acts[|acts| - 1];
      RawsRunInOrder(base, workers, ipPort, before, l);
      var y := Exec(s, before).value;
      EnabledMeans(y, a);
      WaitingStep(y, a, l);
      Regroup(RunOn(s, before, l), WaitingOn(y.raws, l),
              if (a.Ask? || a.PushLate?) && y.server.conns[a.id].loop == l then [a.id] else [],
              if a.RunRaw? && y.raws[a.i].loop == l then [y.raws[a.i].id] else [], WaitingOn(Apply(y, a).raws, l));
    }
  }

  lemma Regroup(run: seq<Id>, waiting: seq<Id>, queued: seq<Id>, ran: seq<Id>, left: seq<Id>)
    requires waiting + queued == ran + left
    ensures run + waiting + queued == run + ran + left
  {
    assert run + waiting + queued == run + (waiting + queued);
    assert run + ran + left == run + (ran + left);
  }

  lemma EnabledMeans(y: State, a: Action)
    requires Enabled(y, a)
    ensures (a.Ask? || a.PushLate?) ==> a.id in y.server.conns
    ensures a.RunRaw? ==> a.i < |y.raws|
  {
  }
}
