/** What happens when a thread queues a raw functor some time after it tested the state: exactly when the
    connection has left the server's map by then, and nothing that holds it waits in the same vector, can
    the functor run on a connection that is dead. */
module LateRawFunctors {
  import opened Options
  import opened Servers
  import opened RawFunctors
  import C = Connections
  import L = ServerLives

  // ---------------------------------------------------------------- runs

  lemma {:induction false} ExecAppend(y: State, a: seq<RawFunctors.Action>, b: seq<RawFunctors.Action>)
    requires RawFunctors.Exec(y, a).Some?
    ensures RawFunctors.Exec(y, a + b) == RawFunctors.Exec(RawFunctors.Exec(y, a).value, b)
  {
    hide RawFunctors.Enabled, RawFunctors.Apply;
    if b == [] {
      assert a + b == a;
    } else {
      ExecAppend(y, a, b[..|b| - 1]);
      assert (a + b)[..|a + b| - 1] == a + b[..|b| - 1];
    }
  }

  lemma One(y: State, a: RawFunctors.Action)
    requires RawFunctors.Enabled(y, a)
    ensures RawFunctors.Exec(y, [a]) == Some(RawFunctors.Apply(y, a))
  {
    hide RawFunctors.Enabled, RawFunctors.Apply;
    assert [a][..0] == [];
  }

  // ---------------------------------------------------------------- who refers to a connection

  predicate HasOf(fs: seq<Functor>, id: Id) {
    exists f :: f in fs && f.id == id
  }

  /** On its way out: the base loop has removed it. */
  predicate Past(s: Server, id: Id) {
    id in s.conns && (s.conns[id].phase == Destroying || s.conns[id].phase == Gone)
  }

  /** From `s` to `r` nothing new refers to the connection. */
  predicate NoMore(s: Server, r: Server, id: Id) {
    && r.loops.Keys == s.loops.Keys && r.held <= s.held
    && forall k :: k in s.loops ==> LoopNoMore(s.loops[k], r.loops[k], id)
  }

  predicate LoopNoMore(x: Loop, z: Loop, id: Id) {
    && (HasOf(z.pending, id) ==> HasOf(x.pending, id))
    && (HasOf(z.batch, id) ==> HasOf(x.batch, id))
    && (z.guard == Some(id) ==> x.guard == Some(id))
  }

  lemma NoMoreTrans(s: Server, m: Server, r: Server, id: Id)
    requires NoMore(s, m, id) && NoMore(m, r, id)
    ensures NoMore(s, r, id)
  {
    hide HasOf;
    forall k | k in s.loops
      ensures LoopNoMore(s.loops[k], r.loops[k], id)
    {
      assert LoopNoMore(s.loops[k], m.loops[k], id) && LoopNoMore(m.loops[k], r.loops[k], id);
    }
  }

  lemma NoMoreSame(s: Server, id: Id)
    ensures NoMore(s, s, id)
  {
  }

  lemma HasOfPushed(fs: seq<Functor>, f: Functor, id: Id)
    requires f.id != id
    ensures HasOf(fs + [f], id) ==> HasOf(fs, id)
  {
    if HasOf(fs + [f], id) {
      var g :| g in fs + [f] && g.id == id;
      assert g in fs;
    }
  }

  /** Running a functor of a batch queues nothing for a connection that is past its removal. */
  lemma RunNoMore(s: Server, l: LoopId, id: Id)
    requires Inv(s) && Servers.Enabled(s, RunNext(l)) && Past(s, id)
    ensures var r := Servers.Apply(s, RunNext(l));
      && NoMore(s, r, id) && Past(r, id)
      && (forall k :: k in s.loops ==> r.loops[k].mode == s.loops[k].mode && r.loops[k].active == s.loops[k].active)
      && r.loops[l].batch == s.loops[l].batch && r.loops[l].done == s.loops[l].done + 1
  {
    hide Inv, Server.Strong, HasOf, Call;
    OwedNow(s, l);
    var m := s.PutLoop(l, Advanced(s.loops[l]));
    CallNoMore(m, s.loops[l].batch[s.loops[l].done], id);
    NoMoreTrans(s, m, Servers.Apply(s, RunNext(l)), id);
  }

  lemma CallNoMore(s: Server, f: Functor, id: Id)
    requires f.id in s.conns && s.conns[f.id].loop in s.loops && Past(s, id)
    requires f.RemoveInLoop? || f.Establish? ==> f.id != id
    ensures var r := Call(s, f);
      && NoMore(s, r, id) && Past(r, id)
      && forall k :: k in s.loops ==> r.loops[k].mode == s.loops[k].mode && r.loops[k].active == s.loops[k].active &&
                                      r.loops[k].batch == s.loops[k].batch && r.loops[k].done == s.loops[k].done
  {
    hide HasOf, Server.Strong;
    match f
    case RemoveInLoop(j) => HasOfPushed(s.loops[s.conns[j].loop].pending, Destroy(j), id);
    case _ =>
  }

  lemma EndBatchNoMore(s: Server, l: LoopId, id: Id)
    requires Servers.Enabled(s, EndBatch(l)) && Past(s, id)
    ensures var r := Servers.Apply(s, EndBatch(l));
      && NoMore(s, r, id) && Past(r, id) && r.loops[l].mode == Polling && r.loops[l].batch == []
      && (forall k :: k in s.loops && k != l ==> r.loops[k] == s.loops[k])
      && r.loops[l].active == s.loops[l].active
  {
  }

  // ---------------------------------------------------------------- finishing a batch

  /** The raw functor `t` is in the pending vector of loop `l`. */
  predicate Waits(y: State, t: nat, id: Id, l: LoopId) {
    exists i :: 0 <= i < |y.raws| && WaitsAt(y, i, t, id, l)
  }

  predicate WaitsAt(y: State, i: nat, t: nat, id: Id, l: LoopId)
    requires i < |y.raws|
  {
    var r := y.raws[i]; r.ticket == t && r.id == id && r.loop == l && !r.swapped
  }

  lemma {:induction false} FirstOn(raws: seq<Raw>, k: LoopId, q: nat) returns (p: nat)
    requires q < |raws| && raws[q].loop == k
    ensures p <= q && raws[p].loop == k && forall j :: 0 <= j < p ==> raws[j].loop != k
  {
    if j :| 0 <= j < q && raws[j].loop == k {
      p := FirstOn(raws, k, j);
    } else {
      p := q;
    }
  }

  /** The functors of a batch that are still to be run, of both sorts. */
  function BatchWork(y: State, k: LoopId): nat
    requires k in y.server.loops && y.server.loops[k].Ok()
  {
    Left(y.server.loops[k]) + |y.raws|
  }

  lemma RawLoops(y: State)
    requires RawInv(y)
    ensures LoopsOk(y.server) && Inv(y.server)
  {
    hide Inv;
    InvLoops(y.server);
  }

  /** A loop that runs its batch can always go on. */
  lemma NextInBatch(y: State, k: LoopId) returns (a: RawFunctors.Action)
    requires RawInv(y) && k in y.server.loops && y.server.loops[k].mode == Running
    ensures RawFunctors.Enabled(y, a)
    ensures a == Serve(RunNext(k)) || a == Serve(EndBatch(k)) ||
            (a.RunRaw? && a.i < |y.raws| && y.raws[a.i].loop == k && y.raws[a.i].swapped)
  {
    hide Inv, Rest, Sound, RawFunctors.BeforeDestroy, RawFunctors.Accompanied;
    RawLoops(y);
    if q :| 0 <= q < |y.raws| && y.raws[q].loop == k && y.raws[q].swapped && y.raws[q].ahead == 0 {
      var p := FirstOn(y.raws, k, q);
      assert p == q || (y.raws[p].ahead <= y.raws[q].ahead && y.raws[p].swapped);
      a := RunRaw(p);
    } else if y.server.loops[k].done < |y.server.loops[k].batch| {
      NextIsKnown(y.server, k);
      a := Serve(RunNext(k));
    } else {
      forall q | 0 <= q < |y.raws| && y.raws[q].loop == k
        ensures !y.raws[q].swapped
      {
        assert RawOk(y.server, y.raws[q]);
      }
      a := Serve(EndBatch(k));
    }
  }

  lemma NextIsKnown(s: Server, k: LoopId)
    requires Inv(s) && k in s.loops && s.loops[k].mode == Running && s.loops[k].done < |s.loops[k].batch|
    ensures Servers.Enabled(s, RunNext(k))
  {
    var f := s.loops[k].batch[s.loops[k].done];
    assert FunctorsOk(s, k) && f in s.loops[k].batch;
    assert ConnOk(s, f.id);
  }

  lemma WaitsOn(y: State, a: RawFunctors.Action, t: nat, id: Id, l: LoopId)
    requires RawFunctors.Enabled(y, a) && Waits(y, t, id, l)
    requires a != Serve(Swap(l)) && (a.RunRaw? ==> a.i < |y.raws| && y.raws[a.i].swapped)
    ensures Waits(RawFunctors.Apply(y, a), t, id, l)
  {
    hide Servers.Enabled, Servers.Apply;
    var i :| 0 <= i < |y.raws| && WaitsAt(y, i, t, id, l);
    var z := RawFunctors.Apply(y, a);
    match a
    case RunRaw(p) =>
      assert p != i;
      assert z.raws[if i < p then i else i - 1] == y.raws[i];
      assert WaitsAt(z, if i < p then i else i - 1, t, id, l);
    case _ => assert WaitsAt(z, i, t, id, l);
  }

  /** One step of a batch: less is left, nothing more refers to the connection. */
  lemma BatchStep(y: State, k: LoopId, a: RawFunctors.Action, id: Id)
    requires RawInv(y) && k in y.server.loops && y.server.loops[k].mode == Running && Past(y.server, id)
    requires RawFunctors.Enabled(y, a) && (a == Serve(RunNext(k)) || a.RunRaw?)
    ensures var z := RawFunctors.Apply(y, a);
      && RawInv(z) && k in z.server.loops && z.server.loops[k].mode == Running && Past(z.server, id)
      && NoMore(y.server, z.server, id) && z.server.loops.Keys == y.server.loops.Keys
      && y.server.loops[k].Ok() && z.server.loops[k].Ok() && BatchWork(z, k) < BatchWork(y, k)
      && (forall j :: j in y.server.loops ==>
            z.server.loops[j].mode == y.server.loops[j].mode && z.server.loops[j].active == y.server.loops[j].active)
  {
    hide Inv, RawOk, OrderOk, TicketsOk, HasOf;
    var z := RawFunctors.Apply(y, a);
    RawStep(y, a);
    RawLoops(y);
    RawLoops(z);
    if a.RunRaw? {
      NoMoreSame(y.server, id);
    } else {
      RunNoMore(y.server, k, id);
    }
  }

  /** The batch of loop `k` is run to its end, while `t` goes on waiting. */
  lemma FinishBatch(y: State, k: LoopId, t: nat, id: Id, l: LoopId) returns (acts: seq<RawFunctors.Action>, z: State)
    requires RawInv(y) && k in y.server.loops && y.server.loops[k].Ok() && y.server.loops[k].mode == Running
    requires Past(y.server, id) && Waits(y, t, id, l)
    ensures RawFunctors.Exec(y, acts) == Some(z) && RawInv(z) && Past(z.server, id) && Waits(z, t, id, l)
    ensures NoMore(y.server, z.server, id) && z.server.loops.Keys == y.server.loops.Keys
    ensures z.server.loops[k].mode == Polling && z.server.loops[k].batch == []
    ensures forall j :: j in y.server.loops && j != k ==>
      z.server.loops[j].mode == y.server.loops[j].mode && z.server.loops[j].active == y.server.loops[j].active
    decreases BatchWork(y, k)
  {
    hide RawInv, RawFunctors.Enabled, RawFunctors.Apply, NoMore, Waits, BatchWork, Past;
    var a := NextInBatch(y, k);
    One(y, a);
    WaitsOn(y, a, t, id, l);
    var m := RawFunctors.Apply(y, a);
    if a == Serve(EndBatch(k)) {
      EndsBatch(y, k, id);
      acts, z := [a], m;
    } else {
      BatchStep(y, k, a, id);
      var rest, end := FinishBatch(m, k, t, id, l);
      ExecAppend(y, [a], rest);
      NoMoreTrans(y.server, m.server, end.server, id);
      acts, z := [a] + rest, end;
    }
  }

  lemma EndsBatch(y: State, k: LoopId, id: Id)
    requires RawInv(y) && RawFunctors.Enabled(y, Serve(EndBatch(k))) && Past(y.server, id)
    ensures var z := RawFunctors.Apply(y, Serve(EndBatch(k)));
      && RawInv(z) && NoMore(y.server, z.server, id) && Past(z.server, id) && z.server.loops.Keys == y.server.loops.Keys
      && k in z.server.loops && z.server.loops[k].mode == Polling && z.server.loops[k].batch == []
      && (forall j :: j in y.server.loops && j != k ==> z.server.loops[j] == y.server.loops[j])
  {
    hide RawInv, NoMore;
    RawStep(y, Serve(EndBatch(k)));
    EndBatchNoMore(y.server, k, id);
  }

  // ---------------------------------------------------------------- letting go of a connection

  /** One step that gives the connection nothing new, does not swap `l` and leaves `t` waiting. */
  ghost predicate Lets(y: State, z: State, t: nat, id: Id, l: LoopId) {
    && RawInv(z) && Past(z.server, id) && Waits(z, t, id, l) && NoMore(y.server, z.server, id)
    && z.server.loops.Keys == y.server.loops.Keys
  }

  lemma LetsTrans(y: State, m: State, z: State, t: nat, id: Id, l: LoopId)
    requires Lets(y, m, t, id, l) && Lets(m, z, t, id, l)
    ensures Lets(y, z, t, id, l)
  {
    hide RawInv, Waits, NoMore;
    NoMoreTrans(y.server, m.server, z.server, id);
  }

  lemma UserLets(y: State, t: nat, id: Id, l: LoopId) returns (acts: seq<RawFunctors.Action>, z: State)
    requires RawInv(y) && Past(y.server, id) && Waits(y, t, id, l)
    ensures RawFunctors.Exec(y, acts) == Some(z) && Lets(y, z, t, id, l) && id !in z.server.held
  {
    hide RawInv, Waits, NoMore;
    NoMoreSame(y.server, id);
    if id in y.server.held {
      var a := Serve(UserRelease(id));
      One(y, a);
      RawStep(y, a);
      WaitsOn(y, a, t, id, l);
      acts, z := [a], RawFunctors.Apply(y, a);
      ReleaseNoMore(y.server, id);
    } else {
      acts, z := [], y;
    }
  }

  lemma ReleaseNoMore(s: Server, id: Id)
    requires id in s.held
    ensures NoMore(s, Servers.Apply(s, UserRelease(id)), id)
  {
  }

  /** The loops other than `l` whose batch still holds the connection. */
  function Holding(s: Server, id: Id, l: LoopId): set<LoopId> {
    set k | k in s.loops && k != l && HasOf(s.loops[k].batch, id)
  }

  lemma HoldingShrinks(s: Server, r: Server, id: Id, l: LoopId)
    requires NoMore(s, r, id)
    ensures Holding(r, id, l) <= Holding(s, id, l)
  {
    hide HasOf;
    assert forall k :: k in s.loops ==> LoopNoMore(s.loops[k], r.loops[k], id);
  }

  lemma HolderRuns(s: Server, id: Id, k: LoopId)
    requires LoopsOk(s) && k in s.loops && HasOf(s.loops[k].batch, id)
    ensures s.loops[k].Ok() && s.loops[k].mode == Running
  {
  }

  lemma BatchesLet(y: State, t: nat, id: Id, l: LoopId) returns (acts: seq<RawFunctors.Action>, z: State)
    requires RawInv(y) && Past(y.server, id) && Waits(y, t, id, l)
    ensures RawFunctors.Exec(y, acts) == Some(z) && Lets(y, z, t, id, l) && Holding(z.server, id, l) == {}
    decreases Holding(y.server, id, l)
  {
    hide RawInv, Waits, NoMore, HasOf;
    NoMoreSame(y.server, id);
    if k :| k in Holding(y.server, id, l) {
      RawLoops(y);
      HolderRuns(y.server, id, k);
      var first, m := FinishBatch(y, k, t, id, l);
      HoldingShrinks(y.server, m.server, id, l);
      EmptyHasNone(id);
      assert k !in Holding(m.server, id, l);
      var rest, end := BatchesLet(m, t, id, l);
      ExecAppend(y, first, rest);
      LetsTrans(y, m, end, t, id, l);
      acts, z := first + rest, end;
    } else {
      acts, z := [], y;
    }
  }

  lemma EmptyHasNone(id: Id)
    ensures !HasOf([], id)
  {
  }

  /** Loop `l` is about to swap: everything active has been dispatched. */
  predicate AboutToSwap(x: Loop) {
    x.mode == Dispatching && x.active == [] && x.guard == None
  }

  /** The next step of a loop on its way from the poll to the swap. */
  function TowardsSwap(x: Loop, l: LoopId): Servers.Action {
    if x.mode == Polling then Poll(l, [])
    else if x.guard.Some? then EndEvent(l) else Dispatch(l)
  }

  function SwapDistance(x: Loop): nat {
    if x.mode == Polling then 1 + 2 * |x.active| else 2 * |x.active| + if x.guard.Some? then 1 else 0
  }

  lemma TowardsSwapLets(s: Server, l: LoopId, id: Id)
    requires Inv(s) && l in s.loops && s.loops[l].mode != Running && !AboutToSwap(s.loops[l]) && Past(s, id)
    ensures Servers.Enabled(s, TowardsSwap(s.loops[l], l))
    ensures var r := Servers.Apply(s, TowardsSwap(s.loops[l], l));
      && NoMore(s, r, id) && Past(r, id) && r.loops.Keys == s.loops.Keys && r.loops[l].mode == Dispatching
      && SwapDistance(r.loops[l]) < SwapDistance(s.loops[l])
  {
    hide ConnOk, FunctorsOk, FdsOk, Placed, Server.Strong, HasOf;
    var x := s.loops[l];
    if x.mode == Dispatching && x.guard == None {
      assert s.conns[x.active[0]].phase == Up;
    }
  }

  lemma LoopLets(y: State, t: nat, id: Id, l: LoopId) returns (acts: seq<RawFunctors.Action>, z: State)
    requires RawInv(y) && Past(y.server, id) && Waits(y, t, id, l) && l in y.server.loops
    ensures RawFunctors.Exec(y, acts) == Some(z) && Lets(y, z, t, id, l) && AboutToSwap(z.server.loops[l])
    decreases if y.server.loops[l].mode == Running then 1 else 0, SwapDistance(y.server.loops[l])
  {
    hide RawInv, Waits, NoMore, SwapDistance, AboutToSwap, Past;
    NoMoreSame(y.server, id);
    if AboutToSwap(y.server.loops[l]) {
      acts, z := [], y;
    } else {
      var first, m := LoopStepLets(y, t, id, l);
      var rest, end := LoopLets(m, t, id, l);
      ExecAppend(y, first, rest);
      LetsTrans(y, m, end, t, id, l);
      acts, z := first + rest, end;
    }
  }

  lemma LoopStepLets(y: State, t: nat, id: Id, l: LoopId) returns (acts: seq<RawFunctors.Action>, z: State)
    requires RawInv(y) && Past(y.server, id) && Waits(y, t, id, l) && l in y.server.loops
    requires !AboutToSwap(y.server.loops[l])
    ensures RawFunctors.Exec(y, acts) == Some(z) && Lets(y, z, t, id, l) && z.server.loops[l].mode != Running
    ensures y.server.loops[l].mode != Running ==> SwapDistance(z.server.loops[l]) < SwapDistance(y.server.loops[l])
  {
    hide RawInv, Waits, NoMore, SwapDistance, AboutToSwap, Past, Servers.Apply;
    RawLoops(y);
    if y.server.loops[l].mode == Running {
      assert y.server.loops[l].Ok();
      acts, z := FinishBatch(y, l, t, id, l);
    } else {
      TowardsSwapLets(y.server, l, id);
      var a := Serve(TowardsSwap(y.server.loops[l], l));
      One(y, a);
      RawStep(y, a);
      WaitsOn(y, a, t, id, l);
      acts, z := [a], RawFunctors.Apply(y, a);
    }
  }

  // ---------------------------------------------------------------- nothing is left that refers to it

  lemma Unreferenced(s: Server, id: Id, l: LoopId)
    requires Inv(s) && Past(s, id) && s.conns[id].loop == l && l in s.loops
    requires id !in s.held && Holding(s, id, l) == {}
    requires AboutToSwap(s.loops[l]) && !HasOf(s.loops[l].pending, id)
    ensures !s.Strong(id)
  {
    hide Inv, Holding, HasOf;
    Known(s, id);
    NameEntry(s, id);
    NoEntry(s, id);
    forall k | k in s.loops
      ensures !s.loops[k].Holds(id)
    {
      LoopLetsGo(s, id, l, k);
    }
  }

  lemma NoEntry(s: Server, id: Id)
    requires Inv(s) && id in s.conns && !InMap(s, id)
    ensures forall name :: name in s.connections ==> s.connections[name] != id
  {
  }

  lemma LoopLetsGo(s: Server, id: Id, l: LoopId, k: LoopId)
    requires Inv(s) && Past(s, id) && s.conns[id].loop == l && l in s.loops && k in s.loops
    requires Holding(s, id, l) == {} && AboutToSwap(s.loops[l]) && !HasOf(s.loops[l].pending, id)
    ensures !s.loops[k].Holds(id)
  {
    hide ConnsOk, ChannelsOk, FdsOk, ConnOk, FunctorsOk;
    var x := s.loops[k];
    if k == l {
      assert x.batch == [];
      assert forall f :: f in x.pending ==> f.id != id;
    } else {
      assert k !in Holding(s, id, l);
      assert forall f :: f in x.batch ==> f.id != id;
      NonePending(s, id, k);
    }
  }

  lemma NonePending(s: Server, id: Id, k: LoopId)
    requires Inv(s) && Past(s, id) && k in s.loops && k != s.conns[id].loop
    ensures forall f :: f in s.loops[k].pending ==> f.id != id
  {
    hide Inv, Loop.Unrun, ConnOk, FunctorsOk;
    forall f | f in s.loops[k].pending
      ensures f.id != id
    {
      if f.id == id {
        OnlyItsLoop(s, id, k, f);
      }
    }
  }

  /** Past its removal, whatever is left for a connection is on its own loop. */
  lemma OnlyItsLoop(s: Server, id: Id, k: LoopId, f: Functor)
    requires Inv(s) && Past(s, id) && k in s.loops && f in s.loops[k].pending && f.id == id
    ensures k == s.conns[id].loop
  {
    hide ConnsOk, ChannelsOk, FdsOk, ActiveOk, ConnOk;
    assert FunctorsOk(s, k) && f in s.loops[k].Unrun();
    NoRemoval(s, id);
  }

  lemma NoRemoval(s: Server, id: Id)
    requires Inv(s) && Past(s, id)
    ensures s.base in s.loops && s.loops[s.base].Ok() && RemoveInLoop(id) !in s.loops[s.base].Unrun()
  {
    hide Inv, Loop.Unrun;
    Known(s, id);
  }

  // ---------------------------------------------------------------- the functor's turn

  /** The raw functor `t` is in the batch of loop `l`. */
  predicate Due(y: State, t: nat, id: Id, l: LoopId) {
    exists i :: 0 <= i < |y.raws| && DueAt(y, i, t, id, l)
  }

  predicate DueAt(y: State, i: nat, t: nat, id: Id, l: LoopId)
    requires i < |y.raws|
  {
    var r := y.raws[i]; r.ticket == t && r.id == id && r.loop == l && r.swapped
  }

  lemma DueOn(y: State, a: RawFunctors.Action, t: nat, id: Id, l: LoopId)
    requires RawFunctors.Enabled(y, a) && Due(y, t, id, l)
    requires a.RunRaw? ==> a.i < |y.raws| && y.raws[a.i].ticket != t
    ensures Due(RawFunctors.Apply(y, a), t, id, l) && a != Serve(EndBatch(l))
  {
    hide Servers.Enabled, Servers.Apply;
    var i :| 0 <= i < |y.raws| && DueAt(y, i, t, id, l);
    var z := RawFunctors.Apply(y, a);
    match a
    case RunRaw(p) =>
      assert p != i && z.raws[if i < p then i else i - 1] == y.raws[i];
      assert DueAt(z, if i < p then i else i - 1, t, id, l);
    case _ => assert DueAt(z, i, t, id, l);
  }

  lemma StaysDead(y: State, a: RawFunctors.Action, id: Id)
    requires RawInv(y) && RawFunctors.Enabled(y, a) && id in y.server.conns && !y.server.Strong(id)
    requires a.Serve? || a.RunRaw?
    ensures !RawFunctors.Apply(y, a).server.Strong(id)
  {
    hide Inv, Server.Strong, Servers.Enabled, Servers.Apply, RawOk, OrderOk, TicketsOk;
    if a.Serve? {
      StrongOnlyShrinks(y.server, a.a);
    }
  }

  /** The raw functor `t` is about to run. */
  predicate RunsNext(y: State, j: nat, t: nat, id: Id) {
    RawFunctors.Enabled(y, RunRaw(j)) && y.raws[j].ticket == t && y.raws[j].id == id
  }

  /** Once its batch is running the functor's turn comes, and a dead connection is still dead then. */
  lemma TurnComes(y: State, t: nat, id: Id, l: LoopId) returns (acts: seq<RawFunctors.Action>, z: State, j: nat)
    requires RawInv(y) && Past(y.server, id) && Due(y, t, id, l) && !y.server.Strong(id)
    requires l in y.server.loops && y.server.loops[l].Ok() && y.server.loops[l].mode == Running
    ensures RawFunctors.Exec(y, acts) == Some(z) && RunsNext(z, j, t, id) && !z.server.Strong(id)
    decreases BatchWork(y, l)
  {
    hide RawInv, RawFunctors.Enabled, RawFunctors.Apply, NoMore, Due, BatchWork, Server.Strong;
    var a := NextInBatch(y, l);
    if a.RunRaw? && y.raws[a.i].ticket == t {
      IsTheOne(y, a.i, t, id, l);
      acts, z, j := [], y, a.i;
    } else {
      One(y, a);
      DueOn(y, a, t, id, l);
      BatchStep(y, l, a, id);
      StaysDead(y, a, id);
      var rest, end, k := TurnComes(RawFunctors.Apply(y, a), t, id, l);
      ExecAppend(y, [a], rest);
      acts, z, j := [a] + rest, end, k;
    }
  }

  lemma IsTheOne(y: State, p: nat, t: nat, id: Id, l: LoopId)
    requires RawInv(y) && Due(y, t, id, l) && p < |y.raws| && y.raws[p].ticket == t
    ensures y.raws[p].id == id
  {
    hide Inv, RawOk, OrderOk;
    var i :| 0 <= i < |y.raws| && DueAt(y, i, t, id, l);
    assert i == p;
  }

  lemma SwapMakesDue(y: State, t: nat, id: Id, l: LoopId)
    requires RawInv(y) && Past(y.server, id) && Waits(y, t, id, l) && !y.server.Strong(id)
    requires l in y.server.loops && AboutToSwap(y.server.loops[l])
    ensures RawFunctors.Enabled(y, Serve(Swap(l)))
    ensures var z := RawFunctors.Apply(y, Serve(Swap(l)));
      && RawInv(z) && Past(z.server, id) && Due(z, t, id, l) && !z.server.Strong(id)
      && l in z.server.loops && z.server.loops[l].Ok() && z.server.loops[l].mode == Running
  {
    hide Inv, RawOk, OrderOk, TicketsOk, Server.Strong;
    var a := Serve(Swap(l));
    RawStep(y, a);
    StaysDead(y, a, id);
    var i :| 0 <= i < |y.raws| && WaitsAt(y, i, t, id, l);
    assert DueAt(RawFunctors.Apply(y, a), i, t, id, l);
  }

  // ---------------------------------------------------------------- the exact condition

  /** Some continuation runs the raw functor `t` on a dead connection. */
  ghost predicate CanRunDead(y: State, t: nat, id: Id) {
    exists acts, j :: RunsDead(y, acts, j, t, id)
  }

  ghost predicate RunsDead(y: State, acts: seq<RawFunctors.Action>, j: nat, t: nat, id: Id) {
    var z := RawFunctors.Exec(y, acts); z.Some? && RunsNext(z.value, j, t, id) && !z.value.server.Strong(id)
  }

  lemma UnsoundIsPast(s: Server, id: Id)
    requires Inv(s) && Reached(s, id) && !Sound(s, id)
    ensures Past(s, id) && !HasOf(s.loops[s.conns[id].loop].pending, id)
  {
    hide Inv;
    Known(s, id);
  }

  /** Everything lets go of the connection, and the loop is about to swap. */
  lemma AllLet(y: State, t: nat, id: Id, l: LoopId) returns (acts: seq<RawFunctors.Action>, z: State)
    requires RawInv(y) && Past(y.server, id) && Waits(y, t, id, l)
    requires l in y.server.loops && !HasOf(y.server.loops[l].pending, id)
    ensures RawFunctors.Exec(y, acts) == Some(z) && Lets(y, z, t, id, l)
    ensures l in z.server.loops && AboutToSwap(z.server.loops[l]) && !z.server.Strong(id)
  {
    hide RawInv, NoMore, Waits, Server.Strong, Holding, AboutToSwap, HasOf, Past;
    var a1, y1 := UserLets(y, t, id, l);
    var a2, y2 := BatchesLet(y1, t, id, l);
    var a3, y3 := LoopLets(y2, t, id, l);
    NowUnreferenced(y, y1, y2, y3, t, id, l);
    LetsTrans(y, y1, y2, t, id, l);
    LetsTrans(y, y2, y3, t, id, l);
    ExecAppend(y, a1, a2);
    ExecAppend(y, a1 + a2, a3);
    acts, z := a1 + a2 + a3, y3;
  }

  /** From there the functor runs in the batch that is swapped in. */
  lemma SwappedRuns(y: State, t: nat, id: Id, l: LoopId) returns (acts: seq<RawFunctors.Action>, j: nat)
    requires RawInv(y) && Past(y.server, id) && Waits(y, t, id, l) && !y.server.Strong(id)
    requires l in y.server.loops && AboutToSwap(y.server.loops[l])
    ensures RunsDead(y, acts, j, t, id)
  {
    hide RawInv, Waits, Due, Server.Strong, AboutToSwap, Past, RawFunctors.Apply, RawFunctors.Enabled;
    var a := Serve(Swap(l));
    SwapMakesDue(y, t, id, l);
    One(y, a);
    var rest, z, k := TurnComes(RawFunctors.Apply(y, a), t, id, l);
    ExecAppend(y, [a], rest);
    acts, j := [a] + rest, k;
  }

  lemma UnsoundCanRunDead(y: State, id: Id)
    requires RawInv(y) && RawFunctors.Enabled(y, PushLate(id)) && !Sound(y.server, id)
    ensures CanRunDead(RawFunctors.Apply(y, PushLate(id)), y.next, id)
  {
    hide RawInv, Sound, NoMore, Waits, Server.Strong, AboutToSwap, HasOf, RunsNext;
    var l, m, t := y.server.conns[id].loop, RawFunctors.Apply(y, PushLate(id)), y.next;
    RawLoops(y);
    UnsoundIsPast(y.server, id);
    RawStep(y, PushLate(id));
    PushedWaits(y, id);
    var first, z := AllLet(m, t, id, l);
    var rest, j := SwappedRuns(z, t, id, l);
    ExecAppend(m, first, rest);
    assert RunsDead(m, first + rest, j, t, id);
  }

  /** Every functor keeps its ticket and what was recorded of it. */
  predicate Recorded(y: State, t: nat, sound: bool) {
    t < y.next && forall i :: 0 <= i < |y.raws| && y.raws[i].ticket == t ==> y.raws[i].sound == sound
  }

  lemma RecordedStep(y: State, a: RawFunctors.Action, t: nat, sound: bool)
    requires RawFunctors.Enabled(y, a) && Recorded(y, t, sound)
    ensures Recorded(RawFunctors.Apply(y, a), t, sound)
  {
    hide Servers.Enabled, Servers.Apply, Sound, Rest;
    if a.RunRaw? {
      var raws := y.raws[..a.i] + y.raws[a.i + 1..];
      assert forall k :: 0 <= k < |raws| ==> raws[k] == y.raws[if k < a.i then k else k + 1];
    }
  }

  lemma {:induction false} RecordedRun(y: State, acts: seq<RawFunctors.Action>, t: nat, sound: bool)
    requires RawInv(y) && RawFunctors.Exec(y, acts).Some? && Recorded(y, t, sound)
    ensures var z := RawFunctors.Exec(y, acts).value; RawInv(z) && Recorded(z, t, sound)
  {
    hide RawInv, Recorded, RawFunctors.Enabled, RawFunctors.Apply;
    if acts != [] {
      var m := RawFunctors.Exec(y, acts[..|acts| - 1]).value;
      RecordedRun(y, acts[..|acts| - 1], t, sound);
      RecordedStep(m, acts[|acts| - 1], t, sound);
      RawStep(m, acts[|acts| - 1]);
    }
  }

  /** A functor queued late, in any state a server reaches, can run on a dead connection if and only if
      the connection has left the server's map by then and no functor that holds it waits in the same
      vector. */
  lemma LatePushExactlyWhen(y: State, id: Id)
    requires RawFunctors.Reachable(y) && RawFunctors.Enabled(y, PushLate(id))
    ensures CanRunDead(RawFunctors.Apply(y, PushLate(id)), y.next, id) <==> !Sound(y.server, id)
  {
    hide RawInv, Sound, Server.Strong;
    var base, workers, ipPort, acts :| RawFunctors.Exec(RawFunctors.Start(base, workers, ipPort), acts) == Some(y);
    RawRun(base, workers, ipPort, acts);
    if Sound(y.server, id) {
      var m := RawFunctors.Apply(y, PushLate(id));
      RawStep(y, PushLate(id));
      NewIsRecorded(y, id);
      forall more, j
        ensures !RunsDead(m, more, j, y.next, id)
      {
        SoundNeverDead(m, more, j, y.next, id);
      }
    } else {
      UnsoundCanRunDead(y, id);
    }
  }

  lemma NewIsRecorded(y: State, id: Id)
    requires RawInv(y) && RawFunctors.Enabled(y, PushLate(id))
    ensures Recorded(RawFunctors.Apply(y, PushLate(id)), y.next, Sound(y.server, id))
  {
    hide Inv, RawOk, Sound, OrderOk;
  }

  lemma SoundNeverDead(y: State, acts: seq<RawFunctors.Action>, j: nat, t: nat, id: Id)
    requires RawInv(y) && Recorded(y, t, true)
    ensures !RunsDead(y, acts, j, t, id)
  {
    hide RawInv, Server.Strong, Servers.Enabled;
    if RawFunctors.Exec(y, acts).Some? {
      var z := RawFunctors.Exec(y, acts).value;
      RecordedRun(y, acts, t, true);
      if RunsNext(z, j, t, id) {
        SoundIsAlive(z, j);
      }
    }
  }

  lemma PushedWaits(y: State, id: Id)
    requires RawFunctors.Enabled(y, PushLate(id))
    ensures Waits(RawFunctors.Apply(y, PushLate(id)), y.next, id, y.server.conns[id].loop)
  {
    hide Sound, Rest;
    assert WaitsAt(RawFunctors.Apply(y, PushLate(id)), |y.raws|, y.next, id, y.server.conns[id].loop);
  }

  lemma NowUnreferenced(y0: State, y1: State, y2: State, y3: State, t: nat, id: Id, l: LoopId)
    requires l in y0.server.loops && !HasOf(y0.server.loops[l].pending, id)
    requires Lets(y0, y1, t, id, l) && id !in y1.server.held
    requires Lets(y1, y2, t, id, l) && Holding(y2.server, id, l) == {}
    requires Lets(y2, y3, t, id, l) && l in y3.server.loops && AboutToSwap(y3.server.loops[l])
    ensures !y3.server.Strong(id)
  {
    hide Inv, Holding, HasOf, Server.Strong, AboutToSwap, Past, OrderOk, TicketsOk;
    LetsTrans(y0, y1, y2, t, id, l);
    LetsTrans(y0, y2, y3, t, id, l);
    LetsTrans(y1, y2, y3, t, id, l);
    HoldingShrinks(y2.server, y3.server, id, l);
    assert LoopNoMore(y0.server.loops[l], y3.server.loops[l], id);
    WaitsOnLoop(y3, t, id, l);
    Unreferenced(y3.server, id, l);
  }

  lemma WaitsOnLoop(y: State, t: nat, id: Id, l: LoopId)
    requires RawInv(y) && Waits(y, t, id, l)
    ensures id in y.server.conns && y.server.conns[id].loop == l
  {
    hide Inv, Sound, RawFunctors.BeforeDestroy, RawFunctors.Accompanied;
    var i :| 0 <= i < |y.raws| && WaitsAt(y, i, t, id, l);
    assert RawOk(y.server, y.raws[i]);
  }

  // ---------------------------------------------------------------- it happens

  function Serves(acts: seq<Servers.Action>): seq<RawFunctors.Action> {
    if acts == [] then [] else Serves(acts[..|acts| - 1]) + [Serve(acts[|acts| - 1])]
  }

  /** Without raw functors a run of the server is a run here. */
  lemma {:induction false} ServesIsRun(y: State, acts: seq<Servers.Action>)
    requires y.raws == [] && Servers.Exec(y.server, acts).Some?
    ensures RawFunctors.Exec(y, Serves(acts)) == Some(y.(server := Servers.Exec(y.server, acts).value))
  {
    hide Servers.Enabled, Servers.Apply;
    if acts != [] {
      var before, a := acts[..|acts| - 1], acts[|acts| - 1];
      ServesIsRun(y, before);
      assert (Serves(before) + [Serve(a)])[..|Serves(before)|] == Serves(before);
      var m := y.(server := Servers.Exec(y.server, before).value);
      assert RawFunctors.Apply(m, Serve(a)).raws == [];
    }
  }

  /** A thread that keeps a connection finds it connected; the peer hangs up, and the connection is
      removed and destroyed; only then the thread queues its functor. */
  lemma LatePushHappens(ip: string, fd: Fd) returns (y: State)
    ensures RawFunctors.Reachable(y) && RawFunctors.Enabled(y, PushLate(1)) && !Sound(y.server, 1)
    ensures CanRunDead(RawFunctors.Apply(y, PushLate(1)), y.next, 1)
  {
    hide Servers.Apply, Servers.Exec;
    var y0 := RawFunctors.Start(0, {1}, ip);
    var up := L.ReachUp(ip, fd);
    ServesIsRun(y0, up);
    var y1 := y0.(server := L.UpAt(ip, fd, {}));
    HeldByUser(ip, fd);
    var y2 := y1.(tested := {1}, server := L.UpAt(ip, fd, {1}));
    var more := L.UpToGone(ip, fd, {1});
    ServesIsRun(y2, more);
    y := y2.(server := L.GoneAt(ip, fd, {1}));
    ExecAppend(y0, Serves(up), [Test(1), Serve(UserHold(1))]);
    ExecAppend(y0, Serves(up) + [Test(1), Serve(UserHold(1))], Serves(more));
    GoneIsUnsound(ip, fd, y);
    LatePushExactlyWhen(y, 1);
  }

  lemma HeldByUser(ip: string, fd: Fd)
    ensures var y := State(L.UpAt(ip, fd, {}), [], {}, 0);
      RawFunctors.Exec(y, [Test(1), Serve(UserHold(1))]) ==
      Some(y.(tested := {1}, server := L.UpAt(ip, fd, {1})))
  {
    var y := State(L.UpAt(ip, fd, {}), [], {}, 0);
    assert y.server.connections[ConnName(ip, 1)] == 1 && y.server.Strong(1);
    One(y, Test(1));
    var m := y.(tested := {1});
    assert RawFunctors.Apply(y, Test(1)) == m;
    One(m, Serve(UserHold(1)));
    ExecAppend(y, [Test(1)], [Serve(UserHold(1))]);
    assert [Test(1)] + [Serve(UserHold(1))] == [Test(1), Serve(UserHold(1))];
    assert RawFunctors.Apply(m, Serve(UserHold(1))) == m.(server := L.UpAt(ip, fd, {1}));
  }

  lemma GoneIsUnsound(ip: string, fd: Fd, y: State)
    requires y == State(L.GoneAt(ip, fd, {1}), [], {1}, 0)
    ensures RawFunctors.Enabled(y, PushLate(1)) && !Sound(y.server, 1)
  {
  }
}
