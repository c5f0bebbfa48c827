/** The functor queue and wake-up protocol of src/EventLoop.cpp.

    The loop thread and any number of other threads take atomic steps in any order: a push under the
    mutex, a store to the quit flag, a write to or a read of the eventfd, the swap of the pending
    vector, and so on.  A run is a list of such steps, so a statement about all runs is a statement
    about all interleavings. */
module EventLoops {
  import opened Options

  /** A queued functor, by identity, and a thread other than the loop's. */
  type Functor = nat
  type Tid = nat

  /** Where the loop thread stands: outside `loop()`, at the test of the quit flag, about to poll,
      handling active channels (`unread` while the wake-up channel is still to be handled), about to
      swap, running the swapped batch. */
  datatype Pc = Stopped | AtCheck | AtPoll | Dispatching(unread: bool) | Swapping | Running

  /** The largest value an eventfd counter holds; a write that would pass it fails. */
  const COUNTER_MAX := 0xFFFF_FFFF_FFFF_FFFE

  /** `owing` are the threads between their push or store and their write to the eventfd, `loopPushed`
      says the same of the loop thread between its push and its test.  `batch` is what is left of the
      swapped vector.  `early` records that the owning thread queued a functor outside `loop()` that
      has not been swapped out since. */
  datatype State = State(pc: Pc, quit: bool, calling: bool, pending: seq<Functor>, batch: seq<Functor>,
                         counter: nat, owing: set<Tid>, loopPushed: bool,
                         pushed: seq<Functor>, executed: seq<Functor>, early: bool)

  const INIT := State(Stopped, false, false, [], [], 0, {}, false, [], [], false)

  datatype Action =
    // the loop thread
    | Start | Check | PollReturn(reported: bool) | ReadWakeup | FinishDispatch | Swap | RunNext | EndBatch
    | LoopPush(f: Functor) | LoopPushed | LoopQuit
    // another thread
    | Push(t: Tid, f: Functor) | SetQuit(t: Tid) | Wake(t: Tid)

  function Bump(counter: nat): nat {
    if counter < COUNTER_MAX then counter + 1 else counter
  }

  /** User code of the loop thread runs outside the loop, in channel handlers and in functors. */
  predicate UserCode(pc: Pc) {
    pc == Stopped || pc.Dispatching? || pc == Running
  }

  predicate Enabled(s: State, a: Action) {
    match a
    case LoopPushed => s.loopPushed
    case Push(t, _) => t !in s.owing
    case SetQuit(t) => t !in s.owing
    case Wake(t) => t in s.owing
    case _ => !s.loopPushed && LoopEnabled(s, a)
  }

  /** The steps of the loop thread, when it is not inside `queueInLoop`. */
  predicate LoopEnabled(s: State, a: Action) {
    match a
    case Start => s.pc == Stopped
    case Check => s.pc == AtCheck
    case PollReturn(reported) => s.pc == AtPoll && (reported ==> s.counter > 0)
    case ReadWakeup => s.pc == Dispatching(true)
    case FinishDispatch => s.pc == Dispatching(false)
    case Swap => s.pc == Swapping
    case RunNext => s.pc == Running && s.batch != []
    case EndBatch => s.pc == Running && s.batch == []
    case LoopPush(_) => UserCode(s.pc)
    case LoopQuit => UserCode(s.pc)
    case _ => false
  }

  function Apply(s: State, a: Action): State
    requires Enabled(s, a)
  {
    match a
    case Start => s.(pc := AtCheck, quit := false)
    case Check => s.(pc := if s.quit then Stopped else AtPoll)
    case PollReturn(reported) => s.(pc := Dispatching(reported))
    case ReadWakeup => s.(pc := Dispatching(false), counter := 0)
    case FinishDispatch => s.(pc := Swapping, calling := true)
    case Swap => s.(pc := Running, batch := s.pending, pending := [], early := false)
    case RunNext => s.(batch := s.batch[1..], executed := s.executed + [s.batch[0]])
    case EndBatch => s.(pc := AtCheck, calling := false)
    case LoopPush(f) => s.(pending := s.pending + [f], pushed := s.pushed + [f], loopPushed := true,
                           early := s.early || s.pc == Stopped)
    case LoopPushed => s.(loopPushed := false, counter := if s.calling then Bump(s.counter) else s.counter)
    case LoopQuit => s.(quit := true)
    case Push(t, f) => s.(pending := s.pending + [f], pushed := s.pushed + [f], owing := s.owing + {t})
    case SetQuit(t) => s.(quit := true, owing := s.owing + {t})
    case Wake(t) => s.(counter := Bump(s.counter), owing := s.owing - {t})
  }

  function Exec(s: State, acts: seq<Action>): Option<State> {
    if acts == [] then Some(s)
    else
      var before := Exec(s, acts[..|acts| - 1]);
      if before.Some? && Enabled(before.value, acts[|acts| - 1])
      then Some(Apply(before.value, acts[|acts| - 1])) else None
  }

  lemma ExecNext(s: State, acts: seq<Action>, a: Action)
    requires Exec(s, acts).Some? && Enabled(Exec(s, acts).value, a)
    ensures Exec(s, acts + [a]) == Some(Apply(Exec(s, acts).value, a))
  {
    assert (acts + [a])[..|acts|] == acts;
  }

  // ---------------------------------------------------------------- the invariant

  /** The poll will be cut short: the eventfd is readable, or some thread is about to make it so. */
  predicate Covered(s: State) {
    s.counter > 0 || s.owing != {}
  }

  /** What is to be done and not yet noticed has a wake-up on its way. */
  predicate Inv(s: State) {
    && s.executed + s.batch + s.pending == s.pushed
    && (s.calling <==> s.pc == Swapping || s.pc == Running)
    && (s.batch != [] ==> s.pc == Running)
    && (s.loopPushed ==> UserCode(s.pc))
    && (s.early ==> s.pending != [])
    && (s.pending != [] && (s.pc == Stopped || s.pc == AtCheck || s.pc == AtPoll || s.pc == Running) ==>
          Covered(s) || s.early || (s.pc == Running && s.loopPushed))
    && (s.quit && s.pc == AtPoll ==> Covered(s))
  }

  lemma InvStep(s: State, a: Action)
    requires Inv(s) && Enabled(s, a)
    ensures Inv(Apply(s, a))
  {
    var r := Apply(s, a);
    match a
    case LoopPush(f) => assert s.executed + s.batch + (s.pending + [f]) == s.executed + s.batch + s.pending + [f];
    case Push(t, f) =>
      assert s.executed + s.batch + (s.pending + [f]) == s.executed + s.batch + s.pending + [f];
      assert t in r.owing;
    case SetQuit(t) => assert t in r.owing;
    case RunNext => assert s.batch == [s.batch[0]] + s.batch[1..];
    case _ =>
  }

  lemma {:induction false} InvRun(s: State, acts: seq<Action>)
    requires Inv(s) && Exec(s, acts).Some?
    ensures Inv(Exec(s, acts).value)
  {
    if acts != [] {
      InvRun(s, acts[..|acts| - 1]);
      InvStep(Exec(s, acts[..|acts| - 1]).value, acts[|acts| - 1]);
    }
  }

  // ---------------------------------------------------------------- a run, told from its actions alone

  /** Quit has been asked for, by whatever thread, since `loop()` was last entered. */
  predicate QuitAsked(acts: seq<Action>) {
    acts != [] &&
    match acts[|acts| - 1]
    case Start => false
    case LoopQuit => true
    case SetQuit(_) => true
    case _ => QuitAsked(acts[..|acts| - 1])
  }

  /** Every functor queued by whatever thread, in the order in which they took the lock. */
  function Pushes(acts: seq<Action>): seq<Functor> {
    if acts == [] then []
    else
      Pushes(acts[..|acts| - 1]) +
      match acts[|acts| - 1]
      case Push(_, f) => [f]
      case LoopPush(f) => [f]
      case _ => []
  }

  /** How many functors have been run. */
  function Ran(acts: seq<Action>): nat {
    if acts == [] then 0 else Ran(acts[..|acts| - 1]) + if acts[|acts| - 1].RunNext? then 1 else 0
  }

  /** How many had been queued when the vector was last swapped out. */
  function Swapped(acts: seq<Action>): nat {
    if acts == [] then 0
    else if acts[|acts| - 1].Swap? then |Pushes(acts[..|acts| - 1])|
    else Swapped(acts[..|acts| - 1])
  }

  /** The loop is between the end of its dispatch and the end of a batch. */
  predicate Draining(acts: seq<Action>) {
    acts != [] &&
    (acts[|acts| - 1].FinishDispatch? || (!acts[|acts| - 1].EndBatch? && Draining(acts[..|acts| - 1])))
  }

  /** The writes to the eventfd since it was last read: every one another thread owed, and that of the loop
      thread for a functor queued by a functor. */
  function Signals(acts: seq<Action>): nat {
    if acts == [] then 0
    else
      var before := Signals(acts[..|acts| - 1]);
      match acts[|acts| - 1]
      case ReadWakeup => 0
      case Wake(_) => Bump(before)
      case LoopPushed => if Draining(acts[..|acts| - 1]) then Bump(before) else before
      case _ => before
  }

  lemma {:induction false} RunIsTold(acts: seq<Action>)
    requires Exec(INIT, acts).Some?
    ensures var s := Exec(INIT, acts).value;
      && s.quit == QuitAsked(acts) && s.calling == Draining(acts) && s.counter == Signals(acts)
      && s.pushed == Pushes(acts) && |s.executed| == Ran(acts)
      && |s.executed| + |s.batch| == Swapped(acts)
  {
    if acts != [] {
      RunIsTold(acts[..|acts| - 1]);
      InvRun(INIT, acts[..|acts| - 1]);
      TellStep(acts, Exec(INIT, acts[..|acts| - 1]).value);
    }
  }

  lemma TellStep(acts: seq<Action>, s: State)
    requires acts != [] && Inv(s) && Enabled(s, acts[|acts| - 1])
    requires var before := acts[..|acts| - 1];
      && s.quit == QuitAsked(before) && s.calling == Draining(before) && s.counter == Signals(before)
      && s.pushed == Pushes(before) && |s.executed| == Ran(before)
      && |s.executed| + |s.batch| == Swapped(before)
    ensures var r := Apply(s, acts[|acts| - 1]);
      && r.quit == QuitAsked(acts) && r.calling == Draining(acts) && r.counter == Signals(acts)
      && r.pushed == Pushes(acts) && |r.executed| == Ran(acts)
      && |r.executed| + |r.batch| == Swapped(acts)
  {
    assert |s.executed + s.batch + s.pending| == |s.executed| + |s.batch| + |s.pending|;
  }

  // ---------------------------------------------------------------- the claims

  /** A quit asked for by any thread is seen at the next test of the flag, and no loop stops without one. */
  lemma QuitStops(acts: seq<Action>)
    requires Exec(INIT, acts).Some? && Enabled(Exec(INIT, acts).value, Check)
    ensures var s := Exec(INIT, acts).value;
      (s.quit <==> QuitAsked(acts)) && Apply(s, Check).pc == if QuitAsked(acts) then Stopped else AtPoll
  {
    RunIsTold(acts);
  }

  /** In every run, a loop that is about to poll with functors pending or with quit requested has a
      wake-up pending or on its way; the only exception are functors that the owning thread itself
      queued outside `loop()`. */
  lemma NoLostWakeup(acts: seq<Action>)
    requires Exec(INIT, acts).Some?
    ensures var s := Exec(INIT, acts).value;
      s.pc == AtPoll && (s.pending != [] || QuitAsked(acts)) ==> Covered(s) || (s.early && !QuitAsked(acts))
  {
    InvRun(INIT, acts);
    RunIsTold(acts);
  }

  /** The run has the owning thread queue a functor while it is outside `loop()`. */
  predicate QueuesWhileStopped(s: State, acts: seq<Action>) {
    acts != [] &&
    (QueuesWhileStopped(s, acts[..|acts| - 1]) ||
     (acts[|acts| - 1].LoopPush? && Exec(s, acts[..|acts| - 1]).Some? &&
      Exec(s, acts[..|acts| - 1]).value.pc == Stopped))
  }

  lemma {:induction false} EarlyIsQueuedWhileStopped(acts: seq<Action>)
    requires Exec(INIT, acts).Some? && Exec(INIT, acts).value.early
    ensures QueuesWhileStopped(INIT, acts)
  {
    if acts != [] {
      if Exec(INIT, acts[..|acts| - 1]).value.early {
        EarlyIsQueuedWhileStopped(acts[..|acts| - 1]);
      }
    }
  }

  /** So a server whose owning thread queues nothing before it starts looping never sleeps on work. */
  lemma NeverSleepsOnWork(acts: seq<Action>)
    requires Exec(INIT, acts).Some? && !QueuesWhileStopped(INIT, acts)
    ensures var s := Exec(INIT, acts).value;
      s.pc == AtPoll && (s.pending != [] || QuitAsked(acts)) ==> Covered(s)
  {
    NoLostWakeup(acts);
    if Exec(INIT, acts).value.early {
      EarlyIsQueuedWhileStopped(acts);
    }
  }

  /** Some continuation in which the batch is not swapped brings the loop to a poll that nothing cuts
      short: the functor just queued may wait for the poll's time-out. */
  ghost predicate UnannouncedPoll(s: State) {
    exists acts :: Swap !in acts && Exec(s, acts).Some? && Exec(s, acts).value.pc == AtPoll && !Covered(Exec(s, acts).value)
  }

  /** On the way to the next swap the loop is covered whenever it is not already past its poll. */
  lemma {:induction false} CoveredUntilSwap(s: State, acts: seq<Action>)
    requires Exec(s, acts).Some? && Swap !in acts
    requires s.pc.Dispatching? || s.pc == Swapping || Covered(s)
    ensures var r := Exec(s, acts).value; r.pc.Dispatching? || r.pc == Swapping || Covered(r)
  {
    if acts != [] {
      var before, a := acts[..|acts| - 1], acts[|acts| - 1];
      assert forall i :: 0 <= i < |before| ==> before[i] in acts;
      CoveredUntilSwap(s, before);
      assert a in acts;
    }
  }

  /** The exception is real and exactly as described: a functor that the loop's own thread queues can meet
      an unannounced poll if and only if the thread is outside `loop()`, the eventfd is not readable and
      no other thread is about to make it so.  In a handler it needs no wake-up, because the swap comes
      before the next poll; in a functor it gets one. */
  lemma QueueingIsCoveredIffLooping(s: State, f: Functor)
    requires Inv(s) && Enabled(s, LoopPush(f))
    ensures var r := Apply(Apply(s, LoopPush(f)), LoopPushed);
      UnannouncedPoll(r) <==> s.pc == Stopped && !Covered(s)
    ensures Apply(Apply(s, LoopPush(f)), LoopPushed).counter == if s.pc == Running then Bump(s.counter) else s.counter
  {
    var r := Apply(Apply(s, LoopPush(f)), LoopPushed);
    if s.pc == Stopped && !Covered(s) {
      ExecNext(r, [], Start);
      assert [] + [Start] == [Start];
      ExecNext(r, [Start], Check);
      assert [Start] + [Check] == [Start, Check];
      assert Swap !in [Start, Check];
    } else {
      forall acts | Swap !in acts && Exec(r, acts).Some? && Exec(r, acts).value.pc == AtPoll
        ensures Covered(Exec(r, acts).value)
      {
        CoveredUntilSwap(r, acts);
      }
    }
  }

  /** Exactly once, in push order: at every moment the functors queued so far are, in lock order, those that
      have been run, those left of the batch, which were queued before the last swap, and those pending,
      which were queued after it; between two batches nothing is in between. */
  lemma ExactlyOnceInOrder(acts: seq<Action>)
    requires Exec(INIT, acts).Some?
    ensures var s := Exec(INIT, acts).value;
      && s.executed + s.batch + s.pending == Pushes(acts) == s.pushed
      && |s.executed| == Ran(acts) && |s.executed| + |s.batch| == Swapped(acts)
      && (s.pc == AtCheck || s.pc == AtPoll ==> s.executed + s.pending == Pushes(acts))
  {
    InvRun(INIT, acts);
    RunIsTold(acts);
    var s := Exec(INIT, acts).value;
    assert s.batch == [] ==> s.executed + s.batch == s.executed;
  }

  lemma {:induction false} PushedGrows(s: State, acts: seq<Action>)
    requires Exec(s, acts).Some?
    ensures s.pushed <= Exec(s, acts).value.pushed
  {
    if acts != [] {
      PushedGrows(s, acts[..|acts| - 1]);
    }
  }

  lemma SwapTakes(s: State, pushed: seq<Functor>)
    requires Inv(s) && Enabled(s, Swap) && pushed <= s.pushed
    ensures var r := Apply(s, Swap); pushed <= r.executed + r.batch
  {
    assert s.batch == [] && s.executed + s.batch + s.pending == s.executed + s.pending;
  }

  lemma TakenStays(s: State, a: Action, pushed: seq<Functor>)
    requires Inv(s) && Enabled(s, a) && a != Swap && pushed <= s.executed + s.batch
    ensures var r := Apply(s, a); pushed <= r.executed + r.batch
  {
    if a == RunNext {
      assert s.executed + s.batch == s.executed + [s.batch[0]] + s.batch[1..];
    }
  }

  /** From a swap on, everything that had been pushed is executed or in the batch. */
  lemma {:induction false} SwappedIsTaken(s: State, acts: seq<Action>)
    requires Inv(s) && Exec(s, acts).Some? && Swap in acts
    ensures var r := Exec(s, acts).value; s.pushed <= r.executed + r.batch
  {
    hide Inv, Enabled, Apply;
    var before, a := acts[..|acts| - 1], acts[|acts| - 1];
    InvRun(s, before);
    if a == Swap {
      PushedGrows(s, before);
      SwapTakes(Exec(s, before).value, s.pushed);
    } else {
      assert acts == before + [a];
      SwappedIsTaken(s, before);
      TakenStays(Exec(s, before).value, a, s.pushed);
    }
  }

  /** Nothing waits longer than to the end of the next batch: in every interleaving, whatever the
      functors and the other threads do meanwhile, once the loop has swapped and is back at its test or
      its poll, everything that had been pushed before has run. */
  lemma SwapRunsEverything(s: State, acts: seq<Action>)
    requires Inv(s) && Exec(s, acts).Some? && Swap in acts
    ensures var r := Exec(s, acts).value; r.pc == AtCheck || r.pc == AtPoll ==> s.pushed <= r.executed
  {
    InvRun(s, acts);
    SwappedIsTaken(s, acts);
    var r := Exec(s, acts).value;
    assert r.batch == [] ==> r.executed + r.batch == r.executed;
  }

  // ---------------------------------------------------------------- progress

  /** One turn of the loop on its own: the poll returns with the wake-up channel, and a batch of `n`
      functors that queue nothing is run. */
  function TurnActs(n: nat): seq<Action> {
    if n == 0 then [PollReturn(true), ReadWakeup, FinishDispatch, Swap]
    else TurnActs(n - 1) + [RunNext]
  }

  function AfterTurn(s: State, n: nat): State
    requires n <= |s.pending|
  {
    s.(pc := Running, calling := true, counter := 0, pending := [], batch := s.pending[n..],
       executed := s.executed + s.pending[..n], early := false)
  }

  lemma TurnBegins(s: State)
    requires Inv(s) && s.pc == AtPoll && !s.loopPushed && s.counter > 0
    ensures Exec(s, TurnActs(0)) == Some(AfterTurn(s, 0))
  {
    var s1 := Apply(s, PollReturn(true));
    var s2 := Apply(s1, ReadWakeup);
    var s3 := Apply(s2, FinishDispatch);
    ExecNext(s, [], PollReturn(true));
    assert [] + [PollReturn(true)] == [PollReturn(true)];
    ExecNext(s, [PollReturn(true)], ReadWakeup);
    assert [PollReturn(true)] + [ReadWakeup] == [PollReturn(true), ReadWakeup];
    ExecNext(s, [PollReturn(true), ReadWakeup], FinishDispatch);
    assert [PollReturn(true), ReadWakeup] + [FinishDispatch] == [PollReturn(true), ReadWakeup, FinishDispatch];
    ExecNext(s, [PollReturn(true), ReadWakeup, FinishDispatch], Swap);
    assert [PollReturn(true), ReadWakeup, FinishDispatch] + [Swap] == TurnActs(0);
    assert Apply(s3, Swap) == AfterTurn(s, 0);
  }

  lemma {:induction false} TurnRuns(s: State, n: nat)
    requires Inv(s) && s.pc == AtPoll && !s.loopPushed && s.counter > 0 && n <= |s.pending|
    ensures Exec(s, TurnActs(n)) == Some(AfterTurn(s, n))
  {
    if n == 0 {
      TurnBegins(s);
    } else {
      TurnRuns(s, n - 1);
      ExecNext(s, TurnActs(n - 1), RunNext);
      assert s.pending[n - 1..][1..] == s.pending[n..];
      assert s.executed + s.pending[..n - 1] + [s.pending[n - 1]] == s.executed + s.pending[..n];
    }
  }

  /** A readable eventfd leads, in one turn, to everything pushed so far having been run. */
  lemma WakeupRunsEverything(s: State)
    requires Inv(s) && s.pc == AtPoll && !s.loopPushed && s.counter > 0
    ensures var r := Exec(s, TurnActs(|s.pending|) + [EndBatch]);
      r.Some? && r.value.pc == AtCheck && r.value.pending == [] && r.value.executed == s.pushed
  {
    TurnRuns(s, |s.pending|);
    ExecNext(s, TurnActs(|s.pending|), EndBatch);
    assert s.pending[..|s.pending|] == s.pending;
    assert s.batch == [];
    assert s.executed + s.batch + s.pending == s.executed + s.pending;
  }

  // ---------------------------------------------------------------- the class

  /** What running functors does, as the caller of the class supplies it: the functors one queues on
      the loop, and whether it calls `quit`. */
  datatype Behaviour = Behaviour(queues: Functor -> seq<Functor>, quits: Functor -> bool)

  function QueueActs(fs: seq<Functor>): seq<Action> {
    if fs == [] then [] else QueueActs(fs[..|fs| - 1]) + [LoopPush(fs[|fs| - 1]), LoopPushed]
  }

  /** The steps of running one functor. */
  function OneActs(f: Functor, b: Behaviour): seq<Action> {
    [RunNext] + QueueActs(b.queues(f)) + if b.quits(f) then [LoopQuit] else []
  }

  /** The steps of running the functors `fs` of a batch one after the other. */
  function BatchActs(fs: seq<Functor>, b: Behaviour): seq<Action> {
    if fs == [] then [] else BatchActs(fs[..|fs| - 1], b) + OneActs(fs[|fs| - 1], b)
  }

  function Flatten(fs: seq<Functor>, b: Behaviour): seq<Functor> {
    if fs == [] then [] else Flatten(fs[..|fs| - 1], b) + b.queues(fs[|fs| - 1])
  }

  predicate AnyQuits(fs: seq<Functor>, b: Behaviour) {
    exists i :: 0 <= i < |fs| && b.quits(fs[i])
  }

  // What the loop thread's own code does to the state when no other thread interferes.

  function AfterQueue(s: State, fs: seq<Functor>): (r: State)
    ensures r.pending == s.pending + fs && r.executed == s.executed && r.batch == s.batch
    ensures r.pc == s.pc && r.calling == s.calling && r.loopPushed == s.loopPushed && r.quit == s.quit
    ensures fs != [] && s.calling ==> r.counter > 0
    ensures r.counter >= s.counter
  {
    if fs == [] then s
    else
      var m, f := AfterQueue(s, fs[..|fs| - 1]), fs[|fs| - 1];
      m.(pending := m.pending + [f], pushed := m.pushed + [f], early := m.early || m.pc == Stopped,
         counter := if m.calling then Bump(m.counter) else m.counter)
  }

  /** What running functor `f` at once does. */
  function AfterCall(s: State, f: Functor, b: Behaviour): (r: State)
    ensures r.pending == s.pending + b.queues(f) && r.executed == s.executed && r.batch == s.batch
    ensures r.pc == s.pc && (r.quit <==> s.quit || b.quits(f))
  {
    var q := AfterQueue(s, b.queues(f));
    q.(quit := q.quit || b.quits(f))
  }

  function AfterOne(s: State, f: Functor, b: Behaviour): (r: State)
    requires s.batch != []
    ensures r.pending == s.pending + b.queues(f) && r.executed == s.executed + [f] && r.batch == s.batch[1..]
    ensures r.pc == s.pc && r.calling == s.calling && r.loopPushed == s.loopPushed
    ensures r.quit <==> s.quit || b.quits(f)
    ensures b.queues(f) != [] && s.calling ==> r.counter > 0
    ensures r.counter >= s.counter
  {
    AfterCall(s.(batch := s.batch[1..], executed := s.executed + [f]), f, b)
  }

  function AfterBatch(s: State, n: nat, b: Behaviour): (r: State)
    requires n <= |s.batch|
    ensures r.batch == s.batch[n..] && r.pc == s.pc && r.calling == s.calling && r.loopPushed == s.loopPushed
  {
    if n == 0 then s else AfterOne(AfterBatch(s, n - 1, b), s.batch[n - 1], b)
  }

  function AfterSwap(s: State): State {
    s.(pc := Running, calling := true, batch := s.pending, pending := [], early := false)
  }

  function AfterDrain(s: State, b: Behaviour): State {
    AfterBatch(AfterSwap(s), |s.pending|, b).(pc := AtCheck, calling := false)
  }

  /** What draining comes to: every functor of the batch has run, what they queued is pending, and the
      eventfd is readable if there is any. */
  lemma {:induction false} BatchMeans(s: State, n: nat, b: Behaviour)
    requires n <= |s.batch| && s.pc == Running && s.calling && s.pending == []
    ensures var r := AfterBatch(s, n, b);
      && r.executed == s.executed + s.batch[..n]
      && r.pending == Flatten(s.batch[..n], b)
      && (r.quit <==> s.quit || AnyQuits(s.batch[..n], b))
      && (r.pending != [] ==> r.counter > 0)
  {
    if n > 0 {
      BatchMeans(s, n - 1, b);
      BatchGrows(s.batch, n - 1, b);
    }
  }

  lemma DrainMeans(s: State, b: Behaviour)
    ensures var r := AfterDrain(s, b);
      && r.pc == AtCheck && !r.calling && r.loopPushed == s.loopPushed && r.batch == []
      && r.executed == s.executed + s.pending
      && r.pending == Flatten(s.pending, b)
      && (r.quit <==> s.quit || AnyQuits(s.pending, b))
      && (r.pending != [] ==> r.counter > 0)
  {
    BatchMeans(AfterSwap(s), |s.pending|, b);
    assert s.pending[..|s.pending|] == s.pending;
  }

  lemma BatchGrows(fs: seq<Functor>, i: nat, b: Behaviour)
    requires i < |fs|
    ensures Flatten(fs[..i + 1], b) == Flatten(fs[..i], b) + b.queues(fs[i])
    ensures AnyQuits(fs[..i + 1], b) <==> AnyQuits(fs[..i], b) || b.quits(fs[i])
  {
    assert fs[..i + 1][..i] == fs[..i] && fs[..i + 1][i] == fs[i];
    assert forall j :: 0 <= j < i ==> fs[..i + 1][j] == fs[..i][j];
  }

  lemma {:induction false} QueueIsRun(s: State, fs: seq<Functor>)
    requires !s.loopPushed && UserCode(s.pc)
    ensures Exec(s, QueueActs(fs)) == Some(AfterQueue(s, fs))
  {
    if fs != [] {
      var init, f := fs[..|fs| - 1], fs[|fs| - 1];
      QueueIsRun(s, init);
      ExecNext(s, QueueActs(init), LoopPush(f));
      ExecNext(s, QueueActs(init) + [LoopPush(f)], LoopPushed);
      assert QueueActs(fs) == QueueActs(init) + [LoopPush(f)] + [LoopPushed];
    }
  }

  lemma OneIsRun(s: State, f: Functor, b: Behaviour)
    requires s.pc == Running && !s.loopPushed && s.batch != [] && f == s.batch[0]
    ensures Exec(s, OneActs(f, b)) == Some(AfterOne(s, f, b))
  {
    var m := s.(batch := s.batch[1..], executed := s.executed + [f]);
    ExecNext(s, [], RunNext);
    assert [] + [RunNext] == [RunNext];
    QueueIsRun(m, b.queues(f));
    ExecAppend(s, [RunNext], QueueActs(b.queues(f)));
    if b.quits(f) {
      ExecNext(s, [RunNext] + QueueActs(b.queues(f)), LoopQuit);
    } else {
      assert OneActs(f, b) == [RunNext] + QueueActs(b.queues(f));
    }
  }

  lemma {:induction false} BatchIsRun(s: State, n: nat, b: Behaviour)
    requires s.pc == Running && !s.loopPushed && n <= |s.batch|
    ensures Exec(s, BatchActs(s.batch[..n], b)) == Some(AfterBatch(s, n, b))
  {
    if n > 0 {
      BatchIsRun(s, n - 1, b);
      OneIsRun(AfterBatch(s, n - 1, b), s.batch[n - 1], b);
      assert s.batch[..n][..n - 1] == s.batch[..n - 1];
      ExecAppend(s, BatchActs(s.batch[..n - 1], b), OneActs(s.batch[n - 1], b));
    }
  }

  /** Draining without interference is a run of the machine. */
  lemma DrainIsRun(s: State, b: Behaviour)
    requires Enabled(s, FinishDispatch)
    ensures Exec(s, [FinishDispatch, Swap] + BatchActs(s.pending, b) + [EndBatch]) == Some(AfterDrain(s, b))
  {
    ExecNext(s, [], FinishDispatch);
    assert [] + [FinishDispatch] == [FinishDispatch];
    ExecNext(s, [FinishDispatch], Swap);
    assert [FinishDispatch] + [Swap] == [FinishDispatch, Swap];
    BatchIsRun(AfterSwap(s), |s.pending|, b);
    assert s.pending[..|s.pending|] == s.pending;
    ExecAppend(s, [FinishDispatch, Swap], BatchActs(s.pending, b));
    ExecNext(s, [FinishDispatch, Swap] + BatchActs(s.pending, b), EndBatch);
  }

  lemma {:induction false} ExecAppend(s: State, a: seq<Action>, b: seq<Action>)
    requires Exec(s, a).Some?
    ensures Exec(s, a + b) == Exec(Exec(s, a).value, b)
  {
    if b == [] {
      assert a + b == a;
    } else {
      ExecAppend(s, a, b[..|b| - 1]);
      assert (a + b)[..|a + b| - 1] == a + b[..|b| - 1];
    }
  }

  class EventLoop {
    var quit: bool
    var callingPendingFunctors: bool
    var pendingFunctors: seq<Functor>
    /** The counter of the eventfd. */
    var wakeups: nat

    ghost var pc: Pc
    ghost var batch: seq<Functor>
    ghost var owing: set<Tid>
    ghost var loopPushed: bool
    ghost var pushed: seq<Functor>
    ghost var executed: seq<Functor>
    ghost var early: bool
    /** The functors that `runInLoop` has run without queueing them. */
    ghost var ranAtOnce: seq<Functor>

    ghost function View(): State
      reads this
    {
      State(pc, quit, callingPendingFunctors, pendingFunctors, batch, wakeups, owing, loopPushed,
            pushed, executed, early)
    }

    constructor ()
      ensures View() == INIT
    {
      quit, callingPendingFunctors, pendingFunctors, wakeups := false, false, [], 0;
      pc, batch, owing, loopPushed := Stopped, [], {}, false;
      pushed, executed, early, ranAtOnce := [], [], false, [];
    }

    /** A write of one to the eventfd; it fails when the counter is full. */
    method Wakeup()
      modifies this`wakeups
      ensures wakeups == Bump(old(wakeups)) && wakeups > 0
    {
      if wakeups < COUNTER_MAX {
        wakeups := wakeups + 1;
      }
    }

    /** A read of the eventfd takes the whole counter. */
    method HandleRead()
      requires Enabled(View(), ReadWakeup)
      modifies this
      ensures View() == Apply(old(View()), ReadWakeup)
    {
      wakeups := 0;
      pc := Dispatching(false);
    }

    /** `quit` from the loop thread (no `caller`) or from another one. */
    method Quit(caller: Option<Tid>)
      requires caller.None? ==> Enabled(View(), LoopQuit)
      requires caller.Some? ==> caller.value !in owing
      modifies this
      ensures quit && (caller.Some? ==> wakeups > 0)
      ensures caller.None? ==> View() == Apply(old(View()), LoopQuit)
      ensures caller.Some? ==> View() == Apply(Apply(old(View()), SetQuit(caller.value)), Wake(caller.value))
      ensures ranAtOnce == old(ranAtOnce)
    {
      quit := true;
      if caller.Some? {
        Wakeup();
        assert owing + {caller.value} - {caller.value} == owing;
      }
    }

    /** The block of `queueInLoop` under the mutex. */
    method Emplace(f: Functor)
      modifies this`pendingFunctors, this`pushed
      ensures View() == old(View()).(pending := old(pendingFunctors) + [f], pushed := old(pushed) + [f])
    {
      pendingFunctors := pendingFunctors + [f];
      pushed := pushed + [f];
    }

    /** `queueInLoop` from the loop thread (no `caller`) or from another one. */
    method QueueInLoop(caller: Option<Tid>, f: Functor)
      requires caller.None? ==> Enabled(View(), LoopPush(f))
      requires caller.Some? ==> caller.value !in owing
      modifies this
      ensures caller.None? ==> View() == Apply(Apply(old(View()), LoopPush(f)), LoopPushed)
      ensures caller.Some? ==> View() == Apply(Apply(old(View()), Push(caller.value, f)), Wake(caller.value))
      ensures ranAtOnce == old(ranAtOnce)
    {
      Emplace(f);
      early := early || (caller.None? && pc == Stopped);
      if caller.Some? || callingPendingFunctors {
        Wakeup();
      }
      assert caller.Some? ==> owing + {caller.value} - {caller.value} == owing;
    }

    /** The functors that user code on the loop thread queues, one after the other. */
    method QueueAll(fs: seq<Functor>)
      requires !loopPushed && UserCode(pc)
      modifies this
      ensures View() == AfterQueue(old(View()), fs) && ranAtOnce == old(ranAtOnce)
    {
      ghost var s := View();
      for i := 0 to |fs|
        invariant View() == AfterQueue(s, fs[..i]) && !loopPushed && UserCode(pc)
        invariant ranAtOnce == old(ranAtOnce)
      {
        QueueInLoop(None, fs[i]);
        assert fs[..i + 1][..i] == fs[..i];
      }
      assert fs[..|fs|] == fs;
    }

    /** `runInLoop`: on the loop thread the functor runs at once, and what it queues and whether it quits
        is done before the call returns; from another thread it is queued. */
    method RunInLoop(caller: Option<Tid>, f: Functor, b: Behaviour)
      requires caller.None? ==> !loopPushed && UserCode(pc)
      requires caller.Some? ==> caller.value !in owing
      modifies this
      ensures caller.None? ==> ranAtOnce == old(ranAtOnce) + [f] && View() == AfterCall(old(View()), f, b)
      ensures caller.Some? ==> ranAtOnce == old(ranAtOnce)
      ensures caller.Some? ==> View() == Apply(Apply(old(View()), Push(caller.value, f)), Wake(caller.value))
    {
      if caller.None? {
        ranAtOnce := ranAtOnce + [f];
        QueueAll(b.queues(f));
        if b.quits(f) {
          Quit(None);
        }
      } else {
        QueueInLoop(caller, f);
      }
    }

    /** One functor of the batch runs. */
    method RunOne(f: Functor, b: Behaviour)
      requires Enabled(View(), RunNext) && f == batch[0]
      modifies this
      ensures View() == AfterOne(old(View()), f, b)
    {
      batch := batch[1..];
      executed := executed + [f];
      QueueAll(b.queues(f));
      if b.quits(f) {
        Quit(None);
      }
    }

    /** The loop over the swapped vector. */
    method RunBatch(funcs: seq<Functor>, b: Behaviour)
      requires pc == Running && !loopPushed && batch == funcs
      modifies this
      ensures View() == AfterBatch(old(View()), |funcs|, b)
    {
      ghost var begun := View();
      for i := 0 to |funcs|
        invariant View() == AfterBatch(begun, i, b)
      {
        RunOne(funcs[i], b);
      }
    }

    /** `doPendingFunctors`: swap the vector out and run the batch.  Every functor that was pending
        has run, in order; what they queued is pending, with the eventfd readable if there is any. */
    method DoPendingFunctors(b: Behaviour)
      requires Enabled(View(), FinishDispatch)
      modifies this
      ensures View() == AfterDrain(old(View()), b)
      ensures executed == old(executed) + old(pendingFunctors)
      ensures pendingFunctors == Flatten(old(pendingFunctors), b)
      ensures quit <==> old(quit) || AnyQuits(old(pendingFunctors), b)
      ensures pendingFunctors != [] ==> wakeups > 0
    {
      hide AfterBatch, Flatten, AnyQuits;
      ghost var s := View();
      callingPendingFunctors := true;
      var funcs := pendingFunctors;
      pendingFunctors := [];
      batch, early, pc := funcs, false, Running;
      assert View() == AfterSwap(s);
      DrainMeans(s, b);
      RunBatch(funcs, b);
      callingPendingFunctors := false;
      pc := AtCheck;
    }

    /** One turn of `loop()`: `polled` is the list of functors the channel handlers queue, `reported`
        says whether the poller makes the wake-up channel active, which it can only if the eventfd is
        readable.  What was pending before the turn and what the handlers queued has run. */
    method LoopBody(reported: bool, polled: seq<Functor>, b: Behaviour)
      requires pc == AtPoll && !loopPushed && !callingPendingFunctors && batch == []
      requires reported ==> wakeups > 0
      modifies this
      ensures View() == AfterTurnOf(old(View()), reported, polled, b)
      ensures executed == old(executed) + old(pendingFunctors) + polled
      ensures pendingFunctors == Flatten(old(pendingFunctors) + polled, b)
    {
      hide Flatten, AnyQuits;
      ghost var s := View();
      pc := Dispatching(reported);
      if reported {
        HandleRead();
      }
      QueueAll(polled);
      DoPendingFunctors(b);
      TurnMeans(s, reported, polled, b);
    }

    /** `loop()` for as many turns as `script` describes, or until it sees the quit flag. */
    method Loop(script: seq<(bool, seq<Functor>)>, b: Behaviour) returns (turns: nat)
      requires pc == Stopped && !loopPushed && !callingPendingFunctors && batch == []
      modifies this
      ensures exists acts :: Exec(old(View()), acts) == Some(View())
      ensures turns <= |script| && (quit || turns == |script|)
      ensures var begun := old(View()).(pc := AtCheck, quit := false);
        && View() == AfterTurns(begun, script[..turns], b).(pc := if quit then Stopped else AtPoll)
        && forall i :: 0 <= i < turns ==> !AfterTurns(begun, script[..i], b).quit
    {
      hide AfterTurnOf, AfterTurns, Exec, Apply, Enabled;
      ghost var s, begun := View(), View().(pc := AtCheck, quit := false);
      ghost var acts := [Start];
      StartRuns(s);
      TurnsBegin(begun, script, b);
      quit := false;
      pc := AtCheck;
      turns := 0;
      while true
        invariant Exec(s, acts) == Some(View())
        invariant turns <= |script|
        invariant View() == AfterTurns(begun, script[..turns], b)
        invariant forall i :: 0 <= i < turns ==> !AfterTurns(begun, script[..i], b).quit
        invariant pc == AtCheck && !loopPushed && !callingPendingFunctors && batch == []
        decreases |script| - turns
      {
        CheckRuns(s, acts, View());
        acts := acts + [Check];
        pc := if quit then Stopped else AtPoll;
        if quit || turns == |script| {
          return;
        }
        var reported := script[turns].0 && wakeups > 0;
        acts := TurnRunsOn(s, acts, View(), reported, script[turns].1, b);
        TurnsNext(begun, script, turns, b);
        LoopBody(reported, script[turns].1, b);
        turns := turns + 1;
      }
    }
  }

  /** Turn after turn, each with a poll in between. */
  function AfterTurns(s: State, script: seq<(bool, seq<Functor>)>, b: Behaviour): State {
    if script == [] then s
    else
      var before := AfterTurns(s, script[..|script| - 1], b);
      var (reported, polled) := script[|script| - 1];
      AfterTurnOf(before.(pc := AtPoll), reported && before.counter > 0, polled, b)
  }

  lemma TurnsBegin(s: State, script: seq<(bool, seq<Functor>)>, b: Behaviour)
    ensures AfterTurns(s, script[..0], b) == s
  {
  }

  lemma TurnsNext(s: State, script: seq<(bool, seq<Functor>)>, n: nat, b: Behaviour)
    requires n < |script|
    ensures var before := AfterTurns(s, script[..n], b);
      AfterTurns(s, script[..n + 1], b) ==
      AfterTurnOf(before.(pc := AtPoll), script[n].0 && before.counter > 0, script[n].1, b)
  {
    assert script[..n + 1][..n] == script[..n];
  }

  lemma StartRuns(s: State)
    requires s.pc == Stopped && !s.loopPushed
    ensures Exec(s, [Start]) == Some(s.(pc := AtCheck, quit := false))
  {
    ExecNext(s, [], Start);
    assert [] + [Start] == [Start];
  }

  lemma CheckRuns(s: State, acts: seq<Action>, m: State)
    requires Exec(s, acts) == Some(m) && m.pc == AtCheck && !m.loopPushed
    ensures Exec(s, acts + [Check]) == Some(m.(pc := if m.quit then Stopped else AtPoll))
  {
    ExecNext(s, acts, Check);
  }

  lemma TurnRunsOn(s: State, acts: seq<Action>, m: State, reported: bool, polled: seq<Functor>, b: Behaviour)
    returns (more: seq<Action>)
    requires Exec(s, acts) == Some(m)
    requires m.pc == AtPoll && !m.loopPushed && !m.calling && m.batch == [] && (reported ==> m.counter > 0)
    ensures var r := AfterTurnOf(m, reported, polled, b);
      Exec(s, more) == Some(r) && r.pc == AtCheck && !r.loopPushed && !r.calling && r.batch == []
  {
    var turn := TurnOfIsRun(m, reported, polled, b);
    ExecAppend(s, acts, turn);
    more := acts + turn;
  }

  /** What the turns come to: each runs what the turn before it left pending and what its own handlers
      queue, and then stands at the test, with a readable eventfd if there is more; quit is set only by a
      functor that asks for it. */
  lemma TurnsMean(s: State, script: seq<(bool, seq<Functor>)>, b: Behaviour)
    requires script != []
    ensures var before, r := AfterTurns(s, script[..|script| - 1], b), AfterTurns(s, script, b);
      var ran := before.pending + script[|script| - 1].1;
      && r.pc == AtCheck && r.executed == before.executed + ran && r.pending == Flatten(ran, b)
      && (r.quit <==> before.quit || AnyQuits(ran, b))
      && (r.pending != [] ==> r.counter > 0)
  {
    var before := AfterTurns(s, script[..|script| - 1], b);
    assert before.executed + before.pending + script[|script| - 1].1 ==
           before.executed + (before.pending + script[|script| - 1].1);
    TurnMeans(before.(pc := AtPoll), script[|script| - 1].0 && before.counter > 0, script[|script| - 1].1, b);
  }

  function AfterTurnOf(s: State, reported: bool, polled: seq<Functor>, b: Behaviour): State {
    AfterDrain(AfterQueue(s.(pc := Dispatching(false), counter := if reported then 0 else s.counter), polled), b)
  }

  lemma TurnMeans(s: State, reported: bool, polled: seq<Functor>, b: Behaviour)
    ensures var r := AfterTurnOf(s, reported, polled, b);
      && r.pc == AtCheck
      && r.executed == s.executed + s.pending + polled
      && r.pending == Flatten(s.pending + polled, b)
      && (r.quit <==> s.quit || AnyQuits(s.pending + polled, b))
      && (r.pending != [] ==> r.counter > 0)
  {
    DrainMeans(AfterQueue(s.(pc := Dispatching(false), counter := if reported then 0 else s.counter), polled), b);
  }

  lemma TurnOfIsRun(s: State, reported: bool, polled: seq<Functor>, b: Behaviour) returns (acts: seq<Action>)
    requires s.pc == AtPoll && !s.loopPushed && !s.calling && s.batch == [] && (reported ==> s.counter > 0)
    ensures Exec(s, acts) == Some(AfterTurnOf(s, reported, polled, b))
    ensures var r := AfterTurnOf(s, reported, polled, b);
      r.pc == AtCheck && !r.loopPushed && !r.calling && r.batch == []
  {
    var m := s.(pc := Dispatching(false), counter := if reported then 0 else s.counter);
    acts := [PollReturn(reported)];
    ExecNext(s, [], PollReturn(reported));
    assert [] + [PollReturn(reported)] == acts;
    if reported {
      ExecNext(s, acts, ReadWakeup);
      acts := acts + [ReadWakeup];
    }
    assert Exec(s, acts) == Some(m);
    QueueIsRun(m, polled);
    ExecAppend(s, acts, QueueActs(polled));
    acts := acts + QueueActs(polled);
    var q := AfterQueue(m, polled);
    DrainIsRun(q, b);
    var drain := [FinishDispatch, Swap] + BatchActs(q.pending, b) + [EndBatch];
    ExecAppend(s, acts, drain);
    acts := acts + drain;
  }
}
