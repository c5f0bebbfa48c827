/** Shutting down the logging thread pool of src/include/spdlog/details/thread_pool-inl.h: the
    destructor posts one terminate message per worker into the blocking queue, and each worker
    loops on `dequeue` until it receives one.

    The pool is the queue machine of `MpmcQueues` with its callers fixed: thread `OWNER` runs the
    destructor and every other thread is a worker. */
module ThreadPools {
  import opened Options
  import opened CircularQueues
  import opened MpmcQueues
  import opened MpmcBlockingQueues

  datatype Msg = Log(id: nat) | Flush(id: nat) | Terminate

  /** The thread inside the destructor. */
  const OWNER: Tid := 0

  /** `exited` are the workers that have taken a terminate message. */
  datatype Pool = Pool(mp: State<Msg>, unposted: nat, exited: set<Tid>) {
    ghost function Workers(): set<Tid> {
      mp.pcs.Keys - {OWNER}
    }
  }

  datatype Move =
    | Post                       // the destructor calls post_async_msg_ with policy block
    | Fetch(w: Tid)              // process_next_msg_ calls dequeue
    | Inside(a: Action<Msg>)     // a thread moves on inside the queue

  function ActionOf(m: Move): Action<Msg> {
    match m
    case Post => Enqueue(OWNER, Terminate)
    case Fetch(w) => Dequeue(w, false)
    case Inside(a) => a
  }

  ghost predicate Possible(p: Pool, m: Move)
    requires p.mp.q.Ok()
  {
    && Enabled(p.mp, ActionOf(m))
    && match m
       case Post => p.unposted > 0
       case Fetch(w) => w != OWNER && w !in p.exited
       case Inside(a) => a.Resume? || a.NotifyPush? || a.NotifyPop? || a.SpuriousWake?
  }

  /** The message a step dequeued, if it dequeued one. */
  ghost function Got(before: State<Msg>, after: State<Msg>): Option<Msg> {
    if |after.taken| > |before.taken| && after.taken[|after.taken| - 1] < |after.q.pushed|
    then Some(after.q.pushed[after.taken[|after.taken| - 1]]) else None
  }

  ghost function Make(p: Pool, m: Move): (r: Pool)
    requires p.mp.q.Ok() && Possible(p, m)
    ensures r.mp.q.Ok() && r.mp.pcs.Keys == p.mp.pcs.Keys && r.mp.q.capacity == p.mp.q.capacity
  {
    var after := Apply(p.mp, ActionOf(m));
    Pool(after,
         if m.Post? then p.unposted - 1 else p.unposted,
         if Got(p.mp, after) == Some(Terminate) then p.exited + {ActionOf(m).t} else p.exited)
  }

  function Terminates(s: seq<Msg>): nat {
    if s == [] then 0 else Terminates(s[1..]) + One(s[0] == Terminate)
  }

  /** Messages before terminates, never after. */
  ghost predicate TerminatesLast(s: seq<Msg>) {
    forall i, j :: 0 <= i < j < |s| && s[i] == Terminate ==> s[j] == Terminate
  }

  /** A terminate message the destructor is still holding while it waits for room. */
  ghost function Held(s: State<Msg>): nat
    requires OWNER in s.pcs
  {
    One(KindOf(s.pcs[OWNER]) in {KAwaitRoom, KRoomSignalled, KRoomWoken})
  }

  predicate OwnerPlace(pc: Pc<Msg>) {
    match pc
    case Idle => true
    case AwaitRoom(x) => x == Terminate
    case RoomSignalled(x) => x == Terminate
    case RoomWoken(x) => x == Terminate
    case OwesPushNotify => true
    case _ => false
  }

  predicate WorkerPlace(pc: Pc<Msg>, exited: bool) {
    match pc
    case Idle => true
    case AwaitItem(timed) => !timed && !exited
    case ItemSignalled(timed) => !timed && !exited
    case ItemWoken(timed, expired) => !timed && !expired && !exited
    case OwesPopNotify => true
    case _ => false
  }

  ghost predicate Places(p: Pool) {
    && OWNER in p.mp.pcs
    && p.exited <= p.Workers()
    && OwnerPlace(p.mp.pcs[OWNER])
    && forall w :: w in p.Workers() ==> WorkerPlace(p.mp.pcs[w], w in p.exited)
  }

  /** The queue holds messages and then terminates; once a terminate has been taken, only those. */
  ghost predicate Ordered(items: seq<Msg>, someExited: bool) {
    && TerminatesLast(items)
    && (someExited ==> forall i :: 0 <= i < |items| ==> items[i] == Terminate)
  }

  /** One terminate is queued, held or still to be posted for each worker that has none. */
  ghost predicate Balanced(p: Pool)
    requires p.mp.q.Ok() && OWNER in p.mp.pcs
  {
    Terminates(p.mp.q.Items()) + p.unposted + Held(p.mp) == |p.Workers() - p.exited|
  }

  ghost predicate PoolInv(p: Pool)
    requires p.mp.q.Ok()
  {
    Places(p) && Ordered(p.mp.q.Items(), p.exited != {}) && Balanced(p)
  }

  // ---------------------------------------------------------------- counting terminates

  lemma {:induction false} TerminatesAppend(s: seq<Msg>, x: Msg)
    ensures Terminates(s + [x]) == Terminates(s) + One(x == Terminate)
  {
    if s == [] {
      assert s + [x] == [x];
    } else {
      assert (s + [x])[1..] == s[1..] + [x];
      TerminatesAppend(s[1..], x);
    }
  }

  lemma {:induction false} AllTerminates(s: seq<Msg>)
    requires forall i :: 0 <= i < |s| ==> s[i] == Terminate
    ensures Terminates(s) == |s|
  {
    if s != [] {
      AllTerminates(s[1..]);
    }
  }

  // ---------------------------------------------------------------- the invariant

  /** Where a push of a terminate message leads. */
  lemma PushedTerminate(q: Track<Msg>)
    requires q.Ok() && !q.Full() && TerminatesLast(q.Items())
    ensures q.Push(Terminate).Items() == q.Items() + [Terminate]
    ensures TerminatesLast(q.Items() + [Terminate])
    ensures Terminates(q.Items() + [Terminate]) == Terminates(q.Items()) + 1
  {
    PushKeepsNewest(q, Terminate);
    TerminatesAppend(q.Items(), Terminate);
  }

  lemma OwnerPushes(p: Pool, unposted: nat)
    requires p.mp.q.Ok() && PoolInv(p)
    requires p.unposted + Held(p.mp) == unposted + 1
    ensures PoolInv(Pool(TryPush(p.mp, OWNER, Terminate), unposted, p.exited))
  {
    var r := Pool(TryPush(p.mp, OWNER, Terminate), unposted, p.exited);
    assert r.Workers() == p.Workers();
    if !p.mp.q.Full() {
      PushedTerminate(p.mp.q);
    }
  }

  /** A worker that tries to pop: it takes the oldest item, or goes to sleep. */
  lemma WorkerPops(p: Pool, w: Tid)
    requires p.mp.q.Ok() && PoolInv(p)
    requires w in p.Workers() && w !in p.exited
    ensures var after := TryPop(p.mp, w, false, false);
      PoolInv(Pool(after, p.unposted,
                   if Got(p.mp, after) == Some(Terminate) then p.exited + {w} else p.exited))
  {
    var after := TryPop(p.mp, w, false, false);
    if p.mp.q.Items() != [] {
      WorkerTakes(p, w, after);
    } else {
      assert after.pcs.Keys - {OWNER} == p.Workers();
    }
  }

  lemma WorkerTakes(p: Pool, w: Tid, after: State<Msg>)
    requires p.mp.q.Ok() && PoolInv(p) && p.mp.q.Items() != []
    requires w in p.Workers() && w !in p.exited
    requires after == TryPop(p.mp, w, false, false)
    ensures Got(p.mp, after) == Some(p.mp.q.Items()[0])
    ensures PoolInv(Pool(after, p.unposted,
                         if p.mp.q.Items()[0] == Terminate then p.exited + {w} else p.exited))
  {
    var items := p.mp.q.Items();
    var exited := if items[0] == Terminate then p.exited + {w} else p.exited;
    var r := Pool(after, p.unposted, exited);
    assert after.q.Items() == items[1..];
    OrderedTail(items, p.exited != {});
    assert Ordered(r.mp.q.Items(), r.exited != {});
    TakerPlaces(p, w, after, items[0] == Terminate);
  }

  lemma OrderedTail(items: seq<Msg>, someExited: bool)
    requires Ordered(items, someExited) && items != []
    ensures Ordered(items[1..], someExited)
    ensures items[0] == Terminate ==> Ordered(items[1..], true)
  {
    assert items[0] == Terminate ==> forall j :: 0 < j < |items| ==> items[j] == Terminate;
  }

  lemma TakerPlaces(p: Pool, w: Tid, after: State<Msg>, last: bool)
    requires p.mp.q.Ok() && Places(p)
    requires w in p.Workers() && w !in p.exited
    requires after.pcs == p.mp.pcs[w := OwesPopNotify]
    ensures var r := Pool(after, p.unposted, if last then p.exited + {w} else p.exited);
      && Places(r) && Held(after) == Held(p.mp)
      && |r.Workers() - r.exited| == |p.Workers() - p.exited| - One(last)
  {
    var r := Pool(after, p.unposted, if last then p.exited + {w} else p.exited);
    assert r.Workers() == p.Workers();
    if last {
      assert p.Workers() - p.exited == (p.Workers() - r.exited) + {w};
    }
  }

  /** A step that moves one thread between places of the same sort and leaves the queue alone. */
  lemma OneMoves(p: Pool, t: Tid, pc: Pc<Msg>)
    requires p.mp.q.Ok() && PoolInv(p) && t in p.mp.pcs
    requires t == OWNER ==> OwnerPlace(pc) && Held(p.mp) == Held(p.mp.With(t, pc))
    requires t != OWNER ==> WorkerPlace(pc, t in p.exited)
    ensures PoolInv(p.(mp := p.mp.With(t, pc)))
  {
    var r := p.(mp := p.mp.With(t, pc));
    assert r.Workers() == p.Workers();
  }

  lemma InsideGetsNothing(p: Pool, a: Action<Msg>)
    requires p.mp.q.Ok() && Possible(p, Inside(a)) && !a.Resume?
    ensures Got(p.mp, Apply(p.mp, a)) == None
  {
  }

  lemma InsideStep(p: Pool, a: Action<Msg>)
    requires p.mp.q.Ok() && PoolInv(p) && Possible(p, Inside(a)) && !a.Resume?
    ensures PoolInv(Make(p, Inside(a)))
  {
    hide PoolInv, Got;
    InsideGetsNothing(p, a);
    match a
    case NotifyPush(t, w) => NotifyPushKeeps(p, t, w);
    case NotifyPop(t, w) => NotifyPopKeeps(p, t, w);
    case SpuriousWake(t) => SpuriousKeeps(p, t);
  }

  /** Only the destructor owes a push notification, only workers a pop notification. */
  lemma GoesIdle(p: Pool, t: Tid)
    requires p.mp.q.Ok() && PoolInv(p) && (p.mp.Is(t, KOwesPush) || p.mp.Is(t, KOwesPop))
    ensures PoolInv(p.(mp := p.mp.With(t, Idle)))
  {
    OneMoves(p, t, Idle);
  }

  /** Only workers wait for items. */
  lemma WorkerSignalled(p: Pool, w: Tid)
    requires p.mp.q.Ok() && PoolInv(p) && p.mp.Is(w, KAwaitItem)
    ensures PoolInv(p.(mp := p.mp.With(w, ItemSignalled(p.mp.pcs[w].timed))))
  {
    assert w in p.Workers() && p.mp.pcs[w] == AwaitItem(false);
    OneMoves(p, w, ItemSignalled(false));
  }

  /** Only the destructor waits for room. */
  lemma OwnerSignalled(p: Pool, w: Tid)
    requires p.mp.q.Ok() && PoolInv(p) && p.mp.Is(w, KAwaitRoom)
    ensures PoolInv(p.(mp := p.mp.With(w, RoomSignalled(p.mp.pcs[w].x))))
  {
    assert w == OWNER && p.mp.pcs[w] == AwaitRoom(Terminate);
    OneMoves(p, w, RoomSignalled(Terminate));
  }

  lemma NotifyPushKeeps(p: Pool, t: Tid, w: Option<Tid>)
    requires p.mp.q.Ok() && PoolInv(p) && Enabled(p.mp, NotifyPush(t, w))
    ensures PoolInv(p.(mp := Apply(p.mp, NotifyPush(t, w))))
  {
    GoesIdle(p, t);
    if w.Some? {
      WorkerSignalled(p.(mp := p.mp.With(t, Idle)), w.value);
    }
  }

  lemma NotifyPopKeeps(p: Pool, t: Tid, w: Option<Tid>)
    requires p.mp.q.Ok() && PoolInv(p) && Enabled(p.mp, NotifyPop(t, w))
    ensures PoolInv(p.(mp := Apply(p.mp, NotifyPop(t, w))))
  {
    GoesIdle(p, t);
    if w.Some? {
      OwnerSignalled(p.(mp := p.mp.With(t, Idle)), w.value);
    }
  }

  lemma SpuriousKeeps(p: Pool, t: Tid)
    requires p.mp.q.Ok() && PoolInv(p) && Enabled(p.mp, SpuriousWake(t))
    ensures PoolInv(p.(mp := Apply(p.mp, SpuriousWake(t))))
  {
    if t == OWNER {
      assert p.mp.pcs[t] == AwaitRoom(Terminate);
      OneMoves(p, t, RoomWoken(Terminate));
    } else {
      assert p.mp.pcs[t] == AwaitItem(false);
      OneMoves(p, t, ItemWoken(false, false));
    }
  }

  lemma ResumeMeans(p: Pool, t: Tid)
    requires p.mp.q.Ok() && Places(p) && Possible(p, Inside(Resume(t)))
    ensures t == OWNER ==> Held(p.mp) == 1 && Apply(p.mp, Resume(t)) == TryPush(p.mp, OWNER, Terminate)
    ensures t != OWNER ==> t in p.Workers() && t !in p.exited && Apply(p.mp, Resume(t)) == TryPop(p.mp, t, false, false)
  {
  }

  /** A step that dequeues nothing makes nobody leave. */
  lemma PushGetsNothing(s: State<Msg>)
    requires s.q.Ok()
    ensures Got(s, TryPush(s, OWNER, Terminate)) == None
  {
  }

  lemma PoolStep(p: Pool, m: Move)
    requires p.mp.q.Ok() && PoolInv(p) && Possible(p, m)
    ensures PoolInv(Make(p, m))
  {
    match m
    case Post => PoolPosts(p);
    case Fetch(w) => PoolFetches(p, w);
    case Inside(a) =>
      if a.Resume? {
        PoolResumes(p, a.t);
      } else {
        InsideStep(p, a);
      }
  }

  lemma PoolPosts(p: Pool)
    requires p.mp.q.Ok() && PoolInv(p) && Possible(p, Post)
    ensures PoolInv(Make(p, Post))
  {
    hide PoolInv, TryPush, Got, Held;
    NothingHeld(p);
    PushGetsNothing(p.mp);
    OwnerPushes(p, p.unposted - 1);
  }

  lemma NothingHeld(p: Pool)
    requires p.mp.q.Ok() && Possible(p, Post)
    ensures OWNER in p.mp.pcs && Held(p.mp) == 0
  {
  }

  lemma PoolFetches(p: Pool, w: Tid)
    requires p.mp.q.Ok() && PoolInv(p) && Possible(p, Fetch(w))
    ensures PoolInv(Make(p, Fetch(w)))
  {
    hide PoolInv, TryPop, Got, Held;
    WorkerPops(p, w);
  }

  lemma PoolResumes(p: Pool, t: Tid)
    requires p.mp.q.Ok() && PoolInv(p) && Possible(p, Inside(Resume(t)))
    ensures PoolInv(Make(p, Inside(Resume(t))))
  {
    hide PoolInv, TryPush, TryPop, Got, Held, Places, Apply;
    InvPlaces(p);
    ResumeMeans(p, t);
    if t == OWNER {
      PushGetsNothing(p.mp);
      OwnerPushes(p, p.unposted);
    } else {
      WorkerPops(p, t);
    }
  }

  lemma InvPlaces(p: Pool)
    requires p.mp.q.Ok() && PoolInv(p)
    ensures Places(p)
  {
  }

  // ---------------------------------------------------------------- runs of the destructor

  /** The destructor starts: it has as many messages to post as there are workers, the workers are
      in their loops, and the queue holds ordinary messages only. */
  ghost predicate Begin(p: Pool) {
    && p.mp.q.Ok() && Inv(p.mp)
    && Places(p) && p.mp.pcs[OWNER] == Idle
    && p.exited == {} && p.unposted == |p.Workers()|
    && forall i :: 0 <= i < |p.mp.q.Items()| ==> p.mp.q.Items()[i] != Terminate
  }

  ghost function ExecPool(p: Pool, moves: seq<Move>): (r: Option<Pool>)
    requires p.mp.q.Ok()
    ensures r.Some? ==> r.value.mp.q.Ok() && r.value.mp.pcs.Keys == p.mp.pcs.Keys
    ensures r.Some? ==> r.value.mp.q.capacity == p.mp.q.capacity
  {
    if moves == [] then Some(p)
    else
      var before := ExecPool(p, moves[..|moves| - 1]);
      if before.Some? && Possible(before.value, moves[|moves| - 1])
      then Some(Make(before.value, moves[|moves| - 1])) else None
  }

  /** A new pool with its workers in their loops and nothing posted can be destroyed. */
  lemma NewPoolBegins(capacity: nat, workers: set<Tid>)
    requires OWNER !in workers
    ensures Begin(Pool(MpmcQueues.Start<Msg>(capacity, workers + {OWNER}), |workers|, {}))
  {
    StartInv<Msg>(capacity, workers + {OWNER});
    var p := Pool(MpmcQueues.Start<Msg>(capacity, workers + {OWNER}), |workers|, {});
    assert p.Workers() == workers;
  }

  /** `n` terminate messages. */
  function Poison(n: nat): (s: seq<Msg>)
    ensures |s| == n
  {
    seq(n, i => Terminate)
  }

  /** The positions from `lo` up to `hi`. */
  function Positions(lo: nat, hi: nat): (s: seq<nat>)
    requires lo <= hi
    ensures |s| == hi - lo
  {
    seq(hi - lo, i => lo + i)
  }

  /** What has happened since the destructor began in `p0`: only terminates were pushed, nothing was
      overrun, and the dequeued items are the next ones in push order. */
  ghost predicate Since(p0: Pool, p: Pool)
    requires p0.mp.q.Ok() && p.mp.q.Ok() && OWNER in p.mp.pcs
  {
    && p.unposted + Held(p.mp) <= p0.unposted
    && p.mp.q.pushed == p0.mp.q.pushed + Poison(p0.unposted - p.unposted - Held(p.mp))
    && p.mp.q.Overruns() == p0.mp.q.Overruns()
    && p0.mp.q.dropped <= p.mp.q.dropped
    && p.mp.taken == p0.mp.taken + Positions(p0.mp.q.dropped, p.mp.q.dropped)
  }

  lemma {:induction false} NoTerminates(s: seq<Msg>)
    requires forall i :: 0 <= i < |s| ==> s[i] != Terminate
    ensures Terminates(s) == 0
  {
    if s != [] {
      NoTerminates(s[1..]);
    }
  }

  lemma BeginHolds(p: Pool)
    requires Begin(p)
    ensures PoolInv(p) && Since(p, p)
  {
    NoTerminates(p.mp.q.Items());
    assert p.Workers() - p.exited == p.Workers();
  }

  lemma SincePush(p0: Pool, p: Pool, unposted: nat)
    requires p0.mp.q.Ok() && p.mp.q.Ok() && Places(p) && Since(p0, p)
    requires p.unposted + Held(p.mp) == unposted + 1
    ensures Since(p0, Pool(TryPush(p.mp, OWNER, Terminate), unposted, p.exited))
  {
    var k := p0.unposted - p.unposted - Held(p.mp);
    assert Poison(k + 1) == Poison(k) + [Terminate];
  }

  lemma SincePop(p0: Pool, p: Pool, w: Tid, exited: set<Tid>)
    requires p0.mp.q.Ok() && p.mp.q.Ok() && Places(p) && Since(p0, p) && w in p.Workers()
    ensures Since(p0, Pool(TryPop(p.mp, w, false, false), p.unposted, exited))
  {
    var lo, hi := p0.mp.q.dropped, p.mp.q.dropped;
    assert Positions(lo, hi + 1) == Positions(lo, hi) + [hi];
  }

  lemma SinceMoved(p0: Pool, p: Pool, after: State<Msg>)
    requires p0.mp.q.Ok() && p.mp.q.Ok() && Places(p) && Since(p0, p)
    requires after.q == p.mp.q && after.taken == p.mp.taken && OWNER in after.pcs && Held(after) == Held(p.mp)
    ensures Since(p0, p.(mp := after))
  {
  }

  lemma SinceStep(p0: Pool, p: Pool, m: Move)
    requires p0.mp.q.Ok() && p.mp.q.Ok() && PoolInv(p) && Since(p0, p) && Possible(p, m)
    ensures OWNER in Make(p, m).mp.pcs && Since(p0, Make(p, m))
  {
    match m
    case Post => SincePush(p0, p, p.unposted - 1);
    case Fetch(w) => SincePop(p0, p, w, Make(p, m).exited);
    case Inside(a) => SinceInside(p0, p, a);
  }

  lemma SinceInside(p0: Pool, p: Pool, a: Action<Msg>)
    requires p0.mp.q.Ok() && p.mp.q.Ok() && PoolInv(p) && Since(p0, p) && Possible(p, Inside(a))
    ensures OWNER in Make(p, Inside(a)).mp.pcs && Since(p0, Make(p, Inside(a)))
  {
    if a.Resume? {
      ResumeMeans(p, a.t);
      if a.t == OWNER {
        SincePush(p0, p, p.unposted);
      } else {
        SincePop(p0, p, a.t, Make(p, Inside(a)).exited);
      }
    } else {
      HeldStays(p, a);
      SinceMoved(p0, p, Apply(p.mp, a));
    }
  }

  lemma HeldStays(p: Pool, a: Action<Msg>)
    requires p.mp.q.Ok() && Places(p) && Possible(p, Inside(a)) && !a.Resume?
    ensures Held(Apply(p.mp, a)) == Held(p.mp)
    ensures Apply(p.mp, a).q == p.mp.q && Apply(p.mp, a).taken == p.mp.taken
    ensures Make(p, Inside(a)) == p.(mp := Apply(p.mp, a))
  {
    if a.NotifyPush? && a.waiter.Some? {
      assert a.waiter.value != OWNER;
    }
    if a.NotifyPop? && a.waiter.Some? {
      assert a.waiter.value == OWNER;
    }
  }

  lemma {:induction false} DestructorRun(p0: Pool, moves: seq<Move>)
    requires Begin(p0) && ExecPool(p0, moves).Some?
    ensures var p := ExecPool(p0, moves).value; Inv(p.mp) && PoolInv(p) && Since(p0, p)
  {
    if moves == [] {
      BeginHolds(p0);
    } else {
      DestructorRun(p0, moves[..|moves| - 1]);
      var before := ExecPool(p0, moves[..|moves| - 1]).value;
      var m := moves[|moves| - 1];
      PoolStep(before, m);
      SinceStep(p0, before, m);
      InvStep(before.mp, ActionOf(m));
    }
  }

  /** Once every worker has left its loop, the queue is empty, all terminates were posted, and
      everything that was queued when the destructor began was dequeued, in order, before the first
      terminate: the new dequeues are exactly the positions from the old front to the end, and the
      terminates sit at the last positions. */
  lemma DrainedWhenAllExited(p0: Pool, moves: seq<Move>)
    requires Begin(p0) && p0.Workers() != {}
    requires ExecPool(p0, moves).Some? && ExecPool(p0, moves).value.exited == p0.Workers()
    ensures var p := ExecPool(p0, moves).value;
      && p.mp.q.Items() == [] && p.unposted == 0
      && p.mp.q.pushed == p0.mp.q.pushed + Poison(|p0.Workers()|)
      && p.mp.taken == p0.mp.taken + Positions(p0.mp.q.dropped, |p0.mp.q.pushed| + |p0.Workers()|)
  {
    DestructorRun(p0, moves);
    var p := ExecPool(p0, moves).value;
    assert p.Workers() - p.exited == {};
    AllTerminates(p.mp.q.Items());
  }

  // ---------------------------------------------------------------- it always finishes

  /** Until every worker has left, some thread can move without waking for no reason. */
  lemma SomeoneMoves(p: Pool) returns (m: Move)
    requires p.mp.q.Ok() && Inv(p.mp) && PoolInv(p)
    requires p.mp.q.capacity >= 1 && p.exited != p.Workers()
    ensures Possible(p, m) && !ActionOf(m).SpuriousWake?
  {
    if t :| t in p.mp.pcs && Busy(p.mp.pcs[t]) {
      m := BusyMoves(p, t);
    } else if p.mp.Is(OWNER, KIdle) && p.unposted > 0 {
      m := Post;
    } else {
      var w :| w in p.Workers() && w !in p.exited;
      NotAllAsleep(p, w);
      m := Fetch(w);
    }
  }

  predicate Busy(pc: Pc<Msg>) {
    KindOf(pc) != KIdle && KindOf(pc) != KAwaitItem && KindOf(pc) != KAwaitRoom
  }

  lemma BusyMoves(p: Pool, t: Tid) returns (m: Move)
    requires p.mp.q.Ok() && Places(p) && t in p.mp.pcs && Busy(p.mp.pcs[t])
    ensures Possible(p, m) && !ActionOf(m).SpuriousWake?
  {
    match p.mp.pcs[t]
    case OwesPushNotify => m := Inside(NotifyPush(t, AnyOf(p.mp, KAwaitItem)));
    case OwesPopNotify => m := Inside(NotifyPop(t, AnyOf(p.mp, KAwaitRoom)));
    case _ => m := Inside(Resume(t));
  }

  ghost function AnyOf(s: State<Msg>, k: Kind): (w: Option<Tid>)
    ensures Reaches(s, w, k)
  {
    if s.At(k) == {} then None else var t :| t in s.At(k); Some(t)
  }

  /** With nobody about to move, a worker that has not exited is not asleep unless the destructor can
      still post: a sleeping worker means an empty queue, and then a terminate is owed to it. */
  lemma NotAllAsleep(p: Pool, w: Tid)
    requires p.mp.q.Ok() && Inv(p.mp) && PoolInv(p) && p.mp.q.capacity >= 1
    requires w in p.Workers() && w !in p.exited
    requires forall t :: t in p.mp.pcs ==> !Busy(p.mp.pcs[t])
    ensures p.mp.Is(w, KIdle) || (p.mp.Is(OWNER, KIdle) && p.unposted > 0)
  {
    if p.mp.Is(w, KAwaitItem) {
      SleepersOf(p.mp, w);
      assert w in p.Workers() - p.exited;
    }
  }

  lemma SleepersOf(s: State<Msg>, w: Tid)
    requires s.q.Ok() && Inv(s) && s.q.capacity >= 1 && s.Is(w, KAwaitItem)
    requires forall t :: t in s.pcs ==> !Busy(s.pcs[t])
    ensures s.q.Items() == [] && !s.Is(OWNER, KAwaitRoom)
  {
    assert w in s.At(KAwaitItem);
    assert s.Is(OWNER, KAwaitRoom) ==> OWNER in s.At(KAwaitRoom);
    assert Quiet(s);
    QuietSleepersAreRight(s);
  }

  /** Work left: what is to be posted, what is queued, and how far each thread is from sleep. */
  ghost function Work(p: Pool): nat
    requires p.mp.q.Ok()
  {
    6 * p.unposted + 3 * |p.mp.q.Items()| + Fuel(p.mp)
  }

  ghost function Fuel(s: State<Msg>): nat {
    s.Count(KIdle) + s.Count(KItemSignalled) + s.Count(KItemWoken)
    + 3 * s.Count(KOwesPop) + 3 * s.Count(KOwesPush)
    + 6 * s.Count(KAwaitRoom) + 7 * s.Count(KRoomSignalled) + 7 * s.Count(KRoomWoken)
  }

  function Weight(k: Kind): nat {
    match k
    case KIdle => 1
    case KAwaitItem => 0
    case KItemSignalled => 1
    case KItemWoken => 1
    case KAwaitRoom => 6
    case KRoomSignalled => 7
    case KRoomWoken => 7
    case KOwesPush => 3
    case KOwesPop => 3
    case KOwesDiscard => 0
  }

  lemma FuelMove(s: State<Msg>, t: Tid, pc: Pc<Msg>)
    requires t in s.pcs
    ensures Fuel(s.With(t, pc)) == Fuel(s) - Weight(KindOf(s.pcs[t])) + Weight(KindOf(pc))
  {
    hide State.At, State.Count;
    MoveCountsAll(s, t, pc);
  }

  lemma FuelIgnoresQueue(s: State<Msg>, r: State<Msg>)
    requires s.pcs == r.pcs
    ensures Fuel(s) == Fuel(r)
  {
    CountsIgnoreQueue(s, r);
  }

  lemma PushWork(s: State<Msg>, t: Tid, x: Msg)
    requires s.q.Ok() && t in s.pcs && Weight(KindOf(s.pcs[t])) == 7
    ensures 3 * |TryPush(s, t, x).q.Items()| + Fuel(TryPush(s, t, x)) < 3 * |s.q.Items()| + Fuel(s)
  {
    hide Fuel;
    if s.q.Full() {
      FuelMove(s, t, AwaitRoom(x));
    } else {
      PushKeepsNewest(s.q, x);
      FuelIgnoresQueue(s, s.(q := s.q.Push(x)));
      FuelMove(s.(q := s.q.Push(x)), t, OwesPushNotify);
    }
  }

  lemma PostWork(s: State<Msg>, t: Tid, x: Msg)
    requires s.q.Ok() && t in s.pcs && Weight(KindOf(s.pcs[t])) == 1
    ensures 3 * |TryPush(s, t, x).q.Items()| + Fuel(TryPush(s, t, x)) < 3 * |s.q.Items()| + Fuel(s) + 6
  {
    hide Fuel;
    if s.q.Full() {
      FuelMove(s, t, AwaitRoom(x));
    } else {
      PushKeepsNewest(s.q, x);
      FuelIgnoresQueue(s, s.(q := s.q.Push(x)));
      FuelMove(s.(q := s.q.Push(x)), t, OwesPushNotify);
    }
  }

  lemma PopWork(s: State<Msg>, t: Tid)
    requires s.q.Ok() && t in s.pcs && Weight(KindOf(s.pcs[t])) == 1
    ensures 3 * |TryPop(s, t, false, false).q.Items()| + Fuel(TryPop(s, t, false, false)) < 3 * |s.q.Items()| + Fuel(s)
  {
    hide Fuel;
    if s.q.Items() != [] {
      var m := s.(q := s.q.Pop(), taken := s.taken + [s.q.dropped]);
      FuelIgnoresQueue(s, m);
      FuelMove(m, t, OwesPopNotify);
    } else {
      FuelMove(s, t, AwaitItem(false));
    }
  }

  lemma NotifyWork(s: State<Msg>, a: Action<Msg>)
    requires s.q.Ok() && (a.NotifyPush? || a.NotifyPop?) && Enabled(s, a)
    ensures Fuel(Apply(s, a)) < Fuel(s)
  {
    hide Fuel;
    FuelMove(s, a.t, Idle);
    if a.waiter.Some? {
      var m := s.With(a.t, Idle);
      var w := a.waiter.value;
      if a.NotifyPush? {
        FuelMove(m, w, ItemSignalled(s.pcs[w].timed));
      } else {
        FuelMove(m, w, RoomSignalled(s.pcs[w].x));
      }
    }
  }

  /** Every move uses up work, except that waking for no reason adds one unit. */
  lemma WorkShrinks(p: Pool, m: Move)
    requires p.mp.q.Ok() && PoolInv(p) && Possible(p, m)
    ensures !ActionOf(m).SpuriousWake? ==> Work(Make(p, m)) < Work(p)
    ensures ActionOf(m).SpuriousWake? ==> Work(Make(p, m)) == Work(p) + 1
  {
    match m
    case Post => OwnerPosts(p);
    case Fetch(w) => WorkerFetches(p, w);
    case Inside(a) => InsideWork(p, a);
  }

  lemma OwnerPosts(p: Pool)
    requires p.mp.q.Ok() && Possible(p, Post)
    ensures Work(Make(p, Post)) < Work(p)
  {
    PostWork(p.mp, OWNER, Terminate);
  }

  lemma WorkerFetches(p: Pool, w: Tid)
    requires p.mp.q.Ok() && Possible(p, Fetch(w))
    ensures Work(Make(p, Fetch(w))) < Work(p)
  {
    hide Fuel, TryPop, Got;
    PopWork(p.mp, w);
  }

  lemma InsideWork(p: Pool, a: Action<Msg>)
    requires p.mp.q.Ok() && Places(p) && Possible(p, Inside(a))
    ensures !a.SpuriousWake? ==> Work(Make(p, Inside(a))) < Work(p)
    ensures a.SpuriousWake? ==> Work(Make(p, Inside(a))) == Work(p) + 1
  {
    if a.Resume? {
      ResumeWork(p, a.t);
    } else {
      HeldStays(p, a);
      if a.SpuriousWake? {
        SpuriousWork(p.mp, a.t);
      } else {
        NotifyWork(p.mp, a);
      }
    }
  }

  lemma ResumeWork(p: Pool, t: Tid)
    requires p.mp.q.Ok() && Places(p) && Possible(p, Inside(Resume(t)))
    ensures Work(Make(p, Inside(Resume(t)))) < Work(p)
  {
    ResumeMeans(p, t);
    if t == OWNER {
      PushWork(p.mp, OWNER, Terminate);
    } else {
      PopWork(p.mp, t);
    }
  }

  lemma SpuriousWork(s: State<Msg>, t: Tid)
    requires s.q.Ok() && Enabled(s, SpuriousWake(t))
    ensures Fuel(Apply(s, SpuriousWake(t))) == Fuel(s) + 1
  {
    hide Fuel;
    var woken := Apply(s, SpuriousWake(t)).pcs[t];
    assert Apply(s, SpuriousWake(t)) == s.With(t, woken);
    FuelMove(s, t, woken);
  }

  function SpuriousIn(moves: seq<Move>): nat {
    if moves == [] then 0
    else SpuriousIn(moves[..|moves| - 1]) +
         One(ActionOf(moves[|moves| - 1]).SpuriousWake?)
  }

  /** Termination of the destructor under every schedule: the number of moves that are not spurious
      wake-ups is bounded by the work at the start and the number of spurious wake-ups. */
  lemma {:induction false} DestructorIsShort(p0: Pool, moves: seq<Move>)
    requires Begin(p0) && ExecPool(p0, moves).Some?
    ensures |moves| - SpuriousIn(moves) + Work(ExecPool(p0, moves).value) <= Work(p0) + SpuriousIn(moves)
  {
    if moves != [] {
      var m := moves[|moves| - 1];
      DestructorIsShort(p0, moves[..|moves| - 1]);
      DestructorRun(p0, moves[..|moves| - 1]);
      WorkShrinks(ExecPool(p0, moves[..|moves| - 1]).value, m);
    }
  }

  /** The destructor finishes: with capacity, a run that has come to where only spurious wake-ups are
      possible has all workers out and the queue empty.  Runs do come there: `DestructorIsShort` bounds
      how many other moves there can be. */
  lemma DestructorFinishes(p0: Pool, moves: seq<Move>)
    requires Begin(p0) && p0.mp.q.capacity >= 1 && p0.Workers() != {}
    requires ExecPool(p0, moves).Some?
    requires var p := ExecPool(p0, moves).value; forall m :: Possible(p, m) ==> ActionOf(m).SpuriousWake?
    ensures var p := ExecPool(p0, moves).value; p.exited == p.Workers() && p.mp.q.Items() == [] && p.unposted == 0
    ensures |moves| <= Work(p0) + 2 * SpuriousIn(moves)
  {
    hide PoolInv, Since, Work, Possible, Inv, Make, ActionOf, Track.Items;
    DestructorRun(p0, moves);
    DestructorIsShort(p0, moves);
    StuckMeansOut(ExecPool(p0, moves).value);
    DrainedWhenAllExited(p0, moves);
  }

  lemma StuckMeansOut(p: Pool)
    requires p.mp.q.Ok() && Inv(p.mp) && PoolInv(p) && p.mp.q.capacity >= 1
    requires forall m :: Possible(p, m) ==> ActionOf(m).SpuriousWake?
    ensures p.exited == p.Workers()
  {
    hide PoolInv, Inv, Possible;
    if p.exited != p.Workers() {
      var m := SomeoneMoves(p);
      assert false;
    }
  }

  /** The destructor can be stuck only on a queue without capacity: there no worker ever exits,
      while with any capacity a state that cannot move has all its workers out. */
  lemma {:induction false} ZeroCapacityNeverExits(p0: Pool, moves: seq<Move>)
    requires Begin(p0) && p0.mp.q.capacity == 0 && ExecPool(p0, moves).Some?
    ensures ExecPool(p0, moves).value.exited == {}
  {
    if moves != [] {
      var before := moves[..|moves| - 1];
      ZeroCapacityNeverExits(p0, before);
      var p := ExecPool(p0, before).value;
      assert p.mp.q.Items() == [];
      DestructorRun(p0, before);
      NothingGot(p, moves[|moves| - 1]);
    }
  }

  lemma NothingGot(p: Pool, m: Move)
    requires p.mp.q.Ok() && PoolInv(p) && Possible(p, m) && p.mp.q.Items() == []
    ensures Make(p, m).exited == p.exited
  {
    hide PoolInv, Got, Held;
    NothingTaken(p, m);
    SameGot(p.mp, Apply(p.mp, ActionOf(m)));
  }

  lemma SameGot(s: State<Msg>, r: State<Msg>)
    requires r.taken == s.taken
    ensures Got(s, r) == None
  {
  }

  lemma NothingTaken(p: Pool, m: Move)
    requires p.mp.q.Ok() && PoolInv(p) && Possible(p, m) && p.mp.q.Items() == []
    ensures Apply(p.mp, ActionOf(m)).taken == p.mp.taken
  {
    hide PoolInv, Held;
    if m.Inside? && m.a.Resume? {
      InvPlaces(p);
      ResumeMeans(p, m.a.t);
    }
  }

  // ---------------------------------------------------------------- the class

  datatype OverflowPolicy = Block | OverrunOldest | DiscardNew

  /** How many messages one worker takes before it leaves its loop or runs out. */
  function Taken(items: seq<Msg>): (n: nat)
    ensures n <= |items|
    ensures forall i :: 0 <= i < n - 1 ==> items[i] != Terminate
    ensures Leaves(items) ==> n > 0 && items[n - 1] == Terminate
    ensures !Leaves(items) ==> n == |items|
  {
    if items == [] then 0 else if items[0] == Terminate then 1 else 1 + Taken(items[1..])
  }

  /** A worker leaves its loop exactly when a terminate message is there for it. */
  predicate Leaves(items: seq<Msg>) {
    Terminate in items
  }

  class ThreadPool {
    const q: MpmcBlockingQueue<Msg>
    /** The messages handed to the loggers' back ends, in order. */
    var handled: seq<Msg>

    ghost predicate Valid()
      reads this, q, q.q, q.q.v
    {
      q.Valid()
    }

    constructor (maxItems: nat, ghost callers: set<Tid>)
      ensures Valid() && fresh(q) && fresh(q.q) && fresh(q.q.v)
      ensures handled == [] && q.View() == Start<Msg>(maxItems, callers)
    {
      q := new MpmcBlockingQueue<Msg>(maxItems, callers);
      handled := [];
    }

    /** `post_async_msg_`: `accepted` is false when the caller sleeps (block) or the message was
        counted as discarded. */
    method PostAsyncMsg(t: Tid, m: Msg, policy: OverflowPolicy) returns (accepted: bool)
      requires Valid() && q.View().Is(t, KIdle)
      modifies q, q.q, q.q.v
      ensures Valid()
      ensures accepted <==> policy == OverrunOldest || !old(q.q.track).Full()
      ensures q.q.track == if accepted then old(q.q.track).Push(m) else old(q.q.track)
      ensures q.discardCounter == old(q.discardCounter) + One(policy == DiscardNew && !accepted)
      ensures q.View().Is(t, if policy == Block && !accepted then KAwaitRoom else KIdle)
    {
      if policy == Block {
        var done, _ := q.Enqueue(t, m);
        accepted := done;
      } else if policy == OverrunOldest {
        var _ := q.EnqueueNowait(t, m);
        accepted := true;
      } else {
        var pushed, _ := q.EnqueueIfHaveRoom(t, m);
        accepted := pushed;
      }
    }

    /** `process_next_msg_`: nothing when the worker sleeps, false when it has to stop. */
    method ProcessNextMsg(w: Tid) returns (active: Option<bool>)
      requires Valid() && q.View().Is(w, KIdle)
      modifies this, q, q.q, q.q.v
      ensures Valid()
      ensures var items := old(q.q.track).Items();
        if items == [] then
          active == None && handled == old(handled) && q.q.track == old(q.q.track) && q.View().Is(w, KAwaitItem)
        else
          && active == Some(items[0] != Terminate)
          && q.q.track.Items() == items[1..] && q.View().Is(w, KIdle)
          && handled == old(handled) + if items[0] == Terminate then [] else [items[0]]
    {
      var item, _ := q.Dequeue(w, false);
      match item
      case None => active := None;
      case Some(m) =>
        if m == Terminate {
          active := Some(false);
        } else {
          handled := handled + [m];
          active := Some(true);
        }
    }

    /** `worker_loop_`, run until it ends or the worker has to sleep: it handles the queued messages
        up to the first terminate, takes that terminate, and leaves the rest to other workers. */
    method WorkerLoop(w: Tid) returns (left: bool)
      requires Valid() && q.View().Is(w, KIdle)
      modifies this, q, q.q, q.q.v
      ensures Valid()
      ensures var items := old(q.q.track).Items();
        && left == Leaves(items)
        && q.q.track.Items() == items[Taken(items)..]
        && handled == old(handled) + items[..if left then Taken(items) - 1 else Taken(items)]
        && q.View().Is(w, if left then KIdle else KAwaitItem)
    {
      hide Taken, Leaves, State.Is, MpmcBlockingQueue.View, Slots, Step;
      ghost var items := q.q.track.Items();
      ghost var n := 0;
      while true
        invariant Valid() && q.View().Is(w, KIdle)
        invariant n <= |items| && q.q.track.Items() == items[n..]
        invariant handled == old(handled) + items[..n]
        invariant forall i :: 0 <= i < n ==> items[i] != Terminate
        decreases |items| - n
      {
        TakenAt(items, n);
        NextOf(items, n);
        var active := ProcessNextMsg(w);
        if active == None {
          return false;
        }
        if active == Some(false) {
          return true;
        }
        HandledMore(old(handled), items[..n], items[n]);
        n := n + 1;
      }
    }
  }

  lemma HandledMore(before: seq<Msg>, some: seq<Msg>, m: Msg)
    ensures before + some + [m] == before + (some + [m])
  {
  }

  lemma NextOf(items: seq<Msg>, n: nat)
    requires n <= |items|
    ensures n == |items| ==> items[n..] == [] && items[..n] == items
    ensures n < |items| ==> items[n..][0] == items[n] && items[n..][1..] == items[n + 1..] &&
                            items[..n + 1] == items[..n] + [items[n]]
  {
  }

  lemma {:induction false} TakenAt(items: seq<Msg>, n: nat)
    requires n <= |items| && forall i :: 0 <= i < n ==> items[i] != Terminate
    ensures n == |items| ==> Taken(items) == n && !Leaves(items)
    ensures n < |items| && items[n] == Terminate ==> Taken(items) == n + 1 && Leaves(items)
  {
    if n > 0 {
      TakenAt(items[1..], n - 1);
    }
  }
}
