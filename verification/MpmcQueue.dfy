/** The multi-producer multi-consumer blocking queue of
    src/include/spdlog/details/mpmc_blocking_q.h.

    The protocol is a machine over atomic steps: one critical section, one `notify_one`, or one
    wake-up.  Which thread moves, which waiter a notification reaches, when a wait times out and
    when it wakes for no reason are all free, so a statement about every run is a statement about
    every schedule. */
module MpmcQueues {
  import opened Options
  import opened CircularQueues

  type Tid = nat

  /** Where a thread stands.  `push_cv` is waited on for items, `pop_cv` for room. */
  datatype Pc<T> =
    | Idle
    | AwaitItem(timed: bool)              // asleep on push_cv, not notified
    | ItemSignalled(timed: bool)          // notified on push_cv, has not got the lock back
    | ItemWoken(timed: bool, expired: bool) // woken by time-out or for no reason
    | AwaitRoom(x: T)                     // asleep on pop_cv, not notified
    | RoomSignalled(x: T)
    | RoomWoken(x: T)
    | OwesPushNotify                      // pushed and unlocked, push_cv not yet notified
    | OwesPopNotify                       // popped and unlocked, pop_cv not yet notified
    | OwesDiscardCount                    // found the queue full, counter not yet bumped

  datatype Kind = KIdle | KAwaitItem | KItemSignalled | KItemWoken | KAwaitRoom | KRoomSignalled
    | KRoomWoken | KOwesPush | KOwesPop | KOwesDiscard

  function KindOf<T>(pc: Pc<T>): Kind {
    match pc
    case Idle => KIdle
    case AwaitItem(_) => KAwaitItem
    case ItemSignalled(_) => KItemSignalled
    case ItemWoken(_, _) => KItemWoken
    case AwaitRoom(_) => KAwaitRoom
    case RoomSignalled(_) => KRoomSignalled
    case RoomWoken(_) => KRoomWoken
    case OwesPushNotify => KOwesPush
    case OwesPopNotify => KOwesPop
    case OwesDiscardCount => KOwesDiscard
  }

  /** `taken` lists, in order, the positions in the push sequence of the items dequeued. */
  datatype State<!T> = State(q: Track<T>, pcs: map<Tid, Pc<T>>, taken: seq<nat>, discarded: nat) {
    ghost predicate Is(t: Tid, k: Kind) {
      t in pcs && KindOf(pcs[t]) == k
    }

    ghost function At(k: Kind): set<Tid> {
      set t | t in pcs && KindOf(pcs[t]) == k
    }

    ghost function Others(t: Tid, k: Kind): set<Tid> {
      set u | u in pcs && u != t && KindOf(pcs[u]) == k
    }

    ghost function Count(k: Kind): nat {
      |At(k)|
    }

    function With(t: Tid, pc: Pc<T>): State<T> {
      this.(pcs := pcs[t := pc])
    }
  }

  datatype Action<T> =
    | Enqueue(t: Tid, x: T)
    | EnqueueNowait(t: Tid, x: T)
    | EnqueueIfHaveRoom(t: Tid, x: T)
    | Dequeue(t: Tid, timed: bool)
    | Resume(t: Tid)                       // a woken thread gets the lock back
    | NotifyPush(t: Tid, waiter: Option<Tid>)
    | NotifyPop(t: Tid, waiter: Option<Tid>)
    | CountDiscard(t: Tid)
    | SpuriousWake(t: Tid)
    | TimeOut(t: Tid)

  /** `notify_one` reaches one thread asleep on the variable, if there is one. */
  ghost predicate Reaches<T>(s: State<T>, waiter: Option<Tid>, k: Kind) {
    match waiter
    case None => s.At(k) == {}
    case Some(w) => s.Is(w, k)
  }

  ghost predicate Enabled<T>(s: State<T>, a: Action<T>)
    requires s.q.Ok()
  {
    match a
    case Enqueue(t, _) => s.Is(t, KIdle)
    case EnqueueNowait(t, _) => s.Is(t, KIdle)
    case EnqueueIfHaveRoom(t, _) => s.Is(t, KIdle)
    case Dequeue(t, _) => s.Is(t, KIdle)
    case Resume(t) =>
      s.Is(t, KItemSignalled) || s.Is(t, KItemWoken) || s.Is(t, KRoomSignalled) || s.Is(t, KRoomWoken)
    case NotifyPush(t, w) => s.Is(t, KOwesPush) && Reaches(s, w, KAwaitItem)
    case NotifyPop(t, w) => s.Is(t, KOwesPop) && Reaches(s, w, KAwaitRoom)
    case CountDiscard(t) => s.Is(t, KOwesDiscard)
    case SpuriousWake(t) => s.Is(t, KAwaitItem) || s.Is(t, KAwaitRoom)
    case TimeOut(t) => s.Is(t, KAwaitItem) && s.pcs[t].timed
  }

  /** The section of `enqueue` under the lock: push if there is room, else sleep. */
  function TryPush<T>(s: State<T>, t: Tid, x: T): (r: State<T>)
    requires s.q.Ok()
    ensures r.q.Ok()
  {
    if s.q.Full() then s.With(t, AwaitRoom(x))
    else s.(q := s.q.Push(x)).With(t, OwesPushNotify)
  }

  /** The section of `dequeue` and `dequeue_for` under the lock: pop if there is an item, give up
      if the time is over, else sleep. */
  function TryPop<T>(s: State<T>, t: Tid, timed: bool, expired: bool): (r: State<T>)
    requires s.q.Ok()
    ensures r.q.Ok()
  {
    if s.q.Items() != [] then
      s.(q := s.q.Pop(), taken := s.taken + [s.q.dropped]).With(t, OwesPopNotify)
    else if expired then s.With(t, Idle)
    else s.With(t, AwaitItem(timed))
  }

  ghost function Apply<T>(s: State<T>, a: Action<T>): (r: State<T>)
    requires s.q.Ok() && Enabled(s, a)
    ensures r.q.Ok() && r.q.capacity == s.q.capacity && r.pcs.Keys == s.pcs.Keys
  {
    match a
    case Enqueue(t, x) => TryPush(s, t, x)
    case EnqueueNowait(t, x) => s.(q := s.q.Push(x)).With(t, OwesPushNotify)
    case EnqueueIfHaveRoom(t, x) =>
      if s.q.Full() then s.With(t, OwesDiscardCount)
      else s.(q := s.q.Push(x)).With(t, OwesPushNotify)
    case Dequeue(t, timed) => TryPop(s, t, timed, false)
    case Resume(t) =>
      (match s.pcs[t]
       case ItemSignalled(timed) => TryPop(s, t, timed, false)
       case ItemWoken(timed, expired) => TryPop(s, t, timed, expired)
       case RoomSignalled(x) => TryPush(s, t, x)
       case RoomWoken(x) => TryPush(s, t, x))
    case NotifyPush(t, None) => s.With(t, Idle)
    case NotifyPush(t, Some(w)) => s.With(t, Idle).With(w, ItemSignalled(s.pcs[w].timed))
    case NotifyPop(t, None) => s.With(t, Idle)
    case NotifyPop(t, Some(w)) => s.With(t, Idle).With(w, RoomSignalled(s.pcs[w].x))
    case CountDiscard(t) => s.(discarded := s.discarded + 1).With(t, Idle)
    case SpuriousWake(t) =>
      (match s.pcs[t]
       case AwaitItem(timed) => s.With(t, ItemWoken(timed, false))
       case AwaitRoom(x) => s.With(t, RoomWoken(x)))
    case TimeOut(t) => s.With(t, ItemWoken(true, true))
  }

  // ---------------------------------------------------------------- runs

  ghost function Start<T>(capacity: nat, threads: set<Tid>): (s: State<T>)
    ensures s.q.Ok()
  {
    State(Track(capacity, [], 0, 0), map t | t in threads :: Idle, [], 0)
  }

  /** The state after a run, or nothing if some action was not possible when its turn came. */
  ghost function Exec<T>(s: State<T>, acts: seq<Action<T>>): (r: Option<State<T>>)
    requires s.q.Ok()
    ensures r.Some? ==> r.value.q.Ok() && r.value.q.capacity == s.q.capacity && r.value.pcs.Keys == s.pcs.Keys
  {
    if acts == [] then Some(s)
    else
      var before := Exec(s, acts[..|acts| - 1]);
      if before.Some? && Enabled(before.value, acts[|acts| - 1])
      then Some(Apply(before.value, acts[|acts| - 1])) else None
  }

  // ---------------------------------------------------------------- no sleeper is stranded

  /** While a consumer sleeps un-notified, every item in the queue is spoken for: by a consumer that
      has been notified and not yet resumed, or by a producer about to notify. */
  ghost predicate ItemsCovered<T>(s: State<T>)
    requires s.q.Ok()
  {
    s.Count(KAwaitItem) > 0 ==> |s.q.Items()| <= s.Count(KItemSignalled) + s.Count(KOwesPush)
  }

  /** The dual: while a producer sleeps un-notified, so is every free slot. */
  ghost predicate RoomCovered<T>(s: State<T>)
    requires s.q.Ok()
  {
    s.Count(KAwaitRoom) > 0 ==>
      s.q.capacity - |s.q.Items()| <= s.Count(KRoomSignalled) + s.Count(KOwesPop)
  }

  /** Dequeued positions are strictly increasing and lie among the items that left the front. */
  ghost predicate TakenInOrder<T>(s: State<T>) {
    && |s.taken| == s.q.popped
    && (forall i :: 0 <= i < |s.taken| ==> s.taken[i] < s.q.dropped)
    && (forall i, j :: 0 <= i < j < |s.taken| ==> s.taken[i] < s.taken[j])
  }

  ghost predicate Inv<T>(s: State<T>)
    requires s.q.Ok()
  {
    ItemsCovered(s) && RoomCovered(s) && TakenInOrder(s)
  }

  function One(b: bool): nat {
    if b then 1 else 0
  }

  /** Moving one thread changes the counts of its old and its new place only. */
  lemma MoveCounts<T>(s: State<T>, t: Tid, pc: Pc<T>, k: Kind)
    requires t in s.pcs
    ensures s.With(t, pc).Count(k) ==
      s.Count(k) - One(KindOf(s.pcs[t]) == k) + One(KindOf(pc) == k)
  {
    SplitCount(s, t, k);
    SplitCount(s.With(t, pc), t, k);
    assert s.Others(t, k) == s.With(t, pc).Others(t, k);
  }

  lemma SplitCount<T>(s: State<T>, t: Tid, k: Kind)
    requires t in s.pcs
    ensures s.Count(k) == |s.Others(t, k)| + One(KindOf(s.pcs[t]) == k)
  {
    AtSplits(s, t, k);
    SizeWith(s.Others(t, k), t, KindOf(s.pcs[t]) == k);
  }

  lemma AtSplits<T>(s: State<T>, t: Tid, k: Kind)
    requires t in s.pcs
    ensures s.At(k) == s.Others(t, k) + Only(t, KindOf(s.pcs[t]) == k)
  {
    hide KindOf;
  }

  ghost function Only(t: Tid, b: bool): set<Tid> {
    if b then {t} else {}
  }

  lemma SizeWith(others: set<Tid>, t: Tid, b: bool)
    requires t !in others
    ensures |others + Only(t, b)| == |others| + One(b)
  {
    if !b {
      assert others + Only(t, b) == others;
    }
  }

  lemma MoveCountsAll<T>(s: State<T>, t: Tid, pc: Pc<T>)
    requires t in s.pcs
    ensures forall k {:trigger s.With(t, pc).Count(k)} :: (
      s.With(t, pc).Count(k) == s.Count(k) - One(KindOf(s.pcs[t]) == k) + One(KindOf(pc) == k))
  {
    forall k ensures s.With(t, pc).Count(k) ==
      s.Count(k) - One(KindOf(s.pcs[t]) == k) + One(KindOf(pc) == k)
    {
      MoveCounts(s, t, pc, k);
    }
  }

  lemma CountsIgnoreQueue<T>(s: State<T>, r: State<T>)
    requires s.pcs == r.pcs
    ensures forall k :: s.Count(k) == r.Count(k)
  {
    assert forall k :: s.At(k) == r.At(k);
  }

  lemma InCount<T>(s: State<T>, t: Tid, k: Kind)
    requires s.Is(t, k)
    ensures s.Count(k) >= 1
  {
    assert s.At(k) == (s.At(k) - {t}) + {t};
  }

  lemma PushStep<T>(s: State<T>, t: Tid, x: T)
    requires s.q.Ok() && Inv(s) && t in s.pcs
    requires s.Is(t, KIdle) || ((s.Is(t, KRoomSignalled) || s.Is(t, KRoomWoken)) && !s.q.Full())
    ensures Inv(s.(q := s.q.Push(x)).With(t, OwesPushNotify))
  {
    hide State.At;
    var m := s.(q := s.q.Push(x));
    CountsIgnoreQueue(s, m);
    MoveCountsAll(m, t, OwesPushNotify);
    PushKeepsNewest(s.q, x);
  }

  lemma TryPushStep<T>(s: State<T>, t: Tid, x: T)
    requires s.q.Ok() && Inv(s) && t in s.pcs
    requires s.Is(t, KIdle) || s.Is(t, KRoomSignalled) || s.Is(t, KRoomWoken)
    ensures Inv(TryPush(s, t, x))
  {
    if s.q.Full() {
      MoveCountsAll(s, t, AwaitRoom(x));
    } else {
      PushStep(s, t, x);
    }
  }

  lemma TryPopStep<T>(s: State<T>, t: Tid, timed: bool, expired: bool)
    requires s.q.Ok() && Inv(s) && t in s.pcs
    requires s.Is(t, KIdle) || s.Is(t, KItemSignalled) || s.Is(t, KItemWoken)
    ensures Inv(TryPop(s, t, timed, expired))
  {
    hide State.At;
    if s.q.Items() != [] {
      var m := s.(q := s.q.Pop(), taken := s.taken + [s.q.dropped]);
      CountsIgnoreQueue(s, m);
      MoveCountsAll(m, t, OwesPopNotify);
    } else if expired {
      MoveCountsAll(s, t, Idle);
    } else {
      MoveCountsAll(s, t, AwaitItem(timed));
    }
  }

  lemma NotifyPushStep<T>(s: State<T>, t: Tid, waiter: Option<Tid>)
    requires s.q.Ok() && Inv(s) && Enabled(s, NotifyPush(t, waiter))
    ensures Inv(Apply(s, NotifyPush(t, waiter)))
  {
    hide State.At;
    MoveCountsAll(s, t, Idle);
    if waiter.Some? {
      MoveCountsAll(s.With(t, Idle), waiter.value, ItemSignalled(s.pcs[waiter.value].timed));
      InCount(s, waiter.value, KAwaitItem);
    }
  }

  lemma NotifyPopStep<T>(s: State<T>, t: Tid, waiter: Option<Tid>)
    requires s.q.Ok() && Inv(s) && Enabled(s, NotifyPop(t, waiter))
    ensures Inv(Apply(s, NotifyPop(t, waiter)))
  {
    hide State.At;
    MoveCountsAll(s, t, Idle);
    if waiter.Some? {
      MoveCountsAll(s.With(t, Idle), waiter.value, RoomSignalled(s.pcs[waiter.value].x));
      InCount(s, waiter.value, KAwaitRoom);
    }
  }

  lemma ResumeStep<T>(s: State<T>, t: Tid)
    requires s.q.Ok() && Inv(s) && Enabled(s, Resume(t))
    ensures Inv(Apply(s, Resume(t)))
  {
    match s.pcs[t]
    case ItemSignalled(timed) => TryPopStep(s, t, timed, false);
    case ItemWoken(timed, expired) => TryPopStep(s, t, timed, expired);
    case RoomSignalled(x) => TryPushStep(s, t, x);
    case RoomWoken(x) => TryPushStep(s, t, x);
  }

  lemma SpuriousStep<T>(s: State<T>, t: Tid)
    requires s.q.Ok() && Inv(s) && Enabled(s, SpuriousWake(t))
    ensures Inv(Apply(s, SpuriousWake(t)))
  {
    hide State.At;
    match s.pcs[t]
    case AwaitItem(timed) => MoveCountsAll(s, t, ItemWoken(timed, false));
    case AwaitRoom(x) => MoveCountsAll(s, t, RoomWoken(x));
  }

  lemma IfHaveRoomStep<T>(s: State<T>, t: Tid, x: T)
    requires s.q.Ok() && Inv(s) && Enabled(s, EnqueueIfHaveRoom(t, x))
    ensures Inv(Apply(s, EnqueueIfHaveRoom(t, x)))
  {
    if s.q.Full() {
      MoveCountsAll(s, t, OwesDiscardCount);
    } else {
      PushStep(s, t, x);
    }
  }

  lemma DiscardStep<T>(s: State<T>, t: Tid)
    requires s.q.Ok() && Inv(s) && Enabled(s, CountDiscard(t))
    ensures Inv(Apply(s, CountDiscard(t)))
  {
    hide State.At;
    CountsIgnoreQueue(s, s.(discarded := s.discarded + 1));
    MoveCountsAll(s.(discarded := s.discarded + 1), t, Idle);
  }

  lemma TimeOutStep<T>(s: State<T>, t: Tid)
    requires s.q.Ok() && Inv(s) && Enabled(s, TimeOut(t))
    ensures Inv(Apply(s, TimeOut(t)))
  {
    MoveCountsAll(s, t, ItemWoken(true, true));
  }

  lemma InvStep<T>(s: State<T>, a: Action<T>)
    requires s.q.Ok() && Inv(s) && Enabled(s, a)
    ensures Inv(Apply(s, a))
  {
    match a
    case Enqueue(t, x) => TryPushStep(s, t, x);
    case EnqueueNowait(t, x) => PushStep(s, t, x);
    case EnqueueIfHaveRoom(t, x) => IfHaveRoomStep(s, t, x);
    case Dequeue(t, timed) => TryPopStep(s, t, timed, false);
    case Resume(t) => ResumeStep(s, t);
    case NotifyPush(t, w) => NotifyPushStep(s, t, w);
    case NotifyPop(t, w) => NotifyPopStep(s, t, w);
    case CountDiscard(t) => DiscardStep(s, t);
    case SpuriousWake(t) => SpuriousStep(s, t);
    case TimeOut(t) => TimeOutStep(s, t);
  }

  lemma StartInv<T>(capacity: nat, threads: set<Tid>)
    ensures Inv(Start<T>(capacity, threads))
  {
    var s := Start<T>(capacity, threads);
    assert s.At(KAwaitItem) == {} && s.At(KAwaitRoom) == {};
  }

  lemma {:induction false} InvRun<T>(s: State<T>, acts: seq<Action<T>>)
    requires s.q.Ok() && Inv(s) && Exec(s, acts).Some?
    ensures Inv(Exec(s, acts).value)
  {
    if acts != [] {
      InvRun(s, acts[..|acts| - 1]);
      InvStep(Exec(s, acts[..|acts| - 1]).value, acts[|acts| - 1]);
    }
  }

  /** Safety over every run, from an empty queue and idle threads. */
  lemma NeverStrands<T>(capacity: nat, threads: set<Tid>, acts: seq<Action<T>>)
    requires Exec(Start<T>(capacity, threads), acts).Some?
    ensures var s := Exec(Start<T>(capacity, threads), acts).value;
      ItemsCovered(s) && RoomCovered(s)
  {
    StartInv<T>(capacity, threads);
    InvRun(Start<T>(capacity, threads), acts);
  }

  /** No thread can move except by waking for no reason, timing out, or calling in afresh. */
  ghost predicate Quiet<T>(s: State<T>) {
    forall k | k in {KItemSignalled, KItemWoken, KRoomSignalled, KRoomWoken, KOwesPush, KOwesPop, KOwesDiscard} ::
      s.At(k) == {}
  }

  /** In a quiet state a sleeping consumer means an empty queue and a sleeping producer a full one;
      both can be asleep together only on a queue without capacity. */
  lemma QuietSleepersAreRight<T>(s: State<T>)
    requires s.q.Ok() && Inv(s) && Quiet(s)
    ensures s.At(KAwaitItem) != {} ==> s.q.Items() == []
    ensures s.At(KAwaitRoom) != {} ==> s.q.Full()
    ensures s.At(KAwaitItem) != {} && s.At(KAwaitRoom) != {} ==> s.q.capacity == 0
  {
    assert s.At(KItemSignalled) == {} && s.At(KOwesPush) == {};
    assert s.At(KRoomSignalled) == {} && s.At(KOwesPop) == {};
  }

  /** Capacity zero does lock up: a blocking producer and a consumer both sleep for good. */
  lemma ZeroCapacityLocksUp<T>(x: T) returns (acts: seq<Action<T>>)
    ensures Exec(Start<T>(0, {0, 1}), acts).Some?
    ensures var s := Exec(Start<T>(0, {0, 1}), acts).value;
      Quiet(s) && s.At(KAwaitItem) == {1} && s.At(KAwaitRoom) == {0}
  {
    var s := Start<T>(0, {0, 1});
    var s1 := s.With(0, AwaitRoom(x));
    var s2 := s1.With(1, AwaitItem(false));
    var one := ExecNext(s, [], Enqueue(0, x), s);
    acts := ExecNext(s, one, Dequeue(1, false), s1);
    TwoSleepers(s2, x);
  }

  lemma TwoSleepers<T>(s: State<T>, x: T)
    requires s.pcs == map[0 := AwaitRoom(x), 1 := AwaitItem(false)]
    ensures Quiet(s) && s.At(KAwaitItem) == {1} && s.At(KAwaitRoom) == {0}
  {
    assert KindOf(s.pcs[0]) == KAwaitRoom && KindOf(s.pcs[1]) == KAwaitItem;
  }

  lemma ExecNext<T>(s: State<T>, acts: seq<Action<T>>, a: Action<T>, m: State<T>) returns (more: seq<Action<T>>)
    requires s.q.Ok() && Exec(s, acts) == Some(m) && Enabled(m, a)
    ensures more == acts + [a] && Exec(s, more) == Some(Apply(m, a))
  {
    more := acts + [a];
    assert more[..|more| - 1] == acts;
  }

  /** Exactly once and in order: the items dequeued so far sit at increasing positions of the push
      sequence, everything pushed was dequeued, is queued, or was overrun, and when nothing was
      overrun what was dequeued is a prefix of what was pushed. */
  lemma DeliveredOnceInOrder<T>(capacity: nat, threads: set<Tid>, acts: seq<Action<T>>)
    requires Exec(Start<T>(capacity, threads), acts).Some?
    ensures var s := Exec(Start<T>(capacity, threads), acts).value;
      && TakenInOrder(s)
      && |s.q.pushed| == |s.taken| + |s.q.Items()| + s.q.Overruns()
      && (s.q.Overruns() == 0 ==> s.taken == seq(|s.taken|, i => i))
  {
    StartInv<T>(capacity, threads);
    InvRun(Start<T>(capacity, threads), acts);
    var s := Exec(Start<T>(capacity, threads), acts).value;
    if s.q.Overruns() == 0 {
      IncreasingBelow(s.taken, s.q.dropped);
    }
  }

  // ---------------------------------------------------------------- a run, told from its actions

  /** The message with which thread `t` last came to the queue. */
  function HandedBy<T>(acts: seq<Action<T>>, t: Tid): Option<T> {
    if acts == [] then None
    else
      match acts[|acts| - 1]
      case Enqueue(u, x) => if u == t then Some(x) else HandedBy(acts[..|acts| - 1], t)
      case EnqueueNowait(u, x) => if u == t then Some(x) else HandedBy(acts[..|acts| - 1], t)
      case EnqueueIfHaveRoom(u, x) => if u == t then Some(x) else HandedBy(acts[..|acts| - 1], t)
      case _ => HandedBy(acts[..|acts| - 1], t)
  }

  /** Whether thread `t` last came for an item with a time limit. */
  predicate Timed<T>(acts: seq<Action<T>>, t: Tid) {
    acts != [] &&
    match acts[|acts| - 1]
    case Dequeue(u, timed) => if u == t then timed else Timed(acts[..|acts| - 1], t)
    case _ => Timed(acts[..|acts| - 1], t)
  }

  /** Its time has run out since it last moved. */
  predicate OutOfTime<T>(acts: seq<Action<T>>, t: Tid) {
    acts != [] &&
    if acts[|acts| - 1].t == t then acts[|acts| - 1].TimeOut? else OutOfTime(acts[..|acts| - 1], t)
  }

  /** How many messages have been brought to the queue. */
  function Handed<T>(acts: seq<Action<T>>): nat {
    if acts == [] then 0
    else
      var a := acts[|acts| - 1];
      Handed(acts[..|acts| - 1]) + One(a.Enqueue? || a.EnqueueNowait? || a.EnqueueIfHaveRoom?)
  }

  /** What a waiting or woken thread waits with is what it came with. */
  predicate PcTold<T(==)>(acts: seq<Action<T>>, t: Tid, pc: Pc<T>) {
    match pc
    case AwaitItem(timed) => timed == Timed(acts, t)
    case ItemSignalled(timed) => timed == Timed(acts, t)
    case ItemWoken(timed, expired) => timed == Timed(acts, t) && expired == OutOfTime(acts, t)
    case AwaitRoom(x) => Some(x) == HandedBy(acts, t)
    case RoomSignalled(x) => Some(x) == HandedBy(acts, t)
    case RoomWoken(x) => Some(x) == HandedBy(acts, t)
    case _ => true
  }

  ghost predicate ThreadsTold<T>(acts: seq<Action<T>>, s: State<T>) {
    forall t :: t in s.pcs ==> PcTold(acts, t, s.pcs[t])
  }

  lemma ThreadsStep<T>(acts: seq<Action<T>>, s: State<T>)
    requires acts != [] && s.q.Ok() && Enabled(s, acts[|acts| - 1]) && ThreadsTold(acts[..|acts| - 1], s)
    ensures ThreadsTold(acts, Apply(s, acts[|acts| - 1]))
  {
    hide PcTold, Enabled;
    var r := Apply(s, acts[|acts| - 1]);
    forall t | t in r.pcs
      ensures PcTold(acts, t, r.pcs[t])
    {
      assert PcTold(acts[..|acts| - 1], t, s.pcs[t]);
      PcStep(acts, s, t);
    }
  }

  lemma PcStep<T>(acts: seq<Action<T>>, s: State<T>, t: Tid)
    requires acts != [] && s.q.Ok() && Enabled(s, acts[|acts| - 1])
    requires t in s.pcs && PcTold(acts[..|acts| - 1], t, s.pcs[t])
    ensures PcTold(acts, t, Apply(s, acts[|acts| - 1]).pcs[t])
  {
    hide Track.Push, Track.Pop, Track.Items, Track.Full;
    if acts[|acts| - 1].t != t {
      OthersSayNothing(acts, t);
      OthersMove(s, acts[|acts| - 1], t);
    }
  }

  lemma OthersSayNothing<T>(acts: seq<Action<T>>, t: Tid)
    requires acts != [] && acts[|acts| - 1].t != t
    ensures var before := acts[..|acts| - 1];
      HandedBy(acts, t) == HandedBy(before, t) && Timed(acts, t) == Timed(before, t) &&
      OutOfTime(acts, t) == OutOfTime(before, t)
  {
  }

  /** What a step of another thread does to a thread: nothing, or it notifies it. */
  lemma OthersMove<T>(s: State<T>, a: Action<T>, t: Tid)
    requires s.q.Ok() && Enabled(s, a) && t in s.pcs && a.t != t
    ensures var pc, now := s.pcs[t], Apply(s, a).pcs[t];
      now == pc || (pc.AwaitItem? && now == ItemSignalled(pc.timed)) || (pc.AwaitRoom? && now == RoomSignalled(pc.x))
  {
  }

  lemma {:induction false} ThreadsAreTold<T>(capacity: nat, threads: set<Tid>, acts: seq<Action<T>>)
    requires Exec(Start<T>(capacity, threads), acts).Some?
    ensures ThreadsTold(acts, Exec(Start<T>(capacity, threads), acts).value)
  {
    if acts != [] {
      ThreadsAreTold(capacity, threads, acts[..|acts| - 1]);
      ThreadsStep(acts, Exec(Start<T>(capacity, threads), acts[..|acts| - 1]).value);
    }
  }

  /** What becomes of a woken thread, in every reachable state.  A consumer takes the oldest item if there is
      one; with none it returns empty-handed exactly when its time has run out, and else sleeps on as it came.
      A producer pushes the message it came with if there is room, and else sleeps on with it. */
  lemma WokenThreadsGoOn<T>(capacity: nat, threads: set<Tid>, acts: seq<Action<T>>, t: Tid)
    requires Exec(Start<T>(capacity, threads), acts).Some?
    requires Enabled(Exec(Start<T>(capacity, threads), acts).value, Resume(t))
    ensures var s := Exec(Start<T>(capacity, threads), acts).value;
      var r := Apply(s, Resume(t));
      if s.Is(t, KItemSignalled) || s.Is(t, KItemWoken) then
        if s.q.Items() != [] then r.pcs[t] == OwesPopNotify && r.q.Items() == s.q.Items()[1..]
        else r.q == s.q && r.pcs[t] == if s.Is(t, KItemWoken) && OutOfTime(acts, t) then Idle else AwaitItem(Timed(acts, t))
      else
        HandedBy(acts, t).Some? &&
        if s.q.Full() then r.q == s.q && r.pcs[t] == AwaitRoom(HandedBy(acts, t).value)
        else r.pcs[t] == OwesPushNotify && r.q.Items() == s.q.Items() + [HandedBy(acts, t).value]
  {
    ThreadsAreTold(capacity, threads, acts);
    var s := Exec(Start<T>(capacity, threads), acts).value;
    assert PcTold(acts, t, s.pcs[t]);
    if HandedBy(acts, t).Some? {
      PushKeepsNewest(s.q, HandedBy(acts, t).value);
    }
  }

  /** Producers that wait with a message, or are about to count one as discarded. */
  ghost function Waiting<T>(s: State<T>): nat {
    s.Count(KAwaitRoom) + s.Count(KRoomSignalled) + s.Count(KRoomWoken) + s.Count(KOwesDiscard)
  }

  function Holding(k: Kind): nat {
    One(k == KAwaitRoom || k == KRoomSignalled || k == KRoomWoken || k == KOwesDiscard)
  }

  lemma WaitingMove<T>(s: State<T>, t: Tid, pc: Pc<T>)
    requires t in s.pcs
    ensures Waiting(s.With(t, pc)) == Waiting(s) - Holding(KindOf(s.pcs[t])) + Holding(KindOf(pc))
  {
    hide State.At, State.Count;
    MoveCountsAll(s, t, pc);
  }

  lemma WaitingIgnoresQueue<T>(s: State<T>, r: State<T>)
    requires s.pcs == r.pcs
    ensures Waiting(s) == Waiting(r)
  {
    CountsIgnoreQueue(s, r);
  }

  /** Messages pushed, waiting and discarded. */
  ghost function Known<T>(s: State<T>): nat {
    |s.q.pushed| + Waiting(s) + s.discarded
  }

  lemma PushKnown<T>(s: State<T>, t: Tid, x: T)
    requires s.q.Ok() && t in s.pcs
    ensures var r := s.(q := s.q.Push(x)).With(t, OwesPushNotify); Known(r) == Known(s) + 1 - Holding(KindOf(s.pcs[t]))
  {
    hide Waiting;
    WaitingIgnoresQueue(s, s.(q := s.q.Push(x)));
    WaitingMove(s.(q := s.q.Push(x)), t, OwesPushNotify);
  }

  lemma TryPushKnown<T>(s: State<T>, t: Tid, x: T)
    requires s.q.Ok() && t in s.pcs
    ensures Known(TryPush(s, t, x)) == Known(s) + 1 - Holding(KindOf(s.pcs[t]))
  {
    hide Waiting;
    if s.q.Full() {
      WaitingMove(s, t, AwaitRoom(x));
    } else {
      PushKnown(s, t, x);
    }
  }

  lemma TryPopKnown<T>(s: State<T>, t: Tid, timed: bool, expired: bool)
    requires s.q.Ok() && t in s.pcs && Holding(KindOf(s.pcs[t])) == 0
    ensures Known(TryPop(s, t, timed, expired)) == Known(s)
  {
    hide Waiting;
    if s.q.Items() != [] {
      var m := s.(q := s.q.Pop(), taken := s.taken + [s.q.dropped]);
      WaitingIgnoresQueue(s, m);
      WaitingMove(m, t, OwesPopNotify);
    } else {
      WaitingMove(s, t, Idle);
      WaitingMove(s, t, AwaitItem(timed));
    }
  }

  lemma NotifyKnown<T>(s: State<T>, t: Tid, w: Option<Tid>, pc: Pc<T>)
    requires t in s.pcs && Holding(KindOf(s.pcs[t])) == 0
    requires w.Some? ==> w.value in s.pcs && w.value != t && Holding(KindOf(s.pcs[w.value])) == Holding(KindOf(pc))
    ensures Known(s.With(t, Idle)) == Known(s)
    ensures w.Some? ==> Known(s.With(t, Idle).With(w.value, pc)) == Known(s)
  {
    hide Waiting;
    WaitingMove(s, t, Idle);
    if w.Some? {
      WaitingMove(s.With(t, Idle), w.value, pc);
    }
  }

  lemma KnownStep<T>(s: State<T>, a: Action<T>)
    requires s.q.Ok() && Enabled(s, a)
    ensures Known(Apply(s, a)) == Known(s) + One(a.Enqueue? || a.EnqueueNowait? || a.EnqueueIfHaveRoom?)
  {
    hide Known, TryPush, TryPop;
    match a
    case Enqueue(t, x) => TryPushKnown(s, t, x);
    case EnqueueNowait(t, x) => PushKnown(s, t, x);
    case EnqueueIfHaveRoom(t, x) =>
      PushKnown(s, t, x);
      MoveKnown(s, t, OwesDiscardCount);
    case Dequeue(t, timed) => TryPopKnown(s, t, timed, false);
    case Resume(t) =>
      match s.pcs[t] {
        case ItemSignalled(timed) => TryPopKnown(s, t, timed, false);
        case ItemWoken(timed, expired) => TryPopKnown(s, t, timed, expired);
        case RoomSignalled(x) => TryPushKnown(s, t, x);
        case RoomWoken(x) => TryPushKnown(s, t, x);
      }
    case NotifyPush(t, w) => NotifyKnown(s, t, w, if w.Some? then ItemSignalled(s.pcs[w.value].timed) else Idle);
    case NotifyPop(t, w) =>
      if w.Some? {
        NotifyKnown(s, t, w, RoomSignalled(s.pcs[w.value].x));
      } else {
        NotifyKnown(s, t, w, Idle);
      }
    case CountDiscard(t) => DiscardKnown(s, t);
    case SpuriousWake(t) =>
      match s.pcs[t] {
        case AwaitItem(timed) => MoveKnown(s, t, ItemWoken(timed, false));
        case AwaitRoom(x) => MoveKnown(s, t, RoomWoken(x));
      }
    case TimeOut(t) => MoveKnown(s, t, ItemWoken(true, true));
  }

  lemma MoveKnown<T>(s: State<T>, t: Tid, pc: Pc<T>)
    requires t in s.pcs
    ensures Known(s.With(t, pc)) == Known(s) - Holding(KindOf(s.pcs[t])) + Holding(KindOf(pc))
  {
    hide Waiting;
    WaitingMove(s, t, pc);
  }

  lemma DiscardKnown<T>(s: State<T>, t: Tid)
    requires s.Is(t, KOwesDiscard)
    ensures Known(s.(discarded := s.discarded + 1).With(t, Idle)) == Known(s)
  {
    hide Waiting;
    WaitingIgnoresQueue(s, s.(discarded := s.discarded + 1));
    WaitingMove(s.(discarded := s.discarded + 1), t, Idle);
  }

  lemma {:induction false} KnownRun<T>(s: State<T>, acts: seq<Action<T>>)
    requires s.q.Ok() && Exec(s, acts).Some?
    ensures Known(Exec(s, acts).value) == Known(s) + Handed(acts)
  {
    hide Known;
    if acts != [] {
      KnownRun(s, acts[..|acts| - 1]);
      KnownStep(Exec(s, acts[..|acts| - 1]).value, acts[|acts| - 1]);
    }
  }

  /** Conservation over every schedule: each message ever brought to the queue has been pushed, waits with
      its producer for room, or has been or is about to be counted as discarded; and each message pushed was
      dequeued, is queued, or was overrun. */
  lemma EveryMessageIsKnown<T>(capacity: nat, threads: set<Tid>, acts: seq<Action<T>>)
    requires Exec(Start<T>(capacity, threads), acts).Some?
    ensures var s := Exec(Start<T>(capacity, threads), acts).value;
      && Handed(acts) == |s.q.pushed| + Waiting(s) + s.discarded
      && |s.q.pushed| == |s.taken| + |s.q.Items()| + s.q.Overruns()
  {
    var s := Start<T>(capacity, threads);
    KnownRun(s, acts);
    assert s.At(KAwaitRoom) == {} && s.At(KRoomSignalled) == {} && s.At(KRoomWoken) == {} && s.At(KOwesDiscard) == {};
    DeliveredOnceInOrder(capacity, threads, acts);
  }

  /** Strictly increasing naturals below their own number are 0, 1, 2, ... */
  lemma {:induction false} IncreasingBelow(a: seq<nat>, n: nat)
    requires |a| == n
    requires forall i :: 0 <= i < |a| ==> a[i] < n
    requires forall i, j :: 0 <= i < j < |a| ==> a[i] < a[j]
    ensures a == seq(|a|, i => i)
  {
    if n > 0 {
      var b := a[..n - 1];
      AtLeastIndex(a, n - 1);
      IncreasingBelow(b, n - 1);
      assert a == b + [a[n - 1]];
    }
  }

  lemma {:induction false} AtLeastIndex(a: seq<nat>, i: nat)
    requires i < |a|
    requires forall i, j :: 0 <= i < j < |a| ==> a[i] < a[j]
    ensures a[i] >= i
  {
    if i > 0 {
      AtLeastIndex(a, i - 1);
    }
  }
}
