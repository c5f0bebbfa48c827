/** The queue class of src/include/spdlog/details/mpmc_blocking_q.h over the real ring.

    Each method is what one call does between two points where the operating system may switch
    threads for good: it runs until it returns or until the calling thread goes to sleep, and its
    contract is a run of the machine in `MpmcQueues`.  `threads` is the operating system's view of
    who waits where. */
module MpmcBlockingQueues {
  import opened Options
  import opened CircularQueues
  import opened MpmcQueues

  class MpmcBlockingQueue<T(0)> {
    const q: CircularQ<T>
    var discardCounter: nat
    ghost var threads: map<Tid, Pc<T>>
    ghost var taken: seq<nat>

    ghost predicate Valid()
      reads this, q, q.v
    {
      q.Valid() && q.maxItems > 0
    }

    ghost function View(): (s: State<T>)
      reads this, q, q.v
      requires Valid()
      ensures s.q.Ok()
    {
      State(q.track, threads, taken, discardCounter)
    }

    constructor (maxItems: nat, ghost callers: set<Tid>)
      ensures Valid() && fresh(q) && fresh(q.v)
      ensures View() == Start<T>(maxItems, callers)
    {
      q := new CircularQ<T>(maxItems);
      discardCounter := 0;
      threads := map t | t in callers :: Idle;
      taken := [];
    }

    /** `notify_one` on `push_cv`: one sleeping consumer, if any, becomes runnable. */
    ghost method NotifyPushCv(t: Tid) returns (w: Option<Tid>)
      requires Valid() && View().Is(t, KOwesPush)
      modifies this`threads
      ensures Valid()
      ensures Enabled(old(View()), NotifyPush(t, w)) && View() == Apply(old(View()), NotifyPush(t, w))
    {
      w := if View().At(KAwaitItem) == {} then None else var u :| u in View().At(KAwaitItem); Some(u);
      threads := Apply(View(), NotifyPush(t, w)).pcs;
    }

    ghost method NotifyPopCv(t: Tid) returns (w: Option<Tid>)
      requires Valid() && View().Is(t, KOwesPop)
      modifies this`threads
      ensures Valid()
      ensures Enabled(old(View()), NotifyPop(t, w)) && View() == Apply(old(View()), NotifyPop(t, w))
    {
      w := if View().At(KAwaitRoom) == {} then None else var u :| u in View().At(KAwaitRoom); Some(u);
      threads := Apply(View(), NotifyPop(t, w)).pcs;
    }

    /** The locked part of `enqueue`, entered afresh or after a wake-up on `pop_cv`. */
    method WaitForRoomAndPush(t: Tid, x: T) returns (done: bool, ghost w: Option<Tid>)
      requires Valid() && t in threads
      modifies this, q, q.v
      ensures Valid()
      ensures done <==> !old(q.Full())
      ensures var mid := TryPush(old(View()), t, x);
        if done then Enabled(mid, NotifyPush(t, w)) && View() == Apply(mid, NotifyPush(t, w))
        else View() == mid
    {
      w := None;
      if q.Full() {
        threads := threads[t := AwaitRoom(x)];
        done := false;
      } else {
        q.PushBack(x);
        threads := threads[t := OwesPushNotify];
        w := NotifyPushCv(t);
        done := true;
      }
    }

    /** `enqueue`: blocks the caller when there is no room. */
    method Enqueue(t: Tid, x: T) returns (done: bool, ghost w: Option<Tid>)
      requires Valid() && View().Is(t, KIdle)
      modifies this, q, q.v
      ensures Valid()
      ensures done <==> !old(q.Full())
      ensures var mid := Apply(old(View()), MpmcQueues.Enqueue(t, x));
        if done then Enabled(mid, NotifyPush(t, w)) && View() == Apply(mid, NotifyPush(t, w))
        else View() == mid
    {
      done, w := WaitForRoomAndPush(t, x);
    }

    /** `enqueue_nowait`: always pushes, overrunning the oldest item of a full queue. */
    method EnqueueNowait(t: Tid, x: T) returns (ghost w: Option<Tid>)
      requires Valid() && View().Is(t, KIdle)
      modifies this, q, q.v
      ensures Valid()
      ensures var mid := Apply(old(View()), MpmcQueues.EnqueueNowait(t, x));
        Enabled(mid, NotifyPush(t, w)) && View() == Apply(mid, NotifyPush(t, w))
    {
      q.PushBack(x);
      threads := threads[t := OwesPushNotify];
      w := NotifyPushCv(t);
    }

    /** `enqueue_if_have_room`: a full queue only bumps the discard counter. */
    method EnqueueIfHaveRoom(t: Tid, x: T) returns (pushed: bool, ghost w: Option<Tid>)
      requires Valid() && View().Is(t, KIdle)
      modifies this, q, q.v
      ensures Valid()
      ensures pushed <==> !old(q.Full())
      ensures var mid := Apply(old(View()), MpmcQueues.EnqueueIfHaveRoom(t, x));
        if pushed then Enabled(mid, NotifyPush(t, w)) && View() == Apply(mid, NotifyPush(t, w))
        else Enabled(mid, CountDiscard(t)) && View() == Apply(mid, CountDiscard(t))
    {
      pushed := false;
      w := None;
      if !q.Full() {
        q.PushBack(x);
        pushed := true;
      }
      threads := threads[t := if pushed then OwesPushNotify else OwesDiscardCount];
      if pushed {
        w := NotifyPushCv(t);
      } else {
        discardCounter := discardCounter + 1;
        threads := threads[t := Idle];
      }
    }

    /** The locked part of `dequeue` and `dequeue_for`. */
    method WaitForItemAndPop(t: Tid, timed: bool, expired: bool)
      returns (item: Option<T>, ghost w: Option<Tid>)
      requires Valid() && t in threads
      modifies this, q, q.v
      ensures Valid()
      ensures item == if old(q.track).Items() == [] then None else Some(old(q.track).Items()[0])
      ensures var mid := TryPop(old(View()), t, timed, expired);
        if item.Some? then Enabled(mid, NotifyPop(t, w)) && View() == Apply(mid, NotifyPop(t, w))
        else View() == mid
    {
      w := None;
      if !q.Empty() {
        item := Some(q.Front());
        taken := taken + [q.track.dropped];
        q.PopFront();
        threads := threads[t := OwesPopNotify];
        w := NotifyPopCv(t);
      } else {
        item := None;
        threads := threads[t := if expired then Idle else AwaitItem(timed)];
      }
    }

    /** `dequeue` and `dequeue_for`: no item means that the caller sleeps. */
    method Dequeue(t: Tid, timed: bool) returns (item: Option<T>, ghost w: Option<Tid>)
      requires Valid() && View().Is(t, KIdle)
      modifies this, q, q.v
      ensures Valid()
      ensures item == if old(q.track).Items() == [] then None else Some(old(q.track).Items()[0])
      ensures var mid := Apply(old(View()), MpmcQueues.Dequeue(t, timed));
        if item.Some? then Enabled(mid, NotifyPop(t, w)) && View() == Apply(mid, NotifyPop(t, w))
        else View() == mid
    {
      item, w := WaitForItemAndPop(t, timed, false);
    }

    /** A producer that was woken looks again. */
    method ResumeProducer(t: Tid, x: T) returns (done: bool, ghost w: Option<Tid>)
      requires Valid() && t in threads && (threads[t] == RoomSignalled(x) || threads[t] == RoomWoken(x))
      modifies this, q, q.v
      ensures Valid()
      ensures done <==> !old(q.Full())
      ensures var mid := Apply(old(View()), Resume(t));
        if done then Enabled(mid, NotifyPush(t, w)) && View() == Apply(mid, NotifyPush(t, w))
        else View() == mid
    {
      done, w := WaitForRoomAndPush(t, x);
    }

    /** A consumer that was woken looks again. */
    method ResumeConsumer(t: Tid, timed: bool, expired: bool) returns (item: Option<T>, ghost w: Option<Tid>)
      requires Valid() && t in threads
      requires threads[t] == ItemWoken(timed, expired) || (threads[t] == ItemSignalled(timed) && !expired)
      modifies this, q, q.v
      ensures Valid()
      ensures item == if old(q.track).Items() == [] then None else Some(old(q.track).Items()[0])
      ensures var mid := Apply(old(View()), Resume(t));
        if item.Some? then Enabled(mid, NotifyPop(t, w)) && View() == Apply(mid, NotifyPop(t, w))
        else View() == mid
    {
      item, w := WaitForItemAndPop(t, timed, expired);
    }

    function Size(): (n: nat)
      reads this, q, q.v
      requires Valid()
      ensures n == |View().q.Items()|
    {
      q.Size()
    }
  }
}
