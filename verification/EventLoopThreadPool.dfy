/** Round-robin assignment of connections to loops, src/EventLoopThreadPool.cpp. */
module EventLoopThreadPools {
  import opened Arithmetic
  import opened Options

  /** A loop, by identity. */
  type LoopId = nat

  /** The loop the `k`-th call (from 0) gets: the only loop there is, or the workers in turn. */
  function Turn(loops: seq<LoopId>, k: nat): (l: LoopId)
    requires loops != []
  {
    if |loops| == 1 then loops[0] else loops[1 + k % (|loops| - 1)]
  }

  /** How many of the first `k` calls get worker `w` of `n`. */
  function Share(k: nat, n: nat, w: nat): nat
    requires n > 0
  {
    if k == 0 then 0 else Share(k - 1, n, w) + if (k - 1) % n == w then 1 else 0
  }

  /** Fairness: after `k` calls every one of `n` workers has got the quotient of `k` by `n`, rounded
      down or up; the first `k % n` of them one more than the others. */
  lemma {:induction false} SharesAreEven(k: nat, n: nat, w: nat)
    requires w < n
    ensures Share(k, n, w) == k / n + if w < k % n then 1 else 0
  {
    if k == 0 {
      DivModUnique(0, n, 0, 0);
    } else {
      SharesAreEven(k - 1, n, w);
      NextRemainder(k - 1, n);
    }
  }

  /** The base loop gets no connection when there are workers. */
  lemma NeverTheBase(loops: seq<LoopId>, k: nat)
    requires |loops| > 1
    requires forall i, j :: 0 <= i < j < |loops| ==> loops[i] != loops[j]
    ensures Turn(loops, k) != loops[0]
  {
  }

  class EventLoopThreadPool {
    const baseLoop: LoopId
    var started: bool
    var next: nat
    var loops: seq<LoopId>
    /** Calls of `GetNextLoop` since the start. */
    ghost var calls: nat

    ghost predicate Valid()
      reads this
    {
      && (loops == [] <==> !started)
      && (loops != [] ==> loops[0] == baseLoop)
      && (|loops| <= 1 ==> next == 0)
      && (|loops| > 1 ==> next < |loops| && (if next == 0 then 1 else next) == 1 + calls % (|loops| - 1))
    }

    constructor (baseLoop: LoopId)
      ensures Valid() && loops == [] && this.baseLoop == baseLoop && calls == 0
    {
      this.baseLoop := baseLoop;
      started := false;
      next := 0;
      loops := [];
      calls := 0;
    }

    /** The server calls this once.  `spawned` are the loops the new threads report back, one for each thread asked for. */
    method Start(spawned: seq<LoopId>)
      requires Valid() && !started
      modifies this
      ensures Valid() && started
      ensures loops == [baseLoop] + spawned && calls == 0
    {
      started := true;
      loops := [baseLoop];
      for i := 0 to |spawned|
        invariant loops == [baseLoop] + spawned[..i] && started && next == old(next)
      {
        loops := loops + [spawned[i]];
      }
      calls := 0;
    }

    /** Nothing before the start; afterwards the loops in turn. */
    method GetNextLoop() returns (loop: Option<LoopId>)
      requires Valid()
      modifies this
      ensures Valid() && loops == old(loops) && started == old(started)
      ensures loops == [] ==> loop == None && calls == old(calls)
      ensures loops != [] ==> loop == Some(Turn(loops, old(calls))) && calls == old(calls) + 1
    {
      if |loops| == 1 {
        calls := calls + 1;
        return Some(baseLoop);
      }
      loop := None;
      if loops != [] {
        if next == 0 {
          next := 1;
        }
        loop := Some(loops[next]);
        NextRemainder(calls, |loops| - 1);
        next := next + 1;
        WrapAtEnd(next, |loops|);
        next := next % |loops|;
        calls := calls + 1;
      }
    }
  }

  lemma WrapAtEnd(i: nat, n: nat)
    requires 0 < n && i <= n
    ensures i % n == if i == n then 0 else i
  {
    if i == n {
      DivModUnique(i, n, 1, 0);
    } else {
      DivModUnique(i, n, 0, i);
    }
  }
}
