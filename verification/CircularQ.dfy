/** The ring of src/include/spdlog/details/circular_q.h: a fixed array with a head and a tail index,
    one slot kept free so that a full ring and an empty one look different.

    The ring is specified by a `Track`: every item pushed so far, and how many of them have left
    from the front (popped or overrun).  The contents are always what is left of that sequence. */
module CircularQueues {
  import opened Arithmetic

  /** `dropped` counts every item that left the front, `popped` those that left by `pop_front`. */
  datatype Track<!T> = Track(capacity: nat, pushed: seq<T>, dropped: nat, popped: nat) {
    predicate Ok() {
      popped <= dropped <= |pushed| && |pushed| - dropped <= capacity
    }

    function Items(): (s: seq<T>)
      requires Ok()
      ensures |s| <= capacity
    {
      pushed[dropped..]
    }

    function Overruns(): nat
      requires Ok()
    {
      dropped - popped
    }

    predicate Full()
      requires Ok()
    {
      |Items()| == capacity
    }

    function Push(x: T): (t: Track<T>)
      requires Ok()
      ensures t.Ok()
    {
      this.(pushed := pushed + [x], dropped := if Full() then dropped + 1 else dropped)
    }

    function Pop(): (t: Track<T>)
      requires Ok() && Items() != []
      ensures t.Ok()
    {
      this.(dropped := dropped + 1, popped := popped + 1)
    }
  }

  /** The items after a push are the last `capacity` of the old items and the new one. */
  lemma PushKeepsNewest<T>(t: Track<T>, x: T)
    requires t.Ok()
    ensures var all := t.Items() + [x];
      t.Push(x).Items() == all[if |all| > t.capacity then |all| - t.capacity else 0..]
    ensures t.Push(x).Overruns() == t.Overruns() + if t.Full() then 1 else 0
    ensures t.Push(x).capacity == t.capacity
  {
    assert t.Push(x).pushed[t.dropped..] == t.Items() + [x];
  }

  lemma PopTakesOldest<T>(t: Track<T>)
    requires t.Ok() && t.Items() != []
    ensures t.Items() == [t.Items()[0]] + t.Pop().Items()
    ensures t.Pop().Overruns() == t.Overruns()
  {
  }

  // ---------------------------------------------------------------- runs

  datatype Op<T> = PushBack(x: T) | PopFront

  /** The runs the ring allows: nothing is popped from an empty ring. */
  ghost predicate Allowed<T>(capacity: nat, ops: seq<Op<T>>)
    decreases |ops|, 0
  {
    ops == [] ||
    (Allowed(capacity, ops[..|ops| - 1]) &&
     (ops[|ops| - 1].PopFront? ==> After(capacity, ops[..|ops| - 1]).Items() != []))
  }

  ghost function After<T>(capacity: nat, ops: seq<Op<T>>): (t: Track<T>)
    requires Allowed(capacity, ops)
    ensures t.Ok() && t.capacity == capacity
    decreases |ops|, 1
  {
    if ops == [] then Track(capacity, [], 0, 0)
    else
      var before := After(capacity, ops[..|ops| - 1]);
      match ops[|ops| - 1]
      case PushBack(x) => before.Push(x)
      case PopFront => before.Pop()
  }

  ghost function PushesOf<T>(ops: seq<Op<T>>): seq<T> {
    if ops == [] then []
    else PushesOf(ops[..|ops| - 1]) + match ops[|ops| - 1] case PushBack(x) => [x] case PopFront => []
  }

  ghost function PopCount<T>(ops: seq<Op<T>>): nat {
    if ops == [] then 0
    else PopCount(ops[..|ops| - 1]) + if ops[|ops| - 1].PopFront? then 1 else 0
  }

  /** Over every run: pushes = pops + size + overruns, and the contents are exactly the last items
      pushed, in order, that have not left. */
  lemma {:induction false} Conservation<T>(capacity: nat, ops: seq<Op<T>>)
    requires Allowed(capacity, ops)
    ensures var t := After(capacity, ops);
      && |PushesOf(ops)| == PopCount(ops) + |t.Items()| + t.Overruns()
      && t.Items() == PushesOf(ops)[|PushesOf(ops)| - |t.Items()|..]
      && |t.Items()| <= capacity
  {
    if ops != [] {
      Conservation(capacity, ops[..|ops| - 1]);
      RunHistory(capacity, ops);
    }
  }

  lemma {:induction false} RunHistory<T>(capacity: nat, ops: seq<Op<T>>)
    requires Allowed(capacity, ops)
    ensures After(capacity, ops).pushed == PushesOf(ops)
    ensures After(capacity, ops).popped == PopCount(ops)
  {
    if ops != [] {
      RunHistory(capacity, ops[..|ops| - 1]);
    }
  }

  // ---------------------------------------------------------------- the class

  class CircularQ<T(0)> {
    const maxItems: nat
    var head: nat
    var tail: nat
    var overrunCounter: nat
    const v: array<T>

    /** What went through the ring since it was made. */
    ghost var track: Track<T>

    ghost predicate Valid()
      reads this, v
    {
      && track.Ok()
      && v.Length == maxItems
      && track.capacity == (if maxItems > 0 then maxItems - 1 else 0)
      && (maxItems == 0 ==> head == tail == 0 && track.pushed == [])
      && (maxItems > 0 ==> Ring(v[..], head, tail, track.Items()))
      && overrunCounter == track.Overruns()
    }

    /** A queue of `n` items reserves one slot more. */
    constructor (n: nat)
      ensures Valid() && fresh(v)
      ensures maxItems == n + 1 && track == Track(n, [], 0, 0) && overrunCounter == 0
    {
      maxItems := n + 1;
      v := new T[n + 1];
      head := 0;
      tail := 0;
      overrunCounter := 0;
      track := Track(n, [], 0, 0);
    }

    /** The disabled queue: no slots, every push is ignored. */
    constructor Disabled()
      ensures Valid() && fresh(v)
      ensures maxItems == 0 && track == Track(0, [], 0, 0)
    {
      maxItems := 0;
      v := new T[0];
      head := 0;
      tail := 0;
      overrunCounter := 0;
      track := Track(0, [], 0, 0);
    }

    method PushBack(item: T)
      requires Valid()
      modifies this, v
      ensures Valid()
      ensures track == if maxItems > 0 then old(track).Push(item) else old(track)
    {
      hide Ring, Track.Push, Track.Full;
      if maxItems > 0 {
        RingPush(v[..], head, tail, track.Items(), item);
        v[tail] := item;
        tail := (tail + 1) % maxItems;
        PushKeepsNewest(track, item);
        FullMeans(track);
        track := track.Push(item);
        if tail == head {
          head := (head + 1) % maxItems;
          overrunCounter := overrunCounter + 1;
        }
      }
    }

    function Size(): (n: nat)
      reads this, v
      requires Valid()
      ensures n == |track.Items()|
    {
      if tail >= head then tail - head else maxItems - (head - tail)
    }

    function At(i: nat): (x: T)
      reads this, v
      requires Valid() && i < Size()
      ensures x == track.Items()[i]
    {
      StepIsMod(head, i, maxItems);
      assert v[..][Step(head, i, maxItems)] == track.Items()[i];
      v[(head + i) % maxItems]
    }

    function Front(): (x: T)
      reads this, v
      requires Valid() && !Empty()
      ensures x == track.Items()[0]
    {
      assert v[..][Step(head, 0, maxItems)] == track.Items()[0];
      v[head]
    }

    predicate Empty()
      reads this, v
      requires Valid()
      ensures Empty() <==> track.Items() == []
    {
      tail == head
    }

    /** A disabled queue is empty and yet never full. */
    predicate Full()
      reads this, v
      requires Valid()
      ensures Full() <==> maxItems > 0 && track.Full()
    {
      if maxItems > 0 then StepIsMod(tail, 1, maxItems); (tail + 1) % maxItems == head else false
    }

    method PopFront()
      requires Valid() && !Empty()
      modifies this
      ensures Valid()
      ensures track == old(track).Pop()
    {
      StepIsMod(head, 1, maxItems);
      PopTakesOldest(track);
      SlotsDrop(v[..], head, track.Items());
      head := (head + 1) % maxItems;
      track := track.Pop();
    }
  }

  // ---------------------------------------------------------------- arithmetic

  /** Where `i` steps from `base` lead in a ring of `n`, for at most one lap. */
  function Step(base: nat, i: nat, n: nat): (r: nat)
    requires base < n && i <= n
    ensures r < n
  {
    if base + i < n then base + i else base + i - n
  }

  /** From `head` on, around the end of the array, the slots hold the items in order. */
  ghost predicate Slots<T>(v: seq<T>, head: nat, items: seq<T>)
    requires head < |v| && |items| <= |v|
  {
    forall i :: 0 <= i < |items| ==> v[Step(head, i, |v|)] == items[i]
  }

  /** The array with its two indices holds the items, with one slot at least to spare. */
  ghost predicate Ring<T>(v: seq<T>, head: nat, tail: nat, items: seq<T>) {
    head < |v| && |items| < |v| && tail == Step(head, |items|, |v|) && Slots(v, head, items)
  }

  /** Storing at the tail: the tail runs into the head exactly when the ring was full, and moving the
      head on then drops the oldest item. */
  lemma RingPush<T>(v: seq<T>, head: nat, tail: nat, items: seq<T>, x: T)
    requires Ring(v, head, tail, items)
    ensures head < |v| && tail < |v|
    ensures var next := (tail + 1) % |v|;
      && (next == head <==> |items| == |v| - 1)
      && (next != head ==> Ring(v[tail := x], head, next, items + [x]))
      && (next == head ==> Ring(v[tail := x], (head + 1) % |v|, next, (items + [x])[1..]))
  {
    hide Slots;
    Steps(head, |items|, |v|);
    StepIsMod(tail, 1, |v|);
    StepIsMod(head, 1, |v|);
    SlotsAppend(v, head, items, x);
    SlotsDrop(v[tail := x], head, items + [x]);
  }

  lemma FullMeans<T>(t: Track<T>)
    requires t.Ok()
    ensures t.Full() <==> |t.Items()| == t.capacity
  {
  }

  lemma SlotsAppend<T>(v: seq<T>, head: nat, items: seq<T>, x: T)
    requires head < |v| && |items| < |v| && Slots(v, head, items)
    ensures Slots(v[Step(head, |items|, |v|) := x], head, items + [x])
  {
  }

  lemma SlotsDrop<T>(v: seq<T>, head: nat, items: seq<T>)
    requires head < |v| && 0 < |items| <= |v| && Slots(v, head, items)
    ensures Slots(v, Step(head, 1, |v|), items[1..])
  {
    var next := Step(head, 1, |v|);
    forall i | 0 <= i < |items| - 1
      ensures v[Step(next, i, |v|)] == items[i + 1]
    {
      assert Step(next, i, |v|) == Step(head, i + 1, |v|);
    }
  }

  /** One step more, at either end, and when a walk comes home. */
  lemma Steps(base: nat, i: nat, n: nat)
    requires base < n && i < n
    ensures Step(Step(base, i, n), 1, n) == Step(base, i + 1, n) == Step(Step(base, 1, n), i, n)
    ensures Step(base, i + 1, n) == base <==> i + 1 == n
  {
  }

  lemma StepIsMod(base: nat, i: nat, n: nat)
    requires base < n && i <= n
    ensures (base + i) % n == Step(base, i, n)
  {
    if base + i < n {
      DivModUnique(base + i, n, 0, base + i);
    } else {
      DivModUnique(base + i, n, 1, base + i - n);
    }
  }
}
