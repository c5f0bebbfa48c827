/** Channels and the epoll poller: src/Channel.cpp, src/EpollPoller.cpp, src/Poller.cpp.

    Three places record whether a descriptor is watched: the channel's index, the poller's map, and
    the kernel's interest table.  `Registration` is what the three say about one descriptor. */
module Pollers {
  import opened Options

  /** The only interests a channel ever has: its read events, its write event. */
  datatype Interest = Interest(reading: bool, writing: bool) {
    predicate IsNone() {
      !reading && !writing
    }
  }

  const NO_INTEREST := Interest(false, false)

  datatype Index = New | Added | Deleted

  /** `refused` counts the `epoll_ctl` calls the kernel has rejected. */
  datatype Registration = Registration(interest: Interest, index: Index, inMap: bool,
                                       kernel: Option<Interest>, refused: nat) {

    // What the kernel makes of EPOLL_CTL_ADD, EPOLL_CTL_MOD and EPOLL_CTL_DEL.

    function CtlAdd(): Registration {
      if kernel.Some? then this.(refused := refused + 1) else this.(kernel := Some(interest))
    }

    function CtlMod(): Registration {
      if kernel.None? then this.(refused := refused + 1) else this.(kernel := Some(interest))
    }

    function CtlDel(): Registration {
      if kernel.None? then this.(refused := refused + 1) else this.(kernel := None)
    }

    /** `EpollPoller::updateChannel`. */
    function Update(): Registration {
      if index == New then this.(inMap := true, index := Added).CtlAdd()
      else if index == Deleted then this.(index := Added).CtlAdd()
      else if interest.IsNone() then this.CtlDel().(index := Deleted)
      else this.CtlMod()
    }

    /** `EpollPoller::removeChannel`. */
    function Remove(): Registration {
      var r := this.(inMap := false);
      (if index == Added then r.CtlDel() else r).(index := New)
    }

    function EnableReading(): Registration {
      this.(interest := interest.(reading := true)).Update()
    }

    function DisableReading(): Registration {
      this.(interest := interest.(reading := false)).Update()
    }

    function EnableWriting(): Registration {
      this.(interest := interest.(writing := true)).Update()
    }

    function DisableWriting(): Registration {
      this.(interest := interest.(writing := false)).Update()
    }

    function DisableAll(): Registration {
      this.(interest := NO_INTEREST).Update()
    }

    /** The kernel has an entry, with exactly the channel's interest, just when the index says added;
        the map has one just when the index is not new; a deleted channel wants nothing. */
    predicate Agrees() {
      && kernel == (if index == Added then Some(interest) else None)
      && (inMap <==> index != New)
      && (index == Deleted ==> interest.IsNone())
    }

    /** Agreement except that the interest may just have changed. */
    predicate Tracks() {
      (kernel.Some? <==> index == Added) && (inMap <==> index != New)
    }
  }

  lemma UpdateAgrees(r: Registration)
    ensures r.Tracks() ==> r.Update().Agrees() && r.Update().refused == r.refused
    ensures r.Agrees() ==> r.Remove().Agrees() && r.Remove().refused == r.refused
  {
  }

  const UNREGISTERED := Registration(NO_INTEREST, New, false, None, 0)

  datatype Op = EnableReading | DisableReading | EnableWriting | DisableWriting | DisableAll | Remove

  function Do(r: Registration, op: Op): Registration {
    match op
    case EnableReading => r.EnableReading()
    case DisableReading => r.DisableReading()
    case EnableWriting => r.EnableWriting()
    case DisableWriting => r.DisableWriting()
    case DisableAll => r.DisableAll()
    case Remove => r.Remove()
  }

  function Run(r: Registration, ops: seq<Op>): Registration {
    if ops == [] then r else Do(Run(r, ops[..|ops| - 1]), ops[|ops| - 1])
  }

  /** Any sequence of calls keeps the three records in agreement, and the kernel never rejects one:
      no ADD of a present descriptor, no MOD or DEL of an absent one. */
  lemma {:induction false} PollerAgreement(r: Registration, ops: seq<Op>)
    requires r.Agrees()
    ensures Run(r, ops).Agrees() && Run(r, ops).refused == r.refused
  {
    if ops != [] {
      PollerAgreement(r, ops[..|ops| - 1]);
      var before := Run(r, ops[..|ops| - 1]);
      assert before.Tracks();
    }
  }

  /** What the calls asked for: each interest as the last call about it left it. */
  function Wanted(ops: seq<Op>): Interest {
    if ops == [] then NO_INTEREST else Asked(Wanted(ops[..|ops| - 1]), ops[|ops| - 1])
  }

  function Asked(w: Interest, op: Op): Interest {
    match op
    case EnableReading => w.(reading := true)
    case DisableReading => w.(reading := false)
    case EnableWriting => w.(writing := true)
    case DisableWriting => w.(writing := false)
    case DisableAll => NO_INTEREST
    case Remove => w
  }

  lemma DoAsked(r: Registration, op: Op)
    requires r.Agrees()
    ensures var z := Do(r, op);
      && z.interest == Asked(r.interest, op)
      && (op != Remove && !z.interest.IsNone() ==> z.index == Added)
      && (op == Remove ==> z.kernel == None && !z.inMap)
  {
  }

  /** Whatever the kernel watches for after a run on a new channel is what the calls asked for, and a
      wanted event is watched unless the last call was a removal. */
  lemma {:induction false} KernelWatchesWanted(ops: seq<Op>)
    ensures var r := Run(UNREGISTERED, ops);
      && r.interest == Wanted(ops)
      && (r.kernel.Some? ==> r.kernel.value == Wanted(ops))
      && (ops != [] && ops[|ops| - 1] != Remove && !Wanted(ops).IsNone() ==> r.kernel == Some(Wanted(ops)))
      && (ops != [] && ops[|ops| - 1] == Remove ==> r.kernel == None && !r.inMap)
  {
    hide Do, Asked;
    PollerAgreement(UNREGISTERED, ops);
    if ops != [] {
      KernelWatchesWanted(ops[..|ops| - 1]);
      PollerAgreement(UNREGISTERED, ops[..|ops| - 1]);
      DoAsked(Run(UNREGISTERED, ops[..|ops| - 1]), ops[|ops| - 1]);
    }
  }

  /** Dropping all interest takes a channel out of the kernel table only if it was in: on a channel
      that is not added the same call puts it in, with an empty mask. */
  lemma DisableAllUnregistersIffAdded(r: Registration)
    requires r.Agrees()
    ensures r.DisableAll().kernel == None <==> r.index == Added
    ensures r.DisableAll().kernel == if r.index == Added then None else Some(NO_INTEREST)
  {
  }

  // ---------------------------------------------------------------- the classes

  const EPOLLIN: bv32 := 0x001
  const EPOLLPRI: bv32 := 0x002
  const EPOLLOUT: bv32 := 0x004

  const NONE_EVENT: bv32 := 0
  const READ_EVENT: bv32 := EPOLLIN | EPOLLPRI
  const WRITE_EVENT: bv32 := EPOLLOUT

  const K_NEW := -1
  const K_ADDED := 1
  const K_DELETED := 2

  predicate IsMask(m: bv32) {
    m == NONE_EVENT || m == READ_EVENT || m == WRITE_EVENT || m == READ_EVENT | WRITE_EVENT
  }

  function InterestOf(m: bv32): Interest {
    Interest(m & READ_EVENT != 0, m & WRITE_EVENT != 0)
  }

  function MaskOf(i: Interest): (m: bv32)
    ensures IsMask(m) && InterestOf(m) == i
  {
    (if i.reading then READ_EVENT else 0) | (if i.writing then WRITE_EVENT else 0)
  }

  /** The bit operations of `enable*` and `disable*` do to a mask what their names say. */
  lemma MaskOperations(m: bv32)
    requires IsMask(m)
    ensures m == MaskOf(InterestOf(m))
    ensures m | READ_EVENT == MaskOf(InterestOf(m).(reading := true))
    ensures m & !READ_EVENT == MaskOf(InterestOf(m).(reading := false))
    ensures m | WRITE_EVENT == MaskOf(InterestOf(m).(writing := true))
    ensures m & !WRITE_EVENT == MaskOf(InterestOf(m).(writing := false))
    ensures InterestOf(m).IsNone() <==> m == NONE_EVENT
  {
  }

  predicate IsIndex(i: int) {
    i == K_NEW || i == K_ADDED || i == K_DELETED
  }

  function IndexOf(i: int): Index {
    if i == K_NEW then New else if i == K_ADDED then Added else Deleted
  }

  class Channel {
    const poller: EpollPoller
    const fd: nat
    var events: bv32
    var revents: bv32
    var index: int

    /** A new channel for a descriptor no other channel of the poller has. */
    constructor (poller: EpollPoller, fd: nat)
      requires poller.Valid() && forall c :: c in poller.known ==> c.fd != fd
      modifies poller`known
      ensures this.poller == poller && this.fd == fd && revents == 0
      ensures poller.known == old(poller.known) + {this} && poller.Valid()
      ensures poller.View(this) == UNREGISTERED.(refused := poller.refused)
    {
      this.poller := poller;
      this.fd := fd;
      events := NONE_EVENT;
      revents := 0;
      index := K_NEW;
      new;
      poller.known := poller.known + {this};
    }

    predicate IsNoneEvent()
      reads this
    {
      events == NONE_EVENT
    }

    predicate IsWriting()
      reads this
      ensures IsWriting() <==> InterestOf(events).writing
    {
      events & WRITE_EVENT != 0
    }

    method EnableReading()
      requires poller.Valid() && this in poller.known
      modifies this`events, this`index, poller`channels, poller`kernel, poller`refused
      ensures poller.Valid() && poller.refused == old(poller.refused)
      ensures poller.View(this) == old(poller.View(this)).EnableReading()
      ensures forall c :: c in poller.known && c != this ==> poller.View(c) == old(poller.View(c))
    {
      MaskOperations(events);
      events := events | READ_EVENT;
      poller.UpdateChannel(this);
    }

    method DisableReading()
      requires poller.Valid() && this in poller.known
      modifies this`events, this`index, poller`channels, poller`kernel, poller`refused
      ensures poller.Valid() && poller.refused == old(poller.refused)
      ensures poller.View(this) == old(poller.View(this)).DisableReading()
      ensures forall c :: c in poller.known && c != this ==> poller.View(c) == old(poller.View(c))
    {
      MaskOperations(events);
      events := events & !READ_EVENT;
      poller.UpdateChannel(this);
    }

    method EnableWriting()
      requires poller.Valid() && this in poller.known
      modifies this`events, this`index, poller`channels, poller`kernel, poller`refused
      ensures poller.Valid() && poller.refused == old(poller.refused)
      ensures poller.View(this) == old(poller.View(this)).EnableWriting()
      ensures forall c :: c in poller.known && c != this ==> poller.View(c) == old(poller.View(c))
    {
      MaskOperations(events);
      events := events | WRITE_EVENT;
      poller.UpdateChannel(this);
    }

    method DisableWriting()
      requires poller.Valid() && this in poller.known
      modifies this`events, this`index, poller`channels, poller`kernel, poller`refused
      ensures poller.Valid() && poller.refused == old(poller.refused)
      ensures poller.View(this) == old(poller.View(this)).DisableWriting()
      ensures forall c :: c in poller.known && c != this ==> poller.View(c) == old(poller.View(c))
    {
      MaskOperations(events);
      events := events & !WRITE_EVENT;
      poller.UpdateChannel(this);
    }

    method DisableAll()
      requires poller.Valid() && this in poller.known
      modifies this`events, this`index, poller`channels, poller`kernel, poller`refused
      ensures poller.Valid() && poller.refused == old(poller.refused)
      ensures poller.View(this) == old(poller.View(this)).DisableAll()
      ensures forall c :: c in poller.known && c != this ==> poller.View(c) == old(poller.View(c))
    {
      MaskOperations(events);
      events := NONE_EVENT;
      poller.UpdateChannel(this);
    }

    method Remove()
      requires poller.Valid() && this in poller.known
      modifies this`index, poller`channels, poller`kernel, poller`refused
      ensures poller.Valid() && poller.refused == old(poller.refused)
      ensures poller.View(this) == old(poller.View(this)).Remove()
      ensures forall c :: c in poller.known && c != this ==> poller.View(c) == old(poller.View(c))
    {
      poller.RemoveChannel(this);
    }
  }

  /** An entry of the kernel's interest table: the watched events and the pointer handed back. */
  datatype Entry = Entry(mask: bv32, ptr: Channel)

  datatype CtlOp = CtlAdd | CtlMod | CtlDel

  class EpollPoller {
    var channels: map<nat, Channel>
    /** The kernel's table for this epoll descriptor. */
    var kernel: map<nat, Entry>
    var refused: nat
    /** The channels that exist for this poller; no two share a descriptor. */
    ghost var known: set<Channel>

    ghost predicate Shaped()
      reads this, known
    {
      && (forall c :: c in known ==> c.poller == this && IsMask(c.events) && IsIndex(c.index))
      && (forall c, d :: c in known && d in known && c.fd == d.fd ==> c == d)
      && (forall fd :: fd in channels ==> channels[fd] in known && channels[fd].fd == fd)
      && (forall fd :: fd in kernel ==>
            kernel[fd].ptr in known && kernel[fd].ptr.fd == fd && IsMask(kernel[fd].mask))
    }

    function View(c: Channel): Registration
      reads this, c
    {
      Registration(InterestOf(c.events), IndexOf(c.index), HasChannel(c),
                   if c.fd in kernel then Some(InterestOf(kernel[c.fd].mask)) else None, refused)
    }

    ghost predicate Valid()
      reads this, known
    {
      Shaped() && forall c :: c in known ==> View(c).Agrees()
    }

    constructor ()
      ensures Valid() && known == {} && refused == 0 && channels == map[] && kernel == map[]
    {
      channels := map[];
      kernel := map[];
      refused := 0;
      known := {};
    }

    predicate HasChannel(c: Channel)
      reads this
    {
      c.fd in channels && channels[c.fd] == c
    }

    /** `epoll_ctl`: the kernel accepts ADD of an absent descriptor and MOD or DEL of a present one. */
    method EpollCtl(op: CtlOp, c: Channel)
      requires Shaped() && c in known
      modifies this`kernel, this`refused
      ensures Shaped()
      ensures View(c) == match op
                         case CtlAdd => old(View(c)).CtlAdd()
                         case CtlMod => old(View(c)).CtlMod()
                         case CtlDel => old(View(c)).CtlDel()
      ensures forall d :: d in known && d != c ==> View(d) == old(View(d)).(refused := refused)
    {
      var present := c.fd in kernel;
      if present == op.CtlAdd? {
        refused := refused + 1;
      } else if op.CtlDel? {
        kernel := kernel - {c.fd};
      } else {
        kernel := kernel[c.fd := Entry(c.events, c)];
      }
    }

    /** `updateChannel`, called when the channel's interest may have just changed. */
    method UpdateChannel(c: Channel)
      requires Shaped() && c in known && View(c).Tracks()
      requires forall d :: d in known && d != c ==> View(d).Agrees()
      modifies c`index, this`channels, this`kernel, this`refused
      ensures Valid() && refused == old(refused)
      ensures View(c) == old(View(c)).Update()
      ensures forall d :: d in known && d != c ==> View(d) == old(View(d))
    {
      UpdateAgrees(View(c));
      MaskOperations(c.events);
      if c.index == K_NEW || c.index == K_DELETED {
        AddOrReadd(c);
      } else if c.IsNoneEvent() {
        Drop(c);
      } else {
        EpollCtl(CtlMod, c);
      }
      hide Registration.Update, Registration.Agrees, Shaped;
      OnlyOneChanged(c);
    }

    twostate lemma OnlyOneChanged(c: Channel)
      requires Shaped() && known == old(known) && c in known && View(c).Agrees()
      requires forall d :: d in known && d != c ==> old(View(d)).Agrees()
      requires forall d :: d in known && d != c ==> View(d) == old(View(d))
      ensures Valid()
    {
    }

    /** The branch for a channel that is not added. */
    method AddOrReadd(c: Channel)
      requires Shaped() && c in known && View(c).Tracks() && View(c).index != Added
      modifies c`index, this`channels, this`kernel, this`refused
      ensures Shaped() && refused == old(refused)
      ensures View(c) == old(View(c)).Update()
      ensures forall d :: d in known && d != c ==> View(d) == old(View(d))
    {
      if c.index == K_NEW {
        Map(c);
      }
      SetIndex(c, K_ADDED);
      EpollCtl(CtlAdd, c);
    }

    /** The branch for an added channel that wants nothing any more. */
    method Drop(c: Channel)
      requires Shaped() && c in known && View(c).Tracks() && View(c).index == Added
      modifies c`index, this`kernel, this`refused
      ensures Shaped() && refused == old(refused)
      ensures View(c) == old(View(c)).CtlDel().(index := Deleted)
      ensures forall d :: d in known && d != c ==> View(d) == old(View(d))
    {
      EpollCtl(CtlDel, c);
      SetIndex(c, K_DELETED);
    }

    /** `Channel::set_index`. */
    method SetIndex(c: Channel, i: int)
      requires Shaped() && c in known && IsIndex(i)
      modifies c`index
      ensures Shaped()
      ensures View(c) == old(View(c)).(index := IndexOf(i))
      ensures forall d :: d in known && d != c ==> View(d) == old(View(d))
    {
      c.index := i;
    }

    method Map(c: Channel)
      requires Shaped() && c in known
      modifies this`channels
      ensures Shaped()
      ensures View(c) == old(View(c)).(inMap := true)
      ensures forall d :: d in known && d != c ==> View(d) == old(View(d))
    {
      channels := channels[c.fd := c];
    }

    /** `Channel::set_revents`. */
    method SetRevents(c: Channel, m: bv32)
      requires Shaped() && c in known
      modifies c`revents
      ensures Shaped() && c.revents == m
      ensures forall d :: d in known ==> View(d) == old(View(d))
    {
      c.revents := m;
    }

    method Unmap(c: Channel)
      requires Shaped() && c in known
      modifies this`channels
      ensures Shaped()
      ensures View(c) == old(View(c)).(inMap := false)
      ensures forall d :: d in known && d != c ==> View(d) == old(View(d))
    {
      channels := channels - {c.fd};
    }

    method RemoveChannel(c: Channel)
      requires Valid() && c in known
      modifies c`index, this`channels, this`kernel, this`refused
      ensures Valid() && refused == old(refused)
      ensures View(c) == old(View(c)).Remove()
      ensures forall d :: d in known && d != c ==> View(d) == old(View(d))
    {
      UpdateAgrees(View(c));
      Unmap(c);
      if c.index == K_ADDED {
        EpollCtl(CtlDel, c);
      }
      SetIndex(c, K_NEW);
      OnlyOneChanged(c);
    }

    lemma ReportedAreAdded(reports: seq<Entry>)
      requires Valid()
      requires forall i :: 0 <= i < |reports| ==>
        reports[i].ptr.fd in kernel && reports[i].ptr == kernel[reports[i].ptr.fd].ptr
      ensures Shaped() && forall i :: 0 <= i < |reports| ==>
        reports[i].ptr in known && HasChannel(reports[i].ptr) && View(reports[i].ptr).index == Added
    {
      forall i | 0 <= i < |reports|
        ensures reports[i].ptr in known && HasChannel(reports[i].ptr) && View(reports[i].ptr).index == Added
      {
        assert View(reports[i].ptr).Agrees();
      }
    }

    /** `fillActiveChannels`: `reports` is what `epoll_wait` returned, at most one report for a
        descriptor of the table.  Every channel made active is registered and has its index added. */
    method FillActiveChannels(reports: seq<Entry>) returns (active: seq<Channel>)
      requires Valid()
      requires forall i :: 0 <= i < |reports| ==>
        reports[i].ptr.fd in kernel && reports[i].ptr == kernel[reports[i].ptr.fd].ptr
      requires forall i, j :: 0 <= i < j < |reports| ==> reports[i].ptr != reports[j].ptr
      modifies set i | 0 <= i < |reports| :: reports[i].ptr`revents
      ensures Valid() && |active| == |reports|
      ensures forall i :: 0 <= i < |active| ==>
        && active[i] == reports[i].ptr && active[i].revents == reports[i].mask
        && HasChannel(active[i]) && View(active[i]).index == Added
    {
      hide Registration.Agrees, Shaped;
      active := [];
      ReportedAreAdded(reports);
      for i := 0 to |reports|
        invariant |active| == i && forall j :: 0 <= j < i ==>
          active[j] == reports[j].ptr && reports[j].ptr.revents == reports[j].mask
        invariant Shaped() && forall c :: c in known ==> View(c) == old(View(c))
        invariant forall j :: 0 <= j < |reports| ==> reports[j].ptr in known
        invariant forall j :: 0 <= j < |reports| ==>
          HasChannel(reports[j].ptr) && View(reports[j].ptr).index == Added
      {
        var channel := reports[i].ptr;
        SetRevents(channel, reports[i].mask);
        active := active + [channel];
      }
    }
  }
}
