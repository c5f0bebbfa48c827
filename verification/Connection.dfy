/** The connection state machine of src/TcpConnection.cpp: connection state, channel interest, output
    and input bytes, partial kernel writes, queued callbacks and half-close.

    Each function is one member function of the source run to its end on the loop thread; the kernel's
    answer is an argument.  Callbacks and socket calls are events on a trace. */
module Connections {
  import opened Options
  import opened Pollers

  type byte = bv8

  datatype StateE = Connecting | Connected | Disconnecting | Disconnected

  datatype Event =
    | Up | Down            // the connection callback, connected or not
    | Message(n: nat)      // the message callback, after a read of n bytes
    | Close                // the close callback
    | WriteComplete        // queued on the loop
    | HighWater(len: nat)  // queued on the loop, with the amount buffered
    | ShutWrite            // shutdownWrite on the socket

  /** What another thread has queued on the connection's loop, payload included. */
  datatype Task = SendTask(msg: seq<byte>) | ShutdownTask

  /** `wire` is what the kernel has taken, `sent` every message an executed `sendInLoop` accepted,
      `received` every byte read and `consumed` what the user has retrieved of it. */
  datatype Conn = Conn(state: StateE, chan: Registration, output: seq<byte>, input: seq<byte>,
                       mark: nat, hasWriteComplete: bool, hasHighWater: bool,
                       wire: seq<byte>, sent: seq<byte>, received: seq<byte>, consumed: seq<byte>,
                       tasks: seq<Task>, destroyed: bool, events: seq<Event>) {

    function Add(e: Event): (c: Conn)
      ensures forall x :: CountOf(c.events, x) == CountOf(events, x) + if x == e then 1 else 0
      ensures CountHighWater(c.events) == CountHighWater(events) + if e.HighWater? then 1 else 0
    {
      assert (events + [e])[..|events|] == events;
      this.(events := events + [e])
    }

    /** `sendInLoop`; the kernel would take the first `k` bytes of a direct write. */
    function SendInLoop(msg: seq<byte>, k: nat): Conn
      requires k <= |msg|
    {
      if state == Disconnected then this
      else
        var n := if Direct() then k else 0;
        if n == |msg| then Offer(msg, k) else Offer(msg, k).Buffer(msg[n..])
    }

    /** A message may be written directly: no write is outstanding and nothing is buffered. */
    predicate Direct() {
      !chan.interest.writing && output == []
    }

    /** The part of `sendInLoop` that offers the message to the kernel if it may be written directly. */
    function Offer(msg: seq<byte>, k: nat): Conn
      requires k <= |msg|
    {
      var n := if Direct() then k else 0;
      var c := this.(wire := wire + msg[..n], sent := sent + msg);
      if Direct() && n == |msg| && hasWriteComplete then c.Add(WriteComplete) else c
    }

    /** The part of `sendInLoop` that buffers what the kernel did not take. */
    function Buffer(rest: seq<byte>): Conn {
      var full := |output| + |rest|;
      var c := if full >= mark && |output| < mark && hasHighWater then Add(HighWater(full)) else this;
      var c := c.(output := output + rest);
      if c.chan.interest.writing then c else c.(chan := c.chan.EnableWriting())
    }

    function ShutdownInLoop(): Conn {
      if chan.interest.writing then this else Add(ShutWrite)
    }

    function ConnectEstablished(): Conn {
      this.(state := Connected, chan := chan.EnableReading()).Add(Up)
    }

    function ConnectDestroyed(): Conn {
      var c := if state == Connected
               then this.(state := Disconnected, chan := chan.DisableAll()).Add(Down) else this;
      c.(chan := c.chan.Remove(), destroyed := true)
    }

    function HandleClose(): Conn {
      this.(state := Disconnected, chan := chan.DisableAll()).Add(Down).Add(Close)
    }

    /** A read that delivers `data`. */
    function HandleRead(data: seq<byte>): Conn {
      if data != [] then this.(input := input + data, received := received + data).Add(Message(|data|))
      else HandleClose()
    }

    /** The kernel would take the first `k` of the buffered bytes. */
    function HandleWrite(k: nat): Conn
      requires k <= |output|
    {
      if !chan.interest.writing || k == 0 then this
      else
        var c := this.(wire := wire + output[..k], output := output[k..]);
        if c.output != [] then c else c.Drained()
    }

    /** The part of `handleWrite` for a buffer that has just become empty. */
    function Drained(): Conn {
      var c := this.(chan := chan.DisableWriting());
      var c := if hasWriteComplete then c.Add(WriteComplete) else c;
      if state == Disconnecting then c.ShutdownInLoop() else c
    }

    /** `send`, from the loop thread or another one. */
    function Send(inLoop: bool, msg: seq<byte>, k: nat): Conn
      requires k <= |msg|
    {
      if state != Connected then this
      else if inLoop then SendInLoop(msg, k)
      else this.(tasks := tasks + [SendTask(msg)])
    }

    /** `shutdown`; the test and the store of the state are one step. */
    function Shutdown(inLoop: bool): Conn {
      if state != Connected then this
      else
        var c := this.(state := Disconnecting);
        if inLoop then c.ShutdownInLoop() else c.(tasks := c.tasks + [ShutdownTask])
    }

    /** The loop runs the oldest queued task. */
    function RunTask(k: nat): Conn
      requires tasks != [] && (tasks[0].SendTask? ==> k <= |tasks[0].msg|)
    {
      var c := this.(tasks := tasks[1..]);
      match tasks[0]
      case SendTask(msg) => c.SendInLoop(msg, k)
      case ShutdownTask => c.ShutdownInLoop()
    }

    /** The user takes bytes out of the input buffer. */
    function Consume(n: nat): Conn {
      var m := if n <= |input| then n else |input|;
      this.(input := input[m..], consumed := consumed + input[..m])
    }
  }

  /** A connection as `newConnection` makes it. */
  function Fresh(mark: nat, hasWriteComplete: bool, hasHighWater: bool): Conn {
    Conn(Connecting, UNREGISTERED, [], [], mark, hasWriteComplete, hasHighWater, [], [], [], [], [], false, [])
  }

  // ---------------------------------------------------------------- runs

  datatype Action =
    | Establish
    | SendCall(inLoop: bool, msg: seq<byte>, k: nat)
    | ShutdownCall(inLoop: bool)
    | TaskRun(k: nat)
    | Readable(data: seq<byte>)
    | Writable(k: nat)
    | HangUp
    | Destroy
    | SetHighWater(m: nat)
    | UserReads(n: nat)

  /** Readiness comes only from the kernel's table, for the events watched (hang-up is always
      reported); data already reported may still be read after a close.  `connectEstablished` and
      `connectDestoryed` are called once. */
  predicate Enabled(c: Conn, a: Action) {
    match a
    case Establish => c.state == Connecting && !c.destroyed
    case SendCall(_, msg, k) => k <= |msg|
    case ShutdownCall(_) => true
    case TaskRun(k) => c.tasks != [] && (c.tasks[0].SendTask? ==> k <= |c.tasks[0].msg|)
    case Readable(data) => Watched(c, true) || (c.state == Disconnected && data != [])
    case Writable(k) => Watched(c, false) && k <= |c.output|
    case HangUp => c.chan.kernel.Some?
    case Destroy => !c.destroyed
    case SetHighWater(_) => true
    case UserReads(_) => true
  }

  predicate Watched(c: Conn, reading: bool) {
    c.chan.kernel.Some? && if reading then c.chan.kernel.value.reading else c.chan.kernel.value.writing
  }

  function Apply(c: Conn, a: Action): Conn
    requires Enabled(c, a)
  {
    match a
    case Establish => c.ConnectEstablished()
    case SendCall(inLoop, msg, k) => c.Send(inLoop, msg, k)
    case ShutdownCall(inLoop) => c.Shutdown(inLoop)
    case TaskRun(k) => c.RunTask(k)
    case Readable(data) => c.HandleRead(data)
    case Writable(k) => c.HandleWrite(k)
    case HangUp => c.HandleClose()
    case Destroy => c.ConnectDestroyed()
    case SetHighWater(m) => c.(mark := m, hasHighWater := true)
    case UserReads(n) => c.Consume(n)
  }

  function Exec(c: Conn, acts: seq<Action>): Option<Conn> {
    if acts == [] then Some(c)
    else
      var before := Exec(c, acts[..|acts| - 1]);
      if before.Some? && Enabled(before.value, acts[|acts| - 1])
      then Some(Apply(before.value, acts[|acts| - 1])) else None
  }

  /** The message a step hands to `sendInLoop` on a connection that is not down, if it does. */
  function Accepts(c: Conn, a: Action): Option<seq<byte>> {
    match a
    case SendCall(inLoop, msg, _) => if inLoop && c.state == Connected then Some(msg) else None
    case TaskRun(_) =>
      if c.tasks != [] && c.tasks[0].SendTask? && c.state != Disconnected then Some(c.tasks[0].msg) else None
    case _ => None
  }

  function CountOf(events: seq<Event>, e: Event): nat {
    if events == [] then 0
    else CountOf(events[..|events| - 1], e) + if events[|events| - 1] == e then 1 else 0
  }

  /** How many high-water callbacks have been queued, whatever the amount reported. */
  function HighWaterCount(c: Conn): nat {
    CountHighWater(c.events)
  }

  function CountHighWater(events: seq<Event>): nat {
    if events == [] then 0
    else CountHighWater(events[..|events| - 1]) + if events[|events| - 1].HighWater? then 1 else 0
  }

  // ---------------------------------------------------------------- the invariant

  /** Bytes are neither lost, duplicated nor reordered, and write interest is on exactly while bytes
      are buffered. */
  predicate StreamInv(c: Conn) {
    && c.wire + c.output == c.sent
    && c.consumed + c.input == c.received
    && (c.state != Disconnected ==> (c.chan.interest.writing <==> c.output != []))
  }

  /** What the state says about the channel. */
  predicate ChannelInv(c: Conn) {
    && c.chan.Agrees() && c.chan.refused == 0
    && (c.state == Connecting ==> c.chan == UNREGISTERED && c.tasks == [])
    && ((c.state == Connected || c.state == Disconnecting) && !c.destroyed ==>
          c.chan.index == Added && c.chan.interest.reading)
    && (c.state == Disconnected ==> c.chan.interest.IsNone() && c.chan.kernel == None)
    && (c.destroyed ==> c.state != Connected)
  }

  /** One callback up once connected, one down once disconnected. */
  predicate CallbackInv(c: Conn) {
    && CountOf(c.events, Up) == (if c.state == Connecting then 0 else 1)
    && CountOf(c.events, Down) == (if c.state == Disconnected then 1 else 0)
  }

  predicate Inv(c: Conn) {
    StreamInv(c) && ChannelInv(c) && CallbackInv(c)
  }

  lemma OfferStream(c: Conn, msg: seq<byte>, k: nat)
    requires StreamInv(c) && c.state != Disconnected && k <= |msg|
    ensures var n, r := if c.Direct() then k else 0, c.Offer(msg, k);
      && r.wire + r.output + msg[n..] == r.sent == c.sent + msg
      && r.output == c.output && r.state == c.state && r.mark == c.mark && r.chan == c.chan
      && r.consumed + r.input == r.received
  {
    var n := if c.Direct() then k else 0;
    assert msg == msg[..n] + msg[n..];
    assert c.wire + msg[..n] + c.output + msg[n..] == c.wire + c.output + msg;
  }

  lemma BufferStream(c: Conn, rest: seq<byte>)
    requires c.wire + c.output + rest == c.sent && c.consumed + c.input == c.received && rest != []
    ensures var r := c.Buffer(rest);
      && StreamInv(r) && r.output == c.output + rest && r.sent == c.sent && r.state == c.state && r.mark == c.mark
  {
    assert c.wire + (c.output + rest) == c.wire + c.output + rest;
    EnableWritingSets(c.chan);
  }

  lemma EnableWritingSets(r: Registration)
    ensures r.EnableWriting().interest.writing
  {
  }

  /** A direct write happens only when nothing is buffered, so what the kernel takes now comes after
      everything it took before. */
  lemma SendStream(c: Conn, msg: seq<byte>, k: nat)
    requires StreamInv(c) && k <= |msg|
    ensures var r := c.SendInLoop(msg, k);
      && StreamInv(r) && r.state == c.state && r.mark == c.mark && |r.output| >= |c.output|
      && r.sent == (if c.state == Disconnected then c.sent else c.sent + msg)
  {
    hide Conn.Offer, Conn.Buffer;
    if c.state != Disconnected {
      var n := if c.Direct() then k else 0;
      OfferStream(c, msg, k);
      if n == |msg| {
        var r := c.Offer(msg, k);
        assert msg[n..] == [] && r.wire + r.output + [] == r.wire + r.output;
      } else {
        BufferStream(c.Offer(msg, k), msg[n..]);
      }
    }
  }

  lemma OfferKeepsChannel(c: Conn, msg: seq<byte>, k: nat)
    requires k <= |msg|
    ensures var r := c.Offer(msg, k);
      r.chan == c.chan && r.state == c.state && r.tasks == c.tasks && r.destroyed == c.destroyed
  {
  }

  lemma BufferChannel(c: Conn, rest: seq<byte>)
    requires ChannelInv(c) && c.state != Connecting && c.state != Disconnected
    ensures ChannelInv(c.Buffer(rest))
  {
    UpdateAgrees(c.chan.(interest := c.chan.interest.(writing := true)));
  }

  lemma SendChannel(c: Conn, msg: seq<byte>, k: nat)
    requires ChannelInv(c) && c.state != Connecting && k <= |msg|
    ensures ChannelInv(c.SendInLoop(msg, k))
  {
    hide Conn.Offer, Conn.Buffer, Registration.Agrees;
    if c.state != Disconnected {
      OfferKeepsChannel(c, msg, k);
      BufferChannel(c.Offer(msg, k), msg[if c.Direct() then k else 0..]);
    }
  }

  lemma OfferCallbacks(c: Conn, msg: seq<byte>, k: nat)
    requires k <= |msg|
    ensures var r := c.Offer(msg, k);
      && (forall x :: x != WriteComplete ==> CountOf(r.events, x) == CountOf(c.events, x))
      && CountOf(r.events, WriteComplete) == CountOf(c.events, WriteComplete) +
         (if c.Direct() && k == |msg| && c.hasWriteComplete then 1 else 0)
      && HighWaterCount(r) == HighWaterCount(c)
      && r.output == c.output && r.mark == c.mark && r.hasHighWater == c.hasHighWater
  {
    hide CountOf, CountHighWater;
  }

  lemma BufferCallbacks(c: Conn, rest: seq<byte>)
    ensures var r := c.Buffer(rest);
      && (forall x: Event :: !x.HighWater? ==> CountOf(r.events, x) == CountOf(c.events, x))
      && HighWaterCount(r) == HighWaterCount(c) + (if c.hasHighWater && |c.output| < c.mark <= |r.output| then 1 else 0)
      && r.output == c.output + rest
  {
    hide CountOf, CountHighWater;
  }

  /** Exactly when a `sendInLoop` queues which callback. */
  lemma SendCallbacks(c: Conn, msg: seq<byte>, k: nat)
    requires StreamInv(c) && k <= |msg|
    ensures var r := c.SendInLoop(msg, k);
      && (forall x :: x != WriteComplete && !x.HighWater? ==> CountOf(r.events, x) == CountOf(c.events, x))
      && CountOf(r.events, WriteComplete) == CountOf(c.events, WriteComplete) +
         (if c.state != Disconnected && c.hasWriteComplete && r.output == [] then 1 else 0)
      && HighWaterCount(r) == HighWaterCount(c) + (if c.hasHighWater && |c.output| < c.mark <= |r.output| then 1 else 0)
  {
    hide CountOf, CountHighWater, Conn.Offer, Conn.Buffer;
    if c.state != Disconnected {
      var n := if c.Direct() then k else 0;
      OfferCallbacks(c, msg, k);
      BufferCallbacks(c.Offer(msg, k), msg[n..]);
    }
  }

  lemma HandleWriteStream(c: Conn, k: nat)
    requires StreamInv(c) && k <= |c.output|
    ensures var r := c.HandleWrite(k);
      && StreamInv(r) && r.state == c.state && r.sent == c.sent && r.mark == c.mark
      && (c.chan.interest.writing ==> r.output == c.output[k..])
  {
    assert c.output == c.output[..k] + c.output[k..];
    assert c.wire + c.output[..k] + c.output[k..] == c.wire + c.output;
  }

  lemma HandleWriteChannel(c: Conn, k: nat)
    requires ChannelInv(c) && k <= |c.output|
    ensures ChannelInv(c.HandleWrite(k))
  {
    UpdateAgrees(c.chan.(interest := c.chan.interest.(writing := false)));
  }

  lemma DrainedCallbacks(c: Conn)
    ensures var r := c.Drained();
      && (forall x :: x != WriteComplete && x != ShutWrite ==> CountOf(r.events, x) == CountOf(c.events, x))
      && HighWaterCount(r) == HighWaterCount(c)
      && CountOf(r.events, WriteComplete) == CountOf(c.events, WriteComplete) + (if c.hasWriteComplete then 1 else 0)
      && CountOf(r.events, ShutWrite) == CountOf(c.events, ShutWrite) +
         (if c.state == Disconnecting && !r.chan.interest.writing then 1 else 0)
  {
  }

  lemma DisableWritingClears(r: Registration)
    ensures !r.DisableWriting().interest.writing
    ensures r.DisableWriting().interest.reading == r.interest.reading
  {
  }

  /** Exactly when a write-ready step queues the completion callback or fires a deferred shutdown. */
  lemma HandleWriteCallbacks(c: Conn, k: nat)
    requires StreamInv(c) && c.state != Disconnected && c.chan.interest.writing && k <= |c.output|
    ensures var r, drained := c.HandleWrite(k), k == |c.output|;
      && (forall x :: x != WriteComplete && x != ShutWrite ==> CountOf(r.events, x) == CountOf(c.events, x))
      && HighWaterCount(r) == HighWaterCount(c)
      && CountOf(r.events, WriteComplete) == CountOf(c.events, WriteComplete) +
         (if c.hasWriteComplete && drained then 1 else 0)
      && CountOf(r.events, ShutWrite) == CountOf(c.events, ShutWrite) +
         (if c.state == Disconnecting && drained then 1 else 0)
  {
    var m := c.(wire := c.wire + c.output[..k], output := c.output[k..]);
    DrainedCallbacks(m);
    DisableWritingClears(c.chan);
  }

  lemma NoWritesWhenDown(c: Conn, k: nat)
    requires k <= |c.output| && !c.chan.interest.writing
    ensures c.HandleWrite(k) == c
  {
  }

  lemma CloseStep(c: Conn)
    requires Inv(c) && c.chan.kernel.Some?
    ensures Inv(c.HandleClose()) && c.HandleClose().state == Disconnected
    ensures CountOf(c.HandleClose().events, ShutWrite) == CountOf(c.events, ShutWrite)
    ensures CountOf(c.HandleClose().events, WriteComplete) == CountOf(c.events, WriteComplete)
    ensures HighWaterCount(c.HandleClose()) == HighWaterCount(c)
  {
  }

  lemma CloseKeepsBytes(c: Conn)
    ensures var r := c.HandleClose();
      r.output == c.output && r.mark == c.mark && r.wire == c.wire && r.sent == c.sent
  {
  }

  /** A write-ready report comes only for a connection that is not down and wants to write. */
  lemma WritableIsWriting(c: Conn, k: nat)
    requires ChannelInv(c) && Enabled(c, Writable(k))
    ensures c.chan.interest.writing && c.state != Disconnected
  {
  }

  lemma EndIsReported(c: Conn)
    requires Enabled(c, Readable([]))
    ensures c.chan.kernel.Some?
  {
  }

  lemma EstablishStep(c: Conn)
    requires Inv(c) && c.state == Connecting && !c.destroyed
    ensures Inv(c.ConnectEstablished())
  {
  }

  lemma DestroyStep(c: Conn)
    requires Inv(c)
    ensures Inv(c.ConnectDestroyed())
    ensures c.ConnectDestroyed().chan.kernel == None && !c.ConnectDestroyed().chan.inMap
  {
  }

  lemma SendInLoopStep(c: Conn, msg: seq<byte>, k: nat)
    requires Inv(c) && c.state != Connecting && k <= |msg|
    ensures Inv(c.SendInLoop(msg, k))
  {
    SendStream(c, msg, k);
    SendChannel(c, msg, k);
    SendCallbacks(c, msg, k);
  }

  lemma HandleWriteStep(c: Conn, k: nat)
    requires Inv(c) && k <= |c.output|
    ensures Inv(c.HandleWrite(k))
  {
    if c.chan.interest.writing {
      HandleWriteStream(c, k);
      HandleWriteChannel(c, k);
      HandleWriteCallbacks(c, k);
    } else {
      NoWritesWhenDown(c, k);
    }
  }

  lemma ReadStep(c: Conn, data: seq<byte>)
    requires Inv(c) && Enabled(c, Readable(data))
    ensures Inv(c.HandleRead(data))
  {
    if data == [] {
      CloseStep(c);
    } else {
      assert c.consumed + (c.input + data) == c.consumed + c.input + data;
    }
  }

  lemma ConsumeStep(c: Conn, n: nat)
    requires Inv(c)
    ensures Inv(c.Consume(n))
  {
    var m := if n <= |c.input| then n else |c.input|;
    assert c.input == c.input[..m] + c.input[m..];
    assert c.consumed + c.input[..m] + c.input[m..] == c.consumed + c.input;
  }

  lemma TaskStep(c: Conn, k: nat)
    requires Inv(c) && Enabled(c, TaskRun(k))
    ensures Inv(c.RunTask(k))
  {
    var m := c.(tasks := c.tasks[1..]);
    assert Inv(m);
    match c.tasks[0]
    case SendTask(msg) => SendInLoopStep(m, msg, k);
    case ShutdownTask =>
  }

  lemma InvStep(c: Conn, a: Action)
    requires Inv(c) && Enabled(c, a)
    ensures Inv(Apply(c, a))
  {
    match a
    case Establish => EstablishStep(c);
    case SendCall(inLoop, msg, k) =>
      if c.state == Connected && inLoop {
        SendInLoopStep(c, msg, k);
      }
    case ShutdownCall(inLoop) =>
    case TaskRun(k) => TaskStep(c, k);
    case Readable(data) => ReadStep(c, data);
    case Writable(k) => HandleWriteStep(c, k);
    case HangUp => CloseStep(c);
    case Destroy => DestroyStep(c);
    case SetHighWater(_) =>
    case UserReads(n) => ConsumeStep(c, n);
  }

  lemma {:induction false} InvRun(c: Conn, acts: seq<Action>)
    requires Inv(c) && Exec(c, acts).Some?
    ensures Inv(Exec(c, acts).value)
  {
    if acts != [] {
      InvRun(c, acts[..|acts| - 1]);
      InvStep(Exec(c, acts[..|acts| - 1]).value, acts[|acts| - 1]);
    }
  }

  lemma FreshInv(mark: nat, hasWriteComplete: bool, hasHighWater: bool)
    ensures Inv(Fresh(mark, hasWriteComplete, hasHighWater))
  {
  }

  // ---------------------------------------------------------------- claims over runs

  /** The state after a run on a new connection. */
  function After(mark: nat, hasWriteComplete: bool, hasHighWater: bool, acts: seq<Action>): (c: Conn)
    requires Exec(Fresh(mark, hasWriteComplete, hasHighWater), acts).Some?
    ensures Inv(c)
  {
    FreshInv(mark, hasWriteComplete, hasHighWater);
    InvRun(Fresh(mark, hasWriteComplete, hasHighWater), acts);
    Exec(Fresh(mark, hasWriteComplete, hasHighWater), acts).value
  }

  // ---------------------------------------------------------------- a run, told from its actions alone

  /** The state the actions lead to. */
  function StateOf(acts: seq<Action>): StateE {
    if acts == [] then Connecting
    else
      var before := StateOf(acts[..|acts| - 1]);
      match acts[|acts| - 1]
      case Establish => Connected
      case ShutdownCall(_) => if before == Connected then Disconnecting else before
      case HangUp => Disconnected
      case Readable(data) => if data == [] then Disconnected else before
      case Destroy => if before == Connected then Disconnected else before
      case _ => before
  }

  /** What other threads have queued, oldest first: the sends and shutdowns they called while the
      connection was connected. */
  function Queued(acts: seq<Action>): seq<Task> {
    if acts == [] then []
    else
      Queued(acts[..|acts| - 1]) +
      if StateOf(acts[..|acts| - 1]) != Connected then []
      else
        match acts[|acts| - 1]
        case SendCall(inLoop, msg, _) => if inLoop then [] else [SendTask(msg)]
        case ShutdownCall(inLoop) => if inLoop then [] else [ShutdownTask]
        case _ => []
  }

  function TaskRuns(acts: seq<Action>): nat {
    if acts == [] then 0
    else TaskRuns(acts[..|acts| - 1]) + if acts[|acts| - 1].TaskRun? then 1 else 0
  }

  /** The message that the last action hands to `sendInLoop` and how much of it the kernel would take:
      a send on the loop thread of a connected connection, or the oldest queued task if that is a send
      and the connection is not down. */
  function Offered(acts: seq<Action>): Option<(seq<byte>, nat)>
    requires acts != []
  {
    var before := acts[..|acts| - 1];
    match acts[|acts| - 1]
    case SendCall(inLoop, msg, k) => if inLoop && StateOf(before) == Connected then Some((msg, k)) else None
    case TaskRun(k) =>
      var n := TaskRuns(before);
      if n < |Queued(before)| && Queued(before)[n].SendTask? && StateOf(before) != Disconnected
      then Some((Queued(before)[n].msg, k)) else None
    case _ => None
  }

  /** The concatenation, in execution order, of every message passed to `sendInLoop`. */
  function Stream(acts: seq<Action>): seq<byte> {
    if acts == [] then []
    else Stream(acts[..|acts| - 1]) + if Offered(acts).Some? then Offered(acts).value.0 else []
  }

  /** How much the kernel has taken: from each message offered while nothing was waiting, and in each
      write-ready step. */
  function OnWire(acts: seq<Action>): nat
    decreases |acts|, 0
  {
    if acts == [] then 0
    else
      var before := acts[..|acts| - 1];
      OnWire(before) +
      if acts[|acts| - 1].Writable? then acts[|acts| - 1].k
      else if Offered(acts).Some? && Waiting(before) == 0 then Offered(acts).value.1 else 0
  }

  function Waiting(acts: seq<Action>): int
    decreases |acts|, 1
  {
    |Stream(acts)| - OnWire(acts)
  }

  /** Everything that reads have delivered. */
  function Incoming(acts: seq<Action>): seq<byte> {
    if acts == [] then []
    else Incoming(acts[..|acts| - 1]) + if acts[|acts| - 1].Readable? then acts[|acts| - 1].data else []
  }

  /** How much of it the user has taken. */
  function Taken(acts: seq<Action>): nat {
    if acts == [] then 0
    else
      var before := acts[..|acts| - 1];
      if !acts[|acts| - 1].UserReads? then Taken(before)
      else if Taken(before) + acts[|acts| - 1].n <= |Incoming(before)| then Taken(before) + acts[|acts| - 1].n
      else |Incoming(before)|
  }

  /** The high-water mark and whether there is a callback for it. */
  function MarkOf(first: (nat, bool), acts: seq<Action>): (nat, bool) {
    if acts == [] then first
    else if acts[|acts| - 1].SetHighWater? then (acts[|acts| - 1].m, true)
    else MarkOf(first, acts[..|acts| - 1])
  }

  /** The callbacks and socket calls of the last action, in order. */
  function News(first: (nat, bool), hasWriteComplete: bool, acts: seq<Action>): seq<Event>
    requires acts != []
  {
    var before := acts[..|acts| - 1];
    var complete := if hasWriteComplete && Waiting(acts) == 0 then [WriteComplete] else [];
    match acts[|acts| - 1]
    case Establish => [Up]
    case HangUp => [Down, Close]
    case Readable(data) => if data == [] then [Down, Close] else [Message(|data|)]
    case Destroy => if StateOf(before) == Connected then [Down] else []
    case Writable(_) =>
      complete + if StateOf(before) == Disconnecting && Waiting(acts) == 0 then [ShutWrite] else []
    case ShutdownCall(inLoop) =>
      if inLoop && StateOf(before) == Connected && Waiting(before) == 0 then [ShutWrite] else []
    case TaskRun(_) =>
      var n := TaskRuns(before);
      if Offered(acts).Some? then complete + Crossing(MarkOf(first, before), Waiting(before), Waiting(acts))
      else if n < |Queued(before)| && Queued(before)[n] == ShutdownTask &&
              (StateOf(before) == Disconnected || Waiting(before) == 0) then [ShutWrite]
      else []
    case SendCall(_, _, _) =>
      if Offered(acts).Some? then complete + Crossing(MarkOf(first, before), Waiting(before), Waiting(acts)) else []
    case _ => []
  }

  /** The high-water callback, with the amount now waiting, if that crosses the mark upwards. */
  function Crossing(mark: (nat, bool), was: int, now: int): seq<Event> {
    if mark.1 && was < mark.0 <= now then [HighWater(now)] else []
  }

  /** All callbacks and socket calls, in order. */
  function Story(first: (nat, bool), hasWriteComplete: bool, acts: seq<Action>): seq<Event> {
    if acts == [] then []
    else Story(first, hasWriteComplete, acts[..|acts| - 1]) + News(first, hasWriteComplete, acts)
  }

  /** The connection is what its actions tell. */
  ghost predicate Told(first: (nat, bool), hasWriteComplete: bool, acts: seq<Action>, c: Conn) {
    && Sending(acts, c) && Receiving(acts, c)
    && (c.mark, c.hasHighWater) == MarkOf(first, acts) && c.hasWriteComplete == hasWriteComplete
    && c.events == Story(first, hasWriteComplete, acts)
  }

  ghost predicate Sending(acts: seq<Action>, c: Conn) {
    && c.state == StateOf(acts)
    && TaskRuns(acts) <= |Queued(acts)| && c.tasks == Queued(acts)[TaskRuns(acts)..]
    && c.sent == Stream(acts) && |c.wire| == OnWire(acts)
  }

  ghost predicate Receiving(acts: seq<Action>, c: Conn) {
    c.received == Incoming(acts) && |c.consumed| == Taken(acts)
  }

  lemma SendInLoopEffect(c: Conn, msg: seq<byte>, k: nat)
    requires StreamInv(c) && c.state != Disconnected && k <= |msg|
    ensures var r := c.SendInLoop(msg, k);
      && r.wire == (if c.output == [] then c.wire + msg[..k] else c.wire)
      && r.events == c.events + SendNews(c, r)
      && KeepsRest(c, r)
  {
    hide Conn.Offer, Conn.Buffer, CountOf, CountHighWater;
    var n := if c.Direct() then k else 0;
    OfferEffect(c, msg, k);
    BufferEffect(c.Offer(msg, k), msg[n..]);
    assert c.events + [] == c.events;
  }

  lemma OfferEffect(c: Conn, msg: seq<byte>, k: nat)
    requires k <= |msg|
    ensures var r := c.Offer(msg, k);
      && r.wire == (if c.Direct() then c.wire + msg[..k] else c.wire) && r.output == c.output
      && r.events == c.events + (if c.hasWriteComplete && c.Direct() && k == |msg| then [WriteComplete] else [])
      && KeepsRest(c, r)
  {
    hide CountOf, CountHighWater;
    assert msg[..0] == [] && c.wire + [] == c.wire && c.events + [] == c.events;
  }

  lemma BufferEffect(c: Conn, rest: seq<byte>)
    ensures var r := c.Buffer(rest);
      && r.wire == c.wire && r.output == c.output + rest
      && r.events == c.events + Crossing((c.mark, c.hasHighWater), |c.output|, |r.output|)
      && KeepsRest(c, r)
  {
    hide CountOf, CountHighWater;
    assert c.events + [] == c.events;
  }

  /** The callbacks that a `sendInLoop` from `c` to `r` queues. */
  function SendNews(c: Conn, r: Conn): seq<Event> {
    (if c.hasWriteComplete && r.output == [] then [WriteComplete] else []) +
    Crossing((c.mark, c.hasHighWater), |c.output|, |r.output|)
  }

  /** The callbacks and the deferred half-close of a write-ready step from `c` to `r`. */
  function WriteNews(c: Conn, r: Conn): seq<Event> {
    (if c.hasWriteComplete && r.output == [] then [WriteComplete] else []) +
    (if c.state == Disconnecting && r.output == [] then [ShutWrite] else [])
  }

  predicate KeepsRest(c: Conn, r: Conn) {
    && r.input == c.input && r.received == c.received && r.consumed == c.consumed && r.tasks == c.tasks
    && r.mark == c.mark && r.hasHighWater == c.hasHighWater && r.hasWriteComplete == c.hasWriteComplete
  }

  lemma HandleWriteEffect(c: Conn, k: nat)
    requires StreamInv(c) && c.state != Disconnected && c.chan.interest.writing && k <= |c.output|
    ensures var r := c.HandleWrite(k);
      && r.wire == c.wire + c.output[..k] && r.output == c.output[k..] && r.state == c.state && r.sent == c.sent
      && r.events == c.events + WriteNews(c, r)
      && KeepsRest(c, r)
  {
    hide CountOf, CountHighWater;
    assert c.wire + [] == c.wire && c.events + [] == c.events;
    DisableWritingClears(c.chan);
  }

  lemma OfferedIsAccepted(acts: seq<Action>, c: Conn)
    requires acts != [] && Sending(acts[..|acts| - 1], c) && Enabled(c, acts[|acts| - 1])
    ensures var a := acts[|acts| - 1];
      && Offered(acts) == (if Accepts(c, a).Some? then Some((Accepts(c, a).value, a.k)) else None)
      && (a.TaskRun? ==> Queued(acts[..|acts| - 1])[TaskRuns(acts[..|acts| - 1])] == c.tasks[0])
  {
    var before, a := acts[..|acts| - 1], acts[|acts| - 1];
    if a.TaskRun? {
      assert c.tasks[0] == Queued(before)[TaskRuns(before)..][0];
    }
  }

  lemma WaitingIsBuffered(acts: seq<Action>, c: Conn)
    requires Sending(acts, c) && StreamInv(c)
    ensures Waiting(acts) == |c.output|
  {
    assert |c.wire + c.output| == |c.wire| + |c.output|;
  }

  /** What the accepted message does. */
  lemma AcceptedEffect(c: Conn, a: Action)
    requires Inv(c) && Enabled(c, a) && Accepts(c, a).Some?
    ensures var r := Apply(c, a);
      && r.state == c.state && r.sent == c.sent + Accepts(c, a).value
      && |r.wire| == |c.wire| + (if c.output == [] then a.k else 0)
      && r.events == c.events + SendNews(c, r)
      && KeepsRest(if a.TaskRun? then c.(tasks := c.tasks[1..]) else c, r)
  {
    hide Conn.SendInLoop;
    var m := if a.TaskRun? then c.(tasks := c.tasks[1..]) else c;
    SendStream(m, Accepts(c, a).value, a.k);
    SendInLoopEffect(m, Accepts(c, a).value, a.k);
  }

  /** Every action but an accepted message and a write leaves the outgoing bytes alone. */
  lemma OthersSendNothing(c: Conn, a: Action)
    requires Enabled(c, a) && Accepts(c, a) == None && !a.Writable?
    ensures Apply(c, a).sent == c.sent && Apply(c, a).wire == c.wire && Apply(c, a).output == c.output
  {
    hide CountOf, CountHighWater;
    hide Registration.EnableReading, Registration.DisableAll, Registration.Remove;
    if a.TaskRun? && c.tasks[0].SendTask? {
      DownSendsNothing(c.(tasks := c.tasks[1..]), c.tasks[0].msg, a.k);
    }
  }

  lemma BytesStep(acts: seq<Action>, c: Conn)
    requires acts != [] && Inv(c) && Sending(acts[..|acts| - 1], c) && Enabled(c, acts[|acts| - 1])
    ensures var r := Apply(c, acts[|acts| - 1]); r.sent == Stream(acts) && |r.wire| == OnWire(acts)
  {
    hide Apply, Enabled, Offered, Accepts, ChannelInv, CallbackInv;
    var before, a := acts[..|acts| - 1], acts[|acts| - 1];
    WaitingIsBuffered(before, c);
    OfferedIsAccepted(acts, c);
    if Accepts(c, a).Some? {
      OnlyTheseAccept(c, a);
      AcceptedEffect(c, a);
    } else if a.Writable? {
      WriteApplied(c, a.k);
    } else {
      OthersSendNothing(c, a);
    }
  }

  lemma OnlyTheseAccept(c: Conn, a: Action)
    requires Accepts(c, a).Some?
    ensures a.SendCall? || a.TaskRun?
  {
  }

  lemma WriteApplied(c: Conn, k: nat)
    requires Inv(c) && Enabled(c, Writable(k))
    ensures Apply(c, Writable(k)) == c.HandleWrite(k)
    ensures c.chan.interest.writing && c.output != [] && c.state != Disconnected && k <= |c.output|
    ensures var r := c.HandleWrite(k);
      && r.wire == c.wire + c.output[..k] && r.output == c.output[k..] && r.state == c.state && r.sent == c.sent
      && r.events == c.events + WriteNews(c, r)
      && KeepsRest(c, r)
  {
    WritableIsWriting(c, k);
    HandleWriteEffect(c, k);
  }

  lemma StateStep(acts: seq<Action>, c: Conn)
    requires acts != [] && Inv(c) && Sending(acts[..|acts| - 1], c) && Enabled(c, acts[|acts| - 1])
    ensures Apply(c, acts[|acts| - 1]).state == StateOf(acts)
  {
    hide Apply, Enabled, Accepts, ChannelInv, CallbackInv, Queued, Stream, OnWire;
    var a := acts[|acts| - 1];
    if Accepts(c, a).Some? {
      OnlyTheseAccept(c, a);
      AcceptedEffect(c, a);
    } else if a.Writable? {
      WriteApplied(c, a.k);
    } else {
      OthersApplied(c, a);
    }
  }

  /** What an action that neither accepts a message nor writes does to the state, to what has been read
      and to the mark. */
  lemma OthersApplied(c: Conn, a: Action)
    requires Inv(c) && Enabled(c, a) && Accepts(c, a) == None && !a.Writable?
    ensures var r := Apply(c, a);
      && r.state == (match a
                     case Establish => Connected
                     case ShutdownCall(_) => if c.state == Connected then Disconnecting else c.state
                     case HangUp => Disconnected
                     case Readable(data) => if data == [] then Disconnected else c.state
                     case Destroy => if c.state == Connected then Disconnected else c.state
                     case _ => c.state)
      && r.received == c.received + (if a.Readable? then a.data else [])
      && (r.mark, r.hasHighWater) == (if a.SetHighWater? then (a.m, true) else (c.mark, c.hasHighWater))
      && r.hasWriteComplete == c.hasWriteComplete
  {
    hide CountOf, CountHighWater, ChannelInv, CallbackInv;
    hide Registration.EnableReading, Registration.DisableAll, Registration.Remove;
    if a.TaskRun? && c.tasks[0].SendTask? {
      DownSendsNothing(c.(tasks := c.tasks[1..]), c.tasks[0].msg, a.k);
    }
  }

  lemma OthersConsume(c: Conn, a: Action)
    requires Inv(c) && Enabled(c, a) && Accepts(c, a) == None && !a.Writable?
    ensures |Apply(c, a).consumed| ==
      if !a.UserReads? then |c.consumed| else if |c.consumed| + a.n <= |c.received| then |c.consumed| + a.n else |c.received|
  {
    hide CountOf, CountHighWater, ChannelInv, CallbackInv;
    hide Registration.EnableReading, Registration.DisableAll, Registration.Remove;
    if a.TaskRun? && c.tasks[0].SendTask? {
      DownSendsNothing(c.(tasks := c.tasks[1..]), c.tasks[0].msg, a.k);
    }
    assert |c.consumed + c.input| == |c.consumed| + |c.input|;
  }

  lemma TasksStep(acts: seq<Action>, c: Conn)
    requires acts != [] && Inv(c) && Sending(acts[..|acts| - 1], c) && Enabled(c, acts[|acts| - 1])
    ensures TaskRuns(acts) <= |Queued(acts)| && Apply(c, acts[|acts| - 1]).tasks == Queued(acts)[TaskRuns(acts)..]
  {
    hide Conn.SendInLoop, Conn.HandleWrite, ChannelInv, CallbackInv, Stream, OnWire, StateOf;
    var before, a := acts[..|acts| - 1], acts[|acts| - 1];
    var n, more := TaskRuns(before), Queued(acts)[|Queued(before)|..];
    assert Queued(acts)[n..] == Queued(before)[n..] + more;
    TasksAfter(c, a);
  }

  /** What an action does to the queued tasks. */
  lemma TasksAfter(c: Conn, a: Action)
    requires Inv(c) && Enabled(c, a)
    ensures Apply(c, a).tasks ==
      match a
      case TaskRun(_) => c.tasks[1..]
      case SendCall(inLoop, msg, _) => if c.state == Connected && !inLoop then c.tasks + [SendTask(msg)] else c.tasks
      case ShutdownCall(inLoop) => if c.state == Connected && !inLoop then c.tasks + [ShutdownTask] else c.tasks
      case _ => c.tasks
  {
    hide Conn.SendInLoop, Conn.HandleWrite, ChannelInv, CallbackInv;
    if Accepts(c, a).Some? {
      AcceptedEffect(c, a);
    } else if a.Writable? {
      WriteApplied(c, a.k);
    } else if a.TaskRun? && c.tasks[0].SendTask? {
      DownSendsNothing(c.(tasks := c.tasks[1..]), c.tasks[0].msg, a.k);
    }
  }

  lemma DownSendsNothing(c: Conn, msg: seq<byte>, k: nat)
    requires c.state == Disconnected && k <= |msg|
    ensures c.SendInLoop(msg, k) == c
  {
  }

  lemma ReceivingStep(acts: seq<Action>, c: Conn)
    requires acts != [] && Inv(c) && Receiving(acts[..|acts| - 1], c) && Enabled(c, acts[|acts| - 1])
    ensures Receiving(acts, Apply(c, acts[|acts| - 1]))
  {
    hide Apply, Enabled, Accepts, ChannelInv, CallbackInv;
    var a := acts[|acts| - 1];
    if Accepts(c, a).Some? {
      OnlyTheseAccept(c, a);
      AcceptedEffect(c, a);
    } else if a.Writable? {
      WriteApplied(c, a.k);
    } else {
      OthersApplied(c, a);
      OthersConsume(c, a);
    }
  }

  lemma MarkStep(first: (nat, bool), acts: seq<Action>, c: Conn)
    requires acts != [] && Inv(c) && Enabled(c, acts[|acts| - 1])
    requires (c.mark, c.hasHighWater) == MarkOf(first, acts[..|acts| - 1])
    ensures var r := Apply(c, acts[|acts| - 1]);
      (r.mark, r.hasHighWater) == MarkOf(first, acts) && r.hasWriteComplete == c.hasWriteComplete
  {
    hide Apply, Enabled, Accepts, ChannelInv, CallbackInv;
    var a := acts[|acts| - 1];
    if Accepts(c, a).Some? {
      OnlyTheseAccept(c, a);
      AcceptedEffect(c, a);
    } else if a.Writable? {
      WriteApplied(c, a.k);
    } else {
      OthersApplied(c, a);
    }
  }

  lemma EventsStep(first: (nat, bool), acts: seq<Action>, c: Conn)
    requires acts != [] && Inv(c) && Sending(acts[..|acts| - 1], c) && Enabled(c, acts[|acts| - 1])
    requires (c.mark, c.hasHighWater) == MarkOf(first, acts[..|acts| - 1])
    requires Inv(Apply(c, acts[|acts| - 1])) && Sending(acts, Apply(c, acts[|acts| - 1]))
    ensures Apply(c, acts[|acts| - 1]).events == c.events + News(first, c.hasWriteComplete, acts)
  {
    hide Conn.SendInLoop, Conn.HandleWrite, ChannelInv, CallbackInv, Offered, MarkOf, Queued, Stream, OnWire;
    var before, a := acts[..|acts| - 1], acts[|acts| - 1];
    WaitingIsBuffered(before, c);
    WaitingIsBuffered(acts, Apply(c, a));
    OfferedIsAccepted(acts, c);
    assert c.events + [] == c.events;
    if Accepts(c, a).Some? {
      AcceptedEffect(c, a);
    } else if a.Writable? {
      WriteApplied(c, a.k);
    } else {
      OtherEvents(c, a);
    }
  }

  /** The callbacks and socket calls of an action that neither accepts a message nor writes. */
  function OtherNews(c: Conn, a: Action): seq<Event>
    requires a.TaskRun? ==> c.tasks != []
  {
    match a
    case Establish => [Up]
    case HangUp => [Down, Close]
    case Readable(data) => if data == [] then [Down, Close] else [Message(|data|)]
    case Destroy => if c.state == Connected then [Down] else []
    case ShutdownCall(inLoop) => if inLoop && c.state == Connected && c.output == [] then [ShutWrite] else []
    case TaskRun(_) =>
      if c.tasks[0] == ShutdownTask && (c.state == Disconnected || c.output == []) then [ShutWrite] else []
    case _ => []
  }

  lemma OtherEvents(c: Conn, a: Action)
    requires Inv(c) && Enabled(c, a) && Accepts(c, a) == None && !a.Writable?
    ensures Apply(c, a).events == c.events + OtherNews(c, a)
  {
    hide CountOf, CountHighWater, CallbackInv;
    hide Registration.EnableReading, Registration.DisableAll, Registration.Remove;
    assert c.events + [] == c.events;
    if a.TaskRun? && c.tasks[0].SendTask? {
      DownSendsNothing(c.(tasks := c.tasks[1..]), c.tasks[0].msg, a.k);
    }
  }

  /** Over every run of a new connection its state, its queued tasks, its bytes in both directions and all
      its callbacks are what the actions tell. */
  lemma {:induction false} RunIsTold(mark: nat, hasWriteComplete: bool, hasHighWater: bool, acts: seq<Action>)
    requires Exec(Fresh(mark, hasWriteComplete, hasHighWater), acts).Some?
    ensures Told((mark, hasHighWater), hasWriteComplete, acts, Exec(Fresh(mark, hasWriteComplete, hasHighWater), acts).value)
  {
    hide Inv, Apply, Enabled, Sending, Receiving, News, MarkOf, Stream, OnWire;
    var f := Fresh(mark, hasWriteComplete, hasHighWater);
    FreshInv(mark, hasWriteComplete, hasHighWater);
    if acts == [] {
      FreshIsTold(mark, hasWriteComplete, hasHighWater);
    } else {
      var before, a := acts[..|acts| - 1], acts[|acts| - 1];
      RunIsTold(mark, hasWriteComplete, hasHighWater, before);
      InvRun(f, before);
      var c := Exec(f, before).value;
      InvStep(c, a);
      SendingStep(acts, c);
      ReceivingStep(acts, c);
      MarkStep((mark, hasHighWater), acts, c);
      EventsStep((mark, hasHighWater), acts, c);
    }
  }

  lemma FreshIsTold(mark: nat, hasWriteComplete: bool, hasHighWater: bool)
    ensures Told((mark, hasHighWater), hasWriteComplete, [], Fresh(mark, hasWriteComplete, hasHighWater))
  {
  }

  lemma SendingStep(acts: seq<Action>, c: Conn)
    requires acts != [] && Inv(c) && Sending(acts[..|acts| - 1], c) && Enabled(c, acts[|acts| - 1])
    ensures Sending(acts, Apply(c, acts[|acts| - 1]))
  {
    hide Inv, Apply, Enabled, StateOf, Queued, TaskRuns, Stream, OnWire;
    StateStep(acts, c);
    TasksStep(acts, c);
    BytesStep(acts, c);
  }

  /** Stream conservation, both ways.  For every sequence of sends and partial writes, what the kernel has
      taken followed by what is buffered is the concatenation of all messages passed to `sendInLoop` before
      the connection went down, cut where the kernel stopped taking; what the user has taken followed by
      what is in the input buffer is everything that was read. */
  lemma StreamConservation(mark: nat, hasWriteComplete: bool, hasHighWater: bool, acts: seq<Action>)
    requires Exec(Fresh(mark, hasWriteComplete, hasHighWater), acts).Some?
    ensures var c := After(mark, hasWriteComplete, hasHighWater, acts);
      && c.wire + c.output == Stream(acts) && |c.wire| == OnWire(acts)
      && c.consumed + c.input == Incoming(acts) && |c.consumed| == Taken(acts)
  {
    RunIsTold(mark, hasWriteComplete, hasHighWater, acts);
  }

  /** What other threads queue is run in the order in which they queued it: after `n` task runs exactly
      the first `n` of their sends and shutdowns have been run. */
  lemma TasksRunInOrder(mark: nat, hasWriteComplete: bool, hasHighWater: bool, acts: seq<Action>)
    requires Exec(Fresh(mark, hasWriteComplete, hasHighWater), acts).Some?
    ensures var c := After(mark, hasWriteComplete, hasHighWater, acts);
      TaskRuns(acts) <= |Queued(acts)| && Queued(acts) == Queued(acts)[..TaskRuns(acts)] + c.tasks
  {
    RunIsTold(mark, hasWriteComplete, hasHighWater, acts);
  }

  /** Every callback and socket call of every run, in order and with its arguments, and the state it
      leaves. */
  lemma CallbacksAreTold(mark: nat, hasWriteComplete: bool, hasHighWater: bool, acts: seq<Action>)
    requires Exec(Fresh(mark, hasWriteComplete, hasHighWater), acts).Some?
    ensures var c := After(mark, hasWriteComplete, hasHighWater, acts);
      c.events == Story((mark, hasHighWater), hasWriteComplete, acts) && c.state == StateOf(acts)
  {
    RunIsTold(mark, hasWriteComplete, hasHighWater, acts);
  }

  /** How often the connection's end is seen: as a hang-up or as a read of nothing. */
  function Ends(acts: seq<Action>): nat {
    if acts == [] then 0
    else Ends(acts[..|acts| - 1]) + if acts[|acts| - 1] == HangUp || acts[|acts| - 1] == Readable([]) then 1 else 0
  }

  function Bytes(data: seq<byte>): seq<nat> {
    if data == [] then [] else [|data|]
  }

  /** The sizes of the reads that delivered something. */
  function ReadSizes(acts: seq<Action>): seq<nat> {
    if acts == [] then []
    else ReadSizes(acts[..|acts| - 1]) + if acts[|acts| - 1].Readable? then Bytes(acts[|acts| - 1].data) else []
  }

  function MessageSizes(events: seq<Event>): seq<nat> {
    if events == [] then []
    else MessageSizes(events[..|events| - 1]) + if events[|events| - 1].Message? then [events[|events| - 1].n] else []
  }

  /** The close callback is made each time the end is seen, which is at most once; and the message callback
      after each read that delivered something, with its size. */
  lemma ClosesAndMessages(mark: nat, hasWriteComplete: bool, hasHighWater: bool, acts: seq<Action>)
    requires Exec(Fresh(mark, hasWriteComplete, hasHighWater), acts).Some?
    ensures var c := After(mark, hasWriteComplete, hasHighWater, acts);
      && CountOf(c.events, Close) == Ends(acts) <= 1
      && MessageSizes(c.events) == ReadSizes(acts)
  {
    RunIsTold(mark, hasWriteComplete, hasHighWater, acts);
    StoryCounts((mark, hasHighWater), hasWriteComplete, acts);
    EndsOnce(mark, hasWriteComplete, hasHighWater, acts);
  }

  lemma {:induction false} StoryCounts(first: (nat, bool), hasWriteComplete: bool, acts: seq<Action>)
    ensures CountOf(Story(first, hasWriteComplete, acts), Close) == Ends(acts)
    ensures MessageSizes(Story(first, hasWriteComplete, acts)) == ReadSizes(acts)
  {
    if acts != [] {
      StoryCounts(first, hasWriteComplete, acts[..|acts| - 1]);
      NewsCounts(first, hasWriteComplete, acts);
      CountAppend(Story(first, hasWriteComplete, acts[..|acts| - 1]), News(first, hasWriteComplete, acts), Close);
    }
  }

  lemma {:induction false} CountAppend(a: seq<Event>, b: seq<Event>, e: Event)
    ensures CountOf(a + b, e) == CountOf(a, e) + CountOf(b, e)
    ensures MessageSizes(a + b) == MessageSizes(a) + MessageSizes(b)
  {
    if b == [] {
      assert a + b == a;
    } else {
      CountAppend(a, b[..|b| - 1], e);
      assert (a + b)[..|a + b| - 1] == a + b[..|b| - 1];
    }
  }

  lemma NewsCounts(first: (nat, bool), hasWriteComplete: bool, acts: seq<Action>)
    requires acts != []
    ensures var a, news := acts[|acts| - 1], News(first, hasWriteComplete, acts);
      && CountOf(news, Close) == (if a == HangUp || a == Readable([]) then 1 else 0)
      && MessageSizes(news) == if a.Readable? then Bytes(a.data) else []
  {
    hide StateOf, Queued, TaskRuns, Offered, Stream, OnWire, MarkOf, Waiting, CountOf, MessageSizes;
    var news := News(first, hasWriteComplete, acts);
    var a := acts[|acts| - 1];
    if a.Readable? || a.HangUp? {
      EndCounts();
      if a.Readable? {
        MessageCounts(|a.data|);
      }
    } else {
      OthersCount(news);
    }
  }

  lemma EndCounts()
    ensures CountOf([Down, Close], Close) == 1 && MessageSizes([Down, Close]) == []
  {
    assert [Down, Close][..1] == [Down] && [Down][..0] == [];
  }

  lemma MessageCounts(n: nat)
    ensures CountOf([Message(n)], Close) == 0 && MessageSizes([Message(n)]) == [n]
  {
    assert [Message(n)][..0] == [];
  }

  lemma {:induction false} OthersCount(events: seq<Event>)
    requires forall i :: 0 <= i < |events| ==> events[i] != Close && !events[i].Message?
    ensures CountOf(events, Close) == 0 && MessageSizes(events) == []
  {
    if events != [] {
      OthersCount(events[..|events| - 1]);
    }
  }

  lemma EndsOnce(mark: nat, hasWriteComplete: bool, hasHighWater: bool, acts: seq<Action>)
    requires Exec(Fresh(mark, hasWriteComplete, hasHighWater), acts).Some?
    ensures Ends(acts) <= 1
    ensures Ends(acts) == 1 ==> After(mark, hasWriteComplete, hasHighWater, acts).state == Disconnected
  {
    var f := Fresh(mark, hasWriteComplete, hasHighWater);
    if acts != [] {
      var before, a := acts[..|acts| - 1], acts[|acts| - 1];
      EndsOnce(mark, hasWriteComplete, hasHighWater, before);
      FreshInv(mark, hasWriteComplete, hasHighWater);
      InvRun(f, before);
      RankStep(Exec(f, before).value, a);
    }
  }
  /** The socket is half-closed by this step. */
  predicate ShutsDown(c: Conn, a: Action)
    requires Enabled(c, a)
  {
    CountOf(Apply(c, a).events, ShutWrite) > CountOf(c.events, ShutWrite)
  }

  /** Graceful half-close: on a connection that is not down, write interest is on exactly while bytes
      are buffered, a step half-closes the socket only if every byte ever accepted is on the wire, and
      a shutdown that had to wait fires on exactly the write that drains the buffer. */
  lemma HalfCloseIsGraceful(c: Conn, a: Action)
    requires Inv(c) && Enabled(c, a)
    ensures c.state != Disconnected ==> (c.chan.interest.writing <==> c.output != [])
    ensures ShutsDown(c, a) && c.state != Disconnected ==> Apply(c, a).wire == Apply(c, a).sent
    ensures c.state == Disconnecting && a.Writable? ==> (ShutsDown(c, a) <==> a.k == |c.output|)
    ensures c.state == Connected && a == ShutdownCall(true) ==> (ShutsDown(c, a) <==> c.output == [])
  {
    hide Conn.SendInLoop, Conn.HandleWrite, Conn.HandleClose, CountOf, CountHighWater, ChannelInv, Registration.Agrees;
    InvStep(c, a);
    match a
    case SendCall(inLoop, msg, k) => SendCallbacks(c, msg, k);
    case TaskRun(k) =>
      if c.tasks[0].SendTask? {
        SendCallbacks(c.(tasks := c.tasks[1..]), c.tasks[0].msg, k);
      }
    case Writable(k) =>
      WritableIsWriting(c, k);
      HandleWriteCallbacks(c, k);
      HandleWriteStream(c, k);
    case HangUp =>
      CloseStep(c);
      CloseKeepsBytes(c);
    case Readable(data) =>
      if data == [] {
        EndIsReported(c);
        CloseStep(c);
        CloseKeepsBytes(c);
      }
    case _ =>
    assert Apply(c, a).wire + Apply(c, a).output == Apply(c, a).sent;
  }

  /** Exactly when a step half-closes the socket: a shutdown on the loop thread with nothing buffered, a
      queued one when it runs with nothing buffered or on a connection that is down, and a write that
      drains the buffer after a shutdown that had to wait. */
  lemma HalfClosesExactlyWhen(c: Conn, a: Action)
    requires Inv(c) && Enabled(c, a)
    ensures ShutsDown(c, a) <==>
      ((a == ShutdownCall(true) && c.state == Connected && c.output == []) ||
       (a.TaskRun? && c.tasks[0] == ShutdownTask && (c.state == Disconnected || c.output == [])) ||
       (a.Writable? && c.state == Disconnecting && a.k == |c.output|))
  {
    hide Apply, Accepts, Enabled, CountOf, Inv;
    var news := EventsOfStep(c, a);
    CountAppend(c.events, news, ShutWrite);
    CountIn(news, ShutWrite);
  }

  lemma EventsOfStep(c: Conn, a: Action) returns (news: seq<Event>)
    requires Inv(c) && Enabled(c, a)
    ensures Apply(c, a).events == c.events + news
    ensures ShutWrite in news <==>
      ((a == ShutdownCall(true) && c.state == Connected && c.output == []) ||
       (a.TaskRun? && c.tasks[0] == ShutdownTask && (c.state == Disconnected || c.output == [])) ||
       (a.Writable? && c.state == Disconnecting && a.k == |c.output|))
  {
    hide Apply, Accepts, CountOf, Inv;
    if Accepts(c, a).Some? {
      OnlyTheseAccept(c, a);
      AcceptedEffect(c, a);
      AcceptedIsNoShutdown(c, a);
      news := SendNews(c, Apply(c, a));
    } else if a.Writable? {
      WriteApplied(c, a.k);
      news := WriteNews(c, c.HandleWrite(a.k));
    } else {
      OtherEvents(c, a);
      news := OtherNews(c, a);
    }
  }

  lemma AcceptedIsNoShutdown(c: Conn, a: Action)
    requires Accepts(c, a).Some?
    ensures a != ShutdownCall(true) && !a.Writable? && (a.TaskRun? ==> c.tasks != [] && c.tasks[0] != ShutdownTask)
  {
  }

  lemma {:induction false} CountIn(events: seq<Event>, e: Event)
    ensures CountOf(events, e) > 0 <==> e in events
  {
    if events != [] {
      CountIn(events[..|events| - 1], e);
    }
  }

  /** A half-close leaves accepted bytes off the wire exactly when it comes late: on a connection that is
      already down, by a queued shutdown, with bytes left in the buffer. */
  lemma LateShutdownCutsOff(c: Conn, a: Action)
    requires Inv(c) && Enabled(c, a) && ShutsDown(c, a)
    ensures Apply(c, a).wire != Apply(c, a).sent <==> c.state == Disconnected && c.output != []
  {
    HalfCloseIsGraceful(c, a);
    if c.state == Disconnected {
      DownShutsOnlyLate(c, a);
      AllOutIffNoneBuffered(c);
    }
  }

  lemma DownShutsOnlyLate(c: Conn, a: Action)
    requires Inv(c) && Enabled(c, a) && ShutsDown(c, a) && c.state == Disconnected
    ensures a.TaskRun? && c.tasks[0] == ShutdownTask
    ensures Apply(c, a).wire == c.wire && Apply(c, a).sent == c.sent
  {
    match a
    case Writable(k) => NoWritesWhenDown(c, k);
    case _ =>
  }

  lemma ExecNext(c: Conn, acts: seq<Action>, m: Conn, a: Action) returns (more: seq<Action>)
    requires Exec(c, acts) == Some(m) && Enabled(m, a)
    ensures more == acts + [a] && Exec(c, more) == Some(Apply(m, a))
  {
    more := acts + [a];
    assert more[..|more| - 1] == acts;
  }

  /** It does happen: the kernel takes nothing of a message, another thread asks for a shutdown, the peer
      hangs up, and only then the queued shutdown runs. */
  lemma LateShutdownHappens(msg: seq<byte>) returns (acts: seq<Action>, c: Conn)
    requires msg != []
    ensures Exec(Fresh(1, false, false), acts) == Some(c) && Enabled(c, TaskRun(0)) && ShutsDown(c, TaskRun(0))
    ensures Apply(c, TaskRun(0)).wire == [] && Apply(c, TaskRun(0)).sent == msg
  {
    var f := Fresh(1, false, false);
    acts := ExecNext(f, [], f, Establish);
    var up := Apply(f, Establish);
    acts := ExecNext(f, acts, up, SendCall(true, msg, 0));
    var full := Apply(up, SendCall(true, msg, 0));
    acts := ExecNext(f, acts, full, ShutdownCall(false));
    var asked := Apply(full, ShutdownCall(false));
    acts := ExecNext(f, acts, asked, HangUp);
    c := Apply(asked, HangUp);
    assert c.tasks == [ShutdownTask] && c.sent == msg && c.wire == [];
  }

  function Rank(s: StateE): nat {
    match s
    case Connecting => 0
    case Connected => 1
    case Disconnecting => 2
    case Disconnected => 3
  }

  lemma RankStep(c: Conn, a: Action)
    requires Inv(c) && Enabled(c, a)
    ensures Rank(Apply(c, a).state) >= Rank(c.state)
  {
    match a
    case SendCall(_, msg, k) => SendStream(c, msg, k);
    case TaskRun(k) =>
      if c.tasks[0].SendTask? {
        SendStream(c.(tasks := c.tasks[1..]), c.tasks[0].msg, k);
      }
    case Writable(k) => HandleWriteStream(c, k);
    case _ =>
  }

  /** Over any stretch of a run the state only moves forward; the user is called up at most once and
      down at most once, and down only after up; a connection that is down never has interest or a
      kernel entry again. */
  lemma {:induction false} StateRuns(c: Conn, acts: seq<Action>)
    requires Inv(c) && Exec(c, acts).Some?
    ensures var r := Exec(c, acts).value;
      && Rank(r.state) >= Rank(c.state)
      && CountOf(r.events, Up) <= 1 && CountOf(r.events, Down) <= CountOf(r.events, Up)
      && (c.state == Disconnected ==> r.chan.interest.IsNone() && r.chan.kernel == None)
  {
    InvRun(c, acts);
    if acts != [] {
      StateRuns(c, acts[..|acts| - 1]);
      InvRun(c, acts[..|acts| - 1]);
      RankStep(Exec(c, acts[..|acts| - 1]).value, acts[|acts| - 1]);
    }
  }

  /** A message that another thread has queued and that is still to be sent. */
  predicate Unsent(task: Task) {
    task.SendTask? && task.msg != []
  }

  predicate SomeUnsent(c: Conn) {
    exists i :: 0 <= i < |c.tasks| && Unsent(c.tasks[i])
  }

  /** A connection half-way through a shutdown with nothing buffered, and a message still queued. */
  predicate MayComeBack(c: Conn) {
    c.state == Disconnecting && c.output == [] && SomeUnsent(c)
  }

  /** Destroyed, out of the kernel's table, and in no state that could bring it back. */
  predicate Absent(c: Conn) {
    c.destroyed && c.chan.kernel == None && c.state != Connected &&
    (c.state == Disconnecting && !c.chan.interest.writing ==> !SomeUnsent(c))
  }

  lemma AbsentStep(c: Conn, a: Action)
    requires Inv(c) && Absent(c) && Enabled(c, a)
    ensures Absent(Apply(c, a))
  {
    if a.TaskRun? {
      AbsentTask(c, a.k);
    }
  }

  lemma AbsentTask(c: Conn, k: nat)
    requires Inv(c) && Absent(c) && Enabled(c, TaskRun(k))
    ensures Absent(c.RunTask(k))
  {
    var m := c.(tasks := c.tasks[1..]);
    assert Absent(m) by {
      assert forall i :: 0 <= i < |m.tasks| ==> m.tasks[i] == c.tasks[i + 1];
    }
    if c.tasks[0].SendTask? {
      assert !Unsent(c.tasks[0]) || c.state != Disconnecting || c.chan.interest.writing;
      AbsentSend(m, c.tasks[0].msg, k);
    }
  }

  lemma AbsentSend(c: Conn, msg: seq<byte>, k: nat)
    requires Absent(c) && k <= |msg| && c.state != Connecting
    requires c.state == Disconnecting && !c.chan.interest.writing ==> msg == []
    ensures Absent(c.SendInLoop(msg, k))
  {
  }

  /** From any other state it stays out over every run that follows. */
  lemma {:induction false} DestroyedForGood(c: Conn, acts: seq<Action>)
    requires Inv(c) && !MayComeBack(c) && Exec(c.ConnectDestroyed(), acts).Some?
    ensures Absent(Exec(c.ConnectDestroyed(), acts).value)
  {
    DestroyStep(c);
    if acts != [] {
      DestroyedForGood(c, acts[..|acts| - 1]);
      InvRun(c.ConnectDestroyed(), acts[..|acts| - 1]);
      AbsentStep(Exec(c.ConnectDestroyed(), acts[..|acts| - 1]).value, acts[|acts| - 1]);
    }
  }

  lemma {:induction false} ExecAppend(c: Conn, a: seq<Action>, b: seq<Action>)
    requires Exec(c, a).Some?
    ensures Exec(c, a + b) == Exec(Exec(c, a).value, b)
  {
    hide Enabled, Apply;
    if b == [] {
      assert a + b == a;
    } else {
      ExecAppend(c, a, b[..|b| - 1]);
      assert (a + b)[..|a + b| - 1] == a + b[..|b| - 1];
    }
  }

  /** Out of the poller, with a message queued and nothing buffered: running the tasks up to that message
      registers the channel again. */
  lemma {:induction false} TasksBringBack(c: Conn, i: nat) returns (acts: seq<Action>)
    requires c.state == Disconnecting && c.output == [] && !c.chan.interest.writing
    requires c.chan.kernel == None && c.chan.index == New
    requires i < |c.tasks| && Unsent(c.tasks[i])
    ensures Exec(c, acts).Some? && Exec(c, acts).value.chan.kernel.Some?
    decreases |c.tasks|
  {
    var m := Apply(c, TaskRun(0));
    acts := ExecNext(c, [], c, TaskRun(0));
    if !Unsent(c.tasks[0]) {
      IdleTask(c);
      var rest := TasksBringBack(m, i - 1);
      ExecAppend(c, acts, rest);
      acts := acts + rest;
    }
  }

  lemma IdleTask(c: Conn)
    requires c.state == Disconnecting && c.output == [] && !c.chan.interest.writing
    requires c.tasks != [] && !Unsent(c.tasks[0])
    ensures var m := Apply(c, TaskRun(0));
      m.state == c.state && m.output == c.output && m.chan == c.chan && m.tasks == c.tasks[1..]
  {
  }

  /** `connectDestoryed` leaves the channel out of the poller from every state.  It can be registered again
      afterwards exactly when the connection was half-way through a shutdown with nothing buffered and a
      message of another thread was still queued. */
  lemma DestroyedStaysAbsent(c: Conn)
    requires Inv(c)
    ensures var d := c.ConnectDestroyed();
      && d.chan.kernel == None && !d.chan.inMap && d.chan.index == New
      && ((exists acts :: Exec(d, acts).Some? && Exec(d, acts).value.chan.kernel.Some?) <==> MayComeBack(c))
  {
    var d := c.ConnectDestroyed();
    DestroyStep(c);
    RemovedIsNew(c);
    if MayComeBack(c) {
      var i :| 0 <= i < |c.tasks| && Unsent(c.tasks[i]);
      var acts := TasksBringBack(d, i);
    } else {
      forall acts | Exec(d, acts).Some?
        ensures Exec(d, acts).value.chan.kernel == None
      {
        DestroyedForGood(c, acts);
      }
    }
  }

  lemma RemovedIsNew(c: Conn)
    ensures c.ConnectDestroyed().chan.index == New && c.ConnectDestroyed().tasks == c.tasks
    ensures c.ConnectDestroyed().output == c.output
    ensures c.state == Disconnecting ==> c.ConnectDestroyed().state == Disconnecting &&
                                         c.ConnectDestroyed().chan.interest == c.chan.interest
  {
  }

  lemma LateSend(f: Conn, acts: seq<Action>, c: Conn, msg: seq<byte>) returns (more: seq<Action>, r: Conn)
    requires Exec(f, acts) == Some(c) && c.tasks == [SendTask(msg)] && msg != []
    requires c.destroyed && c.state == Disconnecting && c.output == [] && !c.chan.interest.writing
    requires c.chan.kernel == None && c.chan.index == New
    ensures more == acts + [TaskRun(0)] && Exec(f, more) == Some(r) && r.destroyed && r.chan.kernel.Some?
  {
    more := ExecNext(f, acts, c, TaskRun(0));
    r := Apply(c, TaskRun(0));
  }

  /** It does happen: a message is queued by another thread, the loop shuts the connection down and
      destroys it, and then the message is sent. */
  lemma DestroyedComesBack(msg: seq<byte>) returns (acts: seq<Action>, c: Conn)
    requires msg != []
    ensures acts == [Establish, SendCall(false, msg, 0), ShutdownCall(true), Destroy, TaskRun(0)]
    ensures Exec(Fresh(1, false, false), acts) == Some(c) && c.destroyed && c.chan.kernel.Some?
  {
    var f := Fresh(1, false, false);
    acts := ExecNext(f, [], f, Establish);
    var up := Apply(f, Establish);
    acts := ExecNext(f, acts, up, SendCall(false, msg, 0));
    var asked := Apply(up, SendCall(false, msg, 0));
    acts := ExecNext(f, acts, asked, ShutdownCall(true));
    var half := Apply(asked, ShutdownCall(true));
    acts := ExecNext(f, acts, half, Destroy);
    assert half.ConnectDestroyed().tasks == [SendTask(msg)];
    acts, c := LateSend(f, acts, half.ConnectDestroyed(), msg);
  }

  // ---------------------------------------------------------------- callback accounting

  /** Completion is queued on exactly the sends and write-ready steps that end with everything on the
      wire; high water on exactly the sends that cross the mark upwards. */
  lemma CallbackAccounting(c: Conn, a: Action)
    requires Inv(c) && Enabled(c, a) && c.state != Disconnected
    ensures var r := Apply(c, a);
      && CountOf(r.events, WriteComplete) == CountOf(c.events, WriteComplete) +
         (if c.hasWriteComplete && (Accepts(c, a).Some? || a.Writable?) && r.wire == r.sent then 1 else 0)
      && HighWaterCount(r) == HighWaterCount(c) +
         (if c.hasHighWater && Accepts(c, a).Some? && |c.output| < c.mark <= |r.output| then 1 else 0)
  {
    hide Conn.SendInLoop, Conn.HandleWrite, Conn.HandleClose, CountOf, CountHighWater, ChannelInv, Registration.Agrees;
    InvStep(c, a);
    match a
    case SendCall(_, msg, k) => SendCallbacks(c, msg, k);
    case TaskRun(k) =>
      if c.tasks[0].SendTask? {
        SendCallbacks(c.(tasks := c.tasks[1..]), c.tasks[0].msg, k);
      }
    case Writable(k) =>
      WritableIsWriting(c, k);
      HandleWriteCallbacks(c, k);
      HandleWriteStream(c, k);
    case HangUp =>
      CloseStep(c);
      CloseKeepsBytes(c);
    case Readable(data) =>
      if data == [] {
        EndIsReported(c);
        CloseStep(c);
        CloseKeepsBytes(c);
      }
    case _ =>
    AllOutIffNoneBuffered(Apply(c, a));
  }

  lemma AllOutIffNoneBuffered(c: Conn)
    requires StreamInv(c)
    ensures c.wire == c.sent <==> c.output == []
  {
    if c.output == [] {
      assert c.wire + [] == c.wire;
    } else {
      assert |c.wire + c.output| > |c.wire|;
    }
  }

  /** The step queues a high-water callback. */
  predicate HitsHighWater(c: Conn, a: Action)
    requires Enabled(c, a)
  {
    HighWaterCount(Apply(c, a)) > HighWaterCount(c)
  }

  /** The step is a write that brings the buffer from the mark or above to below it. */
  predicate DrainsBelow(c: Conn, a: Action)
    requires Enabled(c, a)
  {
    a.Writable? && |c.output| >= c.mark > |Apply(c, a).output|
  }

  lemma AboveSend(c: Conn, msg: seq<byte>, k: nat)
    requires StreamInv(c) && k <= |msg| && |c.output| >= c.mark
    ensures var r := c.SendInLoop(msg, k);
      r.mark == c.mark && |r.output| >= |c.output| && HighWaterCount(r) == HighWaterCount(c)
  {
    hide Conn.SendInLoop, CountOf, CountHighWater;
    SendStream(c, msg, k);
    SendCallbacks(c, msg, k);
  }

  lemma AboveUntilDrained(c: Conn, a: Action)
    requires Inv(c) && Enabled(c, a) && |c.output| >= c.mark && !a.SetHighWater?
    ensures Apply(c, a).mark == c.mark
    ensures |Apply(c, a).output| >= c.mark || DrainsBelow(c, a)
    ensures !HitsHighWater(c, a)
  {
    hide Conn.SendInLoop, Conn.HandleWrite, Conn.HandleClose, CountOf, CountHighWater, ChannelInv, Registration.Agrees;
    match a
    case SendCall(_, msg, k) =>
      AboveSend(c, msg, k);
    case TaskRun(k) =>
      if c.tasks[0].SendTask? {
        AboveSend(c.(tasks := c.tasks[1..]), c.tasks[0].msg, k);
      }
    case Writable(k) =>
      WritableIsWriting(c, k);
      HandleWriteStream(c, k);
      HandleWriteCallbacks(c, k);
    case HangUp =>
      CloseStep(c);
      CloseKeepsBytes(c);
    case Readable(data) =>
      if data == [] {
        EndIsReported(c);
        CloseStep(c);
        CloseKeepsBytes(c);
      }
    case _ =>
  }

  /** While no write has brought the buffer below the mark since it was at or above it, no high-water
      callback is queued: two of them are always separated by a drain below the mark. */
  lemma {:induction false} DrainBetweenHighWaters(c: Conn, acts: seq<Action>)
    requires Inv(c) && Exec(c, acts).Some? && |c.output| >= c.mark
    requires forall i :: 0 <= i < |acts| ==> !acts[i].SetHighWater?
    requires forall i :: 0 <= i < |acts| ==>
      Exec(c, acts[..i]).Some? && Enabled(Exec(c, acts[..i]).value, acts[i]) &&
      !DrainsBelow(Exec(c, acts[..i]).value, acts[i])
    ensures var r := Exec(c, acts).value;
      r.mark == c.mark && |r.output| >= r.mark && HighWaterCount(r) == HighWaterCount(c)
  {
    if acts != [] {
      var before := acts[..|acts| - 1];
      assert forall i :: 0 <= i < |before| ==> before[..i] == acts[..i];
      DrainBetweenHighWaters(c, before);
      InvRun(c, before);
      var m := Exec(c, before).value;
      AboveUntilDrained(m, acts[|acts| - 1]);
      HighWaterGrows(m, acts[|acts| - 1]);
    }
  }

  lemma HighWaterGrows(c: Conn, a: Action)
    requires Inv(c) && Enabled(c, a)
    ensures HighWaterCount(Apply(c, a)) >= HighWaterCount(c)
  {
    match a
    case SendCall(_, msg, k) => SendCallbacks(c, msg, k);
    case TaskRun(k) =>
      if c.tasks[0].SendTask? {
        SendCallbacks(c.(tasks := c.tasks[1..]), c.tasks[0].msg, k);
      }
    case _ =>
  }

  // ---------------------------------------------------------------- dispatch of one report

  /** The event bits of one epoll report. */
  datatype Report = Report(hup: bool, in_: bool, err: bool, pri: bool, out: bool)

  /** `Channel::handelEventWithGuard`: the handlers in the source's order.  A read delivers `data`, a
      write has the kernel take `k` bytes of what is then buffered, or all if that is less. */
  function HandleEvent(c: Conn, r: Report, data: seq<byte>, k: nat): Conn {
    var c1 := if r.hup && !r.in_ then c.HandleClose() else c;
    var c2 := if r.in_ || r.pri then c1.HandleRead(data) else c1;
    if r.out then c2.HandleWrite(Limited(k, |c2.output|)) else c2
  }

  /** A report the kernel can give: only for an entry, and of the watched events. */
  predicate Possible(c: Conn, r: Report) {
    && c.chan.kernel.Some?
    && (r.in_ || r.pri ==> c.chan.kernel.value.reading)
    && (r.out ==> c.chan.kernel.value.writing)
  }

  /** The close callback and a read of zero bytes in one dispatch. */
  predicate ClosesTwice(r: Report, data: seq<byte>) {
    r.hup && !r.in_ && r.pri && data == []
  }

  /** The connection's end is seen, as a hang-up without input or as a read of nothing. */
  predicate SeesEnd(r: Report, data: seq<byte>) {
    (r.hup && !r.in_) || ((r.in_ || r.pri) && data == [])
  }

  /** What one report amounts to: a hang-up if it carries one without input, a read if it carries input or
      urgent data, and a write if it carries write-readiness and the connection is not down by then. */
  function DispatchActs(c: Conn, r: Report, data: seq<byte>, k: nat): seq<Action> {
    (if r.hup && !r.in_ then [HangUp] else []) +
    (if r.in_ || r.pri then [Readable(data)] else []) +
    (if r.out && !SeesEnd(r, data) then [Writable(Limited(k, |c.output|))] else [])
  }

  function Limited(k: nat, n: nat): nat {
    if k <= n then k else n
  }

  /** The dispatch of one report, which closes at most once, is a run of the machine: these actions in this
      order, and nothing else. */
  lemma DispatchIsRun(c: Conn, r: Report, data: seq<byte>, k: nat)
    requires Inv(c) && Possible(c, r) && !ClosesTwice(r, data)
    ensures Exec(c, DispatchActs(c, r, data, k)) == Some(HandleEvent(c, r, data, k))
  {
    hide Conn.HandleClose, Conn.HandleRead, Conn.HandleWrite, Exec;
    if r.hup && !r.in_ {
      ClosingDispatch(c, r, data, k);
    } else {
      OpenDispatch(c, r, data, k);
    }
  }

  /** A run of one action and of two. */
  lemma ExecOne(c: Conn, a: Action)
    requires Enabled(c, a)
    ensures Exec(c, [a]) == Some(Apply(c, a))
  {
    var acts := ExecNext(c, [], c, a);
    assert acts == [a];
  }

  lemma ExecTwo(c: Conn, a: Action, b: Action)
    requires Enabled(c, a) && Enabled(Apply(c, a), b)
    ensures Exec(c, [a, b]) == Some(Apply(Apply(c, a), b))
  {
    ExecOne(c, a);
    var acts := ExecNext(c, [a], Apply(c, a), b);
    assert acts == [a, b];
  }

  lemma ClosingDispatch(c: Conn, r: Report, data: seq<byte>, k: nat)
    requires Inv(c) && Possible(c, r) && r.hup && !r.in_ && (r.pri ==> data != [])
    ensures Exec(c, DispatchActs(c, r, data, k)) == Some(HandleEvent(c, r, data, k))
  {
    hide Conn.HandleClose, Conn.HandleRead, Conn.HandleWrite, Exec;
    var c1 := c.HandleClose();
    CloseStep(c);
    DownIsSilent(c1);
    ExecOne(c, HangUp);
    if r.pri {
      ReadStep(c1, data);
      ReadKeepsChannel(c1, data);
      ExecTwo(c, HangUp, Readable(data));
      assert DispatchActs(c, r, data, k) == [HangUp, Readable(data)];
    } else {
      assert DispatchActs(c, r, data, k) == [HangUp];
    }
    var c2 := if r.pri then c1.HandleRead(data) else c1;
    NoWritesWhenDown(c2, Limited(k, |c2.output|));
  }

  lemma DownIsSilent(c: Conn)
    requires Inv(c) && c.state == Disconnected
    ensures !c.chan.interest.writing
  {
  }

  lemma ReadKeepsChannel(c: Conn, data: seq<byte>)
    requires data != []
    ensures var r := c.HandleRead(data);
      r.chan == c.chan && r.output == c.output && r.wire == c.wire && r.state == c.state && r.sent == c.sent
  {
  }

  lemma OpenDispatch(c: Conn, r: Report, data: seq<byte>, k: nat)
    requires Inv(c) && Possible(c, r) && !(r.hup && !r.in_)
    ensures Exec(c, DispatchActs(c, r, data, k)) == Some(HandleEvent(c, r, data, k))
  {
    hide Conn.HandleClose, Conn.HandleRead, Conn.HandleWrite, Exec;
    if r.in_ || r.pri {
      ExecOne(c, Readable(data));
      if data == [] {
        EmptyReadCloses(c);
        CloseStep(c);
        DownIsSilent(c.HandleClose());
        var c2 := c.HandleClose();
        NoWritesWhenDown(c2, Limited(k, |c2.output|));
        assert DispatchActs(c, r, data, k) == [Readable(data)];
      } else {
        ReadKeepsChannel(c, data);
        ReadThenWrite(c, r, data, k);
      }
    } else if r.out {
      ExecOne(c, Writable(Limited(k, |c.output|)));
      assert DispatchActs(c, r, data, k) == [Writable(Limited(k, |c.output|))];
    } else {
      assert DispatchActs(c, r, data, k) == [];
      ExecNone(c);
    }
  }

  lemma ExecNone(c: Conn)
    ensures Exec(c, []) == Some(c)
  {
  }

  lemma EmptyReadCloses(c: Conn)
    ensures c.HandleRead([]) == c.HandleClose()
  {
  }

  lemma ReadThenWrite(c: Conn, r: Report, data: seq<byte>, k: nat)
    requires Inv(c) && Possible(c, r) && !(r.hup && !r.in_) && (r.in_ || r.pri) && data != []
    ensures Exec(c, DispatchActs(c, r, data, k)) == Some(HandleEvent(c, r, data, k))
  {
    hide Conn.HandleClose, Conn.HandleRead, Conn.HandleWrite, Exec;
    ExecOne(c, Readable(data));
    ReadKeepsChannel(c, data);
    if r.out {
      ExecTwo(c, Readable(data), Writable(Limited(k, |c.output|)));
      assert DispatchActs(c, r, data, k) == [Readable(data), Writable(Limited(k, |c.output|))];
    } else {
      assert DispatchActs(c, r, data, k) == [Readable(data)];
    }
  }

  /** What one report does to the bytes and the state.  Without an end the bytes read reach the input
      buffer and a write-ready connection gives the kernel what it takes from the front of the output
      buffer; an end takes the connection down and leaves the outgoing bytes alone. */
  lemma DispatchMoves(c: Conn, r: Report, data: seq<byte>, k: nat)
    requires Inv(c) && Possible(c, r)
    ensures var d, m := HandleEvent(c, r, data, k), if r.out && !SeesEnd(r, data) then Limited(k, |c.output|) else 0;
      && d.wire == c.wire + c.output[..m] && d.output == c.output[m..]
      && d.input == c.input + (if r.in_ || r.pri then data else [])
      && (d.state == if SeesEnd(r, data) then Disconnected else c.state)
  {
    hide Conn.HandleClose, Conn.HandleRead, Conn.HandleWrite;
    var c1 := if r.hup && !r.in_ then c.HandleClose() else c;
    CloseMoves(c);
    var c2 := if r.in_ || r.pri then c1.HandleRead(data) else c1;
    ReadMoves(c1, data);
    if SeesEnd(r, data) {
      NoWritesWhenDown(c2, Limited(k, |c2.output|));
    } else if r.out {
      if r.in_ || r.pri {
        ReadStep(c, data);
      }
      WriteApplied(c2, Limited(k, |c.output|));
    }
    assert c.wire + [] == c.wire && c.input + [] == c.input;
  }

  lemma CloseMoves(c: Conn)
    ensures var r := c.HandleClose();
      r.wire == c.wire && r.output == c.output && r.input == c.input && r.state == Disconnected && !r.chan.interest.writing
  {
    hide CountOf, CountHighWater;
    DisableAllClears(c.chan);
  }

  lemma DisableAllClears(r: Registration)
    ensures !r.DisableAll().interest.writing
  {
  }

  lemma ReadMoves(c: Conn, data: seq<byte>)
    ensures var r := c.HandleRead(data);
      && r.wire == c.wire && r.output == c.output && r.input == c.input + data
      && (if data == [] then r.state == Disconnected && !r.chan.interest.writing
          else r.state == c.state && r.chan == c.chan)
  {
    hide Conn.HandleClose, CountOf, CountHighWater;
    CloseMoves(c);
    assert c.input + [] == c.input;
  }

  /** One report brings the user down callback twice, and leaves the dead connection in the kernel's
      table with an empty mask, exactly when it carries hang-up and urgent data without input and the
      read returns nothing. */
  lemma DispatchClosesOnce(c: Conn, r: Report, data: seq<byte>, k: nat)
    requires Inv(c) && Possible(c, r)
    ensures var d := HandleEvent(c, r, data, k);
      && (CountOf(d.events, Down) == CountOf(c.events, Down) + 2 <==> ClosesTwice(r, data))
      && (d.chan.kernel == Some(NO_INTEREST) && d.state == Disconnected <==> ClosesTwice(r, data))
      && (!ClosesTwice(r, data) ==> Inv(d))
  {
    if r.hup && !r.in_ {
      CloseStep(c);
      DispatchAfterClose(c.HandleClose(), r, data, k);
    } else {
      DispatchWithoutClose(c, r, data, k);
    }
  }

  /** It does happen, on a connection that has just been established. */
  lemma DispatchClosesTwice()
    ensures var c, r := Fresh(1, false, false).ConnectEstablished(), Report(true, false, false, true, false);
      && Exec(Fresh(1, false, false), [Establish]) == Some(c) && Possible(c, r) && ClosesTwice(r, [])
      && CountOf(HandleEvent(c, r, [], 0).events, Down) == 2
  {
    var f := Fresh(1, false, false);
    var acts := ExecNext(f, [], f, Establish);
    var c, r := f.ConnectEstablished(), Report(true, false, false, true, false);
    assert acts == [Establish];
    FreshInv(1, false, false);
    EstablishStep(f);
    DispatchClosesOnce(c, r, [], 0);
  }

  lemma DispatchAfterClose(c1: Conn, r: Report, data: seq<byte>, k: nat)
    requires Inv(c1) && c1.state == Disconnected && r.hup && !r.in_
    ensures var c2 := if r.pri then c1.HandleRead(data) else c1;
      && !c2.chan.interest.writing
      && (ClosesTwice(r, data) ==>
            c2.chan.kernel == Some(NO_INTEREST) && c2.state == Disconnected &&
            CountOf(c2.events, Down) == CountOf(c1.events, Down) + 1)
      && (!ClosesTwice(r, data) ==> Inv(c2) && c2.state == Disconnected)
  {
    if ClosesTwice(r, data) {
      DisableAllUnregistersIffAdded(c1.chan);
    } else if r.pri {
      ReadStep(c1, data);
    }
  }

  lemma DispatchWithoutClose(c: Conn, r: Report, data: seq<byte>, k: nat)
    requires Inv(c) && Possible(c, r) && !(r.hup && !r.in_)
    ensures Inv(HandleEvent(c, r, data, k))
  {
    var c2 := if r.in_ || r.pri then c.HandleRead(data) else c;
    if r.in_ || r.pri {
      ReadStep(c, data);
    }
    HandleWriteStep(c2, Limited(k, |c2.output|));
  }
}
