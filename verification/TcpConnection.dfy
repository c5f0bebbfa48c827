/** The connection class of src/TcpConnection.cpp over the real buffers, channel and poller.

    Every method is proved to do to the object what the function of the same name in `Connections`
    does to its abstract state, so what is proved there about runs holds of the object. */
module TcpConnections {
  import opened Options
  import opened Pollers
  import B = Buffers
  import C = Connections

  type byte = bv8

  class TcpConnection {
    const channel: Channel
    const outputBuffer: B.Buffer
    const inputBuffer: B.Buffer
    var state: C.StateE
    var highWaterMark: nat
    var hasWriteComplete: bool
    var hasHighWater: bool
    /** Tasks other threads have queued on the loop for this connection. */
    var tasks: seq<C.Task>

    ghost var wire: seq<byte>
    ghost var sent: seq<byte>
    ghost var received: seq<byte>
    ghost var consumed: seq<byte>
    ghost var destroyed: bool
    ghost var events: seq<C.Event>

    ghost predicate Valid()
      reads this, channel.poller, channel.poller.known, outputBuffer, inputBuffer
    {
      && channel.poller.Valid() && channel in channel.poller.known
      && outputBuffer.Valid() && inputBuffer.Valid()
      && outputBuffer != inputBuffer && outputBuffer.data != inputBuffer.data
    }

    ghost function View(): C.Conn
      reads this, channel, channel.poller, outputBuffer, outputBuffer.data, inputBuffer, inputBuffer.data
      requires outputBuffer.Valid() && inputBuffer.Valid()
    {
      C.Conn(state, channel.poller.View(channel), outputBuffer.Contents(), inputBuffer.Contents(),
             highWaterMark, hasWriteComplete, hasHighWater, wire, sent, received, consumed, tasks,
             destroyed, events)
    }

    constructor (poller: EpollPoller, fd: nat, hasWriteComplete: bool)
      requires poller.Valid() && poller.refused == 0 && forall c :: c in poller.known ==> c.fd != fd
      modifies poller`known
      ensures Valid() && channel.poller == poller && channel.fd == fd
      ensures fresh(channel) && fresh(outputBuffer) && fresh(inputBuffer)
      ensures fresh(outputBuffer.data) && fresh(inputBuffer.data)
      ensures View() == C.Fresh(64 * 1024 * 1024, hasWriteComplete, false)
    {
      channel := new Channel(poller, fd);
      outputBuffer := new B.Buffer();
      inputBuffer := new B.Buffer();
      state := C.Connecting;
      highWaterMark := 64 * 1024 * 1024;
      this.hasWriteComplete := hasWriteComplete;
      hasHighWater := false;
      tasks := [];
      wire, sent, received, consumed, destroyed, events := [], [], [], [], false, [];
    }

    method SetHighWaterMarkCallback(mark: nat)
      requires Valid()
      modifies this
      ensures Valid() && View() == C.Apply(old(View()), C.SetHighWater(mark))
    {
      highWaterMark := mark;
      hasHighWater := true;
    }

    /** The channel operations, as seen from the connection. */
    method WatchReads()
      requires Valid()
      modifies channel, channel.poller`channels, channel.poller`kernel, channel.poller`refused
      ensures Valid() && View() == old(View()).(chan := old(View()).chan.EnableReading())
    {
      channel.EnableReading();
    }

    /** `enableWriting`. */
    method WatchWrites()
      requires Valid()
      modifies channel, channel.poller`channels, channel.poller`kernel, channel.poller`refused
      ensures Valid() && View() == old(View()).(chan := old(View()).chan.EnableWriting())
    {
      channel.EnableWriting();
    }

    /** `disableWriting`. */
    method UnwatchWrites()
      requires Valid()
      modifies channel, channel.poller`channels, channel.poller`kernel, channel.poller`refused
      ensures Valid() && View() == old(View()).(chan := old(View()).chan.DisableWriting())
    {
      channel.DisableWriting();
    }

    /** `disableAll`. */
    method Unwatch()
      requires Valid()
      modifies channel, channel.poller`channels, channel.poller`kernel, channel.poller`refused
      ensures Valid() && View() == old(View()).(chan := old(View()).chan.DisableAll())
    {
      channel.DisableAll();
    }

    /** `remove`. */
    method Unregister()
      requires Valid()
      modifies channel, channel.poller`channels, channel.poller`kernel, channel.poller`refused
      ensures Valid() && View() == old(View()).(chan := old(View()).chan.Remove())
    {
      channel.Remove();
    }

    /** `sendInLoop`; `k` is how much of the message the kernel takes if it is offered directly. */
    method SendInLoop(msg: seq<byte>, k: nat)
      requires Valid() && k <= |msg|
      modifies this, channel, channel.poller`channels, channel.poller`kernel, channel.poller`refused
      modifies outputBuffer, outputBuffer.data
      ensures Valid() && (outputBuffer.data == old(outputBuffer.data) || fresh(outputBuffer.data))
      ensures View() == old(View()).SendInLoop(msg, k)
    {
      hide EpollPoller.Valid, C.Conn.Buffer, C.Conn.Offer;
      if state == C.Disconnected {
        return;
      }
      var nwrote := Offer(msg, k);
      if nwrote < |msg| {
        BufferRest(msg[nwrote..]);
      }
    }

    /** The direct write, if nothing is outstanding or buffered. */
    method Offer(msg: seq<byte>, k: nat) returns (nwrote: nat)
      requires Valid() && k <= |msg|
      modifies this`wire, this`sent, this`events
      ensures Valid() && View() == old(View()).Offer(msg, k)
      ensures nwrote == if old(View()).Direct() then k else 0
    {
      nwrote := 0;
      sent := sent + msg;
      if !channel.IsWriting() && outputBuffer.writer - outputBuffer.reader == 0 {
        nwrote := k;
        if nwrote == |msg| && hasWriteComplete {
          events := events + [C.WriteComplete];
        }
      }
      wire := wire + msg[..nwrote];
    }

    /** The part of `sendInLoop` that buffers what the kernel did not take. */
    method BufferRest(rest: seq<byte>)
      requires Valid()
      modifies this`events, channel, channel.poller`channels, channel.poller`kernel, channel.poller`refused
      modifies outputBuffer, outputBuffer.data
      ensures Valid() && (outputBuffer.data == old(outputBuffer.data) || fresh(outputBuffer.data))
      ensures View() == old(View()).Buffer(rest)
    {
      hide EpollPoller.Valid;
      var oldLen := outputBuffer.writer - outputBuffer.reader;
      if oldLen + |rest| >= highWaterMark && oldLen < highWaterMark && hasHighWater {
        events := events + [C.HighWater(oldLen + |rest|)];
      }
      AppendOutput(rest);
      if !channel.IsWriting() {
        WatchWrites();
      }
    }

    method AppendOutput(rest: seq<byte>)
      requires Valid()
      modifies outputBuffer, outputBuffer.data
      ensures Valid() && (outputBuffer.data == old(outputBuffer.data) || fresh(outputBuffer.data))
      ensures View() == old(View()).(output := old(View()).output + rest)
    {
      outputBuffer.Append(rest);
    }

    method RetrieveOutput(n: nat)
      requires Valid() && n <= outputBuffer.writer - outputBuffer.reader
      modifies outputBuffer
      ensures Valid() && outputBuffer.data == old(outputBuffer.data)
      ensures View() == old(View()).(output := old(View()).output[n..])
    {
      outputBuffer.Retrieve(n);
    }

    method ReadInput(incoming: seq<byte>) returns (n: nat)
      requires Valid() && |incoming| <= inputBuffer.Offered()
      modifies this`received, inputBuffer, inputBuffer.data
      ensures Valid() && (inputBuffer.data == old(inputBuffer.data) || fresh(inputBuffer.data))
      ensures n == |incoming| && View() == old(View()).(input := old(View()).input + incoming,
                                                        received := old(View()).received + incoming)
    {
      n := inputBuffer.ReadFd(incoming);
      received := received + incoming;
    }

    method Announce(n: nat)
      requires Valid()
      modifies this`events
      ensures Valid() && View() == old(View()).Add(C.Message(n))
    {
      events := events + [C.Message(n)];
    }

    /** The part of `handleWrite` for a buffer that has just become empty. */
    method Drained()
      requires Valid()
      modifies this`events, channel, channel.poller`channels, channel.poller`kernel, channel.poller`refused
      ensures Valid() && View() == old(View()).Drained()
    {
      hide EpollPoller.Valid;
      UnwatchWrites();
      if hasWriteComplete {
        events := events + [C.WriteComplete];
      }
      if state == C.Disconnecting {
        ShutdownInLoop();
      }
    }

    method ShutdownInLoop()
      requires Valid()
      modifies this`events
      ensures Valid() && View() == old(View()).ShutdownInLoop()
    {
      if !channel.IsWriting() {
        events := events + [C.ShutWrite];
      }
    }

    method Send(inLoop: bool, msg: seq<byte>, k: nat)
      requires Valid() && k <= |msg|
      modifies this, channel, channel.poller`channels, channel.poller`kernel, channel.poller`refused
      modifies outputBuffer, outputBuffer.data
      ensures Valid() && (outputBuffer.data == old(outputBuffer.data) || fresh(outputBuffer.data))
      ensures View() == old(View()).Send(inLoop, msg, k)
    {
      if state == C.Connected {
        if inLoop {
          SendInLoop(msg, k);
        } else {
          tasks := tasks + [C.SendTask(msg)];
        }
      }
    }

    method Shutdown(inLoop: bool)
      requires Valid()
      modifies this
      ensures Valid() && View() == old(View()).Shutdown(inLoop)
    {
      if state == C.Connected {
        state := C.Disconnecting;
        if inLoop {
          ShutdownInLoop();
        } else {
          tasks := tasks + [C.ShutdownTask];
        }
      }
    }

    /** The loop runs the oldest task queued for this connection. */
    method RunTask(k: nat)
      requires Valid() && tasks != [] && (tasks[0].SendTask? ==> k <= |tasks[0].msg|)
      modifies this, channel, channel.poller`channels, channel.poller`kernel, channel.poller`refused
      modifies outputBuffer, outputBuffer.data
      ensures Valid() && (outputBuffer.data == old(outputBuffer.data) || fresh(outputBuffer.data))
      ensures View() == old(View()).RunTask(k)
    {
      var task := tasks[0];
      tasks := tasks[1..];
      match task
      case SendTask(msg) => SendInLoop(msg, k);
      case ShutdownTask => ShutdownInLoop();
    }

    method ConnectEstablished()
      requires Valid()
      modifies this, channel, channel.poller`channels, channel.poller`kernel, channel.poller`refused
      ensures Valid() && View() == old(View()).ConnectEstablished()
    {
      hide EpollPoller.Valid;
      state := C.Connected;
      WatchReads();
      events := events + [C.Up];
    }

    method ConnectDestroyed()
      requires Valid()
      modifies this, channel, channel.poller`channels, channel.poller`kernel, channel.poller`refused
      ensures Valid() && View() == old(View()).ConnectDestroyed()
      ensures !channel.poller.HasChannel(channel)
    {
      hide EpollPoller.Valid;
      if state == C.Connected {
        state := C.Disconnected;
        Unwatch();
        events := events + [C.Down];
      }
      Unregister();
      destroyed := true;
    }

    method HandleClose()
      requires Valid()
      modifies this, channel, channel.poller`channels, channel.poller`kernel, channel.poller`refused
      ensures Valid() && View() == old(View()).HandleClose()
    {
      hide EpollPoller.Valid;
      state := C.Disconnected;
      Unwatch();
      events := events + [C.Down];
      events := events + [C.Close];
    }

    /** The message callback leaves the input buffer alone here; the user reads it by `UserReads`. */
    method HandleRead(incoming: seq<byte>)
      requires Valid() && |incoming| <= inputBuffer.Offered()
      modifies this, channel, channel.poller`channels, channel.poller`kernel, channel.poller`refused
      modifies inputBuffer, inputBuffer.data
      ensures Valid() && (inputBuffer.data == old(inputBuffer.data) || fresh(inputBuffer.data))
      ensures View() == old(View()).HandleRead(incoming)
    {
      hide EpollPoller.Valid, C.Conn.HandleClose, C.Conn.Add, C.CountOf, C.CountHighWater;
      var n := ReadInput(incoming);
      if n > 0 {
        Announce(n);
      } else {
        assert View() == old(View());
        HandleClose();
      }
    }

    method HandleWrite(k: nat)
      requires Valid() && k <= outputBuffer.writer - outputBuffer.reader
      modifies this, channel, channel.poller`channels, channel.poller`kernel, channel.poller`refused
      modifies outputBuffer
      ensures Valid() && outputBuffer.data == old(outputBuffer.data)
      ensures View() == old(View()).HandleWrite(k)
    {
      hide EpollPoller.Valid, C.Conn.Drained;
      if channel.IsWriting() {
        var n, taken := outputBuffer.WriteFd(k);
        if n > 0 {
          wire := wire + taken;
          RetrieveOutput(n);
          if outputBuffer.writer - outputBuffer.reader == 0 {
            Drained();
          }
        }
      }
    }

    /** The user takes bytes out of the input buffer. */
    method UserReads(n: nat) returns (s: seq<byte>)
      requires Valid()
      modifies this, inputBuffer
      ensures Valid() && inputBuffer.data == old(inputBuffer.data)
      ensures View() == old(View()).Consume(n) && consumed == old(consumed) + s
      ensures s + inputBuffer.Contents() == old(inputBuffer.Contents())
    {
      var readable := inputBuffer.writer - inputBuffer.reader;
      s := inputBuffer.RetrieveAsString(if n <= readable then n else readable);
      consumed := consumed + s;
    }

    /** `Channel::handleEvent` for this connection's channel: `tied` says that `tie` was called and
        `alive` that the weak pointer still has its object; nothing is done for a dead one. */
    method HandleEvent(tied: bool, alive: bool, r: C.Report, incoming: seq<byte>, k: nat)
      requires Valid() && |incoming| <= inputBuffer.Offered()
      modifies this, channel, channel.poller`channels, channel.poller`kernel, channel.poller`refused
      modifies outputBuffer, inputBuffer, inputBuffer.data
      ensures Valid() && outputBuffer.data == old(outputBuffer.data)
      ensures inputBuffer.data == old(inputBuffer.data) || fresh(inputBuffer.data)
      ensures View() == if tied && !alive then old(View()) else C.HandleEvent(old(View()), r, incoming, k)
    {
      hide EpollPoller.Valid, C.Conn.HandleClose, C.Conn.HandleRead, C.Conn.HandleWrite;
      if tied && !alive {
        return;
      }
      if r.hup && !r.in_ {
        HandleClose();
      }
      if r.in_ || r.pri {
        HandleRead(incoming);
      }
      if r.out {
        var buffered := outputBuffer.writer - outputBuffer.reader;
        HandleWrite(if k <= buffered then k else buffered);
      }
    }
  }
}
