/**
 TcpConnection over its Channel and its two Buffers. Each handler is proved to
 do exactly what the state machine of `OutputSpec` does in one step, so what is
 proved there about runs holds of these methods.
 */
module Connections {
  import opened Basics
  import opened ConnectionStates
  import Buffers
  import opened OutputSpec
  import opened OutputProofs

  datatype Interest = Read | Write

  /** A watcher on one descriptor: the interest mask, and whether libev watches it at all. */
  class Channel {
    var events: set<Interest>
    var watched: bool

    constructor ()
      ensures events == {} && watched
    {
      events, watched := {}, true;
    }

    method EnableReading()
      modifies `events
      ensures events == old(events) + {Read}
    {
      events := events + {Read};
    }

    method EnableWriting()
      modifies `events
      ensures events == old(events) + {Write}
    {
      events := events + {Write};
    }

    method DisableWriting()
      modifies `events
      ensures events == old(events) - {Write}
    {
      events := events - {Write};
    }

    method DisableAll()
      modifies `events
      ensures events == {}
    {
      events := {};
    }

    predicate IsWriting()
      reads this
    {
      Write in events
    }

    predicate IsNoneEvent()
      reads this
    {
      events == {}
    }

    method Remove()
      requires IsNoneEvent()          // the source's own assert
      modifies `watched
      ensures !watched
    {
      watched := false;
    }
  }

  class TcpConnection {
    var state: StateE
    const channel: Channel
    const inputBuffer: Buffers.Buffer
    const outputBuffer: Buffers.Buffer
    const highWaterMark: nat
    const highWaterMarkCallback: bool    // whether one is installed
    const writeCompleteCallback: bool
    var requests: seq<Request>           // functors other threads left in the loop's queue
    var senders: multiset<seq<byte>>     // messages of other threads past the check in send
    var shutters: nat                    // other threads past the change of state in shutdown
    ghost var log: seq<Effect>

    ghost predicate Valid()
      reads this, inputBuffer, outputBuffer
    {
      && inputBuffer != outputBuffer && inputBuffer.buffer != outputBuffer.buffer
      && inputBuffer.Valid() && outputBuffer.Valid()
    }

    ghost function View(): State
      reads this, channel, inputBuffer, outputBuffer, outputBuffer.buffer
      requires Valid()
    {
      State(Config(highWaterMark, highWaterMarkCallback, writeCompleteCallback), state,
            Read in channel.events, Write in channel.events, outputBuffer.Contents(), requests, senders, shutters, log)
    }

    ghost function Input(): seq<byte>
      reads this, inputBuffer, inputBuffer.buffer, outputBuffer
      requires Valid()
    {
      inputBuffer.Contents()
    }

    constructor (mark: nat, onHighWater: bool, onWriteComplete: bool)
      ensures Valid() && fresh(channel) && fresh(inputBuffer) && fresh(outputBuffer)
      ensures fresh(inputBuffer.buffer) && fresh(outputBuffer.buffer)
      ensures View() == Init(Config(mark, onHighWater, onWriteComplete)) && channel.watched && Input() == []
    {
      state, requests, senders, shutters, log := Connecting, [], multiset{}, 0, [];
      highWaterMark, highWaterMarkCallback, writeCompleteCallback := mark, onHighWater, onWriteComplete;
      channel := new Channel();
      inputBuffer := new Buffers.Buffer();
      outputBuffer := new Buffers.Buffer();
    }

    method ConnectEstablished()
      requires Valid() && state == Connecting
      modifies this, channel
      ensures Valid() && View() == Next(old(View()), Establish) && Input() == old(Input())
    {
      assert state == Connecting;       // the source's own assert
      state := Connected;
      channel.EnableReading();
    }

    method HandleClose()
      requires Valid() && Inv(View()) && Read in channel.events
      modifies `log, channel
      ensures Valid() && View() == Next(old(View()), PeerClosed)
      ensures Inv(View()) && channel.IsNoneEvent() && Input() == old(Input())
    {
      assert state == Connected || state == Disconnecting;  // the source's own assert
      KeepsNext(View(), PeerClosed);
      channel.DisableAll();
      log := log + [Closed];
    }

    method ConnectDestroyed()
      requires Valid() && Inv(View()) && Enabled(View(), Destroy)
      modifies this, channel
      ensures Valid() && View() == Next(old(View()), Destroy) && !channel.watched && Input() == old(Input())
    {
      assert state == Connected || state == Disconnecting;  // the source's own assert
      state := Disconnected;
      channel.DisableAll();
      channel.Remove();
    }

    /** One readv: data goes to the input buffer, an empty read closes, an error changes nothing. */
    method HandleRead(received: Buffers.Received)
      requires Valid() && Inv(View()) && Read in channel.events
      requires received.Bytes? ==> |received.bytes| <= inputBuffer.WritableBytes() + 65536
      modifies this, channel, inputBuffer, inputBuffer.buffer
      ensures Valid() && Inv(View())
      ensures View() == if received == Buffers.Bytes([]) then Next(old(View()), PeerClosed) else old(View())
      ensures Input() == old(Input()) + if received.Bytes? then received.bytes else []
    {
      label Start:
      var n := inputBuffer.ReadFd(received);
      assert View() == old@Start(View());
      if n == 0 {
        HandleClose();
      }
    }

    method ShutdownInLoop()
      requires Valid()
      modifies `log
      ensures Valid() && View() == OutputSpec.ShutdownInLoop(old(View()))
    {
      if !channel.IsWriting() {
        log := log + [HalfClosed];
      }
    }

    /**
     The check and the change of state are one step here; see README, Left out. On
     another thread `QueueShutdown` is the rest of the call.
     */
    method Shutdown(inLoopThread: bool)
      requires Valid()
      modifies this
      ensures Valid()
      ensures View() == if inLoopThread then OutputSpec.Shutdown(old(View())) else BeginShutdown(old(View()))
    {
      if state == Connected {
        state := Disconnecting;
        if inLoopThread {
          ShutdownInLoop();
        } else {
          shutters := shutters + 1;
        }
      }
    }

    method QueueShutdown()
      requires Valid() && shutters > 0
      modifies `shutters, `requests
      ensures Valid() && View() == PushShutdown(old(View()))
    {
      shutters, requests := shutters - 1, requests + [ShutdownRequest];
    }

    /** `w` is what the socket answers if the handler writes. */
    method HandleWrite(w: WriteResult)
      requires Valid() && Fits(w, |outputBuffer.Contents()|)
      modifies `log, channel, outputBuffer
      ensures Valid() && View() == OutputSpec.HandleWrite(old(View()), w)
    {
      if channel.IsWriting() {
        var data := outputBuffer.Peek();
        if w.Wrote? && w.n > 0 {
          log := log + [Flushed(data[..w.n])];
          outputBuffer.Retrieve(w.n);
          if outputBuffer.ReadableBytes() == 0 {
            channel.DisableWriting();
            if writeCompleteCallback {
              log := log + [WriteComplete];
            }
            if state == Disconnecting {
              ShutdownInLoop();
            }
          }
        }
      }
    }

    /** The tail of sendInLoop: what could not be written waits in the buffer, with write interest. */
    method BufferRest(rest: seq<byte>)
      requires Valid() && rest != []
      modifies `log, channel, outputBuffer, outputBuffer.buffer
      ensures Valid()
      ensures var s := old(View());
              View() == s.(output := s.output + rest, writing := true,
                           log := s.log + Notice(s.config, false, |s.output|, |s.output + rest|))
    {
      var oldLen := outputBuffer.ReadableBytes();
      if oldLen + |rest| >= highWaterMark && oldLen < highWaterMark && highWaterMarkCallback {
        log := log + [HighWater(oldLen + |rest|)];
      }
      outputBuffer.Append(rest);
      if !channel.IsWriting() {
        channel.EnableWriting();
      }
    }

    method SendInLoop(message: seq<byte>, w: WriteResult)
      requires Valid() && Fits(w, |message|)
      modifies `log, channel, outputBuffer, outputBuffer.buffer
      ensures Valid() && View() == OutputSpec.SendInLoop(old(View()), message, w)
      ensures var was := old(outputBuffer.Contents());
              outputBuffer.Contents() ==
                if old(channel.IsWriting()) || was != [] then was + message
                else match w { case Wrote(n) => message[n..] case Broken => [] case _ => message }
    {
      var numWrite, remaining, faultError := 0, |message|, false;
      ghost var direct := None;
      if !channel.IsWriting() && outputBuffer.ReadableBytes() == 0 {
        if w.Wrote? {
          numWrite, direct := w.n, Some(w.n);
          remaining := remaining - numWrite;
        } else if w.Broken? {
          faultError := true;
        }
      }
      if !faultError {
        log := log + [Sent(message, direct)];
        if numWrite == |message| && direct.Some? && writeCompleteCallback {
          log := log + [WriteComplete];
        }
      }
      if !faultError && remaining > 0 {
        BufferRest(message[numWrite..]);
      }
    }

    /** On another thread this is the check of the state, and `QueueSend` the rest of the call. */
    method Send(message: seq<byte>, inLoopThread: bool, w: WriteResult)
      requires Valid() && Fits(w, |message|)
      modifies this, channel, outputBuffer, outputBuffer.buffer
      ensures Valid()
      ensures View() == if inLoopThread then OutputSpec.Send(old(View()), message, w)
                        else BeginSend(old(View()), message)
    {
      if state == Connected {
        if inLoopThread {
          SendInLoop(message, w);
        } else {
          senders := senders + multiset{message};
        }
      }
    }

    method QueueSend(message: seq<byte>)
      requires Valid() && message in senders
      modifies `senders, `requests
      ensures Valid() && View() == PushSend(old(View()), message)
    {
      senders, requests := senders - multiset{message}, requests + [SendRequest(message)];
    }

    /** The loop runs the oldest request another thread has left. */
    method RunRequest(w: WriteResult)
      requires Valid() && Enabled(View(), DoRequest(w))
      modifies this, channel, outputBuffer, outputBuffer.buffer
      ensures Valid() && View() == Next(old(View()), DoRequest(w))
    {
      var request := requests[0];
      requests := requests[1..];
      match request {
        case SendRequest(message) => SendInLoop(message, w);
        case ShutdownRequest => ShutdownInLoop();
      }
    }

    /**
     One dispatch of this connection's channel: the error callback only logs, then
     the read callback, then the write callback, even if the read one closed.
     */
    method HandleEvent(revents: set<Interest>, received: Buffers.Received, w: WriteResult)
      requires Valid() && Inv(View()) && revents <= channel.events
      requires state != Disconnected      // connectDestroyed has stopped the watcher for good
      requires received.Bytes? ==> |received.bytes| <= inputBuffer.WritableBytes() + 65536
      requires Fits(w, |outputBuffer.Contents()|)
      modifies this, channel, inputBuffer, inputBuffer.buffer, outputBuffer
      ensures Valid() && Inv(View())
      ensures var s := if Read in revents && received == Buffers.Bytes([]) then Next(old(View()), PeerClosed) else old(View());
              View() == if Write in revents then Next(s, Writable(w)) else s
    {
      if Read in revents {
        HandleRead(received);
      }
      if Write in revents {
        KeepsNext(View(), Writable(w));
        HandleWrite(w);
      }
    }
  }
}
