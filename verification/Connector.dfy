/**
 Connector and TcpClient as they are written: fields updated in event handlers and
 functors. Every method does one function of `ConnectorSpec`; the source's asserts
 stand in the bodies and hold under the control invariant of `ConnectorProofs`,
 which `Perform` keeps for every step a run can have.
 */
module Connectors {
  import opened Basics
  import opened ConnectorSpec
  import opened ConnectorProofs
  import ConnectorOutcomes

  /** What the functor at the head of the batch finds when its turn comes. */
  lemma Heads(s: State)
    requires Control(s) && s.phase == Batch && s.batch != []
    ensures s.batch[0] == StartInLoop ==> var t := s.(batch := s.batch[1..]); Control(t) && Fresh(t)
    ensures s.batch[0] == ResetChannel ==> HasChannel(s, false)
    ensures s.state == Connecting ==> s.channel.Some?
  {
    InUse(s);
    if s.batch[0] == StartInLoop {
      hide Control, Fresh;
      StartMeets(s);
    }
    CountIn(s, ResetChannel);
    assert s.batch[0] in Queue(s);
  }

  lemma SameForeign(s: State, errno: Errno)
    ensures OnStart(s, false, errno) == OnStart(s, false, EOK)
  {
  }

  lemma InUse(s: State)
    requires Control(s)
    ensures s.state == Connecting ==> s.channel.Some?
  {
  }

  class Connector {
    // the event loop, as far as it serves this connector
    ghost var phase: Phase
    var batch: seq<Functor>
    var pendingFunctors: seq<Functor>
    var channelReady: bool
    var timers: set<nat>
    var timersReady: set<nat>
    var nextTimer: nat
    ghost var live: set<nat>
    ghost var liveReady: set<nat>
    // Connector
    var connect: bool
    var state: States
    var channel: Option<Channel>
    var retryDelayMs: nat
    var timerId: Option<nat>
    // TcpClient
    var clientConnect: bool
    var clientRetry: bool
    var connection: Option<nat>
    // history
    var nextFd: nat
    ghost var startsDue: nat
    ghost var flagDue: nat
    ghost var queueDue: nat
    ghost var cancelDue: nat
    ghost var log: seq<Entry>

    ghost function View(): State
      reads this
    {
      State(phase, batch, pendingFunctors, state, connect, channel, channelReady, timers, timersReady, timerId,
            nextTimer, retryDelayMs, clientConnect, clientRetry, connection, live, liveReady, startsDue,
            flagDue, queueDue, cancelDue, nextFd, log, true)
    }

    constructor (clientRetry: bool)
      ensures View() == Init(clientRetry) && Control(View())
    {
      phase, batch, pendingFunctors, channelReady, timers, timersReady, nextTimer := Dispatch, [], [], false, {}, {}, 0;
      live, liveReady := {}, {};
      connect, state, channel, retryDelayMs, timerId := false, Disconnected, None, INIT_RETRY_DELAY_MS, None;
      clientConnect, connection := true, None;
      this.clientRetry := clientRetry;
      nextFd, startsDue, flagDue, queueDue, cancelDue, log := 0, 0, 0, 0, 0, [];
    }

    method QueueInLoop(f: Functor)
      modifies `pendingFunctors
      ensures pendingFunctors == old(pendingFunctors) + [f]
    {
      pendingFunctors := pendingFunctors + [f];
    }

    /** EventLoop::runAfter with startInLoop as the callback. */
    method RunAfter(ms: nat) returns (id: nat)
      modifies this
      ensures var s := old(View());
              View() == s.(timers := s.timers + {s.nextTimer}, nextTimer := s.nextTimer + 1, log := s.log + [Backoff(ms)])
      ensures id == old(nextTimer)
    {
      id := nextTimer;
      timers, nextTimer := timers + {id}, id + 1;
      log := log + [Backoff(ms)];
    }

    method SetRetryTimer()
      modifies this
      ensures View() == ConnectorSpec.SetRetryTimer(old(View()))
    {
      var id := RunAfter(retryDelayMs);
      timerId := Some(id);
      retryDelayMs := Min(retryDelayMs * 2, MAX_RETRY_DELAY_MS);
    }

    method Retry(sockfd: nat)
      modifies this
      ensures View() == ConnectorSpec.Retry(old(View()), sockfd)
    {
      log := log + [Closed(sockfd)];
      state := Disconnected;
      if connect {
        SetRetryTimer();
      }
    }

    method Connecting(sockfd: nat)
      requires channel == None
      modifies this
      ensures View() == StartConnecting(old(View()), sockfd)
    {
      state := States.Connecting;
      assert channel == None;                     // the source's own assert
      channel, channelReady := Some(Channel(sockfd, true)), false;
    }

    /** The three ways the switch in connect() goes, once the socket is there. */
    method ConnectAs(outcome: Outcome)
      requires channel == None
      modifies this
      ensures View() == ConnectorSpec.ConnectAs(old(View()), outcome)
    {
      hide ConnectorSpec.Retry, ConnectorSpec.StartConnecting;
      var sockfd := nextFd;
      nextFd, log := nextFd + 1, log + [Attempt(nextFd)];
      match outcome {
        case Pending => Connecting(sockfd);
        case Refused => Retry(sockfd);
        case Fatal => log := log + [Closed(sockfd)];
      }
    }

    method Connect(errno: Errno)
      requires channel == None
      modifies this
      ensures View() == ConnectorSpec.Connect(old(View()), errno)
      ensures old(state) == Disconnected ==> ConnectorOutcomes.Branched(old(View()), errno, View())
    {
      hide OutcomeOf, ConnectorSpec.ConnectAs, ConnectorOutcomes.Branched;
      if state == Disconnected { ConnectorOutcomes.ConnectBranches(View(), errno); }
      ConnectAs(OutcomeOf(errno));
    }

    method StartInLoop(errno: Errno)
      requires Control(View()) && Fresh(View())
      modifies this
      ensures View() == RunStartInLoop(old(View()), errno) && Control(View())
    {
      KeepsStart(View(), errno);
      hide ConnectorSpec.Connect, Control, OutcomeOf;
      assert state == Disconnected;               // the source's own assert
      if connect {
        Connect(errno);
      }
    }

    method RemoveAndResetChannel() returns (sockfd: nat)
      requires channel.Some?
      modifies this
      ensures View() == ConnectorSpec.RemoveAndResetChannel(old(View())) && sockfd == Fd(old(View()))
    {
      channel, channelReady := Some(channel.value.(watched := false)), false;
      sockfd := channel.value.fd;
      QueueInLoop(Functor.ResetChannel);
    }

    method ResetChannel()
      requires HasChannel(View(), false)          // the channel deleted is out of use
      modifies this
      ensures View() == RunResetChannel(old(View()))
    {
      channel, channelReady := None, false;
    }

    method HandleError()
      requires Control(View()) && phase == Dispatch
      modifies this
      ensures View() == ConnectorSpec.HandleError(old(View())) && Control(View())
    {
      KeepsHandleError(View());
      InUse(View());
      hide Control, ConnectorSpec.Retry, ConnectorSpec.RemoveAndResetChannel, Fd;
      if state == States.Connecting {
        var sockfd := RemoveAndResetChannel();
        Retry(sockfd);
      }
    }

    /** `failed`: a pending SO_ERROR, or a connection to itself. */
    method HandleWrite(failed: bool)
      requires Control(View()) && phase == Dispatch && state != Connected
      modifies this
      ensures View() == ConnectorSpec.HandleWrite(old(View()), failed) && Control(View())
      ensures old(state) == States.Connecting ==>
                var fd := Fd(old(View()));
                && state == (if failed then Disconnected else Connected)
                && log == old(log) + (if !failed then [if connect then Handed(fd) else Closed(fd)]
                                      else if connect then [Closed(fd), Backoff(old(retryDelayMs))] else [Closed(fd)])
    {
      hide Control, ConnectorSpec.Retry, ConnectorSpec.NewConnection, Fd;
      KeepsHandleWrite(View(), failed);
      InUse(View());
      if state == States.Connecting { ConnectorOutcomes.WriteOutcome(View(), failed); }
      if state == States.Connecting {
        var sockfd := RemoveAndResetChannel();
        ghost var s := View();
        if failed {
          Retry(sockfd);
        } else {
          state := Connected;
          assert View() == s.(state := Connected);
          if connect {
            NewConnection(sockfd);
          } else {
            log := log + [Closed(sockfd)];
          }
        }
      } else {
        assert state == Disconnected;             // the source's own assert
      }
    }

    /** One dispatch of the connector's channel: error callback first, then the write callback. */
    method HandleEvent(error: bool, write: bool, failed: bool)
      requires Control(View()) && phase == Dispatch && channelReady
      modifies this
      ensures View() == OnChannelEvent(old(View()), error, write, failed) && Control(View())
    {
      KeepsUnready(View());
      hide Control, ConnectorSpec.HandleError, ConnectorSpec.HandleWrite;
      ghost var s := View();
      channelReady := false;
      assert View() == s.(channelReady := false);
      KeepsHandleError(View());
      if error {
        HandleError();
      }
      if write {
        HandleWrite(failed);
      }
    }

    method StopInLoop()
      requires state == States.Connecting ==> channel.Some?
      modifies this
      ensures View() == RunStopInLoop(old(View()))
    {
      hide ConnectorSpec.Retry;
      if state == States.Connecting {
        state := Disconnected;
        var sockfd := RemoveAndResetChannel();
        Retry(sockfd);
      }
    }

    method Restart(errno: Errno)
      requires Control(View()) && live == {} && state == Connected && channel == None && clientConnect && clientRetry
      modifies this
      ensures View() == RestartConnector(old(View()), errno) && Control(View())
    {
      hide Control, Fresh, RunStartInLoop;
      KeepsAfresh(View());
      state, retryDelayMs, connect := Disconnected, INIT_RETRY_DELAY_MS, true;
      log := log + [ConnectorSpec.Restart];
      StartInLoop(errno);
    }

    // TcpClient

    method NewConnection(sockfd: nat)
      modifies this
      ensures View() == ConnectorSpec.NewConnection(old(View()), sockfd)
    {
      log := log + [Handed(sockfd)];
      connection, live := Some(sockfd), live + {sockfd};
    }

    /** The connection on `fd` has closed. */
    method RemoveConnection(fd: nat, errno: Errno)
      requires Control(View()) && Enabled(View(), CloseEvent(fd, errno))
      modifies this
      ensures View() == Next(old(View()), CloseEvent(fd, errno)) && Control(View())
    {
      KeepsForget(View(), fd);
      hide Control, RestartConnector, ConnectorSpec.Forget;
      Forget(fd);
      if clientConnect && clientRetry {
        Restart(errno);
      }
    }

    method Forget(fd: nat)
      requires connection == Some(fd)
      modifies `connection, `live, `liveReady, `pendingFunctors
      ensures View() == ConnectorSpec.Forget(old(View()), fd)
    {
      assert connection == Some(fd);              // the source's own assert
      connection, live, liveReady := None, live - {fd}, liveReady - {fd};
      QueueInLoop(ConnectDestroyed(fd));
    }

    /** TcpClient::connect on the loop thread: startInLoop runs at once. */
    method StartHere(errno: Errno)
      requires Control(View()) && MayStart(View(), true)
      modifies this
      ensures View() == OnStart(old(View()), true, errno) && Control(View())
    {
      StartInTime(View());
      hide Control, Fresh, MayStart, RunStartInLoop;
      clientConnect, connect := true, true;
      StartInLoop(errno);
    }

    /** TcpClient::connect on another thread, up to where it queues startInLoop: see `QueueStart`. */
    method StartLater()
      requires Control(View()) && MayStart(View(), false)
      modifies this
      ensures View() == OnStart(old(View()), false, EOK) && Control(View())
    {
      KeepsForeignStart(View());
      hide Control, Fresh, MayStart, RunStartInLoop;
      clientConnect, connect, startsDue := true, true, startsDue + 1;
    }

    method QueueStart()
      requires startsDue > 0
      modifies `pendingFunctors, `startsDue
      ensures var s := old(View()); View() == s.(pending := s.pending + [Functor.StartInLoop], startsDue := s.startsDue - 1)
    {
      QueueInLoop(Functor.StartInLoop);
      startsDue := startsDue - 1;
    }

    /** TcpClient::disconnect, as far as the connector sees it. */
    method Disconnect()
      modifies `clientConnect
      ensures View() == Next(old(View()), Step.Disconnect)
    {
      clientConnect := false;
    }

    /** TcpClient::stop begins: the client's own flag. */
    method StopClient()
      modifies `clientConnect, `flagDue
      ensures View() == Next(old(View()), StopBegin)
    {
      clientConnect, flagDue := false, flagDue + 1;
    }

    /** Connector::stop: connect_, */
    method StopConnect()
      requires flagDue > 0
      modifies `connect, `flagDue, `queueDue
      ensures View() == Next(old(View()), StopFlag)
    {
      connect, flagDue, queueDue := false, flagDue - 1, queueDue + 1;
    }

    /** stopInLoop queued, */
    method StopLater()
      requires queueDue > 0
      modifies `pendingFunctors, `queueDue, `cancelDue
      ensures View() == Next(old(View()), StopQueue)
    {
      hide RunNext, OnStart, OnTimer, OnChannelEvent, ConnectorSpec.RemoveConnection, RunCancelTimer;
      QueueInLoop(Functor.StopInLoop);
      queueDue, cancelDue := queueDue - 1, cancelDue + 1;
    }

    /** and the timer cancelled: at once on the loop thread, by a functor on another. */
    method StopTimer(inLoop: bool)
      requires cancelDue > 0
      modifies `pendingFunctors, `cancelDue, `timers, `timersReady
      ensures View() == Next(old(View()), StopCancel(inLoop))
    {
      hide RunNext, OnStart, OnTimer, OnChannelEvent, ConnectorSpec.RemoveConnection, RunCancelTimer;
      cancelDue := cancelDue - 1;
      if inLoop {
        CancelTimer(timerId);
      } else {
        QueueInLoop(Functor.CancelTimer(timerId));
      }
    }

    method CancelTimer(id: Option<nat>)
      modifies `timers, `timersReady
      ensures View() == RunCancelTimer(old(View()), id)
    {
      if id.Some? {
        timers, timersReady := timers - {id.value}, timersReady - {id.value};
      }
    }

    /** The loop runs the oldest functor of its batch. Every assert on the way is met. */
    method RunFunctor(errno: Errno)
      requires Control(View()) && Enabled(View(), Step.RunFunctor(errno))
      modifies this
      ensures View() == RunNext(old(View()), errno) && Control(View())
    {
      KeepsRunFunctor(View(), errno);
      Heads(View());
      hide Control, Fresh, RunStartInLoop, RunStopInLoop, RunResetChannel, RunCancelTimer;
      var f := batch[0];
      batch := batch[1..];
      match f {
        case StartInLoop => StartInLoop(errno);
        case StopInLoop => StopInLoop();
        case ResetChannel => ResetChannel();
        case CancelTimer(id) => CancelTimer(id);
        case ConnectDestroyed(_) =>
      }
    }

    /** A retry timer fires. */
    method HandleTimer(id: nat, errno: Errno)
      requires Control(View()) && phase == Dispatch && id in timersReady
      modifies this
      ensures View() == OnTimer(old(View()), id, errno) && Control(View())
    {
      TimerGone(View(), id);
      hide Control, Fresh, RunStartInLoop;
      timers, timersReady := timers - {id}, timersReady - {id};
      StartInLoop(errno);
    }

    /** What a poll finds ready, and the swap of the functor queue after the dispatch. */
    method Poll(ch: bool, tms: set<nat>, ghost found: set<nat>)
      modifies `phase, `channelReady, `timersReady, `liveReady
      ensures View() == old(View()).(phase := Dispatch, channelReady := ch, timersReady := tms, liveReady := found)
    {
      phase, channelReady, timersReady, liveReady := Dispatch, ch, tms, found;
    }

    method EndOfDispatch()
      modifies `phase, `batch, `pendingFunctors
      ensures var s := old(View()); View() == s.(phase := Batch, batch := s.pending, pending := [])
    {
      phase, batch, pendingFunctors := Batch, pendingFunctors, [];
    }

    /** Any step of a run, with starts inside the contract: done as the machine does it, with every assert met. */
    method Perform(step: Step)
      requires Control(View()) && Enabled(View(), step) && Keeps(View(), step)
      modifies this
      ensures View() == Next(old(View()), step) && Control(View())
    {
      KeepsNext(View(), step);
      hide Control, MayStart, OnStart, RunNext, OnTimer, ConnectorSpec.RemoveConnection, OnChannelEvent, RunCancelTimer;
      match step {
        case Start(inLoop, errno) =>
          if inLoop {
            StartHere(errno);
          } else {
            SameForeign(View(), errno);
            StartLater();
          }
        case StartQueue => QueueStart();
        case Disconnect => Disconnect();
        case StopBegin => StopClient();
        case StopFlag => StopConnect();
        case StopQueue => StopLater();
        case StopCancel(inLoop) => StopTimer(inLoop);
        case RunFunctor(errno) => RunFunctor(errno);
        case Poll(ch, tms, found) => Poll(ch, tms, found);
        case ChannelEvent(error, write, failed) => HandleEvent(error, write, failed);
        case TimerEvent(id, errno) => HandleTimer(id, errno);
        case CloseEvent(fd, errno) => RemoveConnection(fd, errno);
        case EndDispatch => EndOfDispatch();
      }
    }
  }
}
