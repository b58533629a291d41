/** The connector of async-socket-connector.c, and the socket's side of its callback. */
module AsyncSocketConnector {
  import opened AsyncIoCommon
  import opened AsyncUtilsSpec
  import opened AsyncUtils
  import Spec = ConnectorSpec

  /** The kernel, the looper, and the socket the connector serves. */
  class Host {
    var socketFd: Option<nat>
    var issued: nat
    var closed: seq<nat>
    var watches: nat
    var live: set<nat>
    var frees: nat
    var dangling: bool
    var doubleFree: bool
    var said: seq<Spec.Word>

    constructor ()
      ensures socketFd == None && issued == 0 && closed == [] && watches == 0 && live == {}
      ensures frees == 0 && !dangling && !doubleFree && said == []
    {
      socketFd, issued, closed, watches, live := None, 0, [], 0, {};
      frees, dangling, doubleFree, said := 0, false, false, [];
    }

    /** The socket closes its descriptor, if it has one. */
    method CloseSocket()
      modifies this`socketFd, this`closed
      ensures socketFd == None
      ensures closed == old(closed) + if old(socketFd) == None then [] else [old(socketFd).value]
    {
      if socketFd.Some? {
        closed := closed + [socketFd.value];
        socketFd := None;
      }
    }
  }

  class Connector {
    const host: Host
    var fd: Option<nat>
    var connectorIo: Option<nat>
    var stage: Stage
    var timerOn: bool
    var refCount: int
    var freed: bool

    function Abs(): Spec.Link
      reads this, host
    {
      Spec.Link(Spec.Fds(fd, host.socketFd, host.issued, host.closed), connectorIo, stage, timerOn, refCount, freed,
        host.watches, host.live, host.frees, host.dangling, host.doubleFree, host.said)
    }

    constructor (host: Host)
      requires host.socketFd == None && host.issued == 0 && host.closed == [] && host.watches == 0 && host.live == {}
      requires host.frees == 0 && !host.dangling && !host.doubleFree && host.said == []
      ensures this.host == host && Abs() == Spec.NEW
    {
      this.host := host;
      fd, connectorIo, stage, timerOn, refCount, freed := None, None, Error, false, 1, false;
    }

    method OpenSocket(openOk: bool)
      modifies this`fd, host`issued
      ensures Abs() == if openOk then old(Abs()).(fds := Spec.Open(old(Abs()).fds)) else old(Abs()).(fds := old(Abs()).fds.(own := None))
    {
      if openOk {
        fd := Some(host.issued);
        host.issued := host.issued + 1;
      } else {
        fd := None;
      }
    }

    method CloseSocket()
      modifies this`fd, host`closed
      ensures Abs() == old(Abs()).(fds := Spec.CloseFd(old(Abs()).fds))
    {
      if fd.Some? {
        host.closed := host.closed + [fd.value];
        fd := None;
      }
    }

    /** The watch is freed, and the pointer to it kept. */
    method FreeIo()
      modifies host`live, host`doubleFree
      ensures Abs() == Spec.FreeIo(old(Abs()))
    {
      if connectorIo.Some? {
        if connectorIo.value in host.live {
          host.live := host.live - {connectorIo.value};
        } else {
          host.doubleFree := true;
        }
      }
    }

    /** The embedded asyncConnector is stopped; was a connection in progress? */
    method Stop() returns (stopped: bool)
      modifies this`stage
      ensures stopped <==> old(stage) == Connecting
      ensures Abs() == old(Abs()).(stage := if stopped then Completed else old(stage))
    {
      stopped := stage == Connecting;
      if stopped { stage := Completed; }
    }

    method Free()
      modifies this, host
      ensures Abs() == Spec.Free(old(Abs()))
    {
      var stopped := Stop();
      if stopped { FreeIo(); }
      CloseSocket();
      Bury();
    }

    /** The memory is given back, and the timer with it. */
    method Bury()
      modifies this`timerOn, this`freed, host`frees
      ensures Abs() == old(Abs()).(timerOn := false, freed := true, frees := old(Abs()).frees + 1)
    {
      timerOn := false;
      freed := true;
      host.frees := host.frees + 1;
    }

    method Release()
      modifies this, host
      ensures Abs() == Spec.Release(old(Abs()))
    {
      if freed {
        host.dangling := true;
        return;
      }
      refCount := refCount - 1;
      if refCount == 0 { Free(); }
    }

    /** The socket's callback for connection events: it takes the descriptor, asks its client, and lets go. */
    method OnConnectorEvents(event: State, answer: Action)
      modifies this, host
      ensures Abs() == Spec.Ask(old(Abs()), event, answer)
    {
      hide Spec.Release;
      if freed {
        host.dangling := true;
        return;
      }
      if event == Succeeded {
        var pulled := PullFd();
        host.socketFd := pulled;
      }
      host.said := host.said + [Spec.Word(event, answer)];
      if event == Succeeded && answer != Done { host.CloseSocket(); }
      assert Abs() == old(Abs()).(
        fds := Spec.Handed(old(Abs()).fds, event, answer), said := old(host.said) + [Spec.Word(event, answer)]);
      if answer != Retry { Release(); }
    }

    method PullFd() returns (pulled: Option<nat>)
      modifies this`fd
      ensures pulled == old(fd) && fd == None
    {
      pulled := fd;
      if fd.Some? { fd := None; }
    }

    /** A watch is made and the connection is started, with this outcome. */
    method Begin(attempt: Status)
      modifies this`connectorIo, this`stage, host`watches, host`live
      ensures Abs() == Spec.Begin(old(Abs()), attempt)
    {
      connectorIo := Some(host.watches);
      host.live := host.live + {host.watches};
      host.watches := host.watches + 1;
      stage := Spec.StageOf(attempt);
    }

    method OnConnecting(status: Status, answer: Action)
      modifies this, host
      ensures Abs() == Spec.Outcome(old(Abs()), status, answer)
    {
      hide Spec.Ask, Spec.FreeIo;
      if freed {
        host.dangling := true;
        return;
      }
      match status {
        case Complete =>
          FreeIo();
          OnConnectorEvents(Succeeded, answer);
        case Failure =>
          FreeIo();
          OnConnectorEvents(Failed, answer);
        case NeedMore =>
          return;
      }
      if answer == Retry {
        if freed { host.dangling := true; } else { timerOn := true; }
      }
    }

    /** The embedded asyncConnector is run, and tells how the connection turned out. */
    method Finish(ok: bool, second: Action)
      modifies this, host
      ensures Abs() == Spec.Finish(old(Abs()), ok, second)
    {
      hide Spec.Outcome;
      var status := if ok then Complete else Failure;
      stage := Spec.StageOf(status);
      OnConnecting(status, second);
    }

    /** The watch reports that the connection is made, or has failed. */
    method OnIo(ok: bool, first: Action, second: Action)
      requires stage == Connecting
      modifies this, host
      ensures Abs() == Spec.Writable(old(Abs()), ok, first, second)
    {
      hide Spec.Ask, Spec.Finish, Spec.Release;
      refCount := refCount + 1;
      OnConnectorEvents(Continues, first);
      if first != Abort {
        if freed {
          host.dangling := true;
        } else {
          Finish(ok, second);
        }
      }
      Release();
    }

    method Again(openOk: bool, attempt: Status, second: Action)
      modifies this, host
      ensures Abs() == Spec.Again(old(Abs()), openOk, attempt, second)
    {
      hide Spec.Outcome;
      CloseSocket();
      OpenSocket(openOk);
      if openOk {
        Begin(attempt);
        OnConnecting(attempt, second);
      } else {
        OnConnecting(Failure, second);
      }
    }

    /** The timer runs no more, and the callback has a reference. */
    method Hold()
      modifies this`timerOn, this`refCount
      ensures Abs() == old(Abs()).(refs := old(Abs()).refs + 1, timerOn := false)
    {
      timerOn := false;
      refCount := refCount + 1;
    }

    /** The retry timer has expired. */
    method OnRetry(openOk: bool, attempt: Status, first: Action, second: Action)
      requires timerOn
      modifies this, host
      ensures Abs() == Spec.Expired(old(Abs()), openOk, attempt, first, second)
    {
      hide Spec.Ask, Spec.Again, Spec.Release;
      Hold();
      OnConnectorEvents(Retrying, first);
      if first != Abort {
        if freed {
          host.dangling := true;
        } else {
          Again(openOk, attempt, second);
        }
      }
      Release();
    }

    /** The connection is asked for. */
    method Connect(openOk: bool, attempt: Status, first: Action, second: Action)
      requires fd == None
      modifies this, host
      ensures Abs() == Spec.Start(old(Abs()), openOk, attempt, first, second)
    {
      hide Spec.Ask, Spec.Outcome;
      OpenSocket(openOk);
      if openOk {
        OnConnectorEvents(Started, first);
        if first == Abort { return; }
        if freed {
          host.dangling := true;
          return;
        }
        Begin(attempt);
        OnConnecting(attempt, second);
      } else {
        OnConnecting(Failure, second);
      }
    }

    /** Whatever happens next, as the specification has it. */
    method Happen(e: Spec.Event)
      requires Spec.Enabled(Abs(), e) && (e.Connect? ==> fd == None)
      modifies this, host
      ensures Abs() == Spec.Step(old(Abs()), e)
    {
      match e
      case Connect(openOk, attempt, first, second) => Connect(openOk, attempt, first, second);
      case Watch(ok, first, second) => OnIo(ok, first, second);
      case Timer(openOk, attempt, first, second) => OnRetry(openOk, attempt, first, second);
      case CloseSocket => host.CloseSocket();
    }
  }
}
