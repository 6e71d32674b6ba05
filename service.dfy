/**
 * service.py's `Client`: the object whose methods the IOLoop runs. Each
 * method updates the fields the source updates (`ws`, `should_stop`,
 * `connected`, the timer and the loop) and appends to the logs that stand for
 * the WebSocket and the notification display; each is proved to perform the
 * corresponding transition of the `Supervisor` state machine.
 */
module Service {
  import opened Wrappers
  import opened JsonValues
  import EventLoop
  import CommandHandler
  import opened Supervisor

  class Client {
    const url: string
    /** `IOLoop.current()`, the loop `start` runs and `stop` stops. */
    const ioloop: EventLoop.IOLoop
    /** `self.handler`: stored, but `run` calls the module-level `handler` instead. */
    const handler: CommandHandler.Handler

    var ws: Option<Session>
    var shouldStop: bool
    /** Absent (false) until the first successful connection; never reset. */
    var connected: bool
    /** The `run` coroutine. */
    var reader: Reader
    /** Whether the 20-second `PeriodicCallback` is started. */
    var periodicRunning: bool
    var outbox: seq<Write>
    var notifications: seq<Notification>
    var handshakes: seq<Handshake>
    var closed: seq<Session>
    var refreshes: seq<RefreshResult>

    function State(): ClientState
      reads this, ioloop
    {
      ClientState(ws, shouldStop, connected, reader, periodicRunning, ioloop.running,
                  outbox, notifications, handshakes, closed, refreshes)
    }

    ghost predicate Valid()
      reads this, ioloop
    {
      Inv(State())
    }

    constructor (url: string, ioloop: EventLoop.IOLoop, handler: CommandHandler.Handler)
      ensures Valid()
      ensures this.url == url && this.ioloop == ioloop && this.handler == handler
      ensures State() == Initial().(loopRunning := ioloop.running)
    {
      this.url := url;
      this.ioloop := ioloop;
      this.handler := handler;
      ws := None;
      shouldStop := false;
      connected := false;
      reader := Idle;
      periodicRunning := false;
      outbox, notifications, handshakes, closed, refreshes := [], [], [], [], [];
    }

    /** `start`: connect once, start the heartbeat timer, run the loop. */
    method Start(creds: Credentials, handshake: HandshakeResult)
      requires Valid() && ws.None?
      modifies this, ioloop`running
      ensures Valid()
      ensures State() == Supervisor.Start(old(State()), url, creds, handshake)
    {
      Connect(creds, handshake);
      periodicRunning := true;
      ioloop.Start();
    }

    /** `stop`: safe with or without a session. */
    method Stop()
      requires Valid()
      modifies this, ioloop`running
      ensures Valid()
      ensures State() == Supervisor.Stop(old(State()))
    {
      shouldStop := true;
      if ws.Some? {
        closed := closed + [ws.value];
      }
      periodicRunning := false;
      ioloop.Stop();
    }

    /**
     * `connect`, with the settings read at the start and the handshake's
     * outcome as inputs. Its callers (`start`, and the tick when `ws` is
     * None) only call it without a session.
     */
    method Connect(creds: Credentials, result: HandshakeResult)
      requires Valid() && ws.None?
      modifies this
      ensures Valid()
      ensures State() == Supervisor.Connect(old(State()), url, creds, result)
    {
      if |creds.email| == 0 || |creds.secret| == 0 {
        return;
      }
      handshakes := handshakes + [Handshake(url, creds.email, creds.secret)];
      match result {
        case Refused =>
          ws := None;
          notifications := notifications + [Notification(FailedToConnect, Error, ConnectionTag)];
        case Accepted(session) =>
          ws := Some(session);
          connected := true;
          notifications := notifications + [Notification(Connected, DefaultLevel, ConnectionTag)];
          // `self.run()`: the coroutine runs up to its first read, `message` still unbound
          reader := Awaiting(None);
      }
    }

    /**
     * One iteration of `run`'s loop, with the read's outcome as input and
     * `globalHandler` the module-level `handler` that line 120 calls.
     */
    method RunStep(read: ReadResult, globalHandler: CommandHandler.Handler)
      requires Valid() && reader.Awaiting?
      modifies this, globalHandler.ioloop`callbacks
      ensures Valid()
      ensures State() == ReadStep(old(State()), read).state
      ensures globalHandler.ioloop.callbacks == old(globalHandler.ioloop.callbacks) + ReadStep(old(State()), read).scheduled
    {
      match read {
        case Closed =>
          ws := None;
          notifications := notifications + [Notification(Disconnected, Warn, ConnectionTag)];
          reader := Idle;
        case Received(parsed) =>
          var message := reader.message;
          var responseData: Json;
          if parsed.None? {
            responseData := UnknownError;
          } else {
            message := parsed;
            var data := Field(parsed.value, "data");
            if data.None? {
              responseData := UnknownError;
            } else {
              var reply := globalHandler.Handle(data.value);
              responseData := if reply.Raised? then UnknownError else reply.response;
            }
          }
          if message.None? || Field(message.value, "correlationId").None? {
            // `message['correlationId']` raises outside the `try`: the coroutine dies
            reader := Died;
          } else {
            var correlationId := Field(message.value, "correlationId").value;
            outbox := outbox + [Write(ws.value, ResponseFrame(correlationId, responseData))];
            reader := Awaiting(message);
          }
      }
    }

    /**
     * `run`'s `while True` loop fed the reads in `incoming`: it goes on while
     * the coroutine is reading and there is input left.
     */
    method Run(incoming: seq<ReadResult>, globalHandler: CommandHandler.Handler)
      requires Valid() && reader.Awaiting?
      modifies this, globalHandler.ioloop`callbacks
      ensures Valid()
      ensures State() == RunTrace(old(State()), incoming).state
      ensures globalHandler.ioloop.callbacks == old(globalHandler.ioloop.callbacks) + RunTrace(old(State()), incoming).scheduled
    {
      ghost var whole := RunTrace(State(), incoming);
      ghost var queued := globalHandler.ioloop.callbacks;
      var i := 0;
      while i < |incoming| && reader.Awaiting?
        invariant 0 <= i <= |incoming|
        invariant Valid()
        invariant RunTrace(State(), incoming[i..]).state == whole.state
        invariant globalHandler.ioloop.callbacks + RunTrace(State(), incoming[i..]).scheduled == queued + whole.scheduled
        decreases |incoming| - i
      {
        ghost var s := State();
        ghost var q := globalHandler.ioloop.callbacks;
        RunTraceUnfolds(s, incoming, i);
        RunStep(incoming[i], globalHandler);
        ghost var step := ReadStep(s, incoming[i]);
        ghost var rest := RunTrace(step.state, incoming[i + 1..]);
        assert State() == step.state;
        assert globalHandler.ioloop.callbacks == q + step.scheduled;
        ConcatIsAssociative(q, step.scheduled, rest.scheduled);
        i := i + 1;
      }
      assert RunTrace(State(), incoming[i..]) == Trace(State(), []);
    }

    /** `periodic_callback`, with the inputs of the `connect` it may call and the refresh's outcome. */
    method PeriodicCallback(creds: Credentials, handshake: HandshakeResult, refresh: RefreshResult)
      requires Valid()
      modifies this
      ensures Valid()
      ensures State() == Tick(old(State()), url, creds, handshake, refresh)
    {
      if ws.None? {
        Connect(creds, handshake);
      } else {
        outbox := outbox + [Write(ws.value, PingFrame)];
      }
      // `kodi.update_cache()` is always attempted; an exception from it is caught and logged
      refreshes := refreshes + [refresh];
    }
  }
}
