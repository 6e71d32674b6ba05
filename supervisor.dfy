/**
 * The connection supervisor of service.py (class `Client`) as a state
 * machine over values. The WebSocket, the notification display, the settings
 * store and the library cache are taken out: what the client does to them is
 * recorded in logs (frames written, notifications shown, handshakes
 * requested, sessions closed, cache refreshes attempted), and what they
 * answer is an input of each transition (handshake accepted or refused, a
 * frame or end-of-stream from a read, a cache refresh that returns or raises).
 *
 * Every transition here is what one method of the class in service.dfy does.
 */
module Supervisor {
  import opened Wrappers
  import opened JsonValues
  import EventLoop
  import CommandHandler

  /** A live WebSocket session, as returned by a successful `websocket_connect`. */
  datatype Session = Session(id: nat)

  /** The `email` and `secret` settings, read afresh on every connection attempt. */
  datatype Credentials = Credentials(email: string, secret: string)

  /** The handshake request: the relay URL with the credentials as basic auth. */
  datatype Handshake = Handshake(url: string, email: string, secret: string)

  /** What `websocket_connect` resolves to. */
  datatype HandshakeResult = Refused | Accepted(session: Session)

  /** What `ws.read_message()` resolves to: None (the connection is closed) or a text frame,
    * already passed through `json.loads` (None when it raised). */
  datatype ReadResult = Closed | Received(parsed: Option<Json>)

  /** Whether `kodi.update_cache()` returned or raised. */
  datatype RefreshResult = Refreshed | RefreshFailed

  /** The user-visible messages (`strings.FAILED_TO_CONENCT`, `CONNECTED`, `DISCONNECTED`). */
  datatype Message = FailedToConnect | Connected | Disconnected

  /** The notification level; `DefaultLevel` is whatever `notif.show` uses when none is given. */
  datatype Level = DefaultLevel | Warn | Error

  datatype Notification = Notification(message: Message, level: Level, tag: string)

  const ConnectionTag: string := "connection"

  /** A frame written with `write_message` on a given session. */
  datatype Write = Write(session: Session, frame: Json)

  /**
   * The `run` coroutine: not running (never started, or left its loop on a
   * closed connection), suspended on a read with the value of its local
   * `message` (None while unbound), or ended by an exception.
   */
  datatype Reader = Idle | Awaiting(message: Option<Json>) | Died

  /** Everything about a `Client` that its methods read or change. */
  datatype ClientState = ClientState(
    ws: Option<Session>,
    shouldStop: bool,
    connected: bool,
    reader: Reader,
    periodicRunning: bool,
    loopRunning: bool,
    outbox: seq<Write>,
    notifications: seq<Notification>,
    handshakes: seq<Handshake>,
    closed: seq<Session>,
    refreshes: seq<RefreshResult>)

  /** The response data written when the payload cannot be handled. */
  const UnknownError: Json := Object(map["status" := Str("error"), "error" := Str("Unknown error")])

  /** `{'ping': 'pong'}`, the heartbeat frame. */
  const PingFrame: Json := Object(map["ping" := Str("pong")])

  /** The response envelope `{'correlationId': ..., 'data': ...}`: the peer reads back both parts. */
  function ResponseFrame(correlationId: Json, data: Json): (frame: Json)
    ensures Field(frame, "correlationId") == Some(correlationId)
    ensures Field(frame, "data") == Some(data)
    ensures frame != PingFrame
  {
    Object(map["correlationId" := correlationId, "data" := data])
  }

  /**
   * The supervisor's invariant: a `run` coroutine has only ever been started
   * on a successful connection, and while it is suspended or dead its
   * session is still `ws`; `connected` is only set after a handshake.
   */
  ghost predicate Inv(s: ClientState)
  {
    && (!s.reader.Idle? ==> s.ws.Some? && s.connected)
    && (s.connected ==> s.handshakes != [])
  }

  /** A `Client` just constructed (`connected` does not exist yet, read as false). */
  function Initial(): (s: ClientState)
    ensures Inv(s) && s.ws.None? && s.reader.Idle?
  {
    ClientState(None, false, false, Idle, false, false, [], [], [], [], [])
  }

  predicate Configured(creds: Credentials)
  {
    |creds.email| > 0 && |creds.secret| > 0
  }

  /**
   * `connect`: nothing at all without both credentials; otherwise one
   * handshake, after which the session is either dropped with a failure
   * notification or installed, with `connected` set, a notification shown and
   * the `run` coroutine started. No frame is written and nothing escapes.
   */
  function Connect(s: ClientState, url: string, creds: Credentials, result: HandshakeResult): (t: ClientState)
    ensures !Configured(creds) ==> t == s
    ensures Configured(creds) ==> t.handshakes == s.handshakes + [Handshake(url, creds.email, creds.secret)]
    ensures Configured(creds) && result.Refused? ==>
              && t.ws.None? && t.reader == s.reader && t.connected == s.connected
              && t.notifications == s.notifications + [Notification(FailedToConnect, Error, ConnectionTag)]
    ensures Configured(creds) && result.Accepted? ==>
              && t.ws == Some(result.session) && t.connected && t.reader == Awaiting(None)
              && t.notifications == s.notifications + [Notification(Connected, DefaultLevel, ConnectionTag)]
    ensures t.(ws := s.ws, connected := s.connected, reader := s.reader,
               notifications := s.notifications, handshakes := s.handshakes) == s
    ensures Inv(s) && s.ws.None? ==> Inv(t)
  {
    if !Configured(creds) then s
    else
      var attempted := s.(handshakes := s.handshakes + [Handshake(url, creds.email, creds.secret)]);
      match result
      case Refused =>
        attempted.(ws := None,
                   notifications := s.notifications + [Notification(FailedToConnect, Error, ConnectionTag)])
      case Accepted(session) =>
        attempted.(ws := Some(session), connected := true,
                   notifications := s.notifications + [Notification(Connected, DefaultLevel, ConnectionTag)],
                   reader := Awaiting(None))
  }

  /** The response data of the `try` block and the callbacks the handler posted on the way. */
  datatype Handled = Handled(response: Json, scheduled: seq<EventLoop.Callback>)

  /**
   * The `try` block of `run`: parse, take `message['data']`, call the
   * handler. Any failure on the way gives exactly `Unknown error` and posts
   * nothing; otherwise the handler's own answer and callbacks are kept.
   */
  function Respond(parsed: Option<Json>): (h: Handled)
    ensures |h.scheduled| <= 1
    ensures h.response == UnknownError <==>
              || parsed.None?
              || Field(parsed.value, "data").None?
              || CommandHandler.Decide(Field(parsed.value, "data").value).reply.Raised?
    ensures h.response == UnknownError ==> h.scheduled == []
    ensures h.response != UnknownError ==>
              var d := CommandHandler.Decide(Field(parsed.value, "data").value);
              d.reply == CommandHandler.Returned(h.response) && h.scheduled == d.scheduled
  {
    assert UnknownError.fields["error"] != CommandHandler.UnknownCommand.fields["error"];
    assert "error" !in CommandHandler.OkResponse.fields;
    if parsed.None? then Handled(UnknownError, [])
    else
      match Field(parsed.value, "data")
      case None => Handled(UnknownError, [])
      case Some(data) =>
        var d := CommandHandler.Decide(data);
        if d.reply.Raised? then Handled(UnknownError, [])
        else Handled(d.reply.response, d.scheduled)
  }

  /** `message['correlationId']` succeeds. */
  predicate Correlated(message: Option<Json>)
  {
    message.Some? && Field(message.value, "correlationId").Some?
  }

  function CorrelationId(message: Option<Json>): (id: Json)
    requires Correlated(message)
  {
    Field(message.value, "correlationId").value
  }

  /** A frame that parses and carries a correlationId: one the loop answers. */
  predicate Answerable(read: ReadResult)
  {
    read.Received? && read.parsed.Some? && Correlated(read.parsed)
  }

  /** One transition: the new state and the callbacks posted on the handler's loop. */
  datatype Step = Step(state: ClientState, scheduled: seq<EventLoop.Callback>)

  /**
   * One iteration of the `while True` loop of `run`. End-of-stream drops the
   * session, warns once and leaves the loop, writing nothing. A frame that
   * parses and carries a correlationId is answered by exactly one write on
   * the same session, echoing that id. A frame that parses without one, or a
   * first frame that does not parse, ends the coroutine with an exception and
   * nothing written. A frame that does not parse after an earlier one did is
   * answered `Unknown error` under the EARLIER frame's correlationId, because
   * `message` keeps its value from the previous iteration.
   */
  function ReadStep(s: ClientState, read: ReadResult): (r: Step)
    requires Inv(s) && s.reader.Awaiting?
    ensures Inv(r.state)
    ensures read.Closed? ==>
              && r.state.ws.None? && r.state.reader.Idle? && r.state.outbox == s.outbox && r.scheduled == []
              && r.state.notifications == s.notifications + [Notification(Disconnected, Warn, ConnectionTag)]
    ensures read.Received? ==>
              && r.state.ws == s.ws && r.state.notifications == s.notifications
              && r.scheduled == Respond(read.parsed).scheduled
    ensures Answerable(read) ==>
              && r.state.reader == Awaiting(read.parsed)
              && r.state.outbox == s.outbox + [Write(s.ws.value, ResponseFrame(CorrelationId(read.parsed), Respond(read.parsed).response))]
    ensures read.Received? && read.parsed.Some? && !Correlated(read.parsed) ==>
              r.state.reader.Died? && r.state.outbox == s.outbox
    ensures read == Received(None) && Correlated(s.reader.message) ==>
              && r.state.reader == s.reader
              && r.state.outbox == s.outbox + [Write(s.ws.value, ResponseFrame(CorrelationId(s.reader.message), UnknownError))]
    ensures read == Received(None) && !Correlated(s.reader.message) ==>
              r.state.reader.Died? && r.state.outbox == s.outbox
    ensures r.state.(ws := s.ws, reader := s.reader, outbox := s.outbox, notifications := s.notifications) == s
  {
    match read
    case Closed =>
      Step(s.(ws := None, reader := Idle,
              notifications := s.notifications + [Notification(Disconnected, Warn, ConnectionTag)]), [])
    case Received(parsed) =>
      var handled := Respond(parsed);
      var message := if parsed.Some? then parsed else s.reader.message;
      if Correlated(message) then
        var frame := ResponseFrame(CorrelationId(message), handled.response);
        Step(s.(outbox := s.outbox + [Write(s.ws.value, frame)], reader := Awaiting(message)), handled.scheduled)
      else
        Step(s.(reader := Died), handled.scheduled)
  }

  /** The outcome of the `run` loop over a run of reads. */
  datatype Trace = Trace(state: ClientState, scheduled: seq<EventLoop.Callback>)

  /**
   * The `run` loop fed `incoming` in order, until they run out or the coroutine
   * stops. It only appends to the outbox, at most one frame per read, and
   * touches no other log.
   */
  function RunTrace(s: ClientState, incoming: seq<ReadResult>): (r: Trace)
    requires Inv(s)
    ensures Inv(r.state)
    decreases |incoming|
  {
    if incoming == [] || !s.reader.Awaiting? then Trace(s, [])
    else
      var step := ReadStep(s, incoming[0]);
      var rest := RunTrace(step.state, incoming[1..]);
      Trace(rest.state, step.scheduled + rest.scheduled)
  }

  /**
   * Whatever it reads, the loop only appends to the outbox, at most one
   * frame per read, and leaves the handshake, close and refresh logs alone.
   */
  lemma {:induction false} RunOnlyAppends(s: ClientState, incoming: seq<ReadResult>)
    requires Inv(s)
    ensures var t := RunTrace(s, incoming).state;
            && |s.outbox| <= |t.outbox| <= |s.outbox| + |incoming|
            && t.outbox[..|s.outbox|] == s.outbox
            && t.handshakes == s.handshakes && t.closed == s.closed && t.refreshes == s.refreshes
    decreases |incoming|
  {
    if incoming != [] && s.reader.Awaiting? {
      var step := ReadStep(s, incoming[0]);
      RunOnlyAppends(step.state, incoming[1..]);
      var t := RunTrace(s, incoming).state;
      assert t.outbox[..|step.state.outbox|][..|s.outbox|] == t.outbox[..|s.outbox|];
    }
  }

  /** One turn of the loop, for a caller that has just performed the `i`-th read. */
  lemma RunTraceUnfolds(s: ClientState, incoming: seq<ReadResult>, i: nat)
    requires Inv(s) && s.reader.Awaiting? && i < |incoming|
    ensures var step := ReadStep(s, incoming[i]);
            var rest := RunTrace(step.state, incoming[i + 1..]);
            RunTrace(s, incoming[i..]) == Trace(rest.state, step.scheduled + rest.scheduled)
  {
  }

  /** The callbacks the handler posts for a run of answerable frames. */
  function ScheduledFor(incoming: seq<ReadResult>): (callbacks: seq<EventLoop.Callback>)
    requires forall k {:trigger incoming[k]} :: 0 <= k < |incoming| ==> Answerable(incoming[k])
  {
    if incoming == [] then []
    else
      assert Answerable(incoming[0]);
      Respond(incoming[0].parsed).scheduled + ScheduledFor(incoming[1..])
  }

  /**
   * The responses a run of answerable frames calls for, in order: the k-th is
   * written on `session`, echoes the k-th frame's correlationId and carries
   * the response data computed for that frame.
   */
  function ResponsesTo(session: Session, incoming: seq<ReadResult>): (w: seq<Write>)
    requires forall k {:trigger incoming[k]} :: 0 <= k < |incoming| ==> Answerable(incoming[k])
    ensures |w| == |incoming|
    ensures forall k :: 0 <= k < |incoming| ==>
              && Answerable(incoming[k])
              && w[k].session == session
              && Field(w[k].frame, "correlationId") == Some(CorrelationId(incoming[k].parsed))
              && Field(w[k].frame, "data") == Some(Respond(incoming[k].parsed).response)
  {
    if incoming == [] then []
    else
      assert Answerable(incoming[0]);
      var rest := ResponsesTo(session, incoming[1..]);
      var w := [Write(session, ResponseFrame(CorrelationId(incoming[0].parsed), Respond(incoming[0].parsed).response))] + rest;
      assert forall k :: 1 <= k < |incoming| ==> w[k] == rest[k - 1] && incoming[k] == incoming[1..][k - 1];
      w
  }

  lemma ConcatIsAssociative<T>(a: seq<T>, b: seq<T>, c: seq<T>)
    ensures a + (b + c) == (a + b) + c
  {
  }

  /**
   * Every frame that parses and carries a correlationId is answered, in
   * order, by exactly one write on the session that received it (see
   * `ResponsesTo`); the loop is still reading afterwards, the session and
   * the notifications are untouched, and the handler posted exactly the
   * frames' callbacks, in frame order.
   */
  lemma {:induction false} AnswersEveryRequest(s: ClientState, incoming: seq<ReadResult>)
    requires Inv(s) && s.reader.Awaiting?
    requires forall k {:trigger incoming[k]} :: 0 <= k < |incoming| ==> Answerable(incoming[k])
    ensures var r := RunTrace(s, incoming);
            && r.state.reader.Awaiting? && r.state.ws == s.ws
            && r.state.notifications == s.notifications
            && r.state.outbox == s.outbox + ResponsesTo(s.ws.value, incoming)
            && r.scheduled == ScheduledFor(incoming)
    decreases |incoming|
  {
    if incoming == [] {
      assert s.outbox + [] == s.outbox;
    } else {
      assert Answerable(incoming[0]);
      var step := ReadStep(s, incoming[0]);
      var head := Write(s.ws.value, ResponseFrame(CorrelationId(incoming[0].parsed), Respond(incoming[0].parsed).response));
      assert step.state.outbox == s.outbox + [head];
      AnswersEveryRequest(step.state, incoming[1..]);
      assert ResponsesTo(s.ws.value, incoming) == [head] + ResponsesTo(s.ws.value, incoming[1..]);
      ConcatIsAssociative(s.outbox, [head], ResponsesTo(s.ws.value, incoming[1..]));
    }
  }

  /**
   * A closed connection ends the loop: after any run of answered frames, a
   * None read drops the session, shows exactly one `DISCONNECTED` warning
   * and ignores whatever would have followed. Up to then every frame was
   * answered in order (see `ResponsesTo`) and posted its callbacks; the
   * None read itself writes nothing.
   */
  lemma {:induction false} StopsAtClose(s: ClientState, answered: seq<ReadResult>, later: seq<ReadResult>)
    requires Inv(s) && s.reader.Awaiting?
    requires forall k {:trigger answered[k]} :: 0 <= k < |answered| ==> Answerable(answered[k])
    ensures RunTrace(s, answered + [Closed] + later) == RunTrace(s, answered + [Closed])
    ensures var r := RunTrace(s, answered + [Closed]);
            && r.state.ws.None? && r.state.reader.Idle?
            && r.state.notifications == s.notifications + [Notification(Disconnected, Warn, ConnectionTag)]
            && r.state.outbox == s.outbox + ResponsesTo(s.ws.value, answered)
            && r.scheduled == ScheduledFor(answered)
    decreases |answered|
  {
    var incoming := answered + [Closed] + later;
    var upToClose := answered + [Closed];
    if answered == [] {
      assert incoming[0] == Closed && incoming[1..] == later;
      assert upToClose[0] == Closed && upToClose[1..] == [];
      var step := ReadStep(s, Closed);
      assert RunTrace(step.state, later) == Trace(step.state, []);
      assert s.outbox + [] == s.outbox;
    } else {
      assert Answerable(answered[0]);
      var step := ReadStep(s, answered[0]);
      assert incoming[0] == answered[0] && upToClose[0] == answered[0];
      assert incoming[1..] == answered[1..] + [Closed] + later;
      assert upToClose[1..] == answered[1..] + [Closed];
      StopsAtClose(step.state, answered[1..], later);
      var head := Write(s.ws.value, ResponseFrame(CorrelationId(answered[0].parsed), Respond(answered[0].parsed).response));
      assert step.state.outbox == s.outbox + [head];
      assert ResponsesTo(s.ws.value, answered) == [head] + ResponsesTo(s.ws.value, answered[1..]);
      ConcatIsAssociative(s.outbox, [head], ResponsesTo(s.ws.value, answered[1..]));
    }
  }

  /**
   * The heartbeat: with no session it calls `connect`, otherwise it writes
   * exactly one `{'ping': 'pong'}` on the session; either way it then
   * attempts a cache refresh whose failure changes nothing else.
   */
  function Tick(s: ClientState, url: string, creds: Credentials, handshake: HandshakeResult,
                refresh: RefreshResult): (t: ClientState)
    ensures t.refreshes == s.refreshes + [refresh]
    ensures s.ws.None? ==> t == Connect(s, url, creds, handshake).(refreshes := s.refreshes + [refresh])
    ensures s.ws.Some? ==> t == s.(outbox := s.outbox + [Write(s.ws.value, PingFrame)], refreshes := t.refreshes)
    ensures Inv(s) ==> Inv(t)
  {
    var beat :=
      if s.ws.None? then Connect(s, url, creds, handshake)
      else s.(outbox := s.outbox + [Write(s.ws.value, PingFrame)]);
    beat.(refreshes := s.refreshes + [refresh])
  }

  /**
   * `stop`: raises the stop flag, closes the session only when there is one
   * (the session stays in `ws` until the reader sees the close), and stops
   * the timer and the loop.
   */
  function Stop(s: ClientState): (t: ClientState)
    ensures t.shouldStop && !t.periodicRunning && !t.loopRunning
    ensures s.ws.Some? ==> t.closed == s.closed + [s.ws.value]
    ensures s.ws.None? ==> t.closed == s.closed
    ensures t.(shouldStop := s.shouldStop, closed := s.closed, periodicRunning := s.periodicRunning,
               loopRunning := s.loopRunning) == s
    ensures Inv(s) ==> Inv(t)
  {
    s.(shouldStop := true,
       closed := if s.ws.Some? then s.closed + [s.ws.value] else s.closed,
       periodicRunning := false,
       loopRunning := false)
  }

  /** `start`: one connection attempt, then the timer and the loop are running. */
  function Start(s: ClientState, url: string, creds: Credentials, handshake: HandshakeResult): (t: ClientState)
    ensures t.periodicRunning && t.loopRunning
    ensures t.(periodicRunning := s.periodicRunning, loopRunning := s.loopRunning) == Connect(s, url, creds, handshake)
    ensures Inv(s) && s.ws.None? ==> Inv(t)
  {
    Connect(s, url, creds, handshake).(periodicRunning := true, loopRunning := true)
  }

  /** After the reader sees a close, the next tick makes exactly one new handshake. */
  lemma ReconnectsOnNextTick(s: ClientState, url: string, creds: Credentials, handshake: HandshakeResult,
                             refresh: RefreshResult)
    requires Inv(s) && s.reader.Awaiting? && Configured(creds)
    ensures var t := Tick(ReadStep(s, Closed).state, url, creds, handshake, refresh);
            t.handshakes == s.handshakes + [Handshake(url, creds.email, creds.secret)]
  {
  }

  /** A cache refresh that raises leaves the tick's effect exactly as a successful one. */
  lemma RefreshFailureContained(s: ClientState, url: string, creds: Credentials, handshake: HandshakeResult)
    ensures Tick(s, url, creds, handshake, RefreshFailed).(refreshes := s.refreshes)
         == Tick(s, url, creds, handshake, Refreshed).(refreshes := s.refreshes)
  {
  }

  /** `should_stop` is written by `stop` and read by nothing: the tick (and the `connect` it may call) ignores it. */
  lemma TickIgnoresShouldStop(s: ClientState, flag: bool, url: string, creds: Credentials,
                              handshake: HandshakeResult, refresh: RefreshResult)
    ensures Tick(s.(shouldStop := flag), url, creds, handshake, refresh)
         == Tick(s, url, creds, handshake, refresh).(shouldStop := flag)
  {
  }

  /** Nor does the read loop look at `should_stop`. */
  lemma ReadStepIgnoresShouldStop(s: ClientState, flag: bool, read: ReadResult)
    requires Inv(s) && s.reader.Awaiting?
    ensures var r := ReadStep(s, read);
            ReadStep(s.(shouldStop := flag), read) == Step(r.state.(shouldStop := flag), r.scheduled)
  {
  }
}
