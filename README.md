# Kodi Connect client: command dispatch and connection supervision

A model of the core of the Kodi Connect add-on, a long-running client that
keeps one authenticated WebSocket session to a cloud relay, answers each
command frame it receives with a response that echoes the frame's
correlationId, and sends a heartbeat every 20 seconds, reconnecting when the
session is gone.

Two source files make up the core:

- `resources/connect/handler.py` is the command dispatcher. `Handler.handler`
  maps a decoded payload (`type`, `commandType`, optional `filter`) to
  `{status: 'ok'}` or `{status: 'error', error: 'unknown_command'}`. For each
  of the eight recognised commands it posts one media-controller callback on
  the IOLoop through `add_callback`, and it never calls the controller
  itself. Under Python 2 the two search handlers log `str(video_filter)`
  before posting, and `str()` of a decoded JSON string holding a character
  outside ASCII raises UnicodeEncodeError; such a search raises and posts
  nothing. In `command_handler.dfy`, `Decide` defines this outcome from a
  routing table (`Routes`). `Handler.Handle` keeps the source's if/elif chain
  and its eight `*_handler` methods, and is proved to agree with `Decide`.
  The IOLoop's callback queue is a `seq` field of `EventLoop.IOLoop`, and the
  handler methods only ever append to it.
- `service.py` holds class `Client`, the connection supervisor. In
  `supervisor.dfy` it is a state machine over values (`ClientState`), and in
  `service.dfy` it is a class whose fields are the source's (`ws`,
  `should_stop`, `connected`, the timer, the loop). Every method of the class
  is proved to perform the matching transition. The WebSocket and the other
  collaborators become logs and inputs:
  - frames written (`outbox`, each tagged with its session);
  - notifications shown (message, level, tag);
  - handshake requests;
  - sessions closed;
  - cache refreshes attempted, each with its outcome;
  - a handshake's outcome, a read's outcome (end-of-stream, or a frame that
    did or did not parse) and a cache refresh's outcome are inputs.

Three behaviours of the code are modelled as written:

- The read loop calls the module-level `handler`, not `self.handler`
  (service.py:120). `Client.RunStep` and `Client.Run` take it as a parameter,
  and the `handler` field is stored but unused.
- In `run`, `message` is a local that keeps its value across loop iterations.
  If a frame does not parse, `message['correlationId']` at service.py:125
  takes one of two paths. On the coroutine's first frame `message` is still
  unbound, so the line raises and the coroutine dies without writing anything.
  After an earlier frame parsed, the line reads that earlier frame's
  correlationId, so an `Unknown error` response goes out under the earlier id.
  A frame that parses but has no `correlationId` also kills the coroutine.
  The handler has already run by then, so its callback is still posted.
- `connected` is not set in `__init__`. It is set to true on the first
  successful connection and never reset, so it does not track the session.
  `should_stop` is written by `stop` and never read.

A malformed frame can end the reader (see above). Once the reader has died,
`ws` stays set, nothing reads from it again, and each tick sends a ping on it
instead of reconnecting.

## Model

| member | source | states |
|---|---|---|
| EventLoop.IOLoop.constructor | service.py:60 | a new loop has an empty callback queue and is not running |
| EventLoop.IOLoop.AddCallback | resources/connect/handler.py:12 | `add_callback` appends exactly the given callback to the queue and calls nothing |
| EventLoop.IOLoop.Start | service.py:73 | the loop is running afterwards |
| EventLoop.IOLoop.Stop | service.py:80 | the loop is stopped afterwards |
| CommandHandler.Decide | resources/connect/handler.py:42-69 | at most one callback is posted, and one is posted exactly when the reply is `{status:'ok'}`; every reply is `ok` or `unknown_command`; the call raises exactly when `type` is missing, or `type` is `command` and `commandType` is missing, or it is a search whose filter is a string with a non-ASCII character (posting nothing); a `type` other than `command` gives `unknown_command` and posts nothing |
| CommandHandler.RecognisedCommand | resources/connect/handler.py:44-61 | a recognised `commandType` with `type == 'command'`, other than a search whose filter cannot be logged, returns exactly `{status:'ok'}` and posts the one callback for its routed controller method |
| CommandHandler.SearchForwardsFilter | resources/connect/handler.py:46-49 | searchAndPlay and searchAndDisplay with a loggable filter pass `data['filter']` unchanged, or `{}` when the key is absent |
| CommandHandler.SearchWithUnloggableFilterRaises | resources/connect/handler.py:10-16 | a search whose filter is a string holding a non-ASCII character raises in the debug line, before `add_callback`, so nothing is posted |
| CommandHandler.UnrecognisedCommand | resources/connect/handler.py:62-63 | any other `commandType` (including a non-string) returns `unknown_command` and posts nothing |
| CommandHandler.NonCommandIgnoresCommandType | resources/connect/handler.py:64-65 | a `type` other than `command` returns `unknown_command`, posts nothing, and the answer does not change when `commandType` is changed or removed |
| CommandHandler.RoutesAreOneToOne | resources/connect/handler.py:46-61 | every controller method is posted by exactly one command type |
| CommandHandler.Handler.constructor | resources/connect/handler.py:7-8 | the handler posts to the given loop |
| CommandHandler.Handler.SearchAndPlayHandler | resources/connect/handler.py:10-12 | raises exactly when `str(filter)` fails (a string filter with a non-ASCII character) and then posts nothing; otherwise appends one `find_and_play(filter)` callback and nothing else |
| CommandHandler.Handler.SearchAndDisplayHandler | resources/connect/handler.py:14-16 | raises exactly when `str(filter)` fails (a string filter with a non-ASCII character) and then posts nothing; otherwise appends one `find_and_display(filter)` callback and nothing else |
| CommandHandler.Handler.NextHandler | resources/connect/handler.py:18-20 | appends one `next_item` callback |
| CommandHandler.Handler.PreviousHandler | resources/connect/handler.py:22-24 | appends one `previous_item` callback |
| CommandHandler.Handler.StartOverHandler | resources/connect/handler.py:26-28 | appends one `start_over` callback |
| CommandHandler.Handler.PauseHandler | resources/connect/handler.py:30-32 | appends one `pause` callback |
| CommandHandler.Handler.ResumeHandler | resources/connect/handler.py:34-36 | appends one `resume` callback |
| CommandHandler.Handler.StopHandler | resources/connect/handler.py:38-40 | appends one `stop` callback |
| CommandHandler.Handler.Handle | resources/connect/handler.py:42-69 | the if/elif chain returns what the routing table decides and posts exactly its callbacks; queued callbacks are left as they were and the queue grows by at most one |
| Supervisor.ResponseFrame | service.py:125 | the response envelope carries the given correlationId and response data, and is never a ping frame |
| Supervisor.Initial | service.py:58-68 | a new client has no session, no running reader, and satisfies the supervisor invariant |
| Supervisor.Connect | service.py:83-103 | empty email or secret: no handshake and no change at all; otherwise exactly one handshake with the URL and credentials; a refused one clears `ws` and shows one `FAILED_TO_CONENCT` at level error; an accepted one sets `ws` and `connected`, shows one `CONNECTED` and starts the reader; nothing is written; the invariant is kept |
| Supervisor.Respond | service.py:115-123 | the response data is exactly `Unknown error` when the frame does not parse, has no `data`, or the handler raises, and nothing is posted then; otherwise it is the handler's reply and callbacks |
| Supervisor.ReadStep | service.py:107-125 | a None read clears `ws`, shows one `DISCONNECTED` warning, stops the reader and writes nothing; an answerable frame gives exactly one write on the same session echoing its correlationId; a frame without one, or an unparsable first frame, kills the reader with nothing written; an unparsable later frame is answered under the previous frame's id; nothing else changes and the invariant is kept |
| Supervisor.RunTrace | service.py:105-125 | the read loop over a run of reads keeps the supervisor invariant |
| Supervisor.RunOnlyAppends | service.py:105-125 | the read loop only appends to the outbox, at most one frame per read, and leaves the handshake, close and refresh logs alone |
| Supervisor.ResponsesTo | service.py:125 | for a run of frames that parse and carry a correlationId: one response per frame, the k-th on the given session, echoing the k-th frame's correlationId and carrying that frame's response data |
| Supervisor.AnswersEveryRequest | service.py:107-125 | over any run of frames that parse and carry a correlationId, the outbox gains exactly `ResponsesTo` those frames (one write per frame, in order, each echoing its frame's correlationId), the reader is still running, `ws` and the notifications are untouched, and the callbacks are posted in frame order |
| Supervisor.StopsAtClose | service.py:108-113 | after answered frames, a None read leaves `ws` empty, the reader stopped and exactly one `DISCONNECTED` warning added; every later read is ignored (the run with them equals the run without them); the outbox gains exactly `ResponsesTo` the answered frames and the callbacks are exactly theirs |
| Supervisor.Tick | service.py:127-137 | with no session the tick calls `connect`; with one it appends exactly one `{'ping':'pong'}` on it and changes nothing else; either way one cache refresh is attempted; the invariant is kept |
| Supervisor.Stop | service.py:75-80 | sets `should_stop`, closes `ws` only when present (and leaves `ws` set), and stops the timer and the loop; nothing else changes |
| Supervisor.Start | service.py:70-73 | one `connect`, then the timer and the loop are running |
| Supervisor.ReconnectsOnNextTick | service.py:108-130 | after a None read, the next tick makes exactly one new handshake when credentials are set |
| Supervisor.RefreshFailureContained | service.py:134-137 | a cache refresh that raises leaves the tick's effect the same as one that returns |
| Supervisor.TickIgnoresShouldStop | service.py:76 | the tick and `connect` behave the same whatever `should_stop` holds |
| Supervisor.ReadStepIgnoresShouldStop | service.py:76 | the read loop behaves the same whatever `should_stop` holds |
| Service.Client.constructor | service.py:58-68 | fields as `__init__` sets them: no session, stop flag clear, timer stopped, empty logs |
| Service.Client.Start | service.py:70-73 | performs the `Start` transition |
| Service.Client.Stop | service.py:75-80 | performs the `Stop` transition; needs no session |
| Service.Client.Connect | service.py:83-103 | performs the `Connect` transition |
| Service.Client.RunStep | service.py:107-125 | performs one `ReadStep` through the module-level handler, whose loop receives exactly the posted callbacks |
| Service.Client.Run | service.py:105-125 | the `while` loop performs `RunTrace` over the given reads, with loop invariants relating the remaining reads to the whole run |
| Service.Client.PeriodicCallback | service.py:127-137 | performs the `Tick` transition |

## Left out

- Tornado's machinery is left out: coroutines, `IOLoop` scheduling, the
  20000 ms period of `PeriodicCallback` (service.py:68) and
  `websocket_connect`. Their outcomes are inputs, and each coroutine step is
  one atomic transition.
- Concurrency is left out. A tick can call `connect` while an earlier
  handshake is still pending, and `stop` runs on another thread. The model
  runs transitions one at a time, and `Client.Connect` requires that no
  session is set, which every caller in the source guarantees.
- Within a tick, the handshake finishes after `update_cache` is called. The
  order is not modelled, because neither step reads what the other changes.
- `write_message` is taken to succeed. If it raised during a tick on a
  connection the peer had already closed, the source would skip
  `update_cache` for that tick.
- `json.loads` and `json.dumps` are library calls and are left out. A frame
  arrives already decoded, with parse failure as an input. Written frames are
  the dictionaries passed to `json.dumps`. JSON numbers are integers; no number
  is ever compared or computed with.
- Settings come from `addon.getSetting`, and mock/xbmcaddon.py reads them
  from environment variables. In the model they are inputs to `connect`.
- Several collaborators are not part of this model: `OnlyOnce`,
  `KodiInterface`, `LibraryCache`, `CustomMonitor`, `CustomPlayer`, `notif`
  and `strings`. Controller methods are recorded only as posted callbacks.
  Notification messages are three named constants. The single-instance lock
  cannot be modelled without `OnlyOnce`.
- `ClientThread` and the `__main__` block are left out, since they cover
  thread start and join, abort polling and KeyboardInterrupt. So are logging,
  the `sys.path` set-up, the `KODI_CONNECT_URL` override (service.py:12) and
  `logging_config`.
- `last_connection_notification_message` is set in `__init__` and never
  used. It is not modelled.
