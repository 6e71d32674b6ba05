/**
 * The part of Tornado's IOLoop that the client relies on: a queue of
 * callbacks posted with `add_callback`, and the loop's running flag that
 * `start` and `stop` toggle. The callbacks are bound methods of the media
 * controller (KodiInterface), which runs them later on the loop.
 */
module EventLoop {
  import opened JsonValues

  /** The media-controller methods a command handler can post. */
  datatype Operation =
    | FindAndPlay
    | FindAndDisplay
    | NextItem
    | PreviousItem
    | StartOver
    | Pause
    | Resume
    | Stop

  /** A posted callback: the controller method and the arguments it will receive. */
  datatype Callback = Callback(operation: Operation, args: seq<Json>)

  class IOLoop {
    var callbacks: seq<Callback>
    var running: bool

    constructor ()
      ensures callbacks == [] && !running
    {
      callbacks := [];
      running := false;
    }

    /** Queues `cb` to run on a later loop iteration; nothing is called now. */
    method AddCallback(cb: Callback)
      modifies this`callbacks
      ensures callbacks == old(callbacks) + [cb]
    {
      callbacks := callbacks + [cb];
    }

    method Start()
      modifies this`running
      ensures running
    {
      running := true;
    }

    method Stop()
      modifies this`running
      ensures !running
    {
      running := false;
    }
  }
}
