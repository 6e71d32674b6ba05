/**
 * The command dispatcher of resources/connect/handler.py: a decoded command
 * payload is answered with a response dictionary and, for a recognised
 * command, one media-controller callback is posted on the event loop.
 *
 * `Decide` is the reference definition, driven by the `Routes` table;
 * `Handler.Handle` follows the source's if/elif chain and is proved to agree
 * with it.
 */
module CommandHandler {
  import opened Wrappers
  import opened JsonValues
  import opened EventLoop

  /** `{'status': 'ok'}`: the command was accepted (not yet executed). */
  const OkResponse: Json := Object(map["status" := Str("ok")])

  /** `{'status': 'error', 'error': 'unknown_command'}`. */
  const UnknownCommand: Json := Object(map["status" := Str("error"), "error" := Str("unknown_command")])

  /** The recognised `commandType` values and the controller method each one posts. */
  const Routes: map<string, Operation> := map[
    "searchAndPlay" := FindAndPlay,
    "searchAndDisplay" := FindAndDisplay,
    "next" := NextItem,
    "previous" := PreviousItem,
    "startOver" := StartOver,
    "pause" := Pause,
    "resume" := Resume,
    "stop" := Stop
  ]

  /** The two search operations receive the command's filter; the others take no argument. */
  predicate TakesFilter(op: Operation)
  {
    op == FindAndPlay || op == FindAndDisplay
  }

  /** `data.get('filter', {})`. */
  function FilterOf(fields: map<string, Json>): (filter: Json)
  {
    GetOr(fields, "filter", Object(map[]))
  }

  /** The callback a recognised command posts. */
  function CallbackFor(op: Operation, fields: map<string, Json>): (cb: Callback)
  {
    Callback(op, if TakesFilter(op) then [FilterOf(fields)] else [])
  }

  /**
   * Whether the debug line of a search handler raises. Under Python 2,
   * `json.loads` decodes JSON strings as `unicode`, and `str()` of a unicode
   * string holding a character outside ASCII raises UnicodeEncodeError.
   * `str()` of any other JSON value goes through `repr`, which escapes such
   * characters.
   */
  predicate LogRaises(filter: Json)
  {
    filter.Str? && exists i :: 0 <= i < |filter.s| && filter.s[i] as int >= 128
  }

  /** A search command whose filter makes the handler's debug line raise. */
  predicate UnloggableSearch(data: Json)
  {
    && data.Object?
    && (Field(data, "commandType") == Some(Str("searchAndPlay"))
        || Field(data, "commandType") == Some(Str("searchAndDisplay")))
    && LogRaises(FilterOf(data.fields))
  }

  /** `data['type'] == 'command'` (only when the lookup itself succeeds). */
  predicate IsCommand(data: Json)
  {
    Field(data, "type") == Some(Str("command"))
  }

  /** What a call of `handler` does: it raises, or it returns a response. */
  datatype Reply = Raised | Returned(response: Json)

  /** The reply together with the callbacks the call posted, in order. */
  datatype Decision = Decision(reply: Reply, scheduled: seq<Callback>)

  /** The outcome of `Handler.handler(data)`, read off the routing table. */
  function Decide(data: Json): (d: Decision)
    ensures |d.scheduled| <= 1
    ensures d.scheduled != [] <==> d.reply == Returned(OkResponse)
    ensures d.reply.Returned? ==> d.reply.response == OkResponse || d.reply.response == UnknownCommand
    ensures d.reply.Raised? <==>
              || Field(data, "type").None?
              || (IsCommand(data) && Field(data, "commandType").None?)
              || (IsCommand(data) && UnloggableSearch(data))
    ensures Field(data, "type").Some? && !IsCommand(data) ==> d == Decision(Returned(UnknownCommand), [])
  {
    assert "error" in UnknownCommand.fields && "error" !in OkResponse.fields;
    match Field(data, "type")
    case None => Decision(Raised, [])
    case Some(kind) =>
      if kind != Str("command") then Decision(Returned(UnknownCommand), [])
      else
        match Field(data, "commandType")
        case None => Decision(Raised, [])
        case Some(commandType) =>
          if commandType.Str? && commandType.s in Routes then
            var op := Routes[commandType.s];
            if TakesFilter(op) && LogRaises(FilterOf(data.fields)) then Decision(Raised, [])
            else Decision(Returned(OkResponse), [CallbackFor(op, data.fields)])
          else
            Decision(Returned(UnknownCommand), [])
  }

  /**
   * A recognised command is acknowledged with exactly `{'status': 'ok'}` and
   * posts its one callback, unless it is a search whose filter the debug line
   * cannot render (`SearchWithUnloggableFilterRaises`).
   */
  lemma RecognisedCommand(data: Json, name: string)
    requires IsCommand(data) && Field(data, "commandType") == Some(Str(name))
    requires name in Routes
    requires !(TakesFilter(Routes[name]) && LogRaises(FilterOf(data.fields)))
    ensures Decide(data) == Decision(Returned(OkResponse), [CallbackFor(Routes[name], data.fields)])
  {
  }

  /** The search commands pass on `data['filter']` untouched, or `{}` when the key is absent. */
  lemma SearchForwardsFilter(data: Json, name: string)
    requires IsCommand(data) && Field(data, "commandType") == Some(Str(name))
    requires name == "searchAndPlay" || name == "searchAndDisplay"
    requires !LogRaises(FilterOf(data.fields))
    ensures "filter" in data.fields ==> Decide(data).scheduled[0].args == [data.fields["filter"]]
    ensures "filter" !in data.fields ==> Decide(data).scheduled[0].args == [Object(map[])]
  {
  }

  /**
   * A search whose filter is a string with a character outside ASCII raises
   * before anything is posted: the handler's debug line formats `str(filter)`
   * before `add_callback`.
   */
  lemma SearchWithUnloggableFilterRaises(data: Json, name: string)
    requires IsCommand(data) && Field(data, "commandType") == Some(Str(name))
    requires name == "searchAndPlay" || name == "searchAndDisplay"
    requires LogRaises(FilterOf(data.fields))
    ensures Decide(data) == Decision(Raised, [])
  {
  }

  /** An unrecognised `commandType` is answered `unknown_command` and posts nothing. */
  lemma UnrecognisedCommand(data: Json)
    requires IsCommand(data) && Field(data, "commandType").Some?
    requires !(Field(data, "commandType").value.Str? && Field(data, "commandType").value.s in Routes)
    ensures Decide(data) == Decision(Returned(UnknownCommand), [])
  {
  }

  /**
   * When `type` is present but is not `'command'`, the answer is
   * `unknown_command`, nothing is posted, and `commandType` is never read:
   * changing or removing it changes nothing.
   */
  lemma NonCommandIgnoresCommandType(fields: map<string, Json>, commandType: Json)
    requires "type" in fields && fields["type"] != Str("command")
    ensures Decide(Object(fields)) == Decision(Returned(UnknownCommand), [])
    ensures Decide(Object(fields["commandType" := commandType])) == Decide(Object(fields))
    ensures Decide(Object(fields - {"commandType"})) == Decide(Object(fields))
  {
  }

  /** Every controller method is reachable, each from exactly one command type. */
  lemma {:induction false} RoutesAreOneToOne(op: Operation)
    ensures exists name :: name in Routes && Routes[name] == op
    ensures forall a, b :: a in Routes && b in Routes && Routes[a] == op && Routes[b] == op ==> a == b
  {
    var name := match op
      case FindAndPlay => "searchAndPlay"
      case FindAndDisplay => "searchAndDisplay"
      case NextItem => "next"
      case PreviousItem => "previous"
      case StartOver => "startOver"
      case Pause => "pause"
      case Resume => "resume"
      case Stop => "stop";
    assert name in Routes && Routes[name] == op;
  }

  /** resources/connect/handler.py's `Handler`. */
  class Handler {
    /** `IOLoop.instance()`, the loop every handler method posts to. */
    const ioloop: IOLoop

    constructor (ioloop: IOLoop)
      ensures this.ioloop == ioloop
    {
      this.ioloop := ioloop;
    }

    /** Reports whether the debug line raised; only when it did not is the callback posted. */
    method SearchAndPlayHandler(filter: Json) returns (raised: bool)
      modifies ioloop`callbacks
      ensures raised == LogRaises(filter)
      ensures ioloop.callbacks == old(ioloop.callbacks) + (if raised then [] else [Callback(FindAndPlay, [filter])])
    {
      // the debug message formats `str(video_filter)` before anything is posted
      raised := LogRaises(filter);
      if !raised {
        ioloop.AddCallback(Callback(FindAndPlay, [filter]));
      }
    }

    /** Reports whether the debug line raised; only when it did not is the callback posted. */
    method SearchAndDisplayHandler(filter: Json) returns (raised: bool)
      modifies ioloop`callbacks
      ensures raised == LogRaises(filter)
      ensures ioloop.callbacks == old(ioloop.callbacks) + (if raised then [] else [Callback(FindAndDisplay, [filter])])
    {
      // the debug message formats `str(video_filter)` before anything is posted
      raised := LogRaises(filter);
      if !raised {
        ioloop.AddCallback(Callback(FindAndDisplay, [filter]));
      }
    }

    method NextHandler()
      modifies ioloop`callbacks
      ensures ioloop.callbacks == old(ioloop.callbacks) + [Callback(NextItem, [])]
    {
      ioloop.AddCallback(Callback(NextItem, []));
    }

    method PreviousHandler()
      modifies ioloop`callbacks
      ensures ioloop.callbacks == old(ioloop.callbacks) + [Callback(PreviousItem, [])]
    {
      ioloop.AddCallback(Callback(PreviousItem, []));
    }

    method StartOverHandler()
      modifies ioloop`callbacks
      ensures ioloop.callbacks == old(ioloop.callbacks) + [Callback(StartOver, [])]
    {
      ioloop.AddCallback(Callback(StartOver, []));
    }

    method PauseHandler()
      modifies ioloop`callbacks
      ensures ioloop.callbacks == old(ioloop.callbacks) + [Callback(Pause, [])]
    {
      ioloop.AddCallback(Callback(Pause, []));
    }

    method ResumeHandler()
      modifies ioloop`callbacks
      ensures ioloop.callbacks == old(ioloop.callbacks) + [Callback(Resume, [])]
    {
      ioloop.AddCallback(Callback(Resume, []));
    }

    method StopHandler()
      modifies ioloop`callbacks
      ensures ioloop.callbacks == old(ioloop.callbacks) + [Callback(Stop, [])]
    {
      ioloop.AddCallback(Callback(Stop, []));
    }

    /**
     * `handler(data)`: the if/elif chain of the source. It agrees with the
     * routing table, and it only appends to the loop's queue: the callbacks
     * already queued stay as they were, and at most one is added.
     */
    method Handle(data: Json) returns (reply: Reply)
      modifies ioloop`callbacks
      ensures reply == Decide(data).reply
      ensures ioloop.callbacks == old(ioloop.callbacks) + Decide(data).scheduled
      ensures |ioloop.callbacks| <= |old(ioloop.callbacks)| + 1
      ensures ioloop.callbacks[..|old(ioloop.callbacks)|] == old(ioloop.callbacks)
    {
      var kind := Field(data, "type");
      if kind.None? {
        return Raised;
      }
      var responseData := OkResponse;
      if kind.value == Str("command") {
        var commandType := Field(data, "commandType");
        if commandType.None? {
          return Raised;
        }
        var c := commandType.value;
        if c == Str("searchAndPlay") {
          var raised := SearchAndPlayHandler(FilterOf(data.fields));
          if raised {
            return Raised;
          }
        } else if c == Str("searchAndDisplay") {
          var raised := SearchAndDisplayHandler(FilterOf(data.fields));
          if raised {
            return Raised;
          }
        } else if c == Str("next") {
          NextHandler();
        } else if c == Str("previous") {
          PreviousHandler();
        } else if c == Str("startOver") {
          StartOverHandler();
        } else if c == Str("pause") {
          PauseHandler();
        } else if c == Str("resume") {
          ResumeHandler();
        } else if c == Str("stop") {
          StopHandler();
        } else {
          responseData := UnknownCommand;
        }
      } else {
        responseData := UnknownCommand;
      }
      reply := Returned(responseData);
    }
  }
}
