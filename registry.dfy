/**
  The websocket endpoint's bookkeeping: the registry of live sessions keyed
  by session id (get-or-create on connect, cancel-and-remove on disconnect or
  on an unexpected error), and the validation of each incoming message before
  it reaches the session.
 */
module Registry {
  import opened Wrappers
  import opened StreamingSession

  /** What the endpoint does with one incoming message. */
  datatype InputAction =
    | Process(choice: Json, turnId: Json)
    | IgnoreMissingTurnId
    | IgnoreEmptyChoice
    | InvalidJson
    | HandlerCrash

  /** Python truthiness of a decoded JSON value. */
  predicate Truthy(j: Json)
  {
    match j
    case JNull => false
    case JBool(b) => b
    case JNumber(n) => n != 0
    case JString(s) => s != ""
    case JArray(items) => items != []
    case JObject(fields) => fields != map[]
  }

  /**
    The validation of one message: undecodable text is invalid JSON; a decoded
    value that is not an object has no `get` and crashes the handler; an
    object is processed when its choice is truthy and its turn id present and
    not null, and ignored otherwise.
   */
  function ClassifyInput(p: JsonParse): (r: InputAction)
    ensures r.InvalidJson? <==> p.ParseError?
    ensures r.HandlerCrash? <==> p.Parsed? && !p.value.JObject?
    ensures r.Process? <==>
      p.Parsed? && p.value.JObject? && "choice" in p.value.fields &&
      Truthy(p.value.fields["choice"]) && "turn_id" in p.value.fields &&
      !p.value.fields["turn_id"].JNull?
    ensures r.Process? ==>
      r.choice == p.value.fields["choice"] && r.turnId == p.value.fields["turn_id"]
    ensures r.IgnoreMissingTurnId? <==>
      p.Parsed? && p.value.JObject? && "choice" in p.value.fields &&
      Truthy(p.value.fields["choice"]) &&
      ("turn_id" !in p.value.fields || p.value.fields["turn_id"].JNull?)
  {
    match p
    case ParseError => InvalidJson
    case Parsed(JObject(fields)) =>
      var choice := Get(fields, "choice", JString(""));
      var turnId := Get(fields, "turn_id", JNull);
      if Truthy(choice) && !turnId.JNull? then Process(choice, turnId)
      else if Truthy(choice) then IgnoreMissingTurnId
      else IgnoreEmptyChoice
    case Parsed(_) => HandlerCrash
  }

  /** A message without a choice, or with an empty one, is never processed. */
  lemma EmptyChoiceIgnored(fields: map<string, Json>)
    requires "choice" !in fields || !Truthy(fields["choice"])
    ensures ClassifyInput(Parsed(JObject(fields))) == IgnoreEmptyChoice
  {
  }

  /** A processed message whose choice is a string and whose turn id is a number reaches the session. */
  predicate Dispatches(a: InputAction)
  {
    a.Process? && a.choice.JString? && a.turnId.JNumber?
  }

  class SessionRegistry {
    var clients: map<string, RPGSession>

    constructor ()
      ensures clients == map[]
    {
      clients := map[];
    }

    /** Connecting reuses the session of a known id and creates one only for a new id. */
    method Connect(id: string, systemPrompt: string) returns (s: RPGSession)
      modifies this
      ensures id in clients && clients[id] == s
      ensures id in old(clients) ==> s == old(clients)[id] && clients == old(clients)
      ensures id !in old(clients) ==>
        fresh(s) && clients == old(clients)[id := s] &&
        s.messages == [ChatMessage(SystemRole, systemPrompt), ChatMessage(UserRole, OpeningRequest)] &&
        s.backgroundTasks == [] && s.events == []
    {
      if id !in clients {
        var created := new RPGSession(id, systemPrompt);
        clients := clients[id := created];
      }
      s := clients[id];
    }

    /**
      The cleanup on disconnect or on an unexpected error: the session's
      tasks are all cancelled and its entry removed; an unknown id changes
      nothing.
     */
    method Cleanup(id: string)
      modifies this, (if id in clients then {clients[id]} else {})`backgroundTasks
      ensures clients == old(clients) - {id}
      ensures id in old(clients) ==>
        old(clients[id]).backgroundTasks == AllCancelled(old(clients[id].backgroundTasks))
    {
      if id in clients {
        var s := clients[id];
        s.CancelBackgroundTasks();
        clients := clients - {id};
      }
    }

    /**
      One incoming message for a registered session: a valid choice is passed
      to the session; invalid JSON sends one error without a turn id; a
      non-object, or a stream that raises while the choice is processed,
      crashes the handler, which cleans the session up and ends the
      connection; anything else is ignored.
     */
    method HandleInput(id: string, p: JsonParse, call: StreamCall, decode: string -> JsonParse)
      returns (keepOpen: bool)
      requires id in clients
      modifies this, clients[id]
      ensures var a := ClassifyInput(p);
        keepOpen <==> !(a.HandlerCrash? || (Dispatches(a) && EscapesHandler(call, a.turnId.n)))
      ensures keepOpen ==> clients == old(clients)
      ensures !keepOpen ==> clients == old(clients) - {id}
      ensures ClassifyInput(p).HandlerCrash? ==>
        old(clients[id]).backgroundTasks == AllCancelled(old(clients[id].backgroundTasks))
      ensures var a := ClassifyInput(p); Dispatches(a) ==>
        var s := old(clients[id]);
        var tasks := ChoiceTasks(old(s.backgroundTasks), call, a.turnId.n);
        s.messages == old(s.messages) + ChoiceMessages(a.choice.s, call, decode, a.turnId.n) &&
        s.events == old(s.events) + ChoiceEvents(call, decode, a.turnId.n) &&
        s.backgroundTasks == if keepOpen then tasks else AllCancelled(tasks)
      ensures ClassifyInput(p).InvalidJson? ==>
        clients[id].events == old(clients[id].events) + [ErrorMsg(InvalidInput, None)] &&
        clients[id].messages == old(clients[id].messages)
      ensures ClassifyInput(p).IgnoreMissingTurnId? || ClassifyInput(p).IgnoreEmptyChoice? ==>
        unchanged(clients[id])
    {
      var s := clients[id];
      match ClassifyInput(p)
      case Process(choice, turnId) =>
        keepOpen := true;
        if choice.JString? && turnId.JNumber? {
          var escaped := s.ProcessUserChoice(choice.s, turnId.n, call, decode);
          if escaped {
            Cleanup(id);
            keepOpen := false;
          }
        }
      case InvalidJson =>
        s.events := s.events + [ErrorMsg(InvalidInput, None)];
        keepOpen := true;
      case HandlerCrash =>
        Cleanup(id);
        keepOpen := false;
      case IgnoreMissingTurnId =>
        keepOpen := true;
      case IgnoreEmptyChoice =>
        keepOpen := true;
    }
  }
}
