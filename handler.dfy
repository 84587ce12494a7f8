/**
 * The request handler: envelope validation, dispatch on the rpc's `method`,
 * the seven channel operations and `echo`. Each invocation is one function of
 * the table before it, the event, and the parameters standing for what the
 * handler takes from its environment: `newId` for the generated channel id,
 * `now` for the current time in whole seconds, and `fault` for a store call
 * that fails. The functions are the specification; the methods at the end
 * perform the same invocations on a ChannelStore.Table and are proved to
 * follow them.
 */
module Handler {
  import opened Wrappers
  import opened Values
  import opened PyText
  import opened ChannelStore
  import opened Responses
  import Rpc

  /** How long after its creation a channel expires, in seconds. */
  const TTL := 300

  const NotValidRequest := "Not a valid request"
  const OnlyPost := "Only accept POST method"
  const NotValidRpc := "Not a valid rpc. HTTP post body must be a json object with method key"

  /** The outcome of envelope validation. */
  datatype Checked = Accepted(rpc: Value) | Rejected(message: string) | Raised(exc: Exception)

  /** `key in container` followed by `container[key]`: the member, if present. */
  function Member(container: Value, key: string): Py<Option<Value>> {
    match Contains(container, key)
    case Raise(e) => Raise(e)
    case Ok(present) =>
      if !present then Ok(None)
      else match Index(container, key)
        case Raise(e) => Raise(e)
        case Ok(v) => Ok(Some(v))
  }

  /** `v[key]` when `v` is a dict holding `key`. */
  function DictAt(v: Value, key: string): Option<Value> {
    if v.Dict? && HasKey(v.entries, key) then Some(Lookup(v.entries, key)) else None
  }

  /** The request's HTTP method, when requestContext and http are dicts that hold it. */
  function HttpMethod(event: Value): Option<Value> {
    match DictAt(event, "requestContext")
    case None => None
    case Some(context) =>
      match DictAt(context, "http")
      case None => None
      case Some(http) => DictAt(http, "method")
  }

  /**
   * `validate_rpc`. The event's `body` entry holds the decoded body, the value
   * `json.loads` returns for the body text.
   */
  function ValidateRpc(event: Value): (r: Checked)
    ensures r.Accepted? ==>
      && HttpMethod(event) == Some(Str("POST"))
      && DictAt(event, "body") == Some(r.rpc)
      && Contains(r.rpc, "method") == Ok(true)
    ensures r.Rejected? ==> r.message in {NotValidRequest, OnlyPost, NotValidRpc}
    ensures event.Dict? && DictAt(event, "requestContext").None? ==> r == Rejected(NotValidRequest)
    ensures (DictAt(event, "requestContext").Some? && DictAt(event, "requestContext").value.Dict? &&
             DictAt(DictAt(event, "requestContext").value, "http").None?) ==> r == Rejected(NotValidRequest)
    ensures (DictAt(event, "requestContext").Some? &&
             DictAt(DictAt(event, "requestContext").value, "http").Some? &&
             DictAt(DictAt(event, "requestContext").value, "http").value.Dict? &&
             HttpMethod(event).None?) ==> r == Rejected(NotValidRequest)
    ensures HttpMethod(event).Some? && HttpMethod(event).value != Str("POST") ==> r == Rejected(OnlyPost)
    ensures HttpMethod(event) == Some(Str("POST")) && DictAt(event, "body").None? ==> r == Raised(KeyError)
    ensures HttpMethod(event) == Some(Str("POST")) && DictAt(event, "body").Some? &&
            DictAt(event, "body").value.Dict? && !HasKey(DictAt(event, "body").value.entries, "method")
            ==> r == Rejected(NotValidRpc)
    ensures HttpMethod(event) == Some(Str("POST")) && DictAt(event, "body").Some? &&
            DictAt(event, "body").value.Dict? && HasKey(DictAt(event, "body").value.entries, "method")
            ==> r == Accepted(DictAt(event, "body").value)
  {
    match Member(event, "requestContext")
    case Raise(e) => Raised(e)
    case Ok(None) => Rejected(NotValidRequest)
    case Ok(Some(context)) =>
      match Member(context, "http")
      case Raise(e) => Raised(e)
      case Ok(None) => Rejected(NotValidRequest)
      case Ok(Some(http)) =>
        match Member(http, "method")
        case Raise(e) => Raised(e)
        case Ok(None) => Rejected(NotValidRequest)
        case Ok(Some(m)) =>
          if m != Str("POST") then Rejected(OnlyPost)
          else
            match Index(event, "body")
            case Raise(e) => Raised(e)
            case Ok(rpc) =>
              match Contains(rpc, "method")
              case Raise(e) => Raised(e)
              case Ok(present) => if present then Accepted(rpc) else Rejected(NotValidRpc)
  }

  /** Where `lambda_handler` sends an event: to an outcome straight away, or to an operation. */
  datatype Route = Refuse(outcome: Outcome) | Call(op: Rpc.Method, rpc: Fields)

  /**
   * The dispatch on an accepted rpc: `rpc['method']`, matched by its `str()`
   * against the eight method names. Only a string naming one of them selects
   * an operation; any other string is an unknown method.
   */
  function DispatchRpc(rpc: Value): (r: Route)
    ensures !rpc.Dict? ==> r == Refuse(Throw(TypeError))
    ensures r.Call? ==>
      && rpc == Dict(r.rpc)
      && HasKey(r.rpc, "method")
      && Lookup(r.rpc, "method") == Str(Rpc.Name(r.op))
    ensures rpc.Dict? && HasKey(rpc.entries, "method") && Lookup(rpc.entries, "method").Str? ==>
      var name := Lookup(rpc.entries, "method").s;
      r == match Rpc.Parse(name)
           case Some(op) => Call(op, rpc.entries)
           case None => Refuse(Respond(ErrorResponse("unknown method " + name)))
    ensures rpc.Dict? && HasKey(rpc.entries, "method") && !Lookup(rpc.entries, "method").Str? ==>
      r == Refuse(Throw(TypeError))
  {
    match Index(rpc, "method")
    case Raise(e) => Refuse(Throw(e))
    case Ok(m) =>
      match Rpc.Parse(PyStr(m))
      case Some(op) => Call(op, rpc.entries)
      case None =>
        // `"unknown method " + rpc_method` raises TypeError unless the method is a string
        if m.Str? then Refuse(Respond(ErrorResponse("unknown method " + m.s))) else Refuse(Throw(TypeError))
  }

  /** `lambda_handler` up to the operation: validation, then the dispatch on the rpc. */
  function Dispatch(event: Value): (r: Route)
    ensures ValidateRpc(event).Rejected? ==> r == Refuse(Respond(ErrorResponse(ValidateRpc(event).message)))
    ensures ValidateRpc(event).Raised? ==> r == Refuse(Throw(ValidateRpc(event).exc))
    ensures ValidateRpc(event).Accepted? ==> r == DispatchRpc(ValidateRpc(event).rpc)
  {
    match ValidateRpc(event)
    case Raised(e) => Refuse(Throw(e))
    case Rejected(message) => Refuse(Respond(ErrorResponse(message)))
    case Accepted(rpc) => DispatchRpc(rpc)
  }

  /** What one invocation returns, and the table after it. */
  datatype Transition = Transition(outcome: Outcome, items: map<string, Channel>)

  function Unchanged(items: map<string, Channel>, r: Response): Transition {
    Transition(Respond(r), items)
  }

  /**
   * `handle_create_data_channel` with the generated id `newId`: it never
   * raises, succeeds exactly for a fresh non-empty id and a working store,
   * and then adds that one record, expiring TTL seconds from now, and
   * answers with its id; otherwise nothing changes.
   */
  function CreateDataChannel(items: map<string, Channel>, newId: string, now: int, fault: bool): (r: Transition)
    ensures r.outcome.Respond?
    ensures Evolves(items, r.items)
    ensures r.outcome.response.statusCode == 200 <==> !fault && newId != "" && newId !in items
    ensures r.outcome.response.statusCode == 200 ==>
      && r.outcome.response.body == Encoded(Dict([("channel_id", Str(newId))]))
      && r.items.Keys == items.Keys + {newId}
      && r.items[newId] == Channel(Some(now + TTL), None, None, None)
    ensures r.outcome.response.statusCode != 200 ==> r.items == items
  {
    var key := Str(newId);
    if fault || !ValidKey(key) || newId in items then
      Unchanged(items, ErrorResponse("try again!"))
    else
      Transition(Respond(OkResponse(Dict([("channel_id", key)]))),
                 items[newId := Channel(Some(now + TTL), None, None, None)])
  }

  /**
   * `handle_create_offer`: it never raises and keeps the table's growth
   * invariant; any change to the table is a success, and a success stores
   * the text of the rpc's offer on its channel and changes no other record.
   */
  function CreateOffer(items: map<string, Channel>, rpc: Fields, fault: bool): (r: Transition)
    ensures r.outcome.Respond?
    ensures Evolves(items, r.items)
    ensures r.items != items ==> r.outcome == Respond(OkEmpty())
    ensures r.outcome == Respond(OkEmpty()) ==>
      && HasKey(rpc, "channel_id") && HasKey(rpc, "offer") && Lookup(rpc, "channel_id").Str?
      && var id := Lookup(rpc, "channel_id").s;
      && id in r.items && r.items[id].offer == Some(PyStr(Lookup(rpc, "offer")))
      && r.items.Keys == items.Keys + {id}
      && (forall other :: other in items && other != id ==> r.items[other] == items[other])
  {
    if !HasKey(rpc, "channel_id") then Unchanged(items, ErrorResponse("channel_id is required"))
    else if !HasKey(rpc, "offer") then Unchanged(items, ErrorResponse("offer is required"))
    else
      var key := Lookup(rpc, "channel_id");
      if fault || !ValidKey(key) then Unchanged(items, ErrorResponse("fail to create offer"))
      else
        Transition(Respond(OkEmpty()),
                   items[key.s := Current(items, key.s).(offer := Some(PyStr(Lookup(rpc, "offer"))))])
  }

  /**
   * `handle_create_candidate`: it never raises and keeps the table's growth
   * invariant; any change to the table is a success, and a success puts the
   * rpc's candidate at the end of its channel's list and changes no other
   * record.
   */
  function CreateCandidate(items: map<string, Channel>, rpc: Fields, fault: bool): (r: Transition)
    ensures r.outcome.Respond?
    ensures Evolves(items, r.items)
    ensures r.items != items ==> r.outcome == Respond(OkEmpty())
    ensures r.outcome == Respond(OkEmpty()) ==>
      && HasKey(rpc, "channel_id") && HasKey(rpc, "candidate") && Lookup(rpc, "channel_id").Str?
      && var id := Lookup(rpc, "channel_id").s;
      && id in r.items
      && r.items[id].candidate == Some(Current(items, id).candidate.GetOr([]) + [Lookup(rpc, "candidate")])
      && r.items.Keys == items.Keys + {id}
      && (forall other :: other in items && other != id ==> r.items[other] == items[other])
  {
    if !HasKey(rpc, "channel_id") then Unchanged(items, ErrorResponse("channel_id is required"))
    else if !HasKey(rpc, "candidate") then Unchanged(items, ErrorResponse("candidate is required"))
    else
      var key := Lookup(rpc, "channel_id");
      if fault || !ValidKey(key) then Unchanged(items, ErrorResponse("fail to create candidate"))
      else
        var record := Current(items, key.s);
        Transition(Respond(OkEmpty()),
                   items[key.s := record.(candidate := Some(record.candidate.GetOr([]) + [Lookup(rpc, "candidate")]))])
  }

  /**
   * `handle_create_answer`: it never raises and keeps the table's growth
   * invariant; any change to the table is a success, and a success stores
   * the text of the rpc's answer on a channel that had none and changes no
   * other record.
   */
  function CreateAnswer(items: map<string, Channel>, rpc: Fields, fault: bool): (r: Transition)
    ensures r.outcome.Respond?
    ensures Evolves(items, r.items)
    ensures r.items != items ==> r.outcome == Respond(OkEmpty())
    ensures r.outcome == Respond(OkEmpty()) ==>
      && HasKey(rpc, "channel_id") && HasKey(rpc, "answer") && Lookup(rpc, "channel_id").Str?
      && var id := Lookup(rpc, "channel_id").s;
      && Current(items, id).answer.None?
      && id in r.items && r.items[id].answer == Some(PyStr(Lookup(rpc, "answer")))
      && r.items.Keys == items.Keys + {id}
      && (forall other :: other in items && other != id ==> r.items[other] == items[other])
  {
    if !HasKey(rpc, "channel_id") then Unchanged(items, ErrorResponse("channel_id is required"))
    else if !HasKey(rpc, "answer") then Unchanged(items, ErrorResponse("answer is required"))
    else
      var key := Lookup(rpc, "channel_id");
      if fault || !ValidKey(key) then Unchanged(items, ErrorResponse("fail to create answer"))
      else if Current(items, key.s).answer.Some? then Unchanged(items, ErrorResponse("answer already exist"))
      else
        Transition(Respond(OkEmpty()),
                   items[key.s := Current(items, key.s).(answer := Some(PyStr(Lookup(rpc, "answer"))))])
  }

  /**
   * The record a get handler reads; `fault` stands for a failing `get_item`,
   * whose exception, like that of a rejected key, escapes the handler.
   */
  function Read(items: map<string, Channel>, key: Value, fault: bool): (r: Py<Option<Channel>>)
    ensures r.Ok? <==> !fault && ValidKey(key)
    ensures r.Ok? ==> (r.value.Some? <==> key.s in items)
    ensures r.Ok? && r.value.Some? ==> r.value.value == items[key.s]
  {
    if fault then Raise(ClientError)
    else match Find(items, key)
      case KeyRejected => Raise(ClientError)
      case NotFound => Ok(None)
      case Found(c) => Ok(Some(c))
  }

  /** `handle_get_offer`. */
  function HandleGetOffer(items: map<string, Channel>, rpc: Fields, fault: bool): Outcome {
    if !HasKey(rpc, "channel_id") then Respond(ErrorResponse("channel_id is required"))
    else match Read(items, Lookup(rpc, "channel_id"), fault)
      case Raise(e) => Throw(e)
      case Ok(None) => Respond(ErrorResponse("channel_id not found"))
      case Ok(Some(c)) =>
        if c.offer.None? then Respond(ErrorResponse("offer not found"))
        else Respond(OkResponse(Dict([("offer", Str(c.offer.value))])))
  }

  /** `handle_get_candidates`: a record without candidates has the empty list. */
  function HandleGetCandidates(items: map<string, Channel>, rpc: Fields, fault: bool): Outcome {
    if !HasKey(rpc, "channel_id") then Respond(ErrorResponse("channel_id is required"))
    else match Read(items, Lookup(rpc, "channel_id"), fault)
      case Raise(e) => Throw(e)
      case Ok(None) => Respond(ErrorResponse("channel_id not found"))
      case Ok(Some(c)) =>
        if c.candidate.None? then Respond(OkResponse(Dict([("items", List([]))])))
        else Respond(OkResponse(Dict([("items", List(c.candidate.value))])))
  }

  /** `handle_get_answer`. */
  function HandleGetAnswer(items: map<string, Channel>, rpc: Fields, fault: bool): Outcome {
    if !HasKey(rpc, "channel_id") then Respond(ErrorResponse("channel_id is required"))
    else match Read(items, Lookup(rpc, "channel_id"), fault)
      case Raise(e) => Throw(e)
      case Ok(None) => Respond(ErrorResponse("channel_id not found"))
      case Ok(Some(c)) =>
        if c.answer.None? then Respond(ErrorResponse("answer not found"))
        else Respond(OkResponse(Dict([("answer", Str(c.answer.value))])))
  }

  /** `handle_echo`: the rpc object itself, sent back as a JSON document. */
  function HandleEcho(rpc: Fields): (r: Response)
    ensures r == Response(200, ApplicationJson, Encoded(Dict(rpc)))
  {
    OkResponse(Dict(rpc))
  }

  /**
   * One invocation of `lambda_handler`. Every invocation keeps every record
   * and changes it only as Keeps allows, and only the four create operations
   * can change the table at all.
   */
  function Step(items: map<string, Channel>, event: Value, newId: string, now: int, fault: bool): (r: Transition)
    ensures Evolves(items, r.items)
    ensures r.items != items ==> Dispatch(event).Call? && Rpc.Writes(Dispatch(event).op)
  {
    match Dispatch(event)
    case Refuse(outcome) => Transition(outcome, items)
    case Call(op, rpc) =>
      match op
      case CreateDataChannel => CreateDataChannel(items, newId, now, fault)
      case CreateOffer => CreateOffer(items, rpc, fault)
      case GetOffer => Transition(HandleGetOffer(items, rpc, fault), items)
      case CreateCandidate => CreateCandidate(items, rpc, fault)
      case CreateAnswer => CreateAnswer(items, rpc, fault)
      case GetCandidates => Transition(HandleGetCandidates(items, rpc, fault), items)
      case GetAnswer => Transition(HandleGetAnswer(items, rpc, fault), items)
      case Echo => Transition(Respond(HandleEcho(rpc)), items)
  }

  /** `handle_create_data_channel` on the table. */
  method HandleCreateDataChannel(table: Table, newId: string, now: int, fault: bool) returns (r: Response)
    modifies table
    ensures Transition(Respond(r), table.items) == CreateDataChannel(old(table.items), newId, now, fault)
  {
    var written := table.Insert(Str(newId), now + TTL, fault);
    if written != Written {
      return ErrorResponse("try again!");
    }
    r := OkResponse(Dict([("channel_id", Str(newId))]));
  }

  /** `handle_create_offer` on the table. */
  method HandleCreateOffer(table: Table, rpc: Fields, fault: bool) returns (r: Response)
    modifies table
    ensures Transition(Respond(r), table.items) == CreateOffer(old(table.items), rpc, fault)
  {
    if !HasKey(rpc, "channel_id") {
      return ErrorResponse("channel_id is required");
    }
    if !HasKey(rpc, "offer") {
      return ErrorResponse("offer is required");
    }
    var written := table.SetOffer(Lookup(rpc, "channel_id"), PyStr(Lookup(rpc, "offer")), fault);
    if written != Written {
      return ErrorResponse("fail to create offer");
    }
    r := OkEmpty();
  }

  /** `handle_create_candidate` on the table. */
  method HandleCreateCandidate(table: Table, rpc: Fields, fault: bool) returns (r: Response)
    modifies table
    ensures Transition(Respond(r), table.items) == CreateCandidate(old(table.items), rpc, fault)
  {
    if !HasKey(rpc, "channel_id") {
      return ErrorResponse("channel_id is required");
    }
    if !HasKey(rpc, "candidate") {
      return ErrorResponse("candidate is required");
    }
    var written := table.AppendCandidate(Lookup(rpc, "channel_id"), Lookup(rpc, "candidate"), fault);
    if written != Written {
      return ErrorResponse("fail to create candidate");
    }
    r := OkEmpty();
  }

  /** `handle_create_answer` on the table. */
  method HandleCreateAnswer(table: Table, rpc: Fields, fault: bool) returns (r: Response)
    modifies table
    ensures Transition(Respond(r), table.items) == CreateAnswer(old(table.items), rpc, fault)
  {
    if !HasKey(rpc, "channel_id") {
      return ErrorResponse("channel_id is required");
    }
    if !HasKey(rpc, "answer") {
      return ErrorResponse("answer is required");
    }
    var written := table.SetAnswerIfAbsent(Lookup(rpc, "channel_id"), PyStr(Lookup(rpc, "answer")), fault);
    if written == ConditionFailed {
      return ErrorResponse("answer already exist");
    }
    if written != Written {
      return ErrorResponse("fail to create answer");
    }
    r := OkEmpty();
  }

  /** `lambda_handler` on the table. */
  method LambdaHandler(table: Table, event: Value, newId: string, now: int, fault: bool) returns (out: Outcome)
    modifies table
    ensures Transition(out, table.items) == Step(old(table.items), event, newId, now, fault)
  {
    match Dispatch(event)
    case Refuse(outcome) =>
      out := outcome;
    case Call(op, rpc) =>
      match op
      case CreateDataChannel =>
        var r := HandleCreateDataChannel(table, newId, now, fault);
        out := Respond(r);
      case CreateOffer =>
        var r := HandleCreateOffer(table, rpc, fault);
        out := Respond(r);
      case GetOffer =>
        out := HandleGetOffer(table.items, rpc, fault);
      case CreateCandidate =>
        var r := HandleCreateCandidate(table, rpc, fault);
        out := Respond(r);
      case CreateAnswer =>
        var r := HandleCreateAnswer(table, rpc, fault);
        out := Respond(r);
      case GetCandidates =>
        out := HandleGetCandidates(table.items, rpc, fault);
      case GetAnswer =>
        out := HandleGetAnswer(table.items, rpc, fault);
      case Echo =>
        out := Respond(HandleEcho(rpc));
  }
}
