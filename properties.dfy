/**
 * What the channel protocol guarantees, stated over the handler's
 * specification: validation and unknown methods leave the table alone, only
 * the four create operations write, an answer is written at most once,
 * candidates only accumulate, offers are overwritten, and lookups tell a
 * missing channel from a missing field.
 */
module Properties {
  import opened Wrappers
  import opened Values
  import opened PyText
  import opened ChannelStore
  import opened Responses
  import opened Handler
  import Rpc

  /** One invocation's inputs: the event and what the handler takes from its environment. */
  datatype Request = Request(event: Value, newId: string, now: int, fault: bool)

  /** The table after a sequence of invocations, one after the other. */
  function Run(items: map<string, Channel>, requests: seq<Request>): map<string, Channel>
    decreases |requests|
  {
    if requests == [] then items
    else
      var q := requests[0];
      Run(Step(items, q.event, q.newId, q.now, q.fault).items, requests[1..])
  }

  /** The rpc names the channel `key`: it holds `channel_id`, and that member is `key`. */
  predicate Names(rpc: Fields, key: Value) {
    HasKey(rpc, "channel_id") && Lookup(rpc, "channel_id") == key
  }

  /** The rpc holds `field`, and that member is `v`. */
  predicate Carries(rpc: Fields, field: string, v: Value) {
    HasKey(rpc, field) && Lookup(rpc, field) == v
  }

  /** A request that fails validation, or names no operation, reaches no store call. */
  lemma RefusedRequestLeavesTable(items: map<string, Channel>, event: Value, newId: string, now: int, fault: bool)
    requires Dispatch(event).Refuse?
    ensures Step(items, event, newId, now, fault) == Transition(Dispatch(event).outcome, items)
    ensures !ValidateRpc(event).Accepted? ==>
      Step(items, event, newId, now, fault).outcome ==
      (if ValidateRpc(event).Rejected? then Respond(ErrorResponse(ValidateRpc(event).message))
       else Throw(ValidateRpc(event).exc))
  {
  }

  /** Any sequence of invocations keeps every record and changes it only as Keeps allows. */
  lemma {:induction false} RunEvolves(items: map<string, Channel>, requests: seq<Request>)
    ensures Evolves(items, Run(items, requests))
    decreases |requests|
  {
    if requests == [] {
      EvolvesReflexive(items);
    } else {
      var q := requests[0];
      var next := Step(items, q.event, q.newId, q.now, q.fault).items;
      RunEvolves(next, requests[1..]);
      EvolvesTransitive(items, next, Run(next, requests[1..]));
    }
  }

  /** Once a channel has an answer, no sequence of invocations changes it. */
  lemma AnswerNeverChanges(items: map<string, Channel>, requests: seq<Request>, id: string)
    requires id in items && items[id].answer.Some?
    ensures id in Run(items, requests) && Run(items, requests)[id].answer == items[id].answer
  {
    RunEvolves(items, requests);
  }

  /** The candidates of a channel, once there, stay in place at the front of its list. */
  lemma CandidatesOnlyGrow(items: map<string, Channel>, requests: seq<Request>, id: string)
    requires id in items
    ensures id in Run(items, requests)
    ensures items[id].candidate.GetOr([]) <= Run(items, requests)[id].candidate.GetOr([])
  {
    RunEvolves(items, requests);
  }

  /** A channel's expiry time is the one it was created with, whatever follows. */
  lemma ExpiryNeverChanges(items: map<string, Channel>, requests: seq<Request>, id: string)
    requires id in items
    ensures id in Run(items, requests) && Run(items, requests)[id].expireTime == items[id].expireTime
  {
    RunEvolves(items, requests);
  }

  /**
   * A fresh id creates a record holding only its expiry time, 300 seconds on;
   * on it get_offer and get_answer report the missing field and
   * get_candidates the empty list, for any rpc naming the new channel.
   */
  lemma CreatedChannelIsEmpty(items: map<string, Channel>, newId: string, now: int, query: Fields)
    requires newId != "" && newId !in items
    requires Names(query, Str(newId))
    ensures var t := CreateDataChannel(items, newId, now, false);
      && t.outcome == Respond(OkResponse(Dict([("channel_id", Str(newId))])))
      && t.items == items[newId := Channel(Some(now + 300), None, None, None)]
      && HandleGetOffer(t.items, query, false) == Respond(ErrorResponse("offer not found"))
      && HandleGetAnswer(t.items, query, false) == Respond(ErrorResponse("answer not found"))
      && HandleGetCandidates(t.items, query, false) == Respond(OkResponse(Dict([("items", List([]))])))
  {
  }

  /** An id that is already taken, or a failing store call, changes nothing and asks to try again. */
  lemma CreateChannelCollision(items: map<string, Channel>, newId: string, now: int, fault: bool)
    requires newId in items || fault
    ensures CreateDataChannel(items, newId, now, fault) == Transition(Respond(ErrorResponse("try again!")), items)
  {
  }

  /**
   * Every write handler checks `channel_id` first and then its own field, and
   * a missing one is reported by name with the table unchanged.
   */
  lemma RequiredFields(items: map<string, Channel>, rpc: Fields, fault: bool)
    ensures !HasKey(rpc, "channel_id") ==>
      && CreateOffer(items, rpc, fault) == Transition(Respond(ErrorResponse("channel_id is required")), items)
      && CreateCandidate(items, rpc, fault) == Transition(Respond(ErrorResponse("channel_id is required")), items)
      && CreateAnswer(items, rpc, fault) == Transition(Respond(ErrorResponse("channel_id is required")), items)
      && HandleGetOffer(items, rpc, fault) == Respond(ErrorResponse("channel_id is required"))
      && HandleGetCandidates(items, rpc, fault) == Respond(ErrorResponse("channel_id is required"))
      && HandleGetAnswer(items, rpc, fault) == Respond(ErrorResponse("channel_id is required"))
    ensures HasKey(rpc, "channel_id") && !HasKey(rpc, "offer") ==>
      CreateOffer(items, rpc, fault) == Transition(Respond(ErrorResponse("offer is required")), items)
    ensures HasKey(rpc, "channel_id") && !HasKey(rpc, "candidate") ==>
      CreateCandidate(items, rpc, fault) == Transition(Respond(ErrorResponse("candidate is required")), items)
    ensures HasKey(rpc, "channel_id") && !HasKey(rpc, "answer") ==>
      CreateAnswer(items, rpc, fault) == Transition(Respond(ErrorResponse("answer is required")), items)
  {
  }

  /**
   * A failing store call, or a `channel_id` the table does not accept as a
   * key, makes each write handler answer with its generic failure message and
   * leaves the table unchanged, before create_answer looks at the answer.
   */
  lemma WriteFailures(items: map<string, Channel>, rpc: Fields, key: Value, fault: bool)
    requires Names(rpc, key) && (fault || !ValidKey(key))
    ensures HasKey(rpc, "offer") ==>
      CreateOffer(items, rpc, fault) == Transition(Respond(ErrorResponse("fail to create offer")), items)
    ensures HasKey(rpc, "candidate") ==>
      CreateCandidate(items, rpc, fault) == Transition(Respond(ErrorResponse("fail to create candidate")), items)
    ensures HasKey(rpc, "answer") ==>
      CreateAnswer(items, rpc, fault) == Transition(Respond(ErrorResponse("fail to create answer")), items)
  {
  }

  /**
   * get_offer on a channel: a failing store or a rejected key raises the
   * store's ClientError; otherwise a missing record is "channel_id not
   * found", a record without an offer "offer not found", and else the stored
   * offer is returned.
   */
  lemma GetOfferReads(items: map<string, Channel>, rpc: Fields, key: Value, fault: bool)
    requires Names(rpc, key)
    ensures fault || !ValidKey(key) ==> HandleGetOffer(items, rpc, fault) == Throw(ClientError)
    ensures !fault && ValidKey(key) && key.s !in items ==>
      HandleGetOffer(items, rpc, fault) == Respond(ErrorResponse("channel_id not found"))
    ensures !fault && ValidKey(key) && key.s in items ==>
      HandleGetOffer(items, rpc, fault) ==
      Respond(match items[key.s].offer
              case None => ErrorResponse("offer not found")
              case Some(o) => OkResponse(Dict([("offer", Str(o))])))
  {
  }

  /**
   * get_candidates on a channel: a failing store or a rejected key raises the
   * store's ClientError; otherwise a missing record is "channel_id not
   * found", and else the stored candidates are listed, the empty list when
   * the record has none.
   */
  lemma GetCandidatesReads(items: map<string, Channel>, rpc: Fields, key: Value, fault: bool)
    requires Names(rpc, key)
    ensures fault || !ValidKey(key) ==> HandleGetCandidates(items, rpc, fault) == Throw(ClientError)
    ensures !fault && ValidKey(key) && key.s !in items ==>
      HandleGetCandidates(items, rpc, fault) == Respond(ErrorResponse("channel_id not found"))
    ensures !fault && ValidKey(key) && key.s in items ==>
      HandleGetCandidates(items, rpc, fault) ==
      Respond(OkResponse(Dict([("items", List(items[key.s].candidate.GetOr([])))])))
  {
  }

  /**
   * get_answer on a channel: a failing store or a rejected key raises the
   * store's ClientError; otherwise a missing record is "channel_id not
   * found", a record without an answer "answer not found", and else the
   * stored answer is returned.
   */
  lemma GetAnswerReads(items: map<string, Channel>, rpc: Fields, key: Value, fault: bool)
    requires Names(rpc, key)
    ensures fault || !ValidKey(key) ==> HandleGetAnswer(items, rpc, fault) == Throw(ClientError)
    ensures !fault && ValidKey(key) && key.s !in items ==>
      HandleGetAnswer(items, rpc, fault) == Respond(ErrorResponse("channel_id not found"))
    ensures !fault && ValidKey(key) && key.s in items ==>
      HandleGetAnswer(items, rpc, fault) ==
      Respond(match items[key.s].answer
              case None => ErrorResponse("answer not found")
              case Some(a) => OkResponse(Dict([("answer", Str(a))])))
  {
  }

  /**
   * create_offer replaces whatever offer the channel had (or creates the
   * record), leaves the other attributes and the other records alone, and
   * get_offer on the channel then returns the new offer's text.
   */
  lemma OfferOverwrites(items: map<string, Channel>, rpc: Fields, key: Value, offer: Value, query: Fields)
    requires ValidKey(key) && Names(rpc, key) && Carries(rpc, "offer", offer) && Names(query, key)
    ensures var t := CreateOffer(items, rpc, false);
      && t.outcome == Respond(OkEmpty())
      && key.s in t.items
      && t.items[key.s] == Current(items, key.s).(offer := Some(PyStr(offer)))
      && (forall id :: id in items && id != key.s ==> id in t.items && t.items[id] == items[id])
      && t.items.Keys == items.Keys + {key.s}
      && HandleGetOffer(t.items, query, false) == Respond(OkResponse(Dict([("offer", Str(PyStr(offer)))])))
  {
  }

  /**
   * create_candidate puts the candidate after the ones already there, leaves
   * everything else alone, and get_candidates on the channel then lists them
   * all in order.
   */
  lemma CandidateAppends(items: map<string, Channel>, rpc: Fields, key: Value, c: Value, query: Fields)
    requires ValidKey(key) && Names(rpc, key) && Carries(rpc, "candidate", c) && Names(query, key)
    ensures var t := CreateCandidate(items, rpc, false);
      var before := Current(items, key.s);
      && t.outcome == Respond(OkEmpty())
      && key.s in t.items
      && t.items[key.s] == before.(candidate := Some(before.candidate.GetOr([]) + [c]))
      && (forall id :: id in items && id != key.s ==> id in t.items && t.items[id] == items[id])
      && HandleGetCandidates(t.items, query, false) ==
         Respond(OkResponse(Dict([("items", List(before.candidate.GetOr([]) + [c]))])))
  {
  }

  /** The table after create_candidate with each of `rpcs`, in order. */
  function AppendAll(items: map<string, Channel>, rpcs: seq<Fields>): map<string, Channel>
    decreases |rpcs|
  {
    if rpcs == [] then items
    else AppendAll(CreateCandidate(items, rpcs[0], false).items, rpcs[1..])
  }

  /** Each of `rpcs` names the channel `key` and carries the candidate at the same position of `cs`. */
  predicate CarryAll(rpcs: seq<Fields>, key: Value, cs: seq<Value>)
    decreases |rpcs|
  {
    && |rpcs| == |cs|
    && (rpcs != [] ==>
        Names(rpcs[0], key) && Carries(rpcs[0], "candidate", cs[0]) && CarryAll(rpcs[1..], key, cs[1..]))
  }

  /**
   * N successful create_candidate calls on one channel, carrying the
   * candidates `cs`, add exactly those N candidates, in call order.
   */
  lemma {:induction false} CandidatesAccumulate(items: map<string, Channel>, key: Value, rpcs: seq<Fields>, cs: seq<Value>)
    requires ValidKey(key) && CarryAll(rpcs, key, cs)
    ensures var after := AppendAll(items, rpcs);
      && Current(after, key.s).candidate.GetOr([]) == Current(items, key.s).candidate.GetOr([]) + cs
      && (cs != [] ==> key.s in after && after[key.s].candidate.Some?)
    decreases |rpcs|
  {
    if rpcs != [] {
      var next := CreateCandidate(items, rpcs[0], false).items;
      CandidateAppends(items, rpcs[0], key, cs[0], rpcs[0]);
      CandidatesAccumulate(next, key, rpcs[1..], cs[1..]);
      assert Current(items, key.s).candidate.GetOr([]) + [cs[0]] + cs[1..] ==
             Current(items, key.s).candidate.GetOr([]) + cs;
    }
  }

  /**
   * create_answer writes only while the channel has no answer: then get_answer
   * on the channel returns the new answer's text; otherwise the result is
   * "answer already exist" and the table is unchanged.
   */
  lemma AnswerWrittenOnce(items: map<string, Channel>, rpc: Fields, key: Value, answer: Value, query: Fields)
    requires ValidKey(key) && Names(rpc, key) && Carries(rpc, "answer", answer) && Names(query, key)
    ensures var t := CreateAnswer(items, rpc, false);
      if Current(items, key.s).answer.Some? then
        t == Transition(Respond(ErrorResponse("answer already exist")), items)
      else
        && t.outcome == Respond(OkEmpty())
        && key.s in t.items
        && t.items[key.s] == Current(items, key.s).(answer := Some(PyStr(answer)))
        && HandleGetAnswer(t.items, query, false) == Respond(OkResponse(Dict([("answer", Str(PyStr(answer)))])))
  {
  }

  /**
   * Two answers for a channel without one, one after the other: the first
   * wins, the second is told the answer already exists, and get_answer
   * returns the first.
   */
  lemma FirstAnswerWins(items: map<string, Channel>, key: Value, rpc1: Fields, first: Value,
                        rpc2: Fields, second: Value, query: Fields)
    requires ValidKey(key) && Current(items, key.s).answer.None?
    requires Names(rpc1, key) && Carries(rpc1, "answer", first)
    requires Names(rpc2, key) && Carries(rpc2, "answer", second)
    requires Names(query, key)
    ensures var t1 := CreateAnswer(items, rpc1, false);
      var t2 := CreateAnswer(t1.items, rpc2, false);
      && t1.outcome == Respond(OkEmpty())
      && t2 == Transition(Respond(ErrorResponse("answer already exist")), t1.items)
      && HandleGetAnswer(t2.items, query, false) == Respond(OkResponse(Dict([("answer", Str(PyStr(first)))])))
  {
    AnswerWrittenOnce(items, rpc1, key, first, query);
    AnswerWrittenOnce(CreateAnswer(items, rpc1, false).items, rpc2, key, second, query);
  }

  /** An event as the function URL delivers it: an HTTP method and a decoded body. */
  function EventOf(httpMethod: string, body: Value): Value {
    Dict([("requestContext", Dict([("http", Dict([("method", Str(httpMethod))]))])), ("body", body)])
  }

  lemma EventOfPaths(httpMethod: string, body: Value)
    ensures HttpMethod(EventOf(httpMethod, body)) == Some(Str(httpMethod))
    ensures DictAt(EventOf(httpMethod, body), "body") == Some(body)
  {
    var http := Dict([("method", Str(httpMethod))]);
    var context := Dict([("http", http)]);
    LookupSole(http.entries, 0);
    LookupSole(context.entries, 0);
    LookupSole(EventOf(httpMethod, body).entries, 0);
    LookupSole(EventOf(httpMethod, body).entries, 1);
  }

  /**
   * A POST whose body is a dict holding one of the eight method names as a
   * string reaches that method's handler, with the body as its rpc.
   */
  lemma PostedRpcDispatches(rpc: Fields, op: Rpc.Method)
    requires Carries(rpc, "method", Str(Rpc.Name(op)))
    ensures Dispatch(EventOf("POST", Dict(rpc))) == Call(op, rpc)
  {
    EventOfPaths("POST", Dict(rpc));
  }

  /** A posted create_answer runs `handle_create_answer` on the body. */
  lemma PostedCreateAnswer(items: map<string, Channel>, rpc: Fields, newId: string, now: int, fault: bool)
    requires Carries(rpc, "method", Str("create_answer"))
    ensures Step(items, EventOf("POST", Dict(rpc)), newId, now, fault) == CreateAnswer(items, rpc, fault)
  {
    PostedRpcDispatches(rpc, Rpc.CreateAnswer);
  }

  /** A posted get_answer runs `handle_get_answer` on the body and leaves the table alone. */
  lemma PostedGetAnswer(items: map<string, Channel>, rpc: Fields, newId: string, now: int, fault: bool)
    requires Carries(rpc, "method", Str("get_answer"))
    ensures Step(items, EventOf("POST", Dict(rpc)), newId, now, fault) ==
            Transition(HandleGetAnswer(items, rpc, fault), items)
  {
    PostedRpcDispatches(rpc, Rpc.GetAnswer);
  }

  /**
   * A posted create_offer and then a posted get_offer on the same channel:
   * the second invocation returns the first one's offer, as text.
   */
  lemma PostedOfferIsRead(items: map<string, Channel>, setRpc: Fields, getRpc: Fields, key: Value, offer: Value,
                          newId: string, now: int)
    requires ValidKey(key)
    requires Carries(setRpc, "method", Str("create_offer")) && Names(setRpc, key) && Carries(setRpc, "offer", offer)
    requires Carries(getRpc, "method", Str("get_offer")) && Names(getRpc, key)
    ensures var t := Step(items, EventOf("POST", Dict(setRpc)), newId, now, false);
      && t.outcome == Respond(OkEmpty())
      && Step(t.items, EventOf("POST", Dict(getRpc)), newId, now, false) ==
         Transition(Respond(OkResponse(Dict([("offer", Str(PyStr(offer)))]))), t.items)
  {
    PostedRpcDispatches(setRpc, Rpc.CreateOffer);
    PostedRpcDispatches(getRpc, Rpc.GetOffer);
    OfferOverwrites(items, setRpc, key, offer, getRpc);
  }

  /**
   * Two posted create_answer calls on a channel without an answer, then a
   * posted get_answer: the first call succeeds, the second is told the answer
   * already exists, and the lookup returns the first answer.
   */
  lemma PostedFirstAnswerWins(items: map<string, Channel>, rpc1: Fields, first: Value, rpc2: Fields, second: Value,
                              getRpc: Fields, key: Value, newId: string, now: int)
    requires ValidKey(key) && Current(items, key.s).answer.None?
    requires Carries(rpc1, "method", Str("create_answer")) && Names(rpc1, key) && Carries(rpc1, "answer", first)
    requires Carries(rpc2, "method", Str("create_answer")) && Names(rpc2, key) && Carries(rpc2, "answer", second)
    requires Carries(getRpc, "method", Str("get_answer")) && Names(getRpc, key)
    ensures var t1 := Step(items, EventOf("POST", Dict(rpc1)), newId, now, false);
      var t2 := Step(t1.items, EventOf("POST", Dict(rpc2)), newId, now, false);
      && t1.outcome == Respond(OkEmpty())
      && t2 == Transition(Respond(ErrorResponse("answer already exist")), t1.items)
      && Step(t2.items, EventOf("POST", Dict(getRpc)), newId, now, false) ==
         Transition(Respond(OkResponse(Dict([("answer", Str(PyStr(first)))]))), t2.items)
  {
    var t1 := CreateAnswer(items, rpc1, false);
    var t2 := CreateAnswer(t1.items, rpc2, false);
    PostedCreateAnswer(items, rpc1, newId, now, false);
    PostedCreateAnswer(t1.items, rpc2, newId, now, false);
    PostedGetAnswer(t2.items, getRpc, newId, now, false);
    FirstAnswerWins(items, key, rpc1, first, rpc2, second, getRpc);
  }

  /** A GET request is refused before dispatch, whatever its body. */
  lemma GetIsRefused(items: map<string, Channel>, body: Value, newId: string, now: int, fault: bool)
    ensures Step(items, EventOf("GET", body), newId, now, fault) ==
            Transition(Respond(ErrorResponse("Only accept POST method")), items)
  {
    EventOfPaths("GET", body);
  }

  /** A body without a `method` key is refused before dispatch. */
  lemma BodyWithoutMethodIsRefused(items: map<string, Channel>, newId: string, now: int, fault: bool)
    ensures Step(items, EventOf("POST", Dict([("x", Int(1))])), newId, now, fault) ==
            Transition(Respond(ErrorResponse(
              "Not a valid rpc. HTTP post body must be a json object with method key")), items)
  {
    EventOfPaths("POST", Dict([("x", Int(1))]));
  }

  /** `{"method": "bogus"}` is answered with "unknown method bogus". */
  lemma UnknownMethod(items: map<string, Channel>, newId: string, now: int, fault: bool)
    ensures Step(items, EventOf("POST", Dict([("method", Str("bogus"))])), newId, now, fault) ==
            Transition(Respond(ErrorResponse("unknown method bogus")), items)
  {
    var body := Dict([("method", Str("bogus"))]);
    EventOfPaths("POST", body);
    LookupSole(body.entries, 0);
    assert Rpc.Parse("bogus") == None;
    assert ValidateRpc(EventOf("POST", body)) == Accepted(body);
    assert DispatchRpc(body) == Refuse(Respond(ErrorResponse("unknown method " + "bogus")));
    assert "unknown method " + "bogus" == "unknown method bogus";
  }

  /** `{"method": "echo", "x": 1}` comes back as the JSON document it is. */
  lemma EchoReturnsRpc(items: map<string, Channel>, newId: string, now: int, fault: bool)
    ensures var body := Dict([("method", Str("echo")), ("x", Int(1))]);
      Step(items, EventOf("POST", body), newId, now, fault) ==
      Transition(Respond(Response(200, "application/json", Encoded(body))), items)
  {
    var body := Dict([("method", Str("echo")), ("x", Int(1))]);
    EventOfPaths("POST", body);
    LookupSole(body.entries, 0);
  }

  /**
   * A list body that holds the string "method" passes validation, and then
   * `rpc['method']` raises TypeError: no response is produced.
   */
  lemma ListBodyEscapes(items: map<string, Channel>, newId: string, now: int, fault: bool)
    ensures Step(items, EventOf("POST", List([Str("method")])), newId, now, fault) ==
            Transition(Throw(TypeError), items)
  {
    EventOfPaths("POST", List([Str("method")]));
  }

  /**
   * A method that is not a string names no operation, and building the
   * "unknown method" message from it raises TypeError.
   */
  lemma NonStringMethodEscapes(items: map<string, Channel>, m: Value, newId: string, now: int, fault: bool)
    requires !m.Str?
    ensures Step(items, EventOf("POST", Dict([("method", m)])), newId, now, fault) ==
            Transition(Throw(TypeError), items)
  {
    var body := Dict([("method", m)]);
    EventOfPaths("POST", body);
    LookupSole(body.entries, 0);
  }
}
