# Signaling relay: channel records and their request handler

This project models the signaling server of `lambda_function.py`: a cloud
function that lets two peers exchange an offer, an answer and any number of
network candidates through a shared "channel" record in a key-value table.

The model has six parts:

- **Values** (`values.dfy`): the decoded JSON values the handler works on. It also defines
  Python's `key in container` and `container[key]` on them, with the
  exceptions those raise.
- **PyText** (`pytext.dfy`): Python's `str()` of such a value. The handler
  applies it to the method name before dispatching, and to offers and
  answers before storing them. Strings are kept as they are; other values
  use `repr`'s rendering.
- **ChannelStore** (`channel_store.dfy`): the `data-channel` table as a
  class `Table` holding a `map<string, Channel>`, with the four write calls
  the handler makes.
  - `Insert`: a put on condition that the key is new.
  - `SetOffer`: an unconditional SET of `offer`.
  - `AppendCandidate`: `list_append` onto `candidate`.
  - `SetAnswerIfAbsent`: a SET of `answer` on condition that it is absent.

  It also has the point read `Find` and the invariant `Evolves`: records
  are never removed, expiry times and answers never change once present,
  offers may be replaced, and candidate lists only grow at the end.
- **Responses** and **Rpc**: `error_response`, `ok_response`, and the eight
  method names as a closed enumeration.
- **Handler** (`handler.dfy`): `validate_rpc`, the dispatch, the seven
  operations and `echo`. They are pure functions over the table, and
  `Step` is one whole invocation. The methods `HandleCreate*` and
  `LambdaHandler` perform the same invocations on a `Table` through its
  write calls. Each is proved to produce exactly the response and the new
  table that its specification function gives.
- **Properties** (`properties.dfy`): what the protocol guarantees. It covers
  single operations and, through `Run`, any sequence of invocations.

What the handler takes from its environment are parameters:

- `newId` is the channel id `uuid.uuid4()` would generate.
- `now` is `int(time.time())`.
- `fault` says that the store call of this invocation fails.

The event's `body` entry holds the body already decoded, the value
`json.loads` returns for it.

Behaviour of the code that a reader might not expect:

- Offers are overwritten by every `create_offer`, while answers are
  guarded by a condition on their absence (`OfferOverwrites`,
  `AnswerWrittenOnce`).
- Validation only asks whether `'method' in rpc`, so a list or string body
  containing `"method"` gets past it. `rpc['method']` then raises TypeError
  (`ListBodyEscapes`). A non-string method also raises TypeError, when the
  "unknown method" message is built (`NonStringMethodEscapes`).
- `create_offer`, `create_candidate` and `create_answer` on an id that has
  no record create one, and that record has no `expire_time`. This is why
  `Channel.expireTime` is optional.
- The table's key must be a non-empty string. A write with any other
  `channel_id` fails with the generic message (`WriteFailures`). A read
  with one raises the store's ClientError, which the handler does not
  catch (`GetOfferReads` and its two siblings).

## Model

| member | source | states |
|---|---|---|
| Values.Lookup | lambda_function.py:60-61 | `d[key]` on a decoded dict is the value of the last entry with that key |
| Values.IsSubstring | lambda_function.py:209 | `'method' in s` on a string body holds exactly when "method" occurs contiguously in it |
| Values.Contains | lambda_function.py:199-209 | `key in x` succeeds only on dicts, lists and strings; on a dict it is key membership, on a list element equality |
| Values.Index | lambda_function.py:201-208 | `x[key]` succeeds exactly on a dict holding the key, raises KeyError on a dict without it, TypeError otherwise |
| PyText.NatToString | lambda_function.py:70 | the decimal rendering is non-empty, all digits, without leading zeros |
| PyText.NatToStringDenotes | lambda_function.py:70 | the decimal rendering of n denotes n |
| PyText.IntToString | lambda_function.py:70 | `str(i)` starts with '-' exactly for negative i and its digits denote abs(i) |
| PyText.QuoteFor | lambda_function.py:70 | repr quotes with '"' exactly when the string holds a single quote and no double quote |
| PyText.ReprString | lambda_function.py:70 | repr of a string is enclosed in the chosen quote |
| PyText.UnescapeEscaped | lambda_function.py:70 | the escaped body of a string literal reads back as the string, up to its closing quote |
| PyText.ReprStringReadsBack | lambda_function.py:70 | repr of a string reads back as that string, so the rendering of a string nested in a list or dict offer loses nothing (a string offer itself is stored as it is, by `PyStr`) |
| PyText.Repr | lambda_function.py:16 | repr of any value is non-empty and never starts with a lower-case letter |
| PyText.PyStr | lambda_function.py:16 | `str(v)` is v itself for a string, and only a string renders as text starting with a lower-case letter |
| ChannelStore.Find | lambda_function.py:84-90 | `get_item` rejects an invalid key, finds exactly the stored keys, and returns their record |
| ChannelStore.EvolvesTransitive | lambda_function.py:42-147 | the growth invariant of the table composes across invocations |
| ChannelStore.Table.constructor | lambda_function.py:8 | the in-memory stand-in for the table starts empty; no contract depends on that, and `LambdaHandler` and every lemma hold for any table |
| ChannelStore.Table.Insert | lambda_function.py:42-48 | the put succeeds exactly for a valid new key, adding a record that holds only the expiry time; a taken key is a condition failure; otherwise nothing changes |
| ChannelStore.Table.SetOffer | lambda_function.py:64-72 | SET offer succeeds for every valid key, replacing the offer of the record or of a new blank one, touching nothing else |
| ChannelStore.Table.AppendCandidate | lambda_function.py:108-117 | the candidate list, empty when absent, gets exactly the new candidate at its end |
| ChannelStore.Table.SetAnswerIfAbsent | lambda_function.py:134-147 | SET answer succeeds exactly when the record has no answer; a present answer is a condition failure and nothing changes |
| Responses.OkResponse | lambda_function.py:222-234 | success is 200; a dict body is sent JSON-encoded with application/json, anything else as it is with text/plain |
| Responses.ErrorResponseShape | lambda_function.py:213-220 | `ErrorResponse` (`error_response`): an error is 400, text/plain, carrying only its message, and is never a success response |
| Rpc.Parse | lambda_function.py:16-33 | a name selects exactly the method it names, and every selectable name starts with a lower-case letter |
| Handler.ValidateRpc | lambda_function.py:198-211 | the three "Not a valid request" cases, "Only accept POST method", a KeyError for a missing body, "Not a valid rpc" for a body without method, and acceptance of a POST body with a method |
| Handler.DispatchRpc | lambda_function.py:15-34 | only a string naming one of the eight methods dispatches; another string gives "unknown method <name>"; a non-string method or a non-dict rpc raises TypeError |
| Handler.Dispatch | lambda_function.py:10-13 | a rejected or raising validation becomes the response or exception before any dispatch |
| Handler.Read | lambda_function.py:84-90 | a lookup succeeds exactly for a valid key and a working store, and finds exactly the stored records |
| Handler.HandleEcho | lambda_function.py:195-196 | echo answers 200 with the rpc itself as its JSON document |
| Handler.CreateDataChannel | lambda_function.py:36-52 | `handle_create_data_channel` never raises; it succeeds exactly for a fresh non-empty id and a working store, then adds only that record, expiring now + 300, and answers with its id; otherwise the table is unchanged |
| Handler.CreateOffer | lambda_function.py:54-76 | `handle_create_offer` never raises and keeps the growth invariant; a changed table means success, and success stores `str(offer)` on the named channel, creating the record if needed and changing no other record |
| Handler.CreateCandidate | lambda_function.py:98-121 | `handle_create_candidate` never raises and keeps the growth invariant; a changed table means success, and success puts the candidate at the end of the channel's list (empty when absent) and changes no other record |
| Handler.CreateAnswer | lambda_function.py:123-153 | `handle_create_answer` never raises and keeps the growth invariant; a changed table means success, and success stores `str(answer)` only on a channel that had no answer and changes no other record |
| Handler.Step | lambda_function.py:10-34 | one `lambda_handler` invocation keeps every record and changes it only as the growth invariant allows, and only a dispatched create operation can change the table at all |
| Handler.HandleCreateDataChannel | lambda_function.py:36-52 | the response and the new table are exactly those of the specification CreateDataChannel on the old table, whose meaning `Handler.CreateDataChannel`, CreatedChannelIsEmpty and CreateChannelCollision state |
| Handler.HandleCreateOffer | lambda_function.py:54-76 | the response and the new table are exactly those of the specification CreateOffer on the old table, whose meaning `Handler.CreateOffer`, OfferOverwrites, RequiredFields and WriteFailures state |
| Handler.HandleCreateCandidate | lambda_function.py:98-121 | the response and the new table are exactly those of the specification CreateCandidate on the old table, whose meaning `Handler.CreateCandidate`, CandidateAppends, CandidatesAccumulate, RequiredFields and WriteFailures state |
| Handler.HandleCreateAnswer | lambda_function.py:123-153 | the response and the new table are exactly those of the specification CreateAnswer on the old table, whose meaning `Handler.CreateAnswer`, AnswerWrittenOnce, FirstAnswerWins, RequiredFields and WriteFailures state |
| Handler.LambdaHandler | lambda_function.py:10-34 | the outcome and the new table are exactly those of Step on the old table, whose contract `Handler.Step` states and which RunEvolves and the other Properties lemmas characterise |
| Properties.RefusedRequestLeavesTable | lambda_function.py:11-13 | a request refused before dispatch leaves the table unchanged and its outcome is decided by validation alone |
| Properties.RunEvolves | lambda_function.py:10-34 | any sequence of invocations keeps the invariant |
| Properties.AnswerNeverChanges | lambda_function.py:132-153 | once a channel has an answer, no sequence of invocations changes it |
| Properties.CandidatesOnlyGrow | lambda_function.py:107-121 | a channel's candidates stay in place at the front of its list through any sequence of invocations |
| Properties.ExpiryNeverChanges | lambda_function.py:36-52 | a record's expiry time never changes after it exists |
| Properties.CreatedChannelIsEmpty | lambda_function.py:36-52 | a fresh id gets a record holding only now + 300; for any rpc naming it, get_offer and get_answer then report the field missing and get_candidates the empty list |
| Properties.CreateChannelCollision | lambda_function.py:41-50 | a taken id or a failing store changes nothing and answers "try again!" |
| Properties.RequiredFields | lambda_function.py:55-58 | each handler checks channel_id, then its own field, and reports the missing one by name with the table unchanged |
| Properties.WriteFailures | lambda_function.py:63-153 | with a failing store or a `channel_id` the table rejects as a key, each write handler answers "fail to create offer/candidate/answer" and the table is unchanged |
| Properties.GetOfferReads | lambda_function.py:78-96 | `handle_get_offer` (`HandleGetOffer`) for any rpc naming a channel: ClientError for a failing store or a rejected key, "channel_id not found" for a missing record, "offer not found" for a record without offer, else the stored offer |
| Properties.GetCandidatesReads | lambda_function.py:155-173 | `handle_get_candidates` (`HandleGetCandidates`) for any rpc naming a channel: ClientError for a failing store or a rejected key, "channel_id not found" for a missing record, else the stored candidates, the empty list when there are none |
| Properties.GetAnswerReads | lambda_function.py:175-193 | `handle_get_answer` (`HandleGetAnswer`) for any rpc naming a channel: ClientError for a failing store or a rejected key, "channel_id not found" for a missing record, "answer not found" for a record without answer, else the stored answer |
| Properties.OfferOverwrites | lambda_function.py:63-76 | for any rpc naming a valid channel and carrying an offer, create_offer replaces any previous offer, creates a missing record, leaves all else unchanged, and get_offer on the channel returns the new offer's text |
| Properties.CandidateAppends | lambda_function.py:107-121 | for any rpc naming a valid channel and carrying a candidate, create_candidate appends after the existing candidates and get_candidates lists them in order |
| Properties.CandidatesAccumulate | lambda_function.py:107-121 | N create_candidate calls with any rpcs naming one valid channel add exactly their N candidates, in call order |
| Properties.AnswerWrittenOnce | lambda_function.py:132-153 | for any rpc naming a valid channel and carrying an answer, create_answer writes only while no answer is present, and get_answer then returns it; otherwise "answer already exist" and the table is unchanged |
| Properties.FirstAnswerWins | lambda_function.py:132-153 | of two successive answers, with any rpcs naming the channel, the first wins, the second is told it already exists, and get_answer returns the first |
| Properties.PostedRpcDispatches | lambda_function.py:15-32 | a POST whose body holds one of the eight method names as a string reaches that method's handler with the body as its rpc |
| Properties.PostedCreateAnswer | lambda_function.py:25-26 | a posted body with method "create_answer" runs `handle_create_answer` on that body |
| Properties.PostedGetAnswer | lambda_function.py:29-30 | a posted body with method "get_answer" runs `handle_get_answer` on that body and leaves the table alone |
| Properties.PostedOfferIsRead | lambda_function.py:19-22 | a posted create_offer followed by a posted get_offer on the same channel returns the offer's text |
| Properties.PostedFirstAnswerWins | lambda_function.py:25-30 | two posted create_answer calls and a posted get_answer on a channel without answer: the first succeeds, the second gets "answer already exist", and the lookup returns the first |
| Properties.GetIsRefused | lambda_function.py:205-206 | a GET request is refused with "Only accept POST method" and the table unchanged |
| Properties.BodyWithoutMethodIsRefused | lambda_function.py:209-210 | a body without method is refused with the "Not a valid rpc" message |
| Properties.UnknownMethod | lambda_function.py:33-34 | `{"method": "bogus"}` answers "unknown method bogus" and changes nothing |
| Properties.EchoReturnsRpc | lambda_function.py:31-32 | `{"method": "echo", "x": 1}` comes back as that document with 200 and application/json |
| Properties.ListBodyEscapes | lambda_function.py:208-209 | a list body holding "method" passes validation and raises TypeError at dispatch |
| Properties.NonStringMethodEscapes | lambda_function.py:34 | a non-string method raises TypeError instead of producing a response |

## Left out

- The boto3 resource and the DynamoDB client (lambda_function.py:1-8). The table is an in-memory map, and each store call is one atomic step.
- Concurrency. Racing writers, and the store's atomicity of conditional writes and of `list_append`, are outside a sequential model.
- Store failures are one `fault` flag per invocation. The model does not tell their causes apart.
- DynamoDB validation other than the key being a non-empty string, such as item size limits and attribute value types.
- JSON decoding and encoding. The event's body is taken as already decoded, so a body that is not valid JSON (json.loads raising) is not modelled. The `Encoded` body of a response stands for `json.dumps` of its document.
- Non-integer JSON numbers (floats) are not modelled. The store returning numbers as Decimal is shown as plain integers.
- `uuid.uuid4()` and `time.time()` are parameters. The uniqueness of generated ids is not modelled.
- Expiry. Nothing in the code reclaims expired records and nothing here does either; only the `expire_time` value is kept.
- The Lambda `context` argument, HTTP headers other than Content-Type, and what the runtime does with an exception that escapes the handler (`Throw`).
- PyText.ReprString: only the escapes Python uses below U+0100 are modelled. Non-printable characters above U+00FF, which Python writes as `\u`/`\U` escapes, are rendered as they are.
- PyText.Repr: a decoded dict is kept as its list of entries. A body with a repeated key therefore shows every entry when rendered, where Python's dict keeps one. Lookups take the last entry, as `json.loads` does.
