/**
 * The table of channel records, keyed by channel id, and the store calls the
 * handler makes on it: a conditional insert, an unconditional SET of `offer`,
 * an append to `candidate`, and a SET of `answer` guarded by its absence.
 * Each call is one atomic step. A call may fail as a whole (`fault`: the
 * store was unreachable, throttled, ...), and the key attribute must be a
 * non-empty string; either failure leaves the table unchanged.
 */
module ChannelStore {
  import opened Wrappers
  import opened Values

  /** One channel record; absent attributes are `None`. */
  datatype Channel = Channel(
    expireTime: Option<int>,
    offer: Option<string>,
    answer: Option<string>,
    candidate: Option<seq<Value>>)

  /** The attributes of a key that has no record: an update on it starts from here. */
  const Blank := Channel(None, None, None, None)

  /** What a write call reports. */
  datatype WriteResult = Written | ConditionFailed | StoreError

  /** What a point read reports. */
  datatype ReadResult = Found(channel: Channel) | NotFound | KeyRejected

  /** The table accepts only a non-empty string as the value of its key attribute. */
  predicate ValidKey(key: Value) {
    key.Str? && key.s != ""
  }

  /** The attributes an update on `id` starts from: the stored record, or none at all. */
  function Current(items: map<string, Channel>, id: string): Channel {
    if id in items then items[id] else Blank
  }

  /** The point read `get_item`. */
  function Find(items: map<string, Channel>, key: Value): (r: ReadResult)
    ensures r.KeyRejected? <==> !ValidKey(key)
    ensures r.Found? <==> ValidKey(key) && key.s in items
    ensures r.Found? ==> items[key.s] == r.channel
  {
    if !ValidKey(key) then KeyRejected
    else if key.s in items then Found(items[key.s])
    else NotFound
  }

  /**
   * How a record may change between two moments: its expiry time stays as it
   * is, a present answer is never replaced, a present offer may be replaced
   * but not removed, and the candidate list only grows at its end.
   */
  predicate Keeps(before: Channel, after: Channel) {
    && after.expireTime == before.expireTime
    && (before.answer.Some? ==> after.answer == before.answer)
    && (before.offer.Some? ==> after.offer.Some?)
    && (before.candidate.Some? ==> after.candidate.Some?)
    && before.candidate.GetOr([]) <= after.candidate.GetOr([])
  }

  /** No record disappears, and every record changes only as Keeps allows. */
  predicate Evolves(before: map<string, Channel>, after: map<string, Channel>) {
    forall id :: id in before ==> id in after && Keeps(before[id], after[id])
  }

  lemma EvolvesReflexive(items: map<string, Channel>)
    ensures Evolves(items, items)
  {
  }

  lemma EvolvesTransitive(a: map<string, Channel>, b: map<string, Channel>, c: map<string, Channel>)
    requires Evolves(a, b) && Evolves(b, c)
    ensures Evolves(a, c)
  {
  }

  class Table {
    var items: map<string, Channel>

    constructor ()
      ensures items == map[]
    {
      items := map[];
    }

    /** `put_item` of a fresh record, on condition that no record has the key. */
    method Insert(key: Value, expireTime: int, fault: bool) returns (r: WriteResult)
      modifies this
      ensures r == Written <==> !fault && ValidKey(key) && key.s !in old(items)
      ensures r == ConditionFailed <==> !fault && ValidKey(key) && key.s in old(items)
      ensures r == Written ==> items == old(items)[key.s := Channel(Some(expireTime), None, None, None)]
      ensures r != Written ==> items == old(items)
      ensures Evolves(old(items), items)
    {
      if fault || !ValidKey(key) {
        return StoreError;
      }
      if key.s in items {
        return ConditionFailed;
      }
      items := items[key.s := Channel(Some(expireTime), None, None, None)];
      r := Written;
    }

    /** `update_item` with `SET offer = :offer`; a missing record is created. */
    method SetOffer(key: Value, offer: string, fault: bool) returns (r: WriteResult)
      modifies this
      ensures r == Written <==> !fault && ValidKey(key)
      ensures r != ConditionFailed
      ensures r == Written ==> items == old(items)[key.s := Current(old(items), key.s).(offer := Some(offer))]
      ensures r != Written ==> items == old(items)
      ensures Evolves(old(items), items)
    {
      if fault || !ValidKey(key) {
        return StoreError;
      }
      items := items[key.s := Current(items, key.s).(offer := Some(offer))];
      r := Written;
    }

    /**
     * `update_item` with `SET candidate = list_append(if_not_exists(candidate,
     * []), [c])`: the candidate list, empty when absent, with `c` at its end.
     */
    method AppendCandidate(key: Value, c: Value, fault: bool) returns (r: WriteResult)
      modifies this
      ensures r == Written <==> !fault && ValidKey(key)
      ensures r != ConditionFailed
      ensures r == Written ==> items == old(items)[key.s :=
        Current(old(items), key.s).(candidate := Some(Current(old(items), key.s).candidate.GetOr([]) + [c]))]
      ensures r != Written ==> items == old(items)
      ensures Evolves(old(items), items)
    {
      if fault || !ValidKey(key) {
        return StoreError;
      }
      var record := Current(items, key.s);
      items := items[key.s := record.(candidate := Some(record.candidate.GetOr([]) + [c]))];
      r := Written;
    }

    /**
     * `update_item` with `SET answer = :answer` on condition that the record
     * has no answer; a missing record satisfies the condition and is created.
     */
    method SetAnswerIfAbsent(key: Value, answer: string, fault: bool) returns (r: WriteResult)
      modifies this
      ensures r == Written <==> !fault && ValidKey(key) && Current(old(items), key.s).answer.None?
      ensures r == ConditionFailed <==> !fault && ValidKey(key) && Current(old(items), key.s).answer.Some?
      ensures r == Written ==> items == old(items)[key.s := Current(old(items), key.s).(answer := Some(answer))]
      ensures r != Written ==> items == old(items)
      ensures Evolves(old(items), items)
    {
      if fault || !ValidKey(key) {
        return StoreError;
      }
      var record := Current(items, key.s);
      if record.answer.Some? {
        return ConditionFailed;
      }
      items := items[key.s := record.(answer := Some(answer))];
      r := Written;
    }
  }
}
