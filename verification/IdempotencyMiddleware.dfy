/** The middleware as written, for one request at a time, against the step system of `Idempotency`. */
module IdempotencyMiddleware {
  import opened Wrappers
  import opened Idempotency

  /** The records, with no request under way. */
  function Quiet(records: map<Key, Record>, nextId: nat, now: int): Server {
    Server(records, [], [], now, nextId, {}, {}, {})
  }

  /** One request let in, as far as the handler or an early answer, with nothing in between. */
  function LetIn(s: Server, key: Key, body: string): Server {
    Step(Step(Step(Step(s, Arrive(key, body)), Run(|s.requests|)), Run(|s.requests|)), Run(|s.requests|))
  }

  /** One handler about to store its outcome. */
  function Storing(records: map<Key, Record>, nextId: nat, key: Key, id: nat, response: Response): Server {
    Server(records, [Saving(key, "", id, response)], [], 0, nextId, {}, {}, {})
  }

  class KeyRecords {
    var records: map<Key, Record>
    var nextId: nat

    constructor ()
      ensures records == map[] && nextId == 0
    {
      records, nextId := map[], 0;
    }

    /** An early answer, or none and the id of the record the handler now owns. */
    method Begin(key: Key, body: string, now: int) returns (answer: Option<Answer>, id: nat)
      modifies this
      ensures var s := LetIn(Quiet(old(records), old(nextId), now), key, body);
              && records == s.records && nextId == s.nextId
              && s.requests == [if answer.Some? then Replied(key, body, answer.value) else Working(key, body, id)]
      ensures answer.Some? ==> records == old(records)
      ensures answer.None? <==> key !in old(records)
                                || (old(records)[key].body == body && old(records)[key].state.Processing?
                                    && 120000 <= now - old(records)[key].createdAt)
      ensures answer == Some(Mismatch) <==> key in old(records) && old(records)[key].body != body
      ensures answer.Some? && answer.value.Replayed? ==>
                key in old(records) && old(records)[key].state == Completed(answer.value.stored)
      ensures answer == Some(StillProcessing) ==>
                && key in old(records) && old(records)[key].state.Processing?
                && now - old(records)[key].createdAt < 120000
      ensures answer.Some? ==> answer.value.Mismatch? || answer.value.Replayed? || answer.value.StillProcessing?
      ensures answer.None? ==>
                records == old(records)[key := Record(id, body, Processing, now, now + 24 * 3600000)]
                && id == old(nextId)
    {
      answer, id := None, nextId;
      if key in records {
        var existing := records[key];
        if existing.body != body { return Some(Mismatch), id; }
        if existing.state.Completed? { return Some(Replayed(existing.state.response)), id; }
        if now - existing.createdAt < STALE_PROCESSING { return Some(StillProcessing), id; }
        records := records - {key};
      }
      records := records[key := Record(nextId, body, Processing, now, now + TTL)];
      nextId := nextId + 1;
    }

    /** The wrapped response: a 5xx frees the key, anything else is stored, if the record is still there. */
    method Answer(key: Key, id: nat, response: Response)
      modifies this`records
      ensures records == Step(Storing(old(records), nextId, key, id, response), Run(0)).records
      ensures forall k :: k != key ==>
                (k in records <==> k in old(records)) && (k in records ==> records[k] == old(records)[k])
      ensures !(key in old(records) && old(records)[key].id == id) ==> records == old(records)
      ensures key in old(records) && old(records)[key].id == id ==>
                if response.status >= 500 then key !in records
                else key in records && records[key] == old(records)[key].(state := Completed(response))
    {
      if key in records && records[key].id == id {
        if response.status >= 500 {
          records := records - {key};
        } else {
          records := records[key := records[key].(state := Completed(response))];
        }
      }
    }
  }

  /** A second try of an answered attempt gets the first answer back, and places no order of its own. */
  method RetryAfterAnswer(key: Key, body: string, response: Response, now: int, later: int)
    returns (answer: Option<Answer>)
    requires response.status < 500
    ensures answer == Some(Replayed(response))
  {
    var m := new KeyRecords();
    var early, id := m.Begin(key, body, now);
    m.Answer(key, id, response);
    answer, id := m.Begin(key, body, later);
    assert m.records[key].state == Completed(response);
  }
}
