/** The checkout form and the server together: one order per attempt. */
module EndToEnd {
  import opened Idempotency
  import Attempts

  predicate BodyFits(q: Request, book: Key -> string) {
    match q
    case Gone(_) => true
    case Replied(key, body, answer) => body == book(key) && answer != Mismatch
    case _ => q.body == book(q.key)
  }

  predicate Faithful(s: Server, book: Key -> string) {
    && (forall i :: 0 <= i < |s.requests| ==> BodyFits(s.requests[i], book))
    && (forall key :: key in s.records ==> s.records[key].body == book(key))
  }

  lemma {:induction false} NeverMismatched(s: Server, actions: seq<Action>, book: Key -> string)
    requires Opening(s)
    requires forall a :: a in actions && a.Arrive? ==> a.body == book(a.key)
    ensures Faithful(Steps(s, actions), book)
  {
    if actions != [] {
      var n := |actions| - 1;
      var before, a := Steps(s, actions[..n]), actions[n];
      NeverMismatched(s, actions[..n], book);
      FaithfulKept(before, a, book);
    }
  }

  lemma FaithfulKept(s: Server, a: Action, book: Key -> string)
    requires Faithful(s, book) && (a.Arrive? ==> a.body == book(a.key))
    ensures Faithful(Step(s, a), book)
  {
    var s' := Step(s, a);
    forall i | 0 <= i < |s'.requests|
      ensures BodyFits(s'.requests[i], book)
    {
      if i < |s.requests| { assert BodyFits(s.requests[i], book); }
    }
    if a.Run? && a.request < |s.requests| { assert BodyFits(s.requests[a.request], book); }
  }

  /** The form sent under a key, by the submits of one checkout form. */
  ghost function FormOf(events: seq<Attempts.Event>, key: Key): string {
    if exists j :: 0 <= j < |events| && events[j].Submit? && Attempts.KeyAt(events, j) == key then
      var j :| 0 <= j < |events| && events[j].Submit? && Attempts.KeyAt(events, j) == key;
      events[j].form
    else ""
  }

  ghost predicate SentBy(events: seq<Attempts.Event>, a: Action)
    requires a.Arrive?
  {
    exists j :: 0 <= j < |events| && events[j].Submit? && Attempts.KeyAt(events, j) == a.key && events[j].form == a.body
  }

  lemma FormFits(events: seq<Attempts.Event>, j: nat)
    requires j < |events| && events[j].Submit?
    ensures FormOf(events, Attempts.KeyAt(events, j)) == events[j].form
  {
    var key := Attempts.KeyAt(events, j);
    var k :| 0 <= k < |events| && events[k].Submit? && Attempts.KeyAt(events, k) == key
      && FormOf(events, key) == events[k].form;
    if k < j { Attempts.SameKeySameAttempt(events, k, j); }
    if j < k { Attempts.SameKeySameAttempt(events, j, k); }
  }

  /**
   * End to end: whatever is pressed on the form, whatever reaches the server, late, doubled or out of
   * order, no request is refused for a changed body, and each attempt places at most one order as long as
   * its key stays proper.
   */
  lemma {:induction false} OneOrderPerAttempt(events: seq<Attempts.Event>, s: Server, actions: seq<Action>, j: nat)
    requires Opening(s)
    requires forall a :: a in actions && a.Arrive? ==> SentBy(events, a)
    requires j < |events| && events[j].Submit? && Proper(Steps(s, actions), Attempts.KeyAt(events, j))
    ensures OrdersFor(Steps(s, actions), Attempts.KeyAt(events, j)) <= 1
    ensures forall i :: 0 <= i < |Steps(s, actions).requests| && Steps(s, actions).requests[i].Replied? ==>
              Steps(s, actions).requests[i].answer != Mismatch
  {
    OneOrderPerKey(s, actions, Attempts.KeyAt(events, j));
    var book := (key: nat) => FormOf(events, key);
    forall a | a in actions && a.Arrive?
      ensures a.body == book(a.key)
    {
      var k :| 0 <= k < |events| && events[k].Submit? && Attempts.KeyAt(events, k) == a.key && events[k].form == a.body;
      FormFits(events, k);
    }
    NeverMismatched(s, actions, book);
    assert forall i :: 0 <= i < |Steps(s, actions).requests| ==> BodyFits(Steps(s, actions).requests[i], book);
  }
}
