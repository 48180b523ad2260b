/**
 * The checkout form's idempotency key. Keys are numbered in the order they are minted, so a new key
 * differs from every earlier one, as random identifiers do.
 */
module Attempts {
  import opened Wrappers

  datatype Attempt = Attempt(key: nat, body: Option<string>)

  /** What happens to the form: a submit, a failed submit with its HTTP status, or a placed order. */
  datatype Event = Submit(form: string) | Failed(status: int) | Placed

  predicate Retryable(status: int) {
    status == 0 || status == 423 || status == 429 || status >= 500
  }

  function Next(a: Attempt, e: Event): Attempt {
    match e
    case Submit(form) => Attempt(if a.body.Some? && a.body.value != form then a.key + 1 else a.key, Some(form))
    case Failed(status) => if Retryable(status) then a else Attempt(a.key + 1, None)
    case Placed => Attempt(a.key + 1, None)
  }

  function After(events: seq<Event>): Attempt {
    if events == [] then Attempt(0, None) else Next(After(events[..|events| - 1]), events[|events| - 1])
  }

  /** The key sent with the submit at position `i`. */
  function KeyAt(events: seq<Event>, i: nat): nat
    requires i < |events|
  {
    After(events[..i + 1]).key
  }

  class CheckoutAttempt {
    var key: nat
    var body: Option<string>

    ghost function Now(): Attempt
      reads this
    {
      Attempt(key, body)
    }

    constructor ()
      ensures Now() == After([])
    {
      key, body := 0, None;
    }

    method KeyFor(form: string) returns (sent: nat)
      modifies this
      ensures Now() == Next(old(Now()), Submit(form)) && sent == key
      ensures body == Some(form)
      ensures key == if old(body).Some? && old(body).value != form then old(key) + 1 else old(key)
    {
      if body.Some? && body.value != form {
        key := key + 1;
      }
      body := Some(form);
      return key;
    }

    method Failure(status: int)
      modifies this
      ensures Now() == Next(old(Now()), Failed(status))
      ensures status == 0 || status == 423 || status == 429 || 500 <= status ==> key == old(key) && body == old(body)
      ensures status != 0 && status != 423 && status != 429 && status < 500 ==> key == old(key) + 1 && body == None
    {
      var retryable := status == 0 || status == 423 || status == 429 || status >= 500;
      if !retryable {
        Reset();
      }
    }

    method Reset()
      modifies this
      ensures Now() == Next(old(Now()), Placed)
    {
      key := key + 1;
      body := None;
    }
  }

  /** An event that belongs to the same attempt as a submit of this form. */
  predicate Continues(e: Event, form: string) {
    match e
    case Submit(f) => f == form
    case Failed(status) => Retryable(status)
    case Placed => false
  }

  lemma {:induction false} KeysClimb(events: seq<Event>, i: nat, j: nat)
    requires i <= j < |events| && events[i].Submit?
    ensures KeyAt(events, i) <= KeyAt(events, j)
    ensures KeyAt(events, i) == KeyAt(events, j) <==> forall k :: i < k <= j ==> Continues(events[k], events[i].form)
    ensures KeyAt(events, i) == KeyAt(events, j) ==> After(events[..j + 1]).body == Some(events[i].form)
  {
    assert events[..j + 1][..j] == events[..j];
    if i < j {
      KeysClimb(events, i, j - 1);
      assert events[..j] == events[..j - 1 + 1];
      assert (forall k :: i < k <= j ==> Continues(events[k], events[i].form))
        <==>
        (forall k :: i < k <= j - 1 ==> Continues(events[k], events[i].form)) && Continues(events[j], events[i].form);
    }
  }

  /**
   * Two submits share a key exactly when every submit between them sends the same form, no order was placed
   * between them, and every failure between them was a lost connection, a 423, a 429 or a server error. So
   * a key never travels with two bodies.
   */
  lemma SameKeySameAttempt(events: seq<Event>, i: nat, j: nat)
    requires i < j < |events| && events[i].Submit? && events[j].Submit?
    ensures KeyAt(events, i) == KeyAt(events, j) <==>
            forall k :: i < k <= j ==>
              && !events[k].Placed?
              && (events[k].Submit? ==> events[k].form == events[i].form)
              && (events[k].Failed? ==> events[k].status in {0, 423, 429} || 500 <= events[k].status)
    ensures KeyAt(events, i) == KeyAt(events, j) ==> events[i].form == events[j].form
  {
    KeysClimb(events, i, j);
    forall k | i < k <= j
      ensures Continues(events[k], events[i].form) <==>
              && !events[k].Placed?
              && (events[k].Submit? ==> events[k].form == events[i].form)
              && (events[k].Failed? ==> events[k].status in {0, 423, 429} || 500 <= events[k].status)
    {
    }
    if KeyAt(events, i) == KeyAt(events, j) {
      assert Continues(events[j], events[i].form);
    }
  }
}
