/**
 * The step system and the services agree beyond checkout: a cancellation, a webhook or a sweep that nobody
 * interrupts ends where the service's own specification says.
 */
module LoneTasks {
  import opened Wrappers
  import opened Orders
  import opened Store
  import opened Protocol
  import opened Inventory
  import Cancellation
  import Webhooks
  import Sweeper

  /** The database and one task on its own. */
  datatype Lone = Lone(db: Db, k: Task)

  function OneStep(x: Lone, t: nat, now: int): Lone {
    var m := NextMove(x.db, t, x.k, now);
    Lone(Effected(x.db, m.effect), m.next)
  }

  function Alone(x: Lone, t: nat, now: int, n: nat): Lone {
    if n == 0 then x else OneStep(Alone(x, t, now, n - 1), t, now)
  }

  ghost predicate Reaches(x: Lone, t: nat, now: int, y: Lone) {
    exists n: nat :: Alone(x, t, now, n) == y
  }

  lemma Begin(x: Lone, t: nat, now: int)
    ensures Reaches(x, t, now, x)
  {
    assert Alone(x, t, now, 0) == x;
  }

  lemma Next(x: Lone, t: nat, now: int, y: Lone, z: Lone)
    requires Reaches(x, t, now, y) && OneStep(y, t, now) == z
    ensures Reaches(x, t, now, z)
  {
    var n: nat :| Alone(x, t, now, n) == y;
    assert Alone(x, t, now, n + 1) == z;
  }

  // ---------------------------------------------------------------- a release

  /** A release that has turned the first rows of its list. */
  function Released(db: Db, o: nat, to: ReservationStatus, after: Afterwards, i: nat): Lone
    requires i <= |FindActive(db.reservations, o)|
  {
    var ids := FindActive(db.reservations, o);
    Lone(ReleaseRows(db, ids[..i], to), Releasing(o, to, Listed(ids[i..]), after))
  }

  lemma FlipStep(db: Db, o: nat, to: ReservationStatus, after: Afterwards, todo: seq<nat>, t: nat, now: int)
    requires todo != [] && CanFlip(db, todo[0], ACTIVE)
    ensures OneStep(Lone(db, Releasing(o, to, Listed(todo), after)), t, now)
         == Lone(SetStatus(db, todo[0], to),
                 Releasing(o, to, Owing(db.reservations[todo[0]].product, db.reservations[todo[0]].quantity,
                                        todo[1..]), after))
  {
  }

  lemma RowAlone(x: Lone, t: nat, now: int, db: Db, o: nat, to: ReservationStatus, after: Afterwards, todo: seq<nat>)
    requires todo != [] && CanFlip(db, todo[0], ACTIVE)
    requires Reaches(x, t, now, Lone(db, Releasing(o, to, Listed(todo), after)))
    ensures Reaches(x, t, now, Lone(ReleaseRow(db, todo[0], to, ACTIVE), Releasing(o, to, Listed(todo[1..]), after)))
  {
    var row := db.reservations[todo[0]];
    var y := Lone(db, Releasing(o, to, Listed(todo), after));
    var flipped := Lone(SetStatus(db, todo[0], to),
                        Releasing(o, to, Owing(row.product, row.quantity, todo[1..]), after));
    FlipStep(db, o, to, after, todo, t, now);
    Next(x, t, now, y, flipped);
    Next(x, t, now, flipped, Lone(ReleaseRow(db, todo[0], to, ACTIVE), Releasing(o, to, Listed(todo[1..]), after)));
  }

  lemma Slices(ids: seq<nat>, j: nat)
    requires j < |ids|
    ensures ids[j..] != [] && ids[j..][0] == ids[j] && ids[j..][1..] == ids[j + 1..]
  {
  }

  /** The next listed row is still active, and turning it is one more of the service's loop. */
  lemma OneRowAlone(x: Lone, t: nat, now: int, db: Db, o: nat, to: ReservationStatus, after: Afterwards, j: nat)
    requires to !in ACTIVE && j < |FindActive(db.reservations, o)| && Reaches(x, t, now, Released(db, o, to, after, j))
    ensures Reaches(x, t, now, Released(db, o, to, after, j + 1))
  {
    var ids := FindActive(db.reservations, o);
    NextRow(db, o, to, j);
    Slices(ids, j);
    RowAlone(x, t, now, ReleaseRows(db, ids[..j], to), o, to, after, ids[j..]);
  }

  lemma {:induction false} RowsAlone(x: Lone, t: nat, now: int, db: Db, o: nat, to: ReservationStatus,
                                     after: Afterwards, i: nat, n: nat)
    requires to !in ACTIVE && i <= n <= |FindActive(db.reservations, o)|
    requires Reaches(x, t, now, Released(db, o, to, after, i))
    ensures Reaches(x, t, now, Released(db, o, to, after, n))
    decreases n - i
  {
    if i < n {
      OneRowAlone(x, t, now, db, o, to, after, i);
      RowsAlone(x, t, now, db, o, to, after, i + 1, n);
    }
  }

  /** A release left alone turns exactly the rows the service's loop turns. */
  lemma ReleaseAlone(x: Lone, t: nat, now: int, db: Db, o: nat, to: ReservationStatus, after: Afterwards)
    requires to !in ACTIVE && Reaches(x, t, now, Lone(db, Releasing(o, to, Finding, after)))
    ensures var end := Continue(o, after);
            Reaches(x, t, now, Lone(Effected(ReleaseOrder(db, o, to), end.effect), end.next))
  {
    var ids := FindActive(db.reservations, o);
    assert ids[..0] == [] && ids[0..] == ids && ids[..|ids|] == ids && ids[|ids|..] == [];
    Next(x, t, now, Lone(db, Releasing(o, to, Finding, after)), Released(db, o, to, after, 0));
    RowsAlone(x, t, now, db, o, to, after, 0, |ids|);
    var end := Continue(o, after);
    Next(x, t, now, Released(db, o, to, after, |ids|), Lone(Effected(ReleaseOrder(db, o, to), end.effect), end.next));
  }

  // ---------------------------------------------------------------- a cancellation

  function Cancelled(db: Db, o: nat, u: Update): Db {
    Cancellation.Announced(ReleaseOrder(UpdateOrder(db, o, u), o, Store.Released), o, u.CancelPaid?)
  }

  lemma TellAlone(x: Lone, t: nat, now: int, db: Db, o: nat, refund: bool)
    requires Reaches(x, t, now, Lone(db, Telling(o, true, refund)))
    ensures Reaches(x, t, now, Lone(Cancellation.Announced(db, o, refund), Finished))
  {
    var told := Lone(InsertEvent(db, DomainEvent(OrderCancelled, o)), Telling(o, false, refund));
    Next(x, t, now, Lone(db, Telling(o, true, refund)), told);
    Next(x, t, now, told, Lone(Cancellation.Announced(db, o, refund), Finished));
  }

  lemma TurnStep(db: Db, o: nat, time: int, paid: bool, t: nat, now: int)
    requires CanUpdate(db, o, if paid then CancelPaid(time) else CancelUnpaid(time))
    ensures OneStep(Lone(db, Cancelling(o, paid, time)), t, now)
         == Lone(UpdateOrder(db, o, if paid then CancelPaid(time) else CancelUnpaid(time)),
                 Releasing(o, Store.Released, Finding, TellCancelled(paid)))
  {
  }

  lemma TurnAlone(x: Lone, t: nat, now: int, db: Db, o: nat, time: int, paid: bool)
    requires Reaches(x, t, now, Lone(db, Cancelling(o, paid, time)))
    requires CanUpdate(db, o, if paid then CancelPaid(time) else CancelUnpaid(time))
    ensures Reaches(x, t, now, Lone(Cancelled(db, o, if paid then CancelPaid(time) else CancelUnpaid(time)), Finished))
  {
    var turned := UpdateOrder(db, o, if paid then CancelPaid(time) else CancelUnpaid(time));
    TurnStep(db, o, time, paid, t, now);
    Next(x, t, now, Lone(db, Cancelling(o, paid, time)),
         Lone(turned, Releasing(o, Store.Released, Finding, TellCancelled(paid))));
    ReleaseAlone(x, t, now, turned, o, Store.Released, TellCancelled(paid));
    TellAlone(x, t, now, ReleaseOrder(turned, o, Store.Released), o, paid);
  }

  /** A cancellation left alone does what the service promises, or leaves the shop as it was. */
  lemma LoneCancelAgrees(db: Db, o: nat, time: int, t: nat, now: int)
    requires OrderAt(db, o).Some? ==> Consistent(OrderAt(db, o).value)
    ensures exists end ::
              && Reaches(Lone(db, Cancelling(o, false, time)), t, now, Lone(end, Finished))
              && if Cancellation.CanCancel(db, o) then Cancellation.CancelledFrom(db, end, o, time) else end == db
  {
    var x := Lone(db, Cancelling(o, false, time));
    Begin(x, t, now);
    if CanUpdate(db, o, CancelUnpaid(time)) {
      TurnAlone(x, t, now, db, o, time, false);
      Cancellation.CancelAmounts(db, o, time, CancelUnpaid(time));
    } else {
      Next(x, t, now, x, Lone(db, Cancelling(o, true, time)));
      if CanUpdate(db, o, CancelPaid(time)) {
        TurnAlone(x, t, now, db, o, time, true);
        Cancellation.CancelAmounts(db, o, time, CancelPaid(time));
      } else {
        Next(x, t, now, Lone(db, Cancelling(o, true, time)), Lone(db, Finished));
      }
    }
  }

  // ---------------------------------------------------------------- a refund request

  lemma AskStep(db: Db, o: nat, time: int, windowStart: int, t: nat, now: int)
    ensures OneStep(Lone(db, AskingRefund(o, time, windowStart)), t, now)
         == if CanUpdate(db, o, RequestRefund(time, windowStart))
            then Lone(UpdateOrder(db, o, RequestRefund(time, windowStart)), Telling(o, false, true))
            else Lone(db, Finished)
  {
  }

  lemma AskedIs(db: Db, o: nat, time: int, windowStart: int)
    requires CanUpdate(db, o, RequestRefund(time, windowStart))
    ensures Cancellation.RefundAsked(db, InsertEvent(UpdateOrder(db, o, RequestRefund(time, windowStart)),
                                                     DomainEvent(RefundWasRequested, o)), o, time)
  {
  }

  lemma TellRefund(x: Lone, t: nat, now: int, db: Db, o: nat)
    requires Reaches(x, t, now, Lone(db, Telling(o, false, true)))
    ensures Reaches(x, t, now, Lone(InsertEvent(db, DomainEvent(RefundWasRequested, o)), Finished))
  {
    Next(x, t, now, Lone(db, Telling(o, false, true)),
         Lone(InsertEvent(db, DomainEvent(RefundWasRequested, o)), Finished));
  }

  lemma AskAlone(db: Db, o: nat, time: int, windowStart: int, t: nat, now: int)
    requires CanUpdate(db, o, RequestRefund(time, windowStart))
    ensures var end := InsertEvent(UpdateOrder(db, o, RequestRefund(time, windowStart)),
                                   DomainEvent(RefundWasRequested, o));
            Reaches(Lone(db, AskingRefund(o, time, windowStart)), t, now, Lone(end, Finished))
  {
    var x, asked := Lone(db, AskingRefund(o, time, windowStart)), UpdateOrder(db, o, RequestRefund(time, windowStart));
    Begin(x, t, now);
    AskStep(db, o, time, windowStart, t, now);
    Next(x, t, now, x, Lone(asked, Telling(o, false, true)));
    TellRefund(x, t, now, asked, o);
  }

  /** A refund request left alone does what the service promises, or leaves the shop as it was. */
  lemma LoneRefundAgrees(db: Db, o: nat, time: int, windowStart: int, t: nat, now: int)
    ensures exists end ::
              && Reaches(Lone(db, AskingRefund(o, time, windowStart)), t, now, Lone(end, Finished))
              && if OrderAt(db, o).Some? && Cancellation.MayAskRefund(OrderAt(db, o).value, windowStart)
                 then Cancellation.RefundAsked(db, end, o, time) else end == db
  {
    if OrderAt(db, o).Some? { Cancellation.RefusedOrAsked(OrderAt(db, o).value, time, windowStart); }
    if CanUpdate(db, o, RequestRefund(time, windowStart)) {
      AskAlone(db, o, time, windowStart, t, now);
      AskedIs(db, o, time, windowStart);
    } else {
      var x := Lone(db, AskingRefund(o, time, windowStart));
      Begin(x, t, now);
      AskStep(db, o, time, windowStart, t, now);
      Next(x, t, now, x, Lone(db, Finished));
    }
  }

  // ---------------------------------------------------------------- a webhook

  lemma RecordAlone(x: Lone, t: nat, now: int, db: Db, e: PaymentEvent, time: int)
    requires Reaches(x, t, now, Lone(db, Webhook(e, Recording, time)))
    requires !KnownEvent(db, e.provider, e.eventId, e.digest)
    ensures Reaches(x, t, now, Lone(InsertPayment(db, e), Finished))
  {
    Next(x, t, now, Lone(db, Webhook(e, Recording, time)), Lone(InsertPayment(db, e), Finished));
  }

  lemma StockAlone(x: Lone, t: nat, now: int, db: Db, e: PaymentEvent, time: int)
    requires Reaches(x, t, now, Lone(db, Settled(e, time))) && !KnownEvent(db, e.provider, e.eventId, e.digest)
    ensures Reaches(x, t, now, Lone(InsertPayment(Webhooks.StockDone(db, e), e), Finished))
  {
    if e.target == Paid {
      Next(x, t, now, Lone(db, Settled(e, time)), Lone(CommitReservations(db, e.order), Webhook(e, Recording, time)));
      RecordAlone(x, t, now, CommitReservations(db, e.order), e, time);
    } else {
      ReleaseAlone(x, t, now, db, e.order, Store.Released, RecordPayment(e));
      ReleaseOrderExact(db, e.order, Store.Released);
      RecordAlone(x, t, now, ReleaseOrder(db, e.order, Store.Released), e, 0);
    }
  }

  function SettlingIt(db: Db, e: PaymentEvent, time: int): Task
    requires OrderAt(db, e.order).Some?
  {
    Webhook(e, Settling(OrderAt(db, e.order).value.payment, OrderAt(db, e.order).value.status), time)
  }

  lemma ReadStep(db: Db, e: PaymentEvent, time: int, t: nat, now: int)
    requires Webhooks.Verdict(db, e) == Webhooks.Accepted
    ensures OneStep(Lone(db, Webhook(e, Reading, time)), t, now) == Lone(db, SettlingIt(db, e, time))
  {
  }

  lemma SettleStep(db: Db, e: PaymentEvent, time: int, t: nat, now: int)
    requires OrderAt(db, e.order).Some?
    ensures OneStep(Lone(db, SettlingIt(db, e, time)), t, now) == Lone(Webhooks.Moved(db, e, time), Settled(e, time))
  {
  }

  lemma SettleAlone(x: Lone, t: nat, now: int, db: Db, e: PaymentEvent, time: int)
    requires Webhooks.Verdict(db, e) == Webhooks.Accepted
    requires Reaches(x, t, now, Lone(db, Webhook(e, Reading, time)))
    ensures Reaches(x, t, now, Lone(Webhooks.Moved(db, e, time), Settled(e, time)))
  {
    ReadStep(db, e, time, t, now);
    Next(x, t, now, Lone(db, Webhook(e, Reading, time)), Lone(db, SettlingIt(db, e, time)));
    SettleStep(db, e, time, t, now);
    Next(x, t, now, Lone(db, SettlingIt(db, e, time)), Lone(Webhooks.Moved(db, e, time), Settled(e, time)));
  }

  /** A delivery left alone does what the service promises. */
  lemma LoneWebhookAgrees(db: Db, e: PaymentEvent, time: int, t: nat, now: int)
    ensures Reaches(Lone(db, Webhook(e, Looking, time)), t, now, Lone(Webhooks.Deliver(db, e, time), Finished))
  {
    var x, reading := Lone(db, Webhook(e, Looking, time)), Lone(db, Webhook(e, Reading, time));
    Begin(x, t, now);
    if KnownEvent(db, e.provider, e.eventId, e.digest) {
      Next(x, t, now, x, Lone(db, Finished));
    } else {
      Next(x, t, now, x, reading);
      if Webhooks.Verdict(db, e) == Webhooks.Accepted {
        SettleAlone(x, t, now, db, e, time);
        StockAlone(x, t, now, Webhooks.Moved(db, e, time), e, time);
      } else {
        Next(x, t, now, reading, Lone(db, Finished));
      }
    }
  }

  // ---------------------------------------------------------------- a sweep

  function Swept(p: Sweeper.Pass, time: int, rest: seq<Expiry>): Lone {
    Lone(p.db, Sweeping(Sweep(time, rest, p.handled), None))
  }

  lemma UnlinkedAlone(x: Lone, t: nat, now: int, p: Sweeper.Pass, time: int, row: Expiry, rest: seq<Expiry>)
    requires row.order.None? && Reaches(x, t, now, Swept(p, time, [row] + rest))
    ensures Reaches(x, t, now, Swept(Sweeper.SweepRow(p, time, row), time, rest))
  {
    assert ([row] + rest)[1..] == rest;
    if CanFlip(p.db, row.id, {Store.Reserved}) {
      var r := p.db.reservations[row.id];
      var owing := Lone(SetStatus(p.db, row.id, Expired),
                        Sweeping(Sweep(time, rest, p.handled), Some(Line(r.product, r.quantity))));
      Next(x, t, now, Swept(p, time, [row] + rest), owing);
      Next(x, t, now, owing, Swept(Sweeper.SweepRow(p, time, row), time, rest));
    } else {
      Next(x, t, now, Swept(p, time, [row] + rest), Swept(p, time, rest));
    }
  }

  /** Where a lapsed order's release goes on is where the pass is after its row. */
  lemma ExpiredPass(p: Sweeper.Pass, time: int, row: Expiry, rest: seq<Expiry>)
    requires row.order.Some? && row.order.value !in p.handled && CanUpdate(p.db, row.order.value, ExpireUnpaid(time))
    ensures var o := row.order.value;
            var end := Continue(o, KeepSweeping(Sweep(time, rest, p.handled + {o}), true));
            Lone(Effected(ReleaseOrder(UpdateOrder(p.db, o, ExpireUnpaid(time)), o, Expired), end.effect), end.next)
            == Swept(Sweeper.SweepRow(p, time, row), time, rest)
  {
  }

  lemma ExpireStep(p: Sweeper.Pass, t: nat, now: int, time: int, row: Expiry, rest: seq<Expiry>)
    requires row.order.Some? && row.order.value !in p.handled && CanUpdate(p.db, row.order.value, ExpireUnpaid(time))
    ensures var o := row.order.value;
            OneStep(Swept(p, time, [row] + rest), t, now)
            == Lone(UpdateOrder(p.db, o, ExpireUnpaid(time)),
                    Releasing(o, Expired, Finding, KeepSweeping(Sweep(time, rest, p.handled + {o}), true)))
  {
    assert ([row] + rest)[1..] == rest;
  }

  lemma ExpireAlone(x: Lone, t: nat, now: int, p: Sweeper.Pass, time: int, row: Expiry, rest: seq<Expiry>)
    requires row.order.Some? && row.order.value !in p.handled && CanUpdate(p.db, row.order.value, ExpireUnpaid(time))
    requires Reaches(x, t, now, Swept(p, time, [row] + rest))
    ensures Reaches(x, t, now, Swept(Sweeper.SweepRow(p, time, row), time, rest))
  {
    var o := row.order.value;
    var after := KeepSweeping(Sweep(time, rest, p.handled + {o}), true);
    var turned := UpdateOrder(p.db, o, ExpireUnpaid(time));
    ExpireStep(p, t, now, time, row, rest);
    Next(x, t, now, Swept(p, time, [row] + rest), Lone(turned, Releasing(o, Expired, Finding, after)));
    ReleaseAlone(x, t, now, turned, o, Expired, after);
    ExpiredPass(p, time, row, rest);
  }

  lemma OtherAlone(x: Lone, t: nat, now: int, p: Sweeper.Pass, time: int, row: Expiry, rest: seq<Expiry>)
    requires row.order.Some? && row.order.value !in p.handled && !CanUpdate(p.db, row.order.value, ExpireUnpaid(time))
    requires Reaches(x, t, now, Swept(p, time, [row] + rest))
    ensures Reaches(x, t, now, Swept(Sweeper.SweepRow(p, time, row), time, rest))
  {
    var o := row.order.value;
    var w := Sweep(time, rest, p.handled + {o});
    var looking := Lone(p.db, SweepLooking(o, w));
    assert ([row] + rest)[1..] == rest;
    Next(x, t, now, Swept(p, time, [row] + rest), looking);
    match OrderAt(p.db, o)
    case None =>
      Next(x, t, now, looking, Lone(p.db, Releasing(o, Expired, Finding, KeepSweeping(w, false))));
      ReleaseAlone(x, t, now, p.db, o, Expired, KeepSweeping(w, false));
    case Some(order) =>
      if order.payment == Paid || order.payment == Authorized {
        Next(x, t, now, looking, Lone(p.db, SweepCommitting(o, w)));
        Next(x, t, now, Lone(p.db, SweepCommitting(o, w)), Lone(CommitReservations(p.db, o), Sweeping(w, None)));
      } else {
        Next(x, t, now, looking, Lone(p.db, Sweeping(w, None)));
      }
  }

  lemma SweepRowAlone(x: Lone, t: nat, now: int, p: Sweeper.Pass, time: int, row: Expiry, rest: seq<Expiry>)
    requires Reaches(x, t, now, Swept(p, time, [row] + rest))
    ensures Reaches(x, t, now, Swept(Sweeper.SweepRow(p, time, row), time, rest))
  {
    if row.order.None? {
      UnlinkedAlone(x, t, now, p, time, row, rest);
    } else if row.order.value in p.handled {
      assert ([row] + rest)[1..] == rest;
      Next(x, t, now, Swept(p, time, [row] + rest), Swept(p, time, rest));
    } else if CanUpdate(p.db, row.order.value, ExpireUnpaid(time)) {
      ExpireAlone(x, t, now, p, time, row, rest);
    } else {
      OtherAlone(x, t, now, p, time, row, rest);
    }
  }

  lemma {:induction false} SweepRowsAlone(x: Lone, t: nat, now: int, p: Sweeper.Pass, time: int, xs: seq<Expiry>,
                                          i: nat)
    requires i <= |xs| && Reaches(x, t, now, Swept(p, time, xs))
    ensures Reaches(x, t, now, Swept(Sweeper.SweepRows(p, time, xs[..i]), time, xs[i..]))
  {
    if i == 0 {
      assert xs[..0] == [] && xs[0..] == xs;
    } else {
      SweepRowsAlone(x, t, now, p, time, xs, i - 1);
      assert xs[i - 1..] == [xs[i - 1]] + xs[i..];
      assert xs[..i][..i - 1] == xs[..i - 1] && xs[..i][i - 1] == xs[i - 1];
      SweepRowAlone(x, t, now, Sweeper.SweepRows(p, time, xs[..i - 1]), time, xs[i - 1], xs[i..]);
    }
  }

  lemma Whole(xs: seq<Expiry>)
    ensures xs[..|xs|] == xs && xs[|xs|..] == []
  {
  }

  lemma SweepEnds(p: Sweeper.Pass, time: int, t: nat, now: int)
    ensures OneStep(Swept(p, time, []), t, now) == Lone(p.db, Finished)
  {
  }

  /** A sweep left alone does to the shop what the service's pass does. */
  lemma LoneSweepAgrees(db: Db, time: int, batch: seq<nat>, t: nat, now: int)
    requires IsBatch(db, time, batch)
    ensures Reaches(Lone(db, Sweeping(Sweep(time, Expiries(db, batch), {}), None)), t, now,
                    Lone(Sweeper.SweepBatch(db, time, batch).db, Finished))
  {
    var x := Lone(db, Sweeping(Sweep(time, Expiries(db, batch), {}), None));
    var xs, p := Expiries(db, batch), Sweeper.Pass(db, 0, 0, {});
    Begin(x, t, now);
    SweepRowsAlone(x, t, now, p, time, xs, |xs|);
    Whole(xs);
    SweepEnds(Sweeper.SweepRows(p, time, xs), time, t, now);
    Next(x, t, now, Swept(Sweeper.SweepRows(p, time, xs), time, []), Lone(Sweeper.SweepRows(p, time, xs).db, Finished));
  }
}
