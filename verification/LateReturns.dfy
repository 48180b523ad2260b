/**
 * Two deliveries of one failed payment run side by side. The second takes over the order's reservation, the
 * first finds nothing left to release and writes the record, and only then does the second put the units
 * back. So stock can still change after an event is on record.
 */
module LateReturns {
  import opened Wrappers
  import opened Orders
  import opened Store
  import opened Protocol
  import opened Repeats
  import opened Runs
  import Pricing
  import Races

  function Items(): seq<Item> { [Item(1, 2, Pricing.ToCents(10.0))] }

  function Total(): int { Pricing.Max(Subtotal(Items()), 0) }

  const PAYMENT := PaymentEvent("card", "evt", "d", 0, Failed)

  function Placed(): Order { NewOrder(0, 7, Items(), None, Total(), 0) }

  function Declined(): Order { Written(Placed(), Settle(Unpaid, Pending, Failed, EventType(Failed), 0)) }

  function Buyer(at: CheckoutAt, total: int, placed: Option<nat>, undo: seq<Undo>): Task {
    Checkout(7, None, at, [Line(1, 2)], RESERVATION_WINDOW, Pricing.ToCents(10.0), Items(), [0], total, placed, undo)
  }

  const UNDO := [Races.UNITS, Races.DROP]
  const UNDO_ALL := [Races.UNITS, Races.DROP, RemoveOrder(0)]

  function Row(status: ReservationStatus, order: Option<nat>): Reservation {
    Reservation(0, 7, 1, 2, status, order, RESERVATION_WINDOW)
  }

  function Shop(stock: int, row: Reservation, orders: seq<Option<Order>>, payments: seq<PaymentEvent>,
                cart: seq<Line>): Db {
    Db(map[1 := Product(stock, 10.0, true)], [row], orders, map[], [], payments, [], map[7 := cart])
  }

  function Buying(row: Reservation, orders: seq<Option<Order>>, k: Task): State {
    State(Shop(3, row, orders, [], [Line(1, 2)]), [k], Races.Locks(), [], {}, {}, [])
  }

  /** After the checkout: two deliveries, each where it is. */
  function Paying(stock: int, status: ReservationStatus, o: Order, payments: seq<PaymentEvent>, k1: Task,
                  k2: Task): State {
    State(Shop(stock, Row(status, Some(0)), [Some(o)], payments, []), [Finished, k1, k2], map[], [], {}, {}, [])
  }

  function Delivery(stage: WebhookAt): Task { Webhook(PAYMENT, stage, 0) }

  function Releaser(release: Release): Task { Releasing(0, Released, release, RecordPayment(PAYMENT)) }

  // ---------------------------------------------------------------- the run

  const RUN := [
    StartCheckout(7, None), RunTask(0, 0), RunTask(0, 0), RunTask(0, 0), RunTask(0, 0), RunTask(0, 0), RunTask(0, 0),
    RunTask(0, 0), RunTask(0, 0),
    StartWebhook(PAYMENT, 0), StartWebhook(PAYMENT, 0), RunTask(1, 0), RunTask(2, 0), RunTask(1, 0), RunTask(1, 0),
    RunTask(2, 0), RunTask(2, 0), RunTask(2, 0), RunTask(2, 0), RunTask(1, 0), RunTask(1, 0), RunTask(1, 0)]

  const S5 := Buying(Row(Reserved, None), [], Buyer(Validate, 0, None, UNDO))
  const S6 := Buying(Row(Reserved, None), [], Buyer(Create, Total(), None, UNDO))
  const S7 := Buying(Row(Reserved, None), [Some(Placed())], Buyer(Link, Total(), Some(0), UNDO_ALL))
  const S8 := Buying(Row(Reserved, Some(0)), [Some(Placed())], Buyer(ClearCart, Total(), Some(0), UNDO_ALL))
  const S9 := State(Shop(3, Row(Reserved, Some(0)), [Some(Placed())], [], []), [Finished], map[], [], {}, {}, [])
  const S10 := State(Shop(3, Row(Reserved, Some(0)), [Some(Placed())], [], []), [Finished, Delivery(Looking)], map[],
                     [], {}, {}, [])
  const S11 := Paying(3, Reserved, Placed(), [], Delivery(Looking), Delivery(Looking))
  const S12 := Paying(3, Reserved, Placed(), [], Delivery(Reading), Delivery(Looking))
  const S13 := Paying(3, Reserved, Placed(), [], Delivery(Reading), Delivery(Reading))
  const S14 := Paying(3, Reserved, Placed(), [], Delivery(Settling(Unpaid, Pending)), Delivery(Reading))
  const S15 := Paying(3, Reserved, Declined(), [], Releaser(Finding), Delivery(Reading))
  const S16 := Paying(3, Reserved, Declined(), [], Releaser(Finding), Delivery(Settling(Failed, Declined().status)))
  const S17 := Paying(3, Reserved, Declined(), [], Releaser(Finding), Releaser(Finding))
  const S18 := Paying(3, Reserved, Declined(), [], Releaser(Finding), Releaser(Listed([0])))
  const S19 := Paying(3, Released, Declined(), [], Releaser(Finding), Releaser(Owing(1, 2, [])))
  const S20 := Paying(3, Released, Declined(), [], Releaser(Listed([])), Releaser(Owing(1, 2, [])))
  const S21 := Paying(3, Released, Declined(), [], Delivery(Recording), Releaser(Owing(1, 2, [])))
  const S22 := Paying(3, Released, Declined(), [PAYMENT], Finished, Releaser(Owing(1, 2, [])))

  // ---------------------------------------------------------------- step by step

  lemma FreesLock()
    ensures Races.Locks() - {7} == map[]
  {
  }

  lemma ListsRow(db: Db)
    requires db.reservations == [Row(Reserved, Some(0))]
    ensures MoveRelease(db, Releaser(Finding)) == Move(Releaser(Listed([0])), Nothing)
  {
    assert FindActive(db.reservations, 0) == [0] by { assert db.reservations[..0] == []; }
  }

  lemma ListsNothing(db: Db)
    requires db.reservations == [Row(Released, Some(0))]
    ensures MoveRelease(db, Releaser(Finding)) == Move(Releaser(Listed([])), Nothing)
  {
    assert FindActive(db.reservations, 0) == [] by { assert db.reservations[..0] == []; }
  }

  lemma FinishesLines()
    ensures Step(Races.S4, RunTask(0, 0)) == S5
  {
  }

  lemma Validates()
    ensures Step(S5, RunTask(0, 0)) == S6
  {
  }

  lemma Places()
    ensures Step(S6, RunTask(0, 0)) == S7
  {
    assert UNDO + [RemoveOrder(0)] == UNDO_ALL;
    assert MoveCheckout(S6.db, 0, S6.tasks[0], 0)
           == Move(Buyer(Link, Total(), Some(0), UNDO_ALL), PlaceOrder(Placed()));
    assert S6.db.orders + [Some(Placed())] == [Some(Placed())];
  }

  lemma Links()
    ensures Step(S7, RunTask(0, 0)) == S8
  {
    assert LinkReservations(S7.db, [0], 0).reservations == [Row(Reserved, Some(0))];
  }

  lemma Ends()
    ensures Step(S8, RunTask(0, 0)) == S9
  {
    FreesLock();
  }

  lemma StartsFirst()
    ensures Step(S9, StartWebhook(PAYMENT, 0)) == S10
  {
    assert [Finished] + [Delivery(Looking)] == [Finished, Delivery(Looking)];
  }

  lemma StartsSecond()
    ensures Step(S10, StartWebhook(PAYMENT, 0)) == S11
  {
    assert [Finished, Delivery(Looking)] + [Delivery(Looking)] == [Finished, Delivery(Looking), Delivery(Looking)];
  }

  lemma FirstLooks()
    ensures Step(S11, RunTask(1, 0)) == S12
  {
  }

  lemma SecondLooks()
    ensures Step(S12, RunTask(2, 0)) == S13
  {
  }

  lemma FirstReads()
    ensures Step(S13, RunTask(1, 0)) == S14
  {
  }

  lemma FirstSettles()
    ensures Step(S14, RunTask(1, 0)) == S15
  {
    assert MoveWebhook(S14.db, S14.tasks[1])
        == Move(Releaser(Finding), ChangeOrder(0, Settle(Unpaid, Pending, Failed, EventType(Failed), 0)));
    assert S14.db.orders[0 := Some(Declined())] == [Some(Declined())];
  }

  lemma SecondReads()
    ensures Step(S15, RunTask(2, 0)) == S16
  {
  }

  lemma SecondSettles()
    ensures Step(S16, RunTask(2, 0)) == S17
  {
  }

  lemma SecondLists()
    ensures Step(S17, RunTask(2, 0)) == S18
  {
    ListsRow(S17.db);
    assert S17.tasks[2 := Releaser(Listed([0]))] == S18.tasks;
  }

  lemma SecondTakesOver()
    ensures Step(S18, RunTask(2, 0)) == S19
  {
    assert [0][1..] == [];
  }

  lemma FirstLists()
    ensures Step(S19, RunTask(1, 0)) == S20
  {
    ListsNothing(S19.db);
    assert S19.tasks[1 := Releaser(Listed([]))] == S20.tasks;
  }

  lemma FirstGoesOn()
    ensures Step(S20, RunTask(1, 0)) == S21
  {
  }

  lemma WritesRecord()
    ensures Step(S21, RunTask(1, 0)) == S22
  {
    assert !KnownEvent(S21.db, "card", "evt", "d");
    assert MoveWebhook(S21.db, S21.tasks[1]) == Move(Finished, AddPayment(PAYMENT));
  }

  // ---------------------------------------------------------------- and together

  lemma BuyerMovesAt(n: nat)
    requires n in {4, 5, 6, 7, 8}
    ensures n < |RUN| && RUN[n] == RunTask(0, 0)
  {
  }

  lemma BuyerMoves(n: nat, x: State, y: State)
    requires n in {4, 5, 6, 7, 8} && Leads(Races.S0, RUN, n, x) && Step(x, RunTask(0, 0)) == y
    ensures Leads(Races.S0, RUN, n + 1, y)
  {
    BuyerMovesAt(n);
    Onward(Races.S0, RUN, n, x, RunTask(0, 0), y);
  }

  lemma ArrivesAt(n: nat)
    requires n in {9, 10}
    ensures n < |RUN| && RUN[n] == StartWebhook(PAYMENT, 0)
  {
  }

  lemma Arrives(n: nat, x: State, y: State)
    requires n in {9, 10} && Leads(Races.S0, RUN, n, x) && Step(x, StartWebhook(PAYMENT, 0)) == y
    ensures Leads(Races.S0, RUN, n + 1, y)
  {
    ArrivesAt(n);
    Onward(Races.S0, RUN, n, x, StartWebhook(PAYMENT, 0), y);
  }

  lemma FirstMovesAt(n: nat)
    requires n in {11, 13, 14, 19, 20, 21}
    ensures n < |RUN| && RUN[n] == RunTask(1, 0)
  {
  }

  lemma FirstMoves(n: nat, x: State, y: State)
    requires n in {11, 13, 14, 19, 20, 21} && Leads(Races.S0, RUN, n, x) && Step(x, RunTask(1, 0)) == y
    ensures Leads(Races.S0, RUN, n + 1, y)
  {
    FirstMovesAt(n);
    Onward(Races.S0, RUN, n, x, RunTask(1, 0), y);
  }

  lemma SecondMovesAt(n: nat)
    requires n in {12, 15, 16, 17, 18}
    ensures n < |RUN| && RUN[n] == RunTask(2, 0)
  {
  }

  lemma SecondMoves(n: nat, x: State, y: State)
    requires n in {12, 15, 16, 17, 18} && Leads(Races.S0, RUN, n, x) && Step(x, RunTask(2, 0)) == y
    ensures Leads(Races.S0, RUN, n + 1, y)
  {
    SecondMovesAt(n);
    Onward(Races.S0, RUN, n, x, RunTask(2, 0), y);
  }

  lemma Reach4()
    ensures Leads(Races.S0, RUN, 4, Races.S4)
  {
    Races.Reach4();
    SameStart(Races.S0, Races.RUN, RUN, 4, Races.S4);
  }

  lemma Reach5()
    ensures Leads(Races.S0, RUN, 5, S5)
  {
    Reach4();
    FinishesLines();
    BuyerMoves(4, Races.S4, S5);
  }

  lemma Reach6()
    ensures Leads(Races.S0, RUN, 6, S6)
  {
    Reach5();
    Validates();
    BuyerMoves(5, S5, S6);
  }

  lemma Reach7()
    ensures Leads(Races.S0, RUN, 7, S7)
  {
    Reach6();
    Places();
    BuyerMoves(6, S6, S7);
  }

  lemma Reach8()
    ensures Leads(Races.S0, RUN, 8, S8)
  {
    Reach7();
    Links();
    BuyerMoves(7, S7, S8);
  }

  lemma Reach9()
    ensures Leads(Races.S0, RUN, 9, S9)
  {
    Reach8();
    Ends();
    BuyerMoves(8, S8, S9);
  }

  lemma Reach10()
    ensures Leads(Races.S0, RUN, 10, S10)
  {
    Reach9();
    StartsFirst();
    Arrives(9, S9, S10);
  }

  lemma Reach11()
    ensures Leads(Races.S0, RUN, 11, S11)
  {
    Reach10();
    StartsSecond();
    Arrives(10, S10, S11);
  }

  lemma Reach12()
    ensures Leads(Races.S0, RUN, 12, S12)
  {
    Reach11();
    FirstLooks();
    FirstMoves(11, S11, S12);
  }

  lemma Reach13()
    ensures Leads(Races.S0, RUN, 13, S13)
  {
    Reach12();
    SecondLooks();
    SecondMoves(12, S12, S13);
  }

  lemma Reach14()
    ensures Leads(Races.S0, RUN, 14, S14)
  {
    Reach13();
    FirstReads();
    FirstMoves(13, S13, S14);
  }

  lemma Reach15()
    ensures Leads(Races.S0, RUN, 15, S15)
  {
    Reach14();
    FirstSettles();
    FirstMoves(14, S14, S15);
  }

  lemma Reach16()
    ensures Leads(Races.S0, RUN, 16, S16)
  {
    Reach15();
    SecondReads();
    SecondMoves(15, S15, S16);
  }

  lemma Reach17()
    ensures Leads(Races.S0, RUN, 17, S17)
  {
    Reach16();
    SecondSettles();
    SecondMoves(16, S16, S17);
  }

  lemma Reach18()
    ensures Leads(Races.S0, RUN, 18, S18)
  {
    Reach17();
    SecondLists();
    SecondMoves(17, S17, S18);
  }

  lemma Reach19()
    ensures Leads(Races.S0, RUN, 19, S19)
  {
    Reach18();
    SecondTakesOver();
    SecondMoves(18, S18, S19);
  }

  lemma Reach20()
    ensures Leads(Races.S0, RUN, 20, S20)
  {
    Reach19();
    FirstLists();
    FirstMoves(19, S19, S20);
  }

  lemma Reach21()
    ensures Leads(Races.S0, RUN, 21, S21)
  {
    Reach20();
    FirstGoesOn();
    FirstMoves(20, S20, S21);
  }

  lemma Reach22()
    ensures Leads(Races.S0, RUN, 22, S22)
  {
    Reach21();
    WritesRecord();
    FirstMoves(21, S21, S22);
  }

  /** The event is on record, yet the next step of its other delivery moves the stock from three to five. */
  lemma ReturnsAfterRecord()
    ensures Opening(Races.S0)
    ensures var s := Steps(Races.S0, RUN);
            && s.db.payments == [PAYMENT] && s.touched == {} && |s.tasks| == 3 && Delivers(s.tasks[2], PAYMENT)
            && StockOf(s.db, 1) == 3 && StockOf(Step(s, RunTask(2, 0)).db, 1) == 5
  {
    Reach22();
    LeadsSteps(Races.S0, RUN, 22, S22);
    assert RUN[..22] == RUN;
  }
}
