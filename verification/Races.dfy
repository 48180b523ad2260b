/**
 * Where conservation is lost. Checkout's undo drops a reservation without looking at its status. If a
 * sweep has expired the row of a checkout that is still running (or, without transactions, a
 * cancellation has released it), the undo returns the same units to the shelf once more.
 */
module Races {
  import opened Wrappers
  import opened Orders
  import opened Store
  import opened Protocol
  import opened Conservation
  import opened Runs
  import Pricing

  /** Two of five units in the cart of user 7; the states below follow one unlucky checkout. */
  function Shop(stock: int, rows: seq<Reservation>): Db {
    Db(map[1 := Product(stock, 10.0, true)], rows, [], map[], [], [], [], map[7 := [Line(1, 2)]])
  }

  function Row(status: ReservationStatus): Reservation {
    Reservation(0, 7, 1, 2, status, None, RESERVATION_WINDOW)
  }

  function Buyer(at: CheckoutAt, undo: seq<Undo>): Task {
    var cents := Pricing.ToCents(10.0);
    Checkout(7, None, at, [Line(1, 2)], RESERVATION_WINDOW, cents, [Item(1, 2, cents)], [0], 0, None, undo)
  }

  const UNITS := ReturnUnits(1, 2)
  const DROP := DropReservation(0)

  function Locks(): map<int, nat> { map[7 := 0] }

  function Starting(): Task {
    Checkout(7, None, ReadCart, [], 0, 0, [], [], 0, None, [])
  }

  function Shopping(): Task {
    Checkout(7, None, Take, [Line(1, 2)], RESERVATION_WINDOW, 0, [], [], 0, None, [])
  }

  function Carrying(): Task {
    Checkout(7, None, Insert, [Line(1, 2)], RESERVATION_WINDOW, Pricing.ToCents(10.0), [], [], 0, None, [UNITS])
  }

  function Sweeper(rest: seq<Expiry>, owed: Option<Line>): Task {
    Sweeping(Sweep(RESERVATION_WINDOW, rest, {}), owed)
  }

  const S0 := State(Shop(5, []), [], map[], [], {}, {}, [])
  const S1 := State(Shop(5, []), [Starting()], Locks(), [], {}, {}, [])
  const S2 := State(Shop(5, []), [Shopping()], Locks(), [], {}, {}, [])
  const S3 := State(Shop(3, []), [Carrying()], Locks(), [], {}, {}, [])
  const S4 := State(Shop(3, [Row(Reserved)]), [Buyer(Take, [UNITS, DROP])], Locks(), [], {}, {}, [])
  const S5 := State(Shop(3, [Row(Reserved)]), [Buyer(Take, [UNITS, DROP]), Sweeper([Expiry(0, None)], None)], Locks(),
                    [], {0}, {}, [])
  const S6 := State(Shop(3, [Row(Expired)]), [Buyer(Take, [UNITS, DROP]), Sweeper([], Some(Line(1, 2)))], Locks(), [],
                    {0}, {}, [])
  const S7 := State(Shop(5, [Row(Expired)]), [Buyer(Take, [UNITS, DROP]), Sweeper([], None)], Locks(), [], {0}, {}, [])

  const S8 := State(Shop(5, [Row(Expired)]), [Buyer(Undoing, [UNITS, DROP]), Sweeper([], None)], Locks(), [], {0}, {},
                    [])
  const S9 := State(Shop(5, [Row(Released)]), [Buyer(Undoing, [UNITS]), Sweeper([], None)], Locks(), [Line(1, 2)], {0},
                    {}, [])
  const S10 := State(Shop(7, [Row(Released)]), [Buyer(Undoing, []), Sweeper([], None)], Locks(), [Line(1, 2)], {0}, {},
                     [])

  lemma Starts()
    ensures Step(S0, StartCheckout(7, None)) == S1
  {
    assert S0.tasks + [Starting()] == [Starting()];
  }

  lemma ReadsCart()
    ensures Step(S1, RunTask(0, 0)) == S2
  {
    assert S1.tasks[0 := Shopping()] == [Shopping()];
    assert S1.extra + [] == [];
  }

  lemma TakesUnits()
    ensures Step(S2, RunTask(0, 0)) == S3
  {
    var k := Shopping();
    var k' := Carrying();
    assert k.undo + [UNITS] == [UNITS];
    var m := MoveCheckout(S2.db, 0, k, 0);
    assert m == Move(k', Shelve(1, -2));
    assert Effected(S2.db, m.effect) == S3.db;
    assert S2.tasks[0 := k'] == [k'];
  }

  lemma Reserves()
    ensures Step(S3, RunTask(0, 0)) == S4
  {
    var k := S3.tasks[0];
    var m := MoveCheckout(S3.db, 0, k, 0);
    assert k.undo + [DROP] == [UNITS, DROP] && k.held + [0] == [0];
    assert m.next == Buyer(Take, [UNITS, DROP]) && m.effect == AddRow(Row(Reserved));
    assert S3.db.reservations + [Row(Reserved)] == [Row(Reserved)];
    assert S3.tasks[0 := m.next] == [m.next];
  }

  lemma SweepStarts()
    ensures Step(S4, StartSweep(RESERVATION_WINDOW, [0])) == S5
  {
    assert Expiries(S4.db, [0]) == [Expiry(0, None)];
    assert Unlinked(S4, [0]) == {0} by { assert [0][0] == 0; assert InFlight(S4, 0); }
    assert S4.tasks + [Sweeper([Expiry(0, None)], None)] == S5.tasks;
  }

  lemma SweepExpires()
    ensures Step(S5, RunTask(1, 0)) == S6
  {
    var m := MoveSweep(S5.db, S5.tasks[1]);
    assert [Expiry(0, None)][1..] == [];
    assert m == Move(Sweeper([], Some(Line(1, 2))), FlipRow(0, Expired));
    assert S5.db.reservations[0 := Row(Expired)] == [Row(Expired)];
    assert S5.tasks[1 := m.next] == S6.tasks;
  }

  lemma SweepReturns()
    ensures Step(S6, RunTask(1, 0)) == S7
  {
    var m := MoveSweep(S6.db, S6.tasks[1]);
    assert m == Move(Sweeper([], None), Shelve(1, 2));
    assert S6.tasks[1 := m.next] == S7.tasks;
  }

  lemma Fails()
    ensures Step(S7, FailTask(0)) == S8
  {
    assert S7.tasks[0 := Buyer(Undoing, [UNITS, DROP])] == S8.tasks;
    assert S7.extra + [] == S8.extra;
  }

  lemma DropsRow()
    ensures Step(S8, RunTask(0, 0)) == S9
  {
    assert [UNITS, DROP][..1] == [UNITS];
    assert S8.db.reservations[0 := Row(Released)] == [Row(Released)];
    assert S8.tasks[0 := Buyer(Undoing, [UNITS])] == S9.tasks;
    assert S8.extra + [Line(1, 2)] == S9.extra;
  }

  lemma ReturnsAgain()
    ensures Step(S9, RunTask(0, 0)) == S10
  {
    assert [UNITS][..0] == [];
    assert S9.tasks[0 := Buyer(Undoing, [])] == S10.tasks;
  }

  // ---------------------------------------------------------------- the run

  const RUN := [
    StartCheckout(7, None), RunTask(0, 0), RunTask(0, 0), RunTask(0, 0),
    StartSweep(RESERVATION_WINDOW, [0]), RunTask(1, 0), RunTask(1, 0),
    FailTask(0), RunTask(0, 0), RunTask(0, 0)]

  lemma ArrivesAt(n: nat)
    requires n in {0}
    ensures n < |RUN| && RUN[n] == StartCheckout(7, None)
  {
  }

  lemma Arrives(n: nat, x: State, y: State)
    requires n in {0} && Leads(S0, RUN, n, x) && Step(x, StartCheckout(7, None)) == y
    ensures Leads(S0, RUN, n + 1, y)
  {
    ArrivesAt(n);
    Onward(S0, RUN, n, x, StartCheckout(7, None), y);
  }

  lemma BuyerMovesAt(n: nat)
    requires n in {1, 2, 3, 8, 9}
    ensures n < |RUN| && RUN[n] == RunTask(0, 0)
  {
  }

  lemma BuyerMoves(n: nat, x: State, y: State)
    requires n in {1, 2, 3, 8, 9} && Leads(S0, RUN, n, x) && Step(x, RunTask(0, 0)) == y
    ensures Leads(S0, RUN, n + 1, y)
  {
    BuyerMovesAt(n);
    Onward(S0, RUN, n, x, RunTask(0, 0), y);
  }

  lemma SweepArrivesAt(n: nat)
    requires n in {4}
    ensures n < |RUN| && RUN[n] == StartSweep(RESERVATION_WINDOW, [0])
  {
  }

  lemma SweepArrives(n: nat, x: State, y: State)
    requires n in {4} && Leads(S0, RUN, n, x) && Step(x, StartSweep(RESERVATION_WINDOW, [0])) == y
    ensures Leads(S0, RUN, n + 1, y)
  {
    SweepArrivesAt(n);
    Onward(S0, RUN, n, x, StartSweep(RESERVATION_WINDOW, [0]), y);
  }

  lemma SweeperMovesAt(n: nat)
    requires n in {5, 6}
    ensures n < |RUN| && RUN[n] == RunTask(1, 0)
  {
  }

  lemma SweeperMoves(n: nat, x: State, y: State)
    requires n in {5, 6} && Leads(S0, RUN, n, x) && Step(x, RunTask(1, 0)) == y
    ensures Leads(S0, RUN, n + 1, y)
  {
    SweeperMovesAt(n);
    Onward(S0, RUN, n, x, RunTask(1, 0), y);
  }

  lemma BuyerFailsAt(n: nat)
    requires n in {7}
    ensures n < |RUN| && RUN[n] == FailTask(0)
  {
  }

  lemma BuyerFails(n: nat, x: State, y: State)
    requires n in {7} && Leads(S0, RUN, n, x) && Step(x, FailTask(0)) == y
    ensures Leads(S0, RUN, n + 1, y)
  {
    BuyerFailsAt(n);
    Onward(S0, RUN, n, x, FailTask(0), y);
  }

  lemma Reach1()
    ensures Leads(S0, RUN, 1, S1)
  {
    Stays(S0, RUN);
    Starts();
    Arrives(0, S0, S1);
  }

  lemma Reach2()
    ensures Leads(S0, RUN, 2, S2)
  {
    Reach1();
    ReadsCart();
    BuyerMoves(1, S1, S2);
  }

  lemma Reach3()
    ensures Leads(S0, RUN, 3, S3)
  {
    Reach2();
    TakesUnits();
    BuyerMoves(2, S2, S3);
  }

  lemma Reach4()
    ensures Leads(S0, RUN, 4, S4)
  {
    Reach3();
    Reserves();
    BuyerMoves(3, S3, S4);
  }

  lemma Reach5()
    ensures Leads(S0, RUN, 5, S5)
  {
    Reach4();
    SweepStarts();
    SweepArrives(4, S4, S5);
  }

  lemma Reach6()
    ensures Leads(S0, RUN, 6, S6)
  {
    Reach5();
    SweepExpires();
    SweeperMoves(5, S5, S6);
  }

  lemma Reach7()
    ensures Leads(S0, RUN, 7, S7)
  {
    Reach6();
    SweepReturns();
    SweeperMoves(6, S6, S7);
  }

  lemma Reach8()
    ensures Leads(S0, RUN, 8, S8)
  {
    Reach7();
    Fails();
    BuyerFails(7, S7, S8);
  }

  lemma Reach9()
    ensures Leads(S0, RUN, 9, S9)
  {
    Reach8();
    DropsRow();
    BuyerMoves(8, S8, S9);
  }

  lemma Reach10()
    ensures Leads(S0, RUN, 10, S10)
  {
    Reach9();
    ReturnsAgain();
    BuyerMoves(9, S9, S10);
  }

  /** A run of ten actions from a shop with five units to one with seven on the shelf. */
  lemma ReturnedTwiceHappens()
    ensures Opening(S0) && StockOf(S0.db, 1) == 5
    ensures StockOf(Steps(S0, RUN).db, 1) == 7 && ReturnedTwice(Steps(S0, RUN), 1) == 2
  {
    Reach10();
    LeadsSteps(S0, RUN, 10, S10);
    assert RUN[..10] == RUN;
    assert [Line(1, 2)][..0] == [];
  }
}
