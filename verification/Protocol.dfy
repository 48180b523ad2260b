/**
 * The order, stock and payment protocol as a step system.
 *
 * A state is the database plus the requests under way. Each request is a task that remembers where it
 * is; running a task decides, from the database as it is now, on one call (its effect) and on where the
 * task goes next. Any task may run next, so every interleaving of cart edits, checkouts, cancellations,
 * refund requests, webhooks, sweeps and shipment updates is a list of actions. A database transaction is
 * a block of such actions with nothing in between, so what holds after every action holds with and
 * without transactions.
 *
 * `extra`, `touched`, `overran` and `dropped` are bookkeeping that no step reads: units returned to
 * stock a second time by a checkout's unguarded undo, checkouts whose rows somebody else changed while
 * they were still running, users whose checkout outlived its lock, and refund events lost to an error.
 */
module Protocol {
  import opened Wrappers
  import opened Orders
  import opened Store
  import Pricing

  // ---------------------------------------------------------------- requests

  datatype Release =
    | Finding
    | Listed(todo: seq<nat>)
    | Owing(product: int, quantity: Quantity, todo: seq<nat>)

  datatype Sweep = Sweep(now: int, rest: seq<Expiry>, handled: set<nat>)

  datatype Afterwards =
    | TellCancelled(refund: bool)
    | RecordPayment(event: PaymentEvent)
    | KeepSweeping(sweep: Sweep, tell: bool)

  datatype CheckoutAt = ReadCart | Take | Insert | Validate | Claim | Create | Link | Redeem | ClearCart | Undoing

  datatype WebhookAt =
    | Looking
    | Reading
    | Settling(payment: PaymentStatus, status: OrderStatus)
    | Committing
    | Recording

  datatype Task =
    | Finished
    | Checkout(user: int, coupon: Option<int>, at: CheckoutAt, lines: seq<Line>, deadline: int, unitCents: int,
               items: seq<Item>, held: seq<nat>, totalCents: int, placed: Option<nat>, undo: seq<Undo>)
    | Cancelling(order: nat, paid: bool, time: int)
    | AskingRefund(order: nat, time: int, windowStart: int)
    | Webhook(event: PaymentEvent, stage: WebhookAt, time: int)
    | Releasing(order: nat, to: ReservationStatus, release: Release, after: Afterwards)
    | Telling(order: nat, cancelled: bool, refund: bool)
    | Sweeping(sweep: Sweep, owed: Option<Line>)
    | SweepLooking(order: nat, sweep: Sweep)
    | SweepCommitting(order: nat, sweep: Sweep)
    | Shipping(order: nat, next: OrderStatus, time: int)
    | Filling(user: int, lines: seq<Line>)

  datatype State = State(
    db: Db, tasks: seq<Task>, locks: map<int, nat>,
    extra: seq<Line>, touched: set<nat>, overran: set<int>, dropped: seq<nat>)

  datatype Action =
    | StartCheckout(user: int, coupon: Option<int>)
    | StartCancel(order: nat, time: int)
    | StartRefund(order: nat, time: int, windowStart: int)
    | StartWebhook(event: PaymentEvent, time: int)
    | StartSweep(now: int, batch: seq<nat>)
    | RunTask(task: nat, now: int)
    | FailTask(task: nat)
    | StartShip(order: nat, next: OrderStatus, time: int)
    | StartFill(user: int, lines: seq<Line>)
    | LockTimeout(user: int)

  // ---------------------------------------------------------------- effects

  /** The one database call of a step. */
  datatype Effect =
    | Nothing
    | Shelve(product: int, delta: int)
    | AddRow(row: Reservation)
    | FlipRow(id: nat, to: ReservationStatus)
    | DropRow(id: nat)
    | CommitRows(order: nat)
    | LinkRows(ids: seq<nat>, order: nat)
    | UseCoupon(coupon: int)
    | ReturnCoupon(coupon: int)
    | PlaceOrder(placedOrder: Order)
    | DeleteOrderRow(id: nat)
    | ChangeOrder(id: nat, update: Update)
    | AddRedemption(redemption: Redemption)
    | SetCart(user: int, lines: seq<Line>)
    | AddEvent(event: DomainEvent)
    | AddPayment(payment: PaymentEvent)

  function Effected(db: Db, e: Effect): Db {
    match e
    case Nothing => db
    case Shelve(p, delta) => AddStock(db, p, delta)
    case AddRow(row) => db.(reservations := db.reservations + [row])
    case FlipRow(id, to) => SetStatus(db, id, to)
    case DropRow(id) => UndoOne(db, DropReservation(id))
    case CommitRows(o) => CommitReservations(db, o)
    case LinkRows(ids, o) => LinkReservations(db, ids, o)
    case UseCoupon(c) => AddUse(db, c, 1)
    case ReturnCoupon(c) => UndoOne(db, ReturnUse(c))
    case PlaceOrder(o) => InsertOrder(db, o)
    case DeleteOrderRow(id) => UndoOne(db, RemoveOrder(id))
    case ChangeOrder(id, u) => UpdateOrder(db, id, u)
    case AddRedemption(r) => db.(redemptions := db.redemptions + [r])
    case SetCart(user, lines) => db.(carts := db.carts[user := lines])
    case AddEvent(e) => InsertEvent(db, e)
    case AddPayment(e) => InsertPayment(db, e)
  }

  /** An undo call as an effect. */
  function UndoEffect(u: Undo): Effect {
    match u
    case ReturnUnits(p, q) => Shelve(p, q)
    case DropReservation(id) => DropRow(id)
    case ReturnUse(c) => ReturnCoupon(c)
    case RemoveOrder(id) => DeleteOrderRow(id)
  }

  datatype Move = Move(next: Task, effect: Effect)

  // ---------------------------------------------------------------- checkout

  function MoveCheckout(db: Db, t: nat, k: Task, now: int): Move
    requires k.Checkout?
  {
    match k.at
    case ReadCart =>
      var lines := CartOf(db, k.user);
      if lines == [] then Move(k.(at := Undoing), Nothing)
      else Move(k.(at := Take, lines := lines, deadline := now + RESERVATION_WINDOW), Nothing)
    case Take =>
      if |k.held| >= |k.lines| then Move(k.(at := Validate), Nothing)
      else
        var line := k.lines[|k.held|];
        if CanTake(db, line.product, line.quantity) then
          Move(k.(at := Insert,
                  unitCents := Pricing.ToCents(db.products[line.product].price),
                  undo := k.undo + [ReturnUnits(line.product, line.quantity)]),
               Shelve(line.product, -(line.quantity as int)))
        else Move(k.(at := Undoing), Nothing)
    case Insert =>
      if |k.held| >= |k.lines| then Move(k, Nothing)
      else
        var line := k.lines[|k.held|];
        var id := |db.reservations|;
        Move(k.(at := Take,
                held := k.held + [id],
                items := k.items + [Item(line.product, line.quantity, k.unitCents)],
                undo := k.undo + [DropReservation(id)]),
             AddRow(Reservation(t, k.user, line.product, line.quantity, Reserved, None, k.deadline)))
    case Validate =>
      var subtotal := Subtotal(k.items);
      (match ValidateCoupon(db, k.coupon, k.user, subtotal, now)
       case Err(_) => Move(k.(at := Undoing), Nothing)
       case Ok(discount) =>
         Move(k.(at := if k.coupon.Some? then Claim else Create, totalCents := Pricing.Max(subtotal - discount, 0)),
              Nothing))
    case Claim =>
      if k.coupon.Some? && CanClaim(db, k.coupon.value) then
        Move(k.(at := Create, undo := k.undo + [ReturnUse(k.coupon.value)]), UseCoupon(k.coupon.value))
      else Move(k.(at := Undoing), Nothing)
    case Create =>
      var id := |db.orders|;
      Move(k.(at := Link, placed := Some(id), undo := k.undo + [RemoveOrder(id)]),
           PlaceOrder(NewOrder(t, k.user, k.items, k.coupon, k.totalCents, now)))
    case Link =>
      if k.placed.None? then Move(k, Nothing)
      else Move(k.(at := if k.coupon.Some? then Redeem else ClearCart), LinkRows(k.held, k.placed.value))
    case Redeem =>
      if k.placed.None? || k.coupon.None? then Move(k, Nothing)
      else Move(k.(at := ClearCart), AddRedemption(Redemption(k.coupon.value, k.user, k.placed.value)))
    case ClearCart => Move(Finished, SetCart(k.user, []))
    case Undoing =>
      if k.undo == [] then Move(Finished, Nothing)
      else Move(k.(undo := k.undo[..|k.undo| - 1]), UndoEffect(k.undo[|k.undo| - 1]))
  }

  // ---------------------------------------------------------------- releasing an order's reservations

  function Continue(o: nat, after: Afterwards): Move {
    match after
    case TellCancelled(refund) => Move(Telling(o, true, refund), Nothing)
    case RecordPayment(e) => Move(Webhook(e, Recording, 0), Nothing)
    case KeepSweeping(sweep, tell) =>
      Move(Sweeping(sweep, None), if tell then AddEvent(DomainEvent(OrderCancelled, o)) else Nothing)
  }

  function MoveRelease(db: Db, k: Task): Move
    requires k.Releasing?
  {
    match k.release
    case Finding => Move(k.(release := Listed(FindActive(db.reservations, k.order))), Nothing)
    case Listed(todo) =>
      if todo == [] then Continue(k.order, k.after)
      else if CanFlip(db, todo[0], ACTIVE) then
        var row := db.reservations[todo[0]];
        Move(k.(release := Owing(row.product, row.quantity, todo[1..])), FlipRow(todo[0], k.to))
      else Move(k.(release := Listed(todo[1..])), Nothing)
    case Owing(p, q, todo) => Move(k.(release := Listed(todo)), Shelve(p, q))
  }

  // ---------------------------------------------------------------- cancel, refund, shipment, events, webhook

  function MoveCancel(db: Db, k: Task): Move
    requires k.Cancelling?
  {
    var u := if k.paid then CancelPaid(k.time) else CancelUnpaid(k.time);
    if CanUpdate(db, k.order, u) then
      Move(Releasing(k.order, Released, Finding, TellCancelled(k.paid)), ChangeOrder(k.order, u))
    else Move(if k.paid then Finished else k.(paid := true), Nothing)
  }

  function MoveAskRefund(db: Db, k: Task): Move
    requires k.AskingRefund?
  {
    var u := RequestRefund(k.time, k.windowStart);
    if CanUpdate(db, k.order, u) then Move(Telling(k.order, false, true), ChangeOrder(k.order, u))
    else Move(Finished, Nothing)
  }

  function MoveShip(db: Db, k: Task): Move
    requires k.Shipping?
  {
    var u := Advance(k.next, k.time);
    Move(Finished, if Admissible(u) && CanUpdate(db, k.order, u) then ChangeOrder(k.order, u) else Nothing)
  }

  function MoveTell(k: Task): Move
    requires k.Telling?
  {
    if k.cancelled then Move(k.(cancelled := false), AddEvent(DomainEvent(OrderCancelled, k.order)))
    else Move(Finished, if k.refund then AddEvent(DomainEvent(RefundWasRequested, k.order)) else Nothing)
  }

  /** After the order has the outcome: commit its reservations, or release them. */
  function Settled(e: PaymentEvent, time: int): Task {
    if e.target == Paid then Webhook(e, Committing, time)
    else Releasing(e.order, Released, Finding, RecordPayment(e))
  }

  function MoveWebhook(db: Db, k: Task): Move
    requires k.Webhook?
  {
    var e := k.event;
    match k.stage
    case Looking =>
      Move(if KnownEvent(db, e.provider, e.eventId, e.digest) then Finished else k.(stage := Reading), Nothing)
    case Reading =>
      (match OrderAt(db, e.order)
       case None => Move(Finished, Nothing)
       case Some(o) =>
         if o.status == Cancelled && e.target == Paid then Move(Finished, Nothing)
         else if !CanTransitionPayment(o.payment, e.target) then Move(Finished, Nothing)
         else Move(k.(stage := Settling(o.payment, o.status)), Nothing))
    case Settling(payment, status) =>
      var u := Settle(payment, status, e.target, EventType(e.target), k.time);
      if payment == e.target then Move(Settled(e, k.time), Nothing)
      else if CanUpdate(db, e.order, u) then Move(Settled(e, k.time), ChangeOrder(e.order, u))
      else Move(Finished, Nothing)
    case Committing => Move(k.(stage := Recording), CommitRows(e.order))
    case Recording =>
      Move(Finished, if KnownEvent(db, e.provider, e.eventId, e.digest) then Nothing else AddPayment(e))
  }

  // ---------------------------------------------------------------- the sweeper

  function MoveSweep(db: Db, k: Task): Move
    requires k.Sweeping?
  {
    var w := k.sweep;
    if k.owed.Some? then Move(k.(owed := None), Shelve(k.owed.value.product, k.owed.value.quantity))
    else if w.rest == [] then Move(Finished, Nothing)
    else
      var x := w.rest[0];
      var next := w.(rest := w.rest[1..]);
      if x.order.None? then
        if CanFlip(db, x.id, {Reserved}) then
          var row := db.reservations[x.id];
          Move(Sweeping(next, Some(Line(row.product, row.quantity))), FlipRow(x.id, Expired))
        else Move(Sweeping(next, None), Nothing)
      else
        var o := x.order.value;
        var marked := next.(handled := w.handled + {o});
        if o in w.handled then Move(Sweeping(next, None), Nothing)
        else if CanUpdate(db, o, ExpireUnpaid(w.now)) then
          Move(Releasing(o, Expired, Finding, KeepSweeping(marked, true)), ChangeOrder(o, ExpireUnpaid(w.now)))
        else Move(SweepLooking(o, marked), Nothing)
  }

  function MoveSweepLook(db: Db, k: Task): Move
    requires k.SweepLooking?
  {
    match OrderAt(db, k.order)
    case None => Move(Releasing(k.order, Expired, Finding, KeepSweeping(k.sweep, false)), Nothing)
    case Some(o) =>
      var captured := o.payment == Paid || o.payment == Authorized;
      Move(if captured then SweepCommitting(k.order, k.sweep) else Sweeping(k.sweep, None), Nothing)
  }

  // ---------------------------------------------------------------- steps

  function NextMove(db: Db, t: nat, k: Task, now: int): Move {
    match k
    case Finished => Move(k, Nothing)
    case Checkout(_, _, _, _, _, _, _, _, _, _, _) => MoveCheckout(db, t, k, now)
    case Cancelling(_, _, _) => MoveCancel(db, k)
    case AskingRefund(_, _, _) => MoveAskRefund(db, k)
    case Webhook(_, _, _) => MoveWebhook(db, k)
    case Releasing(_, _, _, _) => MoveRelease(db, k)
    case Telling(_, _, _) => MoveTell(k)
    case Sweeping(_, _) => MoveSweep(db, k)
    case SweepLooking(_, _) => MoveSweepLook(db, k)
    case SweepCommitting(o, sweep) => Move(Sweeping(sweep, None), CommitRows(o))
    case Shipping(_, _, _) => MoveShip(db, k)
    case Filling(user, lines) => Move(Finished, SetCart(user, lines))
  }

  /**
   * The next call throws. Checkout turns to its undo list; a request that has claimed nothing yet, or
   * has only its records left to write, just ends. A release or a sweep is not interrupted.
   */
  function FailedTask(k: Task): Task {
    match k
    case Checkout(_, _, _, _, _, _, _, _, _, _, _) => k.(at := Undoing)
    case Releasing(_, _, _, _) => k
    case Sweeping(_, _) => k
    case SweepLooking(_, _) => k
    case SweepCommitting(_, _) => k
    case _ => Finished
  }

  predicate InFlight(s: State, checkout: nat) {
    checkout < |s.tasks| && s.tasks[checkout].Checkout?
  }

  /** The checkout, still running, whose rows an effect of another request changes. */
  function Disturbed(s: State, e: Effect): set<nat> {
    var owner :=
      match e
      case FlipRow(id, _) => if id < |s.db.reservations| then Some(s.db.reservations[id].checkout) else None
      case ChangeOrder(id, _) => if OrderAt(s.db, id).Some? then Some(OrderAt(s.db, id).value.checkout) else None
      case _ => None;
    if owner.Some? && InFlight(s, owner.value) then {owner.value} else {}
  }

  /** What an undo call makes the checkout return although somebody else already has. */
  function Surplus(db: Db, e: Effect): seq<Line> {
    if e.DropRow? && e.id < |db.reservations| && !Active(db.reservations[e.id])
    then [Line(db.reservations[e.id].product, db.reservations[e.id].quantity)]
    else []
  }

  /** A checkout that ends frees its lock, unless a later request already owns it. */
  function LocksAfter(s: State, t: nat, next: Task): map<int, nat>
    requires t < |s.tasks|
  {
    var k := s.tasks[t];
    if k.Checkout? && next.Finished? && k.user in s.locks && s.locks[k.user] == t then s.locks - {k.user} else s.locks
  }

  function Perform(s: State, t: nat, m: Move): State
    requires t < |s.tasks|
  {
    State(Effected(s.db, m.effect), s.tasks[t := m.next], LocksAfter(s, t, m.next),
          s.extra + Surplus(s.db, m.effect), s.touched + Disturbed(s, m.effect), s.overran, s.dropped)
  }

  function Start(s: State, k: Task): State {
    s.(tasks := s.tasks + [k])
  }

  /** A sweep that lists a row no order is linked to yet has caught its checkout being too slow. */
  function Unlinked(s: State, batch: seq<nat>): set<nat> {
    set i | 0 <= i < |batch| && batch[i] < |s.db.reservations| && s.db.reservations[batch[i]].order.None?
            && InFlight(s, s.db.reservations[batch[i]].checkout) :: s.db.reservations[batch[i]].checkout
  }

  function Step(s: State, a: Action): State {
    match a
    case StartCheckout(user, coupon) =>
      if user in s.locks then s
      else
        Start(s, Checkout(user, coupon, ReadCart, [], 0, 0, [], [], 0, None, [])).(locks := s.locks[user := |s.tasks|])
    case StartCancel(o, time) => Start(s, Cancelling(o, false, time))
    case StartRefund(o, time, windowStart) => Start(s, AskingRefund(o, time, windowStart))
    case StartWebhook(e, time) =>
      if e.target in {Paid, Failed, Refunded} then Start(s, Webhook(e, Looking, time)) else s
    case StartSweep(now, batch) =>
      if IsBatch(s.db, now, batch) then
        Start(s, Sweeping(Sweep(now, Expiries(s.db, batch), {}), None)).(touched := s.touched + Unlinked(s, batch))
      else s
    case StartShip(o, next, time) => Start(s, Shipping(o, next, time))
    case StartFill(user, lines) => Start(s, Filling(user, lines))
    case RunTask(t, now) => if t < |s.tasks| then Perform(s, t, NextMove(s.db, t, s.tasks[t], now)) else s
    case FailTask(t) =>
      if t < |s.tasks| then
        var k := s.tasks[t];
        Perform(s, t, Move(FailedTask(k), Nothing))
        .(dropped := if k.Telling? && k.refund then s.dropped + [k.order] else s.dropped)
      else s
    case LockTimeout(user) =>
      if user in s.locks then s.(locks := s.locks - {user}, overran := s.overran + {user}) else s
  }

  /** Actions other than a task's own leave the database alone and add at most one task. */
  lemma StartsOnly(s: State, a: Action)
    requires !a.RunTask? && !a.FailTask?
    ensures var s' := Step(s, a);
            && s'.db == s.db && s'.extra == s.extra && s'.dropped == s.dropped && s.overran <= s'.overran
            && (s'.tasks == s.tasks || (|s'.tasks| == |s.tasks| + 1 && s'.tasks == s.tasks + [s'.tasks[|s.tasks|]]
                                        && Begins(s'.tasks[|s.tasks|])))
  {
  }

  /** A request that has done nothing yet. */
  predicate Begins(k: Task) {
    match k
    case Checkout(_, _, at, lines, _, _, items, held, _, placed, undo) =>
      at == ReadCart && lines == [] && items == [] && held == [] && placed == None && undo == []
    case Cancelling(_, paid, _) => !paid
    case AskingRefund(_, _, _) => true
    case Webhook(_, stage, _) => stage == Looking
    case Sweeping(_, owed) => owed == None
    case Shipping(_, _, _) => true
    case Filling(_, _) => true
    case _ => false
  }

  function Steps(s: State, actions: seq<Action>): State {
    if actions == [] then s else Step(Steps(s, actions[..|actions| - 1]), actions[|actions| - 1])
  }

  /** A shop before its first order: products and coupons are set up, nothing is under way. */
  predicate Opening(s: State) {
    && s.db.reservations == [] && s.db.orders == [] && s.db.redemptions == [] && s.db.payments == []
    && s.db.events == []
    && s.tasks == [] && s.locks == map[] && s.extra == [] && s.touched == {} && s.overran == {} && s.dropped == []
    && (forall p :: p in s.db.products ==> 0 <= s.db.products[p].stock)
    && (forall c :: c in s.db.coupons ==>
          s.db.coupons[c].usedCount == 0 <= s.db.coupons[c].usageLimit && 0 <= s.db.coupons[c].perUserLimit)
  }
}
