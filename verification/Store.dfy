/**
 * The collections and the atomic calls made on them. Row ids are positions: rows are appended, an
 * order may be deleted but its id is never reused, and a reservation is never deleted. One tenant is
 * modelled; every query of the source is confined to one.
 */
module Store {
  import opened Wrappers
  import opened Orders
  import opened Sums
  import Pricing

  datatype ReservationStatus = Reserved | Committed | Released | Expired

  /** `checkout` is the request that wrote the row. */
  datatype Reservation = Reservation(
    checkout: nat, user: int, product: int, quantity: Quantity, status: ReservationStatus, order: Option<nat>,
      expiresAt: int)

  datatype Product = Product(stock: int, price: real, available: bool)

  datatype Coupon = Coupon(
    terms: Pricing.Terms, usageLimit: int, perUserLimit: int, usedCount: int,
    startsAt: Option<int>, expiresAt: Option<int>, active: bool)

  datatype Redemption = Redemption(coupon: int, user: int, order: nat)

  datatype Line = Line(product: int, quantity: Quantity)

  datatype EventKind = OrderCancelled | RefundWasRequested

  datatype DomainEvent = DomainEvent(kind: EventKind, order: nat)

  datatype PaymentEvent = PaymentEvent(provider: string, eventId: string, digest: string, order: nat,
                                       target: PaymentStatus)

  datatype Db = Db(
    products: map<int, Product>,
    reservations: seq<Reservation>,
    orders: seq<Option<Order>>,
    coupons: map<int, Coupon>,
    redemptions: seq<Redemption>,
    payments: seq<PaymentEvent>,
    events: seq<DomainEvent>,
    carts: map<int, seq<Line>>)

  const RESERVATION_WINDOW := 15 * 60 * 1000

  function LineCents(): Item -> int {
    (i: Item) => i.unitCents * i.quantity
  }

  function Subtotal(items: seq<Item>): int {
    Sum(items, LineCents())
  }

  // ---------------------------------------------------------------- products

  /** The guarded decrement of checkout. */
  predicate CanTake(db: Db, product: int, quantity: int) {
    product in db.products && db.products[product].available && quantity <= db.products[product].stock
  }

  function AddStock(db: Db, product: int, quantity: int): Db {
    if product in db.products then
      var row := db.products[product];
      db.(products := db.products[product := row.(stock := row.stock + quantity)])
    else
      db
  }

  function StockOf(db: Db, product: int): int {
    if product in db.products then db.products[product].stock else 0
  }

  // ---------------------------------------------------------------- carts

  function CartOf(db: Db, user: int): seq<Line> {
    if user in db.carts then db.carts[user] else []
  }

  // ---------------------------------------------------------------- reservations

  const ACTIVE := {Reserved, Committed}

  predicate Active(r: Reservation) {
    r.status in ACTIVE
  }

  predicate CanFlip(db: Db, id: nat, from: set<ReservationStatus>) {
    id < |db.reservations| && db.reservations[id].status in from
  }

  function SetStatus(db: Db, id: nat, to: ReservationStatus): Db {
    if id < |db.reservations| then
      db.(reservations := db.reservations[id := db.reservations[id].(status := to)])
    else
      db
  }

  function Committing(r: Reservation, order: nat): Reservation {
    if r.order == Some(order) && r.status == Reserved then r.(status := Committed) else r
  }

  function CommitReservations(db: Db, order: nat): Db {
    db.(reservations := seq(|db.reservations|,
                            i requires 0 <= i < |db.reservations| => Committing(db.reservations[i], order)))
  }

  function LinkReservations(db: Db, ids: seq<nat>, order: nat): Db {
    db.(reservations := seq(|db.reservations|, i requires 0 <= i < |db.reservations| =>
      if i in ids then db.reservations[i].(order := Some(order)) else db.reservations[i]))
  }

  predicate ActiveFor(r: Reservation, order: nat) {
    r.order == Some(order) && Active(r)
  }

  /** The ids an order still holds, oldest first. */
  function FindActive(rows: seq<Reservation>, order: nat): (ids: seq<nat>)
    ensures forall i :: 0 <= i < |ids| ==> ids[i] < |rows| && ActiveFor(rows[ids[i]], order)
    ensures forall id: nat :: id < |rows| && ActiveFor(rows[id], order) ==> id in ids
    ensures forall i, j :: 0 <= i < j < |ids| ==> ids[i] < ids[j]
  {
    if rows == [] then []
    else
      var n := |rows| - 1;
      var before := FindActive(rows[..n], order);
      if ActiveFor(rows[n], order) then before + [n] else before
  }

  predicate IsExpired(r: Reservation, now: int) {
    r.status == Reserved && r.expiresAt <= now
  }

  /** Ids the sweeper's query may return: reserved rows whose payment window has passed. */
  predicate IsBatch(db: Db, now: int, batch: seq<nat>) {
    forall i :: 0 <= i < |batch| ==> batch[i] < |db.reservations| && IsExpired(db.reservations[batch[i]], now)
  }

  /** A listed row with the order it had when the query ran. */
  datatype Expiry = Expiry(id: nat, order: Option<nat>)

  function Expiries(db: Db, batch: seq<nat>): (r: seq<Expiry>)
    requires forall i :: 0 <= i < |batch| ==> batch[i] < |db.reservations|
  {
    seq(|batch|, i requires 0 <= i < |batch| => Expiry(batch[i], db.reservations[batch[i]].order))
  }

  /** Units of a product that a reservation row keeps off the shelf. */
  function Holding(product: int): Reservation -> int {
    (r: Reservation) => if r.product == product && Active(r) then r.quantity else 0
  }

  // ---------------------------------------------------------------- orders

  function OrderAt(db: Db, id: nat): Option<Order> {
    if id < |db.orders| then db.orders[id] else None
  }

  predicate CanUpdate(db: Db, id: nat, u: Update) {
    OrderAt(db, id).Some? && Matches(OrderAt(db, id).value, u)
  }

  function UpdateOrder(db: Db, id: nat, u: Update): Db {
    if CanUpdate(db, id, u) then db.(orders := db.orders[id := Some(Written(db.orders[id].value, u))]) else db
  }

  function InsertOrder(db: Db, o: Order): Db {
    db.(orders := db.orders + [Some(o)])
  }

  function DeleteOrder(db: Db, id: nat): Db {
    if id < |db.orders| then db.(orders := db.orders[id := None]) else db
  }

  // ---------------------------------------------------------------- coupons

  predicate CanClaim(db: Db, coupon: int) {
    coupon in db.coupons && db.coupons[coupon].usedCount < db.coupons[coupon].usageLimit
  }

  function AddUse(db: Db, coupon: int, n: int): Db {
    if coupon in db.coupons then
      var row := db.coupons[coupon];
      db.(coupons := db.coupons[coupon := row.(usedCount := row.usedCount + n)])
    else
      db
  }

  function Unclaim(db: Db, coupon: int): Db {
    if coupon in db.coupons && db.coupons[coupon].usedCount > 0 then AddUse(db, coupon, -1) else db
  }

  function RedeemedBy(coupon: int, user: int): Redemption -> int {
    (r: Redemption) => if r.coupon == coupon && r.user == user then 1 else 0
  }

  /** The redemptions of a coupon by one user. */
  function RedemptionsOf(db: Db, coupon: int, user: int): set<nat> {
    set i | 0 <= i < |db.redemptions| && db.redemptions[i].coupon == coupon && db.redemptions[i].user == user
  }

  lemma RedemptionsCounted(db: Db, coupon: int, user: int)
    ensures Sum(db.redemptions, RedeemedBy(coupon, user)) == |RedemptionsOf(db, coupon, user)|
  {
    SumIsSize(db.redemptions, RedeemedBy(coupon, user), RedemptionsOf(db, coupon, user));
  }

  datatype Refusal =
    | EmptyCart | OutOfStock
    | InvalidCoupon | CouponNotStarted | CouponExpired | BelowMinimum | UsageLimitReached | AlreadyUsed
    | DatabaseError

  /** Checks in the order of the source; the discount only matters when all of them pass. */
  function ValidateCoupon(db: Db, code: Option<int>, user: int, subtotal: int, now: int): Result<int, Refusal> {
    if code.None? then Ok(0)
    else if code.value !in db.coupons || !db.coupons[code.value].active then Err(InvalidCoupon)
    else
      var c := db.coupons[code.value];
      if c.startsAt.Some? && c.startsAt.value > now then Err(CouponNotStarted)
      else if c.expiresAt.Some? && c.expiresAt.value < now then Err(CouponExpired)
      else if subtotal < Pricing.ToCents(c.terms.minOrderTotal) then Err(BelowMinimum)
      else if c.usedCount >= c.usageLimit then Err(UsageLimitReached)
      else if Sum(db.redemptions, RedeemedBy(code.value, user)) >= c.perUserLimit then Err(AlreadyUsed)
      else Ok(Pricing.DiscountCents(Some(c.terms), subtotal))
  }

  // ---------------------------------------------------------------- webhook records

  /** The lookup before processing and the two unique indexes agree on what counts as the same event. */
  predicate KnownEvent(db: Db, provider: string, eventId: string, digest: string) {
    exists i :: 0 <= i < |db.payments| && SameEvent(db.payments[i], provider, eventId, digest)
  }

  predicate SameEvent(e: PaymentEvent, provider: string, eventId: string, digest: string) {
    (e.provider == provider && e.eventId == eventId) || e.digest == digest
  }

  function EventType(target: PaymentStatus): string {
    match target
    case Paid => "payment.succeeded"
    case Failed => "payment.failed"
    case _ => "payment.refunded"
  }

  function InsertPayment(db: Db, e: PaymentEvent): Db {
    db.(payments := db.payments + [e])
  }

  function InsertEvent(db: Db, e: DomainEvent): Db {
    db.(events := db.events + [e])
  }

  // ---------------------------------------------------------------- the checkout undo list

  /** The closures checkout pushes, with the values they capture. */
  datatype Undo =
    | ReturnUnits(product: int, quantity: Quantity)
    | DropReservation(id: nat)
    | ReturnUse(coupon: int)
    | RemoveOrder(id: nat)

  /** One undo call. Dropping a reservation is not guarded by its status. */
  function UndoOne(db: Db, u: Undo): Db {
    match u
    case ReturnUnits(p, q) => AddStock(db, p, q)
    case DropReservation(id) => SetStatus(db, id, Released)
    case ReturnUse(c) => Unclaim(db, c)
    case RemoveOrder(id) => DeleteOrder(db, id)
  }
}
