/**
 * Shipments of one order, one row per seller and one for the admins, and the order progress derived from
 * them. Any number of updates run at once, each on a copy of the order and of its own row that may be
 * stale by the time it writes; customers, webhooks and the sweeper change the order meanwhile.
 */
module Shipments {
  import opened Wrappers
  import opened Orders

  datatype ShipmentStatus = ShipmentPending | LabelCreated | InTransit | ShipmentDelivered | ShipmentFailed

  /** A seller's id, or none for the admins' shipment of the whole order. */
  type Shipper = Option<int>

  type Rows = map<Shipper, ShipmentStatus>

  const SHIPPABLE := {Confirmed, Processing, Shipped}

  // ---------------------------------------------------------------- the tables

  function ShipmentRank(s: ShipmentStatus): int {
    match s
    case ShipmentPending => 0
    case LabelCreated => 1
    case InTransit => 2
    case ShipmentDelivered => 3
    case ShipmentFailed => -1
  }

  predicate CanTransitionShipment(from: ShipmentStatus, to: ShipmentStatus) {
    if from == to then true
    else if from == ShipmentDelivered then false
    else if from == ShipmentFailed || to == ShipmentFailed then true
    else ShipmentRank(to) > ShipmentRank(from)
  }

  function OrderRankFor(s: ShipmentStatus): nat {
    match s
    case ShipmentPending => 1
    case LabelCreated => 1
    case InTransit => 2
    case ShipmentDelivered => 3
    case ShipmentFailed => 0
  }

  function StatusForRank(rank: nat): (s: OrderStatus)
    requires rank <= 3
    ensures FulfilmentRank(s) == rank
  {
    match rank
    case 0 => Confirmed
    case 1 => Processing
    case 2 => Shipped
    case 3 => Delivered
  }

  // ---------------------------------------------------------------- the derived rank

  function RankFor(rows: Rows, key: Shipper): nat {
    if key in rows then OrderRankFor(rows[key]) else 0
  }

  /** An item is covered by its seller's shipment or by the admins'; `sellerOf` lacks deleted products. */
  function LineRank(rows: Rows, sellerOf: map<int, int>, item: Item): nat {
    var admin := RankFor(rows, None);
    var own := if item.product in sellerOf then RankFor(rows, Some(sellerOf[item.product])) else 0;
    if admin >= own then admin else own
  }

  /** The least advanced item; an order without items makes no progress. */
  function DerivedRank(rows: Rows, sellerOf: map<int, int>, items: seq<Item>): (rank: nat)
    ensures rank <= 3
  {
    if items == [] then 0
    else
      var last := LineRank(rows, sellerOf, items[|items| - 1]);
      if |items| == 1 then last
      else
        var others := DerivedRank(rows, sellerOf, items[..|items| - 1]);
        if last <= others then last else others
  }

  /** The item has a shipment, its seller's or the admins', in one of these states. */
  predicate ItemIn(rows: Rows, sellerOf: map<int, int>, item: Item, states: set<ShipmentStatus>) {
    || (None in rows && rows[None] in states)
    || (item.product in sellerOf && Some(sellerOf[item.product]) in rows
        && rows[Some(sellerOf[item.product])] in states)
  }

  predicate EveryItemIn(rows: Rows, sellerOf: map<int, int>, items: seq<Item>, states: set<ShipmentStatus>) {
    forall i :: 0 <= i < |items| ==> ItemIn(rows, sellerOf, items[i], states)
  }

  /** The shipment states every item must be in for an order to come this far. */
  function StatesBehind(next: OrderStatus): set<ShipmentStatus> {
    match next
    case Processing => {ShipmentPending, LabelCreated, InTransit, ShipmentDelivered}
    case Shipped => {InTransit, ShipmentDelivered}
    case _ => {ShipmentDelivered}
  }

  lemma {:induction false} RankMeansIn(rows: Rows, sellerOf: map<int, int>, items: seq<Item>, rank: nat)
    requires items != [] && 1 <= rank <= 3
    ensures DerivedRank(rows, sellerOf, items) >= rank <==>
            EveryItemIn(rows, sellerOf, items, StatesBehind(StatusForRank(rank)))
  {
    var n := |items| - 1;
    assert LineRank(rows, sellerOf, items[n]) >= rank <==>
           ItemIn(rows, sellerOf, items[n], StatesBehind(StatusForRank(rank)));
    if n > 0 {
      RankMeansIn(rows, sellerOf, items[..n], rank);
      assert forall i :: 0 <= i < n ==> items[..n][i] == items[i];
    }
  }

  /** How far the rows bring an order, in the shipments of its items. */
  lemma RankMeansCovered(rows: Rows, sellerOf: map<int, int>, items: seq<Item>)
    requires items != []
    ensures var rank := DerivedRank(rows, sellerOf, items);
            && (rank == 3 <==> EveryItemIn(rows, sellerOf, items, {ShipmentDelivered}))
            && (rank >= 2 <==> EveryItemIn(rows, sellerOf, items, {InTransit, ShipmentDelivered}))
            && (rank >= 1 <==> EveryItemIn(rows, sellerOf, items,
                                           {ShipmentPending, LabelCreated, InTransit, ShipmentDelivered}))
  {
    RankMeansIn(rows, sellerOf, items, 1);
    RankMeansIn(rows, sellerOf, items, 2);
    RankMeansIn(rows, sellerOf, items, 3);
  }

  // ---------------------------------------------------------------- concurrent updates

  /** A shipment update under way; `seen` is the order status it read when it began. */
  datatype Upsert =
    | Asked(shipper: Shipper, to: ShipmentStatus)
    | Checked(shipper: Shipper, to: ShipmentStatus, seen: OrderStatus)
    | Comparing(shipper: Shipper, to: ShipmentStatus, seen: OrderStatus, from: ShipmentStatus)
    | Saved(seen: OrderStatus)
    | Advancing(next: OrderStatus)
    | Ended

  /** `lost` says that some update saved its row and then broke off before the order was brought forward. */
  datatype Desk = Desk(order: Order, rows: Rows, sellerOf: map<int, int>, tasks: seq<Upsert>, lost: bool)

  datatype Action =
    | Ask(shipper: Shipper, to: ShipmentStatus)
    | Run(task: nat, now: int)
    | Fail(task: nat)
    | Elsewhere(update: Update)

  function Progress(d: Desk): nat {
    DerivedRank(d.rows, d.sellerOf, d.order.items)
  }

  predicate OwnsItem(d: Desk, seller: int) {
    exists i :: 0 <= i < |d.order.items| && d.order.items[i].product in d.sellerOf
      && d.sellerOf[d.order.items[i].product] == seller
  }

  predicate MayShip(d: Desk, shipper: Shipper) {
    d.order.payment == Paid && d.order.status in SHIPPABLE && (shipper.Some? ==> OwnsItem(d, shipper.value))
  }

  /** Whether the row may be written: a missing row is created, an existing one is still as it was read. */
  function RunTask(d: Desk, k: Upsert, now: int): (Upsert, Rows, Order) {
    match k
    case Asked(shipper, to) =>
      (if MayShip(d, shipper) then Checked(shipper, to, d.order.status) else Ended, d.rows, d.order)
    case Checked(shipper, to, seen) =>
      if shipper !in d.rows then (Saved(seen), d.rows[shipper := to], d.order)
      else if CanTransitionShipment(d.rows[shipper], to) then
        (Comparing(shipper, to, seen, d.rows[shipper]), d.rows, d.order)
      else (Ended, d.rows, d.order)
    case Comparing(shipper, to, seen, from) =>
      if shipper in d.rows && d.rows[shipper] == from then (Saved(seen), d.rows[shipper := to], d.order)
      else (Ended, d.rows, d.order)
    case Saved(seen) =>
      var next := StatusForRank(Progress(d));
      var ahead := FulfilmentRank(next) > FulfilmentRank(seen) && CanTransitionOrder(seen, next);
      (if ahead then Advancing(next) else Ended, d.rows, d.order)
    case Advancing(next) => (Ended, d.rows, Apply(d.order, Advance(next, now)))
    case Ended => (k, d.rows, d.order)
  }

  function Step(d: Desk, a: Action): Desk {
    match a
    case Ask(shipper, to) => d.(tasks := d.tasks + [Asked(shipper, to)])
    case Run(t, now) =>
      if t < |d.tasks| then
        var (k, rows, order) := RunTask(d, d.tasks[t], now);
        d.(tasks := d.tasks[t := k], rows := rows, order := order)
      else d
    case Fail(t) =>
      if t < |d.tasks| then
        d.(tasks := d.tasks[t := Ended], lost := d.lost || d.tasks[t].Saved? || d.tasks[t].Advancing?)
      else d
    case Elsewhere(u) => if Admissible(u) && !u.Advance? then d.(order := Apply(d.order, u)) else d
  }

  function Steps(d: Desk, actions: seq<Action>): Desk {
    if actions == [] then d else Step(Steps(d, actions[..|actions| - 1]), actions[|actions| - 1])
  }

  predicate Opening(d: Desk) {
    && d.order == NewOrder(d.order.checkout, d.order.user, d.order.items, d.order.coupon, d.order.totalCents,
                           d.order.updatedAt)
    && d.order.items != [] && d.rows == map[] && d.tasks == [] && !d.lost
  }

  // ---------------------------------------------------------------- the invariant

  /** Every item has a delivered shipment, its seller's or the admins'. */
  predicate AllDelivered(d: Desk) {
    EveryItemIn(d.rows, d.sellerOf, d.order.items, {ShipmentDelivered})
  }

  /** The order is at least this far, or was cancelled. */
  predicate AtLeast(o: Order, rank: int) {
    o.status == Cancelled || FulfilmentRank(o.status) >= rank
  }

  predicate TaskOk(d: Desk, k: Upsert) {
    match k
    case Checked(_, _, seen) => seen in SHIPPABLE && AtLeast(d.order, FulfilmentRank(seen))
    case Comparing(_, to, seen, from) =>
      seen in SHIPPABLE && AtLeast(d.order, FulfilmentRank(seen)) && CanTransitionShipment(from, to)
    case Saved(seen) => seen in SHIPPABLE && AtLeast(d.order, FulfilmentRank(seen))
    case Advancing(next) => next in {Processing, Shipped, Delivered} && AtLeast(d.order, 0)
      && (next == Delivered ==> AllDelivered(d))
    case _ => true
  }

  /** An update that will bring the order up to the rows as they are now. */
  predicate WillCatchUp(d: Desk, k: Upsert) {
    k.Saved? || (k.Advancing? && FulfilmentRank(k.next) >= Progress(d))
  }

  predicate CaughtUp(d: Desk) {
    || d.rows == map[]
    || AtLeast(d.order, Progress(d))
    || d.lost
    || exists t :: 0 <= t < |d.tasks| && WillCatchUp(d, d.tasks[t])
  }

  predicate Inv(d: Desk) {
    && Consistent(d.order) && d.order.items != []
    && (forall t :: 0 <= t < |d.tasks| ==> TaskOk(d, d.tasks[t]))
    && (d.order.status == Delivered ==> AllDelivered(d))
    && CaughtUp(d)
  }

  /** Rows are never deleted, each moves along the table, and a delivered one is final. */
  predicate RowsMove(rows: Rows, rows': Rows) {
    forall key :: key in rows ==> key in rows' && CanTransitionShipment(rows[key], rows'[key])
  }

  lemma CoverageStays(d: Desk, d': Desk)
    requires d'.order.items == d.order.items && d'.sellerOf == d.sellerOf && RowsMove(d.rows, d'.rows)
    requires AllDelivered(d)
    ensures AllDelivered(d')
  {
    forall i | 0 <= i < |d.order.items|
      ensures ItemIn(d'.rows, d'.sellerOf, d'.order.items[i], {ShipmentDelivered})
    {
      assert ItemIn(d.rows, d.sellerOf, d.order.items[i], {ShipmentDelivered});
    }
  }

  lemma RunMoves(d: Desk, t: nat, now: int)
    requires t < |d.tasks| && TaskOk(d, d.tasks[t]) && Consistent(d.order)
    ensures var (_, rows, order) := RunTask(d, d.tasks[t], now);
            Consistent(order) && Moves(d.order, order) && RowsMove(d.rows, rows)
  {
    if d.tasks[t].Advancing? { UpdateKeepsConsistent(d.order, Advance(d.tasks[t].next, now)); }
  }

  lemma NothingMoves(o: Order, rows: Rows)
    requires Consistent(o)
    ensures Moves(o, o) && RowsMove(rows, rows)
  {
  }

  lemma ElsewhereMoves(d: Desk, u: Update)
    requires Consistent(d.order)
    ensures var d' := Step(d, Elsewhere(u)); Consistent(d'.order) && Moves(d.order, d'.order)
  {
    NothingMoves(d.order, d.rows);
    if Admissible(u) { UpdateKeepsConsistent(d.order, u); }
  }

  /** What any step does to the order and to the rows. */
  lemma StepMoves(d: Desk, a: Action)
    requires Inv(d)
    ensures var d' := Step(d, a);
            && Consistent(d'.order) && Moves(d.order, d'.order) && RowsMove(d.rows, d'.rows)
            && d'.sellerOf == d.sellerOf
            && (d.lost ==> d'.lost)
  {
    NothingMoves(d.order, d.rows);
    match a
    case Run(t, now) =>
      if t < |d.tasks| {
        assert TaskOk(d, d.tasks[t]);
        RunMoves(d, t, now);
      }
    case Elsewhere(u) => ElsewhereMoves(d, u);
    case _ =>
  }

  lemma OrderStays(o: Order, o': Order, rank: int)
    requires Moves(o, o') && AtLeast(o, rank)
    ensures AtLeast(o', rank)
  {
  }

  lemma TaskStays(d: Desk, d': Desk, k: Upsert)
    requires Moves(d.order, d'.order) && RowsMove(d.rows, d'.rows) && d'.sellerOf == d.sellerOf && TaskOk(d, k)
    ensures TaskOk(d', k)
  {
    match k
    case Checked(_, _, seen) => OrderStays(d.order, d'.order, FulfilmentRank(seen));
    case Comparing(_, _, seen, _) => OrderStays(d.order, d'.order, FulfilmentRank(seen));
    case Saved(seen) => OrderStays(d.order, d'.order, FulfilmentRank(seen));
    case Advancing(next) =>
      OrderStays(d.order, d'.order, 0);
      if next == Delivered { CoverageStays(d, d'); }
    case _ =>
  }

  lemma SavedTaskOk(d: Desk, d': Desk, k: Upsert, now: int)
    requires TaskOk(d, k) && k.Saved? && d.order.items != [] && Moves(d.order, d'.order)
    requires d'.rows == d.rows && d'.sellerOf == d.sellerOf
    ensures TaskOk(d', RunTask(d, k, now).0)
  {
    OrderStays(d.order, d'.order, 0);
    if Progress(d) == 3 { RankMeansCovered(d.rows, d.sellerOf, d.order.items); }
  }

  lemma UnsavedTaskOk(d: Desk, d': Desk, k: Upsert, now: int)
    requires TaskOk(d, k) && !k.Saved? && d'.order == RunTask(d, k, now).2
    ensures TaskOk(d', RunTask(d, k, now).0)
  {
  }

  lemma NextTaskOk(d: Desk, t: nat, now: int)
    requires Inv(d) && t < |d.tasks|
    ensures var d' := Step(d, Run(t, now)); TaskOk(d', d'.tasks[t])
  {
    var d', k := Step(d, Run(t, now)), d.tasks[t];
    assert TaskOk(d, k);
    if k.Saved? {
      StepMoves(d, Run(t, now));
      SavedTaskOk(d, d', k, now);
    } else {
      UnsavedTaskOk(d, d', k, now);
    }
  }

  lemma TasksKept(d: Desk, a: Action)
    requires Inv(d)
    ensures var d' := Step(d, a); forall t :: 0 <= t < |d'.tasks| ==> TaskOk(d', d'.tasks[t])
  {
    var d' := Step(d, a);
    StepMoves(d, a);
    forall t | 0 <= t < |d'.tasks|
      ensures TaskOk(d', d'.tasks[t])
    {
      if a.Run? && a.task == t {
        NextTaskOk(d, t, a.now);
      } else if t < |d.tasks| {
        TaskStays(d, d', d.tasks[t]);
      }
    }
  }

  lemma DeliveryKept(d: Desk, a: Action)
    requires Inv(d)
    ensures Step(d, a).order.status == Delivered ==> AllDelivered(Step(d, a))
  {
    var d' := Step(d, a);
    StepMoves(d, a);
    if d'.order.status == Delivered {
      if a.Run? && a.task < |d.tasks| {
        assert TaskOk(d, d.tasks[a.task]);
      }
      CoverageStays(d, d');
    }
  }

  lemma SavedCatchesUp(d: Desk, d': Desk, k: Upsert, now: int)
    requires TaskOk(d, k) && k.Saved? && Progress(d') == Progress(d) && Moves(d.order, d'.order)
    ensures WillCatchUp(d', RunTask(d, k, now).0) || AtLeast(d'.order, Progress(d'))
  {
    OrderStays(d.order, d'.order, FulfilmentRank(k.seen));
  }

  lemma AdvancingCatchesUp(d: Desk, k: Upsert, now: int)
    requires k.Advancing? && TaskOk(d, k) && Consistent(d.order) && FulfilmentRank(k.next) >= Progress(d)
    ensures AtLeast(Apply(d.order, Advance(k.next, now)), Progress(d))
  {
  }

  /** An update that is still to catch up stays one while the rows do not change. */
  lemma CatchUpStays(d: Desk, a: Action, t: nat)
    requires Inv(d) && t < |d.tasks| && WillCatchUp(d, d.tasks[t]) && Step(d, a).rows == d.rows && d.rows != map[]
    ensures CaughtUp(Step(d, a))
  {
    var d', k := Step(d, a), d.tasks[t];
    StepMoves(d, a);
    assert TaskOk(d, k);
    if a.Run? && a.task == t {
      if k.Saved? {
        SavedCatchesUp(d, d', k, a.now);
        assert WillCatchUp(d', d'.tasks[t]) || AtLeast(d'.order, Progress(d'));
      } else {
        AdvancingCatchesUp(d, k, a.now);
      }
    } else if !(a.Fail? && a.task == t) {
      assert d'.tasks[t] == k && WillCatchUp(d', d'.tasks[t]);
    }
  }

  /** Only an update that saves a row changes the rows, and it is then to catch up. */
  lemma SaverCatchesUp(d: Desk, a: Action)
    requires Step(d, a).rows != d.rows
    ensures CaughtUp(Step(d, a))
  {
    var d' := Step(d, a);
    assert a.Run? && d'.tasks[a.task].Saved?;
    assert WillCatchUp(d', d'.tasks[a.task]);
  }

  lemma CaughtUpKept(d: Desk, a: Action)
    requires Inv(d)
    ensures CaughtUp(Step(d, a))
  {
    var d' := Step(d, a);
    StepMoves(d, a);
    if d'.rows != d.rows {
      SaverCatchesUp(d, a);
    } else if d.rows != map[] && !d.lost {
      if AtLeast(d.order, Progress(d)) {
        OrderStays(d.order, d'.order, Progress(d));
      } else {
        var t :| 0 <= t < |d.tasks| && WillCatchUp(d, d.tasks[t]);
        CatchUpStays(d, a, t);
      }
    }
  }

  lemma {:induction false} RunKeepsInv(d: Desk, actions: seq<Action>)
    requires Opening(d)
    ensures Inv(Steps(d, actions)) && Steps(d, actions).sellerOf == d.sellerOf
  {
    if actions != [] {
      var n := |actions| - 1;
      var before := Steps(d, actions[..n]);
      RunKeepsInv(d, actions[..n]);
      StepMoves(before, actions[n]);
      TasksKept(before, actions[n]);
      DeliveryKept(before, actions[n]);
      CaughtUpKept(before, actions[n]);
    }
  }

  lemma {:induction false} OneMoreStep(d: Desk, actions: seq<Action>, more: seq<Action>)
    requires more != []
    ensures Steps(d, actions + more) == Step(Steps(d, actions + more[..|more| - 1]), more[|more| - 1])
  {
    assert (actions + more)[..|actions + more| - 1] == actions + more[..|more| - 1];
  }

  // ---------------------------------------------------------------- main results

  /** Rows keep their deliveries, and the order is no less far unless it was cancelled before anything shipped. */
  predicate NoStepBack(d: Desk, d': Desk) {
    && (forall key :: key in d.rows && d.rows[key] == ShipmentDelivered ==>
          key in d'.rows && d'.rows[key] == ShipmentDelivered)
    && (FulfilmentRank(d'.order.status) >= FulfilmentRank(d.order.status) || d'.order.status == Cancelled)
    && (FulfilmentRank(d.order.status) > 0 ==> FulfilmentRank(d'.order.status) >= FulfilmentRank(d.order.status))
    && (d.order.deliveredAt.Some? ==> d'.order.deliveredAt == d.order.deliveredAt)
    && (d.order.status == Cancelled ==> d'.order.status == Cancelled)
  }

  lemma MovesNoStepBack(d: Desk, d': Desk, d'': Desk)
    requires NoStepBack(d, d') && Moves(d'.order, d''.order) && RowsMove(d'.rows, d''.rows)
    ensures NoStepBack(d, d'')
  {
  }

  /**
   * From a reachable state on, every step of every update moves each row along the table, leaves
   * delivered rows delivered, never lowers the order's progress except by a cancellation before anything
   * was shipped, and never changes a delivery time once set.
   */
  lemma {:induction false} FulfilmentOnlyClimbs(d: Desk, actions: seq<Action>, more: seq<Action>)
    requires Opening(d)
    ensures NoStepBack(Steps(d, actions), Steps(d, actions + more))
  {
    if more == [] {
      assert actions + more == actions;
    } else {
      var n := |more| - 1;
      var later := Steps(d, actions + more[..n]);
      OneMoreStep(d, actions, more);
      FulfilmentOnlyClimbs(d, actions, more[..n]);
      RunKeepsInv(d, actions + more[..n]);
      StepMoves(later, more[n]);
      MovesNoStepBack(Steps(d, actions), later, Step(later, more[n]));
    }
  }

  /**
   * Whatever updates ran at once on whatever stale copies: a delivered order has, for every item, a
   * delivered shipment of that item's seller or of an admin, and this stays so for ever.
   */
  lemma {:induction false} DeliveredMeansCovered(d: Desk, actions: seq<Action>, more: seq<Action>)
    requires Opening(d) && Steps(d, actions).order.status == Delivered
    ensures AllDelivered(Steps(d, actions)) && AllDelivered(Steps(d, actions + more))
    ensures Steps(d, actions + more).order.status == Delivered
  {
    FulfilmentOnlyClimbs(d, actions, more);
    RunKeepsInv(d, actions);
    RunKeepsInv(d, actions + more);
  }

  /**
   * No progress is lost to a race: once every update has ended, and none broke off half-way, the order
   * is as far as its rows imply; in particular it is delivered, unless cancelled, when every item is.
   */
  lemma {:induction false} NoProgressLost(d: Desk, actions: seq<Action>)
    requires Opening(d)
    ensures var d' := Steps(d, actions);
            (forall t :: 0 <= t < |d'.tasks| ==> d'.tasks[t].Ended?) && !d'.lost && d'.order.status != Cancelled ==>
              && (d'.rows != map[] ==> FulfilmentRank(d'.order.status) >= Progress(d'))
              && (AllDelivered(d') <==> d'.order.status == Delivered)
  {
    var d' := Steps(d, actions);
    RunKeepsInv(d, actions);
    if AllDelivered(d') {
      RankMeansCovered(d'.rows, d'.sellerOf, d'.order.items);
      assert d'.rows != map[] by { assert ItemIn(d'.rows, d'.sellerOf, d'.order.items[0], {ShipmentDelivered}); }
    }
  }

  // ---------------------------------------------------------------- progress was read off the rows

  /** At this action an update that had saved its row read all rows, and every item was in one of these states. */
  predicate ReadIn(d: Desk, actions: seq<Action>, i: nat, t: nat, states: set<ShipmentStatus>)
    requires i < |actions|
  {
    var desk := Steps(d, actions[..i]);
    && actions[i].Run? && actions[i].task == t && t < |desk.tasks| && desk.tasks[t].Saved?
    && EveryItemIn(desk.rows, desk.sellerOf, desk.order.items, states)
  }

  lemma SavedReads(d: Desk, t: nat, now: int)
    requires t < |d.tasks| && d.tasks[t].Saved? && d.order.items != [] && d.tasks[t].seen in SHIPPABLE
    ensures var k := RunTask(d, d.tasks[t], now).0;
            k.Advancing? ==> EveryItemIn(d.rows, d.sellerOf, d.order.items, StatesBehind(k.next))
  {
    RankMeansCovered(d.rows, d.sellerOf, d.order.items);
  }

  lemma ReadBefore(d: Desk, actions: seq<Action>, n: nat, i: nat, t: nat, states: set<ShipmentStatus>)
    requires i < n <= |actions| && ReadIn(d, actions[..n], i, t, states)
    ensures ReadIn(d, actions, i, t, states)
  {
    assert actions[..n][..i] == actions[..i];
  }

  lemma BecomesAdvancing(d: Desk, a: Action, t: nat)
    requires Inv(d) && t < |Step(d, a).tasks| && Step(d, a).tasks[t].Advancing?
    ensures t < |d.tasks|
    ensures Step(d, a).tasks[t] == d.tasks[t]
            || (&& a.Run? && a.task == t && d.tasks[t].Saved?
                && EveryItemIn(d.rows, d.sellerOf, d.order.items, StatesBehind(Step(d, a).tasks[t].next)))
  {
    assert TaskOk(d, d.tasks[t]);
    if a.Run? && a.task == t && d.tasks[t].Saved? { SavedReads(d, t, a.now); }
  }

  /** An update that is about to bring the order forward has read rows that imply it. */
  lemma {:induction false} AdvancingRead(d: Desk, actions: seq<Action>, t: nat) returns (i: nat)
    requires Opening(d) && t < |Steps(d, actions).tasks| && Steps(d, actions).tasks[t].Advancing?
    ensures i < |actions| && ReadIn(d, actions, i, t, StatesBehind(Steps(d, actions).tasks[t].next))
  {
    var n := |actions| - 1;
    var before := Steps(d, actions[..n]);
    RunKeepsInv(d, actions[..n]);
    BecomesAdvancing(before, actions[n], t);
    if before.tasks[t] == Steps(d, actions).tasks[t] {
      i := AdvancingRead(d, actions[..n], t);
      ReadBefore(d, actions, n, i, t, StatesBehind(before.tasks[t].next));
    } else {
      i := n;
    }
  }

  lemma OnlyAdvances(d: Desk, a: Action)
    requires Inv(d)
    ensures var o' := Step(d, a).order;
            o'.status in {Processing, Shipped, Delivered} && o'.status != d.order.status ==>
              a.Run? && a.task < |d.tasks| && d.tasks[a.task] == Advancing(o'.status)
  {
  }

  /**
   * Whenever an order turns processing, shipped or delivered, an update had before read the rows when
   * every item had a shipment that had begun, was on its way, or was delivered.
   */
  lemma {:induction false} ProgressWasRead(d: Desk, actions: seq<Action>, a: Action)
    requires Opening(d)
    ensures var before, after := Steps(d, actions), Step(Steps(d, actions), a);
            after.order.status in {Processing, Shipped, Delivered} && after.order.status != before.order.status ==>
              exists i, t :: 0 <= i < |actions| && 0 <= t && ReadIn(d, actions, i, t, StatesBehind(after.order.status))
  {
    var before, after := Steps(d, actions), Step(Steps(d, actions), a);
    RunKeepsInv(d, actions);
    OnlyAdvances(before, a);
    if after.order.status in {Processing, Shipped, Delivered} && after.order.status != before.order.status {
      var i := AdvancingRead(d, actions, a.task);
    }
  }

  // ---------------------------------------------------------------- one update with nothing else going on

  datatype Answer = NotShippable | NotYours | BadMove | Updated

  /** The order brought forward to a status it may take and that is ahead of its own. */
  function Lifted(o: Order, next: OrderStatus, now: int): Order {
    if FulfilmentRank(next) > FulfilmentRank(o.status) && CanTransitionOrder(o.status, next) then
      Apply(o, Advance(next, now))
    else o
  }

  lemma LiftReaches(o: Order, rank: nat, now: int)
    requires Consistent(o) && o.payment == Paid && o.status in SHIPPABLE && rank <= 3
    ensures var o' := Lifted(o, StatusForRank(rank), now);
            && Consistent(o') && Moves(o, o') && o'.items == o.items
            && FulfilmentRank(o'.status) == (if rank > FulfilmentRank(o.status) then rank else FulfilmentRank(o.status))
            && (o'.status == Delivered <==> rank >= 3) && (o'.status == Delivered ==> o'.deliveredAt == Some(now))
  {
    NothingMoves(o, map[]);
    if rank > FulfilmentRank(o.status) { UpdateKeepsConsistent(o, Advance(StatusForRank(rank), now)); }
  }

  /** The states a row may be in when it is moved to this one, itself included. */
  function Before(to: ShipmentStatus): set<ShipmentStatus> {
    match to
    case ShipmentPending => {ShipmentPending, ShipmentFailed}
    case LabelCreated => {ShipmentPending, LabelCreated, ShipmentFailed}
    case InTransit => {ShipmentPending, LabelCreated, InTransit, ShipmentFailed}
    case ShipmentDelivered => {ShipmentPending, LabelCreated, InTransit, ShipmentDelivered, ShipmentFailed}
    case ShipmentFailed => {ShipmentPending, LabelCreated, InTransit, ShipmentFailed}
  }

  lemma RowMay(from: ShipmentStatus, to: ShipmentStatus)
    ensures CanTransitionShipment(from, to) <==> from in Before(to)
  {
  }

  /** The order after one update: as far as its items' shipments are, and never less far than it was. */
  predicate BroughtForward(d: Desk, o: Order, now: int) {
    && (o.status == Delivered <==> EveryItemIn(d.rows, d.sellerOf, d.order.items, {ShipmentDelivered}))
    && (o.status in {Shipped, Delivered} <==>
        || d.order.status == Shipped
        || EveryItemIn(d.rows, d.sellerOf, d.order.items, {InTransit, ShipmentDelivered}))
    && (o.status in {Processing, Shipped, Delivered} <==>
        || d.order.status in {Processing, Shipped}
        || EveryItemIn(d.rows, d.sellerOf, d.order.items,
                       {ShipmentPending, LabelCreated, InTransit, ShipmentDelivered}))
    && (o.status == d.order.status ==> o == d.order)
    && (o.status != d.order.status ==>
          o == d.order.(status := o.status, deliveredAt := if o.status == Delivered then Some(now)
                                                           else d.order.deliveredAt, updatedAt := now))
  }

  lemma LiftedIsForward(d: Desk, now: int)
    requires Consistent(d.order) && d.order.items != [] && d.order.payment == Paid && d.order.status in SHIPPABLE
    ensures var o := Lifted(d.order, StatusForRank(Progress(d)), now);
            Consistent(o) && Moves(d.order, o) && BroughtForward(d, o, now)
  {
    LiftReaches(d.order, Progress(d), now);
    RankMeansCovered(d.rows, d.sellerOf, d.order.items);
  }

  // ---------------------------------------------------------------- the steps of one update, left alone

  /** One update in the step system with nothing else going on: at most five steps after it was asked for. */
  function Undisturbed(d: Desk, shipper: Shipper, to: ShipmentStatus, now: int): Desk {
    var asked := Step(d, Ask(shipper, to));
    Step(Step(Step(Step(Step(asked, Run(0, now)), Run(0, now)), Run(0, now)), Run(0, now)), Run(0, now))
  }

  function With(d: Desk, k: Upsert, rows: Rows, order: Order): Desk {
    d.(tasks := [k], rows := rows, order := order)
  }

  lemma OneRun(d: Desk, k: Upsert, rows: Rows, order: Order, now: int)
    ensures var x := With(d, k, rows, order);
            var (k', rows', order') := RunTask(x, k, now);
            Step(x, Run(0, now)) == With(d, k', rows', order')
  {
    assert [k][0 := RunTask(With(d, k, rows, order), k, now).0] == [RunTask(With(d, k, rows, order), k, now).0];
  }

  lemma OverIsOver(d: Desk, rows: Rows, order: Order, now: int)
    ensures var x := With(d, Ended, rows, order); Step(x, Run(0, now)) == x
  {
    OneRun(d, Ended, rows, order, now);
  }

  /** From the saved row on: the order is brought forward, in one step or two. */
  lemma SavedAlone(d: Desk, rows: Rows, now: int)
    ensures var x := With(d, Saved(d.order.status), rows, d.order);
            Step(Step(x, Run(0, now)), Run(0, now))
            == With(d, Ended, rows, Lifted(d.order, StatusForRank(Progress(x)), now))
  {
    var x := With(d, Saved(d.order.status), rows, d.order);
    OneRun(d, Saved(d.order.status), rows, d.order, now);
    var next := StatusForRank(Progress(x));
    OneRun(d, Advancing(next), rows, d.order, now);
    OverIsOver(d, rows, d.order, now);
  }

  /** From the check on: a new row is saved at once, an old one after it is compared. */
  lemma CheckedAlone(d: Desk, shipper: Shipper, to: ShipmentStatus, now: int)
    ensures var x := With(d, Checked(shipper, to, d.order.status), d.rows, d.order);
            var rows := d.rows[shipper := to];
            Step(Step(Step(Step(x, Run(0, now)), Run(0, now)), Run(0, now)), Run(0, now))
            == if shipper in d.rows && !CanTransitionShipment(d.rows[shipper], to) then With(d, Ended, d.rows, d.order)
               else With(d, Ended, rows, Lifted(d.order, StatusForRank(DerivedRank(rows, d.sellerOf, d.order.items)),
                                                now))
  {
    var seen, rows := d.order.status, d.rows[shipper := to];
    OneRun(d, Checked(shipper, to, seen), d.rows, d.order, now);
    SavedAlone(d, rows, now);
    OverIsOver(d, d.rows, d.order, now);
    if shipper !in d.rows {
      OverIsOver(d, rows, Lifted(d.order, StatusForRank(DerivedRank(rows, d.sellerOf, d.order.items)), now), now);
    } else if CanTransitionShipment(d.rows[shipper], to) {
      OneRun(d, Comparing(shipper, to, seen, d.rows[shipper]), d.rows, d.order, now);
    }
  }

  predicate Accepts(d: Desk, shipper: Shipper, to: ShipmentStatus) {
    MayShip(d, shipper) && (shipper in d.rows ==> CanTransitionShipment(d.rows[shipper], to))
  }

  /** It ends with what the controller below does. */
  lemma UndisturbedIs(d: Desk, shipper: Shipper, to: ShipmentStatus, now: int)
    requires d.tasks == []
    ensures var end := Undisturbed(d, shipper, to, now);
            var rows := d.rows[shipper := to];
            if Accepts(d, shipper, to) then
              end.rows == rows
              && end.order == Lifted(d.order, StatusForRank(DerivedRank(rows, d.sellerOf, d.order.items)), now)
            else end.rows == d.rows && end.order == d.order
  {
    assert Step(d, Ask(shipper, to)) == With(d, Asked(shipper, to), d.rows, d.order);
    OneRun(d, Asked(shipper, to), d.rows, d.order, now);
    CheckedAlone(d, shipper, to, now);
    OverIsOver(d, d.rows, d.order, now);
  }

  class Controller {
    var order: Order
    var rows: Rows
    const sellerOf: map<int, int>

    constructor (order: Order, rows: Rows, sellerOf: map<int, int>)
      ensures this.order == order && this.rows == rows && this.sellerOf == sellerOf
    {
      this.order, this.rows, this.sellerOf := order, rows, sellerOf;
    }

    function Now(): Desk
      reads this
    {
      Desk(order, rows, sellerOf, [], false)
    }

    /** The order follows its shipments. */
    method SyncOrder(now: int)
      requires Consistent(order) && order.items != [] && order.payment == Paid && order.status in SHIPPABLE
      modifies this`order
      ensures Consistent(order) && Moves(old(order), order) && BroughtForward(old(Now()), order, now)
      ensures order == Lifted(old(order), StatusForRank(DerivedRank(rows, sellerOf, old(order).items)), now)
    {
      var next := StatusForRank(DerivedRank(rows, sellerOf, order.items));
      LiftedIsForward(Now(), now);
      if FulfilmentRank(next) > FulfilmentRank(order.status) && CanTransitionOrder(order.status, next) {
        order := Apply(order, Advance(next, now));
      }
    }

    /** Why an update is refused, if it is. */
    method Check(shipper: Shipper, to: ShipmentStatus) returns (answer: Answer)
      ensures answer == NotShippable <==> !(order.payment == Paid && order.status in {Confirmed, Processing, Shipped})
      ensures answer == NotYours ==>
                shipper.Some? && forall i :: 0 <= i < |order.items| && order.items[i].product in sellerOf ==>
                                   sellerOf[order.items[i].product] != shipper.value
      ensures answer == BadMove ==> shipper in rows && rows[shipper] !in Before(to)
      ensures answer == Updated ==>
                && (shipper.Some? ==>
                    exists i :: 0 <= i < |order.items| && order.items[i].product in sellerOf
                                && sellerOf[order.items[i].product] == shipper.value)
                && (shipper in rows ==> rows[shipper] in Before(to))
      ensures answer == Updated <==> Accepts(Now(), shipper, to)
    {
      if order.payment != Paid || order.status !in SHIPPABLE { return NotShippable; }
      if shipper.Some? && !OwnsItem(Now(), shipper.value) { return NotYours; }
      if shipper in rows {
        RowMay(rows[shipper], to);
        if !CanTransitionShipment(rows[shipper], to) { return BadMove; }
      }
      return Updated;
    }

    /**
     * Refused, and nothing changed, if the order is not paid or past shipping, if the seller sells none of
     * its items, or if the row may not move there. Otherwise the row takes the new status and the order is
     * brought forward to where the shipments of its items are, never back.
     */
    method Upsert(shipper: Shipper, to: ShipmentStatus, now: int) returns (answer: Answer)
      requires Consistent(order) && order.items != []
      modifies this
      ensures Consistent(order)
      ensures answer == NotShippable <==>
              !(old(order).payment == Paid && old(order).status in {Confirmed, Processing, Shipped})
      ensures answer == NotYours ==>
                shipper.Some? && forall i :: 0 <= i < |old(order).items| && old(order).items[i].product in sellerOf ==>
                                   sellerOf[old(order).items[i].product] != shipper.value
      ensures answer == BadMove ==> shipper in old(rows) && old(rows)[shipper] !in Before(to)
      ensures answer != Updated ==> order == old(order) && rows == old(rows)
      ensures answer == Updated <==> old(Accepts(Now(), shipper, to))
      ensures answer == Updated ==>
                && (shipper.Some? ==>
                    exists i :: 0 <= i < |old(order).items| && old(order).items[i].product in sellerOf
                                && sellerOf[old(order).items[i].product] == shipper.value)
                && (shipper in old(rows) ==> old(rows)[shipper] in Before(to))
                && rows == old(rows)[shipper := to]
                && Moves(old(order), order)
                && BroughtForward(Desk(old(order), rows, sellerOf, [], false), order, now)
                && order == Lifted(old(order), StatusForRank(DerivedRank(rows, sellerOf, old(order).items)), now)
    {
      answer := Check(shipper, to);
      if answer == Updated {
        rows := rows[shipper := to];
        SyncOrder(now);
      }
    }
  }
}
