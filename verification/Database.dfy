/** The collections as the services see them: each method is one database call. */
module Database {
  import opened Wrappers
  import opened Orders
  import opened Store

  class Collections {
    var products: map<int, Product>
    var reservations: seq<Reservation>
    var orders: seq<Option<Order>>
    var coupons: map<int, Coupon>
    var redemptions: seq<Redemption>
    var payments: seq<PaymentEvent>
    var events: seq<DomainEvent>
    var carts: map<int, seq<Line>>

    function Now(): Db
      reads this
    {
      Db(products, reservations, orders, coupons, redemptions, payments, events, carts)
    }

    method FlipReservation(id: nat, from: set<ReservationStatus>, to: ReservationStatus)
      returns (row: Option<Reservation>)
      modifies this
      ensures row.Some? == CanFlip(old(Now()), id, from)
      ensures row.Some? ==> row.value == old(reservations)[id].(status := to)
      ensures Now() == if row.Some? then SetStatus(old(Now()), id, to) else old(Now())
    {
      if id < |reservations| && reservations[id].status in from {
        reservations := reservations[id := reservations[id].(status := to)];
        row := Some(reservations[id]);
      } else {
        row := None;
      }
    }

    method IncStock(product: int, quantity: int)
      modifies this
      ensures Now() == AddStock(old(Now()), product, quantity)
    {
      if product in products {
        products := products[product := products[product].(stock := products[product].stock + quantity)];
      }
    }

    method TakeUnits(product: int, quantity: int) returns (row: Option<Product>)
      modifies this
      ensures row.Some? == CanTake(old(Now()), product, quantity)
      ensures row.Some? ==> row.value.price == old(products)[product].price
      ensures Now() == if row.Some? then AddStock(old(Now()), product, -quantity) else old(Now())
    {
      if product in products && products[product].available && quantity <= products[product].stock {
        products := products[product := products[product].(stock := products[product].stock - quantity)];
        row := Some(products[product]);
      } else {
        row := None;
      }
    }

    method InsertReservation(row: Reservation) returns (id: nat)
      modifies this
      ensures id == |old(reservations)|
      ensures Now() == old(Now()).(reservations := old(reservations) + [row])
    {
      id := |reservations|;
      reservations := reservations + [row];
    }

    method CommitOrderReservations(order: nat)
      modifies this
      ensures Now() == CommitReservations(old(Now()), order)
    {
      reservations := CommitReservations(Now(), order).reservations;
    }

    method LinkOrderReservations(ids: seq<nat>, order: nat)
      modifies this
      ensures Now() == LinkReservations(old(Now()), ids, order)
    {
      reservations := LinkReservations(Now(), ids, order).reservations;
    }

    method ClaimUse(coupon: int) returns (claimed: bool)
      modifies this
      ensures claimed == CanClaim(old(Now()), coupon)
      ensures Now() == if claimed then AddUse(old(Now()), coupon, 1) else old(Now())
    {
      claimed := CanClaim(Now(), coupon);
      if claimed {
        coupons := coupons[coupon := coupons[coupon].(usedCount := coupons[coupon].usedCount + 1)];
      }
    }

    method CreateOrder(o: Order) returns (id: nat)
      modifies this
      ensures id == |old(orders)| && Now() == InsertOrder(old(Now()), o)
    {
      id := |orders|;
      orders := orders + [Some(o)];
    }

    method UpdateIf(id: nat, u: Update) returns (updated: Option<Order>)
      modifies this
      ensures updated.Some? == CanUpdate(old(Now()), id, u)
      ensures updated.Some? ==> updated.value == Written(old(orders)[id].value, u)
      ensures Now() == UpdateOrder(old(Now()), id, u)
    {
      if id < |orders| && orders[id].Some? && Matches(orders[id].value, u) {
        updated := Some(Written(orders[id].value, u));
        orders := orders[id := updated];
      } else {
        updated := None;
      }
    }

    method InsertRedemption(r: Redemption)
      modifies this
      ensures Now() == old(Now()).(redemptions := old(redemptions) + [r])
    {
      redemptions := redemptions + [r];
    }

    method SaveEmptyCart(user: int)
      modifies this
      ensures Now() == old(Now()).(carts := old(carts)[user := []])
    {
      carts := carts[user := []];
    }

    method RecordEvent(e: DomainEvent)
      modifies this
      ensures Now() == InsertEvent(old(Now()), e)
    {
      events := events + [e];
    }

    /** The unique indexes refuse a second record of the same event. */
    method RecordPayment(e: PaymentEvent) returns (duplicate: bool)
      modifies this
      ensures duplicate == KnownEvent(old(Now()), e.provider, e.eventId, e.digest)
      ensures Now() == if duplicate then old(Now()) else InsertPayment(old(Now()), e)
    {
      duplicate := KnownEvent(Now(), e.provider, e.eventId, e.digest);
      if !duplicate {
        payments := payments + [e];
      }
    }

    method Undo(u: Store.Undo)
      modifies this
      ensures Now() == UndoOne(old(Now()), u)
    {
      var after := UndoOne(Now(), u);
      products, reservations, orders, coupons := after.products, after.reservations, after.orders, after.coupons;
    }
  }
}
