/**
 The commerce database as the code drives it: one field per table, and each transaction as the
 sequence of statements that the service issues, with a rollback where the code aborts. Every
 method is proved equal to the state function that the other modules reason about.
 */
module CommerceStore {
  import opened Wrappers
  import opened CommerceDb
  import opened Ledger
  import opened Discount
  import opened Settlement
  import opened Execution
  import opened Operations

  /** What stops a transaction before it touches money. */
  function Unprepared(db: Db, r: Request, ids: Ids, now: int, held: bool): Option<TxResult> {
    if r.existing.Some? && !DraftSettleable(db, r, now) then Some(Aborted(DraftStale))
    else if KeyTaken(db, r.key) || CheckoutOrdered(db, CheckoutId(r, ids)) then Some(UniqueViolation)
    else if r.user !in db.users || !db.users[r.user].active then Some(Aborted(UserNotActive))
    else if !held then Some(Aborted(ReservationStale))
    else None
  }

  /** A row that can be the first service of an order: a new id, and the order's own number on it. */
  predicate NewServiceOf(services: map<Id, Service>, o: Id, s: Id, service: Service) {
    s !in services && service.order == Some(o)
  }

  /** All orders but `o` are what they were. */
  predicate OnlyOrder(before: map<Id, Order>, after: map<Id, Order>, o: Id) {
    after.Keys == before.Keys && forall x :: x in before && x != o ==> after[x] == before[x]
  }

  /** All services of other orders are what they were, and `o` has one at most. */
  ghost predicate OneService(before: map<Id, Service>, after: map<Id, Service>, o: Id) {
    && (forall x :: x != o ==> ServicesOf(after, x) == ServicesOf(before, x))
    && (forall x :: x in before ==> x in after && after[x] == before[x])
    && (|ServicesOf(before, o)| <= 1 ==> |ServicesOf(after, o)| <= 1)
  }

  lemma FirstServiceIsOnly(services: map<Id, Service>, o: Id, s: Id, service: Service)
    requires NewServiceOf(services, o, s, service) && ServicesOf(services, o) == {}
    ensures ServicesOf(services[s := service], o) == {s}
    ensures OneService(services, services[s := service], o)
  {
  }

  lemma OneOfOne(services: map<Id, Service>, o: Id)
    ensures ServicesOf(services, o) != {} && |ServicesOf(services, o)| <= 1 ==> |ServicesOf(services, o)| == 1
  {
  }

  class Database {
    var users: map<Id, User>
    var ledger: seq<LedgerRow>
    var checkouts: map<Id, Checkout>
    var payments: map<Id, Payment>
    var orders: map<Id, Order>
    var codes: map<Id, DiscountCode>
    var usages: seq<Usage>
    var services: map<Id, Service>
    var events: seq<ServiceEvent>

    function Snapshot(): Db
      reads this
    {
      Db(users, ledger, checkouts, payments, orders, codes, usages, services, events)
    }

    constructor (db: Db)
      ensures Snapshot() == db
    {
      users, ledger, checkouts, payments := db.users, db.ledger, db.checkouts, db.payments;
      orders, codes, usages, services, events := db.orders, db.codes, db.usages, db.services, db.events;
    }

    /** Undoes everything a transaction wrote. */
    method Rollback(saved: Db)
      modifies this
      ensures Snapshot() == saved
    {
      users, ledger, checkouts, payments := saved.users, saved.ledger, saved.checkouts, saved.payments;
      orders, codes, usages, services, events := saved.orders, saved.codes, saved.usages, saved.services, saved.events;
    }

    // ---- discount.ts ------------------------------------------------------------------------------

    method ClaimDiscountUsage(x: Usage, now: int) returns (outcome: ClaimOutcome)
      modifies this`codes, this`usages
      ensures ClaimResult(codes, usages, outcome) == Claim(old(codes), old(usages), x, now)
    {
      if exists i :: 0 <= i < |usages| && usages[i].checkout == x.checkout {
        return Claimed(true);
      }
      if x.code !in codes {
        return ClaimFailed;
      }
      var c := codes[x.code];
      if !c.active || (c.startsAt.Some? && c.startsAt.value > now) || (c.expiresAt.Some? && c.expiresAt.value <= now) ||
         (c.totalLimit.Some? && c.used >= c.totalLimit.value) {
        return ClaimFailed;
      }
      if c.perUser.Some? {
        var used := CountUser(usages, x.code, x.user);
        if used >= c.perUser.value {
          return ClaimFailed;
        }
      }
      usages := usages + [x];
      codes := codes[x.code := c.(used := c.used + 1)];
      return Claimed(false);
    }

    // ---- settlement.ts ------------------------------------------------------------------------------

    /** Flips the existing draft to paid, or inserts a paid checkout; reports whether it did. */
    method TakeCheckout(r: Request, ids: Ids, now: int, expiresAt: int) returns (taken: bool)
      modifies this`checkouts
      ensures taken == (r.existing.None? || DraftSettleable(old(Snapshot()), r, now))
      ensures taken ==> checkouts == old(checkouts)[CheckoutId(r, ids) :=
                                       NewCheckout(old(Snapshot()), r, ids, expiresAt).(
                                         settledBy := if r.existing.Some? then old(checkouts)[r.existing.value].settledBy else None)]
      ensures !taken ==> checkouts == old(checkouts)
    {
      if r.existing.Some? {
        var c := r.existing.value;
        if c !in checkouts || checkouts[c].user != r.user || checkouts[c].kind != r.kind || checkouts[c].product != r.product ||
           checkouts[c].price != r.price || !checkouts[c].pending || checkouts[c].settledBy.Some? || checkouts[c].expiresAt <= now {
          return false;
        }
        checkouts := checkouts[c := checkouts[c].(pending := false)];
      } else {
        checkouts := checkouts[ids.checkout := Checkout(r.user, r.kind, r.product, r.price, false, None, expiresAt)];
      }
      return true;
    }

    /** The conditional deduction and its ledger row; reports whether the balance sufficed. */
    method Deduct(r: Request, ids: Ids) returns (done: bool)
      requires r.user in users
      modifies this`users, this`ledger
      ensures done == (old(users)[r.user].balance >= r.price)
      ensures done ==> var row := SpendRow(old(Snapshot()), r, ids);
                       users == old(users)[r.user := Booked(old(users)[r.user], row)] && ledger == old(ledger) + [row]
      ensures !done ==> users == old(users) && ledger == old(ledger)
    {
      if users[r.user].balance < r.price {
        return false;
      }
      var u := users[r.user];
      users := users[r.user := u.(balance := u.balance - r.price, spent := u.spent + r.price)];
      var after := users[r.user].balance;
      ledger := ledger + [LedgerRow(r.user, Spend, r.price, ids.order, ids.payment, after + r.price, after)];
      return true;
    }

    /** The payment, the settlement owner and the order, each under its unique index; reports whether all went in. */
    method InsertPaymentAndOrder(r: Request, fp: string, ids: Ids, checkout: Id) returns (inserted: bool)
      requires checkout in checkouts && ids.order !in orders && checkout == CheckoutId(r, ids)
      modifies this`payments, this`checkouts, this`orders
      ensures inserted == !(KeyTaken(old(Snapshot()), r.key) || CheckoutOrdered(old(Snapshot()), checkout))
      ensures inserted ==>
                && payments == old(payments)[ids.payment := NewPayment(r, fp, ids).(order := None)]
                && checkouts == old(checkouts)[checkout := old(checkouts)[checkout].(settledBy := Some(ids.payment))]
                && orders == old(orders)[ids.order := NewOrder(r, ids)]
    {
      if exists p :: p in payments && payments[p].key == r.key {
        return false;
      }
      payments := payments[ids.payment := Payment(r.user, checkout, r.price, r.key, Some(fp), None)];
      checkouts := checkouts[checkout := checkouts[checkout].(settledBy := Some(ids.payment))];
      if exists o :: o in orders && orders[o].checkout == checkout {
        return false;
      }
      orders := orders[ids.order := Order(r.user, r.kind, Paid, r.product, r.service, ids.payment, checkout, r.price,
                                          r.discount, r.code, r.volumeGb, r.durationDays)];
      return true;
    }

    /** The deduction, its ledger row and the discount claim; names the failure that must abort the transaction. */
    method Charge(r: Request, ids: Ids, now: int) returns (stop: Option<Failure>)
      requires r.user in users
      modifies this`users, this`ledger, this`codes, this`usages
      ensures stop == if old(users)[r.user].balance < r.price then Some(InsufficientBalance)
                      else if NeedsClaim(r) && ClaimFor(old(Snapshot()), r, ids, now).outcome.ClaimFailed? then Some(DiscountChanged)
                      else None
      ensures stop.None? ==>
                var row := SpendRow(old(Snapshot()), r, ids);
                && users == old(users)[r.user := Booked(old(users)[r.user], row)] && ledger == old(ledger) + [row]
                && codes == (if NeedsClaim(r) then ClaimFor(old(Snapshot()), r, ids, now).codes else old(codes))
                && usages == (if NeedsClaim(r) then ClaimFor(old(Snapshot()), r, ids, now).usages else old(usages))
    {
      hide Claim, CountUser;
      var paid := Deduct(r, ids);
      if !paid {
        return Some(InsufficientBalance);
      }
      if r.code.Some? && r.discount > 0 {
        var claim := ClaimDiscountUsage(Usage(r.code.value, r.user, ids.order, CheckoutId(r, ids), r.discount), now);
        if claim.ClaimFailed? {
          return Some(DiscountChanged);
        }
      }
      return None;
    }

    /** The statements up to the deduction: checkout, payment, order, buyer and reservation. */
    method PrepareStatements(r: Request, fp: string, ids: Ids, now: int, expiresAt: int, held: bool) returns (stop: Option<TxResult>)
      requires FreshIds(Snapshot(), ids)
      modifies this`checkouts, this`payments, this`orders
      ensures stop == Unprepared(old(Snapshot()), r, ids, now, held)
      ensures stop.None? ==>
                && r.user in users && (r.existing.Some? ==> r.existing.value in old(checkouts))
                && checkouts == old(checkouts)[CheckoutId(r, ids) := NewCheckout(old(Snapshot()), r, ids, expiresAt)]
                && payments == old(payments)[ids.payment := NewPayment(r, fp, ids)]
                && orders == old(orders)[ids.order := NewOrder(r, ids)]
    {
      var taken := TakeCheckout(r, ids, now, expiresAt);
      if !taken {
        return Some(Aborted(DraftStale));
      }
      hide DraftSettleable;
      var inserted := InsertPaymentAndOrder(r, fp, ids, CheckoutId(r, ids));
      if !inserted {
        return Some(UniqueViolation);
      }
      hide KeyTaken, CheckoutOrdered;
      if r.user !in users || !users[r.user].active {
        return Some(Aborted(UserNotActive));
      }
      if !held {
        return Some(Aborted(ReservationStale));
      }
      payments := payments[ids.payment := payments[ids.payment].(order := Some(ids.order))];
      return None;
    }

    /** The statements of the transaction in order; stops at the first failure, with its writes still in place. */
    method SettleStatements(r: Request, fp: string, ids: Ids, now: int, expiresAt: int, held: bool) returns (stop: Option<TxResult>)
      requires FreshIds(Snapshot(), ids)
      modifies this
      ensures stop == Obstacle(old(Snapshot()), r, ids, now, held)
      ensures stop.None? ==>
                && r.user in old(users) && (r.existing.Some? ==> r.existing.value in old(checkouts))
                && Snapshot() == Settled(old(Snapshot()), r, fp, ids, now, expiresAt)
    {
      hide Claim, DraftSettleable, KeyTaken, CheckoutOrdered, NewCheckout, NewPayment, NewOrder;
      stop := PrepareStatements(r, fp, ids, now, expiresAt, held);
      if stop.None? {
        var failure := Charge(r, ids, now);
        stop := if failure.Some? then Some(Aborted(failure.value)) else None;
      }
    }

    /** The transaction: all statements, or a rollback and the reason. */
    method SettleTransaction(r: Request, fp: string, ids: Ids, now: int, expiresAt: int, held: bool) returns (res: TxResult)
      requires FreshIds(Snapshot(), ids)
      modifies this
      ensures (Snapshot(), res) == SettleTx(old(Snapshot()), r, fp, ids, now, expiresAt, held)
    {
      hide Obstacle, ClaimFor;
      var saved := Snapshot();
      var stop := SettleStatements(r, fp, ids, now, expiresAt, held);
      if stop.Some? {
        Rollback(saved);
        return stop.value;
      }
      return Committed(Receipt(ids.payment, ids.order, CheckoutId(r, ids), ledger[|ledger| - 1]));
    }

    // ---- execution.ts ---------------------------------------------------------------------------------

    /** `updateMany` on one order with a status filter; reports whether the row matched. */
    method FlipStatus(o: Id, from: set<OrderStatus>, to: OrderStatus) returns (matched: bool)
      modifies this`orders
      ensures matched == (o in old(orders) && old(orders)[o].status in from)
      ensures orders == if matched then old(orders)[o := old(orders)[o].(status := to)] else old(orders)
    {
      matched := o in orders && orders[o].status in from;
      if matched {
        orders := orders[o := orders[o].(status := to)];
      }
    }

    method RefundOrder(o: Id, seen: Order) returns (refunded: bool)
      modifies this
      ensures (Snapshot(), refunded) == RefundDefinite(old(Snapshot()), o, seen)
    {
      var saved := Snapshot();
      var flipped := FlipStatus(o, {Paid, Provisioning}, Failed);
      var existing := CountFor(ledger, o, Refund);
      if existing > 0 {
        return true;
      }
      if !flipped {
        return false;
      }
      if seen.price <= 0 {
        return true;
      }
      if seen.user !in users {
        Rollback(saved);
        return false;
      }
      var u := users[seen.user];
      users := users[seen.user := u.(balance := u.balance + seen.price, refunded := u.refunded + seen.price)];
      var after := users[seen.user].balance;
      ledger := ledger + [LedgerRow(seen.user, Refund, seen.price, o, seen.payment, after - seen.price, after)];
      return true;
    }

    method ClaimOrder(o: Id) returns (claimed: bool)
      modifies this`orders
      ensures (Snapshot(), claimed) == ClaimPaid(old(Snapshot()), o)
    {
      claimed := FlipStatus(o, {Paid}, Provisioning);
    }

    method PersistProvisioned(o: Id, s: Id, service: Service)
      modifies this`orders, this`services
      ensures Snapshot() == Persist(old(Snapshot()), o, s, service)
      ensures ServicesOf(old(services), o) != {} || o !in old(orders) ==> Snapshot() == old(Snapshot())
      ensures NewServiceOf(old(services), o, s, service) ==> OneService(old(services), services, o)
      ensures NewServiceOf(old(services), o, s, service) && o in orders && |ServicesOf(old(services), o)| <= 1 ==>
                |ServicesOf(services, o)| == 1
      ensures OnlyOrder(old(orders), orders, o)
      ensures o in orders && orders[o] != old(orders)[o] ==>
                old(orders)[o].status.Provisioning? && orders[o] == old(orders)[o].(status := Completed) && s in services
    {
      if NewServiceOf(services, o, s, service) && ServicesOf(services, o) == {} {
        FirstServiceIsOnly(services, o, s, service);
      }
      OneOfOne(services, o);
      if ServicesOf(services, o) == {} && o in orders {
        services := services[s := service];
        var _ := FlipStatus(o, {Provisioning}, Completed);
      }
    }

    method AdoptProvisioned(o: Id, s: Id, service: Service)
      modifies this`orders, this`services
      ensures Snapshot() == Adopt(old(Snapshot()), o, s, service)
      ensures ServicesOf(old(services), o) != {} || o !in old(orders) ==> Snapshot() == old(Snapshot())
      ensures NewServiceOf(old(services), o, s, service) ==> OneService(old(services), services, o)
      ensures NewServiceOf(old(services), o, s, service) && o in orders && |ServicesOf(old(services), o)| <= 1 ==>
                |ServicesOf(services, o)| == 1
      ensures OnlyOrder(old(orders), orders, o)
      ensures o in orders && orders[o] != old(orders)[o] ==> orders[o] == old(orders)[o].(status := Completed) && s in services
      ensures o in orders && services != old(services) ==> orders[o].status.Completed?
    {
      if NewServiceOf(services, o, s, service) && ServicesOf(services, o) == {} {
        FirstServiceIsOnly(services, o, s, service);
      }
      OneOfOne(services, o);
      if ServicesOf(services, o) == {} && o in orders {
        services := services[s := service];
        orders := orders[o := orders[o].(status := Completed)];
      }
    }

    /** Claims an operation's order and records its intent, or neither. */
    method ClaimOperationOrder(o: Id, s: Id, intent: IntentData) returns (claimed: bool)
      modifies this`orders, this`events
      ensures (Snapshot(), claimed) == ClaimOperation(old(Snapshot()), o, s, intent)
      ensures claimed <==> o in old(orders) && old(orders)[o].status.Paid?
      ensures claimed ==> orders[o].status.Provisioning? && Last(events).kind.Intent? && Last(events).intent == Some(intent)
      ensures !claimed ==> Snapshot() == old(Snapshot())
      ensures OnlyOrder(old(orders), orders, o) && old(events) <= events
      ensures forall x :: AppliedCount(events, x) == AppliedCount(old(events), x)
    {
      AppendEvent(events, ServiceEvent(Intent, s, o, Some(intent)));
      claimed := FlipStatus(o, {Paid}, Provisioning);
      if claimed {
        events := events + [ServiceEvent(Intent, s, o, Some(intent))];
      }
    }

    /** Stores what an operation left of its service, the applied event, and COMPLETED from PROVISIONING only. */
    method PersistOperationResult(o: Id, s: Id, row: Service)
      modifies this`orders, this`services, this`events
      ensures Snapshot() == PersistOperation(old(Snapshot()), o, s, row)
      ensures forall x :: AppliedCount(events, x) == AppliedCount(old(events), x) + if x == o then 1 else 0
      ensures s in services && services[s] == row && forall x :: x in old(services) && x != s ==> x in services && services[x] == old(services)[x]
      ensures OnlyOrder(old(orders), orders, o)
      ensures o in orders ==> orders[o].status == if old(orders)[o].status.Provisioning? then Completed else old(orders)[o].status
    {
      AppendEvent(events, ServiceEvent(Applied, s, o, None));
      services := services[s := row];
      events := events + [ServiceEvent(Applied, s, o, None)];
      var _ := FlipStatus(o, {Provisioning}, Completed);
    }

    /** Stores what a reconciler read, the applied event, and COMPLETED whatever the status was. */
    method CompleteReconciledOrder(o: Id, s: Id, row: Service)
      modifies this`orders, this`services, this`events
      ensures Snapshot() == CompleteReconciled(old(Snapshot()), o, s, row)
      ensures forall x :: AppliedCount(events, x) == AppliedCount(old(events), x) + if x == o then 1 else 0
      ensures s in services && services[s] == row && forall x :: x in old(services) && x != s ==> x in services && services[x] == old(services)[x]
      ensures OnlyOrder(old(orders), orders, o)
      ensures o in orders ==> orders[o].status.Completed?
    {
      AppendEvent(events, ServiceEvent(Applied, s, o, None));
      services := services[s := row];
      events := events + [ServiceEvent(Applied, s, o, None)];
      if o in orders {
        orders := orders[o := orders[o].(status := Completed)];
      }
    }
  }
}
