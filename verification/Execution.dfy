/**
 The database transactions of order execution: claiming, refunding, persisting and adopting.
 Each is atomic; which of them run, and in what order, is decided by the executors.
 */
module Execution {
  import opened Wrappers
  import opened CommerceDb
  import opened Ledger
  import opened Settlement

  const GIB := 1073741824
  const DAY_MS := 86400000

  function WithStatus(db: Db, o: Id, status: OrderStatus): Db
    requires o in db.orders
  {
    db.(orders := db.orders[o := db.orders[o].(status := status)])
  }

  function ServicesOf(services: map<Id, Service>, o: Id): set<Id> {
    set s | s in services && services[s].order == Some(o)
  }

  function Refunds(ledger: seq<LedgerRow>, o: Id): nat {
    CountFor(ledger, o, Refund)
  }

  predicate Open(s: OrderStatus) {
    s.Paid? || s.Provisioning?
  }

  /** Flips one order from a given status; reports whether the row matched. */
  function ClaimPaid(db: Db, o: Id): (Db, bool) {
    if o in db.orders && db.orders[o].status.Paid? then (WithStatus(db, o, Provisioning), true) else (db, false)
  }

  function RefundRow(db: Db, o: Id, seen: Order): LedgerRow
    requires seen.user in db.users
  {
    var before := db.users[seen.user].balance;
    LedgerRow(seen.user, Refund, seen.price, o, seen.payment, before, before + seen.price)
  }

  function Credited(db: Db, o: Id, seen: Order): Db
    requires seen.user in db.users
  {
    var row := RefundRow(db, o, seen);
    db.(users := db.users[seen.user := Booked(db.users[seen.user], row)], ledger := db.ledger + [row])
  }

  /** Closes an open order as failed and credits it once; `seen` is the order row the caller read earlier. */
  function RefundDefinite(db: Db, o: Id, seen: Order): (Db, bool) {
    var flips := o in db.orders && Open(db.orders[o].status);
    var closed := if flips then WithStatus(db, o, Failed) else db;
    if Refunds(db.ledger, o) > 0 then (closed, true)
    else if !flips then (closed, false)
    else if seen.price <= 0 then (closed, true)
    else if seen.user !in db.users then (db, false)
    else (Credited(closed, o, seen), true)
  }

  /** Stores the service of an order once; completes the order from PROVISIONING only. */
  function Persist(db: Db, o: Id, s: Id, service: Service): Db {
    if ServicesOf(db.services, o) != {} || o !in db.orders then db
    else
      var stored := db.(services := db.services[s := service]);
      if db.orders[o].status.Provisioning? then WithStatus(stored, o, Completed) else stored
  }

  /** Stores the service of an order once; completes the order whatever its status. */
  function Adopt(db: Db, o: Id, s: Id, service: Service): Db {
    if ServicesOf(db.services, o) != {} || o !in db.orders then db
    else WithStatus(db.(services := db.services[s := service]), o, Completed)
  }

  /** Repairs the status of an order that already has a service. */
  function MarkCompleted(db: Db, o: Id): Db {
    if o in db.orders && !db.orders[o].status.Completed? then WithStatus(db, o, Completed) else db
  }

  function ProvisionedService(o: Id, seen: Order, username: Id, now: int): Service {
    var gb, days := seen.volumeGb.GetOr(0), seen.durationDays.GetOr(0);
    var bytes := if gb > 0 then gb * GIB else 0;
    Service(Some(o), seen.user, username, bytes, bytes, 0, if days > 0 then Some(now + days * DAY_MS) else None, false)
  }

  /** What the panel reported for an account that is adopted. */
  datatype Reading = Reading(total: Option<int>, remaining: Option<int>, used: Option<int>, expiresAt: Option<int>)

  function AdoptedService(o: Id, seen: Order, username: Id, r: Reading): Service {
    Service(Some(o), seen.user, username, r.total.GetOr(seen.volumeGb.GetOr(0) * GIB), r.remaining.GetOr(0),
            r.used.GetOr(0), r.expiresAt, false)
  }

  // ---- what these transactions keep --------------------------------------------------------------

  /** Status changes leave payments, checkouts, usages and their pairing alone. */
  lemma StatusKeepsDbInv(init: map<Id, int>, db: Db, db': Db)
    requires DbInv(init, db)
    requires db'.users == db.users && db'.ledger == db.ledger && SameTerms(db.orders, db'.orders)
    requires db'.payments == db.payments && db'.checkouts == db.checkouts && db'.usages == db.usages && db'.codes == db.codes
    ensures DbInv(init, db')
  {
    MoneyUntouched(init, db, db');
    PairsKeepTerms(db, db');
  }

  lemma PairsKeepTerms(db: Db, db': Db)
    requires KeysInv(db) && UsagesInv(db.orders, db.usages) && SameTerms(db.orders, db'.orders)
    requires db'.payments == db.payments && db'.checkouts == db.checkouts
    ensures KeysInv(db') && UsagesInv(db'.orders, db.usages)
  {
    forall o | o in db.orders ensures db'.orders[o] == db.orders[o].(status := db'.orders[o].status) {
      TermsFields(db'.orders[o], db.orders[o]);
    }
    forall p | p in db'.payments ensures PaymentPaired(db', p) {
      assert PaymentPaired(db, p);
    }
    forall o | o in db'.orders ensures OrderPaired(db', o) {
      assert OrderPaired(db, o);
    }
    forall i | 0 <= i < |db.usages| ensures UsageOfOrder(db'.orders, db.usages[i]) {
      assert UsageOfOrder(db.orders, db.usages[i]);
    }
  }

  lemma WithStatusKeepsDbInv(init: map<Id, int>, db: Db, o: Id, status: OrderStatus)
    requires DbInv(init, db) && o in db.orders
    ensures DbInv(init, WithStatus(db, o, status))
  {
    hide DbInv;
    OneStatus(db.orders, o, status);
    hide SameTerms;
    StatusKeepsDbInv(init, db, WithStatus(db, o, status));
  }

  lemma CreditKeepsDbInv(init: map<Id, int>, db: Db, o: Id, seen: Order)
    requires DbInv(init, db) && o in db.orders && seen.Terms() == db.orders[o].Terms() && Refunds(db.ledger, o) == 0
    ensures seen.user in db.users && seen.price > 0
    ensures DbInv(init, Credited(db, o, seen))
  {
    TermsFields(seen, db.orders[o]);
    assert OrderPaired(db, o);
    assert db.orders[o].user in db.users;
    RecordRefund(init, db, Credited(db, o, seen), RefundRow(db, o, seen));
    PairsKeepTerms(db, Credited(db, o, seen));
  }

  /** A refund, by anyone who read the order at any time, keeps the books in order. */
  lemma RefundKeepsDbInv(init: map<Id, int>, db: Db, o: Id, seen: Order)
    requires DbInv(init, db) && o in db.orders && seen.Terms() == db.orders[o].Terms()
    ensures DbInv(init, RefundDefinite(db, o, seen).0)
  {
    if Open(db.orders[o].status) {
      var closed := WithStatus(db, o, Failed);
      WithStatusKeepsDbInv(init, db, o, Failed);
      if Refunds(db.ledger, o) == 0 {
        assert seen.Terms() == closed.orders[o].Terms();
        CreditKeepsDbInv(init, closed, o, seen);
      }
    }
  }

  lemma OpenRefundCredits(init: map<Id, int>, db: Db, o: Id, seen: Order)
    requires DbInv(init, db) && o in db.orders && seen.Terms() == db.orders[o].Terms()
    requires Open(db.orders[o].status) && Refunds(db.ledger, o) == 0
    ensures seen.user in db.users && seen.price > 0
    ensures seen.user == db.orders[o].user && seen.price == db.orders[o].price
    ensures RefundDefinite(db, o, seen) == (Credited(WithStatus(db, o, Failed), o, seen), true)
  {
    TermsFields(seen, db.orders[o]);
    assert OrderPaired(db, o);
    assert db.orders[o].user in db.users;
  }

  lemma CreditCounts(db: Db, o: Id, seen: Order)
    requires seen.user in db.users
    ensures var db' := Credited(db, o, seen);
            && db'.orders == db.orders && db'.services == db.services
            && (forall x :: Refunds(db'.ledger, x) == Refunds(db.ledger, x) + if x == o then 1 else 0)
            && Last(db'.ledger) == RefundRow(db, o, seen)
  {
    AppendRow(db.ledger, RefundRow(db, o, seen));
  }

  /** The refunds and the status that one order shows. */
  predicate Consistent(db: Db, o: Id)
    requires o in db.orders
  {
    Refunds(db.ledger, o) == if db.orders[o].status.Failed? then 1 else 0
  }

  /** What a refund of a consistent order does: it closes and credits the order exactly when it was open. */
  ghost predicate RefundEffect(db: Db, db': Db, o: Id, refunded: bool)
    requires o in db.orders
  {
    var closes := Open(db.orders[o].status);
    && db'.orders == (if closes then db.orders[o := db.orders[o].(status := Failed)] else db.orders)
    && db'.services == db.services
    && refunded == db'.orders[o].status.Failed?
    && (forall x :: Refunds(db'.ledger, x) == Refunds(db.ledger, x) + if x == o && closes then 1 else 0)
    && (closes ==> db'.ledger != [] && Last(db'.ledger).amount == db.orders[o].price && Last(db'.ledger).user == db.orders[o].user)
  }

  /** A refund pays exactly the open orders, in full and exactly once, and touches no other order. */
  lemma RefundOutcome(init: map<Id, int>, db: Db, o: Id, seen: Order)
    requires DbInv(init, db) && o in db.orders && seen.Terms() == db.orders[o].Terms() && Consistent(db, o)
    ensures RefundEffect(db, RefundDefinite(db, o, seen).0, o, RefundDefinite(db, o, seen).1)
  {
    if Open(db.orders[o].status) {
      OpenRefundCredits(init, db, o, seen);
      CreditCounts(WithStatus(db, o, Failed), o, seen);
    }
  }

  /** An open order is closed as failed and its whole price is back with its buyer, once; nothing else changed. */
  ghost predicate PaidBack(db: Db, db': Db, o: Id) {
    && o in db.orders && Open(db.orders[o].status) && db.orders[o].user in db.users
    && var order := db.orders[o];
    && var u := db.users[order.user];
    && db' == db.(orders := db.orders[o := order.(status := Failed)],
                  users := db.users[order.user := u.(balance := u.balance + order.price, refunded := u.refunded + order.price)],
                  ledger := db.ledger + [LedgerRow(order.user, Refund, order.price, o, order.payment, u.balance, u.balance + order.price)])
    && order.price > 0 && Refunds(db.ledger, o) == 0 && Refunds(db'.ledger, o) == 1
  }

  /** Whoever refunds an open order that was never refunded, from whatever earlier reading of it, pays its buyer back. */
  lemma OpenRefundPaysBack(init: map<Id, int>, db: Db, o: Id, seen: Order)
    requires DbInv(init, db) && o in db.orders && seen.Terms() == db.orders[o].Terms()
    requires Open(db.orders[o].status) && Refunds(db.ledger, o) == 0
    ensures PaidBack(db, RefundDefinite(db, o, seen).0, o) && RefundDefinite(db, o, seen).1
  {
    hide DbInv, PaidBack, RefundDefinite, Credited, WithStatus;
    OpenRefundCredits(init, db, o, seen);
    TermsFields(seen, db.orders[o]);
    CreditPaysBack(db, o, seen);
  }

  lemma CreditPaysBack(db: Db, o: Id, seen: Order)
    requires o in db.orders && seen.user in db.users && seen.price > 0 && seen == db.orders[o].(status := seen.status)
    requires Open(db.orders[o].status) && Refunds(db.ledger, o) == 0
    ensures PaidBack(db, Credited(WithStatus(db, o, Failed), o, seen), o)
  {
    CreditCounts(WithStatus(db, o, Failed), o, seen);
  }

  /** A closed order is left alone, and the answer says whether it was refunded. */
  lemma ClosedRefundStays(db: Db, o: Id, seen: Order)
    requires o in db.orders && !Open(db.orders[o].status)
    ensures RefundDefinite(db, o, seen) == (db, Refunds(db.ledger, o) > 0)
  {
  }

  /** What else a refund meets: an order paid back before, one without a price, or a buyer who is gone. */
  lemma UnpayableRefund(db: Db, o: Id, seen: Order)
    requires o in db.orders && Open(db.orders[o].status)
    ensures Refunds(db.ledger, o) > 0 || seen.price <= 0 ==> RefundDefinite(db, o, seen) == (WithStatus(db, o, Failed), true)
    ensures Refunds(db.ledger, o) == 0 && seen.price > 0 && seen.user !in db.users ==> RefundDefinite(db, o, seen) == (db, false)
  {
  }

  /** Whatever the status was, the repair leaves COMPLETED and changes nothing else; a claim takes PAID to PROVISIONING and nothing else. */
  lemma StatusSteps(db: Db, o: Id)
    requires o in db.orders
    ensures MarkCompleted(db, o) == db.(orders := db.orders[o := db.orders[o].(status := Completed)])
    ensures ClaimPaid(db, o).1 <==> db.orders[o].status == Paid
    ensures ClaimPaid(db, o).0 == if ClaimPaid(db, o).1 then db.(orders := db.orders[o := db.orders[o].(status := Provisioning)]) else db
  {
    assert db.orders[o].status.Completed? ==> db.orders[o := db.orders[o]] == db.orders;
  }

  /** A delivery completes a PROVISIONING order only, and an adoption any; neither stores a second service. */
  lemma DeliveryStatus(db: Db, o: Id, s: Id, service: Service)
    requires o in db.orders
    ensures var stored := db.(services := db.services[s := service]);
            var completed := stored.(orders := db.orders[o := db.orders[o].(status := Completed)]);
            if ServicesOf(db.services, o) != {} then Persist(db, o, s, service) == db && Adopt(db, o, s, service) == db
            else Persist(db, o, s, service) == (if db.orders[o].status == Provisioning then completed else stored)
                 && Adopt(db, o, s, service) == completed
  {
  }

  /** The buyer's service under its username, unused, with the gigabytes and days that were bought. */
  ghost predicate AsBought(s: Service, o: Id, order: Order, username: Id, now: int) {
    && s.order == Some(o) && s.user == order.user && s.username == username && !s.deleted && s.used == 0
    && s.remaining == s.volumeBytes
    && (order.volumeGb.Some? && order.volumeGb.value > 0 ==> s.volumeBytes == order.volumeGb.value * 1073741824)
    && (order.volumeGb.None? || order.volumeGb.value <= 0 ==> s.volumeBytes == 0)
    && (order.durationDays.Some? && order.durationDays.value > 0 ==>
          s.expiresAt == Some(now + order.durationDays.value * 24 * 60 * 60 * 1000))
    && (order.durationDays.None? || order.durationDays.value <= 0 ==> s.expiresAt.None?)
  }

  /** The buyer's account as the panel reported it, with the bought gigabytes when no limit was reported. */
  ghost predicate AsReported(s: Service, o: Id, order: Order, username: Id, r: Reading) {
    && s.order == Some(o) && s.user == order.user && s.username == username && !s.deleted
    && s.expiresAt == r.expiresAt
    && (r.total.Some? ==> s.volumeBytes == r.total.value)
    && (r.total.None? ==> s.volumeBytes == if order.volumeGb.Some? then order.volumeGb.value * 1073741824 else 0)
    && s.remaining == (if r.remaining.Some? then r.remaining.value else 0)
    && s.used == (if r.used.Some? then r.used.value else 0)
  }

  /** Both services hold for the order as it is now, whatever its status was when it was read. */
  lemma ServicesOfOrder(o: Id, seen: Order, order: Order, username: Id, now: int, r: Reading)
    requires seen.Terms() == order.Terms()
    ensures AsBought(ProvisionedService(o, seen, username, now), o, order, username, now)
    ensures AsReported(AdoptedService(o, seen, username, r), o, order, username, r)
  {
    TermsFields(seen, order);
  }

  /** One service is stored and its order completed; nothing else changes. */
  ghost predicate DeliveredAs(db: Db, db': Db, o: Id, s: Id) {
    && o in db.orders && s !in db.services && s in db'.services
    && db' == db.(services := db.services[s := db'.services[s]], orders := db.orders[o := db.orders[o].(status := Completed)])
  }

  /** An open order without a service is delivered, by either transaction the order's status admits. */
  lemma OpenIsDelivered(db: Db, o: Id, s: Id, service: Service)
    requires o in db.orders && s !in db.services && ServicesOf(db.services, o) == {}
    ensures DeliveredAs(db, Adopt(db, o, s, service), o, s) && Adopt(db, o, s, service).services[s] == service
    ensures db.orders[o].status.Provisioning? ==> Persist(db, o, s, service) == Adopt(db, o, s, service)
  {
  }
}
