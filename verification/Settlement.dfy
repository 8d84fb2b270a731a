/**
 The one atomic wallet settlement: what the boundary accepts, what the transaction does to the
 database, and what every settlement keeps true.
 */
module Settlement {
  import opened Wrappers
  import opened CommerceDb
  import opened Ledger
  import opened Discount
  import F = Fingerprint

  // ---- the boundary ---------------------------------------------------------------------------

  /** A number as the transport may send it: an integer of any size, or something else. */
  datatype JsNumber = Whole(n: int) | NotWhole

  const MAX_SAFE_INTEGER := 9007199254740991

  predicate SafeInteger(x: JsNumber) {
    x.Whole? && -MAX_SAFE_INTEGER <= x.n <= MAX_SAFE_INTEGER
  }

  datatype Amounts = Amounts(
    original: JsNumber, discount: JsNumber, final: JsNumber,
    frozenOriginal: Option<JsNumber>, frozenDiscount: Option<JsNumber>, frozenFinal: Option<JsNumber>)

  predicate ValidAmounts(a: Amounts) {
    && SafeInteger(a.original) && SafeInteger(a.discount) && SafeInteger(a.final)
    && a.original.n > 0 && a.discount.n >= 0 && a.final.n > 0
    && a.discount.n <= a.original.n && a.original.n - a.discount.n == a.final.n
    && a.frozenOriginal == Some(a.original) && a.frozenDiscount == Some(a.discount) && a.frozenFinal == Some(a.final)
  }

  /** One settlement request whose amounts passed the boundary. */
  datatype Request = Request(
    user: Id, kind: OrderKind, product: Id, service: Option<Id>,
    original: int, discount: int, price: int, code: Option<Id>, key: string, existing: Option<Id>,
    volumeGb: Option<int>, durationDays: Option<int>)

  predicate Priced(r: Request) {
    r.price > 0 && r.discount >= 0 && r.original - r.discount == r.price
  }

  /**
   The boundary lets through exactly the priced requests whose amounts are safe integers and equal to the frozen
   copy; that the discount does not exceed the original price is then implied.
   */
  lemma BoundaryAdmitsPriced(a: Amounts, r: Request)
    requires a.original == Whole(r.original) && a.discount == Whole(r.discount) && a.final == Whole(r.price)
    ensures ValidAmounts(a) <==>
              && Priced(r) && r.original <= MAX_SAFE_INTEGER
              && a.frozenOriginal == Some(a.original) && a.frozenDiscount == Some(a.discount) && a.frozenFinal == Some(a.final)
  {
  }

  function KindText(k: OrderKind): string {
    match k
    case Purchase => "SERVICE_PURCHASE"
    case Renewal => "SERVICE_RENEWAL"
    case ExtraVolume => "EXTRA_VOLUME"
    case ExtraTime => "EXTRA_TIME"
    case OtherProduct => "OTHER_PRODUCT"
  }

  function PayloadParts(r: Request): seq<string> {
    [r.user, KindText(r.kind), r.product, F.OrDash(r.service), F.IntText(r.original), F.IntText(r.discount),
     F.IntText(r.price), F.OrDash(r.code), F.OrDash(r.existing)]
  }

  function PayloadFingerprint(r: Request): string {
    F.Join(PayloadParts(r))
  }

  predicate PlainRequest(r: Request) {
    && F.Clean(r.user) && F.Clean(r.product)
    && F.PlainOption(r.service) && F.PlainOption(r.code) && F.PlainOption(r.existing)
  }

  /** The two requests ask for the same purchase at the same price. */
  predicate SamePurchase(a: Request, b: Request) {
    && a.user == b.user && a.kind == b.kind && a.product == b.product && a.service == b.service
    && a.original == b.original && a.discount == b.discount && a.price == b.price
    && a.code == b.code && a.existing == b.existing
  }

  /** A key's fingerprint pins down everything the money depends on, and nothing else. */
  lemma FingerprintBindsPurchase(a: Request, b: Request)
    requires PlainRequest(a) && PlainRequest(b)
    ensures PayloadFingerprint(a) == PayloadFingerprint(b) <==> SamePurchase(a, b)
  {
    PartsBindPurchase(a, b);
    hide F.Join, F.IntText, KindText, SamePurchase;
    JoinablePayload(a);
    JoinablePayload(b);
    F.JoinInjective(PayloadParts(a), PayloadParts(b));
  }

  lemma JoinablePayload(r: Request)
    requires PlainRequest(r)
    ensures forall s :: s in PayloadParts(r) ==> F.Clean(s)
  {
    hide F.IntText;
    F.IntTextInjective(r.original, r.original);
    F.IntTextInjective(r.discount, r.discount);
    F.IntTextInjective(r.price, r.price);
  }

  lemma PartsBindPurchase(a: Request, b: Request)
    requires PlainRequest(a) && PlainRequest(b)
    ensures PayloadParts(a) == PayloadParts(b) <==> SamePurchase(a, b)
  {
    hide F.IntText, F.Clean;
    var x, y := PayloadParts(a), PayloadParts(b);
    F.IntTextInjective(a.original, b.original);
    F.IntTextInjective(a.discount, b.discount);
    F.IntTextInjective(a.price, b.price);
    if x == y {
      assert x[0] == y[0] && x[1] == y[1] && x[2] == y[2] && x[3] == y[3] && x[4] == y[4];
      assert x[5] == y[5] && x[6] == y[6] && x[7] == y[7] && x[8] == y[8];
      KindTextInjective(a.kind, b.kind);
    }
  }

  lemma KindTextInjective(a: OrderKind, b: OrderKind)
    ensures KindText(a) == KindText(b) ==> a == b
  {
    assert |KindText(Purchase)| == 16 && |KindText(Renewal)| == 15 && |KindText(ExtraVolume)| == 12
        && |KindText(ExtraTime)| == 10 && |KindText(OtherProduct)| == 13;
  }

  predicate CleanRequest(r: Request) {
    && F.Clean(r.user) && F.Clean(r.product)
    && F.CleanOption(r.service) && F.CleanOption(r.code) && F.CleanOption(r.existing)
  }

  function UndashedRequest(r: Request): Request {
    r.(service := F.Undashed(r.service), code := F.Undashed(r.code), existing := F.Undashed(r.existing))
  }

  /** Without the dash test: NUL-free requests share a fingerprint exactly when they agree once dashes are read as absent. */
  lemma FingerprintUpToDashes(a: Request, b: Request)
    requires CleanRequest(a) && CleanRequest(b)
    ensures PayloadFingerprint(a) == PayloadFingerprint(b) <==> SamePurchase(UndashedRequest(a), UndashedRequest(b))
  {
    FingerprintBindsPurchase(UndashedRequest(a), UndashedRequest(b));
    assert PayloadParts(UndashedRequest(a)) == PayloadParts(a) && PayloadParts(UndashedRequest(b)) == PayloadParts(b);
    hide F.Join;
  }

  // ---- the replay lookup -----------------------------------------------------------------------

  /** What a settled payment answers with; `row.after` is the balance reported to the caller. */
  datatype Receipt = Receipt(payment: Id, order: Id, checkout: Id, row: LedgerRow)

  function FindSpend(rows: seq<LedgerRow>, payment: Id): Option<LedgerRow> {
    if rows == [] then None
    else if rows[0].payment == payment && rows[0].kind.Spend? then Some(rows[0])
    else FindSpend(rows[1..], payment)
  }

  predicate KeyTaken(db: Db, key: string) {
    exists p :: p in db.payments && db.payments[p].key == key
  }

  ghost function PaymentOf(db: Db, key: string): Id
    requires KeyTaken(db, key)
  {
    var p :| p in db.payments && db.payments[p].key == key; p
  }

  /** The settled result of a key, with the fingerprint stored beside it. */
  ghost function LoadExisting(db: Db, key: string): Option<(Receipt, Option<string>)> {
    if !KeyTaken(db, key) then None
    else
      var p := PaymentOf(db, key);
      var row := FindSpend(db.ledger, p);
      if db.payments[p].order.None? || db.payments[p].order.value !in db.orders ||
         db.payments[p].checkout !in db.checkouts || row.None? then None
      else Some((Receipt(p, db.payments[p].order.value, db.payments[p].checkout, row.value), db.payments[p].fingerprint))
  }

  // ---- the transaction ---------------------------------------------------------------------------

  datatype Failure =
    | InvalidFinancialInput | UserNotActive | WalletDisabled | DraftStale | ReservationStale
    | InsufficientBalance | DiscountChanged | IdempotencyConflict

  datatype TxResult = Committed(receipt: Receipt) | Aborted(code: Failure) | UniqueViolation

  /** The row ids a transaction draws; random uuids, so never already present. */
  datatype Ids = Ids(checkout: Id, payment: Id, order: Id)

  predicate FreshIds(db: Db, ids: Ids) {
    ids.checkout !in db.checkouts && ids.payment !in db.payments && ids.order !in db.orders
  }

  /** The existing draft still is the one the user priced. */
  predicate DraftSettleable(db: Db, r: Request, now: int) {
    r.existing.Some? && r.existing.value in db.checkouts &&
    var c := db.checkouts[r.existing.value];
    && c.user == r.user && c.kind == r.kind && c.product == r.product && c.price == r.price
    && c.pending && c.settledBy.None? && c.expiresAt > now
  }

  function CheckoutId(r: Request, ids: Ids): Id {
    r.existing.GetOr(ids.checkout)
  }

  predicate CheckoutOrdered(db: Db, checkout: Id) {
    exists o :: o in db.orders && db.orders[o].checkout == checkout
  }

  function NewUsage(r: Request, ids: Ids, code: Id): Usage {
    Usage(code, r.user, ids.order, CheckoutId(r, ids), r.discount)
  }

  predicate NeedsClaim(r: Request) {
    r.code.Some? && r.discount > 0
  }

  function ClaimFor(db: Db, r: Request, ids: Ids, now: int): ClaimResult
    requires NeedsClaim(r)
  {
    Claim(db.codes, db.usages, NewUsage(r, ids, r.code.value), now)
  }

  /** The first statement that stops the transaction, if any does. */
  function Obstacle(db: Db, r: Request, ids: Ids, now: int, reservationHeld: bool): Option<TxResult> {
    if r.existing.Some? && !DraftSettleable(db, r, now) then Some(Aborted(DraftStale))
    else if KeyTaken(db, r.key) || CheckoutOrdered(db, CheckoutId(r, ids)) then Some(UniqueViolation)
    else if r.user !in db.users || !db.users[r.user].active then Some(Aborted(UserNotActive))
    else if !reservationHeld then Some(Aborted(ReservationStale))
    else if db.users[r.user].balance < r.price then Some(Aborted(InsufficientBalance))
    else if NeedsClaim(r) && ClaimFor(db, r, ids, now).outcome.ClaimFailed? then Some(Aborted(DiscountChanged))
    else None
  }

  function NewOrder(r: Request, ids: Ids): Order {
    Order(r.user, r.kind, Paid, r.product, r.service, ids.payment, CheckoutId(r, ids), r.price, r.discount,
          r.code, r.volumeGb, r.durationDays)
  }

  function NewPayment(r: Request, fp: string, ids: Ids): Payment {
    Payment(r.user, CheckoutId(r, ids), r.price, r.key, Some(fp), Some(ids.order))
  }

  function NewCheckout(db: Db, r: Request, ids: Ids, expiresAt: int): Checkout
    requires r.existing.Some? ==> r.existing.value in db.checkouts
  {
    if r.existing.Some? then db.checkouts[r.existing.value].(pending := false, settledBy := Some(ids.payment))
    else Checkout(r.user, r.kind, r.product, r.price, false, Some(ids.payment), expiresAt)
  }

  function SpendRow(db: Db, r: Request, ids: Ids): LedgerRow
    requires r.user in db.users
  {
    var before := db.users[r.user].balance;
    LedgerRow(r.user, Spend, r.price, ids.order, ids.payment, before, before - r.price)
  }

  /** Everything a committed settlement changes, at once. */
  function Settled(db: Db, r: Request, fp: string, ids: Ids, now: int, expiresAt: int): Db
    requires r.user in db.users
    requires r.existing.Some? ==> r.existing.value in db.checkouts
  {
    var row := SpendRow(db, r, ids);
    Db(db.users[r.user := Booked(db.users[r.user], row)],
       db.ledger + [row],
       db.checkouts[CheckoutId(r, ids) := NewCheckout(db, r, ids, expiresAt)],
       db.payments[ids.payment := NewPayment(r, fp, ids)],
       db.orders[ids.order := NewOrder(r, ids)],
       if NeedsClaim(r) then ClaimFor(db, r, ids, now).codes else db.codes,
       if NeedsClaim(r) then ClaimFor(db, r, ids, now).usages else db.usages,
       db.services, db.events)
  }

  /** `fp` is the request's fingerprint, computed before the transaction starts. */
  function SettleTx(db: Db, r: Request, fp: string, ids: Ids, now: int, expiresAt: int, held: bool): (Db, TxResult) {
    var stop := Obstacle(db, r, ids, now, held);
    if stop.Some? then (db, stop.value)
    else (Settled(db, r, fp, ids, now, expiresAt), Committed(NewReceipt(db, r, ids)))
  }

  function NewReceipt(db: Db, r: Request, ids: Ids): Receipt
    requires r.user in db.users
  {
    Receipt(ids.payment, ids.order, CheckoutId(r, ids), SpendRow(db, r, ids))
  }

  // ---- what every settlement keeps ------------------------------------------------------------------

  /** Payments, orders, checkouts and ledger rows pair up one to one, and a key names one payment. */
  ghost predicate KeysInv(db: Db) {
    && (forall p, q :: p in db.payments && q in db.payments && db.payments[p].key == db.payments[q].key ==> p == q)
    && (forall p :: p in db.payments ==> PaymentPaired(db, p))
    && (forall o :: o in db.orders ==> OrderPaired(db, o))
  }

  ghost predicate PaymentPaired(db: Db, p: Id) {
    p in db.payments &&
    var pay := db.payments[p];
    && pay.order.Some? && pay.order.value in db.orders && db.orders[pay.order.value].payment == p
    && pay.amount == db.orders[pay.order.value].price
  }

  ghost predicate OrderPaired(db: Db, o: Id) {
    o in db.orders &&
    var ord := db.orders[o];
    && ord.price > 0
    && ord.payment in db.payments && db.payments[ord.payment].order == Some(o)
    && db.payments[ord.payment].checkout == ord.checkout
    && ord.checkout in db.checkouts
    && !db.checkouts[ord.checkout].pending && db.checkouts[ord.checkout].settledBy == Some(ord.payment)
  }

  /** A discounted order that names a code holds exactly one usage of it; any other order holds none. */
  ghost predicate UsagesInv(orders: Orders, usages: seq<Usage>) {
    && (forall i :: 0 <= i < |usages| ==> UsageOfOrder(orders, usages[i]))
    && (forall o :: o in orders ==> CountOrder(usages, o) == if orders[o].code.Some? && orders[o].discount > 0 then 1 else 0)
  }

  ghost predicate UsageOfOrder(orders: Orders, x: Usage) {
    x.order in orders &&
    var o := orders[x.order];
    o.code == Some(x.code) && o.user == x.user && o.checkout == x.checkout && o.discount == x.amount
  }

  ghost predicate DbInv(init: map<Id, int>, db: Db) {
    MoneyInv(init, db) && KeysInv(db) && CapsInv(db.codes, db.usages) && UsagesInv(db.orders, db.usages)
  }

  /** Nothing but a committed settlement changes the database. */
  lemma AbortChangesNothing(db: Db, r: Request, fp: string, ids: Ids, now: int, expiresAt: int, held: bool)
    ensures var (db', res) := SettleTx(db, r, fp, ids, now, expiresAt, held);
            res.Committed? <==> db' != db
  {
    if Obstacle(db, r, ids, now, held).None? {
      var db' := Settled(db, r, fp, ids, now, expiresAt);
      assert |db'.ledger| == |db.ledger| + 1;
    }
  }

  /** A draft's checkout belongs to no order and no usage yet, and neither does a fresh one. */
  lemma UncheckedOutIsUnclaimed(db: Db, r: Request, ids: Ids, now: int)
    requires KeysInv(db) && UsagesInv(db.orders, db.usages) && FreshIds(db, ids)
    requires r.existing.Some? ==> DraftSettleable(db, r, now)
    ensures !CheckoutClaimed(db.usages, CheckoutId(r, ids))
  {
    forall i | 0 <= i < |db.usages| ensures db.usages[i].checkout != CheckoutId(r, ids) {
      assert UsageOfOrder(db.orders, db.usages[i]);
      assert OrderPaired(db, db.usages[i].order);
    }
  }

  /** Adding one paired payment, order and settled checkout keeps everything paired. */
  lemma PairsGrow(db: Db, db': Db, p: Id, pay: Payment, o: Id, order: Order, c: Id, checkout: Checkout)
    requires KeysInv(db)
    requires p !in db.payments && o !in db.orders && !KeyTaken(db, pay.key) && !CheckoutOrdered(db, c)
    requires db'.payments == db.payments[p := pay] && db'.orders == db.orders[o := order]
    requires db'.checkouts == db.checkouts[c := checkout]
    requires pay.order == Some(o) && pay.checkout == c && pay.amount == order.price && order.price > 0
    requires order.payment == p && order.checkout == c && !checkout.pending && checkout.settledBy == Some(p)
    ensures KeysInv(db')
  {
    forall q | q in db'.payments ensures PaymentPaired(db', q) {
      if q != p {
        assert PaymentPaired(db, q);
      }
    }
    forall x | x in db'.orders ensures OrderPaired(db', x) {
      if x != o {
        assert OrderPaired(db, x);
      }
    }
  }

  /** Adding one order, with a usage exactly when it needs one, keeps usages and orders matched. */
  lemma UsagesGrow(orders: Orders, usages: seq<Usage>, usages': seq<Usage>, o: Id, order: Order)
    requires UsagesInv(orders, usages) && o !in orders
    requires if order.code.Some? && order.discount > 0
             then usages' == usages + [Usage(order.code.value, order.user, o, order.checkout, order.discount)]
             else usages' == usages
    ensures UsagesInv(orders[o := order], usages')
  {
    forall i | 0 <= i < |usages| ensures UsageOfOrder(orders[o := order], usages[i]) && usages[i].order != o {
      assert UsageOfOrder(orders, usages[i]);
    }
    UnusedOrder(usages, o);
    AppendUsage(usages, Usage(order.code.GetOr(o), order.user, o, order.checkout, order.discount));
  }

  lemma SettledKeepsMoney(init: map<Id, int>, db: Db, r: Request, fp: string, ids: Ids, now: int, expiresAt: int)
    requires MoneyInv(init, db) && ids.order !in db.orders && r.price > 0
    requires r.user in db.users && db.users[r.user].balance >= r.price
    requires r.existing.Some? ==> r.existing.value in db.checkouts
    ensures MoneyInv(init, Settled(db, r, fp, ids, now, expiresAt))
  {
    RecordSpend(init, db, Settled(db, r, fp, ids, now, expiresAt), SpendRow(db, r, ids), NewOrder(r, ids));
  }

  lemma SettledKeepsPairs(db: Db, r: Request, fp: string, ids: Ids, now: int, expiresAt: int)
    requires KeysInv(db) && FreshIds(db, ids) && r.price > 0
    requires !KeyTaken(db, r.key) && !CheckoutOrdered(db, CheckoutId(r, ids))
    requires r.user in db.users && (r.existing.Some? ==> r.existing.value in db.checkouts)
    ensures KeysInv(Settled(db, r, fp, ids, now, expiresAt))
  {
    PairsGrow(db, Settled(db, r, fp, ids, now, expiresAt), ids.payment, NewPayment(r, fp, ids), ids.order, NewOrder(r, ids),
              CheckoutId(r, ids), NewCheckout(db, r, ids, expiresAt));
  }

  lemma SettledKeepsUsages(db: Db, r: Request, fp: string, ids: Ids, now: int, expiresAt: int)
    requires UsagesInv(db.orders, db.usages) && CapsInv(db.codes, db.usages) && ids.order !in db.orders
    requires r.user in db.users && (r.existing.Some? ==> r.existing.value in db.checkouts)
    requires !CheckoutClaimed(db.usages, CheckoutId(r, ids))
    requires NeedsClaim(r) ==> !ClaimFor(db, r, ids, now).outcome.ClaimFailed?
    ensures var db' := Settled(db, r, fp, ids, now, expiresAt);
            UsagesInv(db'.orders, db'.usages) && CapsInv(db'.codes, db'.usages)
  {
    UsagesGrow(db.orders, db.usages, Settled(db, r, fp, ids, now, expiresAt).usages, ids.order, NewOrder(r, ids));
    if NeedsClaim(r) {
      ClaimKeepsCaps(db.codes, db.usages, NewUsage(r, ids, r.code.value), now);
    }
  }

  /** A settlement, committed or not, keeps money, keys, caps and usages in order. */
  lemma SettleKeepsInv(init: map<Id, int>, db: Db, r: Request, fp: string, ids: Ids, now: int, expiresAt: int, held: bool)
    requires DbInv(init, db) && FreshIds(db, ids) && Priced(r)
    ensures DbInv(init, SettleTx(db, r, fp, ids, now, expiresAt, held).0)
  {
    if Obstacle(db, r, ids, now, held).None? {
      UncheckedOutIsUnclaimed(db, r, ids, now);
      SettledKeepsMoney(init, db, r, fp, ids, now, expiresAt);
      SettledKeepsPairs(db, r, fp, ids, now, expiresAt);
      SettledKeepsUsages(db, r, fp, ids, now, expiresAt);
    }
  }

  /** A positive discount without a code id settles at the reduced price and records no usage. */
  lemma NamelessDiscountLeavesNoUsage(db: Db, r: Request, fp: string, ids: Ids, now: int, expiresAt: int)
    requires r.code.None? && r.discount > 0
    requires Obstacle(db, r, ids, now, true).None?
    ensures var db' := SettleTx(db, r, fp, ids, now, expiresAt, true).0;
            ids.order in db'.orders && db'.orders[ids.order].discount > 0 && db'.usages == db.usages && db'.codes == db.codes
  {
  }

  // ---- what a settlement leaves, field by field ------------------------------------------------------------------

  /** The draft is still there, still the user's, still what was priced, unsettled and in time. */
  predicate DraftAsPriced(db: Db, r: Request, now: int) {
    r.existing.Some? ==>
      && r.existing.value in db.checkouts
      && var c := db.checkouts[r.existing.value];
      && c.pending && c.settledBy == None && now < c.expiresAt
      && c.user == r.user && c.kind == r.kind && c.product == r.product && c.price == r.price
  }

  /** The request's code admits one more use, or this checkout has used it before, or it asks for none. */
  predicate DiscountStands(db: Db, r: Request, ids: Ids, now: int) {
    r.code.Some? && r.discount > 0 ==>
      || Claimable(db.codes, db.usages, r.code.value, r.user, now)
      || exists i :: 0 <= i < |db.usages| && db.usages[i].checkout == CheckoutId(r, ids)
  }

  predicate ActiveBuyer(db: Db, r: Request) {
    r.user in db.users && db.users[r.user].active
  }

  predicate Duplicate(db: Db, r: Request, ids: Ids) {
    (exists p :: p in db.payments && db.payments[p].key == r.key) || (exists o :: o in db.orders && db.orders[o].checkout == CheckoutId(r, ids))
  }

  /** It commits exactly when nothing stands against it, and otherwise reports the first thing that does. */
  lemma SettlesExactlyWhen(db: Db, r: Request, fp: string, ids: Ids, now: int, expiresAt: int, held: bool)
    ensures var res := SettleTx(db, r, fp, ids, now, expiresAt, held).1;
            if !DraftAsPriced(db, r, now) then res == Aborted(DraftStale)
            else if Duplicate(db, r, ids) then res == UniqueViolation
            else if !ActiveBuyer(db, r) then res == Aborted(UserNotActive)
            else if !held then res == Aborted(ReservationStale)
            else if db.users[r.user].balance < r.price then res == Aborted(InsufficientBalance)
            else if !DiscountStands(db, r, ids, now) then res == Aborted(DiscountChanged)
            else res.Committed?
  {
    hide Settled, NewReceipt, Claimable;
  }

  /** The order holds what was asked for and the two rows that pay for it. */
  lemma OrderAsAsked(db: Db, r: Request, fp: string, ids: Ids, now: int, expiresAt: int, held: bool)
    requires SettleTx(db, r, fp, ids, now, expiresAt, held).1.Committed?
    ensures var db' := SettleTx(db, r, fp, ids, now, expiresAt, held).0;
            && ids.order in db'.orders && db'.orders == db.orders[ids.order := db'.orders[ids.order]]
            && var o := db'.orders[ids.order];
            && o.user == r.user && o.kind == r.kind && o.product == r.product && o.service == r.service && o.status == Paid
            && o.volumeGb == r.volumeGb && o.durationDays == r.durationDays
            && o.price == r.price && o.discount == r.discount && o.code == r.code
            && o.payment == ids.payment && o.checkout == (if r.existing.Some? then r.existing.value else ids.checkout)
  {
    NothingOpposed(db, r, fp, ids, now, expiresAt, held);
    hide Obstacle, NewCheckout, NewPayment, SpendRow, ClaimFor;
    ObstacleNeedsUser(db, r, ids, now, held);
  }

  lemma ObstacleNeedsUser(db: Db, r: Request, ids: Ids, now: int, held: bool)
    requires Obstacle(db, r, ids, now, held).None?
    ensures r.user in db.users && db.users[r.user].balance >= r.price && (r.existing.Some? ==> r.existing.value in db.checkouts)
  {
  }

  lemma NothingOpposed(db: Db, r: Request, fp: string, ids: Ids, now: int, expiresAt: int, held: bool)
    requires SettleTx(db, r, fp, ids, now, expiresAt, held).1.Committed?
    ensures Obstacle(db, r, ids, now, held).None?
  {
    hide Settled, NewReceipt;
  }

  /** The payment, its checkout and its one ledger row name each other, the buyer and the price. */
  lemma PaymentAsAsked(db: Db, r: Request, fp: string, ids: Ids, now: int, expiresAt: int, held: bool)
    requires SettleTx(db, r, fp, ids, now, expiresAt, held).1.Committed?
    ensures var (db', res) := SettleTx(db, r, fp, ids, now, expiresAt, held);
            var c := if r.existing.Some? then r.existing.value else ids.checkout;
            && ids.payment in db'.payments && db'.payments == db.payments[ids.payment := db'.payments[ids.payment]]
            && c in db'.checkouts && db'.checkouts == db.checkouts[c := db'.checkouts[c]]
            && var pay, checkout := db'.payments[ids.payment], db'.checkouts[c];
            && pay.user == r.user && pay.checkout == c && pay.amount == r.price && pay.key == r.key
            && pay.fingerprint == Some(fp) && pay.order == Some(ids.order)
            && !checkout.pending && checkout.settledBy == Some(ids.payment)
            && (r.existing.None? ==> checkout.user == r.user && checkout.kind == r.kind && checkout.product == r.product
                                     && checkout.price == r.price && checkout.expiresAt == expiresAt)
            && (r.existing.Some? ==> c in db.checkouts && checkout == db.checkouts[c].(pending := false, settledBy := Some(ids.payment)))
            && res.receipt.payment == ids.payment && res.receipt.order == ids.order && res.receipt.checkout == c
  {
    NothingOpposed(db, r, fp, ids, now, expiresAt, held);
    hide Obstacle, NewOrder, SpendRow, ClaimFor;
    ObstacleNeedsUser(db, r, ids, now, held);
  }

  /** The buyer alone is charged, the price once, and the receipt is the row of that charge. */
  lemma ChargedOnce(db: Db, r: Request, fp: string, ids: Ids, now: int, expiresAt: int, held: bool)
    requires SettleTx(db, r, fp, ids, now, expiresAt, held).1.Committed?
    ensures var (db', res) := SettleTx(db, r, fp, ids, now, expiresAt, held);
            && r.user in db.users
            && var u := db.users[r.user];
            var row := LedgerRow(r.user, Spend, r.price, ids.order, ids.payment, u.balance, u.balance - r.price);
            && u.balance >= r.price && db'.ledger == db.ledger + [row] && res.receipt.row == row
            && db'.users == db.users[r.user := u.(balance := u.balance - r.price, spent := u.spent + r.price)]
            && db'.services == db.services && db'.events == db.events
  {
    NothingOpposed(db, r, fp, ids, now, expiresAt, held);
    hide Obstacle, NewOrder, NewPayment, NewCheckout, ClaimFor;
    ObstacleNeedsUser(db, r, ids, now, held);
  }

  /** A discount with a code leaves one usage of it, by this buyer for this order, and counts it; any other settlement leaves none. */
  lemma UsageAsAsked(db: Db, r: Request, fp: string, ids: Ids, now: int, expiresAt: int, held: bool)
    requires SettleTx(db, r, fp, ids, now, expiresAt, held).1.Committed?
    requires KeysInv(db) && UsagesInv(db.orders, db.usages) && FreshIds(db, ids)
    ensures var db' := SettleTx(db, r, fp, ids, now, expiresAt, held).0;
            if r.code.Some? && r.discount > 0
            then && r.code.value in db.codes
                 && db'.usages == db.usages + [Usage(r.code.value, r.user, ids.order, db'.orders[ids.order].checkout, r.discount)]
                 && db'.codes == db.codes[r.code.value := db.codes[r.code.value].(used := db.codes[r.code.value].used + 1)]
            else db'.usages == db.usages && db'.codes == db.codes
  {
    hide KeysInv, UsagesInv, NewPayment, NewCheckout, SpendRow, Obstacle, CheckoutClaimed, Claimable, DraftSettleable;
    NothingOpposed(db, r, fp, ids, now, expiresAt, held);
    ClaimedAnew(db, r, ids, now, held);
  }

  lemma ClaimedAnew(db: Db, r: Request, ids: Ids, now: int, held: bool)
    requires Obstacle(db, r, ids, now, held).None? && KeysInv(db) && UsagesInv(db.orders, db.usages) && FreshIds(db, ids)
    ensures r.user in db.users && (r.existing.Some? ==> r.existing.value in db.checkouts)
    ensures NeedsClaim(r) ==> r.code.value in db.codes && !CheckoutClaimed(db.usages, CheckoutId(r, ids))
                              && Claimable(db.codes, db.usages, r.code.value, r.user, now)
  {
    hide KeysInv, UsagesInv, CheckoutClaimed;
    UncheckedOutIsUnclaimed(db, r, ids, now);
  }
}
