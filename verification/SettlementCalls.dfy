/**
 Concurrent calls of the wallet settlement. Each call walks through the replay lookup, the gates,
 the transaction and, after a unique violation, the lookup of the winner; the steps of different
 calls, crashes and other transactions interleave freely.
 */
module SettlementCalls {
  import opened Wrappers
  import opened CommerceDb
  import opened Ledger
  import opened Discount
  import opened Settlement

  datatype Outcome = Answered(receipt: Receipt, newBalance: int, alreadyPaid: bool) | Refused(code: Failure) | Threw

  datatype Call =
    | Looking(r: Request)
    | Gating(r: Request)
    | Settling(r: Request)
    | Reloading(r: Request)
    | Done(r: Request, outcome: Outcome)

  datatype World = World(db: Db, calls: map<Id, Call>)

  datatype Event =
    | Arrive(c: Id, r: Request)
    | Look(c: Id)
    | Gate(c: Id, enabled: bool, settleable: bool)
    | Settle(c: Id, ids: Ids, now: int, expiresAt: int, held: bool)
    | Reload(c: Id)
    | Crash(c: Id)
    | Elsewhere(db: Db)

  predicate Kept(c: Checkout, c': Checkout) {
    c' == c || (c.settledBy.None? && c' == c.(pending := false))
  }

  /** Drafts come, pending and unsettled, and may be cancelled or expire; settled checkouts stay as they are. */
  predicate DraftsMove(checkouts: map<Id, Checkout>, checkouts': map<Id, Checkout>) {
    && (forall c :: c in checkouts ==> c in checkouts' && Kept(checkouts[c], checkouts'[c]))
    && (forall c :: c in checkouts' && c !in checkouts ==> checkouts'[c].pending && checkouts'[c].settledBy.None?)
  }

  /** Other transactions: they add no payment and no spend, keep every order's terms and append ledger rows. */
  ghost predicate OtherTransaction(init: map<Id, int>, db: Db, db': Db) {
    && DbInv(init, db')
    && db'.payments == db.payments && DraftsMove(db.checkouts, db'.checkouts) && SameTerms(db.orders, db'.orders)
    && db.ledger <= db'.ledger
  }

  /** The answer that a stored settlement gives to a request: its own result, or a conflict. */
  ghost function AnswerFrom(found: (Receipt, Option<string>), r: Request): Outcome {
    if found.1.Some? && found.1.value != PayloadFingerprint(r) then Refused(IdempotencyConflict)
    else Answered(found.0, found.0.row.after, true)
  }

  ghost function Step(init: map<Id, int>, w: World, e: Event): World {
    match e
    case Arrive(c, r) =>
      if c in w.calls || !Priced(r) then w else w.(calls := w.calls[c := Looking(r)])
    case Look(c) =>
      if c !in w.calls || !w.calls[c].Looking? then w
      else
        var r := w.calls[c].r;
        var found := LoadExisting(w.db, r.key);
        w.(calls := w.calls[c := if found.Some? then Done(r, AnswerFrom(found.value, r)) else Gating(r)])
    case Gate(c, enabled, settleable) =>
      if c !in w.calls || !w.calls[c].Gating? then w
      else
        var r := w.calls[c].r;
        w.(calls := w.calls[c := if !enabled then Done(r, Refused(WalletDisabled))
                                 else if r.existing.Some? && !settleable then Done(r, Refused(DraftStale))
                                 else Settling(r)])
    case Settle(c, ids, now, expiresAt, held) =>
      if c !in w.calls || !w.calls[c].Settling? || !FreshIds(w.db, ids) then w
      else
        var r := w.calls[c].r;
        var (db', res) := SettleTx(w.db, r, PayloadFingerprint(r), ids, now, expiresAt, held);
        World(db', w.calls[c := match res
                                case Committed(receipt) => Done(r, Answered(receipt, receipt.row.after, false))
                                case Aborted(code) => Done(r, Refused(code))
                                case UniqueViolation => Reloading(r)])
    case Reload(c) =>
      if c !in w.calls || !w.calls[c].Reloading? then w
      else
        var r := w.calls[c].r;
        var found := LoadExisting(w.db, r.key);
        w.(calls := w.calls[c := Done(r, if found.Some? then AnswerFrom(found.value, r) else Threw)])
    case Crash(c) => w.(calls := w.calls - {c})
    case Elsewhere(db') => if OtherTransaction(init, w.db, db') then w.(db := db') else w
  }

  ghost function Run(init: map<Id, int>, w: World, es: seq<Event>): World
    decreases |es|
  {
    if es == [] then w else Step(init, Run(init, w, Front(es)), Last(es))
  }

  // ---- lookups ------------------------------------------------------------------------------------

  lemma {:induction false} FindSpendFinds(rows: seq<LedgerRow>, p: Id)
    ensures match FindSpend(rows, p)
            case Some(row) => row in rows && row.payment == p && row.kind.Spend?
            case None => forall i :: 0 <= i < |rows| && rows[i].kind.Spend? ==> rows[i].payment != p
  {
    if rows != [] {
      FindSpendFinds(rows[1..], p);
      assert forall i :: 1 <= i < |rows| ==> rows[i] == rows[1..][i - 1];
    }
  }

  lemma {:induction false} FindSpendStable(rows: seq<LedgerRow>, more: seq<LedgerRow>, p: Id)
    requires FindSpend(rows, p).Some? && rows <= more
    ensures FindSpend(more, p) == FindSpend(rows, p)
  {
    if !(rows[0].payment == p && rows[0].kind.Spend?) {
      assert rows[1..] <= more[1..];
      FindSpendStable(rows[1..], more[1..], p);
    }
  }

  /** The receipt names one payment of the key, its order, its checkout and its one ledger row. */
  ghost predicate Stands(db: Db, key: string, t: Receipt) {
    t.payment in db.payments && t.order in db.orders && t.checkout in db.checkouts &&
    var pay := db.payments[t.payment];
    && pay.key == key && pay.order == Some(t.order) && pay.checkout == t.checkout
    && FindSpend(db.ledger, t.payment) == Some(t.row)
    && t.row.order == t.order && t.row.amount == pay.amount && t.row.user == db.orders[t.order].user
  }

  /** A taken key always loads, and what it loads stands. */
  lemma TakenKeyLoads(init: map<Id, int>, db: Db, key: string)
    requires MoneyInv(init, db) && KeysInv(db) && KeyTaken(db, key)
    ensures LoadExisting(db, key).Some?
    ensures Stands(db, key, LoadExisting(db, key).value.0)
    ensures LoadExisting(db, key).value.1 == db.payments[LoadExisting(db, key).value.0.payment].fingerprint
  {
    var p := PaymentOf(db, key);
    assert PaymentPaired(db, p);
    var o := db.payments[p].order.value;
    assert OrderPaired(db, o);
    CountPositive(db.ledger, o, Spend);
    FindSpendFinds(db.ledger, p);
    var i :| 0 <= i < |db.ledger| && db.ledger[i].order == o && db.ledger[i].kind == Spend;
    assert RowOfOrder(db.ledger[i], db.orders[o]);
    var row := FindSpend(db.ledger, p).value;
    assert RowOfOrder(row, db.orders[row.order]);
    assert OrderPaired(db, row.order);
  }

  /** One key has one standing receipt. */
  lemma OneReceiptPerKey(db: Db, key: string, s: Receipt, t: Receipt)
    requires KeysInv(db) && Stands(db, key, s) && Stands(db, key, t)
    ensures s == t
  {
  }

  /** Each payment was charged exactly once: one spend row carries its id. */
  lemma OneChargePerPayment(init: map<Id, int>, db: Db, p: Id)
    requires MoneyInv(init, db) && KeysInv(db) && p in db.payments
    ensures exists i :: 0 <= i < |db.ledger| && db.ledger[i].kind.Spend? && db.ledger[i].payment == p &&
                        db.ledger[i].amount == db.payments[p].amount
    ensures forall i, j :: 0 <= i < j < |db.ledger| && db.ledger[i].kind.Spend? && db.ledger[j].kind.Spend? ==>
              !(db.ledger[i].payment == p && db.ledger[j].payment == p)
  {
    TakenKeyLoads(init, db, db.payments[p].key);
    var t := LoadExisting(db, db.payments[p].key).value.0;
    FindSpendFinds(db.ledger, p);
    forall i, j | 0 <= i < j < |db.ledger| && db.ledger[i].kind.Spend? && db.ledger[j].kind.Spend?
      ensures !(db.ledger[i].payment == p && db.ledger[j].payment == p)
    {
      assert RowOfOrder(db.ledger[i], db.orders[db.ledger[i].order]) && RowOfOrder(db.ledger[j], db.orders[db.ledger[j].order]);
      assert OrderPaired(db, db.ledger[i].order) && OrderPaired(db, db.ledger[j].order);
    }
  }

  // ---- the invariant of a run -----------------------------------------------------------------------

  ghost predicate CallTrue(db: Db, call: Call) {
    Priced(call.r) &&
    (call.Done? && call.outcome.Answered? ==>
       && Stands(db, call.r.key, call.outcome.receipt)
       && call.outcome.newBalance == call.outcome.receipt.row.after
       && var fp := db.payments[call.outcome.receipt.payment].fingerprint;
          fp.Some? ==> fp.value == PayloadFingerprint(call.r))
  }

  predicate Charged(call: Call) {
    call.Done? && call.outcome.Answered? && !call.outcome.alreadyPaid
  }

  ghost predicate CallsInv(db: Db, calls: map<Id, Call>) {
    && (forall c :: c in calls ==> CallTrue(db, calls[c]))
    && (forall c, d :: c in calls && d in calls && c != d && Charged(calls[c]) && Charged(calls[d]) ==>
          calls[c].outcome.receipt.payment != calls[d].outcome.receipt.payment)
  }

  ghost predicate Inv(init: map<Id, int>, w: World) {
    && DbInv(init, w.db)
    && CallsInv(w.db, w.calls)
  }

  /** Receipts stand through every later database change. */
  ghost predicate Extends(db: Db, db': Db) {
    && db.ledger <= db'.ledger
    && (forall p :: p in db.payments ==> p in db'.payments && db'.payments[p] == db.payments[p])
    && (forall o :: o in db.orders ==> o in db'.orders && db'.orders[o].Terms() == db.orders[o].Terms())
    && (forall c :: c in db.checkouts ==> c in db'.checkouts)
  }

  lemma StandsLater(db: Db, db': Db, key: string, t: Receipt)
    requires Extends(db, db') && Stands(db, key, t)
    ensures Stands(db', key, t)
  {
    FindSpendStable(db.ledger, db'.ledger, t.payment);
    TermsFields(db'.orders[t.order], db.orders[t.order]);
  }

  lemma SettleExtends(db: Db, r: Request, fp: string, ids: Ids, now: int, expiresAt: int, held: bool)
    requires FreshIds(db, ids)
    ensures Extends(db, SettleTx(db, r, fp, ids, now, expiresAt, held).0)
  {
  }

  lemma NewReceiptStands(init: map<Id, int>, db: Db, r: Request, fp: string, ids: Ids, now: int, expiresAt: int)
    requires r.user in db.users && (r.existing.Some? ==> r.existing.value in db.checkouts)
    requires var db' := Settled(db, r, fp, ids, now, expiresAt); MoneyInv(init, db') && KeysInv(db')
    ensures Stands(Settled(db, r, fp, ids, now, expiresAt), r.key, NewReceipt(db, r, ids))
  {
    var db' := Settled(db, r, fp, ids, now, expiresAt);
    assert db'.payments[ids.payment] == NewPayment(r, fp, ids);
    OneChargePerPayment(init, db', ids.payment);
    FindSpendFinds(db'.ledger, ids.payment);
    var row := FindSpend(db'.ledger, ids.payment).value;
    var i :| 0 <= i < |db'.ledger| && db'.ledger[i] == row;
    assert db'.ledger[|db.ledger|] == SpendRow(db, r, ids);
    assert i == |db.ledger|;
  }

  lemma StepExtends(init: map<Id, int>, w: World, e: Event)
    ensures Extends(w.db, Step(init, w, e).db)
  {
    if e.Settle? && e.c in w.calls && w.calls[e.c].Settling? && FreshIds(w.db, e.ids) {
      var r := w.calls[e.c].r;
      SettleExtends(w.db, r, PayloadFingerprint(r), e.ids, e.now, e.expiresAt, e.held);
    }
  }

  lemma CallsStayTrue(db: Db, db': Db, calls: map<Id, Call>)
    requires Extends(db, db') && forall c :: c in calls ==> CallTrue(db, calls[c])
    ensures forall c :: c in calls ==> CallTrue(db', calls[c])
  {
    forall c | c in calls ensures CallTrue(db', calls[c]) {
      assert CallTrue(db, calls[c]);
      if calls[c].Done? && calls[c].outcome.Answered? {
        StandsLater(db, db', calls[c].r.key, calls[c].outcome.receipt);
      }
    }
  }

  /** A true call may replace an open one; a charged call needs a payment no earlier call reported. */
  lemma RecordCall(db: Db, calls: map<Id, Call>, c: Id, call: Call)
    requires CallsInv(db, calls) && CallTrue(db, call)
    requires Charged(call) ==> forall d :: d in calls && d != c && Charged(calls[d]) ==>
               calls[d].outcome.receipt.payment != call.outcome.receipt.payment
    ensures CallsInv(db, calls[c := call])
  {
  }

  lemma AnswerIsTrue(init: map<Id, int>, db: Db, r: Request)
    requires MoneyInv(init, db) && KeysInv(db) && Priced(r)
    ensures var found := LoadExisting(db, r.key);
            CallTrue(db, Done(r, if found.Some? then AnswerFrom(found.value, r) else Threw))
  {
    if KeyTaken(db, r.key) {
      TakenKeyLoads(init, db, r.key);
    }
  }

  lemma LookupKeepsInv(init: map<Id, int>, w: World, c: Id)
    requires c in w.calls && Inv(init, w)
    ensures Inv(init, Step(init, w, Look(c))) && Inv(init, Step(init, w, Reload(c)))
  {
    var r := w.calls[c].r;
    assert Priced(r);
    AnswerIsTrue(init, w.db, r);
    hide DbInv, CallsInv, CallTrue, LoadExisting, AnswerFrom;
    var found := LoadExisting(w.db, r.key);
    GateIsTrue(w.db, r);
    RecordCall(w.db, w.calls, c, Done(r, if found.Some? then AnswerFrom(found.value, r) else Threw));
    RecordCall(w.db, w.calls, c, Gating(r));
  }

  lemma GateIsTrue(db: Db, r: Request)
    requires Priced(r)
    ensures CallTrue(db, Gating(r)) && CallTrue(db, Settling(r)) && CallTrue(db, Done(r, Refused(WalletDisabled)))
    ensures CallTrue(db, Done(r, Refused(DraftStale))) && CallTrue(db, Looking(r))
  {
  }

  /** The payment of a commit is new, so no earlier call can have reported it. */
  lemma FreshPaymentUnreported(db: Db, calls: map<Id, Call>, ids: Ids)
    requires CallsInv(db, calls) && FreshIds(db, ids)
    ensures forall d :: d in calls && Charged(calls[d]) ==> calls[d].outcome.receipt.payment != ids.payment
  {
    forall d | d in calls && Charged(calls[d]) ensures calls[d].outcome.receipt.payment != ids.payment {
      assert CallTrue(db, calls[d]);
    }
  }

  lemma CommitKeepsCalls(init: map<Id, int>, db: Db, calls: map<Id, Call>, c: Id, ids: Ids, now: int, expiresAt: int)
    requires c in calls && calls[c].Settling? && FreshIds(db, ids)
    requires calls[c].r.user in db.users && (calls[c].r.existing.Some? ==> calls[c].r.existing.value in db.checkouts)
    requires CallsInv(db, calls)
    requires var db' := Settled(db, calls[c].r, PayloadFingerprint(calls[c].r), ids, now, expiresAt);
             MoneyInv(init, db') && KeysInv(db') && Extends(db, db')
    ensures var r := calls[c].r;
            var t := NewReceipt(db, r, ids);
            CallsInv(Settled(db, r, PayloadFingerprint(r), ids, now, expiresAt), calls[c := Done(r, Answered(t, t.row.after, false))])
  {
    var r := calls[c].r;
    hide PayloadFingerprint;
    var fp := PayloadFingerprint(r);
    var db', t := Settled(db, r, fp, ids, now, expiresAt), NewReceipt(db, r, ids);
    assert Priced(r);
    FreshPaymentUnreported(db, calls, ids);
    NewReceiptStands(init, db, r, fp, ids, now, expiresAt);
    assert db'.payments[ids.payment] == NewPayment(r, fp, ids);
    assert CallTrue(db', Done(r, Answered(t, t.row.after, false)));
    hide Settled, Stands, MoneyInv, KeysInv, CallTrue, Extends;
    CallsStayTrue(db, db', calls);
    RecordCall(db', calls, c, Done(r, Answered(t, t.row.after, false)));
  }

  lemma StoppedKeepsCalls(db: Db, calls: map<Id, Call>, c: Id, stop: TxResult)
    requires c in calls && !stop.Committed?
    requires CallsInv(db, calls)
    ensures CallsInv(db, calls[c := match stop
                                   case Committed(receipt) => Done(calls[c].r, Answered(receipt, receipt.row.after, false))
                                   case Aborted(code) => Done(calls[c].r, Refused(code))
                                   case UniqueViolation => Reloading(calls[c].r)])
  {
    assert Priced(calls[c].r);
  }

  lemma SettleStepKeepsInv(init: map<Id, int>, w: World, e: Event)
    requires e.Settle? && e.c in w.calls && w.calls[e.c].Settling? && FreshIds(w.db, e.ids)
    requires Inv(init, w)
    ensures Inv(init, Step(init, w, e))
  {
    var r := w.calls[e.c].r;
    hide PayloadFingerprint, DbInv, CallsInv, Extends, Settled, Obstacle, MoneyInv, KeysInv;
    var stop := Obstacle(w.db, r, e.ids, e.now, e.held);
    var fp := PayloadFingerprint(r);
    CallIsPriced(w.db, w.calls, e.c);
    if stop.None? {
      ObstacleNeedsUser(w.db, r, e.ids, e.now, e.held);
      SettleKeepsInv(init, w.db, r, fp, e.ids, e.now, e.expiresAt, e.held);
      SettleExtends(w.db, r, fp, e.ids, e.now, e.expiresAt, e.held);
      assert SettleTx(w.db, r, fp, e.ids, e.now, e.expiresAt, e.held).0 == Settled(w.db, r, fp, e.ids, e.now, e.expiresAt);
      MoneyAndKeys(init, Settled(w.db, r, fp, e.ids, e.now, e.expiresAt));
      CommitKeepsCalls(init, w.db, w.calls, e.c, e.ids, e.now, e.expiresAt);
    } else {
      StoppedKeepsCalls(w.db, w.calls, e.c, stop.value);
    }
  }

  lemma CallIsPriced(db: Db, calls: map<Id, Call>, c: Id)
    requires CallsInv(db, calls) && c in calls
    ensures Priced(calls[c].r)
  {
    assert CallTrue(db, calls[c]);
  }

  lemma MoneyAndKeys(init: map<Id, int>, db: Db)
    requires DbInv(init, db)
    ensures MoneyInv(init, db) && KeysInv(db)
  {
    hide MoneyInv, KeysInv, UsagesInv;
  }

  lemma StepKeepsInv(init: map<Id, int>, w: World, e: Event)
    requires Inv(init, w)
    ensures Inv(init, Step(init, w, e))
  {
    hide DbInv;
    match e
    case Look(c) => if c in w.calls { LookupKeepsInv(init, w, c); }
    case Reload(c) => if c in w.calls { LookupKeepsInv(init, w, c); }
    case Settle(c, ids, _, _, _) =>
      if c in w.calls && w.calls[c].Settling? && FreshIds(w.db, ids) {
        hide CallsInv;
        SettleStepKeepsInv(init, w, e);
      }
    case Gate(c, enabled, settleable) =>
      if c in w.calls {
        GateIsTrue(w.db, w.calls[c].r);
        RecordCall(w.db, w.calls, c, Step(init, w, e).calls[c]);
      }
    case Elsewhere(db') =>
      if OtherTransaction(init, w.db, db') {
        CallsStayTrue(w.db, db', w.calls);
      }
    case Arrive(c, r) => if Priced(r) { GateIsTrue(w.db, r); }
    case Crash(c) =>
  }

  lemma {:induction false} RunKeepsInv(init: map<Id, int>, w: World, es: seq<Event>)
    requires Inv(init, w)
    ensures Inv(init, Run(init, w, es)) && Extends(w.db, Run(init, w, es).db)
    decreases |es|
  {
    if es != [] {
      RunKeepsInv(init, w, Front(es));
      StepKeepsInv(init, Run(init, w, Front(es)), Last(es));
      StepExtends(init, Run(init, w, Front(es)), Last(es));
    }
  }

  // ---- the results ------------------------------------------------------------------------------------

  predicate IsAnswered(w: World, c: Id) {
    c in w.calls && w.calls[c].Done? && w.calls[c].outcome.Answered?
  }

  /** Two answered calls of one key report one purchase, and at most one of them was charged. */
  ghost predicate OneEffect(w: World, c: Id, d: Id)
    requires IsAnswered(w, c) && IsAnswered(w, d)
  {
    var a, b := w.calls[c].outcome, w.calls[d].outcome;
    a.receipt == b.receipt && a.newBalance == b.newBalance && (c != d ==> a.alreadyPaid || b.alreadyPaid)
  }

  lemma AnswersAgree(init: map<Id, int>, w: World, c: Id, d: Id)
    requires IsAnswered(w, c) && IsAnswered(w, d) && w.calls[c].r.key == w.calls[d].r.key
    requires Inv(init, w)
    ensures OneEffect(w, c, d)
  {
    hide MoneyInv, UsagesInv;
    assert CallTrue(w.db, w.calls[c]) && CallTrue(w.db, w.calls[d]);
    OneReceiptPerKey(w.db, w.calls[c].r.key, w.calls[c].outcome.receipt, w.calls[d].outcome.receipt);
  }

  /** In every run, the answered calls of one key have one effect between them. */
  lemma ExactlyOncePerKey(init: map<Id, int>, db: Db, es: seq<Event>, c: Id, d: Id)
    requires DbInv(init, db)
    ensures var w := Run(init, World(db, map[]), es);
            IsAnswered(w, c) && IsAnswered(w, d) && w.calls[c].r.key == w.calls[d].r.key ==> OneEffect(w, c, d)
  {
    var w := Run(init, World(db, map[]), es);
    hide DbInv, Run, OneEffect;
    RunKeepsInv(init, World(db, map[]), es);
    if IsAnswered(w, c) && IsAnswered(w, d) && w.calls[c].r.key == w.calls[d].r.key {
      hide Inv;
      AnswersAgree(init, w, c, d);
    }
  }

  lemma RunKeepsDb(init: map<Id, int>, db: Db, es: seq<Event>)
    requires DbInv(init, db)
    ensures DbInv(init, Run(init, World(db, map[]), es).db)
  {
    hide DbInv, Run, Extends;
    RunKeepsInv(init, World(db, map[]), es);
  }

  /** In every run a key has at most one payment, and a payment exactly one deduction and at most one order. */
  lemma OnePurchasePerKey(init: map<Id, int>, db: Db, es: seq<Event>, p: Id)
    requires DbInv(init, db) && p in Run(init, World(db, map[]), es).db.payments
    ensures var d := Run(init, World(db, map[]), es).db;
            && (forall q :: q in d.payments && d.payments[q].key == d.payments[p].key ==> q == p)
            && (forall a, b :: a in d.orders && b in d.orders && d.orders[a].payment == p && d.orders[b].payment == p ==> a == b)
            && (exists i :: 0 <= i < |d.ledger| && d.ledger[i].kind.Spend? && d.ledger[i].payment == p &&
                            d.ledger[i].amount == d.payments[p].amount)
            && (forall i, j :: 0 <= i < j < |d.ledger| && d.ledger[i].kind.Spend? && d.ledger[j].kind.Spend? ==>
                  !(d.ledger[i].payment == p && d.ledger[j].payment == p))
  {
    RunKeepsDb(init, db, es);
    var d := Run(init, World(db, map[]), es).db;
    hide Run;
    MoneyAndKeys(init, d);
    hide MoneyInv, DbInv;
    OneChargePerPayment(init, d, p);
    assert forall a :: a in d.orders ==> OrderPaired(d, a);
  }

  /** In every run the caps hold: counters equal rows and stay under the total and per-user limits, one usage per checkout. */
  lemma CapsHoldInEveryRun(init: map<Id, int>, db: Db, es: seq<Event>)
    requires DbInv(init, db)
    ensures var d := Run(init, World(db, map[]), es).db;
            CapsInv(d.codes, d.usages) && UsagesInv(d.orders, d.usages)
  {
    RunKeepsDb(init, db, es);
    hide Run, MoneyInv, KeysInv, CapsInv, UsagesInv;
  }

  lemma ReplayFrom(init: map<Id, int>, w: World, es: seq<Event>, c: Id, d: Id)
    requires IsAnswered(w, c)
    requires var w1 := Run(init, w, es);
             d in w1.calls && w1.calls[d].Looking? && w1.calls[d].r.key == w.calls[c].r.key
    requires Inv(init, w)
    ensures var w1 := Run(init, w, es);
            var w2 := Step(init, w1, Look(d));
            var t := w.calls[c].outcome.receipt;
            && t.payment in w1.db.payments
            && w2.db == w1.db
            && var stored := w1.db.payments[t.payment].fingerprint;
               w2.calls[d] == Done(w1.calls[d].r,
                 if stored.None? || stored.value == PayloadFingerprint(w1.calls[d].r) then Answered(t, t.row.after, true)
                 else Refused(IdempotencyConflict))
  {
    var w1, t, key := Run(init, w, es), w.calls[c].outcome.receipt, w.calls[c].r.key;
    assert CallTrue(w.db, w.calls[c]);
    hide DbInv, PayloadFingerprint, Run, CallsInv;
    RunKeepsInv(init, w, es);
    MoneyAndKeys(init, w1.db);
    hide MoneyInv, Extends;
    StandsLater(w.db, w1.db, key, t);
    TakenKeyLoads(init, w1.db, key);
    OneReceiptPerKey(w1.db, key, t, LoadExisting(w1.db, key).value.0);
  }

  /** Whatever runs before and in between, an answered key answers a later equal request the same way and moves no money. */
  lemma ReplayReturnsOriginal(init: map<Id, int>, db: Db, before: seq<Event>, after: seq<Event>, c: Id, d: Id)
    requires DbInv(init, db)
    requires var w := Run(init, World(db, map[]), before);
             IsAnswered(w, c) && var w1 := Run(init, w, after);
             d in w1.calls && w1.calls[d].Looking? && w1.calls[d].r.key == w.calls[c].r.key
    ensures var w := Run(init, World(db, map[]), before);
            var w1 := Run(init, w, after);
            var w2, t := Step(init, w1, Look(d)), w.calls[c].outcome.receipt;
            && t.payment in w1.db.payments
            && w2.db == w1.db
            && var stored := w1.db.payments[t.payment].fingerprint;
               w2.calls[d] == Done(w1.calls[d].r,
                 if stored.None? || stored.value == PayloadFingerprint(w1.calls[d].r) then Answered(t, t.row.after, true)
                 else Refused(IdempotencyConflict))
  {
    hide DbInv, PayloadFingerprint, Run, Extends, Step;
    RunKeepsInv(init, World(db, map[]), before);
    hide Inv;
    ReplayFrom(init, Run(init, World(db, map[]), before), after, c, d);
  }

  /** A draft that a payment settled can no longer be settled. */
  lemma SettledDraftIsStale(init: map<Id, int>, db: Db, r: Request, won: Receipt, now: int)
    requires r.existing == Some(won.checkout) && Stands(db, r.key, won) && KeysInv(db)
    ensures !DraftSettleable(db, r, now)
  {
    assert PaymentPaired(db, won.payment) && OrderPaired(db, won.order);
  }

  /**
   What a call is told when another settlement holds its key: DRAFT_STALE if its own draft can no longer be
   settled, as always when that is the winner's draft; otherwise the winner's result or a conflict, by fingerprint.
   */
  lemma RaceLoser(init: map<Id, int>, w: World, c: Id, ids: Ids, now: int, expiresAt: int, held: bool)
    requires c in w.calls && w.calls[c].Settling? && FreshIds(w.db, ids) && KeyTaken(w.db, w.calls[c].r.key)
    requires Inv(init, w)
    ensures LoadExisting(w.db, w.calls[c].r.key).Some?
    ensures var r, found := w.calls[c].r, LoadExisting(w.db, w.calls[c].r.key).value;
            var stale := r.existing.Some? && !DraftSettleable(w.db, r, now);
            && (r.existing == Some(found.0.checkout) ==> stale)
            && Step(init, Step(init, w, Settle(c, ids, now, expiresAt, held)), Reload(c)) ==
               w.(calls := w.calls[c := Done(r, if stale then Refused(DraftStale) else AnswerFrom(found, r))])
  {
    var r := w.calls[c].r;
    hide DbInv, CallsInv, MoneyInv, KeysInv, PayloadFingerprint, Obstacle, LoadExisting;
    MoneyAndKeys(init, w.db);
    LoserIsStopped(init, w.db, r, ids, now, held);
    hide Inv;
    StoppedStep(init, w, c, ids, now, expiresAt, held);
    hide Step;
    if r.existing.Some? && !DraftSettleable(w.db, r, now) {
      ClosedStep(init, w, c, Refused(DraftStale));
    } else {
      ReloadedStep(init, w, c);
    }
  }

  lemma ReloadedStep(init: map<Id, int>, w: World, c: Id)
    requires c in w.calls && LoadExisting(w.db, w.calls[c].r.key).Some?
    ensures var r := w.calls[c].r;
            Step(init, w.(calls := w.calls[c := Reloading(r)]), Reload(c)) ==
            w.(calls := w.calls[c := Done(r, AnswerFrom(LoadExisting(w.db, r.key).value, r))])
  {
    hide LoadExisting, AnswerFrom;
    var r := w.calls[c].r;
    var d := Done(r, AnswerFrom(LoadExisting(w.db, r.key).value, r));
    assert w.calls[c := Reloading(r)][c := d] == w.calls[c := d];
  }

  lemma ClosedStep(init: map<Id, int>, w: World, c: Id, outcome: Outcome)
    requires c in w.calls
    ensures var w1 := w.(calls := w.calls[c := Done(w.calls[c].r, outcome)]);
            Step(init, w1, Reload(c)) == w1
  {
    hide LoadExisting;
  }

  /** A stopped transaction leaves the database alone and moves only its own call. */
  lemma StoppedStep(init: map<Id, int>, w: World, c: Id, ids: Ids, now: int, expiresAt: int, held: bool)
    requires c in w.calls && w.calls[c].Settling? && FreshIds(w.db, ids)
    requires var stop := Obstacle(w.db, w.calls[c].r, ids, now, held);
             stop == Some(UniqueViolation) || (stop.Some? && stop.value.Aborted?)
    ensures var stop := Obstacle(w.db, w.calls[c].r, ids, now, held);
            var r := w.calls[c].r;
            Step(init, w, Settle(c, ids, now, expiresAt, held)) ==
            w.(calls := w.calls[c := if stop.value.Aborted? then Done(r, Refused(stop.value.code)) else Reloading(r)])
  {
    hide Obstacle, PayloadFingerprint, Settled;
  }

  lemma LoserIsStopped(init: map<Id, int>, db: Db, r: Request, ids: Ids, now: int, held: bool)
    requires KeyTaken(db, r.key)
    requires MoneyInv(init, db) && KeysInv(db)
    ensures LoadExisting(db, r.key).Some?
    ensures r.existing == Some(LoadExisting(db, r.key).value.0.checkout) ==> !DraftSettleable(db, r, now)
    ensures Obstacle(db, r, ids, now, held) ==
            Some(if r.existing.Some? && !DraftSettleable(db, r, now) then Aborted(DraftStale) else UniqueViolation)
  {
    hide MoneyInv, KeysInv;
    TakenKeyLoads(init, db, r.key);
    if r.existing == Some(LoadExisting(db, r.key).value.0.checkout) {
      SettledDraftIsStale(init, db, r, LoadExisting(db, r.key).value.0, now);
    }
  }

  // ---- one call from its beginning to its end -------------------------------------------------------

  function At(w: World, c: Id, call: Call): World {
    w.(calls := w.calls[c := call])
  }

  /** A new key passes the lookup, and then the two gates or is refused by the first that is shut. */
  lemma NewKeyAtGates(init: map<Id, int>, w: World, c: Id, r: Request, enabled: bool, settleable: bool)
    requires c !in w.calls && Priced(r) && !KeyTaken(w.db, r.key)
    ensures Step(init, Step(init, Step(init, w, Arrive(c, r)), Look(c)), Gate(c, enabled, settleable)) ==
            At(w, c, if !enabled then Done(r, Refused(WalletDisabled))
                     else if r.existing.Some? && !settleable then Done(r, Refused(DraftStale))
                     else Settling(r))
  {
    var w1 := At(w, c, Looking(r));
    assert Step(init, w, Arrive(c, r)) == w1;
    var w2 := At(w, c, Gating(r));
    assert w1.calls[c := Gating(r)] == w2.calls;
    assert Step(init, w1, Look(c)) == w2;
    var end := Done(r, Refused(WalletDisabled));
    assert w2.calls[c := end] == w.calls[c := end];
    assert w2.calls[c := Done(r, Refused(DraftStale))] == w.calls[c := Done(r, Refused(DraftStale))];
    assert w2.calls[c := Settling(r)] == w.calls[c := Settling(r)];
  }

  /** What a call at its transaction comes to, the lookup after a unique violation included, when its key is new. */
  ghost predicate SettledAs(db: Db, w: World, c: Id, r: Request, ids: Ids, now: int, expiresAt: int, held: bool) {
    && c in w.calls && w.calls[c].Done? && w.calls[c].r == r
    && var outcome := w.calls[c].outcome;
       if !DraftAsPriced(db, r, now) then w.db == db && outcome == Refused(DraftStale)
       else if Duplicate(db, r, ids) then w.db == db && outcome == Threw
       else if !ActiveBuyer(db, r) then w.db == db && outcome == Refused(UserNotActive)
       else if !held then w.db == db && outcome == Refused(ReservationStale)
       else if db.users[r.user].balance < r.price then w.db == db && outcome == Refused(InsufficientBalance)
       else if !DiscountStands(db, r, ids, now) then w.db == db && outcome == Refused(DiscountChanged)
       else && w.db == SettleTx(db, r, PayloadFingerprint(r), ids, now, expiresAt, held).0
            && outcome.Answered? && !outcome.alreadyPaid && outcome.newBalance == db.users[r.user].balance - r.price
            && outcome.receipt.order == ids.order && outcome.receipt.payment == ids.payment
  }

  lemma TransactionTurn(init: map<Id, int>, w: World, c: Id, r: Request, ids: Ids, now: int, expiresAt: int, held: bool)
    requires FreshIds(w.db, ids)
    ensures var (db', res) := SettleTx(w.db, r, PayloadFingerprint(r), ids, now, expiresAt, held);
            Step(init, At(w, c, Settling(r)), Settle(c, ids, now, expiresAt, held)) ==
            At(w.(db := db'), c, match res
                                 case Committed(receipt) => Done(r, Answered(receipt, receipt.row.after, false))
                                 case Aborted(code) => Done(r, Refused(code))
                                 case UniqueViolation => Reloading(r))
  {
    hide SettleTx, PayloadFingerprint;
    var (db', res) := SettleTx(w.db, r, PayloadFingerprint(r), ids, now, expiresAt, held);
    var call := match res
                case Committed(receipt) => Done(r, Answered(receipt, receipt.row.after, false))
                case Aborted(code) => Done(r, Refused(code))
                case UniqueViolation => Reloading(r);
    assert w.calls[c := Settling(r)][c := call] == w.calls[c := call];
  }

  lemma ReloadTurn(init: map<Id, int>, w: World, c: Id, call: Call)
    requires call.Done? || (call.Reloading? && !KeyTaken(w.db, call.r.key))
    ensures Step(init, At(w, c, call), Reload(c)) == At(w, c, if call.Done? then call else Done(call.r, Threw))
  {
    assert w.calls[c := call][c := Done(call.r, Threw)] == w.calls[c := Done(call.r, Threw)];
  }

  lemma TransactionEnds(init: map<Id, int>, w: World, c: Id, r: Request, ids: Ids, now: int, expiresAt: int, held: bool)
    requires FreshIds(w.db, ids) && !KeyTaken(w.db, r.key)
    ensures SettledAs(w.db, Step(init, Step(init, At(w, c, Settling(r)), Settle(c, ids, now, expiresAt, held)), Reload(c)), c, r, ids, now, expiresAt, held)
  {
    hide Step, SettleTx, PayloadFingerprint, DraftAsPriced, Duplicate, ActiveBuyer, DiscountStands, KeyTaken, FreshIds;
    var (db', res) := SettleTx(w.db, r, PayloadFingerprint(r), ids, now, expiresAt, held);
    TransactionTurn(init, w, c, r, ids, now, expiresAt, held);
    SettlesExactlyWhen(w.db, r, PayloadFingerprint(r), ids, now, expiresAt, held);
    AbortChangesNothing(w.db, r, PayloadFingerprint(r), ids, now, expiresAt, held);
    match res {
      case Committed(receipt) =>
        ChargedOnce(w.db, r, PayloadFingerprint(r), ids, now, expiresAt, held);
        PaymentAsAsked(w.db, r, PayloadFingerprint(r), ids, now, expiresAt, held);
        ReloadTurn(init, w.(db := db'), c, Done(r, Answered(receipt, receipt.row.after, false)));
      case Aborted(code) => ReloadTurn(init, w, c, Done(r, Refused(code)));
      case UniqueViolation => ReloadTurn(init, w, c, Reloading(r));
    }
  }

  /**
   A call with a new key, from any state: it is refused at a shut gate, and otherwise ends as its transaction does, with
   the first thing that stands against it, or charged once, told the balance that is left.
   */
  lemma NewKeyCall(init: map<Id, int>, w: World, c: Id, r: Request, enabled: bool, settleable: bool, ids: Ids, now: int, expiresAt: int, held: bool)
    requires c !in w.calls && Priced(r) && !KeyTaken(w.db, r.key) && FreshIds(w.db, ids)
    ensures var gated := Step(init, Step(init, Step(init, w, Arrive(c, r)), Look(c)), Gate(c, enabled, settleable));
            var w' := Step(init, Step(init, gated, Settle(c, ids, now, expiresAt, held)), Reload(c));
            if !enabled then w' == At(w, c, Done(r, Refused(WalletDisabled)))
            else if r.existing.Some? && !settleable then w' == At(w, c, Done(r, Refused(DraftStale)))
            else SettledAs(w.db, w', c, r, ids, now, expiresAt, held)
  {
    hide Step, SettledAs, KeyTaken, FreshIds;
    NewKeyAtGates(init, w, c, r, enabled, settleable);
    if !enabled || (r.existing.Some? && !settleable) {
      var end := Done(r, Refused(if !enabled then WalletDisabled else DraftStale));
      SettleAfterEnd(init, w, c, end, ids, now, expiresAt, held);
      ReloadTurn(init, w, c, end);
    } else {
      TransactionEnds(init, w, c, r, ids, now, expiresAt, held);
    }
  }

  lemma SettleAfterEnd(init: map<Id, int>, w: World, c: Id, end: Call, ids: Ids, now: int, expiresAt: int, held: bool)
    requires end.Done?
    ensures Step(init, At(w, c, end), Settle(c, ids, now, expiresAt, held)) == At(w, c, end)
  {
  }
}
