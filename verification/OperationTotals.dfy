/**
 No lost updates: with panels that repeat what they were asked, a service row always holds its
 initial figures plus exactly what the applied orders granted, whatever the interleaving.
 */
module OperationTotals {
  import opened Wrappers
  import opened CommerceDb
  import opened Ledger
  import opened Settlement
  import opened Execution
  import opened Operations
  import opened OperationRuns

  type Orders = map<Id, Order>

  predicate AppliedTo(orders: Orders, e: ServiceEvent, s: Id) {
    e.kind.Applied? && e.service == s && e.order in orders
  }

  /** The volume granted to a service by the orders applied to it. */
  function GbSum(orders: Orders, events: seq<ServiceEvent>, s: Id): int
    decreases |events|
  {
    if events == [] then 0
    else GbSum(orders, Front(events), s) + if AppliedTo(orders, Last(events), s) then GrantedGb(orders[Last(events).order]) else 0
  }

  /** The days granted to a service by the orders applied to it. */
  function DaySum(orders: Orders, events: seq<ServiceEvent>, s: Id): nat
    decreases |events|
  {
    if events == [] then 0
    else DaySum(orders, Front(events), s) + if AppliedTo(orders, Last(events), s) then GrantedDays(orders[Last(events).order]) else 0
  }

  lemma AppendSums(orders: Orders, events: seq<ServiceEvent>, e: ServiceEvent)
    ensures forall s :: GbSum(orders, events + [e], s) ==
              GbSum(orders, events, s) + if AppliedTo(orders, e, s) then GrantedGb(orders[e.order]) else 0
    ensures forall s :: DaySum(orders, events + [e], s) ==
              DaySum(orders, events, s) + if AppliedTo(orders, e, s) then GrantedDays(orders[e.order]) else 0
  {
    FrontOfAppend(events, e);
  }

  lemma {:induction false} SumsKeepTerms(orders: Orders, orders': Orders, events: seq<ServiceEvent>, s: Id)
    requires SameTerms(orders, orders')
    ensures GbSum(orders', events, s) == GbSum(orders, events, s) && DaySum(orders', events, s) == DaySum(orders, events, s)
    decreases |events|
  {
    if events != [] {
      SumsKeepTerms(orders, orders', Front(events), s);
      if Last(events).order in orders {
        TermsFields(orders'[Last(events).order], orders[Last(events).order]);
      }
    }
  }

  /**
   A row holds its initial figures plus what was granted; time may only be longer. Once volume was granted the limit
   is all that remains, and until then it is the first one.
   */
  predicate RowOk(first: Service, row: Service, gb: int, days: nat) {
    && SameService(first, row) && gb >= 0
    && row.remaining == first.remaining + gb * GIB && row.remaining >= 0
    && Positive(row.volumeBytes) == (if gb > 0 then row.remaining else Positive(first.volumeBytes))
    && (first.expiresAt.Some? ==> row.expiresAt.Some? && row.expiresAt.value >= first.expiresAt.value + days * DAY_MS)
  }

  predicate HasRow(x: Proc) {
    x.ClaimOrder? || x.CallPanel? || x.PersistResult?
  }

  /** What an executor knows of its service since it looked under the lock. */
  predicate RowFresh(services: map<Id, Service>, x: Proc)
    requires HasRow(x)
  {
    x.s in services && x.row == services[x.s] && !InvalidGrant(x.row, x.seen)
  }

  ghost predicate RowsOk(first: map<Id, Service>, db: Db) {
    && db.services.Keys == first.Keys
    && forall s :: s in db.services ==> RowOk(first[s], db.services[s], GbSum(db.orders, db.events, s), DaySum(db.orders, db.events, s))
  }

  ghost predicate AllFresh(services: map<Id, Service>, procs: map<Id, Proc>) {
    forall p :: p in procs && HasRow(procs[p]) ==> RowFresh(services, procs[p])
  }

  ghost predicate FiniteOrders(orders: Orders) {
    forall o :: o in orders && IsOperation(orders[o].kind) ==> Finite(orders[o])
  }

  ghost predicate Totals(first: map<Id, Service>, w: World) {
    RowsOk(first, w.db) && AllFresh(w.db.services, w.procs) && FiniteOrders(w.db.orders)
  }

  /** No reconciler completes here, and an answer that is stored repeats what was asked. */
  predicate Tame(w: World, e: Event) {
    e.Advance? && e.p in w.procs ==>
      && !w.procs[e.p].SweepComplete?
      && (w.procs[e.p].PersistResult? ==>
            Echoes(Expected(w.procs[e.p].row, w.procs[e.p].seen, w.procs[e.p].now), w.procs[e.p].answer))
  }

  // ---- the one step that writes a service row ----------------------------------------------------------

  /** Storing one row with its applied event adds that order's grants to its service, and nothing elsewhere. */
  lemma StoredSums(db: Db, o: Id, s: Id, row: Service, x: Id)
    requires o in db.orders && db.orders[o].status.Provisioning?
    ensures var db' := PersistOperation(db, o, s, row);
            && db'.services == db.services[s := row]
            && GbSum(db'.orders, db'.events, x) == GbSum(db.orders, db.events, x) + (if x == s then GrantedGb(db.orders[o]) else 0)
            && DaySum(db'.orders, db'.events, x) == DaySum(db.orders, db.events, x) + (if x == s then GrantedDays(db.orders[o]) else 0)
  {
    var db' := PersistOperation(db, o, s, row);
    AppendSums(db.orders, db.events, ServiceEvent(Applied, s, o, None));
    OneStatus(db.orders, o, Completed);
    hide SameTerms;
    SumsKeepTerms(db.orders, db'.orders, db'.events, x);
  }

  lemma StoredRow(first: map<Id, Service>, db: Db, x: Proc)
    requires x.PersistResult? && RowFresh(db.services, x) && x.o in db.orders && x.seen.Terms() == db.orders[x.o].Terms()
    requires IsOperation(db.orders[x.o].kind) && Finite(db.orders[x.o]) && db.orders[x.o].status.Provisioning?
    requires Echoes(Expected(x.row, x.seen, x.now), x.answer)
    requires RowsOk(first, db)
    ensures RowsOk(first, PersistOperation(db, x.o, x.s, AppliedRow(db.services[x.s], Expected(x.row, x.seen, x.now), x.answer)))
  {
    var row := AppliedRow(db.services[x.s], Expected(x.row, x.seen, x.now), x.answer);
    var db' := PersistOperation(db, x.o, x.s, row);
    TermsFields(x.seen, db.orders[x.o]);
    OneOperationAdds(x.row, x.seen, x.now, x.answer);
    hide Expected, AppliedRow, Echoes, InvalidGrant, PersistOperation, GbSum, DaySum;
    forall s | s in first
      ensures s in db'.services && RowOk(first[s], db'.services[s], GbSum(db'.orders, db'.events, s), DaySum(db'.orders, db'.events, s)) {
      StoredSums(db, x.o, x.s, row, s);
    }
    StoredSums(db, x.o, x.s, row, x.s);
  }

  lemma FreshElsewhere(w: World, row: Service, p: Id, x': Proc)
    requires p in w.procs && !HasRow(x') && AllFresh(w.db.services, w.procs)
    requires forall q :: q in w.procs && q != p && Holds(w.procs[q]) ==> w.procs[q].s != w.procs[p].s
    ensures AllFresh(w.db.services[w.procs[p].s := row], w.procs[p := x'])
  {
    hide InvalidGrant;
  }

  lemma KnownBeforePersist(init: map<Id, int>, first: map<Id, Service>, w: World, p: Id)
    requires p in w.procs && w.procs[p].PersistResult?
    requires Totals(first, w)
    requires Inv(init, w)
    ensures var x := w.procs[p];
            && RowFresh(w.db.services, x) && x.o in w.db.orders && x.seen.Terms() == w.db.orders[x.o].Terms()
            && IsOperation(w.db.orders[x.o].kind) && Finite(w.db.orders[x.o]) && w.db.orders[x.o].status.Provisioning?
  {
    hide Inv, RowsOk, InvalidGrant;
    SoundAt(init, w, p);
  }

  lemma PersistTotals(init: map<Id, int>, first: map<Id, Service>, w: World, p: Id, lost: bool)
    requires p in w.procs && w.procs[p].PersistResult?
    requires Echoes(Expected(w.procs[p].row, w.procs[p].seen, w.procs[p].now), w.procs[p].answer)
    requires Totals(first, w)
    requires Inv(init, w)
    ensures Totals(first, PersistAdvance(w, p, w.procs[p], lost))
  {
    hide Expected, AppliedRow, Echoes, InvalidGrant, RowsOk, Inv, FiniteOrders, AllFresh, PersistOperation;
    var x := w.procs[p];
    KnownBeforePersist(init, first, w, p);
    AloneOnService(init, w, p);
    FreshElsewhere(w, x.row, p, ReleaseLock(x.o, x.s, Undecided));
    if lost {
      assert w.db.services[x.s := x.row] == w.db.services;
    } else {
      var row := AppliedRow(w.db.services[x.s], Expected(x.row, x.seen, x.now), x.answer);
      StoredRow(first, w.db, x);
      PersistShape(w.db, x.o, x.s, row);
      FiniteKept(w.db.orders, PersistOperation(w.db, x.o, x.s, row).orders);
      FreshElsewhere(w, row, p, ReleaseLock(x.o, x.s, Delivered));
    }
  }

  lemma PersistShape(db: Db, o: Id, s: Id, row: Service)
    requires o in db.orders
    ensures PersistOperation(db, o, s, row).services == db.services[s := row]
    ensures SameTerms(db.orders, PersistOperation(db, o, s, row).orders)
  {
    OneStatus(db.orders, o, Completed);
    SameTermsRefl(db.orders);
    hide SameTerms;
  }

  lemma AloneOnService(init: map<Id, int>, w: World, p: Id)
    requires p in w.procs && Holds(w.procs[p])
    requires Inv(init, w)
    ensures forall q :: q in w.procs && q != p && Holds(w.procs[q]) ==> w.procs[q].s != w.procs[p].s
  {
    Parts(init, w);
    hide DbInv, OrdersInv, ProcsInv;
  }

  lemma FiniteKept(orders: Orders, orders': Orders)
    requires SameTerms(orders, orders') && FiniteOrders(orders)
    ensures FiniteOrders(orders')
  {
    forall o | o in orders' && IsOperation(orders'[o].kind) ensures Finite(orders'[o]) {
      TermsFields(orders'[o], orders[o]);
    }
  }

  /** Any other transaction leaves rows and applied events alone. */
  ghost predicate RowsUntouched(db: Db, db': Db) {
    && db'.services == db.services && SameTerms(db.orders, db'.orders)
    && (db'.events == db.events || (db'.events != [] && Front(db'.events) == db.events && Last(db'.events).kind.Intent?))
  }

  lemma UntouchedTotals(first: map<Id, Service>, w: World, w': World)
    requires RowsUntouched(w.db, w'.db)
    requires AllFresh(w.db.services, w'.procs)
    requires Totals(first, w)
    ensures Totals(first, w')
  {
    hide AllFresh, RowOk;
    FiniteKept(w.db.orders, w'.db.orders);
    hide FiniteOrders;
    forall s | s in w'.db.services
      ensures RowOk(first[s], w'.db.services[s], GbSum(w'.db.orders, w'.db.events, s), DaySum(w'.db.orders, w'.db.events, s)) {
      SumsKeepTerms(w.db.orders, w'.db.orders, w.db.events, s);
    }
  }

  lemma StepLeavesRows(w: World, e: Event)
    requires e.Advance? && e.p in w.procs ==> !w.procs[e.p].SweepComplete? && !w.procs[e.p].PersistResult?
    ensures RowsUntouched(w.db, Step(w, e).db)
  {
    hide Expected, LastIntent, Decided, SweepJudged, SameTerms, RefundDefinite, ClaimOperation;
    SameTermsRefl(w.db.orders);
    if e.Advance? && e.p in w.procs {
      var x := w.procs[e.p];
      match x
      case RefundNow(_, _, _) => RefundLeavesRows(w.db, x.o, x.seen);
      case ClaimOrder(_, _, _, _, _) => ClaimLeavesRows(w.db, x.o, x.s, IntentOf(x.row, Expected(x.row, x.seen, x.now)));
      case _ =>
    }
  }

  lemma SameTermsRefl(orders: Orders)
    ensures SameTerms(orders, orders)
  {
  }

  lemma RefundLeavesRows(db: Db, o: Id, seen: Order)
    ensures RowsUntouched(db, RefundDefinite(db, o, seen).0)
  {
    RefundKeepsEvents(db, o, seen);
    RefundOrders(db, o, seen);
    SameTermsRefl(db.orders);
    if o in db.orders {
      OneStatus(db.orders, o, Failed);
    }
    hide SameTerms, RefundDefinite;
  }

  lemma RefundOrders(db: Db, o: Id, seen: Order)
    ensures var orders := RefundDefinite(db, o, seen).0.orders;
            orders == db.orders || (o in db.orders && orders == db.orders[o := db.orders[o].(status := Failed)])
  {
  }

  lemma ClaimLeavesRows(db: Db, o: Id, s: Id, intent: IntentData)
    ensures RowsUntouched(db, ClaimOperation(db, o, s, intent).0)
  {
    SameTermsRefl(db.orders);
    if o in db.orders {
      OneStatus(db.orders, o, Provisioning);
    }
    FrontOfAppend(db.events, ServiceEvent(Intent, s, o, Some(intent)));
    hide SameTerms;
  }

  lemma LookerKnowsRow(w: World, x: Proc, p: Id, q: Oracle)
    requires x.Decide? || x.ClaimOrder? || x.CallPanel?
    requires HasRow(x) ==> RowFresh(w.db.services, x)
    ensures x.Decide? ==> var x' := Decided(w.db, x.o, x.s, q); HasRow(x') ==> RowFresh(w.db.services, x')
    ensures x.ClaimOrder? ==> forall ok :: HasRow(ClaimedProc(x, ok)) ==> RowFresh(w.db.services, ClaimedProc(x, ok))
    ensures x.CallPanel? ==> forall response :: RowFresh(w.db.services, PersistResult(x.o, x.s, x.seen, x.row, x.now, response))
  {
    hide InvalidGrant;
  }

  lemma MoverKnowsRow(w: World, p: Id, q: Oracle)
    requires p in w.procs && !w.procs[p].SweepComplete? && !w.procs[p].PersistResult?
    requires HasRow(w.procs[p]) ==> RowFresh(w.db.services, w.procs[p])
    ensures p in AdvanceProc(w, p, q).procs
    ensures HasRow(AdvanceProc(w, p, q).procs[p]) ==> RowFresh(w.db.services, AdvanceProc(w, p, q).procs[p])
  {
    hide RowFresh, Decided, ClaimedProc, RefundDefinite, ClaimOperation, Judge, Sent, Asked, Expected;
    if w.procs[p].Decide? || w.procs[p].ClaimOrder? || w.procs[p].CallPanel? {
      LookerKnowsRow(w, w.procs[p], p, q);
    }
  }

  lemma StepKeepsFresh(w: World, e: Event)
    requires e.Advance? && e.p in w.procs ==> !w.procs[e.p].SweepComplete? && !w.procs[e.p].PersistResult?
    requires AllFresh(w.db.services, w.procs)
    ensures AllFresh(w.db.services, Step(w, e).procs)
  {
    hide AdvanceProc, RowFresh, LastIntent;
    if !e.Late? {
      StepMovesOne(w, e);
      if e.Advance? && e.p in w.procs {
        MoverKnowsRow(w, e.p, e.q);
      }
    }
  }

  lemma StepKeepsTotals(init: map<Id, int>, first: map<Id, Service>, w: World, e: Event)
    requires Tame(w, e)
    requires Totals(first, w)
    requires Inv(init, w)
    ensures Totals(first, Step(w, e))
  {
    hide Inv, Echoes, Expected, RowsUntouched, PersistAdvance, RowsOk, AllFresh, FiniteOrders;
    if e.Advance? && e.p in w.procs && w.procs[e.p].PersistResult? {
      PersistTotals(init, first, w, e.p, e.q.lost);
    } else {
      hide Step;
      StepLeavesRows(w, e);
      StepKeepsFresh(w, e);
      UntouchedTotals(first, w, Step(w, e));
    }
  }

  // ---- every run ---------------------------------------------------------------------------------------------

  ghost predicate AllTame(w: World, es: seq<Event>)
    decreases |es|
  {
    es == [] || (AllTame(w, Front(es)) && Tame(Run(w, Front(es)), Last(es)))
  }

  /** A start whose rows hold no debt of volume and whose operations grant finite amounts. */
  ghost predicate TotalsStart(init: map<Id, int>, w: World) {
    && Start(init, w) && FiniteOrders(w.db.orders) && (forall i :: 0 <= i < |w.db.events| ==> w.db.events[i].order !in w.db.orders)
    && forall s :: s in w.db.services ==> w.db.services[s].remaining >= 0
  }

  lemma {:induction false} NothingApplied(orders: Orders, events: seq<ServiceEvent>, s: Id)
    requires forall i :: 0 <= i < |events| ==> events[i].order !in orders
    ensures GbSum(orders, events, s) == 0 && DaySum(orders, events, s) == 0
    decreases |events|
  {
    if events != [] {
      NothingApplied(orders, Front(events), s);
    }
  }

  lemma StartTotals(init: map<Id, int>, w: World)
    requires TotalsStart(init, w)
    ensures Totals(w.db.services, w)
  {
    hide DbInv;
    forall s | s in w.db.services
      ensures RowOk(w.db.services[s], w.db.services[s], GbSum(w.db.orders, w.db.events, s), DaySum(w.db.orders, w.db.events, s)) {
      NothingApplied(w.db.orders, w.db.events, s);
    }
  }

  lemma {:induction false} RunKeepsTotals(init: map<Id, int>, w: World, es: seq<Event>)
    requires TotalsStart(init, w) && AllTame(w, es)
    ensures NoneStale(w, es) && Inv(init, Run(w, es)) && Totals(w.db.services, Run(w, es))
    decreases |es|
  {
    StartHasInv(init, w);
    StartTotals(init, w);
    hide TotalsStart, Inv, Totals, Step;
    if es != [] {
      RunKeepsTotals(init, w, Front(es));
      StepKeepsInv(init, Run(w, Front(es)), Last(es));
      StepKeepsTotals(init, w.db.services, Run(w, Front(es)), Last(es));
    }
  }

  /** Whatever the interleaving, no executor's update is lost: every row is its start plus what was applied to it. */
  lemma NoLostUpdates(init: map<Id, int>, w: World, es: seq<Event>, s: Id)
    requires TotalsStart(init, w) && AllTame(w, es) && s in w.db.services
    ensures s in Run(w, es).db.services
    ensures var db := Run(w, es).db;
            RowOk(w.db.services[s], db.services[s], GbSum(db.orders, db.events, s), DaySum(db.orders, db.events, s))
    ensures forall o :: o in Run(w, es).db.orders ==> Effects(Run(w, es).db, o) <= 1
  {
    RunKeepsTotals(init, w, es);
    AtMostOneEffect(init, w, es);
    hide TotalsStart, AllTame, Inv, Run, RowOk;
  }

  lemma RowAt(first: map<Id, Service>, w: World, p: Id)
    requires p in w.procs && HasRow(w.procs[p]) && w.procs[p].s in first
    requires Totals(first, w)
    ensures RowFresh(w.db.services, w.procs[p])
    ensures var s := w.procs[p].s;
            RowOk(first[s], w.procs[p].row, GbSum(w.db.orders, w.db.events, s), DaySum(w.db.orders, w.db.events, s))
  {
    hide RowOk, InvalidGrant;
  }

  /**
   An extra-time order executed at any later point of such a run asks the panel for an expiry no
   earlier than the one its buyer was quoted at the start.
   */
  lemma AskedNoEarlierThanQuoted(init: map<Id, int>, w: World, es: seq<Event>, p: Id, quotedAt: int)
    requires TotalsStart(init, w) && AllTame(w, es) && p in Run(w, es).procs && Run(w, es).procs[p].CallPanel?
    requires var x := Run(w, es).procs[p];
             x.seen.kind.ExtraTime? && quotedAt <= x.now && x.s in w.db.services && w.db.services[x.s].expiresAt.Some?
    ensures var x := Run(w, es).procs[p];
            && Asked(x).expiresAt.Some?
            && Asked(x).expiresAt.value >= QuotedExpiry(w.db.services[x.s], Days(x.seen), quotedAt).value
  {
    RunKeepsTotals(init, w, es);
    hide TotalsStart, AllTame, Inv, Run, Totals;
    var x := Run(w, es).procs[p];
    RowAt(w.db.services, Run(w, es), p);
    ExecutedNoEarlierThanQuoted(w.db.services[x.s], x.row, x.seen, quotedAt, x.now);
  }
}
