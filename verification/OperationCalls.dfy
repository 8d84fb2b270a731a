/**
 What single calls on an operation come to, whatever everybody else does between their steps: what is refunded,
 what is stored, and what is left for a reconciler.
 */
module OperationCalls {
  import opened Wrappers
  import opened CommerceDb
  import opened Ledger
  import opened Settlement
  import opened Execution
  import opened Operations
  import opened OperationRuns
  import opened OperationTotals

  // ---- the others go on --------------------------------------------------------------------------------------

  /** Anything but a step or a crash of `p`. */
  ghost predicate Without(es: seq<Event>, p: Id) {
    forall i :: 0 <= i < |es| ==> (es[i].Advance? || es[i].Crash? ==> es[i].p != p)
  }

  lemma CommitLeavesOrder(w: World, p: Id, lost: bool, o: Id)
    requires p in w.procs && o in w.db.orders && w.procs[p].o != o
    ensures w.procs[p].RefundNow? ==> SameOrder(w.db, RefundAdvance(w, p, w.procs[p]).db, o)
    ensures w.procs[p].ClaimOrder? ==> SameOrder(w.db, ClaimAdvance(w, p, w.procs[p]).db, o)
    ensures w.procs[p].PersistResult? ==> SameOrder(w.db, PersistAdvance(w, p, w.procs[p], lost).db, o)
    ensures w.procs[p].SweepComplete? ==> SameOrder(w.db, CompleteAdvance(w, p, w.procs[p]).db, o)
  {
    hide Expected, AppliedRow, ReadRow, RefundDefinite, ClaimOperation, PersistOperation, CompleteReconciled, SameOrder;
    var x := w.procs[p];
    NothingMoved(w.db, o);
    match x
    case RefundNow(_, _, seen) => RefundLeavesOrder(w.db, x.o, seen, o);
    case ClaimOrder(_, _, _, _, _) => ClaimLeavesOrder(w.db, x.o, x.s, IntentOf(x.row, Expected(x.row, x.seen, x.now)), o);
    case PersistResult(_, _, _, _, _, _) =>
      if x.s in w.db.services {
        StoreLeavesOrder(w.db, x.o, x.s, AppliedRow(w.db.services[x.s], Expected(x.row, x.seen, x.now), x.answer), o);
      }
    case SweepComplete(_, _, _, _) =>
      if x.s in w.db.services { StoreLeavesOrder(w.db, x.o, x.s, ReadRow(w.db.services[x.s], x.reading), o); }
    case _ =>
  }

  /** One order, its records and its refunds. */
  ghost predicate SameOrder(db: Db, db': Db, o: Id) {
    && o in db.orders && o in db'.orders && db'.orders[o] == db.orders[o]
    && AppliedCount(db'.events, o) == AppliedCount(db.events, o) && Refunds(db'.ledger, o) == Refunds(db.ledger, o)
  }

  lemma NothingMoved(db: Db, o: Id)
    requires o in db.orders
    ensures SameOrder(db, db, o)
  {
  }

  lemma RefundLeavesOrder(db: Db, x: Id, seen: Order, o: Id)
    requires o in db.orders && x != o
    ensures SameOrder(db, RefundDefinite(db, x, seen).0, o)
  {
    if seen.user in db.users {
      AppendRow(db.ledger, RefundRow(db, x, seen));
    }
  }

  lemma ClaimLeavesOrder(db: Db, x: Id, s: Id, intent: IntentData, o: Id)
    requires o in db.orders && x != o
    ensures SameOrder(db, ClaimOperation(db, x, s, intent).0, o)
  {
    AppendEvent(db.events, ServiceEvent(Intent, s, x, Some(intent)));
  }

  lemma StoreLeavesOrder(db: Db, x: Id, s: Id, row: Service, o: Id)
    requires o in db.orders && x != o
    ensures SameOrder(db, PersistOperation(db, x, s, row), o) && SameOrder(db, CompleteReconciled(db, x, s, row), o)
  {
    AppendEvent(db.events, ServiceEvent(Applied, s, x, None));
  }

  predicate SameRow(services: map<Id, Service>, services': map<Id, Service>, s: Id) {
    (s in services <==> s in services') && (s in services ==> services'[s] == services[s])
  }

  lemma CommitLeavesRow(w: World, p: Id, lost: bool, s: Id)
    requires p in w.procs && w.procs[p].s != s
    ensures w.procs[p].RefundNow? ==> SameRow(w.db.services, RefundAdvance(w, p, w.procs[p]).db.services, s)
    ensures w.procs[p].ClaimOrder? ==> SameRow(w.db.services, ClaimAdvance(w, p, w.procs[p]).db.services, s)
    ensures w.procs[p].PersistResult? ==> SameRow(w.db.services, PersistAdvance(w, p, w.procs[p], lost).db.services, s)
    ensures w.procs[p].SweepComplete? ==> SameRow(w.db.services, CompleteAdvance(w, p, w.procs[p]).db.services, s)
  {
    hide Expected, AppliedRow, ReadRow, RefundDefinite, ClaimOperation, PersistOperation, CompleteReconciled;
    var x := w.procs[p];
    match x
    case RefundNow(_, _, seen) => RefundKeepsEvents(w.db, x.o, seen);
    case ClaimOrder(_, _, _, _, _) => ClaimKeepsRows(w.db, x.o, x.s, IntentOf(x.row, Expected(x.row, x.seen, x.now)));
    case PersistResult(_, _, _, _, _, _) =>
      if x.s in w.db.services {
        StoreKeepsRows(w.db, x.o, x.s, AppliedRow(w.db.services[x.s], Expected(x.row, x.seen, x.now), x.answer), s);
      }
    case SweepComplete(_, _, _, _) =>
      if x.s in w.db.services { StoreKeepsRows(w.db, x.o, x.s, ReadRow(w.db.services[x.s], x.reading), s); }
    case _ =>
  }

  lemma ClaimKeepsRows(db: Db, o: Id, s: Id, intent: IntentData)
    ensures ClaimOperation(db, o, s, intent).0.services == db.services
  {
  }

  lemma StoreKeepsRows(db: Db, o: Id, x: Id, row: Service, s: Id)
    requires s != x
    ensures SameRow(db.services, PersistOperation(db, o, x, row).services, s)
    ensures SameRow(db.services, CompleteReconciled(db, o, x, row).services, s)
  {
  }

  lemma AdvanceLeavesRow(w: World, p: Id, q: Oracle, s: Id)
    requires p in w.procs && w.procs[p].s != s
    ensures SameRow(w.db.services, AdvanceProc(w, p, q).db.services, s)
  {
    hide RefundAdvance, ClaimAdvance, PersistAdvance, CompleteAdvance, Decided, SweepJudged, Answered, FateOf;
    CommitLeavesRow(w, p, q.lost, s);
  }

  lemma AdvanceLeavesOrder(w: World, p: Id, q: Oracle, o: Id)
    requires p in w.procs && o in w.db.orders && w.procs[p].o != o
    ensures SameOrder(w.db, AdvanceProc(w, p, q).db, o)
  {
    hide RefundAdvance, ClaimAdvance, PersistAdvance, CompleteAdvance, Decided, SweepJudged, Answered, FateOf, SameOrder;
    NothingMoved(w.db, o);
    CommitLeavesOrder(w, p, q.lost, o);
  }

  lemma WaitersChangeNothing(w: World, p: Id, q: Oracle)
    requires p in w.procs && !Holds(w.procs[p])
    ensures AdvanceProc(w, p, q).db == w.db
  {
  }

  /** What the holder of a service's lock relies on: nobody else touches its order or its service. */
  ghost predicate Undisturbed(w: World, w': World, p: Id) {
    && p in w.procs && p in w'.procs && w'.procs[p] == w.procs[p]
    && SameOrder(w.db, w'.db, w.procs[p].o) && SameRow(w.db.services, w'.db.services, w.procs[p].s)
  }

  lemma StepLeavesHolder(init: map<Id, int>, w: World, e: Event, p: Id)
    requires p in w.procs && Holds(w.procs[p]) && (e.Advance? || e.Crash? ==> e.p != p)
    requires Inv(init, w)
    ensures Undisturbed(w, Step(w, e), p)
  {
    hide Inv, AdvanceProc, CrashProc, LastIntent, ProcOk, OrderOk, SameOrder, SameRow;
    SoundAt(init, w, p);
    NothingMoved(w.db, w.procs[p].o);
    assert SameRow(w.db.services, w.db.services, w.procs[p].s) by { SameRowStays(w.db.services, w.procs[p].s); }
    match e
    case Advance(q, oracle) =>
      if q in w.procs {
        AdvanceMovesOne(w, q, oracle);
        OtherAdvance(init, w, p, q, oracle);
      }
    case Crash(q, fate) => if q in w.procs { CrashShape(w, q, fate); }
    case _ =>
  }

  lemma SameRowStays(services: map<Id, Service>, s: Id)
    ensures SameRow(services, services, s)
  {
  }

  lemma OtherAdvance(init: map<Id, int>, w: World, p: Id, q: Id, oracle: Oracle)
    requires p in w.procs && Holds(w.procs[p]) && q in w.procs && q != p
    requires Inv(init, w)
    ensures var db' := AdvanceProc(w, q, oracle).db; SameOrder(w.db, db', w.procs[p].o) && SameRow(w.db.services, db'.services, w.procs[p].s)
  {
    hide Inv, AdvanceProc, ProcOk, OrderOk, SameOrder, SameRow;
    SoundAt(init, w, p);
    SoundAt(init, w, q);
    if Holds(w.procs[q]) {
      AloneOn(init, w, p, q);
      AdvanceLeavesOrder(w, q, oracle, w.procs[p].o);
      AdvanceLeavesRow(w, q, oracle, w.procs[p].s);
    } else {
      WaitersChangeNothing(w, q, oracle);
      NothingMoved(w.db, w.procs[p].o);
      SameRowStays(w.db.services, w.procs[p].s);
    }
  }

  lemma AloneOn(init: map<Id, int>, w: World, p: Id, q: Id)
    requires p in w.procs && Holds(w.procs[p]) && q in w.procs && Holds(w.procs[q]) && p != q
    requires Inv(init, w)
    ensures w.procs[p].s != w.procs[q].s
  {
    hide DbInv, OrdersInv, ProcsInv;
    Parts(init, w);
  }

  /** While others go on, nothing that the holder knows of its order and its service changes. */
  lemma {:induction false} RunLeavesHolder(init: map<Id, int>, w: World, es: seq<Event>, others: seq<Event>, p: Id)
    requires Start(init, w) && Without(others, p) && NoneStale(w, es + others)
    requires p in Run(w, es).procs && Holds(Run(w, es).procs[p])
    ensures Undisturbed(Run(w, es), Run(w, es + others), p) && Inv(init, Run(w, es + others))
    decreases |others|
  {
    hide Start, Inv, Step, StaleCompletion, Undisturbed;
    if others == [] {
      assert es + others == es;
      RunOutcome(init, w, es);
      hide Run, NoneStale;
      HolderStays(init, w, es, p);
    } else {
      var more := Front(others);
      assert Front(es + others) == es + more && Last(es + others) == Last(others);
      RunLeavesHolder(init, w, es, more, p);
      RunOutcome(init, w, es + others);
      hide Run, NoneStale;
      StillThere(Run(w, es), Run(w, es + more), p);
      StepLeavesHolder(init, Run(w, es + more), Last(others), p);
      UndisturbedTwice(Run(w, es), Run(w, es + more), Step(Run(w, es + more), Last(others)), p);
    }
  }

  lemma HolderStays(init: map<Id, int>, w: World, es: seq<Event>, p: Id)
    requires p in Run(w, es).procs
    requires Inv(init, Run(w, es))
    ensures Undisturbed(Run(w, es), Run(w, es), p)
  {
    hide Inv, Run, OrderOk, ProcOk;
    SoundAt(init, Run(w, es), p);
  }

  lemma StillThere(w: World, w': World, p: Id)
    requires Undisturbed(w, w', p)
    ensures p in w.procs && p in w'.procs && w'.procs[p] == w.procs[p]
  {
    hide SameOrder, SameRow;
  }

  lemma UndisturbedTwice(w: World, w1: World, w2: World, p: Id)
    requires Undisturbed(w, w1, p) && Undisturbed(w1, w2, p)
    ensures Undisturbed(w, w2, p)
  {
  }

  lemma {:induction false} RunAppends(w: World, a: seq<Event>, b: seq<Event>)
    ensures Run(w, a + b) == Run(Run(w, a), b)
    ensures NoneStale(w, a + b) <==> NoneStale(w, a) && NoneStale(Run(w, a), b)
    decreases |b|
  {
    hide Step, StaleCompletion;
    if b == [] {
      assert a + b == a;
    } else {
      RunAppends(w, a, Front(b));
      assert Front(a + b) == a + Front(b) && Last(a + b) == Last(b);
    }
  }

  lemma OneStep(w: World, es: seq<Event>, e: Event)
    ensures Run(w, es + [e]) == Step(Run(w, es), e)
    ensures NoneStale(w, es + [e]) <==> NoneStale(w, es) && !StaleCompletion(Run(w, es), e)
  {
    hide Step, StaleCompletion;
    FrontOfAppend(es, e);
  }

  /** `p` takes a step, and the others go on for a while. */
  function Pause(p: Id, q: Oracle, others: seq<Event>): seq<Event> {
    [Advance(p, q)] + others
  }

  /** Between two steps under the lock `p` finds its order and its service as it left them. */
  lemma TwoSteps(init: map<Id, int>, w: World, es: seq<Event>, p: Id, q: Oracle, others: seq<Event>, q2: Oracle)
    requires Start(init, w) && Without(others, p) && NoneStale(w, es + Pause(p, q, others) + [Advance(p, q2)])
    requires var v := Run(w, es); p in v.procs && p in AdvanceProc(v, p, q).procs && Holds(AdvanceProc(v, p, q).procs[p])
    ensures var first, before := Run(w, es), Run(w, es + Pause(p, q, others));
            && Inv(init, first) && Inv(init, before)
            && Undisturbed(AdvanceProc(first, p, q), before, p)
            && Run(w, es + Pause(p, q, others) + [Advance(p, q2)]) == AdvanceProc(before, p, q2)
            && !StaleCompletion(before, Advance(p, q2))
  {
    hide Start, Inv, AdvanceProc, StaleCompletion, Undisturbed, Without, NoneStale, Run;
    var first, a := Run(w, es), Advance(p, q);
    OneStep(w, es + Pause(p, q, others), Advance(p, q2));
    assert es + Pause(p, q, others) == es + [a] + others;
    RunAppends(w, es + [a], others);
    OneStep(w, es, a);
    RunOutcome(init, w, es);
    RunLeavesHolder(init, w, es + [a], others, p);
    StillThere(Run(w, es + [a]), Run(w, es + [a] + others), p);
  }

  // ---- what an executor read under the lock is still so -----------------------------------------------------------

  lemma StepKeepsRead(init: map<Id, int>, w: World, e: Event)
    requires AllFresh(w.db.services, w.procs)
    requires Inv(init, w)
    ensures AllFresh(Step(w, e).db.services, Step(w, e).procs)
  {
    hide Inv, Step, AllFresh, RowFresh;
    var w' := Step(w, e);
    forall p | p in w'.procs && HasRow(w'.procs[p]) ensures RowFresh(w'.db.services, w'.procs[p]) {
      StepKeepsRowOf(init, w, e, p);
    }
    AllFreshFrom(w');
  }

  lemma AllFreshFrom(w: World)
    requires forall p :: p in w.procs && HasRow(w.procs[p]) ==> RowFresh(w.db.services, w.procs[p])
    ensures AllFresh(w.db.services, w.procs)
  {
    hide RowFresh;
  }

  lemma FreshAt(w: World, p: Id)
    requires AllFresh(w.db.services, w.procs) && p in w.procs && HasRow(w.procs[p])
    ensures RowFresh(w.db.services, w.procs[p])
  {
    hide RowFresh;
  }

  lemma StepKeepsRowOf(init: map<Id, int>, w: World, e: Event, p: Id)
    requires AllFresh(w.db.services, w.procs) && p in Step(w, e).procs && HasRow(Step(w, e).procs[p])
    requires Inv(init, w)
    ensures RowFresh(Step(w, e).db.services, Step(w, e).procs[p])
  {
    hide Inv, AllFresh, RowFresh, AdvanceProc, CrashProc, LastIntent, Undisturbed;
    if !e.Late? { StepMovesOne(w, e); }
    if e.Advance? && e.p == p {
      if p in w.procs { AdvanceKeepsRow(w, p, e.q); }
    } else {
      if e.Crash? && e.p in w.procs { CrashShape(w, e.p, e.fate); }
      assert p in w.procs && !(e.Crash? && e.p == p);
      FreshAt(w, p);
      StepLeavesHolder(init, w, e, p);
      RowStaysFresh(w, Step(w, e), p);
    }
  }

  lemma RowStaysFresh(w: World, w': World, p: Id)
    requires Undisturbed(w, w', p) && HasRow(w.procs[p]) && RowFresh(w.db.services, w.procs[p])
    ensures RowFresh(w'.db.services, w'.procs[p])
  {
    hide InvalidGrant, SameOrder;
  }

  lemma AdvanceKeepsRow(w: World, p: Id, q: Oracle)
    requires AllFresh(w.db.services, w.procs) && p in w.procs && p in AdvanceProc(w, p, q).procs && HasRow(AdvanceProc(w, p, q).procs[p])
    ensures RowFresh(AdvanceProc(w, p, q).db.services, AdvanceProc(w, p, q).procs[p])
  {
    hide AllFresh, RowFresh, AdvanceProc;
    if HasRow(w.procs[p]) { FreshAt(w, p); }
    if w.procs[p].PersistResult? || w.procs[p].SweepComplete? {
      StoringLosesRow(w, p, q);
    } else {
      MoverKnowsRow(w, p, q);
      LookersKeepRows(w, p, q);
    }
  }

  lemma StoringLosesRow(w: World, p: Id, q: Oracle)
    requires p in w.procs && (w.procs[p].PersistResult? || w.procs[p].SweepComplete?) && p in AdvanceProc(w, p, q).procs
    ensures !HasRow(AdvanceProc(w, p, q).procs[p])
  {
    hide PersistOperation, CompleteReconciled, Expected, AppliedRow, ReadRow;
  }

  lemma LookersKeepRows(w: World, p: Id, q: Oracle)
    requires p in w.procs && !w.procs[p].SweepComplete? && !w.procs[p].PersistResult?
    ensures AdvanceProc(w, p, q).db.services == w.db.services
  {
    hide Expected, Decided, SweepJudged, RefundDefinite, ClaimOperation, Answered, FateOf;
    var x := w.procs[p];
    match x
    case RefundNow(_, _, _) => RefundKeepsEvents(w.db, x.o, x.seen);
    case ClaimOrder(_, _, _, _, _) => ClaimKeepsRows(w.db, x.o, x.s, IntentOf(x.row, Expected(x.row, x.seen, x.now)));
    case _ =>
  }

  /** In every run without a stale completion: the service an executor decided on is, until it is done, the service that is stored. */
  lemma {:induction false} RunKeepsRead(init: map<Id, int>, w: World, es: seq<Event>)
    requires Start(init, w) && NoneStale(w, es)
    ensures Inv(init, Run(w, es)) && AllFresh(Run(w, es).db.services, Run(w, es).procs)
    decreases |es|
  {
    hide Inv, Step, StaleCompletion, AllFresh;
    RunOutcome(init, w, es);
    if es == [] {
      NobodyKnows(init, w);
    } else {
      hide Start;
      RunKeepsRead(init, w, Front(es));
      StepKeepsRead(init, Run(w, Front(es)), Last(es));
    }
  }

  lemma NobodyKnows(init: map<Id, int>, w: World)
    requires Start(init, w)
    ensures AllFresh(w.db.services, w.procs)
  {
    hide DbInv;
  }

  // ---- refunds -----------------------------------------------------------------------------------------------------

  /** A refund pays back an order that is open, and tells of any other whether it was refunded. */
  lemma RefundSettles(init: map<Id, int>, w: World, p: Id, q: Oracle)
    requires p in w.procs && w.procs[p].RefundNow?
    requires Inv(init, w)
    ensures var x, w' := w.procs[p], AdvanceProc(w, p, q);
            && x.o in w.db.orders && p in w'.procs
            && var status := w.db.orders[x.o].status;
            && (if Open(status) then PaidBack(w.db, w'.db, x.o) else w'.db == w.db)
            && w'.procs[p] == ReleaseLock(x.o, x.s, Refunded(!status.Completed?))
  {
    hide Inv, DbInv, OrdersInv, ProcsInv, LocksSound, RefundDefinite, PaidBack, ProcOk;
    SoundAt(init, w, p);
    Parts(init, w);
    var x := w.procs[p];
    if Open(w.db.orders[x.o].status) {
      OpenRefundPaysBack(init, w.db, x.o, x.seen);
    } else {
      ClosedRefundStays(w.db, x.o, x.seen);
    }
  }

  /** The order as the holder of its service's lock finds it after the others went on. */
  lemma SameStatus(w: World, w': World, p: Id, o: Id)
    requires Undisturbed(w, w', p) && w.procs[p].o == o
    ensures o in w.db.orders && o in w'.db.orders && w'.db.orders[o] == w.db.orders[o]
    ensures SameRow(w.db.services, w'.db.services, w.procs[p].s)
  {
    hide SameRow;
  }

  lemma AfterAnswer(init: map<Id, int>, w: World, p: Id, q: Oracle)
    requires p in w.procs && w.procs[p].CallPanel?
    requires Inv(init, w)
    ensures var x, w' := w.procs[p], AdvanceProc(w, p, q);
            && x.o in w.db.orders && w.db.orders[x.o].status.Provisioning? && w'.db == w.db && p in w'.procs
            && x.seen.Terms() == w.db.orders[x.o].Terms()
            && w'.procs[p] == match q.answer
                              case Accepted(response, _) => PersistResult(x.o, x.s, x.seen, x.row, x.now, response)
                              case RefusedForCertain(_) => RefundNow(x.o, x.s, x.seen)
                              case Unclear(_) => ReleaseLock(x.o, x.s, Undecided)
  {
    hide Inv, OrderOk, FateOf, CallOf;
    SoundAt(init, w, p);
  }

  /** A definite refusal of the panel: the order is closed as failed and the buyer has the whole price back, exactly once. */
  lemma RefusalIsRefunded(init: map<Id, int>, w: World, es: seq<Event>, p: Id, q: Oracle, others: seq<Event>, q2: Oracle)
    requires Start(init, w) && Without(others, p) && NoneStale(w, es + Pause(p, q, others) + [Advance(p, q2)])
    requires p in Run(w, es).procs && Run(w, es).procs[p].CallPanel? && q.answer.RefusedForCertain?
    ensures var x, before, after := Run(w, es).procs[p], Run(w, es + Pause(p, q, others)),
                                    Run(w, es + Pause(p, q, others) + [Advance(p, q2)]);
            PaidBack(before.db, after.db, x.o) && p in after.procs && after.procs[p] == ReleaseLock(x.o, x.s, Refunded(true))
  {
    hide Start, NoneStale, Without, Run, Inv, StaleCompletion, PaidBack, AdvanceProc, Undisturbed, Pause;
    var first, before := Run(w, es), Run(w, es + Pause(p, q, others));
    ReachedInv(init, w, es, Pause(p, q, others), [Advance(p, q2)]);
    AfterAnswer(init, first, p, q);
    TwoSteps(init, w, es, p, q, others, q2);
    StillThere(AdvanceProc(first, p, q), before, p);
    SameStatus(AdvanceProc(first, p, q), before, p, first.procs[p].o);
    RefundSettles(init, before, p, q2);
  }

  lemma ReachedInv(init: map<Id, int>, w: World, es: seq<Event>, a: seq<Event>, b: seq<Event>)
    requires Start(init, w) && NoneStale(w, es + a + b)
    ensures NoneStale(w, es) && Inv(init, Run(w, es))
  {
    hide Start, Inv, Run, NoneStale;
    assert es + a + b == es + (a + b);
    RunAppends(w, es, a + b);
    RunOutcome(init, w, es);
  }

  /** The order is not the caller's to change: its service is gone, another user's, deleted, or its panel is not active. */
  predicate Unavailable(db: Db, o: Id, s: Id, panelActive: bool)
    requires o in db.orders
  {
    s !in db.services || db.services[s].user != db.orders[o].user || db.services[s].deleted || !panelActive
  }

  /** Extra volume without a volume or a limit to add to, extra time without days or an expiry. */
  predicate Ungrantable(s: Service, o: Order) {
    || (o.kind == ExtraVolume && !(o.volumeGb.Some? && o.volumeGb.value > 0 && s.volumeBytes > 0))
    || (o.kind == ExtraTime && !(o.durationDays.Some? && o.durationDays.value > 0 && s.expiresAt.Some?))
  }

  /** What the executor decides. */
  function Decision(db: Db, o: Id, s: Id, q: Oracle): Proc
    requires o in db.orders
  {
    var order := db.orders[o];
    if order.status.Completed? && s in db.services then ReleaseLock(o, s, Delivered)
    else if !order.status.Paid? then ReleaseLock(o, s, Busy)
    else if Unavailable(db, o, s, q.panelActive) || Ungrantable(db.services[s], order) then RefundNow(o, s, order)
    else ClaimOrder(o, s, order, db.services[s], q.now)
  }

  lemma AfterDecision(init: map<Id, int>, w: World, p: Id, q: Oracle)
    requires p in w.procs && w.procs[p].Decide?
    requires Inv(init, w)
    ensures var x, w' := w.procs[p], AdvanceProc(w, p, q);
            && x.o in w.db.orders && w'.db == w.db && p in w'.procs && w'.procs[p] == Decision(w.db, x.o, x.s, q)
  {
    hide Inv, InvalidGrant;
    SoundAt(init, w, p);
    var x := w.procs[p];
    if x.s in w.db.services { InvalidGrantsAre(w.db.services[x.s], w.db.orders[x.o]); }
  }

  /** A paid operation on an unavailable service, or one that grants nothing, is paid back without a call to the panel. */
  lemma UnfitIsRefunded(init: map<Id, int>, w: World, es: seq<Event>, p: Id, q: Oracle, others: seq<Event>, q2: Oracle)
    requires Start(init, w) && Without(others, p) && NoneStale(w, es + Pause(p, q, others) + [Advance(p, q2)])
    requires p in Run(w, es).procs && Run(w, es).procs[p].Decide?
    requires var x, db := Run(w, es).procs[p], Run(w, es).db;
             && x.o in db.orders && db.orders[x.o].status.Paid?
             && (Unavailable(db, x.o, x.s, q.panelActive) || Ungrantable(db.services[x.s], db.orders[x.o]))
    ensures var x, before, after := Run(w, es).procs[p], Run(w, es + Pause(p, q, others)),
                                    Run(w, es + Pause(p, q, others) + [Advance(p, q2)]);
            && PaidBack(before.db, after.db, x.o) && p in after.procs && after.procs[p] == ReleaseLock(x.o, x.s, Refunded(true))
            && after.called == before.called
  {
    hide Start, NoneStale, Without, Run, Inv, StaleCompletion, PaidBack, AdvanceProc, Undisturbed, Pause, Unavailable, Ungrantable;
    var first, before := Run(w, es), Run(w, es + Pause(p, q, others));
    ReachedInv(init, w, es, Pause(p, q, others), [Advance(p, q2)]);
    AfterDecision(init, first, p, q);
    TwoSteps(init, w, es, p, q, others, q2);
    StillThere(AdvanceProc(first, p, q), before, p);
    SameStatus(AdvanceProc(first, p, q), before, p, first.procs[p].o);
    RefundSettles(init, before, p, q2);
    RefundCallsNobody(before, p, q2);
  }

  lemma RefundCallsNobody(w: World, p: Id, q: Oracle)
    requires p in w.procs && w.procs[p].RefundNow?
    ensures AdvanceProc(w, p, q).called == w.called
  {
    hide RefundDefinite;
  }

  // ---- what is stored ------------------------------------------------------------------------------------------------

  /** One service row, one applied event and the completed order, together; nothing else changes. */
  ghost predicate StoredOnce(db: Db, db': Db, o: Id, s: Id) {
    && o in db.orders && s in db.services && s in db'.services
    && db' == db.(services := db.services[s := db'.services[s]], events := db.events + [ServiceEvent(Applied, s, o, None)],
                  orders := db.orders[o := db.orders[o].(status := Completed)])
  }

  /** The row afterwards: what the panel reported, and where it repeats or leaves out what was asked, what was granted. */
  ghost predicate AsAnswered(s: Service, order: Order, now: int, r: Response, s': Service) {
    && SameService(s, s') && s'.used == (if r.used.Some? then r.used.value else 0)
    && (r.total.Some? ==> s'.volumeBytes == r.total.value)
    && (r.remaining.Some? ==> s'.remaining == r.remaining.value)
    && (r.expiresAt.Reported? ==> s'.expiresAt == r.expiresAt.expiresAt)
    && (Echoes(Expected(s, order, now), r) ==> StoredAsGranted(s, order, now, s'))
  }

  lemma StoresOnce(db: Db, o: Id, s: Id, row: Service)
    requires o in db.orders && s in db.services
    ensures StoredOnce(db, CompleteReconciled(db, o, s, row), o, s) && CompleteReconciled(db, o, s, row).services[s] == row
    ensures db.orders[o].status.Provisioning? ==> PersistOperation(db, o, s, row) == CompleteReconciled(db, o, s, row)
  {
  }

  lemma AppliedAsAnswered(s: Service, seen: Order, order: Order, now: int, r: Response)
    requires seen.Terms() == order.Terms() && IsOperation(order.kind)
    ensures AsAnswered(s, order, now, r, AppliedRow(s, Expected(s, seen, now), r))
  {
    hide Expected, Echoes, AppliedRow, StoredAsGranted;
    TermsFields(seen, order);
    SameTermsSameAsk(s, seen, order, now);
    ReportedFiguresWin(s, Expected(s, order, now), r);
    if Echoes(Expected(s, order, now), r) { EchoedOperationStores(s, order, now, r); }
  }

  lemma SameTermsSameAsk(s: Service, a: Order, b: Order, now: int)
    requires a == b.(status := a.status)
    ensures Expected(s, a, now) == Expected(s, b, now)
  {
  }

  lemma PersistSettles(init: map<Id, int>, w: World, p: Id, q: Oracle)
    requires p in w.procs && w.procs[p].PersistResult? && RowFresh(w.db.services, w.procs[p])
    requires Inv(init, w)
    ensures var x, w' := w.procs[p], AdvanceProc(w, p, q);
            && p in w'.procs && x.o in w.db.orders && x.s in w.db.services
            && (q.lost ==> w'.db == w.db && w'.procs[p] == ReleaseLock(x.o, x.s, Undecided))
            && (!q.lost ==> && w'.procs[p] == ReleaseLock(x.o, x.s, Delivered) && StoredOnce(w.db, w'.db, x.o, x.s)
                            && AsAnswered(w.db.services[x.s], w.db.orders[x.o], x.now, x.answer, w'.db.services[x.s]))
  {
    hide Inv, OrderOk, Expected, AppliedRow, PersistOperation, CompleteReconciled, StoredOnce, AsAnswered, InvalidGrant;
    SoundAt(init, w, p);
    var x := w.procs[p];
    StoresOnce(w.db, x.o, x.s, AppliedRow(w.db.services[x.s], Expected(x.row, x.seen, x.now), x.answer));
    AppliedAsAnswered(w.db.services[x.s], x.seen, w.db.orders[x.o], x.now, x.answer);
  }

  lemma CallerKnows(init: map<Id, int>, w: World, es: seq<Event>, p: Id)
    requires Start(init, w) && NoneStale(w, es) && p in Run(w, es).procs && HasRow(Run(w, es).procs[p])
    ensures RowFresh(Run(w, es).db.services, Run(w, es).procs[p])
  {
    hide Start, NoneStale, Run, Inv, AllFresh, RowFresh;
    RunKeepsRead(init, w, es);
    FreshAt(Run(w, es), p);
  }

  /**
   An accepted call: unless the lock was lost meanwhile, row, event and COMPLETED are stored together, with what the
   panel reported or what was granted; with the lock lost nothing is written and the order stays open.
   */
  lemma AcceptanceIsStored(init: map<Id, int>, w: World, es: seq<Event>, p: Id, q: Oracle, others: seq<Event>, q2: Oracle)
    requires Start(init, w) && Without(others, p) && NoneStale(w, es + Pause(p, q, others) + [Advance(p, q2)])
    requires p in Run(w, es).procs && Run(w, es).procs[p].CallPanel? && q.answer.Accepted?
    ensures var x, before, after := Run(w, es).procs[p], Run(w, es + Pause(p, q, others)),
                                    Run(w, es + Pause(p, q, others) + [Advance(p, q2)]);
            && p in after.procs && x.o in before.db.orders && x.s in before.db.services
            && (q2.lost ==> after.db == before.db && after.procs[p] == ReleaseLock(x.o, x.s, Undecided))
            && (!q2.lost ==> && after.procs[p] == ReleaseLock(x.o, x.s, Delivered) && StoredOnce(before.db, after.db, x.o, x.s)
                             && AsAnswered(before.db.services[x.s], before.db.orders[x.o], x.now, q.answer.response, after.db.services[x.s]))
  {
    hide Start, NoneStale, Without, Run, Inv, StaleCompletion, AdvanceProc, Undisturbed, Pause, StoredOnce, AsAnswered, RowFresh;
    var first, before := Run(w, es), Run(w, es + Pause(p, q, others));
    ReachedInv(init, w, es, Pause(p, q, others), [Advance(p, q2)]);
    AfterAnswer(init, first, p, q);
    TwoSteps(init, w, es, p, q, others, q2);
    StillThere(AdvanceProc(first, p, q), before, p);
    PausedIsClean(w, es, p, q, others, q2);
    CallerKnows(init, w, es + Pause(p, q, others), p);
    PersistSettles(init, before, p, q2);
  }

  lemma PausedIsClean(w: World, es: seq<Event>, p: Id, q: Oracle, others: seq<Event>, q2: Oracle)
    requires NoneStale(w, es + Pause(p, q, others) + [Advance(p, q2)])
    ensures NoneStale(w, es + Pause(p, q, others))
  {
    hide NoneStale, Pause;
    RunAppends(w, es + Pause(p, q, others), [Advance(p, q2)]);
  }

  // ---- what a reconciler makes of a read -------------------------------------------------------------------------------

  /** The panel shows one of the values that were asked for. */
  predicate ShowsAsked(i: IntentData, r: Remote) {
    (i.expectedTotal.Some? && r.total == i.expectedTotal) || (i.expectedExpiry.Some? && r.expiresAt == i.expectedExpiry)
  }

  /** The panel shows both values of before the call. */
  predicate ShowsBefore(i: IntentData, r: Remote) {
    r.total == Some(i.beforeTotal) && r.expiresAt == i.beforeExpiry
  }

  lemma AfterSweepRead(init: map<Id, int>, w: World, p: Id, q: Oracle)
    requires p in w.procs && w.procs[p].SweepRead?
    requires Inv(init, w)
    ensures var x, w' := w.procs[p], AdvanceProc(w, p, q);
            && x.o in w.db.orders && w'.db == w.db && p in w'.procs
            && w'.procs[p] == if !q.readable || x.s !in w.panel then ReleaseLock(x.o, x.s, Undecided)
                              else if ShowsAsked(x.intent, w.panel[x.s])
                              then SweepComplete(x.o, x.s, x.seen, PanelReading(w.panel[x.s], q.remaining, q.used))
                              else if ShowsBefore(x.intent, w.panel[x.s]) then RefundNow(x.o, x.s, x.seen)
                              else ReleaseLock(x.o, x.s, Undecided)
  {
    hide Inv, OrderOk, ProcOk;
    SoundAt(init, w, p);
  }

  /** The row as it was read: limit and expiry from the panel, use and rest where the panel reported them. */
  ghost predicate AsRead(s: Service, remote: Remote, remaining: Option<int>, used: Option<int>, s': Service) {
    && SameService(s, s')
    && s'.volumeBytes == (if remote.total.Some? then remote.total.value else 0) && s'.expiresAt == remote.expiresAt
    && s'.remaining == (if remaining.Some? then remaining.value else s.remaining)
    && s'.used == (if used.Some? then used.value else s.used)
  }

  lemma RowAsRead(s: Service, r: PanelReading)
    ensures AsRead(s, r.remote, r.remaining, r.used, ReadRow(s, r))
  {
  }

  lemma CompleteSettles(w: World, p: Id, q: Oracle)
    requires p in w.procs && w.procs[p].SweepComplete? && w.procs[p].o in w.db.orders && w.procs[p].s in w.db.services
    ensures var x, w' := w.procs[p], AdvanceProc(w, p, q);
            && p in w'.procs && w'.procs[p] == ReleaseLock(x.o, x.s, Delivered) && StoredOnce(w.db, w'.db, x.o, x.s)
            && AsRead(w.db.services[x.s], x.reading.remote, x.reading.remaining, x.reading.used, w'.db.services[x.s])
  {
    hide CompleteReconciled, ReadRow, StoredOnce, AsRead;
    var x := w.procs[p];
    StoresOnce(w.db, x.o, x.s, ReadRow(w.db.services[x.s], x.reading));
    RowAsRead(w.db.services[x.s], x.reading);
  }

  /** A panel that shows a value that was asked for: the order is completed with the row as it was read. */
  lemma ShownIsCompleted(init: map<Id, int>, w: World, es: seq<Event>, p: Id, q: Oracle, others: seq<Event>, q2: Oracle)
    requires Start(init, w) && Without(others, p) && NoneStale(w, es + Pause(p, q, others) + [Advance(p, q2)])
    requires p in Run(w, es).procs && Run(w, es).procs[p].SweepRead? && Run(w, es).procs[p].s in Run(w, es).db.services
    requires var x, v := Run(w, es).procs[p], Run(w, es); q.readable && x.s in v.panel && ShowsAsked(x.intent, v.panel[x.s])
    ensures var x, before, after := Run(w, es).procs[p], Run(w, es + Pause(p, q, others)),
                                    Run(w, es + Pause(p, q, others) + [Advance(p, q2)]);
            && p in after.procs && after.procs[p] == ReleaseLock(x.o, x.s, Delivered) && StoredOnce(before.db, after.db, x.o, x.s)
            && AsRead(before.db.services[x.s], Run(w, es).panel[x.s], q.remaining, q.used, after.db.services[x.s])
  {
    hide Start, NoneStale, Without, Run, Inv, StaleCompletion, AdvanceProc, Undisturbed, Pause, StoredOnce, AsRead, ShowsAsked, ShowsBefore;
    var first, before := Run(w, es), Run(w, es + Pause(p, q, others));
    ReachedInv(init, w, es, Pause(p, q, others), [Advance(p, q2)]);
    AfterSweepRead(init, first, p, q);
    TwoSteps(init, w, es, p, q, others, q2);
    StillThere(AdvanceProc(first, p, q), before, p);
    SameStatus(AdvanceProc(first, p, q), before, p, first.procs[p].o);
    CompleteSettles(before, p, q2);
  }

  /** A panel that shows everything as before: an order still open is paid back, any other is left alone. */
  lemma UntouchedIsRefunded(init: map<Id, int>, w: World, es: seq<Event>, p: Id, q: Oracle, others: seq<Event>, q2: Oracle)
    requires Start(init, w) && Without(others, p) && NoneStale(w, es + Pause(p, q, others) + [Advance(p, q2)])
    requires p in Run(w, es).procs && Run(w, es).procs[p].SweepRead?
    requires var x, v := Run(w, es).procs[p], Run(w, es);
             q.readable && x.s in v.panel && !ShowsAsked(x.intent, v.panel[x.s]) && ShowsBefore(x.intent, v.panel[x.s])
    ensures var x, before, after := Run(w, es).procs[p], Run(w, es + Pause(p, q, others)),
                                    Run(w, es + Pause(p, q, others) + [Advance(p, q2)]);
            && x.o in before.db.orders && p in after.procs
            && var status := before.db.orders[x.o].status;
            && (if Open(status) then PaidBack(before.db, after.db, x.o) else after.db == before.db)
            && after.procs[p] == ReleaseLock(x.o, x.s, Refunded(!status.Completed?))
  {
    hide Start, NoneStale, Without, Run, Inv, StaleCompletion, PaidBack, AdvanceProc, Undisturbed, Pause, ShowsAsked, ShowsBefore;
    var first, before := Run(w, es), Run(w, es + Pause(p, q, others));
    ReachedInv(init, w, es, Pause(p, q, others), [Advance(p, q2)]);
    AfterSweepRead(init, first, p, q);
    TwoSteps(init, w, es, p, q, others, q2);
    StillThere(AdvanceProc(first, p, q), before, p);
    RefundSettles(init, before, p, q2);
  }

  // ---- calls that wait, and claims that come late -----------------------------------------------------------------------

  /** A call or a reconciliation that waits for its service takes the lock when it is free, and may give up with nothing done. */
  lemma WaitsForLock(w: World, p: Id, q: Oracle)
    requires p in w.procs && (w.procs[p].AwaitLock? || w.procs[p].SweepAwait?)
    ensures var x, w' := w.procs[p], AdvanceProc(w, p, q);
            && w'.db == w.db && p in w'.procs
            && (q.giveUp ==> w'.procs[p] == Done(x.o, x.s, Busy) && w'.locks == w.locks)
            && (!q.giveUp && x.s in w.locks ==> w' == w)
            && (!q.giveUp && x.s !in w.locks ==> x.s in w'.locks && w'.locks[x.s] == p && Holds(w'.procs[p]))
  {
  }

  /** An order that another call claimed in the meantime is left to it. */
  lemma LateClaim(w: World, p: Id, q: Oracle)
    requires p in w.procs && w.procs[p].ClaimOrder? && w.procs[p].o in w.db.orders && !w.db.orders[w.procs[p].o].status.Paid?
    ensures var x, w' := w.procs[p], AdvanceProc(w, p, q); w'.db == w.db && p in w'.procs && w'.procs[p] == ReleaseLock(x.o, x.s, Busy)
  {
    hide Expected;
  }

  /** An unclear answer changes no table, and the call reports UNDECIDED. */
  lemma UnclearIsLeft(init: map<Id, int>, w: World, es: seq<Event>, p: Id, q: Oracle, others: seq<Event>, q2: Oracle)
    requires Start(init, w) && Without(others, p) && NoneStale(w, es + Pause(p, q, others) + [Advance(p, q2)])
    requires p in Run(w, es).procs && Run(w, es).procs[p].CallPanel? && q.answer.Unclear?
    ensures var x, before, after := Run(w, es).procs[p], Run(w, es + Pause(p, q, others)),
                                    Run(w, es + Pause(p, q, others) + [Advance(p, q2)]);
            && AdvanceProc(Run(w, es), p, q).db == Run(w, es).db && after.db == before.db
            && p in after.procs && after.procs[p] == Done(x.o, x.s, Undecided)
  {
    hide Start, NoneStale, Without, Run, Inv, StaleCompletion, AdvanceProc, Undisturbed, Pause;
    var first, before := Run(w, es), Run(w, es + Pause(p, q, others));
    ReachedInv(init, w, es, Pause(p, q, others), [Advance(p, q2)]);
    AfterAnswer(init, first, p, q);
    TwoSteps(init, w, es, p, q, others, q2);
    StillThere(AdvanceProc(first, p, q), before, p);
    ReleaseSettles(before, p, q2);
  }

  lemma ReleaseSettles(w: World, p: Id, q: Oracle)
    requires p in w.procs && w.procs[p].ReleaseLock?
    ensures var x, w' := w.procs[p], AdvanceProc(w, p, q);
            w'.db == w.db && p in w'.procs && w'.procs[p] == Done(x.o, x.s, x.result) && x.s !in w'.locks
  {
  }

  // ---- one call from its beginning to its end ----------------------------------------------------------------------------

  /** `p` takes n steps in a row. */
  function Turns(p: Id, q: Oracle, n: nat): seq<Event> {
    if n == 0 then [] else Turns(p, q, n - 1) + [Advance(p, q)]
  }

  /** The world n turns of `p` later. */
  function After(w: World, p: Id, q: Oracle, n: nat): World {
    Run(w, Turns(p, q, n))
  }

  lemma FirstTurns(w: World, p: Id, q: Oracle)
    ensures After(w, p, q, 0) == w && After(w, p, q, 1) == Step(w, Advance(p, q))
    ensures After(w, p, q, 2) == Step(After(w, p, q, 1), Advance(p, q)) && After(w, p, q, 3) == Step(After(w, p, q, 2), Advance(p, q))
    ensures After(w, p, q, 4) == Step(After(w, p, q, 3), Advance(p, q)) && After(w, p, q, 5) == Step(After(w, p, q, 4), Advance(p, q))
    ensures After(w, p, q, 6) == Step(After(w, p, q, 5), Advance(p, q))
  {
    hide Step;
    assert After(w, p, q, 0) == w;
    NextTurn(w, p, q, 1);
    NextTurn(w, p, q, 2);
    NextTurn(w, p, q, 3);
    NextTurn(w, p, q, 4);
    NextTurn(w, p, q, 5);
    NextTurn(w, p, q, 6);
    hide After;
  }

  lemma NextTurn(w: World, p: Id, q: Oracle, n: nat)
    requires n > 0
    ensures After(w, p, q, n) == Step(After(w, p, q, n - 1), Advance(p, q))
  {
    FrontOfAppend(Turns(p, q, n - 1), Advance(p, q));
    hide Step;
  }

  /** `p` stands at x over these tables, with these locks and panels. */
  predicate Stands(w: World, v: World, p: Id, x: Proc) {
    p in w.procs && w.procs[p] == x && w.db == v.db && w.locks == v.locks && w.panel == v.panel
  }

  predicate Ends(w: World, p: Id, o: Id, s: Id, r: Result, db: Db) {
    p in w.procs && w.procs[p] == Done(o, s, r) && w.db == db
  }

  lemma WaitTurn(v: World, w: World, p: Id, x: Proc, q: Oracle)
    requires (x.AwaitLock? || x.SweepAwait?) && Stands(w, v, p, x) && x.s !in v.locks && !q.giveUp
    ensures Stands(Step(w, Advance(p, q)), v.(locks := v.locks[x.s := p]), p,
                   if x.AwaitLock? then Decide(x.o, x.s) else SweepRead(x.o, x.s, x.seen, x.intent))
  {
  }

  /** The order's facts that a call builds on. */
  ghost predicate Sound(init: map<Id, int>, db: Db, o: Id) {
    DbInv(init, db) && o in db.orders && IsOperation(db.orders[o].kind) && OrderOk(ViewOf(db, o))
  }

  lemma DecideTurn(init: map<Id, int>, v: World, w: World, p: Id, o: Id, s: Id, q: Oracle)
    requires Sound(init, v.db, o) && Stands(w, v, p, Decide(o, s))
    ensures Stands(Step(w, Advance(p, q)), v, p, Decision(v.db, o, s, q))
  {
    hide DbInv, InvalidGrant;
    if s in v.db.services { InvalidGrantsAre(v.db.services[s], v.db.orders[o]); }
  }

  lemma EndTurn(w: World, p: Id, q: Oracle)
    requires p in w.procs && (w.procs[p].ReleaseLock? || w.procs[p].Done?)
    ensures Ends(Step(w, Advance(p, q)), p, w.procs[p].o, w.procs[p].s, w.procs[p].result, w.db)
  {
  }

  lemma RefundTurn(w: World, p: Id, q: Oracle)
    requires p in w.procs && w.procs[p].RefundNow?
    ensures var x, w' := w.procs[p], Step(w, Advance(p, q));
            var (db', done) := RefundDefinite(w.db, x.o, x.seen);
            p in w'.procs && w'.procs[p] == ReleaseLock(x.o, x.s, Refunded(done)) && w'.db == db'
  {
    hide RefundDefinite;
  }

  /** A refund and a release pay back an order that was sound and open. */
  lemma RefundEnds(init: map<Id, int>, w: World, p: Id, o: Id, s: Id, seen: Order, q: Oracle)
    requires DbInv(init, w.db) && o in w.db.orders && seen.Terms() == w.db.orders[o].Terms() && Refunds(w.db.ledger, o) == 0
    requires Open(w.db.orders[o].status) && p in w.procs && w.procs[p] == RefundNow(o, s, seen)
    ensures var w' := Step(Step(w, Advance(p, q)), Advance(p, q));
            Ends(w', p, o, s, Refunded(true), w'.db) && PaidBack(w.db, w'.db, o)
  {
    hide Step, DbInv, PaidBack, RefundDefinite;
    RefundTurn(w, p, q);
    OpenRefundPaysBack(init, w.db, o, seen);
    EndTurn(Step(w, Advance(p, q)), p, q);
  }

  /** The tables after the claim: the order PROVISIONING, and on record what the service was and what is asked. */
  ghost predicate ClaimedWith(db: Db, db': Db, o: Id, s: Id, now: int) {
    && o in db.orders && s in db.services && |db'.events| == |db.events| + 1
    && db' == db.(orders := db.orders[o := db.orders[o].(status := Provisioning)], events := db'.events)
    && exists total, expiresAt ::
         && AsksForGrant(db.services[s], db.orders[o], now, total, expiresAt)
         && db'.events == db.events + [ServiceEvent(Intent, s, o, Some(IntentData(db.services[s].volumeBytes, db.services[s].expiresAt, total, expiresAt)))]
  }

  lemma ClaimTurn(v: World, w: World, p: Id, o: Id, s: Id, now: int, q: Oracle)
    requires o in v.db.orders && s in v.db.services && v.db.orders[o].status.Paid?
    requires Stands(w, v, p, ClaimOrder(o, s, v.db.orders[o], v.db.services[s], now))
    ensures var w' := Step(w, Advance(p, q));
            && p in w'.procs && w'.procs[p] == CallPanel(o, s, v.db.orders[o], v.db.services[s], now)
            && ClaimedWith(v.db, w'.db, o, s, now)
  {
    ExpectedAsks(v.db.services[s], v.db.orders[o], now);
    hide Expected, AsksForGrant;
  }

  /** What one call on an operation comes to, by the order, its service, and the panel's answer. */
  ghost predicate OperateOutcome(db: Db, w: World, p: Id, o: Id, s: Id, q: Oracle)
    requires o in db.orders
  {
    var order := db.orders[o];
    if order.status.Completed? && s in db.services then Ends(w, p, o, s, Delivered, db)
    else if !order.status.Paid? then Ends(w, p, o, s, Busy, db)
    else if Unavailable(db, o, s, q.panelActive) || Ungrantable(db.services[s], order)
      then Ends(w, p, o, s, Refunded(true), w.db) && PaidBack(db, w.db, o)
    else exists claimed :: ClaimedWith(db, claimed, o, s, q.now) && AnswerOutcome(db, claimed, w, p, o, s, q)
  }

  ghost predicate AnswerOutcome(db: Db, claimed: Db, w: World, p: Id, o: Id, s: Id, q: Oracle)
    requires o in db.orders && s in db.services
  {
    if q.answer.RefusedForCertain? then Ends(w, p, o, s, Refunded(true), w.db) && PaidBack(claimed, w.db, o)
    else if q.answer.Accepted? && !q.lost
      then Ends(w, p, o, s, Delivered, w.db) && StoredOnce(claimed, w.db, o, s)
           && AsAnswered(db.services[s], db.orders[o], q.now, q.answer.response, w.db.services[s])
    else Ends(w, p, o, s, Undecided, claimed)
  }

  lemma AnswerTurn(w: World, p: Id, x: Proc, q: Oracle)
    requires p in w.procs && w.procs[p] == x && x.CallPanel?
    ensures var w' := Step(w, Advance(p, q));
            && p in w'.procs && w'.db == w.db
            && w'.procs[p] == match q.answer
                              case Accepted(response, _) => PersistResult(x.o, x.s, x.seen, x.row, x.now, response)
                              case RefusedForCertain(_) => RefundNow(x.o, x.s, x.seen)
                              case Unclear(_) => ReleaseLock(x.o, x.s, Undecided)
  {
    hide FateOf, CallOf;
  }

  lemma PersistTurn(w: World, p: Id, q: Oracle)
    requires p in w.procs && w.procs[p].PersistResult? && w.procs[p].s in w.db.services
    ensures var x, w' := w.procs[p], Step(w, Advance(p, q));
            && p in w'.procs
            && (q.lost ==> w'.db == w.db && w'.procs[p] == ReleaseLock(x.o, x.s, Undecided))
            && (!q.lost ==> && w'.procs[p] == ReleaseLock(x.o, x.s, Delivered)
                            && w'.db == PersistOperation(w.db, x.o, x.s, AppliedRow(w.db.services[x.s], Expected(x.row, x.seen, x.now), x.answer)))
  {
    hide PersistOperation, AppliedRow, Expected;
  }

  /** The claim's facts that the rest of the call builds on. */
  lemma ClaimedFacts(init: map<Id, int>, db: Db, claimed: Db, o: Id, s: Id, now: int)
    requires Sound(init, db, o) && db.orders[o].status.Paid? && ClaimedWith(db, claimed, o, s, now)
    ensures DbInv(init, claimed) && o in claimed.orders && claimed.orders[o].Terms() == db.orders[o].Terms()
    ensures claimed.orders[o].status.Provisioning? && Refunds(claimed.ledger, o) == 0
    ensures s in claimed.services && claimed.services[s] == db.services[s]
  {
    hide DbInv, AsksForGrant;
    OneStatus(db.orders, o, Provisioning);
    hide SameTerms;
    OnlyStatusesKeepDbInv(init, db, claimed);
  }

  /** From the call on. */
  lemma RefusalEnds(init: map<Id, int>, db: Db, w: World, p: Id, o: Id, s: Id, q: Oracle)
    requires q.answer.RefusedForCertain? && o in db.orders && s in db.services
    requires Sound(init, db, o) && db.orders[o].status.Paid? && ClaimedWith(db, w.db, o, s, q.now)
    requires p in w.procs && w.procs[p] == CallPanel(o, s, db.orders[o], db.services[s], q.now)
    ensures AnswerOutcome(db, w.db, Step(Step(Step(w, Advance(p, q)), Advance(p, q)), Advance(p, q)), p, o, s, q)
  {
    hide Step, Sound, ClaimedWith, PaidBack, DbInv, StoredOnce, AsAnswered;
    ClaimedFacts(init, db, w.db, o, s, q.now);
    AnswerTurn(w, p, w.procs[p], q);
    RefundEnds(init, Step(w, Advance(p, q)), p, o, s, db.orders[o], q);
  }

  lemma AcceptanceEnds(init: map<Id, int>, db: Db, w: World, p: Id, o: Id, s: Id, q: Oracle)
    requires q.answer.Accepted? && o in db.orders && s in db.services && IsOperation(db.orders[o].kind)
    requires Sound(init, db, o) && db.orders[o].status.Paid? && ClaimedWith(db, w.db, o, s, q.now)
    requires p in w.procs && w.procs[p] == CallPanel(o, s, db.orders[o], db.services[s], q.now)
    ensures AnswerOutcome(db, w.db, Step(Step(Step(w, Advance(p, q)), Advance(p, q)), Advance(p, q)), p, o, s, q)
  {
    hide Step, Sound, ClaimedWith, PaidBack, DbInv, StoredOnce, AsAnswered, PersistOperation, CompleteReconciled, AppliedRow, Expected;
    var w1 := Step(w, Advance(p, q));
    ClaimedFacts(init, db, w.db, o, s, q.now);
    AnswerTurn(w, p, w.procs[p], q);
    PersistTurn(w1, p, q);
    EndTurn(Step(w1, Advance(p, q)), p, q);
    StoresOnce(w.db, o, s, AppliedRow(db.services[s], Expected(db.services[s], db.orders[o], q.now), q.answer.response));
    AppliedAsAnswered(db.services[s], db.orders[o], db.orders[o], q.now, q.answer.response);
  }

  lemma UnclearEnds(db: Db, w: World, p: Id, o: Id, s: Id, q: Oracle)
    requires q.answer.Unclear? && o in db.orders && s in db.services
    requires p in w.procs && w.procs[p] == CallPanel(o, s, db.orders[o], db.services[s], q.now)
    ensures AnswerOutcome(db, w.db, Step(Step(Step(w, Advance(p, q)), Advance(p, q)), Advance(p, q)), p, o, s, q)
  {
    hide Step, PaidBack, StoredOnce, AsAnswered;
    AnswerTurn(w, p, w.procs[p], q);
    EndTurn(Step(w, Advance(p, q)), p, q);
    EndTurn(Step(Step(w, Advance(p, q)), Advance(p, q)), p, q);
  }

  /** From the decision on: the call ends within four turns more. */
  lemma DecidedEnds(init: map<Id, int>, v: World, w: World, p: Id, o: Id, s: Id, q: Oracle)
    requires o in v.db.orders && IsOperation(v.db.orders[o].kind) && Sound(init, v.db, o) && Stands(w, v, p, Decide(o, s))
    ensures OperateOutcome(v.db, After(w, p, q, 5), p, o, s, q)
  {
    hide Step, After, Sound, ClaimedWith, PaidBack, StoredOnce, AsAnswered, AnswerOutcome, Ungrantable, Stands;
    FirstTurns(w, p, q);
    DecideTurn(init, v, w, p, o, s, q);
    StandsAt(After(w, p, q, 1), v, p, Decision(v.db, o, s, q));
    match Decision(v.db, o, s, q)
    case ReleaseLock(_, _, r) => ReleasedStays(w, p, o, s, r, q);
    case RefundNow(_, _, _) => RefundedStays(init, w, p, o, s, v.db.orders[o], q);
    case ClaimOrder(_, _, _, _, _) => ClaimedEnds(init, v, w, p, o, s, q);
    case _ =>
  }

  lemma StandsAt(w: World, v: World, p: Id, x: Proc)
    requires Stands(w, v, p, x)
    ensures p in w.procs && w.procs[p] == x && w.db == v.db
  {
  }

  lemma DoneTurn(w: World, p: Id, o: Id, s: Id, r: Result, q: Oracle)
    requires Ends(w, p, o, s, r, w.db)
    ensures Ends(Step(w, Advance(p, q)), p, o, s, r, w.db)
  {
  }

  lemma ReleasedStays(w: World, p: Id, o: Id, s: Id, r: Result, q: Oracle)
    requires var w1 := After(w, p, q, 1); p in w1.procs && w1.procs[p] == ReleaseLock(o, s, r)
    ensures Ends(After(w, p, q, 5), p, o, s, r, After(w, p, q, 1).db)
  {
    hide Step, After;
    FirstTurns(w, p, q);
    EndTurn(After(w, p, q, 1), p, q);
    DoneTurn(After(w, p, q, 2), p, o, s, r, q);
    DoneTurn(After(w, p, q, 3), p, o, s, r, q);
    DoneTurn(After(w, p, q, 4), p, o, s, r, q);
  }

  lemma RefundedStays(init: map<Id, int>, w: World, p: Id, o: Id, s: Id, seen: Order, q: Oracle)
    requires var w1 := After(w, p, q, 1);
             && p in w1.procs && w1.procs[p] == RefundNow(o, s, seen) && Sound(init, w1.db, o)
             && seen == w1.db.orders[o] && Open(seen.status)
    ensures var w1, w5 := After(w, p, q, 1), After(w, p, q, 5); Ends(w5, p, o, s, Refunded(true), w5.db) && PaidBack(w1.db, w5.db, o)
  {
    hide Step, After, PaidBack, DbInv;
    FirstTurns(w, p, q);
    RefundEnds(init, After(w, p, q, 1), p, o, s, seen, q);
    DoneTurn(After(w, p, q, 3), p, o, s, Refunded(true), q);
    DoneTurn(After(w, p, q, 4), p, o, s, Refunded(true), q);
  }

  lemma ClaimedEnds(init: map<Id, int>, v: World, w: World, p: Id, o: Id, s: Id, q: Oracle)
    requires o in v.db.orders && IsOperation(v.db.orders[o].kind) && Sound(init, v.db, o) && v.db.orders[o].status.Paid?
    requires s in v.db.services && Stands(After(w, p, q, 1), v, p, ClaimOrder(o, s, v.db.orders[o], v.db.services[s], q.now))
    ensures exists claimed :: ClaimedWith(v.db, claimed, o, s, q.now) && AnswerOutcome(v.db, claimed, After(w, p, q, 5), p, o, s, q)
  {
    hide Step, After, Sound, ClaimedWith, AnswerOutcome, Stands;
    FirstTurns(w, p, q);
    var w2 := After(w, p, q, 2);
    ClaimTurn(v, After(w, p, q, 1), p, o, s, q.now, q);
    match q.answer {
      case RefusedForCertain(_) => RefusalEnds(init, v.db, w2, p, o, s, q);
      case Accepted(_, _) => AcceptanceEnds(init, v.db, w2, p, o, s, q);
      case Unclear(_) => UnclearEnds(v.db, w2, p, o, s, q);
    }
    assert ClaimedWith(v.db, w2.db, o, s, q.now) && AnswerOutcome(v.db, w2.db, After(w, p, q, 5), p, o, s, q);
  }

  lemma SoundAfter(init: map<Id, int>, w: World, es: seq<Event>, o: Id)
    requires Start(init, w) && NoneStale(w, es) && o in Run(w, es).db.orders
    ensures var db := Run(w, es).db; IsOperation(db.orders[o].kind) ==> Sound(init, db, o)
  {
    hide Start, NoneStale, Run, DbInv, ProcsInv, LocksSound, OrderOk;
    RunOutcome(init, w, es);
  }

  lemma Begins(w: World, p: Id, o: Id, q: Oracle)
    requires p !in w.procs && o in w.db.orders && IsOperation(w.db.orders[o].kind) && w.db.orders[o].service.Some?
    requires w.db.orders[o].service.value !in w.locks && !q.giveUp
    ensures var s := w.db.orders[o].service.value;
            Stands(Step(Step(w, Begin(p, o)), Advance(p, q)), w.(locks := w.locks[s := p]), p, Decide(o, s))
  {
    var s := w.db.orders[o].service.value;
    WaitTurn(w, Step(w, Begin(p, o)), p, AwaitLock(o, s), q);
  }

  /**
   After every run, a call on an operation that finds its service unlocked: a completed order is reported and left
   alone, as is one in progress or failed; a paid one on an unavailable service, or granting nothing, is refunded in
   full; any other is claimed together with what the service was and what is asked for, and then stored as answered,
   refunded in full, or, when the answer or the lock is lost, left PROVISIONING.
   */
  lemma OperateCall(init: map<Id, int>, w: World, es: seq<Event>, p: Id, o: Id, q: Oracle)
    requires Start(init, w) && NoneStale(w, es)
    requires var v := Run(w, es);
             && p !in v.procs && o in v.db.orders && IsOperation(v.db.orders[o].kind) && v.db.orders[o].service.Some?
             && v.db.orders[o].service.value !in v.locks && !q.giveUp
    ensures var v, s := Run(w, es), Run(w, es).db.orders[o].service.value;
            OperateOutcome(v.db, Run(v, [Begin(p, o)] + Turns(p, q, 6)), p, o, s, q)
  {
    hide Start, NoneStale, Run, Step, Sound, OperateOutcome, Stands, Turns;
    var v := Run(w, es);
    var s := v.db.orders[o].service.value;
    var locked := v.(locks := v.locks[s := p]);
    SoundAfter(init, w, es, o);
    Begins(v, p, o, q);
    BegunTurns(v, p, Begin(p, o), q);
    DecidedEnds(init, locked, Step(Step(v, Begin(p, o)), Advance(p, q)), p, o, s, q);
  }

  lemma BegunTurns(w: World, p: Id, e: Event, q: Oracle)
    ensures Run(w, [e] + Turns(p, q, 6)) == After(Step(Step(w, e), Advance(p, q)), p, q, 5)
  {
    hide Step;
    RunAppends(w, [e], Turns(p, q, 6));
    OneStep(w, [], e);
    assert [] + [e] == [e] && Run(w, []) == w;
    FirstTurns(Step(w, e), p, q);
    FirstTurns(Step(Step(w, e), Advance(p, q)), p, q);
    hide Run;
  }

  // ---- one reconciliation from its beginning to its end --------------------------------------------------------------------

  /** What one reconciliation of a PROVISIONING operation comes to, by what the panel shows. */
  ghost predicate ReconcileOutcome(v: World, w: World, p: Id, o: Id, s: Id, i: IntentData, q: Oracle)
    requires o in v.db.orders && s in v.db.services
  {
    if !q.readable || s !in v.panel then Ends(w, p, o, s, Undecided, v.db)
    else if ShowsAsked(i, v.panel[s])
      then Ends(w, p, o, s, Delivered, w.db) && StoredOnce(v.db, w.db, o, s)
           && AsRead(v.db.services[s], v.panel[s], q.remaining, q.used, w.db.services[s])
    else if ShowsBefore(i, v.panel[s]) then Ends(w, p, o, s, Refunded(true), w.db) && PaidBack(v.db, w.db, o)
    else Ends(w, p, o, s, Undecided, v.db)
  }

  lemma JudgeTurn(v: World, w: World, p: Id, x: Proc, q: Oracle)
    requires x.SweepRead? && Stands(w, v, p, x)
    ensures Stands(Step(w, Advance(p, q)), v, p,
                   if !q.readable || x.s !in v.panel then ReleaseLock(x.o, x.s, Undecided)
                   else if ShowsAsked(x.intent, v.panel[x.s]) then SweepComplete(x.o, x.s, x.seen, PanelReading(v.panel[x.s], q.remaining, q.used))
                   else if ShowsBefore(x.intent, v.panel[x.s]) then RefundNow(x.o, x.s, x.seen)
                   else ReleaseLock(x.o, x.s, Undecided))
  {
  }

  lemma CompleteTurn(w: World, p: Id, q: Oracle)
    requires p in w.procs && w.procs[p].SweepComplete? && w.procs[p].o in w.db.orders && w.procs[p].s in w.db.services
    ensures var x, w' := w.procs[p], Step(w, Advance(p, q));
            && p in w'.procs && w'.procs[p] == ReleaseLock(x.o, x.s, Delivered) && StoredOnce(w.db, w'.db, x.o, x.s)
            && AsRead(w.db.services[x.s], x.reading.remote, x.reading.remaining, x.reading.used, w'.db.services[x.s])
  {
    hide AdvanceProc, StoredOnce, AsRead;
    CompleteSettles(w, p, q);
  }

  lemma JudgedEnds(init: map<Id, int>, v: World, w: World, p: Id, o: Id, s: Id, i: IntentData, q: Oracle)
    requires o in v.db.orders && Sound(init, v.db, o) && v.db.orders[o].status.Provisioning? && s in v.db.services
    requires Stands(w, v, p, SweepRead(o, s, v.db.orders[o], i))
    ensures ReconcileOutcome(v, After(w, p, q, 5), p, o, s, i, q)
  {
    hide Step, After, Sound, PaidBack, StoredOnce, AsRead, ShowsAsked, ShowsBefore, Stands;
    FirstTurns(w, p, q);
    var w1, seen := After(w, p, q, 1), v.db.orders[o];
    JudgeTurn(v, w, p, SweepRead(o, s, seen, i), q);
    if !q.readable || s !in v.panel || !(ShowsAsked(i, v.panel[s]) || ShowsBefore(i, v.panel[s])) {
      StandsAt(w1, v, p, ReleaseLock(o, s, Undecided));
      ReleasedStays(w, p, o, s, Undecided, q);
    } else if ShowsAsked(i, v.panel[s]) {
      StandsAt(w1, v, p, SweepComplete(o, s, seen, PanelReading(v.panel[s], q.remaining, q.used)));
      CompletedStays(w, p, o, s, q);
    } else {
      StandsAt(w1, v, p, RefundNow(o, s, seen));
      RefundedStays(init, w, p, o, s, seen, q);
    }
  }

  lemma CompletedStays(w: World, p: Id, o: Id, s: Id, q: Oracle)
    requires var w1 := After(w, p, q, 1);
             p in w1.procs && w1.procs[p].SweepComplete? && w1.procs[p].o == o && w1.procs[p].s == s && o in w1.db.orders && s in w1.db.services
    ensures var w1, w5 := After(w, p, q, 1), After(w, p, q, 5);
            var r := w1.procs[p].reading;
            Ends(w5, p, o, s, Delivered, w5.db) && StoredOnce(w1.db, w5.db, o, s)
            && AsRead(w1.db.services[s], r.remote, r.remaining, r.used, w5.db.services[s])
  {
    hide Step, After, StoredOnce, AsRead;
    FirstTurns(w, p, q);
    CompleteTurn(After(w, p, q, 1), p, q);
    EndTurn(After(w, p, q, 2), p, q);
    DoneTurn(After(w, p, q, 3), p, o, s, Delivered, q);
    DoneTurn(After(w, p, q, 4), p, o, s, Delivered, q);
  }

  /** A PROVISIONING operation with its intent on record, whose service is there and unlocked. */
  ghost predicate Reconcilable(w: World, o: Id) {
    && o in w.db.orders && IsOperation(w.db.orders[o].kind) && w.db.orders[o].status.Provisioning? && w.db.orders[o].service.Some?
    && w.db.orders[o].service.value in w.db.services && w.db.services[w.db.orders[o].service.value].user == w.db.orders[o].user
    && w.db.orders[o].service.value !in w.locks && LastIntent(w.db.events, o).Some?
  }

  lemma SweepBegins(w: World, p: Id, o: Id, q: Oracle)
    requires p !in w.procs && Reconcilable(w, o) && !q.giveUp
    ensures var s := w.db.orders[o].service.value;
            Stands(Step(Step(w, BeginSweep(p, o)), Advance(p, q)), w.(locks := w.locks[s := p]), p,
                   SweepRead(o, s, w.db.orders[o], LastIntent(w.db.events, o).value))
  {
    var s := w.db.orders[o].service.value;
    hide LastIntent;
    WaitTurn(w, Step(w, BeginSweep(p, o)), p, SweepAwait(o, s, w.db.orders[o], LastIntent(w.db.events, o).value), q);
  }

  /**
   After every run, a reconciliation of an operation that awaits it: a panel that shows a value that was asked for
   completes the order with the row as read, one that shows everything as before refunds it in full, and a failed read
   or anything else leaves everything.
   */
  lemma ReconcileCall(init: map<Id, int>, w: World, es: seq<Event>, p: Id, o: Id, q: Oracle)
    requires Start(init, w) && NoneStale(w, es)
    requires p !in Run(w, es).procs && Reconcilable(Run(w, es), o) && !q.giveUp
    ensures var v, s := Run(w, es), Run(w, es).db.orders[o].service.value;
            ReconcileOutcome(v, Run(v, [BeginSweep(p, o)] + Turns(p, q, 6)), p, o, s, LastIntent(v.db.events, o).value, q)
  {
    var v := Run(w, es);
    var s := v.db.orders[o].service.value;
    var locked := v.(locks := v.locks[s := p]);
    var i := LastIntent(v.db.events, o).value;
    hide Start, NoneStale, Run, Step, Sound, ReconcileOutcome, Stands, Turns, LastIntent;
    SoundAfter(init, w, es, o);
    SweepBegins(v, p, o, q);
    BegunTurns(v, p, BeginSweep(p, o), q);
    JudgedEnds(init, locked, Step(Step(v, BeginSweep(p, o)), Advance(p, q)), p, o, s, i, q);
    SameOutcome(v, locked, Run(v, [BeginSweep(p, o)] + Turns(p, q, 6)), p, o, s, i, q);
  }

  lemma SameOutcome(v: World, v': World, w: World, p: Id, o: Id, s: Id, i: IntentData, q: Oracle)
    requires v'.db == v.db && v'.panel == v.panel && o in v.db.orders && s in v.db.services && ReconcileOutcome(v', w, p, o, s, i, q)
    ensures ReconcileOutcome(v, w, p, o, s, i, q)
  {
    hide PaidBack, StoredOnce, AsRead;
  }
}
