/**
 What single calls on a purchase come to, whatever everybody else does between their steps: which answer of
 the panel leads to a delivery, which to a refund of the whole price, and which to neither.
 */
module PurchaseCalls {
  import opened Wrappers
  import opened CommerceDb
  import opened Ledger
  import opened Settlement
  import opened Execution
  import opened Provisioning

  // ---- the others go on ------------------------------------------------------------------------------------

  /** Anything but a step or a crash of `p`. */
  ghost predicate Without(es: seq<Event>, p: Id) {
    forall i :: 0 <= i < |es| ==> (es[i].Advance? || es[i].Crash? ==> es[i].p != p)
  }

  lemma StepAwaits(place: Places, w: World, e: Event, p: Id)
    requires p in w.procs && (e.Advance? || e.Crash? ==> e.p != p)
    ensures p in Step(place, w, e).procs && Step(place, w, e).procs[p] == w.procs[p]
  {
    hide AdvanceProc, CrashProc, SettleTx, LockMove;
    match e
    case Advance(q, oracle) =>
      if q in w.procs && AtTarget(place, w.procs[q]) {
        AdvanceMovesLock(place, w, q, oracle);
        OnlyMover(place, w, AdvanceProc(place, w, q, oracle), q);
      }
    case Crash(q, fate) => if q in w.procs && AtTarget(place, w.procs[q]) { CrashShape(place, w, q, fate); }
    case _ =>
  }

  lemma {:induction false} RunAwaits(place: Places, w: World, es: seq<Event>, p: Id)
    requires p in w.procs && Without(es, p)
    ensures p in Run(place, w, es).procs && Run(place, w, es).procs[p] == w.procs[p]
    decreases |es|
  {
    hide Step;
    if es != [] {
      RunAwaits(place, w, Front(es), p);
      StepAwaits(place, Run(place, w, Front(es)), Last(es), p);
    }
  }

  lemma {:induction false} RunAppend(place: Places, w: World, a: seq<Event>, b: seq<Event>)
    ensures Run(place, w, a + b) == Run(place, Run(place, w, a), b)
    ensures NoneStale(place, w, a + b) <==> NoneStale(place, w, a) && NoneStale(place, Run(place, w, a), b)
    decreases |b|
  {
    hide Step, StaleAdoption;
    if b == [] {
      assert a + b == a;
    } else {
      RunAppend(place, w, a, Front(b));
      assert Front(a + b) == a + Front(b) && Last(a + b) == Last(b);
    }
  }

  /** `p` takes a step, the others go on for a while, and `p` takes another. */
  function Pause(p: Id, q: Oracle, others: seq<Event>): seq<Event> {
    [Advance(p, q)] + others
  }

  lemma OneStep(place: Places, w: World, e: Event)
    ensures Run(place, w, [e]) == Step(place, w, e)
    ensures NoneStale(place, w, [e]) <==> !StaleAdoption(place, w, e)
  {
    hide Step, StaleAdoption;
    FrontOfAppend([], e);
    assert [] + [e] == [e];
    assert Run(place, w, []) == w;
  }

  /** The two worlds in which `p` steps are in order, and it finds itself where it left itself. */
  lemma TwoSteps(init: map<Id, int>, place: Places, w: World, es: seq<Event>, p: Id, q: Oracle, others: seq<Event>, q2: Oracle)
    requires Start(init, w) && Without(others, p) && p in Run(place, w, es).procs
    requires NoneStale(place, w, es + Pause(p, q, others) + [Advance(p, q2)])
    ensures var first, before := Run(place, w, es), Run(place, w, es + Pause(p, q, others));
            && Inv(init, place, first) && Inv(init, place, before) && p in before.procs && p in Step(place, first, Advance(p, q)).procs
            && before.procs[p] == Step(place, first, Advance(p, q)).procs[p]
            && Run(place, w, es + Pause(p, q, others) + [Advance(p, q2)]) == Step(place, before, Advance(p, q2))
            && !StaleAdoption(place, before, Advance(p, q2))
  {
    var first, last := Run(place, w, es), Advance(p, q2);
    RunAppend(place, w, es + Pause(p, q, others), [last]);
    RunAppend(place, w, es, Pause(p, q, others));
    RunAppend(place, first, [Advance(p, q)], others);
    OneStep(place, first, Advance(p, q));
    OneStep(place, Run(place, w, es + Pause(p, q, others)), last);
    RunVerdict(init, place, w, es);
    RunVerdict(init, place, w, es + Pause(p, q, others));
    hide Step, Start, Inv, StaleAdoption, NoneStale, Run, Without, AdvanceProc;
    StaysAround(init, place, first, p, q);
    RunAwaits(place, Step(place, first, Advance(p, q)), others, p);
  }

  lemma StaysAround(init: map<Id, int>, place: Places, w: World, p: Id, q: Oracle)
    requires p in w.procs
    requires Inv(init, place, w)
    ensures AtTarget(place, w.procs[p]) && Step(place, w, Advance(p, q)) == AdvanceProc(place, w, p, q)
    ensures p in AdvanceProc(place, w, p, q).procs
  {
    hide Inv, AdvanceProc, ProcOk, OrderOk, LockMove;
    SoundAt(init, place, w, p);
    AdvanceMovesLock(place, w, p, q);
  }

  // ---- refunds ---------------------------------------------------------------------------------------------------

  /** A refund pays back an order that is open, and tells of any other whether it was refunded. */
  lemma RefundSettles(init: map<Id, int>, place: Places, w: World, p: Id, q: Oracle)
    requires p in w.procs && Refunding(w.procs[p])
    requires Inv(init, place, w)
    ensures var x, w' := w.procs[p], Step(place, w, Advance(p, q));
            && x.o in w.db.orders && p in w'.procs
            && var status := w.db.orders[x.o].status;
            && (if Open(status) then PaidBack(w.db, w'.db, x.o) else w'.db == w.db)
            && w'.procs[p] == (if x.RefundTarget? then Done(x.o, Refunded(!status.Completed?)) else ReleaseLock(x.o, Refunded(!status.Completed?)))
  {
    hide Inv, Base, DbInv, ServicesOwned, LocksSound, OrdersInv, ProcsInv, RefundAdvance, RefundDefinite, PaidBack;
    StaysAround(init, place, w, p, q);
    SoundAt(init, place, w, p);
    Parts(init, place, w);
    BaseParts(init, place, w);
    var x := w.procs[p];
    KnownOrder(place, w.db.orders, x);
    hide Knows, ProcOk;
    RefundShape(w, p);
    if Open(w.db.orders[x.o].status) {
      OpenRefundPaysBack(init, w.db, x.o, x.seen);
    } else {
      ClosedRefundStays(w.db, x.o, x.seen);
    }
  }

  /** Where a panel's answer leads; the tables wait. */
  lemma AfterAnswer(place: Places, w: World, p: Id, q: Oracle)
    requires p in w.procs && w.procs[p].CallPanel? && AtTarget(place, w.procs[p])
    ensures var x, w' := w.procs[p], AdvanceProc(place, w, p, q);
            && w'.db == w.db && p in w'.procs
            && (q.create.RefusedForCertain? ==> w'.procs[p] == RefundRefused(x.o, x.seen))
            && (q.create.Created? ==> w'.procs[p] == PersistService(x.o, x.seen))
            && (q.create.CreateUnclear? ==> w'.procs[p] == ReleaseLock(x.o, Undecided))
  {
  }

  /** A definite refusal: the order is closed as failed and the buyer has the whole price back, exactly once. */
  lemma RefusalIsRefunded(init: map<Id, int>, place: Places, w: World, es: seq<Event>, p: Id, q: Oracle, others: seq<Event>, q2: Oracle)
    requires Start(init, w) && Without(others, p) && p in Run(place, w, es).procs
    requires NoneStale(place, w, es + Pause(p, q, others) + [Advance(p, q2)])
    requires Run(place, w, es).procs[p].CallPanel? && q.create.RefusedForCertain?
    ensures var o, before, after := Run(place, w, es).procs[p].o, Run(place, w, es + Pause(p, q, others)),
                                    Run(place, w, es + Pause(p, q, others) + [Advance(p, q2)]);
            PaidBack(before.db, after.db, o) && p in after.procs && after.procs[p] == ReleaseLock(o, Refunded(true))
  {
    TwoSteps(init, place, w, es, p, q, others, q2);
    var first, before := Run(place, w, es), Run(place, w, es + Pause(p, q, others));
    hide Start, NoneStale, Without, Run, Inv, StaleAdoption, PaidBack, Step, AdvanceProc, Pause, ServicesOf;
    StaysAround(init, place, first, p, q);
    AfterAnswer(place, first, p, q);
    RefundSettles(init, place, before, p, q2);
    OpenWhileHeld(init, place, before, p);
  }

  lemma OpenWhileHeld(init: map<Id, int>, place: Places, w: World, p: Id)
    requires p in w.procs && (w.procs[p].RefundRefused? || w.procs[p].PersistService? || w.procs[p].CallPanel?)
    requires Inv(init, place, w)
    ensures w.procs[p].o in w.db.orders && w.db.orders[w.procs[p].o].status.Provisioning? && ServicesOf(w.db.services, w.procs[p].o) == {}
  {
    hide Inv;
    SoundAt(init, place, w, p);
  }

  /** Whatever a reconciler refunds for: the panel has no account for sure, so an order still open is paid back. */
  lemma AbsenceIsRefunded(init: map<Id, int>, place: Places, w: World, es: seq<Event>, p: Id, q: Oracle, others: seq<Event>, q2: Oracle)
    requires Start(init, w) && Without(others, p) && p in Run(place, w, es).procs
    requires NoneStale(place, w, es + Pause(p, q, others) + [Advance(p, q2)])
    requires Run(place, w, es).procs[p].ReadPanel? && q.read.AbsentForCertain?
    ensures var o, before, after := Run(place, w, es).procs[p].o, Run(place, w, es + Pause(p, q, others)),
                                    Run(place, w, es + Pause(p, q, others) + [Advance(p, q2)]);
            && o in before.db.orders && p in after.procs
            && var status := before.db.orders[o].status;
            && (if Open(status) then PaidBack(before.db, after.db, o) else after.db == before.db)
            && after.procs[p] == ReleaseLock(o, Refunded(!status.Completed?))
  {
    TwoSteps(init, place, w, es, p, q, others, q2);
    var first, before := Run(place, w, es), Run(place, w, es + Pause(p, q, others));
    hide Start, NoneStale, Without, Run, Inv, StaleAdoption, PaidBack, Step, AdvanceProc, Pause, ServicesOf;
    StaysAround(init, place, first, p, q);
    AfterReading(place, first, p, q);
    RefundSettles(init, place, before, p, q2);
  }

  lemma AfterReading(place: Places, w: World, p: Id, q: Oracle)
    requires p in w.procs && w.procs[p].ReadPanel? && AtTarget(place, w.procs[p])
    ensures var x, w' := w.procs[p], AdvanceProc(place, w, p, q);
            && w'.db == w.db && p in w'.procs
            && (q.read.AbsentForCertain? ==> w'.procs[p] == RefundAbsent(x.o, x.seen))
            && (q.read.Present? ==> w'.procs[p] == AdoptAccount(x.o, x.seen, q.read.reading))
            && (q.read.ReadUnclear? ==> w'.procs[p] == ReleaseLock(x.o, Undecided))
  {
    hide ServicesOf;
  }

  // ---- deliveries ------------------------------------------------------------------------------------------------

  lemma PersistSettles(init: map<Id, int>, place: Places, w: World, p: Id, q: Oracle)
    requires p in w.procs && w.procs[p].PersistService? && (q.lost || q.service !in w.db.services)
    requires Inv(init, place, w)
    ensures var o, w' := w.procs[p].o, Step(place, w, Advance(p, q));
            && o in w.db.orders && w.db.orders[o].status.Provisioning? && place(o).At? && p in w'.procs
            && (q.lost ==> w'.db == w.db && w'.procs[p] == ReleaseLock(o, Undecided))
            && (!q.lost ==> w'.procs[p] == ReleaseLock(o, Delivered) && DeliveredAs(w.db, w'.db, o, q.service)
                            && AsBought(w'.db.services[q.service], o, w.db.orders[o], place(o).target.username, q.now))
  {
    hide Inv, ServicesOf, Persist, Adopt, ProvisionedService, AdoptedService, AsBought, AsReported, DeliveredAs, OrderOk, ProcOk;
    StaysAround(init, place, w, p, q);
    OpenWhileHeld(init, place, w, p);
    SoundAt(init, place, w, p);
    var x, t := w.procs[p], place(w.procs[p].o).target;
    KnownOrder(place, w.db.orders, x);
    ServicesOfOrder(x.o, x.seen, w.db.orders[x.o], t.username, q.now, Reading(None, None, None, None));
    if !q.lost {
      OpenIsDelivered(w.db, x.o, q.service, ProvisionedService(x.o, x.seen, t.username, q.now));
    }
  }

  /**
   A created account: unless the lock was lost meanwhile, the order is completed with the buyer's service, which
   holds the gigabytes and days of the order; with the lock lost nothing is written and the order stays open.
   */
  lemma CreationIsDelivered(init: map<Id, int>, place: Places, w: World, es: seq<Event>, p: Id, q: Oracle, others: seq<Event>, q2: Oracle)
    requires Start(init, w) && Without(others, p) && p in Run(place, w, es).procs
    requires NoneStale(place, w, es + Pause(p, q, others) + [Advance(p, q2)])
    requires Run(place, w, es).procs[p].CallPanel? && q.create.Created?
    requires q2.lost || q2.service !in Run(place, w, es + Pause(p, q, others)).db.services
    ensures var o, before, after := Run(place, w, es).procs[p].o, Run(place, w, es + Pause(p, q, others)),
                                    Run(place, w, es + Pause(p, q, others) + [Advance(p, q2)]);
            && o in before.db.orders && before.db.orders[o].status.Provisioning? && place(o).At? && p in after.procs
            && (q2.lost ==> after.db == before.db && after.procs[p] == ReleaseLock(o, Undecided))
            && (!q2.lost ==> after.procs[p] == ReleaseLock(o, Delivered) && DeliveredAs(before.db, after.db, o, q2.service)
                             && AsBought(after.db.services[q2.service], o, before.db.orders[o], place(o).target.username, q2.now))
  {
    TwoSteps(init, place, w, es, p, q, others, q2);
    var first, before := Run(place, w, es), Run(place, w, es + Pause(p, q, others));
    hide Start, NoneStale, Without, Run, Inv, StaleAdoption, Step, AdvanceProc, Pause, ServicesOf, AsBought, DeliveredAs;
    StaysAround(init, place, first, p, q);
    AfterAnswer(place, first, p, q);
    PersistSettles(init, place, before, p, q2);
  }

  lemma AdoptSettles(init: map<Id, int>, place: Places, w: World, p: Id, q: Oracle)
    requires p in w.procs && w.procs[p].AdoptAccount? && q.service !in w.db.services && !StaleAdoption(place, w, Advance(p, q))
    requires Inv(init, place, w)
    ensures var x, w' := w.procs[p], Step(place, w, Advance(p, q));
            && x.o in w.db.orders && place(x.o).At? && p in w'.procs && w'.procs[p] == ReleaseLock(x.o, Delivered)
            && (if Open(w.db.orders[x.o].status)
                then DeliveredAs(w.db, w'.db, x.o, q.service)
                     && AsReported(w'.db.services[q.service], x.o, w.db.orders[x.o], place(x.o).target.username, x.reading)
                else w'.db == w.db && w.db.orders[x.o].status.Completed?)
  {
    hide Inv, ServicesOf, Refunds, Adopt, ProvisionedService, AdoptedService, AsBought, AsReported, DeliveredAs;
    StaysAround(init, place, w, p, q);
    SoundAt(init, place, w, p);
    var x, t := w.procs[p], place(w.procs[p].o).target;
    KnownOrder(place, w.db.orders, x);
    ServicesOfOrder(x.o, x.seen, w.db.orders[x.o], t.username, 0, x.reading);
    if ServicesOf(w.db.services, x.o) == {} {
      OpenIsDelivered(w.db, x.o, q.service, AdoptedService(x.o, x.seen, t.username, x.reading));
    } else {
      SecondAdoption(w.db, x.o, q.service, AdoptedService(x.o, x.seen, t.username, x.reading));
    }
  }

  lemma SecondAdoption(db: Db, o: Id, s: Id, service: Service)
    requires ServicesOf(db.services, o) != {}
    ensures Adopt(db, o, s, service) == db
  {
  }

  /** A reconciler that finds the account completes an open order with what the panel reported, and leaves a completed one alone. */
  lemma PresenceIsAdopted(init: map<Id, int>, place: Places, w: World, es: seq<Event>, p: Id, q: Oracle, others: seq<Event>, q2: Oracle)
    requires Start(init, w) && Without(others, p) && p in Run(place, w, es).procs
    requires NoneStale(place, w, es + Pause(p, q, others) + [Advance(p, q2)])
    requires Run(place, w, es).procs[p].ReadPanel? && q.read.Present?
    requires q2.service !in Run(place, w, es + Pause(p, q, others)).db.services
    ensures var o, before, after := Run(place, w, es).procs[p].o, Run(place, w, es + Pause(p, q, others)),
                                    Run(place, w, es + Pause(p, q, others) + [Advance(p, q2)]);
            && o in before.db.orders && place(o).At? && p in after.procs && after.procs[p] == ReleaseLock(o, Delivered)
            && (if Open(before.db.orders[o].status)
                then DeliveredAs(before.db, after.db, o, q2.service)
                     && AsReported(after.db.services[q2.service], o, before.db.orders[o], place(o).target.username, q.read.reading)
                else after.db == before.db && before.db.orders[o].status.Completed?)
  {
    TwoSteps(init, place, w, es, p, q, others, q2);
    var first, before := Run(place, w, es), Run(place, w, es + Pause(p, q, others));
    hide Start, NoneStale, Without, Run, Inv, StaleAdoption, Step, AdvanceProc, Pause, ServicesOf, AsReported, DeliveredAs;
    StaysAround(init, place, first, p, q);
    AfterReading(place, first, p, q);
    AdoptSettles(init, place, before, p, q2);
  }

  // ---- from the payment to the service -----------------------------------------------------------------------------

  lemma {:induction false} RunKeepsTerms(init: map<Id, int>, place: Places, w: World, es: seq<Event>, o: Id)
    requires Base(init, place, w) && o in w.db.orders
    ensures var v := Run(place, w, es); Base(init, place, v) && o in v.db.orders && v.db.orders[o].Terms() == w.db.orders[o].Terms()
    decreases |es|
  {
    hide Base, Step, DbInv, ServicesOwned;
    if es != [] {
      RunKeepsTerms(init, place, w, Front(es), o);
      StepTables(init, place, Run(place, w, Front(es)), Last(es));
      StepKeepsBase(init, place, Run(place, w, Front(es)), Last(es));
    }
  }

  /**
   What was paid for is what is delivered: a request that settled, whatever ran before and between, whose order's
   panel then answers that the account was created, stores for this buyer a service with the gigabytes and days asked for.
   */
  lemma BoughtIsDelivered(init: map<Id, int>, place: Places, w: World, es: seq<Event>, e: Event, more: seq<Event>,
                          p: Id, q: Oracle, others: seq<Event>, q2: Oracle)
    requires Start(init, w) && Without(others, p)
    requires var v := Run(place, w, es).db;
             e.Settle? && FreshIds(v, e.ids) && Priced(e.r) && SettleTx(v, e.r, e.fp, e.ids, e.now, e.expiresAt, e.held).1.Committed?
    requires var run := es + [e] + more;
             && NoneStale(place, w, run + Pause(p, q, others) + [Advance(p, q2)])
             && p in Run(place, w, run).procs && Run(place, w, run).procs[p].CallPanel? && Run(place, w, run).procs[p].o == e.ids.order
             && !q2.lost && q2.service !in Run(place, w, run + Pause(p, q, others)).db.services
    requires q.create.Created?
    ensures var after := Run(place, w, es + [e] + more + Pause(p, q, others) + [Advance(p, q2)]);
            && q2.service in after.db.services && e.ids.order in after.db.orders && after.db.orders[e.ids.order].status.Completed?
            && var s := after.db.services[q2.service];
            && s.order == Some(e.ids.order) && s.user == e.r.user
            && (e.r.volumeGb.Some? && e.r.volumeGb.value > 0 ==> s.volumeBytes == s.remaining == e.r.volumeGb.value * 1073741824)
            && (e.r.durationDays.Some? && e.r.durationDays.value > 0 ==>
                  s.expiresAt == Some(q2.now + e.r.durationDays.value * 24 * 60 * 60 * 1000))
  {
    hide Start, NoneStale, Run, Step, SettleTx, Without, FreshIds, Base, AsBought;
    var v, run := Run(place, w, es), es + [e] + more;
    var before := Run(place, w, run + Pause(p, q, others));
    RunKeepsBase(init, place, w, es + [e]);
    SettledHere(place, w, es, e);
    OrderAsAsked(v.db, e.r, e.fp, e.ids, e.now, e.expiresAt, e.held);
    RunAppend(place, w, es + [e], more + Pause(p, q, others));
    assert es + [e] + (more + Pause(p, q, others)) == run + Pause(p, q, others);
    RunKeepsTerms(init, place, Run(place, w, es + [e]), more + Pause(p, q, others), e.ids.order);
    TermsFields(before.db.orders[e.ids.order], Run(place, w, es + [e]).db.orders[e.ids.order]);
    CreationIsDelivered(init, place, w, run, p, q, others, q2);
    AsAsked(e.r, Run(place, w, run + Pause(p, q, others) + [Advance(p, q2)]).db.services[q2.service], e.ids.order,
            before.db.orders[e.ids.order], place(e.ids.order).target.username, q2.now);
  }

  lemma SettledHere(place: Places, w: World, es: seq<Event>, e: Event)
    requires e.Settle? && FreshIds(Run(place, w, es).db, e.ids) && Priced(e.r)
    ensures Run(place, w, es + [e]).db == SettleTx(Run(place, w, es).db, e.r, e.fp, e.ids, e.now, e.expiresAt, e.held).0
  {
    FrontOfAppend(es, e);
    hide SettleTx;
  }

  lemma AsAsked(r: Request, s: Service, o: Id, order: Order, username: Id, now: int)
    requires AsBought(s, o, order, username, now)
    requires order.user == r.user && order.volumeGb == r.volumeGb && order.durationDays == r.durationDays
    ensures s.order == Some(o) && s.user == r.user
    ensures r.volumeGb.Some? && r.volumeGb.value > 0 ==> s.volumeBytes == s.remaining == r.volumeGb.value * 1073741824
    ensures r.durationDays.Some? && r.durationDays.value > 0 ==> s.expiresAt == Some(now + r.durationDays.value * 24 * 60 * 60 * 1000)
  {
  }

  // ---- an order whose panel no longer fits -------------------------------------------------------------------------

  lemma AdvanceLeavesUntargeted(place: Places, w: World, p: Id, q: Oracle, o: Id)
    requires p in w.procs && AtTarget(place, w.procs[p]) && !place(o).At?
    ensures ServicesOf(AdvanceProc(place, w, p, q).db.services, o) == ServicesOf(w.db.services, o)
  {
    var x := w.procs[p];
    hide RefundDefinite, Looked, ProvisionedService, AdoptedService, ServicesOf, Sent, Persist, Adopt;
    if Refunding(x) {
      RefundServices(w.db, x.o, x.seen);
    } else if x.PersistService? {
      StoringLeavesOther(w.db, x.o, q.service, ProvisionedService(x.o, x.seen, place(x.o).target.username, q.now), o);
      ServiceNamesOrder(x.o, x.seen, place(x.o).target.username, q.now, Reading(None, None, None, None));
    } else if x.AdoptAccount? {
      StoringLeavesOther(w.db, x.o, q.service, AdoptedService(x.o, x.seen, place(x.o).target.username, x.reading), o);
      ServiceNamesOrder(x.o, x.seen, place(x.o).target.username, 0, x.reading);
    }
  }

  lemma StoringLeavesOther(db: Db, o: Id, s: Id, service: Service, other: Id)
    requires service.order == Some(o) && other != o
    ensures s !in db.services ==>
              && ServicesOf(Persist(db, o, s, service).services, other) == ServicesOf(db.services, other)
              && ServicesOf(Adopt(db, o, s, service).services, other) == ServicesOf(db.services, other)
  {
    if s !in db.services {
      ServicesGrow(db.services, s, service, other);
    }
    hide ServicesOf;
  }

  lemma RefundServices(db: Db, o: Id, seen: Order)
    ensures RefundDefinite(db, o, seen).0.services == db.services
  {
  }

  lemma {:induction false} UntargetedHasNoService(init: map<Id, int>, place: Places, w: World, es: seq<Event>, o: Id)
    requires Start(init, w) && !place(o).At?
    ensures ServicesOf(Run(place, w, es).db.services, o) == {}
    decreases |es|
  {
    hide AdvanceProc, CrashProc, SettleTx, Start, DbInv, Base;
    if es == [] {
      NothingStored(init, w, o);
    } else {
      UntargetedHasNoService(init, place, w, Front(es), o);
      RunKeepsBase(init, place, w, Front(es));
      hide Run, ServicesOf;
      StepLeavesUntargeted(init, place, Run(place, w, Front(es)), Last(es), o);
    }
  }

  lemma NothingStored(init: map<Id, int>, w: World, o: Id)
    requires Start(init, w)
    ensures ServicesOf(w.db.services, o) == {}
  {
  }

  lemma StepLeavesUntargeted(init: map<Id, int>, place: Places, w: World, e: Event, o: Id)
    requires Base(init, place, w) && !place(o).At?
    ensures ServicesOf(Step(place, w, e).db.services, o) == ServicesOf(w.db.services, o)
  {
    hide AdvanceProc, CrashProc, SettleTx, DbInv, Base, ServicesOf;
    match e
    case Advance(p, q) => if p in w.procs && AtTarget(place, w.procs[p]) { AdvanceLeavesUntargeted(place, w, p, q, o); }
    case Crash(p, fate) => if p in w.procs && AtTarget(place, w.procs[p]) { CrashShape(place, w, p, fate); }
    case Settle(r, fp, ids, now, expiresAt, held) =>
      if FreshIds(w.db, ids) && Priced(r) {
        BaseParts(init, place, w);
        MoneyOf(init, w.db);
        SettleAddsOrder(init, w.db, r, fp, ids, now, expiresAt, held);
        hide FreshIds, Priced;
      }
    case _ =>
  }

  /**
   A paid order whose panel no longer fits what was sold is never delivered: the call refunds it in full, or
   finds that another call just did.
   */
  lemma UnusableIsRefunded(init: map<Id, int>, place: Places, w: World, es: seq<Event>, p: Id, q: Oracle, others: seq<Event>, q2: Oracle)
    requires Start(init, w) && Without(others, p) && p in Run(place, w, es).procs
    requires NoneStale(place, w, es + Pause(p, q, others) + [Advance(p, q2)])
    requires var x := Run(place, w, es).procs[p]; x.CheckTarget? && x.seen.status.Paid? && place(x.o).Unusable?
    ensures var o, before, after := Run(place, w, es).procs[p].o, Run(place, w, es + Pause(p, q, others)),
                                    Run(place, w, es + Pause(p, q, others) + [Advance(p, q2)]);
            && o in before.db.orders && p in after.procs && after.procs[p] == Done(o, Refunded(true))
            && (if Open(before.db.orders[o].status) then PaidBack(before.db, after.db, o)
                else after.db == before.db && before.db.orders[o].status.Failed? && Refunds(before.db.ledger, o) == 1)
  {
    TwoSteps(init, place, w, es, p, q, others, q2);
    var first, before := Run(place, w, es), Run(place, w, es + Pause(p, q, others));
    UntargetedHasNoService(init, place, w, es + Pause(p, q, others), first.procs[p].o);
    hide Start, NoneStale, Without, Run, Inv, StaleAdoption, PaidBack, Step, AdvanceProc, Pause, ServicesOf;
    StaysAround(init, place, first, p, q);
    AfterCheck(place, first, p, q);
    hide AtTarget;
    UnusableSettles(init, place, before, p, q2);
  }

  lemma UnusableSettles(init: map<Id, int>, place: Places, w: World, p: Id, q: Oracle)
    requires p in w.procs && w.procs[p].RefundTarget? && ServicesOf(w.db.services, w.procs[p].o) == {}
    requires Inv(init, place, w)
    ensures var o, w' := w.procs[p].o, Step(place, w, Advance(p, q));
            && o in w.db.orders && p in w'.procs && w'.procs[p] == Done(o, Refunded(true))
            && (if Open(w.db.orders[o].status) then PaidBack(w.db, w'.db, o)
                else w'.db == w.db && w.db.orders[o].status.Failed? && Refunds(w.db.ledger, o) == 1)
  {
    hide Inv, PaidBack, Step, ServicesOf;
    RefundSettles(init, place, w, p, q);
    ClosedIsFailed(init, place, w, p);
  }

  lemma ClosedIsFailed(init: map<Id, int>, place: Places, w: World, p: Id)
    requires p in w.procs && w.procs[p].o in w.db.orders && ServicesOf(w.db.services, w.procs[p].o) == {}
    requires Inv(init, place, w)
    ensures var o := w.procs[p].o; !Open(w.db.orders[o].status) ==> w.db.orders[o].status.Failed? && Refunds(w.db.ledger, o) == 1
  {
    hide Inv, ServicesOf, Refunds, ProcSound;
    SoundAt(init, place, w, p);
  }

  lemma AfterCheck(place: Places, w: World, p: Id, q: Oracle)
    requires p in w.procs && w.procs[p].CheckTarget? && AtTarget(place, w.procs[p])
    ensures var x, w' := w.procs[p], AdvanceProc(place, w, p, q);
            && w'.db == w.db && p in w'.procs
            && (!x.seen.status.Paid? || place(x.o).NoPanel? ==> w'.procs[p] == Done(x.o, Busy))
            && (x.seen.status.Paid? && place(x.o).Unusable? ==> w'.procs[p] == RefundTarget(x.o, x.seen))
            && (x.seen.status.Paid? && place(x.o).At? ==> w'.procs[p] == AwaitLock(x.o, x.seen, false))
  {
    hide ServicesOf;
  }

  // ---- answers that decide nothing -------------------------------------------------------------------------------

  lemma ReleaseSettles(place: Places, w: World, p: Id, q: Oracle)
    requires p in w.procs && w.procs[p].ReleaseLock? && AtTarget(place, w.procs[p])
    ensures var x, w' := w.procs[p], AdvanceProc(place, w, p, q);
            && w'.db == w.db && p in w'.procs && w'.procs[p] == Done(x.o, x.result) && place(x.o).target !in w'.locks
  {
  }

  /** An unclear answer, to the request or to a read, changes no table, and the call reports UNDECIDED. */
  lemma UnclearIsLeft(init: map<Id, int>, place: Places, w: World, es: seq<Event>, p: Id, q: Oracle, others: seq<Event>, q2: Oracle)
    requires Start(init, w) && Without(others, p) && p in Run(place, w, es).procs
    requires NoneStale(place, w, es + Pause(p, q, others) + [Advance(p, q2)])
    requires var x := Run(place, w, es).procs[p]; (x.CallPanel? && q.create.CreateUnclear?) || (x.ReadPanel? && q.read.ReadUnclear?)
    ensures var o, before, after := Run(place, w, es).procs[p].o, Run(place, w, es + Pause(p, q, others)),
                                    Run(place, w, es + Pause(p, q, others) + [Advance(p, q2)]);
            && Step(place, Run(place, w, es), Advance(p, q)).db == Run(place, w, es).db && after.db == before.db
            && p in after.procs && after.procs[p] == Done(o, Undecided)
  {
    TwoSteps(init, place, w, es, p, q, others, q2);
    var first, before := Run(place, w, es), Run(place, w, es + Pause(p, q, others));
    hide Start, NoneStale, Without, Run, Inv, StaleAdoption, Step, AdvanceProc, Pause;
    StaysAround(init, place, first, p, q);
    StaysAround(init, place, before, p, q2);
    if first.procs[p].CallPanel? { AfterAnswer(place, first, p, q); } else { AfterReading(place, first, p, q); }
    hide AtTarget;
    ReleaseSettles(place, before, p, q2);
  }

  // ---- calls that find the work done or under way --------------------------------------------------------------------

  /** Under the lock the tables are looked at again: a delivered order is reported, one that is not PAID left, and nobody is called. */
  lemma LockedLook(init: map<Id, int>, place: Places, w: World, es: seq<Event>, p: Id, q: Oracle)
    requires Start(init, w) && NoneStale(place, w, es)
    requires p in Run(place, w, es).procs && (Run(place, w, es).procs[p].Recheck? || Run(place, w, es).procs[p].ClaimOrder?)
    ensures var x, v, v' := Run(place, w, es).procs[p], Run(place, w, es), Step(place, Run(place, w, es), Advance(p, q));
            && x.o in v.db.orders && p in v'.procs && v'.called == v.called
            && var status := v.db.orders[x.o].status;
            && (x.Recheck? ==> v'.db == v.db && v'.procs[p] == if status.Completed? then ReleaseLock(x.o, Delivered) else ClaimOrder(x.o, x.seen))
            && (x.ClaimOrder? && status.Paid? ==> v'.db == WithStatus(v.db, x.o, Provisioning) && v'.procs[p] == CallPanel(x.o, x.seen))
            && (x.ClaimOrder? && !status.Paid? ==> v'.db == v.db && v'.procs[p] == ReleaseLock(x.o, Busy))
  {
    hide Start, NoneStale, Run, Inv, ServicesOf, Refunds;
    RunVerdict(init, place, w, es);
    SoundAt(init, place, Run(place, w, es), p);
  }

  /** A call that waits for its target takes the lock when it is free, and may give up with nothing done. */
  lemma WaitsForLock(place: Places, w: World, p: Id, q: Oracle)
    requires p in w.procs && w.procs[p].AwaitLock? && place(w.procs[p].o).At?
    ensures var x, t, w' := w.procs[p], place(w.procs[p].o).target, Step(place, w, Advance(p, q));
            && w'.db == w.db && p in w'.procs
            && (q.giveUp ==> w'.procs[p] == Done(x.o, Busy) && w'.locks == w.locks)
            && (!q.giveUp && t in w.locks ==> w' == w)
            && (!q.giveUp && t !in w.locks ==> t in w'.locks && w'.locks[t] == p && Holds(w'.procs[p]))
  {
  }

  // ---- one call from its beginning to its end ----------------------------------------------------------------------

  /** `p` takes n steps in a row. */
  function Turns(p: Id, q: Oracle, n: nat): seq<Event> {
    if n == 0 then [] else Turns(p, q, n - 1) + [Advance(p, q)]
  }

  lemma NextTurn(place: Places, w: World, p: Id, q: Oracle, n: nat)
    requires n > 0
    ensures Run(place, w, Turns(p, q, n)) == Step(place, Run(place, w, Turns(p, q, n - 1)), Advance(p, q))
  {
    FrontOfAppend(Turns(p, q, n - 1), Advance(p, q));
    hide Step;
  }

  /** A looking step of `p`, wherever it stood before. */
  lemma LookTurn(place: Places, w: World, p: Id, x: Proc, q: Oracle)
    requires AtTarget(place, x) && (x.ReadOrder? || x.LookService? || x.CheckTarget? || x.Recheck? || x.ReadPanel? || x.Done?)
    ensures Step(place, Goto(w, p, x), Advance(p, q)) == Goto(w, p, Looked(place, w, x, q))
  {
    hide Looked;
    assert Looked(place, Goto(w, p, x), x, q) == Looked(place, w, x, q) by { LookedAlike(place, w, Goto(w, p, x), x, q); }
    assert w.procs[p := x][p := Looked(place, w, x, q)] == w.procs[p := Looked(place, w, x, q)];
  }

  lemma LookedAlike(place: Places, w: World, v: World, x: Proc, q: Oracle)
    requires v.db == w.db
    ensures Looked(place, v, x, q) == Looked(place, w, x, q)
  {
  }

  /** A finished call stays finished. */
  lemma {:induction false} DoneStays(place: Places, w: World, p: Id, q: Oracle, n: nat, m: nat)
    requires n <= m && p in Run(place, w, Turns(p, q, n)).procs && Run(place, w, Turns(p, q, n)).procs[p].Done?
    ensures Run(place, w, Turns(p, q, m)) == Run(place, w, Turns(p, q, n))
    decreases m - n
  {
    hide Step, Run, Turns;
    if n < m {
      DoneStays(place, w, p, q, n, m - 1);
      NextTurn(place, w, p, q, m);
      DoneTurn(place, Run(place, w, Turns(p, q, n)), p, q);
    }
  }

  lemma DoneTurn(place: Places, w: World, p: Id, q: Oracle)
    requires p in w.procs && w.procs[p].Done?
    ensures Step(place, w, Advance(p, q)) == w
  {
    assert w.procs[p := w.procs[p]] == w.procs;
  }

  /** `p` stands at x over these tables, and nobody's lock has changed. */
  predicate Stands(w: World, v: World, p: Id, x: Proc) {
    p in w.procs && w.procs[p] == x && w.db == v.db && w.locks == v.locks
  }

  lemma LookingStands(place: Places, w: World, v: World, p: Id, x: Proc, q: Oracle)
    requires Stands(w, v, p, x) && AtTarget(place, x)
    requires x.ReadOrder? || x.LookService? || x.CheckTarget? || x.Recheck? || x.ReadPanel? || x.Done?
    ensures Stands(Step(place, w, Advance(p, q)), v, p, Looked(place, v, x, q))
  {
    hide Looked;
    LookedAlike(place, v, w, x, q);
  }

  lemma TwoTurns(place: Places, w: World, p: Id, q: Oracle)
    ensures Run(place, w, Turns(p, q, 2)) == Step(place, Step(place, w, Advance(p, q)), Advance(p, q))
  {
    NextTurn(place, w, p, q, 1);
    NextTurn(place, w, p, q, 2);
    assert Run(place, w, Turns(p, q, 0)) == w;
    hide Step;
  }

  /** A call on a paid order reads it, finds no service, and checks its target. */
  lemma ReadsAndChecks(place: Places, v: World, w: World, p: Id, o: Id, q: Oracle)
    requires o in v.db.orders && v.db.orders[o].kind.Purchase? && Stands(w, v, p, ReadOrder(o, false))
    ensures ServicesOf(v.db.services, o) == {} ==> Stands(Run(place, w, Turns(p, q, 2)), v, p, CheckTarget(o, v.db.orders[o]))
    ensures ServicesOf(v.db.services, o) != {} ==> Stands(Run(place, w, Turns(p, q, 2)), v, p, RepairStatus(o, v.db.orders[o]))
  {
    TwoTurns(place, w, p, q);
    hide Run, Turns, Step, Stands, ServicesOf;
    LookingStands(place, w, v, p, ReadOrder(o, false), q);
    LookingStands(place, Step(place, w, Advance(p, q)), v, p, LookService(o, v.db.orders[o]), q);
  }

  lemma WaitTurn(place: Places, v: World, w: World, p: Id, x: Proc, q: Oracle)
    requires x.AwaitLock? && Stands(w, v, p, x) && place(x.o).At? && place(x.o).target !in v.locks && !q.giveUp
    ensures Stands(Step(place, w, Advance(p, q)), v.(locks := v.locks[place(x.o).target := p]), p,
                   if x.sweep then ReadPanel(x.o, x.seen) else Recheck(x.o, x.seen))
  {
  }

  lemma ClaimTurn(place: Places, v: World, w: World, p: Id, x: Proc, q: Oracle)
    requires x.ClaimOrder? && Stands(w, v, p, x) && place(x.o).At? && x.o in v.db.orders && v.db.orders[x.o].status.Paid?
    ensures Stands(Step(place, w, Advance(p, q)), v.(db := WithStatus(v.db, x.o, Provisioning)), p, CallPanel(x.o, x.seen))
  {
  }

  lemma CheckTurn(place: Places, w: World, v: World, p: Id, o: Id, q: Oracle)
    requires o in v.db.orders && Stands(w, v, p, CheckTarget(o, v.db.orders[o])) && v.db.orders[o].status.Paid? && place(o).At?
    ensures Stands(Step(place, w, Advance(p, q)), v, p, AwaitLock(o, v.db.orders[o], false))
  {
    hide Step, Stands, ServicesOf;
    LookingStands(place, w, v, p, CheckTarget(o, v.db.orders[o]), q);
  }

  lemma RecheckTurn(place: Places, w: World, v: World, p: Id, o: Id, seen: Order, q: Oracle)
    requires Stands(w, v, p, Recheck(o, seen)) && ServicesOf(v.db.services, o) == {} && place(o).At?
    ensures Stands(Step(place, w, Advance(p, q)), v, p, ClaimOrder(o, seen))
  {
    hide Step, Stands, ServicesOf;
    LookingStands(place, w, v, p, Recheck(o, seen), q);
  }

  /** With its target free, the call takes the lock. */
  lemma Locks(place: Places, v: World, w: World, p: Id, o: Id, q: Oracle)
    requires o in v.db.orders && v.db.orders[o].status.Paid? && place(o).At? && place(o).target !in v.locks && !q.giveUp
    requires Stands(w, v, p, CheckTarget(o, v.db.orders[o]))
    ensures Stands(Run(place, w, Turns(p, q, 2)), v.(locks := v.locks[place(o).target := p]), p, Recheck(o, v.db.orders[o]))
  {
    TwoTurns(place, w, p, q);
    hide Run, Turns, Step, Stands;
    CheckTurn(place, w, v, p, o, q);
    WaitTurn(place, v, Step(place, w, Advance(p, q)), p, AwaitLock(o, v.db.orders[o], false), q);
  }

  /** Holding the lock it finds no service again, and claims the order. */
  lemma Claims(place: Places, v: World, w: World, p: Id, o: Id, q: Oracle)
    requires o in v.db.orders && v.db.orders[o].status.Paid? && place(o).At? && ServicesOf(v.db.services, o) == {}
    requires Stands(w, v, p, Recheck(o, v.db.orders[o]))
    ensures Stands(Run(place, w, Turns(p, q, 2)), v.(db := WithStatus(v.db, o, Provisioning)), p, CallPanel(o, v.db.orders[o]))
  {
    TwoTurns(place, w, p, q);
    hide Run, Turns, Step, Stands, ServicesOf, WithStatus;
    RecheckTurn(place, w, v, p, o, v.db.orders[o], q);
    ClaimTurn(place, v, Step(place, w, Advance(p, q)), p, ClaimOrder(o, v.db.orders[o]), q);
  }

  lemma NoTurn(place: Places, w: World, p: Id, q: Oracle)
    ensures Run(place, w, Turns(p, q, 0)) == w
  {
    hide Step;
  }

  lemma {:induction false} TurnsSplit(place: Places, w: World, p: Id, q: Oracle, a: nat, b: nat)
    ensures Run(place, w, Turns(p, q, a + b)) == Run(place, Run(place, w, Turns(p, q, a)), Turns(p, q, b))
  {
    NoTurn(place, Run(place, w, Turns(p, q, a)), p, q);
    hide Step, Run, Turns;
    if b > 0 {
      TurnsSplit(place, w, p, q, a, b - 1);
      NextTurn(place, w, p, q, a + b);
      NextTurn(place, Run(place, w, Turns(p, q, a)), p, q, b);
    }
  }

  /** The end of a call, with these tables. */
  predicate Ends(w: World, p: Id, o: Id, r: Result, db: Db) {
    p in w.procs && w.procs[p] == Done(o, r) && w.db == db
  }

  lemma AnswerTurn(place: Places, w: World, p: Id, o: Id, seen: Order, q: Oracle)
    requires p in w.procs && w.procs[p] == CallPanel(o, seen) && place(o).At?
    ensures var w' := Step(place, w, Advance(p, q));
            && p in w'.procs && w'.db == w.db
            && w'.procs[p] == (if q.create.RefusedForCertain? then RefundRefused(o, seen)
                               else if q.create.Created? then PersistService(o, seen) else ReleaseLock(o, Undecided))
  {
    hide AdvanceProc;
    AfterAnswer(place, w, p, q);
  }

  lemma EndTurn(place: Places, w: World, p: Id, q: Oracle)
    requires p in w.procs && AtTarget(place, w.procs[p]) && (w.procs[p].ReleaseLock? || w.procs[p].Done?)
    ensures Ends(Step(place, w, Advance(p, q)), p, w.procs[p].o, w.procs[p].result, w.db)
  {
    if w.procs[p].Done? {
      DoneTurn(place, w, p, q);
    } else {
      ReleaseSettles(place, w, p, q);
    }
  }

  lemma RefundTurn(place: Places, w: World, p: Id, q: Oracle)
    requires p in w.procs && Refunding(w.procs[p]) && AtTarget(place, w.procs[p])
    ensures var x, w' := w.procs[p], Step(place, w, Advance(p, q));
            var (db', done) := RefundDefinite(w.db, x.o, x.seen);
            p in w'.procs && w'.db == db' && w'.procs[p] == RefundedProc(x, done)
  {
    hide RefundAdvance, RefundDefinite;
    RefundShape(w, p);
  }

  lemma PersistTurn(place: Places, w: World, p: Id, q: Oracle)
    requires p in w.procs && w.procs[p].PersistService? && place(w.procs[p].o).At?
    ensures var x, w' := w.procs[p], Step(place, w, Advance(p, q));
            && p in w'.procs
            && (q.lost ==> w'.db == w.db && w'.procs[p] == ReleaseLock(x.o, Undecided))
            && (!q.lost && q.service !in w.db.services ==>
                  && w'.db == Persist(w.db, x.o, q.service, ProvisionedService(x.o, x.seen, place(x.o).target.username, q.now))
                  && w'.procs[p] == ReleaseLock(x.o, Delivered))
  {
    hide Persist, ProvisionedService;
  }

  /** Paying back the order as it was before its claim is paying it back now. */
  lemma PaidBackEarlier(db: Db, db': Db, o: Id)
    requires o in db.orders && Open(db.orders[o].status) && PaidBack(WithStatus(db, o, Provisioning), db', o)
    ensures PaidBack(db, db', o)
  {
    var claimed := WithStatus(db, o, Provisioning);
    assert claimed.orders[o := claimed.orders[o].(status := Failed)] == db.orders[o := db.orders[o].(status := Failed)];
  }

  lemma DeliveredEarlier(db: Db, db': Db, o: Id, s: Id)
    requires o in db.orders && DeliveredAs(WithStatus(db, o, Provisioning), db', o, s)
    ensures DeliveredAs(db, db', o, s)
  {
    var claimed := WithStatus(db, o, Provisioning);
    assert claimed.orders[o := claimed.orders[o].(status := Completed)] == db.orders[o := db.orders[o].(status := Completed)];
  }

  lemma ThreeTurns(place: Places, w: World, p: Id, q: Oracle)
    ensures Run(place, w, Turns(p, q, 3)) == Step(place, Step(place, Step(place, w, Advance(p, q)), Advance(p, q)), Advance(p, q))
  {
    TwoTurns(place, w, p, q);
    NextTurn(place, w, p, q, 3);
    hide Step, Run, Turns;
  }

  /** The panel's answer and two turns more. */
  lemma RefusalEnds(init: map<Id, int>, place: Places, db: Db, w: World, p: Id, o: Id, q: Oracle)
    requires q.create.RefusedForCertain? && place(o).At?
    requires DbInv(init, db) && o in db.orders && db.orders[o].status.Paid? && Refunds(db.ledger, o) == 0
    requires p in w.procs && w.procs[p] == CallPanel(o, db.orders[o]) && w.db == WithStatus(db, o, Provisioning)
    ensures var w' := Run(place, w, Turns(p, q, 3)); Ends(w', p, o, Refunded(true), w'.db) && PaidBack(db, w'.db, o)
  {
    var seen, claimed := db.orders[o], WithStatus(db, o, Provisioning);
    WithStatusKeepsDbInv(init, db, o, Provisioning);
    ThreeTurns(place, w, p, q);
    var w1 := Step(place, w, Advance(p, q));
    hide Run, Turns, Step, DbInv, PaidBack, RefundDefinite;
    AnswerTurn(place, w, p, o, seen, q);
    RefundTurn(place, w1, p, q);
    OpenRefundPaysBack(init, claimed, o, seen);
    EndTurn(place, Step(place, w1, Advance(p, q)), p, q);
    PaidBackEarlier(db, Step(place, w1, Advance(p, q)).db, o);
  }

  lemma CreationEnds(place: Places, db: Db, w: World, p: Id, o: Id, q: Oracle)
    requires q.create.Created? && place(o).At? && q.service !in db.services
    requires o in db.orders && db.orders[o].status.Paid? && ServicesOf(db.services, o) == {}
    requires p in w.procs && w.procs[p] == CallPanel(o, db.orders[o]) && w.db == WithStatus(db, o, Provisioning)
    ensures var w' := Run(place, w, Turns(p, q, 3));
            if q.lost then Ends(w', p, o, Undecided, w.db)
            else Ends(w', p, o, Delivered, w'.db) && DeliveredAs(db, w'.db, o, q.service)
                 && AsBought(w'.db.services[q.service], o, db.orders[o], place(o).target.username, q.now)
  {
    var seen, service := db.orders[o], ProvisionedService(o, db.orders[o], place(o).target.username, q.now);
    ThreeTurns(place, w, p, q);
    var w1 := Step(place, w, Advance(p, q));
    hide Run, Turns, Step, ProvisionedService, AdoptedService, Persist, Adopt, AsBought, AsReported, DeliveredAs, ServicesOf;
    AnswerTurn(place, w, p, o, seen, q);
    PersistTurn(place, w1, p, q);
    EndTurn(place, Step(place, w1, Advance(p, q)), p, q);
    if !q.lost {
      OpenIsDelivered(w.db, o, q.service, service);
      ServicesOfOrder(o, seen, seen, place(o).target.username, q.now, Reading(None, None, None, None));
      DeliveredEarlier(db, Adopt(w.db, o, q.service, service), o, q.service);
    }
  }

  lemma UnclearEnds(place: Places, w: World, p: Id, o: Id, seen: Order, q: Oracle)
    requires q.create.CreateUnclear? && place(o).At? && p in w.procs && w.procs[p] == CallPanel(o, seen)
    ensures Ends(Run(place, w, Turns(p, q, 3)), p, o, Undecided, w.db)
  {
    ThreeTurns(place, w, p, q);
    var w1 := Step(place, w, Advance(p, q));
    hide Run, Turns, Step;
    AnswerTurn(place, w, p, o, seen, q);
    EndTurn(place, w1, p, q);
    EndTurn(place, Step(place, w1, Advance(p, q)), p, q);
  }

  /** What one call on a purchase comes to, by the order's status, its target and the panel's answer. */
  ghost predicate ProvisionOutcome(place: Places, db: Db, w: World, p: Id, o: Id, q: Oracle)
    requires o in db.orders
  {
    var status := db.orders[o].status;
    if status.Completed? then Ends(w, p, o, Delivered, db)
    else if !status.Paid? || place(o).NoPanel? then Ends(w, p, o, Busy, db)
    else if place(o).Unusable? || q.create.RefusedForCertain? then Ends(w, p, o, Refunded(true), w.db) && PaidBack(db, w.db, o)
    else if q.create.Created? && !q.lost
      then Ends(w, p, o, Delivered, w.db) && DeliveredAs(db, w.db, o, q.service)
           && AsBought(w.db.services[q.service], o, db.orders[o], place(o).target.username, q.now)
    else Ends(w, p, o, Undecided, WithStatus(db, o, Provisioning))
  }

  /** The order's facts that a call builds on. */
  ghost predicate Ready(init: map<Id, int>, db: Db, o: Id) {
    DbInv(init, db) && o in db.orders && db.orders[o].kind.Purchase? && OrderOk(ViewOf(db, o))
  }

  lemma ReplayTurn(place: Places, v: World, w: World, p: Id, o: Id, q: Oracle)
    requires o in v.db.orders && v.db.orders[o].status.Completed? && Stands(w, v, p, RepairStatus(o, v.db.orders[o]))
    ensures Ends(Step(place, w, Advance(p, q)), p, o, Delivered, v.db)
  {
  }

  lemma IdleTurn(place: Places, v: World, w: World, p: Id, o: Id, seen: Order, q: Oracle)
    requires (!seen.status.Paid? || place(o).NoPanel?) && Stands(w, v, p, CheckTarget(o, seen))
    ensures Ends(Step(place, w, Advance(p, q)), p, o, Busy, v.db)
  {
    hide ServicesOf;
  }

  lemma UnusableTurn(place: Places, v: World, w: World, p: Id, o: Id, seen: Order, q: Oracle)
    requires seen.status.Paid? && place(o).Unusable? && Stands(w, v, p, CheckTarget(o, seen))
    ensures Stands(Step(place, w, Advance(p, q)), v, p, RefundTarget(o, seen))
  {
    hide ServicesOf;
  }

  lemma RefundingTurn(init: map<Id, int>, place: Places, v: World, w: World, p: Id, o: Id, q: Oracle)
    requires Ready(init, v.db, o) && v.db.orders[o].status.Paid? && Stands(w, v, p, RefundTarget(o, v.db.orders[o]))
    ensures var w' := Step(place, w, Advance(p, q)); Ends(w', p, o, Refunded(true), w'.db) && PaidBack(v.db, w'.db, o)
  {
    hide Step, DbInv, PaidBack, RefundDefinite, ServicesOf, Refunds, OrderOk;
    NoServiceYet(init, v.db, o);
    RefundTurn(place, w, p, q);
    OpenRefundPaysBack(init, v.db, o, v.db.orders[o]);
  }

  /** An ended call has its outcome, and keeps it. */
  lemma EndedIn(place: Places, db: Db, w: World, p: Id, o: Id, r: Result, q: Oracle, n: nat)
    requires n <= 7 && Ends(Run(place, w, Turns(p, q, n)), p, o, r, Run(place, w, Turns(p, q, n)).db)
    ensures Run(place, w, Turns(p, q, 7)) == Run(place, w, Turns(p, q, n))
  {
    hide Run, Turns;
    DoneStays(place, w, p, q, n, 7);
  }

  lemma ReplayEnds(place: Places, v: World, w: World, p: Id, o: Id, q: Oracle)
    requires o in v.db.orders && v.db.orders[o].status.Completed? && Stands(w, v, p, RepairStatus(o, v.db.orders[o]))
    ensures ProvisionOutcome(place, v.db, Run(place, w, Turns(p, q, 7)), p, o, q)
  {
    OneTurn(place, w, p, q);
    ReplayTurn(place, v, w, p, o, q);
    hide Run, Turns, Step, Stands;
    EndedIn(place, v.db, w, p, o, Delivered, q, 1);
  }

  lemma IdleEnds(place: Places, v: World, w: World, p: Id, o: Id, q: Oracle)
    requires o in v.db.orders && !v.db.orders[o].status.Completed? && (!v.db.orders[o].status.Paid? || place(o).NoPanel?)
    requires Stands(w, v, p, CheckTarget(o, v.db.orders[o]))
    ensures ProvisionOutcome(place, v.db, Run(place, w, Turns(p, q, 7)), p, o, q)
  {
    OneTurn(place, w, p, q);
    IdleTurn(place, v, w, p, o, v.db.orders[o], q);
    hide Run, Turns, Step, Stands;
    EndedIn(place, v.db, w, p, o, Busy, q, 1);
  }

  lemma UnusableEnds(init: map<Id, int>, place: Places, v: World, w: World, p: Id, o: Id, q: Oracle)
    requires o in v.db.orders && Ready(init, v.db, o) && v.db.orders[o].status.Paid? && place(o).Unusable?
    requires Stands(w, v, p, CheckTarget(o, v.db.orders[o]))
    ensures ProvisionOutcome(place, v.db, Run(place, w, Turns(p, q, 7)), p, o, q)
  {
    hide Run, Turns, Step, Stands, Ready, PaidBack;
    TwoTurns(place, w, p, q);
    UnusableTurn(place, v, w, p, o, v.db.orders[o], q);
    RefundingTurn(init, place, v, Step(place, w, Advance(p, q)), p, o, q);
    EndedIn(place, v.db, w, p, o, Refunded(true), q, 2);
  }

  /** From the claim on. */
  lemma ClaimedEnds(init: map<Id, int>, place: Places, v: World, w: World, p: Id, o: Id, q: Oracle)
    requires Ready(init, v.db, o) && v.db.orders[o].status.Paid? && place(o).At? && q.service !in v.db.services
    requires p in w.procs && w.procs[p] == CallPanel(o, v.db.orders[o]) && w.db == WithStatus(v.db, o, Provisioning)
    ensures ProvisionOutcome(place, v.db, Run(place, w, Turns(p, q, 3)), p, o, q)
  {
    hide Run, Turns, Step, DbInv, PaidBack, DeliveredAs, AsBought, ServicesOf, Refunds, WithStatus, OrderOk, Ends;
    NoServiceYet(init, v.db, o);
    match q.create
    case RefusedForCertain(_) => RefusalEnds(init, place, v.db, w, p, o, q);
    case Created => CreationEnds(place, v.db, w, p, o, q);
    case CreateUnclear(_) => UnclearEnds(place, w, p, o, v.db.orders[o], q);
  }

  /** A paid order at a free target, from the check of the target on. */
  lemma TargetedEnds(init: map<Id, int>, place: Places, v: World, w: World, p: Id, o: Id, q: Oracle)
    requires o in v.db.orders && Ready(init, v.db, o) && v.db.orders[o].status.Paid? && q.service !in v.db.services
    requires place(o).At? && place(o).target !in v.locks && !q.giveUp
    requires Stands(w, v, p, CheckTarget(o, v.db.orders[o]))
    ensures ProvisionOutcome(place, v.db, Run(place, w, Turns(p, q, 7)), p, o, q)
  {
    hide Run, Turns, Step, Ready, ServicesOf, ProvisionOutcome, WithStatus, Stands;
    var locked := v.(locks := v.locks[place(o).target := p]);
    NoServiceYet(init, v.db, o);
    TurnsSplit(place, w, p, q, 2, 5);
    TurnsSplit(place, Run(place, w, Turns(p, q, 2)), p, q, 2, 3);
    Locks(place, v, w, p, o, q);
    Claims(place, locked, Run(place, w, Turns(p, q, 2)), p, o, q);
    StandsAt(Run(place, Run(place, w, Turns(p, q, 2)), Turns(p, q, 2)), locked.(db := WithStatus(v.db, o, Provisioning)), p,
             CallPanel(o, v.db.orders[o]));
    ClaimedEnds(init, place, v, Run(place, Run(place, w, Turns(p, q, 2)), Turns(p, q, 2)), p, o, q);
  }

  lemma StandsAt(w: World, v: World, p: Id, x: Proc)
    requires Stands(w, v, p, x)
    ensures p in w.procs && w.procs[p] == x && w.db == v.db
  {
  }

  lemma NoServiceYet(init: map<Id, int>, db: Db, o: Id)
    requires Ready(init, db, o)
    ensures db.orders[o].status.Paid? ==> ServicesOf(db.services, o) == {} && Refunds(db.ledger, o) == 0
    ensures db.orders[o].status.Completed? <==> ServicesOf(db.services, o) != {}
  {
    hide DbInv, ServicesOf, Refunds;
  }

  /** A call that has begun, nine turns on. */
  lemma BegunEnds(init: map<Id, int>, place: Places, v: World, w: World, p: Id, o: Id, q: Oracle)
    requires o in v.db.orders && v.db.orders[o].kind.Purchase?
    requires Ready(init, v.db, o) && q.service !in v.db.services && Stands(w, v, p, ReadOrder(o, false))
    requires place(o).At? ==> place(o).target !in v.locks && !q.giveUp
    ensures ProvisionOutcome(place, v.db, Run(place, w, Turns(p, q, 9)), p, o, q)
  {
    hide Run, Turns, Step, Ready, ServicesOf, ProvisionOutcome, Stands;
    var seen, w2 := v.db.orders[o], Run(place, w, Turns(p, q, 2));
    NoServiceYet(init, v.db, o);
    TurnsSplit(place, w, p, q, 2, 7);
    ReadsAndChecks(place, v, w, p, o, q);
    if seen.status.Completed? {
      ReplayEnds(place, v, w2, p, o, q);
    } else if !seen.status.Paid? || place(o).NoPanel? {
      IdleEnds(place, v, w2, p, o, q);
    } else if place(o).Unusable? {
      UnusableEnds(init, place, v, w2, p, o, q);
    } else {
      TargetedEnds(init, place, v, w2, p, o, q);
    }
  }

  lemma OneTurn(place: Places, w: World, p: Id, q: Oracle)
    ensures Run(place, w, Turns(p, q, 1)) == Step(place, w, Advance(p, q))
  {
    NextTurn(place, w, p, q, 1);
    NoTurn(place, w, p, q);
    hide Run, Turns, Step;
  }

  /** One whole call of `p`. */
  function CallOf(p: Id, o: Id, sweep: bool, q: Oracle): seq<Event> {
    [Begin(p, o, sweep)] + Turns(p, q, 9)
  }

  lemma CallRuns(place: Places, w: World, p: Id, o: Id, sweep: bool, q: Oracle)
    requires p !in w.procs
    ensures var begun := Goto(w, p, ReadOrder(o, sweep));
            Run(place, w, CallOf(p, o, sweep, q)) == Run(place, begun, Turns(p, q, 9)) && Stands(begun, w, p, ReadOrder(o, sweep))
  {
    RunAppend(place, w, [Begin(p, o, sweep)], Turns(p, q, 9));
    OneStep(place, w, Begin(p, o, sweep));
    hide Run, Turns;
  }

  lemma ReadyAfter(init: map<Id, int>, place: Places, w: World, es: seq<Event>, o: Id)
    requires Start(init, w) && NoneStale(place, w, es) && o in Run(place, w, es).db.orders
    ensures var db := Run(place, w, es).db; db.orders[o].kind.Purchase? ==> Ready(init, db, o)
  {
    RunVerdict(init, place, w, es);
    var v := Run(place, w, es);
    hide Start, NoneStale, Run, Inv, Base, DbInv, ServicesOwned, LocksSound, OrdersInv, ProcsInv, Knows, OrderOk;
    Parts(init, place, v);
    BaseParts(init, place, v);
    OrderAt(v.db, o);
  }

  /**
   After every run, a call on a purchase that finds its target free: a completed order is reported and left alone; one
   in progress, failed or without a panel is left alone; a paid one is delivered in full, refunded in full, or, when
   the answer or the lock is lost, left PROVISIONING, by its target and the panel's answer.
   */
  lemma ProvisionCall(init: map<Id, int>, place: Places, w: World, es: seq<Event>, p: Id, o: Id, q: Oracle)
    requires Start(init, w) && NoneStale(place, w, es)
    requires var v := Run(place, w, es);
             && p !in v.procs && o in v.db.orders && v.db.orders[o].kind.Purchase? && q.service !in v.db.services
             && (place(o).At? ==> place(o).target !in v.locks && !q.giveUp)
    ensures ProvisionOutcome(place, Run(place, w, es).db, Run(place, Run(place, w, es), CallOf(p, o, false, q)), p, o, q)
  {
    hide Start, NoneStale, Run, Turns, Step, Ready, ProvisionOutcome, Stands, CallOf;
    var v := Run(place, w, es);
    ReadyAfter(init, place, w, es, o);
    CallRuns(place, v, p, o, false, q);
    BegunEnds(init, place, v, Goto(v, p, ReadOrder(o, false)), p, o, q);
  }

  // ---- one reconciliation from its beginning to its end --------------------------------------------------------------

  /** What one reconciliation of a purchase comes to, by what the panel shows. */
  ghost predicate ReconcileOutcome(place: Places, db: Db, w: World, p: Id, o: Id, q: Oracle)
    requires o in db.orders
  {
    if !db.orders[o].status.Provisioning? || !place(o).At? then Ends(w, p, o, Busy, db)
    else match q.read
      case Present(reading) =>
        Ends(w, p, o, Delivered, w.db) && DeliveredAs(db, w.db, o, q.service)
        && AsReported(w.db.services[q.service], o, db.orders[o], place(o).target.username, reading)
      case AbsentForCertain => Ends(w, p, o, Refunded(true), w.db) && PaidBack(db, w.db, o)
      case ReadUnclear => Ends(w, p, o, Undecided, db)
  }

  lemma SweepReads(place: Places, v: World, w: World, p: Id, o: Id, q: Oracle)
    requires o in v.db.orders && v.db.orders[o].kind.Purchase? && v.db.orders[o].status.Provisioning?
    requires place(o).At? && place(o).target !in v.locks && !q.giveUp && Stands(w, v, p, ReadOrder(o, true))
    ensures Stands(Run(place, w, Turns(p, q, 2)), v.(locks := v.locks[place(o).target := p]), p, ReadPanel(o, v.db.orders[o]))
  {
    hide Run, Turns, Step, Stands, ServicesOf;
    TwoTurns(place, w, p, q);
    LookingStands(place, w, v, p, ReadOrder(o, true), q);
    WaitTurn(place, v, Step(place, w, Advance(p, q)), p, AwaitLock(o, v.db.orders[o], true), q);
  }

  lemma SweepIdles(place: Places, v: World, w: World, p: Id, o: Id, q: Oracle)
    requires o in v.db.orders && (!v.db.orders[o].status.Provisioning? || !place(o).At?) && Stands(w, v, p, ReadOrder(o, true))
    ensures Ends(Step(place, w, Advance(p, q)), p, o, Busy, v.db)
  {
    hide ServicesOf;
  }

  lemma ReadingTurn(place: Places, w: World, p: Id, o: Id, seen: Order, q: Oracle)
    requires p in w.procs && w.procs[p] == ReadPanel(o, seen) && place(o).At?
    ensures var w' := Step(place, w, Advance(p, q));
            && p in w'.procs && w'.db == w.db
            && w'.procs[p] == match q.read
                              case Present(reading) => AdoptAccount(o, seen, reading)
                              case AbsentForCertain => RefundAbsent(o, seen)
                              case ReadUnclear => ReleaseLock(o, Undecided)
  {
    hide ServicesOf;
  }

  lemma AdoptTurn(place: Places, w: World, p: Id, q: Oracle)
    requires p in w.procs && w.procs[p].AdoptAccount? && place(w.procs[p].o).At? && q.service !in w.db.services
    ensures var x, w' := w.procs[p], Step(place, w, Advance(p, q));
            && p in w'.procs && w'.procs[p] == ReleaseLock(x.o, Delivered)
            && w'.db == Adopt(w.db, x.o, q.service, AdoptedService(x.o, x.seen, place(x.o).target.username, x.reading))
  {
    hide Adopt, AdoptedService;
  }

  lemma AbsentEnds(init: map<Id, int>, place: Places, db: Db, w: World, p: Id, o: Id, q: Oracle)
    requires q.read.AbsentForCertain? && place(o).At? && o in db.orders && db.orders[o].status.Provisioning? && Ready(init, db, o)
    requires p in w.procs && w.procs[p] == ReadPanel(o, db.orders[o]) && w.db == db
    ensures ReconcileOutcome(place, db, Run(place, w, Turns(p, q, 3)), p, o, q)
  {
    hide Run, Turns, Step, DbInv, PaidBack, RefundDefinite, ServicesOf, Refunds, OrderOk;
    StillOpen(init, db, o);
    ThreeTurns(place, w, p, q);
    ReadingTurn(place, w, p, o, db.orders[o], q);
    RefundTurn(place, Step(place, w, Advance(p, q)), p, q);
    OpenRefundPaysBack(init, db, o, db.orders[o]);
    EndTurn(place, Step(place, Step(place, w, Advance(p, q)), Advance(p, q)), p, q);
  }

  lemma StillOpen(init: map<Id, int>, db: Db, o: Id)
    requires Ready(init, db, o) && db.orders[o].status.Provisioning?
    ensures Refunds(db.ledger, o) == 0 && ServicesOf(db.services, o) == {} && DbInv(init, db)
  {
    hide DbInv, ServicesOf, Refunds;
  }

  lemma PresentEnds(init: map<Id, int>, place: Places, db: Db, w: World, p: Id, o: Id, q: Oracle)
    requires q.read.Present? && place(o).At? && q.service !in db.services
    requires o in db.orders && db.orders[o].status.Provisioning? && Ready(init, db, o)
    requires p in w.procs && w.procs[p] == ReadPanel(o, db.orders[o]) && w.db == db
    ensures ReconcileOutcome(place, db, Run(place, w, Turns(p, q, 3)), p, o, q)
  {
    hide Run, Turns, Step, Ready, ServicesOf, ProvisionedService, AdoptedService, Persist, Adopt, AsBought, AsReported, DeliveredAs;
    StillOpen(init, db, o);
    ThreeTurns(place, w, p, q);
    ReadingTurn(place, w, p, o, db.orders[o], q);
    AdoptTurn(place, Step(place, w, Advance(p, q)), p, q);
    EndTurn(place, Step(place, Step(place, w, Advance(p, q)), Advance(p, q)), p, q);
    OpenIsDelivered(db, o, q.service, AdoptedService(o, db.orders[o], place(o).target.username, q.read.reading));
    ServicesOfOrder(o, db.orders[o], db.orders[o], place(o).target.username, 0, q.read.reading);
  }

  lemma ReadUnclearEnds(place: Places, db: Db, w: World, p: Id, o: Id, q: Oracle)
    requires q.read.ReadUnclear? && place(o).At? && o in db.orders && db.orders[o].status.Provisioning?
    requires p in w.procs && w.procs[p] == ReadPanel(o, db.orders[o]) && w.db == db
    ensures ReconcileOutcome(place, db, Run(place, w, Turns(p, q, 3)), p, o, q)
  {
    hide Run, Turns, Step;
    ThreeTurns(place, w, p, q);
    ReadingTurn(place, w, p, o, db.orders[o], q);
    EndTurn(place, Step(place, w, Advance(p, q)), p, q);
    EndTurn(place, Step(place, Step(place, w, Advance(p, q)), Advance(p, q)), p, q);
  }

  /**
   After every run, a reconciliation that finds its target free: an order that is not PROVISIONING is left alone, an
   account that is there is adopted as reported, an account that is not there for sure is paid back, and a failed
   read leaves everything.
   */
  lemma ReconcileCall(init: map<Id, int>, place: Places, w: World, es: seq<Event>, p: Id, o: Id, q: Oracle)
    requires Start(init, w) && NoneStale(place, w, es)
    requires var v := Run(place, w, es);
             && p !in v.procs && o in v.db.orders && v.db.orders[o].kind.Purchase? && q.service !in v.db.services
             && (place(o).At? ==> place(o).target !in v.locks && !q.giveUp)
    ensures ReconcileOutcome(place, Run(place, w, es).db, Run(place, Run(place, w, es), CallOf(p, o, true, q)), p, o, q)
  {
    hide Start, NoneStale, Run, Turns, Step, Ready, ReconcileOutcome, Stands, CallOf;
    var v := Run(place, w, es);
    ReadyAfter(init, place, w, es, o);
    CallRuns(place, v, p, o, true, q);
    SweepEnds(init, place, v, Goto(v, p, ReadOrder(o, true)), p, o, q);
  }

  lemma SweepEnds(init: map<Id, int>, place: Places, v: World, w: World, p: Id, o: Id, q: Oracle)
    requires o in v.db.orders && v.db.orders[o].kind.Purchase?
    requires Ready(init, v.db, o) && q.service !in v.db.services && Stands(w, v, p, ReadOrder(o, true))
    requires place(o).At? ==> place(o).target !in v.locks && !q.giveUp
    ensures ReconcileOutcome(place, v.db, Run(place, w, Turns(p, q, 9)), p, o, q)
  {
    hide Run, Turns, Step, Ready, Stands, PaidBack, DeliveredAs, AsReported;
    if !v.db.orders[o].status.Provisioning? || !place(o).At? {
      OneTurn(place, w, p, q);
      SweepIdles(place, v, w, p, o, q);
      DoneStays(place, w, p, q, 1, 9);
    } else {
      SweepFinds(init, place, v, w, p, o, q);
    }
  }

  lemma SweepFinds(init: map<Id, int>, place: Places, v: World, w: World, p: Id, o: Id, q: Oracle)
    requires o in v.db.orders && v.db.orders[o].kind.Purchase? && v.db.orders[o].status.Provisioning?
    requires Ready(init, v.db, o) && q.service !in v.db.services && Stands(w, v, p, ReadOrder(o, true))
    requires place(o).At? && place(o).target !in v.locks && !q.giveUp
    ensures ReconcileOutcome(place, v.db, Run(place, w, Turns(p, q, 9)), p, o, q)
  {
    hide Run, Turns, Step, Ready, Stands, ReconcileOutcome;
    var w2 := Run(place, w, Turns(p, q, 2));
    TurnsSplit(place, w, p, q, 2, 3);
    SweepReads(place, v, w, p, o, q);
    StandsAt(w2, v.(locks := v.locks[place(o).target := p]), p, ReadPanel(o, v.db.orders[o]));
    match q.read {
      case AbsentForCertain => AbsentEnds(init, place, v.db, w2, p, o, q);
      case Present(_) => PresentEnds(init, place, v.db, w2, p, o, q);
      case ReadUnclear => ReadUnclearEnds(place, v.db, w2, p, o, q);
    }
    ReconciledIsDone(place, v.db, Run(place, w, Turns(p, q, 5)), p, o, q);
    DoneStays(place, w, p, q, 5, 9);
  }

  lemma ReconciledIsDone(place: Places, db: Db, w: World, p: Id, o: Id, q: Oracle)
    requires o in db.orders && ReconcileOutcome(place, db, w, p, o, q)
    ensures p in w.procs && w.procs[p].Done?
  {
    hide PaidBack, DeliveredAs, AsReported;
  }
}
