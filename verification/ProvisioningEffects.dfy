/**
 What the panels really hold for each purchase, beside what the tables say: create requests are counted,
 and an order is within a panel's reach once its account is there or its request is on its way.
 */
module ProvisioningEffects {
  import opened Wrappers
  import opened CommerceDb
  import opened Ledger
  import opened Settlement
  import opened Execution
  import opened Provisioning

  /** The order's account is on its panel, or may still come. */
  predicate Reaches(place: Places, w: World, o: Id) {
    place(o).At? && (place(o).target in w.accounts || place(o).target in w.inflight)
  }

  // ---- what one step changes on the panels --------------------------------------------------------------

  predicate SamePanels(w: World, w': World) {
    w'.accounts == w.accounts && w'.inflight == w.inflight && w'.called == w.called
  }

  /** A process sends its create request in this step, whether it then hears an answer or crashes. */
  predicate MakesCall(place: Places, w: World, e: Event) {
    (e.Advance? || e.Crash?) && e.p in w.procs && w.procs[e.p].CallPanel? && AtTarget(place, w.procs[e.p])
  }

  function FateIn(e: Event): Fate
    requires e.Advance? || e.Crash?
  {
    if e.Crash? then e.fate else FateOf(e.q.create)
  }

  lemma AdvanceMovesPanels(place: Places, w: World, p: Id, q: Oracle)
    requires p in w.procs && AtTarget(place, w.procs[p])
    ensures !w.procs[p].CallPanel? ==> SamePanels(w, AdvanceProc(place, w, p, q))
    ensures w.procs[p].CallPanel? ==>
              SamePanels(Sent(w, w.procs[p].o, place(w.procs[p].o).target, FateOf(q.create)), AdvanceProc(place, w, p, q))
  {
    hide RefundDefinite, Persist, Adopt, MarkCompleted, ClaimPaid, Looked, ProvisionedService, AdoptedService, FateOf, Answered;
  }

  lemma StepMovesPanels(place: Places, w: World, e: Event)
    ensures MakesCall(place, w, e) ==>
              SamePanels(Sent(w, w.procs[e.p].o, place(w.procs[e.p].o).target, FateIn(e)), Step(place, w, e))
    ensures !MakesCall(place, w, e) && !e.Land? ==> SamePanels(w, Step(place, w, e))
    ensures e.Land? ==> Step(place, w, e).called == w.called && Step(place, w, e).db == w.db
                        && forall o :: Reaches(place, Step(place, w, e), o) == Reaches(place, w, o)
  {
    hide AdvanceProc, SettleTx, FateOf;
    if e.Advance? && e.p in w.procs && AtTarget(place, w.procs[e.p]) {
      AdvanceMovesPanels(place, w, e.p, e.q);
    }
  }

  /** A request reaches for its own order and no other. */
  lemma SendReaches(place: Places, w: World, o: Id, fate: Fate)
    requires OneUsernamePerOrder(place) && place(o).At?
    ensures var w' := Sent(w, o, place(o).target, fate);
            && (forall x :: x != o ==> Reaches(place, w', x) == Reaches(place, w, x))
            && (Reaches(place, w, o) ==> Reaches(place, w', o))
            && (fate.Dropped? ==> Reaches(place, w', o) == Reaches(place, w, o))
            && (fate.Landed? ==> place(o).target in w'.accounts)
            && (forall x: Id :: w'.called[x] == w.called[x] + if x == o then 1 else 0)
            && w.accounts <= w'.accounts
  {
  }

  lemma SamePanelsSameReach(place: Places, w: World, w': World)
    requires SamePanels(w, w')
    ensures forall o :: Reaches(place, w', o) == Reaches(place, w, o)
  {
  }

  /** Only a call changes what is within reach, and only for its own order; nothing gets out of reach. */
  lemma ReachStays(place: Places, w: World, e: Event, o: Id)
    requires OneUsernamePerOrder(place)
    ensures !(MakesCall(place, w, e) && w.procs[e.p].o == o) ==> Reaches(place, Step(place, w, e), o) == Reaches(place, w, o)
    ensures Reaches(place, w, o) ==> Reaches(place, Step(place, w, e), o)
    ensures Step(place, w, e).called[o] == w.called[o] + if MakesCall(place, w, e) && w.procs[e.p].o == o then 1 else 0
  {
    hide Step, OneUsernamePerOrder, Sent, FateIn, SamePanels, Reaches;
    StepMovesPanels(place, w, e);
    if MakesCall(place, w, e) {
      var x := w.procs[e.p];
      SendReaches(place, w, x.o, FateIn(e));
      SamePanelsSameReach(place, Sent(w, x.o, place(x.o).target, FateIn(e)), Step(place, w, e));
      SameCounts(Sent(w, x.o, place(x.o).target, FateIn(e)), Step(place, w, e));
    } else if !e.Land? {
      SamePanelsSameReach(place, w, Step(place, w, e));
      SameCounts(w, Step(place, w, e));
    }
  }

  lemma SameCounts(w: World, w': World)
    requires SamePanels(w, w')
    ensures w'.called == w.called && w'.accounts == w.accounts
  {
  }

  // ---- what one step changes in the statuses ---------------------------------------------------------------

  /** Statuses may change and orders may be added, but no order becomes PAID again. */
  ghost predicate StatusesMove(orders: map<Id, Order>, orders': map<Id, Order>) {
    forall o :: o in orders ==> o in orders' && (orders'[o].status.Paid? ==> orders[o].status.Paid?)
  }

  lemma OneStatusMoves(orders: map<Id, Order>, o: Id, status: OrderStatus)
    requires o in orders && (!status.Paid? || orders[o].status.Paid?)
    ensures StatusesMove(orders, orders[o := orders[o].(status := status)])
  {
  }

  lemma StatusesStay(orders: map<Id, Order>)
    ensures StatusesMove(orders, orders)
  {
  }

  lemma RefundMovesStatuses(db: Db, o: Id, seen: Order)
    ensures StatusesMove(db.orders, RefundDefinite(db, o, seen).0.orders)
  {
    hide StatusesMove;
    StatusesStay(db.orders);
    if o in db.orders {
      OneStatusMoves(db.orders, o, Failed);
    }
  }

  lemma DeliverMovesStatuses(db: Db, o: Id, s: Id, service: Service)
    ensures StatusesMove(db.orders, Persist(db, o, s, service).orders) && StatusesMove(db.orders, Adopt(db, o, s, service).orders)
  {
    hide StatusesMove, ServicesOf;
    StatusesStay(db.orders);
    if o in db.orders {
      OneStatusMoves(db.orders, o, Completed);
    }
  }

  lemma FlipMovesStatuses(db: Db, o: Id)
    ensures StatusesMove(db.orders, MarkCompleted(db, o).orders) && StatusesMove(db.orders, ClaimPaid(db, o).0.orders)
    ensures var (db', ok) := ClaimPaid(db, o);
            ok ==> o in db.orders && db.orders[o].status.Paid? && o in db'.orders && db'.orders[o].status.Provisioning?
  {
    hide StatusesMove;
    StatusesStay(db.orders);
    if o in db.orders {
      OneStatusMoves(db.orders, o, Completed);
      OneStatusMoves(db.orders, o, Provisioning);
    }
  }

  lemma AdvanceMovesStatuses(place: Places, w: World, p: Id, q: Oracle)
    requires p in w.procs && AtTarget(place, w.procs[p])
    ensures StatusesMove(w.db.orders, AdvanceProc(place, w, p, q).db.orders)
  {
    hide StatusesMove, RefundDefinite, Persist, Adopt, MarkCompleted, ClaimPaid, Looked, ProvisionedService, AdoptedService;
    var x := w.procs[p];
    StatusesStay(w.db.orders);
    FlipMovesStatuses(w.db, x.o);
    match x
    case RefundTarget(o, seen) => RefundMovesStatuses(w.db, o, seen);
    case RefundRefused(o, seen) => RefundMovesStatuses(w.db, o, seen);
    case RefundAbsent(o, seen) => RefundMovesStatuses(w.db, o, seen);
    case PersistService(o, seen) =>
      DeliverMovesStatuses(w.db, o, q.service, ProvisionedService(o, seen, place(o).target.username, q.now));
    case AdoptAccount(o, seen, reading) =>
      DeliverMovesStatuses(w.db, o, q.service, AdoptedService(o, seen, place(o).target.username, reading));
    case _ =>
  }

  lemma StepMovesStatuses(init: map<Id, int>, place: Places, w: World, e: Event)
    requires Base(init, place, w)
    ensures StatusesMove(w.db.orders, Step(place, w, e).db.orders)
    ensures !e.Settle? ==> Step(place, w, e).db.orders.Keys == w.db.orders.Keys
  {
    hide Base, DbInv, StatusesMove, AdvanceProc, CrashProc, SettleTx, ServicesOwned, LocksSound, Knows;
    StatusesStay(w.db.orders);
    BaseParts(init, place, w);
    match e
    case Advance(p, q) =>
      if p in w.procs && AtTarget(place, w.procs[p]) {
        AdvanceMovesStatuses(place, w, p, q);
        AdvanceKeepsOrders(place, w, p, q);
      }
    case Crash(p, fate) => if p in w.procs && AtTarget(place, w.procs[p]) { CrashShape(place, w, p, fate); }
    case Settle(r, fp, ids, now, expiresAt, held) =>
      if FreshIds(w.db, ids) && Priced(r) {
        MoneyOf(init, w.db);
        SettleAddsOrder(init, w.db, r, fp, ids, now, expiresAt, held);
        OneMoreMoves(w.db, SettleTx(w.db, r, fp, ids, now, expiresAt, held).0, ids.order);
      }
    case _ =>
  }

  lemma OneMoreMoves(db: Db, db': Db, o: Id)
    requires db' == db || OneMoreOrder(db, db', o)
    ensures StatusesMove(db.orders, db'.orders)
  {
  }

  lemma AdvanceKeepsOrders(place: Places, w: World, p: Id, q: Oracle)
    requires p in w.procs && AtTarget(place, w.procs[p])
    ensures AdvanceProc(place, w, p, q).db.orders.Keys == w.db.orders.Keys
  {
    hide Looked, ProvisionedService, AdoptedService, RefundDefinite, ServicesOf;
    if Refunding(w.procs[p]) {
      RefundKeepsOrders(w.db, w.procs[p].o, w.procs[p].seen);
    }
  }

  lemma RefundKeepsOrders(db: Db, o: Id, seen: Order)
    ensures RefundDefinite(db, o, seen).0.orders.Keys == db.orders.Keys
  {
  }

  // ---- one call per order, in every run ------------------------------------------------------------------------

  /** Nothing is called for a PAID order; what is within reach was called for, once. */
  ghost predicate CallsSound(place: Places, w: World) {
    && (forall o: Id :: w.called[o] <= 1 && (w.called[o] > 0 ==> o in w.db.orders && !w.db.orders[o].status.Paid?))
    && (forall o: Id :: Reaches(place, w, o) ==> w.called[o] == 1)
  }

  /** Whoever is about to call is the first to. */
  ghost predicate First(w: World, x: Proc) {
    x.CallPanel? ==> w.called[x.o] == 0 && x.o in w.db.orders && !w.db.orders[x.o].status.Paid?
  }

  ghost predicate CallersFirst(w: World) {
    forall p :: p in w.procs ==> First(w, w.procs[p])
  }

  ghost predicate Called(init: map<Id, int>, place: Places, w: World) {
    CallsSound(place, w) && CallersFirst(w) && Base(init, place, w)
  }

  lemma OneCaller(place: Places, w: World, p: Id, q: Id)
    requires p in w.procs && q in w.procs && Holds(w.procs[p]) && Holds(w.procs[q]) && w.procs[p].o == w.procs[q].o
    requires LocksSound(place, w.locks, w.procs)
    ensures p == q
  {
  }

  lemma StepKeepsCalls(init: map<Id, int>, place: Places, w: World, e: Event)
    requires OneUsernamePerOrder(place) && Called(init, place, w)
    ensures CallsSound(place, Step(place, w, e))
  {
    hide Step, OneUsernamePerOrder, Base, Reaches, StatusesMove;
    StepMovesStatuses(init, place, w, e);
    var w' := Step(place, w, e);
    forall o: Id
      ensures w'.called[o] <= 1 && (w'.called[o] > 0 ==> o in w'.db.orders && !w'.db.orders[o].status.Paid?)
      ensures Reaches(place, w', o) ==> w'.called[o] == 1
    {
      ReachStays(place, w, e, o);
      StatusAt(w.db.orders, w'.db.orders, o);
    }
  }

  lemma StatusAt(orders: map<Id, Order>, orders': map<Id, Order>, o: Id)
    requires StatusesMove(orders, orders')
    ensures o in orders ==> o in orders' && (orders'[o].status.Paid? ==> orders[o].status.Paid?)
  {
  }

  /** Only the claim of a PAID order leads to a call. */
  lemma MoverCalls(place: Places, w: World, p: Id, q: Oracle)
    requires p in w.procs && AtTarget(place, w.procs[p])
    ensures var w' := AdvanceProc(place, w, p, q);
            p in w'.procs && w'.procs[p].o == w.procs[p].o && (w'.procs[p].CallPanel? ==>
              && w.procs[p].ClaimOrder? && w.procs[p].o in w.db.orders && w.db.orders[w.procs[p].o].status.Paid?
              && w.procs[p].o in w'.db.orders && !w'.db.orders[w.procs[p].o].status.Paid?)
  {
    hide RefundDefinite, Persist, Adopt, MarkCompleted, ClaimPaid, ProvisionedService, AdoptedService, Sent, StatusesMove, Looked;
    LookedElsewhere(place, w, w.procs[p], q);
    FlipMovesStatuses(w.db, w.procs[p].o);
  }

  lemma LookedElsewhere(place: Places, w: World, x: Proc, q: Oracle)
    ensures var x' := Looked(place, w, x, q);
            x'.o == x.o && ((x'.CallPanel? || x'.PersistService? || x'.RefundRefused?) ==> x' == x)
  {
    hide ServicesOf;
  }

  /** A caller that stays put is still the first: another call for its order would need its lock. */
  lemma CallerStaysFirst(init: map<Id, int>, place: Places, w: World, e: Event, p: Id)
    requires p in w.procs && p in Step(place, w, e).procs && Step(place, w, e).procs[p] == w.procs[p] && First(w, w.procs[p])
    requires OneUsernamePerOrder(place) && Base(init, place, w)
    ensures First(Step(place, w, e), w.procs[p])
  {
    hide Step, OneUsernamePerOrder, Base, Reaches, StatusesMove, DbInv, ServicesOwned, LocksSound, Knows;
    var w', o := Step(place, w, e), w.procs[p].o;
    BaseParts(init, place, w);
    ReachStays(place, w, e, o);
    StepMovesStatuses(init, place, w, e);
    StatusAt(w.db.orders, w'.db.orders, o);
    if MakesCall(place, w, e) && w.procs[e.p].o == o && w.procs[p].CallPanel? {
      OneCaller(place, w, p, e.p);
      CallersLeave(place, w, e);
    }
  }

  lemma OthersAreFirst(w: World, x: Proc)
    requires !x.CallPanel?
    ensures First(w, x)
  {
  }

  lemma MoverIsFirst(init: map<Id, int>, place: Places, w: World, p: Id, q: Oracle)
    requires p in w.procs && AtTarget(place, w.procs[p])
    requires OneUsernamePerOrder(place) && CallsSound(place, w)
    ensures var w' := Step(place, w, Advance(p, q)); p in w'.procs && First(w', w'.procs[p])
  {
    hide OneUsernamePerOrder, Reaches, AdvanceProc;
    MoverCalls(place, w, p, q);
    ReachStays(place, w, Advance(p, q), w.procs[p].o);
  }

  lemma StepKeepsCallers(init: map<Id, int>, place: Places, w: World, e: Event)
    requires OneUsernamePerOrder(place) && Called(init, place, w)
    ensures CallersFirst(Step(place, w, e))
  {
    var w' := Step(place, w, e);
    StepMovesOne(place, w, e);
    hide Step, OneUsernamePerOrder, Base, CallsSound, AdvanceProc, First;
    forall p | p in w'.procs ensures First(w', w'.procs[p]) {
      if !w'.procs[p].CallPanel? {
        OthersAreFirst(w', w'.procs[p]);
      } else if w'.procs[p] != w.procs[p] {
        MoverIsFirst(init, place, w, p, e.q);
        assert Step(place, w, Advance(p, e.q)) == w';
      } else {
        CallerStaysFirst(init, place, w, e, p);
      }
    }
  }

  /** Having called, a process is elsewhere. */
  lemma CallersLeave(place: Places, w: World, e: Event)
    requires MakesCall(place, w, e)
    ensures e.p in Step(place, w, e).procs ==> !Step(place, w, e).procs[e.p].CallPanel?
  {
    hide Sent;
  }

  lemma StepKeepsCalled(init: map<Id, int>, place: Places, w: World, e: Event)
    requires OneUsernamePerOrder(place) && Called(init, place, w)
    ensures Called(init, place, Step(place, w, e))
  {
    hide Step, OneUsernamePerOrder, Base, CallsSound, CallersFirst;
    StepKeepsBase(init, place, w, e);
    StepKeepsCalls(init, place, w, e);
    StepKeepsCallers(init, place, w, e);
  }

  /** Paid orders for which nothing was ever asked of a panel; no account is there under their usernames. */
  ghost predicate EffectsStart(init: map<Id, int>, place: Places, w: World) {
    Start(init, w) && w.called == multiset{} && forall o :: !Reaches(place, w, o)
  }

  lemma StartIsCalled(init: map<Id, int>, place: Places, w: World)
    requires EffectsStart(init, place, w)
    ensures Called(init, place, w) && Inv(init, place, w)
  {
    StartHasInv(init, place, w);
    Parts(init, place, w);
    hide DbInv, Base, Inv;
  }

  lemma {:induction false} RunKeepsCalled(init: map<Id, int>, place: Places, w: World, es: seq<Event>)
    requires OneUsernamePerOrder(place) && EffectsStart(init, place, w)
    ensures Called(init, place, Run(place, w, es))
    decreases |es|
  {
    StartIsCalled(init, place, w);
    hide EffectsStart, Called, Step, OneUsernamePerOrder;
    if es != [] {
      RunKeepsCalled(init, place, w, Front(es));
      StepKeepsCalled(init, place, Run(place, w, Front(es)), Last(es));
    }
  }

  /** In every run at all, one create request is sent per order at most, and an account is there only after one. */
  lemma AtMostOneCreate(init: map<Id, int>, place: Places, w: World, es: seq<Event>, o: Id)
    requires OneUsernamePerOrder(place) && EffectsStart(init, place, w)
    ensures var w' := Run(place, w, es); w'.called[o] <= 1 && (Reaches(place, w', o) ==> w'.called[o] == 1)
  {
    RunKeepsCalled(init, place, w, es);
    hide OneUsernamePerOrder, EffectsStart, Run, Base, CallersFirst, Reaches;
  }

  // ---- tables and panels agree -----------------------------------------------------------------------------------

  datatype Effect = Effect(services: set<Id>, refunds: nat, reaches: bool)

  function EffectOf(place: Places, w: World, o: Id): Effect {
    Effect(ServicesOf(w.db.services, o), Refunds(w.db.ledger, o), Reaches(place, w, o))
  }

  /** Delivered once, within the panel's reach; or refunded once, and out of it; or neither. */
  predicate Fair(v: Effect) {
    |v.services| + v.refunds <= 1 && (v.services != {} ==> v.reaches) && (v.refunds > 0 ==> !v.reaches)
  }

  ghost predicate AllFair(place: Places, w: World) {
    forall o :: o in w.db.orders ==> Fair(EffectOf(place, w, o))
  }

  /** A refund of an order whose account is there, or whose request is on its way. */
  ghost predicate LateRefund(place: Places, w: World, e: Event) {
    && e.Advance? && e.p in w.procs && Refunding(w.procs[e.p]) && AtTarget(place, w.procs[e.p])
    && w.procs[e.p].o in w.db.orders && Open(w.db.orders[w.procs[e.p].o].status) && Reaches(place, w, w.procs[e.p].o)
  }

  /** An adoption of an account that is not there and not on its way: the panel reported one that it does not have. */
  ghost predicate PhantomAdoption(place: Places, w: World, e: Event) {
    && e.Advance? && e.p in w.procs && w.procs[e.p].AdoptAccount? && AtTarget(place, w.procs[e.p])
    && e.q.service !in w.db.services && w.procs[e.p].o in w.db.orders
    && ServicesOf(w.db.services, w.procs[e.p].o) == {} && !Reaches(place, w, w.procs[e.p].o)
  }

  /** The steps that part the tables from the panels. */
  ghost predicate Astray(place: Places, w: World, e: Event) {
    StaleAdoption(place, w, e) || LateRefund(place, w, e) || PhantomAdoption(place, w, e)
  }

  ghost predicate NoneAstray(place: Places, w: World, es: seq<Event>)
    decreases |es|
  {
    es == [] || (NoneAstray(place, w, Front(es)) && !Astray(place, Run(place, w, Front(es)), Last(es)))
  }

  /** Whoever is about to store a created service has its account on the panel. */
  ghost predicate PersistersLanded(place: Places, w: World) {
    forall p :: p in w.procs && w.procs[p].PersistService? ==>
      place(w.procs[p].o).At? && place(w.procs[p].o).target in w.accounts
  }

  // ---- who refunds and who delivers ---------------------------------------------------------------------------------

  predicate MayCredit(w: World, e: Event, o: Id) {
    e.Advance? && e.p in w.procs && Refunding(w.procs[e.p]) && w.procs[e.p].o == o && o in w.db.orders && Open(w.db.orders[o].status)
  }

  predicate MayDeliver(w: World, e: Event, o: Id) {
    && e.Advance? && e.p in w.procs && (w.procs[e.p].PersistService? || w.procs[e.p].AdoptAccount?) && w.procs[e.p].o == o
    && o in w.db.orders && ServicesOf(w.db.services, o) == {} && e.q.service !in w.db.services
  }

  lemma RefundCreditsOne(db: Db, o: Id, seen: Order, x: Id)
    ensures Refunds(RefundDefinite(db, o, seen).0.ledger, x) == Refunds(db.ledger, x)
            || (x == o && o in db.orders && Open(db.orders[o].status))
    ensures RefundDefinite(db, o, seen).0.services == db.services
  {
    hide Refunds, Credited;
    var closed := if o in db.orders then WithStatus(db, o, Failed) else db;
    if seen.user in db.users {
      CreditCounts(db, o, seen);
      CreditCounts(closed, o, seen);
    }
  }

  lemma DeliverStoresOne(db: Db, o: Id, s: Id, service: Service, x: Id)
    requires service.order == Some(o) && s !in db.services
    ensures forall db' :: db' in {Persist(db, o, s, service), Adopt(db, o, s, service)} ==>
              && db'.ledger == db.ledger
              && (ServicesOf(db'.services, x) == ServicesOf(db.services, x) || (x == o && o in db.orders && ServicesOf(db.services, o) == {}))
  {
    ServicesGrow(db.services, s, service, x);
    hide ServicesOf, Refunds;
  }

  lemma AdvanceEffects(place: Places, w: World, p: Id, q: Oracle, o: Id)
    requires p in w.procs && AtTarget(place, w.procs[p])
    ensures var db', e := AdvanceProc(place, w, p, q).db, Advance(p, q);
            && (Refunds(db'.ledger, o) == Refunds(w.db.ledger, o) || MayCredit(w, e, o))
            && (ServicesOf(db'.services, o) == ServicesOf(w.db.services, o) || MayDeliver(w, e, o))
  {
    hide RefundDefinite, Persist, Adopt, Looked, ProvisionedService, AdoptedService, ServicesOf, Refunds;
    var x := w.procs[p];
    match x
    case RefundTarget(_, seen) => RefundCreditsOne(w.db, x.o, seen, o);
    case RefundRefused(_, seen) => RefundCreditsOne(w.db, x.o, seen, o);
    case RefundAbsent(_, seen) => RefundCreditsOne(w.db, x.o, seen, o);
    case PersistService(_, seen) =>
      if q.service !in w.db.services {
        ServiceNamesOrder(x.o, seen, place(x.o).target.username, q.now, Reading(None, None, None, None));
        DeliverStoresOne(w.db, x.o, q.service, ProvisionedService(x.o, seen, place(x.o).target.username, q.now), o);
      }
    case AdoptAccount(_, seen, reading) =>
      if q.service !in w.db.services {
        ServiceNamesOrder(x.o, seen, place(x.o).target.username, 0, reading);
        DeliverStoresOne(w.db, x.o, q.service, AdoptedService(x.o, seen, place(x.o).target.username, reading), o);
      }
    case _ =>
  }

  lemma StepEffects(init: map<Id, int>, place: Places, w: World, e: Event, o: Id)
    requires Base(init, place, w)
    ensures var db' := Step(place, w, e).db;
            && (Refunds(db'.ledger, o) == Refunds(w.db.ledger, o) || MayCredit(w, e, o))
            && (ServicesOf(db'.services, o) == ServicesOf(w.db.services, o) || MayDeliver(w, e, o))
  {
    hide Base, DbInv, AdvanceProc, CrashProc, SettleTx, ServicesOwned, LocksSound, Knows, MayCredit, MayDeliver, ServicesOf, Refunds;
    BaseParts(init, place, w);
    match e
    case Advance(p, q) => if p in w.procs && AtTarget(place, w.procs[p]) { AdvanceEffects(place, w, p, q, o); }
    case Crash(p, fate) => if p in w.procs && AtTarget(place, w.procs[p]) { CrashShape(place, w, p, fate); }
    case Settle(r, fp, ids, now, expiresAt, held) =>
      if FreshIds(w.db, ids) && Priced(r) {
        MoneyOf(init, w.db);
        SettleAddsOrder(init, w.db, r, fp, ids, now, expiresAt, held);
      }
    case _ =>
  }

  // ---- fair orders stay fair ---------------------------------------------------------------------------------------

  /** What the tables know of an order that is open, or finished. */
  lemma OrderEffect(init: map<Id, int>, place: Places, w: World, o: Id)
    requires o in w.db.orders
    requires Inv(init, place, w)
    ensures var v := EffectOf(place, w, o);
            && |v.services| + v.refunds <= 1
            && (Open(w.db.orders[o].status) ==> v.services == {} && v.refunds == 0)
            && (w.db.orders[o].status.Failed? ==> v.refunds == 1) && (w.db.orders[o].status.Completed? ==> |v.services| == 1)
  {
    hide Base, ProcsInv, ServicesOf, Refunds, Reaches;
  }

  lemma CallerUnsettled(init: map<Id, int>, place: Places, w: World, p: Id)
    requires p in w.procs && w.procs[p].CallPanel?
    requires Inv(init, place, w)
    ensures w.procs[p].o in w.db.orders && Open(w.db.orders[w.procs[p].o].status)
  {
    hide Inv, ServicesOf, Refunds;
    SoundAt(init, place, w, p);
  }

  lemma StepIsFair(init: map<Id, int>, place: Places, w: World, e: Event, o: Id)
    requires o in w.db.orders && Fair(EffectOf(place, w, o)) && !Astray(place, w, e) && PersistersLanded(place, w)
    requires o in Step(place, w, e).db.orders && Inv(init, place, Step(place, w, e))
    requires OneUsernamePerOrder(place) && Inv(init, place, w)
    ensures Fair(EffectOf(place, Step(place, w, e), o))
  {
    hide Step, OneUsernamePerOrder, Inv, Base, ServicesOf, Refunds, StaleAdoption;
    OrderEffect(init, place, w, o);
    OrderEffect(init, place, Step(place, w, e), o);
    Parts(init, place, w);
    StepEffects(init, place, w, e, o);
    ReachStays(place, w, e, o);
    if MakesCall(place, w, e) { CallerUnsettled(init, place, w, e.p); }
    hide Reaches;
    AstrayAt(place, w, e, o);
    hide Astray, MakesCall, PersistersLanded;
  }

  /** What a step that does not go astray needs when it refunds or delivers. */
  lemma AstrayAt(place: Places, w: World, e: Event, o: Id)
    requires !Astray(place, w, e) && PersistersLanded(place, w)
    requires e.Advance? && e.p in w.procs ==> AtTarget(place, w.procs[e.p])
    ensures MayCredit(w, e, o) ==> !Reaches(place, w, o)
    ensures MayDeliver(w, e, o) ==> Reaches(place, w, o)
  {
    hide ServicesOf;
  }

  lemma NewIsFair(init: map<Id, int>, place: Places, w: World, o: Id)
    requires o in w.db.orders && Open(w.db.orders[o].status)
    requires Inv(init, place, w)
    ensures Fair(EffectOf(place, w, o))
  {
    hide Inv, ServicesOf, Refunds, Reaches;
    OrderEffect(init, place, w, o);
  }

  lemma AllStayFair(init: map<Id, int>, place: Places, w: World, e: Event)
    requires AllFair(place, w) && !Astray(place, w, e) && PersistersLanded(place, w)
    requires Inv(init, place, Step(place, w, e))
    requires OneUsernamePerOrder(place) && Inv(init, place, w)
    ensures AllFair(place, Step(place, w, e))
  {
    hide OneUsernamePerOrder, Inv, Astray, PersistersLanded, Fair, EffectOf;
    NewOrdersArePaid(init, place, w, e);
    hide Step;
    forall o | o in Step(place, w, e).db.orders ensures Fair(EffectOf(place, Step(place, w, e), o)) {
      if o in w.db.orders {
        StepIsFair(init, place, w, e, o);
      } else {
        NewIsFair(init, place, Step(place, w, e), o);
      }
    }
  }

  lemma NewOrdersArePaid(init: map<Id, int>, place: Places, w: World, e: Event)
    requires Inv(init, place, w)
    ensures forall o :: o in Step(place, w, e).db.orders && o !in w.db.orders ==> Step(place, w, e).db.orders[o].status.Paid?
  {
    hide Inv, Base, DbInv, AdvanceProc, CrashProc, SettleTx, ServicesOwned, LocksSound, Knows, StatusesMove;
    Parts(init, place, w);
    StepMovesStatuses(init, place, w, e);
    BaseParts(init, place, w);
    if e.Settle? && FreshIds(w.db, e.ids) && Priced(e.r) {
      MoneyOf(init, w.db);
      SettleAddsOrder(init, w.db, e.r, e.fp, e.ids, e.now, e.expiresAt, e.held);
    }
  }

  lemma CreatedLands(place: Places, w: World, p: Id, q: Oracle)
    requires p in w.procs && AtTarget(place, w.procs[p])
    requires p in AdvanceProc(place, w, p, q).procs && AdvanceProc(place, w, p, q).procs[p].PersistService? && !w.procs[p].PersistService?
    ensures w.procs[p].CallPanel? && q.create.Created?
  {
    hide RefundDefinite, Persist, Adopt, MarkCompleted, ClaimPaid, ProvisionedService, AdoptedService, Sent, Looked;
    LookedElsewhere(place, w, w.procs[p], q);
  }

  lemma AccountsGrow(place: Places, w: World, e: Event)
    ensures w.accounts <= Step(place, w, e).accounts
  {
    hide AdvanceProc, SettleTx, FateOf;
    if e.Advance? && e.p in w.procs && AtTarget(place, w.procs[e.p]) {
      AdvanceMovesPanels(place, w, e.p, e.q);
    }
  }

  lemma MoverLanded(place: Places, w: World, p: Id, q: Oracle)
    requires p in w.procs && AtTarget(place, w.procs[p]) && (w.procs[p].PersistService? ==> place(w.procs[p].o).target in w.accounts)
    ensures var w' := AdvanceProc(place, w, p, q);
            p in w'.procs && (w'.procs[p].PersistService? ==> place(w'.procs[p].o).At? && place(w'.procs[p].o).target in w'.accounts)
  {
    hide AdvanceProc;
    MoverCalls(place, w, p, q);
    AdvanceMovesLock(place, w, p, q);
    AdvanceMovesPanels(place, w, p, q);
    if AdvanceProc(place, w, p, q).procs[p].PersistService? && !w.procs[p].PersistService? {
      CreatedLands(place, w, p, q);
    }
  }

  lemma PersistersStayLanded(place: Places, w: World, e: Event)
    requires PersistersLanded(place, w)
    ensures PersistersLanded(place, Step(place, w, e))
  {
    var w' := Step(place, w, e);
    AccountsGrow(place, w, e);
    StepMovesOne(place, w, e);
    hide Step, AdvanceProc;
    forall p | p in w'.procs && w'.procs[p].PersistService?
      ensures place(w'.procs[p].o).At? && place(w'.procs[p].o).target in w'.accounts
    {
      if w'.procs[p] != w.procs[p] {
        MoverLanded(place, w, p, e.q);
      }
    }
  }

  /** The tables and the panels stay in step. */
  ghost predicate Agreed(init: map<Id, int>, place: Places, w: World) {
    PersistersLanded(place, w) && AllFair(place, w) && Inv(init, place, w)
  }

  lemma StepStaysAgreed(init: map<Id, int>, place: Places, w: World, e: Event)
    requires !Astray(place, w, e)
    requires OneUsernamePerOrder(place) && Agreed(init, place, w)
    ensures Agreed(init, place, Step(place, w, e))
  {
    hide Step, OneUsernamePerOrder, Inv, AllFair, PersistersLanded, StaleAdoption, LateRefund, PhantomAdoption;
    PersistersStayLanded(place, w, e);
    StepKeepsInv(init, place, w, e);
    AllStayFair(init, place, w, e);
  }

  // ---- what has gone astray stays astray ------------------------------------------------------------------------------

  /** Not PAID, and nobody about to call: no request will ever be sent for this order again. */
  ghost predicate Closed(w: World, o: Id) {
    && o in w.db.orders && !w.db.orders[o].status.Paid?
    && forall p :: p in w.procs && w.procs[p].o == o ==> !w.procs[p].CallPanel?
  }

  predicate Twofold(v: Effect) {
    |v.services| + v.refunds >= 2 || (v.refunds > 0 && v.reaches)
  }

  ghost predicate Blemish(place: Places, w: World, o: Id) {
    o in w.db.orders &&
    (Twofold(EffectOf(place, w, o)) || (EffectOf(place, w, o).services != {} && !Reaches(place, w, o) && Closed(w, o)))
  }

  /** Something that no later step can mend. */
  ghost predicate Blemished(place: Places, w: World) {
    exists o :: Blemish(place, w, o)
  }

  lemma ClosedStays(init: map<Id, int>, place: Places, w: World, e: Event, o: Id)
    requires Closed(w, o)
    requires OneUsernamePerOrder(place) && Base(init, place, w)
    ensures Closed(Step(place, w, e), o) && Reaches(place, Step(place, w, e), o) == Reaches(place, w, o)
  {
    var w' := Step(place, w, e);
    StepMovesOne(place, w, e);
    hide Step, OneUsernamePerOrder, Base, Reaches, StatusesMove, AdvanceProc;
    ReachStays(place, w, e, o);
    StepMovesStatuses(init, place, w, e);
    StatusAt(w.db.orders, w'.db.orders, o);
    forall p | p in w'.procs && w'.procs[p].o == o ensures !w'.procs[p].CallPanel? {
      if p in w.procs && w'.procs[p] != w.procs[p] {
        MoverCalls(place, w, p, e.q);
      }
    }
  }

  lemma EffectGrows(db: Db, db': Db, o: Id)
    requires Grows(db, db')
    ensures ServicesOf(db.services, o) <= ServicesOf(db'.services, o) && Refunds(db.ledger, o) <= Refunds(db'.ledger, o)
    ensures |ServicesOf(db.services, o)| <= |ServicesOf(db'.services, o)| && db.orders.Keys <= db'.orders.Keys
  {
    assert ServicesOf(db.services, o) <= ServicesOf(db'.services, o);
    hide ServicesOf, Refunds;
    FewerServices(ServicesOf(db.services, o), ServicesOf(db'.services, o));
  }

  lemma BlemishStays(init: map<Id, int>, place: Places, w: World, e: Event)
    requires Blemished(place, w)
    requires OneUsernamePerOrder(place) && Base(init, place, w)
    ensures Blemished(place, Step(place, w, e))
  {
    hide Step, OneUsernamePerOrder, Base, Closed, Reaches, ServicesOf, Refunds, Grows;
    StepGrows(init, place, w, e);
    var o :| Blemish(place, w, o);
    EffectGrows(w.db, Step(place, w, e).db, o);
    ReachStays(place, w, e, o);
    if Closed(w, o) { ClosedStays(init, place, w, e, o); }
    assert Blemish(place, Step(place, w, e), o);
  }

  lemma StaleBlemishes(init: map<Id, int>, place: Places, w: World, e: Event)
    requires StaleAdoption(place, w, e)
    requires Inv(init, place, w)
    ensures Blemish(place, Step(place, w, e), w.procs[e.p].o)
  {
    hide Inv, AdoptedService, WithStatus, Step, ProcOk, Knows, Reaches, Closed;
    var x, t := w.procs[e.p], place(w.procs[e.p].o).target;
    SoundAt(init, place, w, e.p);
    ServiceNamesOrder(x.o, x.seen, t.username, 0, x.reading);
    AdoptsAnyway(place, w, e);
    DeliverViews(w.db, x.o, e.q.service, AdoptedService(x.o, x.seen, t.username, x.reading));
    hide ServicesOf, Refunds, StaleAdoption;
  }

  lemma LateBlemishes(init: map<Id, int>, place: Places, w: World, e: Event)
    requires LateRefund(place, w, e)
    requires OneUsernamePerOrder(place) && Inv(init, place, w)
    ensures Blemish(place, Step(place, w, e), w.procs[e.p].o)
  {
    hide Inv, Base, DbInv, ServicesOwned, LocksSound, OrdersInv, ProcsInv, Step, OneUsernamePerOrder, OrderOk, ProcOk, RefundAdvance;
    var x := w.procs[e.p];
    Parts(init, place, w);
    BaseParts(init, place, w);
    SoundAt(init, place, w, e.p);
    KnownOrder(place, w.db.orders, x);
    hide Knows;
    RefundShape(w, e.p);
    RefundsHere(place, w, e);
    hide RefundDefinite;
    RefundViews(init, w.db, x.o, x.seen);
    ReachStays(place, w, e, x.o);
    hide ServicesOf, Refunds, Reaches, Closed;
  }

  lemma RefundsHere(place: Places, w: World, e: Event)
    requires LateRefund(place, w, e)
    ensures Step(place, w, e) == RefundAdvance(w, e.p)
  {
    hide RefundAdvance;
  }

  lemma PhantomBlemishes(init: map<Id, int>, place: Places, w: World, e: Event)
    requires PhantomAdoption(place, w, e)
    requires OneUsernamePerOrder(place) && Base(init, place, w)
    ensures Blemish(place, Step(place, w, e), w.procs[e.p].o)
  {
    hide Base, DbInv, ServicesOwned, AdoptedService, OneUsernamePerOrder, Knows, MakesCall, AdvanceProc;
    var x, t, w' := w.procs[e.p], place(w.procs[e.p].o).target, Step(place, w, e);
    var service := AdoptedService(x.o, x.seen, t.username, x.reading);
    ReachStays(place, w, e, x.o);
    AdoptsNow(place, w, e);
    ServiceNamesOrder(x.o, x.seen, t.username, 0, x.reading);
    DeliverViews(w.db, x.o, e.q.service, service);
    hide Step, Reaches, ServicesOf, Refunds, LocksSound, WithStatus;
    StepMovesOne(place, w, e);
    BaseParts(init, place, w);
    forall p | p in w'.procs && w'.procs[p].o == x.o ensures !w'.procs[p].CallPanel? {
      if p != e.p && w'.procs[p].CallPanel? {
        OneCaller(place, w, p, e.p);
      }
    }
    assert Closed(w', x.o);
  }

  lemma AdoptsNow(place: Places, w: World, e: Event)
    requires PhantomAdoption(place, w, e)
    ensures var x, t := w.procs[e.p], place(w.procs[e.p].o).target;
            var w' := Step(place, w, e);
            w'.db == WithStatus(w.db.(services := w.db.services[e.q.service := AdoptedService(x.o, x.seen, t.username, x.reading)]), x.o, Completed)
            && e.p in w'.procs && w'.procs[e.p].ReleaseLock? && !MakesCall(place, w, e)
  {
    hide AdoptedService, WithStatus, ServicesOf;
  }

  lemma AstrayBlemishes(init: map<Id, int>, place: Places, w: World, e: Event)
    requires Astray(place, w, e)
    requires OneUsernamePerOrder(place) && Inv(init, place, w)
    ensures Blemished(place, Step(place, w, e))
  {
    hide Step, Inv, OneUsernamePerOrder, Blemish, Base, ServicesOf, Reaches, AtTarget;
    Parts(init, place, w);
    if StaleAdoption(place, w, e) {
      StaleBlemishes(init, place, w, e);
    } else if LateRefund(place, w, e) {
      LateBlemishes(init, place, w, e);
    } else {
      PhantomBlemishes(init, place, w, e);
    }
  }

  // ---- every run ----------------------------------------------------------------------------------------------------------

  lemma StartIsAgreed(init: map<Id, int>, place: Places, w: World)
    requires EffectsStart(init, place, w)
    ensures Agreed(init, place, w)
  {
    StartIsCalled(init, place, w);
    forall o | o in w.db.orders ensures Fair(EffectOf(place, w, o)) {
      NewIsFair(init, place, w, o);
    }
    hide DbInv, Inv, Called, EffectOf;
  }

  lemma {:induction false} RunAgrees(init: map<Id, int>, place: Places, w: World, es: seq<Event>)
    requires OneUsernamePerOrder(place) && EffectsStart(init, place, w)
    ensures if NoneAstray(place, w, es) then Agreed(init, place, Run(place, w, es)) else Blemished(place, Run(place, w, es))
    decreases |es|
  {
    StartIsAgreed(init, place, w);
    assert Start(init, w);
    hide EffectsStart, Start, Agreed, Step, Astray, Blemished, OneUsernamePerOrder, Base;
    if es != [] {
      RunAgrees(init, place, w, Front(es));
      var before := Run(place, w, Front(es));
      if !NoneAstray(place, w, Front(es)) {
        RunKeepsBase(init, place, w, Front(es));
        BlemishStays(init, place, before, Last(es));
      } else if Astray(place, before, Last(es)) {
        AgreedParts(init, place, before);
        AstrayBlemishes(init, place, before, Last(es));
      } else {
        StepStaysAgreed(init, place, before, Last(es));
      }
    }
  }

  lemma AgreedParts(init: map<Id, int>, place: Places, w: World)
    requires Agreed(init, place, w)
    ensures PersistersLanded(place, w) && AllFair(place, w) && Inv(init, place, w)
  {
    hide PersistersLanded, AllFair, Inv;
  }

  /**
   In every run the tables are true of the panels: each order has its one service, with its account there or
   on its way, or its one refund, with no account there or on its way, or neither, if and only if no step
   refunded an order whose account was there or on its way, and no reconciler adopted an account that was
   neither, or one for an order that it had missed being closed.
   */
  lemma TablesMatchPanels(init: map<Id, int>, place: Places, w: World, es: seq<Event>)
    requires OneUsernamePerOrder(place) && EffectsStart(init, place, w)
    ensures AllFair(place, Run(place, w, es)) <==> NoneAstray(place, w, es)
  {
    RunAgrees(init, place, w, es);
    hide EffectsStart, OneUsernamePerOrder, Run, NoneAstray, Closed, Reaches, Inv, PersistersLanded, ServicesOf, Refunds;
    if !NoneAstray(place, w, es) {
      var o :| Blemish(place, Run(place, w, es), o);
      assert !Fair(EffectOf(place, Run(place, w, es), o));
    }
  }

  // ---- provisioners alone -----------------------------------------------------------------------------------------------------

  /** No reconciler starts, and what an adapter calls a definite refusal really left the panel alone. */
  predicate ProvisionerOnly(e: Event) {
    (e.Begin? ==> !e.sweep) && (e.Advance? && e.q.create.RefusedForCertain? ==> e.q.create.fate.Dropped?)
  }

  predicate ProvisionersOnly(es: seq<Event>) {
    forall i :: 0 <= i < |es| ==> ProvisionerOnly(es[i])
  }

  predicate Sweeping(x: Proc) {
    (x.ReadOrder? && x.sweep) || (x.AwaitLock? && x.sweep) || x.ReadPanel? || x.RefundAbsent? || x.AdoptAccount?
  }

  /** Not a reconciler, and right to refund if about to. */
  predicate Right(place: Places, w: World, x: Proc) {
    !Sweeping(x) && (Refunding(x) ==> !Reaches(place, w, x.o))
  }

  ghost predicate AllRight(place: Places, w: World) {
    forall p :: p in w.procs ==> Right(place, w, w.procs[p])
  }

  /** Who comes to refund: one whose order has no usable target, or one whose own request was refused. */
  lemma RefundersComeFrom(place: Places, w: World, p: Id, q: Oracle)
    requires p in w.procs && AtTarget(place, w.procs[p]) && !Sweeping(w.procs[p])
    ensures var x, w' := w.procs[p], AdvanceProc(place, w, p, q);
            && p in w'.procs && !Sweeping(w'.procs[p]) && w'.procs[p].o == x.o
            && (Refunding(w'.procs[p]) ==> (x.CallPanel? && q.create.RefusedForCertain?) || !place(x.o).At?)
  {
    hide RefundDefinite, Persist, Adopt, MarkCompleted, ClaimPaid, ProvisionedService, AdoptedService, Sent, Looked;
    if !Refunding(w.procs[p]) { LookersRefund(place, w, w.procs[p], q); }
  }

  lemma LookersRefund(place: Places, w: World, x: Proc, q: Oracle)
    requires !Sweeping(x) && !Refunding(x)
    ensures var x' := Looked(place, w, x, q); x'.o == x.o && !Sweeping(x') && (Refunding(x') ==> !place(x.o).At?)
  {
    hide ServicesOf;
  }

  lemma MoverIsRight(init: map<Id, int>, place: Places, w: World, p: Id, q: Oracle)
    requires p in w.procs && AtTarget(place, w.procs[p]) && Right(place, w, w.procs[p]) && ProvisionerOnly(Advance(p, q))
    requires OneUsernamePerOrder(place) && CallsSound(place, w) && CallersFirst(w)
    ensures var w' := Step(place, w, Advance(p, q)); p in w'.procs && Right(place, w', w'.procs[p])
  {
    hide OneUsernamePerOrder, AdvanceProc, Sent;
    var x, e, w' := w.procs[p], Advance(p, q), Step(place, w, Advance(p, q));
    RefundersComeFrom(place, w, p, q);
    ReachStays(place, w, e, x.o);
    if x.CallPanel? && Refunding(w'.procs[p]) {
      assert First(w, x);
      StepMovesPanels(place, w, e);
      SendReaches(place, w, x.o, Dropped);
      SamePanelsSameReach(place, Sent(w, x.o, place(x.o).target, Dropped), w');
    }
  }

  lemma BystanderIsRight(init: map<Id, int>, place: Places, w: World, e: Event, p: Id)
    requires p in w.procs && p in Step(place, w, e).procs && Step(place, w, e).procs[p] == w.procs[p] && Right(place, w, w.procs[p])
    requires OneUsernamePerOrder(place) && Base(init, place, w)
    ensures Right(place, Step(place, w, e), w.procs[p])
  {
    hide Step, OneUsernamePerOrder, Base, Reaches, DbInv, ServicesOwned, LocksSound;
    BaseParts(init, place, w);
    ReachStays(place, w, e, w.procs[p].o);
    if MakesCall(place, w, e) && w.procs[e.p].o == w.procs[p].o && Refunding(w.procs[p]) {
      OneCaller(place, w, p, e.p);
    }
  }

  lemma AllStayRight(init: map<Id, int>, place: Places, w: World, e: Event)
    requires AllRight(place, w) && ProvisionerOnly(e)
    requires OneUsernamePerOrder(place) && Called(init, place, w)
    ensures AllRight(place, Step(place, w, e))
  {
    var w' := Step(place, w, e);
    StepMovesOne(place, w, e);
    BeginnersLook(place, w, e);
    hide Step, OneUsernamePerOrder, Base, CallsSound, CallersFirst, AdvanceProc, Right;
    forall p | p in w'.procs ensures Right(place, w', w'.procs[p]) {
      if p !in w.procs {
        LookerIsRight(place, w', w'.procs[p]);
      } else if w'.procs[p] != w.procs[p] {
        MoverIsRight(init, place, w, p, e.q);
        assert Step(place, w, Advance(p, e.q)) == w';
      } else {
        BystanderIsRight(init, place, w, e, p);
      }
    }
  }

  lemma BeginnersLook(place: Places, w: World, e: Event)
    ensures forall p :: p in Step(place, w, e).procs && p !in w.procs ==> e.Begin? && Step(place, w, e).procs[p] == ReadOrder(e.o, e.sweep)
  {
    StepMovesOne(place, w, e);
    hide AdvanceProc, CrashProc, SettleTx;
  }

  lemma LookerIsRight(place: Places, w: World, x: Proc)
    requires x.ReadOrder? && !x.sweep
    ensures Right(place, w, x)
  {
  }

  lemma RightIsNotAstray(place: Places, w: World, e: Event)
    requires AllRight(place, w)
    ensures !Astray(place, w, e)
  {
    hide Reaches, ServicesOf;
    if e.Advance? && e.p in w.procs {
      assert Right(place, w, w.procs[e.p]);
    }
  }

  lemma {:induction false} ProvisionersStayRight(init: map<Id, int>, place: Places, w: World, es: seq<Event>)
    requires OneUsernamePerOrder(place) && EffectsStart(init, place, w) && ProvisionersOnly(es)
    ensures NoneAstray(place, w, es) && AllRight(place, Run(place, w, es))
    decreases |es|
  {
    if es == [] {
      assert Run(place, w, es) == w;
      hide DbInv, Right;
    } else {
      ProvisionersStayRight(init, place, w, Front(es));
      RunKeepsCalled(init, place, w, Front(es));
      hide EffectsStart, Step, Called, OneUsernamePerOrder, Astray, AllRight;
      var before := Run(place, w, Front(es));
      assert ProvisionerOnly(Last(es));
      RightIsNotAstray(place, before, Last(es));
      AllStayRight(init, place, before, Last(es));
    }
  }

  /**
   Provisioners alone, crashes and late requests included: a completed order has its one service, its money
   was kept, and its account is or may still come; a refunded order has no service and no account, and none
   can come; each order was called for once at most.
   */
  lemma ProvisionersDeliverOrRefund(init: map<Id, int>, place: Places, w: World, es: seq<Event>, o: Id)
    requires OneUsernamePerOrder(place) && EffectsStart(init, place, w) && ProvisionersOnly(es) && o in Run(place, w, es).db.orders
    ensures var w', v := Run(place, w, es), EffectOf(place, Run(place, w, es), o);
            match w'.db.orders[o].status
            case Paid => w'.called[o] == 0 && v == Effect({}, 0, false)
            case Provisioning => v.services == {} && v.refunds == 0
            case Completed => |v.services| == 1 && v.refunds == 0 && v.reaches
            case Failed => v == Effect({}, 1, false)
  {
    ProvisionersStayRight(init, place, w, es);
    RunAgrees(init, place, w, es);
    RunKeepsCalled(init, place, w, es);
    var w' := Run(place, w, es);
    AgreedParts(init, place, w');
    hide EffectsStart, OneUsernamePerOrder, Run, NoneAstray, Agreed, AllRight, Inv, Base, ServicesOf, Refunds, CallersFirst, Reaches;
    OrderEffect(init, place, w', o);
    assert Fair(EffectOf(place, w', o));
  }
}
