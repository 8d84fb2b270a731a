/**
 What the panel really did for each order, beside what the tables say. Calls are counted when they are
 made and again when they take effect; a call that is on its way may still take effect at any later time.
 */
module OperationEffects {
  import opened Wrappers
  import opened CommerceDb
  import opened Ledger
  import opened Settlement
  import opened Execution
  import opened Operations
  import opened OperationRuns

  ghost predicate OnItsWayFor(inflight: set<Call>, o: Id) {
    exists c :: c in inflight && c.o == o
  }

  /** A call of the order has taken effect on the panel, or still can. */
  ghost predicate Reaches(w: World, o: Id) {
    w.landed[o] > 0 || OnItsWayFor(w.inflight, o)
  }

  // ---- what holds in every run, spoilt or not -------------------------------------------------------------

  /** One call per order at most, which has landed, is on its way or is gone. */
  ghost predicate CallsSound(called: multiset<Id>, landed: multiset<Id>, inflight: set<Call>) {
    && (forall o: Id :: landed[o] <= called[o] <= 1)
    && (forall c :: c in inflight ==> called[c.o] == 1 && landed[c.o] == 0)
    && (forall c, d :: c in inflight && d in inflight && c.o == d.o ==> c == d)
  }

  /** Every process works on its order's own service; whoever is about to call is the first. */
  ghost predicate ProcKnows(orders: map<Id, Order>, called: multiset<Id>, x: Proc) {
    && x.o in orders && orders[x.o].service == Some(x.s)
    && (x.CallPanel? ==> called[x.o] == 0 && !orders[x.o].status.Paid?)
  }

  ghost predicate ProcsKnow(orders: map<Id, Order>, called: multiset<Id>, procs: map<Id, Proc>) {
    forall p :: p in procs ==> ProcKnows(orders, called, procs[p])
  }

  ghost predicate PaidUncalled(orders: map<Id, Order>, called: multiset<Id>) {
    forall o :: o in orders && orders[o].status.Paid? ==> called[o] == 0
  }

  ghost predicate Base(w: World) {
    && CallsSound(w.called, w.landed, w.inflight)
    && PaidUncalled(w.db.orders, w.called)
    && ProcsKnow(w.db.orders, w.called, w.procs)
    && LocksSound(w.locks, w.procs)
  }

  lemma BaseParts(w: World)
    requires Base(w)
    ensures CallsSound(w.called, w.landed, w.inflight) && PaidUncalled(w.db.orders, w.called)
    ensures ProcsKnow(w.db.orders, w.called, w.procs) && LocksSound(w.locks, w.procs)
  {
    hide CallsSound, PaidUncalled, ProcsKnow, LocksSound;
  }

  // ---- what one step changes in the tables --------------------------------------------------------------------

  /** Statuses may change, but no order becomes PAID again. */
  ghost predicate StatusesMove(orders: map<Id, Order>, orders': map<Id, Order>) {
    && orders'.Keys == orders.Keys
    && forall o :: o in orders ==> orders'[o].service == orders[o].service && (orders'[o].status.Paid? ==> orders[o].status.Paid?)
  }

  lemma OneStatusMoves(orders: map<Id, Order>, o: Id, status: OrderStatus)
    requires o in orders && !status.Paid?
    ensures StatusesMove(orders, orders[o := orders[o].(status := status)])
  {
  }

  lemma StatusesStay(orders: map<Id, Order>)
    ensures StatusesMove(orders, orders)
  {
  }

  lemma RefundMovesStatuses(db: Db, o: Id, seen: Order)
    ensures StatusesMove(db.orders, RefundDefinite(db, o, seen).0.orders)
  {
    hide StatusesMove;
    StatusesStay(db.orders);
    if o in db.orders {
      OneStatusMoves(db.orders, o, Failed);
    }
  }

  lemma ClaimMovesStatuses(db: Db, o: Id, s: Id, intent: IntentData)
    ensures StatusesMove(db.orders, ClaimOperation(db, o, s, intent).0.orders)
    ensures var (db', ok) := ClaimOperation(db, o, s, intent);
            ok ==> o in db.orders && db.orders[o].status.Paid? && o in db'.orders && db'.orders[o].status.Provisioning?
  {
    hide StatusesMove;
    StatusesStay(db.orders);
    if o in db.orders {
      OneStatusMoves(db.orders, o, Provisioning);
    }
  }

  lemma StoreMovesStatuses(db: Db, o: Id, s: Id, row: Service)
    ensures StatusesMove(db.orders, PersistOperation(db, o, s, row).orders)
    ensures StatusesMove(db.orders, CompleteReconciled(db, o, s, row).orders)
  {
    hide StatusesMove;
    StatusesStay(db.orders);
    if o in db.orders {
      OneStatusMoves(db.orders, o, Completed);
    }
  }

  lemma StepMovesStatuses(w: World, e: Event)
    ensures StatusesMove(w.db.orders, Step(w, e).db.orders)
  {
    hide RefundDefinite, ClaimOperation, CompleteReconciled, PersistOperation, Expected, AppliedRow, ReadRow;
    hide LastIntent, Decided, SweepJudged, Answered, FateOf, StatusesMove;
    StatusesStay(w.db.orders);
    if e.Advance? && e.p in w.procs {
      var x := w.procs[e.p];
      match x
      case RefundNow(_, _, _) => RefundMovesStatuses(w.db, x.o, x.seen);
      case ClaimOrder(_, _, _, _, _) => ClaimMovesStatuses(w.db, x.o, x.s, IntentOf(x.row, Expected(x.row, x.seen, x.now)));
      case PersistResult(_, _, _, _, _, _) =>
        if x.s in w.db.services {
          StoreMovesStatuses(w.db, x.o, x.s, AppliedRow(w.db.services[x.s], Expected(x.row, x.seen, x.now), x.answer));
        }
      case SweepComplete(_, _, _, _) =>
        if x.s in w.db.services {
          StoreMovesStatuses(w.db, x.o, x.s, ReadRow(w.db.services[x.s], x.reading));
        }
      case _ =>
    }
  }

  // ---- where a process stands afterwards ---------------------------------------------------------------------

  /** A lock is kept, taken when free, or dropped by its holder. */
  predicate LockMove(w: World, w': World, p: Id)
    requires p in w.procs && p in w'.procs
  {
    var x, x' := w.procs[p], w'.procs[p];
    && x'.o == x.o && x'.s == x.s
    && ((Holds(x') == Holds(x) && w'.locks == w.locks)
        || (!Holds(x) && Holds(x') && x.s !in w.locks && w'.locks == w.locks[x.s := p])
        || (Holds(x) && !Holds(x') && w'.locks == w.locks - {x.s}))
  }

  lemma CommitMovesLock(w: World, p: Id, q: Oracle)
    requires p in w.procs
    ensures w.procs[p].RefundNow? ==> LockMove(w, RefundAdvance(w, p, w.procs[p]), p)
    ensures w.procs[p].ClaimOrder? ==> LockMove(w, ClaimAdvance(w, p, w.procs[p]), p)
    ensures w.procs[p].PersistResult? ==> LockMove(w, PersistAdvance(w, p, w.procs[p], q.lost), p)
    ensures w.procs[p].SweepComplete? ==> LockMove(w, CompleteAdvance(w, p, w.procs[p]), p)
  {
    hide RefundDefinite, ClaimOperation, PersistOperation, CompleteReconciled, Expected, AppliedRow, ReadRow;
  }

  lemma AwaitMovesLock(w: World, p: Id, next: Proc, q: Oracle)
    requires p in w.procs && next.o == w.procs[p].o && next.s == w.procs[p].s && Holds(next)
    ensures w.procs[p].CallPanel? ==> LockMove(w, CallAdvance(w, p, w.procs[p], q.answer), p)
    ensures w.procs[p].AwaitLock? || w.procs[p].SweepAwait? ==> LockMove(w, AwaitAdvance(w, p, w.procs[p], next, q.giveUp), p)
  {
    hide CallOf, FateOf;
  }

  lemma LookMovesLock(w: World, p: Id, q: Oracle)
    requires p in w.procs
    ensures w.procs[p].Decide? ==> LockMove(w, Goto(w, p, Decided(w.db, w.procs[p].o, w.procs[p].s, q)), p)
    ensures w.procs[p].SweepRead? ==> LockMove(w, Goto(w, p, SweepJudged(w, w.procs[p], q)), p)
  {
    hide InvalidGrant, Judge;
  }

  lemma AdvanceMovesLock(w: World, p: Id, q: Oracle)
    requires p in w.procs
    ensures p in AdvanceProc(w, p, q).procs && LockMove(w, AdvanceProc(w, p, q), p)
    ensures AdvanceProc(w, p, q).procs[p].o == w.procs[p].o && AdvanceProc(w, p, q).procs[p].s == w.procs[p].s
  {
    hide Decided, SweepJudged, RefundAdvance, ClaimAdvance, PersistAdvance, CompleteAdvance, AwaitAdvance, CallAdvance;
    var x := w.procs[p];
    AdvanceMovesOne(w, p, q);
    CommitMovesLock(w, p, q);
    LookMovesLock(w, p, q);
    AwaitMovesLock(w, p, if x.SweepAwait? then SweepRead(x.o, x.s, x.seen, x.intent) else Decide(x.o, x.s), q);
  }

  lemma LockMoveKeepsLocks(w: World, w': World, p: Id)
    requires p in w.procs && MovedOne(w, w', p) && LockMove(w, w', p)
    requires LocksSound(w.locks, w.procs)
    ensures LocksSound(w'.locks, w'.procs)
  {
    var x, x' := w.procs[p], w'.procs[p];
    hide LocksSound, MovedOne;
    assert w'.procs == w.procs[p := x'] by { assert MovedOne(w, w', p); }
    if Holds(x') == Holds(x) {
      KeepLock(w, p, x');
    } else if Holds(x') {
      TakeLock(w, p, x');
    } else {
      DropLock(w, p, x');
    }
  }

  lemma StepKeepsLocks(w: World, e: Event)
    requires LocksSound(w.locks, w.procs)
    ensures LocksSound(Step(w, e).locks, Step(w, e).procs)
  {
    hide AdvanceProc, LastIntent, LocksSound, MovedOne, LockMove;
    match e
    case Begin(p, o) => if Step(w, e) != w { BeginKeepsLocks(w, p, Step(w, e).procs[p]); }
    case BeginSweep(p, o) => if Step(w, e) != w { BeginKeepsLocks(w, p, Step(w, e).procs[p]); }
    case Advance(p, q) =>
      if p in w.procs {
        AdvanceMovesOne(w, p, q);
        AdvanceMovesLock(w, p, q);
        LockMoveKeepsLocks(w, AdvanceProc(w, p, q), p);
      }
    case Crash(p, fate) =>
      if p in w.procs {
        CrashShape(w, p, fate);
        hide CrashProc;
        if Holds(w.procs[p]) {
          DropLock(w, p, Done(w.procs[p].o, w.procs[p].s, Busy));
        } else {
          IdleLeaves(w, p);
        }
      }
    case Late(_, _) =>
  }

  lemma BeginKeepsLocks(w: World, p: Id, x: Proc)
    requires p !in w.procs && !Holds(x) && LocksSound(w.locks, w.procs)
    ensures LocksSound(w.locks, w.procs[p := x])
  {
  }

  lemma IdleLeaves(w: World, p: Id)
    requires p in w.procs && !Holds(w.procs[p]) && LocksSound(w.locks, w.procs)
    ensures LocksSound(w.locks, w.procs - {p})
  {
  }

  // ---- the one step that makes a call -------------------------------------------------------------------------

  /** A process that is at the panel makes its call in this step, by an answer or by crashing. */
  predicate MakesCall(w: World, e: Event) {
    (e.Advance? || e.Crash?) && e.p in w.procs && w.procs[e.p].CallPanel?
  }

  function FateIn(e: Event): Fate
    requires e.Advance? || e.Crash?
  {
    if e.Crash? then e.fate else FateOf(e.q.answer)
  }

  /** The three counts of a world. */
  ghost predicate SamePanel(w: World, w': World) {
    w'.called == w.called && w'.landed == w.landed && w'.inflight == w.inflight
  }

  lemma StepMovesPanel(w: World, e: Event)
    ensures MakesCall(w, e) ==> SamePanel(Sent(w, CallOf(w.procs[e.p]), FateIn(e)), Step(w, e))
    ensures !MakesCall(w, e) && !e.Late? ==> SamePanel(w, Step(w, e))
    ensures e.Late? && e.c !in w.inflight ==> Step(w, e) == w
    ensures e.Late? && e.c in w.inflight ==> var w' := Step(w, e);
              w'.called == w.called && w'.landed == w.landed + multiset{e.c.o} && w'.inflight == w.inflight - {e.c} && w'.db == w.db
              && w'.procs == w.procs
  {
    hide RefundDefinite, ClaimOperation, CompleteReconciled, PersistOperation, Expected, AppliedRow, ReadRow;
    hide LastIntent, Decided, SweepJudged, Answered, FateOf, CallOf, ClaimedProc, Sent;
    if MakesCall(w, e) {
      CallMovesPanel(w, e);
    }
  }

  lemma CallMovesPanel(w: World, e: Event)
    requires MakesCall(w, e)
    ensures SamePanel(Sent(w, CallOf(w.procs[e.p]), FateIn(e)), Step(w, e))
  {
    hide Expected, Answered, FateOf, CallOf;
  }

  lemma SendKeepsCalls(w: World, c: Call, fate: Fate)
    requires CallsSound(w.called, w.landed, w.inflight) && w.called[c.o] == 0
    ensures var w' := Sent(w, c, fate); CallsSound(w'.called, w'.landed, w'.inflight)
    ensures forall o: Id :: Sent(w, c, fate).called[o] == w.called[o] + if o == c.o then 1 else 0
    ensures forall o :: o != c.o ==> Reaches(Sent(w, c, fate), o) == Reaches(w, o)
    ensures fate.Dropped? ==> Reaches(Sent(w, c, fate), c.o) == Reaches(w, c.o)
    ensures fate.Arrived? ==> Sent(w, c, fate).landed[c.o] == 1
    ensures !Reaches(w, c.o)
  {
    var w' := Sent(w, c, fate);
    forall o | o != c.o ensures Reaches(w', o) == Reaches(w, o) {
      if d :| d in w.inflight && d.o == o {
        assert d in w'.inflight;
      }
    }
  }

  lemma LandKeepsCalls(called: multiset<Id>, landed: multiset<Id>, inflight: set<Call>, c: Call)
    requires CallsSound(called, landed, inflight) && c in inflight
    ensures CallsSound(called, landed + multiset{c.o}, inflight - {c})
  {
  }

  lemma LandKeepsReach(w: World, w': World, c: Call, o: Id)
    requires CallsSound(w.called, w.landed, w.inflight) && c in w.inflight
    requires w'.landed == w.landed + multiset{c.o} && w'.inflight == w.inflight - {c}
    ensures Reaches(w', o) == Reaches(w, o)
  {
    if d :| d in w.inflight && d.o == o && o != c.o {
      assert d in w'.inflight;
    }
  }

  // ---- every step keeps the base --------------------------------------------------------------------------------

  lemma StepKeepsCalls(w: World, e: Event)
    requires Base(w)
    ensures var w' := Step(w, e); CallsSound(w'.called, w'.landed, w'.inflight)
    ensures forall o: Id :: Step(w, e).called[o] == w.called[o] + if MakesCall(w, e) && o == w.procs[e.p].o then 1 else 0
  {
    BaseParts(w);
    StepMovesPanel(w, e);
    hide Base, Step, CallsSound, PaidUncalled, LocksSound, Sent, CallOf, FateIn, Reaches;
    if MakesCall(w, e) {
      CallerKnows(w, e.p);
      CallOfOrder(w.procs[e.p]);
      SendKeepsCalls(w, CallOf(w.procs[e.p]), FateIn(e));
    } else if e.Late? && e.c in w.inflight {
      LandKeepsCalls(w.called, w.landed, w.inflight, e.c);
    }
  }

  lemma CallOfOrder(x: Proc)
    requires x.CallPanel?
    ensures CallOf(x).o == x.o && CallOf(x).s == x.s
  {
  }

  lemma CallerKnows(w: World, p: Id)
    requires p in w.procs && w.procs[p].CallPanel? && ProcsKnow(w.db.orders, w.called, w.procs)
    ensures w.procs[p].o in w.db.orders && w.called[w.procs[p].o] == 0 && !w.db.orders[w.procs[p].o].status.Paid?
  {
  }

  lemma StepKeepsUncalled(w: World, e: Event)
    requires Base(w)
    ensures PaidUncalled(Step(w, e).db.orders, Step(w, e).called)
  {
    BaseParts(w);
    StepKeepsCalls(w, e);
    StepMovesStatuses(w, e);
    hide Base, Step, CallsSound, LocksSound;
    if MakesCall(w, e) {
      CallerKnows(w, e.p);
    }
  }

  lemma KnowledgeStays(orders: map<Id, Order>, orders': map<Id, Order>, called: multiset<Id>, called': multiset<Id>, x: Proc)
    requires ProcKnows(orders, called, x) && StatusesMove(orders, orders')
    requires x.CallPanel? ==> called'[x.o] == called[x.o]
    ensures ProcKnows(orders', called', x)
  {
  }

  lemma KnowsAt(w: World, p: Id)
    requires p in w.procs
    requires Base(w)
    ensures ProcKnows(w.db.orders, w.called, w.procs[p])
  {
    hide CallsSound, PaidUncalled, ProcKnows, LocksSound;
  }

  /** A process that stays put knows what it knew, unless another calls for its order: that one would hold its lock. */
  lemma BystanderKnows(w: World, e: Event, p: Id)
    requires p in w.procs && !(MakesCall(w, e) && e.p == p)
    requires Base(w)
    ensures ProcKnows(Step(w, e).db.orders, Step(w, e).called, w.procs[p])
  {
    hide Step;
    StepKeepsCalls(w, e);
    StepMovesStatuses(w, e);
    BaseParts(w);
    KnowsAt(w, p);
    if MakesCall(w, e) && w.procs[p].CallPanel? && w.procs[p].o == w.procs[e.p].o {
      hide Base, CallsSound, PaidUncalled, StatusesMove;
      OneCaller(w, p, e.p);
    }
    hide Base, CallsSound, PaidUncalled, LocksSound, ProcsKnow, ProcKnows, StatusesMove;
    KnowledgeStays(w.db.orders, Step(w, e).db.orders, w.called, Step(w, e).called, w.procs[p]);
  }

  lemma OneCaller(w: World, p: Id, q: Id)
    requires p in w.procs && q in w.procs && Holds(w.procs[p]) && Holds(w.procs[q]) && w.procs[p].o == w.procs[q].o
    requires ProcsKnow(w.db.orders, w.called, w.procs) && LocksSound(w.locks, w.procs)
    ensures p == q
  {
  }

  /** Where a step leads its own process, as far as calls are concerned. */
  lemma MoverCalls(w: World, p: Id, q: Oracle)
    requires p in w.procs
    ensures var w' := AdvanceProc(w, p, q); p in w'.procs && (w'.procs[p].CallPanel? ==>
              && w.procs[p].ClaimOrder? && w.procs[p].o in w.db.orders && w.db.orders[w.procs[p].o].status.Paid?
              && w.procs[p].o in w'.db.orders && !w'.db.orders[w.procs[p].o].status.Paid? && w'.procs[p].o == w.procs[p].o)
  {
    hide RefundDefinite, ClaimOperation, CompleteReconciled, PersistOperation, Expected, AppliedRow, ReadRow;
    hide InvalidGrant, Judge, CallOf, FateOf, StatusesMove;
    if w.procs[p].ClaimOrder? {
      var x := w.procs[p];
      ClaimMovesStatuses(w.db, x.o, x.s, IntentOf(x.row, Expected(x.row, x.seen, x.now)));
    }
  }

  lemma MoverKnows(w: World, p: Id, q: Oracle)
    requires p in w.procs
    requires Base(w)
    ensures var w' := Step(w, Advance(p, q)); p in w'.procs && ProcKnows(w'.db.orders, w'.called, w'.procs[p])
  {
    hide AdvanceProc, LockMove;
    var e, w' := Advance(p, q), AdvanceProc(w, p, q);
    assert Step(w, e) == w';
    MoverCalls(w, p, q);
    AdvanceMovesLock(w, p, q);
    StepKeepsCalls(w, e);
    StepMovesStatuses(w, e);
    hide Step;
    BaseParts(w);
    KnowsAt(w, p);
    hide Base, CallsSound, ProcsKnow, LocksSound;
  }

  lemma BeginnerKnows(w: World, e: Event)
    requires (e.Begin? || e.BeginSweep?) && e.p !in w.procs && e.p in Step(w, e).procs
    ensures ProcKnows(Step(w, e).db.orders, Step(w, e).called, Step(w, e).procs[e.p])
  {
    hide LastIntent;
  }

  lemma StepKeepsKnowledge(w: World, e: Event)
    requires Base(w)
    ensures ProcsKnow(Step(w, e).db.orders, Step(w, e).called, Step(w, e).procs)
  {
    var w' := Step(w, e);
    if !e.Late? { StepMovesOne(w, e); }
    if e.Late? { StepMovesPanel(w, e); }
    if e.Crash? && e.p in w.procs { CrashShape(w, e.p, e.fate); }
    hide Base, ProcKnows, MakesCall, AdvanceProc, CrashProc, LastIntent;
    forall p | p in w'.procs ensures ProcKnows(w'.db.orders, w'.called, w'.procs[p]) {
      if !e.Late? && p == e.p {
        if p !in w.procs { BeginnerKnows(w, e); }
        else if e.Advance? { MoverKnows(w, p, e.q); }
        else { QuietKnows(w, e, p); }
      } else {
        QuietKnows(w, e, p);
      }
    }
  }

  lemma QuietKnows(w: World, e: Event, p: Id)
    requires p in w.procs && (e.Advance? || e.Crash? ==> e.p != p)
    requires Base(w)
    ensures ProcKnows(Step(w, e).db.orders, Step(w, e).called, w.procs[p])
  {
    hide Base, Step, ProcKnows;
    BystanderKnows(w, e, p);
  }

  lemma StepKeepsBase(w: World, e: Event)
    requires Base(w)
    ensures Base(Step(w, e))
  {
    StepKeepsCalls(w, e);
    StepKeepsUncalled(w, e);
    StepKeepsKnowledge(w, e);
    BaseParts(w);
    StepKeepsLocks(w, e);
    hide Step, CallsSound, PaidUncalled, ProcsKnow, LocksSound;
  }

  // ---- what an order came to ------------------------------------------------------------------------------------

  datatype Effect = Effect(applied: nat, refunds: nat, reaches: bool)

  ghost function EffectOf(w: World, o: Id): Effect {
    Effect(AppliedCount(w.db.events, o), Refunds(w.db.ledger, o), Reaches(w, o))
  }

  /** Applied once, with a call behind it; or refunded once, and out of the panel's reach; or neither. */
  predicate Fair(v: Effect) {
    v.applied + v.refunds <= 1 && (v.applied > 0 ==> v.reaches) && (v.refunds > 0 ==> !v.reaches)
  }

  ghost predicate AllFair(w: World) {
    forall o :: o in w.db.orders ==> Fair(EffectOf(w, o))
  }

  /** Whoever is about to store a result has been told that the call took effect. */
  ghost predicate PersistersLanded(landed: multiset<Id>, procs: map<Id, Proc>) {
    forall p :: p in procs && procs[p].PersistResult? ==> landed[procs[p].o] > 0
  }

  /** A refund of an order whose call has taken effect, or still can. */
  ghost predicate LateRefund(w: World, e: Event) {
    && e.Advance? && e.p in w.procs && w.procs[e.p].RefundNow?
    && w.procs[e.p].o in w.db.orders && Open(w.db.orders[w.procs[e.p].o].status) && Reaches(w, w.procs[e.p].o)
  }

  /** A reconciler's completion of an order whose call never took effect and no longer can. */
  ghost predicate FalseCompletion(w: World, e: Event) {
    && e.Advance? && e.p in w.procs && w.procs[e.p].SweepComplete?
    && w.procs[e.p].o in w.db.orders && w.procs[e.p].s in w.db.services && !Reaches(w, w.procs[e.p].o)
  }

  /** The steps that part the tables from the panel. */
  ghost predicate Astray(w: World, e: Event) {
    StaleCompletion(w, e) || LateRefund(w, e) || FalseCompletion(w, e)
  }

  ghost predicate NoneAstray(w: World, es: seq<Event>)
    decreases |es|
  {
    es == [] || (NoneAstray(w, Front(es)) && !Astray(Run(w, Front(es)), Last(es)))
  }

  // ---- fair orders stay fair --------------------------------------------------------------------------------------

  lemma SamePanelSameReach(w: World, w': World, o: Id)
    requires SamePanel(w, w')
    ensures Reaches(w', o) == Reaches(w, o)
  {
  }

  lemma RefundedEffects(init: map<Id, int>, w: World, p: Id)
    requires p in w.procs && w.procs[p].RefundNow?
    requires Inv(init, w)
    ensures var x, db' := w.procs[p], RefundDefinite(w.db, w.procs[p].o, w.procs[p].seen).0;
            && x.o in w.db.orders && db'.events == w.db.events
            && forall o :: Refunds(db'.ledger, o) ==
                 Refunds(w.db.ledger, o) + if o == x.o && Open(w.db.orders[x.o].status) then 1 else 0
  {
    Parts(init, w);
    SoundAt(init, w, p);
    var x := w.procs[p];
    RefundKeepsEvents(w.db, x.o, x.seen);
    hide Inv, DbInv, OrdersInv, ProcsInv, LocksSound, RefundDefinite;
    RefundOutcome(init, w.db, x.o, x.seen);
  }

  lemma StoredEffects(db: Db, o: Id, s: Id, row: Service)
    ensures CompleteReconciled(db, o, s, row).ledger == db.ledger && PersistOperation(db, o, s, row).ledger == db.ledger
    ensures forall x :: AppliedCount(CompleteReconciled(db, o, s, row).events, x) == AppliedCount(db.events, x) + if x == o then 1 else 0
    ensures forall x :: AppliedCount(PersistOperation(db, o, s, row).events, x) == AppliedCount(db.events, x) + if x == o then 1 else 0
  {
    AppendEvent(db.events, ServiceEvent(Applied, s, o, None));
  }

  /** The step whose transaction, if any, concerns this process's order. */
  predicate Commits(w: World, e: Event) {
    e.Advance? && e.p in w.procs && (w.procs[e.p].RefundNow? || w.procs[e.p].PersistResult? || w.procs[e.p].SweepComplete?)
  }

  lemma OtherStepsKeepLogs(w: World, e: Event)
    requires !Commits(w, e)
    ensures var db' := Step(w, e).db; db'.ledger == w.db.ledger && forall o :: AppliedCount(db'.events, o) == AppliedCount(w.db.events, o)
  {
    hide ClaimOperation, Expected, LastIntent, Decided, SweepJudged, AppliedCount;
    if e.Advance? && e.p in w.procs && w.procs[e.p].ClaimOrder? {
      var x := w.procs[e.p];
      ClaimKeepsLogs(w.db, x.o, x.s, IntentOf(x.row, Expected(x.row, x.seen, x.now)));
    }
  }

  lemma ClaimKeepsLogs(db: Db, o: Id, s: Id, intent: IntentData)
    ensures var db' := ClaimOperation(db, o, s, intent).0;
            db'.ledger == db.ledger && forall x :: AppliedCount(db'.events, x) == AppliedCount(db.events, x)
  {
    AppendEvent(db.events, ServiceEvent(Intent, s, o, Some(intent)));
  }

  /** One order gains this many applied rows and refunds, the others none. */
  ghost predicate Adds(db: Db, db': Db, o: Id, applied: nat, refunds: nat) {
    forall x :: AppliedCount(db'.events, x) == AppliedCount(db.events, x) + (if x == o then applied else 0)
             && Refunds(db'.ledger, x) == Refunds(db.ledger, x) + (if x == o then refunds else 0)
  }

  /** How many applied rows and refunds this step is worth to its order. */
  function Worth(w: World, e: Event): (nat, nat)
    requires Commits(w, e) && w.procs[e.p].o in w.db.orders
  {
    var x := w.procs[e.p];
    if x.RefundNow? then (0, if Open(w.db.orders[x.o].status) then 1 else 0)
    else if x.s !in w.db.services || (x.PersistResult? && e.q.lost) then (0, 0)
    else (1, 0)
  }

  lemma PersistAdds(w: World, e: Event)
    requires Commits(w, e) && w.procs[e.p].PersistResult? && w.procs[e.p].o in w.db.orders
    ensures Adds(w.db, Step(w, e).db, w.procs[e.p].o, Worth(w, e).0, 0)
  {
    hide PersistOperation, Expected, AppliedRow, AppliedCount, Refunds;
    var x := w.procs[e.p];
    if x.s in w.db.services {
      StoredEffects(w.db, x.o, x.s, AppliedRow(w.db.services[x.s], Expected(x.row, x.seen, x.now), x.answer));
    }
  }

  lemma CompleteAdds(w: World, e: Event)
    requires Commits(w, e) && w.procs[e.p].SweepComplete? && w.procs[e.p].o in w.db.orders
    ensures Adds(w.db, Step(w, e).db, w.procs[e.p].o, Worth(w, e).0, 0)
  {
    hide CompleteReconciled, ReadRow, AppliedCount, Refunds;
    var x := w.procs[e.p];
    if x.s in w.db.services {
      StoredEffects(w.db, x.o, x.s, ReadRow(w.db.services[x.s], x.reading));
    }
  }

  lemma RefundAdds(init: map<Id, int>, w: World, e: Event)
    requires Commits(w, e) && w.procs[e.p].RefundNow?
    requires Inv(init, w)
    ensures w.procs[e.p].o in w.db.orders && Adds(w.db, Step(w, e).db, w.procs[e.p].o, 0, Worth(w, e).1)
  {
    hide Inv, RefundDefinite, AppliedCount, Refunds;
    RefundedEffects(init, w, e.p);
    RefundStepDb(w, e);
    hide Step;
  }

  lemma RefundStepDb(w: World, e: Event)
    requires e.Advance? && e.p in w.procs && w.procs[e.p].RefundNow?
    ensures Step(w, e).db == RefundDefinite(w.db, w.procs[e.p].o, w.procs[e.p].seen).0
  {
    hide RefundDefinite;
  }

  /** What a committing step adds to its own order, and to no other. */
  lemma CommitAdds(init: map<Id, int>, w: World, e: Event)
    requires Commits(w, e)
    requires Inv(init, w)
    ensures w.procs[e.p].o in w.db.orders && Adds(w.db, Step(w, e).db, w.procs[e.p].o, Worth(w, e).0, Worth(w, e).1)
  {
    hide Inv, Adds, Step, OrderOk, ProcOk;
    SoundAt(init, w, e.p);
    if w.procs[e.p].RefundNow? {
      RefundAdds(init, w, e);
    } else if w.procs[e.p].PersistResult? {
      PersistAdds(w, e);
    } else {
      CompleteAdds(w, e);
    }
  }

  lemma CommitEffects(init: map<Id, int>, w: World, e: Event, o: Id)
    requires Commits(w, e)
    requires Inv(init, w)
    ensures w.procs[e.p].o in w.db.orders
    ensures EffectOf(Step(w, e), o) ==
            if o != w.procs[e.p].o then EffectOf(w, o)
            else Effect(EffectOf(w, o).applied + Worth(w, e).0, EffectOf(w, o).refunds + Worth(w, e).1, EffectOf(w, o).reaches)
  {
    hide Inv, Worth, Step, AppliedCount, Refunds, Reaches;
    CommitAdds(init, w, e);
    StepMovesPanel(w, e);
    hide Sent, CallOf, FateIn;
    SamePanelSameReach(w, Step(w, e), o);
    hide SamePanel;
  }

  /** What the tables know of an order whose process is about to commit. */
  lemma BeforeCommit(init: map<Id, int>, w: World, e: Event)
    requires Commits(w, e)
    requires Inv(init, w)
    ensures w.procs[e.p].o in w.db.orders
    ensures var o := w.procs[e.p].o;
            && (Open(w.db.orders[o].status) ==> EffectOf(w, o).applied == 0 && EffectOf(w, o).refunds == 0)
            && (w.procs[e.p].PersistResult? ==> Open(w.db.orders[o].status))
  {
    hide Inv, AppliedCount, Refunds, Reaches;
    SoundAt(init, w, e.p);
  }

  lemma CommitIsFair(init: map<Id, int>, w: World, e: Event)
    requires Commits(w, e) && !Astray(w, e)
    requires PersistersLanded(w.landed, w.procs) && AllFair(w)
    requires Inv(init, w)
    ensures AllFair(Step(w, e))
  {
    hide Inv, Step, EffectOf, Astray, Fair, Worth;
    BeforeCommit(init, w, e);
    StepMovesStatuses(w, e);
    var x, w' := w.procs[e.p], Step(w, e);
    assert x.PersistResult? ==> w.landed[x.o] > 0;
    hide PersistersLanded;
    forall o | o in w'.db.orders ensures Fair(EffectOf(w', o)) {
      CommitEffects(init, w, e, o);
      if o == x.o { WorthIsFair(w, e); }
    }
  }

  lemma WorthIsFair(w: World, e: Event)
    requires Commits(w, e) && !Astray(w, e) && w.procs[e.p].o in w.db.orders
    requires w.procs[e.p].PersistResult? ==> w.landed[w.procs[e.p].o] > 0 && Open(w.db.orders[w.procs[e.p].o].status)
    requires Open(w.db.orders[w.procs[e.p].o].status) ==>
               EffectOf(w, w.procs[e.p].o).applied == 0 && EffectOf(w, w.procs[e.p].o).refunds == 0
    requires Fair(EffectOf(w, w.procs[e.p].o))
    ensures var v := EffectOf(w, w.procs[e.p].o); Fair(Effect(v.applied + Worth(w, e).0, v.refunds + Worth(w, e).1, v.reaches))
  {
    hide AppliedCount, Refunds;
  }

  lemma KeepsLogs(w: World, e: Event, o: Id)
    requires !Commits(w, e)
    ensures EffectOf(Step(w, e), o) == EffectOf(w, o).(reaches := Reaches(Step(w, e), o))
  {
    hide Step, AppliedCount, Refunds, Reaches;
    OtherStepsKeepLogs(w, e);
  }

  /** Only a call changes what an order's calls can reach. */
  lemma ReachStays(w: World, e: Event, o: Id)
    requires !(MakesCall(w, e) && w.procs[e.p].o == o)
    requires Base(w)
    ensures Reaches(Step(w, e), o) == Reaches(w, o)
  {
    hide Base, Step, CallsSound, PaidUncalled, LocksSound, Sent, CallOf, FateIn, Reaches;
    BaseParts(w);
    StepMovesPanel(w, e);
    if MakesCall(w, e) {
      CallerKnows(w, e.p);
      CallOfOrder(w.procs[e.p]);
      SendKeepsCalls(w, CallOf(w.procs[e.p]), FateIn(e));
      SamePanelSameReach(Sent(w, CallOf(w.procs[e.p]), FateIn(e)), Step(w, e), o);
    } else if e.Late? && e.c in w.inflight {
      LandKeepsReach(w, Step(w, e), e.c, o);
    } else if !e.Late? {
      SamePanelSameReach(w, Step(w, e), o);
    }
  }

  lemma CallerUnsettled(init: map<Id, int>, w: World, p: Id)
    requires p in w.procs && w.procs[p].CallPanel?
    requires Inv(init, w)
    ensures EffectOf(w, w.procs[p].o).applied == 0 && EffectOf(w, w.procs[p].o).refunds == 0
  {
    hide Inv, AppliedCount, Refunds, Reaches;
    SoundAt(init, w, p);
  }

  lemma QuietIsFair(init: map<Id, int>, w: World, e: Event)
    requires !Commits(w, e)
    requires Base(w) && AllFair(w)
    requires Inv(init, w)
    ensures AllFair(Step(w, e))
  {
    hide Inv, Base, Step, Commits;
    StepMovesStatuses(w, e);
    if MakesCall(w, e) { CallerUnsettled(init, w, e.p); }
    forall o | o in Step(w, e).db.orders ensures Fair(EffectOf(Step(w, e), o)) {
      KeepsLogs(w, e, o);
      if !(MakesCall(w, e) && w.procs[e.p].o == o) {
        ReachStays(w, e, o);
      }
      hide AppliedCount, Refunds, Reaches;
      assert Fair(EffectOf(w, o));
    }
  }

  lemma LandedGrows(w: World, e: Event)
    ensures forall o: Id :: w.landed[o] <= Step(w, e).landed[o]
  {
    hide Step;
    StepMovesPanel(w, e);
  }

  lemma PersisterWasTold(w: World, p: Id, q: Oracle)
    requires p in w.procs && p in AdvanceProc(w, p, q).procs && AdvanceProc(w, p, q).procs[p].PersistResult?
    ensures w.procs[p].CallPanel? && q.answer.Accepted? && AdvanceProc(w, p, q).procs[p].o == w.procs[p].o
  {
    hide RefundDefinite, ClaimOperation, CompleteReconciled, PersistOperation, Expected, AppliedRow, ReadRow;
    hide Decided, SweepJudged, CallOf, FateOf, Sent;
    LookerPersistsNothing(w, w.procs[p], q);
  }

  lemma LookerPersistsNothing(w: World, x: Proc, q: Oracle)
    ensures !Decided(w.db, x.o, x.s, q).PersistResult?
    ensures x.SweepRead? ==> !SweepJudged(w, x, q).PersistResult?
  {
    hide Judge, InvalidGrant;
  }

  lemma AcceptedLands(w: World, p: Id, q: Oracle)
    requires p in w.procs && p in Step(w, Advance(p, q)).procs && Step(w, Advance(p, q)).procs[p].PersistResult?
    ensures var w' := Step(w, Advance(p, q)); w'.procs[p].o == w.procs[p].o && w'.landed[w.procs[p].o] > 0
  {
    PersisterWasTold(w, p, q);
    StepMovesPanel(w, Advance(p, q));
    CallOfOrder(w.procs[p]);
    hide AdvanceProc, CallOf;
  }

  lemma PersistersStayLanded(w: World, e: Event)
    requires PersistersLanded(w.landed, w.procs)
    ensures PersistersLanded(Step(w, e).landed, Step(w, e).procs)
  {
    var w' := Step(w, e);
    LandedGrows(w, e);
    if !e.Late? { StepMovesOne(w, e); } else { StepMovesPanel(w, e); }
    BeginsElsewhere(w, e);
    hide Step;
    forall p | p in w'.procs && w'.procs[p].PersistResult? ensures w'.landed[w'.procs[p].o] > 0 {
      if e.Advance? && p == e.p && p in w.procs {
        AcceptedLands(w, p, e.q);
      } else {
        assert p in w.procs && w'.procs[p] == w.procs[p];
      }
    }
  }

  lemma BeginsElsewhere(w: World, e: Event)
    ensures (e.Begin? || e.BeginSweep?) && e.p !in w.procs && e.p in Step(w, e).procs ==>
              Step(w, e).procs[e.p].AwaitLock? || Step(w, e).procs[e.p].SweepAwait?
    ensures (e.Begin? || e.BeginSweep?) && e.p in w.procs ==> Step(w, e) == w
    ensures (e.Advance? || e.Crash?) && e.p !in w.procs ==> Step(w, e) == w
    ensures e.Crash? && e.p in w.procs ==> e.p !in Step(w, e).procs
  {
    hide LastIntent, AdvanceProc, CallOf;
  }

  /** The tables and the panel stay in step. */
  ghost predicate Agreed(init: map<Id, int>, w: World) {
    Base(w) && PersistersLanded(w.landed, w.procs) && AllFair(w) && Inv(init, w)
  }

  lemma StepStaysAgreed(init: map<Id, int>, w: World, e: Event)
    requires !Astray(w, e)
    requires Agreed(init, w)
    ensures Agreed(init, Step(w, e))
  {
    hide Step, Base, Inv, AllFair, PersistersLanded, StaleCompletion, LateRefund, FalseCompletion;
    StepKeepsBase(w, e);
    PersistersStayLanded(w, e);
    StepKeepsInv(init, w, e);
    if Commits(w, e) {
      CommitIsFair(init, w, e);
    } else {
      QuietIsFair(init, w, e);
    }
  }

  // ---- what has gone astray stays astray -----------------------------------------------------------------------------

  /** Not PAID, and nobody about to call: no call will ever be made for this order again. */
  ghost predicate Closed(w: World, o: Id) {
    && o in w.db.orders && !w.db.orders[o].status.Paid?
    && forall p :: p in w.procs && w.procs[p].o == o ==> !w.procs[p].CallPanel?
  }

  predicate Twofold(v: Effect) {
    v.applied + v.refunds >= 2 || (v.refunds > 0 && v.reaches)
  }

  ghost predicate Blemish(w: World, o: Id) {
    o in w.db.orders && (Twofold(EffectOf(w, o)) || (EffectOf(w, o).applied > 0 && !EffectOf(w, o).reaches && Closed(w, o)))
  }

  /** Something that no later step can mend. */
  ghost predicate Blemished(w: World) {
    exists o :: Blemish(w, o)
  }

  lemma ClosedStays(w: World, e: Event, o: Id)
    requires Closed(w, o)
    requires Base(w)
    ensures Closed(Step(w, e), o) && Reaches(Step(w, e), o) == Reaches(w, o)
  {
    var w' := Step(w, e);
    ReachStays(w, e, o);
    StepMovesStatuses(w, e);
    if !e.Late? { StepMovesOne(w, e); } else { StepMovesPanel(w, e); }
    BeginsElsewhere(w, e);
    hide Base, Reaches;
    forall p | p in w'.procs && w'.procs[p].o == o ensures !w'.procs[p].CallPanel? {
      if e.Advance? && p == e.p && p in w.procs {
        MoverCalls(w, p, e.q);
        hide AdvanceProc;
      }
    }
  }

  lemma ReachGrows(w: World, e: Event, o: Id)
    requires Base(w)
    ensures Reaches(w, o) ==> Reaches(Step(w, e), o)
  {
    hide Step, Base;
    if MakesCall(w, e) && w.procs[e.p].o == o {
      BaseParts(w);
      StepMovesPanel(w, e);
      hide CallsSound, PaidUncalled, LocksSound, Sent, CallOf, FateIn, Reaches;
      CallerKnows(w, e.p);
      CallOfOrder(w.procs[e.p]);
      SendKeepsCalls(w, CallOf(w.procs[e.p]), FateIn(e));
    } else {
      ReachStays(w, e, o);
    }
  }

  lemma BlemishStays(w: World, e: Event)
    requires Blemished(w)
    requires Base(w)
    ensures Blemished(Step(w, e))
  {
    hide Step, Base, Closed, Reaches, AppliedCount, Refunds;
    StepGrows(w, e);
    var o :| Blemish(w, o);
    ReachGrows(w, e, o);
    if Closed(w, o) { ClosedStays(w, e, o); }
    assert Blemish(Step(w, e), o);
  }

  lemma AstrayBlemishes(init: map<Id, int>, w: World, e: Event)
    requires Astray(w, e)
    requires Base(w)
    requires Inv(init, w)
    ensures Blemished(Step(w, e))
  {
    hide Step, Base, Inv, Reaches, AppliedCount, Refunds, Closed, EffectOf, Twofold, Worth;
    var o, w' := w.procs[e.p].o, Step(w, e);
    StepMovesStatuses(w, e);
    BeforeCommit(init, w, e);
    CommitEffects(init, w, e, o);
    if StaleCompletion(w, e) {
      StaleCounts(init, w, e);
    } else if FalseCompletion(w, e) {
      FalselyClosed(w, e);
    }
    hide StatusesMove;
    WorthBlemishes(w, e, w');
    assert Blemish(w', o);
  }

  /** Any of the three leaves its order with a blemish. */
  lemma WorthBlemishes(w: World, e: Event, w': World)
    requires Astray(w, e) && w.procs[e.p].o in w'.db.orders
    requires var v, v' := EffectOf(w, w.procs[e.p].o), EffectOf(w', w.procs[e.p].o);
             v' == Effect(v.applied + Worth(w, e).0, v.refunds + Worth(w, e).1, v.reaches)
    requires StaleCompletion(w, e) ==> EffectOf(w, w.procs[e.p].o).applied + EffectOf(w, w.procs[e.p].o).refunds >= 1
    requires StaleCompletion(w, e) || !FalseCompletion(w, e) || Closed(w', w.procs[e.p].o)
    ensures Blemish(w', w.procs[e.p].o)
  {
    hide AppliedCount, Refunds, Closed;
  }

  lemma StaleCounts(init: map<Id, int>, w: World, e: Event)
    requires StaleCompletion(w, e)
    requires Inv(init, w)
    ensures EffectOf(w, w.procs[e.p].o).applied + EffectOf(w, w.procs[e.p].o).refunds >= 1
  {
    hide Inv, AppliedCount, Refunds, Reaches;
    SoundAt(init, w, e.p);
  }

  lemma FalselyClosed(w: World, e: Event)
    requires FalseCompletion(w, e)
    requires Base(w)
    ensures Closed(Step(w, e), w.procs[e.p].o)
  {
    var x, w' := w.procs[e.p], Step(w, e);
    StepMovesOne(w, e);
    CompletedNow(w, e);
    BaseParts(w);
    hide Base, Step, Reaches, CallsSound, PaidUncalled;
    forall p | p in w'.procs && w'.procs[p].o == x.o ensures !w'.procs[p].CallPanel? {
      if p != e.p && w.procs[p].CallPanel? {
        OneCaller(w, p, e.p);
      }
    }
  }

  lemma CompletedNow(w: World, e: Event)
    requires e.Advance? && e.p in w.procs && w.procs[e.p].SweepComplete?
    requires w.procs[e.p].o in w.db.orders && w.procs[e.p].s in w.db.services
    ensures var o, w' := w.procs[e.p].o, Step(w, e);
            && o in w'.db.orders && w'.db.orders[o].status.Completed? && e.p in w'.procs && w'.procs[e.p].ReleaseLock?
  {
    hide ReadRow;
  }

  // ---- every run ------------------------------------------------------------------------------------------------------

  /** Paid orders for which no call was ever made. */
  ghost predicate EffectsStart(init: map<Id, int>, w: World) {
    Start(init, w) && w.called == multiset{} && w.landed == multiset{} && w.inflight == {}
  }

  lemma StartIsAgreed(init: map<Id, int>, w: World)
    requires EffectsStart(init, w)
    ensures Agreed(init, w)
  {
    StartHasInv(init, w);
    hide DbInv, Inv;
  }

  lemma {:induction false} RunKeepsBase(init: map<Id, int>, w: World, es: seq<Event>)
    requires EffectsStart(init, w)
    ensures Base(Run(w, es))
    decreases |es|
  {
    StartIsAgreed(init, w);
    hide EffectsStart, Inv, Base, AllFair, PersistersLanded, Step;
    if es != [] {
      RunKeepsBase(init, w, Front(es));
      StepKeepsBase(Run(w, Front(es)), Last(es));
    }
  }

  /** In every run at all, each order makes one call to the panel at most, and it takes effect once at most. */
  lemma AtMostOneCall(init: map<Id, int>, w: World, es: seq<Event>, o: Id)
    requires EffectsStart(init, w)
    ensures var w' := Run(w, es); w'.landed[o] <= w'.called[o] <= 1
    ensures var w' := Run(w, es); OnItsWayFor(w'.inflight, o) ==> w'.called[o] == 1 && w'.landed[o] == 0
  {
    RunKeepsBase(init, w, es);
    hide EffectsStart, Run, LocksSound, ProcsKnow, PaidUncalled;
  }

  lemma {:induction false} RunVerdict(init: map<Id, int>, w: World, es: seq<Event>)
    requires EffectsStart(init, w)
    ensures if NoneAstray(w, es) then Agreed(init, Run(w, es)) else Blemished(Run(w, es))
    decreases |es|
  {
    StartIsAgreed(init, w);
    hide EffectsStart, Agreed, Step, Astray, Blemished;
    if es != [] {
      RunVerdict(init, w, Front(es));
      var before := Run(w, Front(es));
      if !NoneAstray(w, Front(es)) {
        RunKeepsBase(init, w, Front(es));
        BlemishStays(before, Last(es));
      } else if Astray(before, Last(es)) {
        AgreedParts(init, before);
        AstrayBlemishes(init, before, Last(es));
      } else {
        StepStaysAgreed(init, before, Last(es));
      }
    }
  }

  lemma AgreedParts(init: map<Id, int>, w: World)
    requires Agreed(init, w)
    ensures Base(w) && PersistersLanded(w.landed, w.procs) && AllFair(w) && Inv(init, w)
  {
    hide Base, PersistersLanded, AllFair, Inv;
  }

  /**
   In every run the tables are true of the panel: each order is applied once, with its one call landed or on
   its way, or refunded once, with no call landed or on its way, or neither, if and only if no step refunded
   an order whose call had landed or was on its way, and no reconciler completed one whose call was gone or
   whose status it had missed being closed.
   */
  lemma TablesMatchPanel(init: map<Id, int>, w: World, es: seq<Event>)
    requires EffectsStart(init, w)
    ensures AllFair(Run(w, es)) <==> NoneAstray(w, es)
  {
    RunVerdict(init, w, es);
    hide EffectsStart, Run, NoneAstray, Closed, Reaches, Base, Inv, PersistersLanded, AppliedCount, Refunds;
    if !NoneAstray(w, es) {
      var w' := Run(w, es);
      var o :| Blemish(w', o);
      assert !Fair(EffectOf(w', o));
    }
  }

  // ---- executors alone ---------------------------------------------------------------------------------------------------

  /** No reconciler starts, and what an adapter calls a definite refusal really left the panel alone. */
  predicate ExecutorOnly(e: Event) {
    !e.BeginSweep? && (e.Advance? && e.q.answer.RefusedForCertain? ==> e.q.answer.fate.Dropped?)
  }

  predicate ExecutorsOnly(es: seq<Event>) {
    forall i :: 0 <= i < |es| ==> ExecutorOnly(es[i])
  }

  predicate Sweeping(x: Proc) {
    x.SweepAwait? || x.SweepRead? || x.SweepComplete?
  }

  /** Nobody reconciles, and whoever is about to refund is right to. */
  ghost predicate RefundsAreRight(w: World) {
    forall p :: p in w.procs ==> !Sweeping(w.procs[p]) && (w.procs[p].RefundNow? ==> !Reaches(w, w.procs[p].o))
  }

  lemma RefundersStandHere(w: World, p: Id, q: Oracle)
    requires p in w.procs && !Sweeping(w.procs[p]) && p in AdvanceProc(w, p, q).procs
    ensures var x, x' := w.procs[p], AdvanceProc(w, p, q).procs[p];
            && !Sweeping(x')
            && (x'.RefundNow? ==> x'.o == x.o && ((x.Decide? && x.o in w.db.orders && w.db.orders[x.o].status.Paid?)
                                                  || (x.CallPanel? && q.answer.RefusedForCertain?)))
  {
    hide RefundDefinite, ClaimOperation, CompleteReconciled, PersistOperation, Expected, AppliedRow, ReadRow;
    hide Decided, SweepJudged, CallOf, FateOf, Sent;
    DeciderRefundsPaid(w.db, w.procs[p].o, w.procs[p].s, q);
  }

  lemma DeciderRefundsPaid(db: Db, o: Id, s: Id, q: Oracle)
    ensures var x := Decided(db, o, s, q); !Sweeping(x) && (x.RefundNow? ==> x.o == o && o in db.orders && db.orders[o].status.Paid?)
  {
    hide InvalidGrant;
  }

  lemma UncalledUnreached(w: World, o: Id)
    requires w.called[o] == 0 && CallsSound(w.called, w.landed, w.inflight)
    ensures !Reaches(w, o)
  {
  }

  /** The one who comes to refund: its order was still PAID, or the call it made is gone. */
  lemma MoverRefundsRightly(w: World, p: Id, q: Oracle)
    requires p in w.procs && RefundsAreRight(w) && ExecutorOnly(Advance(p, q))
    requires Base(w)
    ensures var w' := Step(w, Advance(p, q));
            p in w'.procs && !Sweeping(w'.procs[p]) && (w'.procs[p].RefundNow? ==> !Reaches(w', w'.procs[p].o))
  {
    var x, w', e := w.procs[p], Step(w, Advance(p, q)), Advance(p, q);
    AdvanceMovesOne(w, p, q);
    RefundersStandHere(w, p, q);
    hide AdvanceProc, Reaches;
    BaseParts(w);
    StepMovesPanel(w, e);
    hide Step, Base, CallsSound, LocksSound;
    if w'.procs[p].RefundNow? {
      if x.Decide? {
        UncalledUnreached(w, x.o);
        ReachStays(w, e, x.o);
      } else {
        CallerKnows(w, p);
        CallOfOrder(x);
        SendKeepsCalls(w, CallOf(x), FateIn(e));
        SamePanelSameReach(Sent(w, CallOf(x), FateIn(e)), w', x.o);
      }
    }
  }

  lemma RefundsStayRight(w: World, e: Event)
    requires RefundsAreRight(w) && ExecutorOnly(e)
    requires Base(w)
    ensures RefundsAreRight(Step(w, e))
  {
    var w' := Step(w, e);
    if !e.Late? { StepMovesOne(w, e); } else { StepMovesPanel(w, e); }
    BeginsElsewhere(w, e);
    BeginsNoSweep(w, e);
    BaseParts(w);
    hide Base, Step, Reaches, CallsSound, PaidUncalled;
    forall p | p in w'.procs
      ensures !Sweeping(w'.procs[p]) && (w'.procs[p].RefundNow? ==> !Reaches(w', w'.procs[p].o))
    {
      if e.Advance? && p == e.p && p in w.procs {
        MoverRefundsRightly(w, p, e.q);
      } else if p in w.procs && w'.procs[p].RefundNow? {
        if MakesCall(w, e) && w.procs[e.p].o == w.procs[p].o { OneCaller(w, p, e.p); }
        ReachStays(w, e, w.procs[p].o);
      }
    }
  }

  lemma BeginsNoSweep(w: World, e: Event)
    ensures e.Begin? && e.p !in w.procs && e.p in Step(w, e).procs ==> Step(w, e).procs[e.p].AwaitLock?
  {
  }

  ghost predicate AppliedLanded(w: World) {
    forall o :: o in w.db.orders && AppliedCount(w.db.events, o) > 0 ==> w.landed[o] > 0
  }

  lemma AppliedStayLanded(init: map<Id, int>, w: World, e: Event)
    requires RefundsAreRight(w) && AppliedLanded(w) && PersistersLanded(w.landed, w.procs)
    requires Inv(init, w)
    ensures AppliedLanded(Step(w, e))
  {
    LandedGrows(w, e);
    StepMovesStatuses(w, e);
    hide Inv, Step, AppliedCount, Reaches;
    if Commits(w, e) {
      assert !Sweeping(w.procs[e.p]);
      CommitAdds(init, w, e);
    } else {
      OtherStepsKeepLogs(w, e);
    }
  }

  /** What a run of executors keeps. */
  ghost predicate ExecutedRightly(w: World) {
    RefundsAreRight(w) && AppliedLanded(w)
  }

  lemma {:induction false} ExecutorsStayRight(init: map<Id, int>, w: World, es: seq<Event>)
    requires EffectsStart(init, w) && ExecutorsOnly(es)
    ensures NoneAstray(w, es) && ExecutedRightly(Run(w, es))
    decreases |es|
  {
    if es == [] {
      assert Run(w, es) == w;
      hide DbInv;
    } else {
      ExecutorsStayRight(init, w, Front(es));
      RunVerdict(init, w, Front(es));
      hide EffectsStart, Step, Agreed;
      var before := Run(w, Front(es));
      AgreedParts(init, before);
      assert ExecutorOnly(Last(es));
      RightIsNotAstray(before, Last(es));
      RefundsStayRight(before, Last(es));
      AppliedStayLanded(init, before, Last(es));
    }
  }

  lemma RightIsNotAstray(w: World, e: Event)
    requires RefundsAreRight(w)
    ensures !Astray(w, e)
  {
    hide Reaches;
  }

  /**
   Executors alone, crashes and late calls included: a completed order was applied and charged once and its
   one call took effect; a refunded order's call never took effect and never will.
   */
  lemma ExecutorsApplyOrRefund(init: map<Id, int>, w: World, es: seq<Event>, o: Id)
    requires EffectsStart(init, w) && ExecutorsOnly(es) && o in Run(w, es).db.orders
    ensures var w', v := Run(w, es), EffectOf(Run(w, es), o);
            match w'.db.orders[o].status
            case Paid => w'.called[o] == 0 && v == Effect(0, 0, false)
            case Provisioning => v.applied == 0 && v.refunds == 0
            case Completed => v == Effect(1, 0, true) && w'.landed[o] == 1
            case Failed => v == Effect(0, 1, false)
  {
    ExecutorsStayRight(init, w, es);
    RunVerdict(init, w, es);
    var w' := Run(w, es);
    AgreedParts(init, w');
    hide EffectsStart, Run, NoneAstray, Agreed, RefundsAreRight;
    StatusEffects(init, w', o);
    AtMostOneCall(init, w, es, o);
  }

  lemma StatusEffects(init: map<Id, int>, w: World, o: Id)
    requires o in w.db.orders && Base(w) && AllFair(w) && Inv(init, w)
    ensures var v := EffectOf(w, o);
            match w.db.orders[o].status
            case Paid => w.called[o] == 0 && v == Effect(0, 0, false)
            case Provisioning => v.applied == 0 && v.refunds == 0
            case Completed => v == Effect(1, 0, true)
            case Failed => v == Effect(0, 1, false)
  {
    Parts(init, w);
    BaseParts(w);
    hide Inv, Base, DbInv, ProcsInv, LocksSound, ProcsKnow, Reaches, AppliedCount, Refunds;
    assert Fair(EffectOf(w, o)) && OrderOk(ViewOf(w.db, o));
    if w.db.orders[o].status.Paid? { UncalledUnreached(w, o); }
  }

  // ---- a run that parts them ---------------------------------------------------------------------------------------------

  function Sweep(call: Call, held: Remote): seq<Event> {
    [BeginSweep("a", call.o), Advance("a", YES), Advance("a", YES), Advance("a", YES), Late(call, held)]
  }

  lemma RunFive(w: World, a: Event, b: Event, c: Event, d: Event, e: Event)
    ensures Run(w, [a, b, c, d, e]) == Step(Step(Step(Step(Step(w, a), b), c), d), e)
  {
    hide Step;
    RunOneMore(w, [], a);
    RunOneMore(w, [a], b);
    RunOneMore(w, [a, b], c);
    RunOneMore(w, [a, b, c], d);
    RunOneMore(w, [a, b, c, d], e);
    assert [] + [a] == [a] && [a] + [b] == [a, b] && [a, b] + [c] == [a, b, c];
    assert [a, b, c] + [d] == [a, b, c, d] && [a, b, c, d] + [e] == [a, b, c, d, e];
  }

  lemma GotoTwice(w: World, p: Id, x: Proc, y: Proc)
    ensures Goto(Goto(w, p, x), p, y) == Goto(w, p, y)
  {
    assert w.procs[p := x][p := y] == w.procs[p := y];
  }

  lemma SweepStarts(w: World, o: Id, s: Id, intent: IntentData)
    requires o in w.db.orders && s in w.db.services && w.db.orders[o].service == Some(s) && IsOperation(w.db.orders[o].kind)
    requires w.db.services[s].user == w.db.orders[o].user && w.db.orders[o].status.Provisioning? && LastIntent(w.db.events, o) == Some(intent) && "a" !in w.procs
    ensures Step(w, BeginSweep("a", o)) == Goto(w, "a", SweepAwait(o, s, w.db.orders[o], intent))
  {
    hide LastIntent;
  }

  lemma SweepLocks(w: World, x: Proc)
    requires x.SweepAwait? && x.s !in w.locks
    ensures Step(Goto(w, "a", x), Advance("a", YES)) ==
            Goto(w.(locks := w.locks[x.s := "a"]), "a", SweepRead(x.o, x.s, x.seen, x.intent))
  {
    GotoTwice(w.(locks := w.locks[x.s := "a"]), "a", x, SweepRead(x.o, x.s, x.seen, x.intent));
  }

  lemma SweepReadsAbsent(w: World, x: Proc)
    requires x.SweepRead? && x.s in w.panel && Judge(x.intent, w.panel[x.s]).Absent?
    ensures Step(Goto(w, "a", x), Advance("a", YES)) == Goto(w, "a", RefundNow(x.o, x.s, x.seen))
  {
    hide Judge;
    GotoTwice(w, "a", x, RefundNow(x.o, x.s, x.seen));
  }

  /** A reconciler finds the untouched panel and comes to refund. */
  lemma SweepComesToRefund(w: World, o: Id, s: Id, intent: IntentData)
    requires o in w.db.orders && s in w.db.services && w.db.orders[o].service == Some(s) && IsOperation(w.db.orders[o].kind)
    requires w.db.services[s].user == w.db.orders[o].user && w.db.orders[o].status.Provisioning? && LastIntent(w.db.events, o) == Some(intent)
    requires w.locks == map[] && "a" !in w.procs && s in w.panel && Judge(intent, w.panel[s]).Absent?
    ensures Step(Step(Step(w, BeginSweep("a", o)), Advance("a", YES)), Advance("a", YES)) ==
            Goto(w.(locks := map[s := "a"]), "a", RefundNow(o, s, w.db.orders[o]))
  {
    hide Step, Judge, LastIntent;
    var seen := w.db.orders[o];
    SweepStarts(w, o, s, intent);
    SweepLocks(w, SweepAwait(o, s, seen, intent));
    SweepReadsAbsent(w.(locks := map[s := "a"]), SweepRead(o, s, seen, intent));
  }

  lemma RefundsNow(init: map<Id, int>, w: World, p: Id, o: Id)
    requires p in w.procs && w.procs[p].RefundNow? && w.procs[p].o == o && o in w.db.orders
    requires w.procs[p].seen.Terms() == w.db.orders[o].Terms() && w.db.orders[o].status.Provisioning? && Refunds(w.db.ledger, o) == 0
    requires DbInv(init, w.db)
    ensures var w' := Step(w, Advance(p, YES));
            && Refunds(w'.db.ledger, o) == 1 && w'.db.orders.Keys == w.db.orders.Keys
            && SamePanel(w, w') && w'.panel == w.panel
  {
    hide RefundDefinite, DbInv, Refunds;
    RefundOutcome(init, w.db, o, w.procs[p].seen);
    assert Step(w, Advance(p, YES)) == RefundAdvance(w, p, w.procs[p]);
    hide Step;
  }

  lemma LandsLate(w: World, call: Call, held: Remote)
    requires call in w.inflight
    ensures var w' := Step(w, Late(call, held));
            w'.db == w.db && w'.landed[call.o] >= 1 && w'.panel == w.panel[call.s := held]
  {
  }

  /**
   For every valid paid operation whose untouched panel is judged correctly, and with no lie from the panel,
   one reconciler is enough: the order is refunded and its call then takes effect.
   */
  lemma SomeRunRefundsAndLands(init: map<Id, int>, w: World, o: Id, s: Id, held: Remote) returns (es: seq<Event>)
    requires EffectsStart(init, w) && Ready(w, o, s) && s in w.panel && Judge(Intended(w, o, s), w.panel[s]).Absent?
    ensures var w' := Run(w, es);
            && o in w'.db.orders && Refunds(w'.db.ledger, o) == 1 && w'.landed[o] >= 1 && w'.panel == w.panel[s := held]
    ensures !AllFair(Run(w, es))
  {
    var call, lost := CallFor(w, o, s), Lost(w, o, s, OnItsWay);
    var first := LostAnswer(w, o, s, OnItsWay);
    LostLeavesIntent(w, o, s, OnItsWay);
    LostKeepsMoney(init, w, o, s);
    hide EffectsStart, Ready, Judge, Lost, Step, Intended, CallFor, DbInv, LastIntent;
    SweepComesToRefund(lost, o, s, Intended(w, o, s));
    var w3 := Goto(lost.(locks := map[s := "a"]), "a", RefundNow(o, s, lost.db.orders[o]));
    RefundsNow(init, w3, "a", o);
    LandsLate(Step(w3, Advance("a", YES)), call, held);
    RunFive(lost, BeginSweep("a", o), Advance("a", YES), Advance("a", YES), Advance("a", YES), Late(call, held));
    RunAppend(w, first, Sweep(call, held));
    es := first + Sweep(call, held);
    NotFair(Run(w, es), o);
  }

  /** Where an executor stands once the panel has refused for certain what it did. */
  function Misled(w: World, o: Id, s: Id, held: Remote): World
    requires Ready(w, o, s)
  {
    Goto(Sent(Claimed(w, o, s), CallFor(w, o, s), Arrived(held)), "e", RefundNow(o, s, w.db.orders[o]))
  }

  lemma FalselyRefused(w: World, o: Id, s: Id, held: Remote)
    requires Ready(w, o, s)
    ensures Step(Claimed(w, o, s), Advance("e", Hearing(RefusedForCertain(Arrived(held))))) == Misled(w, o, s, held)
  {
    hide Expected, ClaimOperation, InvalidGrant;
    GotoTwice(Claimed(w, o, s), "e", CallPanel(o, s, w.db.orders[o], w.db.services[s], 0), RefundNow(o, s, w.db.orders[o]));
  }

  lemma MisledShape(init: map<Id, int>, w: World, o: Id, s: Id, held: Remote)
    requires EffectsStart(init, w) && Ready(w, o, s)
    ensures var w' := Misled(w, o, s, held);
            && DbInv(init, w'.db) && Refunds(w'.db.ledger, o) == 0 && o in w'.db.orders && w'.db.orders[o].status.Provisioning?
            && w'.db.orders[o].Terms() == w.db.orders[o].Terms() && w'.landed[o] >= 1 && w'.panel == w.panel[s := held]
            && "e" in w'.procs && w'.procs["e"] == RefundNow(o, s, w.db.orders[o])
  {
    LostKeepsMoney(init, w, o, s);
    LostLeavesIntent(w, o, s, OnItsWay);
    assert Misled(w, o, s, held).db == Lost(w, o, s, OnItsWay).db;
    hide DbInv, Expected, ClaimOperation, InvalidGrant, Refunds;
  }

  /** When a panel refuses for certain what it has done, one executor alone refunds an operation that took effect. */
  lemma FalseRefusalRefundsAndLands(init: map<Id, int>, w: World, o: Id, s: Id, held: Remote) returns (es: seq<Event>)
    requires EffectsStart(init, w) && Ready(w, o, s)
    ensures var w' := Run(w, es); o in w'.db.orders && Refunds(w'.db.ledger, o) == 1 && w'.landed[o] >= 1 && w'.panel == w.panel[s := held]
    ensures forall i :: 0 <= i < |es| ==> !es[i].BeginSweep?
  {
    hide Claimed, Misled, Step, DbInv, Run, Ready, EffectsStart, Refunds;
    var refused := Advance("e", Hearing(RefusedForCertain(Arrived(held))));
    var claimed := ReachesCall(w, o, s);
    FalselyRefused(w, o, s, held);
    MisledShape(init, w, o, s, held);
    RefundsNow(init, Misled(w, o, s, held), "e", o);
    RunOneMore(w, claimed, refused);
    RunOneMore(w, claimed + [refused], Advance("e", YES));
    es := claimed + [refused] + [Advance("e", YES)];
  }

  lemma NotFair(w: World, o: Id)
    requires o in w.db.orders && Refunds(w.db.ledger, o) == 1 && w.landed[o] >= 1
    ensures !AllFair(w)
  {
    assert !Fair(EffectOf(w, o));
  }

  lemma LostKeepsMoney(init: map<Id, int>, w: World, o: Id, s: Id)
    requires EffectsStart(init, w) && Ready(w, o, s)
    ensures var w' := Lost(w, o, s, OnItsWay);
            DbInv(init, w'.db) && Refunds(w'.db.ledger, o) == 0 && CallFor(w, o, s) in w'.inflight && CallFor(w, o, s).o == o
            && CallFor(w, o, s).s == s
  {
    ClaimOnlyStatuses(w.db, o, s, Intended(w, o, s));
    hide DbInv, Intended, OnlyStatuses;
    OnlyStatusesKeepDbInv(init, w.db, ClaimOperation(w.db, o, s, Intended(w, o, s)).0);
  }
}
