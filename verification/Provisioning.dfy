/**
 Purchases: any number of provisioners and reconcilers run over the same orders, interleaved step by
 step with each other, with new settlements, with crashes and with requests that land late on the
 panel. A Redis lock per (panel, username) is assumed exclusive while its holder lives; the panel and
 product rows of an order are fixed during a run. Panels may answer anything at any time.
 */
module Provisioning {
  import opened Wrappers
  import opened CommerceDb
  import opened Ledger
  import opened Settlement
  import opened Execution

  datatype Target = Target(panel: Id, username: Id)

  /** Where an order provisions: no panel row, a panel that no longer fits the frozen snapshot, or a target. */
  datatype Placement = NoPanel | Unusable | At(target: Target)

  type Places = Id -> Placement

  /** The username is deterministic per order, so two orders never share a target. */
  ghost predicate OneUsernamePerOrder(place: Places) {
    forall a, b :: place(a).At? && place(a) == place(b) ==> a == b
  }

  datatype Result = Delivered | Refunded(done: bool) | Undecided | Busy

  datatype Proc =
    | ReadOrder(o: Id, sweep: bool)
    | LookService(o: Id, seen: Order)
    | RepairStatus(o: Id, seen: Order)
    | CheckTarget(o: Id, seen: Order)
    | RefundTarget(o: Id, seen: Order)
    | AwaitLock(o: Id, seen: Order, sweep: bool)
    | Recheck(o: Id, seen: Order)
    | ClaimOrder(o: Id, seen: Order)
    | CallPanel(o: Id, seen: Order)
    | RefundRefused(o: Id, seen: Order)
    | PersistService(o: Id, seen: Order)
    | ReadPanel(o: Id, seen: Order)
    | RefundAbsent(o: Id, seen: Order)
    | AdoptAccount(o: Id, seen: Order, reading: Reading)
    | ReleaseLock(o: Id, result: Result)
    | Done(o: Id, result: Result)

  predicate Holds(q: Proc) {
    q.Recheck? || q.ClaimOrder? || q.CallPanel? || q.RefundRefused? || q.PersistService? ||
    q.ReadPanel? || q.RefundAbsent? || q.AdoptAccount? || q.ReleaseLock?
  }

  predicate HasSeen(q: Proc) {
    !q.ReadOrder? && !q.ReleaseLock? && !q.Done?
  }

  /** What becomes of a create request; one that never arrives is dropped, one in flight may still land. */
  datatype Fate = Landed | InFlight | Dropped

  /** A refusal that the adapter calls definite is only true of the panel when its fate is `Dropped`. */
  datatype CreateAnswer = Created | RefusedForCertain(fate: Fate) | CreateUnclear(fate: Fate)

  datatype ReadAnswer = Present(reading: Reading) | AbsentForCertain | ReadUnclear

  /** Everything outside the code's control that one step may depend on. */
  datatype Oracle = Oracle(giveUp: bool, create: CreateAnswer, read: ReadAnswer, lost: bool, service: Id, now: int)

  /** `called` counts, per order, the create requests that were sent. */
  datatype World = World(
    db: Db, accounts: set<Target>, inflight: set<Target>, called: multiset<Id>, locks: map<Target, Id>, procs: map<Id, Proc>)

  datatype Event =
    | Begin(p: Id, o: Id, sweep: bool)
    | Advance(p: Id, q: Oracle)
    | Crash(p: Id, fate: Fate)
    | Land(t: Target)
    | Settle(r: Request, fp: string, ids: Ids, now: int, expiresAt: int, held: bool)

  function Goto(w: World, p: Id, q: Proc): World {
    w.(procs := w.procs[p := q])
  }

  /** The order's create request is sent, and this becomes of it. */
  function Sent(w: World, o: Id, t: Target, fate: Fate): World {
    var called := w.called + multiset{o};
    match fate
    case Landed => w.(called := called, accounts := w.accounts + {t})
    case InFlight => w.(called := called, inflight := w.inflight + {t})
    case Dropped => w.(called := called)
  }

  /** The steps that only look: at the order, at its service, at its target, or at the panel. */
  function Looked(place: Places, w: World, x: Proc, q: Oracle): Proc {
    match x
    case ReadOrder(o, sweep) =>
      if o !in w.db.orders || !w.db.orders[o].kind.Purchase? then Done(o, Busy)
      else if !sweep then LookService(o, w.db.orders[o])
      else if !w.db.orders[o].status.Provisioning? || !place(o).At? then Done(o, Busy)
      else AwaitLock(o, w.db.orders[o], true)
    case LookService(o, seen) => if ServicesOf(w.db.services, o) != {} then RepairStatus(o, seen) else CheckTarget(o, seen)
    case CheckTarget(o, seen) =>
      if !seen.status.Paid? || place(o).NoPanel? then Done(o, Busy)
      else if place(o).Unusable? then RefundTarget(o, seen)
      else AwaitLock(o, seen, false)
    case Recheck(o, seen) => if ServicesOf(w.db.services, o) != {} then ReleaseLock(o, Delivered) else ClaimOrder(o, seen)
    case ReadPanel(o, seen) =>
      (match q.read
       case Present(reading) => AdoptAccount(o, seen, reading)
       case AbsentForCertain => RefundAbsent(o, seen)
       case ReadUnclear => ReleaseLock(o, Undecided))
    case _ => x
  }

  function RefundAdvance(w: World, p: Id): World
    requires p in w.procs && (w.procs[p].RefundTarget? || w.procs[p].RefundRefused? || w.procs[p].RefundAbsent?)
  {
    var x := w.procs[p];
    var (db', done) := RefundDefinite(w.db, x.o, x.seen);
    Goto(w.(db := db'), p, if x.RefundTarget? then Done(x.o, Refunded(done)) else ReleaseLock(x.o, Refunded(done)))
  }

  function AwaitAdvance(w: World, p: Id, t: Target, q: Oracle): World
    requires p in w.procs && w.procs[p].AwaitLock?
  {
    var x := w.procs[p];
    if q.giveUp then Goto(w, p, Done(x.o, Busy))
    else if t in w.locks then w
    else Goto(w.(locks := w.locks[t := p]), p, if x.sweep then ReadPanel(x.o, x.seen) else Recheck(x.o, x.seen))
  }

  function ClaimAdvance(w: World, p: Id): World
    requires p in w.procs && w.procs[p].ClaimOrder?
  {
    var x := w.procs[p];
    var (db', claimed) := ClaimPaid(w.db, x.o);
    Goto(w.(db := db'), p, if claimed then CallPanel(x.o, x.seen) else ReleaseLock(x.o, Busy))
  }

  function FateOf(answer: CreateAnswer): Fate {
    if answer.Created? then Landed else answer.fate
  }

  function Answered(x: Proc, answer: CreateAnswer): Proc
    requires x.CallPanel?
  {
    match answer
    case Created => PersistService(x.o, x.seen)
    case RefusedForCertain(_) => RefundRefused(x.o, x.seen)
    case CreateUnclear(_) => ReleaseLock(x.o, Undecided)
  }

  function CallAdvance(w: World, p: Id, t: Target, answer: CreateAnswer): World
    requires p in w.procs && w.procs[p].CallPanel?
  {
    Goto(Sent(w, w.procs[p].o, t, FateOf(answer)), p, Answered(w.procs[p], answer))
  }

  function PersistAdvance(w: World, p: Id, t: Target, q: Oracle): World
    requires p in w.procs && w.procs[p].PersistService?
  {
    var x := w.procs[p];
    if q.lost then Goto(w, p, ReleaseLock(x.o, Undecided))
    else if q.service in w.db.services then w
    else Goto(w.(db := Persist(w.db, x.o, q.service, ProvisionedService(x.o, x.seen, t.username, q.now))),
              p, ReleaseLock(x.o, Delivered))
  }

  function AdoptAdvance(w: World, p: Id, t: Target, q: Oracle): World
    requires p in w.procs && w.procs[p].AdoptAccount?
  {
    var x := w.procs[p];
    if q.service in w.db.services then w
    else Goto(w.(db := Adopt(w.db, x.o, q.service, AdoptedService(x.o, x.seen, t.username, x.reading))),
              p, ReleaseLock(x.o, Delivered))
  }

  function ReleaseAdvance(w: World, p: Id, t: Target): World
    requires p in w.procs && w.procs[p].ReleaseLock?
  {
    Goto(w.(locks := w.locks - {t}), p, Done(w.procs[p].o, w.procs[p].result))
  }

  predicate AtTarget(place: Places, x: Proc) {
    Holds(x) || x.AwaitLock? ==> place(x.o).At?
  }

  function AdvanceProc(place: Places, w: World, p: Id, q: Oracle): World
    requires p in w.procs && AtTarget(place, w.procs[p])
  {
    var x := w.procs[p];
    match x
    case RepairStatus(o, _) => Goto(w.(db := MarkCompleted(w.db, o)), p, Done(o, Delivered))
    case RefundTarget(_, _) => RefundAdvance(w, p)
    case RefundRefused(_, _) => RefundAdvance(w, p)
    case RefundAbsent(_, _) => RefundAdvance(w, p)
    case AwaitLock(o, _, _) => AwaitAdvance(w, p, place(o).target, q)
    case ClaimOrder(_, _) => ClaimAdvance(w, p)
    case CallPanel(o, _) => CallAdvance(w, p, place(o).target, q.create)
    case PersistService(o, _) => PersistAdvance(w, p, place(o).target, q)
    case AdoptAccount(o, _, _) => AdoptAdvance(w, p, place(o).target, q)
    case ReleaseLock(o, _) => ReleaseAdvance(w, p, place(o).target)
    case _ => Goto(w, p, Looked(place, w, x, q))
  }

  /** A crashed process stops; its lock expires, and a request it was sending may or may not arrive. */
  function CrashProc(place: Places, w: World, p: Id, fate: Fate): World
    requires p in w.procs && AtTarget(place, w.procs[p])
  {
    var q := w.procs[p];
    if !Holds(q) then w.(procs := w.procs - {p})
    else
      var t := place(q.o).target;
      var w1 := if q.CallPanel? then Sent(w, q.o, t, fate) else w;
      w1.(locks := w1.locks - {t}, procs := w1.procs - {p})
  }

  function Step(place: Places, w: World, e: Event): World {
    match e
    case Begin(p, o, sweep) => if p in w.procs then w else Goto(w, p, ReadOrder(o, sweep))
    case Advance(p, q) =>
      if p !in w.procs || !AtTarget(place, w.procs[p]) then w
      else AdvanceProc(place, w, p, q)
    case Crash(p, fate) =>
      if p !in w.procs || !AtTarget(place, w.procs[p]) then w else CrashProc(place, w, p, fate)
    case Land(t) => if t in w.inflight then w.(inflight := w.inflight - {t}, accounts := w.accounts + {t}) else w
    case Settle(r, fp, ids, now, expiresAt, held) =>
      if !FreshIds(w.db, ids) || !Priced(r) then w
      else w.(db := SettleTx(w.db, r, fp, ids, now, expiresAt, held).0)
  }

  function Run(place: Places, w: World, es: seq<Event>): World
    decreases |es|
  {
    if es == [] then w else Step(place, Run(place, w, Front(es)), Last(es))
  }

  // ---- one order seen from outside ------------------------------------------------------------------

  datatype View = View(status: OrderStatus, services: set<Id>, refunds: nat)

  function ViewOf(db: Db, o: Id): View
    requires o in db.orders
  {
    View(db.orders[o].status, ServicesOf(db.services, o), Refunds(db.ledger, o))
  }

  /** Delivered once and never refunded, or refunded once and never delivered, or still open with neither. */
  predicate OrderOk(v: View) {
    match v.status
    case Paid => v.services == {} && v.refunds == 0
    case Provisioning => v.services == {} && v.refunds == 0
    case Completed => |v.services| == 1 && v.refunds == 0
    case Failed => v.services == {} && v.refunds == 1
  }

  /** What a result handed to a caller claims about its order. */
  predicate ResultOk(r: Result, v: View) {
    (r.Delivered? ==> v.status.Completed?) && (r == Refunded(true) ==> v.status.Failed?)
  }

  predicate ProcOk(q: Proc, v: View) {
    && (q.RepairStatus? ==> v.services != {})
    && (q.CallPanel? || q.RefundRefused? || q.PersistService? ==> v.status.Provisioning?)
    && (q.ReleaseLock? || q.Done? ==> ResultOk(q.result, v))
  }

  /** Finished orders stay as they finished. */
  predicate Later(v: View, v': View) {
    && (v.status.Completed? ==> v'.status.Completed? && v'.services == v.services)
    && (v.status.Failed? ==> v'.status.Failed?)
  }

  /** A process works on an order it has read, and holds locks only where the order has a target. */
  ghost predicate Knows(place: Places, orders: map<Id, Order>, q: Proc) {
    && (HasSeen(q) || Holds(q) ==> q.o in orders)
    && (HasSeen(q) ==> q.seen.Terms() == orders[q.o].Terms() && q.seen.kind.Purchase?)
    && AtTarget(place, q)
    && (q.RefundTarget? ==> !place(q.o).At?)
  }

  ghost predicate ProcSound(place: Places, db: Db, q: Proc) {
    && Knows(place, db.orders, q)
    && (q.o in db.orders ==> ProcOk(q, ViewOf(db, q.o)))
    && (q.o !in db.orders && q.Done? ==> q.result == Busy)
  }

  /** Locks and lock-holding processes name each other. */
  ghost predicate LocksSound(place: Places, locks: map<Target, Id>, procs: map<Id, Proc>) {
    && (forall t :: t in locks ==> locks[t] in procs && Holds(procs[locks[t]]) && place(procs[locks[t]].o) == At(t))
    && (forall p :: p in procs && Holds(procs[p]) ==>
          place(procs[p].o).At? && place(procs[p].o).target in locks && locks[place(procs[p].o).target] == p)
  }

  /** Every service of an order went to the order's buyer. */
  ghost predicate ServicesOwned(db: Db) {
    forall s :: s in db.services && db.services[s].order.Some? ==>
      db.services[s].order.value in db.orders && db.services[s].user == db.orders[db.services[s].order.value].user
  }

  ghost predicate OrdersInv(db: Db) {
    forall o :: o in db.orders ==> OrderOk(ViewOf(db, o))
  }

  ghost predicate ProcsInv(place: Places, db: Db, procs: map<Id, Proc>) {
    forall p :: p in procs ==> ProcSound(place, db, procs[p])
  }

  /** What holds in every run, spoilt or not. */
  ghost predicate Base(init: map<Id, int>, place: Places, w: World) {
    && DbInv(init, w.db) && ServicesOwned(w.db) && LocksSound(place, w.locks, w.procs)
    && forall p :: p in w.procs ==> Knows(place, w.db.orders, w.procs[p])
  }

  ghost predicate Inv(init: map<Id, int>, place: Places, w: World) {
    Base(init, place, w) && OrdersInv(w.db) && ProcsInv(place, w.db, w.procs)
  }

  lemma BaseParts(init: map<Id, int>, place: Places, w: World)
    requires Base(init, place, w)
    ensures DbInv(init, w.db) && ServicesOwned(w.db) && LocksSound(place, w.locks, w.procs)
    ensures forall p :: p in w.procs ==> Knows(place, w.db.orders, w.procs[p])
  {
    hide DbInv, ServicesOwned, LocksSound, Knows;
  }

  lemma Parts(init: map<Id, int>, place: Places, w: World)
    requires Inv(init, place, w)
    ensures Base(init, place, w) && OrdersInv(w.db) && ProcsInv(place, w.db, w.procs)
  {
    hide Base, OrdersInv, ProcsInv;
  }

  /** The facts of one process and of its order. */
  lemma SoundAt(init: map<Id, int>, place: Places, w: World, p: Id)
    requires p in w.procs
    requires Inv(init, place, w)
    ensures ProcSound(place, w.db, w.procs[p])
    ensures w.procs[p].o in w.db.orders ==> OrderOk(ViewOf(w.db, w.procs[p].o))
  {
    hide Base, ProcSound, OrderOk;
  }

  // ---- locks -------------------------------------------------------------------------------------------

  lemma KeepLock(place: Places, w: World, p: Id, q: Proc)
    requires LocksSound(place, w.locks, w.procs) && p in w.procs
    requires q.o == w.procs[p].o && Holds(q) == Holds(w.procs[p])
    ensures LocksSound(place, w.locks, w.procs[p := q])
  {
  }

  lemma TakeLock(place: Places, w: World, p: Id, q: Proc)
    requires LocksSound(place, w.locks, w.procs) && p in w.procs && !Holds(w.procs[p]) && Holds(q)
    requires place(q.o).At? && place(q.o).target !in w.locks
    ensures LocksSound(place, w.locks[place(q.o).target := p], w.procs[p := q])
  {
  }

  lemma DropLock(place: Places, w: World, p: Id, q: Proc)
    requires LocksSound(place, w.locks, w.procs) && p in w.procs && Holds(w.procs[p]) && !Holds(q)
    ensures place(w.procs[p].o).At?
    ensures LocksSound(place, w.locks - {place(w.procs[p].o).target}, w.procs[p := q])
    ensures LocksSound(place, w.locks - {place(w.procs[p].o).target}, w.procs - {p})
  {
    var t := place(w.procs[p].o).target;
    forall u | u in w.locks && u != t ensures w.locks[u] != p {
      assert place(w.procs[w.locks[u]].o) == At(u);
    }
  }

  lemma IdleLeaves(place: Places, w: World, p: Id)
    requires p in w.procs && !Holds(w.procs[p]) && LocksSound(place, w.locks, w.procs)
    ensures LocksSound(place, w.locks, w.procs - {p})
  {
  }

  lemma Joins(place: Places, w: World, p: Id, q: Proc)
    requires p !in w.procs && !Holds(q) && LocksSound(place, w.locks, w.procs)
    ensures LocksSound(place, w.locks, w.procs[p := q])
  {
  }

  /** A process keeps its lock, takes a free one, or drops its own. */
  predicate LockMove(place: Places, w: World, w': World, p: Id)
    requires p in w.procs && p in w'.procs && AtTarget(place, w.procs[p])
  {
    var x, x' := w.procs[p], w'.procs[p];
    && x'.o == x.o && AtTarget(place, x') && w'.procs == w.procs[p := x']
    && ((Holds(x') == Holds(x) && w'.locks == w.locks)
        || (!Holds(x) && Holds(x') && place(x.o).target !in w.locks && w'.locks == w.locks[place(x.o).target := p])
        || (Holds(x) && !Holds(x') && w'.locks == w.locks - {place(x.o).target}))
  }

  lemma LockMoveKeepsLocks(place: Places, w: World, w': World, p: Id)
    requires p in w.procs && p in w'.procs && AtTarget(place, w.procs[p]) && LockMove(place, w, w', p)
    requires LocksSound(place, w.locks, w.procs)
    ensures LocksSound(place, w'.locks, w'.procs)
  {
    hide LocksSound;
    var x, x' := w.procs[p], w'.procs[p];
    if Holds(x') == Holds(x) {
      KeepLock(place, w, p, x');
    } else if Holds(x') {
      TakeLock(place, w, p, x');
    } else {
      DropLock(place, w, p, x');
    }
  }

  lemma CommitMovesLock(place: Places, w: World, p: Id, q: Oracle)
    requires p in w.procs && AtTarget(place, w.procs[p])
    ensures w.procs[p].RefundTarget? || w.procs[p].RefundRefused? || w.procs[p].RefundAbsent? ==>
              LockMove(place, w, RefundAdvance(w, p), p)
    ensures w.procs[p].ClaimOrder? ==> LockMove(place, w, ClaimAdvance(w, p), p)
    ensures w.procs[p].PersistService? ==> LockMove(place, w, PersistAdvance(w, p, place(w.procs[p].o).target, q), p)
    ensures w.procs[p].AdoptAccount? ==> LockMove(place, w, AdoptAdvance(w, p, place(w.procs[p].o).target, q), p)
  {
    hide RefundDefinite, ClaimPaid, Persist, Adopt, ProvisionedService, AdoptedService;
  }

  lemma LookMovesLock(place: Places, w: World, p: Id, q: Oracle)
    requires p in w.procs && AtTarget(place, w.procs[p])
    ensures w.procs[p].AwaitLock? ==> LockMove(place, w, AwaitAdvance(w, p, place(w.procs[p].o).target, q), p)
    ensures w.procs[p].CallPanel? ==> LockMove(place, w, CallAdvance(w, p, place(w.procs[p].o).target, q.create), p)
    ensures w.procs[p].ReleaseLock? ==> LockMove(place, w, ReleaseAdvance(w, p, place(w.procs[p].o).target), p)
    ensures !w.procs[p].AwaitLock? && !w.procs[p].ReleaseLock? ==> LockMove(place, w, Goto(w, p, Looked(place, w, w.procs[p], q)), p)
  {
  }

  lemma AdvanceMovesLock(place: Places, w: World, p: Id, q: Oracle)
    requires p in w.procs && AtTarget(place, w.procs[p])
    ensures p in AdvanceProc(place, w, p, q).procs && LockMove(place, w, AdvanceProc(place, w, p, q), p)
  {
    hide RefundAdvance, ClaimAdvance, PersistAdvance, AdoptAdvance, AwaitAdvance, CallAdvance, ReleaseAdvance, Looked, MarkCompleted;
    CommitMovesLock(place, w, p, q);
    LookMovesLock(place, w, p, q);
  }

  lemma CrashShape(place: Places, w: World, p: Id, fate: Fate)
    requires p in w.procs && AtTarget(place, w.procs[p])
    ensures var w' := CrashProc(place, w, p, fate);
            && w'.db == w.db && w'.procs == w.procs - {p}
            && w'.locks == if Holds(w.procs[p]) then w.locks - {place(w.procs[p].o).target} else w.locks
  {
  }

  lemma StepKeepsLocks(place: Places, w: World, e: Event)
    requires LocksSound(place, w.locks, w.procs)
    ensures LocksSound(place, Step(place, w, e).locks, Step(place, w, e).procs)
  {
    hide AdvanceProc, CrashProc, LocksSound, SettleTx, LockMove;
    match e
    case Begin(p, o, sweep) => if p !in w.procs { Joins(place, w, p, ReadOrder(o, sweep)); }
    case Advance(p, q) =>
      if p in w.procs && AtTarget(place, w.procs[p]) {
        AdvanceMovesLock(place, w, p, q);
        LockMoveKeepsLocks(place, w, AdvanceProc(place, w, p, q), p);
      }
    case Crash(p, fate) =>
      if p in w.procs && AtTarget(place, w.procs[p]) {
        CrashShape(place, w, p, fate);
        if Holds(w.procs[p]) { DropLock(place, w, p, Done(w.procs[p].o, Busy)); } else { IdleLeaves(place, w, p); }
      }
    case Land(_) =>
    case Settle(_, _, _, _, _, _) =>
  }

  // ---- what every step keeps of the tables ---------------------------------------------------------------

  /** Orders stay, and so do their terms. */
  ghost predicate TermsKept(orders: map<Id, Order>, orders': map<Id, Order>) {
    forall o :: o in orders ==> o in orders' && orders'[o].Terms() == orders[o].Terms()
  }

  lemma TermsStay(orders: map<Id, Order>)
    ensures TermsKept(orders, orders)
  {
  }

  lemma OneStatusKeepsTerms(orders: map<Id, Order>, o: Id, status: OrderStatus)
    requires o in orders
    ensures TermsKept(orders, orders[o := orders[o].(status := status)])
  {
  }

  /** Money, ownership of services and the terms of orders, across one transaction. */
  ghost predicate TablesKept(init: map<Id, int>, db: Db, db': Db) {
    DbInv(init, db') && ServicesOwned(db') && TermsKept(db.orders, db'.orders)
  }

  lemma OwnersStay(db: Db, db': Db)
    requires ServicesOwned(db) && TermsKept(db.orders, db'.orders) && db'.services == db.services
    ensures ServicesOwned(db')
  {
    forall s | s in db.services && db.services[s].order.Some?
      ensures db.services[s].order.value in db'.orders
      ensures db'.orders[db.services[s].order.value].user == db.orders[db.services[s].order.value].user
    {
      TermsFields(db'.orders[db.services[s].order.value], db.orders[db.services[s].order.value]);
    }
  }

  lemma StatusTables(init: map<Id, int>, db: Db, o: Id, status: OrderStatus)
    requires o in db.orders && ServicesOwned(db) && DbInv(init, db)
    ensures TablesKept(init, db, WithStatus(db, o, status))
  {
    hide DbInv, ServicesOwned;
    WithStatusKeepsDbInv(init, db, o, status);
    OneStatusKeepsTerms(db.orders, o, status);
    hide TermsKept;
    OwnersStay(db, WithStatus(db, o, status));
  }

  lemma RefundOrders(db: Db, o: Id, seen: Order)
    requires o in db.orders
    ensures var db' := RefundDefinite(db, o, seen).0;
            db'.services == db.services && (db'.orders == db.orders || db'.orders == db.orders[o := db.orders[o].(status := Failed)])
  {
  }

  lemma RefundTables(init: map<Id, int>, db: Db, o: Id, seen: Order)
    requires o in db.orders && seen.Terms() == db.orders[o].Terms() && ServicesOwned(db) && DbInv(init, db)
    ensures TablesKept(init, db, RefundDefinite(db, o, seen).0)
  {
    hide DbInv, ServicesOwned;
    RefundKeepsDbInv(init, db, o, seen);
    RefundOrders(db, o, seen);
    hide RefundDefinite;
    TermsStay(db.orders);
    OneStatusKeepsTerms(db.orders, o, Failed);
    hide TermsKept;
    OwnersStay(db, RefundDefinite(db, o, seen).0);
  }

  /** A new service of the buyer's order, and a status of the order to go with it. */
  lemma DeliverTables(init: map<Id, int>, db: Db, o: Id, s: Id, service: Service, status: OrderStatus)
    requires o in db.orders && s !in db.services && service.order == Some(o) && service.user == db.orders[o].user
    requires ServicesOwned(db) && DbInv(init, db)
    ensures TablesKept(init, db, WithStatus(db.(services := db.services[s := service]), o, status))
  {
    hide DbInv;
    var stored := db.(services := db.services[s := service]);
    assert ServicesOwned(stored);
    hide ServicesOwned;
    StoredKeepsMoney(init, db, stored);
    StatusTables(init, stored, o, status);
  }

  lemma StoredKeepsMoney(init: map<Id, int>, db: Db, stored: Db)
    requires stored == db.(services := stored.services) && DbInv(init, db)
    ensures DbInv(init, stored)
  {
    hide DbInv;
    assert SameTerms(db.orders, stored.orders);
    StatusKeepsDbInv(init, db, stored);
  }

  lemma StaysTables(init: map<Id, int>, db: Db)
    requires ServicesOwned(db) && DbInv(init, db)
    ensures TablesKept(init, db, db)
  {
    hide DbInv, ServicesOwned;
  }

  /** The same order, with the status it has: storing a service without completing. */
  lemma SameStatus(db: Db, o: Id)
    requires o in db.orders
    ensures WithStatus(db, o, db.orders[o].status) == db
  {
    assert db.orders[o := db.orders[o]] == db.orders;
  }

  lemma PersistTables(init: map<Id, int>, db: Db, o: Id, s: Id, service: Service)
    requires o in db.orders && s !in db.services && service.order == Some(o) && service.user == db.orders[o].user
    requires ServicesOwned(db) && DbInv(init, db)
    ensures TablesKept(init, db, Persist(db, o, s, service)) && TablesKept(init, db, Adopt(db, o, s, service))
  {
    hide DbInv, ServicesOwned, TablesKept;
    StaysTables(init, db);
    DeliverTables(init, db, o, s, service, Completed);
    DeliverTables(init, db, o, s, service, db.orders[o].status);
    SameStatus(db.(services := db.services[s := service]), o);
  }

  lemma SettleTables(init: map<Id, int>, db: Db, r: Request, fp: string, ids: Ids, now: int, expiresAt: int, held: bool)
    requires FreshIds(db, ids) && Priced(r)
    requires ServicesOwned(db) && DbInv(init, db)
    ensures TablesKept(init, db, SettleTx(db, r, fp, ids, now, expiresAt, held).0)
  {
    hide DbInv, SettleTx, ServicesOwned;
    SettleKeepsInv(init, db, r, fp, ids, now, expiresAt, held);
    MoneyOf(init, db);
    SettleAddsOrder(init, db, r, fp, ids, now, expiresAt, held);
    var db' := SettleTx(db, r, fp, ids, now, expiresAt, held).0;
    StaysTables(init, db);
    if db' != db {
      assert TermsKept(db.orders, db'.orders);
      hide TermsKept;
      OwnersStay(db, db');
    }
  }

  lemma MoneyOf(init: map<Id, int>, db: Db)
    requires DbInv(init, db)
    ensures MoneyInv(init, db)
  {
    hide MoneyInv, KeysInv, UsagesInv;
  }

  /** What a settlement looks like from here: nothing, or one more order, paid and untouched. */
  ghost predicate OneMoreOrder(db: Db, db': Db, o: Id) {
    && o !in db.orders && o in db'.orders && db'.orders == db.orders[o := db'.orders[o]] && db'.orders[o].status.Paid?
    && db'.services == db.services
    && (forall x :: Refunds(db'.ledger, x) == Refunds(db.ledger, x)) && Refunds(db.ledger, o) == 0
  }

  lemma SettleAddsOrder(init: map<Id, int>, db: Db, r: Request, fp: string, ids: Ids, now: int, expiresAt: int, held: bool)
    requires FreshIds(db, ids) && Priced(r)
    requires MoneyInv(init, db)
    ensures var db' := SettleTx(db, r, fp, ids, now, expiresAt, held).0;
            db' == db || OneMoreOrder(db, db', ids.order)
  {
    NoRefundYet(init, db, ids.order);
    hide Obstacle, MoneyInv, NewCheckout, NewPayment, NewOrder, ClaimFor;
    if Obstacle(db, r, ids, now, held).None? {
      ObstacleNeedsUser(db, r, ids, now, held);
      AppendRow(db.ledger, SpendRow(db, r, ids));
      NewOrderIsPaid(r, ids);
    }
  }

  lemma NewOrderIsPaid(r: Request, ids: Ids)
    ensures NewOrder(r, ids).status.Paid?
  {
  }

  lemma NoRefundYet(init: map<Id, int>, db: Db, o: Id)
    requires o !in db.orders && MoneyInv(init, db)
    ensures Refunds(db.ledger, o) == 0
  {
    hide BooksBalance, RefundsAnswerSpends, OrdersArePaid;
    CountPositive(db.ledger, o, Refund);
  }

  lemma AdvanceTables(init: map<Id, int>, place: Places, w: World, p: Id, q: Oracle)
    requires p in w.procs && Knows(place, w.db.orders, w.procs[p])
    requires ServicesOwned(w.db) && DbInv(init, w.db)
    ensures TablesKept(init, w.db, AdvanceProc(place, w, p, q).db)
  {
    hide DbInv, ServicesOwned, TablesKept, RefundDefinite, Persist, Adopt, Looked, ProvisionedService, AdoptedService;
    StaysTables(init, w.db);
    var x := w.procs[p];
    match x
    case RepairStatus(o, _) => StatusTables(init, w.db, o, Completed);
    case RefundTarget(o, seen) => RefundTables(init, w.db, o, seen);
    case RefundRefused(o, seen) => RefundTables(init, w.db, o, seen);
    case RefundAbsent(o, seen) => RefundTables(init, w.db, o, seen);
    case ClaimOrder(o, _) => StatusTables(init, w.db, o, Provisioning);
    case PersistService(_, _) => DeliveringTables(init, place, w, p, q);
    case AdoptAccount(_, _, _) => DeliveringTables(init, place, w, p, q);
    case _ =>
  }

  lemma DeliveringTables(init: map<Id, int>, place: Places, w: World, p: Id, q: Oracle)
    requires p in w.procs && (w.procs[p].PersistService? || w.procs[p].AdoptAccount?) && Knows(place, w.db.orders, w.procs[p])
    requires ServicesOwned(w.db) && DbInv(init, w.db)
    ensures var x, t := w.procs[p], place(w.procs[p].o).target;
            && (x.PersistService? ==> TablesKept(init, w.db, PersistAdvance(w, p, t, q).db))
            && (x.AdoptAccount? ==> TablesKept(init, w.db, AdoptAdvance(w, p, t, q).db))
  {
    hide DbInv, ServicesOwned, TablesKept, Persist, Adopt;
    var x, t := w.procs[p], place(w.procs[p].o).target;
    StaysTables(init, w.db);
    TermsFields(x.seen, w.db.orders[x.o]);
    if q.service !in w.db.services {
      PersistTables(init, w.db, x.o, q.service, if x.PersistService? then ProvisionedService(x.o, x.seen, t.username, q.now)
                                                else AdoptedService(x.o, x.seen, t.username, x.reading));
    }
  }

  lemma StepTables(init: map<Id, int>, place: Places, w: World, e: Event)
    requires Base(init, place, w)
    ensures TablesKept(init, w.db, Step(place, w, e).db)
  {
    hide Base, DbInv, ServicesOwned, LocksSound, Knows, TablesKept, AdvanceProc, CrashProc, SettleTx;
    BaseParts(init, place, w);
    StaysTables(init, w.db);
    match e
    case Advance(p, q) => if p in w.procs && AtTarget(place, w.procs[p]) { AdvanceTables(init, place, w, p, q); }
    case Crash(p, fate) => if p in w.procs && AtTarget(place, w.procs[p]) { CrashShape(place, w, p, fate); }
    case Settle(r, fp, ids, now, expiresAt, held) =>
      if FreshIds(w.db, ids) && Priced(r) { SettleTables(init, w.db, r, fp, ids, now, expiresAt, held); }
    case _ =>
  }

  // ---- what every step keeps of the processes --------------------------------------------------------------

  lemma KnowledgeStays(place: Places, orders: map<Id, Order>, orders': map<Id, Order>, x: Proc)
    requires Knows(place, orders, x) && TermsKept(orders, orders')
    ensures Knows(place, orders', x)
  {
  }

  lemma LookerKnows(place: Places, w: World, x: Proc, q: Oracle)
    requires Knows(place, w.db.orders, x)
    ensures Knows(place, w.db.orders, Looked(place, w, x, q))
  {
  }

  lemma MoverKnows(place: Places, w: World, p: Id, q: Oracle)
    requires p in w.procs && Knows(place, w.db.orders, w.procs[p])
    ensures var w' := AdvanceProc(place, w, p, q); p in w'.procs && Knows(place, w.db.orders, w'.procs[p])
  {
    hide RefundDefinite, Persist, Adopt, ProvisionedService, AdoptedService, MarkCompleted, ClaimPaid, Looked, Sent;
    LookerKnows(place, w, w.procs[p], q);
  }

  lemma StepKeepsKnowledge(init: map<Id, int>, place: Places, w: World, e: Event)
    requires Base(init, place, w)
    ensures forall p :: p in Step(place, w, e).procs ==> Knows(place, Step(place, w, e).db.orders, Step(place, w, e).procs[p])
  {
    var w' := Step(place, w, e);
    StepTables(init, place, w, e);
    BaseParts(init, place, w);
    StepMovesOne(place, w, e);
    hide Base, DbInv, ServicesOwned, LocksSound, TermsKept, Step, AdvanceProc, Knows;
    forall p | p in w'.procs ensures Knows(place, w'.db.orders, w'.procs[p]) {
      if p in w.procs && w'.procs[p] == w.procs[p] {
        KnowledgeStays(place, w.db.orders, w'.db.orders, w.procs[p]);
      } else if p in w.procs {
        MoverKnows(place, w, p, e.q);
        KnowledgeStays(place, w.db.orders, w'.db.orders, w'.procs[p]);
      } else {
        ReaderKnows(place, w'.db.orders, w'.procs[p]);
      }
    }
  }

  lemma ReaderKnows(place: Places, orders: map<Id, Order>, x: Proc)
    requires x.ReadOrder?
    ensures Knows(place, orders, x)
  {
  }

  /** A step moves the process it names, if any, and no other. */
  lemma StepMovesOne(place: Places, w: World, e: Event)
    ensures forall p :: p in Step(place, w, e).procs && p in w.procs && Step(place, w, e).procs[p] != w.procs[p] ==>
              e.Advance? && e.p == p && AtTarget(place, w.procs[p]) && Step(place, w, e) == AdvanceProc(place, w, p, e.q)
    ensures forall p :: p in Step(place, w, e).procs && p !in w.procs ==> e.Begin? && Step(place, w, e).procs[p].ReadOrder?
  {
    hide AdvanceProc, CrashProc, SettleTx, LockMove;
    match e
    case Advance(p, q) =>
      if p in w.procs && AtTarget(place, w.procs[p]) {
        AdvanceMovesLock(place, w, p, q);
        OnlyMover(place, w, AdvanceProc(place, w, p, q), p);
      }
    case Crash(p, fate) => if p in w.procs && AtTarget(place, w.procs[p]) { CrashShape(place, w, p, fate); }
    case _ =>
  }

  lemma OnlyMover(place: Places, w: World, w': World, p: Id)
    requires p in w.procs && p in w'.procs && AtTarget(place, w.procs[p]) && LockMove(place, w, w', p)
    ensures w'.procs == w.procs[p := w'.procs[p]] && w'.procs[p].o == w.procs[p].o
  {
  }

  lemma StepKeepsBase(init: map<Id, int>, place: Places, w: World, e: Event)
    requires Base(init, place, w)
    ensures Base(init, place, Step(place, w, e))
  {
    hide DbInv, ServicesOwned, LocksSound, Knows, TermsKept, Step;
    StepTables(init, place, w, e);
    BaseParts(init, place, w);
    StepKeepsLocks(place, w, e);
    StepKeepsKnowledge(init, place, w, e);
  }

  // ---- what one process does to its order ----------------------------------------------------------------------

  /** All orders but `o` look the same. */
  ghost predicate OthersSame(db: Db, db': Db, o: Id) {
    db'.orders.Keys == db.orders.Keys && forall x :: x in db.orders && x != o ==> ViewOf(db', x) == ViewOf(db, x)
  }

  /** A move of a process on its order: everything it leaves behind is in order. */
  ghost predicate Moves(place: Places, db: Db, db': Db, x: Proc, x': Proc) {
    && x'.o == x.o && OthersSame(db, db', x.o)
    && (x.o !in db.orders ==> x'.Done? ==> x'.result == Busy)
    && (x.o in db.orders ==> var v, v' := ViewOf(db, x.o), ViewOf(db', x.o);
          Later(v, v') && OrderOk(v') && ProcOk(x', v') && (v' == v || Holds(x) || !place(x.o).At?))
  }

  /** A process that is not the one moving stays as sound as its own order's view allows. */
  lemma BystanderStaysOk(place: Places, w: World, db': Db, p: Id, q: Id, x': Proc)
    requires p in w.procs && q in w.procs && p != q && w.procs[q].o in w.db.orders
    requires ProcOk(w.procs[q], ViewOf(w.db, w.procs[q].o)) && OrderOk(ViewOf(w.db, w.procs[q].o))
    requires Moves(place, w.db, db', w.procs[p], x')
    requires LocksSound(place, w.locks, w.procs)
    ensures ProcOk(w.procs[q], ViewOf(db', w.procs[q].o))
  {
    var o := w.procs[q].o;
    if o == w.procs[p].o && ViewOf(db', o) != ViewOf(w.db, o) {
      assert !Holds(w.procs[q]);
    }
    hide LocksSound;
  }

  lemma MoveKeepsOrders(place: Places, db: Db, db': Db, x: Proc, x': Proc)
    requires Moves(place, db, db', x, x') && OrdersInv(db)
    ensures OrdersInv(db')
  {
    hide OrderOk, ProcOk, Later;
    forall o | o in db'.orders ensures OrderOk(ViewOf(db', o)) {
      assert o != x.o ==> ViewOf(db', o) == ViewOf(db, o);
    }
  }

  lemma MoveKeepsProcs(place: Places, w: World, w': World, p: Id)
    requires p in w.procs && p in w'.procs && w'.procs == w.procs[p := w'.procs[p]]
    requires forall q :: q in w'.procs ==> Knows(place, w'.db.orders, w'.procs[q])
    requires Moves(place, w.db, w'.db, w.procs[p], w'.procs[p])
    requires LocksSound(place, w.locks, w.procs) && OrdersInv(w.db) && ProcsInv(place, w.db, w.procs)
    ensures ProcsInv(place, w'.db, w'.procs)
  {
    hide LocksSound, Knows, OrderOk, ProcOk, Later;
    forall q | q in w'.procs ensures ProcSound(place, w'.db, w'.procs[q]) {
      if q != p && w.procs[q].o in w.db.orders {
        assert ProcSound(place, w.db, w.procs[q]);
        BystanderStaysOk(place, w, w'.db, p, q, w'.procs[p]);
      } else if q != p {
        assert ProcSound(place, w.db, w.procs[q]);
      }
    }
  }

  lemma MoveKeepsInv(init: map<Id, int>, place: Places, w: World, w': World, p: Id)
    requires p in w.procs && p in w'.procs && w'.procs == w.procs[p := w'.procs[p]]
    requires Moves(place, w.db, w'.db, w.procs[p], w'.procs[p]) && Base(init, place, w')
    requires Inv(init, place, w)
    ensures Inv(init, place, w')
  {
    hide Inv, Base, DbInv, ServicesOwned, LocksSound, Knows, Moves, OrdersInv, ProcsInv;
    Parts(init, place, w);
    BaseParts(init, place, w);
    BaseParts(init, place, w');
    MoveKeepsOrders(place, w.db, w'.db, w.procs[p], w'.procs[p]);
    MoveKeepsProcs(place, w, w', p);
    InvFrom(init, place, w');
  }

  lemma InvFrom(init: map<Id, int>, place: Places, w: World)
    requires Base(init, place, w) && OrdersInv(w.db) && ProcsInv(place, w.db, w.procs)
    ensures Inv(init, place, w)
  {
    hide Base, OrdersInv, ProcsInv;
  }

  lemma RefundViews(init: map<Id, int>, db: Db, o: Id, seen: Order)
    requires o in db.orders && seen.Terms() == db.orders[o].Terms() && OrderOk(ViewOf(db, o)) && DbInv(init, db)
    ensures var (db', done) := RefundDefinite(db, o, seen);
            var v := ViewOf(db, o);
            && OthersSame(db, db', o) && done == (Open(v.status) || v.status.Failed?)
            && ViewOf(db', o) == if Open(v.status) then v.(status := Failed, refunds := 1) else v
  {
    hide DbInv, RefundDefinite;
    RefundOutcome(init, db, o, seen);
  }

  predicate Refunding(x: Proc) {
    x.RefundTarget? || x.RefundRefused? || x.RefundAbsent?
  }

  function RefundedProc(x: Proc, done: bool): Proc {
    if x.RefundTarget? then Done(x.o, Refunded(done)) else ReleaseLock(x.o, Refunded(done))
  }

  lemma RefundedMoves(init: map<Id, int>, place: Places, db: Db, x: Proc)
    requires Refunding(x) && x.o in db.orders && ProcSound(place, db, x) && OrderOk(ViewOf(db, x.o)) && DbInv(init, db)
    ensures var (db', done) := RefundDefinite(db, x.o, x.seen); Moves(place, db, db', x, RefundedProc(x, done))
  {
    hide DbInv, RefundDefinite;
    RefundViews(init, db, x.o, x.seen);
    hide OthersSame, ViewOf;
  }

  lemma RefundShape(w: World, p: Id)
    requires p in w.procs && Refunding(w.procs[p])
    ensures var w', x := RefundAdvance(w, p), w.procs[p];
            var (db', done) := RefundDefinite(w.db, x.o, x.seen);
            w'.db == db' && p in w'.procs && w'.procs[p] == RefundedProc(x, done)
  {
    hide RefundDefinite;
  }

  lemma RefundMoves(init: map<Id, int>, place: Places, w: World, p: Id)
    requires p in w.procs && Refunding(w.procs[p])
    requires Inv(init, place, w)
    ensures var w' := RefundAdvance(w, p); p in w'.procs && Moves(place, w.db, w'.db, w.procs[p], w'.procs[p])
  {
    hide Inv, Base, DbInv, ServicesOwned, LocksSound, RefundDefinite, OrdersInv, ProcsInv, OrderOk, ProcOk, Moves, RefundAdvance;
    SoundAt(init, place, w, p);
    Parts(init, place, w);
    BaseParts(init, place, w);
    hide Knows;
    RefundShape(w, p);
    KnownOrder(place, w.db.orders, w.procs[p]);
    RefundedMoves(init, place, w.db, w.procs[p]);
  }

  lemma KnownOrder(place: Places, orders: map<Id, Order>, x: Proc)
    requires Knows(place, orders, x) && HasSeen(x)
    ensures x.o in orders && x.seen.Terms() == orders[x.o].Terms()
  {
  }

  lemma StatusViews(db: Db, o: Id, status: OrderStatus)
    requires o in db.orders
    ensures OthersSame(db, WithStatus(db, o, status), o)
    ensures ViewOf(WithStatus(db, o, status), o) == ViewOf(db, o).(status := status)
  {
    assert WithStatus(db, o, status).orders == db.orders[o := db.orders[o].(status := status)];
  }

  function ClaimedProc(x: Proc, claimed: bool): Proc
    requires x.ClaimOrder?
  {
    if claimed then CallPanel(x.o, x.seen) else ReleaseLock(x.o, Busy)
  }

  lemma ClaimedMoves(place: Places, db: Db, x: Proc)
    requires x.ClaimOrder? && x.o in db.orders && OrderOk(ViewOf(db, x.o))
    ensures var (db', ok) := ClaimPaid(db, x.o); Moves(place, db, db', x, ClaimedProc(x, ok))
  {
    hide WithStatus;
    StatusViews(db, x.o, Provisioning);
    StaysSame(db, x.o);
    hide OthersSame;
  }

  lemma ClaimShape(w: World, p: Id)
    requires p in w.procs && w.procs[p].ClaimOrder?
    ensures var w', x := ClaimAdvance(w, p), w.procs[p];
            var (db', ok) := ClaimPaid(w.db, x.o);
            w'.db == db' && p in w'.procs && w'.procs[p] == ClaimedProc(x, ok)
  {
    hide ClaimPaid;
  }

  lemma ClaimMoves(init: map<Id, int>, place: Places, w: World, p: Id)
    requires p in w.procs && w.procs[p].ClaimOrder?
    requires Inv(init, place, w)
    ensures var w' := ClaimAdvance(w, p); p in w'.procs && Moves(place, w.db, w'.db, w.procs[p], w'.procs[p])
  {
    hide Inv, ClaimPaid, ClaimAdvance, Moves, OrderOk, ProcOk;
    SoundAt(init, place, w, p);
    KnownOrder(place, w.db.orders, w.procs[p]);
    hide ProcSound;
    ClaimShape(w, p);
    ClaimedMoves(place, w.db, w.procs[p]);
  }

  lemma StaysSame(db: Db, o: Id)
    ensures OthersSame(db, db, o)
  {
  }

  lemma ServicesGrow(services: map<Id, Service>, s: Id, service: Service, x: Id)
    requires s !in services
    ensures ServicesOf(services[s := service], x) ==
            if service.order == Some(x) then ServicesOf(services, x) + {s} else ServicesOf(services, x)
  {
  }

  /** Storing the one service of an order and completing it. */
  lemma DeliverViews(db: Db, o: Id, s: Id, service: Service)
    requires o in db.orders && s !in db.services && service.order == Some(o)
    ensures var db' := WithStatus(db.(services := db.services[s := service]), o, Completed);
            && OthersSame(db, db', o)
            && ViewOf(db', o) == ViewOf(db, o).(status := Completed, services := ViewOf(db, o).services + {s})
  {
    var stored := db.(services := db.services[s := service]);
    forall x ensures ServicesOf(stored.services, x) == if x == o then ServicesOf(db.services, x) + {s} else ServicesOf(db.services, x) {
      ServicesGrow(db.services, s, service, x);
    }
    hide ServicesOf;
    assert WithStatus(stored, o, Completed).orders == db.orders[o := db.orders[o].(status := Completed)];
  }

  /** The one step that can spoil an order: a reconciler adopting an account for an order that is no longer open. */
  ghost predicate StaleAdoption(place: Places, w: World, e: Event) {
    && e.Advance? && e.p in w.procs && w.procs[e.p].AdoptAccount? && AtTarget(place, w.procs[e.p])
    && e.q.service !in w.db.services && w.procs[e.p].o in w.db.orders
    && ServicesOf(w.db.services, w.procs[e.p].o) == {} && !Open(w.db.orders[w.procs[e.p].o].status)
  }

  lemma DeliveredMoves(place: Places, db: Db, x: Proc, s: Id, service: Service)
    requires x.PersistService? || x.AdoptAccount?
    requires x.o in db.orders && s !in db.services && service.order == Some(x.o)
    requires Open(db.orders[x.o].status) && OrderOk(ViewOf(db, x.o))
    ensures Moves(place, db, WithStatus(db.(services := db.services[s := service]), x.o, Completed), x, ReleaseLock(x.o, Delivered))
  {
    DeliverViews(db, x.o, s, service);
    hide OthersSame, WithStatus, ServicesOf;
    assert {} + {s} == {s};
  }

  /** Nothing changes but where the process stands. */
  lemma StandsElsewhere(place: Places, db: Db, x: Proc, x': Proc)
    requires x'.o == x.o && (x.o !in db.orders && x'.Done? ==> x'.result == Busy)
    requires x.o in db.orders ==> OrderOk(ViewOf(db, x.o)) && ProcOk(x', ViewOf(db, x.o))
    ensures Moves(place, db, db, x, x')
  {
    hide OrderOk, ProcOk;
    StaysSame(db, x.o);
    hide OthersSame;
  }

  lemma PersistMoves(init: map<Id, int>, place: Places, w: World, p: Id, q: Oracle)
    requires p in w.procs && w.procs[p].PersistService? && place(w.procs[p].o).At?
    requires Inv(init, place, w)
    ensures var w' := PersistAdvance(w, p, place(w.procs[p].o).target, q);
            p in w'.procs && Moves(place, w.db, w'.db, w.procs[p], w'.procs[p])
  {
    hide Inv, WithStatus, Moves, ProvisionedService, ServicesOf;
    SoundAt(init, place, w, p);
    var x, t := w.procs[p], place(w.procs[p].o).target;
    StandsElsewhere(place, w.db, x, x);
    StandsElsewhere(place, w.db, x, ReleaseLock(x.o, Undecided));
    if !q.lost && q.service !in w.db.services {
      var service := ProvisionedService(x.o, x.seen, t.username, q.now);
      assert service.order == Some(x.o) by { ServiceNamesOrder(x.o, x.seen, t.username, q.now, Reading(None, None, None, None)); }
      DeliveredMoves(place, w.db, x, q.service, service);
    }
  }

  lemma ServiceNamesOrder(o: Id, seen: Order, username: Id, now: int, r: Reading)
    ensures ProvisionedService(o, seen, username, now).order == Some(o) && AdoptedService(o, seen, username, r).order == Some(o)
  {
  }

  lemma AdoptMoves(init: map<Id, int>, place: Places, w: World, p: Id, q: Oracle)
    requires p in w.procs && w.procs[p].AdoptAccount? && place(w.procs[p].o).At? && !StaleAdoption(place, w, Advance(p, q))
    requires Inv(init, place, w)
    ensures var w' := AdoptAdvance(w, p, place(w.procs[p].o).target, q);
            p in w'.procs && Moves(place, w.db, w'.db, w.procs[p], w'.procs[p])
  {
    hide Inv, WithStatus, Moves, AdoptedService, ServicesOf;
    SoundAt(init, place, w, p);
    var x, t := w.procs[p], place(w.procs[p].o).target;
    StandsElsewhere(place, w.db, x, x);
    if q.service !in w.db.services {
      if ServicesOf(w.db.services, x.o) == {} {
        var service := AdoptedService(x.o, x.seen, t.username, x.reading);
        ServiceNamesOrder(x.o, x.seen, t.username, 0, x.reading);
        DeliveredMoves(place, w.db, x, q.service, service);
      } else {
        StandsElsewhere(place, w.db, x, ReleaseLock(x.o, Delivered));
      }
    }
  }

  lemma LookedOk(place: Places, w: World, x: Proc, q: Oracle)
    requires ProcSound(place, w.db, x)
    requires x.o in w.db.orders ==> OrderOk(ViewOf(w.db, x.o)) && ProcOk(x, ViewOf(w.db, x.o))
    requires !x.ReleaseLock? && !x.AwaitLock?
    ensures var x' := Looked(place, w, x, q);
            && x'.o == x.o && (x.o !in w.db.orders && x'.Done? ==> x'.result == Busy)
            && (x.o in w.db.orders ==> ProcOk(x', ViewOf(w.db, x.o)))
  {
    hide Refunds;
  }

  lemma LookMoves(init: map<Id, int>, place: Places, w: World, p: Id, q: Oracle)
    requires p in w.procs && !w.procs[p].ReleaseLock? && !w.procs[p].AwaitLock?
    requires Inv(init, place, w)
    ensures Moves(place, w.db, w.db, w.procs[p], Looked(place, w, w.procs[p], q))
  {
    hide Inv, Moves, Looked, OrderOk, ProcOk, Knows;
    SoundAt(init, place, w, p);
    LookedOk(place, w, w.procs[p], q);
    hide ProcSound;
    StandsElsewhere(place, w.db, w.procs[p], Looked(place, w, w.procs[p], q));
  }

  lemma RepairMoves(init: map<Id, int>, place: Places, w: World, p: Id)
    requires p in w.procs && w.procs[p].RepairStatus?
    requires Inv(init, place, w)
    ensures Moves(place, w.db, MarkCompleted(w.db, w.procs[p].o), w.procs[p], Done(w.procs[p].o, Delivered))
  {
    hide Inv, Moves, WithStatus, ServicesOf, Refunds;
    SoundAt(init, place, w, p);
    StandsElsewhere(place, w.db, w.procs[p], Done(w.procs[p].o, Delivered));
  }

  lemma WaitMoves(init: map<Id, int>, place: Places, w: World, p: Id, x': Proc)
    requires p in w.procs && x'.o == w.procs[p].o
    requires (w.procs[p].ReleaseLock? && x' == Done(x'.o, w.procs[p].result))
             || ((w.procs[p].AwaitLock? || w.procs[p].CallPanel?) && (x' == w.procs[p] || x' == Done(x'.o, Busy)
                 || x'.ReadPanel? || x'.Recheck? || x' == ReleaseLock(x'.o, Undecided)))
             || (w.procs[p].CallPanel? && (x'.RefundRefused? || x'.PersistService?))
    requires Inv(init, place, w)
    ensures Moves(place, w.db, w.db, w.procs[p], x')
  {
    hide Inv, Moves, OrderOk, ServicesOf, Refunds;
    SoundAt(init, place, w, p);
    StandsElsewhere(place, w.db, w.procs[p], x');
  }

  lemma WaitingMoves(init: map<Id, int>, place: Places, w: World, p: Id, q: Oracle)
    requires p in w.procs && AtTarget(place, w.procs[p]) && (w.procs[p].AwaitLock? || w.procs[p].CallPanel? || w.procs[p].ReleaseLock?)
    requires Inv(init, place, w)
    ensures var w' := AdvanceProc(place, w, p, q); w'.db == w.db && p in w'.procs && Moves(place, w.db, w.db, w.procs[p], w'.procs[p])
  {
    hide Inv, Moves;
    WaitMoves(init, place, w, p, AdvanceProc(place, w, p, q).procs[p]);
  }

  lemma AdvanceMoves(init: map<Id, int>, place: Places, w: World, p: Id, q: Oracle)
    requires p in w.procs && AtTarget(place, w.procs[p]) && !StaleAdoption(place, w, Advance(p, q))
    requires Inv(init, place, w)
    ensures var w' := AdvanceProc(place, w, p, q); p in w'.procs && Moves(place, w.db, w'.db, w.procs[p], w'.procs[p])
  {
    hide Inv, RefundAdvance, AwaitAdvance, ClaimAdvance, CallAdvance, PersistAdvance, AdoptAdvance, ReleaseAdvance, Looked,
         MarkCompleted, Moves, StaleAdoption;
    match w.procs[p]
    case AwaitLock(_, _, _) => WaitingMoves(init, place, w, p, q);
    case CallPanel(_, _) => WaitingMoves(init, place, w, p, q);
    case ReleaseLock(_, _) => WaitingMoves(init, place, w, p, q);
    case RepairStatus(_, _) => RepairMoves(init, place, w, p);
    case RefundTarget(_, _) => RefundMoves(init, place, w, p);
    case RefundRefused(_, _) => RefundMoves(init, place, w, p);
    case RefundAbsent(_, _) => RefundMoves(init, place, w, p);
    case ClaimOrder(_, _) => ClaimMoves(init, place, w, p);
    case PersistService(_, _) => PersistMoves(init, place, w, p, q);
    case AdoptAccount(_, _, _) => AdoptMoves(init, place, w, p, q);
    case _ => LookMoves(init, place, w, p, q);
  }

  // ---- every step -------------------------------------------------------------------------------------------------

  /** A step that leaves the tables alone: processes may start or vanish. */
  lemma IdleKeepsInv(init: map<Id, int>, place: Places, w: World, w': World)
    requires w'.db == w.db && Base(init, place, w')
    requires forall p :: p in w'.procs ==> (p in w.procs && w'.procs[p] == w.procs[p]) || w'.procs[p].ReadOrder?
    requires Inv(init, place, w)
    ensures Inv(init, place, w')
  {
    hide Inv, Base, DbInv, ServicesOwned, LocksSound, OrderOk, ProcOk, OrdersInv;
    Parts(init, place, w);
    BaseParts(init, place, w');
    forall p | p in w'.procs ensures ProcSound(place, w'.db, w'.procs[p]) {
      if w'.procs[p].ReadOrder? { ReaderIsSound(place, w'.db, w'.procs[p]); }
    }
    InvFrom(init, place, w');
  }

  lemma ReaderIsSound(place: Places, db: Db, x: Proc)
    requires x.ReadOrder?
    ensures ProcSound(place, db, x)
  {
    ReaderKnows(place, db.orders, x);
    hide Knows;
  }

  lemma NewOrderViews(db: Db, db': Db, o: Id)
    requires OneMoreOrder(db, db', o) && ServicesOwned(db) && OrdersInv(db)
    ensures OrdersInv(db') && forall x :: x in db.orders ==> x in db'.orders && ViewOf(db', x) == ViewOf(db, x)
  {
    hide OrderOk;
    assert ServicesOf(db'.services, o) == {};
    forall x | x in db'.orders ensures OrderOk(ViewOf(db', x)) {
      if x == o {
        PaidIsOk(ViewOf(db', o));
      } else {
        assert OrderOk(ViewOf(db, x));
      }
    }
  }

  lemma PaidIsOk(v: View)
    requires v.status.Paid? && v.services == {} && v.refunds == 0
    ensures OrderOk(v)
  {
  }

  /** A process that has not read its order yet has nothing to be wrong about. */
  lemma NewOrderProc(place: Places, db: Db, db': Db, o: Id, x: Proc)
    requires ProcSound(place, db, x) && Knows(place, db'.orders, x) && o !in db.orders && db'.orders.Keys == db.orders.Keys + {o}
    requires x.o in db.orders ==> ViewOf(db', x.o) == ViewOf(db, x.o)
    ensures ProcSound(place, db', x)
  {
    hide ServicesOf, Refunds;
  }

  lemma NewOrderKeepsInv(init: map<Id, int>, place: Places, w: World, db': Db, o: Id)
    requires OneMoreOrder(w.db, db', o) && Base(init, place, w.(db := db'))
    requires Inv(init, place, w)
    ensures Inv(init, place, w.(db := db'))
  {
    hide Inv, Base, DbInv, ServicesOwned, LocksSound, OrdersInv, Knows, ViewOf;
    var w' := w.(db := db');
    Parts(init, place, w);
    BaseParts(init, place, w);
    BaseParts(init, place, w');
    NewOrderViews(w.db, db', o);
    assert db'.orders.Keys == w.db.orders.Keys + {o};
    hide OneMoreOrder;
    forall p | p in w'.procs ensures ProcSound(place, db', w'.procs[p]) {
      assert ProcSound(place, w.db, w.procs[p]);
      hide ProcSound;
      NewOrderProc(place, w.db, db', o, w.procs[p]);
    }
    InvFrom(init, place, w');
  }

  lemma SettleStep(init: map<Id, int>, place: Places, w: World, e: Event)
    requires e.Settle?
    requires Inv(init, place, w)
    ensures Inv(init, place, Step(place, w, e))
  {
    hide Inv, Base, DbInv, SettleTx, ServicesOwned, LocksSound, OneMoreOrder;
    Parts(init, place, w);
    StepKeepsBase(init, place, w, e);
    BaseParts(init, place, w);
    MoneyOf(init, w.db);
    if FreshIds(w.db, e.ids) && Priced(e.r) {
      SettleAddsOrder(init, w.db, e.r, e.fp, e.ids, e.now, e.expiresAt, e.held);
      var db' := SettleTx(w.db, e.r, e.fp, e.ids, e.now, e.expiresAt, e.held).0;
      if db' != w.db {
        NewOrderKeepsInv(init, place, w, db', e.ids.order);
      }
    }
  }

  lemma StepKeepsInv(init: map<Id, int>, place: Places, w: World, e: Event)
    requires !StaleAdoption(place, w, e)
    requires Inv(init, place, w)
    ensures Inv(init, place, Step(place, w, e))
  {
    hide Inv, Base, AdvanceProc, CrashProc, SettleTx, Moves, LockMove, StaleAdoption;
    Parts(init, place, w);
    StepKeepsBase(init, place, w, e);
    match e
    case Advance(p, q) =>
      if p in w.procs && AtTarget(place, w.procs[p]) {
        AdvanceMoves(init, place, w, p, q);
        AdvanceMovesLock(place, w, p, q);
        OnlyMover(place, w, AdvanceProc(place, w, p, q), p);
        MoveKeepsInv(init, place, w, AdvanceProc(place, w, p, q), p);
      }
    case Settle(_, _, _, _, _, _) => SettleStep(init, place, w, e);
    case Crash(p, fate) =>
      if p in w.procs && AtTarget(place, w.procs[p]) { CrashShape(place, w, p, fate); }
      IdleKeepsInv(init, place, w, Step(place, w, e));
    case _ => IdleKeepsInv(init, place, w, Step(place, w, e));
  }

  // ---- what is spoilt stays spoilt ---------------------------------------------------------------------------------

  /** Some order was delivered and refunded, or one of them twice. */
  ghost predicate Spoiled(db: Db) {
    exists o :: o in db.orders && |ServicesOf(db.services, o)| + Refunds(db.ledger, o) >= 2
  }

  /** Services and ledger rows are never taken away. */
  ghost predicate Grows(db: Db, db': Db) {
    && db.orders.Keys <= db'.orders.Keys && (forall s :: s in db.services ==> s in db'.services && db'.services[s] == db.services[s])
    && (forall o :: Refunds(db.ledger, o) <= Refunds(db'.ledger, o))
  }

  lemma RefundGrows(db: Db, o: Id, seen: Order)
    ensures Grows(db, RefundDefinite(db, o, seen).0)
  {
    hide Refunds, Credited;
    var closed := if o in db.orders then WithStatus(db, o, Failed) else db;
    if seen.user in db.users {
      CreditCounts(db, o, seen);
      CreditCounts(closed, o, seen);
      assert Credited(db, o, seen).services == db.services && Credited(closed, o, seen).services == db.services;
    }
  }

  lemma DeliverGrows(db: Db, o: Id, s: Id, service: Service)
    requires s !in db.services
    ensures Grows(db, Persist(db, o, s, service)) && Grows(db, Adopt(db, o, s, service))
  {
    hide ServicesOf;
  }

  lemma StatusGrows(db: Db, o: Id)
    ensures Grows(db, db) && Grows(db, MarkCompleted(db, o)) && Grows(db, ClaimPaid(db, o).0)
  {
  }

  lemma AdvanceGrows(place: Places, w: World, p: Id, q: Oracle)
    requires p in w.procs && AtTarget(place, w.procs[p])
    ensures Grows(w.db, AdvanceProc(place, w, p, q).db)
  {
    hide Grows, RefundDefinite, Persist, Adopt, MarkCompleted, ClaimPaid, Looked, ProvisionedService, AdoptedService;
    var x := w.procs[p];
    StatusGrows(w.db, x.o);
    match x
    case RefundTarget(o, seen) => RefundGrows(w.db, o, seen);
    case RefundRefused(o, seen) => RefundGrows(w.db, o, seen);
    case RefundAbsent(o, seen) => RefundGrows(w.db, o, seen);
    case PersistService(o, seen) =>
      if q.service !in w.db.services {
        DeliverGrows(w.db, o, q.service, ProvisionedService(o, seen, place(o).target.username, q.now));
      }
    case AdoptAccount(o, seen, reading) =>
      if q.service !in w.db.services {
        DeliverGrows(w.db, o, q.service, AdoptedService(o, seen, place(o).target.username, reading));
      }
    case _ =>
  }

  lemma StepGrows(init: map<Id, int>, place: Places, w: World, e: Event)
    requires Base(init, place, w)
    ensures Grows(w.db, Step(place, w, e).db)
  {
    hide Base, Grows, AdvanceProc, CrashProc, SettleTx, DbInv;
    StatusGrows(w.db, "");
    BaseParts(init, place, w);
    match e
    case Advance(p, q) => if p in w.procs && AtTarget(place, w.procs[p]) { AdvanceGrows(place, w, p, q); }
    case Crash(p, fate) => if p in w.procs && AtTarget(place, w.procs[p]) { CrashShape(place, w, p, fate); }
    case Settle(r, fp, ids, now, expiresAt, held) =>
      if FreshIds(w.db, ids) && Priced(r) {
        MoneyOf(init, w.db);
        SettleAddsOrder(init, w.db, r, fp, ids, now, expiresAt, held);
        SettleGrows(w.db, SettleTx(w.db, r, fp, ids, now, expiresAt, held).0, ids.order);
      }
    case _ =>
  }

  lemma SettleGrows(db: Db, db': Db, o: Id)
    requires db' == db || OneMoreOrder(db, db', o)
    ensures Grows(db, db')
  {
  }

  lemma SpoiltStays(db: Db, db': Db)
    requires Spoiled(db) && Grows(db, db')
    ensures Spoiled(db')
  {
    var o :| o in db.orders && |ServicesOf(db.services, o)| + Refunds(db.ledger, o) >= 2;
    assert ServicesOf(db.services, o) <= ServicesOf(db'.services, o);
    FewerServices(ServicesOf(db.services, o), ServicesOf(db'.services, o));
    hide ServicesOf;
    assert o in db'.orders && |ServicesOf(db'.services, o)| + Refunds(db'.ledger, o) >= 2;
  }

  lemma FewerServices(a: set<Id>, b: set<Id>)
    requires a <= b
    ensures |a| <= |b|
  {
    assert b == a + (b - a) && a !! (b - a);
  }

  /** A reconciler that adopts for a closed order delivers what was refunded. */
  lemma StaleSpoils(init: map<Id, int>, place: Places, w: World, e: Event)
    requires StaleAdoption(place, w, e)
    requires Inv(init, place, w)
    ensures Spoiled(Step(place, w, e).db)
  {
    hide Inv, AdoptedService, WithStatus, Spoiled, Step, ProcOk, Knows;
    var x, t := w.procs[e.p], place(w.procs[e.p].o).target;
    var service := AdoptedService(x.o, x.seen, t.username, x.reading);
    SoundAt(init, place, w, e.p);
    ServiceNamesOrder(x.o, x.seen, t.username, 0, x.reading);
    AdoptsAnyway(place, w, e);
    DeliverViews(w.db, x.o, e.q.service, service);
    hide ServicesOf, Refunds, StaleAdoption;
    ViewSpoils(Step(place, w, e).db, x.o, e.q.service);
  }

  lemma AdoptsAnyway(place: Places, w: World, e: Event)
    requires StaleAdoption(place, w, e)
    ensures var x, t := w.procs[e.p], place(w.procs[e.p].o).target;
            Step(place, w, e).db ==
            WithStatus(w.db.(services := w.db.services[e.q.service := AdoptedService(x.o, x.seen, t.username, x.reading)]), x.o, Completed)
  {
    hide AdoptedService, WithStatus, ServicesOf;
  }

  lemma ViewSpoils(db: Db, o: Id, s: Id)
    requires o in db.orders && ViewOf(db, o).services == {s} && ViewOf(db, o).refunds >= 1
    ensures Spoiled(db)
  {
    hide ServicesOf, Refunds;
    assert |ServicesOf(db.services, o)| + Refunds(db.ledger, o) >= 2;
  }

  // ---- every run ----------------------------------------------------------------------------------------------------

  /** No reconciler of the run adopted an account for an order that was no longer open. */
  ghost predicate NoneStale(place: Places, w: World, es: seq<Event>)
    decreases |es|
  {
    es == [] || (NoneStale(place, w, Front(es)) && !StaleAdoption(place, Run(place, w, Front(es)), Last(es)))
  }

  /** A database of settled but unexecuted orders, with no lock or process yet; the panels may hold anything. */
  ghost predicate Start(init: map<Id, int>, w: World) {
    && DbInv(init, w.db) && w.db.services == map[] && w.locks == map[] && w.procs == map[]
    && (forall o :: o in w.db.orders ==> w.db.orders[o].status.Paid? && Refunds(w.db.ledger, o) == 0)
  }

  lemma StartHasInv(init: map<Id, int>, place: Places, w: World)
    requires Start(init, w)
    ensures Inv(init, place, w)
  {
    hide DbInv;
    forall o | o in w.db.orders ensures OrderOk(ViewOf(w.db, o)) {
      assert ServicesOf(w.db.services, o) == {};
    }
  }

  lemma {:induction false} RunKeepsBase(init: map<Id, int>, place: Places, w: World, es: seq<Event>)
    requires Start(init, w)
    ensures Base(init, place, Run(place, w, es))
    decreases |es|
  {
    StartHasInv(init, place, w);
    hide Start, Base, Step;
    if es != [] {
      RunKeepsBase(init, place, w, Front(es));
      StepKeepsBase(init, place, Run(place, w, Front(es)), Last(es));
    }
  }

  lemma {:induction false} RunVerdict(init: map<Id, int>, place: Places, w: World, es: seq<Event>)
    requires Start(init, w)
    ensures if NoneStale(place, w, es) then Inv(init, place, Run(place, w, es)) else Spoiled(Run(place, w, es).db)
    decreases |es|
  {
    StartHasInv(init, place, w);
    hide Start, Inv, Step, StaleAdoption, Spoiled, Grows;
    if es != [] {
      RunVerdict(init, place, w, Front(es));
      var before := Run(place, w, Front(es));
      if !NoneStale(place, w, Front(es)) {
        RunKeepsBase(init, place, w, Front(es));
        StepGrows(init, place, before, Last(es));
        SpoiltStays(before.db, Step(place, before, Last(es)).db);
      } else if StaleAdoption(place, before, Last(es)) {
        StaleSpoils(init, place, before, Last(es));
      } else {
        StepKeepsInv(init, place, before, Last(es));
      }
    }
  }

  /** The final state of an order and of its money, read off the tables. */
  ghost predicate Finished(db: Db, o: Id)
    requires o in db.orders
  {
    && (db.orders[o].status.Completed? <==> |ServicesOf(db.services, o)| == 1)
    && (db.orders[o].status.Failed? <==> Refunds(db.ledger, o) == 1)
    && |ServicesOf(db.services, o)| + Refunds(db.ledger, o) <= 1
    && (forall s :: s in ServicesOf(db.services, o) ==> db.services[s].user == db.orders[o].user)
    && (forall i :: 0 <= i < |db.ledger| && db.ledger[i].order == o && db.ledger[i].kind.Refund? ==>
          db.ledger[i].amount == db.orders[o].price && db.ledger[i].user == db.orders[o].user)
  }

  /**
   In every run, whatever the panels answer and whenever requests land: every order is completed exactly when
   one service was delivered, to its buyer, failed exactly when its full price was refunded once, and never
   both, if and only if no reconciler adopted an account for an order that it had missed being closed.
   */
  lemma PurchaseOutcomes(init: map<Id, int>, place: Places, w: World, es: seq<Event>)
    requires Start(init, w)
    ensures var db := Run(place, w, es).db;
            (forall o :: o in db.orders ==> Finished(db, o)) <==> NoneStale(place, w, es)
  {
    RunVerdict(init, place, w, es);
    var w' := Run(place, w, es);
    hide Start, Run, Inv, NoneStale;
    if NoneStale(place, w, es) {
      forall o | o in w'.db.orders ensures Finished(w'.db, o) {
        OutcomeOf(init, place, w', o);
      }
    } else {
      var o :| o in w'.db.orders && |ServicesOf(w'.db.services, o)| + Refunds(w'.db.ledger, o) >= 2;
      assert !Finished(w'.db, o);
    }
  }

  lemma OutcomeOf(init: map<Id, int>, place: Places, w: World, o: Id)
    requires o in w.db.orders
    requires Inv(init, place, w)
    ensures Finished(w.db, o)
  {
    hide Inv, Base, DbInv, MoneyInv, LocksSound, Knows, OrdersInv, ProcsInv, ServicesOwned;
    Parts(init, place, w);
    BaseParts(init, place, w);
    MoneyOf(init, w.db);
    RefundRowsMatch(init, w.db, o);
    OrderAt(w.db, o);
    FinishedFromView(w.db, o);
  }

  lemma OrderAt(db: Db, o: Id)
    requires o in db.orders && OrdersInv(db)
    ensures OrderOk(ViewOf(db, o))
  {
  }

  lemma RefundRowsMatch(init: map<Id, int>, db: Db, o: Id)
    requires o in db.orders && MoneyInv(init, db)
    ensures forall i :: 0 <= i < |db.ledger| && db.ledger[i].order == o ==>
              db.ledger[i].amount == db.orders[o].price && db.ledger[i].user == db.orders[o].user
  {
    hide BooksBalance, RefundsAnswerSpends, OrdersArePaid;
  }

  lemma FinishedFromView(db: Db, o: Id)
    requires o in db.orders && OrderOk(ViewOf(db, o)) && ServicesOwned(db)
    requires forall i :: 0 <= i < |db.ledger| && db.ledger[i].order == o ==>
               db.ledger[i].amount == db.orders[o].price && db.ledger[i].user == db.orders[o].user
    ensures Finished(db, o)
  {
  }

  /** In every such run, what a call reported about its order stays true of the order. */
  lemma ReportsStayTrue(init: map<Id, int>, place: Places, w: World, es: seq<Event>, p: Id)
    requires Start(init, w) && NoneStale(place, w, es)
    ensures var w' := Run(place, w, es);
            p in w'.procs && w'.procs[p].Done? && w'.procs[p].result != Busy ==>
              && w'.procs[p].o in w'.db.orders
              && (w'.procs[p].result.Delivered? ==> w'.db.orders[w'.procs[p].o].status.Completed?)
              && (w'.procs[p].result == Refunded(true) ==> w'.db.orders[w'.procs[p].o].status.Failed?)
  {
    RunVerdict(init, place, w, es);
    var w' := Run(place, w, es);
    hide Start, Run, Inv, NoneStale, Knows, OrderOk;
    if p in w'.procs {
      SoundAt(init, place, w', p);
    }
  }

  /** In every run at all, spoilt or not, every wallet adds up, row by row, and none goes negative. */
  lemma WalletsAddUp(init: map<Id, int>, place: Places, w: World, es: seq<Event>, u: Id)
    requires Start(init, w) && u in init && init[u] >= 0
    ensures var db := Run(place, w, es).db;
            && u in db.users && Chained(db.ledger, u, init[u], db.users[u].balance)
            && db.users[u].balance == init[u] - Total(db.ledger, u, Spend) + Total(db.ledger, u, Refund) >= 0
            && Total(db.ledger, u, Refund) <= Total(db.ledger, u, Spend)
  {
    RunKeepsBase(init, place, w, es);
    hide Start, Run, Base, DbInv, ServicesOwned, LocksSound, Knows;
    BaseParts(init, place, Run(place, w, es));
    var db := Run(place, w, es).db;
    InvMoney(init, db);
    MoneyConserved(init, db, u);
    RefundsNeverExceedSpends(db.ledger, u);
  }

  lemma InvMoney(init: map<Id, int>, db: Db)
    requires DbInv(init, db)
    ensures MoneyInv(init, db) && db.users.Keys == init.Keys
    ensures forall u :: u in db.users ==> UserMoney(init[u], db.ledger, u, db.users[u])
    ensures RefundsAnswerSpends(db.ledger)
  {
    hide DbInv;
    MoneyOf(init, db);
    hide RefundsAnswerSpends, RowsHaveOrders, OrdersArePaid, UserMoney;
  }
}
