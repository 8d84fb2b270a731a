/**
 Interleaved runs of operation executors and reconcilers over one database and one panel.
 A service's lock is exclusive while its holder lives; everything else, crashes and late
 requests included, may happen in any order.
 */
module OperationRuns {
  import opened Wrappers
  import opened CommerceDb
  import opened Ledger
  import opened Settlement
  import opened Execution
  import opened Operations

  datatype Result = Delivered | Refunded(done: bool) | Undecided | Busy

  /** What a reconciler read from the panel; absent usage figures leave the row's figures alone. */
  datatype PanelReading = PanelReading(remote: Remote, remaining: Option<int>, used: Option<int>)

  datatype Proc =
    | AwaitLock(o: Id, s: Id)
    | Decide(o: Id, s: Id)
    | RefundNow(o: Id, s: Id, seen: Order)
    | ClaimOrder(o: Id, s: Id, seen: Order, row: Service, now: int)
    | CallPanel(o: Id, s: Id, seen: Order, row: Service, now: int)
    | PersistResult(o: Id, s: Id, seen: Order, row: Service, now: int, answer: Response)
    | SweepAwait(o: Id, s: Id, seen: Order, intent: IntentData)
    | SweepRead(o: Id, s: Id, seen: Order, intent: IntentData)
    | SweepComplete(o: Id, s: Id, seen: Order, reading: PanelReading)
    | ReleaseLock(o: Id, s: Id, result: Result)
    | Done(o: Id, s: Id, result: Result)

  predicate Holds(x: Proc) {
    !x.AwaitLock? && !x.SweepAwait? && !x.Done?
  }

  predicate HasSeen(x: Proc) {
    x.RefundNow? || x.ClaimOrder? || x.CallPanel? || x.PersistResult? || x.SweepAwait? || x.SweepRead? || x.SweepComplete?
  }

  /** A panel may make of a request what it likes: `held` is what it holds once the request has taken effect. */
  datatype Fate = Arrived(held: Remote) | OnItsWay | Dropped

  /** A refusal that the adapter calls definite is only true of the panel when its fate is `Dropped`. */
  datatype Answer = Accepted(response: Response, held: Remote) | RefusedForCertain(fate: Fate) | Unclear(fate: Fate)

  /** One call of an order to the panel. */
  datatype Call = Call(o: Id, s: Id, asked: Remote)

  datatype Oracle = Oracle(
    giveUp: bool, now: int, panelActive: bool, answer: Answer, lost: bool, readable: bool,
    remaining: Option<int>, used: Option<int>)

  /** `called` and `landed` count, per order, the calls that were made and those that took effect on the panel. */
  datatype World = World(
    db: Db, panel: map<Id, Remote>, inflight: set<Call>, called: multiset<Id>, landed: multiset<Id>,
    locks: map<Id, Id>, procs: map<Id, Proc>)

  datatype Event =
    | Begin(p: Id, o: Id)
    | BeginSweep(p: Id, o: Id)
    | Advance(p: Id, q: Oracle)
    | Crash(p: Id, fate: Fate)
    | Late(c: Call, held: Remote)

  function Goto(w: World, p: Id, x: Proc): World {
    w.(procs := w.procs[p := x])
  }

  /** The newest intent recorded for an order. */
  function LastIntent(events: seq<ServiceEvent>, o: Id): Option<IntentData>
    decreases |events|
  {
    if events == [] then None
    else if Last(events).kind.Intent? && Last(events).order == o then Last(events).intent
    else LastIntent(Front(events), o)
  }

  predicate IsIntentOf(e: ServiceEvent, o: Id) {
    e.kind == Intent && e.order == o
  }

  /** What a reconciler judges by was recorded for this very order, by its last such event. */
  lemma {:induction false} LastIntentIsOwn(events: seq<ServiceEvent>, o: Id)
    ensures LastIntent(events, o).Some? ==>
              exists k :: 0 <= k < |events| && IsIntentOf(events[k], o) && events[k].intent == LastIntent(events, o)
                          && forall j :: k < j < |events| ==> !IsIntentOf(events[j], o)
    ensures LastIntent(events, o).None? ==> forall j :: 0 <= j < |events| && IsIntentOf(events[j], o) && events[j].intent.Some? ==>
              exists k :: j < k < |events| && IsIntentOf(events[k], o)
    decreases |events|
  {
    if events != [] {
      var front := Front(events);
      LastIntentIsOwn(front, o);
      assert forall k :: 0 <= k < |front| ==> front[k] == events[k];
      if !IsIntentOf(Last(events), o) {
        assert LastIntent(events, o) == LastIntent(front, o);
      } else {
        assert events[|events| - 1] == Last(events);
        if LastIntent(events, o).None? {
          forall j | 0 <= j < |events| && IsIntentOf(events[j], o) && events[j].intent.Some?
            ensures exists k :: j < k < |events| && IsIntentOf(events[k], o) {
            assert j < |events| - 1 && IsIntentOf(events[|events| - 1], o);
          }
        }
      }
    }
  }

  function Decided(db: Db, o: Id, s: Id, q: Oracle): Proc {
    if o !in db.orders then ReleaseLock(o, s, Busy)
    else
      var order := db.orders[o];
      if AppliedCount(db.events, o) > 0 && s in db.services then ReleaseLock(o, s, Delivered)
      else if !order.status.Paid? then ReleaseLock(o, s, Busy)
      else if s !in db.services || db.services[s].user != order.user || db.services[s].deleted || !q.panelActive
        then RefundNow(o, s, order)
      else if InvalidGrant(db.services[s], order) then RefundNow(o, s, order)
      else ClaimOrder(o, s, order, db.services[s], q.now)
  }

  function AwaitAdvance(w: World, p: Id, x: Proc, next: Proc, giveUp: bool): World {
    if giveUp then Goto(w, p, Done(x.o, x.s, Busy))
    else if x.s in w.locks then w
    else Goto(w.(locks := w.locks[x.s := p]), p, next)
  }

  function RefundAdvance(w: World, p: Id, x: Proc): World
    requires x.RefundNow?
  {
    var (db', done) := RefundDefinite(w.db, x.o, x.seen);
    Goto(w.(db := db'), p, ReleaseLock(x.o, x.s, Refunded(done)))
  }

  function ClaimAdvance(w: World, p: Id, x: Proc): World
    requires x.ClaimOrder?
  {
    var (db', ok) := ClaimOperation(w.db, x.o, x.s, IntentOf(x.row, Expected(x.row, x.seen, x.now)));
    Goto(w.(db := db'), p, ClaimedProc(x, ok))
  }

  function ClaimedProc(x: Proc, ok: bool): Proc
    requires x.ClaimOrder?
  {
    if ok then CallPanel(x.o, x.s, x.seen, x.row, x.now) else ReleaseLock(x.o, x.s, Busy)
  }

  function Asked(x: Proc): Remote
    requires x.CallPanel?
  {
    var post := Expected(x.row, x.seen, x.now);
    Remote(post.total, post.expiresAt)
  }

  /** The call is made, and this becomes of it. */
  function Sent(w: World, c: Call, fate: Fate): World {
    var called := w.called + multiset{c.o};
    match fate
    case Arrived(held) => w.(called := called, panel := w.panel[c.s := held], landed := w.landed + multiset{c.o})
    case OnItsWay => w.(called := called, inflight := w.inflight + {c})
    case Dropped => w.(called := called)
  }

  function CallOf(x: Proc): Call
    requires x.CallPanel?
  {
    Call(x.o, x.s, Asked(x))
  }

  function FateOf(answer: Answer): Fate {
    if answer.Accepted? then Arrived(answer.held) else answer.fate
  }

  function Answered(x: Proc, answer: Answer): Proc
    requires x.CallPanel?
  {
    match answer
    case Accepted(response, _) => PersistResult(x.o, x.s, x.seen, x.row, x.now, response)
    case RefusedForCertain(_) => RefundNow(x.o, x.s, x.seen)
    case Unclear(_) => ReleaseLock(x.o, x.s, Undecided)
  }

  function CallAdvance(w: World, p: Id, x: Proc, answer: Answer): World
    requires x.CallPanel?
  {
    Goto(Sent(w, CallOf(x), FateOf(answer)), p, Answered(x, answer))
  }

  function PersistAdvance(w: World, p: Id, x: Proc, lost: bool): World
    requires x.PersistResult?
  {
    if lost || x.s !in w.db.services then Goto(w, p, ReleaseLock(x.o, x.s, Undecided))
    else
      var row := AppliedRow(w.db.services[x.s], Expected(x.row, x.seen, x.now), x.answer);
      Goto(w.(db := PersistOperation(w.db, x.o, x.s, row)), p, ReleaseLock(x.o, x.s, Delivered))
  }

  function SweepJudged(w: World, x: Proc, q: Oracle): Proc
    requires x.SweepRead?
  {
    if !q.readable || x.s !in w.panel then ReleaseLock(x.o, x.s, Undecided)
    else match Judge(x.intent, w.panel[x.s])
      case Landed => SweepComplete(x.o, x.s, x.seen, PanelReading(w.panel[x.s], q.remaining, q.used))
      case Absent => RefundNow(x.o, x.s, x.seen)
      case Ambiguous => ReleaseLock(x.o, x.s, Undecided)
  }

  /** A reconciler that reads no volume limit never goes on to refund. */
  lemma UnlimitedReadNeverRefunds(w: World, x: Proc, q: Oracle)
    requires x.SweepRead? && x.s in w.panel && w.panel[x.s].total.None?
    ensures !SweepJudged(w, x, q).RefundNow?
  {
    UnlimitedNeverAbsent(x.intent, w.panel[x.s].expiresAt);
    hide Judge;
  }

  function ReadRow(s: Service, r: PanelReading): Service {
    s.(volumeBytes := r.remote.total.GetOr(0), expiresAt := r.remote.expiresAt,
       remaining := r.remaining.GetOr(s.remaining), used := r.used.GetOr(s.used))
  }

  function CompleteAdvance(w: World, p: Id, x: Proc): World
    requires x.SweepComplete?
  {
    if x.s !in w.db.services then Goto(w, p, ReleaseLock(x.o, x.s, Undecided))
    else
      var row := ReadRow(w.db.services[x.s], x.reading);
      Goto(w.(db := CompleteReconciled(w.db, x.o, x.s, row)), p, ReleaseLock(x.o, x.s, Delivered))
  }

  function AdvanceProc(w: World, p: Id, q: Oracle): World
    requires p in w.procs
  {
    var x := w.procs[p];
    match x
    case AwaitLock(o, s) => AwaitAdvance(w, p, x, Decide(o, s), q.giveUp)
    case SweepAwait(o, s, seen, intent) => AwaitAdvance(w, p, x, SweepRead(o, s, seen, intent), q.giveUp)
    case Decide(o, s) => Goto(w, p, Decided(w.db, o, s, q))
    case RefundNow(_, _, _) => RefundAdvance(w, p, x)
    case ClaimOrder(_, _, _, _, _) => ClaimAdvance(w, p, x)
    case CallPanel(_, _, _, _, _) => CallAdvance(w, p, x, q.answer)
    case PersistResult(_, _, _, _, _, _) => PersistAdvance(w, p, x, q.lost)
    case SweepRead(_, _, _, _) => Goto(w, p, SweepJudged(w, x, q))
    case SweepComplete(_, _, _, _) => CompleteAdvance(w, p, x)
    case ReleaseLock(o, s, result) => Goto(w.(locks := w.locks - {s}), p, Done(o, s, result))
    case Done(_, _, _) => w
  }

  function CrashProc(w: World, p: Id, fate: Fate): World
    requires p in w.procs
  {
    var x := w.procs[p];
    var w1 := if x.CallPanel? then Sent(w, CallOf(x), fate) else w;
    w1.(locks := if Holds(x) then w1.locks - {x.s} else w1.locks, procs := w1.procs - {p})
  }

  function Step(w: World, e: Event): World {
    match e
    case Begin(p, o) =>
      if p in w.procs || o !in w.db.orders || !IsOperation(w.db.orders[o].kind) || w.db.orders[o].service.None? then w
      else Goto(w, p, AwaitLock(o, w.db.orders[o].service.value))
    case BeginSweep(p, o) =>
      if p in w.procs || o !in w.db.orders || !IsOperation(w.db.orders[o].kind) || w.db.orders[o].service.None? ||
         !w.db.orders[o].status.Provisioning? || LastIntent(w.db.events, o).None? ||
         w.db.orders[o].service.value !in w.db.services ||
         w.db.services[w.db.orders[o].service.value].user != w.db.orders[o].user then w
      else Goto(w, p, SweepAwait(o, w.db.orders[o].service.value, w.db.orders[o], LastIntent(w.db.events, o).value))
    case Advance(p, q) => if p in w.procs then AdvanceProc(w, p, q) else w
    case Crash(p, fate) => if p in w.procs then CrashProc(w, p, fate) else w
    case Late(c, held) =>
      if c in w.inflight
      then w.(inflight := w.inflight - {c}, panel := w.panel[c.s := held], landed := w.landed + multiset{c.o}) else w
  }

  function Run(w: World, es: seq<Event>): World
    decreases |es|
  {
    if es == [] then w else Step(Run(w, Front(es)), Last(es))
  }

  // ---- one order seen from outside ------------------------------------------------------------------------

  datatype View = View(status: OrderStatus, applied: nat, refunds: nat)

  function ViewOf(db: Db, o: Id): View
    requires o in db.orders
  {
    View(db.orders[o].status, AppliedCount(db.events, o), Refunds(db.ledger, o))
  }

  /** Applied once, refunded once, or neither yet. */
  predicate OrderOk(v: View) {
    v.applied == (if v.status.Completed? then 1 else 0) && v.refunds == (if v.status.Failed? then 1 else 0)
  }

  predicate ResultOk(r: Result, v: View) {
    (r.Delivered? ==> v.status.Completed?) && (r == Refunded(true) ==> v.status.Failed?)
  }

  predicate ProcOk(x: Proc, v: View) {
    && (x.CallPanel? || x.PersistResult? ==> v.status.Provisioning?)
    && (x.SweepAwait? || x.SweepRead? || x.SweepComplete? ==> !v.status.Paid?)
    && (x.ReleaseLock? || x.Done? ==> ResultOk(x.result, v))
  }

  predicate Later(v: View, v': View) {
    && (v.status.Completed? ==> v'.status.Completed?)
    && (v.status.Failed? ==> v'.status.Failed?)
    && (!v.status.Paid? ==> !v'.status.Paid?)
  }

  ghost predicate ProcSound(db: Db, x: Proc) {
    && x.o in db.orders && db.orders[x.o].service == Some(x.s) && IsOperation(db.orders[x.o].kind)
    && (HasSeen(x) ==> x.seen.Terms() == db.orders[x.o].Terms())
    && ProcOk(x, ViewOf(db, x.o))
  }

  ghost predicate LocksSound(locks: map<Id, Id>, procs: map<Id, Proc>) {
    && (forall s :: s in locks ==> locks[s] in procs && Holds(procs[locks[s]]) && procs[locks[s]].s == s)
    && (forall p :: p in procs && Holds(procs[p]) ==> procs[p].s in locks && locks[procs[p].s] == p)
  }

  ghost predicate OrdersInv(db: Db) {
    forall o :: o in db.orders ==> OrderOk(ViewOf(db, o))
  }

  ghost predicate ProcsInv(db: Db, procs: map<Id, Proc>) {
    forall p :: p in procs ==> ProcSound(db, procs[p])
  }

  ghost predicate Inv(init: map<Id, int>, w: World) {
    DbInv(init, w.db) && OrdersInv(w.db) && ProcsInv(w.db, w.procs) && LocksSound(w.locks, w.procs)
  }

  // ---- one process moves --------------------------------------------------------------------------------------

  /** Only order `o` may look different afterwards. */
  ghost predicate OthersSame(db: Db, db': Db, o: Id) {
    && SameTerms(db.orders, db'.orders)
    && forall x :: x in db.orders && x != o ==> ViewOf(db', x) == ViewOf(db, x)
  }

  lemma BystanderStaysSound(db: Db, db': Db, w: World, p: Id, q: Id)
    requires p in w.procs && q in w.procs && p != q && Holds(w.procs[p])
    requires ProcSound(db, w.procs[p]) && ProcSound(db, w.procs[q]) && LocksSound(w.locks, w.procs)
    requires OthersSame(db, db', w.procs[p].o) && Later(ViewOf(db, w.procs[p].o), ViewOf(db', w.procs[p].o))
    ensures ProcSound(db', w.procs[q])
  {
    TermsFields(db'.orders[w.procs[q].o], db.orders[w.procs[q].o]);
    if w.procs[q].o == w.procs[p].o {
      assert !Holds(w.procs[q]);
    }
  }

  /** The holder of a service's lock moves one order of that service and everybody else stays sound. */
  lemma HolderMove(w: World, db': Db, p: Id, x': Proc)
    requires p in w.procs && Holds(w.procs[p]) && w.procs[p].o in w.db.orders
    requires OthersSame(w.db, db', w.procs[p].o) && Later(ViewOf(w.db, w.procs[p].o), ViewOf(db', w.procs[p].o))
    requires OrderOk(ViewOf(db', w.procs[p].o)) && ProcSound(db', x')
    requires OrdersInv(w.db) && ProcsInv(w.db, w.procs) && LocksSound(w.locks, w.procs)
    ensures OrdersInv(db') && ProcsInv(db', w.procs[p := x'])
  {
    hide OrderOk, Later, ProcSound, LocksSound;
    forall q | q in w.procs && q != p ensures ProcSound(db', w.procs[q]) {
      assert ProcSound(w.db, w.procs[p]) && ProcSound(w.db, w.procs[q]);
      BystanderStaysSound(w.db, db', w, p, q);
    }
  }

  lemma KeepLock(w: World, p: Id, x': Proc)
    requires p in w.procs && x'.s == w.procs[p].s && Holds(x') == Holds(w.procs[p])
    requires LocksSound(w.locks, w.procs)
    ensures LocksSound(w.locks, w.procs[p := x'])
  {
  }

  lemma TakeLock(w: World, p: Id, x': Proc)
    requires p in w.procs && !Holds(w.procs[p]) && Holds(x') && x'.s !in w.locks
    requires LocksSound(w.locks, w.procs)
    ensures LocksSound(w.locks[x'.s := p], w.procs[p := x'])
  {
  }

  lemma DropLock(w: World, p: Id, x': Proc)
    requires p in w.procs && Holds(w.procs[p]) && !Holds(x')
    requires LocksSound(w.locks, w.procs)
    ensures LocksSound(w.locks - {w.procs[p].s}, w.procs[p := x'])
    ensures LocksSound(w.locks - {w.procs[p].s}, w.procs - {p})
  {
  }

  // ---- what each transaction does to the views ------------------------------------------------------------------

  lemma ClaimViews(db: Db, o: Id, s: Id, intent: IntentData)
    requires o in db.orders
    ensures var (db', ok) := ClaimOperation(db, o, s, intent);
            && OthersSame(db, db', o) && ok == db.orders[o].status.Paid?
            && ViewOf(db', o) == ViewOf(db, o).(status := if ok then Provisioning else db.orders[o].status)
  {
    var db' := ClaimOperation(db, o, s, intent).0;
    if db.orders[o].status.Paid? {
      AppendEvent(db.events, ServiceEvent(Intent, s, o, Some(intent)));
      OneStatus(db.orders, o, Provisioning);
      assert db'.ledger == db.ledger && db'.orders == db.orders[o := db.orders[o].(status := Provisioning)];
      hide ClaimOperation, SameTerms;
    }
  }

  lemma StoreViews(db: Db, o: Id, s: Id, row: Service)
    requires o in db.orders
    ensures var db' := CompleteReconciled(db, o, s, row);
            && OthersSame(db, db', o)
            && ViewOf(db', o) == ViewOf(db, o).(status := Completed, applied := ViewOf(db, o).applied + 1)
    ensures db.orders[o].status.Provisioning? ==> PersistOperation(db, o, s, row) == CompleteReconciled(db, o, s, row)
  {
    AppendEvent(db.events, ServiceEvent(Applied, s, o, None));
  }

  lemma RefundViews(db: Db, db': Db, o: Id, done: bool)
    requires o in db.orders && RefundEffect(db, db', o, done) && db'.events == db.events
    ensures OthersSame(db, db', o)
    ensures var v := ViewOf(db, o);
            ViewOf(db', o) == if Open(v.status) then v.(status := Failed, refunds := v.refunds + 1) else v
  {
  }

  lemma RefundKeepsEvents(db: Db, o: Id, seen: Order)
    ensures RefundDefinite(db, o, seen).0.events == db.events && RefundDefinite(db, o, seen).0.services == db.services
  {
  }

  /** Same money, same pairings: only statuses, services and events may differ. */
  ghost predicate OnlyStatuses(db: Db, db': Db) {
    && db'.users == db.users && db'.ledger == db.ledger && SameTerms(db.orders, db'.orders)
    && db'.payments == db.payments && db'.checkouts == db.checkouts && db'.usages == db.usages && db'.codes == db.codes
  }

  lemma StoreOnlyStatuses(db: Db, o: Id, s: Id, row: Service)
    requires o in db.orders
    ensures OnlyStatuses(db, CompleteReconciled(db, o, s, row))
  {
    var db' := CompleteReconciled(db, o, s, row);
    assert db'.orders == db.orders[o := db.orders[o].(status := Completed)];
    OneStatus(db.orders, o, Completed);
  }

  lemma ClaimOnlyStatuses(db: Db, o: Id, s: Id, intent: IntentData)
    requires o in db.orders
    ensures OnlyStatuses(db, ClaimOperation(db, o, s, intent).0)
  {
    var db' := ClaimOperation(db, o, s, intent).0;
    assert db'.orders == db.orders || db'.orders == db.orders[o := db.orders[o].(status := Provisioning)];
    OneStatus(db.orders, o, Provisioning);
  }

  lemma OnlyStatusesKeepDbInv(init: map<Id, int>, db: Db, db': Db)
    requires OnlyStatuses(db, db')
    requires DbInv(init, db)
    ensures DbInv(init, db')
  {
    hide DbInv;
    StatusKeepsDbInv(init, db, db');
  }

  // ---- every step ---------------------------------------------------------------------------------------------

  lemma SoundAt(init: map<Id, int>, w: World, p: Id)
    requires p in w.procs
    requires Inv(init, w)
    ensures ProcSound(w.db, w.procs[p]) && OrderOk(ViewOf(w.db, w.procs[p].o))
  {
    hide DbInv, OrderOk, ProcOk, LocksSound;
  }

  /** A process takes a step that leaves the database alone. */
  lemma QuietMove(init: map<Id, int>, w: World, w': World, p: Id)
    requires w'.db == w.db && LocksSound(w'.locks, w'.procs)
    requires p in w'.procs && ProcSound(w.db, w'.procs[p]) && w'.procs == w.procs[p := w'.procs[p]]
    requires Inv(init, w)
    ensures Inv(init, w')
  {
    hide DbInv, LocksSound, OrdersInv, ProcSound;
  }

  /** A transaction that a lock's holder may commit on its own order, going on as x'. */
  ghost predicate Moves(db: Db, db': Db, x: Proc, x': Proc) {
    && x.o in db.orders && x'.s == x.s && Holds(x) && Holds(x')
    && OthersSame(db, db', x.o) && Later(ViewOf(db, x.o), ViewOf(db', x.o))
    && OrderOk(ViewOf(db', x.o)) && ProcSound(db', x')
  }

  lemma CommitMove(init: map<Id, int>, w: World, db': Db, p: Id, x': Proc)
    requires p in w.procs && Moves(w.db, db', w.procs[p], x') && DbInv(init, db')
    requires Inv(init, w)
    ensures Inv(init, Goto(w.(db := db'), p, x'))
  {
    hide DbInv, OthersSame, Later, OrderOk, ProcSound;
    Parts(init, w);
    hide OrdersInv, ProcsInv, LocksSound;
    HolderMove(w, db', p, x');
    KeepLock(w, p, x');
  }

  lemma Parts(init: map<Id, int>, w: World)
    requires Inv(init, w)
    ensures DbInv(init, w.db) && OrdersInv(w.db) && ProcsInv(w.db, w.procs) && LocksSound(w.locks, w.procs)
  {
    hide DbInv, OrdersInv, ProcsInv, LocksSound;
  }

  lemma RefundStep(init: map<Id, int>, w: World, p: Id)
    requires p in w.procs && w.procs[p].RefundNow?
    requires Inv(init, w)
    ensures Inv(init, RefundAdvance(w, p, w.procs[p]))
  {
    hide Inv, DbInv, OrdersInv, ProcsInv, LocksSound, Moves;
    Parts(init, w);
    SoundAt(init, w, p);
    hide ProcSound, OrderOk;
    var x := w.procs[p];
    RefundMoves(init, w.db, x);
    RefundKeeps(init, w.db, x);
    CommitMove(init, w, RefundDefinite(w.db, x.o, x.seen).0, p, ReleaseLock(x.o, x.s, Refunded(RefundDefinite(w.db, x.o, x.seen).1)));
  }

  lemma RefundKeeps(init: map<Id, int>, db: Db, x: Proc)
    requires x.RefundNow? && ProcSound(db, x) && DbInv(init, db)
    ensures DbInv(init, RefundDefinite(db, x.o, x.seen).0)
  {
    hide DbInv;
    RefundKeepsDbInv(init, db, x.o, x.seen);
  }

  lemma RefundMoves(init: map<Id, int>, db: Db, x: Proc)
    requires x.RefundNow? && ProcSound(db, x) && OrderOk(ViewOf(db, x.o)) && DbInv(init, db)
    ensures var (db', done) := RefundDefinite(db, x.o, x.seen); Moves(db, db', x, ReleaseLock(x.o, x.s, Refunded(done)))
  {
    hide DbInv;
    var (db', done) := RefundDefinite(db, x.o, x.seen);
    RefundOutcome(init, db, x.o, x.seen);
    RefundKeepsEvents(db, x.o, x.seen);
    hide RefundDefinite;
    RefundViews(db, db', x.o, done);
    hide OthersSame;
    RefundedSound(db, db', x, done);
  }

  lemma RefundedSound(db: Db, db': Db, x: Proc, done: bool)
    requires x.RefundNow? && ProcSound(db, x) && RefundEffect(db, db', x.o, done) && OrderOk(ViewOf(db, x.o))
    requires var v := ViewOf(db, x.o);
             ViewOf(db', x.o) == if Open(v.status) then v.(status := Failed, refunds := v.refunds + 1) else v
    ensures ProcSound(db', ReleaseLock(x.o, x.s, Refunded(done)))
    ensures OrderOk(ViewOf(db', x.o)) && Later(ViewOf(db, x.o), ViewOf(db', x.o))
  {
  }

  lemma ClaimStep(init: map<Id, int>, w: World, p: Id)
    requires p in w.procs && w.procs[p].ClaimOrder?
    requires Inv(init, w)
    ensures Inv(init, ClaimAdvance(w, p, w.procs[p]))
  {
    hide Inv, DbInv, OrdersInv, ProcsInv, LocksSound, Moves, Expected;
    Parts(init, w);
    SoundAt(init, w, p);
    var x := w.procs[p];
    var intent := IntentOf(x.row, Expected(x.row, x.seen, x.now));
    ClaimMoves(w.db, x, intent);
    ClaimOnlyStatuses(w.db, x.o, x.s, intent);
    hide ClaimOperation, OnlyStatuses, ProcSound, OrderOk;
    OnlyStatusesKeepDbInv(init, w.db, ClaimOperation(w.db, x.o, x.s, intent).0);
    CommitMove(init, w, ClaimOperation(w.db, x.o, x.s, intent).0, p, ClaimedProc(x, ClaimOperation(w.db, x.o, x.s, intent).1));
  }

  lemma ClaimMoves(db: Db, x: Proc, intent: IntentData)
    requires x.ClaimOrder? && ProcSound(db, x) && OrderOk(ViewOf(db, x.o))
    ensures var (db', ok) := ClaimOperation(db, x.o, x.s, intent); Moves(db, db', x, ClaimedProc(x, ok))
  {
    ClaimViews(db, x.o, x.s, intent);
    var db' := ClaimOperation(db, x.o, x.s, intent).0;
    hide ClaimOperation;
    TermsFields(db'.orders[x.o], db.orders[x.o]);
    hide OthersSame;
  }

  /** The one step that can spoil an order: a reconciler completing what is no longer open. */
  predicate StaleCompletion(w: World, e: Event) {
    && e.Advance? && e.p in w.procs && w.procs[e.p].SweepComplete?
    && w.procs[e.p].o in w.db.orders && w.procs[e.p].s in w.db.services
    && !Open(w.db.orders[w.procs[e.p].o].status)
  }

  lemma StoreStep(init: map<Id, int>, w: World, p: Id, row: Service)
    requires p in w.procs && (w.procs[p].PersistResult? || w.procs[p].SweepComplete?)
    requires w.procs[p].o in w.db.orders && w.db.orders[w.procs[p].o].status.Provisioning?
    requires Inv(init, w)
    ensures var x := w.procs[p];
            Inv(init, Goto(w.(db := CompleteReconciled(w.db, x.o, x.s, row)), p, ReleaseLock(x.o, x.s, Delivered)))
  {
    hide Inv, DbInv, OrdersInv, ProcsInv, LocksSound, Moves;
    Parts(init, w);
    SoundAt(init, w, p);
    var x := w.procs[p];
    StoreMoves(w.db, x, row);
    StoreOnlyStatuses(w.db, x.o, x.s, row);
    hide CompleteReconciled, OnlyStatuses, ProcSound, OrderOk;
    OnlyStatusesKeepDbInv(init, w.db, CompleteReconciled(w.db, x.o, x.s, row));
    CommitMove(init, w, CompleteReconciled(w.db, x.o, x.s, row), p, ReleaseLock(x.o, x.s, Delivered));
  }

  lemma StoreMoves(db: Db, x: Proc, row: Service)
    requires x.PersistResult? || x.SweepComplete?
    requires ProcSound(db, x) && OrderOk(ViewOf(db, x.o)) && db.orders[x.o].status.Provisioning?
    ensures Moves(db, CompleteReconciled(db, x.o, x.s, row), x, ReleaseLock(x.o, x.s, Delivered))
  {
    StoreViews(db, x.o, x.s, row);
    var db' := CompleteReconciled(db, x.o, x.s, row);
    hide CompleteReconciled;
    TermsFields(db'.orders[x.o], db.orders[x.o]);
    hide OthersSame;
  }

  lemma AwaitStep(init: map<Id, int>, w: World, p: Id, next: Proc, giveUp: bool)
    requires p in w.procs && (w.procs[p].AwaitLock? || w.procs[p].SweepAwait?)
    requires var x := w.procs[p];
             next == if x.AwaitLock? then Decide(x.o, x.s) else SweepRead(x.o, x.s, x.seen, x.intent)
    requires Inv(init, w)
    ensures Inv(init, AwaitAdvance(w, p, w.procs[p], next, giveUp))
  {
    hide DbInv, OrdersInv, ProcsInv, Inv, LocksSound;
    SoundAt(init, w, p);
    Parts(init, w);
    var x := w.procs[p];
    AwaitSound(w.db, x, next);
    hide ProcSound, OrderOk;
    if giveUp {
      KeepLock(w, p, Done(x.o, x.s, Busy));
      QuietMove(init, w, AwaitAdvance(w, p, x, next, giveUp), p);
    } else if x.s !in w.locks {
      TakeLock(w, p, next);
      QuietMove(init, w, AwaitAdvance(w, p, x, next, giveUp), p);
    }
  }

  lemma AwaitSound(db: Db, x: Proc, next: Proc)
    requires (x.AwaitLock? && next == Decide(x.o, x.s)) || (x.SweepAwait? && next == SweepRead(x.o, x.s, x.seen, x.intent))
    requires ProcSound(db, x)
    ensures ProcSound(db, next) && ProcSound(db, Done(x.o, x.s, Busy))
  {
  }

  lemma LookStep(init: map<Id, int>, w: World, w': World, p: Id)
    requires p in w.procs && p in w'.procs && w'.db == w.db && w'.locks == w.locks && w'.procs == w.procs[p := w'.procs[p]]
    requires Holds(w.procs[p]) && Holds(w'.procs[p]) && w'.procs[p].s == w.procs[p].s && ProcSound(w.db, w'.procs[p])
    requires Inv(init, w)
    ensures Inv(init, w')
  {
    hide DbInv, OrdersInv, ProcsInv, Inv, ProcSound, LocksSound;
    Parts(init, w);
    KeepLock(w, p, w'.procs[p]);
    QuietMove(init, w, w', p);
  }

  lemma DecidedSound(db: Db, o: Id, s: Id, q: Oracle)
    requires o in db.orders && db.orders[o].service == Some(s) && IsOperation(db.orders[o].kind) && OrderOk(ViewOf(db, o))
    ensures ProcSound(db, Decided(db, o, s, q)) && Holds(Decided(db, o, s, q)) && Decided(db, o, s, q).s == s
  {
    hide InvalidGrant;
  }

  lemma PersistStep(init: map<Id, int>, w: World, p: Id, lost: bool)
    requires p in w.procs && w.procs[p].PersistResult?
    requires Inv(init, w)
    ensures Inv(init, PersistAdvance(w, p, w.procs[p], lost))
  {
    hide Inv, AppliedRow, Expected, PersistOperation, CompleteReconciled;
    SoundAt(init, w, p);
    var x := w.procs[p];
    if !lost && x.s in w.db.services {
      var row := AppliedRow(w.db.services[x.s], Expected(x.row, x.seen, x.now), x.answer);
      StoreViews(w.db, x.o, x.s, row);
      StoreStep(init, w, p, row);
    } else {
      LookStep(init, w, PersistAdvance(w, p, x, lost), p);
    }
  }

  lemma CompleteStep(init: map<Id, int>, w: World, p: Id)
    requires p in w.procs && w.procs[p].SweepComplete?
    requires (w.procs[p].o in w.db.orders && Open(w.db.orders[w.procs[p].o].status)) || w.procs[p].s !in w.db.services
    requires Inv(init, w)
    ensures Inv(init, CompleteAdvance(w, p, w.procs[p]))
  {
    hide Inv, CompleteReconciled, ReadRow;
    SoundAt(init, w, p);
    var x := w.procs[p];
    if x.s in w.db.services {
      StoreStep(init, w, p, ReadRow(w.db.services[x.s], x.reading));
    } else {
      LookStep(init, w, CompleteAdvance(w, p, x), p);
    }
  }

  lemma CallStep(init: map<Id, int>, w: World, p: Id, answer: Answer)
    requires p in w.procs && w.procs[p].CallPanel?
    requires Inv(init, w)
    ensures Inv(init, CallAdvance(w, p, w.procs[p], answer))
  {
    hide Inv, Expected;
    SoundAt(init, w, p);
    LookStep(init, w, CallAdvance(w, p, w.procs[p], answer), p);
  }

  lemma DecideStep(init: map<Id, int>, w: World, p: Id, q: Oracle)
    requires p in w.procs && w.procs[p].Decide?
    requires Inv(init, w)
    ensures Inv(init, Goto(w, p, Decided(w.db, w.procs[p].o, w.procs[p].s, q)))
  {
    hide Inv, Decided, OrderOk;
    SoundAt(init, w, p);
    DecidedSound(w.db, w.procs[p].o, w.procs[p].s, q);
    hide ProcSound;
    LookStep(init, w, Goto(w, p, Decided(w.db, w.procs[p].o, w.procs[p].s, q)), p);
  }

  lemma JudgeStep(init: map<Id, int>, w: World, p: Id, q: Oracle)
    requires p in w.procs && w.procs[p].SweepRead?
    requires Inv(init, w)
    ensures Inv(init, Goto(w, p, SweepJudged(w, w.procs[p], q)))
  {
    hide Inv, OrderOk, Judge;
    SoundAt(init, w, p);
    LookStep(init, w, Goto(w, p, SweepJudged(w, w.procs[p], q)), p);
  }

  lemma ReleaseStep(init: map<Id, int>, w: World, p: Id)
    requires p in w.procs && w.procs[p].ReleaseLock?
    requires Inv(init, w)
    ensures var x := w.procs[p]; Inv(init, Goto(w.(locks := w.locks - {x.s}), p, Done(x.o, x.s, x.result)))
  {
    hide DbInv, OrdersInv, ProcsInv, Inv, LocksSound, OrderOk;
    SoundAt(init, w, p);
    Parts(init, w);
    var x := w.procs[p];
    DropLock(w, p, Done(x.o, x.s, x.result));
    QuietMove(init, w, Goto(w.(locks := w.locks - {x.s}), p, Done(x.o, x.s, x.result)), p);
  }

  lemma CrashStep(init: map<Id, int>, w: World, p: Id, fate: Fate)
    requires p in w.procs
    requires Inv(init, w)
    ensures Inv(init, CrashProc(w, p, fate))
  {
    hide Inv, Expected;
    CrashShape(w, p, fate);
    var w' := CrashProc(w, p, fate);
    hide CrashProc;
    VanishStep(init, w, w', p);
  }

  lemma CrashShape(w: World, p: Id, fate: Fate)
    requires p in w.procs
    ensures var w' := CrashProc(w, p, fate);
            w'.db == w.db && w'.procs == w.procs - {p} && w'.locks == if Holds(w.procs[p]) then w.locks - {w.procs[p].s} else w.locks
  {
  }

  lemma VanishStep(init: map<Id, int>, w: World, w': World, p: Id)
    requires p in w.procs && w'.db == w.db && w'.procs == w.procs - {p}
    requires w'.locks == if Holds(w.procs[p]) then w.locks - {w.procs[p].s} else w.locks
    requires Inv(init, w)
    ensures Inv(init, w')
  {
    hide DbInv, OrdersInv, ProcSound;
    Parts(init, w);
    if Holds(w.procs[p]) {
      DropLock(w, p, Done(w.procs[p].o, w.procs[p].s, Busy));
    }
  }

  lemma BeginStep(init: map<Id, int>, w: World, p: Id, x: Proc)
    requires p !in w.procs && !Holds(x) && ProcSound(w.db, x)
    requires Inv(init, w)
    ensures Inv(init, Goto(w, p, x))
  {
    hide DbInv, OrdersInv, ProcSound;
  }

  lemma StepKeepsInv(init: map<Id, int>, w: World, e: Event)
    requires !StaleCompletion(w, e)
    requires Inv(init, w)
    ensures Inv(init, Step(w, e))
  {
    hide Inv, CrashProc, RefundAdvance, ClaimAdvance, AwaitAdvance, LastIntent;
    match e
    case Begin(p, o) => if Step(w, e) != w { BeginStep(init, w, p, Step(w, e).procs[p]); }
    case BeginSweep(p, o) => if Step(w, e) != w { BeginStep(init, w, p, Step(w, e).procs[p]); }
    case Advance(p, q) =>
      if p in w.procs {
        hide OrderOk, ProcOk, SweepJudged, PersistAdvance, CompleteAdvance, CallAdvance, Decided;
        match w.procs[p]
        case AwaitLock(o, s) => AwaitStep(init, w, p, Decide(o, s), q.giveUp);
        case SweepAwait(o, s, seen, intent) => AwaitStep(init, w, p, SweepRead(o, s, seen, intent), q.giveUp);
        case RefundNow(_, _, _) => RefundStep(init, w, p);
        case ClaimOrder(_, _, _, _, _) => ClaimStep(init, w, p);
        case ReleaseLock(_, _, _) => ReleaseStep(init, w, p);
        case Done(_, _, _) =>
        case Decide(_, _) => DecideStep(init, w, p, q);
        case CallPanel(_, _, _, _, _) => CallStep(init, w, p, q.answer);
        case PersistResult(_, _, _, _, _, _) => PersistStep(init, w, p, q.lost);
        case SweepRead(_, _, _, _) => JudgeStep(init, w, p, q);
        case SweepComplete(_, _, _, _) => SoundAt(init, w, p); CompleteStep(init, w, p);
      }
    case Crash(p, fate) => if p in w.procs { CrashStep(init, w, p, fate); }
    case Late(_, _) => LateStep(init, w, Step(w, e));
  }

  lemma LateStep(init: map<Id, int>, w: World, w': World)
    requires w'.db == w.db && w'.locks == w.locks && w'.procs == w.procs
    requires Inv(init, w)
    ensures Inv(init, w')
  {
    hide DbInv, OrdersInv, ProcsInv, LocksSound;
  }

  // ---- one process takes the step ---------------------------------------------------------------------------

  /** One process takes the step; the others keep what they know. */
  predicate MovedOne(w: World, w': World, p: Id) {
    p in w'.procs && w'.procs == w.procs[p := w'.procs[p]]
  }

  lemma CommitMovesOne(w: World, p: Id, lost: bool)
    requires p in w.procs
    ensures w.procs[p].RefundNow? ==> MovedOne(w, RefundAdvance(w, p, w.procs[p]), p)
    ensures w.procs[p].ClaimOrder? ==> MovedOne(w, ClaimAdvance(w, p, w.procs[p]), p)
    ensures w.procs[p].PersistResult? ==> MovedOne(w, PersistAdvance(w, p, w.procs[p], lost), p)
    ensures w.procs[p].SweepComplete? ==> MovedOne(w, CompleteAdvance(w, p, w.procs[p]), p)
  {
    hide RefundDefinite, ClaimOperation, PersistOperation, CompleteReconciled, ClaimedProc, Expected, AppliedRow, ReadRow;
  }

  lemma WaitMovesOne(w: World, p: Id, next: Proc, giveUp: bool, answer: Answer)
    requires p in w.procs
    ensures MovedOne(w, AwaitAdvance(w, p, w.procs[p], next, giveUp), p)
    ensures w.procs[p].CallPanel? ==> MovedOne(w, CallAdvance(w, p, w.procs[p], answer), p)
  {
    hide Expected;
  }

  lemma AdvanceMovesOne(w: World, p: Id, q: Oracle)
    requires p in w.procs
    ensures MovedOne(w, AdvanceProc(w, p, q), p)
  {
    hide Decided, SweepJudged, RefundAdvance, ClaimAdvance, PersistAdvance, CompleteAdvance, AwaitAdvance, CallAdvance;
    var x := w.procs[p];
    CommitMovesOne(w, p, q.lost);
    WaitMovesOne(w, p, if x.SweepAwait? then SweepRead(x.o, x.s, x.seen, x.intent) else Decide(x.o, x.s), q.giveUp, q.answer);
  }

  lemma StepMovesOne(w: World, e: Event)
    requires !e.Late?
    ensures forall p :: p in Step(w, e).procs && p != e.p ==> p in w.procs && Step(w, e).procs[p] == w.procs[p]
  {
    hide AdvanceProc, LastIntent, Asked;
    if e.Advance? && e.p in w.procs {
      AdvanceMovesOne(w, e.p, e.q);
    }
  }

  // ---- every run ----------------------------------------------------------------------------------------------

  /** How often an order took effect, either way. */
  function Effects(db: Db, o: Id): nat {
    AppliedCount(db.events, o) + Refunds(db.ledger, o)
  }

  /** Some order was both applied and refunded, or one of them twice. */
  ghost predicate Spoiled(db: Db) {
    exists o :: o in db.orders && Effects(db, o) >= 2
  }

  /** Logs grow and orders stay. */
  ghost predicate Grows(db: Db, db': Db) {
    && db.orders.Keys <= db'.orders.Keys
    && forall o :: AppliedCount(db.events, o) <= AppliedCount(db'.events, o) && Refunds(db.ledger, o) <= Refunds(db'.ledger, o)
  }

  lemma RefundGrows(db: Db, o: Id, seen: Order)
    ensures Grows(db, RefundDefinite(db, o, seen).0)
  {
    if seen.user in db.users {
      AppendRow(db.ledger, RefundRow(db, o, seen));
    }
  }

  lemma ClaimGrows(db: Db, o: Id, s: Id, intent: IntentData)
    ensures Grows(db, ClaimOperation(db, o, s, intent).0)
  {
    AppendEvent(db.events, ServiceEvent(Intent, s, o, Some(intent)));
  }

  lemma StoreGrows(db: Db, o: Id, s: Id, row: Service)
    ensures Grows(db, CompleteReconciled(db, o, s, row)) && Grows(db, PersistOperation(db, o, s, row))
  {
    AppendEvent(db.events, ServiceEvent(Applied, s, o, None));
  }

  lemma StepGrows(w: World, e: Event)
    ensures Grows(w.db, Step(w, e).db)
  {
    hide RefundDefinite, ClaimOperation, CompleteReconciled, PersistOperation, Expected, AppliedRow, ReadRow;
    hide LastIntent, Decided, SweepJudged, Grows;
    Stays(w.db);
    if e.Advance? && e.p in w.procs {
      var x := w.procs[e.p];
      match x
      case RefundNow(_, _, _) => RefundGrows(w.db, x.o, x.seen);
      case ClaimOrder(_, _, _, _, _) => ClaimGrows(w.db, x.o, x.s, IntentOf(x.row, Expected(x.row, x.seen, x.now)));
      case PersistResult(_, _, _, _, _, _) =>
        if x.s in w.db.services {
          StoreGrows(w.db, x.o, x.s, AppliedRow(w.db.services[x.s], Expected(x.row, x.seen, x.now), x.answer));
        }
      case SweepComplete(_, _, _, _) =>
        if x.s in w.db.services {
          StoreGrows(w.db, x.o, x.s, ReadRow(w.db.services[x.s], x.reading));
        }
      case _ =>
    }
  }

  lemma Stays(db: Db)
    ensures Grows(db, db)
  {
  }

  lemma SpoiltStays(db: Db, db': Db)
    requires Spoiled(db) && Grows(db, db')
    ensures Spoiled(db')
  {
    var o :| o in db.orders && Effects(db, o) >= 2;
    assert o in db'.orders && Effects(db', o) >= 2;
  }

  /** A reconciler that completes a closed order makes it count twice. */
  lemma StaleSpoils(init: map<Id, int>, w: World, e: Event)
    requires StaleCompletion(w, e)
    requires Inv(init, w)
    ensures Spoiled(Step(w, e).db)
  {
    hide Inv, ReadRow;
    SoundAt(init, w, e.p);
    var x := w.procs[e.p];
    var row := ReadRow(w.db.services[x.s], x.reading);
    StoreViews(w.db, x.o, x.s, row);
    hide CompleteReconciled;
    assert Effects(CompleteReconciled(w.db, x.o, x.s, row), x.o) >= 2;
  }

  /** No reconciler of the run completed an order that was no longer open. */
  ghost predicate NoneStale(w: World, es: seq<Event>)
    decreases |es|
  {
    es == [] || (NoneStale(w, Front(es)) && !StaleCompletion(Run(w, Front(es)), Last(es)))
  }

  /** Paid orders, no lock, no process; the panel may hold anything. */
  ghost predicate Start(init: map<Id, int>, w: World) {
    && DbInv(init, w.db) && w.locks == map[] && w.procs == map[]
    && forall o :: o in w.db.orders ==> w.db.orders[o].status.Paid? && Effects(w.db, o) == 0
  }

  lemma StartHasInv(init: map<Id, int>, w: World)
    requires Start(init, w)
    ensures Inv(init, w)
  {
    hide DbInv;
  }

  lemma {:induction false} RunOutcome(init: map<Id, int>, w: World, es: seq<Event>)
    requires Start(init, w)
    ensures if NoneStale(w, es) then Inv(init, Run(w, es)) else Spoiled(Run(w, es).db)
    decreases |es|
  {
    StartHasInv(init, w);
    hide Start, Inv, Step, StaleCompletion, Spoiled, Grows;
    if es != [] {
      RunOutcome(init, w, Front(es));
      var before := Run(w, Front(es));
      if !NoneStale(w, Front(es)) {
        StepGrows(before, Last(es));
        SpoiltStays(before.db, Step(before, Last(es)).db);
      } else if StaleCompletion(before, Last(es)) {
        StaleSpoils(init, before, Last(es));
      } else {
        StepKeepsInv(init, before, Last(es));
      }
    }
  }

  /**
   In every run: each order is applied or refunded at most once, and never both, if and only if no
   reconciler completed an order that its stale read of the status had missed being closed.
   */
  lemma AtMostOneEffect(init: map<Id, int>, w: World, es: seq<Event>)
    requires Start(init, w)
    ensures (forall o :: o in Run(w, es).db.orders ==> Effects(Run(w, es).db, o) <= 1) <==> NoneStale(w, es)
  {
    RunOutcome(init, w, es);
    hide Start, Run, DbInv, LocksSound, ProcsInv;
  }

  /** The same, read off an order's status: completed when applied, failed when refunded. */
  lemma StatusTellsEffect(init: map<Id, int>, w: World, es: seq<Event>, o: Id)
    requires Start(init, w) && NoneStale(w, es) && o in Run(w, es).db.orders
    ensures var db := Run(w, es).db;
            && AppliedCount(db.events, o) == (if db.orders[o].status.Completed? then 1 else 0)
            && Refunds(db.ledger, o) == (if db.orders[o].status.Failed? then 1 else 0)
            && MoneyInv(init, db)
  {
    RunOutcome(init, w, es);
    hide Start, Run, LocksSound, ProcsInv, MoneyInv, NoneStale;
  }

  // ---- a run that spoils an order --------------------------------------------------------------------------------

  lemma RunOneMore(w: World, es: seq<Event>, e: Event)
    ensures Run(w, es + [e]) == Step(Run(w, es), e)
  {
    FrontOfAppend(es, e);
  }

  /** A paid, valid operation whose service is there, unlocked, and nobody at work. */
  ghost predicate Ready(w: World, o: Id, s: Id) {
    && o in w.db.orders && s in w.db.services && w.db.orders[o].service == Some(s)
    && IsOperation(w.db.orders[o].kind) && w.db.orders[o].status.Paid?
    && w.db.services[s].user == w.db.orders[o].user && !w.db.services[s].deleted && !InvalidGrant(w.db.services[s], w.db.orders[o])
    && (Expected(w.db.services[s], w.db.orders[o], 0).total.Some? || Expected(w.db.services[s], w.db.orders[o], 0).expiresAt.Some?)
    && w.locks == map[] && w.procs == map[] && AppliedCount(w.db.events, o) == 0
  }

  /** After a lost answer: the panel did what was asked, the order still awaits reconciliation. */
  ghost predicate Unanswered(w: World, o: Id, s: Id) {
    && o in w.db.orders && s in w.db.services && s in w.panel && w.db.orders[o].service == Some(s)
    && IsOperation(w.db.orders[o].kind) && w.db.orders[o].status.Provisioning?
    && w.db.services[s].user == w.db.orders[o].user
    && LastIntent(w.db.events, o).Some? && Judge(LastIntent(w.db.events, o).value, w.panel[s]).Landed?
    && s !in w.locks && "a" !in w.procs && "b" !in w.procs
  }

  /** An oracle under which everything goes well, and a call is answered like this. */
  function Hearing(answer: Answer): Oracle {
    Oracle(false, 0, true, answer, false, true, None, None)
  }

  const YES := Hearing(Unclear(Dropped))

  function Intended(w: World, o: Id, s: Id): IntentData
    requires o in w.db.orders && s in w.db.services
  {
    IntentOf(w.db.services[s], Expected(w.db.services[s], w.db.orders[o], 0))
  }

  function Claimed(w: World, o: Id, s: Id): World
    requires Ready(w, o, s)
  {
    Goto(w.(db := ClaimOperation(w.db, o, s, Intended(w, o, s)).0, locks := map[s := "e"]), "e",
         CallPanel(o, s, w.db.orders[o], w.db.services[s], 0))
  }

  function CallFor(w: World, o: Id, s: Id): Call
    requires o in w.db.orders && s in w.db.services
  {
    Call(o, s, Remote(Intended(w, o, s).expectedTotal, Intended(w, o, s).expectedExpiry))
  }

  /** The executor is gone, its order still PROVISIONING, and this became of its call. */
  function Lost(w: World, o: Id, s: Id, fate: Fate): World
    requires Ready(w, o, s)
  {
    Goto(Sent(Claimed(w, o, s), CallFor(w, o, s), fate).(locks := map[]), "e", Done(o, s, Undecided))
  }

  lemma BeginsAndClaims(w: World, o: Id, s: Id)
    requires Ready(w, o, s)
    ensures Twice(Step(Step(w, Begin("e", o)), Advance("e", YES)), "e") == Claimed(w, o, s)
  {
    var row, seen := w.db.services[s], w.db.orders[o];
    var w1 := Goto(w, "e", AwaitLock(o, s));
    assert Step(w, Begin("e", o)) == w1;
    var w2 := Goto(w1.(locks := map[s := "e"]), "e", Decide(o, s));
    assert Step(w1, Advance("e", YES)) == w2;
    hide Expected, ClaimOperation, InvalidGrant;
    var w3 := Goto(w2, "e", ClaimOrder(o, s, seen, row, 0));
    assert Step(w2, Advance("e", YES)) == w3;
    ClaimViews(w.db, o, s, IntentOf(row, Expected(row, seen, 0)));
    assert Step(w3, Advance("e", YES)) == Claimed(w, o, s);
  }

  lemma LosesAnswer(w: World, o: Id, s: Id, fate: Fate)
    requires Ready(w, o, s)
    ensures Step(Step(Claimed(w, o, s), Advance("e", Hearing(Unclear(fate)))), Advance("e", YES)) == Lost(w, o, s, fate)
  {
    hide Expected, ClaimOperation, InvalidGrant;
    var w4 := Claimed(w, o, s);
    var w5 := Goto(Sent(w4, CallFor(w, o, s), fate), "e", ReleaseLock(o, s, Undecided));
    assert Step(w4, Advance("e", Hearing(Unclear(fate)))) == w5;
    assert w5.locks - {s} == map[];
    assert Step(w5, Advance("e", YES)) == Lost(w, o, s, fate);
  }

  lemma ReachesCall(w: World, o: Id, s: Id) returns (es: seq<Event>)
    requires Ready(w, o, s)
    ensures Run(w, es) == Claimed(w, o, s) && forall i :: 0 <= i < |es| ==> !es[i].BeginSweep?
  {
    BeginsAndClaims(w, o, s);
    RunOneMore(w, [], Begin("e", o));
    hide Step, Run, Twice, Ready, Claimed;
    RunOneMore(w, [Begin("e", o)], Advance("e", YES));
    var waiting := [Begin("e", o)] + [Advance("e", YES)];
    RunTwice(w, waiting, "e");
    es := waiting + [Advance("e", YES)] + [Advance("e", YES)];
  }

  /** Every fate of the call is met by a run of one executor that never hears of it. */
  lemma LostAnswer(w: World, o: Id, s: Id, fate: Fate) returns (es: seq<Event>)
    requires Ready(w, o, s)
    ensures Run(w, es) == Lost(w, o, s, fate)
  {
    var claimed := ReachesCall(w, o, s);
    LosesAnswer(w, o, s, fate);
    hide Step, Run, Twice, Ready, Claimed, Lost;
    RunOneMore(w, claimed, Advance("e", Hearing(Unclear(fate))));
    RunOneMore(w, claimed + [Advance("e", Hearing(Unclear(fate)))], Advance("e", YES));
    es := claimed + [Advance("e", Hearing(Unclear(fate)))] + [Advance("e", YES)];
  }

  /** What a lost call leaves in the tables: the order PROVISIONING, with its intent on record. */
  lemma LostLeavesIntent(w: World, o: Id, s: Id, fate: Fate)
    requires Ready(w, o, s)
    ensures var w' := Lost(w, o, s, fate);
            && o in w'.db.orders && w'.db.orders[o] == w.db.orders[o].(status := Provisioning)
            && s in w'.db.services && w'.db.services[s].user == w'.db.orders[o].user
            && LastIntent(w'.db.events, o) == Some(Intended(w, o, s))
            && w'.locks == map[] && w'.procs == map["e" := Done(o, s, Undecided)]
            && w'.panel == if fate.Arrived? then w.panel[s := fate.held] else w.panel
  {
    hide Expected, InvalidGrant, Judge, ClaimOperation, LastIntent;
    ClaimLeavesIntent(w.db, o, s, Intended(w, o, s));
  }

  lemma ClaimLeavesIntent(db: Db, o: Id, s: Id, intent: IntentData)
    requires o in db.orders && db.orders[o].status.Paid?
    ensures var db' := ClaimOperation(db, o, s, intent).0;
            && o in db'.orders && db'.orders[o] == db.orders[o].(status := Provisioning) && db'.services == db.services
            && LastIntent(db'.events, o) == Some(intent)
  {
    FrontOfAppend(db.events, ServiceEvent(Intent, s, o, Some(intent)));
  }

  lemma LostIsUnanswered(w: World, o: Id, s: Id)
    requires Ready(w, o, s)
    ensures Unanswered(Lost(w, o, s, Arrived(CallFor(w, o, s).asked)), o, s)
  {
    LostLeavesIntent(w, o, s, Arrived(CallFor(w, o, s).asked));
    hide Lost, InvalidGrant;
    assert Judge(Intended(w, o, s), CallFor(w, o, s).asked).Landed?;
    hide Expected;
  }

  function Twice(w: World, p: Id): World {
    Step(Step(w, Advance(p, YES)), Advance(p, YES))
  }

  lemma RunTwice(w: World, es: seq<Event>, p: Id)
    ensures Run(w, es + [Advance(p, YES)] + [Advance(p, YES)]) == Twice(Run(w, es), p)
  {
    RunOneMore(w, es, Advance(p, YES));
    RunOneMore(w, es + [Advance(p, YES)], Advance(p, YES));
    hide Step;
  }

  predicate Waits(w: World, p: Id, s: Id) {
    && p in w.procs && w.procs[p].SweepAwait? && w.procs[p].s == s && s !in w.locks && s in w.panel
    && Judge(w.procs[p].intent, w.panel[s]).Landed?
  }

  function AboutToComplete(x: Proc, panel: map<Id, Remote>): Proc
    requires x.SweepAwait? && x.s in panel
  {
    SweepComplete(x.o, x.s, x.seen, PanelReading(panel[x.s], None, None))
  }

  lemma WaitsThenCompletes(w: World, p: Id, s: Id)
    requires Waits(w, p, s)
    ensures Twice(w, p) == w.(locks := w.locks[s := p], procs := w.procs[p := AboutToComplete(w.procs[p], w.panel)])
  {
    hide Judge;
    var x := w.procs[p];
    var w1 := w.(locks := w.locks[s := p], procs := w.procs[p := SweepRead(x.o, s, x.seen, x.intent)]);
    assert Step(w, Advance(p, YES)) == w1;
    var w2 := Step(w1, Advance(p, YES));
    assert w2.procs == w.procs[p := AboutToComplete(x, w.panel)];
  }

  lemma CompletesThenLeaves(w: World, p: Id)
    requires p in w.procs && w.procs[p].SweepComplete? && w.procs[p].s in w.db.services
    ensures var w', x := Twice(w, p), w.procs[p];
            && w'.panel == w.panel && w'.locks == w.locks - {x.s} && w'.procs == w.procs[p := Done(x.o, x.s, Delivered)]
            && w'.db.services.Keys == w.db.services.Keys
            && (x.o in w.db.orders ==> x.o in w'.db.orders && w'.db.orders[x.o].status.Completed?)
  {
    var x := w.procs[p];
    var db' := CompleteReconciled(w.db, x.o, x.s, ReadRow(w.db.services[x.s], x.reading));
    hide ReadRow;
    var w1 := Goto(w.(db := db'), p, ReleaseLock(x.o, x.s, Delivered));
    assert Step(w, Advance(p, YES)) == w1;
    var w2 := Step(w1, Advance(p, YES));
    assert w2.procs == w.procs[p := Done(x.o, x.s, Delivered)];
  }

  lemma SecondIsStale(w: World, s: Id)
    requires Waits(w, "a", s) && Waits(w, "b", s) && w.procs["a"].o == w.procs["b"].o
    requires w.procs["a"].o in w.db.orders && s in w.db.services
    ensures StaleCompletion(Twice(Twice(Twice(w, "a"), "a"), "b"), Advance("b", YES))
  {
    hide Judge, Twice;
    WaitsThenCompletes(w, "a", s);
    CompletesThenLeaves(Twice(w, "a"), "a");
    WaitsThenCompletes(Twice(Twice(w, "a"), "a"), "b", s);
  }

  /** Two reconcilers that read PROVISIONING before either took the lock both complete the order. */
  lemma TwoSweeps(w: World, o: Id, s: Id) returns (es: seq<Event>)
    requires Unanswered(w, o, s)
    ensures !NoneStale(w, es)
  {
    hide Judge, Step, NoneStale, Run, LastIntent, Twice, StaleCompletion;
    var begun := [BeginSweep("a", o), BeginSweep("b", o)];
    BothBegin(w, o, s);
    SecondIsStale(Run(w, begun), s);
    RunTwice(w, begun, "a");
    var loaded := begun + [Advance("a", YES)] + [Advance("a", YES)];
    RunTwice(w, loaded, "a");
    var left := loaded + [Advance("a", YES)] + [Advance("a", YES)];
    RunTwice(w, left, "b");
    var raced := left + [Advance("b", YES)] + [Advance("b", YES)];
    LastStale(w, raced, Advance("b", YES));
    es := raced + [Advance("b", YES)];
  }

  lemma LastStale(w: World, es: seq<Event>, e: Event)
    requires StaleCompletion(Run(w, es), e)
    ensures !NoneStale(w, es + [e])
  {
    FrontOfAppend(es, e);
  }

  lemma BothBegin(w: World, o: Id, s: Id)
    requires Unanswered(w, o, s)
    ensures var x := SweepAwait(o, s, w.db.orders[o], LastIntent(w.db.events, o).value);
            Run(w, [BeginSweep("a", o), BeginSweep("b", o)]) == w.(procs := w.procs["a" := x]["b" := x])
  {
    hide Judge;
    RunOneMore(w, [], BeginSweep("a", o));
    RunOneMore(w, [BeginSweep("a", o)], BeginSweep("b", o));
  }

  /** Every paid, valid operation has a run, with no lie from the panel, in which it counts twice. */
  lemma SomeRunSpoils(init: map<Id, int>, w: World, o: Id, s: Id) returns (es: seq<Event>)
    requires Start(init, w) && Ready(w, o, s)
    ensures Spoiled(Run(w, es).db)
  {
    var fate := Arrived(CallFor(w, o, s).asked);
    hide Start, Ready, Unanswered, Step, Spoiled, StaleCompletion;
    var first := LostAnswer(w, o, s, fate);
    LostIsUnanswered(w, o, s);
    var second := TwoSweeps(Run(w, first), o, s);
    RunAppend(w, first, second);
    es := first + second;
    RunOutcome(init, w, es);
  }

  lemma {:induction false} RunAppend(w: World, a: seq<Event>, b: seq<Event>)
    ensures Run(w, a + b) == Run(Run(w, a), b)
    ensures !NoneStale(Run(w, a), b) ==> !NoneStale(w, a + b)
    decreases |b|
  {
    hide Step, StaleCompletion;
    if b == [] {
      assert a + b == a;
    } else {
      RunAppend(w, a, Front(b));
      assert Front(a + b) == a + Front(b) && Last(a + b) == Last(b);
    }
  }
}
