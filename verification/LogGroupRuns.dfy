/**
 Every run of setup jobs and administrator actions: retries, duplicate jobs, crashes at any step,
 database errors, cancellations and rate limits. The setup lock is exclusive while its holder lives.
 */
module LogGroupRuns {
  import opened Wrappers
  import opened LogGroupSetup

  const SYSTEM := "SYSTEM"

  datatype Send = Delivered | Limited | Rejected(retryable: bool)

  /** One job run; `final` when BullMQ will not retry it, `local` its copy of the bindings. */
  datatype Proc =
    | Look(a: Id, final: bool)
    | Claim(a: Id, final: bool)
    | Acquire(a: Id, final: bool)
    | Reread(a: Id, final: bool)
    | Provision(a: Id, final: bool, local: Bindings, i: nat)
    | Persist(a: Id, final: bool, local: Bindings, i: nat)
    | Recheck(a: Id, final: bool, local: Bindings)
    | ToTesting(a: Id, final: bool, local: Bindings)
    | SendTest(a: Id, final: bool, local: Bindings)
    | Switch(a: Id, final: bool, local: Bindings)
    | GiveUp(a: Id, holds: bool)
    | Release(a: Id)
    | Done(a: Id)

  predicate Holds(x: Proc) {
    !x.Look? && !x.Claim? && !x.Acquire? && !x.Done? && (x.GiveUp? ==> x.holds)
  }

  /** Everything outside the code's control that one step may depend on. */
  datatype Oracle = Oracle(token: bool, error: bool, create: Create, send: Send)

  datatype World = World(
    t: Tables, lock: Option<Id>, procs: map<Id, Proc>,
    activations: seq<Id>, creations: multiset<Id>, orphans: multiset<Id>, tests: set<(Id, int)>)

  datatype Event =
    | Validate(a: Id, chat: Id, title: string, seed: Bindings)
    | Confirm(a: Id)
    | EnqueueFailed(a: Id)
    | Requeue(a: Id)
    | Cancel(a: Id)
    | Begin(p: Id, a: Id, final: bool)
    | Advance(p: Id, q: Oracle)
    | Crash(p: Id)

  function Goto(w: World, p: Id, x: Proc): World {
    w.(procs := w.procs[p := x])
  }

  /** Where a thrown error leads: the final try gives the attempt up, the lock is released either way. */
  function Thrown(x: Proc): Proc
    requires !x.Release? && !x.Done? && !x.GiveUp?
  {
    if x.final then GiveUp(x.a, Holds(x)) else if Holds(x) then Release(x.a) else Done(x.a)
  }

  // ---- the steps of a job -------------------------------------------------------------------------------

  function LookStep(w: World, p: Id, x: Proc): World
    requires x.Look?
  {
    Goto(w, p, if x.a !in w.t.attempts || w.t.attempts[x.a].status.Activated? || w.t.attempts[x.a].status.Cancelled? then Done(x.a)
               else Claim(x.a, x.final))
  }

  function ClaimStep(w: World, p: Id, x: Proc, q: Oracle): World
    requires x.Claim?
  {
    if q.error then Goto(w, p, Thrown(x))
    else if x.a !in w.t.attempts || !Running(w.t.attempts[x.a].status) then Goto(w, p, Done(x.a))
    else Goto(w.(t := Flip(w.t, x.a, {Queued, Provisioning, Testing}, Provisioning, true).0), p,
              if q.token then Acquire(x.a, x.final) else GiveUp(x.a, false))
  }

  function AcquireStep(w: World, p: Id, x: Proc, q: Oracle): World
    requires x.Acquire?
  {
    if q.error || w.lock.Some? then Goto(w, p, Thrown(x)) else Goto(w.(lock := Some(p)), p, Reread(x.a, x.final))
  }

  function RereadStep(w: World, p: Id, x: Proc, q: Oracle): World
    requires x.Reread?
  {
    Goto(w, p, if q.error then Thrown(x)
               else if x.a !in w.t.attempts || w.t.attempts[x.a].status.Cancelled? then Release(x.a)
               else Provision(x.a, x.final, w.t.attempts[x.a].bindings, 0))
  }

  function ProvisionStep(w: World, p: Id, x: Proc, q: Oracle): World
    requires x.Provision?
  {
    if x.i >= |KEYS| then Goto(w, p, Recheck(x.a, x.final, x.local))
    else if KEYS[x.i] in x.local then Goto(w, p, Provision(x.a, x.final, x.local, x.i + 1))
    else match q.create
      case Made(topic) =>
        Goto(w.(creations := w.creations + multiset{x.a}), p, Persist(x.a, x.final, x.local[KEYS[x.i] := topic], x.i))
      case RateLimited => Goto(w, p, Release(x.a))
      case Refused(retryable) => Goto(w, p, if retryable && !x.final then Release(x.a) else GiveUp(x.a, true))
  }

  function PersistStep(w: World, p: Id, x: Proc, q: Oracle): World
    requires x.Persist?
  {
    if q.error || x.a !in w.t.attempts then Goto(w.(orphans := w.orphans + multiset{x.a}), p, Thrown(x))
    else Goto(w.(t := Stored(w.t, x.a, x.local)), p, Provision(x.a, x.final, x.local, x.i + 1))
  }

  function RecheckStep(w: World, p: Id, x: Proc, q: Oracle): World
    requires x.Recheck?
  {
    Goto(w, p, if q.error then Thrown(x)
               else if x.a !in w.t.attempts || w.t.attempts[x.a].status.Cancelled? then Release(x.a)
               else ToTesting(x.a, x.final, x.local))
  }

  function TestingStep(w: World, p: Id, x: Proc, q: Oracle): World
    requires x.ToTesting?
  {
    var (t, ok) := Flip(w.t, x.a, {Provisioning}, Testing, true);
    if q.error then Goto(w, p, Thrown(x))
    else if !ok then Goto(w, p, Release(x.a))
    else Goto(w.(t := t), p, if SYSTEM in x.local then SendTest(x.a, x.final, x.local) else GiveUp(x.a, true))
  }

  function SendStep(w: World, p: Id, x: Proc, q: Oracle): World
    requires x.SendTest? && SYSTEM in x.local
  {
    match q.send
    case Delivered => Goto(w.(tests := w.tests + {(x.a, x.local[SYSTEM])}), p, Switch(x.a, x.final, x.local))
    case Limited => Goto(w, p, Release(x.a))
    case Rejected(retryable) => Goto(w, p, if retryable && !x.final then Release(x.a) else GiveUp(x.a, true))
  }

  function SwitchStep(w: World, p: Id, x: Proc, q: Oracle): World
    requires x.Switch?
  {
    var (t, ok) := Activate(w.t, x.a, x.local);
    if q.error then Goto(w, p, Thrown(x))
    else Goto(w.(t := t, activations := if ok then w.activations + [x.a] else w.activations), p, Release(x.a))
  }

  function GiveUpStep(w: World, p: Id, x: Proc, q: Oracle): World
    requires x.GiveUp?
  {
    Goto(if q.error then w else w.(t := FailAttempt(w.t, x.a)), p, if x.holds then Release(x.a) else Done(x.a))
  }

  function AdvanceProc(w: World, p: Id, q: Oracle): World
    requires p in w.procs
  {
    var x := w.procs[p];
    match x
    case Look(_, _) => LookStep(w, p, x)
    case Claim(_, _) => ClaimStep(w, p, x, q)
    case Acquire(_, _) => AcquireStep(w, p, x, q)
    case Reread(_, _) => RereadStep(w, p, x, q)
    case Provision(_, _, _, _) => ProvisionStep(w, p, x, q)
    case Persist(_, _, _, _) => PersistStep(w, p, x, q)
    case Recheck(_, _, _) => RecheckStep(w, p, x, q)
    case ToTesting(_, _, _) => TestingStep(w, p, x, q)
    case SendTest(_, _, local) => if SYSTEM in local then SendStep(w, p, x, q) else w
    case Switch(_, _, _) => SwitchStep(w, p, x, q)
    case GiveUp(_, _) => GiveUpStep(w, p, x, q)
    case Release(a) => Goto(w.(lock := None), p, Done(a))
    case Done(_) => w
  }

  /** A run dies; its lock expires, and a topic it had created but not yet recorded is orphaned. */
  function CrashProc(w: World, p: Id): World
    requires p in w.procs
  {
    var x := w.procs[p];
    w.(lock := if Holds(x) then None else w.lock, procs := w.procs - {p},
       orphans := if x.Persist? then w.orphans + multiset{x.a} else w.orphans)
  }

  // ---- the administrator ----------------------------------------------------------------------------------

  predicate Known(b: Bindings) {
    forall k :: k in b ==> k in KEYS
  }

  function Validated(w: World, a: Id, chat: Id, title: string, seed: Bindings): World {
    if a in w.t.attempts || !Known(seed) then w
    else w.(t := w.t.(attempts := w.t.attempts[a := Attempt(Status.Validated, false, chat, title, seed, |seed|)]))
  }

  function Step(w: World, e: Event): World {
    match e
    case Validate(a, chat, title, seed) => Validated(w, a, chat, title, seed)
    case Confirm(a) => if SlotFree(w.t) then w.(t := Flip(w.t, a, {Status.Validated}, Queued, true).0) else w
    case EnqueueFailed(a) => w.(t := Flip(w.t, a, {Queued}, Failed, false).0)
    case Requeue(a) => if SlotFree(w.t) then w.(t := Flip(w.t, a, {Failed}, Queued, true).0) else w
    case Cancel(a) => w.(t := Flip(w.t, a, {Status.Validated, Queued, Provisioning, Testing}, Cancelled, false).0)
    case Begin(p, a, final) => if p in w.procs then w else Goto(w, p, Look(a, final))
    case Advance(p, q) => if p in w.procs then AdvanceProc(w, p, q) else w
    case Crash(p) => if p in w.procs then CrashProc(w, p) else w
  }

  function Run(w: World, es: seq<Event>): World
    decreases |es|
  {
    if es == [] then w else Step(Run(w, Front(es)), Last(es))
  }

  // ---- what every step keeps --------------------------------------------------------------------------------

  type Attempts = map<Id, Attempt>

  ghost predicate LockInv(lock: Option<Id>, procs: map<Id, Proc>) {
    && (lock.Some? ==> lock.value in procs && Holds(procs[lock.value]))
    && (forall p :: p in procs && Holds(procs[p]) ==> lock == Some(p))
  }

  /** Exactly the running attempt holds the one slot. */
  ghost predicate SlotInv(attempts: Attempts) {
    && (forall a :: a in attempts ==> (attempts[a].slot <==> Running(attempts[a].status)))
    && (forall a, b :: a in attempts && b in attempts && attempts[a].slot && attempts[b].slot ==> a == b)
  }

  predicate BoundBefore(local: Bindings, i: nat) {
    forall j :: 0 <= j < i && j < |KEYS| ==> KEYS[j] in local
  }

  /** What the lock's holder knows about its attempt. */
  predicate HolderOk(attempts: Attempts, tests: set<(Id, int)>, x: Proc) {
    match x
    case Provision(a, _, local, i) => a in attempts && local == attempts[a].bindings && BoundBefore(local, i)
    case Persist(a, _, local, i) =>
      && a in attempts && i < |KEYS| && KEYS[i] in local && KEYS[i] !in attempts[a].bindings
      && local == attempts[a].bindings[KEYS[i] := local[KEYS[i]]] && BoundBefore(local, i)
    case Recheck(a, _, local) => a in attempts && local == attempts[a].bindings && Complete(local)
    case ToTesting(a, _, local) => a in attempts && local == attempts[a].bindings && Complete(local)
    case SendTest(a, _, local) => a in attempts && local == attempts[a].bindings && Complete(local)
    case Switch(a, _, local) =>
      a in attempts && local == attempts[a].bindings && Complete(local) && SYSTEM in local && (a, local[SYSTEM]) in tests
    case _ => true
  }

  /** The Setting and every topic row point into an attempt's group, which passed its test. */
  ghost predicate PointsTo(t: Tables, tests: set<(Id, int)>, a: Id) {
    && a in t.attempts && t.setting == Some(GroupOf(t.attempts[a])) && Complete(t.attempts[a].bindings)
    && (forall i :: 0 <= i < |KEYS| ==>
          KEYS[i] in t.topics && t.topics[KEYS[i]] == TopicRow(t.attempts[a].bindings[KEYS[i]], t.attempts[a].chat))
    && SYSTEM in t.attempts[a].bindings && (a, t.attempts[a].bindings[SYSTEM]) in tests
  }

  ghost predicate ActiveInv(first: Tables, t: Tables, activations: seq<Id>, tests: set<(Id, int)>) {
    && (forall a :: a in activations <==> a in t.attempts && t.attempts[a].status.Activated?)
    && (forall a :: a in activations ==> Complete(t.attempts[a].bindings))
    && (if activations == [] then t.setting == first.setting && t.topics == first.topics else PointsTo(t, tests, Last(activations)))
  }

  /** Topics created for an attempt whose run has not recorded them yet. */
  function Pending(lock: Option<Id>, procs: map<Id, Proc>, a: Id): nat {
    if lock.Some? && lock.value in procs && procs[lock.value].Persist? && procs[lock.value].a == a then 1 else 0
  }

  ghost predicate CountInv(w: World) {
    && (forall a :: a in w.t.attempts ==>
          && Known(w.t.attempts[a].bindings)
          && w.creations[a] + w.t.attempts[a].seeded == |w.t.attempts[a].bindings| + w.orphans[a] + Pending(w.lock, w.procs, a))
    && (forall a :: a !in w.t.attempts ==> w.creations[a] == 0 && w.orphans[a] == 0)
  }

  ghost predicate HoldersInv(w: World) {
    forall p :: p in w.procs ==> HolderOk(w.t.attempts, w.tests, w.procs[p])
  }

  ghost predicate Inv(first: Tables, w: World) {
    && LockInv(w.lock, w.procs) && SlotInv(w.t.attempts) && HoldersInv(w)
    && ActiveInv(first, w.t, w.activations, w.tests) && CountInv(w)
  }

  // ---- locks and slots ----------------------------------------------------------------------------------------

  lemma MoveKeepsLock(lock: Option<Id>, procs: map<Id, Proc>, p: Id, x': Proc, lock': Option<Id>)
    requires p in procs && LockInv(lock, procs)
    requires
      || (Holds(x') == Holds(procs[p]) && lock' == lock)
      || (lock.None? && Holds(x') && lock' == Some(p))
      || (Holds(procs[p]) && !Holds(x') && lock'.None?)
    ensures LockInv(lock', procs[p := x'])
  {
  }

  lemma VanishKeepsLock(lock: Option<Id>, procs: map<Id, Proc>, p: Id)
    requires p in procs && LockInv(lock, procs)
    ensures LockInv(if Holds(procs[p]) then None else lock, procs - {p})
  {
  }

  /** Only statuses and slots may differ, and no attempt enters or leaves ACTIVE. */
  ghost predicate StatusOnly(t: Tables, t': Tables) {
    && t'.setting == t.setting && t'.topics == t.topics && t'.attempts.Keys == t.attempts.Keys
    && forall a :: a in t.attempts ==>
         && t'.attempts[a] == t.attempts[a].(status := t'.attempts[a].status, slot := t'.attempts[a].slot)
         && (t'.attempts[a].status.Activated? <==> t.attempts[a].status.Activated?)
  }

  lemma FlipIsStatusOnly(t: Tables, a: Id, from: set<Status>, to: Status, slot: bool)
    requires Activated !in from && to != Activated
    ensures StatusOnly(t, Flip(t, a, from, to, slot).0)
  {
  }

  lemma FlipKeepsSlots(t: Tables, a: Id, from: set<Status>, to: Status, slot: bool)
    requires slot <==> Running(to)
    requires slot ==> SlotFree(t) || (forall s :: s in from ==> Running(s))
    requires SlotInv(t.attempts)
    ensures SlotInv(Flip(t, a, from, to, slot).0.attempts)
  {
  }

  lemma StatusKeepsHolder(t: Tables, t': Tables, tests: set<(Id, int)>, x: Proc)
    requires StatusOnly(t, t') && HolderOk(t.attempts, tests, x)
    ensures HolderOk(t'.attempts, tests, x)
  {
    hide BoundBefore, Complete, KEYS;
  }

  lemma StatusKeepsActive(first: Tables, t: Tables, t': Tables, activations: seq<Id>, tests: set<(Id, int)>)
    requires StatusOnly(t, t')
    requires ActiveInv(first, t, activations, tests)
    ensures ActiveInv(first, t', activations, tests)
  {
    hide Complete, KEYS;
  }

  // ---- one process moves -----------------------------------------------------------------------------------------

  /** Where a step leads without touching the topics: statuses, the lock and one process. */
  ghost predicate Quiet(w: World, w': World, p: Id) {
    && p in w.procs && p in w'.procs && w'.procs == w.procs[p := w'.procs[p]]
    && StatusOnly(w.t, w'.t) && w'.activations == w.activations && w'.creations == w.creations && w'.orphans == w.orphans
    && w.tests <= w'.tests && !w.procs[p].Persist? && !w'.procs[p].Persist?
    && SlotInv(w'.t.attempts) && LockInv(w'.lock, w'.procs) && HolderOk(w.t.attempts, w'.tests, w'.procs[p])
  }

  lemma QuietKeepsInv(first: Tables, w: World, w': World, p: Id)
    requires Quiet(w, w', p)
    requires Inv(first, w)
    ensures Inv(first, w')
  {
    hide KEYS, SlotInv, Known, BoundBefore, Complete, HolderOk, StatusOnly, CountInv, ActiveInv, HoldersInv, LockInv;
    StatusKeepsActive(first, w.t, w'.t, w.activations, w.tests);
    MoreTests(first, w'.t, w.activations, w.tests, w'.tests);
    QuietKeepsHolders(w, w', p);
    QuietKeepsCount(w, w', p);
  }

  lemma QuietKeepsHolders(w: World, w': World, p: Id)
    requires p in w'.procs && w'.procs == w.procs[p := w'.procs[p]] && StatusOnly(w.t, w'.t) && w.tests <= w'.tests
    requires HolderOk(w.t.attempts, w'.tests, w'.procs[p]) && HoldersInv(w)
    ensures HoldersInv(w')
  {
    hide KEYS, BoundBefore, Complete, StatusOnly;
    forall r | r in w'.procs ensures HolderOk(w'.t.attempts, w'.tests, w'.procs[r]) {
      if r == p {
        StatusKeepsHolder(w.t, w'.t, w'.tests, w'.procs[p]);
      } else {
        assert HolderOk(w.t.attempts, w.tests, w.procs[r]);
        StatusKeepsHolder(w.t, w'.t, w.tests, w.procs[r]);
      }
    }
  }

  lemma QuietKeepsCount(w: World, w': World, p: Id)
    requires Quiet(w, w', p) && LockInv(w.lock, w.procs) && CountInv(w)
    ensures CountInv(w')
  {
    hide KEYS, Known, HolderOk, SlotInv;
    SamePending(w, w', p);
    hide Pending, LockInv;
  }

  lemma MoreTests(first: Tables, t: Tables, activations: seq<Id>, tests: set<(Id, int)>, more: set<(Id, int)>)
    requires tests <= more && ActiveInv(first, t, activations, tests)
    ensures ActiveInv(first, t, activations, more)
  {
    hide KEYS, Complete;
  }

  lemma SamePending(w: World, w': World, p: Id)
    requires p in w.procs && p in w'.procs && w'.procs == w.procs[p := w'.procs[p]]
    requires !w.procs[p].Persist? && !w'.procs[p].Persist?
    requires LockInv(w.lock, w.procs) && LockInv(w'.lock, w'.procs)
    ensures forall a :: Pending(w'.lock, w'.procs, a) == Pending(w.lock, w.procs, a)
  {
    forall a ensures Pending(w'.lock, w'.procs, a) == Pending(w.lock, w.procs, a) {
      if w'.lock.Some? && w'.lock.value != p {
        assert w'.procs[w'.lock.value] == w.procs[w'.lock.value];
      }
    }
  }

  lemma Parts(first: Tables, w: World, p: Id)
    requires p in w.procs
    requires Inv(first, w)
    ensures HolderOk(w.t.attempts, w.tests, w.procs[p]) && LockInv(w.lock, w.procs) && SlotInv(w.t.attempts)
  {
    hide KEYS, LockInv, SlotInv, HolderOk, ActiveInv, CountInv;
  }

  lemma SameStatus(t: Tables)
    ensures StatusOnly(t, t)
  {
  }

  /** A step that only looks. */
  lemma LooksQuiet(w: World, p: Id, x': Proc)
    requires p in w.procs && Holds(x') == Holds(w.procs[p]) && !w.procs[p].Persist? && !x'.Persist?
    requires HolderOk(w.t.attempts, w.tests, x')
    requires LockInv(w.lock, w.procs) && SlotInv(w.t.attempts)
    ensures Quiet(w, Goto(w, p, x'), p)
  {
    hide KEYS, SlotInv, HolderOk, LockInv;
    SameStatus(w.t);
    MoveKeepsLock(w.lock, w.procs, p, x', w.lock);
  }

  /** A status write under the rules of the slot. */
  lemma FlipsQuiet(w: World, p: Id, x': Proc, from: set<Status>, to: Status, slot: bool)
    requires p in w.procs && Holds(x') == Holds(w.procs[p]) && !w.procs[p].Persist? && !x'.Persist?
    requires Activated !in from && to != Activated && (slot <==> Running(to)) && (slot ==> forall s :: s in from ==> Running(s))
    requires HolderOk(w.t.attempts, w.tests, x')
    requires LockInv(w.lock, w.procs) && SlotInv(w.t.attempts)
    ensures Quiet(w, Goto(w.(t := Flip(w.t, x'.a, from, to, slot).0), p, x'), p)
  {
    hide KEYS, HolderOk, LockInv;
    FlipIsStatusOnly(w.t, x'.a, from, to, slot);
    FlipKeepsSlots(w.t, x'.a, from, to, slot);
    hide SlotInv, StatusOnly, Flip;
    MoveKeepsLock(w.lock, w.procs, p, x', w.lock);
  }

  lemma LookIsQuiet(w: World, p: Id)
    requires p in w.procs && w.procs[p].Look? && LockInv(w.lock, w.procs) && SlotInv(w.t.attempts)
    ensures Quiet(w, LookStep(w, p, w.procs[p]), p)
  {
    hide KEYS, SlotInv, LockInv, Quiet;
    LooksQuiet(w, p, LookStep(w, p, w.procs[p]).procs[p]);
  }

  lemma ClaimIsQuiet(w: World, p: Id, q: Oracle)
    requires p in w.procs && w.procs[p].Claim? && LockInv(w.lock, w.procs) && SlotInv(w.t.attempts)
    ensures Quiet(w, ClaimStep(w, p, w.procs[p], q), p)
  {
    hide KEYS, SlotInv, LockInv, Quiet, Flip;
    var x, w' := w.procs[p], ClaimStep(w, p, w.procs[p], q);
    if q.error || x.a !in w.t.attempts || !Running(w.t.attempts[x.a].status) {
      LooksQuiet(w, p, w'.procs[p]);
    } else {
      FlipsQuiet(w, p, w'.procs[p], {Queued, Provisioning, Testing}, Provisioning, true);
    }
  }

  lemma AcquireIsQuiet(w: World, p: Id, q: Oracle)
    requires p in w.procs && w.procs[p].Acquire? && LockInv(w.lock, w.procs) && SlotInv(w.t.attempts)
    ensures Quiet(w, AcquireStep(w, p, w.procs[p], q), p)
  {
    hide KEYS, SlotInv, LockInv;
    var x := w.procs[p];
    SameStatus(w.t);
    if q.error || w.lock.Some? {
      hide Quiet;
      LooksQuiet(w, p, Thrown(x));
    } else {
      MoveKeepsLock(w.lock, w.procs, p, Reread(x.a, x.final), Some(p));
    }
  }

  lemma ReadIsQuiet(w: World, p: Id, q: Oracle)
    requires p in w.procs && (w.procs[p].Reread? || w.procs[p].Recheck?)
    requires LockInv(w.lock, w.procs) && SlotInv(w.t.attempts) && HolderOk(w.t.attempts, w.tests, w.procs[p])
    ensures Quiet(w, AdvanceProc(w, p, q), p)
  {
    hide KEYS, SlotInv, LockInv, Quiet, Complete;
    LooksQuiet(w, p, AdvanceProc(w, p, q).procs[p]);
  }

  lemma TestingIsQuiet(w: World, p: Id, q: Oracle)
    requires p in w.procs && w.procs[p].ToTesting?
    requires LockInv(w.lock, w.procs) && SlotInv(w.t.attempts) && HolderOk(w.t.attempts, w.tests, w.procs[p])
    ensures Quiet(w, TestingStep(w, p, w.procs[p], q), p)
  {
    hide KEYS, SlotInv, LockInv, Quiet, Complete;
    var x, w' := w.procs[p], TestingStep(w, p, w.procs[p], q);
    if q.error || !Flip(w.t, x.a, {Provisioning}, Testing, true).1 {
      LooksQuiet(w, p, w'.procs[p]);
    } else {
      FlipsQuiet(w, p, w'.procs[p], {Provisioning}, Testing, true);
    }
  }

  lemma GiveUpIsQuiet(w: World, p: Id, q: Oracle)
    requires p in w.procs && w.procs[p].GiveUp? && LockInv(w.lock, w.procs) && SlotInv(w.t.attempts)
    ensures Quiet(w, GiveUpStep(w, p, w.procs[p], q), p)
  {
    hide KEYS, SlotInv, LockInv, Quiet, Flip;
    var x' := GiveUpStep(w, p, w.procs[p], q).procs[p];
    if q.error {
      LooksQuiet(w, p, x');
    } else {
      FlipsQuiet(w, p, x', {Queued, Provisioning, Testing}, Failed, false);
    }
  }

  lemma SendIsQuiet(w: World, p: Id, q: Oracle)
    requires p in w.procs && w.procs[p].SendTest? && SYSTEM in w.procs[p].local
    requires LockInv(w.lock, w.procs) && SlotInv(w.t.attempts) && HolderOk(w.t.attempts, w.tests, w.procs[p])
    ensures Quiet(w, SendStep(w, p, w.procs[p], q), p)
  {
    hide KEYS, SlotInv, LockInv, Complete;
    SameStatus(w.t);
    MoveKeepsLock(w.lock, w.procs, p, SendStep(w, p, w.procs[p], q).procs[p], w.lock);
  }

  lemma ReleaseIsQuiet(w: World, p: Id)
    requires p in w.procs && w.procs[p].Release? && LockInv(w.lock, w.procs) && SlotInv(w.t.attempts)
    ensures Quiet(w, Goto(w.(lock := None), p, Done(w.procs[p].a)), p)
  {
    hide KEYS, SlotInv, LockInv;
    SameStatus(w.t);
    MoveKeepsLock(w.lock, w.procs, p, Done(w.procs[p].a), None);
  }

  lemma ProvisionIsQuiet(w: World, p: Id, q: Oracle)
    requires p in w.procs && w.procs[p].Provision?
    requires w.procs[p].i >= |KEYS| || KEYS[w.procs[p].i] in w.procs[p].local || !q.create.Made?
    requires LockInv(w.lock, w.procs) && SlotInv(w.t.attempts) && HolderOk(w.t.attempts, w.tests, w.procs[p])
    ensures Quiet(w, ProvisionStep(w, p, w.procs[p], q), p)
  {
    hide KEYS, SlotInv, LockInv, Quiet;
    LooksQuiet(w, p, ProvisionStep(w, p, w.procs[p], q).procs[p]);
  }

  // ---- the steps that touch topics ------------------------------------------------------------------------------

  /** A topic was created: it is pending until its binding is written. */
  lemma CreatedKeepsInv(first: Tables, w: World, p: Id, q: Oracle)
    requires p in w.procs && w.procs[p].Provision? && q.create.Made?
    requires w.procs[p].i < |KEYS| && KEYS[w.procs[p].i] !in w.procs[p].local
    requires Inv(first, w)
    ensures Inv(first, ProvisionStep(w, p, w.procs[p], q))
  {
    hide KEYS, SlotInv, ActiveInv, Complete, Known;
    Parts(first, w, p);
    var x, w' := w.procs[p], ProvisionStep(w, p, w.procs[p], q);
    MoveKeepsLock(w.lock, w.procs, p, w'.procs[p], w.lock);
    assert w.lock == Some(p);
    assert HolderOk(w.t.attempts, w.tests, w'.procs[p]);
    hide HolderOk, LockInv;
    assert forall a :: Pending(w'.lock, w'.procs, a) == if a == x.a then 1 else 0;
    assert forall a :: Pending(w.lock, w.procs, a) == 0;
  }

  /** The write failed: the topic stays behind, unbound. */
  lemma OrphanedKeepsInv(first: Tables, w: World, p: Id, q: Oracle)
    requires p in w.procs && w.procs[p].Persist? && (q.error || w.procs[p].a !in w.t.attempts)
    requires Inv(first, w)
    ensures Inv(first, PersistStep(w, p, w.procs[p], q))
  {
    hide KEYS, Complete, Known, SlotInv, ActiveInv, BoundBefore, HoldersInv;
    Parts(first, w, p);
    var x, w' := w.procs[p], PersistStep(w, p, w.procs[p], q);
    MoveKeepsLock(w.lock, w.procs, p, w'.procs[p], w.lock);
    assert w.lock == Some(p);
    OnlyHolderKnows(w, w', p);
    hide LockInv;
    OrphanedCounts(w, p, q);
    hide CountInv, HolderOk;
  }

  lemma OrphanedCounts(w: World, p: Id, q: Oracle)
    requires p in w.procs && w.procs[p].Persist? && (q.error || w.procs[p].a !in w.t.attempts)
    requires HolderOk(w.t.attempts, w.tests, w.procs[p]) && w.lock == Some(p) && CountInv(w)
    ensures CountInv(PersistStep(w, p, w.procs[p], q))
  {
    hide Known, KEYS, Complete, BoundBefore;
    var x, w' := w.procs[p], PersistStep(w, p, w.procs[p], q);
    assert forall a :: Pending(w.lock, w.procs, a) == if a == x.a then 1 else 0;
    assert forall a :: Pending(w'.lock, w'.procs, a) == 0;
  }

  lemma StoredKeepsActive(first: Tables, w: World, a: Id, local: Bindings, i: nat)
    requires a in w.t.attempts && i < |KEYS| && KEYS[i] !in w.t.attempts[a].bindings
    requires ActiveInv(first, w.t, w.activations, w.tests)
    ensures ActiveInv(first, Stored(w.t, a, local), w.activations, w.tests)
  {
    hide KEYS;
    assert !Complete(w.t.attempts[a].bindings);
    hide Complete;
  }

  lemma StoredKeepsSlots(t: Tables, a: Id, local: Bindings)
    requires a in t.attempts && SlotInv(t.attempts)
    ensures SlotInv(Stored(t, a, local).attempts)
  {
    hide Running;
  }

  lemma OnlyHolderKnows(w: World, w': World, p: Id)
    requires p in w'.procs && w'.procs == w.procs[p := w'.procs[p]] && LockInv(w'.lock, w'.procs)
    requires Holds(w'.procs[p]) && HolderOk(w'.t.attempts, w'.tests, w'.procs[p])
    ensures HoldersInv(w')
  {
    hide KEYS, BoundBefore, Complete;
  }

  lemma KnownMore(b: Bindings, i: nat, topic: int)
    requires Known(b) && i < |KEYS|
    ensures Known(b[KEYS[i] := topic])
  {
    hide KEYS;
  }

  /** The binding is written: nothing is pending, and one more topic is bound. */
  lemma StoredKeepsInv(first: Tables, w: World, p: Id, q: Oracle)
    requires p in w.procs && w.procs[p].Persist? && !q.error && w.procs[p].a in w.t.attempts
    requires Inv(first, w)
    ensures Inv(first, PersistStep(w, p, w.procs[p], q))
  {
    hide KEYS, Complete, Known, SlotInv, ActiveInv, BoundBefore, HoldersInv;
    Parts(first, w, p);
    var x, w' := w.procs[p], PersistStep(w, p, w.procs[p], q);
    MoveKeepsLock(w.lock, w.procs, p, w'.procs[p], w.lock);
    assert w.lock == Some(p);
    StoredKeepsActive(first, w, x.a, x.local, x.i);
    StoredKeepsSlots(w.t, x.a, x.local);
    StoredHolder(w, p, q);
    OnlyHolderKnows(w, w', p);
    hide LockInv;
    StoredCounts(w, p, q);
    hide CountInv, HolderOk;
  }

  lemma StoredCounts(w: World, p: Id, q: Oracle)
    requires p in w.procs && w.procs[p].Persist? && !q.error && w.procs[p].a in w.t.attempts
    requires HolderOk(w.t.attempts, w.tests, w.procs[p]) && w.lock == Some(p) && CountInv(w)
    ensures CountInv(PersistStep(w, p, w.procs[p], q))
  {
    hide KEYS, Complete, Known, BoundBefore;
    var x, w' := w.procs[p], PersistStep(w, p, w.procs[p], q);
    KnownMore(w.t.attempts[x.a].bindings, x.i, x.local[KEYS[x.i]]);
    assert forall a :: Pending(w.lock, w.procs, a) == if a == x.a then 1 else 0;
    assert forall a :: Pending(w'.lock, w'.procs, a) == 0;
    assert |x.local| == |w.t.attempts[x.a].bindings| + 1;
  }

  lemma StoredHolder(w: World, p: Id, q: Oracle)
    requires p in w.procs && w.procs[p].Persist? && !q.error && w.procs[p].a in w.t.attempts
    requires HolderOk(w.t.attempts, w.tests, w.procs[p])
    ensures var w' := PersistStep(w, p, w.procs[p], q); HolderOk(w'.t.attempts, w'.tests, w'.procs[p])
  {
    hide KEYS;
  }

  // ---- the switch-over --------------------------------------------------------------------------------------------

  lemma SwitchedTables(t: Tables, a: Id, local: Bindings)
    requires a in t.attempts && local == t.attempts[a].bindings && Complete(local)
    ensures var (t', ok) := Activate(t, a, local);
            && (!ok ==> t' == t)
            && (ok ==>
                  && t'.attempts == t.attempts[a := t.attempts[a].(status := Activated, slot := false)]
                  && !t.attempts[a].status.Activated? && t'.setting == Some(GroupOf(t.attempts[a]))
                  && forall i :: 0 <= i < |KEYS| ==>
                       KEYS[i] in t'.topics && t'.topics[KEYS[i]] == TopicRow(local[KEYS[i]], t.attempts[a].chat))
  {
    forall i | 0 <= i < |KEYS|
      ensures var rows := Bound(KEYS, t.topics, t.attempts[a].chat, local);
              KEYS[i] in rows && rows[KEYS[i]] == TopicRow(local[KEYS[i]], t.attempts[a].chat) {
      hide KEYS;
      BoundRows(KEYS, t.topics, t.attempts[a].chat, local, KEYS[i]);
    }
    hide KEYS, Bound;
  }

  lemma SwitchedActive(first: Tables, w: World, p: Id)
    requires p in w.procs && w.procs[p].Switch? && HolderOk(w.t.attempts, w.tests, w.procs[p])
    requires ActiveInv(first, w.t, w.activations, w.tests)
    ensures var x := w.procs[p];
            var (t', ok) := Activate(w.t, x.a, x.local);
            ActiveInv(first, t', if ok then w.activations + [x.a] else w.activations, w.tests)
  {
    hide KEYS;
    var x := w.procs[p];
    SwitchedTables(w.t, x.a, x.local);
    hide Activate, Complete;
    FrontOfAppend(w.activations, x.a);
  }

  /** Bindings and counters are as before: the accounts still balance. */
  lemma CountStays(w: World, w': World, p: Id)
    requires w'.creations == w.creations && w'.orphans == w.orphans && w'.t.attempts.Keys == w.t.attempts.Keys
    requires forall a :: a in w.t.attempts ==>
               w'.t.attempts[a].bindings == w.t.attempts[a].bindings && w'.t.attempts[a].seeded == w.t.attempts[a].seeded
    requires p in w.procs && p in w'.procs && w'.procs == w.procs[p := w'.procs[p]]
    requires !w.procs[p].Persist? && !w'.procs[p].Persist?
    requires LockInv(w.lock, w.procs) && LockInv(w'.lock, w'.procs) && CountInv(w)
    ensures CountInv(w')
  {
    hide KEYS, Known;
    SamePending(w, w', p);
    hide Pending, LockInv;
  }

  lemma SwitchKeepsInv(first: Tables, w: World, p: Id, q: Oracle)
    requires p in w.procs && w.procs[p].Switch?
    requires Inv(first, w)
    ensures Inv(first, SwitchStep(w, p, w.procs[p], q))
  {
    hide KEYS, Complete, SlotInv, ActiveInv, CountInv, HoldersInv, LockInv, Quiet;
    Parts(first, w, p);
    var x := w.procs[p];
    if q.error {
      hide Inv;
      LooksQuiet(w, p, Thrown(x));
      QuietKeepsInv(first, w, Goto(w, p, Thrown(x)), p);
    } else {
      SwitchedTables(w.t, x.a, x.local);
      SwitchedActive(first, w, p);
      SwitchedSlots(w.t, x.a, x.local);
      hide Activate;
      var w' := SwitchStep(w, p, x, q);
      MoveKeepsLock(w.lock, w.procs, p, Release(x.a), w.lock);
      OnlyHolderKnows(w, w', p);
      CountStays(w, w', p);
    }
  }

  lemma SwitchedSlots(t: Tables, a: Id, local: Bindings)
    requires SlotInv(t.attempts)
    ensures SlotInv(Activate(t, a, local).0.attempts)
  {
    hide KEYS, Bound;
  }

  // ---- crashes and the administrator ---------------------------------------------------------------------------------

  lemma CrashKeepsInv(first: Tables, w: World, p: Id)
    requires p in w.procs
    requires Inv(first, w)
    ensures Inv(first, CrashProc(w, p))
  {
    hide KEYS, Complete, Known, SlotInv, ActiveInv, BoundBefore;
    Parts(first, w, p);
    var x, w' := w.procs[p], CrashProc(w, p);
    VanishKeepsLock(w.lock, w.procs, p);
    assert forall a :: Pending(w'.lock, w'.procs, a) + (if x.Persist? && x.a == a then 1 else 0) == Pending(w.lock, w.procs, a);
    hide LockInv, Pending;
  }

  lemma BeginKeepsInv(first: Tables, w: World, p: Id, a: Id, final: bool)
    requires p !in w.procs
    requires Inv(first, w)
    ensures Inv(first, Goto(w, p, Look(a, final)))
  {
    hide KEYS, Complete, Known, SlotInv, ActiveInv, BoundBefore;
    assert forall c :: Pending(w.lock, w.procs[p := Look(a, final)], c) == Pending(w.lock, w.procs, c);
    hide Pending;
  }

  lemma FlipKeepsInv(first: Tables, w: World, a: Id, from: set<Status>, to: Status, slot: bool)
    requires Activated !in from && to != Activated && (slot <==> Running(to))
    requires slot ==> SlotFree(w.t) || (forall s :: s in from ==> Running(s))
    requires Inv(first, w)
    ensures Inv(first, w.(t := Flip(w.t, a, from, to, slot).0))
  {
    hide KEYS, Complete, Known, BoundBefore, LockInv, Pending;
    var t' := Flip(w.t, a, from, to, slot).0;
    FlipIsStatusOnly(w.t, a, from, to, slot);
    FlipKeepsSlots(w.t, a, from, to, slot);
    hide Flip, SlotInv;
    StatusKeepsActive(first, w.t, t', w.activations, w.tests);
    hide ActiveInv, StatusOnly;
    forall r | r in w.procs ensures HolderOk(t'.attempts, w.tests, w.procs[r]) {
      StatusKeepsHolder(w.t, t', w.tests, w.procs[r]);
    }
    hide HolderOk;
    StatusKeepsCount(w, t');
  }

  lemma StatusKeepsCount(w: World, t': Tables)
    requires StatusOnly(w.t, t') && CountInv(w)
    ensures CountInv(w.(t := t'))
  {
    hide KEYS, Known, Pending;
  }

  lemma ValidatedKeepsInv(first: Tables, w: World, a: Id, chat: Id, title: string, seed: Bindings)
    requires a !in w.t.attempts && Known(seed)
    requires Inv(first, w)
    ensures Inv(first, Validated(w, a, chat, title, seed))
  {
    hide KEYS, Complete, Known, BoundBefore, LockInv, Pending;
    NobodyKnows(first, w, a);
    ValidatedKeepsActive(first, w, a, chat, title, seed);
    ValidatedKeepsSlots(w, a, chat, title, seed);
    ValidatedKeepsHolders(w, a, chat, title, seed);
    ValidatedKeepsCount(w, a, chat, title, seed);
    hide ActiveInv, SlotInv, HoldersInv, CountInv;
  }

  lemma ValidatedKeepsSlots(w: World, a: Id, chat: Id, title: string, seed: Bindings)
    requires a !in w.t.attempts && SlotInv(w.t.attempts)
    ensures SlotInv(Validated(w, a, chat, title, seed).t.attempts)
  {
    hide KEYS, Known;
  }

  lemma ValidatedKeepsCount(w: World, a: Id, chat: Id, title: string, seed: Bindings)
    requires a !in w.t.attempts && CountInv(w) && Pending(w.lock, w.procs, a) == 0
    ensures CountInv(Validated(w, a, chat, title, seed))
  {
    hide KEYS, Known, Pending;
  }

  lemma ValidatedKeepsActive(first: Tables, w: World, a: Id, chat: Id, title: string, seed: Bindings)
    requires a !in w.t.attempts && a !in w.activations
    requires ActiveInv(first, w.t, w.activations, w.tests)
    ensures ActiveInv(first, Validated(w, a, chat, title, seed).t, w.activations, w.tests)
  {
    hide KEYS, Complete, Known;
  }

  lemma ValidatedKeepsHolders(w: World, a: Id, chat: Id, title: string, seed: Bindings)
    requires a !in w.t.attempts && HoldersInv(w)
    ensures HoldersInv(Validated(w, a, chat, title, seed))
  {
    hide KEYS, Complete, Known, BoundBefore;
    var w' := Validated(w, a, chat, title, seed);
    forall r | r in w'.procs ensures HolderOk(w'.t.attempts, w.tests, w'.procs[r]) {
      assert HolderOk(w.t.attempts, w.tests, w.procs[r]);
    }
  }

  lemma NobodyKnows(first: Tables, w: World, a: Id)
    requires a !in w.t.attempts
    requires Inv(first, w)
    ensures Pending(w.lock, w.procs, a) == 0 && a !in w.activations && w.creations[a] == 0 && w.orphans[a] == 0
  {
    hide KEYS, Complete, Known, BoundBefore, SlotInv;
  }

  // ---- every run -----------------------------------------------------------------------------------------------------

  lemma AdvanceKeepsInv(first: Tables, w: World, p: Id, q: Oracle)
    requires p in w.procs
    requires Inv(first, w)
    ensures Inv(first, AdvanceProc(w, p, q))
  {
    Parts(first, w, p);
    hide KEYS, Inv, Quiet, HolderOk, LockInv, SlotInv;
    hide LookStep, ClaimStep, AcquireStep, TestingStep, SendStep, SwitchStep, GiveUpStep, PersistStep, ProvisionStep;
    var x, w' := w.procs[p], AdvanceProc(w, p, q);
    match x {
      case Look(_, _) => LookIsQuiet(w, p);
      case Claim(_, _) => ClaimIsQuiet(w, p, q);
      case Acquire(_, _) => AcquireIsQuiet(w, p, q);
      case Reread(_, _) => ReadIsQuiet(w, p, q);
      case Recheck(_, _, _) => ReadIsQuiet(w, p, q);
      case ToTesting(_, _, _) => TestingIsQuiet(w, p, q);
      case SendTest(_, _, _) => if SYSTEM in x.local { SendIsQuiet(w, p, q); }
      case GiveUp(_, _) => GiveUpIsQuiet(w, p, q);
      case Release(_) => ReleaseIsQuiet(w, p);
      case Provision(_, _, _, _) =>
        if x.i < |KEYS| && KEYS[x.i] !in x.local && q.create.Made? {
          CreatedKeepsInv(first, w, p, q);
        } else {
          ProvisionIsQuiet(w, p, q);
        }
      case Persist(_, _, _, _) =>
        if q.error || x.a !in w.t.attempts { OrphanedKeepsInv(first, w, p, q); } else { StoredKeepsInv(first, w, p, q); }
      case Switch(_, _, _) => SwitchKeepsInv(first, w, p, q);
      case Done(_) =>
    }
    if Quiet(w, w', p) {
      QuietKeepsInv(first, w, w', p);
    }
  }

  lemma StepKeepsInv(first: Tables, w: World, e: Event)
    requires Inv(first, w)
    ensures Inv(first, Step(w, e))
  {
    hide KEYS, Inv, AdvanceProc, CrashProc, Flip, SlotFree, Known;
    match e
    case Validate(a, chat, title, seed) => if a !in w.t.attempts && Known(seed) { ValidatedKeepsInv(first, w, a, chat, title, seed); }
    case Confirm(a) => if SlotFree(w.t) { FlipKeepsInv(first, w, a, {Status.Validated}, Queued, true); }
    case EnqueueFailed(a) => FlipKeepsInv(first, w, a, {Queued}, Failed, false);
    case Requeue(a) => if SlotFree(w.t) { FlipKeepsInv(first, w, a, {Failed}, Queued, true); }
    case Cancel(a) => FlipKeepsInv(first, w, a, {Status.Validated, Queued, Provisioning, Testing}, Cancelled, false);
    case Begin(p, a, final) => if p !in w.procs { BeginKeepsInv(first, w, p, a, final); }
    case Advance(p, q) => if p in w.procs { AdvanceKeepsInv(first, w, p, q); }
    case Crash(p) => if p in w.procs { CrashKeepsInv(first, w, p); }
  }

  /** No attempt, no job; any Setting and topic rows. */
  predicate Start(w: World) {
    && w.t.attempts == map[] && w.lock.None? && w.procs == map[] && w.activations == []
    && w.creations == multiset{} && w.orphans == multiset{} && w.tests == {}
  }

  lemma {:induction false} RunKeepsInv(w: World, es: seq<Event>)
    requires Start(w)
    ensures Inv(w.t, Run(w, es))
    decreases |es|
  {
    hide KEYS, Inv, Step;
    if es == [] {
      StartHasInv(w);
    } else {
      RunKeepsInv(w, Front(es));
      StepKeepsInv(w.t, Run(w, Front(es)), Last(es));
    }
  }

  lemma StartHasInv(w: World)
    requires Start(w)
    ensures Inv(w.t, w)
  {
    hide KEYS;
  }

  /**
   In every run: the activated attempts are exactly the ACTIVE ones, so a failed or cancelled one switched nothing;
   before any activation the Setting and topic rows are as they were, and after it all of them belong to the last
   activated attempt, whose keys were all bound and whose test message went through.
   */
  lemma SwitchOverIsAtomic(w: World, es: seq<Event>)
    requires Start(w)
    ensures var w' := Run(w, es);
            && (forall a :: a in w'.activations <==> a in w'.t.attempts && w'.t.attempts[a].status.Activated?)
            && (if w'.activations == [] then w'.t.setting == w.t.setting && w'.t.topics == w.t.topics
                else PointsTo(w'.t, w'.tests, Last(w'.activations)))
  {
    RunKeepsInv(w, es);
    hide KEYS, Run, PointsTo, CountInv, LockInv, HoldersInv, SlotInv;
  }

  /** In every run at most one attempt is queued, provisioning or testing. */
  lemma OneSetupAtATime(w: World, es: seq<Event>, a: Id, b: Id)
    requires Start(w)
    requires var t := Run(w, es).t; a in t.attempts && b in t.attempts && Running(t.attempts[a].status) && Running(t.attempts[b].status)
    ensures a == b
  {
    RunKeepsInv(w, es);
    hide KEYS, Run, CountInv, LockInv, HoldersInv, ActiveInv, Running;
  }

  lemma {:induction false} KnownSize(keys: seq<string>, b: Bindings)
    requires forall k :: k in b ==> k in keys
    ensures |b| <= |keys|
    decreases |keys|
  {
    if keys != [] {
      var k := Last(keys);
      assert keys == Front(keys) + [k];
      KnownSize(Front(keys), b - {k});
      assert (b - {k}).Keys == b.Keys - {k};
      assert |b.Keys - {k}| >= |b.Keys| - 1;
    }
  }

  lemma PendingIsUnbound(w: World, a: Id)
    requires a in w.t.attempts && Pending(w.lock, w.procs, a) == 1 && HoldersInv(w) && Known(w.t.attempts[a].bindings)
    ensures |w.t.attempts[a].bindings| + 1 <= |KEYS|
  {
    hide KEYS, Known;
    var x := w.procs[w.lock.value];
    KnownMore(w.t.attempts[a].bindings, x.i, x.local[KEYS[x.i]]);
    assert Known(x.local) && |x.local| == |w.t.attempts[a].bindings| + 1;
    KnownFits(x.local);
  }

  lemma KnownFits(b: Bindings)
    requires Known(b)
    ensures |b| <= |KEYS|
  {
    hide KEYS;
    KnownSize(KEYS, b);
  }

  /** In every run the topics created for an attempt number at most the keys plus the creations lost before they were recorded. */
  lemma CreationsBounded(w: World, es: seq<Event>, a: Id)
    requires Start(w)
    ensures Run(w, es).creations[a] <= |KEYS| + Run(w, es).orphans[a]
  {
    RunKeepsInv(w, es);
    hide KEYS, Run, LockInv, SlotInv, ActiveInv, Known;
    var w' := Run(w, es);
    if a in w'.t.attempts {
      assert Known(w'.t.attempts[a].bindings);
      KnownFits(w'.t.attempts[a].bindings);
      if Pending(w'.lock, w'.procs, a) == 1 {
        hide CountInv;
        PendingIsUnbound(w', a);
      }
    }
  }
}
