/** What single setup jobs come to: what is retried, what is given up, and a job that nothing goes against. */
module LogGroupJobs {
  import opened Wrappers
  import opened LogGroupSetup
  import opened LogGroupRuns

  // ---- what goes wrong ----------------------------------------------------------------------------------------

  /** An error that another try could mend. */
  predicate Throws(w: World, x: Proc, q: Oracle) {
    || (q.error && (x.Claim? || x.Acquire? || x.Reread? || x.Persist? || x.Recheck? || x.ToTesting? || x.Switch?))
    || (x.Acquire? && w.lock.Some?) || (x.Persist? && x.a !in w.t.attempts)
  }

  /** The job asks Telegram in this step: for a missing topic, or to take the test message. */
  predicate Asks(x: Proc) {
    (x.Provision? && x.i < |KEYS| && KEYS[x.i] !in x.local) || (x.SendTest? && SYSTEM in x.local)
  }

  /** Telegram refuses, for good or for now; or asks to be called later. */
  predicate Refuses(x: Proc, q: Oracle) {
    Asks(x) && if x.Provision? then q.create.Refused? else q.send.Rejected?
  }

  predicate ForNow(x: Proc, q: Oracle)
    requires Refuses(x, q)
  {
    if x.Provision? then q.create.retryable else q.send.retryable
  }

  predicate Defers(x: Proc, q: Oracle) {
    Asks(x) && if x.Provision? then q.create.RateLimited? else q.send.Limited?
  }

  /** The attempt is failed and its slot free if it was still under way; nothing else changes. */
  function GivenUp(t: Tables, a: Id): Tables {
    if a in t.attempts && (t.attempts[a].status == Queued || t.attempts[a].status == Provisioning || t.attempts[a].status == Testing)
    then t.(attempts := t.attempts[a := t.attempts[a].(status := Failed, slot := false)]) else t
  }

  /** Where a job goes when it is over: to the release of the lock it holds, or out. */
  predicate Leaves(w: World, p: Id, x: Proc) {
    p in w.procs && w.procs[p] == if Holds(x) then Release(x.a) else Done(x.a)
  }

  /** An error on the last try, and a refusal on the last try or for good, end the attempt as FAILED and free its slot. */
  lemma FailureIsRecorded(w: World, p: Id, q: Oracle, q2: Oracle)
    requires p in w.procs && !q2.error
    requires var x := w.procs[p]; (Throws(w, x, q) && x.final) || (Refuses(x, q) && (x.final || !ForNow(x, q)))
    ensures var w' := Step(Step(w, Advance(p, q)), Advance(p, q2)); w'.t == GivenUp(w.t, w.procs[p].a) && Leaves(w', p, w.procs[p])
  {
    hide KEYS;
  }

  /** Any other error or refusal, and every rate limit, leaves the attempt as it is for the next try. */
  lemma RetryLeavesAttempt(w: World, p: Id, q: Oracle)
    requires p in w.procs
    requires var x := w.procs[p];
             (Throws(w, x, q) && !x.final) || (Refuses(x, q) && !x.final && ForNow(x, q)) || Defers(x, q)
    ensures var w' := Step(w, Advance(p, q)); w'.t == w.t && Leaves(w', p, w.procs[p])
  {
    hide KEYS;
  }

  /** Without a bot token, or without the topic to test, the attempt is given up at once. */
  lemma MissingIsGivenUp(w: World, p: Id, q: Oracle, q2: Oracle)
    requires p in w.procs && !q.error && !q2.error && w.procs[p].a in w.t.attempts
    requires var x, status := w.procs[p], w.t.attempts[w.procs[p].a].status;
             (x.Claim? && Running(status) && !q.token) || (x.ToTesting? && status == Provisioning && SYSTEM !in x.local)
    ensures var w' := Step(Step(w, Advance(p, q)), Advance(p, q2)); w'.t == GivenUp(w.t, w.procs[p].a) && Leaves(w', p, w.procs[p])
  {
    hide KEYS;
  }

  /** A job that finds its attempt gone, cancelled or otherwise over stops without a trace. */
  lemma SettledIsSkipped(w: World, p: Id, q: Oracle)
    requires p in w.procs && !q.error
    requires var x, gone := w.procs[p], w.procs[p].a !in w.t.attempts;
             || (x.Look? && (gone || w.t.attempts[x.a].status == Activated || w.t.attempts[x.a].status == Cancelled))
             || (x.Claim? && (gone || !Running(w.t.attempts[x.a].status)))
             || ((x.Reread? || x.Recheck?) && (gone || w.t.attempts[x.a].status == Cancelled))
             || (x.ToTesting? && (gone || w.t.attempts[x.a].status != Provisioning))
             || (x.Switch? && (gone || (w.t.attempts[x.a].status != Provisioning && w.t.attempts[x.a].status != Testing)))
    ensures var w' := Step(w, Advance(p, q)); w'.t == w.t && Leaves(w', p, w.procs[p]) && w'.activations == w.activations
  {
    hide KEYS, Bound;
  }

  /** The administrator's steps: each takes an attempt from the statuses it may be in, with the one slot taken or freed, or does nothing. */
  lemma AdministratorSteps(w: World, a: Id)
    ensures var known := a in w.t.attempts;
            var free := forall x :: x in w.t.attempts ==> !w.t.attempts[x].slot;
            var moved := (to: Status, slot: bool) =>
              if known then w.(t := w.t.(attempts := w.t.attempts[a := w.t.attempts[a].(status := to, slot := slot)])) else w;
            && Step(w, Confirm(a)) == (if known && free && w.t.attempts[a].status == Validated then moved(Queued, true) else w)
            && Step(w, Requeue(a)) == (if known && free && w.t.attempts[a].status == Failed then moved(Queued, true) else w)
            && Step(w, EnqueueFailed(a)) == (if known && w.t.attempts[a].status == Queued then moved(Failed, false) else w)
            && Step(w, Cancel(a)) ==
                 if known && w.t.attempts[a].status in {Validated, Queued, Provisioning, Testing} then moved(Cancelled, false) else w
  {
    hide KEYS;
  }

  // ---- a job that nothing goes against ------------------------------------------------------------------------------

  /** `p` takes n steps in a row. */
  function Turns(p: Id, q: Oracle, n: nat): seq<Event> {
    if n == 0 then [] else Turns(p, q, n - 1) + [Advance(p, q)]
  }

  function After(w: World, p: Id, q: Oracle, n: nat): World {
    Run(w, Turns(p, q, n))
  }

  lemma NextTurn(w: World, p: Id, q: Oracle, n: nat)
    requires n > 0
    ensures After(w, p, q, n) == Step(After(w, p, q, n - 1), Advance(p, q))
  {
    FrontOfAppend(Turns(p, q, n - 1), Advance(p, q));
    hide Step;
  }

  lemma NoTurn(w: World, p: Id, q: Oracle)
    ensures After(w, p, q, 0) == w
  {
    hide Step;
  }

  lemma {:induction false} AfterMore(w: World, p: Id, q: Oracle, m: nat, n: nat)
    ensures After(After(w, p, q, m), p, q, n) == After(w, p, q, m + n)
  {
    hide After, Step;
    NoTurn(After(w, p, q, m), p, q);
    if n > 0 {
      AfterMore(w, p, q, m, n - 1);
      NextTurn(w, p, q, m + n);
      NextTurn(After(w, p, q, m), p, q, n);
    }
  }

  lemma OneTurn(w: World, p: Id, q: Oracle)
    ensures After(w, p, q, 1) == Step(w, Advance(p, q))
  {
    hide After, Step;
    NoTurn(w, p, q);
    NextTurn(w, p, q, 1);
  }

  /** Nothing goes against the job: there is a token, no error, and Telegram makes every topic and takes the message. */
  predicate Good(q: Oracle) {
    q.token && !q.error && q.create.Made? && q.send.Delivered?
  }

  /** Only this attempt's bindings differ. */
  predicate Rebound(t: Tables, t': Tables, a: Id, b: Bindings) {
    a in t.attempts && t' == t.(attempts := t.attempts[a := t.attempts[a].(bindings := b)])
  }

  /** The job at x, over these tables, holding the lock or not. */
  predicate Stands(w: World, p: Id, x: Proc, t: Tables, lock: Option<Id>) {
    p in w.procs && w.procs[p] == x && w.t == t && w.lock == lock
  }

  /** What was bound stays bound, and every key from i on is bound, by the new topic if it was not. */
  predicate Fills(local: Bindings, full: Bindings, i: nat, topic: int) {
    && (forall k :: k in local ==> k in full && full[k] == local[k])
    && (forall j :: i <= j < |KEYS| ==> KEYS[j] in full)
    && (forall k :: k in full && k !in local ==> full[k] == topic)
  }

  lemma CreateTurn(w: World, p: Id, a: Id, final: bool, local: Bindings, i: nat, t: Tables, lock: Option<Id>, q: Oracle)
    requires Good(q) && i < |KEYS| && KEYS[i] !in local && Stands(w, p, Provision(a, final, local, i), t, lock)
    ensures Stands(Step(w, Advance(p, q)), p, Persist(a, final, local[KEYS[i] := q.create.topic], i), t, lock)
  {
    hide KEYS;
  }

  lemma PersistTurn(w: World, p: Id, a: Id, final: bool, bound: Bindings, i: nat, t: Tables, lock: Option<Id>, q: Oracle)
    requires Good(q) && a in t.attempts && Stands(w, p, Persist(a, final, bound, i), t, lock)
    ensures Stands(Step(w, Advance(p, q)), p, Provision(a, final, bound, i + 1), Stored(t, a, bound), lock)
  {
    hide KEYS;
  }

  lemma MissingTurns(w: World, p: Id, a: Id, final: bool, local: Bindings, i: nat, t: Tables, lock: Option<Id>, q: Oracle)
    requires Good(q) && a in t.attempts && i < |KEYS| && KEYS[i] !in local && Stands(w, p, Provision(a, final, local, i), t, lock)
    ensures var bound := local[KEYS[i] := q.create.topic];
            Stands(After(w, p, q, 2), p, Provision(a, final, bound, i + 1), Stored(t, a, bound), lock)
  {
    hide After, KEYS, Step, Stands, Stored;
    OneTurn(w, p, q);
    NextTurn(w, p, q, 2);
    CreateTurn(w, p, a, final, local, i, t, lock, q);
    PersistTurn(Step(w, Advance(p, q)), p, a, final, local[KEYS[i] := q.create.topic], i, t, lock, q);
  }

  lemma BoundTurn(w: World, p: Id, a: Id, final: bool, local: Bindings, i: nat, t: Tables, lock: Option<Id>, q: Oracle)
    requires i < |KEYS| && KEYS[i] in local && Stands(w, p, Provision(a, final, local, i), t, lock)
    ensures Stands(After(w, p, q, 1), p, Provision(a, final, local, i + 1), t, lock)
  {
    OneTurn(w, p, q);
    hide After, KEYS;
  }

  /** The creation loop ends with every key bound and every binding written. */
  lemma {:induction false} ProvisionsRest(w: World, p: Id, a: Id, final: bool, local: Bindings, i: nat, t: Tables, lock: Option<Id>, q: Oracle)
    returns (n: nat, full: Bindings)
    requires Good(q) && a in t.attempts && t.attempts[a].bindings == local && i <= |KEYS| && Stands(w, p, Provision(a, final, local, i), t, lock)
    ensures Fills(local, full, i, q.create.topic)
    ensures Stands(After(w, p, q, n), p, Recheck(a, final, full), Stored(t, a, full), lock)
    decreases |KEYS| - i
  {
    hide After, KEYS, Step, Stands;
    if i == |KEYS| {
      n, full := 1, local;
      LoopEnds(w, p, a, final, local, t, lock, q);
    } else if KEYS[i] in local {
      BoundTurn(w, p, a, final, local, i, t, lock, q);
      n, full := ProvisionsRest(After(w, p, q, 1), p, a, final, local, i + 1, t, lock, q);
      AfterMore(w, p, q, 1, n);
      n := 1 + n;
    } else {
      var bound := local[KEYS[i] := q.create.topic];
      MissingTurns(w, p, a, final, local, i, t, lock, q);
      n, full := ProvisionsRest(After(w, p, q, 2), p, a, final, bound, i + 1, Stored(t, a, bound), lock, q);
      AfterMore(w, p, q, 2, n);
      n := 2 + n;
      assert full[KEYS[i]] == bound[KEYS[i]];
      StoredTwice(t, a, bound, full);
    }
  }

  lemma StoredTwice(t: Tables, a: Id, b: Bindings, c: Bindings)
    requires a in t.attempts
    ensures Stored(Stored(t, a, b), a, c) == Stored(t, a, c)
  {
  }

  lemma LoopEnds(w: World, p: Id, a: Id, final: bool, local: Bindings, t: Tables, lock: Option<Id>, q: Oracle)
    requires a in t.attempts && t.attempts[a].bindings == local && Stands(w, p, Provision(a, final, local, |KEYS|), t, lock)
    ensures Stands(After(w, p, q, 1), p, Recheck(a, final, local), Stored(t, a, local), lock)
  {
    OneTurn(w, p, q);
    hide After, KEYS;
    assert t.attempts[a := t.attempts[a]] == t.attempts;
  }

  /** The attempt at the head of the job, PROVISIONING with its slot. */
  function Claimed(t: Tables, a: Id): Tables
    requires a in t.attempts
  {
    t.(attempts := t.attempts[a := t.attempts[a].(status := Provisioning, slot := true)])
  }

  lemma LookTurn(w: World, p: Id, a: Id, final: bool, t: Tables, q: Oracle)
    requires a in t.attempts && Running(t.attempts[a].status) && Stands(w, p, Look(a, final), t, None)
    ensures Stands(Step(w, Advance(p, q)), p, Claim(a, final), t, None)
  {
    hide KEYS;
  }

  lemma ClaimTurn(w: World, p: Id, a: Id, final: bool, t: Tables, q: Oracle)
    requires Good(q) && a in t.attempts && Running(t.attempts[a].status) && Stands(w, p, Claim(a, final), t, None)
    ensures Stands(Step(w, Advance(p, q)), p, Acquire(a, final), Claimed(t, a), None)
  {
    hide KEYS;
  }

  lemma AcquireTurns(w: World, p: Id, a: Id, final: bool, t: Tables, q: Oracle)
    requires Good(q) && a in t.attempts && !t.attempts[a].status.Cancelled? && Stands(w, p, Acquire(a, final), t, None)
    ensures Stands(Step(Step(w, Advance(p, q)), Advance(p, q)), p, Provision(a, final, t.attempts[a].bindings, 0), t, Some(p))
  {
    hide KEYS;
  }

  lemma FourTurns(w: World, p: Id, q: Oracle)
    ensures After(w, p, q, 2) == Step(Step(w, Advance(p, q)), Advance(p, q))
    ensures After(w, p, q, 4) == Step(Step(After(w, p, q, 2), Advance(p, q)), Advance(p, q))
  {
    hide After, Step;
    OneTurn(w, p, q);
    NextTurn(w, p, q, 2);
    NextTurn(w, p, q, 3);
    NextTurn(w, p, q, 4);
  }

  lemma HeadRuns(w: World, p: Id, a: Id, final: bool, t: Tables, q: Oracle)
    requires Good(q) && a in t.attempts && Running(t.attempts[a].status) && Stands(w, p, Look(a, final), t, None)
    ensures Stands(After(w, p, q, 4), p, Provision(a, final, t.attempts[a].bindings, 0), Claimed(t, a), Some(p))
  {
    hide After, Step, Stands, Good, Running;
    FourTurns(w, p, q);
    LookTurn(w, p, a, final, t, q);
    ClaimTurn(Step(w, Advance(p, q)), p, a, final, t, q);
    AcquireTurns(After(w, p, q, 2), p, a, final, Claimed(t, a), q);
  }

  lemma RecheckTurn(w: World, p: Id, a: Id, final: bool, full: Bindings, t: Tables, q: Oracle)
    requires Good(q) && a in t.attempts && t.attempts[a].status == Provisioning && Stands(w, p, Recheck(a, final, full), t, Some(p))
    ensures Stands(Step(w, Advance(p, q)), p, ToTesting(a, final, full), t, Some(p))
  {
    hide KEYS;
  }

  lemma TestTurns(w: World, p: Id, a: Id, final: bool, full: Bindings, t: Tables, q: Oracle)
    requires Good(q) && a in t.attempts && t.attempts[a].status == Provisioning && SYSTEM in full
    requires Stands(w, p, ToTesting(a, final, full), t, Some(p))
    ensures Stands(Step(Step(w, Advance(p, q)), Advance(p, q)), p, Switch(a, final, full),
                   t.(attempts := t.attempts[a := t.attempts[a].(status := Testing, slot := true)]), Some(p))
  {
    hide KEYS;
  }

  /** The attempt is the active one, the settings name its group, and the topic rows of all keys point into it. */
  ghost predicate SwitchedOver(t: Tables, a: Id, t': Tables, full: Bindings) {
    && a in t.attempts && a in t'.attempts
    && t'.attempts[a].status == Activated && !t'.attempts[a].slot
    && t'.setting.Some? && t'.setting.value.chat == t.attempts[a].chat && t'.setting.value.title <= t.attempts[a].title
    && (forall i :: 0 <= i < |KEYS| && KEYS[i] in full ==> KEYS[i] in t'.topics && t'.topics[KEYS[i]] == TopicRow(full[KEYS[i]], t.attempts[a].chat))
    && (forall x :: x in t.attempts && x != a ==> x in t'.attempts && t'.attempts[x] == t.attempts[x])
  }

  lemma SwitchTurns(w: World, p: Id, a: Id, final: bool, full: Bindings, t: Tables, q: Oracle)
    requires Good(q) && a in t.attempts && t.attempts[a].status == Testing && Stands(w, p, Switch(a, final, full), t, Some(p))
    ensures var w' := Step(Step(w, Advance(p, q)), Advance(p, q));
            p in w'.procs && w'.procs[p] == Done(a) && w'.lock.None? && SwitchedOver(t, a, w'.t, full)
  {
    hide Bound;
    forall i | 0 <= i < |KEYS| && KEYS[i] in full
      ensures KEYS[i] in Bound(KEYS, t.topics, t.attempts[a].chat, full)
              && Bound(KEYS, t.topics, t.attempts[a].chat, full)[KEYS[i]] == TopicRow(full[KEYS[i]], t.attempts[a].chat) {
      BoundRows(KEYS, t.topics, t.attempts[a].chat, full, KEYS[i]);
    }
    hide KEYS;
  }

  lemma TailRuns(w: World, p: Id, a: Id, final: bool, full: Bindings, t: Tables, q: Oracle)
    requires Good(q) && a in t.attempts && t.attempts[a].status == Provisioning && SYSTEM in full
    requires Stands(w, p, Recheck(a, final, full), t, Some(p))
    ensures var w' := After(w, p, q, 5);
            p in w'.procs && w'.procs[p] == Done(a) && w'.lock.None? && SwitchedOver(t, a, w'.t, full)
  {
    hide After, Step, Stands, Good, SwitchedOver;
    var testing := t.(attempts := t.attempts[a := t.attempts[a].(status := Testing, slot := true)]);
    OneTurn(w, p, q);
    NextTurn(w, p, q, 2);
    NextTurn(w, p, q, 3);
    NextTurn(w, p, q, 4);
    NextTurn(w, p, q, 5);
    RecheckTurn(w, p, a, final, full, t, q);
    TestTurns(After(w, p, q, 1), p, a, final, full, t, q);
    SwitchTurns(After(w, p, q, 3), p, a, final, full, testing, q);
    SwitchedFrom(t, testing, a, After(w, p, q, 5).t, full);
  }

  /** The switch-over seen from tables that differ in this attempt's progress alone. */
  lemma SwitchedFrom(t: Tables, t1: Tables, a: Id, t': Tables, full: Bindings)
    requires a in t.attempts && SwitchedOver(t1, a, t', full)
    requires a in t1.attempts && t1.attempts == t.attempts[a := t1.attempts[a]]
    requires t1.attempts[a].chat == t.attempts[a].chat && t1.attempts[a].title == t.attempts[a].title
    ensures SwitchedOver(t, a, t', full)
  {
    hide KEYS;
  }

  lemma {:induction false} RunsOn(w: World, e: Event, p: Id, q: Oracle, n: nat)
    ensures Run(w, [e] + Turns(p, q, n)) == After(Step(w, e), p, q, n)
  {
    hide Step, After, Run, Turns;
    if n == 0 {
      RunsOne(w, e, p, q);
      NoTurn(Step(w, e), p, q);
    } else {
      RunsOn(w, e, p, q, n - 1);
      NextTurn(Step(w, e), p, q, n);
      TurnsNext(p, q, n);
      assert [e] + Turns(p, q, n) == ([e] + Turns(p, q, n - 1)) + [Advance(p, q)];
      RunNext(w, [e] + Turns(p, q, n - 1), Advance(p, q));
    }
  }

  lemma TurnsNext(p: Id, q: Oracle, n: nat)
    requires n > 0
    ensures Turns(p, q, n) == Turns(p, q, n - 1) + [Advance(p, q)]
  {
  }

  lemma RunNext(w: World, es: seq<Event>, e: Event)
    ensures Run(w, es + [e]) == Step(Run(w, es), e)
  {
    FrontOfAppend(es, e);
    hide Step;
  }

  lemma RunsOne(w: World, e: Event, p: Id, q: Oracle)
    ensures Run(w, [e] + Turns(p, q, 0)) == Step(w, e)
  {
    RunNext(w, [], e);
    assert [] + [e] == [e] && [e] + Turns(p, q, 0) == [e];
    hide Step;
  }

  /**
   From every state with the lock free, a job of an attempt under way that nothing goes against makes every missing topic
   and no other, tests the new group and switches over to it: the attempt is the active one, with its slot free.
   */
  lemma UndisturbedJob(w: World, p: Id, a: Id, final: bool, q: Oracle) returns (n: nat, full: Bindings)
    requires Good(q) && p !in w.procs && w.lock.None? && a in w.t.attempts && Running(w.t.attempts[a].status)
    ensures Fills(w.t.attempts[a].bindings, full, 0, q.create.topic)
    ensures var w' := Run(w, [Begin(p, a, final)] + Turns(p, q, n));
            p in w'.procs && w'.procs[p] == Done(a) && w'.lock.None? && SwitchedOver(w.t, a, w'.t, full)
  {
    hide After, Step, Stands, SwitchedOver, Running, Run, Turns;
    var begun := Step(w, Begin(p, a, final));
    BeginTurn(w, p, a, final);
    HeadRuns(begun, p, a, final, w.t, q);
    var claimed := Claimed(w.t, a);
    var m;
    m, full := ProvisionsRest(After(begun, p, q, 4), p, a, final, w.t.attempts[a].bindings, 0, claimed, Some(p), q);
    SystemIsKey(w.t.attempts[a].bindings, full, q.create.topic);
    TailRuns(After(After(begun, p, q, 4), p, q, m), p, a, final, full, Stored(claimed, a, full), q);
    AfterMore(begun, p, q, 4, m);
    AfterMore(begun, p, q, 4 + m, 5);
    n := 4 + m + 5;
    RunsOn(w, Begin(p, a, final), p, q, n);
    SwitchedFrom(w.t, Stored(claimed, a, full), a, After(begun, p, q, n).t, full);
  }

  lemma SystemIsKey(local: Bindings, full: Bindings, topic: int)
    requires Fills(local, full, 0, topic)
    ensures SYSTEM in full
  {
    assert KEYS[0] == SYSTEM;
  }

  lemma BeginTurn(w: World, p: Id, a: Id, final: bool)
    requires p !in w.procs && w.lock.None?
    ensures Stands(Step(w, Begin(p, a, final)), p, Look(a, final), w.t, None)
  {
    hide KEYS;
  }
}
