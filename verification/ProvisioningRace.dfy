/**
 A run in which a purchase is refunded and delivered although every panel answer is true when it is given:
 a create request times out on its way, two reconcilers read PROVISIONING, the first finds no account and
 refunds, the request lands, the second adopts the account and completes the order.
 */
module ProvisioningRace {
  import opened Wrappers
  import opened CommerceDb
  import opened Ledger
  import opened Settlement
  import opened Execution
  import opened Provisioning
  import opened ProvisioningEffects

  /** What the panel answers in this step is so. */
  predicate Truthful(place: Places, w: World, e: Event) {
    e.Advance? && e.p in w.procs && place(w.procs[e.p].o).At? ==>
      var x, t := w.procs[e.p], place(w.procs[e.p].o).target;
      && (x.CallPanel? && e.q.create.RefusedForCertain? ==> e.q.create.fate.Dropped?)
      && (x.ReadPanel? && e.q.read.Present? ==> t in w.accounts)
      && (x.ReadPanel? && e.q.read.AbsentForCertain? ==> t !in w.accounts)
  }

  ghost predicate AllTruthful(place: Places, w: World, es: seq<Event>)
    decreases |es|
  {
    es == [] || (AllTruthful(place, w, Front(es)) && Truthful(place, Run(place, w, Front(es)), Last(es)))
  }

  /** A truthful run that ends here. */
  ghost predicate Leads(place: Places, w: World, es: seq<Event>, w': World) {
    Run(place, w, es) == w' && AllTruthful(place, w, es)
  }

  lemma OneMore(place: Places, w: World, es: seq<Event>, w': World, e: Event)
    requires Leads(place, w, es, w') && Truthful(place, w', e)
    ensures Leads(place, w, es + [e], Step(place, w', e))
  {
    FrontOfAppend(es, e);
    hide Step, Truthful;
  }

  // ---- single steps -----------------------------------------------------------------------------------------

  lemma GotoTwice(w: World, p: Id, x: Proc, y: Proc)
    ensures Goto(Goto(w, p, x), p, y) == Goto(w, p, y)
  {
    assert w.procs[p := x][p := y] == w.procs[p := y];
  }

  predicate Looks(x: Proc) {
    x.ReadOrder? || x.LookService? || x.CheckTarget? || x.Recheck? || x.ReadPanel?
  }

  lemma Look(place: Places, w: World, p: Id, x: Proc, q: Oracle)
    requires Looks(x) && AtTarget(place, x)
    ensures Step(place, Goto(w, p, x), Advance(p, q)) == Goto(w, p, Looked(place, Goto(w, p, x), x, q))
  {
    hide Looked;
    GotoTwice(w, p, x, Looked(place, Goto(w, p, x), x, q));
  }

  lemma Lock(place: Places, w: World, p: Id, x: Proc, q: Oracle)
    requires x.AwaitLock? && place(x.o).At? && place(x.o).target !in w.locks && !q.giveUp
    ensures Step(place, Goto(w, p, x), Advance(p, q)) ==
            Goto(w.(locks := w.locks[place(x.o).target := p]), p, if x.sweep then ReadPanel(x.o, x.seen) else Recheck(x.o, x.seen))
  {
    GotoTwice(w.(locks := w.locks[place(x.o).target := p]), p, x, if x.sweep then ReadPanel(x.o, x.seen) else Recheck(x.o, x.seen));
  }

  lemma Unlock(place: Places, w: World, p: Id, x: Proc, q: Oracle)
    requires x.ReleaseLock? && place(x.o).At?
    ensures Step(place, Goto(w, p, x), Advance(p, q)) == Goto(w.(locks := w.locks - {place(x.o).target}), p, Done(x.o, x.result))
  {
    GotoTwice(w.(locks := w.locks - {place(x.o).target}), p, x, Done(x.o, x.result));
  }

  lemma Claim(place: Places, w: World, p: Id, x: Proc, q: Oracle)
    requires x.ClaimOrder? && place(x.o).At? && x.o in w.db.orders && w.db.orders[x.o].status.Paid?
    ensures Step(place, Goto(w, p, x), Advance(p, q)) ==
            Goto(w.(db := WithStatus(w.db, x.o, Provisioning)), p, CallPanel(x.o, x.seen))
  {
    hide WithStatus;
    GotoTwice(w.(db := WithStatus(w.db, x.o, Provisioning)), p, x, CallPanel(x.o, x.seen));
  }

  lemma TimeOut(place: Places, w: World, p: Id, x: Proc, q: Oracle)
    requires x.CallPanel? && place(x.o).At? && q.create == CreateUnclear(InFlight)
    ensures Step(place, Goto(w, p, x), Advance(p, q)) ==
            Goto(Sent(w, x.o, place(x.o).target, InFlight), p, ReleaseLock(x.o, Undecided))
  {
    GotoTwice(Sent(w, x.o, place(x.o).target, InFlight), p, x, ReleaseLock(x.o, Undecided));
  }

  lemma Refund(place: Places, w: World, p: Id, x: Proc, q: Oracle)
    requires x.RefundAbsent? && place(x.o).At?
    ensures var (db', done) := RefundDefinite(w.db, x.o, x.seen);
            Step(place, Goto(w, p, x), Advance(p, q)) == Goto(w.(db := db'), p, ReleaseLock(x.o, Refunded(done)))
  {
    hide RefundDefinite;
    var (db', done) := RefundDefinite(w.db, x.o, x.seen);
    GotoTwice(w.(db := db'), p, x, ReleaseLock(x.o, Refunded(done)));
  }

  // ---- the provisioner that hears nothing --------------------------------------------------------------------------

  /** A paid purchase with a place to go, nobody at work and nothing on the panel. */
  ghost predicate Ready(place: Places, w: World, o: Id) {
    && o in w.db.orders && w.db.orders[o].kind.Purchase? && w.db.orders[o].status.Paid? && place(o).At?
    && place(o).target !in w.accounts && ServicesOf(w.db.services, o) == {} && w.locks == map[] && w.procs == map[]
  }

  /** Calls time out with the request on its way; a read of the panel answers this. */
  function Hearing(read: ReadAnswer, service: Id): Oracle {
    Oracle(false, CreateUnclear(InFlight), read, false, service, 0)
  }

  const SILENT := Hearing(ReadUnclear, "")

  function Timed(place: Places, w: World, o: Id): World
    requires Ready(place, w, o)
  {
    Goto(Sent(w.(db := WithStatus(w.db, o, Provisioning)), o, place(o).target, InFlight), "e", Done(o, Undecided))
  }

  lemma ReachesLock(place: Places, w: World, o: Id) returns (es: seq<Event>)
    requires Ready(place, w, o)
    ensures Leads(place, w, es, Goto(w, "e", AwaitLock(o, w.db.orders[o], false)))
  {
    var seen := w.db.orders[o];
    var begin := Begin("e", o, false);
    var go := Advance("e", SILENT);
    assert Step(place, w, begin) == Goto(w, "e", ReadOrder(o, false));
    Look(place, w, "e", ReadOrder(o, false), SILENT);
    Look(place, w, "e", LookService(o, seen), SILENT);
    Look(place, w, "e", CheckTarget(o, seen), SILENT);
    hide Step, ServicesOf;
    OneMore(place, w, [], w, begin);
    OneMore(place, w, [] + [begin], Goto(w, "e", ReadOrder(o, false)), go);
    OneMore(place, w, [] + [begin] + [go], Goto(w, "e", LookService(o, seen)), go);
    OneMore(place, w, [] + [begin] + [go] + [go], Goto(w, "e", CheckTarget(o, seen)), go);
    es := [] + [begin] + [go] + [go] + [go];
  }

  lemma ReachesClaim(place: Places, w: World, o: Id) returns (es: seq<Event>)
    requires Ready(place, w, o)
    ensures Leads(place, w, es, Goto(w.(locks := map[place(o).target := "e"]), "e", ClaimOrder(o, w.db.orders[o])))
  {
    var seen, t := w.db.orders[o], place(o).target;
    var go := Advance("e", SILENT);
    var before := ReachesLock(place, w, o);
    Lock(place, w, "e", AwaitLock(o, seen, false), SILENT);
    var locked := w.(locks := map[t := "e"]);
    Look(place, locked, "e", Recheck(o, seen), SILENT);
    hide Step, ServicesOf;
    OneMore(place, w, before, Goto(w, "e", AwaitLock(o, seen, false)), go);
    OneMore(place, w, before + [go], Goto(locked, "e", Recheck(o, seen)), go);
    es := before + [go] + [go];
  }

  lemma ReachesTimeOut(place: Places, w: World, o: Id) returns (es: seq<Event>)
    requires Ready(place, w, o)
    ensures Leads(place, w, es, Timed(place, w, o))
  {
    var seen, t := w.db.orders[o], place(o).target;
    var go := Advance("e", SILENT);
    var before := ReachesClaim(place, w, o);
    var locked := w.(locks := map[t := "e"]);
    Claim(place, locked, "e", ClaimOrder(o, seen), SILENT);
    var claimed := locked.(db := WithStatus(w.db, o, Provisioning));
    TimeOut(place, claimed, "e", CallPanel(o, seen), SILENT);
    var sent := Sent(claimed, o, t, InFlight);
    Unlock(place, sent, "e", ReleaseLock(o, Undecided), SILENT);
    assert sent.locks - {t} == w.locks;
    assert sent.(locks := w.locks) == Sent(w.(db := WithStatus(w.db, o, Provisioning)), o, t, InFlight);
    hide Step, WithStatus, Sent;
    OneMore(place, w, before, Goto(locked, "e", ClaimOrder(o, seen)), go);
    OneMore(place, w, before + [go], Goto(claimed, "e", CallPanel(o, seen)), go);
    OneMore(place, w, before + [go] + [go], Goto(sent, "e", ReleaseLock(o, Undecided)), go);
    es := before + [go] + [go] + [go];
  }

  // ---- the two reconcilers ------------------------------------------------------------------------------------------

  /** A purchase that awaits reconciliation; its lock is free and these two names are not in use. */
  ghost predicate Waiting(place: Places, v: World, o: Id) {
    && o in v.db.orders && v.db.orders[o].kind.Purchase? && v.db.orders[o].status.Provisioning? && place(o).At?
    && v.locks == map[] && "a" !in v.procs && place(o).target !in v.accounts
  }

  function Sweeper(v: World, o: Id): Proc
    requires o in v.db.orders
  {
    AwaitLock(o, v.db.orders[o], true)
  }

  /** A reconciler reads the order as PROVISIONING and comes to wait for the lock. */
  lemma SweepBegins(place: Places, w: World, before: seq<Event>, v: World, o: Id, p: Id) returns (es: seq<Event>)
    requires Leads(place, w, before, v) && Waiting(place, v, o) && p !in v.procs
    ensures Leads(place, w, es, Goto(v, p, Sweeper(v, o)))
  {
    var begin, go := Begin(p, o, true), Advance(p, SILENT);
    assert Step(place, v, begin) == Goto(v, p, ReadOrder(o, true));
    Look(place, v, p, ReadOrder(o, true), SILENT);
    hide Step;
    OneMore(place, w, before, v, begin);
    OneMore(place, w, before + [begin], Goto(v, p, ReadOrder(o, true)), go);
    es := before + [begin] + [go];
  }

  function RefundedDb(v: World, o: Id): Db
    requires o in v.db.orders
  {
    RefundDefinite(v.db, o, v.db.orders[o]).0
  }

  function Refunder(v: World, o: Id): Result
    requires o in v.db.orders
  {
    Refunded(RefundDefinite(v.db, o, v.db.orders[o]).1)
  }

  function Locked(place: Places, v: World, o: Id): World
    requires place(o).At?
  {
    v.(locks := map[place(o).target := "a"])
  }

  /** It takes the lock and is told the truth that no account is there. */
  lemma SweepReads(place: Places, w: World, before: seq<Event>, v: World, o: Id) returns (es: seq<Event>)
    requires Waiting(place, v, o) && Leads(place, w, before, Goto(v, "a", Sweeper(v, o)))
    ensures Leads(place, w, es, Goto(Locked(place, v, o), "a", RefundAbsent(o, v.db.orders[o])))
  {
    var seen, absent := v.db.orders[o], Hearing(AbsentForCertain, "");
    var go := Advance("a", absent);
    Lock(place, v, "a", Sweeper(v, o), absent);
    Look(place, Locked(place, v, o), "a", ReadPanel(o, seen), absent);
    hide Step;
    OneMore(place, w, before, Goto(v, "a", Sweeper(v, o)), go);
    OneMore(place, w, before + [go], Goto(Locked(place, v, o), "a", ReadPanel(o, seen)), go);
    es := before + [go] + [go];
  }

  /** It refunds, and leaves. */
  lemma SweepRefunds(place: Places, w: World, before: seq<Event>, v: World, o: Id) returns (es: seq<Event>)
    requires Waiting(place, v, o) && Leads(place, w, before, Goto(Locked(place, v, o), "a", RefundAbsent(o, v.db.orders[o])))
    ensures Leads(place, w, es, Goto(v.(db := RefundedDb(v, o)), "a", Done(o, Refunder(v, o))))
  {
    var go := Advance("a", SILENT);
    Refund(place, Locked(place, v, o), "a", RefundAbsent(o, v.db.orders[o]), SILENT);
    hide RefundDefinite;
    var paid := Locked(place, v, o).(db := RefundedDb(v, o));
    Unlock(place, paid, "a", ReleaseLock(o, Refunder(v, o)), SILENT);
    assert paid.locks - {place(o).target} == v.locks;
    hide Step;
    OneMore(place, w, before, Goto(Locked(place, v, o), "a", RefundAbsent(o, v.db.orders[o])), go);
    OneMore(place, w, before + [go], Goto(paid, "a", ReleaseLock(o, Refunder(v, o))), go);
    es := before + [go] + [go];
  }

  /** The request lands; the other reconciler takes the lock, is told the truth that the account is there, and is about to adopt it. */
  lemma SweepFindsAccount(place: Places, w: World, before: seq<Event>, v: World, o: Id, reading: Reading, s: Id)
    returns (es: seq<Event>, v': World)
    requires Leads(place, w, before, v) && "b" in v.procs && v.procs["b"].AwaitLock? && v.procs["b"].sweep && v.procs["b"].o == o
    requires place(o).At? && v.locks == map[] && place(o).target in v.inflight
    ensures Leads(place, w, es, v') && v'.db == v.db && "b" in v'.procs
    ensures v'.procs["b"] == AdoptAccount(o, v.procs["b"].seen, reading)
  {
    var x, t, present := v.procs["b"], place(o).target, Hearing(Present(reading), s);
    var go := Advance("b", present);
    var landed := v.(inflight := v.inflight - {t}, accounts := v.accounts + {t});
    assert Step(place, v, Land(t)) == landed;
    assert Goto(landed, "b", x) == landed by { assert landed.procs["b" := x] == landed.procs; }
    Lock(place, landed, "b", x, present);
    var locked := landed.(locks := map[t := "b"]);
    Look(place, locked, "b", ReadPanel(o, x.seen), present);
    hide Step;
    OneMore(place, w, before, v, Land(t));
    OneMore(place, w, before + [Land(t)], landed, go);
    OneMore(place, w, before + [Land(t)] + [go], Goto(locked, "b", ReadPanel(o, x.seen)), go);
    es := before + [Land(t)] + [go] + [go];
    v' := Goto(locked, "b", AdoptAccount(o, x.seen, reading));
  }

  lemma LastStale(place: Places, w: World, es: seq<Event>, e: Event)
    requires StaleAdoption(place, Run(place, w, es), e)
    ensures !NoneStale(place, w, es + [e])
  {
    FrontOfAppend(es, e);
  }

  lemma TimedIsWaiting(init: map<Id, int>, place: Places, w: World, o: Id)
    requires Ready(place, w, o) && Start(init, w)
    ensures var v := Timed(place, w, o);
            && Waiting(place, v, o) && place(o).target in v.inflight && v.procs == map["e" := Done(o, Undecided)]
            && DbInv(init, v.db) && OrderOk(ViewOf(v.db, o)) && v.db.services == map[]
  {
    hide DbInv;
    WithStatusKeepsDbInv(init, w.db, o, Provisioning);
    assert ServicesOf(w.db.services, o) == {};
  }

  lemma RefundedIsClosed(init: map<Id, int>, v: World, o: Id)
    requires o in v.db.orders && v.db.orders[o].status.Provisioning? && OrderOk(ViewOf(v.db, o)) && v.db.services == map[] && DbInv(init, v.db)
    ensures var db := RefundedDb(v, o);
            o in db.orders && db.orders[o].status.Failed? && Refunds(db.ledger, o) == 1 && db.services == map[]
  {
    hide DbInv;
    RefundViews(init, v.db, o, v.db.orders[o]);
    RefundOrders(v.db, o, v.db.orders[o]);
    hide RefundDefinite, OthersSame, ServicesOf;
  }

  function BothWait(v: World, o: Id): World
    requires o in v.db.orders
  {
    Goto(v, "b", Sweeper(v, o))
  }

  function OneRefunded(v: World, o: Id): World
    requires o in v.db.orders
  {
    Goto(BothWait(v, o).(db := RefundedDb(v, o)), "a", Done(o, Refunder(v, o)))
  }

  /** From the lost request to the refund, with the second reconciler still waiting. */
  lemma RefundsWhileWaiting(place: Places, w: World, before: seq<Event>, v: World, o: Id) returns (es: seq<Event>)
    requires Waiting(place, v, o) && "b" !in v.procs && Leads(place, w, before, v)
    ensures Leads(place, w, es, OneRefunded(v, o))
  {
    hide Step, RefundDefinite;
    es := SweepBegins(place, w, before, v, o, "b");
    var v2 := BothWait(v, o);
    assert Sweeper(v2, o) == Sweeper(v, o);
    es := SweepBegins(place, w, es, v2, o, "a");
    es := SweepReads(place, w, es, v2, o);
    es := SweepRefunds(place, w, es, v2, o);
  }

  lemma OneStillWaits(place: Places, v: World, o: Id)
    requires Waiting(place, v, o)
    ensures var v' := OneRefunded(v, o);
            && "b" in v'.procs && v'.procs["b"] == Sweeper(v, o) && v'.db == RefundedDb(v, o)
            && v'.locks == map[] && v'.inflight == v.inflight
  {
    hide RefundDefinite;
  }

  lemma AdoptsStale(place: Places, w: World, before: seq<Event>, v: World, x: Proc, s: Id) returns (es: seq<Event>)
    requires Leads(place, w, before, v) && "b" in v.procs && v.procs["b"] == x && x.AdoptAccount? && place(x.o).At?
    requires v.db.services == map[] && x.o in v.db.orders && v.db.orders[x.o].status.Failed?
    ensures AllTruthful(place, w, es) && !NoneStale(place, w, es)
  {
    var last := Advance("b", Hearing(ReadUnclear, s));
    NoServices(v.db.services, x.o);
    OneMore(place, w, before, v, last);
    LastStale(place, w, before, last);
    es := before + [last];
  }

  /**
   For every paid purchase there is a run, with every panel answer true when it is given, in which it is
   refunded and delivered.
   */
  lemma SomeRunSpoils(init: map<Id, int>, place: Places, w: World, o: Id, reading: Reading, s: Id) returns (es: seq<Event>)
    requires Start(init, w) && Ready(place, w, o)
    ensures AllTruthful(place, w, es) && !NoneStale(place, w, es) && Spoiled(Run(place, w, es).db)
  {
    TimedIsWaiting(init, place, w, o);
    var v := Timed(place, w, o);
    hide Ready, Step, Timed, RefundDefinite, DbInv, OrderOk, ServicesOf, Refunds, Start, Spoiled, RefundedDb, Refunder, Leads;
    RefundedIsClosed(init, v, o);
    OneStillWaits(place, v, o);
    hide OneRefunded, ViewOf, NoneStale, AllTruthful, Run;
    var run := ReachesTimeOut(place, w, o);
    run := RefundsWhileWaiting(place, w, run, v, o);
    var v4;
    run, v4 := SweepFindsAccount(place, w, run, OneRefunded(v, o), o, reading, s);
    es := AdoptsStale(place, w, run, v4, v4.procs["b"], s);
    RunVerdict(init, place, w, es);
  }

  lemma NoServices(services: map<Id, Service>, o: Id)
    requires services == map[]
    ensures ServicesOf(services, o) == {}
  {
  }
}
