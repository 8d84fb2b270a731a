/**
 Every run of the low-balance machine: observations by any mix of live observers, sweeps and backfills,
 checks of messages about to be sent, deliveries, and cleanups, with thresholds and balances that change
 between them. Each is one transaction under the user's row lock, or touches message rows alone, so a run
 is a sequence of them.
 */
module LowBalanceRuns {
  import opened Wrappers
  import opened LowBalance

  /** `stored` and `now` are what the database and the clock held; `Finish` is any end of a delivery. */
  datatype Event =
    | Observe(x: Observation, stored: Option<int>, now: int)
    | SendCheck(c: Check, now: int)
    | Finish(key: string)
    | Clean(expired: set<string>)

  /** What one re-arm or observation did, as an onlooker would note it; `checked` marks a re-arm before sending. */
  datatype Note = Note(
    user: Id, created: bool, seededAlerted: bool, move: Move, cycle: nat, balance: int, boundary: int, eligible: bool,
    forcing: Forcing, checked: bool)

  /** `queued` counts the message rows ever inserted under a key; `cleaned` holds the keys whose row was deleted. */
  datatype World = World(states: States, outbox: Outbox, notes: seq<Note>, queued: multiset<string>, cleaned: set<string>)

  const EMPTY := World(map[], map[], [], multiset{}, {})

  function Seen(w: World, x: Observation, stored: Option<int>, now: int): Note {
    var st := Locked(w.states, x, now);
    var balance := Balance(x, stored);
    var move := Decide(st, x, balance, w.outbox);
    Note(x.user, x.user !in w.states, st.alerted, move, Moved(st, x, balance, move, now).cycle, balance,
         x.boundary, x.eligible, x.forcing, false)
  }

  predicate Rearms(w: World, c: Check) {
    Recheck(w.states, c) == Cancel(BalanceRecovered)
  }

  function Checked(w: World, c: Check): Note
    requires Rearms(w, c)
  {
    Note(c.user, false, true, Rearm, w.states[c.user].cycle, c.recipient.value.balance, c.boundary, false, Unforced, true)
  }

  function Noted(w: World, e: Event): seq<Note> {
    match e
    case Observe(x, stored, now) => [Seen(w, x, stored, now)]
    case SendCheck(c, _) => if Rearms(w, c) then [Checked(w, c)] else []
    case Finish(_) => []
    case Clean(_) => []
  }

  function Observing(w: World, x: Observation, stored: Option<int>, now: int): World {
    var (states, outbox, _) := Observed(w.states, w.outbox, x, stored, now);
    w.(states := states, outbox := outbox, notes := w.notes + [Seen(w, x, stored, now)],
       queued := w.queued + multiset(outbox.Keys - w.outbox.Keys))
  }

  function Cleaning(w: World, expired: set<string>): World {
    var outbox := Pruned(w.outbox, expired);
    w.(outbox := outbox, cleaned := w.cleaned + (w.outbox.Keys - outbox.Keys))
  }

  function Step(w: World, e: Event): World {
    match e
    case Observe(x, stored, now) => Observing(w, x, stored, now)
    case SendCheck(c, now) => w.(states := Rechecked(w.states, c, now), notes := w.notes + Noted(w, e))
    case Finish(key) => if key in w.outbox then w.(outbox := w.outbox[key := w.outbox[key].(finished := true)]) else w
    case Clean(expired) => Cleaning(w, expired)
  }

  function Run(es: seq<Event>): World
    decreases |es|
  {
    if es == [] then EMPTY else Step(Run(Front(es)), Last(es))
  }

  // ---- what a single step needs and leaves ---------------------------------------------------------------

  /** An alert, whoever was told. */
  predicate IsAlert(n: Note, user: Id) {
    n.user == user && n.move.Open?
  }

  /** An alert that queued a message. */
  predicate IsMessage(n: Note, user: Id) {
    IsAlert(n, user) && n.eligible
  }

  function KeyOf(n: Note): string {
    DedupeKey(n.user, n.cycle)
  }

  ghost predicate SameButFor(states: States, states': States, user: Id) {
    forall u :: u != user ==> (u in states' <==> u in states) && (u in states ==> states'[u] == states[u])
  }

  /** The state row of the noted user, before and after. */
  ghost predicate NoteFits(w: World, w': World, n: Note) {
    && n.user in w'.states && w'.notes == w.notes + [n] && SameButFor(w.states, w'.states, n.user)
    && w'.states[n.user].cycle == n.cycle
    && (n.move.Open? ==> w'.states[n.user].alerted && n.cycle > 0)
    && (n.move == Open(false) && n.user in w.states ==> !w.states[n.user].alerted)
    && (n.move.Rearm? ==> n.balance > n.boundary && !w'.states[n.user].alerted)
    && (n.user in w.states ==> w'.states[n.user].cycle == w.states[n.user].cycle + if n.move.Open? then 1 else 0)
    && (n.move.Stay? && n.user in w.states ==> w'.states[n.user].alerted == w.states[n.user].alerted)
    && (n.user !in w.states ==> n.cycle == if n.move.Open? then 1 else 0)
  }

  lemma ObserveFits(w: World, x: Observation, stored: Option<int>, now: int)
    ensures NoteFits(w, Observing(w, x, stored, now), Seen(w, x, stored, now))
  {
    hide DedupeKey, Queued, Authorized;
  }

  lemma CheckFits(w: World, c: Check, now: int)
    requires Rearms(w, c)
    ensures NoteFits(w, Step(w, SendCheck(c, now)), Checked(w, c))
  {
  }

  lemma StepFacts(w: World, e: Event)
    ensures var w' := Step(w, e);
            if Noted(w, e) == [] then w'.states == w.states && w'.notes == w.notes else NoteFits(w, w', Noted(w, e)[0])
  {
    hide Seen, Checked, Observing, NoteFits, Pruned, Recheck;
    match e
    case Observe(x, stored, now) => ObserveFits(w, x, stored, now);
    case SendCheck(c, now) => if Rearms(w, c) { CheckFits(w, c, now); }
    case Finish(_) =>
    case Clean(_) =>
  }

  // ---- counting ------------------------------------------------------------------------------------------

  datatype Tally = Tally(seeded: nat, opens: nat, forced: nat, rearms: nat, checked: nat)

  const ZERO := Tally(0, 0, 0, 0, 0)

  function Add(t: Tally, n: Note): Tally {
    Tally(t.seeded + (if n.created && n.seededAlerted then 1 else 0), t.opens + (if n.move.Open? then 1 else 0),
          t.forced + (if n.move == Open(true) then 1 else 0), t.rearms + (if n.move.Rearm? && !n.checked then 1 else 0),
          t.checked + (if n.move.Rearm? && n.checked then 1 else 0))
  }

  function TallyOf(notes: seq<Note>, user: Id): Tally
    decreases |notes|
  {
    if notes == [] then ZERO
    else if Last(notes).user == user then Add(TallyOf(Front(notes), user), Last(notes))
    else TallyOf(Front(notes), user)
  }

  predicate Counts(st: AlertState, t: Tally) {
    st.cycle == t.opens && st.cycle + t.seeded == t.rearms + t.checked + (if st.alerted then 1 else 0) + t.forced
  }

  ghost predicate Counted(states: States, notes: seq<Note>, user: Id) {
    if user in states then Counts(states[user], TallyOf(notes, user)) else TallyOf(notes, user) == ZERO
  }

  ghost predicate CountInv(w: World) {
    forall u :: Counted(w.states, w.notes, u)
  }

  lemma ObserveCounts(w: World, x: Observation, stored: Option<int>, now: int)
    requires Counted(w.states, w.notes, x.user)
    ensures var w' := Observing(w, x, stored, now); Counted(w'.states, w'.notes, x.user)
  {
    FrontOfAppend(w.notes, Seen(w, x, stored, now));
    hide DedupeKey, Queued, Authorized;
  }

  lemma CheckCounts(w: World, c: Check, now: int)
    requires Counted(w.states, w.notes, c.user) && Rearms(w, c)
    ensures Counted(Rechecked(w.states, c, now), w.notes + [Checked(w, c)], c.user)
  {
    FrontOfAppend(w.notes, Checked(w, c));
  }

  lemma StepCounts(w: World, e: Event)
    requires CountInv(w)
    ensures CountInv(Step(w, e))
  {
    StepFacts(w, e);
    var w' := Step(w, e);
    if e.Observe? { ObserveCounts(w, e.x, e.stored, e.now); }
    if e.SendCheck? && Rearms(w, e.c) { CheckCounts(w, e.c, e.now); }
    if Noted(w, e) != [] { FrontOfAppend(w.notes, Noted(w, e)[0]); }
    hide Seen, Checked, Rechecked, Observing, Pruned, Rearms, Add;
    forall u ensures Counted(w'.states, w'.notes, u) {
      assert Counted(w.states, w.notes, u);
    }
  }

  lemma {:induction false} RunCounts(es: seq<Event>)
    ensures CountInv(Run(es))
    decreases |es|
  {
    if es != [] {
      RunCounts(Front(es));
      StepCounts(Run(Front(es)), Last(es));
    }
  }

  /** In every run: cycles plus silent baselines are re-arms, seen or before sending, plus the open episode plus forced openings. */
  lemma CyclesCount(es: seq<Event>, user: Id)
    requires user in Run(es).states
    ensures Counts(Run(es).states[user], TallyOf(Run(es).notes, user))
  {
    RunCounts(es);
    assert Counted(Run(es).states, Run(es).notes, user);
  }

  // ---- episodes --------------------------------------------------------------------------------------------

  /** An observation, or a check before sending, that saw a balance above the boundary it judged by. */
  predicate IsRecovery(n: Note, user: Id) {
    n.user == user && n.move.Rearm? && n.balance > n.boundary
  }

  ghost predicate RecoveredSince(notes: seq<Note>, user: Id, i: nat) {
    exists k :: i < k < |notes| && IsRecovery(notes[k], user)
  }

  /** A later alert is either forced or preceded by a recovery since any earlier one. */
  ghost predicate Separated(notes: seq<Note>, j: nat)
    requires j < |notes|
  {
    notes[j].move == Open(false) ==>
      forall i :: 0 <= i < j && IsAlert(notes[i], notes[j].user) ==> RecoveredSince(notes[..j], notes[j].user, i)
  }

  /** Every alert's episode is still open, or was closed by a recovery. */
  ghost predicate EpisodeInv(w: World) {
    && (forall j :: 0 <= j < |w.notes| ==> Separated(w.notes, j))
    && (forall i :: 0 <= i < |w.notes| && w.notes[i].move.Open? ==>
          w.notes[i].user in w.states && (w.states[w.notes[i].user].alerted || RecoveredSince(w.notes, w.notes[i].user, i)))
  }

  lemma RecoveryMore(notes: seq<Note>, n: Note, user: Id, i: nat)
    requires i < |notes|
    ensures RecoveredSince(notes + [n], user, i) <==> RecoveredSince(notes, user, i) || IsRecovery(n, user)
  {
    if RecoveredSince(notes, user, i) {
      var k :| i < k < |notes| && IsRecovery(notes[k], user);
      assert (notes + [n])[k] == notes[k];
    }
    if IsRecovery(n, user) {
      assert (notes + [n])[|notes|] == n;
    }
  }

  lemma NoteSeparates(w: World, w': World, n: Note)
    requires NoteFits(w, w', n)
    requires EpisodeInv(w)
    ensures EpisodeInv(w')
  {
    forall j | 0 <= j < |w'.notes| ensures Separated(w'.notes, j) {
      assert w'.notes[..j] == if j < |w.notes| then w.notes[..j] else w.notes;
      if j < |w.notes| {
        assert Separated(w.notes, j);
      }
    }
    forall i | 0 <= i < |w'.notes| && w'.notes[i].move.Open?
      ensures w'.notes[i].user in w'.states && (w'.states[w'.notes[i].user].alerted || RecoveredSince(w'.notes, w'.notes[i].user, i)) {
      if i < |w.notes| {
        RecoveryMore(w.notes, n, w.notes[i].user, i);
      }
    }
  }

  lemma {:induction false} RunSeparates(es: seq<Event>)
    ensures EpisodeInv(Run(es))
    decreases |es|
  {
    hide EpisodeInv, Step, NoteFits, Noted;
    if es == [] {
      NoNotes();
    } else {
      var w, e := Run(Front(es)), Last(es);
      RunSeparates(Front(es));
      StepFacts(w, e);
      if Noted(w, e) != [] {
        NoteSeparates(w, Step(w, e), Noted(w, e)[0]);
      } else {
        SameEpisodes(w, Step(w, e));
      }
    }
  }

  lemma SameEpisodes(w: World, w': World)
    requires w'.states == w.states && w'.notes == w.notes && EpisodeInv(w)
    ensures EpisodeInv(w')
  {
    hide Separated;
  }

  lemma NoNotes()
    ensures EpisodeInv(EMPTY)
  {
  }

  /**
   In every run, between two alerts of a user, the later one unforced, an observation or a check before sending
   saw a balance above the re-arm boundary it judged by.
   */
  lemma AlertsSeparatedByRecovery(es: seq<Event>, user: Id, i: nat, j: nat)
    requires i < j < |Run(es).notes| && IsAlert(Run(es).notes[i], user) && IsAlert(Run(es).notes[j], user)
    requires Run(es).notes[j].move == Open(false)
    ensures exists k :: i < k < j && IsRecovery(Run(es).notes[k], user)
  {
    RunSeparates(es);
    var notes := Run(es).notes;
    assert Separated(notes, j);
    var k :| i < k < |notes[..j]| && IsRecovery(notes[..j][k], user);
    assert IsRecovery(notes[k], user);
  }

  // ---- messages --------------------------------------------------------------------------------------------

  /** Some alert queued this key's message. */
  ghost predicate Sent(notes: seq<Note>, key: string) {
    exists i :: 0 <= i < |notes| && IsMessage(notes[i], notes[i].user) && KeyOf(notes[i]) == key
  }

  /** Cycles of one user only ever grow. */
  ghost predicate CyclesGrow(w: World) {
    && (forall i :: 0 <= i < |w.notes| && w.notes[i].move.Open? ==>
          w.notes[i].user in w.states && 0 < w.notes[i].cycle <= w.states[w.notes[i].user].cycle)
    && (forall i, j :: 0 <= i < j < |w.notes| && IsAlert(w.notes[i], w.notes[j].user) && w.notes[j].move.Open? ==>
          w.notes[i].cycle < w.notes[j].cycle)
  }

  /** One row was ever inserted per key sent; it is there until cleanup deletes it. */
  ghost predicate RowsFit(notes: seq<Note>, outbox: Outbox, queued: multiset<string>, cleaned: set<string>) {
    && (forall key: string :: queued[key] == if Sent(notes, key) then 1 else 0)
    && (forall key: string :: key in outbox <==> queued[key] > 0 && key !in cleaned)
    && (forall key: string :: key in cleaned ==> queued[key] > 0)
  }

  ghost predicate OutboxInv(w: World) {
    CyclesGrow(w) && RowsFit(w.notes, w.outbox, w.queued, w.cleaned)
  }

  lemma SentMore(notes: seq<Note>, n: Note, key: string)
    ensures Sent(notes + [n], key) <==> Sent(notes, key) || (IsMessage(n, n.user) && key == KeyOf(n))
  {
    hide DedupeKey;
    if Sent(notes, key) {
      var i :| 0 <= i < |notes| && IsMessage(notes[i], notes[i].user) && KeyOf(notes[i]) == key;
      assert (notes + [n])[i] == notes[i];
    }
    if IsMessage(n, n.user) && key == KeyOf(n) {
      assert (notes + [n])[|notes|] == n;
    }
  }

  lemma NoteGrows(w: World, w': World, n: Note)
    requires NoteFits(w, w', n)
    requires CyclesGrow(w)
    ensures CyclesGrow(w')
  {
  }

  /** An opening's key was never sent before. */
  lemma NewKey(w: World, w': World, n: Note)
    requires NoteFits(w, w', n) && n.move.Open?
    requires CyclesGrow(w)
    ensures !Sent(w.notes, KeyOf(n))
  {
    hide DedupeKey;
    if Sent(w.notes, KeyOf(n)) {
      var i :| 0 <= i < |w.notes| && IsMessage(w.notes[i], w.notes[i].user) && KeyOf(w.notes[i]) == KeyOf(n);
      DedupeKeyInjective(w.notes[i].user, w.notes[i].cycle, n.user, n.cycle);
    }
  }

  /** An observation inserts the row of the message it notes, unless there is one, and deletes none. */
  lemma ObserveRows(w: World, x: Observation, stored: Option<int>, now: int)
    ensures var w', n := Observing(w, x, stored, now), Seen(w, x, stored, now);
            && w'.outbox.Keys == w.outbox.Keys + (if IsMessage(n, n.user) then {KeyOf(n)} else {})
            && w'.cleaned == w.cleaned
            && (forall key :: w'.queued[key] == w.queued[key] + if IsMessage(n, n.user) && key == KeyOf(n) && key !in w.outbox then 1 else 0)
  {
    hide DedupeKey, Authorized;
    var w', n := Observing(w, x, stored, now), Seen(w, x, stored, now);
    assert w'.outbox == if IsMessage(n, n.user) then Queued(w.outbox, KeyOf(n), n.user) else w.outbox;
    assert w'.outbox.Keys - w.outbox.Keys == if IsMessage(n, n.user) && KeyOf(n) !in w.outbox then {KeyOf(n)} else {};
    hide Observed, Seen;
  }

  lemma ObserveKeepsRows(w: World, x: Observation, stored: Option<int>, now: int)
    requires OutboxInv(w)
    ensures var w' := Observing(w, x, stored, now); RowsFit(w'.notes, w'.outbox, w'.queued, w'.cleaned)
  {
    hide Observing, Seen, CyclesGrow, KeyOf, DedupeKey;
    var w', n := Observing(w, x, stored, now), Seen(w, x, stored, now);
    ObserveFits(w, x, stored, now);
    ObserveRows(w, x, stored, now);
    assert w'.notes == w.notes + [n];
    if n.move.Open? { NewKey(w, w', n); }
    hide NoteFits;
    forall key: string ensures Sent(w'.notes, key) <==> Sent(w.notes, key) || (IsMessage(n, n.user) && key == KeyOf(n)) {
      SentMore(w.notes, n, key);
    }
    hide Sent;
  }

  lemma CheckKeepsRows(w: World, c: Check)
    requires Rearms(w, c) && OutboxInv(w)
    ensures RowsFit(w.notes + [Checked(w, c)], w.outbox, w.queued, w.cleaned)
  {
    hide Sent, CyclesGrow, DedupeKey;
    forall key: string ensures Sent(w.notes + [Checked(w, c)], key) <==> Sent(w.notes, key) {
      SentMore(w.notes, Checked(w, c), key);
    }
  }

  /** Cleanup moves deleted keys from the rows to the cleaned ones. */
  lemma CleanKeepsRows(w: World, expired: set<string>)
    requires OutboxInv(w)
    ensures var w' := Cleaning(w, expired); RowsFit(w'.notes, w'.outbox, w'.queued, w'.cleaned)
  {
    hide Sent, CyclesGrow;
  }

  lemma StepKeepsRows(w: World, e: Event)
    requires OutboxInv(w)
    ensures RowsFit(Step(w, e).notes, Step(w, e).outbox, Step(w, e).queued, Step(w, e).cleaned)
  {
    hide Observing, Seen, Cleaning, Sent, CyclesGrow, Checked, Recheck;
    match e
    case Observe(x, stored, now) => ObserveKeepsRows(w, x, stored, now);
    case SendCheck(c, now) => if Rearms(w, c) { CheckKeepsRows(w, c); } else { assert w.notes + [] == w.notes; }
    case Finish(_) =>
    case Clean(expired) => CleanKeepsRows(w, expired);
  }

  lemma StepKeepsOutbox(w: World, e: Event)
    requires OutboxInv(w)
    ensures OutboxInv(Step(w, e))
  {
    hide CyclesGrow, RowsFit, Step, Noted, NoteFits;
    StepKeepsRows(w, e);
    StepFacts(w, e);
    if Noted(w, e) != [] {
      NoteGrows(w, Step(w, e), Noted(w, e)[0]);
    } else {
      SameCycles(w, Step(w, e));
    }
  }

  lemma SameCycles(w: World, w': World)
    requires w'.states == w.states && w'.notes == w.notes && CyclesGrow(w)
    ensures CyclesGrow(w')
  {
  }

  lemma {:induction false} RunKeepsOutbox(es: seq<Event>)
    ensures OutboxInv(Run(es))
    decreases |es|
  {
    hide OutboxInv, Step;
    if es == [] {
      NoMessages();
    } else {
      RunKeepsOutbox(Front(es));
      StepKeepsOutbox(Run(Front(es)), Last(es));
    }
  }

  lemma NoMessages()
    ensures OutboxInv(EMPTY)
  {
  }

  predicate Opened(n: Note, user: Id, cycle: nat) {
    IsAlert(n, user) && n.cycle == cycle
  }

  predicate Told(n: Note, user: Id, cycle: nat) {
    IsMessage(n, user) && n.cycle == cycle
  }

  lemma SentIsTold(notes: seq<Note>, user: Id, cycle: nat)
    ensures Sent(notes, DedupeKey(user, cycle)) <==> exists i :: 0 <= i < |notes| && Told(notes[i], user, cycle)
  {
    hide DedupeKey;
    if Sent(notes, DedupeKey(user, cycle)) {
      var i :| 0 <= i < |notes| && IsMessage(notes[i], notes[i].user) && KeyOf(notes[i]) == DedupeKey(user, cycle);
      DedupeKeyInjective(notes[i].user, notes[i].cycle, user, cycle);
      assert Told(notes[i], user, cycle);
    }
    if i :| 0 <= i < |notes| && Told(notes[i], user, cycle) {
      assert KeyOf(notes[i]) == DedupeKey(user, cycle);
    }
  }

  /**
   In every run: one message row was ever inserted for a cycle that opened for a user eligible then, none for any
   other; it is there until a cleanup deletes it; and cycles never reopen.
   */
  lemma OneMessagePerEligibleCycle(es: seq<Event>, user: Id, cycle: nat)
    ensures var w, key := Run(es), DedupeKey(user, cycle);
            && w.queued[key] == (if exists i :: 0 <= i < |w.notes| && Told(w.notes[i], user, cycle) then 1 else 0)
            && (key in w.outbox <==> w.queued[key] == 1 && key !in w.cleaned)
    ensures forall i, j :: 0 <= i < j < |Run(es).notes| && Opened(Run(es).notes[i], user, cycle) ==> !Opened(Run(es).notes[j], user, cycle)
  {
    RunKeepsOutbox(es);
    hide Run, DedupeKey;
    SentIsTold(Run(es).notes, user, cycle);
  }

  // ---- once per episode --------------------------------------------------------------------------------------

  /** The user's episode is open and its message was queued. */
  predicate OpenAndTold(w: World, user: Id) {
    user in w.states && w.states[user].alerted && w.queued[DedupeKey(user, w.states[user].cycle)] > 0
  }

  /** An observation that alerts a user again whose open episode has had its message. */
  predicate TellsAgain(w: World, e: Event) {
    e.Observe? && OpenAndTold(w, e.x.user) && Seen(w, e.x, e.stored, e.now).move.Open?
  }

  ghost predicate NoneTellsAgain(es: seq<Event>)
    decreases |es|
  {
    es == [] || (NoneTellsAgain(Front(es)) && !TellsAgain(Run(Front(es)), Last(es)))
  }

  /** A user told of a low balance is not alerted again, forced or not, before a recovery. */
  ghost predicate OncePerEpisode(notes: seq<Note>) {
    forall i, j :: 0 <= i < j < |notes| && IsMessage(notes[i], notes[j].user) && notes[j].move.Open? ==>
      RecoveredSince(notes[..j], notes[j].user, i)
  }

  /** An alert's episode is the open one exactly while nothing recovered since. */
  ghost predicate EpisodesFit(w: World) {
    forall i :: 0 <= i < |w.notes| && w.notes[i].move.Open? ==>
      && w.notes[i].user in w.states
      && (w.states[w.notes[i].user].alerted && w.states[w.notes[i].user].cycle == w.notes[i].cycle ==>
            !RecoveredSince(w.notes, w.notes[i].user, i))
  }

  lemma NoteFitsEpisodes(w: World, w': World, n: Note)
    requires NoteFits(w, w', n)
    requires EpisodesFit(w) && CyclesGrow(w)
    ensures EpisodesFit(w')
  {
    forall i | 0 <= i < |w'.notes| && w'.notes[i].move.Open?
      ensures w'.notes[i].user in w'.states
      ensures w'.states[w'.notes[i].user].alerted && w'.states[w'.notes[i].user].cycle == w'.notes[i].cycle ==>
                !RecoveredSince(w'.notes, w'.notes[i].user, i)
    {
      if i < |w.notes| {
        RecoveryMore(w.notes, n, w.notes[i].user, i);
      }
    }
  }

  /** While nobody is told twice, a message's episode is the open one or is over. */
  ghost predicate TellingInv(w: World) {
    && OncePerEpisode(w.notes)
    && forall i :: 0 <= i < |w.notes| && IsMessage(w.notes[i], w.notes[i].user) ==>
         && w.notes[i].user in w.states
         && ((w.states[w.notes[i].user].alerted && w.states[w.notes[i].user].cycle == w.notes[i].cycle)
             || RecoveredSince(w.notes, w.notes[i].user, i))
  }

  lemma NoteTells(w: World, w': World, n: Note)
    requires NoteFits(w, w', n) && (n.move.Open? ==> !OpenAndTold(w, n.user))
    requires RowsFit(w.notes, w.outbox, w.queued, w.cleaned)
    requires TellingInv(w)
    ensures TellingInv(w')
  {
    hide DedupeKey;
    forall i | 0 <= i < |w.notes| && IsMessage(w.notes[i], w.notes[i].user)
      ensures n.user == w.notes[i].user && n.move.Open? ==> RecoveredSince(w.notes, n.user, i)
      ensures RecoveredSince(w'.notes, w.notes[i].user, i) <==> RecoveredSince(w.notes, w.notes[i].user, i) || IsRecovery(n, w.notes[i].user)
    {
      RecoveryMore(w.notes, n, w.notes[i].user, i);
      assert Sent(w.notes, KeyOf(w.notes[i]));
    }
    hide RecoveredSince, OpenAndTold, RowsFit;
    forall i, j | 0 <= i < j < |w'.notes| && IsMessage(w'.notes[i], w'.notes[j].user) && w'.notes[j].move.Open?
      ensures RecoveredSince(w'.notes[..j], w'.notes[j].user, i)
    {
      assert w'.notes[..j] == if j < |w.notes| then w.notes[..j] else w.notes;
    }
  }

  lemma SameTelling(w: World, w': World)
    requires w'.states == w.states && w'.notes == w.notes
    ensures TellingInv(w) ==> TellingInv(w')
    ensures EpisodesFit(w) ==> EpisodesFit(w')
  {
    hide RecoveredSince, OncePerEpisode;
  }

  /** The step that tells again leaves two alerts with no recovery between them. */
  lemma TellsTwice(w: World, e: Event)
    requires TellsAgain(w, e)
    requires OutboxInv(w) && EpisodesFit(w)
    ensures !OncePerEpisode(Step(w, e).notes)
  {
    var n, st := Seen(w, e.x, e.stored, e.now), w.states[e.x.user];
    StepFacts(w, e);
    assert n.user == e.x.user;
    assert Step(w, e).notes == w.notes + [n];
    hide Step, Seen, DedupeKey, CyclesGrow;
    assert Sent(w.notes, DedupeKey(e.x.user, st.cycle));
    SentIsTold(w.notes, e.x.user, st.cycle);
    var i :| 0 <= i < |w.notes| && Told(w.notes[i], e.x.user, st.cycle);
    var notes := w.notes + [n];
    assert notes[..|w.notes|] == w.notes && notes[i] == w.notes[i] && notes[|w.notes|] == n;
    hide RecoveredSince;
    assert !RecoveredSince(w.notes, n.user, i);
  }

  lemma TwiceStaysTwice(notes: seq<Note>, more: seq<Note>)
    requires !OncePerEpisode(notes)
    ensures !OncePerEpisode(notes + more)
  {
    hide RecoveredSince;
    var i, j :| 0 <= i < j < |notes| && IsMessage(notes[i], notes[j].user) && notes[j].move.Open?
                && !RecoveredSince(notes[..j], notes[j].user, i);
    assert (notes + more)[..j] == notes[..j] && (notes + more)[i] == notes[i] && (notes + more)[j] == notes[j];
  }

  lemma {:induction false} RunFitsEpisodes(es: seq<Event>)
    ensures EpisodesFit(Run(es))
    decreases |es|
  {
    hide EpisodesFit, Step, NoteFits, Noted, OutboxInv, CyclesGrow, RowsFit;
    if es == [] {
      NobodyTold();
    } else {
      var w, e := Run(Front(es)), Last(es);
      RunFitsEpisodes(Front(es));
      RunKeepsOutbox(Front(es));
      OutboxParts(w);
      StepFacts(w, e);
      if Noted(w, e) != [] {
        NoteFitsEpisodes(w, Step(w, e), Noted(w, e)[0]);
      } else {
        SameTelling(w, Step(w, e));
      }
    }
  }

  lemma OutboxParts(w: World)
    requires OutboxInv(w)
    ensures CyclesGrow(w) && RowsFit(w.notes, w.outbox, w.queued, w.cleaned)
  {
    hide CyclesGrow, RowsFit;
  }

  lemma NobodyTold()
    ensures EpisodesFit(EMPTY) && TellingInv(EMPTY)
  {
  }

  lemma QuietTelling(w: World, e: Event)
    requires !TellsAgain(w, e) && OutboxInv(w)
    requires TellingInv(w)
    ensures TellingInv(Step(w, e))
  {
    hide Step, OutboxInv, CyclesGrow, RowsFit, TellingInv, NoteFits, OpenAndTold;
    StepFacts(w, e);
    OutboxParts(w);
    if Noted(w, e) != [] {
      assert e.Observe? ==> Noted(w, e)[0].user == e.x.user;
      NoteTells(w, Step(w, e), Noted(w, e)[0]);
    } else {
      SameTelling(w, Step(w, e));
    }
  }

  lemma {:induction false} RunTells(es: seq<Event>)
    ensures if NoneTellsAgain(es) then TellingInv(Run(es)) else !OncePerEpisode(Run(es).notes)
    decreases |es|
  {
    hide TellingInv, Step, TellsAgain, OncePerEpisode, OutboxInv, EpisodesFit, Noted;
    if es == [] {
      NobodyTold();
    } else {
      var w, e := Run(Front(es)), Last(es);
      RunTells(Front(es));
      RunKeepsOutbox(Front(es));
      RunFitsEpisodes(Front(es));
      if !NoneTellsAgain(Front(es)) {
        StepFacts(w, e);
        NotesGrow(w, e);
        TwiceStaysTwice(w.notes, Noted(w, e));
      } else if TellsAgain(w, e) {
        TellsTwice(w, e);
      } else {
        QuietTelling(w, e);
      }
    }
  }

  lemma NotesGrow(w: World, e: Event)
    ensures Step(w, e).notes == w.notes + Noted(w, e)
  {
    hide Seen, Observed, Pruned, Checked;
    assert w.notes + [] == w.notes;
  }

  /**
   In every run: no user told of a low balance is alerted again before a recovery, if and only if no observation
   opened another cycle for a user whose open episode had had its message.
   */
  lemma ToldOncePerEpisode(es: seq<Event>)
    ensures OncePerEpisode(Run(es).notes) <==> NoneTellsAgain(es)
  {
    RunTells(es);
    hide Run, OncePerEpisode;
  }

  /**
   For the backfill, whose verdict is given under the lock, such an observation is one of a low balance in an open,
   told episode whose message row a cleanup has deleted.
   */
  predicate AfterCleanup(w: World, e: Event) {
    && e.Observe? && OpenAndTold(w, e.x.user) && DedupeKey(e.x.user, w.states[e.x.user].cycle) in w.cleaned
    && Balance(e.x, e.stored) <= e.x.threshold && Balance(e.x, e.stored) <= e.x.boundary && e.x.forcing.Backfill?
  }

  lemma OnlyAfterCleanup(w: World, e: Event)
    requires e.Observe? ==> !e.x.forcing.Forced?
    requires OutboxInv(w)
    ensures TellsAgain(w, e) <==> AfterCleanup(w, e)
  {
    if e.Observe? && OpenAndTold(w, e.x.user) {
      var key := DedupeKey(e.x.user, w.states[e.x.user].cycle);
      assert key in w.outbox <==> key !in w.cleaned;
      ToldCycleCounts(w, e.x.user);
    }
    hide DedupeKey, CyclesGrow, RowsFit;
  }

  /** Cycle 0, the silent baseline, never has a message. */
  lemma ToldCycleCounts(w: World, user: Id)
    requires OutboxInv(w) && OpenAndTold(w, user)
    ensures w.states[user].cycle > 0
  {
    SentIsTold(w.notes, user, w.states[user].cycle);
    hide DedupeKey;
  }

  /** No caller forces by a verdict of its own; the backfill's rule is the only way past a crossing. */
  ghost predicate NoBlindForce(es: seq<Event>) {
    forall i :: 0 <= i < |es| && es[i].Observe? ==> !es[i].x.forcing.Forced?
  }

  ghost predicate NoneAfterCleanup(es: seq<Event>)
    decreases |es|
  {
    es == [] || (NoneAfterCleanup(Front(es)) && !AfterCleanup(Run(Front(es)), Last(es)))
  }

  lemma {:induction false} SameVerdicts(es: seq<Event>)
    requires NoBlindForce(es)
    ensures NoneTellsAgain(es) <==> NoneAfterCleanup(es)
    decreases |es|
  {
    hide TellsAgain, AfterCleanup, Step, OutboxInv;
    if es != [] {
      SameVerdicts(Front(es));
      RunKeepsOutbox(Front(es));
      OnlyAfterCleanup(Run(Front(es)), Last(es));
    }
  }

  /**
   In every run whose only forcing is the backfill's: no user told of a low balance is alerted again before a
   recovery, if and only if no backfill observed a user still low in an episode whose message row was deleted.
   */
  lemma BackfillTellsOncePerEpisode(es: seq<Event>)
    requires NoBlindForce(es)
    ensures OncePerEpisode(Run(es).notes) <==> NoneAfterCleanup(es)
  {
    ToldOncePerEpisode(es);
    SameVerdicts(es);
    hide OncePerEpisode, NoBlindForce;
  }

  // ---- two runs that tell twice --------------------------------------------------------------------------------

  lemma RunOneMore(es: seq<Event>, e: Event)
    ensures Run(es + [e]) == Step(Run(es), e)
  {
    FrontOfAppend(es, e);
    hide Step;
  }

  lemma RunFour(a: Event, b: Event, c: Event, d: Event)
    ensures Run([a, b, c, d]) == Step(Step(Step(Step(EMPTY, a), b), c), d)
  {
    hide Step;
    RunOneMore([], a);
    RunOneMore([a], b);
    RunOneMore([a, b], c);
    RunOneMore([a, b, c], d);
    assert [] + [a] == [a] && [a] + [b] == [a, b] && [a, b] + [c] == [a, b, c] && [a, b, c] + [d] == [a, b, c, d];
  }

  /** A witnessed fall from above the threshold to `low`. */
  function Fall(user: Id, from: int, low: int, threshold: int, boundary: int): Event {
    Observe(Observation(user, Some(from), low, threshold, boundary, 1, true, Unforced), None, 0)
  }

  function FallenState(from: int, low: int, threshold: int, boundary: int): AlertState {
    AlertState(true, 1, low, threshold, boundary, 1, Some(0), None)
  }

  /** The first fall of a user opens cycle 1 and queues its message. */
  lemma FirstFall(user: Id, from: int, low: int, threshold: int, boundary: int)
    requires low <= threshold < from
    ensures var w, key := Step(EMPTY, Fall(user, from, low, threshold, boundary)), DedupeKey(user, 1);
            && w.states == map[user := FallenState(from, low, threshold, boundary)] && w.outbox == map[key := Message(user, false)]
            && |w.notes| == 1 && IsMessage(w.notes[0], user) && w.notes[0].move == Open(false) && w.notes[0].balance == low
  {
    hide DedupeKey;
  }

  /** Its message is delivered, and deleted once its retention is over. */
  lemma DeliveredAndCleaned(w: World, key: string, user: Id)
    requires w.outbox == map[key := Message(user, false)]
    ensures var w' := Step(Step(w, Finish(key)), Clean({key}));
            w'.states == w.states && w'.outbox == map[] && w'.notes == w.notes
  {
    var w1 := Step(w, Finish(key));
    assert w1.outbox == map[key := Message(user, true)];
  }

  lemma BackfillOpensAgain(w: World, user: Id, from: int, low: int, threshold: int, boundary: int)
    requires low <= threshold < from && threshold <= boundary
    requires w.states == map[user := FallenState(from, low, threshold, boundary)] && w.outbox == map[]
    ensures var w' := Step(w, Observe(Observation(user, None, low, threshold, boundary, 1, true, Backfill), Some(low), 0));
            && |w'.notes| == |w.notes| + 1 && w'.notes[..|w.notes|] == w.notes && IsMessage(Last(w'.notes), user)
            && Last(w'.notes).move == Open(true) && Last(w'.notes).balance == low
  {
    hide DedupeKey;
  }

  /**
   Such runs exist for every user and all settings: a fall is told of, its message delivered and deleted by
   cleanup, and a backfill tells the user a second time although the balance never rose.
   */
  lemma CleanupRepeatsAlert(user: Id, from: int, low: int, threshold: int, boundary: int) returns (es: seq<Event>)
    requires low <= threshold < from && threshold <= boundary
    ensures NoBlindForce(es) && |Run(es).notes| == 2
    ensures forall i :: 0 <= i < 2 ==> IsMessage(Run(es).notes[i], user) && Run(es).notes[i].balance <= threshold
    ensures !OncePerEpisode(Run(es).notes)
  {
    hide Step, DedupeKey, Run, OncePerEpisode;
    var key := DedupeKey(user, 1);
    var backfill := Observe(Observation(user, None, low, threshold, boundary, 1, true, Backfill), Some(low), 0);
    es := [Fall(user, from, low, threshold, boundary), Finish(key), Clean({key}), backfill];
    RunFour(es[0], es[1], es[2], es[3]);
    var w1 := Step(EMPTY, es[0]);
    FirstFall(user, from, low, threshold, boundary);
    DeliveredAndCleaned(w1, key, user);
    var w3 := Step(Step(w1, es[1]), es[2]);
    BackfillOpensAgain(w3, user, from, low, threshold, boundary);
    var notes := Run(es).notes;
    assert notes[..1][0] == notes[0];
    TwoUnrecovered(notes, user);
  }

  lemma TwoUnrecovered(notes: seq<Note>, user: Id)
    requires |notes| == 2 && IsMessage(notes[0], user) && IsMessage(notes[1], user)
    ensures !OncePerEpisode(notes)
  {
    assert !RecoveredSince(notes[..1], user, 0);
  }

  /** A rise that is seen but stays under the boundary of the day. */
  lemma RiseSeen(w: World, user: Id, from: int, low: int, high: int, threshold: int, boundary: int, raised: int)
    requires low <= threshold < from && boundary < high <= raised && threshold <= boundary
    requires w.states == map[user := FallenState(from, low, threshold, boundary)]
    ensures var w' := Step(w, Observe(Observation(user, Some(low), high, threshold, raised, 2, true, Unforced), None, 0));
            && w'.states == map[user := AlertState(true, 1, high, threshold, raised, 2, Some(0), None)]
            && |w'.notes| == |w.notes| + 1 && w'.notes[..|w.notes|] == w.notes
            && Last(w'.notes).user == user && Last(w'.notes).move.Stay? && !Last(w'.notes).checked
  {
    hide DedupeKey, Queued, Authorized;
  }

  lemma CheckRearms(w: World, user: Id, high: int, threshold: int, boundary: int, raised: int)
    requires w.states == map[user := AlertState(true, 1, high, threshold, raised, 2, Some(0), None)] && boundary < high
    ensures var w' := Step(w, SendCheck(Check(user, 1, boundary, true, Some(Recipient(true, true, high))), 0));
            && w'.states == map[user := AlertState(false, 1, high, threshold, raised, 2, Some(0), Some(0))]
            && |w'.notes| == |w.notes| + 1 && w'.notes[..|w.notes|] == w.notes
            && Last(w'.notes).user == user && Last(w'.notes).move.Rearm? && Last(w'.notes).checked
  {
  }

  lemma FallsAgain(w: World, user: Id, low: int, high: int, threshold: int, raised: int)
    requires low <= threshold < high
    requires w.states == map[user := AlertState(false, 1, high, threshold, raised, 2, Some(0), Some(0))]
    ensures var w' := Step(w, Fall(user, high, low, threshold, raised));
            && |w'.notes| == |w.notes| + 1 && w'.notes[..|w.notes|] == w.notes
            && IsMessage(Last(w'.notes), user) && Last(w'.notes).move == Open(false)
  {
    hide DedupeKey;
  }

  /**
   The check before sending is needed in the separation: after the owner raises the boundary, a user is alerted
   twice without forcing although no observation in between saw a balance above its own boundary.
   */
  lemma OnlyTheCheckRecovers(user: Id, from: int, low: int, high: int, threshold: int, boundary: int, raised: int) returns (es: seq<Event>)
    requires low <= threshold < from && boundary < high <= raised && threshold <= boundary
    ensures var notes := Run(es).notes;
            && |notes| == 4 && IsMessage(notes[0], user) && IsMessage(notes[3], user) && notes[3].move == Open(false)
            && notes[1].move.Stay? && notes[2].move.Rearm? && notes[2].checked
  {
    var rise := Observe(Observation(user, Some(low), high, threshold, raised, 2, true, Unforced), None, 0);
    var check := SendCheck(Check(user, 1, boundary, true, Some(Recipient(true, true, high))), 0);
    es := [Fall(user, from, low, threshold, boundary), rise, check, Fall(user, high, low, threshold, raised)];
    RunFour(es[0], es[1], es[2], es[3]);
    FirstFall(user, from, low, threshold, boundary);
    var w1 := Step(EMPTY, es[0]);
    RiseSeen(w1, user, from, low, high, threshold, boundary, raised);
    var w2 := Step(w1, es[1]);
    CheckRearms(w2, user, high, threshold, boundary, raised);
    var w3 := Step(w2, es[2]);
    FallsAgain(w3, user, low, high, threshold, raised);
    var notes := Step(w3, es[3]).notes;
    hide Step, DedupeKey, Run;
    assert notes[..3][2] == notes[2] && w3.notes[..2][1] == w3.notes[1] && w2.notes[..1][0] == w2.notes[0];
    assert notes[..3][1] == notes[1] && notes[..3][0] == notes[0] && w3.notes[..2][0] == w3.notes[0];
  }

  // ---- the first observation --------------------------------------------------------------------------------

  /** A first, witnessed edge leaves what a silent baseline at "before", followed by that edge, leaves. */
  lemma FirstEdgeIsBaselineThenEdge(states: States, outbox: Outbox, x: Observation, stored: Option<int>, now: int)
    requires x.user !in states && x.before.Some? && x.threshold <= x.boundary
    ensures var baseline := Observed(states, outbox, x.(after := x.before.value, forcing := Unforced), stored, now);
            var second := Observed(baseline.0, baseline.1, x, stored, now);
            var direct := Observed(states, outbox, x, stored, now);
            && baseline.1 == outbox && (baseline.2.SeededArmed? || baseline.2.SeededBaseline?) && baseline.2.cycle == 0
            && second.0 == direct.0 && second.1 == direct.1 && second.2.cycle == direct.2.cycle
            && (second.2.Alerted? || direct.2.Alerted? ==> second.2 == direct.2)
  {
    hide DedupeKey, Queued;
    var base := x.(after := x.before.value, forcing := Unforced);
    var st := Seed(x, now);
    assert Locked(states, base, now) == st && Balance(base, stored) == x.before.value;
    assert Decide(st, base, x.before.value, outbox) == Stay;
    assert Moved(st, base, x.before.value, Stay, now) == st;
    assert Observed(states, outbox, base, stored, now).0 == states[x.user := st];
  }
}
