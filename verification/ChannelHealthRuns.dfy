/**
 Every run of the channel policy: failures and successes seen by any number of requests, with any
 clock readings, mixed with the administrator's changes. A failure is a read and a later write under
 the configuration lock, which keeps out every other transaction but not a passed access test.
 */
module ChannelHealthRuns {
  import opened Wrappers
  import opened ChannelHealth

  datatype Event =
    | ReadFailure(id: Id, now: int)
    | WriteBack(route: Route)
    | Abort
    | TestPassed(id: Id)
    | Success(id: Id, snapshot: nat)
    | Bound(id: Id)
    | Switch(id: Id, active: bool)
    | Removed(id: Id)
    | Enabled
    | Disabled
    | DisabledAndDeactivated(id: Id)
    | DisabledAndRemoved(id: Id)

  /** What requests and not the administrator do. */
  predicate ByPolicy(e: Event) {
    e.ReadFailure? || e.WriteBack? || e.Abort? || e.Success?
  }

  /** A failure that was written: when it was read, and the positions of the failures that its count counts, itself last. */
  datatype Failure = Failure(id: Id, now: int, readAt: nat, window: seq<nat>)

  /** What an onlooker notes of a step: the failure it wrote, the window it ended, and what it switched off. */
  datatype Note = Note(event: Event, failure: Option<Failure>, cleared: Option<Id>, deactivated: bool, switchedOff: bool)

  /** A failure transaction between its read and its write; it holds the configuration lock. */
  datatype Reading = Reading(id: Id, now: int, row: Channel, readAt: nat, window: seq<nat>)

  /** `windows` holds, per channel, the positions of the failures that its row counts. */
  datatype World = World(config: Config, windows: map<Id, seq<nat>>, pending: Option<Reading>, notes: seq<Note>)

  /** The transactions of one step that take the lock. */
  function Apply(k: Config, e: Event): Config {
    match e
    case Success(id, snapshot) => RecordSuccess(k, id, snapshot)
    case Bound(id) => Bind(k, id)
    case Switch(id, active) => SetActive(k, id, active)
    case Removed(id) => Remove(k, id)
    case Enabled => Enable(k)
    case Disabled => k.(enabled := false)
    case DisabledAndDeactivated(id) => DisableAndDeactivate(k, id)
    case DisabledAndRemoved(id) => DisableAndRemove(k, id)
    case _ => k
  }

  /** The channel whose window a step ends, if it ends one. */
  function WindowEnded(k: Config, e: Event): Option<Id> {
    match e
    case Success(id, _) => if RecordSuccess(k, id, e.snapshot) != k then Some(id) else None
    case Bound(id) => Some(id)
    case TestPassed(id) => if id in k.channels then Some(id) else None
    case Removed(id) => if Remove(k, id) != k then Some(id) else None
    case DisabledAndRemoved(id) => Some(id)
    case _ => None
  }

  function WindowOf(windows: map<Id, seq<nat>>, id: Id): seq<nat> {
    if id in windows then windows[id] else []
  }

  function Ended(windows: map<Id, seq<nat>>, cleared: Option<Id>): map<Id, seq<nat>> {
    if cleared.Some? then windows[cleared.value := []] else windows
  }

  /** A step that nothing comes of, because the lock is taken or there is nothing to do. */
  function Idle(w: World, e: Event): World {
    w.(notes := w.notes + [Note(e, None, None, false, false)])
  }

  function Reads(w: World, e: Event): World
    requires e.ReadFailure?
  {
    var w' := Idle(w, e);
    if w.pending.Some? || !Countable(w.config, e.id, e.now) then w'
    else w'.(pending := Some(Reading(e.id, e.now, w.config.channels[e.id], |w.notes|, WindowOf(w.windows, e.id))))
  }

  /** A failure after a long silence starts a window afresh. */
  predicate Fresh(row: Channel, now: int) {
    row.lastAt.None? || now - row.lastAt.value > RESET
  }

  function Writes(w: World, e: Event): World
    requires e.WriteBack?
  {
    if w.pending.None? then Idle(w, e)
    else
      var r := w.pending.value;
      var k' := WriteFailure(w.config, r.id, r.row, r.now, e.route).0;
      var window := if Fresh(r.row, r.now) then [|w.notes|] else r.window + [|w.notes|];
      World(k', w.windows[r.id := window], None,
            w.notes + [Note(e, Some(Failure(r.id, r.now, r.readAt, window)), None,
                            r.id in Active(w.config.channels) && r.id !in Active(k'.channels), w.config.enabled && !k'.enabled)])
  }

  function Step(w: World, e: Event): World {
    match e
    case ReadFailure(_, _) => Reads(w, e)
    case WriteBack(_) => Writes(w, e)
    case Abort => Idle(w, e).(pending := None)
    case TestPassed(id) =>
      World(PassTest(w.config, id), Ended(w.windows, WindowEnded(w.config, e)), w.pending,
            w.notes + [Note(e, None, WindowEnded(w.config, e), false, false)])
    case _ =>
      if w.pending.Some? then Idle(w, e)
      else World(Apply(w.config, e), Ended(w.windows, WindowEnded(w.config, e)), None,
                 w.notes + [Note(e, None, WindowEnded(w.config, e), false, false)])
  }

  function Run(w: World, es: seq<Event>): World
    decreases |es|
  {
    if es == [] then w else Step(Run(w, Front(es)), Last(es))
  }

  /** No failure counted or being counted, nothing noted or logged, and the switch on only with a channel to enforce. */
  ghost predicate Start(w: World) {
    && w.notes == [] && w.config.log == [] && w.windows == map[] && w.pending.None?
    && (w.config.enabled ==> Active(w.config.channels) != {})
    && forall c :: c in w.config.channels ==>
         w.config.channels[c].count == 0 && w.config.channels[c].firstAt.None? && w.config.channels[c].lastAt.None?
  }

  /** A read and its write with nothing between them are the failure transaction of the policy. */
  lemma UninterruptedFailure(w: World, id: Id, now: int, route: Route)
    requires w.pending.None?
    ensures Step(Step(w, ReadFailure(id, now)), WriteBack(route)).config == RecordFailure(w.config, id, now, route).0
  {
    hide FailedOnce, MustRetire, RetirementLog;
  }

  // ---- every retirement has its failures ------------------------------------------------------------------------

  predicate FailureAt(notes: seq<Note>, i: nat, id: Id) {
    i < |notes| && notes[i].failure.Some? && notes[i].failure.value.id == id
  }

  function TimeAt(notes: seq<Note>, i: nat): int
    requires i < |notes| && notes[i].failure.Some?
  {
    notes[i].failure.value.now
  }

  /** Counted failures of one channel, each read after the one before was written, soon but not too soon after it. */
  ghost predicate Chain(notes: seq<Note>, id: Id, at: seq<nat>) {
    && (forall k :: 0 <= k < |at| ==> FailureAt(notes, at[k], id))
    && (forall k :: 0 < k < |at| ==>
          at[k - 1] < notes[at[k]].failure.value.readAt < at[k] && DEBOUNCE <= TimeAt(notes, at[k]) - TimeAt(notes, at[k - 1]) <= RESET)
  }

  /** An access test passed at position m, between the read and the write of the failure written at position f. */
  predicate Overtakes(notes: seq<Note>, id: Id, f: nat, m: nat) {
    && m < |notes| && notes[m].event == TestPassed(id) && notes[m].cleared == Some(id)
    && FailureAt(notes, f, id) && notes[f].failure.value.readAt < m < f
  }

  /** Some later failure of this window was overtaken by an access test. */
  ghost predicate Overtaken(notes: seq<Note>, id: Id, at: seq<nat>) {
    exists k: nat, m: nat :: 0 < k < |at| && Overtakes(notes, id, at[k], m)
  }

  /** Something ended the channel's window at or after i and before j. */
  ghost predicate ClearedWithin(notes: seq<Note>, id: Id, i: nat, j: nat) {
    exists m: nat :: i <= m < j && m < |notes| && notes[m].cleared == Some(id)
  }

  /** Only overtaking tests ended the window before position n. */
  ghost predicate OnlyOvertaken(notes: seq<Note>, id: Id, at: seq<nat>, n: nat) {
    at != [] ==> forall m :: at[0] <= m < n && m < |notes| && notes[m].cleared == Some(id) ==>
      exists k :: 0 < k < |at| && Overtakes(notes, id, at[k], m)
  }

  /** A row counts exactly the failures of this window. */
  ghost predicate Backed(notes: seq<Note>, id: Id, c: Channel, at: seq<nat>) {
    && |at| == c.count && Chain(notes, id, at)
    && (at == [] ==> c.firstAt.None? && c.lastAt.None?)
    && (at != [] ==> c.firstAt == Some(TimeAt(notes, at[0])) && c.lastAt == Some(TimeAt(notes, Last(at))))
  }

  ghost predicate WindowFits(notes: seq<Note>, id: Id, c: Channel, at: seq<nat>) {
    Backed(notes, id, c, at) && OnlyOvertaken(notes, id, at, |notes|)
  }

  ghost predicate WindowsInv(w: World) {
    forall id :: id in w.config.channels ==> WindowFits(w.notes, id, w.config.channels[id], WindowOf(w.windows, id))
  }

  /** What a failure transaction in progress knows; since its read only access tests ended windows. */
  ghost predicate ReadingFits(config: Config, notes: seq<Note>, r: Reading) {
    && r.id in config.channels && config.channels[r.id].active && r.row.active
    && r.readAt < |notes| && notes[r.readAt].event.ReadFailure? && notes[r.readAt].cleared.None?
    && !Debounced(r.row, r.now)
    && Backed(notes, r.id, r.row, r.window) && (forall k :: 0 <= k < |r.window| ==> r.window[k] < r.readAt)
    && OnlyOvertaken(notes, r.id, r.window, r.readAt)
    && forall m :: r.readAt < m < |notes| && notes[m].cleared == Some(r.id) ==> notes[m].event == TestPassed(r.id)
  }

  /** The evidence for a retirement noted at position j. */
  ghost predicate Justified(notes: seq<Note>, j: nat)
    requires j < |notes| && notes[j].failure.Some?
  {
    var f := notes[j].failure.value;
    && Chain(notes, f.id, f.window) && |f.window| >= FAILURE_THRESHOLD && Last(f.window) == j
    && f.now - TimeAt(notes, f.window[0]) >= MIN_WINDOW
  }

  /** A retirement has its five failures over ten minutes; its window was cleared in between only if it was overtaken. */
  ghost predicate RetirementFits(notes: seq<Note>, j: nat)
    requires j < |notes|
  {
    notes[j].deactivated ==>
      && notes[j].failure.Some? && Justified(notes, j)
      && OnlyOvertaken(notes, notes[j].failure.value.id, notes[j].failure.value.window, j)
  }

  ghost predicate RetirementsFit(notes: seq<Note>) {
    forall j :: 0 <= j < |notes| ==> RetirementFits(notes, j)
  }

  ghost predicate Inv(w: World) {
    && WindowsInv(w) && (w.pending.Some? ==> ReadingFits(w.config, w.notes, w.pending.value))
    && RetirementsFit(w.notes)
  }

  // ---- one more note --------------------------------------------------------------------------------------------

  lemma ChainStays(notes: seq<Note>, n: Note, id: Id, at: seq<nat>)
    requires Chain(notes, id, at)
    ensures Chain(notes + [n], id, at)
  {
    forall k | 0 <= k < |at| ensures FailureAt(notes + [n], at[k], id) && (notes + [n])[at[k]] == notes[at[k]] {
      assert FailureAt(notes, at[k], id);
    }
  }

  lemma BackedStays(notes: seq<Note>, n: Note, id: Id, c: Channel, at: seq<nat>)
    requires Backed(notes, id, c, at)
    ensures Backed(notes + [n], id, c, at)
  {
    ChainStays(notes, n, id, at);
    if at != [] {
      assert FailureAt(notes, at[0], id) && FailureAt(notes, Last(at), id);
    }
  }

  lemma OvertakesStays(notes: seq<Note>, n: Note, id: Id, f: nat, m: nat)
    requires Overtakes(notes, id, f, m)
    ensures Overtakes(notes + [n], id, f, m)
  {
  }

  lemma OnlyOvertakenStays(notes: seq<Note>, n: Note, id: Id, at: seq<nat>, upto: nat)
    requires OnlyOvertaken(notes, id, at, upto) && upto <= |notes|
    ensures OnlyOvertaken(notes + [n], id, at, upto)
    ensures upto == |notes| && n.cleared != Some(id) ==> OnlyOvertaken(notes + [n], id, at, upto + 1)
  {
    hide Overtakes;
    if at != [] {
      forall m | at[0] <= m < upto && (notes + [n])[m].cleared == Some(id)
        ensures exists k :: 0 < k < |at| && Overtakes(notes + [n], id, at[k], m)
      {
        assert notes[m].cleared == Some(id);
        var k :| 0 < k < |at| && Overtakes(notes, id, at[k], m);
        OvertakesStays(notes, n, id, at[k], m);
      }
    }
  }

  lemma RetirementsStay(notes: seq<Note>, n: Note)
    requires RetirementsFit(notes)
    requires n.deactivated ==> RetirementFits(notes + [n], |notes|)
    ensures RetirementsFit(notes + [n])
  {
    var more := notes + [n];
    forall j | 0 <= j < |more| ensures RetirementFits(more, j) {
      if j < |notes| && notes[j].deactivated {
        assert RetirementFits(notes, j);
        var f := notes[j].failure.value;
        ChainStays(notes, n, f.id, f.window);
        OnlyOvertakenStays(notes, n, f.id, f.window, j);
        assert FailureAt(notes, f.window[0], f.id);
      }
    }
  }

  // ---- every step -------------------------------------------------------------------------------------------------

  lemma WindowStays(notes: seq<Note>, n: Note, id: Id, c: Channel, d: Channel, at: seq<nat>)
    requires WindowFits(notes, id, c, at) && n.cleared != Some(id)
    requires d.count == c.count && d.firstAt == c.firstAt && d.lastAt == c.lastAt
    ensures WindowFits(notes + [n], id, d, at)
  {
    BackedStays(notes, n, id, c, at);
    OnlyOvertakenStays(notes, n, id, at, |notes|);
    hide Chain, OnlyOvertaken;
  }

  lemma EmptyWindow(notes: seq<Note>, id: Id, c: Channel)
    requires c.count == 0 && c.firstAt.None? && c.lastAt.None?
    ensures WindowFits(notes, id, c, [])
  {
  }

  lemma ReadingStays(k: Config, k': Config, notes: seq<Note>, n: Note, r: Reading)
    requires ReadingFits(k, notes, r) && r.id in k'.channels && k'.channels[r.id].active
    requires n.cleared == Some(r.id) ==> n.event == TestPassed(r.id)
    ensures ReadingFits(k', notes + [n], r)
  {
    BackedStays(notes, n, r.id, r.row, r.window);
    OnlyOvertakenStays(notes, n, r.id, r.window, r.readAt);
    hide Backed, OnlyOvertaken, Debounced;
  }

  /** Nothing happened but one more note. */
  lemma IdleKeepsInv(w: World, e: Event)
    requires Inv(w)
    ensures Inv(Idle(w, e))
  {
    var n := Note(e, None, None, false, false);
    hide WindowFits, ReadingFits, RetirementFits;
    RetirementsStay(w.notes, n);
    forall id | id in w.config.channels
      ensures WindowFits(w.notes + [n], id, w.config.channels[id], WindowOf(w.windows, id)) {
      WindowStays(w.notes, n, id, w.config.channels[id], w.config.channels[id], WindowOf(w.windows, id));
    }
    if w.pending.Some? {
      ReadingInPlace(w);
      ReadingStays(w.config, w.config, w.notes, n, w.pending.value);
    }
  }

  lemma ReadingInPlace(w: World)
    requires w.pending.Some? && Inv(w)
    ensures ReadingFits(w.config, w.notes, w.pending.value)
    ensures w.pending.value.id in w.config.channels && w.config.channels[w.pending.value.id].active
  {
  }

  /** What a transaction or an access test does to a channel's window. */
  lemma ApplyWindow(k: Config, e: Event, id: Id)
    requires !e.WriteBack?
    ensures var k' := if e.TestPassed? then PassTest(k, e.id) else Apply(k, e);
            id in k'.channels ==>
              if WindowEnded(k, e) == Some(id)
              then k'.channels[id].count == 0 && k'.channels[id].firstAt.None? && k'.channels[id].lastAt.None?
              else id in k.channels && k'.channels[id] == k.channels[id].(active := k'.channels[id].active)
  {
  }

  lemma EndedWindows(windows: map<Id, seq<nat>>, cleared: Option<Id>, id: Id)
    ensures WindowOf(Ended(windows, cleared), id) == if cleared == Some(id) then [] else WindowOf(windows, id)
  {
  }

  lemma AppliedWindows(w: World, e: Event)
    requires !e.WriteBack? && WindowsInv(w)
    ensures var n := Note(e, None, WindowEnded(w.config, e), false, false);
            WindowsInv(World(if e.TestPassed? then PassTest(w.config, e.id) else Apply(w.config, e),
                             Ended(w.windows, n.cleared), w.pending, w.notes + [n]))
  {
    var n := Note(e, None, WindowEnded(w.config, e), false, false);
    var k' := if e.TestPassed? then PassTest(w.config, e.id) else Apply(w.config, e);
    var windows := Ended(w.windows, n.cleared);
    hide WindowFits, Apply, PassTest, WindowEnded, Ended, WindowOf;
    forall id | id in k'.channels ensures WindowFits(w.notes + [n], id, k'.channels[id], WindowOf(windows, id)) {
      ApplyWindow(w.config, e, id);
      EndedWindows(w.windows, n.cleared, id);
      if n.cleared == Some(id) {
        EmptyWindow(w.notes + [n], id, k'.channels[id]);
      } else {
        WindowStays(w.notes, n, id, w.config.channels[id], k'.channels[id], WindowOf(w.windows, id));
      }
    }
  }

  lemma TestKeepsInv(w: World, id: Id)
    requires Inv(w)
    ensures Inv(Step(w, TestPassed(id)))
  {
    var n := Note(TestPassed(id), None, WindowEnded(w.config, TestPassed(id)), false, false);
    AppliedWindows(w, TestPassed(id));
    hide WindowsInv, ReadingFits, RetirementFits;
    RetirementsStay(w.notes, n);
    if w.pending.Some? {
      ReadingInPlace(w);
      ReadingStays(w.config, PassTest(w.config, id), w.notes, n, w.pending.value);
    }
  }

  lemma ApplyKeepsInv(w: World, e: Event)
    requires w.pending.None? && !e.WriteBack? && !e.TestPassed? && !e.ReadFailure? && !e.Abort?
    requires Inv(w)
    ensures Inv(Step(w, e))
  {
    AppliedWindows(w, e);
    hide WindowsInv, RetirementFits, Apply, WindowEnded;
    RetirementsStay(w.notes, Note(e, None, WindowEnded(w.config, e), false, false));
  }

  lemma ReadKeepsInv(w: World, e: Event)
    requires e.ReadFailure?
    requires Inv(w)
    ensures Inv(Step(w, e))
  {
    IdleKeepsInv(w, e);
    if w.pending.None? && Countable(w.config, e.id, e.now) {
      ReadFits(w, e);
    }
    hide WindowsInv, RetirementsFit, ReadingFits;
  }

  lemma ReadFits(w: World, e: Event)
    requires e.ReadFailure? && w.pending.None? && Countable(w.config, e.id, e.now) && WindowsInv(w)
    ensures ReadingFits(w.config, Idle(w, e).notes, Reading(e.id, e.now, w.config.channels[e.id], |w.notes|, WindowOf(w.windows, e.id)))
  {
    hide Debounced, OnlyOvertaken, Backed, WindowOf, ReadingFits;
    RowFits(w, e.id);
    WindowRead(w.config, w.notes, e, WindowOf(w.windows, e.id));
  }

  lemma RowFits(w: World, id: Id)
    requires WindowsInv(w) && id in w.config.channels
    ensures Backed(w.notes, id, w.config.channels[id], WindowOf(w.windows, id)) && OnlyOvertaken(w.notes, id, WindowOf(w.windows, id), |w.notes|)
  {
    hide Backed, OnlyOvertaken, WindowOf;
    assert WindowFits(w.notes, id, w.config.channels[id], WindowOf(w.windows, id));
  }

  lemma WindowRead(k: Config, notes: seq<Note>, e: Event, at: seq<nat>)
    requires e.ReadFailure? && Countable(k, e.id, e.now) && Backed(notes, e.id, k.channels[e.id], at) && OnlyOvertaken(notes, e.id, at, |notes|)
    ensures ReadingFits(k, notes + [Note(e, None, None, false, false)], Reading(e.id, e.now, k.channels[e.id], |notes|, at))
  {
    var n := Note(e, None, None, false, false);
    hide Debounced, OnlyOvertaken, Backed;
    BackedStays(notes, n, e.id, k.channels[e.id], at);
    OnlyOvertakenStays(notes, n, e.id, at, |notes|);
    WindowIsPast(notes, e.id, k.channels[e.id], at);
  }

  lemma WindowIsPast(notes: seq<Note>, id: Id, c: Channel, at: seq<nat>)
    requires Backed(notes, id, c, at)
    ensures forall k :: 0 <= k < |at| ==> at[k] < |notes|
  {
    forall k | 0 <= k < |at| ensures at[k] < |notes| { assert FailureAt(notes, at[k], id); }
  }

  // ---- the write of a failure ---------------------------------------------------------------------------------------

  function NewWindow(notes: seq<Note>, r: Reading): seq<nat> {
    if Fresh(r.row, r.now) then [|notes|] else r.window + [|notes|]
  }

  /** The new failure stands at the end of the window it was counted into. */
  predicate NewFailure(notes: seq<Note>, n: Note, r: Reading) {
    n.failure == Some(Failure(r.id, r.now, r.readAt, NewWindow(notes, r))) && n.cleared.None?
  }

  lemma ChainContinues(notes: seq<Note>, n: Note, r: Reading)
    requires NewFailure(notes, n, r) && !Fresh(r.row, r.now) && Chain(notes, r.id, r.window) && r.window != []
    requires r.row.lastAt == Some(TimeAt(notes, Last(r.window))) && !Debounced(r.row, r.now)
    requires Last(r.window) < r.readAt < |notes|
    ensures Chain(notes + [n], r.id, r.window + [|notes|])
  {
    var at, more := r.window + [|notes|], notes + [n];
    ChainStays(notes, n, r.id, r.window);
    hide NewWindow;
    forall k | 0 <= k < |at| ensures FailureAt(more, at[k], r.id) {
      if k < |r.window| { assert FailureAt(more, r.window[k], r.id); }
    }
    assert FailureAt(notes, Last(r.window), r.id);
    forall k | 0 < k < |at|
      ensures at[k - 1] < more[at[k]].failure.value.readAt < at[k] && DEBOUNCE <= TimeAt(more, at[k]) - TimeAt(more, at[k - 1]) <= RESET
    {
      if k < |r.window| { assert at[k] == r.window[k] && at[k - 1] == r.window[k - 1]; }
    }
  }

  lemma WindowGrows(config: Config, notes: seq<Note>, n: Note, r: Reading)
    requires ReadingFits(config, notes, r) && NewFailure(notes, n, r)
    ensures Last(NewWindow(notes, r)) == |notes|
    ensures Backed(notes + [n], r.id, FailedOnce(r.row, r.now), NewWindow(notes, r))
  {
    if !Fresh(r.row, r.now) {
      assert r.window != [] && FailureAt(notes, r.window[0], r.id) && FailureAt(notes, Last(r.window), r.id);
      ChainContinues(notes, n, r);
      hide Chain, OnlyOvertaken, Debounced;
    }
  }

  /** Whatever ended the window since the read was an access test, which the new failure overwrote. */
  lemma OvertakenGrows(config: Config, notes: seq<Note>, n: Note, r: Reading)
    requires ReadingFits(config, notes, r) && NewFailure(notes, n, r)
    ensures OnlyOvertaken(notes + [n], r.id, NewWindow(notes, r), |notes| + 1)
    ensures OnlyOvertaken(notes + [n], r.id, NewWindow(notes, r), |notes|)
  {
    var at, more := NewWindow(notes, r), notes + [n];
    OnlyOvertakenStays(notes, n, r.id, r.window, r.readAt);
    forall m | at[0] <= m < |more| && more[m].cleared == Some(r.id)
      ensures exists k :: 0 < k < |at| && Overtakes(more, r.id, at[k], m)
    {
      if m < r.readAt {
        var k :| 0 < k < |r.window| && Overtakes(more, r.id, r.window[k], m);
        assert at[k] == r.window[k];
      } else {
        assert m > r.readAt;
        assert Overtakes(more, r.id, at[|at| - 1], m);
      }
    }
  }

  lemma WrittenFacts(k: Config, r: Reading, route: Route)
    requires r.id in k.channels && k.channels[r.id].active
    ensures var k', c := WriteFailure(k, r.id, r.row, r.now, route).0, FailedOnce(r.row, r.now);
            && k'.channels.Keys == k.channels.Keys && (forall id :: id in k.channels && id != r.id ==> k'.channels[id] == k.channels[id])
            && k'.channels[r.id].count == c.count && k'.channels[r.id].firstAt == c.firstAt && k'.channels[r.id].lastAt == c.lastAt
            && (r.id !in Active(k'.channels) <==> MustRetire(c, r.now))
  {
  }

  lemma WriteShape(w: World, e: Event)
    requires e.WriteBack? && w.pending.Some?
    ensures var r, w' := w.pending.value, Step(w, e);
            && w'.notes != [] && w'.notes == w.notes + [Last(w'.notes)] && NewFailure(w.notes, Last(w'.notes), r)
            && w'.config == WriteFailure(w.config, r.id, r.row, r.now, e.route).0 && w'.pending.None?
            && w'.windows == w.windows[r.id := NewWindow(w.notes, r)]
            && (Last(w'.notes).deactivated ==> r.id !in Active(w'.config.channels)) && Last(w'.notes).cleared.None?
  {
    hide WriteFailure;
  }

  lemma WrittenRow(notes: seq<Note>, n: Note, id: Id, c: Channel, d: Channel, at: seq<nat>)
    requires Backed(notes + [n], id, c, at) && OnlyOvertaken(notes + [n], id, at, |notes| + 1)
    requires d.count == c.count && d.firstAt == c.firstAt && d.lastAt == c.lastAt
    ensures WindowFits(notes + [n], id, d, at)
  {
    hide Chain, OnlyOvertaken;
  }

  lemma WrittenWindows(w: World, w': World, n: Note, r: Reading)
    requires WindowsInv(w) && n.cleared.None? && w'.notes == w.notes + [n] && w'.windows == w.windows[r.id := NewWindow(w.notes, r)]
    requires w'.config.channels.Keys == w.config.channels.Keys
    requires forall id :: id in w.config.channels && id != r.id ==> w'.config.channels[id] == w.config.channels[id]
    requires r.id in w.config.channels ==> WindowFits(w'.notes, r.id, w'.config.channels[r.id], NewWindow(w.notes, r))
    ensures WindowsInv(w')
  {
    hide NewWindow, WindowFits;
    forall id | id in w'.config.channels ensures WindowFits(w'.notes, id, w'.config.channels[id], WindowOf(w'.windows, id)) {
      if id != r.id {
        WindowStays(w.notes, n, id, w.config.channels[id], w'.config.channels[id], WindowOf(w.windows, id));
      }
    }
  }

  /** What the write of a failure leaves: the note, the longer window, and a row that counts it. */
  ghost predicate Written(w: World, w': World, n: Note, r: Reading) {
    && w'.notes == w.notes + [n] && n.cleared.None? && w'.pending.None? && w'.windows == w.windows[r.id := NewWindow(w.notes, r)]
    && w'.config.channels.Keys == w.config.channels.Keys && r.id in w'.config.channels
    && (forall id :: id in w.config.channels && id != r.id ==> w'.config.channels[id] == w.config.channels[id])
    && WindowFits(w'.notes, r.id, w'.config.channels[r.id], NewWindow(w.notes, r))
    && (n.deactivated ==> RetirementFits(w'.notes, |w.notes|))
  }

  lemma WriteFits(w: World, e: Event)
    requires e.WriteBack? && w.pending.Some? && ReadingFits(w.config, w.notes, w.pending.value)
    requires w.pending.value.id in w.config.channels && w.config.channels[w.pending.value.id].active
    ensures Step(w, e).notes != [] && Written(w, Step(w, e), Last(Step(w, e).notes), w.pending.value)
  {
    var r, w' := w.pending.value, Step(w, e);
    hide Step, ReadingFits, WriteFailure, OnlyOvertaken, Backed, FailedOnce, MustRetire, NewWindow, WindowFits, RetirementFits, NewFailure;
    WriteShape(w, e);
    var n := Last(w'.notes);
    WrittenFacts(w.config, r, e.route);
    WindowGrows(w.config, w.notes, n, r);
    OvertakenGrows(w.config, w.notes, n, r);
    if n.deactivated { NewRetirement(w.notes, n, r); }
    WrittenRow(w.notes, n, r.id, FailedOnce(r.row, r.now), w'.config.channels[r.id], NewWindow(w.notes, r));
  }

  lemma WriteKeepsInv(w: World, e: Event)
    requires e.WriteBack? && w.pending.Some?
    requires Inv(w)
    ensures Inv(Step(w, e))
  {
    hide Step, ReadingFits, NewWindow, WindowsInv, WindowFits, RetirementsFit, RetirementFits;
    ReadingInPlace(w);
    WriteFits(w, e);
    RetirementsStay(w.notes, Last(Step(w, e).notes));
    WrittenWindows(w, Step(w, e), Last(Step(w, e).notes), w.pending.value);
  }

  lemma NewRetirement(notes: seq<Note>, n: Note, r: Reading)
    requires NewFailure(notes, n, r) && MustRetire(FailedOnce(r.row, r.now), r.now)
    requires Last(NewWindow(notes, r)) == |notes| && Backed(notes + [n], r.id, FailedOnce(r.row, r.now), NewWindow(notes, r))
    requires OnlyOvertaken(notes + [n], r.id, NewWindow(notes, r), |notes|)
    ensures RetirementFits(notes + [n], |notes|)
  {
    hide Chain, OnlyOvertaken, NewWindow;
  }

  lemma StepKeepsInv(w: World, e: Event)
    requires Inv(w)
    ensures Inv(Step(w, e))
  {
    hide Inv, Apply, WindowEnded;
    match e
    case ReadFailure(_, _) => ReadKeepsInv(w, e);
    case WriteBack(_) =>
      if w.pending.Some? {
        WriteKeepsInv(w, e);
      } else {
        IdleKeepsInv(w, e);
      }
    case Abort =>
      IdleKeepsInv(w, e);
      AbortedInv(Idle(w, e));
    case TestPassed(id) => TestKeepsInv(w, id);
    case _ => if w.pending.Some? { IdleKeepsInv(w, e); } else { ApplyKeepsInv(w, e); }
  }

  lemma AbortedInv(w: World)
    requires Inv(w)
    ensures Inv(w.(pending := None))
  {
    hide WindowFits, RetirementsFit;
  }

  lemma {:induction false} RunKeepsInv(w: World, es: seq<Event>)
    requires Start(w)
    ensures Inv(Run(w, es))
    decreases |es|
  {
    hide Step, Inv;
    if es == [] {
      StartHasInv(w);
    } else {
      RunKeepsInv(w, Front(es));
      StepKeepsInv(Run(w, Front(es)), Last(es));
    }
  }

  lemma StartHasInv(w: World)
    requires Start(w)
    ensures Inv(w)
  {
  }

  lemma {:induction false} Increasing(notes: seq<Note>, id: Id, at: seq<nat>)
    requires Chain(notes, id, at) && at != []
    ensures forall k :: 0 <= k < |at| ==> at[0] <= at[k] <= Last(at)
    decreases |at|
  {
    if |at| > 1 {
      Increasing(notes, id, Front(at));
    }
  }

  lemma OvertakenClears(notes: seq<Note>, id: Id, at: seq<nat>)
    requires Chain(notes, id, at) && at != [] && OnlyOvertaken(notes, id, at, Last(at))
    ensures ClearedWithin(notes, id, at[0], Last(at)) <==> Overtaken(notes, id, at)
  {
    if ClearedWithin(notes, id, at[0], Last(at)) {
      var m: nat :| at[0] <= m < Last(at) && m < |notes| && notes[m].cleared == Some(id);
      assert exists k :: 0 < k < |at| && Overtakes(notes, id, at[k], m);
      hide Chain, Overtakes;
    }
    if Overtaken(notes, id, at) {
      var k: nat, m: nat :| 0 < k < |at| && Overtakes(notes, id, at[k], m);
      assert at[k - 1] < notes[at[k]].failure.value.readAt < m < at[k];
      Increasing(notes, id, at);
      assert notes[m].cleared == Some(id);
    }
  }

  /**
   In every run, with any clock readings: a retirement counted at least five failures ending there, each read after
   the one before was written and 5 s to 60 min after it, spanning 10 min. Nothing ended its window in between, if
   and only if no access test passed between the read and the write of one of its later failures.
   */
  lemma RetirementIsJustified(w: World, es: seq<Event>, j: nat)
    requires Start(w) && j < |Run(w, es).notes| && Run(w, es).notes[j].deactivated
    ensures Run(w, es).notes[j].failure.Some? && Justified(Run(w, es).notes, j)
    ensures var notes := Run(w, es).notes; var f := notes[j].failure.value;
            !ClearedWithin(notes, f.id, f.window[0], j) <==> !Overtaken(notes, f.id, f.window)
  {
    RunKeepsInv(w, es);
    var notes := Run(w, es).notes;
    hide Run, WindowsInv, ReadingFits, OnlyOvertaken, ClearedWithin, Overtaken, Chain;
    assert RetirementFits(notes, j);
    OvertakenClears(notes, notes[j].failure.value.id, notes[j].failure.value.window);
  }

  // ---- a retirement with a success inside ---------------------------------------------------------------------------

  lemma RunOneMore(w: World, es: seq<Event>, e: Event)
    ensures Run(w, es + [e]) == Step(Run(w, es), e)
  {
    FrontOfAppend(es, e);
    hide Step;
  }

  const MINUTE := 60000
  const NOWHERE := Route(None, "")

  /** A channel whose window holds `n` failures three minutes apart, the first at 0. */
  ghost predicate FailedTimes(w: World, id: Id, n: nat) {
    && id in w.config.channels && w.config.channels[id].active && w.pending.None?
    && w.config.channels[id].count == n
    && (n == 0 ==> w.config.channels[id].firstAt.None? && w.config.channels[id].lastAt.None?)
    && (n > 0 ==> w.config.channels[id].firstAt == Some(0) && w.config.channels[id].lastAt == Some((n - 1) * 3 * MINUTE))
  }

  lemma OneMoreFailure(w: World, id: Id, n: nat)
    requires FailedTimes(w, id, n) && n < 4
    ensures FailedTimes(Step(Step(w, ReadFailure(id, n * 3 * MINUTE)), WriteBack(NOWHERE)), id, n + 1)
  {
  }

  lemma {:induction false} FailingRun(w: World, id: Id, n: nat) returns (es: seq<Event>)
    requires FailedTimes(w, id, 0) && n <= 4
    ensures FailedTimes(Run(w, es), id, n)
  {
    hide FailedTimes, Step;
    if n == 0 {
      es := [];
    } else {
      var before := FailingRun(w, id, n - 1);
      var read := ReadFailure(id, (n - 1) * 3 * MINUTE);
      RunOneMore(w, before, read);
      RunOneMore(w, before + [read], WriteBack(NOWHERE));
      OneMoreFailure(Run(w, before), id, n - 1);
      es := before + [read] + [WriteBack(NOWHERE)];
    }
  }

  /** The fifth failure is read, the owner's test passes and clears the window, and the failure is written all the same. */
  lemma FifthIsOvertaken(w: World, id: Id)
    requires FailedTimes(w, id, 4)
    ensures var w' := Step(Step(Step(w, ReadFailure(id, 12 * MINUTE)), TestPassed(id)), WriteBack(NOWHERE));
            && |w'.notes| == |w.notes| + 3 && w'.notes[|w.notes| + 2].deactivated && w'.notes[|w.notes| + 2].failure.Some?
            && w'.notes[|w.notes| + 2].failure.value.id == id
            && w'.notes[|w.notes| + 1].cleared == Some(id) && w'.notes[|w.notes| + 1].event == TestPassed(id)
            && w'.notes[|w.notes| + 2].failure.value.readAt == |w.notes| && id in w'.config.channels && !w'.config.channels[id].active
  {
    hide RetirementLog, Deliverable;
    var w1 := Step(w, ReadFailure(id, 12 * MINUTE));
    assert w1.pending == Some(Reading(id, 12 * MINUTE, w.config.channels[id], |w.notes|, WindowOf(w.windows, id)));
    var w2 := Step(w1, TestPassed(id));
    assert w2.pending == w1.pending && id in w2.config.channels;
    assert MustRetire(FailedOnce(w.config.channels[id], 12 * MINUTE), 12 * MINUTE);
    WrittenFacts(w2.config, w2.pending.value, NOWHERE);
  }

  /** Such runs exist for every active channel: it is retired although its access test passed inside its window. */
  lemma SomeRetirementIsOvertaken(w: World, id: Id) returns (es: seq<Event>)
    requires Start(w) && id in w.config.channels && w.config.channels[id].active
    ensures var notes := Run(w, es).notes; var j := |notes| - 1;
            && j >= 1 && notes[j].deactivated && notes[j].failure.Some? && notes[j - 1].event == TestPassed(id)
            && ClearedWithin(notes, id, notes[j].failure.value.window[0], j)
    ensures id in Run(w, es).config.channels && !Run(w, es).config.channels[id].active
  {
    var before := FailingRun(w, id, 4);
    var read := ReadFailure(id, 12 * MINUTE);
    FifthIsOvertaken(Run(w, before), id);
    RunOneMore(w, before, read);
    RunOneMore(w, before + [read], TestPassed(id));
    RunOneMore(w, before + [read] + [TestPassed(id)], WriteBack(NOWHERE));
    es := before + [read] + [TestPassed(id)] + [WriteBack(NOWHERE)];
    var notes := Run(w, es).notes;
    var j := |notes| - 1;
    hide Step, Run, Start;
    RetirementIsJustified(w, es, j);
    var f := notes[j].failure.value;
    hide Overtaken, ClearedWithin;
    OvertakenHere(notes, f, j);
  }

  /** A long chain whose last failure was overtaken. */
  lemma OvertakenHere(notes: seq<Note>, f: Failure, j: nat)
    requires j < |notes| && j >= 1 && notes[j].failure == Some(f) && |f.window| >= 2 && Last(f.window) == j
    requires notes[j - 1].event == TestPassed(f.id) && notes[j - 1].cleared == Some(f.id) && f.readAt < j - 1
    ensures Overtaken(notes, f.id, f.window)
  {
    assert Overtakes(notes, f.id, f.window[|f.window| - 1], j - 1);
  }

  // ---- the switch, the log and the retired row --------------------------------------------------------------------

  function Retirements(notes: seq<Note>): nat
    decreases |notes|
  {
    if notes == [] then 0 else Retirements(Front(notes)) + if Last(notes).deactivated then 1 else 0
  }

  function SwitchOffs(notes: seq<Note>): nat
    decreases |notes|
  {
    if notes == [] then 0 else SwitchOffs(Front(notes)) + if Last(notes).switchedOff then 1 else 0
  }

  function Logged(log: seq<OpsRow>, kind: OpsKind): nat
    decreases |log|
  {
    if log == [] then 0 else Logged(Front(log), kind) + if Last(log).kind == kind then 1 else 0
  }

  ghost predicate SwitchInv(w: World) {
    && (w.config.enabled ==> Active(w.config.channels) != {})
    && Logged(w.config.log, ChannelRetired) == Retirements(w.notes)
    && Logged(w.config.log, AutoDisabled) == SwitchOffs(w.notes)
  }

  lemma ActiveAfter(channels: Channels, id: Id, c: Channel)
    ensures Active(channels[id := c]) == if c.active then Active(channels) + {id} else Active(channels) - {id}
    ensures Active(channels - {id}) == Active(channels) - {id}
  {
  }

  /** The switch stays on only while some channel is active, whatever the administrator does. */
  lemma ApplyKeepsSwitch(k: Config, e: Event)
    requires k.enabled ==> Active(k.channels) != {}
    ensures Apply(k, e).enabled ==> Active(Apply(k, e).channels) != {}
  {
    if !e.Enabled? && !e.Disabled? && !e.WriteBack? && !e.Abort? {
      var k' := Apply(k, e);
      ActiveAfter(k.channels, e.id, if e.id in k'.channels then k'.channels[e.id] else Channel(false, 0, None, None, None));
      var rest := Active(k.channels) - {e.id};
      assert e.id in Active(k.channels) ==> |Active(k.channels)| == |rest| + 1;
    }
  }

  lemma ApplyLogsNothing(k: Config, e: Event)
    ensures Apply(k, e).log == k.log
  {
  }

  lemma TestKeepsSwitch(k: Config, id: Id)
    ensures PassTest(k, id).enabled == k.enabled && Active(PassTest(k, id).channels) == Active(k.channels) && PassTest(k, id).log == k.log
  {
    if id in k.channels {
      ActiveAfter(k.channels, id, Cleared(k.channels[id]));
    }
  }

  /** A failure logs its retirement, and the switch going off exactly when no active channel is left. */
  lemma WriteLogs(k: Config, r: Reading, route: Route)
    requires r.id in k.channels && k.channels[r.id].active
    ensures var k' := WriteFailure(k, r.id, r.row, r.now, route).0;
            && (k'.enabled ==> k.enabled && Active(k'.channels) != {})
            && Logged(k'.log, ChannelRetired) == Logged(k.log, ChannelRetired) + (if r.id !in Active(k'.channels) then 1 else 0)
            && Logged(k'.log, AutoDisabled) == Logged(k.log, AutoDisabled) + (if k.enabled && !k'.enabled then 1 else 0)
  {
    var k' := WriteFailure(k, r.id, r.row, r.now, route).0;
    ActiveAfter(k.channels, r.id, k'.channels[r.id]);
    var row := OpsRow(ChannelRetired, r.id, Deliverable(route));
    FrontOfAppend(k.log, row);
    FrontOfAppend(k.log + [row], OpsRow(AutoDisabled, r.id, Deliverable(route)));
    hide FailedOnce, MustRetire, Deliverable;
  }

  lemma QuietSwitch(w: World, w': World, n: Note)
    requires SwitchInv(w) && w'.notes == w.notes + [n] && !n.deactivated && !n.switchedOff
    requires w'.config.log == w.config.log && (w'.config.enabled ==> Active(w'.config.channels) != {})
    ensures SwitchInv(w')
  {
    FrontOfAppend(w.notes, n);
  }

  lemma LoudSwitch(w: World, w': World, n: Note)
    requires SwitchInv(w) && w'.notes == w.notes + [n] && (w'.config.enabled ==> Active(w'.config.channels) != {})
    requires Logged(w'.config.log, ChannelRetired) == Logged(w.config.log, ChannelRetired) + if n.deactivated then 1 else 0
    requires Logged(w'.config.log, AutoDisabled) == Logged(w.config.log, AutoDisabled) + if n.switchedOff then 1 else 0
    ensures SwitchInv(w')
  {
    hide Active, Logged;
    FrontOfAppend(w.notes, n);
  }

  lemma WriteNotes(w: World, e: Event)
    requires e.WriteBack? && w.pending.Some?
    ensures var r, w' := w.pending.value, Step(w, e);
            && w'.config == WriteFailure(w.config, r.id, r.row, r.now, e.route).0
            && w'.notes != [] && w'.notes == w.notes + [Last(w'.notes)]
            && Last(w'.notes).deactivated == (r.id in Active(w.config.channels) && r.id !in Active(w'.config.channels))
            && Last(w'.notes).switchedOff == (w.config.enabled && !w'.config.enabled)
  {
    hide WriteFailure, Active, Fresh;
  }

  lemma WriteKeepsSwitch(w: World, e: Event)
    requires e.WriteBack? && w.pending.Some? && SwitchInv(w)
    requires w.pending.value.id in w.config.channels && w.config.channels[w.pending.value.id].active
    ensures SwitchInv(Step(w, e))
  {
    assert w.pending.value.id in Active(w.config.channels);
    hide WriteFailure, Step, SwitchInv, Logged, Active;
    WriteLogs(w.config, w.pending.value, e.route);
    WriteNotes(w, e);
    LoudSwitch(w, Step(w, e), Last(Step(w, e).notes));
  }

  lemma StepKeepsSwitch(w: World, e: Event)
    requires Inv(w) && SwitchInv(w)
    ensures SwitchInv(Step(w, e))
  {
    hide Inv, Apply, WindowEnded, SwitchInv, WriteFailure, PassTest;
    var w' := Step(w, e);
    if e.WriteBack? && w.pending.Some? {
      ReadingInPlace(w);
      WriteKeepsSwitch(w, e);
    } else {
      SwitchHolds(w);
      ApplyKeepsSwitch(w.config, e);
      ApplyLogsNothing(w.config, e);
      if e.TestPassed? { TestKeepsSwitch(w.config, e.id); }
      assert w'.notes == w.notes + [Last(w'.notes)];
      QuietSwitch(w, w', Last(w'.notes));
    }
  }

  lemma SwitchHolds(w: World)
    requires SwitchInv(w)
    ensures w.config.enabled ==> Active(w.config.channels) != {}
  {
  }

  lemma {:induction false} RunKeepsSwitch(w: World, es: seq<Event>)
    requires Start(w)
    ensures SwitchInv(Run(w, es))
    decreases |es|
  {
    if es != [] {
      RunKeepsSwitch(w, Front(es));
      RunKeepsInv(w, Front(es));
      hide Step, SwitchInv, Inv;
      StepKeepsSwitch(Run(w, Front(es)), Last(es));
    }
  }

  /**
   In every run: force join is on only with an active channel, and the log holds one row per retirement and per
   automatic switch-off.
   */
  lemma SwitchAndLogAgree(w: World, es: seq<Event>)
    requires Start(w)
    ensures var w' := Run(w, es);
            && (w'.config.enabled ==> exists c :: c in w'.config.channels && w'.config.channels[c].active)
            && Logged(w'.config.log, ChannelRetired) == Retirements(w'.notes)
            && Logged(w'.config.log, AutoDisabled) == SwitchOffs(w'.notes)
  {
    RunKeepsSwitch(w, es);
    hide Start;
    var k := Run(w, es).config;
    if k.enabled {
      var c :| c in Active(k.channels);
    }
  }

  /** A channel that is inactive, and for which no failure is being written. */
  ghost predicate OutOfUse(w: World, id: Id) {
    id in w.config.channels && !w.config.channels[id].active && (w.pending.Some? ==> w.pending.value.id != id)
  }

  lemma PolicyKeepsRetired(w: World, e: Event, id: Id)
    requires OutOfUse(w, id) && ByPolicy(e)
    ensures OutOfUse(Step(w, e), id) && Step(w, e).config.channels[id] == w.config.channels[id]
  {
    hide FailedOnce, MustRetire, RetirementLog, Debounced;
  }

  /** From its retirement on, only the administrator changes a channel's row: no request reactivates it or erases the record. */
  lemma {:induction false} RetiredRowStays(w: World, es: seq<Event>, id: Id)
    requires OutOfUse(w, id)
    requires forall i :: 0 <= i < |es| ==> ByPolicy(es[i])
    ensures OutOfUse(Run(w, es), id) && Run(w, es).config.channels[id] == w.config.channels[id]
    decreases |es|
  {
    hide Step;
    if es != [] {
      RetiredRowStays(w, Front(es), id);
      assert ByPolicy(Last(es));
      PolicyKeepsRetired(Run(w, Front(es)), Last(es), id);
    }
  }

  // ---- never more than ten active channels ------------------------------------------------------------------------

  predicate WithinCap(channels: Channels) {
    |Active(channels)| <= 10
  }

  lemma RowKeepsCap(channels: Channels, id: Id, c: Channel)
    requires WithinCap(channels) && (c.active ==> |Active(channels)| < 10 || (id in channels && channels[id].active))
    ensures WithinCap(channels[id := c]) && WithinCap(channels - {id})
  {
    var all := Active(channels);
    assert Active(channels[id := c]) == if c.active then all + {id} else all - {id};
    assert Active(channels - {id}) == all - {id};
    if id in all { assert all + {id} == all; }
  }

  lemma WriteKeepsCap(k: Config, id: Id, row: Channel, now: int, route: Route)
    requires WithinCap(k.channels)
    ensures WithinCap(WriteFailure(k, id, row, now, route).0.channels)
  {
    hide FailedOnce, MustRetire, RetirementLog, WithinCap, Active;
    if id in k.channels {
      var c := Overwritten(k.channels[id], FailedOnce(row, now));
      RowKeepsCap(k.channels, id, c);
      RowKeepsCap(k.channels, id, c.(active := false, unhealthyAt := Some(now)));
    }
  }

  lemma ApplyKeepsCap(k: Config, e: Event)
    requires WithinCap(k.channels)
    ensures WithinCap(Apply(k, e).channels)
  {
    hide WithinCap, Active, LastWhileEnabled;
    match e
    case Success(id, _) => if id in k.channels { RowKeepsCap(k.channels, id, Cleared(k.channels[id])); }
    case Bound(id) => RowKeepsCap(k.channels, id, Bind(k, id).channels[id]);
    case Switch(id, active) =>
      if id in k.channels && (active ==> |Active(k.channels)| < MAX_ACTIVE) { RowKeepsCap(k.channels, id, k.channels[id].(active := active)); }
    case Removed(id) => if id in k.channels { RowKeepsCap(k.channels, id, k.channels[id].(active := false)); }
    case DisabledAndDeactivated(id) => if id in k.channels { RowKeepsCap(k.channels, id, k.channels[id].(active := false)); }
    case DisabledAndRemoved(id) => if id in k.channels { RowKeepsCap(k.channels, id, k.channels[id].(active := false)); }
    case _ =>
  }

  lemma StepKeepsCap(w: World, e: Event)
    requires WithinCap(w.config.channels)
    ensures WithinCap(Step(w, e).config.channels)
  {
    hide WithinCap, Active, WriteFailure, Apply, WindowEnded, Ended;
    match e
    case ReadFailure(_, _) =>
    case WriteBack(route) => if w.pending.Some? { WriteKeepsCap(w.config, w.pending.value.id, w.pending.value.row, w.pending.value.now, route); }
    case Abort =>
    case TestPassed(id) => if id in w.config.channels { RowKeepsCap(w.config.channels, id, Cleared(w.config.channels[id])); }
    case _ => ApplyKeepsCap(w.config, e);
  }

  /** In every run at most ten channels are active, whoever creates, switches, tests or retires them. */
  lemma {:induction false} AtMostTenActive(w: World, es: seq<Event>)
    requires |Active(w.config.channels)| <= 10
    ensures |Active(Run(w, es).config.channels)| <= 10
    decreases |es|
  {
    hide Step, Active;
    if es != [] {
      AtMostTenActive(w, Front(es));
      StepKeepsCap(Run(w, Front(es)), Last(es));
    }
  }
}
