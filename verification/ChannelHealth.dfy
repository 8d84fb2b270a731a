/**
 Mandatory channels: the bounded failure window, automatic retirement and the master switch. Transactions
 on the configuration take one advisory lock; the owner's access test writes its row without it.
 */
module ChannelHealth {
  import opened Wrappers
  import opened WhiteSpace

  const FAILURE_THRESHOLD := 5
  const MIN_WINDOW := 10 * 60000
  const RESET := 60 * 60000
  const DEBOUNCE := 5000
  const MAX_ACTIVE := 10

  datatype Channel = Channel(
    active: bool, count: nat, firstAt: Option<int>, lastAt: Option<int>, unhealthyAt: Option<int>)

  type Channels = map<Id, Channel>

  datatype OpsKind = ChannelRetired | AutoDisabled

  /** A log row, and whether a pending delivery row was written with it. */
  datatype OpsRow = OpsRow(kind: OpsKind, channel: Id, delivery: bool)

  datatype Config = Config(channels: Channels, enabled: bool, log: seq<OpsRow>)

  datatype Outcome = Noop | Counted(count: nat) | Retired(disabled: bool)

  /** Where alerts go: the topic's switch, if there is a topic, and the log group's chat id. */
  datatype Route = Route(topicEnabled: Option<bool>, group: string)

  predicate Deliverable(r: Route) {
    r.topicEnabled == Some(true) && !Blank(r.group)
  }

  function Active(channels: Channels): set<Id> {
    set c | c in channels && channels[c].active
  }

  // ---- one failure, one success -------------------------------------------------------------------------

  predicate Debounced(c: Channel, now: int) {
    c.lastAt.Some? && now - c.lastAt.value < DEBOUNCE
  }

  /** The window after one more failure; a long silence starts it afresh. */
  function FailedOnce(c: Channel, now: int): Channel {
    if c.lastAt.None? || now - c.lastAt.value > RESET then c.(count := 1, firstAt := Some(now), lastAt := Some(now))
    else c.(count := c.count + 1, firstAt := Some(c.firstAt.GetOr(now)), lastAt := Some(now))
  }

  predicate MustRetire(c: Channel, now: int)
    requires c.firstAt.Some?
  {
    c.count >= FAILURE_THRESHOLD && now - c.firstAt.value >= MIN_WINDOW
  }

  function RetirementLog(log: seq<OpsRow>, id: Id, disabled: bool, delivery: bool): seq<OpsRow> {
    var retired := log + [OpsRow(ChannelRetired, id, delivery)];
    if disabled then retired + [OpsRow(AutoDisabled, id, delivery)] else retired
  }

  /** A failure of this channel is counted, not dropped as inactive or too soon. */
  predicate Countable(k: Config, id: Id, now: int) {
    id in k.channels && k.channels[id].active && !Debounced(k.channels[id], now)
  }

  /** The absolute values computed from the row as it was read, written over the row as it is now. */
  function Overwritten(now: Channel, c: Channel): Channel {
    now.(count := c.count, firstAt := c.firstAt, lastAt := c.lastAt)
  }

  /** The write of a failure transaction that read `row`. */
  function WriteFailure(k: Config, id: Id, row: Channel, now: int, route: Route): (Config, Outcome) {
    if id !in k.channels then (k, Noop)
    else
      var c := FailedOnce(row, now);
      if !MustRetire(c, now) then (k.(channels := k.channels[id := Overwritten(k.channels[id], c)]), Counted(c.count))
      else
        var disabled := k.enabled && Active(k.channels) <= {id};
        (Config(k.channels[id := Overwritten(k.channels[id], c).(active := false, unhealthyAt := Some(now))], k.enabled && !disabled,
                RetirementLog(k.log, id, disabled, Deliverable(route))),
         Retired(disabled))
  }

  /** The whole transaction, when nothing comes between its read and its write. */
  function RecordFailure(k: Config, id: Id, now: int, route: Route): (Config, Outcome) {
    if id !in k.channels || !k.channels[id].active then (k, Noop)
    else if Debounced(k.channels[id], now) then (k, Counted(k.channels[id].count))
    else WriteFailure(k, id, k.channels[id], now, route)
  }

  function Cleared(c: Channel): Channel {
    c.(count := 0, firstAt := None, lastAt := None, unhealthyAt := None)
  }

  /** What a successful check records; only a caller whose snapshot showed a failure records anything. */
  function RecordSuccess(k: Config, id: Id, snapshot: nat): Config {
    if snapshot > 0 && id in k.channels && k.channels[id].active && k.channels[id].count > 0
    then k.(channels := k.channels[id := Cleared(k.channels[id])])
    else k
  }

  /** A passed access test clears the row, active or not; no lock and no transaction around it. */
  function PassTest(k: Config, id: Id): Config {
    if id in k.channels then k.(channels := k.channels[id := Cleared(k.channels[id])]) else k
  }

  // ---- the administrator's transactions -------------------------------------------------------------------

  /** Creates a channel, or rebinds the one that is there to a freshly validated identity. */
  function Bind(k: Config, id: Id): Config {
    k.(channels := k.channels[id := if id in k.channels then Cleared(k.channels[id])
                                    else Channel(|Active(k.channels)| < MAX_ACTIVE, 0, None, None, None)])
  }

  predicate LastWhileEnabled(k: Config, id: Id)
    requires id in k.channels
  {
    k.channels[id].active && k.enabled && |Active(k.channels)| <= 1
  }

  function SetActive(k: Config, id: Id, active: bool): Config {
    if id !in k.channels || k.channels[id].active == active then k
    else if active && |Active(k.channels)| >= MAX_ACTIVE then k
    else if !active && LastWhileEnabled(k, id) then k
    else k.(channels := k.channels[id := k.channels[id].(active := active)])
  }

  function Remove(k: Config, id: Id): Config {
    if id !in k.channels || LastWhileEnabled(k, id) then k else k.(channels := k.channels - {id})
  }

  function Enable(k: Config): Config {
    if Active(k.channels) == {} then k else k.(enabled := true)
  }

  function DisableAndDeactivate(k: Config, id: Id): Config {
    if id !in k.channels then k else k.(enabled := false, channels := k.channels[id := k.channels[id].(active := false)])
  }

  function DisableAndRemove(k: Config, id: Id): Config {
    if id !in k.channels then k else k.(enabled := false, channels := k.channels - {id})
  }

  // ---- what each transaction leaves, field by field ----------------------------------------------------------

  /** An alert is delivered exactly when its topic is there and switched on, and the group's chat id is more than white space. */
  lemma DeliverableIff(r: Route)
    ensures Deliverable(r) <==> r.topicEnabled == Some(true) && exists k :: 0 <= k < |r.group| && !Space(r.group[k])
  {
    BlankIff(r.group);
    hide Space, Blank;
  }

  /** One row and nothing else. */
  predicate OnlyRow(k: Config, k': Config, id: Id) {
    id in k'.channels && k'.channels == k.channels[id := k'.channels[id]]
  }

  /** The last channel that is enforced. */
  predicate EnforcedAlone(k: Config, id: Id) {
    k.enabled && forall c :: c in k.channels && k.channels[c].active ==> c == id
  }

  /**
   A failure is dropped for a channel that is not there or inactive, and within five seconds of the one before; after an
   hour's silence it is the first of a new window, and otherwise one more. With five in ten minutes the channel retires,
   the switch goes off with the last channel, and each of the two is logged with its delivery.
   */
  lemma FailureOutcome(k: Config, id: Id, now: int, route: Route)
    ensures var (k', outcome) := RecordFailure(k, id, now, route);
            if id !in k.channels || !k.channels[id].active then k' == k && outcome == Noop
            else
              var c := k.channels[id];
              if c.lastAt.Some? && now - c.lastAt.value < 5000 then k' == k && outcome == Counted(c.count)
              else
                var anew := c.lastAt.None? || now - c.lastAt.value > 3600000;
                var count := if anew then 1 else c.count + 1;
                var first := if anew || c.firstAt.None? then now else c.firstAt.value;
                && OnlyRow(k, k', id)
                && if count >= 5 && now - first >= 600000
                   then && k'.channels[id] == Channel(false, count, Some(first), Some(now), Some(now))
                        && k'.enabled == (k.enabled && !EnforcedAlone(k, id)) && outcome == Retired(EnforcedAlone(k, id))
                        && k'.log == k.log + [OpsRow(ChannelRetired, id, Deliverable(route))]
                                     + if EnforcedAlone(k, id) then [OpsRow(AutoDisabled, id, Deliverable(route))] else []
                   else && k'.channels[id] == Channel(true, count, Some(first), Some(now), c.unhealthyAt)
                        && k'.enabled == k.enabled && k'.log == k.log && outcome == Counted(count)
  {
    hide Deliverable;
    ActiveWithin(k.channels, id);
    hide Active;
  }

  /** A success that counts and a passed test wipe the window and nothing else. */
  lemma SuccessOutcome(k: Config, id: Id, snapshot: nat)
    ensures var counts := snapshot > 0 && id in k.channels && k.channels[id].active && k.channels[id].count > 0;
            var wiped := (k': Config) => OnlyRow(k, k', id) && id in k.channels && k'.enabled == k.enabled && k'.log == k.log
                                         && k'.channels[id] == Channel(k.channels[id].active, 0, None, None, None);
            && (if counts then wiped(RecordSuccess(k, id, snapshot)) else RecordSuccess(k, id, snapshot) == k)
            && (if id in k.channels then wiped(PassTest(k, id)) else PassTest(k, id) == k)
  {
  }

  /** Binding starts a clean window; a new channel is active while fewer than ten are, a known one stays as it was. */
  lemma BindOutcome(k: Config, id: Id)
    ensures var k' := Bind(k, id);
            && OnlyRow(k, k', id) && k'.enabled == k.enabled && k'.log == k.log
            && k'.channels[id] == Channel(if id in k.channels then k.channels[id].active else |Active(k.channels)| < 10, 0, None, None, None)
  {
  }

  /** A channel is switched on while fewer than ten are, and off unless it is the last one enforced; nothing else changes. */
  lemma SwitchOutcome(k: Config, id: Id, active: bool)
    ensures var allowed := id in k.channels && if active then |Active(k.channels)| < 10 else !EnforcedAlone(k, id) || !k.channels[id].active;
            SetActive(k, id, active) ==
            if allowed && k.channels[id].active != active then k.(channels := k.channels[id := k.channels[id].(active := active)]) else k
  {
    AloneIsOnly(k, id);
  }

  /** A channel is removed unless it is the last one enforced; the switch goes on while a channel is active. */
  lemma RemovalOutcome(k: Config, id: Id)
    ensures Remove(k, id) ==
            if id in k.channels && k.channels[id].active && EnforcedAlone(k, id) then k else k.(channels := k.channels - {id})
    ensures Enable(k) == k.(enabled := k.enabled || exists c :: c in k.channels && k.channels[c].active)
    ensures DisableAndRemove(k, id) == if id in k.channels then k.(enabled := false, channels := k.channels - {id}) else k
    ensures DisableAndDeactivate(k, id) ==
            if id in k.channels then k.(enabled := false, channels := k.channels[id := k.channels[id].(active := false)]) else k
  {
    AloneIsOnly(k, id);
    assert id !in k.channels ==> k.channels - {id} == k.channels;
    if c :| c in k.channels && k.channels[c].active { assert c in Active(k.channels); }
  }

  lemma ActiveWithin(channels: Channels, id: Id)
    ensures Active(channels) <= {id} <==> forall c :: c in channels && channels[c].active ==> c == id
  {
    var all := Active(channels);
    assert forall c :: c in all <==> c in channels && channels[c].active;
    if all <= {id} {
      forall c | c in channels && channels[c].active ensures c == id { assert c in all; }
    }
  }

  lemma AloneIsOnly(k: Config, id: Id)
    ensures id in k.channels && k.channels[id].active ==> (|Active(k.channels)| <= 1 <==> forall c :: c in k.channels && k.channels[c].active ==> c == id)
  {
    var all := Active(k.channels);
    ActiveWithin(k.channels, id);
    if id in all {
      assert |all - {id}| == |all| - 1;
      assert all <= {id} <==> all - {id} == {};
    }
  }

  // ---- the policy as the code runs it ---------------------------------------------------------------------

  class Policy {
    var channels: Channels
    var enabled: bool
    var log: seq<OpsRow>

    function Snapshot(): Config
      reads this
    {
      Config(channels, enabled, log)
    }

    method WriteOpsEvent(kind: OpsKind, id: Id, route: Route)
      modifies this`log
      ensures log == old(log) + [OpsRow(kind, id, Deliverable(route))]
    {
      var delivery := false;
      if route.topicEnabled.Some? && route.topicEnabled.value && !Blank(route.group) {
        delivery := true;
      }
      log := log + [OpsRow(kind, id, delivery)];
    }

    /** The statements from the recomputed window on; `row` may be older than the row that they overwrite. */
    method WriteWindow(id: Id, row: Channel, now: int, route: Route) returns (outcome: Outcome)
      requires id in channels
      modifies this
      ensures (Snapshot(), outcome) == WriteFailure(old(Snapshot()), id, row, now, route)
      ensures outcome.Retired? <==> MustRetire(FailedOnce(row, now), now)
      ensures outcome.Retired? ==> id !in Active(channels)
    {
      var stale := row.lastAt.None? || now - row.lastAt.value > RESET;
      var firstAt := if stale || row.firstAt.None? then now else row.firstAt.value;
      var count := if stale then 1 else row.count + 1;
      if count < FAILURE_THRESHOLD || now - firstAt < MIN_WINDOW {
        channels := channels[id := channels[id].(count := count, firstAt := Some(firstAt), lastAt := Some(now))];
        return Counted(count);
      }
      var remaining := set c | c in channels && channels[c].active && c != id;
      assert Active(channels) <= remaining + {id} && remaining <= Active(channels);
      var disabled := enabled && remaining == {};
      if disabled {
        enabled := false;
      }
      channels := channels[id := Channel(false, count, Some(firstAt), Some(now), Some(now))];
      WriteOpsEvent(ChannelRetired, id, route);
      if disabled {
        WriteOpsEvent(AutoDisabled, id, route);
      }
      return Retired(disabled);
    }

    method RecordChannelFailure(id: Id, now: int, route: Route) returns (outcome: Outcome)
      modifies this
      ensures (Snapshot(), outcome) == RecordFailure(old(Snapshot()), id, now, route)
    {
      if id !in channels || !channels[id].active {
        return Noop;
      }
      var row := channels[id];
      if row.lastAt.Some? && now - row.lastAt.value < DEBOUNCE {
        return Counted(row.count);
      }
      outcome := WriteWindow(id, row, now, route);
    }

    /** The owner's access test succeeded: one statement, with no lock around it. */
    method RecordValidationSuccess(id: Id)
      modifies this`channels
      ensures Snapshot() == PassTest(old(Snapshot()), id)
      ensures Active(channels) == Active(old(channels))
    {
      if id in channels {
        channels := channels[id := channels[id].(count := 0, firstAt := None, lastAt := None, unhealthyAt := None)];
      }
    }

    method RecordChannelSuccess(id: Id, snapshot: nat)
      modifies this`channels
      ensures Snapshot() == RecordSuccess(old(Snapshot()), id, snapshot)
      ensures snapshot == 0 || id !in old(channels) || !old(channels)[id].active ==> channels == old(channels)
      ensures snapshot > 0 && id in channels && channels[id].active ==> channels[id].count == 0
      ensures Active(channels) == Active(old(channels))
      ensures channels.Keys == old(channels).Keys && forall c :: c in channels && c != id ==> channels[c] == old(channels)[c]
    {
      if snapshot > 0 {
        if id in channels && channels[id].active && channels[id].count > 0 {
          channels := channels[id := channels[id].(count := 0, firstAt := None, lastAt := None, unhealthyAt := None)];
        }
      }
    }
  }

  // ---- the gate's decision --------------------------------------------------------------------------------

  datatype Check = Joined | NotJoined | Temporary | Unverifiable

  datatype Decision = Pass | Missing(channels: seq<Id>) | TemporaryFailure

  function Select(ids: seq<Id>, checks: seq<Check>, which: Check): (r: seq<Id>)
    requires |ids| == |checks|
    decreases |ids|
  {
    if ids == [] then [] else Select(Front(ids), Front(checks), which) + if Last(checks) == which then [Last(ids)] else []
  }

  /** The positions of one answer, in order and without a gap. */
  ghost predicate AnsweredAt(checks: seq<Check>, which: Check, at: seq<nat>) {
    && (forall j, k :: 0 <= j < k < |at| ==> at[j] < at[k])
    && (forall k :: 0 <= k < |at| ==> at[k] < |checks| && checks[at[k]] == which)
    && (forall i: nat :: i < |checks| && checks[i] == which ==> i in at)
  }

  /** What is selected are the channels that gave this answer, each at its turn. */
  lemma {:induction false} SelectedInOrder(ids: seq<Id>, checks: seq<Check>, which: Check) returns (at: seq<nat>)
    requires |ids| == |checks|
    ensures AnsweredAt(checks, which, at) && |Select(ids, checks, which)| == |at|
    ensures forall k :: 0 <= k < |at| ==> at[k] < |ids| && Select(ids, checks, which)[k] == ids[at[k]]
    decreases |ids|
  {
    hide AnsweredAt;
    if ids == [] {
      at := [];
      assert AnsweredAt(checks, which, at) by { NoAnswers(which); }
    } else {
      var earlier := SelectedInOrder(Front(ids), Front(checks), which);
      at := if Last(checks) == which then earlier + [|ids| - 1] else earlier;
      OneMoreAnswer(checks, which, earlier);
    }
  }

  lemma NoAnswers(which: Check)
    ensures AnsweredAt([], which, [])
  {
  }

  lemma OneMoreAnswer(checks: seq<Check>, which: Check, at: seq<nat>)
    requires checks != [] && AnsweredAt(Front(checks), which, at)
    ensures AnsweredAt(checks, which, if Last(checks) == which then at + [|checks| - 1] else at)
  {
    var more := if Last(checks) == which then at + [|checks| - 1] else at;
    forall k | 0 <= k < |more| ensures more[k] < |checks| && checks[more[k]] == which {
      assert k < |at| ==> at[k] < |Front(checks)| && Front(checks)[at[k]] == checks[at[k]];
    }
    forall i: nat | i < |checks| && checks[i] == which ensures i in more {
      if i < |checks| - 1 {
        assert Front(checks)[i] == checks[i] && i in at;
      }
    }
  }

  /** Missing channels are exactly the refused ones, in order; a temporary failure matters only when none is missing. */
  method Decide(ids: seq<Id>, checks: seq<Check>) returns (d: Decision, failing: seq<Id>)
    requires |ids| == |checks|
    ensures d.Missing? <==> NotJoined in checks
    ensures d.Missing? ==> d.channels == Select(ids, checks, NotJoined)
    ensures d.TemporaryFailure? <==> NotJoined !in checks && Temporary in checks
    ensures failing == Select(ids, checks, Unverifiable)
  {
    var missing: seq<Id> := [];
    var temporary := false;
    failing := [];
    for i := 0 to |ids|
      invariant missing == Select(ids[..i], checks[..i], NotJoined)
      invariant missing != [] <==> NotJoined in checks[..i]
      invariant temporary <==> Temporary in checks[..i]
      invariant failing == Select(ids[..i], checks[..i], Unverifiable)
    {
      assert Front(ids[..i + 1]) == ids[..i] && Front(checks[..i + 1]) == checks[..i];
      match checks[i] {
        case Joined =>
        case NotJoined => missing := missing + [ids[i]];
        case Temporary => temporary := true;
        case Unverifiable => failing := failing + [ids[i]];
      }
    }
    assert ids[..|ids|] == ids && checks[..|ids|] == checks;
    d := if missing != [] then Missing(missing) else if temporary then TemporaryFailure else Pass;
  }
}
