/**
 The low-balance alert: one transition for every observer, written as the code runs it (seed the
 row, lock it, re-read the balance, decide, write the row and its notification) and proved equal
 to a state function; the check made when a message is about to be sent, which may re-arm the same
 row; and the cleanup that deletes messages past their retention.
 */
module LowBalance {
  import opened Wrappers
  import opened Fingerprint

  datatype AlertState = AlertState(
    alerted: bool, cycle: nat, lastBalance: int, lastThreshold: int, lastBoundary: int, lastVersion: int,
    alertedAt: Option<int>, rearmedAt: Option<int>)

  type States = map<Id, AlertState>

  /** A message row; it is finished once it was sent, cancelled, suppressed, expired or given up. */
  datatype Message = Message(user: Id, finished: bool)

  /** Message rows under their unique dedupe key. */
  type Outbox = map<string, Message>

  /** Whether a cycle may open without a crossing: never, by some caller's verdict, or by the backfill's rule. */
  datatype Forcing = Unforced | Forced(allowed: bool) | Backfill

  datatype Observation = Observation(
    user: Id, before: Option<int>, after: int, threshold: int, boundary: int, version: int, eligible: bool, forcing: Forcing)

  datatype Outcome =
    | SeededArmed(cycle: nat)
    | SeededBaseline(cycle: nat)
    | Alerted(cycle: nat, notification: Option<string>)
    | Rearmed(cycle: nat)
    | Unchanged(cycle: nat)

  const KEY_PREFIX := "wallet-low-balance:v1:"

  function DedupeKey(user: Id, cycle: nat): string {
    KEY_PREFIX + user + ":" + Decimal(cycle)
  }

  lemma LastColon(user: Id, cycle: nat)
    ensures var s := user + ":" + Decimal(cycle);
            |s| > |user| && s[|user|] == ':' && forall k :: |user| < k < |s| ==> s[k] != ':'
  {
    var s := user + ":" + Decimal(cycle);
    DecimalDigits(cycle);
    assert forall k :: |user| < k < |s| ==> s[k] == Decimal(cycle)[k - |user| - 1];
  }

  lemma SplitAtLastColon(u: Id, c: nat, v: Id, d: nat)
    requires u + ":" + Decimal(c) == v + ":" + Decimal(d)
    ensures u == v && c == d
  {
    var s := u + ":" + Decimal(c);
    LastColon(u, c);
    LastColon(v, d);
    hide Decimal;
    assert |u| == |v|;
    assert u == s[..|u|] == v && Decimal(c) == s[|u| + 1..] == Decimal(d);
    DecimalInjective(c, d);
  }

  /** One key per user and cycle, whatever characters the user id holds. */
  lemma DedupeKeyInjective(u: Id, c: nat, v: Id, d: nat)
    ensures DedupeKey(u, c) == DedupeKey(v, d) <==> u == v && c == d
  {
    hide Decimal;
    if DedupeKey(u, c) == DedupeKey(v, d) {
      assert u + ":" + Decimal(c) == DedupeKey(u, c)[|KEY_PREFIX|..];
      assert v + ":" + Decimal(d) == DedupeKey(v, d)[|KEY_PREFIX|..];
      SplitAtLastColon(u, c, v, d);
    }
  }

  // ---- the transition as a function ----------------------------------------------------------------

  function Seed(x: Observation, now: int): AlertState {
    var balance := x.before.GetOr(x.after);
    AlertState(balance <= x.threshold, 0, balance, x.threshold, x.boundary, x.version,
               if balance <= x.threshold then Some(now) else None, None)
  }

  function Locked(states: States, x: Observation, now: int): AlertState {
    if x.user in states then states[x.user] else Seed(x, now)
  }

  /** A witnessed edge is believed; otherwise the user's row, if there still is one, decides. */
  function Balance(x: Observation, stored: Option<int>): int {
    if x.before.None? then stored.GetOr(x.after) else x.after
  }

  predicate Authorized(x: Observation, cycle: nat, outbox: Outbox) {
    match x.forcing
    case Unforced => false
    case Forced(allowed) => allowed
    case Backfill => cycle == 0 || DedupeKey(x.user, cycle) !in outbox
  }

  datatype Move = Open(forced: bool) | Rearm | Stay

  function Decide(st: AlertState, x: Observation, balance: int, outbox: Outbox): Move {
    if st.alerted && balance > x.boundary then Rearm
    else if balance > x.threshold then Stay
    else if !st.alerted then Open(false)
    else if Authorized(x, st.cycle, outbox) then Open(true)
    else Stay
  }

  function Moved(st: AlertState, x: Observation, balance: int, move: Move, now: int): AlertState {
    var seen := st.(lastBalance := balance, lastThreshold := x.threshold, lastBoundary := x.boundary, lastVersion := x.version);
    match move
    case Open(_) => seen.(alerted := true, cycle := st.cycle + 1, alertedAt := Some(now))
    case Rearm => seen.(alerted := false, rearmedAt := Some(now))
    case Stay => seen
  }

  /** The first producer of a key keeps it. */
  function Queued(outbox: Outbox, key: string, user: Id): Outbox {
    if key in outbox then outbox else outbox[key := Message(user, false)]
  }

  function Observed(states: States, outbox: Outbox, x: Observation, stored: Option<int>, now: int): (States, Outbox, Outcome) {
    var st := Locked(states, x, now);
    var balance := Balance(x, stored);
    var move := Decide(st, x, balance, outbox);
    var st' := Moved(st, x, balance, move, now);
    var outbox' := if move.Open? && x.eligible then Queued(outbox, DedupeKey(x.user, st'.cycle), x.user) else outbox;
    var outcome := match move
      case Open(_) => Alerted(st'.cycle, if x.eligible then Some(DedupeKey(x.user, st'.cycle)) else None)
      case Rearm => Rearmed(st'.cycle)
      case Stay =>
        if x.user in states || (st.alerted && !x.forcing.Unforced? && balance <= x.threshold) then Unchanged(st'.cycle)
        else if st.alerted then SeededBaseline(st'.cycle) else SeededArmed(st'.cycle);
    (states[x.user := st'], outbox', outcome)
  }

  /** A second write to the row hides the first. */
  lemma LastWriteWins(states: States, st: AlertState, x: Observation, balance: int, now: int)
    ensures forall move :: states[x.user := st][x.user := Moved(st, x, balance, move, now)] == states[x.user := Moved(st, x, balance, move, now)]
  {
  }

  /** The balance an observation is judged by: what a witness saw, otherwise the stored balance while there is one. */
  predicate JudgedBy(x: Observation, stored: Option<int>, balance: int) {
    if x.before.Some? || stored.None? then balance == x.after else balance == stored.value
  }

  /** The observer may open another cycle without a crossing. */
  predicate MayForce(x: Observation, cycle: nat, outbox: Outbox) {
    x.forcing == Forced(true) || (x.forcing == Backfill && (cycle == 0 || DedupeKey(x.user, cycle) !in outbox))
  }

  /** The row an observation starts from: the user's own, or one seeded from the balance before it. */
  predicate StartsFrom(states: States, x: Observation, now: int, st: AlertState) {
    if x.user in states then st == states[x.user]
    else var seed := if x.before.Some? then x.before.value else x.after;
         && st.alerted == (seed <= x.threshold) && st.cycle == 0 && st.lastBalance == seed && st.rearmedAt == None
         && st.alertedAt == if seed <= x.threshold then Some(now) else None
  }

  /** The observation leaves this row, and remembers what it judged by. */
  predicate Leaves(x: Observation, balance: int, st: AlertState, alerted: bool, cycle: nat, alertedAt: Option<int>, rearmedAt: Option<int>) {
    st == AlertState(alerted, cycle, balance, x.threshold, x.boundary, x.version, alertedAt, rearmedAt)
  }

  /**
   What an observation does, by the row and the balance it is judged by: above the boundary it closes an open episode;
   at or below the threshold it opens a cycle when none is open or it may force one, and then queues at most one message
   under the cycle's key, for an eligible user; otherwise it records the balance and settings and no more.
   */
  lemma ObservationOutcome(states: States, outbox: Outbox, x: Observation, stored: Option<int>, now: int, st: AlertState, balance: int)
    requires StartsFrom(states, x, now, st) && JudgedBy(x, stored, balance)
    ensures var (states', outbox', outcome) := Observed(states, outbox, x, stored, now);
            && x.user in states' && states' == states[x.user := states'[x.user]]
            && var st', key := states'[x.user], DedupeKey(x.user, st.cycle + 1);
            if st.alerted && balance > x.boundary
            then Leaves(x, balance, st', false, st.cycle, st.alertedAt, Some(now)) && outbox' == outbox && outcome == Rearmed(st.cycle)
            else if balance <= x.threshold && (!st.alerted || MayForce(x, st.cycle, outbox))
            then Leaves(x, balance, st', true, st.cycle + 1, Some(now), st.rearmedAt)
                 && outcome == Alerted(st.cycle + 1, if x.eligible then Some(key) else None)
                 && outbox' == if x.eligible && key !in outbox then outbox[key := Message(x.user, false)] else outbox
            else Leaves(x, balance, st', st.alerted, st.cycle, st.alertedAt, st.rearmedAt) && outbox' == outbox
                 && outcome == (if x.user in states || (st.alerted && x.forcing != Unforced && balance <= x.threshold) then Unchanged(st.cycle)
                                else if st.alerted then SeededBaseline(st.cycle) else SeededArmed(st.cycle))
  {
    hide DedupeKey;
    SeedIsStart(states, x, now, st);
    hide Seed;
  }

  lemma SeedIsStart(states: States, x: Observation, now: int, st: AlertState)
    requires StartsFrom(states, x, now, st)
    ensures x.user in states ==> Locked(states, x, now) == st
    ensures x.user !in states ==>
              var seed := Locked(states, x, now);
              && seed == st.(lastThreshold := x.threshold, lastBoundary := x.boundary, lastVersion := x.version)
  {
  }

  // ---- the check before a message is sent --------------------------------------------------------------

  /** The user row as the check reads it, before it locks the state row. */
  datatype Recipient = Recipient(active: bool, wanted: bool, balance: int)

  datatype Reason = Disabled | UserGone | UserInactive | OptedOut | StateMissing | CycleSuperseded | CycleClosed | BalanceRecovered

  datatype Decision = Deliver | Cancel(reason: Reason)

  /** One message about to be sent, with the cycle and the re-arm boundary it carries. */
  datatype Check = Check(user: Id, cycle: int, boundary: int, enabled: bool, recipient: Option<Recipient>)

  function Recheck(states: States, c: Check): Decision {
    if !c.enabled then Cancel(Disabled)
    else if c.recipient.None? then Cancel(UserGone)
    else if !c.recipient.value.active then Cancel(UserInactive)
    else if !c.recipient.value.wanted then Cancel(OptedOut)
    else if c.user !in states then Cancel(StateMissing)
    else if states[c.user].cycle != c.cycle then Cancel(CycleSuperseded)
    else if !states[c.user].alerted then Cancel(CycleClosed)
    else if c.recipient.value.balance > c.boundary then Cancel(BalanceRecovered)
    else Deliver
  }

  /** The state rows afterwards: a recovered balance re-arms the cycle that queued the message. */
  function Rechecked(states: States, c: Check, now: int): States {
    if Recheck(states, c) == Cancel(BalanceRecovered)
    then states[c.user := states[c.user].(alerted := false, lastBalance := c.recipient.value.balance, rearmedAt := Some(now))]
    else states
  }

  /** A reason to cancel a message, whatever other reasons there are. */
  predicate Cancels(why: Reason, states: States, c: Check) {
    match why
    case Disabled => !c.enabled
    case UserGone => c.recipient.None?
    case UserInactive => c.recipient.Some? && !c.recipient.value.active
    case OptedOut => c.recipient.Some? && !c.recipient.value.wanted
    case StateMissing => c.user !in states
    case CycleSuperseded => c.user in states && states[c.user].cycle != c.cycle
    case CycleClosed => c.user in states && !states[c.user].alerted
    case BalanceRecovered => c.recipient.Some? && c.recipient.value.balance > c.boundary
  }

  /** The place of a reason in the order in which reasons are looked for. */
  function Place(why: Reason): nat {
    match why
    case Disabled => 0
    case UserGone => 1
    case UserInactive => 2
    case OptedOut => 3
    case StateMissing => 4
    case CycleSuperseded => 5
    case CycleClosed => 6
    case BalanceRecovered => 7
  }

  /** A message goes out exactly when nothing cancels it, and is otherwise cancelled with the first reason there is. */
  lemma FirstReasonCancels(states: States, c: Check)
    ensures Recheck(states, c).Deliver? <==> forall why :: !Cancels(why, states, c)
    ensures var d := Recheck(states, c);
            d.Cancel? ==> Cancels(d.reason, states, c) && forall why :: Cancels(why, states, c) ==> Place(d.reason) <= Place(why)
  {
    var d := Recheck(states, c);
    assert forall why :: Cancels(why, states, c) ==> d.Cancel? && Place(d.reason) <= Place(why);
    assert d.Cancel? ==> Cancels(d.reason, states, c);
  }

  /** The check writes one row at most: a recovered balance closes the open episode of the message's own cycle. */
  lemma RecoveryRearms(states: States, c: Check, now: int)
    ensures var recovers := Recheck(states, c) == Cancel(BalanceRecovered);
            && (!recovers ==> Rechecked(states, c, now) == states)
            && (recovers ==>
                  && c.user in states && states[c.user].alerted && states[c.user].cycle == c.cycle && c.recipient.Some?
                  && Rechecked(states, c, now) ==
                       states[c.user := states[c.user].(alerted := false, lastBalance := c.recipient.value.balance, rearmedAt := Some(now))])
  {
  }

  // ---- retention -----------------------------------------------------------------------------------------

  /** Cleanup deletes the finished rows among those past their retention. */
  function Pruned(outbox: Outbox, expired: set<string>): Outbox {
    map key | key in outbox && !(outbox[key].finished && key in expired) :: outbox[key]
  }

  /** A message row goes exactly when it is finished and past its retention; what stays stays as it was. */
  lemma CleanupDeletes(outbox: Outbox, expired: set<string>, key: string)
    ensures key in Pruned(outbox, expired) <==> key in outbox && (outbox[key].finished ==> key !in expired)
    ensures key in Pruned(outbox, expired) ==> Pruned(outbox, expired)[key] == outbox[key]
  {
  }

  // ---- the transition as the code runs it ------------------------------------------------------------

  class AlertDesk {
    var states: States
    var outbox: Outbox
    var balances: map<Id, int>

    function Stored(user: Id): Option<int>
      reads this`balances
    {
      if user in balances then Some(balances[user]) else None
    }

    /** Inserts the row implied by the balance before, unless there is one, and returns the locked row. */
    method SeedAndLock(x: Observation, now: int) returns (st: AlertState, created: bool)
      modifies this`states
      ensures created == (x.user !in old(states)) && st == Locked(old(states), x, now)
      ensures states == old(states)[x.user := st]
    {
      created := x.user !in states;
      if created {
        var seedBalance := if x.before.Some? then x.before.value else x.after;
        var low := seedBalance <= x.threshold;
        states := states[x.user := AlertState(low, 0, seedBalance, x.threshold, x.boundary, x.version,
                                              if low then Some(now) else None, None)];
      }
      st := states[x.user];
    }

    /** Records what was seen, and the side of the machine the caller decided on. */
    method Write(x: Observation, balance: int, alerted: bool, cycle: nat, alertedAt: Option<int>, rearmedAt: Option<int>)
      modifies this`states
      ensures states == old(states)[x.user := AlertState(alerted, cycle, balance, x.threshold, x.boundary, x.version, alertedAt, rearmedAt)]
    {
      states := states[x.user := AlertState(alerted, cycle, balance, x.threshold, x.boundary, x.version, alertedAt, rearmedAt)];
    }

    /** Advances the cycle and queues its message, under one key per cycle. */
    method OpenCycle(x: Observation, st: AlertState, balance: int, now: int) returns (outcome: Outcome)
      requires x.user in states && states[x.user] == st
      modifies this`states, this`outbox
      ensures states == old(states)[x.user := Moved(st, x, balance, Open(true), now)]
      ensures outbox == if x.eligible then Queued(old(outbox), DedupeKey(x.user, st.cycle + 1), x.user) else old(outbox)
      ensures outcome == Alerted(st.cycle + 1, if x.eligible then Some(DedupeKey(x.user, st.cycle + 1)) else None)
    {
      var cycle := st.cycle + 1;
      Write(x, balance, true, cycle, Some(now), st.rearmedAt);
      if !x.eligible {
        return Alerted(cycle, None);
      }
      var key := DedupeKey(x.user, cycle);
      if key !in outbox {
        outbox := outbox[key := Message(x.user, false)];
      }
      return Alerted(cycle, Some(key));
    }

    method Apply(x: Observation, now: int) returns (outcome: Outcome)
      modifies this`states, this`outbox
      ensures (states, outbox, outcome) == Observed(old(states), old(outbox), x, old(Stored(x.user)), now)
    {
      hide DedupeKey, Queued;
      var st, created := SeedAndLock(x, now);
      var balance := x.after;
      if x.before.None? && x.user in balances {
        balance := balances[x.user];
      }
      var isLow := balance <= x.threshold;
      LastWriteWins(old(states), st, x, balance, now);
      if st.alerted {
        if balance > x.boundary {
          Write(x, balance, false, st.cycle, st.alertedAt, Some(now));
          return Rearmed(st.cycle);
        }
        if !x.forcing.Unforced? && isLow {
          var authorized := if x.forcing.Backfill? then st.cycle == 0 || DedupeKey(x.user, st.cycle) !in outbox else x.forcing.allowed;
          if authorized {
            outcome := OpenCycle(x, st, balance, now);
            return;
          }
          Write(x, balance, true, st.cycle, st.alertedAt, st.rearmedAt);
          return Unchanged(st.cycle);
        }
        Write(x, balance, true, st.cycle, st.alertedAt, st.rearmedAt);
        return if created then SeededBaseline(st.cycle) else Unchanged(st.cycle);
      }
      if isLow {
        outcome := OpenCycle(x, st, balance, now);
        return;
      }
      Write(x, balance, false, st.cycle, st.alertedAt, st.rearmedAt);
      return if created then SeededArmed(st.cycle) else Unchanged(st.cycle);
    }

    /** Decides whether a queued message may still go out; re-arms its cycle exactly when the balance recovered under it. */
    method RevalidateForDelivery(c: Check, now: int) returns (decision: Decision)
      modifies this`states
      ensures decision == Recheck(old(states), c) && states == Rechecked(old(states), c, now)
      ensures decision.Deliver? ==> c.user in states && states[c.user].alerted && states[c.user].cycle == c.cycle
                                    && c.recipient.Some? && c.recipient.value.balance <= c.boundary
      ensures states != old(states) ==> decision == Cancel(BalanceRecovered) && !states[c.user].alerted
      ensures forall u :: u in old(states) && u != c.user ==> u in states && states[u] == old(states)[u]
      ensures states.Keys == old(states).Keys
    {
      if !c.enabled {
        return Cancel(Disabled);
      }
      if c.recipient.None? {
        return Cancel(UserGone);
      }
      var user := c.recipient.value;
      if !user.active {
        return Cancel(UserInactive);
      }
      if !user.wanted {
        return Cancel(OptedOut);
      }
      if c.user !in states {
        return Cancel(StateMissing);
      }
      var st := states[c.user];
      if st.cycle != c.cycle {
        return Cancel(CycleSuperseded);
      }
      if !st.alerted {
        return Cancel(CycleClosed);
      }
      if user.balance > c.boundary {
        states := states[c.user := st.(alerted := false, lastBalance := user.balance, rearmedAt := Some(now))];
        return Cancel(BalanceRecovered);
      }
      return Deliver;
    }
  }
}
