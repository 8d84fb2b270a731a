/**
 The lifecycle of a migration, derived from the unordered history of its attempts, and the
 deployment verdict built from it.
 */
module Migrations {
  import opened Wrappers

  datatype Attempt = Attempt(checksum: string, startedAt: int, finishedAt: Option<int>, rolledBackAt: Option<int>)

  datatype Status = NotApplied | CurrentlyFailed | RolledBackNotReapplied | Applied

  predicate Successful(a: Attempt) {
    a.finishedAt.Some? && a.rolledBackAt.None?
  }

  predicate RolledBack(a: Attempt) {
    a.rolledBackAt.Some?
  }

  predicate Stuck(a: Attempt) {
    a.finishedAt.None? && a.rolledBackAt.None?
  }

  // ---- the three maxima -----------------------------------------------------------------------------------

  datatype Which = Any | Successes | Rollbacks

  predicate Selects(which: Which, a: Attempt) {
    match which
    case Any => true
    case Successes => Successful(a)
    case Rollbacks => RolledBack(a)
  }

  /** The most recently started selected attempt; the first one seen wins a tie. */
  function Latest(attempts: seq<Attempt>, which: Which): Option<Attempt>
    decreases |attempts|
  {
    if attempts == [] then None
    else
      var best := Latest(Front(attempts), which);
      if Selects(which, Last(attempts)) && (best.None? || Last(attempts).startedAt > best.value.startedAt)
      then Some(Last(attempts)) else best
  }

  lemma {:induction false} LatestIsMaximum(attempts: seq<Attempt>, which: Which)
    ensures var best := Latest(attempts, which);
            && (best.Some? <==> exists a :: a in attempts && Selects(which, a))
            && (best.Some? ==> best.value in attempts && Selects(which, best.value))
            && (forall a :: a in attempts && Selects(which, a) ==> best.Some? && a.startedAt <= best.value.startedAt)
    decreases |attempts|
  {
    if attempts != [] {
      LatestIsMaximum(Front(attempts), which);
      assert attempts == Front(attempts) + [Last(attempts)];
    }
  }

  function Judged(latest: Option<Attempt>, success: Option<Attempt>, rollback: Option<Attempt>): Status {
    if latest.None? then NotApplied
    else if Stuck(latest.value) then CurrentlyFailed
    else if success.None? then RolledBackNotReapplied
    else if rollback.None? then Applied
    else if success.value.startedAt > rollback.value.startedAt then Applied
    else RolledBackNotReapplied
  }

  function Classify(attempts: seq<Attempt>): Status {
    Judged(Latest(attempts, Any), Latest(attempts, Successes), Latest(attempts, Rollbacks))
  }

  method ClassifyMigrationAttempt(attempts: seq<Attempt>) returns (status: Status)
    ensures status == Classify(attempts)
  {
    if |attempts| == 0 {
      return NotApplied;
    }
    var latest: Option<Attempt>, success: Option<Attempt>, rollback: Option<Attempt> := None, None, None;
    for i := 0 to |attempts|
      invariant latest == Latest(attempts[..i], Any)
      invariant success == Latest(attempts[..i], Successes)
      invariant rollback == Latest(attempts[..i], Rollbacks)
    {
      var a := attempts[i];
      assert Front(attempts[..i + 1]) == attempts[..i];
      if latest.None? || a.startedAt > latest.value.startedAt { latest := Some(a); }
      if Successful(a) && (success.None? || a.startedAt > success.value.startedAt) { success := Some(a); }
      if RolledBack(a) && (rollback.None? || a.startedAt > rollback.value.startedAt) { rollback := Some(a); }
    }
    assert attempts[..|attempts|] == attempts;
    LatestIsMaximum(attempts, Any);
    if Stuck(latest.value) { return CurrentlyFailed; }
    if success.None? { return RolledBackNotReapplied; }
    if rollback.None? { return Applied; }
    return if success.value.startedAt > rollback.value.startedAt then Applied else RolledBackNotReapplied;
  }

  // ---- the single latest attempt decides ------------------------------------------------------------------------

  /** The lifecycle that one attempt, taken alone, stands for. */
  function OutcomeOf(a: Attempt): Status {
    if RolledBack(a) then RolledBackNotReapplied else if Successful(a) then Applied else CurrentlyFailed
  }

  predicate LastStarted(attempts: seq<Attempt>, a: Attempt) {
    a in attempts && forall b :: b in attempts ==> b.startedAt <= a.startedAt
  }

  /**
   The last-started attempts decide, in any order of the history: all stuck is a live failure; none stuck is
   APPLIED unless one of them was rolled back. Only a tie between a stuck attempt and another is left open.
   */
  lemma LastStartedDecide(attempts: seq<Attempt>)
    requires attempts != []
    ensures (forall a :: LastStarted(attempts, a) ==> Stuck(a)) ==> Classify(attempts) == CurrentlyFailed
    ensures (forall a :: LastStarted(attempts, a) ==> !Stuck(a)) ==>
              (Classify(attempts) == if exists a :: LastStarted(attempts, a) && RolledBack(a) then RolledBackNotReapplied else Applied)
  {
    LatestIsMaximum(attempts, Any);
    LatestIsMaximum(attempts, Successes);
    LatestIsMaximum(attempts, Rollbacks);
    var latest, success, rollback := Latest(attempts, Any), Latest(attempts, Successes), Latest(attempts, Rollbacks);
    assert attempts[0] in attempts;
    hide Latest;
    assert LastStarted(attempts, latest.value);
    if success.Some? && success.value.startedAt == latest.value.startedAt { assert LastStarted(attempts, success.value); }
    if rollback.Some? && rollback.value.startedAt == latest.value.startedAt { assert LastStarted(attempts, rollback.value); }
  }

  /** The outcome that all last-started attempts share is the verdict. */
  lemma ClassifiedAsLatest(attempts: seq<Attempt>, a: Attempt)
    requires LastStarted(attempts, a)
    requires forall b :: LastStarted(attempts, b) ==> OutcomeOf(b) == OutcomeOf(a)
    ensures Classify(attempts) == OutcomeOf(a)
  {
    LastStartedDecide(attempts);
    hide Classify;
  }

  ghost predicate DistinctStarts(attempts: seq<Attempt>) {
    forall i, j :: 0 <= i < j < |attempts| ==> attempts[i].startedAt != attempts[j].startedAt
  }

  /** With distinct start times the verdict depends on the set of attempts alone, and a current checksum is the latest attempt's. */
  lemma OrderDoesNotMatter(attempts: seq<Attempt>, shuffled: seq<Attempt>)
    requires DistinctStarts(attempts) && multiset(shuffled) == multiset(attempts)
    ensures Classify(shuffled) == Classify(attempts)
    ensures CurrentChecksum(shuffled) == CurrentChecksum(attempts)
    ensures CurrentChecksum(attempts).Some? <==> Classify(attempts).Applied?
    ensures Classify(attempts).Applied? ==>
              exists a :: LastStarted(attempts, a) && Successful(a) && CurrentChecksum(attempts) == Some(a.checksum)
  {
    assert forall a :: a in shuffled <==> a in attempts by {
      assert forall a :: a in shuffled <==> a in multiset(shuffled);
    }
    if attempts == [] {
      assert |multiset(shuffled)| == 0;
    } else {
      LatestIsMaximum(attempts, Any);
      var a := Latest(attempts, Any).value;
      assert LastStarted(attempts, a) && LastStarted(shuffled, a);
      forall b | LastStarted(attempts, b) ensures b == a {
        var i :| 0 <= i < |attempts| && attempts[i] == a;
        var j :| 0 <= j < |attempts| && attempts[j] == b;
      }
      assert forall b :: LastStarted(shuffled, b) ==> LastStarted(attempts, b);
      ClassifiedAsLatest(attempts, a);
      ClassifiedAsLatest(shuffled, a);
      LatestIsMaximum(attempts, Successes);
      LatestIsMaximum(shuffled, Successes);
      hide Latest, Classify;
      if Successful(a) {
        assert LastStarted(attempts, Latest(attempts, Successes).value) && LastStarted(attempts, Latest(shuffled, Successes).value);
      }
    }
  }

  /** The checksum of the current applied state. */
  function CurrentChecksum(attempts: seq<Attempt>): Option<string> {
    if Classify(attempts).Applied? && Latest(attempts, Successes).Some? then Some(Latest(attempts, Successes).value.checksum) else None
  }

  // ---- exactly when the order is immaterial ---------------------------------------------------------------------

  ghost predicate Reordered(a: seq<Attempt>, b: seq<Attempt>) {
    multiset(a) == multiset(b)
  }

  /** Whatever order the rows come in, the verdict is the same. */
  ghost predicate OrderFree(attempts: seq<Attempt>) {
    forall t :: Reordered(t, attempts) ==> Classify(t) == Classify(attempts)
  }

  /** No stuck attempt shares the last start time with one that is not. */
  ghost predicate LastStartedAgree(attempts: seq<Attempt>) {
    forall a, b :: LastStarted(attempts, a) && LastStarted(attempts, b) ==> Stuck(a) == Stuck(b)
  }

  lemma ReorderedKeepsLast(attempts: seq<Attempt>, t: seq<Attempt>)
    requires Reordered(t, attempts)
    ensures forall a :: LastStarted(t, a) <==> LastStarted(attempts, a)
    ensures |t| == |attempts|
  {
    assert forall a :: a in t <==> a in multiset(t);
    assert forall a :: a in attempts <==> a in multiset(attempts);
    assert |multiset(t)| == |t| && |multiset(attempts)| == |attempts|;
  }

  /** The loop keeps the first of several attempts with one start time. */
  lemma {:induction false} FirstWins(attempts: seq<Attempt>)
    requires attempts != [] && LastStarted(attempts, attempts[0])
    ensures Latest(attempts, Any) == Some(attempts[0])
    decreases |attempts|
  {
    if |attempts| == 1 {
      assert Latest(Front(attempts), Any).None?;
    } else {
      assert attempts == Front(attempts) + [Last(attempts)];
      assert Front(attempts)[0] == attempts[0];
      FirstWins(Front(attempts));
    }
  }

  /** Any attempt can come first, and a last-started one that does is the one judged. */
  lemma BroughtFirst(attempts: seq<Attempt>, a: Attempt) returns (t: seq<Attempt>)
    requires LastStarted(attempts, a)
    ensures Reordered(t, attempts) && (Classify(t) == CurrentlyFailed <==> Stuck(a))
  {
    var i :| 0 <= i < |attempts| && attempts[i] == a;
    t := [a] + (attempts[..i] + attempts[i + 1..]);
    assert attempts == attempts[..i] + [a] + attempts[i + 1..];
    ReorderedKeepsLast(attempts, t);
    FirstWins(t);
  }

  /** In every history: the verdict is the same for every order of its rows if and only if its last-started attempts agree. */
  lemma OrderFreeIffLastStartedAgree(attempts: seq<Attempt>)
    ensures OrderFree(attempts) <==> LastStartedAgree(attempts)
  {
    hide Classify;
    if LastStartedAgree(attempts) {
      forall t | Reordered(t, attempts) ensures Classify(t) == Classify(attempts) {
        ReorderedKeepsLast(attempts, t);
        SameLastSameVerdict(attempts, t);
      }
    } else {
      var a, b :| LastStarted(attempts, a) && LastStarted(attempts, b) && Stuck(a) != Stuck(b);
      var first := BroughtFirst(attempts, a);
      var second := BroughtFirst(attempts, b);
    }
  }

  lemma SameLastSameVerdict(attempts: seq<Attempt>, t: seq<Attempt>)
    requires |t| == |attempts| && (forall a :: LastStarted(t, a) <==> LastStarted(attempts, a))
    requires LastStartedAgree(attempts)
    ensures Classify(t) == Classify(attempts)
  {
    if attempts == [] {
      assert t == attempts;
    } else {
      LastStartedDecide(attempts);
      LastStartedDecide(t);
      hide Classify, LastStarted;
    }
  }

  method LatestSuccessfulAttempt(attempts: seq<Attempt>) returns (latest: Option<Attempt>)
    ensures latest == Latest(attempts, Successes)
  {
    latest := None;
    for i := 0 to |attempts|
      invariant latest == Latest(attempts[..i], Successes)
    {
      assert Front(attempts[..i + 1]) == attempts[..i];
      if Successful(attempts[i]) && (latest.None? || attempts[i].startedAt > latest.value.startedAt) {
        latest := Some(attempts[i]);
      }
    }
    assert attempts[..|attempts|] == attempts;
  }

  // ---- the state of one migration ------------------------------------------------------------------------------------

  datatype State = State(
    status: Status, latest: Option<Attempt>, success: Option<Attempt>, rollback: Option<Attempt>,
    checksum: Option<string>, rolledBack: nat)

  /** Latest first, as the query orders them. */
  predicate Descending(attempts: seq<Attempt>) {
    forall i, j :: 0 <= i < j < |attempts| ==> attempts[i].startedAt >= attempts[j].startedAt
  }

  function Find(attempts: seq<Attempt>, which: Which): Option<Attempt> {
    if attempts == [] then None else if Selects(which, attempts[0]) then Some(attempts[0]) else Find(attempts[1..], which)
  }

  function CountOf(attempts: seq<Attempt>, which: Which): nat
    decreases |attempts|
  {
    if attempts == [] then 0 else CountOf(Front(attempts), which) + if Selects(which, Last(attempts)) then 1 else 0
  }

  function ReadState(rows: seq<Attempt>): State {
    var status, success := Classify(rows), Find(rows, Successes);
    State(status, if rows == [] then None else Some(rows[0]), success, Find(rows, Rollbacks),
          if status.Applied? && success.Some? then Some(success.value.checksum) else None, CountOf(rows, Rollbacks))
  }

  lemma {:induction false} FoundIsLatest(rows: seq<Attempt>, which: Which)
    requires Descending(rows)
    ensures var f := Find(rows, which);
            && (f.Some? <==> exists a :: a in rows && Selects(which, a))
            && (f.Some? ==> f.value in rows && Selects(which, f.value))
            && (forall a :: a in rows && Selects(which, a) ==> f.Some? && a.startedAt <= f.value.startedAt)
  {
    if rows != [] {
      FoundIsLatest(rows[1..], which);
      assert rows == [rows[0]] + rows[1..];
    }
  }

  /** These positions, in order, and no others hold rows that were rolled back. */
  ghost predicate RolledBackAt(rows: seq<Attempt>, at: seq<nat>) {
    && (forall j, k :: 0 <= j < k < |at| ==> at[j] < at[k])
    && (forall k :: 0 <= k < |at| ==> at[k] < |rows| && rows[at[k]].rolledBackAt.Some?)
    && (forall i: nat :: i < |rows| && rows[i].rolledBackAt.Some? ==> i in at)
  }

  /** The state read off the rows carries the verdict, the first row, and the number of rows that were rolled back. */
  lemma ReadStateCounts(rows: seq<Attempt>) returns (at: seq<nat>)
    ensures ReadState(rows).status == Classify(rows)
    ensures ReadState(rows).latest == if rows == [] then None else Some(rows[0])
    ensures RolledBackAt(rows, at) && ReadState(rows).rolledBack == |at|
  {
    hide Classify;
    at := CountedAt(rows);
  }

  lemma {:induction false} CountedAt(rows: seq<Attempt>) returns (at: seq<nat>)
    ensures RolledBackAt(rows, at) && CountOf(rows, Rollbacks) == |at|
    decreases |rows|
  {
    hide RolledBackAt;
    if rows == [] {
      at := [];
      NothingAt();
    } else {
      var earlier := CountedAt(Front(rows));
      at := if RolledBack(Last(rows)) then earlier + [|rows| - 1] else earlier;
      OneMoreRow(rows, earlier);
    }
  }

  lemma NothingAt()
    ensures RolledBackAt([], [])
  {
  }

  lemma OneMoreRow(rows: seq<Attempt>, at: seq<nat>)
    requires rows != [] && RolledBackAt(Front(rows), at)
    ensures RolledBackAt(rows, if RolledBack(Last(rows)) then at + [|rows| - 1] else at)
  {
    var more := if RolledBack(Last(rows)) then at + [|rows| - 1] else at;
    forall k | 0 <= k < |more| ensures more[k] < |rows| && rows[more[k]].rolledBackAt.Some? {
      assert k < |at| ==> at[k] < |Front(rows)| && Front(rows)[at[k]] == rows[at[k]];
    }
    forall i: nat | i < |rows| && rows[i].rolledBackAt.Some? ensures i in more {
      if i < |rows| - 1 {
        assert Front(rows)[i] == rows[i] && i in at;
      }
    }
  }

  /** With distinct start times, reading the rows latest first finds the same three maxima as the loop. */
  lemma ReadStateAgrees(rows: seq<Attempt>)
    requires Descending(rows) && DistinctStarts(rows)
    ensures var s := ReadState(rows);
            && s.latest == Latest(rows, Any) && s.success == Latest(rows, Successes) && s.rollback == Latest(rows, Rollbacks)
            && s.checksum == CurrentChecksum(rows)
  {
    forall w ensures Find(rows, w) == Latest(rows, w) {
      FoundIsLatest(rows, w);
      LatestIsMaximum(rows, w);
      if Find(rows, w).Some? {
        var i :| 0 <= i < |rows| && rows[i] == Find(rows, w).value;
        var j :| 0 <= j < |rows| && rows[j] == Latest(rows, w).value;
      }
    }
    assert rows != [] ==> Find(rows, Any) == Some(rows[0]);
  }
}
