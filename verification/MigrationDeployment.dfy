/** The deployment verdict: every shipped migration must be applied, and every applied one shipped. */
module MigrationDeployment {
  import opened Wrappers
  import opened Migrations
  import opened StringOrder

  // ---- the verdict ------------------------------------------------------------------------------------------

  type History = map<string, seq<Attempt>>

  /** The migration directories, split by whether their SQL file is there; None when there is no directory at all. */
  datatype Disk = Disk(complete: seq<string>, incomplete: seq<string>)

  datatype Blocker =
    | DirectoryMissing
    | IncompleteOnDisk(name: string)
    | NoMigrationsOnDisk
    | Pending(name: string)
    | Failed(name: string)
    | RolledBackName(name: string)
    | MissingFile(name: string)

  datatype Entry = Entry(name: string, onDisk: bool, state: Status, checksum: Option<string>)

  datatype Verdict = Verdict(
    blocker: Option<Blocker>, applied: nat, pending: seq<string>, failed: seq<string>, rolledBack: seq<string>,
    missing: seq<string>, incomplete: seq<string>, entries: seq<Entry>)

  function Attempts(history: History, name: string): seq<Attempt> {
    if name in history then history[name] else []
  }

  function StateOf(history: History, name: string): Status {
    Classify(Attempts(history, name))
  }

  predicate OnDisk(disk: Disk, name: string) {
    name in disk.complete
  }

  datatype Kind = IsPending | IsFailed | IsRolledBack | IsMissing | IsApplied

  predicate Is(kind: Kind, disk: Disk, history: History, name: string) {
    var state := StateOf(history, name);
    match kind
    case IsPending => state.NotApplied? && name in disk.complete
    case IsFailed => state.CurrentlyFailed?
    case IsRolledBack => state.RolledBackNotReapplied?
    case IsMissing => state.Applied? && name !in disk.complete
    case IsApplied => state.Applied?
  }

  /** The names of one kind, in order. */
  function Select(names: seq<string>, kind: Kind, disk: Disk, history: History): seq<string>
    decreases |names|
  {
    if names == [] then []
    else Select(Front(names), kind, disk, history) + if Is(kind, disk, history, Last(names)) then [Last(names)] else []
  }

  lemma {:induction false} SelectKeeps(names: seq<string>, kind: Kind, disk: Disk, history: History)
    ensures forall n :: n in Select(names, kind, disk, history) <==> n in names && Is(kind, disk, history, n)
    decreases |names|
  {
    hide Is;
    if names != [] {
      SelectKeeps(Front(names), kind, disk, history);
      assert names == Front(names) + [Last(names)];
    }
  }

  lemma SelectNext(names: seq<string>, i: nat, kind: Kind, disk: Disk, history: History)
    requires i < |names|
    ensures Select(names[..i + 1], kind, disk, history) ==
              Select(names[..i], kind, disk, history) + if Is(kind, disk, history, names[i]) then [names[i]] else []
  {
    assert Front(names[..i + 1]) == names[..i];
  }

  function EntryOf(disk: Disk, history: History, name: string): Entry {
    Entry(name, OnDisk(disk, name), StateOf(history, name), CurrentChecksum(Attempts(history, name)))
  }

  /** The lists that the walk fills. */
  ghost predicate Fills(disk: Disk, history: History, names: seq<string>, v: Verdict) {
    && v.pending == Select(names, IsPending, disk, history)
    && v.failed == Select(names, IsFailed, disk, history)
    && v.rolledBack == Select(names, IsRolledBack, disk, history)
    && v.missing == Select(names, IsMissing, disk, history)
    && v.applied == |Select(names, IsApplied, disk, history)|
    && v.incomplete == disk.incomplete
    && |v.entries| == |names| && forall i :: 0 <= i < |names| ==> v.entries[i] == EntryOf(disk, history, names[i])
  }

  function FirstBlocker(disk: Disk, v: Verdict): Option<Blocker> {
    if disk.incomplete != [] then Some(IncompleteOnDisk(disk.incomplete[0]))
    else if disk.complete == [] then Some(NoMigrationsOnDisk)
    else if v.pending != [] then Some(Pending(v.pending[0]))
    else if v.failed != [] then Some(Failed(v.failed[0]))
    else if v.rolledBack != [] then Some(RolledBackName(v.rolledBack[0]))
    else if v.missing != [] then Some(MissingFile(v.missing[0]))
    else None
  }

  /** The lists with one more name in those its state asks for. */
  function Extended(v: Verdict, name: string, disk: Disk, history: History): Verdict {
    v.(pending := v.pending + if Is(IsPending, disk, history, name) then [name] else [],
       failed := v.failed + if Is(IsFailed, disk, history, name) then [name] else [],
       rolledBack := v.rolledBack + if Is(IsRolledBack, disk, history, name) then [name] else [],
       missing := v.missing + if Is(IsMissing, disk, history, name) then [name] else [],
       applied := v.applied + if Is(IsApplied, disk, history, name) then 1 else 0,
       entries := v.entries + [EntryOf(disk, history, name)])
  }

  lemma FillsNext(disk: Disk, history: History, names: seq<string>, i: nat, v: Verdict)
    requires i < |names| && Fills(disk, history, names[..i], v)
    ensures Fills(disk, history, names[..i + 1], Extended(v, names[i], disk, history))
  {
    hide Is, EntryOf;
    forall kind ensures Select(names[..i + 1], kind, disk, history) ==
                          Select(names[..i], kind, disk, history) + if Is(kind, disk, history, names[i]) then [names[i]] else [] {
      SelectNext(names, i, kind, disk, history);
    }
    hide Select;
  }

  method Classified(v: Verdict, name: string, disk: Disk, history: History) returns (v': Verdict)
    ensures v' == Extended(v, name, disk, history)
  {
    var attempts := if name in history then history[name] else [];
    var state := ClassifyMigrationAttempt(attempts);
    var checksum := None;
    if state.Applied? {
      var latest := LatestSuccessfulAttempt(attempts);
      checksum := if latest.Some? then Some(latest.value.checksum) else None;
    }
    hide Classify, Latest;
    var onDisk := name in disk.complete;
    v' := v.(entries := v.entries + [Entry(name, onDisk, state, checksum)]);
    match state {
      case Applied =>
        v' := v'.(applied := v'.applied + 1);
        if !onDisk { v' := v'.(missing := v'.missing + [name]); }
      case CurrentlyFailed => v' := v'.(failed := v'.failed + [name]);
      case RolledBackNotReapplied => v' := v'.(rolledBack := v'.rolledBack + [name]);
      case NotApplied => if onDisk { v' := v'.(pending := v'.pending + [name]); }
    }
  }

  lemma BlockerIsApart(disk: Disk, history: History, names: seq<string>, v: Verdict)
    requires Fills(disk, history, names, v)
    ensures forall b :: Fills(disk, history, names, v.(blocker := b)) && FirstBlocker(disk, v.(blocker := b)) == FirstBlocker(disk, v)
  {
    hide Select, EntryOf;
  }

  /** Walks all names in order, filling one list per kind of trouble; the first non-empty list names the blocker. */
  method Evaluate(directory: Option<Disk>, history: History, dbNames: seq<string>) returns (v: Verdict)
    requires forall n :: n in dbNames <==> n in history
    ensures directory.None? ==> v.blocker == Some(DirectoryMissing)
    ensures directory.Some? ==> Fills(directory.value, history, SortUnique(directory.value.complete + dbNames), v)
    ensures directory.Some? ==> v.blocker == FirstBlocker(directory.value, v)
  {
    if directory.None? {
      return Verdict(Some(DirectoryMissing), 0, [], [], [], [], [], []);
    }
    hide Is, EntryOf, SortUnique, Extended;
    var disk := directory.value;
    var names := SortUnique(disk.complete + dbNames);
    v := Verdict(None, 0, [], [], [], [], disk.incomplete, []);
    assert Fills(disk, history, names[..0], v);
    hide Fills;
    for i := 0 to |names|
      invariant Fills(disk, history, names[..i], v)
    {
      FillsNext(disk, history, names, i, v);
      v := Classified(v, names[i], disk, history);
    }
    assert names[..|names|] == names;
    BlockerIsApart(disk, history, names, v);
    v := v.(blocker := FirstBlocker(disk, v));
  }

  lemma StatesAreExclusive(disk: Disk, history: History, name: string)
    ensures StateOf(history, name).Applied? && name in disk.complete <==>
              && !Is(IsPending, disk, history, name) && !Is(IsFailed, disk, history, name) && !Is(IsRolledBack, disk, history, name)
              && !Is(IsMissing, disk, history, name) && !(StateOf(history, name).NotApplied? && name !in disk.complete)
  {
    hide Classify;
  }

  lemma HistoriesAreApplied(history: History, name: string)
    requires name in history && history[name] != []
    ensures !StateOf(history, name).NotApplied?
  {
    LatestIsMaximum(history[name], Any);
    assert history[name][0] in history[name];
  }

  /** Ready exactly when the disk is complete and not empty, and every name anywhere is both applied and shipped. */
  lemma ReadyIffAllAppliedAndShipped(disk: Disk, history: History, dbNames: seq<string>, v: Verdict)
    requires forall n :: n in dbNames <==> n in history
    requires forall n :: n in history ==> history[n] != []
    requires Fills(disk, history, SortUnique(disk.complete + dbNames), v)
    ensures FirstBlocker(disk, v).None? <==>
              && disk.incomplete == [] && disk.complete != []
              && (forall n :: n in disk.complete || n in history ==> StateOf(history, n).Applied? && n in disk.complete)
  {
    hide Is, Classify, EntryOf, StateOf;
    var names := SortUnique(disk.complete + dbNames);
    SortUniqueSorts(disk.complete + dbNames);
    hide SortUnique, Sorted;
    forall kind ensures forall n :: n in Select(names, kind, disk, history) <==> n in names && Is(kind, disk, history, n) {
      SelectKeeps(names, kind, disk, history);
    }
    hide Select;
    forall n | n in names
      ensures StateOf(history, n).Applied? && n in disk.complete <==>
                n !in v.pending && n !in v.failed && n !in v.rolledBack && n !in v.missing {
      StatesAreExclusive(disk, history, n);
      if n in history { HistoriesAreApplied(history, n); }
    }
    if FirstBlocker(disk, v).Some? && disk.incomplete == [] && disk.complete != [] {
      var n := if v.pending != [] then v.pending[0] else if v.failed != [] then v.failed[0]
               else if v.rolledBack != [] then v.rolledBack[0] else v.missing[0];
      assert n in v.pending || n in v.failed || n in v.rolledBack || n in v.missing;
      assert n in names;
    }
  }

  // ---- which trouble is named ---------------------------------------------------------------------------------------

  /** A migration in trouble of this kind, before all others of the kind. */
  ghost predicate FirstOf(kind: Kind, disk: Disk, history: History, names: seq<string>, name: string) {
    && name in names && Is(kind, disk, history, name)
    && forall m :: m in names && Is(kind, disk, history, m) ==> m == name || Before(name, m)
  }

  /** A reason not to deploy, whatever other reasons there are. */
  ghost predicate Blocks(b: Blocker, disk: Disk, history: History, names: seq<string>) {
    match b
    case DirectoryMissing => false
    case IncompleteOnDisk(name) => disk.incomplete != [] && name == disk.incomplete[0]
    case NoMigrationsOnDisk => disk.complete == []
    case Pending(name) => FirstOf(IsPending, disk, history, names, name)
    case Failed(name) => FirstOf(IsFailed, disk, history, names, name)
    case RolledBackName(name) => FirstOf(IsRolledBack, disk, history, names, name)
    case MissingFile(name) => FirstOf(IsMissing, disk, history, names, name)
  }

  /** The place of a reason in the order in which reasons are looked for. */
  function Place(b: Blocker): nat {
    match b
    case DirectoryMissing => 0
    case IncompleteOnDisk(_) => 1
    case NoMigrationsOnDisk => 2
    case Pending(_) => 3
    case Failed(_) => 4
    case RolledBackName(_) => 5
    case MissingFile(_) => 6
  }

  lemma {:induction false} SelectSorts(names: seq<string>, kind: Kind, disk: Disk, history: History)
    requires Sorted(names)
    ensures Sorted(Select(names, kind, disk, history))
    decreases |names|
  {
    hide Is, Before;
    if names != [] {
      SelectSorts(Front(names), kind, disk, history);
      SelectKeeps(Front(names), kind, disk, history);
      var kept := Select(Front(names), kind, disk, history);
      forall i | 0 <= i < |kept| ensures Before(kept[i], Last(names)) {
        assert kept[i] in Front(names);
      }
    }
  }

  lemma SelectedFirst(names: seq<string>, kind: Kind, disk: Disk, history: History)
    requires Sorted(names)
    ensures var kept := Select(names, kind, disk, history);
            && (kept != [] ==> FirstOf(kind, disk, history, names, kept[0]))
            && (forall name :: FirstOf(kind, disk, history, names, name) ==> kept != [] && name == kept[0])
  {
    SelectSorts(names, kind, disk, history);
    SelectKeeps(names, kind, disk, history);
    var kept := Select(names, kind, disk, history);
    hide Is, Select, Before;
    if kept != [] {
      assert kept[0] in kept;
      forall m | m in names && Is(kind, disk, history, m) ensures m == kept[0] || Before(kept[0], m) {
        var j :| 0 <= j < |kept| && kept[j] == m;
      }
    }
    forall name | FirstOf(kind, disk, history, names, name) ensures kept != [] && name == kept[0] {
      assert name in kept;
      assert Is(kind, disk, history, kept[0]) && kept[0] in names;
      if name != kept[0] { BeforeIsStrict(name, kept[0]); }
    }
  }

  /** The blocker is the first trouble in the order of the checks, and in it the first migration by name. */
  lemma FirstTroubleIsNamed(disk: Disk, history: History, dbNames: seq<string>, v: Verdict)
    requires Fills(disk, history, SortUnique(disk.complete + dbNames), v)
    ensures var names := SortUnique(disk.complete + dbNames);
            && (forall b :: FirstBlocker(disk, v) == Some(b) ==> Blocks(b, disk, history, names))
            && (forall b :: Blocks(b, disk, history, names) ==> FirstBlocker(disk, v).Some? && Place(FirstBlocker(disk, v).value) <= Place(b))
  {
    hide SortUnique, Sorted, Select, FirstOf, EntryOf;
    var names := SortUnique(disk.complete + dbNames);
    SortUniqueSorts(disk.complete + dbNames);
    SelectedFirst(names, IsPending, disk, history);
    SelectedFirst(names, IsFailed, disk, history);
    SelectedFirst(names, IsRolledBack, disk, history);
    SelectedFirst(names, IsMissing, disk, history);
    forall b | Blocks(b, disk, history, names)
      ensures FirstBlocker(disk, v).Some? && Place(FirstBlocker(disk, v).value) <= Place(b) {
    }
  }
}
