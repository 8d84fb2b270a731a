/**
 Setting up a log group: the statements of one job run, and the atomic switch-over to the new group.
 A job may be retried, crash, be deferred by a rate limit, or run beside another of the same attempt.
 */
module LogGroupSetup {
  import opened Wrappers

  const KEYS: seq<string> :=
    ["SYSTEM", "ERROR", "PAYMENT", "ORDER", "SERVICE", "PANEL", "SECURITY", "BACKUP", "SUPPORT", "BROADCAST", "AUDIT"]

  datatype Status = Validated | Queued | Provisioning | Testing | Activated | Failed | Cancelled

  type Bindings = map<string, int>

  /** `seeded` is how many bindings the attempt was created with. */
  datatype Attempt = Attempt(status: Status, slot: bool, chat: Id, title: string, bindings: Bindings, seeded: nat)

  datatype TopicRow = TopicRow(topic: int, chat: Id)

  /** What the settings say of the active group. */
  datatype Group = Group(chat: Id, title: string)

  const TITLE_LENGTH := 120

  function GroupOf(a: Attempt): Group {
    Group(a.chat, if |a.title| > TITLE_LENGTH then a.title[..TITLE_LENGTH] else a.title)
  }

  /** The settings name the attempt's chat, and its title's first 120 characters. */
  lemma GroupOfAttempt(a: Attempt)
    ensures GroupOf(a).chat == a.chat
    ensures |GroupOf(a).title| == (if |a.title| < 120 then |a.title| else 120) && GroupOf(a).title <= a.title
  {
  }

  /** The attempts, the active group's settings and the topic rows. */
  datatype Tables = Tables(attempts: map<Id, Attempt>, setting: Option<Group>, topics: map<string, TopicRow>)

  /** What Telegram answered to a topic creation. */
  datatype Create = Made(topic: int) | RateLimited | Refused(retryable: bool)

  predicate Running(s: Status) {
    s.Queued? || s.Provisioning? || s.Testing?
  }

  predicate Complete(b: Bindings) {
    forall i :: 0 <= i < |KEYS| ==> KEYS[i] in b
  }

  // ---- the transactions as functions ------------------------------------------------------------------

  /** An update of one attempt under a status filter; reports whether the row matched. */
  function Flip(t: Tables, a: Id, from: set<Status>, to: Status, slot: bool): (Tables, bool) {
    if a in t.attempts && t.attempts[a].status in from
    then (t.(attempts := t.attempts[a := t.attempts[a].(status := to, slot := slot)]), true)
    else (t, false)
  }

  function FailAttempt(t: Tables, a: Id): Tables {
    Flip(t, a, {Queued, Provisioning, Testing}, Failed, false).0
  }

  function Stored(t: Tables, a: Id, b: Bindings): Tables
    requires a in t.attempts
  {
    t.(attempts := t.attempts[a := t.attempts[a].(bindings := b)])
  }

  /** The topic rows once each of these keys that is bound points into the new group. */
  function Bound(keys: seq<string>, topics: map<string, TopicRow>, chat: Id, b: Bindings): map<string, TopicRow>
    decreases |keys|
  {
    if keys == [] then topics
    else
      var rest := Bound(Front(keys), topics, chat, b);
      if Last(keys) in b then rest[Last(keys) := TopicRow(b[Last(keys)], chat)] else rest
  }

  lemma {:induction false} BoundRows(keys: seq<string>, topics: map<string, TopicRow>, chat: Id, b: Bindings, k: string)
    ensures var rows := Bound(keys, topics, chat, b);
            if k in keys && k in b then k in rows && rows[k] == TopicRow(b[k], chat)
            else (k in rows <==> k in topics) && (k in topics ==> rows[k] == topics[k])
    decreases |keys|
  {
    if keys != [] {
      BoundRows(Front(keys), topics, chat, b, k);
      assert k in keys <==> k in Front(keys) || k == Last(keys) by { assert keys == Front(keys) + [Last(keys)]; }
    }
  }

  /** The switch-over: status, Setting and topic rows together, or nothing. */
  function Activate(t: Tables, a: Id, b: Bindings): (Tables, bool) {
    var (flipped, ok) := Flip(t, a, {Provisioning, Testing}, Activated, false);
    if !ok then (t, false)
    else (flipped.(setting := Some(GroupOf(t.attempts[a])), topics := Bound(KEYS, t.topics, t.attempts[a].chat, b)), true)
  }

  function SlotFree(t: Tables): bool {
    forall a :: a in t.attempts ==> !t.attempts[a].slot
  }

  /** Telegram made this topic when it was asked for the key. */
  predicate MadeFor(keys: seq<string>, answers: seq<Create>, key: string, topic: int) {
    exists i :: 0 <= i < |keys| && i < |answers| && keys[i] == key && answers[i] == Made(topic)
  }

  // ---- the transactions as the code runs them ------------------------------------------------------------

  class SetupDatabase {
    var attempts: map<Id, Attempt>
    var setting: Option<Group>
    var topics: map<string, TopicRow>

    function Snapshot(): Tables
      reads this
    {
      Tables(attempts, setting, topics)
    }

    method UpdateStatus(a: Id, from: set<Status>, to: Status, slot: bool) returns (matched: bool)
      modifies this`attempts
      ensures (Snapshot(), matched) == Flip(old(Snapshot()), a, from, to, slot)
    {
      matched := a in attempts && attempts[a].status in from;
      if matched {
        attempts := attempts[a := attempts[a].(status := to, slot := slot)];
      }
    }

    method BindTopics(keys: seq<string>, chat: Id, bindings: Bindings)
      modifies this`topics
      ensures topics == Bound(keys, old(topics), chat, bindings)
    {
      for i := 0 to |keys|
        invariant topics == Bound(keys[..i], old(topics), chat, bindings)
      {
        assert Front(keys[..i + 1]) == keys[..i];
        if keys[i] in bindings {
          topics := topics[keys[i] := TopicRow(bindings[keys[i]], chat)];
        }
      }
      assert keys[..|keys|] == keys;
    }

    /** Claims the attempt first; then the Setting, then every bound topic row. */
    method ActivateStagedGroup(a: Id, bindings: Bindings) returns (activated: bool)
      modifies this
      ensures (Snapshot(), activated) == Activate(old(Snapshot()), a, bindings)
    {
      hide KEYS;
      activated := UpdateStatus(a, {Provisioning, Testing}, Activated, false);
      if activated {
        setting := Some(GroupOf(attempts[a]));
        BindTopics(KEYS, attempts[a].chat, bindings);
      }
    }

    /** Writes one new binding; the row's other columns stay. */
    method PersistTopic(a: Id, bindings: Bindings)
      requires a in attempts
      modifies this`attempts
      ensures Snapshot() == Stored(old(Snapshot()), a, bindings)
    {
      attempts := attempts[a := attempts[a].(bindings := bindings)];
    }

    /**
     Creates every missing topic in order, writing each binding before the next creation; stops at the first
     refusal. What was bound stays bound, and exactly the new bindings were created.
     */
    method ProvisionStagedTopics(a: Id, keys: seq<string>, answers: seq<Create>)
      returns (refusal: Option<Create>, bindings: Bindings, created: nat)
      requires a in attempts && |answers| == |keys|
      modifies this`attempts
      ensures Snapshot() == Stored(old(Snapshot()), a, bindings)
      ensures forall k :: k in old(attempts[a].bindings) ==> k in bindings && bindings[k] == old(attempts[a].bindings[k])
      ensures created == |bindings| - |old(attempts[a].bindings)|
      ensures forall k :: k in bindings && k !in old(attempts[a].bindings) ==> MadeFor(keys, answers, k, bindings[k])
      ensures refusal.None? ==> forall i :: 0 <= i < |keys| ==> keys[i] in bindings
      ensures refusal.Some? ==> !refusal.value.Made? && exists i :: 0 <= i < |keys| && answers[i] == refusal.value && keys[i] !in bindings
    {
      bindings := attempts[a].bindings;
      created := 0;
      for i := 0 to |keys|
        invariant Snapshot() == Stored(old(Snapshot()), a, bindings)
        invariant forall k :: k in old(attempts[a].bindings) ==> k in bindings && bindings[k] == old(attempts[a].bindings[k])
        invariant created == |bindings| - |old(attempts[a].bindings)|
        invariant forall k :: k in bindings && k !in old(attempts[a].bindings) ==> MadeFor(keys, answers, k, bindings[k])
        invariant forall j :: 0 <= j < i ==> keys[j] in bindings
      {
        if keys[i] !in bindings {
          if !answers[i].Made? {
            return Some(answers[i]), bindings, created;
          }
          bindings := bindings[keys[i] := answers[i].topic];
          PersistTopic(a, bindings);
          created := created + 1;
        }
      }
      refusal := None;
    }
  }
}
