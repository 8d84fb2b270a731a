/**
 The Redis lock protocol, as any number of clients drive it over an unreliable connection: a
 command is sent, executed by the server at some later moment (or never), and its answer is
 delivered or abandoned. A handle is named by its random token, so tokens are unique.
 */
module ServiceLock {
  import opened Wrappers

  const TTL := 90000

  // ---- the server -------------------------------------------------------------------------------------

  datatype Entry = Entry(token: Id, expiresAt: int)

  type Store = map<Id, Entry>

  predicate Alive(store: Store, now: int, key: Id) {
    key in store && now < store[key].expiresAt
  }

  predicate Owns(store: Store, now: int, key: Id, token: Id) {
    Alive(store, now, key) && store[key].token == token
  }

  /** SET key token NX PX ttl. */
  function SetNx(store: Store, now: int, key: Id, token: Id, ttl: int): (Store, bool) {
    if Alive(store, now, key) then (store, false) else (store[key := Entry(token, now + ttl)], true)
  }

  /** Compare and pexpire. */
  function Renew(store: Store, now: int, key: Id, token: Id, ttl: int): (Store, bool) {
    if Owns(store, now, key, token) then (store[key := Entry(token, now + ttl)], true) else (store, false)
  }

  /** Compare and delete. */
  function Delete(store: Store, now: int, key: Id, token: Id): (Store, bool) {
    if Owns(store, now, key, token) then (store - {key}, true) else (store, false)
  }

  // ---- the clients --------------------------------------------------------------------------------------

  datatype Phase = Trying | Held | Contended | Unavailable

  /** `confirmed` is when the server last executed a SET or renewal whose success this client has seen. */
  datatype Handle = Handle(key: Id, ttl: int, phase: Phase, released: bool, lost: bool, confirmed: int)

  datatype Command = SetCommand | RenewCommand | DeleteCommand

  datatype Progress = Waiting | Executed(ok: bool, at: int)

  datatype Call = Call(token: Id, command: Command, progress: Progress, abandoned: bool)

  datatype World = World(now: int, store: Store, handles: map<Id, Handle>, calls: map<Id, Call>)

  datatype Event =
    | Tick(ms: nat)
    | Open(token: Id, key: Id, ttl: int)
    | SendSet(call: Id, token: Id)
    | GiveUp(token: Id)
    | SendRenew(call: Id, token: Id)
    | SendDelete(call: Id, token: Id)
    | Execute(call: Id)
    | Deliver(call: Id)
    | Abandon(call: Id)

  /** A handle whose attempt is still out waits for it. */
  predicate Attempting(calls: map<Id, Call>, token: Id) {
    exists c :: c in calls && calls[c].token == token && calls[c].command.SetCommand? && !calls[c].abandoned
  }

  function Sent(w: World, c: Id, token: Id, command: Command): World {
    w.(calls := w.calls[c := Call(token, command, Waiting, false)])
  }

  function ExecuteCall(w: World, c: Id): World
    requires c in w.calls && w.calls[c].token in w.handles
  {
    var x := w.calls[c];
    var h := w.handles[x.token];
    var (store, ok) :=
      match x.command
      case SetCommand => SetNx(w.store, w.now, h.key, x.token, h.ttl)
      case RenewCommand => Renew(w.store, w.now, h.key, x.token, h.ttl)
      case DeleteCommand => Delete(w.store, w.now, h.key, x.token);
    w.(store := store, calls := w.calls[c := x.(progress := Executed(ok, w.now))])
  }

  /** What a client makes of an answer. */
  function Answered(h: Handle, command: Command, ok: bool, at: int): Handle {
    match command
    case SetCommand => if ok then h.(phase := Held, confirmed := at) else h
    case RenewCommand =>
      if ok then h.(confirmed := if at > h.confirmed then at else h.confirmed)
      else if h.released then h else h.(lost := true)
    case DeleteCommand => h
  }

  function Step(w: World, e: Event): World {
    match e
    case Tick(ms) => w.(now := w.now + ms)
    case Open(token, key, ttl) =>
      if token in w.handles || ttl <= 0 then w
      else w.(handles := w.handles[token := Handle(key, ttl, Trying, false, false, 0)])
    case SendSet(c, token) =>
      if c in w.calls || token !in w.handles || !w.handles[token].phase.Trying? || Attempting(w.calls, token) then w
      else Sent(w, c, token, SetCommand)
    case GiveUp(token) =>
      if token !in w.handles || !w.handles[token].phase.Trying? || Attempting(w.calls, token) then w
      else w.(handles := w.handles[token := w.handles[token].(phase := Contended)])
    case SendRenew(c, token) =>
      if c in w.calls || token !in w.handles || !w.handles[token].phase.Held? || w.handles[token].released || w.handles[token].lost then w
      else Sent(w, c, token, RenewCommand)
    case SendDelete(c, token) =>
      if c in w.calls || token !in w.handles || !w.handles[token].phase.Held? || w.handles[token].released then w
      else Sent(w.(handles := w.handles[token := w.handles[token].(released := true)]), c, token, DeleteCommand)
    case Execute(c) =>
      if c !in w.calls || !w.calls[c].progress.Waiting? || w.calls[c].token !in w.handles then w else ExecuteCall(w, c)
    case Deliver(c) =>
      if c !in w.calls || w.calls[c].progress.Waiting? || w.calls[c].abandoned || w.calls[c].token !in w.handles then w
      else
        var x := w.calls[c];
        w.(calls := w.calls - {c},
           handles := w.handles[x.token := Answered(w.handles[x.token], x.command, x.progress.ok, x.progress.at)])
    case Abandon(c) =>
      if c !in w.calls || w.calls[c].abandoned || w.calls[c].token !in w.handles then w
      else
        var x := w.calls[c];
        var h := w.handles[x.token];
        w.(calls := w.calls[c := x.(abandoned := true)],
           handles := w.handles[x.token := if x.command.SetCommand? then h.(phase := Unavailable) else h])
  }

  function Run(w: World, es: seq<Event>): World
    decreases |es|
  {
    if es == [] then w else Step(Run(w, Front(es)), Last(es))
  }

  // ---- what every step keeps ------------------------------------------------------------------------------

  /** The server still guards a success of this handle at time `at`. */
  predicate Guarded(w: World, token: Id, at: int)
    requires token in w.handles
  {
    var h := w.handles[token];
    && at <= w.now
    && (w.now < at + h.ttl ==> Owns(w.store, w.now, h.key, token) && w.store[h.key].expiresAt >= at + h.ttl)
  }

  /** The handle's token has left the server. */
  predicate Gone(w: World, token: Id)
    requires token in w.handles
  {
    !Owns(w.store, w.now, w.handles[token].key, token)
  }

  predicate HandleOk(w: World, token: Id)
    requires token in w.handles
  {
    var h := w.handles[token];
    && h.ttl > 0
    && (h.phase.Held? && !h.released ==> Guarded(w, token, h.confirmed))
    && (h.lost ==> h.phase.Held? && Gone(w, token))
    && (h.released ==> h.phase.Held?)
  }

  predicate CallOk(w: World, c: Id)
    requires c in w.calls
  {
    var x := w.calls[c];
    && x.token in w.handles
    && var h := w.handles[x.token];
    && (x.command.SetCommand? ==> if x.abandoned then h.phase.Unavailable? else h.phase.Trying?)
    && (x.command.RenewCommand? ==> h.phase.Held?)
    && (x.command.DeleteCommand? ==> h.phase.Held? && h.released)
    && (x.progress.Executed? && x.progress.ok && !x.abandoned && !x.command.DeleteCommand? && !h.released ==>
          Guarded(w, x.token, x.progress.at))
    && (x.progress.Executed? && !x.progress.ok && x.command.RenewCommand? ==> Gone(w, x.token))
  }

  ghost predicate OneAttempt(calls: map<Id, Call>) {
    forall c, d ::
      c in calls && d in calls && calls[c].token == calls[d].token && calls[c].command.SetCommand? && calls[d].command.SetCommand? ==> c == d
  }

  ghost predicate Inv(w: World) {
    && (forall t :: t in w.handles ==> HandleOk(w, t))
    && (forall c :: c in w.calls ==> CallOk(w, c))
    && OneAttempt(w.calls)
  }

  /** A command of one token neither touches nor creates a live entry of another. */
  ghost predicate LeavesOthers(store: Store, store': Store, now: int, actor: Id) {
    forall k, t :: t != actor ==>
      (Owns(store, now, k, t) ==> k in store' && store'[k] == store[k]) && (!Owns(store, now, k, t) ==> !Owns(store', now, k, t))
  }

  lemma CommandsLeaveOthers(store: Store, now: int, key: Id, token: Id, ttl: int)
    ensures LeavesOthers(store, SetNx(store, now, key, token, ttl).0, now, token)
    ensures LeavesOthers(store, Renew(store, now, key, token, ttl).0, now, token)
    ensures LeavesOthers(store, Delete(store, now, key, token).0, now, token)
  {
  }

  lemma OthersStayGuarded(w: World, w': World, actor: Id, t: Id, at: int)
    requires t in w.handles && t in w'.handles && w'.handles[t].key == w.handles[t].key && w'.handles[t].ttl == w.handles[t].ttl
    requires t != actor && w'.now == w.now && LeavesOthers(w.store, w'.store, w.now, actor)
    ensures Guarded(w, t, at) ==> Guarded(w', t, at)
    ensures Gone(w, t) ==> Gone(w', t)
  {
    var h := w.handles[t];
    assert Owns(w.store, w.now, h.key, t) || !Owns(w.store, w.now, h.key, t);
  }

  /** What one execution does to its own handle's successes. */
  lemma OwnExecution(w: World, c: Id, at: int)
    requires c in w.calls && w.calls[c].token in w.handles && w.handles[w.calls[c].token].ttl > 0
    ensures var x, w' := w.calls[c], ExecuteCall(w, c);
            && (!x.command.DeleteCommand? && w'.calls[c].progress.ok ==> Guarded(w', x.token, w.now))
            && (!x.command.DeleteCommand? && Guarded(w, x.token, at) ==> Guarded(w', x.token, at))
            && (!x.command.SetCommand? && Gone(w, x.token) ==> Gone(w', x.token))
            && (x.command.RenewCommand? && !w'.calls[c].progress.ok ==> Gone(w', x.token))
  {
  }

  lemma ExecuteKeepsInv(w: World, c: Id)
    requires c in w.calls && w.calls[c].progress.Waiting? && w.calls[c].token in w.handles
    requires Inv(w)
    ensures Inv(ExecuteCall(w, c))
  {
    var x, w' := w.calls[c], ExecuteCall(w, c);
    var h := w.handles[x.token];
    CommandsLeaveOthers(w.store, w.now, h.key, x.token, h.ttl);
    assert LeavesOthers(w.store, w'.store, w.now, x.token);
    assert CallOk(w, c) && HandleOk(w, x.token);
    forall t | t in w'.handles ensures HandleOk(w', t) {
      assert HandleOk(w, t);
      hide ExecuteCall, LeavesOthers, Guarded, Gone;
      if t == x.token { OwnExecution(w, c, h.confirmed); } else { OthersStayGuarded(w, w', x.token, t, w.handles[t].confirmed); }
    }
    forall d | d in w'.calls ensures CallOk(w', d) {
      assert CallOk(w, d);
      var y := w.calls[d];
      var at := if y.progress.Executed? then y.progress.at else 0;
      hide LeavesOthers, Guarded, Gone;
      if y.token == x.token { OwnExecution(w, c, at); } else { OthersStayGuarded(w, w', x.token, y.token, at); }
    }
  }

  lemma TickKeepsInv(w: World, ms: nat)
    requires Inv(w)
    ensures Inv(w.(now := w.now + ms))
  {
    var w' := w.(now := w.now + ms);
    forall t | t in w'.handles ensures HandleOk(w', t) {
      assert HandleOk(w, t);
    }
    forall c | c in w'.calls ensures CallOk(w', c) {
      assert CallOk(w, c);
    }
  }

  /** Steps that leave the server alone and touch one handle and one call. */
  lemma ClientKeepsInv(w: World, w': World, token: Id)
    requires w'.now == w.now && w'.store == w.store && token in w'.handles
    requires w'.handles == w.handles[token := w'.handles[token]]
    requires token in w.handles ==> w'.handles[token].key == w.handles[token].key && w'.handles[token].ttl == w.handles[token].ttl
    requires HandleOk(w', token) && OneAttempt(w'.calls)
    requires forall c :: c in w'.calls ==>
               || (c in w.calls && w'.calls[c] == w.calls[c] && w.calls[c].token != token)
               || (w'.calls[c].token == token && CallOk(w', c))
    requires Inv(w)
    ensures Inv(w')
  {
    forall t | t in w'.handles ensures HandleOk(w', t) {
      if t != token { assert HandleOk(w, t); }
    }
    forall c | c in w'.calls ensures CallOk(w', c) {
      if w'.calls[c].token != token { assert CallOk(w, c); }
    }
  }

  lemma StepKeepsInv(w: World, e: Event)
    requires Inv(w)
    ensures Inv(Step(w, e))
  {
    hide Answered, ExecuteCall, Guarded, Gone;
    var w' := Step(w, e);
    if w' == w { return; }
    match e
    case Tick(ms) => hide Inv; TickKeepsInv(w, ms);
    case Execute(c) => hide Inv; ExecuteKeepsInv(w, c);
    case Open(token, key, ttl) => OpenKeepsInv(w, e);
    case SendSet(c, token) => SendKeepsInv(w, e);
    case GiveUp(token) => SendKeepsInv(w, e);
    case SendRenew(c, token) => SendKeepsInv(w, e);
    case SendDelete(c, token) => SendKeepsInv(w, e);
    case Deliver(c) => AnswerKeepsInv(w, e);
    case Abandon(c) => AnswerKeepsInv(w, e);
  }

  lemma OpenKeepsInv(w: World, e: Event)
    requires e.Open? && Step(w, e) != w
    requires Inv(w)
    ensures Inv(Step(w, e))
  {
    hide Guarded, Gone;
    forall c | c in w.calls ensures w.calls[c].token != e.token { assert CallOk(w, c); }
    ClientKeepsInv(w, Step(w, e), e.token);
  }

  lemma SendKeepsInv(w: World, e: Event)
    requires (e.SendSet? || e.GiveUp? || e.SendRenew? || e.SendDelete?) && Step(w, e) != w
    requires Inv(w)
    ensures Inv(Step(w, e))
  {
    var w' := Step(w, e);
    assert HandleOk(w, e.token);
    forall c | c in w.calls && w.calls[c].token == e.token ensures c in w'.calls && CallOk(w', c) {
      assert CallOk(w, c);
    }
    ClientKeepsInv(w, w', e.token);
  }

  lemma AnswerKeepsInv(w: World, e: Event)
    requires (e.Deliver? || e.Abandon?) && Step(w, e) != w
    requires Inv(w)
    ensures Inv(Step(w, e))
  {
    var w' := Step(w, e);
    var token := w.calls[e.call].token;
    assert HandleOk(w, token) && CallOk(w, e.call);
    forall c | c in w'.calls && w'.calls[c].token == token ensures CallOk(w', c) {
      assert CallOk(w, c);
    }
    ClientKeepsInv(w, w', token);
  }

  // ---- every run ---------------------------------------------------------------------------------------------

  /** No client has begun; the server may hold anything. */
  predicate Start(w: World) {
    w.handles == map[] && w.calls == map[]
  }

  lemma {:induction false} RunKeepsInv(w: World, es: seq<Event>)
    requires Start(w)
    ensures Inv(Run(w, es))
    decreases |es|
  {
    hide Inv, Step;
    if es == [] {
      EmptyInv(w);
    } else {
      RunKeepsInv(w, Front(es));
      StepKeepsInv(Run(w, Front(es)), Last(es));
    }
  }

  lemma EmptyInv(w: World)
    requires Start(w)
    ensures Inv(w)
  {
  }

  /** Held, not released, and last confirmed less than one TTL ago. */
  predicate Secure(w: World, token: Id) {
    && token in w.handles && w.handles[token].phase.Held? && !w.handles[token].released
    && w.now < w.handles[token].confirmed + w.handles[token].ttl
  }

  /** In every run, a secure handle is the server's owner, was never told it lost, and is alone on its key. */
  lemma MutualExclusion(w: World, es: seq<Event>, a: Id, b: Id)
    requires Start(w) && Secure(Run(w, es), a)
    ensures var w' := Run(w, es);
            && Owns(w'.store, w'.now, w'.handles[a].key, a) && !w'.handles[a].lost
            && (Secure(w', b) && w'.handles[b].key == w'.handles[a].key ==> a == b)
  {
    RunKeepsInv(w, es);
    hide Run;
    var w' := Run(w, es);
    assert HandleOk(w', a) && (b in w'.handles ==> HandleOk(w', b));
  }

  /** A live entry changes only when the server executes a command of its own token. */
  lemma OnlyOwnerTouches(w: World, e: Event, key: Id)
    requires Alive(w.store, w.now, key)
    requires e.Execute? && e.call in w.calls ==> w.calls[e.call].token != w.store[key].token
    ensures key in Step(w, e).store && Step(w, e).store[key] == w.store[key]
  {
    if e.Execute? && e.call in w.calls && w.calls[e.call].token in w.handles {
      var x := w.calls[e.call];
      var h := w.handles[x.token];
      CommandsLeaveOthers(w.store, w.now, h.key, x.token, h.ttl);
      assert Owns(w.store, w.now, key, w.store[key].token);
    }
  }

  /** The flag stays, and a handle that has it never owns its key again. */
  lemma StepKeepsLost(w: World, e: Event, token: Id)
    requires token in w.handles && w.handles[token].lost
    requires Inv(w)
    ensures token in Step(w, e).handles && Step(w, e).handles[token].lost && Step(w, e).handles[token].key == w.handles[token].key
  {
    hide Inv, ExecuteCall;
    if e.Execute? && Step(w, e) != w {
      ExecuteKeepsHandles(w, e.call);
    }
  }

  lemma ExecuteKeepsHandles(w: World, c: Id)
    requires c in w.calls && w.calls[c].token in w.handles
    ensures ExecuteCall(w, c).handles == w.handles
  {
  }

  lemma {:induction false} RunKeepsLost(w: World, es: seq<Event>, token: Id)
    requires Inv(w) && token in w.handles && w.handles[token].lost
    ensures Inv(Run(w, es)) && token in Run(w, es).handles && Run(w, es).handles[token].lost
    ensures Run(w, es).handles[token].key == w.handles[token].key
    decreases |es|
  {
    hide Inv, Step;
    if es != [] {
      RunKeepsLost(w, Front(es), token);
      StepKeepsInv(Run(w, Front(es)), Last(es));
      StepKeepsLost(Run(w, Front(es)), Last(es), token);
    }
  }

  /** Once a handle reads as lost it reads as lost ever after, and its token never holds the key again. */
  lemma LostForever(w: World, before: seq<Event>, after: seq<Event>, token: Id)
    requires Start(w) && token in Run(w, before).handles && Run(w, before).handles[token].lost
    ensures var w' := Run(Run(w, before), after);
            && token in w'.handles && w'.handles[token].lost && w'.handles[token].key == Run(w, before).handles[token].key
            && !Owns(w'.store, w'.now, w'.handles[token].key, token)
  {
    RunKeepsInv(w, before);
    RunKeepsLost(Run(w, before), after, token);
    hide Run;
    assert HandleOk(Run(Run(w, before), after), token);
  }

  // ---- what commands do and what answers tell ------------------------------------------------------------------

  /** A set needs a free key, a renewal and a deletion the token's own live entry; each success does its work, each failure nothing. */
  lemma CommandsDo(store: Store, now: int, key: Id, token: Id, ttl: int)
    ensures var mine := key in store && now < store[key].expiresAt && store[key].token == token;
            var free := key !in store || store[key].expiresAt <= now;
            && SetNx(store, now, key, token, ttl) == (if free then (store[key := Entry(token, now + ttl)], true) else (store, false))
            && Renew(store, now, key, token, ttl) == (if mine then (store[key := Entry(token, now + ttl)], true) else (store, false))
            && Delete(store, now, key, token) == (if mine then (store - {key}, true) else (store, false))
  {
  }

  /** This delivery brings the handle the answer that its renewal was refused. */
  predicate ToldRefused(w: World, e: Event, token: Id) {
    && e.Deliver? && e.call in w.calls && token in w.handles && !w.handles[token].released
    && w.calls[e.call].token == token && w.calls[e.call].command == RenewCommand && !w.calls[e.call].abandoned
    && w.calls[e.call].progress.Executed? && !w.calls[e.call].progress.ok
  }

  /** One step makes a handle read as lost exactly by telling it that its renewal was refused. */
  lemma StepLoses(w: World, e: Event, token: Id)
    requires token in w.handles
    ensures token in Step(w, e).handles
    ensures Step(w, e).handles[token].lost <==> w.handles[token].lost || ToldRefused(w, e, token)
  {
    hide ExecuteCall;
    if e.Execute? && e.call in w.calls && w.calls[e.call].token in w.handles {
      ExecuteKeepsHandles(w, e.call);
    }
  }

  /** In every run a handle reads as lost if and only if, at some point, a refused renewal was delivered to it unreleased. */
  lemma {:induction false} LostIffTold(w: World, es: seq<Event>, token: Id)
    requires Start(w) && token in Run(w, es).handles
    ensures Run(w, es).handles[token].lost <==> exists i :: 0 <= i < |es| && ToldRefused(Run(w, es[..i]), es[i], token)
    decreases |es|
  {
    hide Step, ToldRefused;
    if es != [] {
      var v, e := Run(w, Front(es)), Last(es);
      if token in v.handles {
        LostIffTold(w, Front(es), token);
        StepLoses(v, e, token);
      } else {
        NewHandle(v, e, token);
        BeforeItsHandle(w, Front(es), token);
      }
      assert forall i :: 0 <= i < |Front(es)| ==> Front(es)[..i] == es[..i] && Front(es)[i] == es[i];
      assert es[..|es| - 1] == Front(es);
    }
  }

  lemma NewHandle(w: World, e: Event, token: Id)
    requires token !in w.handles && token in Step(w, e).handles
    ensures !Step(w, e).handles[token].lost && !ToldRefused(w, e, token)
  {
    hide ExecuteCall;
    if e.Execute? && e.call in w.calls && w.calls[e.call].token in w.handles {
      ExecuteKeepsHandles(w, e.call);
    }
  }

  lemma {:induction false} BeforeItsHandle(w: World, es: seq<Event>, token: Id)
    requires token !in Run(w, es).handles
    ensures forall i :: 0 <= i < |es| ==> !ToldRefused(Run(w, es[..i]), es[i], token)
    decreases |es|
  {
    hide Step, ToldRefused;
    if es != [] {
      if token in Run(w, Front(es)).handles { HandlesStay(Run(w, Front(es)), Last(es), token); }
      BeforeItsHandle(w, Front(es), token);
      NobodyTold(Run(w, Front(es)), Last(es), token);
      assert forall i :: 0 <= i < |Front(es)| ==> Front(es)[..i] == es[..i] && Front(es)[i] == es[i];
      assert es[..|es| - 1] == Front(es);
    }
  }

  lemma HandlesStay(w: World, e: Event, token: Id)
    requires token in w.handles
    ensures token in Step(w, e).handles
  {
    hide ExecuteCall;
    if e.Execute? && e.call in w.calls && w.calls[e.call].token in w.handles {
      ExecuteKeepsHandles(w, e.call);
    }
  }

  lemma NobodyTold(w: World, e: Event, token: Id)
    requires token !in w.handles
    ensures !ToldRefused(w, e, token)
  {
  }

  /** What each delivered answer leaves in its handle: a set that won the key holds it, a renewal that worked moves the last confirmation on. */
  lemma AnswersTell(w: World, c: Id)
    requires c in w.calls && w.calls[c].progress.Executed? && !w.calls[c].abandoned && w.calls[c].token in w.handles
    ensures var x, w' := w.calls[c], Step(w, Deliver(c));
            && c !in w'.calls && x.token in w'.handles && w'.store == w.store
            && var h, h' := w.handles[x.token], w'.handles[x.token];
            && h'.key == h.key && h'.ttl == h.ttl && h'.released == h.released
            && (x.command.SetCommand? && x.progress.ok ==> h'.phase == Held && h'.confirmed == x.progress.at && h'.lost == h.lost)
            && (x.command.RenewCommand? && x.progress.ok ==>
                  h'.phase == h.phase && h'.lost == h.lost && h'.confirmed >= h.confirmed && h'.confirmed >= x.progress.at
                  && (h'.confirmed == h.confirmed || h'.confirmed == x.progress.at))
            && (x.command.RenewCommand? && !x.progress.ok ==> h' == h.(lost := h.lost || !h.released))
            && (x.command.SetCommand? && !x.progress.ok ==> h' == h)
            && (x.command.DeleteCommand? ==> h' == h)
  {
  }

  /** A handle leaves its attempt in three ways: it won the key, it gave up on a taken key, or its command got no answer. */
  lemma AttemptEnds(w: World, e: Event, token: Id)
    requires token in w.handles && token in Step(w, e).handles && w.handles[token].phase.Trying?
    ensures var phase := Step(w, e).handles[token].phase;
            && (phase.Held? <==> e.Deliver? && e.call in w.calls && w.calls[e.call].token == token && w.calls[e.call].command.SetCommand?
                                 && !w.calls[e.call].abandoned && w.calls[e.call].progress.Executed? && w.calls[e.call].progress.ok)
            && (phase.Contended? <==> e == GiveUp(token) && !Attempting(w.calls, token))
            && (phase.Unavailable? <==> e.Abandon? && e.call in w.calls && w.calls[e.call].token == token
                                        && w.calls[e.call].command.SetCommand? && !w.calls[e.call].abandoned)
  {
    hide ExecuteCall, Attempting;
    if e.Execute? && e.call in w.calls && w.calls[e.call].token in w.handles {
      ExecuteKeepsHandles(w, e.call);
    }
  }
}
