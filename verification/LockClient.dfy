/**
 The client side of the lock as the code runs it: the bounded acquisition loop, the heartbeat's
 handling of an answer, and the release, against a server that other clients use in between.
 */
module LockClient {
  import opened Wrappers
  import opened ServiceLock

  const RETRY_BASE_DELAY := 150
  const RETRY_JITTER := 100

  /** A command may settle without an answer, executed or not. */
  datatype Reply = Answer(ok: bool) | NoAnswer

  datatype Acquisition = Acquired | StillContended | BackendUnavailable

  class Server {
    var now: int
    var store: Store

    constructor (now: int, store: Store)
      ensures this.now == now && this.store == store
    {
      this.now, this.store := now, store;
    }

    /** At least `ms` milliseconds pass, and everybody else does as they like. */
    method Sleep(ms: nat)
      modifies this
      ensures now >= old(now) + ms
    {
      var slack: int :| slack >= 0;
      now := now + ms + slack;
      store := *;
    }

    /** Everybody else acts for a while: only an entry that has run out, or is not `token`'s, may change. */
    method Others(key: Id, token: Id)
      modifies this
      ensures now >= old(now)
      ensures Owns(old(store), now, key, token) ==> key in store && store[key] == old(store)[key]
    {
      var ms: int :| ms >= 0;
      now := now + ms;
      var later: Store := *;
      store := if Owns(store, now, key, token) then later[key := store[key]] else later;
    }

    /** The command reaches the server at some moment `at` of the call, when the store is `seen`; the answer takes time too. */
    method Set(key: Id, token: Id, ttl: int) returns (reply: Reply, ghost at: int, ghost seen: Store)
      modifies this
      ensures old(now) <= at <= now
      ensures reply.Answer? ==> reply.ok == SetNx(seen, at, key, token, ttl).1
      ensures reply == Answer(true) && now < at + ttl ==> key in store && store[key] == Entry(token, at + ttl)
    {
      Others(key, token);
      at, seen := now, store;
      var executed, answered := *, *;
      if executed || answered {
        var (s, ok) := SetNx(store, now, key, token, ttl);
        store := s;
        reply := if answered then Answer(ok) else NoAnswer;
      } else {
        reply := NoAnswer;
      }
      Others(key, token);
    }

    method CompareAndDelete(key: Id, token: Id) returns (reply: Reply)
      modifies this`store
      ensures reply.Answer? ==> (store, reply.ok) == Delete(old(store), now, key, token)
      ensures reply.NoAnswer? ==> store == old(store) || store == Delete(old(store), now, key, token).0
    {
      var executed, answered := *, *;
      if executed || answered {
        var (s, ok) := Delete(store, now, key, token);
        store := s;
        reply := if answered then Answer(ok) else NoAnswer;
      } else {
        reply := NoAnswer;
      }
    }
  }

  /**
   Acquires the key, or finds it taken until the deadline, or finds the server unusable. The number of
   attempts is bounded by the wait: one when there is none, and never two within the base delay but the last.
   The last command ran at `at`, on the store `seen`: a success holds a full term from then on, which may be
   partly over, or wholly, when the answer is in.
   */
  method AcquireServiceLock(server: Server, key: Id, token: Id, waitMs: int)
    returns (outcome: Acquisition, attempts: nat, ghost at: int, ghost seen: Store)
    modifies server
    ensures old(server.now) <= at <= server.now
    ensures outcome.Acquired? ==> !Alive(seen, at, key)
    ensures outcome.Acquired? && server.now < at + TTL ==>
              Owns(server.store, server.now, key, token) && server.store[key] == Entry(token, at + TTL)
    ensures outcome.StillContended? ==> server.now >= old(server.now) + waitMs && Alive(seen, at, key)
    ensures 1 <= attempts
    ensures if waitMs <= 0 then attempts == 1 else RETRY_BASE_DELAY * (attempts - 2) < waitMs
  {
    var start := server.now;
    var deadline := start + waitMs;
    attempts := 0;
    while true
      invariant server.now >= start
      invariant attempts > 0 ==> RETRY_BASE_DELAY * (attempts - 1) < waitMs
      invariant attempts > 0 ==> server.now >= deadline || server.now - start >= RETRY_BASE_DELAY * attempts
      decreases deadline - server.now, attempts == 0
    {
      attempts := attempts + 1;
      var reply;
      reply, at, seen := server.Set(key, token, TTL);
      if reply.NoAnswer? {
        outcome := BackendUnavailable;
        return;
      }
      if reply.ok {
        outcome := Acquired;
        return;
      }
      var remaining := deadline - server.now;
      if remaining <= 0 {
        outcome := StillContended;
        return;
      }
      var jitter: int :| 0 <= jitter < RETRY_JITTER;
      var delay := RETRY_BASE_DELAY + jitter;
      server.Sleep(if delay < remaining then delay else remaining);
    }
  }

  /** The mutable part of a held lock. */
  class HeldLock {
    const key: Id
    const token: Id
    const ttl: int
    var lost: bool
    var released: bool
    ghost var confirmed: int

    ghost function State(): Handle
      reads this
    {
      Handle(key, ttl, Held, released, lost, confirmed)
    }

    /** What SET answered at time `at`. */
    constructor (key: Id, token: Id, ttl: int, at: int)
      ensures State() == Answered(Handle(key, ttl, Trying, false, false, 0), SetCommand, true, at)
      ensures this.token == token
    {
      this.key, this.token, this.ttl := key, token, ttl;
      lost, released, confirmed := false, false, at;
    }

    /** The heartbeat's handling of a renewal executed at `at`; without an answer the next tick tries again. */
    method OnRenewal(reply: Reply, at: int)
      modifies this`lost, this`confirmed
      ensures State() == if reply.Answer? then Answered(old(State()), RenewCommand, reply.ok, at) else old(State())
      ensures lost == (old(lost) || (reply == Answer(false) && !old(released)))
      ensures confirmed == if reply == Answer(true) && at > old(confirmed) then at else old(confirmed)
    {
      if reply.Answer? {
        if !reply.ok && !released {
          lost := true;
        }
        if reply.ok && at > confirmed {
          confirmed := at;
        }
      }
    }

    /** Marks the lock released and deletes the key only if it is still this token's; a failure is left to the TTL. */
    method Release(server: Server)
      modifies this`released, server`store
      ensures State() == old(State()).(released := true)
      ensures LeavesOthers(old(server.store), server.store, server.now, token)
      ensures server.store == old(server.store) || !Owns(server.store, server.now, key, token)
    {
      released := true;
      ghost var before := server.store;
      var _ := server.CompareAndDelete(key, token);
      CommandsLeaveOthers(before, server.now, key, token, ttl);
    }
  }
}
