/**
 * The heartbeat side of the sandbox manager (`HeartbeatMixin`): the
 * last-activity timestamp and the restore-required marker of each session,
 * and the reaping lock, a set-if-absent / compare-and-delete on one Redis key
 * per session. Timestamps are integer seconds; the lock's expiry is not
 * modelled.
 */
module Heartbeat {
  import opened Wrappers
  import opened Strings

  const LockPrefix: string := "heartbeat_lock:"

  /** The token handed out when the lock is not backed by Redis. */
  const InMemoryToken: string := "inmemory"

  /** `_heartbeat_lock_key`: the Redis key of a session's reaping lock. */
  function LockKey(ctx: string): (k: string)
    ensures StartsWith(k, LockPrefix) && k[|LockPrefix|..] == ctx
  {
    LockPrefix + ctx
  }

  /** Distinct sessions never share a lock key. */
  lemma LockKeyInjective(a: string, b: string)
    ensures LockKey(a) == LockKey(b) ==> a == b
  {
    if LockKey(a) == LockKey(b) {
      assert a == LockKey(a)[|LockPrefix|..];
    }
  }

  /** `SET key token NX`: the new lock table, and whether the key was free. */
  function AcquireSpec(locks: map<string, string>, key: string, token: string): (map<string, string>, bool)
  {
    if key in locks then (locks, false) else (locks[key := token], true)
  }

  /**
   * The release script: delete the key only when it holds this token; the
   * result says whether a key was deleted.
   */
  function ReleaseSpec(locks: map<string, string>, key: string, token: string): (map<string, string>, bool)
  {
    if key in locks && locks[key] == token then (locks - {key}, true) else (locks, false)
  }

  /**
   * A lock has a single holder: once taken with `t1` a second acquire fails,
   * a release with another token leaves it held, and a release with `t1`
   * frees it and restores the table as it was.
   */
  lemma LockSingleHolder(locks: map<string, string>, key: string, t1: string, t2: string, t3: string)
    requires key !in locks
    ensures AcquireSpec(locks, key, t1).1
    ensures !AcquireSpec(AcquireSpec(locks, key, t1).0, key, t2).1
    ensures t3 != t1 ==> ReleaseSpec(AcquireSpec(locks, key, t1).0, key, t3) == (AcquireSpec(locks, key, t1).0, false)
    ensures ReleaseSpec(AcquireSpec(locks, key, t1).0, key, t1) == (locks, true)
  {
    assert locks[key := t1] - {key} == locks;
  }

  /** How the Redis call of a lock release turns out. */
  datatype ReleaseFault =
    | NoFault              // the script runs
    | EvalUnsupported      // "unknown command ... eval": get, compare and delete instead
    | OtherResponseError   // any other Redis response error, which is re-raised
    | OtherError           // any other exception, reported as a failed release

  class HeartbeatStore {
    /** `heartbeat_mapping`: session id to last-activity time. */
    var heartbeat: map<string, int>
    /** `recycled_mapping`: session id to the time it was marked recycled. */
    var recycled: map<string, int>
    /** The Redis keys of the held reaping locks, with their tokens. */
    var locks: map<string, string>
    /** `redis_enabled` is set and a Redis client exists. */
    const redisLock: bool

    constructor (redisLock: bool)
      ensures this.redisLock == redisLock
      ensures heartbeat == map[] && recycled == map[] && locks == map[]
    {
      this.redisLock := redisLock;
      heartbeat := map[];
      recycled := map[];
      locks := map[];
    }

    /** `get_heartbeat`: nothing for an empty id or an absent entry. */
    function GetHeartbeat(ctx: string): Option<int>
      reads this
    {
      if ctx != "" && ctx in heartbeat then Some(heartbeat[ctx]) else None
    }

    /** `needs_restore`: a recycled marker exists for a non-empty id. */
    predicate NeedsRestore(ctx: string)
      reads this
    {
      ctx != "" && ctx in recycled
    }

    /**
     * `update_heartbeat`: an empty id is rejected; otherwise the given time
     * (or now) is stored, returned, and read back by `GetHeartbeat`.
     */
    method UpdateHeartbeat(ctx: string, ts: Option<int>, now: int) returns (r: Result<int>)
      modifies this`heartbeat
      ensures ctx == "" ==> r.Err? && heartbeat == old(heartbeat)
      ensures ctx != "" ==> r == Ok(ts.GetOr(now)) && heartbeat == old(heartbeat)[ctx := ts.GetOr(now)]
      ensures ctx != "" ==> GetHeartbeat(ctx) == Some(ts.GetOr(now))
    {
      if ctx == "" {
        return Err("ValueError", "session_ctx_id is required");
      }
      var t := ts.GetOr(now);
      heartbeat := heartbeat[ctx := t];
      return Ok(t);
    }

    /** `delete_heartbeat`: afterwards there is no heartbeat for the id. */
    method DeleteHeartbeat(ctx: string)
      modifies this`heartbeat
      ensures heartbeat == if ctx == "" then old(heartbeat) else old(heartbeat) - {ctx}
      ensures GetHeartbeat(ctx) == None
    {
      if ctx != "" {
        heartbeat := heartbeat - {ctx};
      }
    }

    /** `mark_session_recycled`: afterwards the session needs a restore. */
    method MarkSessionRecycled(ctx: string, ts: Option<int>, now: int) returns (r: Result<int>)
      modifies this`recycled
      ensures ctx == "" ==> r.Err? && recycled == old(recycled)
      ensures ctx != "" ==> r == Ok(ts.GetOr(now)) && recycled == old(recycled)[ctx := ts.GetOr(now)]
      ensures ctx != "" ==> NeedsRestore(ctx)
    {
      if ctx == "" {
        return Err("ValueError", "session_ctx_id is required");
      }
      var t := ts.GetOr(now);
      recycled := recycled[ctx := t];
      return Ok(t);
    }

    /** `clear_session_recycled`: afterwards the session needs no restore. */
    method ClearSessionRecycled(ctx: string)
      modifies this`recycled
      ensures recycled == if ctx == "" then old(recycled) else old(recycled) - {ctx}
      ensures !NeedsRestore(ctx)
    {
      if ctx != "" {
        recycled := recycled - {ctx};
      }
    }

    /**
     * The mixin's own `restore_session`, a stub that only logs: the marker
     * is kept, so the session still needs a restore afterwards. The sandbox
     * manager overrides it (`SandboxManager.Manager.RestoreSession`).
     */
    method RestoreSessionStub(ctx: string)
      ensures NeedsRestore(ctx) == old(NeedsRestore(ctx))
      ensures recycled == old(recycled) && heartbeat == old(heartbeat) && locks == old(locks)
    {
    }

    /**
     * `acquire_heartbeat_lock`: without Redis always "inmemory"; with Redis
     * the fresh token when the key was free, and nothing otherwise.
     */
    method AcquireHeartbeatLock(ctx: string, freshToken: string) returns (token: Option<string>)
      modifies this`locks
      ensures !redisLock ==> token == Some(InMemoryToken) && locks == old(locks)
      ensures redisLock ==> (locks, token.Some?) == AcquireSpec(old(locks), LockKey(ctx), freshToken)
      ensures redisLock && token.Some? ==> token.value == freshToken
    {
      if !redisLock {
        return Some(InMemoryToken);
      }
      var key := LockKey(ctx);
      if key in locks {
        return None;
      }
      locks := locks[key := freshToken];
      return Some(freshToken);
    }

    /**
     * `release_heartbeat_lock`: without Redis always true. With Redis the
     * release script (or its get-compare-delete fallback) decides; another
     * Redis response error is re-raised, any other failure reports false.
     */
    method ReleaseHeartbeatLock(ctx: string, token: string, fault: ReleaseFault) returns (r: Result<bool>)
      modifies this`locks
      ensures !redisLock ==> r == Ok(true) && locks == old(locks)
      ensures redisLock && (fault.NoFault? || fault.EvalUnsupported?) ==>
        r.Ok? && (locks, r.value) == ReleaseSpec(old(locks), LockKey(ctx), token)
      ensures redisLock && fault.OtherResponseError? ==> r.Err? && locks == old(locks)
      ensures redisLock && fault.OtherError? ==> r == Ok(false) && locks == old(locks)
    {
      if !redisLock {
        return Ok(true);
      }
      var key := LockKey(ctx);
      match fault
      case OtherResponseError =>
        return Err("ResponseError", "Failed to release heartbeat lock " + key);
      case OtherError =>
        return Ok(false);
      case _ =>
        if key in locks && locks[key] == token {
          locks := locks - {key};
          return Ok(true);
        }
        return Ok(false);
    }
  }
}
