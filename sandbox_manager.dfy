/**
 * The container bookkeeping of `SandboxManager`: `container_mapping` (name to
 * record), `session_mapping` (session id to the names of its containers) and
 * the warm pool queues (sandbox type to queued records), together with the
 * heartbeat store. The container engine, storage uploads, random ids and
 * the clock are parameters ("oracles") of the operations.
 */
module SandboxManager {
  import opened Wrappers
  import opened Strings
  import opened Container
  import opened Heartbeat

  type Records = map<string, ContainerRecord>
  type Sessions = map<string, seq<string>>
  type Pools = map<string, seq<ContainerRecord>>

  /** `_generate_container_key`: the mapping key made from a session id. */
  function ContainerKey(prefix: string, sessionId: string): (k: string)
    ensures StartsWith(k, prefix) && k[|prefix|..] == sessionId
  {
    prefix + sessionId
  }

  /** Different session ids give different keys. */
  lemma ContainerKeyInjective(prefix: string, a: string, b: string)
    ensures ContainerKey(prefix, a) == ContainerKey(prefix, b) ==> a == b
  {
    if ContainerKey(prefix, a) == ContainerKey(prefix, b) {
      assert a == ContainerKey(prefix, a)[|prefix|..];
    }
  }

  /** The lookup of `get_info`: the identity itself, then prefix + identity. */
  function Find(containers: Records, prefix: string, identity: string): Option<ContainerRecord>
  {
    if identity in containers then Some(containers[identity])
    else if ContainerKey(prefix, identity) in containers then Some(containers[ContainerKey(prefix, identity)])
    else None
  }

  /** `get_session_mapping`: the names bound to a session, or none. */
  function SessionList(sessions: Sessions, ctx: string): seq<string>
  {
    if ctx in sessions then sessions[ctx] else []
  }

  /** `meta.get("session_ctx_id")` when it is truthy, as `create` reads it. */
  function MetaSession(meta: Option<Meta>): (r: Option<string>)
    ensures r.Some? ==> Truthy(r) && meta.Some? && SessionKey in meta.value && meta.value[SessionKey] == r.value
    ensures r.None? ==> meta.None? || SessionKey !in meta.value || meta.value[SessionKey] == ""
  {
    if meta.Some? && SessionKey in meta.value && meta.value[SessionKey] != "" then Some(meta.value[SessionKey]) else None
  }

  /** The list comprehension `[eid for eid in ids if eid != name]`. */
  function RemoveName(ids: seq<string>, name: string): (r: seq<string>)
    ensures |r| <= |ids|
    ensures forall x :: x in r <==> x in ids && x != name
    ensures name !in ids ==> r == ids
  {
    if ids == [] then []
    else if ids[0] == name then RemoveName(ids[1..], name)
    else [ids[0]] + RemoveName(ids[1..], name)
  }

  /** Appending a name to a session list unless it is already there. */
  function AppendOnce(ids: seq<string>, name: string): (r: seq<string>)
    ensures name in r && ids <= r && |r| <= |ids| + 1
    ensures forall x :: x in r <==> x in ids || x == name
    ensures name in ids ==> r == ids
  {
    if name in ids then ids else ids + [name]
  }

  /**
   * The edit `release` makes to `session_mapping`: the container leaves the
   * list of its session, and a list that becomes empty is deleted. Nothing
   * happens without a session, and other sessions are untouched.
   */
  function DetachFromSession(sessions: Sessions, ctx: Option<string>, name: string): (r: Sessions)
    ensures !Truthy(ctx) ==> r == sessions
    ensures forall c :: (!Truthy(ctx) || c != ctx.value) ==> (c in r <==> c in sessions) && (c in r ==> r[c] == sessions[c])
    ensures Truthy(ctx) ==> (ctx.value in r <==> RemoveName(SessionList(sessions, ctx.value), name) != [])
    ensures Truthy(ctx) && ctx.value in r ==> r[ctx.value] == RemoveName(SessionList(sessions, ctx.value), name) && name !in r[ctx.value]
    ensures forall c, n :: c in r && n in r[c] ==> c in sessions && n in sessions[c]
  {
    if !Truthy(ctx) then sessions
    else
      var ids := RemoveName(SessionList(sessions, ctx.value), name);
      if ids != [] then sessions[ctx.value := ids] else sessions - {ctx.value}
  }

  /** `meta` with its session id removed (`meta.pop("session_ctx_id")`). */
  function Unbind(m: Meta): (r: Meta)
    ensures SessionKey !in r
    ensures forall k :: k != SessionKey ==> (k in r <==> k in m) && (k in r ==> r[k] == m[k])
  {
    m - {SessionKey}
  }

  /**
   * The record `release` writes back: RELEASED at `now`, no recycle fields,
   * and no session in either the field or `meta`; every other field is kept.
   */
  function ReleasedRecord(c: ContainerRecord, now: int): (r: ContainerRecord)
    ensures r.state == Released && r.releasedAt == Some(now) && r.updatedAt == Some(now)
    ensures r.recycledAt == None && r.recycleReason == None
    ensures r.sessionCtxId == None && r.meta.Some? && r.MetaCtx() == None
    ensures forall k :: k != SessionKey ==>
      ((k in r.meta.value <==> k in c.MetaOrEmpty()) && (k in r.meta.value ==> r.meta.value[k] == c.MetaOrEmpty()[k]))
    ensures r.(state := c.state, releasedAt := c.releasedAt, updatedAt := c.updatedAt, recycledAt := c.recycledAt,
               recycleReason := c.recycleReason, sessionCtxId := c.sessionCtxId, meta := c.meta) == c
    ensures Validated(c) ==> Validated(r)
  {
    c.(state := Released, releasedAt := Some(now), updatedAt := Some(now), recycledAt := None,
       recycleReason := None, sessionCtxId := None, meta := Some(Unbind(c.MetaOrEmpty())))
  }

  /**
   * The record `reap_session` writes back: RECYCLED at `now` for `reason`,
   * still bound to the session in both the field and `meta`.
   */
  function RecycledRecord(c: ContainerRecord, ctx: string, reason: string, now: int): (r: ContainerRecord)
    ensures r.state == Recycled && r.recycledAt == Some(now) && r.recycleReason == Some(reason)
    ensures r.updatedAt == Some(now) && r.sessionCtxId == Some(ctx) && r.MetaCtx() == Some(ctx)
    ensures forall k :: k != SessionKey ==>
      ((k in r.meta.value <==> k in c.MetaOrEmpty()) && (k in r.meta.value ==> r.meta.value[k] == c.MetaOrEmpty()[k]))
    ensures r.(state := c.state, recycledAt := c.recycledAt, recycleReason := c.recycleReason, updatedAt := c.updatedAt,
               sessionCtxId := c.sessionCtxId, meta := c.meta) == c
    ensures Validated(c) ==> Validated(r)
  {
    c.(state := Recycled, recycledAt := Some(now), recycleReason := Some(reason), updatedAt := Some(now),
       sessionCtxId := Some(ctx), meta := Some(c.MetaOrEmpty()[SessionKey := ctx]))
  }

  /** Recycling a record twice for the same session is recycling it once. */
  lemma RecycledTwice(c: ContainerRecord, ctx: string, reason: string, now: int)
    ensures RecycledRecord(RecycledRecord(c, ctx, reason, now), ctx, reason, now) == RecycledRecord(c, ctx, reason, now)
  {
    var m := c.MetaOrEmpty()[SessionKey := ctx];
    assert m[SessionKey := ctx] == m;
  }

  // ---------------------------------------------------------------------
  // Invariants of the three mappings
  // ---------------------------------------------------------------------

  /** Every record is stored under its own name and is validated. */
  ghost predicate RecordsValid(containers: Records)
  {
    forall k :: k in containers ==> containers[k].containerName == k && Validated(containers[k])
  }

  /** Every queued record is validated. */
  ghost predicate PoolsValid(pools: Pools)
  {
    forall t, i :: t in pools && 0 <= i < |pools[t]| ==> Validated(pools[t][i])
  }

  /** No container name is queued twice, in one queue or across queues. */
  ghost predicate PoolsDistinct(pools: Pools)
  {
    forall t1, i1, t2, i2 ::
      (t1 in pools && t2 in pools && 0 <= i1 < |pools[t1]| && 0 <= i2 < |pools[t2]| &&
       pools[t1][i1].containerName == pools[t2][i2].containerName) ==> t1 == t2 && i1 == i2
  }

  /** The names of all queued containers. */
  ghost function Queued(pools: Pools): set<string>
  {
    set t, i | t in pools && 0 <= i < |pools[t]| :: pools[t][i].containerName
  }

  /** A queued container is not bound to any session. */
  ghost predicate PoolsUnbound(pools: Pools, containers: Records)
  {
    forall q :: q in Queued(pools) && q in containers ==> !Truthy(containers[q].sessionCtxId)
  }

  /** Every listed name has a record, bound to the (non-empty) session listing it. */
  ghost predicate SessionsBound(sessions: Sessions, containers: Records)
  {
    forall c :: c in sessions ==>
      c != "" && forall n :: n in sessions[c] ==> n in containers && containers[n].sessionCtxId == Some(c)
  }

  /** A RELEASED record is bound to no session. */
  ghost predicate ReleasedUnbound(containers: Records)
  {
    forall k :: k in containers && containers[k].state == Released ==> containers[k].sessionCtxId == None
  }

  /** No record is stored under prefix + a queued name. */
  ghost predicate PrefixClear(prefix: string, containers: Records, pools: Pools)
  {
    forall q :: q in Queued(pools) ==> ContainerKey(prefix, q) !in containers
  }

  /** No queued name is prefix + another queued name. */
  ghost predicate QueuedUnprefixed(prefix: string, pools: Pools)
  {
    forall q1, q2 :: q1 in Queued(pools) && q2 in Queued(pools) ==> q1 != ContainerKey(prefix, q2)
  }

  /** The invariants of the three mappings together, for the key prefix `prefix`. */
  ghost predicate Consistent(prefix: string, containers: Records, sessions: Sessions, pools: Pools)
  {
    && RecordsValid(containers)
    && PoolsValid(pools)
    && PoolsDistinct(pools)
    && PoolsUnbound(pools, containers)
    && SessionsBound(sessions, containers)
    && ReleasedUnbound(containers)
    && PrefixClear(prefix, containers, pools)
    && QueuedUnprefixed(prefix, pools)
    && prefix != "" && "" !in Queued(pools)
  }

  /**
   * A random session id `create` may draw, given the stored names and the
   * queued names: the container name it yields, and prefix + that name,
   * are neither stored nor queued, and the id itself is not queued.
   */
  ghost predicate FreshIn(prefix: string, sid: string, keys: set<string>, queued: set<string>)
  {
    && ContainerKey(prefix, sid) !in keys && ContainerKey(prefix, ContainerKey(prefix, sid)) !in keys
    && ContainerKey(prefix, sid) !in queued && ContainerKey(prefix, ContainerKey(prefix, sid)) !in queued
    && sid !in queued
  }

  /** Ids drawn for a batch of creations: no two equal or related by the prefix. */
  ghost predicate Unrelated(prefix: string, sids: seq<string>)
  {
    forall i, j :: 0 <= i < |sids| && 0 <= j < |sids| && i != j ==>
      sids[i] != sids[j] && sids[j] != ContainerKey(prefix, sids[i])
  }

  /** The random session ids of a batch of allocations. */
  function SessionIds(allocs: seq<Alloc>): (r: seq<string>)
    ensures |r| == |allocs| && forall i :: 0 <= i < |allocs| ==> r[i] == allocs[i].sessionId
  {
    seq(|allocs|, i requires 0 <= i < |allocs| => allocs[i].sessionId)
  }

  /**
   * An id stays fresh while another id of its batch is used: the stored
   * names grow by at most that id's container name and queued ones, and
   * the queue by at most that name.
   */
  lemma FreshKept(prefix: string, s: string, s': string, keys: set<string>, queued: set<string>,
                  keys': set<string>, queued': set<string>)
    requires FreshIn(prefix, s, keys, queued)
    requires s != s' && s != ContainerKey(prefix, s') && s' != ContainerKey(prefix, s)
    requires keys' <= keys + queued + {ContainerKey(prefix, s')}
    requires queued' <= queued + {ContainerKey(prefix, s')}
    ensures FreshIn(prefix, s, keys', queued')
  {
    ContainerKeyInjective(prefix, s, s');
    ContainerKeyInjective(prefix, ContainerKey(prefix, s), s');
  }

  /** The ids after the i-th stay fresh while the i-th is used. */
  lemma FreshRest(prefix: string, allocs: seq<Alloc>, i: int, keys: set<string>, queued: set<string>,
                  keys': set<string>, queued': set<string>)
    requires Unrelated(prefix, SessionIds(allocs)) && 0 <= i < |allocs|
    requires forall j :: i <= j < |allocs| ==> FreshIn(prefix, allocs[j].sessionId, keys, queued)
    requires keys' <= keys + queued + {ContainerKey(prefix, allocs[i].sessionId)}
    requires queued' <= queued + {ContainerKey(prefix, allocs[i].sessionId)}
    ensures forall j :: i < j < |allocs| ==> FreshIn(prefix, allocs[j].sessionId, keys', queued')
  {
    forall j | i < j < |allocs| ensures FreshIn(prefix, allocs[j].sessionId, keys', queued') {
      assert SessionIds(allocs)[i] == allocs[i].sessionId && SessionIds(allocs)[j] == allocs[j].sessionId;
      FreshKept(prefix, allocs[j].sessionId, allocs[i].sessionId, keys, queued, keys', queued');
    }
  }

  lemma QueuedAt(pools: Pools, t: string, i: int)
    requires t in pools && 0 <= i < |pools[t]|
    ensures pools[t][i].containerName in Queued(pools)
  {
  }

  /** Dequeuing the head of one queue unqueues exactly its name. */
  lemma Dequeue(pools: Pools, t: string)
    requires t in pools && |pools[t]| > 0 && PoolsDistinct(pools) && PoolsValid(pools)
    ensures var p := pools[t := pools[t][1..]];
      PoolsDistinct(p) && PoolsValid(p) && Queued(p) == Queued(pools) - {pools[t][0].containerName}
  {
    var p: Pools := pools[t := pools[t][1..]];
    var h := pools[t][0].containerName;
    forall t1, i1, t2, i2 |
      t1 in p && t2 in p && 0 <= i1 < |p[t1]| && 0 <= i2 < |p[t2]| && p[t1][i1].containerName == p[t2][i2].containerName
      ensures t1 == t2 && i1 == i2
    {
      var j1 := if t1 == t then i1 + 1 else i1;
      var j2 := if t2 == t then i2 + 1 else i2;
      assert p[t1][i1] == pools[t1][j1] && p[t2][i2] == pools[t2][j2];
    }
    forall t1, i1 | t1 in p && 0 <= i1 < |p[t1]| ensures Validated(p[t1][i1]) {
      var j1 := if t1 == t then i1 + 1 else i1;
      assert p[t1][i1] == pools[t1][j1];
    }
    forall q | q in Queued(p) ensures q in Queued(pools) - {h} {
      var t1, i1 :| t1 in p && 0 <= i1 < |p[t1]| && p[t1][i1].containerName == q;
      var j1 := if t1 == t then i1 + 1 else i1;
      assert p[t1][i1] == pools[t1][j1];
      QueuedAt(pools, t1, j1);
      assert !(t1 == t && j1 == 0);
    }
    forall q | q in Queued(pools) - {h} ensures q in Queued(p) {
      var t1, i1 :| t1 in pools && 0 <= i1 < |pools[t1]| && pools[t1][i1].containerName == q;
      if t1 == t {
        assert i1 != 0;
        assert p[t][i1 - 1] == pools[t][i1];
        QueuedAt(p, t, i1 - 1);
      } else {
        QueuedAt(p, t1, i1);
      }
    }
  }

  /** Enqueuing a record with an unqueued name queues exactly that name. */
  lemma Enqueue(pools: Pools, t: string, rec: ContainerRecord)
    requires t in pools && PoolsDistinct(pools) && PoolsValid(pools)
    requires rec.containerName !in Queued(pools) && Validated(rec)
    ensures var p := pools[t := pools[t] + [rec]];
      PoolsDistinct(p) && PoolsValid(p) && Queued(p) == Queued(pools) + {rec.containerName}
  {
    var p: Pools := pools[t := pools[t] + [rec]];
    forall t1, i1 | t1 in p && 0 <= i1 < |p[t1]| && !(t1 == t && i1 == |pools[t]|)
      ensures p[t1][i1] == pools[t1][i1]
    {
    }
    forall t1, i1, t2, i2 |
      t1 in p && t2 in p && 0 <= i1 < |p[t1]| && 0 <= i2 < |p[t2]| && p[t1][i1].containerName == p[t2][i2].containerName
      ensures t1 == t2 && i1 == i2
    {
      if t1 == t && i1 == |pools[t]| {
        if !(t2 == t && i2 == |pools[t]|) {
          QueuedAt(pools, t2, i2);
        }
      } else if t2 == t && i2 == |pools[t]| {
        QueuedAt(pools, t1, i1);
      }
    }
    forall q | q in Queued(p) ensures q in Queued(pools) + {rec.containerName} {
      var t1, i1 :| t1 in p && 0 <= i1 < |p[t1]| && p[t1][i1].containerName == q;
      if !(t1 == t && i1 == |pools[t]|) {
        QueuedAt(pools, t1, i1);
      }
    }
    forall q | q in Queued(pools) + {rec.containerName} ensures q in Queued(p) {
      if q == rec.containerName {
        QueuedAt(p, t, |pools[t]|);
      } else {
        var t1, i1 :| t1 in pools && 0 <= i1 < |pools[t1]| && pools[t1][i1].containerName == q;
        QueuedAt(p, t1, i1);
      }
    }
  }

  /** Releasing a stored record keeps every listed name bound to its session. */
  lemma ReleaseKeepsBound(sessions: Sessions, containers: Records, c: ContainerRecord, now: int)
    requires SessionsBound(sessions, containers)
    requires c.containerName in containers && containers[c.containerName] == c
    ensures SessionsBound(DetachFromSession(sessions, OrElse(c.sessionCtxId, c.MetaCtx()), c.containerName),
                          containers[c.containerName := ReleasedRecord(c, now)])
  {
    var ctx := OrElse(c.sessionCtxId, c.MetaCtx());
    var s' := DetachFromSession(sessions, ctx, c.containerName);
    var m' := containers[c.containerName := ReleasedRecord(c, now)];
    forall x, n | x in s' && n in s'[x]
      ensures x != "" && n in m' && m'[n].sessionCtxId == Some(x)
    {
      assert x in sessions && n in sessions[x];
    }
  }

  /** The records after `reap_session` has recycled the listed names. */
  function RecycleNames(containers: Records, names: seq<string>, ctx: string, reason: string, now: int): (r: Records)
    ensures r.Keys == containers.Keys
  {
    map k | k in containers :: if k in names then RecycledRecord(containers[k], ctx, reason, now) else containers[k]
  }

  /** Recycling one more stored name extends the recycled prefix. */
  lemma RecycleStep(containers: Records, names: seq<string>, i: int, ctx: string, reason: string, now: int)
    requires RecordsValid(containers) && 0 <= i < |names| && names[i] in containers
    ensures var m := RecycleNames(containers, names[..i], ctx, reason, now);
      var x := names[i];
      && RecordsValid(m)
      && RecycledRecord(m[x], ctx, reason, now) == RecycledRecord(containers[x], ctx, reason, now)
      && RecycleNames(containers, names[..i + 1], ctx, reason, now) == m[x := RecycledRecord(containers[x], ctx, reason, now)]
  {
    RecycledTwice(containers[names[i]], ctx, reason, now);
    assert names[..i + 1] == names[..i] + [names[i]];
  }

  /** The records without those stored under the names `ks`. */
  function Without(containers: Records, ks: seq<string>): Records
  {
    map k | k in containers && k !in ks :: containers[k]
  }

  /** Dropping one more name of `ks` drops its record from the prefix dropped so far. */
  lemma WithoutStep(containers: Records, ks: seq<string>, j: int)
    requires 0 <= j < |ks|
    ensures Without(containers, ks[..j + 1]) == Without(containers, ks[..j]) - {ks[j]}
  {
    assert ks[..j + 1] == ks[..j] + [ks[j]];
  }

  /**
   * Listing the new containers for the session and dropping the replaced
   * records keeps the mapping invariants.
   */
  lemma SwitchKeepsValid(prefix: string, containers: Records, sessions: Sessions, pools: Pools,
                         ctx: string, created: seq<string>, replaced: seq<string>)
    requires Consistent(prefix, containers, sessions, pools) && ctx != ""
    requires forall n :: n in created ==> n in containers && containers[n].sessionCtxId == Some(ctx) && n !in replaced
    requires forall k :: k in replaced ==> k in containers && containers[k].sessionCtxId == Some(ctx)
    ensures Consistent(prefix, Without(containers, replaced), sessions[ctx := created], pools)
  {
    var m := Without(containers, replaced);
    var s := sessions[ctx := created];
    forall c | c in s
      ensures c != "" && forall n :: n in s[c] ==> n in m && m[n].sessionCtxId == Some(c)
    {
      if c != ctx {
        assert c in sessions;
        forall n | n in s[c] ensures n in m && m[n].sessionCtxId == Some(c) {
          assert n in sessions[c];
        }
      }
    }
  }

  /**
   * What `restore_session` promises on the session's list `ids`, from the
   * state `c0`, `s0`, `h0`, `rc0` it started in: the replaced names were
   * listed and RECYCLED and are gone once it succeeded; a listed record that
   * was not RECYCLED is untouched; when nothing was replaced the session's
   * list, its heartbeat and all listed records stay as they were; otherwise
   * the list becomes exactly the replacements, which are RUNNING and bound to
   * the session, and the session gets a heartbeat. The session's recycle
   * marker is not part of it: `restore_session` never touches it.
   */
  ghost predicate RestoreOutcome(ctx: string, ids: seq<string>, c0: Records, s0: Sessions, h0: map<string, int>,
                                 ok: bool, newNames: seq<string>, restoredOld: seq<string>,
                                 containers: Records, sessions: Sessions, heartbeat: map<string, int>, now: int)
  {
    && |newNames| == |restoredOld|
    && (forall k :: k in restoredOld ==> k in ids && k in c0 && c0[k].state == Recycled)
    && (ok ==> forall k :: k in restoredOld ==> k !in containers)
    && (forall k :: k in ids && k in c0 && c0[k].state != Recycled ==> k in containers && containers[k] == c0[k])
    && (ok && newNames == [] ==> sessions == s0 && heartbeat == h0)
    && (ok && newNames == [] ==> forall k :: k in ids && k in c0 ==> k in containers && containers[k] == c0[k])
    && (ok && newNames != [] ==> sessions == s0[ctx := newNames] && heartbeat == h0[ctx := now])
    && (forall n :: n in newNames ==>
          n in containers && containers[n].state == Running && containers[n].sessionCtxId == Some(ctx))
  }

  /** `restore_session` when the replacement phase failed or replaced nothing. */
  lemma RestoreUnswitched(ctx: string, ids: seq<string>, c0: Records, q0: set<string>, s0: Sessions,
                          h0: map<string, int>, ok: bool,
                          created: seq<string>, replaced: seq<string>,
                          containers: Records, sessions: Sessions, heartbeat: map<string, int>, now: int)
    requires forall k :: k in ids ==> k in c0 && k !in q0
    requires |created| == |replaced| && (!ok || created == [])
    requires forall k :: k in c0 && k !in q0 ==> k in containers && containers[k] == c0[k]
    requires forall k :: k in replaced ==> k in ids && c0[k].state == Recycled
    requires forall n :: n in created ==>
      n in containers && containers[n].state == Running && containers[n].sessionCtxId == Some(ctx)
    requires created == [] ==> sessions == s0 && heartbeat == h0
    ensures RestoreOutcome(ctx, ids, c0, s0, h0, ok, created, replaced, containers, sessions, heartbeat, now)
  {
  }

  /** `restore_session` when the replacement phase replaced something. */
  lemma RestoreSwitched(ctx: string, ids: seq<string>, c0: Records, q0: set<string>, s0: Sessions,
                        h0: map<string, int>,
                        created: seq<string>, replaced: seq<string>,
                        c1: Records, s1: Sessions, h1: map<string, int>,
                        containers: Records, sessions: Sessions, heartbeat: map<string, int>, now: int)
    requires forall k :: k in ids ==> k in c0 && k !in q0
    requires |created| == |replaced| && created != []
    requires forall k :: k in c0 && k !in q0 ==> k in c1 && c1[k] == c0[k]
    requires forall k :: k in replaced ==> k in ids && c0[k].state == Recycled
    requires forall n :: n in created ==>
      n in c1 && c1[n].state == Running && c1[n].sessionCtxId == Some(ctx) && n !in ids
    requires forall c :: c != ctx ==> (c in s1 <==> c in s0) && (c in s1 ==> s1[c] == s0[c])
    requires h1 == h0[ctx := now]
    requires sessions == s1[ctx := created] && heartbeat == h1[ctx := now]
    requires containers == Without(c1, replaced)
    ensures RestoreOutcome(ctx, ids, c0, s0, h0, true, created, replaced, containers, sessions, heartbeat, now)
  {
    assert sessions == s0[ctx := created];
  }

  /**
   * Once `restore_session` succeeded, the session's list changed exactly
   * when something was replaced: the replaced names are listed and gone,
   * while every replacement is stored.
   */
  lemma SwitchedListChanged(ctx: string, ids: seq<string>, c0: Records, s0: Sessions, h0: map<string, int>,
                            newNames: seq<string>, restoredOld: seq<string>,
                            containers: Records, sessions: Sessions, heartbeat: map<string, int>, now: int)
    requires ids == SessionList(s0, ctx)
    requires RestoreOutcome(ctx, ids, c0, s0, h0, true, newNames, restoredOld, containers, sessions, heartbeat, now)
    ensures newNames != [] <==> SessionList(sessions, ctx) != ids
  {
    if newNames != [] {
      assert SessionList(sessions, ctx) == newNames;
      var k := restoredOld[0];
      assert k in ids && k !in containers;
      assert k !in newNames;
    }
  }

  /** Removing a name just appended to a list that did not hold it gives the list back. */
  lemma {:induction false} RemoveAppended(ids: seq<string>, name: string)
    requires name !in ids
    ensures RemoveName(AppendOnce(ids, name), name) == ids
  {
    if ids != [] {
      assert (ids + [name])[1..] == ids[1..] + [name];
      RemoveAppended(ids[1..], name);
    }
  }

  /**
   * Attaching an unlisted name to a session and detaching it again leaves
   * every session's list as it was.
   */
  lemma AttachDetached(sessions: Sessions, ctx: string, name: string)
    requires ctx != "" && name !in SessionList(sessions, ctx)
    ensures forall c :: SessionList(DetachFromSession(Attach(sessions, Some(ctx), name), Some(ctx), name), c)
                        == SessionList(sessions, c)
  {
    RemoveAppended(SessionList(sessions, ctx), name);
  }

  /** A listed name has a record bound to its session, and is not queued. */
  lemma ListedUnqueued(prefix: string, containers: Records, sessions: Sessions, pools: Pools, ctx: string)
    requires Consistent(prefix, containers, sessions, pools) && SessionList(sessions, ctx) != []
    ensures ctx != ""
    ensures forall k :: k in SessionList(sessions, ctx) ==>
      k in containers && k !in Queued(pools) && containers[k].sessionCtxId == Some(ctx)
  {
    assert ctx in sessions;
  }

  /** Recycling a session's own listed containers keeps the mapping invariants. */
  lemma RecycleKeepsValid(prefix: string, containers: Records, sessions: Sessions, pools: Pools, ctx: string, reason: string, now: int)
    requires Consistent(prefix, containers, sessions, pools)
    ensures Consistent(prefix, RecycleNames(containers, SessionList(sessions, ctx), ctx, reason, now), sessions, pools)
  {
    var ids := SessionList(sessions, ctx);
    var m := RecycleNames(containers, ids, ctx, reason, now);
    forall q | q in Queued(pools) && q in m ensures !Truthy(m[q].sessionCtxId) {
      if q in ids {
        assert containers[q].sessionCtxId == Some(ctx);
      }
    }
  }

  /**
   * The edit `create` and `_bind_meta` make to `session_mapping` for a
   * container bound to a session: its name is appended to the session's
   * list unless already there. Without a session nothing changes.
   */
  function Attach(sessions: Sessions, ctx: Option<string>, name: string): (r: Sessions)
    ensures ctx.None? ==> r == sessions
    ensures ctx.Some? ==> r.Keys == sessions.Keys + {ctx.value}
    ensures ctx.Some? ==> r[ctx.value] == AppendOnce(SessionList(sessions, ctx.value), name)
    ensures forall c :: c in sessions && (ctx.None? || c != ctx.value) ==> c in r && r[c] == sessions[c]
  {
    if ctx.Some? then sessions[ctx.value := AppendOnce(SessionList(sessions, ctx.value), name)] else sessions
  }

  /**
   * Storing a record under an unlisted name and attaching it to the
   * session it is bound to keeps every listed name bound.
   */
  lemma AttachKeepsBound(sessions: Sessions, containers: Records, rec: ContainerRecord, ctx: Option<string>)
    requires SessionsBound(sessions, containers)
    requires rec.containerName in containers ==> !Truthy(containers[rec.containerName].sessionCtxId)
    requires ctx.Some? ==> ctx.value != "" && rec.sessionCtxId == ctx
    ensures SessionsBound(Attach(sessions, ctx, rec.containerName), containers[rec.containerName := rec])
  {
    var name := rec.containerName;
    var s' := Attach(sessions, ctx, name);
    var m' := containers[name := rec];
    forall c | c in s'
      ensures c != "" && forall n :: n in s'[c] ==> n in m' && m'[n].sessionCtxId == Some(c)
    {
      forall n | n in s'[c] ensures n in m' && m'[n].sessionCtxId == Some(c) {
        if n != name {
          assert c in sessions && n in sessions[c];
        }
      }
      if ctx.None? || c != ctx.value {
        assert c in sessions;
      }
    }
  }

  /** `os.path.join(a, b)` for a relative `b`. */
  function PathJoin(a: string, b: string): (r: string)
    ensures StartsWith(r, a) && EndsWith(r, b)
  {
    if EndsWith(a, "/") then a + b else a + "/" + b
  }

  /** Some variable of the merged environment is `None`. */
  predicate EnvHasNone(env: map<string, Option<string>>)
  {
    exists k :: k in env && env[k].None?
  }

  /** What the container engine does when `create` starts a container. */
  datatype EngineOutcome =
    | NameInUse                 // `inspect` finds the name: ValueError, caught
    | EngineRaises              // `client.create` or `get_status` raises, caught
    | NoContainerId             // `client.create` returns no id
    | NotRunning                // the new container is not "running"
    | Started(containerId: string, port: int, ip: string, https: bool)

  /**
   * The record `_bind_meta` writes for a pooled container handed to a
   * caller: the caller's `meta`, the session id it carries (if any),
   * RUNNING when that id is truthy and WARM otherwise, no recycle fields.
   */
  function BoundRecord(e: ContainerRecord, meta: Meta, now: int): (r: ContainerRecord)
    ensures r.meta == Some(meta) && r.MetaCtx() == r.sessionCtxId
    ensures r.sessionCtxId == (if SessionKey in meta then Some(meta[SessionKey]) else None)
    ensures r.state == (if MetaSession(Some(meta)).Some? then Running else Warm)
    ensures r.recycledAt == None && r.recycleReason == None && r.updatedAt == Some(now)
    ensures r.(meta := e.meta, sessionCtxId := e.sessionCtxId, state := e.state, recycledAt := e.recycledAt,
               recycleReason := e.recycleReason, updatedAt := e.updatedAt) == e
    ensures Validated(e) ==> Validated(r)
  {
    var ctx := if SessionKey in meta then Some(meta[SessionKey]) else None;
    e.(meta := Some(meta), sessionCtxId := ctx, state := if Truthy(ctx) then Running else Warm,
       recycledAt := None, recycleReason := None, updatedAt := Some(now))
  }

  /** How the engine answers for a dequeued pool container. */
  datatype PoolProbe =
    | Alive          // `inspect` finds it and its status is "running"
    | Gone           // `inspect` finds nothing
    | Stopped        // its status is not "running"
    | ProbeRaises    // `inspect` or `get_status` raises

  /**
   * The record `restore_session` writes for a restored container: RUNNING,
   * bound to the session in the field and in `meta`, `meta` naming its
   * sandbox type, no recycle fields.
   */
  function RestoredRecord(c: ContainerRecord, ctx: string, sandboxType: string, now: int): (r: ContainerRecord)
    ensures r.state == Running && r.sessionCtxId == Some(ctx) && r.MetaCtx() == Some(ctx)
    ensures r.meta.Some? && "sandbox_type" in r.meta.value && r.meta.value["sandbox_type"] == sandboxType
    ensures forall k :: k != SessionKey && k != "sandbox_type" ==>
      ((k in r.meta.value <==> k in c.MetaOrEmpty()) && (k in r.meta.value ==> r.meta.value[k] == c.MetaOrEmpty()[k]))
    ensures r.recycledAt == None && r.recycleReason == None && r.updatedAt == Some(now)
    ensures r.(state := c.state, sessionCtxId := c.sessionCtxId, meta := c.meta, recycledAt := c.recycledAt,
               recycleReason := c.recycleReason, updatedAt := c.updatedAt) == c
    ensures Validated(c) ==> Validated(r)
  {
    c.(state := Running, sessionCtxId := Some(ctx),
       meta := Some(c.MetaOrEmpty()[SessionKey := ctx]["sandbox_type" := sandboxType]),
       recycledAt := None, recycleReason := None, updatedAt := Some(now))
  }

  /** The engine's answers for one container `restore_session` replaces. */
  datatype Alloc = Alloc(sessionId: string, runtimeToken: string, engine: EngineOutcome, probe: PoolProbe)

  /** One sandbox type's registry entry (`SandboxRegistry.get_config_by_type`). */
  datatype SandboxConfig = SandboxConfig(image: string, environment: map<string, Option<string>>, timeout: Option<int>)

  /** Every record that was stored and not queued at the start is still there unchanged. */
  ghost predicate KeptUnqueued(c0: Records, q0: set<string>, containers: Records)
  {
    forall k :: k in c0 && k !in q0 ==> k in containers && containers[k] == c0[k]
  }

  lemma KeptUnqueuedStep(c0: Records, q0: set<string>, cA: Records, qA: set<string>, cB: Records)
    requires KeptUnqueued(c0, q0, cA) && qA <= q0
    requires forall k :: k in cA && k !in qA ==> k in cB && cB[k] == cA[k]
    ensures KeptUnqueued(c0, q0, cB)
  {
  }

  /**
   * During a restore the session lists of other sessions stay as they
   * were, and the session's heartbeat and list change only once a
   * replacement exists.
   */
  ghost predicate SessionTouched(ctx: string, created: seq<string>, s0: Sessions, h0: map<string, int>,
                                 sessions: Sessions, heartbeat: map<string, int>, now: int)
  {
    && (forall c :: c != ctx ==> (c in sessions <==> c in s0) && (c in sessions ==> sessions[c] == s0[c]))
    && (created == [] ==> sessions == s0 && heartbeat == h0)
    && (created != [] ==> heartbeat == h0[ctx := now])
  }

  lemma SessionTouchedStep(ctx: string, created: seq<string>, s0: Sessions, h0: map<string, int>,
                           sA: Sessions, hA: map<string, int>, n: string, now: int)
    requires SessionTouched(ctx, created, s0, h0, sA, hA, now)
    ensures SessionTouched(ctx, created + [n], s0, h0, Attach(sA, Some(ctx), n), hA[ctx := now], now)
  {
    if created == [] {
      assert h0[ctx := now][ctx := now] == h0[ctx := now];
    } else {
      assert hA[ctx := now] == hA;
    }
  }

  /**
   * The pairs a restore has made so far: each replaced name was a RECYCLED
   * record of the session, and each replacement is a RUNNING record bound
   * to it that is neither queued nor one of the session's old names.
   */
  ghost predicate Replacements(ctx: string, ids: seq<string>, created: seq<string>, replaced: seq<string>,
                               containers: Records, queued: set<string>, c0: Records)
  {
    && (forall k :: k in replaced ==> k in ids && k in c0 && c0[k].state == Recycled)
    && (forall n :: n in created ==>
          n in containers && containers[n].state == Running && containers[n].sessionCtxId == Some(ctx) &&
          n !in queued && n !in ids)
  }

  /** One more pair keeps `Replacements`, as long as unqueued records stay put. */
  lemma ReplacementsStep(ctx: string, ids: seq<string>, created: seq<string>, replaced: seq<string>,
                         cA: Records, qA: set<string>, cB: Records, qB: set<string>, c0: Records,
                         name: string, n: Option<string>)
    requires Replacements(ctx, ids, created, replaced, cA, qA, c0)
    requires qB <= qA
    requires forall k :: k in cA && k !in qA ==> k in cB && cB[k] == cA[k]
    requires n.Some? ==>
      name in ids && name in c0 && c0[name].state == Recycled &&
      n.value in cB && cB[n.value].state == Running && cB[n.value].sessionCtxId == Some(ctx) &&
      n.value !in qB && n.value !in ids
    ensures n.None? ==> Replacements(ctx, ids, created, replaced, cB, qB, c0)
    ensures n.Some? ==> Replacements(ctx, ids, created + [n.value], replaced + [name], cB, qB, c0)
  {
  }

  // ---------------------------------------------------------------------
  // The heartbeat scan
  // ---------------------------------------------------------------------

  /** The name resolves (as `get_info` resolves it) to a RUNNING record. */
  predicate IsRunning(containers: Records, prefix: string, name: string)
  {
    var f := Find(containers, prefix, name);
    f.Some? && f.value.state == Running
  }

  /** The `has_running` loop of `scan_heartbeat_once`, as a recursion over the list. */
  function RunningIn(containers: Records, prefix: string, ids: seq<string>): bool
  {
    ids != [] && (IsRunning(containers, prefix, ids[0]) || RunningIn(containers, prefix, ids[1..]))
  }

  /** `RunningIn` holds exactly when some listed name is RUNNING. */
  lemma {:induction false} RunningInExists(containers: Records, prefix: string, ids: seq<string>)
    ensures RunningIn(containers, prefix, ids) <==> exists i :: 0 <= i < |ids| && IsRunning(containers, prefix, ids[i])
  {
    if ids != [] {
      RunningInExists(containers, prefix, ids[1..]);
      if exists i :: 1 <= i < |ids| && IsRunning(containers, prefix, ids[i]) {
        var i :| 1 <= i < |ids| && IsRunning(containers, prefix, ids[i]);
        assert ids[1..][i - 1] == ids[i];
      }
      if exists i :: 0 <= i < |ids| - 1 && IsRunning(containers, prefix, ids[1..][i]) {
        var i :| 0 <= i < |ids| - 1 && IsRunning(containers, prefix, ids[1..][i]);
        assert ids[i + 1] == ids[1..][i];
      }
    }
  }

  /** Records that agree on the listed names agree on whether one of them runs. */
  lemma RunningInSame(a: Records, b: Records, prefix: string, ids: seq<string>)
    requires forall n :: n in ids ==> n in a && n in b && a[n] == b[n]
    ensures RunningIn(a, prefix, ids) == RunningIn(b, prefix, ids)
  {
    if ids != [] {
      assert ids[0] in ids;
      RunningInSame(a, b, prefix, ids[1..]);
    }
  }

  /** How `scan_heartbeat_once` treats one session. */
  datatype HeartbeatVerdict =
    | NoRunning        // no RUNNING container: skipped_no_running_containers
    | NoHeartbeat      // no heartbeat: skipped_no_heartbeat
    | Active           // not idle at the first look: skipped, counted nowhere
    | LockBusy         // another holder has the lock: skipped_lock_busy
    | ActiveAfterLock  // not idle at the second look: skipped_not_idle_after_double_check
    | Reap             // reaped: reaped_sessions

  /**
   * The verdict for a session from whether it runs, its heartbeat, the two
   * clock readings (before and after taking the lock), the timeout, and
   * whether the lock is free.
   */
  function Verdict(running: bool, last: Option<int>, t1: int, t2: int, timeout: int, lockFree: bool): HeartbeatVerdict
  {
    if !running then NoRunning
    else if last.None? then NoHeartbeat
    else if t1 - last.value <= timeout then Active
    else if !lockFree then LockBusy
    else if t2 - last.value <= timeout then ActiveAfterLock
    else Reap
  }

  /**
   * A session is reaped exactly when it has a RUNNING container and a
   * heartbeat, is idle beyond the timeout at both readings, and its lock
   * is free; a session without a RUNNING container or without a heartbeat
   * is skipped for that reason first.
   */
  lemma VerdictReap(running: bool, last: Option<int>, t1: int, t2: int, timeout: int, lockFree: bool)
    ensures Verdict(running, last, t1, t2, timeout, lockFree) == Reap <==>
      running && last.Some? && t1 - last.value > timeout && lockFree && t2 - last.value > timeout
    ensures Verdict(running, last, t1, t2, timeout, lockFree) == NoRunning <==> !running
    ensures Verdict(running, last, t1, t2, timeout, lockFree) == NoHeartbeat <==> running && last.None?
  {
  }

  /** The counters `scan_heartbeat_once` returns. */
  datatype HeartbeatReport = HeartbeatReport(
    scanned: nat, reaped: nat, skippedNoHeartbeat: nat, skippedNoRunning: nat,
    skippedLockBusy: nat, skippedNotIdle: nat, errors: nat)

  /** How many verdicts are `v`. */
  function CountOf(vs: seq<HeartbeatVerdict>, v: HeartbeatVerdict): (n: nat)
    ensures n <= |vs|
  {
    if vs == [] then 0 else CountOf(vs[..|vs| - 1], v) + (if vs[|vs| - 1] == v then 1 else 0)
  }

  /** The counter update for one session. */
  function Tally(r: HeartbeatReport, v: HeartbeatVerdict): HeartbeatReport
  {
    var r := r.(scanned := r.scanned + 1);
    match v
    case NoRunning => r.(skippedNoRunning := r.skippedNoRunning + 1)
    case NoHeartbeat => r.(skippedNoHeartbeat := r.skippedNoHeartbeat + 1)
    case Active => r
    case LockBusy => r.(skippedLockBusy := r.skippedLockBusy + 1)
    case ActiveAfterLock => r.(skippedNotIdle := r.skippedNotIdle + 1)
    case Reap => r.(reaped := r.reaped + 1)
  }

  /** The report after the verdicts `vs`, tallied in scan order. */
  function TallyAll(vs: seq<HeartbeatVerdict>): HeartbeatReport
  {
    if vs == [] then HeartbeatReport(0, 0, 0, 0, 0, 0, 0)
    else Tally(TallyAll(vs[..|vs| - 1]), vs[|vs| - 1])
  }

  /**
   * Every session is scanned once, each counter counts its verdict, no
   * error is counted, and the sessions that were not idle at the first look
   * are the ones counted nowhere.
   */
  lemma {:induction false} TallyAllCounts(vs: seq<HeartbeatVerdict>)
    ensures var r := TallyAll(vs);
      && r.scanned == |vs| && r.errors == 0
      && r.reaped == CountOf(vs, Reap) && r.skippedNoRunning == CountOf(vs, NoRunning)
      && r.skippedNoHeartbeat == CountOf(vs, NoHeartbeat) && r.skippedLockBusy == CountOf(vs, LockBusy)
      && r.skippedNotIdle == CountOf(vs, ActiveAfterLock)
      && r.scanned == r.reaped + r.skippedNoRunning + r.skippedNoHeartbeat + r.skippedLockBusy +
                      r.skippedNotIdle + CountOf(vs, Active)
  {
    if vs != [] {
      TallyAllCounts(vs[..|vs| - 1]);
    }
  }

  /**
   * The verdict for session `c` given the records, the session lists, the
   * heartbeats and the locks (`get_heartbeat` has nothing for an empty id).
   */
  function SessionVerdict(containers: Records, sessions: Sessions, heartbeat: map<string, int>,
                          locks: map<string, string>, redisLock: bool, prefix: string,
                          c: string, timeout: int, at: (int, int)): HeartbeatVerdict
  {
    Verdict(RunningIn(containers, prefix, SessionList(sessions, c)),
            if c != "" && c in heartbeat then Some(heartbeat[c]) else None,
            at.0, at.1, timeout, !redisLock || LockKey(c) !in locks)
  }

  /** The verdicts for the sessions of `order`, all in one state. */
  function VerdictsOf(containers: Records, sessions: Sessions, heartbeat: map<string, int>,
                      locks: map<string, string>, redisLock: bool, prefix: string,
                      order: seq<string>, timeout: int, at: map<string, (int, int)>): (vs: seq<HeartbeatVerdict>)
    requires forall c :: c in order ==> c in at
    ensures |vs| == |order|
  {
    if order == [] then []
    else [SessionVerdict(containers, sessions, heartbeat, locks, redisLock, prefix, order[0], timeout, at[order[0]])] +
         VerdictsOf(containers, sessions, heartbeat, locks, redisLock, prefix, order[1..], timeout, at)
  }

  /** The `i`-th verdict is the verdict of the `i`-th session. */
  lemma {:induction false} VerdictsOfAt(containers: Records, sessions: Sessions, heartbeat: map<string, int>,
                                        locks: map<string, string>, redisLock: bool, prefix: string,
                                        order: seq<string>, timeout: int, at: map<string, (int, int)>, i: int)
    requires forall c :: c in order ==> c in at
    requires 0 <= i < |order|
    ensures VerdictsOf(containers, sessions, heartbeat, locks, redisLock, prefix, order, timeout, at)[i]
         == SessionVerdict(containers, sessions, heartbeat, locks, redisLock, prefix, order[i], timeout, at[order[i]])
  {
    if i > 0 {
      VerdictsOfAt(containers, sessions, heartbeat, locks, redisLock, prefix, order[1..], timeout, at, i - 1);
    }
  }

  lemma TallyStep(vs: seq<HeartbeatVerdict>, i: int)
    requires 0 <= i < |vs|
    ensures TallyAll(vs[..i + 1]) == Tally(TallyAll(vs[..i]), vs[i])
  {
    assert vs[..i + 1][..i] == vs[..i];
  }

  lemma CleanStep(order: seq<string>, i: int, faults: map<string, ReleaseFault>)
    requires 0 <= i < |order|
    ensures CleanReleases(order[..i + 1], faults) <==>
      CleanReleases(order[..i], faults) && (order[i] in faults ==> !faults[order[i]].OtherError?)
  {
    assert order[..i + 1] == order[..i] + [order[i]];
  }

  /** The sessions of `order` whose verdict is `Reap`. */
  ghost function ReapSet(order: seq<string>, vs: seq<HeartbeatVerdict>): set<string>
  {
    set i | 0 <= i < |order| && i < |vs| && vs[i] == Reap :: order[i]
  }

  /**
   * The records after reaping the sessions `reaped`, each at the second
   * clock reading of `at`: a record listed for a reaped session it is bound
   * to is recycled, every other record is kept.
   */
  ghost function ReapedAll(containers: Records, sessions: Sessions, reaped: set<string>,
                           at: map<string, (int, int)>, reason: string): Records
    requires forall c :: c in reaped ==> c in at
  {
    map k | k in containers ::
      var c := containers[k].sessionCtxId;
      if c.Some? && c.value in reaped && k in SessionList(sessions, c.value)
      then RecycledRecord(containers[k], c.value, reason, at[c.value].1)
      else containers[k]
  }

  /** Reaping one more session on top of `ReapedAll` is `ReapedAll` with that session added. */
  lemma ReapedAllStep(containers: Records, sessions: Sessions, reaped: set<string>, c: string,
                      at: map<string, (int, int)>, reason: string)
    requires SessionsBound(sessions, containers) && c !in reaped && c in at
    requires forall e :: e in reaped ==> e in at
    ensures RecycleNames(ReapedAll(containers, sessions, reaped, at, reason), SessionList(sessions, c), c, reason, at[c].1)
         == ReapedAll(containers, sessions, reaped + {c}, at, reason)
  {
    var before := ReapedAll(containers, sessions, reaped, at, reason);
    var lhs := RecycleNames(before, SessionList(sessions, c), c, reason, at[c].1);
    var rhs := ReapedAll(containers, sessions, reaped + {c}, at, reason);
    forall k | k in containers ensures k in lhs && k in rhs && lhs[k] == rhs[k] {
      if k in SessionList(sessions, c) {
        assert c in sessions && k in sessions[c];
      }
    }
    assert lhs == rhs;
  }

  /** Reaping other sessions leaves it open whether a session has a RUNNING container. */
  lemma ReapedAllKeeps(containers: Records, sessions: Sessions, reaped: set<string>,
                       at: map<string, (int, int)>, reason: string, prefix: string, c: string)
    requires SessionsBound(sessions, containers) && c !in reaped
    requires forall e :: e in reaped ==> e in at
    ensures RunningIn(ReapedAll(containers, sessions, reaped, at, reason), prefix, SessionList(sessions, c))
         == RunningIn(containers, prefix, SessionList(sessions, c))
  {
    var after := ReapedAll(containers, sessions, reaped, at, reason);
    forall n | n in SessionList(sessions, c) ensures n in containers && n in after && after[n] == containers[n] {
      assert c in sessions && n in sessions[c];
    }
    RunningInSame(after, containers, prefix, SessionList(sessions, c));
  }

  /** No verdict of a session is ever asked for twice. */
  ghost predicate Distinct(order: seq<string>)
  {
    forall i, j :: 0 <= i < j < |order| ==> order[i] != order[j]
  }

  /** A session is scanned once, so it is not among those reaped before it. */
  lemma NotYetReaped(order: seq<string>, i: int, vs: seq<HeartbeatVerdict>)
    requires Distinct(order) && 0 <= i < |order|
    ensures order[i] !in ReapSet(order[..i], vs)
  {
  }

  /** One more scanned session adds itself to the reaped ones exactly when its verdict is `Reap`. */
  lemma ReapSetStep(order: seq<string>, i: int, vs: seq<HeartbeatVerdict>)
    requires 0 <= i < |order| && i < |vs|
    ensures ReapSet(order[..i + 1], vs) == ReapSet(order[..i], vs) + (if vs[i] == Reap then {order[i]} else {})
  {
    var a := ReapSet(order[..i + 1], vs);
    var b := ReapSet(order[..i], vs) + (if vs[i] == Reap then {order[i]} else {});
    forall x | x in a ensures x in b {
      var j :| 0 <= j < i + 1 && j < |vs| && vs[j] == Reap && order[..i + 1][j] == x;
      if j < i {
        assert order[..i][j] == x;
      }
    }
    forall x | x in b ensures x in a {
      if x in ReapSet(order[..i], vs) {
        var j :| 0 <= j < i && j < |vs| && vs[j] == Reap && order[..i][j] == x;
        assert order[..i + 1][j] == x;
      } else {
        assert order[..i + 1][i] == x;
      }
    }
  }

  /** No session of `order` had a lock release fail without raising. */
  ghost predicate CleanReleases(order: seq<string>, faults: map<string, ReleaseFault>)
  {
    forall c :: c in order && c in faults ==> !faults[c].OtherError?
  }

  /** The reason `scan_heartbeat_once` gives for the containers it reaps. */
  const HeartbeatReason: string := "heartbeat_timeout"

  /**
   * The records after the sessions of `order` were scanned one after the
   * other, each whose verdict in `vs` is `Reap` recycling its listed
   * containers at the second clock reading of `at`.
   */
  ghost function ReapedSeq(containers: Records, sessions: Sessions, order: seq<string>, vs: seq<HeartbeatVerdict>,
                           at: map<string, (int, int)>): Records
    requires forall c :: c in order ==> c in at
    decreases |order|
  {
    if order == [] then containers
    else
      var n := |order| - 1;
      var before := ReapedSeq(containers, sessions, order[..n], vs, at);
      if n < |vs| && vs[n] == Reap
      then RecycleNames(before, SessionList(sessions, order[n]), order[n], HeartbeatReason, at[order[n]].1)
      else before
  }

  /** Scanning one more session of `order` reaps it on top of the scan so far when its verdict is `Reap`. */
  lemma ReapedSeqStep(containers: Records, sessions: Sessions, order: seq<string>, vs: seq<HeartbeatVerdict>,
                      at: map<string, (int, int)>, i: int)
    requires 0 <= i < |order| && forall c :: c in order ==> c in at
    ensures forall c :: c in order[..i] ==> c in at
    ensures ReapedSeq(containers, sessions, order[..i + 1], vs, at) ==
      var before := ReapedSeq(containers, sessions, order[..i], vs, at);
      if i < |vs| && vs[i] == Reap
      then RecycleNames(before, SessionList(sessions, order[i]), order[i], HeartbeatReason, at[order[i]].1)
      else before
  {
    assert order[..i + 1][..i] == order[..i];
    forall c | c in order[..i] ensures c in at {
      assert c in order;
    }
  }

  /** Nothing reaped leaves the records as they are. */
  lemma ReapedNone(containers: Records, sessions: Sessions, at: map<string, (int, int)>)
    ensures ReapedAll(containers, sessions, {}, at, HeartbeatReason) == containers
  {
    var e := ReapedAll(containers, sessions, {}, at, HeartbeatReason);
    forall k | k in containers ensures k in e && e[k] == containers[k] { }
    assert e == containers;
  }

  /**
   * Reaping the sessions of `order` one by one recycles exactly the records
   * bound to, and listed for, a session whose verdict is `Reap`; all other
   * records are kept.
   */
  lemma {:induction false} ReapedSeqAll(containers: Records, sessions: Sessions, order: seq<string>,
                                        vs: seq<HeartbeatVerdict>, at: map<string, (int, int)>)
    requires SessionsBound(sessions, containers) && Distinct(order) && |order| <= |vs|
    requires forall c :: c in order ==> c in at
    ensures ReapedSeq(containers, sessions, order, vs, at) == ReapedAll(containers, sessions, ReapSet(order, vs), at, HeartbeatReason)
  {
    if order == [] {
      assert ReapSet(order, vs) == {};
      ReapedNone(containers, sessions, at);
    } else {
      var n := |order| - 1;
      var pre := order[..n];
      assert order[..n + 1] == order;
      forall c | c in pre ensures c in at {
        assert c in order;
      }
      ReapedSeqAll(containers, sessions, pre, vs, at);
      var reaped := ReapSet(pre, vs);
      NotYetReaped(order, n, vs);
      ReapSetStep(order, n, vs);
      forall e | e in reaped ensures e in at {
        var j :| 0 <= j < n && j < |vs| && vs[j] == Reap && pre[j] == e;
        assert order[j] in order;
      }
      if vs[n] == Reap {
        ReapedAllStep(containers, sessions, reaped, order[n], at, HeartbeatReason);
        assert ReapSet(order, vs) == reaped + {order[n]};
      } else {
        assert ReapSet(order, vs) == reaped;
      }
    }
  }

  /**
   * What holds after the first `i` sessions of `order` were scanned, with
   * the records `containers` and the locks `locks`, against the records
   * `c0`, the locks `l0` and the verdicts `vs` of the state the scan
   * started from.
   */
  ghost predicate ScanAt(order: seq<string>, i: int, vs: seq<HeartbeatVerdict>, c0: Records, l0: map<string, string>,
                         timeout: int, at: map<string, (int, int)>, faults: map<string, ReleaseFault>,
                         report: HeartbeatReport, containers: Records, sessions: Sessions,
                         heartbeat: map<string, int>, locks: map<string, string>, redisLock: bool, prefix: string)
  {
    && 0 <= i <= |order| == |vs| && SessionsBound(sessions, c0) && Distinct(order)
    && (forall c :: c in order ==> c in at)
    && report == TallyAll(vs[..i])
    && containers == ReapedSeq(c0, sessions, order[..i], vs, at)
    && (forall c :: c in order[i..] ==> (LockKey(c) in locks <==> LockKey(c) in l0))
    && (CleanReleases(order[..i], faults) ==> locks == l0)
    && vs == VerdictsOf(c0, sessions, heartbeat, l0, redisLock, prefix, order, timeout, at)
  }

  /** Before the scan nothing is tallied, reaped or released. */
  lemma ScanAtStart(order: seq<string>, c0: Records, l0: map<string, string>,
                    timeout: int, at: map<string, (int, int)>, faults: map<string, ReleaseFault>,
                    sessions: Sessions, heartbeat: map<string, int>, redisLock: bool, prefix: string)
    requires SessionsBound(sessions, c0) && Distinct(order) && forall c :: c in order ==> c in at
    ensures ScanAt(order, 0, VerdictsOf(c0, sessions, heartbeat, l0, redisLock, prefix, order, timeout, at),
                   c0, l0, timeout, at, faults, HeartbeatReport(0, 0, 0, 0, 0, 0, 0), c0, sessions,
                   heartbeat, l0, redisLock, prefix)
  {
    var vs := VerdictsOf(c0, sessions, heartbeat, l0, redisLock, prefix, order, timeout, at);
    assert order[..0] == [] && vs[..0] == [];
  }

  /** After the whole of `order`: the report of all verdicts, every reap, and the locks as they were unless a release failed. */
  lemma ScanAtEnd(order: seq<string>, i: int, vs: seq<HeartbeatVerdict>, c0: Records, l0: map<string, string>,
                  timeout: int, at: map<string, (int, int)>, faults: map<string, ReleaseFault>,
                  report: HeartbeatReport, containers: Records, sessions: Sessions,
                  heartbeat: map<string, int>, locks: map<string, string>, redisLock: bool, prefix: string)
    requires ScanAt(order, i, vs, c0, l0, timeout, at, faults, report, containers, sessions, heartbeat, locks, redisLock, prefix)
    requires i >= |order|
    ensures vs == VerdictsOf(c0, sessions, heartbeat, l0, redisLock, prefix, order, timeout, at)
    ensures report == TallyAll(vs)
    ensures containers == ReapedSeq(c0, sessions, order, vs, at)
    ensures CleanReleases(order, faults) ==> locks == l0
  {
    assert vs[..i] == vs && order[..i] == order;
  }

  /** The next session's verdict, taken in the current state, is the one it had at the start. */
  lemma ScanVerdict(order: seq<string>, i: int, vs: seq<HeartbeatVerdict>, c0: Records, l0: map<string, string>,
                    timeout: int, at: map<string, (int, int)>, faults: map<string, ReleaseFault>,
                    report: HeartbeatReport, containers: Records, sessions: Sessions,
                    heartbeat: map<string, int>, locks: map<string, string>, redisLock: bool, prefix: string)
    requires ScanAt(order, i, vs, c0, l0, timeout, at, faults, report, containers, sessions, heartbeat, locks, redisLock, prefix)
    requires i < |order|
    ensures SessionVerdict(containers, sessions, heartbeat, locks, redisLock, prefix, order[i], timeout, at[order[i]]) == vs[i]
  {
    var c := order[i];
    NotYetReaped(order, i, vs);
    forall d | d in order[..i] ensures d in at {
      assert d in order;
    }
    ReapedSeqAll(c0, sessions, order[..i], vs, at);
    ReapedAllKeeps(c0, sessions, ReapSet(order[..i], vs), at, HeartbeatReason, prefix, c);
    VerdictsOfAt(c0, sessions, heartbeat, l0, redisLock, prefix, order, timeout, at, i);
    assert order[i..][0] == c;
  }

  /**
   * Taking and giving back the next session's lock keeps the locks of the
   * sessions still to come, and the whole table unless its release failed.
   */
  lemma ScanLockStep(order: seq<string>, i: int, l0: map<string, string>, faults: map<string, ReleaseFault>,
                     locks: map<string, string>, locks': map<string, string>)
    requires 0 <= i < |order| && Distinct(order) && order[i] in faults
    requires forall c :: c in order[i..] ==> (LockKey(c) in locks <==> LockKey(c) in l0)
    requires CleanReleases(order[..i], faults) ==> locks == l0
    requires forall k :: k != LockKey(order[i]) ==> (k in locks' <==> k in locks) && (k in locks' ==> locks'[k] == locks[k])
    requires !faults[order[i]].OtherError? ==> locks' == locks
    ensures forall c :: c in order[i + 1..] ==> (LockKey(c) in locks' <==> LockKey(c) in l0)
    ensures CleanReleases(order[..i + 1], faults) ==> locks' == l0
  {
    var c := order[i];
    forall c' | c' in order[i + 1..] ensures LockKey(c') in locks' <==> LockKey(c') in l0 {
      assert c' in order[i..] && c' != c;
      LockKeyInjective(c', c);
    }
    CleanStep(order, i, faults);
  }

  /** One scanned session: its verdict is tallied, its reap recorded, and the other locks kept. */
  lemma ScanAtStep(order: seq<string>, i: int, vs: seq<HeartbeatVerdict>, c0: Records, l0: map<string, string>,
                   timeout: int, at: map<string, (int, int)>, faults: map<string, ReleaseFault>,
                   report: HeartbeatReport, containers: Records, sessions: Sessions,
                   heartbeat: map<string, int>, locks: map<string, string>, redisLock: bool, prefix: string,
                   containers': Records, locks': map<string, string>)
    requires ScanAt(order, i, vs, c0, l0, timeout, at, faults, report, containers, sessions, heartbeat, locks, redisLock, prefix)
    requires i < |order| && order[i] in faults
    requires containers' == if vs[i] == Reap
      then RecycleNames(containers, SessionList(sessions, order[i]), order[i], HeartbeatReason, at[order[i]].1)
      else containers
    requires forall k :: k != LockKey(order[i]) ==> (k in locks' <==> k in locks) && (k in locks' ==> locks'[k] == locks[k])
    requires !faults[order[i]].OtherError? ==> locks' == locks
    ensures ScanAt(order, i + 1, vs, c0, l0, timeout, at, faults, Tally(report, vs[i]), containers', sessions,
                   heartbeat, locks', redisLock, prefix)
  {
    ReapedSeqStep(c0, sessions, order, vs, at, i);
    ScanLockStep(order, i, l0, faults, locks, locks');
    TallyStep(vs, i);
  }

  /**
   * The `ContainerModel` a successful `create` builds, before validation:
   * RUNNING and bound when `meta` carries a session id, WARM otherwise.
   */
  function CreatedRecord(sessionId: string, name: string, engine: EngineOutcome, mountDir: Option<string>,
                         storagePath: Option<string>, runtimeToken: string, config: SandboxConfig,
                         meta: Option<Meta>, sandboxType: string, now: int): (r: ContainerRecord)
    requires engine.Started?
    ensures (config.timeout.Some? ==> config.timeout.value >= 0) ==> Validated(r)
  {
    var scheme := if engine.https then "https" else "http";
    ContainerRecord(
      sessionId, engine.containerId, name, scheme + "://" + engine.ip + ":" + IntToString(engine.port),
      [engine.port], Some(mountDir.GetOr("None")), storagePath, Some(runtimeToken), Some(config.image),
      Some(if meta.Some? then meta.value else map[]), config.timeout, Some(sandboxType),
      if MetaSession(meta).Some? then Running else Warm, MetaSession(meta), None, None, None, Some(now), None)
  }

  // ---------------------------------------------------------------------
  // Refilling the warm pool (`scan_pool_once`)
  // ---------------------------------------------------------------------

  /** The counters `scan_pool_once` returns. */
  datatype PoolReport = PoolReport(types: nat, created: nat, enqueued: nat, failedCreate: nat, skippedPoolDisabled: nat)

  /** A queue may hold `size` records; one that already held more is not shortened. */
  function FillLimit(size: int, before: int): int
  {
    if size > before then size else before
  }

  /** The queues only grew at their tails, and none passed `size` unless it already had. */
  ghost predicate QueuesGrown(p0: Pools, pools: Pools, size: int)
  {
    && pools.Keys == p0.Keys
    && forall t :: t in p0 ==> p0[t] <= pools[t] && |pools[t]| <= FillLimit(size, |p0[t]|)
  }

  /** Each record appended since `p0` is stored as queued, WARM, unbound and of its queue's type. */
  ghost predicate WarmAppended(p0: Pools, pools: Pools, containers: Records)
  {
    forall t, i :: t in p0 && t in pools && |p0[t]| <= i < |pools[t]| ==>
      pools[t][i].containerName in containers && containers[pools[t][i].containerName] == pools[t][i]
      && pools[t][i].state == Warm && pools[t][i].sessionCtxId == None && pools[t][i].sandboxType == Some(t)
  }

  /**
   * The old records `c0` are kept and the new records are exactly the
   * names queued since `q0`, of which there are `created`.
   */
  ghost predicate NewlyQueued(c0: Records, q0: set<string>, containers: Records, queued: set<string>, created: nat)
  {
    && (forall k :: k in c0 ==> k in containers && containers[k] == c0[k])
    && (forall k :: k in containers && k !in c0 ==> k in queued - q0)
    && q0 <= queued && queued - q0 <= containers.Keys
    && |queued - q0| == created
  }

  /**
   * How the records and the queues grew from `c0` and `p0` (whose queued
   * names are `q0`) once `created` WARM containers were created and queued.
   */
  ghost predicate PoolGrowth(c0: Records, q0: set<string>, p0: Pools, containers: Records, pools: Pools,
                             created: nat, size: int)
  {
    QueuesGrown(p0, pools, size) && WarmAppended(p0, pools, containers) && NewlyQueued(c0, q0, containers, Queued(pools), created)
  }

  /** Before anything is created nothing has grown. */
  lemma PoolGrowthNone(containers: Records, pools: Pools, size: int)
    ensures PoolGrowth(containers, Queued(pools), pools, containers, pools, 0, size)
  {
    assert Queued(pools) - Queued(pools) == {};
  }

  /** Storing and queuing one more WARM container of type `t` keeps the growth description. */
  lemma PoolGrowthStep(c0: Records, q0: set<string>, p0: Pools, cA: Records, pA: Pools, created: nat, size: int,
                       t: string, rec: ContainerRecord)
    requires PoolGrowth(c0, q0, p0, cA, pA, created, size)
    requires t in pA && |pA[t]| < size
    requires rec.containerName !in cA && rec.containerName !in Queued(pA)
    requires rec.state == Warm && rec.sessionCtxId == None && rec.sandboxType == Some(t)
    requires Queued(pA[t := pA[t] + [rec]]) == Queued(pA) + {rec.containerName}
    ensures PoolGrowth(c0, q0, p0, cA[rec.containerName := rec], pA[t := pA[t] + [rec]], created + 1, size)
  {
    QueuesGrownStep(p0, pA, size, t, rec);
    WarmAppendedStep(p0, pA, cA, t, rec);
    NewlyQueuedStep(c0, q0, cA, Queued(pA), created, rec);
  }

  lemma QueuesGrownStep(p0: Pools, pA: Pools, size: int, t: string, rec: ContainerRecord)
    requires QueuesGrown(p0, pA, size) && t in pA && |pA[t]| < size
    ensures QueuesGrown(p0, pA[t := pA[t] + [rec]], size)
  {
    var pB: Pools := pA[t := pA[t] + [rec]];
    forall u | u in p0 ensures p0[u] <= pB[u] && |pB[u]| <= FillLimit(size, |p0[u]|) {
      if u == t {
        assert pA[t] <= pB[t];
      }
    }
  }

  lemma WarmAppendedStep(p0: Pools, pA: Pools, cA: Records, t: string, rec: ContainerRecord)
    requires WarmAppended(p0, pA, cA) && t in pA && rec.containerName !in cA
    requires forall u :: u in p0 ==> u in pA && |p0[u]| <= |pA[u]|
    requires rec.state == Warm && rec.sessionCtxId == None && rec.sandboxType == Some(t)
    ensures WarmAppended(p0, pA[t := pA[t] + [rec]], cA[rec.containerName := rec])
  {
    var cB: Records, pB: Pools := cA[rec.containerName := rec], pA[t := pA[t] + [rec]];
    forall u, i | u in p0 && u in pB && |p0[u]| <= i < |pB[u]|
      ensures pB[u][i].containerName in cB && cB[pB[u][i].containerName] == pB[u][i]
      ensures pB[u][i].state == Warm && pB[u][i].sessionCtxId == None && pB[u][i].sandboxType == Some(u)
    {
      if !(u == t && i == |pA[t]|) {
        assert pB[u][i] == pA[u][i];
      }
    }
  }

  lemma NewlyQueuedStep(c0: Records, q0: set<string>, cA: Records, qA: set<string>, created: nat, rec: ContainerRecord)
    requires NewlyQueued(c0, q0, cA, qA, created) && rec.containerName !in cA && rec.containerName !in qA
    ensures NewlyQueued(c0, q0, cA[rec.containerName := rec], qA + {rec.containerName}, created + 1)
  {
    assert (qA + {rec.containerName}) - q0 == (qA - q0) + {rec.containerName};
  }

  /** Appending to one queue keeps every queue at least as long as in `p0`. */
  lemma LongerAt(p0: Pools, pA: Pools, t: string, rec: ContainerRecord)
    requires t in pA && forall u :: u in p0 ==> u in pA && |p0[u]| <= |pA[u]|
    ensures forall u :: u in p0 ==> u in pA[t := pA[t] + [rec]] && |p0[u]| <= |pA[t := pA[t] + [rec]][u]|
  {
  }

  /**
   * The queues of the types before `i` stay full when they only grow, and
   * so does that of type `i` once it reaches `size`.
   */
  lemma FullKept(types: seq<string>, i: int, pA: Pools, pB: Pools, size: int, full: bool)
    requires 0 <= i < |types|
    requires forall u :: u in pA ==> u in pB && |pA[u]| <= |pB[u]|
    requires pB.Keys == pA.Keys
    requires full && types[i] in pB ==> |pB[types[i]]| >= size
    ensures full && FullUpTo(types, i, pA, size) ==> FullUpTo(types, i + 1, pB, size)
  {
    assert types[..i + 1] == types[..i] + [types[i]];
  }

  /** The queues of the first `i` types that exist hold at least `size` records. */
  ghost predicate FullUpTo(types: seq<string>, i: int, pools: Pools, size: int)
    requires 0 <= i <= |types|
  {
    forall u :: u in types[..i] && u in pools ==> |pools[u]| >= size
  }

  /**
   * The state of `scan_pool_once` after the first `i` of the default
   * `types` with queue size `size`: `k` allocations of `allocs` used, the
   * counters of `r`, the growth since `c0`, `p0`, the later allocations
   * still fresh, and, when every creation succeeds (`allOk`), no failure
   * and the first `i` queues full.
   */
  ghost predicate RefillAt(types: seq<string>, size: int, prefix: string, allocs: seq<Alloc>, i: int, k: int,
                           r: PoolReport, c0: Records, p0: Pools, containers: Records, pools: Pools, allOk: bool)
  {
    && 0 <= i <= |types| && size > 0 && 0 <= k <= i * size && |types| * size <= |allocs|
    && r.types == i && r.created == r.enqueued && r.skippedPoolDisabled == 0 && r.created + r.failedCreate == k
    && PoolGrowth(c0, Queued(p0), p0, containers, pools, r.created, size)
    && Unrelated(prefix, SessionIds(allocs))
    && (forall j :: k <= j < |allocs| ==> FreshIn(prefix, allocs[j].sessionId, containers.Keys, Queued(pools)))
    && (allOk ==> r.failedCreate == 0 && FullUpTo(types, i, pools, size))
  }

  /** A type whose queue is missing or full is passed over. */
  lemma RefillSkip(types: seq<string>, size: int, prefix: string, allocs: seq<Alloc>, i: int, k: int,
                   r: PoolReport, c0: Records, p0: Pools, containers: Records, pools: Pools, allOk: bool)
    requires RefillAt(types, size, prefix, allocs, i, k, r, c0, p0, containers, pools, allOk) && i < |types|
    requires !(types[i] in pools && size - |pools[types[i]]| > 0)
    ensures RefillAt(types, size, prefix, allocs, i + 1, k, r.(types := r.types + 1), c0, p0, containers, pools, allOk)
  {
    AttemptsFit(i, |types|, size);
    FullKept(types, i, pools, pools, size, allOk);
  }

  /** A short queue has room for its `need` attempts among the allocations. */
  lemma RefillRoom(types: seq<string>, size: int, prefix: string, allocs: seq<Alloc>, i: int, k: int,
                   r: PoolReport, c0: Records, p0: Pools, containers: Records, pools: Pools, allOk: bool)
    requires RefillAt(types, size, prefix, allocs, i, k, r, c0, p0, containers, pools, allOk) && i < |types|
    requires types[i] in pools
    ensures k + (size - |pools[types[i]]|) <= |allocs|
  {
    AttemptsFit(i, |types|, size);
  }

  /**
   * The inner loop of `scan_pool_once` for type `t`, whose queue was short
   * by `need` in `pT`, after `m` attempts with the allocations from `k`:
   * `created` successes and `failed` failures, the growth since `c0`, `p0`
   * (where `before` containers had been queued), the later allocations
   * still fresh, and no failure so far when `t` is creatable and every
   * engine used started.
   */
  ghost predicate FillAt(t: string, size: int, prefix: string, allocs: seq<Alloc>, k: int, need: int, m: int,
                         created: nat, failed: nat, c0: Records, p0: Pools, before: nat, pT: Pools,
                         containers: Records, pools: Pools, creatable: bool)
  {
    && 0 <= k && 0 <= m <= need && k + need <= |allocs| && created + failed == m
    && t in pT && t in pools && |pools[t]| == |pT[t]| + created && |pT[t]| + need == size
    && PoolGrowth(c0, Queued(p0), p0, containers, pools, before + created, size)
    && (forall u :: u in pT ==> u in pools && |pT[u]| <= |pools[u]|)
    && Unrelated(prefix, SessionIds(allocs))
    && (forall j :: k + m <= j < |allocs| ==> FreshIn(prefix, allocs[j].sessionId, containers.Keys, Queued(pools)))
    && (creatable && (forall j :: k <= j < k + m ==> allocs[j].engine.Started?) ==> failed == 0)
  }

  /** A short queue starts its inner loop with no attempt made. */
  lemma FillStart(types: seq<string>, size: int, prefix: string, allocs: seq<Alloc>, i: int, k: int,
                  r: PoolReport, c0: Records, p0: Pools, containers: Records, pools: Pools, allOk: bool, creatable: bool)
    requires RefillAt(types, size, prefix, allocs, i, k, r, c0, p0, containers, pools, allOk) && i < |types|
    requires types[i] in pools && size - |pools[types[i]]| > 0
    ensures FillAt(types[i], size, prefix, allocs, k, size - |pools[types[i]]|, 0, 0, 0, c0, p0, r.created, pools,
                   containers, pools, creatable)
  {
    AttemptsFit(i, |types|, size);
  }

  /**
   * One attempt of the inner loop: when it succeeds, the record stored
   * under the fresh name `n` is queued at the tail of `t`'s queue; when it
   * fails, nothing changes.
   */
  lemma FillNext(t: string, size: int, prefix: string, allocs: seq<Alloc>, k: int, need: int, m: int,
                 created: nat, failed: nat, c0: Records, p0: Pools, before: nat, pT: Pools,
                 cA: Records, pA: Pools, containers: Records, pools: Pools, creatable: bool, ok: bool, n: string)
    requires FillAt(t, size, prefix, allocs, k, need, m, created, failed, c0, p0, before, pT, cA, pA, creatable)
    requires m < need && n == ContainerKey(prefix, allocs[k + m].sessionId)
    requires ok <==> creatable && allocs[k + m].engine.Started?
    requires !ok ==> containers == cA && pools == pA
    requires ok ==>
      && n !in cA && n !in Queued(pA) && n in containers
      && containers == cA[n := containers[n]] && containers[n].containerName == n
      && containers[n].state == Warm && containers[n].sessionCtxId == None && containers[n].sandboxType == Some(t)
      && pools == pA[t := pA[t] + [containers[n]]] && Queued(pools) == Queued(pA) + {n}
    requires containers.Keys <= cA.Keys + {n} && Queued(pools) <= Queued(pA) + {n}
    ensures FillAt(t, size, prefix, allocs, k, need, m + 1, if ok then created + 1 else created,
                   if ok then failed else failed + 1, c0, p0, before, pT, containers, pools, creatable)
  {
    FreshRest(prefix, allocs, k + m, cA.Keys, Queued(pA), containers.Keys, Queued(pools));
    if ok {
      var rec := containers[n];
      PoolGrowthStep(c0, Queued(p0), p0, cA, pA, before + created, size, t, rec);
      LongerAt(pT, pA, t, rec);
    }
  }

  /** A short queue after all its attempts: the next type is reached. */
  lemma FillDone(types: seq<string>, size: int, prefix: string, allocs: seq<Alloc>, i: int, k: int,
                 r: PoolReport, c0: Records, p0: Pools, cA: Records, pA: Pools, containers: Records, pools: Pools,
                 allOk: bool, creatable: bool, need: int, c: nat, f: nat)
    requires RefillAt(types, size, prefix, allocs, i, k, r, c0, p0, cA, pA, allOk) && i < |types|
    requires FillAt(types[i], size, prefix, allocs, k, need, need, c, f, c0, p0, r.created, pA, containers, pools, creatable)
    requires allOk ==> creatable && forall j :: k <= j < k + need ==> allocs[j].engine.Started?
    ensures RefillAt(types, size, prefix, allocs, i + 1, k + need,
                     r.(types := r.types + 1, created := r.created + c, enqueued := r.enqueued + c,
                        failedCreate := r.failedCreate + f),
                     c0, p0, containers, pools, allOk)
  {
    AttemptsFit(i, |types|, size);
    FullKept(types, i, pA, pools, size, allOk);
  }

  /** The name of a fresh id can be queued next to the queued names. */
  lemma FreshQueueable(prefix: string, sid: string, keys: set<string>, queued: set<string>)
    requires FreshIn(prefix, sid, keys, queued) && prefix != ""
    ensures ContainerKey(prefix, sid) != "" && ContainerKey(prefix, ContainerKey(prefix, sid)) != ContainerKey(prefix, sid)
    ensures forall q :: q in queued ==>
      ContainerKey(prefix, sid) != ContainerKey(prefix, q) && q != ContainerKey(prefix, ContainerKey(prefix, sid))
  {
    forall q | q in queued ensures ContainerKey(prefix, sid) != ContainerKey(prefix, q) {
      ContainerKeyInjective(prefix, sid, q);
    }
  }

  /** Queuing a stored, unbound record under a fresh name keeps the mapping invariants. */
  lemma EnqueueKeepsValid(prefix: string, containers: Records, sessions: Sessions, pools: Pools, t: string,
                          rec: ContainerRecord)
    requires Consistent(prefix, containers, sessions, pools) && t in pools
    requires rec.containerName in containers && containers[rec.containerName] == rec && !Truthy(rec.sessionCtxId)
    requires rec.containerName !in Queued(pools) && rec.containerName != ""
    requires ContainerKey(prefix, rec.containerName) !in containers
    requires forall q :: q in Queued(pools) ==>
      rec.containerName != ContainerKey(prefix, q) && q != ContainerKey(prefix, rec.containerName)
    ensures Consistent(prefix, containers, sessions, pools[t := pools[t] + [rec]])
    ensures Queued(pools[t := pools[t] + [rec]]) == Queued(pools) + {rec.containerName}
  {
    Enqueue(pools, t, rec);
  }

  /** `(i + 1) * size` is still within `n * size`. */
  lemma AttemptsFit(i: int, n: int, size: int)
    requires 0 <= i < n && size > 0
    ensures i * size + size == (i + 1) * size <= n * size
  {
    assert (i + 1) * size == i * size + size;
    assert n * size == (i + 1) * size + (n - i - 1) * size;
    assert (n - i - 1) * size >= 0;
  }

  // ---------------------------------------------------------------------
  // Deleting expired RELEASED records (`scan_released_cleanup_once`)
  // ---------------------------------------------------------------------

  /** The counters `scan_released_cleanup_once` returns. */
  datatype CleanupReport = CleanupReport(ttl: int, scanned: nat, deleted: nat, skippedTtlDisabled: nat,
                                         skippedNotExpired: nat, skippedNotReleased: nat, errors: nat)

  /** The report after a prefix of the scan, with the names deleted so far. */
  datatype CleanupState = CleanupState(report: CleanupReport, gone: seq<string>)

  /** `released_at or updated_at or 0`: an absent or zero time falls through to the next. */
  function ReleaseTime(c: ContainerRecord): (r: int)
    ensures TruthyInt(c.releasedAt) ==> r == c.releasedAt.value
    ensures !TruthyInt(c.releasedAt) && TruthyInt(c.updatedAt) ==> r == c.updatedAt.value
    ensures !TruthyInt(c.releasedAt) && !TruthyInt(c.updatedAt) ==> r == 0
  {
    if TruthyInt(c.releasedAt) then c.releasedAt.value
    else if TruthyInt(c.updatedAt) then c.updatedAt.value
    else 0
  }

  /** A record without a positive release time never expires; one with it expires `ttl` seconds later. */
  predicate ReleaseExpired(c: ContainerRecord, ttl: int, now: int)
  {
    ReleaseTime(c) > 0 && now - ReleaseTime(c) > ttl
  }

  /** The records the cleanup deletes once it reaches them. */
  predicate Deletable(c: ContainerRecord, ttl: int, now: int)
  {
    c.state == Released && ReleaseExpired(c, ttl, now)
  }

  /** The scan of one key: counted, then skipped or deleted by its stored record in `c0`. */
  function CleanupKey(s: CleanupState, c0: Records, key: string, ttl: int, now: int): CleanupState
  {
    var r := s.report.(scanned := s.report.scanned + 1);
    if key !in c0 then CleanupState(r, s.gone)
    else if c0[key].state != Released then CleanupState(r.(skippedNotReleased := r.skippedNotReleased + 1), s.gone)
    else if !ReleaseExpired(c0[key], ttl, now) then CleanupState(r.(skippedNotExpired := r.skippedNotExpired + 1), s.gone)
    else CleanupState(r.(deleted := r.deleted + 1), s.gone + [c0[key].containerName])
  }

  /**
   * The cleanup of `keys` in scan order, with a positive `ttl`: keys are
   * taken one by one until `maxDelete` records have been deleted.
   */
  function CleanupOf(c0: Records, keys: seq<string>, ttl: int, maxDelete: int, now: int): CleanupState
    decreases |keys|
  {
    if keys == [] then CleanupState(CleanupReport(ttl, 0, 0, 0, 0, 0, 0), [])
    else
      var prev := CleanupOf(c0, keys[..|keys| - 1], ttl, maxDelete, now);
      if prev.report.deleted >= maxDelete then prev else CleanupKey(prev, c0, keys[|keys| - 1], ttl, now)
  }

  /** The records stored in `c0` minus the deleted names. */
  function Remaining(c0: Records, gone: seq<string>): (r: Records)
    ensures r.Keys == c0.Keys - (set n | n in gone)
    ensures forall k :: k in r ==> r[k] == c0[k]
  {
    map k | k in c0 && k !in gone :: c0[k]
  }

  /**
   * What the cleanup did: it deleted at most `maxDelete` records (none when
   * that is not positive), each of them a stored RELEASED record that had
   * expired, each under one of the scanned keys; every scanned key is
   * counted once, skipped for one reason or deleted, and no error is
   * counted.
   */
  lemma {:induction false} CleanupSound(c0: Records, keys: seq<string>, ttl: int, maxDelete: int, now: int)
    requires RecordsValid(c0)
    ensures var s := CleanupOf(c0, keys, ttl, maxDelete, now);
      && s.report.ttl == ttl && s.report.errors == 0 && s.report.skippedTtlDisabled == 0
      && |s.gone| == s.report.deleted <= (if maxDelete > 0 then maxDelete else 0)
      && s.report.deleted + s.report.skippedNotExpired + s.report.skippedNotReleased <= s.report.scanned <= |keys|
      && forall n :: n in s.gone ==> n in keys && n in c0 && Deletable(c0[n], ttl, now)
  {
    if keys != [] {
      var init := keys[..|keys| - 1];
      CleanupSound(c0, init, ttl, maxDelete, now);
      assert forall n :: n in init ==> n in keys;
    }
  }

  /**
   * Until the limit is reached every key is scanned, and a key is deleted
   * exactly when its record is stored and deletable.
   */
  lemma {:induction false} CleanupComplete(c0: Records, keys: seq<string>, ttl: int, maxDelete: int, now: int)
    requires RecordsValid(c0) && Distinct(keys)
    requires CleanupOf(c0, keys, ttl, maxDelete, now).report.deleted < maxDelete
    ensures var s := CleanupOf(c0, keys, ttl, maxDelete, now);
      && s.report.scanned == |keys|
      && forall k :: k in keys ==> (k in s.gone <==> k in c0 && Deletable(c0[k], ttl, now))
  {
    if keys != [] {
      var init := keys[..|keys| - 1];
      var prev := CleanupOf(c0, init, ttl, maxDelete, now);
      assert prev.report.deleted <= CleanupOf(c0, keys, ttl, maxDelete, now).report.deleted;
      assert Distinct(init);
      CleanupComplete(c0, init, ttl, maxDelete, now);
      CleanupSound(c0, init, ttl, maxDelete, now);
      assert keys == init + [keys[|keys| - 1]];
      assert keys[|keys| - 1] !in init;
    }
  }

  /** A scan of one more key, while the limit is not reached. */
  lemma CleanupNext(c0: Records, keys: seq<string>, i: int, ttl: int, maxDelete: int, now: int)
    requires 0 <= i < |keys| && CleanupOf(c0, keys[..i], ttl, maxDelete, now).report.deleted < maxDelete
    ensures CleanupOf(c0, keys[..i + 1], ttl, maxDelete, now)
         == CleanupKey(CleanupOf(c0, keys[..i], ttl, maxDelete, now), c0, keys[i], ttl, now)
  {
    assert keys[..i + 1][..i] == keys[..i];
  }

  /** Once the limit is reached the rest of the scan changes nothing (the `break`). */
  lemma {:induction false} CleanupStopped(c0: Records, keys: seq<string>, i: int, ttl: int, maxDelete: int, now: int)
    requires 0 <= i <= |keys| && CleanupOf(c0, keys[..i], ttl, maxDelete, now).report.deleted >= maxDelete
    ensures CleanupOf(c0, keys, ttl, maxDelete, now) == CleanupOf(c0, keys[..i], ttl, maxDelete, now)
    decreases |keys| - i
  {
    if i < |keys| {
      assert keys[..i + 1][..i] == keys[..i];
      CleanupStopped(c0, keys, i + 1, ttl, maxDelete, now);
    } else {
      assert keys[..i] == keys;
    }
  }

  /** Deleting a RELEASED record keeps the mapping invariants: no session lists it. */
  lemma CleanupKeepsValid(prefix: string, containers: Records, sessions: Sessions, pools: Pools, n: string)
    requires Consistent(prefix, containers, sessions, pools) && n in containers && containers[n].state == Released
    ensures Consistent(prefix, containers - {n}, sessions, pools)
  {
    forall c, m | c in sessions && m in sessions[c] ensures m != n {
      assert containers[m].sessionCtxId == Some(c);
    }
  }

  /**
   * The scan of the `i`-th key against the current records, which are
   * `c0` minus the names deleted so far: the key sees its record of `c0`,
   * and deleting it keeps the invariants and the correspondence.
   */
  lemma CleanupAdvance(prefix: string, containers: Records, sessions: Sessions, pools: Pools, c0: Records,
                       keys: seq<string>, i: int, ttl: int, maxDelete: int, now: int, s: CleanupState)
    requires Consistent(prefix, containers, sessions, pools) && RecordsValid(c0) && Distinct(keys)
    requires 0 <= i < |keys| && CleanupOf(c0, keys[..i], ttl, maxDelete, now) == s && s.report.deleted < maxDelete
    requires containers == Remaining(c0, s.gone)
    ensures CleanupOf(c0, keys[..i + 1], ttl, maxDelete, now) == CleanupKey(s, c0, keys[i], ttl, now)
    ensures keys[i] in containers <==> keys[i] in c0
    ensures keys[i] in c0 ==> containers[keys[i]] == c0[keys[i]] && c0[keys[i]].containerName == keys[i]
    ensures keys[i] in c0 && Deletable(c0[keys[i]], ttl, now) ==>
      && Remaining(c0, s.gone + [keys[i]]) == containers - {keys[i]}
      && Consistent(prefix, containers - {keys[i]}, sessions, pools)
  {
    CleanupNext(c0, keys, i, ttl, maxDelete, now);
    CleanupSound(c0, keys[..i], ttl, maxDelete, now);
    assert keys[i] !in keys[..i];
    if keys[i] in c0 && Deletable(c0[keys[i]], ttl, now) {
      CleanupKeepsValid(prefix, containers, sessions, pools, keys[i]);
    }
  }

  // ---------------------------------------------------------------------
  // Releasing every live container (`cleanup`)
  // ---------------------------------------------------------------------

  /** RELEASED and RECYCLED records are already cleaned up logically. */
  predicate Terminal(s: ContainerState)
  {
    s == Released || s == Recycled
  }

  /** `sessions` lists `n` under the session `c`. */
  ghost predicate Lists(sessions: Sessions, c: string, n: string)
  {
    c in sessions && n in sessions[c]
  }

  /** The names of the queued snapshots that are not terminal, among those of the first `m` entries. */
  ghost function QueueTargets(q: seq<ContainerRecord>): set<string>
  {
    set i | 0 <= i < |q| && !Terminal(q[i].state) :: q[i].containerName
  }

  /** The names `cleanup` releases from the queues of the types `ts`. */
  ghost function PoolTargetsOf(pools: Pools, ts: seq<string>): set<string>
  {
    set t, i | t in ts && t in pools && 0 <= i < |pools[t]| && !Terminal(pools[t][i].state) :: pools[t][i].containerName
  }

  /** The names `cleanup` releases from the warm pool: those of its non-terminal snapshots. */
  ghost function PoolTargets(pools: Pools): set<string>
  {
    set t, i | t in pools && 0 <= i < |pools[t]| && !Terminal(pools[t][i].state) :: pools[t][i].containerName
  }

  /** The scanned keys whose stored record is not terminal. */
  ghost function ScanTargets(containers: Records, keys: seq<string>): set<string>
  {
    set k | k in keys && k in containers && !Terminal(containers[k].state)
  }

  /** The records of `c0` once the names in `gone` have been released at `now`. */
  function CleanedRecords(c0: Records, gone: set<string>, now: int): (r: Records)
    ensures r.Keys == c0.Keys
  {
    map k | k in c0 :: if k in gone then ReleasedRecord(c0[k], now) else c0[k]
  }

  /**
   * The state after releasing the names `gone`, from the records `c0` and
   * the session lists `s0`: each released record written back RELEASED,
   * and exactly the released names dropped from the session lists.
   */
  ghost predicate Cleaned(c0: Records, s0: Sessions, gone: set<string>, now: int, containers: Records, sessions: Sessions)
  {
    && containers == CleanedRecords(c0, gone, now)
    && forall c, n :: Lists(sessions, c, n) <==> Lists(s0, c, n) && n !in gone
  }

  /** Releasing a record twice at the same time is releasing it once. */
  lemma ReleasedTwice(c: ContainerRecord, now: int)
    ensures ReleasedRecord(ReleasedRecord(c, now), now) == ReleasedRecord(c, now)
  {
    var m := Unbind(c.MetaOrEmpty());
    assert Unbind(m) == m;
  }

  /** Releasing one more name extends the released set. */
  lemma CleanedGrow(c0: Records, gone: set<string>, now: int, n: string)
    ensures var c := CleanedRecords(c0, gone, now);
      && (n in c ==> c[n := ReleasedRecord(c[n], now)] == CleanedRecords(c0, gone + {n}, now))
      && (n !in c ==> c == CleanedRecords(c0, gone + {n}, now))
  {
    var c := CleanedRecords(c0, gone, now);
    if n in c {
      ReleasedTwice(c0[n], now);
    }
  }

  /** Detaching a stored record's name from its session drops exactly that name from the lists. */
  lemma DetachListing(sessions: Sessions, containers: Records, n: string)
    requires SessionsBound(sessions, containers) && n in containers
    ensures var c := containers[n];
      forall x, m :: Lists(DetachFromSession(sessions, OrElse(c.sessionCtxId, c.MetaCtx()), n), x, m) <==>
        Lists(sessions, x, m) && m != n
  {
    var c := containers[n];
    var ctx := OrElse(c.sessionCtxId, c.MetaCtx());
    var r := DetachFromSession(sessions, ctx, n);
    forall x, m | Lists(sessions, x, m) && m != n ensures Lists(r, x, m) {
      if Truthy(ctx) && x == ctx.value {
        assert m in RemoveName(SessionList(sessions, x), n);
      }
    }
  }

  /** Dequeuing the head of a queue keeps the mapping invariants. */
  lemma DequeueKeepsValid(prefix: string, containers: Records, sessions: Sessions, pools: Pools, t: string)
    requires Consistent(prefix, containers, sessions, pools) && t in pools && pools[t] != []
    ensures Consistent(prefix, containers, sessions, pools[t := pools[t][1..]])
    ensures Queued(pools[t := pools[t][1..]]) <= Queued(pools)
  {
    Dequeue(pools, t);
  }

  /** One more entry of a queue drained. */
  lemma QueueTargetsStep(q: seq<ContainerRecord>, m: int)
    requires 0 <= m < |q|
    ensures QueueTargets(q[..m + 1]) == QueueTargets(q[..m]) + (if Terminal(q[m].state) then {} else {q[m].containerName})
  {
    var a, b := q[..m + 1], q[..m];
    forall x | x in QueueTargets(a) ensures x in QueueTargets(b) + (if Terminal(q[m].state) then {} else {q[m].containerName}) {
      var i :| 0 <= i < |a| && !Terminal(a[i].state) && a[i].containerName == x;
      if i < m {
        assert b[i] == a[i];
      }
    }
    forall x | x in QueueTargets(b) ensures x in QueueTargets(a) {
      var i :| 0 <= i < |b| && !Terminal(b[i].state) && b[i].containerName == x;
      assert a[i] == b[i];
    }
    if !Terminal(q[m].state) {
      assert a[m] == q[m];
    }
  }

  /**
   * The queues after the first loop of `cleanup` has drained the first
   * `j` of the types `types`, which list the types of `p0`.
   */
  ghost predicate DrainedTo(p0: Pools, types: seq<string>, j: int, pools: Pools)
    requires 0 <= j <= |types|
  {
    && (forall t :: t in p0 <==> t in types)
    && pools.Keys == p0.Keys
    && forall t :: t in pools ==> pools[t] == if t in types[..j] then [] else p0[t]
  }

  /** The names released once the first `j` types are drained. */
  ghost function PoolGone(p0: Pools, types: seq<string>, j: int): set<string>
    requires 0 <= j <= |types|
  {
    PoolTargetsOf(p0, types[..j])
  }

  /** One more queue drained: it still held its entries of `p0`. */
  lemma DrainedStep(p0: Pools, types: seq<string>, j: int, pools: Pools)
    requires 0 <= j < |types| && Distinct(types) && DrainedTo(p0, types, j, pools)
    ensures types[j] in pools && pools[types[j]] == p0[types[j]]
    ensures DrainedTo(p0, types, j + 1, pools[types[j] := []])
    ensures PoolGone(p0, types, j + 1) == PoolGone(p0, types, j) + QueueTargets(p0[types[j]])
  {
    var t := types[j];
    assert types[..j + 1] == types[..j] + [t];
    assert t !in types[..j];
    forall x | x in PoolTargetsOf(p0, types[..j + 1])
      ensures x in PoolTargetsOf(p0, types[..j]) + QueueTargets(p0[t])
    {
      var u, i :| u in types[..j + 1] && u in p0 && 0 <= i < |p0[u]| && !Terminal(p0[u][i].state) && p0[u][i].containerName == x;
      if u != t {
        assert u in types[..j];
      }
    }
  }

  /** The ends of the first loop of `cleanup`. */
  lemma DrainedEnds(p0: Pools, types: seq<string>, pools: Pools)
    requires forall t :: t in p0 <==> t in types
    ensures DrainedTo(p0, types, 0, p0) && PoolGone(p0, types, 0) == {}
    ensures PoolGone(p0, types, |types|) == PoolTargets(p0)
    ensures DrainedTo(p0, types, |types|, pools) ==> pools.Keys == p0.Keys && forall t :: t in pools ==> pools[t] == []
  {
    assert types[..|types|] == types;
  }

  /** The names released once the first `i` scanned keys are done, after `gone`. */
  ghost function LiveGone(gone: set<string>, containers: Records, keys: seq<string>, i: int): set<string>
    requires 0 <= i <= |keys|
  {
    gone + ScanTargets(containers, keys[..i])
  }

  /** One more scanned key, released when its record is stored and not terminal. */
  lemma LiveGoneStep(gone: set<string>, containers: Records, keys: seq<string>, i: int)
    requires 0 <= i < |keys|
    ensures LiveGone(gone, containers, keys, i + 1) ==
      if keys[i] in containers && !Terminal(containers[keys[i]].state) then LiveGone(gone, containers, keys, i) + {keys[i]}
      else LiveGone(gone, containers, keys, i)
  {
    assert keys[..i + 1] == keys[..i] + [keys[i]];
  }

  /** The ends of the scan. */
  lemma LiveGoneEnds(gone: set<string>, containers: Records, keys: seq<string>)
    ensures LiveGone(gone, containers, keys, 0) == gone
    ensures LiveGone(gone, containers, keys, |keys|) == gone + ScanTargets(containers, keys)
  {
    assert keys[..|keys|] == keys;
  }

  /** The names released once the first `m` entries of the queue `q` are done, after `gone`. */
  ghost function DrainGone(gone: set<string>, q: seq<ContainerRecord>, m: int): set<string>
    requires 0 <= m <= |q|
  {
    gone + QueueTargets(q[..m])
  }

  /** One more dequeued entry, released when its snapshot is not terminal. */
  lemma DrainGoneStep(gone: set<string>, q: seq<ContainerRecord>, m: int)
    requires 0 <= m < |q|
    ensures DrainGone(gone, q, m + 1) ==
      if Terminal(q[m].state) then DrainGone(gone, q, m) else DrainGone(gone, q, m) + {q[m].containerName}
  {
    QueueTargetsStep(q, m);
  }

  /** The ends of the drain. */
  lemma DrainGoneEnds(gone: set<string>, q: seq<ContainerRecord>)
    ensures DrainGone(gone, q, 0) == gone
    ensures DrainGone(gone, q, |q|) == gone + QueueTargets(q)
  {
    assert q[..|q|] == q;
    assert QueueTargets(q[..0]) == {};
  }

  /**
   * After `cleanup` every scanned or queued name that is stored holds a
   * terminal record, and a record keeps its value unless it is released.
   */
  lemma CleanupLeavesTerminal(c0: Records, p0: Pools, keys: seq<string>, now: int)
    ensures var r := CleanedRecords(c0, PoolTargets(p0) + ScanTargets(c0, keys), now);
      && (forall k :: k in r && (k in keys || k in PoolTargets(p0)) ==> Terminal(r[k].state))
      && (forall k :: k in r && r[k] != c0[k] ==> r[k] == ReleasedRecord(c0[k], now))
  {
  }

  class Manager {
    var containers: Records
    var sessions: Sessions
    var pools: Pools
    const hb: HeartbeatStore
    /** `config.container_prefix_key`. */
    const prefix: string
    /** The values of the `SandboxType` enumeration. */
    const knownTypes: set<string>
    /** `SandboxRegistry`: the registered configuration of each type. */
    const registry: map<string, SandboxConfig>
    /** `default_type`, the types the warm pool keeps filled. */
    const defaultType: seq<string>
    /** `pool_size`. */
    const poolSize: int
    /** `config.allow_mount_dir`. */
    const allowMountDir: bool
    /** `default_mount_dir`, empty when not configured. */
    const defaultMountDir: string
    /** `storage_folder`, empty when not configured. */
    const storageFolder: string

    /** Valid: the mapping invariants hold together. */
    ghost predicate Valid()
      reads this
    {
      Consistent(prefix, containers, sessions, pools)
    }

    /** A session id `create` may draw in the current state. */
    ghost predicate FreshSession(sid: string)
      reads this
    {
      FreshIn(prefix, sid, containers.Keys, Queued(pools))
    }

    constructor (prefix: string, knownTypes: set<string>, registry: map<string, SandboxConfig>,
                 defaultType: seq<string>, poolSize: int, allowMountDir: bool, defaultMountDir: string,
                 storageFolder: string, redisLock: bool)
      requires prefix != "" && forall t :: t in defaultType ==> t in knownTypes
      ensures Valid() && fresh(hb) && hb.redisLock == redisLock
      ensures hb.heartbeat == map[] && hb.recycled == map[] && hb.locks == map[]
      ensures this.prefix == prefix && this.knownTypes == knownTypes && this.registry == registry
      ensures this.defaultType == defaultType && this.poolSize == poolSize && this.allowMountDir == allowMountDir
      ensures this.defaultMountDir == defaultMountDir && this.storageFolder == storageFolder
      ensures containers == map[] && sessions == map[]
      ensures pools.Keys == (set t | t in defaultType) && forall t :: t in pools ==> pools[t] == []
    {
      this.prefix := prefix;
      this.knownTypes := knownTypes;
      this.registry := registry;
      this.defaultType := defaultType;
      this.poolSize := poolSize;
      this.allowMountDir := allowMountDir;
      this.defaultMountDir := defaultMountDir;
      this.storageFolder := storageFolder;
      containers := map[];
      sessions := map[];
      pools := map t | t in defaultType :: [];
      hb := new HeartbeatStore(redisLock);
    }

    /**
     * The sandbox type `create` uses: the requested one, which must be a
     * `SandboxType` value, else the first default type.
     */
    function TargetType(sandboxType: Option<string>): (r: Result<string>)
      ensures sandboxType.Some? ==> (r.Ok? <==> sandboxType.value in knownTypes) && (r.Ok? ==> r.value == sandboxType.value)
      ensures sandboxType.None? ==> (r.Ok? <==> defaultType != []) && (r.Ok? ==> r.value == defaultType[0])
    {
      if sandboxType.Some? then
        if sandboxType.value in knownTypes then Ok(sandboxType.value)
        else Err("ValueError", "'" + sandboxType.value + "' is not a valid SandboxType")
      else if defaultType != [] then Ok(defaultType[0])
      else Err("IndexError", "list index out of range")
    }

    /**
     * The registry entry of a type, falling back to that of the first
     * default type: an empty `default_type` raises `IndexError` there, and
     * an unregistered first default type leaves `None`, whose `image_name`
     * raises `AttributeError`.
     */
    function ConfigFor(target: string): (r: Result<SandboxConfig>)
      ensures target in registry ==> r == Ok(registry[target])
      ensures target !in registry ==> (r.Ok? <==> defaultType != [] && defaultType[0] in registry)
      ensures target !in registry && r.Ok? ==> r.value == registry[defaultType[0]]
      ensures target !in registry && defaultType == [] ==> r.Err? && r.kind == "IndexError"
      ensures target !in registry && defaultType != [] && defaultType[0] !in registry ==>
        r.Err? && r.kind == "AttributeError"
    {
      if target in registry then Ok(registry[target])
      else if defaultType == [] then Err("IndexError", "list index out of range")
      else if defaultType[0] in registry then Ok(registry[defaultType[0]])
      else Err("AttributeError", "'NoneType' object has no attribute 'image_name'")
    }

    /** The mount directory `create` records, before `str()`. */
    function MountDirFor(mountDir: Option<string>, sessionId: string): (r: Option<string>)
      ensures Truthy(mountDir) && allowMountDir ==> r == mountDir
      ensures !(Truthy(mountDir) && allowMountDir) && defaultMountDir != "" ==> r == Some(PathJoin(defaultMountDir, sessionId))
      ensures !(Truthy(mountDir) && allowMountDir) && defaultMountDir == "" ==> r == mountDir
    {
      if (!Truthy(mountDir) || !allowMountDir) && defaultMountDir != "" then Some(PathJoin(defaultMountDir, sessionId))
      else mountDir
    }

    /** The storage path `create` records. */
    function StoragePathFor(storagePath: Option<string>, sessionId: string): (r: Option<string>)
      ensures storagePath.Some? ==> r == storagePath
      ensures storagePath.None? ==> (r.Some? <==> storageFolder != "")
      ensures storagePath.None? && r.Some? ==> r.value == PathJoin(storageFolder, sessionId)
    {
      if storagePath.None? && storageFolder != "" then Some(PathJoin(storageFolder, sessionId)) else storagePath
    }

    /**
     * `get_info`: the record stored under the identity, else under
     * prefix + identity; RuntimeError when there is neither.
     */
    method GetInfo(identity: string) returns (r: Result<ContainerRecord>)
      ensures r.Err? <==> identity !in containers && ContainerKey(prefix, identity) !in containers
      ensures r.Ok? && identity in containers ==> r.value == containers[identity]
      ensures r.Ok? && identity !in containers ==> r.value == containers[ContainerKey(prefix, identity)]
    {
      if identity in containers {
        return Ok(containers[identity]);
      }
      var key := ContainerKey(prefix, identity);
      if key in containers {
        return Ok(containers[key]);
      }
      return Err("RuntimeError", "No container found with id: " + identity + ".");
    }

    /**
     * `get_session_ctx_id_by_identity`: nothing for an unknown container,
     * otherwise the session id in its `meta`, which for a validated record
     * is the one in its field whenever it is truthy.
     */
    function GetSessionCtxIdByIdentity(identity: string): (r: Option<string>)
      requires Valid()
      reads this
      ensures Find(containers, prefix, identity).None? ==> r.None?
      ensures Find(containers, prefix, identity).Some? && Truthy(r) ==> Find(containers, prefix, identity).value.sessionCtxId == r
      ensures Find(containers, prefix, identity).Some? && Truthy(Find(containers, prefix, identity).value.sessionCtxId) ==>
        r == Find(containers, prefix, identity).value.sessionCtxId
    {
      var found := Find(containers, prefix, identity);
      if found.None? then None else found.value.MetaCtx()
    }

    /**
     * `release`: an unknown identity is already released. Otherwise the
     * record is detached from its session and written back RELEASED; the
     * result is false only when the storage upload fails.
     */
    method Release(identity: string, uploadFails: bool, now: int) returns (ok: bool)
      requires Valid()
      modifies this`containers, this`sessions
      ensures Valid() && containers.Keys == old(containers).Keys
      ensures identity in Queued(pools) ==> sessions == old(sessions)
      ensures Find(old(containers), prefix, identity).None? ==>
        ok && containers == old(containers) && sessions == old(sessions)
      ensures Find(old(containers), prefix, identity).Some? ==> (
        var c := Find(old(containers), prefix, identity).value;
        && containers == old(containers)[c.containerName := ReleasedRecord(c, now)]
        && sessions == DetachFromSession(old(sessions), OrElse(c.sessionCtxId, c.MetaCtx()), c.containerName)
        && ok == !(uploadFails && Truthy(c.mountDir) && Truthy(c.storagePath)))
    {
      var found := Find(containers, prefix, identity);
      if found.None? {
        return true;
      }
      var key := if identity in containers then identity else ContainerKey(prefix, identity);
      assert found.value == containers[key] && found.value.containerName == key;
      var parsed := CompatAndDefaults(found.value, now);
      var info := parsed.value;
      var ctx := OrElse(info.sessionCtxId, info.MetaCtx());
      sessions := DetachFromSession(sessions, ctx, info.containerName);
      containers := containers[info.containerName := ReleasedRecord(info, now)];
      // stop/remove errors are ignored; only the upload can fail the call
      ok := !(uploadFails && Truthy(info.mountDir) && Truthy(info.storagePath));
      ReleaseKeepsBound(old(sessions), old(containers), info, now);
    }

    /**
     * When `create` stores a container: the type and its configuration
     * resolve, no environment value is `None`, the engine starts it and the
     * record validates (its timeout is not negative).
     */
    predicate CreateSucceeds(sandboxType: Option<string>, environment: map<string, Option<string>>, engine: EngineOutcome)
    {
      && TargetType(sandboxType).Ok? && ConfigFor(TargetType(sandboxType).value).Ok?
      && !EnvHasNone(ConfigFor(TargetType(sandboxType).value).value.environment + environment)
      && engine.Started?
      && (ConfigFor(TargetType(sandboxType).value).value.timeout.Some? ==>
            ConfigFor(TargetType(sandboxType).value).value.timeout.value >= 0)
    }

    /**
     * The writes at the end of a successful `create`: the record is stored
     * under its name, and when bound it joins its session's list and the
     * session gets a heartbeat.
     */
    method Register(rec: ContainerRecord, ctx: Option<string>, now: int)
      requires Valid() && Validated(rec) && rec.containerName !in Queued(pools)
      requires rec.containerName in containers ==> !Truthy(containers[rec.containerName].sessionCtxId)
      requires forall q :: q in Queued(pools) ==> rec.containerName != ContainerKey(prefix, q)
      requires ctx.Some? ==> ctx.value != "" && rec.sessionCtxId == ctx
      requires rec.state == Released ==> rec.sessionCtxId == None
      modifies this`containers, this`sessions, hb`heartbeat
      ensures Valid()
      ensures containers == old(containers)[rec.containerName := rec]
      ensures sessions == Attach(old(sessions), ctx, rec.containerName)
      ensures hb.heartbeat == if ctx.Some? then old(hb.heartbeat)[ctx.value := now] else old(hb.heartbeat)
    {
      AttachKeepsBound(sessions, containers, rec, ctx);
      containers := containers[rec.containerName := rec];
      sessions := Attach(sessions, ctx, rec.containerName);
      if ctx.Some? {
        var _ := hb.UpdateHeartbeat(ctx.value, None, now);
        // `clear_container_recycle_marker` is taken to do what its name says,
        // which leaves this fresh record as it is (see `CreateAsWritten`)
      }
    }

    /**
     * `create` (its bookkeeping) up to its call of
     * `clear_container_recycle_marker`: resolve the type and its
     * configuration, merge the environment, start a container named prefix +
     * `sessionId` and record it RUNNING and bound when `meta` carries a
     * session id, WARM otherwise; a bound container joins its session's list
     * once and gets its first heartbeat. A bad type or a missing
     * configuration raises; a `None` environment value, an engine failure or
     * an invalid record gives `None` and changes nothing. For an unbound
     * container this is the whole of `create`.
     */
    method CreateStored(sandboxType: Option<string>, mountDir: Option<string>, storagePath: Option<string>,
                  environment: map<string, Option<string>>, meta: Option<Meta>,
                  sessionId: string, runtimeToken: string, engine: EngineOutcome, now: int)
      returns (r: Result<Option<string>>)
      requires Valid() && FreshSession(sessionId)
      modifies this`containers, this`sessions, hb`heartbeat
      ensures Valid()
      ensures r.Err? <==> TargetType(sandboxType).Err? || ConfigFor(TargetType(sandboxType).value).Err?
      ensures r.Ok? && r.value.Some? <==> CreateSucceeds(sandboxType, environment, engine)
      ensures !(r.Ok? && r.value.Some?) ==>
        containers == old(containers) && sessions == old(sessions) && hb.heartbeat == old(hb.heartbeat)
      ensures r.Ok? && r.value.Some? ==> (
        var name := ContainerKey(prefix, sessionId);
        var ctx := MetaSession(meta);
        && r.value.value == name && name !in old(containers)
        && containers == old(containers)[name := CreatedRecord(sessionId, name, engine, MountDirFor(mountDir, sessionId),
                                                               StoragePathFor(storagePath, sessionId), runtimeToken,
                                                               ConfigFor(TargetType(sandboxType).value).value, meta,
                                                               TargetType(sandboxType).value, now)]
        && containers[name].state == (if ctx.Some? then Running else Warm)
        && containers[name].sessionCtxId == ctx
        && sessions == Attach(old(sessions), ctx, name)
        && hb.heartbeat == (if ctx.Some? then old(hb.heartbeat)[ctx.value := now] else old(hb.heartbeat)))
    {
      var ctx := MetaSession(meta);
      var target := TargetType(sandboxType);
      if target.Err? {
        return Err(target.kind, target.message);
      }
      var config := ConfigFor(target.value);
      if config.Err? {
        return Err(config.kind, config.message);
      }
      var env := config.value.environment + environment;
      if EnvHasNone(env) {
        return Ok(None);
      }
      var md := MountDirFor(mountDir, sessionId);
      var sp := StoragePathFor(storagePath, sessionId);
      var name := ContainerKey(prefix, sessionId);
      var stored := Launch(name, sessionId, runtimeToken, engine, md, sp, config.value, meta, target.value, now);
      return Ok(if stored then Some(name) else None);
    }

    /**
     * `create`: `CreateStored`, after which a bound container's session no
     * longer needs a restore (`clear_container_recycle_marker` is taken to
     * clear the session's recycled marker, as the heartbeat tests' stand-in
     * managers do right after the first heartbeat).
     */
    method Create(sandboxType: Option<string>, mountDir: Option<string>, storagePath: Option<string>,
                  environment: map<string, Option<string>>, meta: Option<Meta>,
                  sessionId: string, runtimeToken: string, engine: EngineOutcome, now: int)
      returns (r: Result<Option<string>>)
      requires Valid() && FreshSession(sessionId)
      modifies this`containers, this`sessions, hb`heartbeat, hb`recycled
      ensures Valid()
      ensures r.Err? <==> TargetType(sandboxType).Err? || ConfigFor(TargetType(sandboxType).value).Err?
      ensures r.Ok? && r.value.Some? <==> CreateSucceeds(sandboxType, environment, engine)
      ensures !(r.Ok? && r.value.Some?) ==>
        containers == old(containers) && sessions == old(sessions) && hb.heartbeat == old(hb.heartbeat)
        && hb.recycled == old(hb.recycled)
      ensures r.Ok? && r.value.Some? ==> (
        var name := ContainerKey(prefix, sessionId);
        var ctx := MetaSession(meta);
        && r.value.value == name && name !in old(containers)
        && containers == old(containers)[name := CreatedRecord(sessionId, name, engine, MountDirFor(mountDir, sessionId),
                                                               StoragePathFor(storagePath, sessionId), runtimeToken,
                                                               ConfigFor(TargetType(sandboxType).value).value, meta,
                                                               TargetType(sandboxType).value, now)]
        && containers[name].state == (if ctx.Some? then Running else Warm)
        && containers[name].sessionCtxId == ctx
        && sessions == Attach(old(sessions), ctx, name)
        && hb.heartbeat == (if ctx.Some? then old(hb.heartbeat)[ctx.value := now] else old(hb.heartbeat))
        && hb.recycled == (if ctx.Some? then old(hb.recycled) - {ctx.value} else old(hb.recycled))
        && (ctx.Some? ==> !hb.NeedsRestore(ctx.value)))
    {
      r := CreateStored(sandboxType, mountDir, storagePath, environment, meta, sessionId, runtimeToken, engine, now);
      var ctx := MetaSession(meta);
      if r.Ok? && r.value.Some? && ctx.Some? {
        hb.ClearSessionRecycled(ctx.value);
      }
    }

    /**
     * `create` as written. Once a bound container is stored, listed and
     * given its heartbeat, `create` calls
     * `clear_container_recycle_marker`, which neither the manager nor its
     * heartbeat mixin defines: the `AttributeError` is caught, the new
     * container is released, and the result is `None`. An unbound
     * container is created as `Create` describes.
     */
    method CreateAsWritten(sandboxType: Option<string>, mountDir: Option<string>, storagePath: Option<string>,
                           environment: map<string, Option<string>>, meta: Option<Meta>,
                           sessionId: string, runtimeToken: string, engine: EngineOutcome, uploadFails: bool, now: int)
      returns (r: Result<Option<string>>)
      requires Valid() && FreshSession(sessionId)
      modifies this`containers, this`sessions, hb`heartbeat
      ensures Valid()
      ensures r.Err? <==> TargetType(sandboxType).Err? || ConfigFor(TargetType(sandboxType).value).Err?
      ensures MetaSession(meta).None? ==> (r.Ok? && r.value.Some? <==> CreateSucceeds(sandboxType, environment, engine))
      ensures MetaSession(meta).Some? ==> !(r.Ok? && r.value.Some?)
      ensures MetaSession(meta).Some? && CreateSucceeds(sandboxType, environment, engine) ==> (
        var name := ContainerKey(prefix, sessionId);
        var ctx := MetaSession(meta).value;
        && name !in old(containers) && name in containers && containers[name].state == Released
        && (forall c :: SessionList(sessions, c) == SessionList(old(sessions), c))
        && hb.heartbeat == old(hb.heartbeat)[ctx := now])
      ensures forall k :: k in old(containers) ==> k in containers && containers[k] == old(containers)[k]
      ensures MetaSession(meta).Some? ==> forall c :: SessionList(sessions, c) == SessionList(old(sessions), c)
    {
      ghost var s0 := sessions;
      r := CreateStored(sandboxType, mountDir, storagePath, environment, meta, sessionId, runtimeToken, engine, now);
      var ctx := MetaSession(meta);
      if r.Ok? && r.value.Some? && ctx.Some? {
        var name := r.value.value;
        assert name !in SessionList(s0, ctx.value);
        AttachDetached(s0, ctx.value, name);
        var _ := Release(name, uploadFails, now);
        r := Ok(None);
      }
    }

    /**
     * The end of `create`: start the container, validate its record and
     * store it. An engine failure or an invalid record releases the (still
     * absent) name, which changes nothing.
     */
    method Launch(name: string, sessionId: string, runtimeToken: string, engine: EngineOutcome,
                  md: Option<string>, sp: Option<string>, config: SandboxConfig, meta: Option<Meta>,
                  target: string, now: int) returns (stored: bool)
      requires Valid() && FreshSession(sessionId) && name == ContainerKey(prefix, sessionId)
      modifies this`containers, this`sessions, hb`heartbeat
      ensures Valid()
      ensures stored <==> engine.Started? && (config.timeout.Some? ==> config.timeout.value >= 0)
      ensures !stored ==> containers == old(containers) && sessions == old(sessions) && hb.heartbeat == old(hb.heartbeat)
      ensures stored ==> (
        var ctx := MetaSession(meta);
        && containers == old(containers)[name := CreatedRecord(sessionId, name, engine, md, sp, runtimeToken, config, meta, target, now)]
        && sessions == Attach(old(sessions), ctx, name)
        && hb.heartbeat == (if ctx.Some? then old(hb.heartbeat)[ctx.value := now] else old(hb.heartbeat)))
    {
      if !engine.Started? {
        // the failure is caught and the (absent) record released
        var _ := Release(name, false, now);
        return false;
      }
      var raw := CreatedRecord(sessionId, name, engine, md, sp, runtimeToken, config, meta, target, now);
      var parsed := CompatAndDefaults(raw, now);
      if parsed.Err? {
        var _ := Release(name, false, now);
        return false;
      }
      Register(parsed.value, MetaSession(meta), now);
      return true;
    }

    /**
     * `_bind_meta`: nothing for a falsy `meta`; otherwise the record is
     * rewritten with it (RUNNING iff it carries a truthy session id), and a
     * bound container joins its session's list once, its session no longer
     * needs a restore (see `Create`) and gets a heartbeat.
     */
    method BindMeta(e: ContainerRecord, meta: Option<Meta>, now: int)
      requires Valid() && Validated(e) && e.containerName !in Queued(pools)
      requires e.containerName in containers ==> !Truthy(containers[e.containerName].sessionCtxId)
      requires forall q :: q in Queued(pools) ==> e.containerName != ContainerKey(prefix, q)
      modifies this`containers, this`sessions, hb`heartbeat, hb`recycled
      ensures Valid()
      ensures (meta.None? || meta.value == map[]) ==>
        containers == old(containers) && sessions == old(sessions) && hb.heartbeat == old(hb.heartbeat)
      ensures meta.Some? && meta.value != map[] ==> (
        var ctx := MetaSession(meta);
        && containers == old(containers)[e.containerName := BoundRecord(e, meta.value, now)]
        && sessions == Attach(old(sessions), ctx, e.containerName)
        && hb.heartbeat == (if ctx.Some? then old(hb.heartbeat)[ctx.value := now] else old(hb.heartbeat)))
      ensures hb.recycled == (if MetaSession(meta).Some? then old(hb.recycled) - {MetaSession(meta).value} else old(hb.recycled))
      ensures MetaSession(meta).Some? ==> !hb.NeedsRestore(MetaSession(meta).value)
    {
      if meta.None? || meta.value == map[] {
        return;
      }
      var ctx := MetaSession(meta);
      Register(BoundRecord(e, meta.value, now), ctx, now);
      if ctx.Some? {
        hb.ClearSessionRecycled(ctx.value);
      }
    }

    /**
     * `_bind_meta` as written. For a container bound to a session, the
     * record is rewritten and the name listed, and then the call to
     * `clear_container_recycle_marker`, which neither the manager nor its
     * heartbeat mixin defines, raises before the heartbeat is written: the
     * container is left RUNNING and listed for the session, and
     * `create_from_pool` falls back to `create`.
     */
    method BindMetaAsWritten(e: ContainerRecord, meta: Option<Meta>, now: int) returns (raised: bool)
      requires Valid() && Validated(e) && e.containerName !in Queued(pools)
      requires e.containerName in containers ==> !Truthy(containers[e.containerName].sessionCtxId)
      requires forall q :: q in Queued(pools) ==> e.containerName != ContainerKey(prefix, q)
      modifies this`containers, this`sessions
      ensures Valid()
      ensures raised <==> MetaSession(meta).Some?
      ensures (meta.None? || meta.value == map[]) ==> containers == old(containers) && sessions == old(sessions)
      ensures meta.Some? && meta.value != map[] ==>
        && containers == old(containers)[e.containerName := BoundRecord(e, meta.value, now)]
        && sessions == Attach(old(sessions), MetaSession(meta), e.containerName)
      ensures raised ==> containers[e.containerName].state == Running && e.containerName in sessions[MetaSession(meta).value]
    {
      if meta.None? || meta.value == map[] {
        return false;
      }
      var ctx := MetaSession(meta);
      var rec := BoundRecord(e, meta.value, now);
      AttachKeepsBound(sessions, containers, rec, ctx);
      containers := containers[e.containerName := rec];
      sessions := Attach(sessions, ctx, e.containerName);
      raised := ctx.Some?;
    }

    /** The type `create_from_pool` asks for: the requested one if truthy, else the first default. */
    function PoolType(sandboxType: Option<string>): (r: Result<string>)
      ensures r.Ok? ==> r.value in knownTypes
      ensures Truthy(sandboxType) ==> (r.Ok? <==> sandboxType.value in knownTypes) && (r.Ok? ==> r.value == sandboxType.value)
      ensures !Truthy(sandboxType) ==> (r.Ok? <==> defaultType != [] && defaultType[0] in knownTypes)
      ensures !Truthy(sandboxType) && r.Ok? ==> r.value == defaultType[0]
    {
      var t := if Truthy(sandboxType) then sandboxType.value else if defaultType != [] then defaultType[0] else "";
      if !Truthy(sandboxType) && defaultType == [] then Err("IndexError", "list index out of range")
      else if t in knownTypes then Ok(t)
      else Err("ValueError", "'" + t + "' is not a valid SandboxType")
    }

    /** `SandboxRegistry.get_image_by_type`. */
    function ImageOf(t: string): (r: Option<string>)
      ensures r.Some? <==> t in registry
      ensures r.Some? ==> r.value == registry[t].image
    {
      if t in registry then Some(registry[t].image) else None
    }

    /**
     * `create_from_pool`: hand out the head of the type's warm queue when it
     * is current and alive, binding it to `meta`; a stale or dead head is
     * released and dropped. Otherwise (no queue, empty queue, a dropped
     * head, or an engine error) a new container is created.
     */
    method CreateFromPool(sandboxType: Option<string>, meta: Option<Meta>, probe: PoolProbe,
                          sessionId: string, runtimeToken: string, engine: EngineOutcome, now: int)
      returns (r: Result<Option<string>>)
      requires Valid() && FreshSession(sessionId)
      modifies this`containers, this`sessions, this`pools, hb`heartbeat, hb`recycled
      ensures Valid()
      ensures pools.Keys == old(pools).Keys && Queued(pools) <= old(Queued(pools))
      ensures containers.Keys <= old(containers).Keys + old(Queued(pools)) + {ContainerKey(prefix, sessionId)}
      ensures forall k :: k in old(containers) && k !in old(Queued(pools)) ==>
        k in containers && containers[k] == old(containers)[k]
      ensures PoolType(sandboxType).Err? ==> r.Err? && containers == old(containers) && pools == old(pools)
      ensures !(r.Ok? && r.value.Some?) ==> sessions == old(sessions) && hb.heartbeat == old(hb.heartbeat)
      ensures hb.recycled == (if r.Ok? && r.value.Some? && MetaSession(meta).Some?
                              then old(hb.recycled) - {MetaSession(meta).value} else old(hb.recycled))
      ensures r.Ok? && r.value.Some? && MetaSession(meta).Some? ==> !hb.NeedsRestore(MetaSession(meta).value)
      ensures r.Ok? && r.value.Some? ==> (
        var n := r.value.value;
        var ctx := MetaSession(meta);
        && (n == ContainerKey(prefix, sessionId) || n in old(Queued(pools))) && n !in Queued(pools)
        && sessions == Attach(old(sessions), ctx, n)
        && hb.heartbeat == (if ctx.Some? then old(hb.heartbeat)[ctx.value := now] else old(hb.heartbeat))
        && (ctx.Some? ==> n in containers && containers[n].state == Running && containers[n].sessionCtxId == ctx))
      ensures PoolType(sandboxType).Ok? && PoolType(sandboxType).value in old(pools) ==> (
        var t := PoolType(sandboxType).value;
        var q := old(pools)[t];
        (q != [] && q[0].version == ImageOf(t) && probe.Alive?) ==>
          r == Ok(Some(q[0].containerName)) && pools == old(pools)[t := q[1..]])
    {
      var t := PoolType(sandboxType);
      if t.Err? {
        return Err(t.kind, t.message);
      }
      var tt := t.value;
      if tt in pools && pools[tt] != [] {
        var handed := TakeHead(tt, meta, probe, now);
        if handed.Some? {
          return Ok(handed);
        }
        assert FreshSession(sessionId);
      }
      r := CreateFresh(tt, meta, sessionId, runtimeToken, engine, now);
    }

    /**
     * `create_from_pool` as written, with `_bind_meta` and `create` as
     * written. A session-bound `meta` never gets a container: a current,
     * live pooled head is dequeued and rebound, `_bind_meta` raises, and
     * the fallback `create` returns `None` as well. The dequeued container
     * stays RUNNING, bound and listed for the session, out of the queue,
     * and nothing releases it.
     */
    method CreateFromPoolAsWritten(sandboxType: Option<string>, meta: Option<Meta>, probe: PoolProbe,
                                   sessionId: string, runtimeToken: string, engine: EngineOutcome,
                                   uploadFails: bool, now: int)
      returns (r: Result<Option<string>>)
      requires Valid() && FreshSession(sessionId)
      modifies this`containers, this`sessions, this`pools, hb`heartbeat
      ensures Valid()
      ensures PoolType(sandboxType).Err? ==> r.Err? && containers == old(containers) && pools == old(pools)
      ensures MetaSession(meta).Some? ==> !(r.Ok? && r.value.Some?)
      ensures PoolType(sandboxType).Ok? && PoolType(sandboxType).value in old(pools) && MetaSession(meta).Some? ==> (
        var t := PoolType(sandboxType).value;
        var q := old(pools)[t];
        var ctx := MetaSession(meta).value;
        (q != [] && q[0].version == ImageOf(t) && probe.Alive?) ==>
          && pools == old(pools)[t := q[1..]]
          && q[0].containerName in containers && q[0].containerName !in Queued(pools)
          && containers[q[0].containerName].state == Running
          && containers[q[0].containerName].sessionCtxId == Some(ctx)
          && q[0].containerName in SessionList(sessions, ctx))
    {
      var t := PoolType(sandboxType);
      if t.Err? {
        return Err(t.kind, t.message);
      }
      var tt := t.value;
      if tt in pools && pools[tt] != [] {
        var handed := TakeHeadAsWritten(tt, meta, probe, now);
        if handed.Some? {
          return Ok(handed);
        }
        assert FreshSession(sessionId);
      }
      r := CreateAsWritten(Some(tt), None, None, map[], meta, sessionId, runtimeToken, engine, uploadFails, now);
    }

    /**
     * `TakeHead` with `_bind_meta` as written: a current, live head bound to
     * a session is rebound and listed but, as the binding raises, not
     * handed out and given no heartbeat.
     */
    method TakeHeadAsWritten(tt: string, meta: Option<Meta>, probe: PoolProbe, now: int) returns (handed: Option<string>)
      requires Valid() && tt in pools && pools[tt] != []
      modifies this`containers, this`sessions, this`pools
      ensures Valid()
      ensures pools == old(pools)[tt := old(pools)[tt][1..]]
      ensures Queued(pools) == old(Queued(pools)) - {old(pools)[tt][0].containerName}
      ensures containers.Keys <= old(containers).Keys + {old(pools)[tt][0].containerName}
      ensures forall k :: k in old(containers) && k !in old(Queued(pools)) ==> k in containers && containers[k] == old(containers)[k]
      ensures handed.Some? <==> old(pools)[tt][0].version == ImageOf(tt) && probe.Alive? && MetaSession(meta).None?
      ensures old(pools)[tt][0].version == ImageOf(tt) && probe.Alive? && MetaSession(meta).Some? ==> (
        var n := old(pools)[tt][0].containerName;
        var ctx := MetaSession(meta).value;
        && n in containers && containers[n].state == Running && containers[n].sessionCtxId == Some(ctx)
        && n in SessionList(sessions, ctx))
    {
      var e := pools[tt][0];
      QueuedAt(pools, tt, 0);
      assert ContainerKey(prefix, e.containerName) !in containers;
      assert forall q :: q in Queued(pools) ==> e.containerName != ContainerKey(prefix, q);
      Dequeue(pools, tt);
      pools := pools[tt := pools[tt][1..]];
      if e.version != ImageOf(tt) {
        var _ := Release(e.containerName, false, now);
      } else if probe.Alive? {
        var raised := BindMetaAsWritten(e, meta, now);
        if !raised {
          return Some(e.containerName);
        }
      } else if !probe.ProbeRaises? {
        var _ := Release(e.containerName, false, now);
      }
      return None;
    }

    /**
     * The fallback of `create_from_pool`: a container of type `tt` created
     * without mounts, named by the fresh `sessionId`; no queue changes.
     */
    method CreateFresh(tt: string, meta: Option<Meta>, sessionId: string, runtimeToken: string,
                       engine: EngineOutcome, now: int) returns (r: Result<Option<string>>)
      requires Valid() && FreshSession(sessionId)
      modifies this`containers, this`sessions, hb`heartbeat, hb`recycled
      ensures Valid()
      ensures containers.Keys <= old(containers).Keys + {ContainerKey(prefix, sessionId)}
      ensures forall k :: k in old(containers) ==> k in containers && containers[k] == old(containers)[k]
      ensures !(r.Ok? && r.value.Some?) ==> sessions == old(sessions) && hb.heartbeat == old(hb.heartbeat)
      ensures hb.recycled == (if r.Ok? && r.value.Some? && MetaSession(meta).Some?
                              then old(hb.recycled) - {MetaSession(meta).value} else old(hb.recycled))
      ensures r.Ok? && r.value.Some? ==> (
        var n := r.value.value;
        var ctx := MetaSession(meta);
        && n == ContainerKey(prefix, sessionId) && n !in Queued(pools)
        && sessions == Attach(old(sessions), ctx, n)
        && hb.heartbeat == (if ctx.Some? then old(hb.heartbeat)[ctx.value := now] else old(hb.heartbeat))
        && (ctx.Some? ==> n in containers && containers[n].state == Running && containers[n].sessionCtxId == ctx))
    {
      r := Create(Some(tt), None, None, map[], meta, sessionId, runtimeToken, engine, now);
    }

    /**
     * The warm-queue branch of `create_from_pool`: the head of the type's
     * queue is dequeued; it is handed out, bound to `meta`, when it runs the
     * type's current image and is alive, and released otherwise (unless the
     * liveness probe itself raised).
     */
    method TakeHead(tt: string, meta: Option<Meta>, probe: PoolProbe, now: int) returns (handed: Option<string>)
      requires Valid() && tt in pools && pools[tt] != []
      modifies this`containers, this`sessions, this`pools, hb`heartbeat, hb`recycled
      ensures Valid()
      ensures pools == old(pools)[tt := old(pools)[tt][1..]]
      ensures Queued(pools) == old(Queued(pools)) - {old(pools)[tt][0].containerName}
      ensures containers.Keys <= old(containers).Keys + {old(pools)[tt][0].containerName}
      ensures forall k :: k in old(containers) && k !in old(Queued(pools)) ==> k in containers && containers[k] == old(containers)[k]
      ensures handed.Some? <==> old(pools)[tt][0].version == ImageOf(tt) && probe.Alive?
      ensures handed.None? ==> sessions == old(sessions) && hb.heartbeat == old(hb.heartbeat)
      ensures hb.recycled == (if handed.Some? && MetaSession(meta).Some?
                              then old(hb.recycled) - {MetaSession(meta).value} else old(hb.recycled))
      ensures handed.Some? ==> (
        var n := old(pools)[tt][0].containerName;
        var ctx := MetaSession(meta);
        && handed.value == n
        && sessions == Attach(old(sessions), ctx, n)
        && hb.heartbeat == (if ctx.Some? then old(hb.heartbeat)[ctx.value := now] else old(hb.heartbeat))
        && (ctx.Some? ==> n in containers && containers[n].state == Running && containers[n].sessionCtxId == ctx))
    {
      var e := pools[tt][0];
      QueuedAt(pools, tt, 0);
      assert ContainerKey(prefix, e.containerName) !in containers;
      assert forall q :: q in Queued(pools) ==> e.containerName != ContainerKey(prefix, q);
      Dequeue(pools, tt);
      pools := pools[tt := pools[tt][1..]];
      if e.version != ImageOf(tt) {
        var _ := Release(e.containerName, false, now);
      } else if probe.Alive? {
        BindMeta(e, meta, now);
        return Some(e.containerName);
      } else if !probe.ProbeRaises? {
        var _ := Release(e.containerName, false, now);
      }
      return None;
    }

    /** The write that marks a replacement RUNNING and bound (its `get_info` finds it by name). */
    method MarkRestored(n: string, ctx: string, sandboxType: string, now: int)
      requires Valid() && n in containers && containers[n].sessionCtxId == Some(ctx)
      modifies this`containers
      ensures Valid()
      ensures containers == old(containers)[n := RestoredRecord(old(containers)[n], ctx, sandboxType, now)]
    {
      var found := Find(containers, prefix, n);
      containers := containers[n := RestoredRecord(found.value, ctx, sandboxType, now)];
    }

    /** The type of a replacement: the old record's type, else the first default type. */
    function RestoreType(c: ContainerRecord): (r: Option<string>)
      ensures Truthy(c.sandboxType) ==> r == c.sandboxType
      ensures !Truthy(c.sandboxType) ==> (r.Some? <==> defaultType != []) && (r.Some? ==> r.value == defaultType[0])
    {
      if Truthy(c.sandboxType) then c.sandboxType else if defaultType != [] then Some(defaultType[0]) else None
    }

    /**
     * The replacement `restore_session` allocates for a session: from the
     * pool without a mount directory, newly created on it otherwise.
     */
    method Replacement(ctx: string, sandboxType: string, mountDir: Option<string>, storagePath: Option<string>,
                       alloc: Alloc, now: int) returns (r: Result<Option<string>>)
      requires Valid() && ctx != "" && FreshSession(alloc.sessionId)
      modifies this`containers, this`sessions, this`pools, hb`heartbeat, hb`recycled
      ensures Valid()
      ensures pools.Keys == old(pools).Keys && Queued(pools) <= old(Queued(pools))
      ensures containers.Keys <= old(containers).Keys + old(Queued(pools)) + {ContainerKey(prefix, alloc.sessionId)}
      ensures forall k :: k in old(containers) && k !in old(Queued(pools)) ==>
        k in containers && containers[k] == old(containers)[k]
      ensures !(r.Ok? && r.value.Some?) ==> sessions == old(sessions) && hb.heartbeat == old(hb.heartbeat)
      ensures hb.recycled == if r.Ok? && r.value.Some? then old(hb.recycled) - {ctx} else old(hb.recycled)
      ensures r.Ok? && r.value.Some? ==> (
        var n := r.value.value;
        && (n == ContainerKey(prefix, alloc.sessionId) || n in old(Queued(pools))) && n !in Queued(pools)
        && n in containers && containers[n].sessionCtxId == Some(ctx)
        && sessions == Attach(old(sessions), Some(ctx), n)
        && hb.heartbeat == old(hb.heartbeat)[ctx := now])
    {
      var meta := map[SessionKey := ctx];
      assert MetaSession(Some(meta)) == Some(ctx);
      if !Truthy(mountDir) {
        r := CreateFromPool(Some(sandboxType), Some(meta), alloc.probe, alloc.sessionId, alloc.runtimeToken, alloc.engine, now);
      } else {
        r := Create(Some(sandboxType), mountDir, storagePath, map[], Some(meta),
                    alloc.sessionId, alloc.runtimeToken, alloc.engine, now);
      }
    }

    /**
     * One step of `restore_session`: a listed container that is not
     * RECYCLED is left alone; a RECYCLED one gets a replacement of its
     * sandbox type, from the pool when it had no mount directory and newly
     * created on that directory otherwise, which is then marked RUNNING and
     * bound to the session.
     */
    method RestoreOne(ctx: string, name: string, alloc: Alloc, now: int) returns (r: Result<Option<string>>)
      requires Valid() && ctx != "" && FreshSession(alloc.sessionId)
      requires name in containers && containers[name].sessionCtxId == Some(ctx)
      modifies this`containers, this`sessions, this`pools, hb`heartbeat, hb`recycled
      ensures Valid()
      ensures pools.Keys == old(pools).Keys && Queued(pools) <= old(Queued(pools))
      ensures containers.Keys <= old(containers).Keys + old(Queued(pools)) + {ContainerKey(prefix, alloc.sessionId)}
      ensures forall k :: k in old(containers) && k !in old(Queued(pools)) ==>
        k in containers && containers[k] == old(containers)[k]
      ensures old(containers)[name].state != Recycled ==>
        r == Ok(None) && containers == old(containers) && pools == old(pools)
      ensures !(r.Ok? && r.value.Some?) ==> sessions == old(sessions) && hb.heartbeat == old(hb.heartbeat)
      ensures hb.recycled == if r.Ok? && r.value.Some? then old(hb.recycled) - {ctx} else old(hb.recycled)
      ensures r.Ok? && r.value.Some? ==> (
        var n := r.value.value;
        && old(containers)[name].state == Recycled
        && (n == ContainerKey(prefix, alloc.sessionId) || n in old(Queued(pools))) && n !in Queued(pools)
        && n in containers && containers[n].state == Running && containers[n].sessionCtxId == Some(ctx)
        && containers[n].meta.Some? && "sandbox_type" in containers[n].meta.value
        && Some(containers[n].meta.value["sandbox_type"]) == RestoreType(old(containers)[name])
        && sessions == Attach(old(sessions), Some(ctx), n)
        && hb.heartbeat == old(hb.heartbeat)[ctx := now])
    {
      var prev := containers[name];
      if prev.state != Recycled {
        return Ok(None);
      }
      var t := RestoreType(prev);
      if t.None? {
        return Err("IndexError", "list index out of range");
      }
      var st := t.value;
      var created := Replacement(ctx, st, prev.mountDir, prev.storagePath, alloc, now);
      if created.Err? {
        return Err(created.kind, created.message);
      }
      if created.value.None? {
        return Ok(None);
      }
      var n := created.value.value;
      MarkRestored(n, ctx, st, now);
      return Ok(Some(n));
    }

    /**
     * What holds after the first `i` listed containers of `restore_session`
     * were treated, against the state `c0`, `q0`, `s0`, `h0` it started from.
     */
    ghost predicate Progress(ctx: string, ids: seq<string>, allocs: seq<Alloc>, i: int,
                             created: seq<string>, replaced: seq<string>,
                             c0: Records, q0: set<string>, s0: Sessions, h0: map<string, int>, now: int)
      reads this, hb
    {
      && 0 <= i <= |ids| == |allocs| && Valid() && |created| == |replaced|
      && Queued(pools) <= q0
      && (forall j :: i <= j < |allocs| ==> FreshSession(allocs[j].sessionId))
      && KeptUnqueued(c0, q0, containers)
      && Replacements(ctx, ids, created, replaced, containers, Queued(pools), c0)
      && SessionTouched(ctx, created, s0, h0, sessions, hb.heartbeat, now)
    }

    /** One round of the replacement loop of `restore_session`. */
    method ReplaceStep(ctx: string, ids: seq<string>, allocs: seq<Alloc>, i: int,
                       created: seq<string>, replaced: seq<string>, ghost c0: Records, ghost q0: set<string>,
                       ghost s0: Sessions, ghost h0: map<string, int>, ghost g0: map<string, int>, now: int)
      returns (r: Result<()>, created': seq<string>, replaced': seq<string>)
      requires Progress(ctx, ids, allocs, i, created, replaced, c0, q0, s0, h0, now) && i < |ids| && ctx != ""
      requires forall k :: k in ids ==> k in c0 && k !in q0 && c0[k].sessionCtxId == Some(ctx)
      requires Unrelated(prefix, SessionIds(allocs))
      requires hb.recycled == if created == [] then g0 else g0 - {ctx}
      modifies this`containers, this`sessions, this`pools, hb`heartbeat, hb`recycled
      ensures Progress(ctx, ids, allocs, i + 1, created', replaced', c0, q0, s0, h0, now)
      ensures r.Err? ==> created' == created && replaced' == replaced
      ensures hb.recycled == if created' == [] then g0 else g0 - {ctx}
    {
      ghost var keys0, queued0, cA, sA, hA := containers.Keys, Queued(pools), containers, sessions, hb.heartbeat;
      ghost var gA := hb.recycled;
      var step := RestoreOne(ctx, ids[i], allocs[i], now);
      ClearedStep(g0, ctx, gA, hb.recycled, created == [], step.Ok? && step.value.Some?);
      FreshRest(prefix, allocs, i, keys0, queued0, containers.Keys, Queued(pools));
      KeptUnqueuedStep(c0, q0, cA, queued0, containers);
      created', replaced' := created, replaced;
      if step.Err? {
        ReplacementsStep(ctx, ids, created, replaced, cA, queued0, containers, Queued(pools), c0, ids[i], None);
        return Err(step.kind, step.message), created', replaced';
      }
      ReplacementsStep(ctx, ids, created, replaced, cA, queued0, containers, Queued(pools), c0, ids[i], step.value);
      if step.value.Some? {
        SessionTouchedStep(ctx, created, s0, h0, sA, hA, step.value.value, now);
      }
      if step.value.Some? {
        replaced' := replaced + [ids[i]];
        created' := created + [step.value.value];
      }
      r := Ok(());
    }

    /**
     * The first phase of `restore_session`: replace each RECYCLED listed
     * container in turn, collecting the replaced names and their
     * replacements. `session_mapping` changes only in the session's own
     * list, and only once something is replaced.
     */
    method ReplaceAll(ctx: string, ids: seq<string>, allocs: seq<Alloc>, now: int)
      returns (r: Result<()>, created: seq<string>, replaced: seq<string>)
      requires Valid() && ctx != "" && |allocs| == |ids|
      requires forall k :: k in ids ==> k in containers && k !in Queued(pools) && containers[k].sessionCtxId == Some(ctx)
      requires Unrelated(prefix, SessionIds(allocs))
      requires forall i :: 0 <= i < |allocs| ==> FreshSession(allocs[i].sessionId)
      modifies this`containers, this`sessions, this`pools, hb`heartbeat, hb`recycled
      ensures Valid() && |created| == |replaced| && Queued(pools) <= old(Queued(pools))
      ensures forall k :: k in old(containers) && k !in old(Queued(pools)) ==> k in containers && containers[k] == old(containers)[k]
      ensures forall k :: k in replaced ==> k in ids && old(containers)[k].state == Recycled
      ensures forall n :: n in created ==>
        n in containers && containers[n].state == Running && containers[n].sessionCtxId == Some(ctx) && n !in ids
      ensures forall c :: c != ctx ==> (c in sessions <==> c in old(sessions)) && (c in sessions ==> sessions[c] == old(sessions)[c])
      ensures created == [] ==> sessions == old(sessions) && hb.heartbeat == old(hb.heartbeat)
      ensures created != [] ==> hb.heartbeat == old(hb.heartbeat)[ctx := now]
      ensures hb.recycled == if created == [] then old(hb.recycled) else old(hb.recycled) - {ctx}
    {
      created, replaced := [], [];
      ghost var c0, q0, s0, h0, g0 := containers, Queued(pools), sessions, hb.heartbeat, hb.recycled;
      var i := 0;
      while i < |ids|
        invariant Progress(ctx, ids, allocs, i, created, replaced, c0, q0, s0, h0, now)
        invariant hb.recycled == if created == [] then g0 else g0 - {ctx}
      {
        r, created, replaced := ReplaceStep(ctx, ids, allocs, i, created, replaced, c0, q0, s0, h0, g0, now);
        if r.Err? {
          return;
        }
        i := i + 1;
      }
      r := Ok(());
    }

    /**
     * The second phase of `restore_session`: the session's list becomes the
     * replacements, the session gets a heartbeat, and the replaced records
     * are deleted.
     */
    method SwitchSession(ctx: string, created: seq<string>, replaced: seq<string>, now: int)
      requires Valid() && ctx != "" && created != [] && |replaced| == |created|
      requires forall n :: n in created ==> n in containers && containers[n].sessionCtxId == Some(ctx) && n !in replaced
      requires forall k :: k in replaced ==> k in containers && containers[k].sessionCtxId == Some(ctx)
      modifies this`containers, this`sessions, hb`heartbeat
      ensures Valid()
      ensures sessions == old(sessions)[ctx := created] && hb.heartbeat == old(hb.heartbeat)[ctx := now]
      ensures containers == Without(old(containers), replaced)
    {
      ghost var c0, s0 := containers, sessions;
      sessions := sessions[ctx := created];
      var _ := hb.UpdateHeartbeat(ctx, None, now);
      ArchiveAll(ctx, replaced);
      SwitchKeepsValid(prefix, c0, s0, pools, ctx, created, replaced);
    }

    /**
     * The archiving loop of `restore_session`: each replaced record leaves
     * `container_mapping`.
     */
    method ArchiveAll(ctx: string, replaced: seq<string>)
      requires ctx != ""
      modifies this`containers
      ensures containers == Without(old(containers), replaced)
    {
      var j := 0;
      while j < |replaced|
        invariant 0 <= j <= |replaced|
        invariant containers == Without(old(containers), replaced[..j])
      {
        WithoutStep(old(containers), replaced, j);
        containers := containers - {replaced[j]};
        j := j + 1;
      }
      assert replaced[..j] == replaced;
    }

    /**
     * `restore_session`: each RECYCLED container listed for the session is
     * replaced (one allocation per listed name). When at least one is
     * replaced, the session's list becomes exactly the replacements, the
     * session gets a heartbeat, the replaced records are deleted, and the
     * session no longer needs a restore (the replacement's `create` cleared
     * its marker); when none is, the session's list, its heartbeat, the
     * listed records and the marker stay as they were.
     */
    method RestoreSession(ctx: string, allocs: seq<Alloc>, now: int)
      returns (r: Result<()>, ghost newNames: seq<string>, ghost restoredOld: seq<string>)
      requires Valid() && |allocs| == |SessionList(sessions, ctx)|
      requires Unrelated(prefix, SessionIds(allocs))
      requires forall i :: 0 <= i < |allocs| ==> FreshSession(allocs[i].sessionId)
      modifies this`containers, this`sessions, this`pools, hb`heartbeat, hb`recycled
      ensures Valid()
      ensures RestoreOutcome(ctx, SessionList(old(sessions), ctx), old(containers), old(sessions), old(hb.heartbeat),
                             r.Ok?, newNames, restoredOld, containers, sessions, hb.heartbeat, now)
      ensures hb.recycled == if newNames == [] then old(hb.recycled) else old(hb.recycled) - {ctx}
      ensures newNames != [] ==> !hb.NeedsRestore(ctx)
    {
      var ids := SessionList(sessions, ctx);
      if ids == [] {
        return Ok(()), [], [];
      }
      ListedUnqueued(prefix, containers, sessions, pools, ctx);
      r, newNames, restoredOld := RestoreListed(ctx, ids, allocs, now);
    }

    /** `restore_session` on the non-empty list `ids` of the session. */
    method RestoreListed(ctx: string, ids: seq<string>, allocs: seq<Alloc>, now: int)
      returns (r: Result<()>, ghost newNames: seq<string>, ghost restoredOld: seq<string>)
      requires Valid() && ctx != "" && |allocs| == |ids|
      requires forall k :: k in ids ==> k in containers && k !in Queued(pools) && containers[k].sessionCtxId == Some(ctx)
      requires Unrelated(prefix, SessionIds(allocs))
      requires forall i :: 0 <= i < |allocs| ==> FreshSession(allocs[i].sessionId)
      modifies this`containers, this`sessions, this`pools, hb`heartbeat, hb`recycled
      ensures Valid()
      ensures RestoreOutcome(ctx, ids, old(containers), old(sessions), old(hb.heartbeat),
                             r.Ok?, newNames, restoredOld, containers, sessions, hb.heartbeat, now)
      ensures hb.recycled == if newNames == [] then old(hb.recycled) else old(hb.recycled) - {ctx}
    {
      ghost var c0, q0, s0, h0 := containers, Queued(pools), sessions, hb.heartbeat;
      var created, replaced;
      r, created, replaced := ReplaceAll(ctx, ids, allocs, now);
      newNames, restoredOld := created, replaced;
      if r.Err? || created == [] {
        RestoreUnswitched(ctx, ids, c0, q0, s0, h0, r.Ok?, created, replaced,
                          containers, sessions, hb.heartbeat, now);
        return;
      }
      ghost var c1, s1, h1 := containers, sessions, hb.heartbeat;
      SwitchSession(ctx, created, replaced, now);
      RestoreSwitched(ctx, ids, c0, q0, s0, h0, created, replaced, c1, s1, h1,
                      containers, sessions, hb.heartbeat, now);
    }

    /**
     * `reap_session`: every listed container of the session is recycled for
     * `reason`, keeping its session binding; `session_mapping` is unchanged.
     */
    method ReapSession(ctx: string, reason: string, now: int) returns (ok: bool)
      requires Valid()
      modifies this`containers
      ensures Valid() && ok
      ensures containers == RecycleNames(old(containers), SessionList(old(sessions), ctx), ctx, reason, now)
    {
      ghost var c0 := containers;
      var ids := SessionList(sessions, ctx);
      assert forall n :: n in ids ==> n in containers by {
        forall n | n in ids ensures n in containers {
          assert ctx in sessions && n in sessions[ctx];
        }
      }
      RecycleAll(ids, ctx, reason, now);
      RecycleKeepsValid(prefix, c0, sessions, pools, ctx, reason, now);
      return true;
    }

    /** The loop of `reap_session` over the session's listed containers. */
    method RecycleAll(ids: seq<string>, ctx: string, reason: string, now: int)
      requires RecordsValid(containers) && forall n :: n in ids ==> n in containers
      modifies this`containers
      ensures containers == RecycleNames(old(containers), ids, ctx, reason, now)
    {
      var i := 0;
      while i < |ids|
        invariant 0 <= i <= |ids|
        invariant containers == RecycleNames(old(containers), ids[..i], ctx, reason, now)
      {
        var name := ids[i];
        RecycleStep(old(containers), ids, i, ctx, reason, now);
        var parsed := CompatAndDefaults(containers[name], now);
        var info := parsed.value;
        // stop, remove and upload failures are logged and ignored
        containers := containers[info.containerName := RecycledRecord(info, ctx, reason, now)];
        i := i + 1;
      }
      assert ids[..i] == ids;
    }

    /**
     * The recycled markers after one more replacement round: the session's
     * marker is gone once any round has made a replacement, and clearing it
     * again changes nothing.
     */
    static lemma ClearedStep(g0: map<string, int>, ctx: string, before: map<string, int>, after: map<string, int>,
                             noneYet: bool, made: bool)
      requires before == if noneYet then g0 else g0 - {ctx}
      requires after == if made then before - {ctx} else before
      ensures after == if noneYet && !made then g0 else g0 - {ctx}
    {
      if made && !noneYet {
        assert (g0 - {ctx}) - {ctx} == g0 - {ctx};
      }
    }

    /** The verdict `scan_heartbeat_once` reaches for session `c` in this state. */
    function VerdictNow(c: string, timeout: int, at: (int, int)): HeartbeatVerdict
      reads this, hb
    {
      SessionVerdict(containers, sessions, hb.heartbeat, hb.locks, hb.redisLock, prefix, c, timeout, at)
    }

    /** The `has_running` loop: whether a listed container of the session is RUNNING. */
    method HasRunning(ctx: string) returns (b: bool)
      ensures b == RunningIn(containers, prefix, SessionList(sessions, ctx))
    {
      var ids := SessionList(sessions, ctx);
      var i := 0;
      while i < |ids|
        invariant 0 <= i <= |ids|
        invariant RunningIn(containers, prefix, ids) == RunningIn(containers, prefix, ids[i..])
      {
        assert ids[i..][1..] == ids[i + 1..];
        var found := Find(containers, prefix, ids[i]);
        if found.Some? && found.value.state == Running {
          return true;
        }
        i := i + 1;
      }
      return false;
    }

    /**
     * One session of `scan_heartbeat_once`: the verdict, the reap when it is
     * `Reap`, and the lock taken after the first idle check and released
     * whatever follows. Only a release that raises ends the scan.
     */
    method HeartbeatStep(c: string, timeout: int, at: (int, int), token: string, fault: ReleaseFault, reason: string)
      returns (r: Result<HeartbeatVerdict>)
      requires Valid()
      modifies this`containers, hb`locks
      ensures Valid()
      ensures r.Ok? ==> r.value == old(VerdictNow(c, timeout, at))
      ensures r.Err? ==> hb.redisLock && fault.OtherResponseError?
      ensures containers == if old(VerdictNow(c, timeout, at)) == Reap
        then RecycleNames(old(containers), SessionList(sessions, c), c, reason, at.1) else old(containers)
      ensures forall k :: k != LockKey(c) ==> (k in hb.locks <==> k in old(hb.locks)) && (k in hb.locks ==> hb.locks[k] == old(hb.locks)[k])
      ensures r.Ok? && !fault.OtherError? ==> hb.locks == old(hb.locks)
    {
      var running := HasRunning(c);
      if !running {
        return Ok(NoRunning);
      }
      var last := hb.GetHeartbeat(c);
      if last.None? {
        return Ok(NoHeartbeat);
      }
      if at.0 - last.value <= timeout {
        return Ok(Active);
      }
      var token' := hb.AcquireHeartbeatLock(c, token);
      if token'.None? {
        return Ok(LockBusy);
      }
      // the double-check reads the heartbeat again after taking the lock
      var verdict := if at.1 - last.value <= timeout then ActiveAfterLock else Reap;
      if verdict == Reap {
        var _ := ReapSession(c, reason, at.1);
      }
      var released := hb.ReleaseHeartbeatLock(c, token'.value, fault);
      if hb.redisLock {
        LockSingleHolder(old(hb.locks), LockKey(c), token, token, token);
      }
      if released.Err? {
        return Err(released.kind, released.message);
      }
      return Ok(verdict);
    }

    /** The scan loop's invariant: a consistent manager that has scanned the first `i` sessions of `order`. */
    ghost predicate Scanning(order: seq<string>, i: int, vs: seq<HeartbeatVerdict>, c0: Records, l0: map<string, string>,
                             timeout: int, at: map<string, (int, int)>, faults: map<string, ReleaseFault>,
                             report: HeartbeatReport)
      reads this, hb
    {
      Valid() && ScanAt(order, i, vs, c0, l0, timeout, at, faults, report, containers, sessions, hb.heartbeat, hb.locks, hb.redisLock, prefix)
    }

    /** One session of the scan loop, with its counter update. */
    method ScanOne(order: seq<string>, i: int, ghost vs: seq<HeartbeatVerdict>, ghost c0: Records,
                   ghost l0: map<string, string>, timeout: int, at: map<string, (int, int)>,
                   tokens: map<string, string>, faults: map<string, ReleaseFault>, report: HeartbeatReport)
      returns (r: Result<HeartbeatReport>)
      requires Scanning(order, i, vs, c0, l0, timeout, at, faults, report) && i < |order|
      requires order[i] in tokens && order[i] in faults
      modifies this`containers, hb`locks
      ensures Valid()
      ensures r.Ok? ==> Scanning(order, i + 1, vs, c0, l0, timeout, at, faults, r.value)
    {
      var c := order[i];
      ScanVerdict(order, i, vs, c0, l0, timeout, at, faults, report, containers, sessions, hb.heartbeat, hb.locks, hb.redisLock, prefix);
      ghost var cs, ls := containers, hb.locks;
      var v := HeartbeatStep(c, timeout, at[c], tokens[c], faults[c], HeartbeatReason);
      if v.Err? {
        return Err(v.kind, v.message);
      }
      ScanAtStep(order, i, vs, c0, l0, timeout, at, faults, report, cs, sessions, hb.heartbeat, ls, hb.redisLock, prefix,
                 containers, hb.locks);
      r := Ok(Tally(report, v.value));
    }

    /**
     * `scan_heartbeat_once`, the sessions taken in the order `order` in which
     * `session_mapping` lists them: a session is reaped exactly when it has a
     * RUNNING container and a heartbeat, is idle beyond `timeout` at both
     * readings of `at`, and its lock is free; the report tallies every
     * verdict; a lock taken is given back unless its release fails.
     */
    method ScanHeartbeatOnce(order: seq<string>, timeout: int, at: map<string, (int, int)>,
                             tokens: map<string, string>, faults: map<string, ReleaseFault>)
      returns (r: Result<HeartbeatReport>)
      requires Valid() && Distinct(order)
      requires forall c :: c in order ==> c in at && c in tokens && c in faults
      modifies this`containers, hb`locks
      ensures Valid()
      ensures var vs := VerdictsOf(old(containers), sessions, hb.heartbeat, old(hb.locks), hb.redisLock, prefix, order, timeout, at);
        && (r.Ok? ==> r.value == TallyAll(vs))
        && (r.Ok? ==> containers == ReapedSeq(old(containers), sessions, order, vs, at))
      ensures r.Ok? && CleanReleases(order, faults) ==> hb.locks == old(hb.locks)
    {
      ghost var vs := VerdictsOf(containers, sessions, hb.heartbeat, hb.locks, hb.redisLock, prefix, order, timeout, at);
      ghost var c0, l0 := containers, hb.locks;
      var report := HeartbeatReport(0, 0, 0, 0, 0, 0, 0);
      ScanAtStart(order, c0, l0, timeout, at, faults, sessions, hb.heartbeat, hb.redisLock, prefix);
      var i := 0;
      while i < |order|
        invariant Valid()
        invariant ScanAt(order, i, vs, c0, l0, timeout, at, faults, report, containers, sessions, hb.heartbeat, hb.locks, hb.redisLock, prefix)
      {
        var step := ScanOne(order, i, vs, c0, l0, timeout, at, tokens, faults, report);
        if step.Err? {
          return Err(step.kind, step.message);
        }
        report := step.value;
        i := i + 1;
      }
      ScanAtEnd(order, i, vs, c0, l0, timeout, at, faults, report, containers, sessions, hb.heartbeat, hb.locks, hb.redisLock, prefix);
      r := Ok(report);
    }

    /**
     * `create(sandbox_type=t)` without mounts, environment or meta succeeds
     * for type `t` whenever the engine starts a container.
     */
    predicate TypeCreatable(t: string)
    {
      && t in knownTypes && ConfigFor(t).Ok? && !EnvHasNone(ConfigFor(t).value.environment)
      && (ConfigFor(t).value.timeout.Some? ==> ConfigFor(t).value.timeout.value >= 0)
    }

    /** Every creation `scan_pool_once` may attempt with these allocations succeeds. */
    predicate AllSucceed(allocs: seq<Alloc>)
    {
      && (forall t :: t in defaultType ==> TypeCreatable(t))
      && (forall j :: 0 <= j < |allocs| ==> allocs[j].engine.Started?)
    }

    /**
     * One attempt of `scan_pool_once`: create a WARM container of type `t`
     * and, when that gave a name, queue its stored record at the tail of
     * the type's queue. A failed creation changes nothing.
     */
    method FillOne(t: string, alloc: Alloc, now: int) returns (ok: bool)
      requires Valid() && t in pools && FreshSession(alloc.sessionId)
      modifies this`containers, this`sessions, this`pools, hb`heartbeat
      ensures Valid() && sessions == old(sessions) && hb.heartbeat == old(hb.heartbeat)
      ensures ok <==> TypeCreatable(t) && alloc.engine.Started?
      ensures !ok ==> containers == old(containers) && pools == old(pools)
      ensures ok ==> (
        var n := ContainerKey(prefix, alloc.sessionId);
        && n !in old(containers) && n !in old(Queued(pools)) && n in containers
        && containers == old(containers)[n := containers[n]] && containers[n].containerName == n
        && containers[n].state == Warm && containers[n].sessionCtxId == None && containers[n].sandboxType == Some(t)
        && pools == old(pools)[t := old(pools)[t] + [containers[n]]]
        && Queued(pools) == old(Queued(pools)) + {n})
      ensures containers.Keys <= old(containers).Keys + {ContainerKey(prefix, alloc.sessionId)}
      ensures Queued(pools) <= old(Queued(pools)) + {ContainerKey(prefix, alloc.sessionId)}
    {
      ghost var keys0, queued0 := containers.Keys, Queued(pools);
      assert ConfigFor(t).Ok? ==> ConfigFor(t).value.environment + map[] == ConfigFor(t).value.environment;
      var created := CreateStored(Some(t), None, None, map[], None, alloc.sessionId, alloc.runtimeToken, alloc.engine, now);
      if !(created.Ok? && created.value.Some?) {
        return false;
      }
      var name := created.value.value;
      var rec := containers[name];
      FreshQueueable(prefix, alloc.sessionId, keys0, queued0);
      EnqueueKeepsValid(prefix, containers, sessions, pools, t, rec);
      pools := pools[t := pools[t] + [rec]];
      return true;
    }

    /** The inner loop's invariant: a consistent manager in the state `FillAt` describes. */
    ghost predicate Filling(t: string, allocs: seq<Alloc>, k: int, need: int, m: int, created: nat, failed: nat,
                            c0: Records, p0: Pools, before: nat, pT: Pools, s0: Sessions, h0: map<string, int>)
      reads this, hb
    {
      && Valid() && sessions == s0 && hb.heartbeat == h0
      && FillAt(t, poolSize, prefix, allocs, k, need, m, created, failed, c0, p0, before, pT, containers, pools,
                TypeCreatable(t))
    }

    /** One attempt of the inner loop of `scan_pool_once`. */
    method FillStep(t: string, allocs: seq<Alloc>, k: int, need: int, m: int, created: nat, failed: nat,
                    ghost c0: Records, ghost p0: Pools, ghost before: nat, ghost pT: Pools,
                    ghost s0: Sessions, ghost h0: map<string, int>, now: int)
      returns (created': nat, failed': nat)
      requires Filling(t, allocs, k, need, m, created, failed, c0, p0, before, pT, s0, h0) && m < need
      modifies this`containers, this`sessions, this`pools, hb`heartbeat
      ensures Filling(t, allocs, k, need, m + 1, created', failed', c0, p0, before, pT, s0, h0)
    {
      ghost var cA, pA := containers, pools;
      var ok := FillOne(t, allocs[k + m], now);
      FillNext(t, poolSize, prefix, allocs, k, need, m, created, failed, c0, p0, before, pT, cA, pA, containers, pools,
               TypeCreatable(t), ok, ContainerKey(prefix, allocs[k + m].sessionId));
      if ok {
        created', failed' := created + 1, failed;
      } else {
        created', failed' := created, failed + 1;
      }
    }

    /** The `need` attempts of the inner loop of `scan_pool_once` for type `t`. */
    method FillLoop(t: string, allocs: seq<Alloc>, k: int, need: int, ghost c0: Records, ghost p0: Pools,
                    ghost before: nat, ghost pT: Pools, ghost s0: Sessions, ghost h0: map<string, int>, now: int)
      returns (created: nat, failed: nat)
      requires Filling(t, allocs, k, need, 0, 0, 0, c0, p0, before, pT, s0, h0)
      modifies this`containers, this`sessions, this`pools, hb`heartbeat
      ensures Filling(t, allocs, k, need, need, created, failed, c0, p0, before, pT, s0, h0)
    {
      created, failed := 0, 0;
      var m := 0;
      while m < need
        invariant Filling(t, allocs, k, need, m, created, failed, c0, p0, before, pT, s0, h0)
      {
        created, failed := FillStep(t, allocs, k, need, m, created, failed, c0, p0, before, pT, s0, h0, now);
        m := m + 1;
      }
    }

    /**
     * The inner loop of `scan_pool_once` for the `i`-th default type, whose
     * queue is short by `need`: `need` attempts, the j-th with allocation
     * `allocs[k + j]`; the queue grows by the successful ones.
     */
    method FillType(allocs: seq<Alloc>, i: int, k: int, r: PoolReport, ghost c0: Records, ghost p0: Pools,
                    ghost s0: Sessions, ghost h0: map<string, int>, now: int)
      returns (k': int, r': PoolReport)
      requires Refilling(allocs, i, k, r, c0, p0, s0, h0) && i < |defaultType|
      requires defaultType[i] in pools && poolSize - |pools[defaultType[i]]| > 0
      modifies this`containers, this`sessions, this`pools, hb`heartbeat
      ensures Refilling(allocs, i + 1, k', r', c0, p0, s0, h0)
    {
      var t := defaultType[i];
      var need := poolSize - |pools[t]|;
      ghost var cA, pA := containers, pools;
      ghost var allOk := AllSucceed(allocs);
      FillStart(defaultType, poolSize, prefix, allocs, i, k, r, c0, p0, cA, pA, allOk, TypeCreatable(t));
      assert allOk ==> TypeCreatable(t) && forall j :: k <= j < k + need ==> allocs[j].engine.Started?;
      var created, failed := FillLoop(t, allocs, k, need, c0, p0, r.created, pA, s0, h0, now);
      FillDone(defaultType, poolSize, prefix, allocs, i, k, r, c0, p0, cA, pA, containers, pools,
               allOk, TypeCreatable(t), need, created, failed);
      k', r' := k + need, r.(types := r.types + 1, created := r.created + created, enqueued := r.enqueued + created,
                             failedCreate := r.failedCreate + failed);
    }

    /**
     * `scan_pool_once`: with a positive `pool_size`, each default type's
     * queue is refilled towards `pool_size` with newly created WARM
     * containers (`allocs` supplies one allocation per attempt); nothing
     * else changes, and `created` (= `enqueued`) counts the newly queued
     * containers. When every creation succeeds, every default queue ends
     * with at least `pool_size` records. A non-positive `pool_size` only
     * reports the pool as disabled.
     */
    method ScanPoolOnce(allocs: seq<Alloc>, now: int) returns (r: PoolReport)
      requires Valid() && Unrelated(prefix, SessionIds(allocs))
      requires forall j :: 0 <= j < |allocs| ==> FreshSession(allocs[j].sessionId)
      requires poolSize > 0 ==> |defaultType| * poolSize <= |allocs|
      modifies this`containers, this`sessions, this`pools, hb`heartbeat
      ensures Valid() && sessions == old(sessions) && hb.heartbeat == old(hb.heartbeat)
      ensures poolSize <= 0 ==> r == PoolReport(0, 0, 0, 0, 1) && containers == old(containers) && pools == old(pools)
      ensures poolSize > 0 ==> r.types == |defaultType| && r.created == r.enqueued && r.skippedPoolDisabled == 0
      ensures PoolGrowth(old(containers), old(Queued(pools)), old(pools), containers, pools, r.created, poolSize)
      ensures poolSize > 0 && AllSucceed(allocs) ==>
        r.failedCreate == 0 && forall t :: t in defaultType && t in pools ==> |pools[t]| >= poolSize
    {
      PoolGrowthNone(containers, pools, poolSize);
      if poolSize <= 0 {
        return PoolReport(0, 0, 0, 0, 1);
      }
      ghost var c0, p0, s0, h0 := containers, pools, sessions, hb.heartbeat;
      r := PoolReport(0, 0, 0, 0, 0);
      var k := 0;
      var i := 0;
      while i < |defaultType|
        invariant Refilling(allocs, i, k, r, c0, p0, s0, h0)
      {
        k, r := RefillType(allocs, i, k, r, c0, p0, s0, h0, now);
        i := i + 1;
      }
      assert defaultType[..i] == defaultType;
    }

    /**
     * The state of `scan_pool_once` after the first `i` default types, with
     * `k` allocations used, from the state `c0`, `p0`, `s0`, `h0`.
     */
    ghost predicate Refilling(allocs: seq<Alloc>, i: int, k: int, r: PoolReport,
                              c0: Records, p0: Pools, s0: Sessions, h0: map<string, int>)
      reads this, hb
    {
      && Valid() && sessions == s0 && hb.heartbeat == h0
      && RefillAt(defaultType, poolSize, prefix, allocs, i, k, r, c0, p0, containers, pools, AllSucceed(allocs))
    }

    /** One default type of `scan_pool_once`: its queue is topped up when short. */
    method RefillType(allocs: seq<Alloc>, i: int, k: int, r: PoolReport, ghost c0: Records, ghost p0: Pools,
                      ghost s0: Sessions, ghost h0: map<string, int>, now: int)
      returns (k': int, r': PoolReport)
      requires Refilling(allocs, i, k, r, c0, p0, s0, h0) && i < |defaultType|
      modifies this`containers, this`sessions, this`pools, hb`heartbeat
      ensures Refilling(allocs, i + 1, k', r', c0, p0, s0, h0)
    {
      var t := defaultType[i];
      if t in pools && poolSize - |pools[t]| > 0 {
        k', r' := FillType(allocs, i, k, r, c0, p0, s0, h0, now);
      } else {
        RefillSkip(defaultType, poolSize, prefix, allocs, i, k, r, c0, p0, containers, pools, AllSucceed(allocs));
        k', r' := k, r.(types := r.types + 1);
      }
    }
  
    /** One key of the loop of `scan_released_cleanup_once`: counted, then skipped or its record deleted. */
    method CleanupScanKey(order: seq<string>, i: int, ttl: int, maxDelete: int, now: int, r0: CleanupReport,
                          ghost c0: Records, ghost gone0: seq<string>) returns (r: CleanupReport, ghost gone: seq<string>)
      requires Valid() && RecordsValid(c0) && Distinct(order) && 0 <= i < |order| && r0.deleted < maxDelete
      requires CleanupOf(c0, order[..i], ttl, maxDelete, now) == CleanupState(r0, gone0)
      requires containers == Remaining(c0, gone0)
      modifies this`containers
      ensures Valid()
      ensures CleanupOf(c0, order[..i + 1], ttl, maxDelete, now) == CleanupState(r, gone)
      ensures containers == Remaining(c0, gone)
    {
      var key := order[i];
      CleanupAdvance(prefix, containers, sessions, pools, c0, order, i, ttl, maxDelete, now, CleanupState(r0, gone0));
      r, gone := r0.(scanned := r0.scanned + 1), gone0;
      if key in containers {
        var cm := containers[key];
        if cm.state != Released {
          r := r.(skippedNotReleased := r.skippedNotReleased + 1);
        } else {
          var releasedAt := ReleaseTime(cm);
          if releasedAt <= 0 {
            r := r.(skippedNotExpired := r.skippedNotExpired + 1);
          } else if now - releasedAt <= ttl {
            r := r.(skippedNotExpired := r.skippedNotExpired + 1);
          } else {
            containers := containers - {cm.containerName};
            gone := gone + [key];
            r := r.(deleted := r.deleted + 1);
          }
        }
      }
    }

    /**
     * `scan_released_cleanup_once` with `config.released_key_ttl` = `ttl`,
     * the stored keys scanned in the order `order`: a non-positive `ttl`
     * only reports the cleanup as disabled; otherwise the report and the
     * deleted records are those of `CleanupOf`, and only those records
     * are gone.
     */
    method ScanReleasedCleanupOnce(order: seq<string>, ttl: int, maxDelete: int, now: int) returns (r: CleanupReport)
      requires Valid() && Distinct(order)
      modifies this`containers
      ensures Valid()
      ensures ttl <= 0 ==> r == CleanupReport(ttl, 0, 0, 1, 0, 0, 0) && containers == old(containers)
      ensures ttl > 0 ==> var s := CleanupOf(old(containers), order, ttl, maxDelete, now);
        r == s.report && containers == Remaining(old(containers), s.gone)
    {
      r := CleanupReport(ttl, 0, 0, 0, 0, 0, 0);
      if ttl <= 0 {
        return r.(skippedTtlDisabled := 1);
      }
      ghost var c0 := containers;
      ghost var gone: seq<string> := [];
      assert containers == Remaining(c0, gone);
      var i := 0;
      while i < |order|
        invariant 0 <= i <= |order| && Valid()
        invariant CleanupOf(c0, order[..i], ttl, maxDelete, now) == CleanupState(r, gone)
        invariant containers == Remaining(c0, gone)
      {
        if r.deleted >= maxDelete {
          break;
        }
        r, gone := CleanupScanKey(order, i, ttl, maxDelete, now, r, c0, gone);
        i := i + 1;
      }
      if i < |order| {
        CleanupStopped(c0, order, i, ttl, maxDelete, now);
      } else {
        assert order[..i] == order;
      }
    }
      /**
     * `release(n)` inside `cleanup`, for a name stored under itself or not
     * at all: the released set grows by `n`. Whether the storage upload
     * fails does not change what `release` writes, and `cleanup` ignores
     * its result.
     */
    method ReleaseInto(n: string, ghost c0: Records, ghost s0: Sessions, ghost gone: set<string>, now: int)
      requires Valid() && Cleaned(c0, s0, gone, now, containers, sessions)
      requires n in containers || ContainerKey(prefix, n) !in containers
      modifies this`containers, this`sessions
      ensures Valid() && Cleaned(c0, s0, gone + {n}, now, containers, sessions)
    {
      ghost var cA, sA := containers, sessions;
      var _ := Release(n, false, now);
      CleanedGrow(c0, gone, now, n);
      if n in cA {
        DetachListing(sA, cA, n);
      } else {
        assert forall x :: !Lists(sA, x, n);
      }
    }

    /** One dequeue of the `while queue.size() > 0` loop of `cleanup`: its snapshot released unless terminal. */
    method DrainOne(t: string, ghost q0: seq<ContainerRecord>, ghost m: int, ghost c0: Records, ghost s0: Sessions,
                    ghost gone: set<string>, now: int)
      requires Valid() && t in pools && 0 <= m < |q0| && pools[t] == q0[m..]
      requires Cleaned(c0, s0, DrainGone(gone, q0, m), now, containers, sessions)
      modifies this`containers, this`sessions, this`pools
      ensures Valid() && pools == old(pools)[t := q0[m + 1..]]
      ensures Cleaned(c0, s0, DrainGone(gone, q0, m + 1), now, containers, sessions)
    {
      var e := pools[t][0];
      QueuedAt(pools, t, 0);
      DequeueKeepsValid(prefix, containers, sessions, pools, t);
      pools := pools[t := pools[t][1..]];
      DrainGoneStep(gone, q0, m);
      if !Terminal(e.state) {
        ReleaseInto(e.containerName, c0, s0, DrainGone(gone, q0, m), now);
      }
    }

    /** The `while queue.size() > 0` loop of `cleanup` for the queue of type `t`. */
    method DrainQueue(t: string, ghost c0: Records, ghost s0: Sessions, ghost gone: set<string>, now: int)
      requires Valid() && t in pools && Cleaned(c0, s0, gone, now, containers, sessions)
      modifies this`containers, this`sessions, this`pools
      ensures Valid() && pools == old(pools)[t := []]
      ensures Cleaned(c0, s0, gone + QueueTargets(old(pools)[t]), now, containers, sessions)
    {
      ghost var q0 := pools[t];
      ghost var m := 0;
      DrainGoneEnds(gone, q0);
      while pools[t] != []
        invariant Valid() && t in pools && 0 <= m <= |q0| && pools == old(pools)[t := q0[m..]]
        invariant Cleaned(c0, s0, DrainGone(gone, q0, m), now, containers, sessions)
        decreases |pools[t]|
      {
        DrainOne(t, q0, m, c0, s0, gone, now);
        m := m + 1;
      }
      assert |q0[m..]| == 0;
      assert m == |q0|;
    }

    /** One queue of the first loop of `cleanup`. */
    method DrainType(types: seq<string>, j: int, ghost p0: Pools, ghost c0: Records, ghost s0: Sessions, now: int)
      requires Valid() && 0 <= j < |types| && Distinct(types) && DrainedTo(p0, types, j, pools)
      requires Cleaned(c0, s0, PoolGone(p0, types, j), now, containers, sessions)
      modifies this`containers, this`sessions, this`pools
      ensures Valid() && DrainedTo(p0, types, j + 1, pools)
      ensures Cleaned(c0, s0, PoolGone(p0, types, j + 1), now, containers, sessions)
    {
      DrainedStep(p0, types, j, pools);
      DrainQueue(types[j], c0, s0, PoolGone(p0, types, j), now);
    }

    /** The first loop of `cleanup`: every queue of the pool drained, in the order `types`. */
    method DrainPools(types: seq<string>, ghost c0: Records, ghost s0: Sessions, now: int)
      requires Valid() && Cleaned(c0, s0, {}, now, containers, sessions)
      requires Distinct(types) && forall t :: t in pools <==> t in types
      modifies this`containers, this`sessions, this`pools
      ensures Valid() && pools.Keys == old(pools).Keys && forall t :: t in pools ==> pools[t] == []
      ensures Cleaned(c0, s0, PoolTargets(old(pools)), now, containers, sessions)
    {
      ghost var p0 := pools;
      DrainedEnds(p0, types, p0);
      var j := 0;
      while j < |types|
        invariant 0 <= j <= |types| && Valid() && DrainedTo(p0, types, j, pools)
        invariant Cleaned(c0, s0, PoolGone(p0, types, j), now, containers, sessions)
      {
        DrainType(types, j, p0, c0, s0, now);
        j := j + 1;
      }
      DrainedEnds(p0, types, pools);
    }

    /** One key of the second loop of `cleanup`. */
    method ReleaseLiveStep(keys: seq<string>, i: int, ghost c0: Records, ghost s0: Sessions, ghost gone: set<string>,
                           now: int)
      requires Valid() && 0 <= i < |keys| && containers.Keys == c0.Keys
      requires Cleaned(c0, s0, LiveGone(gone, c0, keys, i), now, containers, sessions)
      modifies this`containers, this`sessions
      ensures Valid() && Cleaned(c0, s0, LiveGone(gone, c0, keys, i + 1), now, containers, sessions)
    {
      var key := keys[i];
      LiveGoneStep(gone, c0, keys, i);
      if key in containers {
        var cm := containers[key];
        if !Terminal(cm.state) {
          ReleaseInto(cm.containerName, c0, s0, LiveGone(gone, c0, keys, i), now);
        }
      }
    }

    /** The second loop of `cleanup`: every scanned key with a live record released. */
    method ReleaseLive(keys: seq<string>, ghost c0: Records, ghost s0: Sessions, ghost gone: set<string>, now: int)
      requires Valid() && Cleaned(c0, s0, gone, now, containers, sessions)
      modifies this`containers, this`sessions
      ensures Valid() && Cleaned(c0, s0, gone + ScanTargets(c0, keys), now, containers, sessions)
    {
      LiveGoneEnds(gone, c0, keys);
      var i := 0;
      while i < |keys|
        invariant 0 <= i <= |keys| && Valid()
        invariant Cleaned(c0, s0, LiveGone(gone, c0, keys, i), now, containers, sessions)
      {
        ReleaseLiveStep(keys, i, c0, s0, gone, now);
        i := i + 1;
      }
    }

    /**
     * `cleanup`, the queues taken in the order `types` and the stored keys
     * in the order `keys` of the scan: every queue is emptied; the records
     * released are those of the non-terminal queued snapshots and those of
     * the scanned keys whose stored record is not terminal; every released
     * name leaves its session list, and no record is deleted.
     */
    method Cleanup(types: seq<string>, keys: seq<string>, now: int)
      requires Valid() && Distinct(types) && forall t :: t in pools <==> t in types
      modifies this`containers, this`sessions, this`pools
      ensures Valid() && pools.Keys == old(pools).Keys && forall t :: t in pools ==> pools[t] == []
      ensures Cleaned(old(containers), old(sessions), PoolTargets(old(pools)) + ScanTargets(old(containers), keys), now,
                      containers, sessions)
    {
      ghost var c0, s0 := containers, sessions;
      DrainPools(types, c0, s0, now);
      ReleaseLive(keys, c0, s0, PoolTargets(old(pools)), now);
    }
      /**
     * The `touch_session` decorator, before the decorated call runs: when
     * the identity argument names a container bound to a session, that
     * session's heartbeat is set to `now` and, if it is marked recycled,
     * `restore_session` runs (its failure is ignored); otherwise nothing
     * changes. The marker goes once a replacement is made, so a session
     * keeps being restored on every touch only while none can be made.
     */
    method TouchSession(identity: Option<string>, allocs: seq<Alloc>, now: int)
      returns (ghost ctx: Option<string>, ghost restoreOk: bool, ghost newNames: seq<string>, ghost restoredOld: seq<string>)
      requires Valid() && Unrelated(prefix, SessionIds(allocs))
      requires forall i :: 0 <= i < |allocs| ==> FreshSession(allocs[i].sessionId)
      requires identity.Some? && Truthy(GetSessionCtxIdByIdentity(identity.value)) ==>
        |allocs| == |SessionList(sessions, GetSessionCtxIdByIdentity(identity.value).value)|
      modifies this`containers, this`sessions, this`pools, hb`heartbeat, hb`recycled
      ensures Valid()
      ensures ctx == if identity.Some? then old(GetSessionCtxIdByIdentity(identity.value)) else None
      ensures !Truthy(ctx) ==>
        && containers == old(containers) && sessions == old(sessions) && pools == old(pools)
        && hb.heartbeat == old(hb.heartbeat) && hb.recycled == old(hb.recycled)
      ensures Truthy(ctx) && !old(hb.NeedsRestore(ctx.value)) ==>
        && containers == old(containers) && sessions == old(sessions) && pools == old(pools)
        && hb.heartbeat == old(hb.heartbeat)[ctx.value := now] && hb.recycled == old(hb.recycled)
      ensures Truthy(ctx) && old(hb.NeedsRestore(ctx.value)) ==>
        && hb.recycled == (if newNames == [] then old(hb.recycled) else old(hb.recycled) - {ctx.value})
        && (hb.NeedsRestore(ctx.value) <==> newNames == [])
        && RestoreOutcome(ctx.value, SessionList(old(sessions), ctx.value), old(containers), old(sessions),
                          old(hb.heartbeat)[ctx.value := now], restoreOk, newNames, restoredOld,
                          containers, sessions, hb.heartbeat, now)
    {
      newNames, restoredOld, restoreOk := [], [], true;
      ctx := None;
      if identity.None? {
        return;
      }
      var sessionCtxId := GetSessionCtxIdByIdentity(identity.value);
      ctx := sessionCtxId;
      if !Truthy(sessionCtxId) {
        return;
      }
      var _ := hb.UpdateHeartbeat(sessionCtxId.value, None, now);
      if hb.NeedsRestore(sessionCtxId.value) {
        var r;
        r, newNames, restoredOld := RestoreSession(sessionCtxId.value, allocs, now);
        restoreOk := r.Ok?;
      }
    }
  }
}
