# agentscope_runtime core, modelled in Dafny

This project is a Dafny model of the deterministic core of agentscope_runtime. It covers the following pieces:

- **Sandbox manager bookkeeping.** This is `SandboxManager` together with `HeartbeatMixin` and `ContainerModel`. A container record moves through WARM, RUNNING, RECYCLED and RELEASED. The session map lists each session's containers. Warm pools are queues per sandbox type. The heartbeat map and the recycled-marker map drive reaping and restoring. The following operations are imperative methods on the class `SandboxManager.Manager`, each proved against value-level outcome functions: `create`, `_bind_meta`, `create_from_pool`, `release`, `reap_session`, `restore_session`, `cleanup`, `touch_session` and the three `scan_*_once` passes. The heartbeat store, with its single-holder lock, is the class `Heartbeat.HeartbeatStore`. The container engine, storage and clock are parameters.
- **Container clients.** This covers port allocation, port formatting, volume conversion and `remove` in the BoxLite client. From the Knative client it covers the port-spec parser, the pod-spec mapping, the local-cluster test and the ready-condition test.
- **Deployers.** This covers PAI configuration merge, resolve, validate and to-kwargs, the `.gitignore`-style path filter, and the deployment and credential builders. It also covers FC environment and config parsing, the `.env` lines, the Knative deployer's naming and results, and `oss://` URI parsing.
- **AG-UI adapter.** This covers the event state machine (run-started and run-finished flags, per-message status), the stream wrapper that always ends with a terminal event, and the AG-UI → agent-API request conversion.
- **Wire and format helpers.** This covers:
  - the agent API client's SSE line parser, event dispatch and text extraction;
  - the AgentScope and MS Agent Framework message adapters, including grouping by original id and `data:` URL splitting;
  - the sandbox server settings;
  - the deprecation messages;
  - the ModelStudio memory service (error classification, configuration, response normalisation, schemas);
  - the sandbox HTTP client's construction;
  - the memory demo helpers.

Shared pieces are `Wrappers` (Option/Result), `Strings`, `Dicts` (insertion-ordered dictionaries) and `Json` (the JSON values the code inspects).

Two conventions hold throughout the model:

- Python exceptions become the `Err` arm of a `Result`.
- Each property is either an `ensures` of the member that computes it or a lemma about the value-level function that specifies it.

## Model

| member | source | states |
|---|---|---|
| SandboxManager.ContainerKey | src/agentscope_runtime/sandbox/manager/sandbox_manager.py:336-338 | the key is the prefix followed by the session id |
| SandboxManager.ContainerKeyInjective | src/agentscope_runtime/sandbox/manager/sandbox_manager.py:336-338 | different session ids give different container keys |
| SandboxManager.MetaSession | src/agentscope_runtime/sandbox/manager/sandbox_manager.py:733-735 | the session id is read from `meta` only when present and non-empty |
| SandboxManager.RemoveName | src/agentscope_runtime/sandbox/manager/sandbox_manager.py:959-964 | the filtered list holds exactly the other names, is no longer, and is unchanged when the name is absent |
| SandboxManager.AppendOnce | src/agentscope_runtime/sandbox/manager/sandbox_manager.py:903-906 | the name is appended once; a list already holding it is unchanged |
| SandboxManager.DetachFromSession | src/agentscope_runtime/sandbox/manager/sandbox_manager.py:953-970 | the container leaves its session's list, an emptied list is deleted, other sessions are untouched |
| SandboxManager.Unbind | src/agentscope_runtime/sandbox/manager/sandbox_manager.py:980-984 | `meta` loses only its session id |
| SandboxManager.ReleasedRecord | src/agentscope_runtime/sandbox/manager/sandbox_manager.py:972-984 | RELEASED at `now`, recycle fields cleared, unbound in field and `meta`, other fields kept |
| SandboxManager.RecycledRecord | src/agentscope_runtime/sandbox/manager/sandbox_manager.py:1307-1316 | RECYCLED at `now` for the reason, still bound to the session in field and `meta` |
| SandboxManager.RecycledTwice | src/agentscope_runtime/sandbox/manager/sandbox_manager.py:1307-1316 | recycling a record twice for the same session equals recycling it once |
| SandboxManager.ReleasedTwice | src/agentscope_runtime/sandbox/manager/sandbox_manager.py:972-984 | releasing a record twice at the same time equals releasing it once |
| SandboxManager.RemoveAppended | src/agentscope_runtime/sandbox/manager/sandbox_manager.py:959-964 | removing a just-appended new name gives the list back |
| SandboxManager.AttachDetached | src/agentscope_runtime/sandbox/manager/sandbox_manager.py:903-906 | attaching an unlisted name and detaching it again leaves every session list as it was |
| SandboxManager.Attach | src/agentscope_runtime/sandbox/manager/sandbox_manager.py:900-906 | a bound container joins its session's list once; unbound containers change nothing |
| SandboxManager.AttachKeepsBound | src/agentscope_runtime/sandbox/manager/sandbox_manager.py:888-906 | storing a record and attaching it to its session keeps every listed name bound to its session |
| SandboxManager.ReleaseKeepsBound | src/agentscope_runtime/sandbox/manager/sandbox_manager.py:953-989 | releasing a stored record keeps every listed name bound to its session |
| SandboxManager.ListedUnqueued | src/agentscope_runtime/sandbox/manager/sandbox_manager.py:1257-1268 | a listed name has a record bound to its session and is never in a warm queue |
| SandboxManager.RecycleKeepsValid | src/agentscope_runtime/sandbox/manager/sandbox_manager.py:1270-1321 | recycling a session's listed containers keeps the mapping invariants |
| SandboxManager.SwitchKeepsValid | src/agentscope_runtime/sandbox/manager/sandbox_manager.py:1423-1441 | replacing the session's list by its new containers and deleting the old records keeps the invariants |
| SandboxManager.SwitchedListChanged | src/agentscope_runtime/sandbox/manager/sandbox_manager.py:1397-1441 | after a restore, the session's list changed exactly when something was replaced |
| SandboxManager.PathJoin | src/agentscope_runtime/sandbox/manager/sandbox_manager.py:775-793 | the joined path starts with the directory and ends with the name |
| SandboxManager.BoundRecord | src/agentscope_runtime/sandbox/manager/sandbox_manager.py:591-606 | the caller's `meta` and session id, RUNNING iff the id is truthy, recycle fields cleared |
| SandboxManager.RestoredRecord | src/agentscope_runtime/sandbox/manager/sandbox_manager.py:1401-1416 | RUNNING, bound in field and `meta`, `meta` names the sandbox type, recycle fields cleared |
| SandboxManager.RunningInExists | src/agentscope_runtime/sandbox/manager/sandbox_manager.py:1464-1476 | `has_running` holds exactly when some listed container is RUNNING |
| SandboxManager.VerdictReap | src/agentscope_runtime/sandbox/manager/sandbox_manager.py:1478-1513 | a session is reaped exactly when it has a RUNNING container and a heartbeat, is idle past the timeout at both readings and its lock is free |
| SandboxManager.TallyAllCounts | src/agentscope_runtime/sandbox/manager/sandbox_manager.py:1451-1524 | every session is counted as scanned, each counter counts its verdict, errors stay 0 |
| SandboxManager.ReapedSeqAll | src/agentscope_runtime/sandbox/manager/sandbox_manager.py:1461-1522 | reaping sessions one by one recycles exactly the records of sessions whose verdict is reap |
| SandboxManager.CreatedRecord | src/agentscope_runtime/sandbox/manager/sandbox_manager.py:868-886 | RUNNING and bound when `meta` carries a session id, WARM and unbound otherwise |
| SandboxManager.ReleaseTime | src/agentscope_runtime/sandbox/manager/sandbox_manager.py:1625 | `released_at`, else `updated_at`, else 0, skipping absent and zero values |
| SandboxManager.Remaining | src/agentscope_runtime/sandbox/manager/sandbox_manager.py:1635 | the stored records minus the deleted names |
| SandboxManager.CleanupSound | src/agentscope_runtime/sandbox/manager/sandbox_manager.py:1603-1645 | at most `max_delete` records are deleted, each a stored expired RELEASED one; every scanned key is counted once and errors stay 0 |
| SandboxManager.CleanupComplete | src/agentscope_runtime/sandbox/manager/sandbox_manager.py:1609-1636 | until the limit is reached, every key is scanned and deleted exactly when its record is deletable |
| SandboxManager.CleanupStopped | src/agentscope_runtime/sandbox/manager/sandbox_manager.py:1610-1611 | once `max_delete` deletions are reached, the rest of the scan changes nothing |
| SandboxManager.CleanupLeavesTerminal | src/agentscope_runtime/sandbox/manager/sandbox_manager.py:505-575 | after `cleanup` every scanned or queued stored name is terminal, and only released records change |
| SandboxManager.Manager.constructor | src/agentscope_runtime/sandbox/manager/sandbox_manager.py:137-264 | empty mappings and one empty warm queue per default type; the heartbeat and recycled maps the heartbeat mixin asks of its host start empty (see Left out) |
| SandboxManager.Manager.TargetType | src/agentscope_runtime/sandbox/manager/sandbox_manager.py:737-740 | the requested type must be a `SandboxType` value; otherwise the first default type is used |
| SandboxManager.Manager.ConfigFor | src/agentscope_runtime/sandbox/manager/sandbox_manager.py:742-751 | the registry entry of the type, else that of the first default type; IndexError when there is no default type, AttributeError when the first one is not registered |
| SandboxManager.Manager.MountDirFor | src/agentscope_runtime/sandbox/manager/sandbox_manager.py:769-777 | the caller's directory when given and allowed, else default dir joined with the session id when configured |
| SandboxManager.Manager.StoragePathFor | src/agentscope_runtime/sandbox/manager/sandbox_manager.py:788-793 | the caller's path, else the storage folder joined with the session id when configured |
| SandboxManager.Manager.GetInfo | src/agentscope_runtime/sandbox/manager/sandbox_manager.py:1112-1129 | the record under the identity, else under prefix + identity, else RuntimeError |
| SandboxManager.Manager.GetSessionCtxIdByIdentity | src/agentscope_runtime/sandbox/manager/heartbeat_mixin.py:172-191 | None for an unknown container, else the session id in its `meta`, which agrees with its field |
| SandboxManager.Manager.Release | src/agentscope_runtime/sandbox/manager/sandbox_manager.py:937-1028 | unknown identity is already released; otherwise detached from its session and written back RELEASED; false only on a failed upload |
| SandboxManager.Manager.Register | src/agentscope_runtime/sandbox/manager/sandbox_manager.py:888-910 | the record is stored; a bound one joins its session's list and the session gets a heartbeat |
| SandboxManager.Manager.Create | src/agentscope_runtime/sandbox/manager/sandbox_manager.py:696-929 | bad type or missing config is an error; success exactly when env has no None, the engine starts and the record validates; then stored RUNNING+listed+heartbeat with the session's recycled marker cleared (no restore needed), or WARM; else nothing changes |
| SandboxManager.Manager.CreateStored | src/agentscope_runtime/sandbox/manager/sandbox_manager.py:696-911 | `create` up to its marker call: the same outcomes and stored state, the recycled markers untouched |
| SandboxManager.Manager.CreateAsWritten | src/agentscope_runtime/sandbox/manager/sandbox_manager.py:900-929 | with a session id, the undefined `clear_container_recycle_marker` raises: the container is released and the result is None |
| SandboxManager.Manager.Launch | src/agentscope_runtime/sandbox/manager/sandbox_manager.py:838-911 | stored exactly when the engine starts and the timeout is valid; a failure changes nothing |
| SandboxManager.Manager.BindMeta | src/agentscope_runtime/sandbox/manager/sandbox_manager.py:591-626 | falsy `meta` changes nothing; else the record is rebound, listed once, given a heartbeat and its session's recycled marker cleared when it has a session |
| SandboxManager.Manager.BindMetaAsWritten | src/agentscope_runtime/sandbox/manager/sandbox_manager.py:591-626 | with a session id, the record is rebound and listed, then the undefined call raises before the heartbeat |
| SandboxManager.Manager.PoolType | src/agentscope_runtime/sandbox/manager/sandbox_manager.py:581-584 | the requested type when truthy, else the first default; not a `SandboxType` value is an error |
| SandboxManager.Manager.ImageOf | src/agentscope_runtime/sandbox/manager/sandbox_manager.py:635-638 | the registered image of the type, if any |
| SandboxManager.Manager.CreateFromPool | src/agentscope_runtime/sandbox/manager/sandbox_manager.py:581-688 | the head of the queue is handed out and dequeued when current and alive; otherwise a new container is created; a session that gets a container no longer needs a restore; no foreign record changes |
| SandboxManager.Manager.CreateFresh | src/agentscope_runtime/sandbox/manager/sandbox_manager.py:680-688 | the fallback creates a container without mounts under the fresh name; queues unchanged; the session's marker is cleared exactly when a name is returned |
| SandboxManager.Manager.CreateFromPoolAsWritten | src/agentscope_runtime/sandbox/manager/sandbox_manager.py:581-688 | as written, a session-bound `meta` never gets a container; a current, live pooled head is dequeued and left RUNNING, bound and listed for the session, with no one to release it |
| SandboxManager.Manager.TakeHeadAsWritten | src/agentscope_runtime/sandbox/manager/sandbox_manager.py:628-678 | as written, the head is dequeued; it is handed out only for a meta without session; for a session it is rebound, listed and not handed out |
| SandboxManager.Manager.TakeHead | src/agentscope_runtime/sandbox/manager/sandbox_manager.py:628-678 | the head is dequeued; handed out exactly when its image is current and it runs, released otherwise; the session's marker is cleared exactly when it is handed out |
| SandboxManager.Manager.MarkRestored | src/agentscope_runtime/sandbox/manager/sandbox_manager.py:1401-1416 | the replacement is written RUNNING and bound to the session |
| SandboxManager.Manager.RestoreType | src/agentscope_runtime/sandbox/manager/sandbox_manager.py:1371 | the old record's sandbox type, else the first default type |
| SandboxManager.Manager.Replacement | src/agentscope_runtime/sandbox/manager/sandbox_manager.py:1377-1388 | from the pool without a mount directory, newly created on it otherwise; the session's marker goes exactly when a replacement is made |
| SandboxManager.Manager.RestoreOne | src/agentscope_runtime/sandbox/manager/sandbox_manager.py:1360-1421 | a non-RECYCLED container is left alone; a RECYCLED one gets a replacement marked RUNNING and bound, and the session's marker goes |
| SandboxManager.Manager.ReplaceAll | src/agentscope_runtime/sandbox/manager/sandbox_manager.py:1356-1421 | each RECYCLED listed container is replaced in turn; the session list and the session's marker change only once something is replaced |
| SandboxManager.Manager.SwitchSession | src/agentscope_runtime/sandbox/manager/sandbox_manager.py:1423-1431 | the session's list becomes the replacements and the session gets a heartbeat |
| SandboxManager.Manager.ArchiveAll | src/agentscope_runtime/sandbox/manager/sandbox_manager.py:1434-1441 | each replaced record leaves the mapping |
| SandboxManager.Manager.RestoreSession | src/agentscope_runtime/sandbox/manager/sandbox_manager.py:1335-1441 | replaced records are deleted, the list becomes the replacements and the session no longer needs a restore; or nothing changes |
| SandboxManager.Manager.RestoreListed | src/agentscope_runtime/sandbox/manager/sandbox_manager.py:1352-1441 | `restore_session` on a non-empty session list; the marker goes exactly when something is replaced |
| SandboxManager.Manager.ReapSession | src/agentscope_runtime/sandbox/manager/sandbox_manager.py:1257-1333 | every listed container is recycled for the reason, keeping its binding; the session mapping is unchanged |
| SandboxManager.Manager.RecycleAll | src/agentscope_runtime/sandbox/manager/sandbox_manager.py:1272-1321 | the loop recycles exactly the listed containers |
| SandboxManager.Manager.HasRunning | src/agentscope_runtime/sandbox/manager/sandbox_manager.py:1464-1476 | true exactly when a listed container of the session is RUNNING |
| SandboxManager.Manager.HeartbeatStep | src/agentscope_runtime/sandbox/manager/sandbox_manager.py:1461-1522 | one session's verdict, its reap when due, and its lock taken and given back |
| SandboxManager.Manager.ScanHeartbeatOnce | src/agentscope_runtime/sandbox/manager/sandbox_manager.py:1443-1524 | reaps exactly the idle sessions with a RUNNING container, a heartbeat and a free lock; the report tallies every verdict |
| SandboxManager.Manager.FillOne | src/agentscope_runtime/sandbox/manager/sandbox_manager.py:1561-1581 | a successful creation queues the new WARM record at the tail; a failure changes nothing |
| SandboxManager.Manager.FillType | src/agentscope_runtime/sandbox/manager/sandbox_manager.py:1546-1581 | `need` attempts for the type; its queue grows by the successful ones |
| SandboxManager.Manager.ScanPoolOnce | src/agentscope_runtime/sandbox/manager/sandbox_manager.py:1526-1584 | with a positive pool size every default queue is refilled towards it; created = enqueued; when all creations succeed every queue reaches the pool size |
| SandboxManager.Manager.ScanReleasedCleanupOnce | src/agentscope_runtime/sandbox/manager/sandbox_manager.py:1586-1645 | non-positive TTL only reports disabled; otherwise exactly the records `CleanupOf` names are deleted |
| SandboxManager.Manager.DrainPools | src/agentscope_runtime/sandbox/manager/sandbox_manager.py:524-548 | every warm queue is emptied and its non-terminal snapshots released |
| SandboxManager.Manager.ReleaseLive | src/agentscope_runtime/sandbox/manager/sandbox_manager.py:550-570 | every scanned key with a non-terminal record is released |
| SandboxManager.Manager.Cleanup | src/agentscope_runtime/sandbox/manager/sandbox_manager.py:505-575 | every queue is emptied; the non-terminal queued and stored records are released and leave their session lists; none is deleted |
| SandboxManager.Manager.TouchSession | src/agentscope_runtime/sandbox/manager/heartbeat_mixin.py:17-79 | a bound identity refreshes its session's heartbeat and runs `restore_session` when marked recycled, after which it still needs a restore exactly when nothing could be replaced; otherwise nothing changes |
| Container.StateValue | src/agentscope_runtime/sandbox/model/container.py:10-15 | every state's value is one of warm, running, recycled, error, released |
| Container.StateFromValue | src/agentscope_runtime/sandbox/model/container.py:10-15 | exactly those five values parse, each back to its state |
| Container.StateValueRoundTrip | src/agentscope_runtime/sandbox/model/container.py:10-15 | every state has a distinct value and parses back from it |
| Container.DefaultRecord | src/agentscope_runtime/sandbox/model/container.py:18-116 | field defaults before validation: a record given only its required fields keeps them, is RUNNING with an empty meta, and has every other optional field None |
| Container.DefaultRecordValidates | src/agentscope_runtime/sandbox/model/container.py:18-150 | such a record is unbound, and once `updated_at` is stamped it satisfies everything validation guarantees |
| Container.CompatAndDefaults | src/agentscope_runtime/sandbox/model/container.py:69-150 | a negative timeout is rejected; otherwise meta is never None, an empty session_ctx_id takes a non-empty meta value, whenever session_ctx_id is set meta["session_ctx_id"] equals it and otherwise meta's id is the raw one, updated_at is set to now only when absent, every other meta key is kept with its value and none is added, and every other field is untouched |
| Heartbeat.LockKey | src/agentscope_runtime/sandbox/manager/heartbeat_mixin.py:194-195 | the lock key is "heartbeat_lock:" followed by the session id |
| Heartbeat.LockKeyInjective | src/agentscope_runtime/sandbox/manager/heartbeat_mixin.py:194-195 | distinct sessions never share a lock key |
| Heartbeat.LockSingleHolder | src/agentscope_runtime/sandbox/manager/heartbeat_mixin.py:98-234 | a lock has a single holder: a second acquire fails while it is held, a wrong-token release leaves it held, the right token frees it |
| Heartbeat.HeartbeatStore.constructor | src/agentscope_runtime/sandbox/manager/heartbeat_mixin.py:86-96 | a new store has no heartbeat, no marker and no lock |
| Heartbeat.HeartbeatStore.UpdateHeartbeat | src/agentscope_runtime/sandbox/manager/heartbeat_mixin.py:106-119 | an empty id raises ValueError and changes nothing; otherwise the given timestamp (or now) is stored and returned, and `get_heartbeat` then returns it |
| Heartbeat.HeartbeatStore.DeleteHeartbeat | src/agentscope_runtime/sandbox/manager/heartbeat_mixin.py:121-131 | afterwards `get_heartbeat` is None for the id |
| Heartbeat.HeartbeatStore.MarkSessionRecycled | src/agentscope_runtime/sandbox/manager/heartbeat_mixin.py:134-146 | an empty id raises ValueError; otherwise the marker is stored and `needs_restore` holds |
| Heartbeat.HeartbeatStore.ClearSessionRecycled | src/agentscope_runtime/sandbox/manager/heartbeat_mixin.py:148-155 | afterwards `needs_restore` is false for the id |
| Heartbeat.HeartbeatStore.RestoreSessionStub | src/agentscope_runtime/sandbox/manager/heartbeat_mixin.py:157-169 | the mixin's own `restore_session` changes nothing: the recycled marker stays, so `needs_restore` keeps its value |
| Heartbeat.HeartbeatStore.AcquireHeartbeatLock | src/agentscope_runtime/sandbox/manager/heartbeat_mixin.py:197-213 | without Redis always "inmemory"; with Redis the fresh token iff the key was free (set-if-absent) |
| Heartbeat.HeartbeatStore.ReleaseHeartbeatLock | src/agentscope_runtime/sandbox/manager/heartbeat_mixin.py:215-239 | without Redis always True; with Redis compare-and-delete by token (also on the eval fallback); another Redis response error is re-raised, any other failure gives False |
| BoxlitePorts.ScanFound | src/agentscope_runtime/common/container_clients/boxlite_client.py:396-413 | the scan finds at most n ports, each in range, not already in port_set and bindable, in ascending range order |
| BoxlitePorts.ScanSet | src/agentscope_runtime/common/container_clients/boxlite_client.py:404-411 | port_set afterwards is the old set plus exactly the ports found (a port whose bind fails is removed again) |
| BoxlitePorts.ScanComplete | src/agentscope_runtime/common/container_clients/boxlite_client.py:399-419 | when fewer than n ports are found, every unused bindable port of the range is among them |
| BoxlitePorts.ScanNoGaps | src/agentscope_runtime/common/container_clients/boxlite_client.py:399-413 | no eligible port before the last one found is skipped |
| BoxlitePorts.Zip | src/agentscope_runtime/common/container_clients/boxlite_client.py:155-156 | `zip(ports, free_ports)` pairs up to the shorter length, position by position |
| BoxlitePorts.BuildMapping | src/agentscope_runtime/common/container_clients/boxlite_client.py:151-156 | the dict-building loop gives the container-port-keyed dict of the zipped pairs |
| BoxlitePorts.MappingOfValues | src/agentscope_runtime/common/container_clients/boxlite_client.py:155-156 | every host port of the dict is one of the found ports |
| BoxlitePorts.MappingOfDistinct | src/agentscope_runtime/common/container_clients/boxlite_client.py:155-156 | with distinct container ports the dict is the pairs themselves, in request order |
| BoxlitePorts.HostPortsInRequestOrder | src/agentscope_runtime/common/container_clients/boxlite_client.py:155-224 | with distinct container ports the returned host ports follow the order of the requested container ports |
| BoxlitePorts.PortListOf | src/agentscope_runtime/common/container_clients/boxlite_client.py:184-190 | each dict entry becomes (host port, container port number, "tcp"); a container port that is not a number makes the conversion fail |
| BoxlitePorts.PortWithProtocol | src/agentscope_runtime/common/container_clients/boxlite_client.py:187-190 | a text container port "p/proto" has its "/proto" suffix stripped |
| BoxlitePorts.VolumeOpts | src/agentscope_runtime/common/container_clients/boxlite_client.py:166-182 | each volume request is converted on its own, in order |
| BoxlitePorts.VolumeListMembers | src/agentscope_runtime/common/container_clients/boxlite_client.py:165-182 | a volume is listed iff some request of at least two elements gives its host and guest path; its mode is "ro" iff the third element is "ro", "readonly" or True, else "rw" |
| BoxlitePorts.ConvertVolumes | src/agentscope_runtime/common/container_clients/boxlite_client.py:165-182 | the conversion loop gives exactly that list |
| BoxlitePorts.PortKeyTextEq | src/agentscope_runtime/common/container_clients/boxlite_client.py:439 | equal "p/tcp" keys come from equal host ports |
| BoxlitePorts.FormattedPortsLookup | src/agentscope_runtime/common/container_clients/boxlite_client.py:432-442 | every host port p is found under key "p/tcp" with HostIp "0.0.0.0" and HostPort str(p); the keys are exactly those, each once |
| BoxlitePorts.FormatPorts | src/agentscope_runtime/common/container_clients/boxlite_client.py:432-442 | the loop gives that dict, and [] gives {} |
| BoxliteClient.Client.constructor | src/agentscope_runtime/common/container_clients/boxlite_client.py:48-84 | a new client reserves no port and caches nothing |
| BoxliteClient.Client.FindFreePorts | src/agentscope_runtime/common/container_clients/boxlite_client.py:396-420 | `_find_free_ports(n)` returns the scanned ports, or RuntimeError when fewer than n are found; port_set becomes the scan's set either way |
| BoxliteClient.Client.FindFreePortsFresh | src/agentscope_runtime/common/container_clients/boxlite_client.py:396-413 | every returned port was not reserved before and is reserved now |
| BoxliteClient.Client.Create | src/agentscope_runtime/common/container_clients/boxlite_client.py:151-228 | RuntimeError when the range runs out; otherwise the box options from the converted volumes and ports, and (box id, host ports, "localhost") with the host ports cached for the box on success, (None, None, None) on failure |
| BoxliteClient.Client.CreateFailureKeepsPorts | src/agentscope_runtime/common/container_clients/boxlite_client.py:151-228 | when the box is not created, the ports reserved for it stay in port_set while no box caches them |
| BoxliteClient.Client.CreateReleasingPorts | src/agentscope_runtime/common/container_clients/boxlite_client.py:151-228 | the corrected create: a failed create leaves port_set as it was; a successful one is recorded as `create` records it |
| BoxliteClient.Client.Remove | src/agentscope_runtime/common/container_clients/boxlite_client.py:289-308 | on removal the box's cache entry is deleted and its cached ports leave port_set; when the runtime raises nothing changes and the result is False |
| BoxliteClient.Client.Inspect | src/agentscope_runtime/common/container_clients/boxlite_client.py:320-365 | None for an unknown box; otherwise Dead is not Running and ExitCode is 0 iff running |
| BoxliteClient.Client.InspectPorts | src/agentscope_runtime/common/container_clients/boxlite_client.py:327-355 | every cached host port of an inspected box appears under "p/tcp" bound on 0.0.0.0 |
| BoxliteClient.Client.GetStatus | src/agentscope_runtime/common/container_clients/boxlite_client.py:378-381 | the inspected State.Status, or None for an unknown box |
| KnativeClient.PortText | src/agentscope_runtime/common/container_clients/knative_client.py:340-344 | the port part is the text before the first "/", or all of it when there is none |
| KnativeClient.ParsePortSpec | src/agentscope_runtime/common/container_clients/knative_client.py:328-357 | an int p is (p, "TCP"); a text splits at its first "/" into port and upper-cased protocol (TCP without "/") and parses iff its port part is an integer; any other type gives None |
| KnativeClient.ParsePortWithProtocol | src/agentscope_runtime/common/container_clients/knative_client.py:340-349 | "p/proto" parses to port p and the upper-cased protocol |
| KnativeClient.ParseBarePort | src/agentscope_runtime/common/container_clients/knative_client.py:342-349 | a bare "p" parses to (p, "TCP") |
| KnativeClient.ParsedPorts | src/agentscope_runtime/common/container_clients/knative_client.py:234-235 | each specification is parsed in order |
| KnativeClient.PortsOfMembers | src/agentscope_runtime/common/container_clients/knative_client.py:232-244 | a port is listed iff some specification parses to it: unparsable specifications are dropped |
| KnativeClient.PortsOfAllParsed | src/agentscope_runtime/common/container_clients/knative_client.py:232-244 | when every specification parses, none is dropped and the order is kept |
| KnativeClient.BuildPorts | src/agentscope_runtime/common/container_clients/knative_client.py:232-244 | the port loop builds exactly the parsed ports in order |
| KnativeClient.EnvVarsOf | src/agentscope_runtime/common/container_clients/knative_client.py:247-251 | one environment entry per variable |
| KnativeClient.EnvVarsOfEntries | src/agentscope_runtime/common/container_clients/knative_client.py:247-251 | every entry keeps its key and position and carries its value stringified |
| KnativeClient.BuildEnv | src/agentscope_runtime/common/container_clients/knative_client.py:247-251 | the environment loop builds exactly those entries |
| KnativeClient.VolumeNamesDistinct | src/agentscope_runtime/common/container_clients/knative_client.py:266 | different positions give different "vol-i" names |
| KnativeClient.MountsOf | src/agentscope_runtime/common/container_clients/knative_client.py:254-275 | one volume mount per volume entry |
| KnativeClient.VolumesOf | src/agentscope_runtime/common/container_clients/knative_client.py:254-284 | one host-path volume per volume entry |
| KnativeClient.VolumesOfEntries | src/agentscope_runtime/common/container_clients/knative_client.py:257-284 | the i-th volume is named "vol-i" in both lists, mounts its host path at "bind" (or the plain value), and is read-only iff its mode is "ro", a missing mode meaning "rw" |
| KnativeClient.VolumeNamesUnique | src/agentscope_runtime/common/container_clients/knative_client.py:266-284 | no two volumes share a name |
| KnativeClient.BuildVolumes | src/agentscope_runtime/common/container_clients/knative_client.py:254-284 | the volume loop builds exactly those mounts and volumes |
| KnativeClient.FullImage | src/agentscope_runtime/common/container_clients/knative_client.py:215-219 | "registry/image" when a registry is configured, the bare image otherwise |
| KnativeClient.PolicyOr | src/agentscope_runtime/common/container_clients/knative_client.py:225-226 | a missing key gives the default; a present key gives its value, None included |
| KnativeClient.CreatePodSpec | src/agentscope_runtime/common/container_clients/knative_client.py:200-326 | the pod specification built attribute by attribute equals the reference mapping, runtime attributes included |
| KnativeClient.BuildContainer | src/agentscope_runtime/common/container_clients/knative_client.py:213-288 | the container built from the image, ports, environment and mounts equals the reference container without the runtime resources and security context; its volumes are the reference ones |
| KnativeClient.PodSpecShape | src/agentscope_runtime/common/container_clients/knative_client.py:213-326 | one container; name "main-container" when empty; pull and restart policies "IfNotPresent" and "Always" when absent and the given value (None included) when present; resources, security context, node selector and tolerations passed through; ports unset iff none parses, else exactly the parsed ones; mounts and volumes set together |
| KnativeClient.ClusterServerAbsent | src/agentscope_runtime/common/container_clients/knative_client.py:79-82 | no cluster entry with the name means no server |
| KnativeClient.ClusterServerFirst | src/agentscope_runtime/common/container_clients/knative_client.py:79-82 | the first entry with the name decides the server |
| KnativeClient.IsLocalCluster | src/agentscope_runtime/common/container_clients/knative_client.py:58-111 | `_is_local_cluster` with its two loops computes the reference test: the lower-cased server URL or cluster name contains a listed local pattern |
| KnativeClient.ClusterServerFalsy | src/agentscope_runtime/common/container_clients/knative_client.py:79-84 | when no entry has a server URL, none is found |
| KnativeClient.NoServerIsRemote | src/agentscope_runtime/common/container_clients/knative_client.py:84-104 | without a server URL a cluster is not local, whatever its name |
| KnativeClient.FirstReady | src/agentscope_runtime/common/container_clients/knative_client.py:423-426 | the position of the first condition of type "Ready", if any |
| KnativeClient.ReadyNowIff | src/agentscope_runtime/common/container_clients/knative_client.py:421-429 | ready iff the first "Ready" condition has status "True" |
| KnativeClient.ReadyNowSingle | src/agentscope_runtime/common/container_clients/knative_client.py:421-429 | with at most one "Ready" condition, ready iff it says "True" |
| KnativeClient.NotFoundNotReady | src/agentscope_runtime/common/container_clients/knative_client.py:420-421 | a service not found is never ready |
| KnativeClient.WaitForReady | src/agentscope_runtime/common/container_clients/knative_client.py:401-436 | the wait succeeds iff one of the polled services is ready |
| KnativeClient.CreateKServiceResult | src/agentscope_runtime/common/container_clients/knative_client.py:175-198 | (name, url or "") on success and (None, None) on an API error; name and URL present together |
| KnativeClient.CreateKServiceOutcome | src/agentscope_runtime/common/container_clients/knative_client.py:175-198 | the service is reported created iff both the creation and the read back succeeded, and its URL is "" iff the status had none |
| KnativeDeployer.ResourceName | src/agentscope_runtime/engine/deployers/knative_deployer.py:223-225 | "agent-" followed by the first eight characters of the deploy id (all of it when shorter) |
| KnativeDeployer.ResourceNameExample | src/agentscope_runtime/engine/deployers/knative_deployer.py:223-225 | "test-deploy-123" gives "agent-test-dep" |
| KnativeDeployer.ResourceNameCollides | src/agentscope_runtime/engine/deployers/knative_deployer.py:223-225 | deploy ids agreeing on their first eight characters share a resource name |
| KnativeDeployer.VolumeBindings | src/agentscope_runtime/engine/deployers/knative_deployer.py:156-167 | a mount dir gives exactly one binding, read-write, of its absolute path onto itself; no mount dir gives no binding |
| KnativeDeployer.VolumeBindingsInPod | src/agentscope_runtime/engine/deployers/knative_deployer.py:156-183 | in the pod a mount dir becomes exactly one writable volume "vol-0" from the directory onto itself |
| KnativeDeployer.DeployFailure | src/agentscope_runtime/engine/deployers/knative_deployer.py:214-221 | every failure of `deploy` surfaces as a RuntimeError starting "Knative Service failed: " |
| KnativeDeployer.DeployResult | src/agentscope_runtime/engine/deployers/knative_deployer.py:123-221 | `deploy` succeeds iff the build returned a name, the service was created and read back with a non-empty URL; then it returns deploy id, resource name and URL; otherwise RuntimeError |
| KnativeDeployer.BuildFailureFails | src/agentscope_runtime/engine/deployers/knative_deployer.py:130-154 | a build that raises or returns nothing fails the deployment |
| KnativeDeployer.NoUrlFails | src/agentscope_runtime/engine/deployers/knative_deployer.py:184-190 | a service created without a URL fails the deployment |
| KnativeDeployer.Stop | src/agentscope_runtime/engine/deployers/knative_deployer.py:227-280 | success iff the delete returned True; a False result or an exception reports failure, the exception text kept in the details |
| KnativeDeployer.Deployer.constructor | src/agentscope_runtime/engine/deployers/knative_deployer.py:123-124 | a new deployer has recorded nothing |
| KnativeDeployer.Deployer.Deploy | src/agentscope_runtime/engine/deployers/knative_deployer.py:123-221 | the result is that of `DeployResult`; the built image is recorded as soon as the build succeeds, and the deployment only when the service has a URL |
| KnativeDeployer.Deployer.GetStatus | src/agentscope_runtime/engine/deployers/knative_deployer.py:282-290 | "not_found" when the deploy id was never recorded, else the client's status of the recorded service |
| KnativeDeployer.DeployPodShape | src/agentscope_runtime/engine/deployers/knative_deployer.py:156-183 | the deployed pod exposes exactly the one container port over TCP and carries the mount directory's volume |
| OssUri.ParseOssUri | src/agentscope_runtime/engine/deployers/utils/oss_utils.py:28-38 | a scheme other than `oss` is an error; the key is the URL path with every leading `/` removed; a host holding a `.` splits at its first `.` into bucket and endpoint, any other host is the bucket with no endpoint |
| OssUri.OssUriOf | src/agentscope_runtime/engine/deployers/pai_deployer.py:1399 | the rebuilt URI starts with `oss://` and ends with the object key |
| OssUri.ParseOssUriOf | src/agentscope_runtime/engine/deployers/pai_deployer.py:1396-1399 | parsing `oss://{bucket}.{endpoint}/{key}` gives back (bucket, endpoint, key) when bucket and endpoint are lower-case host names, the bucket has no `.` and the key has no leading `/`, `?` or `#` |
| OssUri.PatchEndpoint | src/agentscope_runtime/engine/deployers/pai_deployer.py:1392-1399 | `_oss_uri_patch_endpoint` fails exactly when `parse_oss_uri` fails |
| OssUri.PatchEndpointKeepsParts | src/agentscope_runtime/engine/deployers/pai_deployer.py:1396-1399 | the patched URI parses to the same bucket and key, with the URI's own non-empty endpoint or else the region's |
| PaiConfig.ParseTypeName | src/agentscope_runtime/engine/deployers/pai_deployer.py:618-621 | the three admitted resource types "public", "resource" and "quota" read back from their text |
| PaiConfig.MergeCli | src/agentscope_runtime/engine/deployers/pai_deployer.py:749-851 | `merge_cli` returns the configuration with each given argument overriding its field (the receiver is a value and unchanged), and fails validation only for a resource type outside the admitted three |
| PaiConfig.MergeContext | src/agentscope_runtime/engine/deployers/pai_deployer.py:785-788 | workspace id and region are overridden only when given |
| PaiConfig.MergeCode | src/agentscope_runtime/engine/deployers/pai_deployer.py:792-795 | source dir and entrypoint are overridden only when given |
| PaiConfig.MergeSpec | src/agentscope_runtime/engine/deployers/pai_deployer.py:789-841 | the spec overrides; environment and tags are updated by non-empty CLI dicts, not replaced |
| PaiConfig.MergeResources | src/agentscope_runtime/engine/deployers/pai_deployer.py:799-813 | each resource field is overridden only when its argument is given |
| PaiConfig.MergeVpc | src/agentscope_runtime/engine/deployers/pai_deployer.py:815-821 | each VPC field is overridden only when its argument is given |
| PaiConfig.MergeNothing | src/agentscope_runtime/engine/deployers/pai_deployer.py:749-851 | merging with every argument None gives the configuration back unchanged |
| PaiConfig.MergedDictsLookup | src/agentscope_runtime/engine/deployers/pai_deployer.py:835-841 | after the merge a key given in the CLI environment or tags has the CLI value and every other key keeps its old value; an empty or absent CLI dict changes nothing |
| PaiConfig.MergedValid | src/agentscope_runtime/engine/deployers/pai_deployer.py:851 | merging into a valid configuration yields a valid configuration |
| PaiConfig.ResolveResourceType | src/agentscope_runtime/engine/deployers/pai_deployer.py:853-870 | an explicit type wins; otherwise "quota" exactly when a quota id is set, then "resource" when a resource id is set, else "public" |
| PaiConfig.ResolveOssWorkDir | src/agentscope_runtime/engine/deployers/pai_deployer.py:872-885 | spec.storage.work_dir when non-empty, else context.storage.work_dir when non-empty, else None; never an empty text |
| PaiConfig.ToDeployerKwargs | src/agentscope_runtime/engine/deployers/pai_deployer.py:887-940 | the kwargs carry the resolved resource type; absent (None) values are omitted |
| PaiConfig.KwargsPublicDefaults | src/agentscope_runtime/engine/deployers/pai_deployer.py:903-906 | in public mode an empty instance type defaults to "ecs.c6.large" and cpu/memory pass through |
| PaiConfig.KwargsPoolDefaults | src/agentscope_runtime/engine/deployers/pai_deployer.py:907-912 | in resource and quota mode cpu defaults to 2 and memory to 2048 |
| PaiConfig.KwargsRoleAndDicts | src/agentscope_runtime/engine/deployers/pai_deployer.py:894-933 | ram_role_mode is "custom" iff ram_role_arn is non-empty; environment and tags are passed only when non-empty |
| PaiConfig.ValidateForDeploy | src/agentscope_runtime/engine/deployers/pai_deployer.py:942-981 | returns normally iff no problem is found; otherwise one ValueError whose message lists every problem, in order |
| PaiConfig.ValidationErrorsComplete | src/agentscope_runtime/engine/deployers/pai_deployer.py:949-975 | each of the five problems (no name, no source dir, source dir missing on disk, resource mode without resource_id, quota mode without quota_id) is reported iff it is present |
| PaiConfig.ValidConfigComplete | src/agentscope_runtime/engine/deployers/pai_deployer.py:942-981 | a configuration that validates names a service and an existing source and, in resource or quota mode, the matching id |
| PaiIgnore.ReadIgnoreFile | src/agentscope_runtime/engine/deployers/pai_deployer.py:984-1002 | no pattern for a missing file; otherwise the stripped non-empty, non-comment lines in order |
| PaiIgnore.IgnorePatternsMembers | src/agentscope_runtime/engine/deployers/pai_deployer.py:997-1001 | a text is a pattern iff some line strips to it and it is neither empty nor a comment |
| PaiIgnore.PathParts | src/agentscope_runtime/engine/deployers/pai_deployer.py:1016 | the path components are non-empty |
| PaiIgnore.GlobLiteral | src/agentscope_runtime/engine/deployers/pai_deployer.py:1024-1029 | a pattern without `*` or `?` glob-matches only itself |
| PaiIgnore.GlobStarSuffix | src/agentscope_runtime/engine/deployers/pai_deployer.py:1024-1029 | `*` followed by a literal suffix glob-matches exactly the texts ending with that suffix |
| PaiIgnore.ShouldIgnore | src/agentscope_runtime/engine/deployers/pai_deployer.py:1005-1036 | true iff some pattern hits: its stripped form is a component, or it has a wildcard and glob-matches the path or a component, or the path equals it or starts with it plus `/` |
| PaiIgnore.PlainNameHits | src/agentscope_runtime/engine/deployers/pai_deployer.py:1016-1034 | a plain name ignores exactly the paths having it as a component: "build" ignores "build/output.js" but not "src/build.py" |
| PaiIgnore.StarSuffixHits | src/agentscope_runtime/engine/deployers/pai_deployer.py:1024-1026 | "*" plus a literal suffix ignores every path ending with that suffix |
| PaiIgnore.ShouldIgnoreAppend | src/agentscope_runtime/engine/deployers/pai_deployer.py:1018-1036 | the filter is the disjunction of its patterns: adding patterns never un-ignores a path |
| PaiBuild.EnvVars | src/agentscope_runtime/engine/deployers/pai_deployer.py:1236-1247 | the environment becomes a name/value list, one entry per variable, in dictionary order |
| PaiBuild.BuildDeploymentConfig | src/agentscope_runtime/engine/deployers/pai_deployer.py:1223-1293 | `_build_deployment_config` computes exactly the configuration (or error) described by the reference definition |
| PaiBuild.BuildMetadata | src/agentscope_runtime/engine/deployers/pai_deployer.py:1223-1281 | the metadata part, with its three ValueErrors |
| PaiBuild.BuildNetworking | src/agentscope_runtime/engine/deployers/pai_deployer.py:1283-1291 | the networking part, key by key |
| PaiBuild.DeploymentConfigErrors | src/agentscope_runtime/engine/deployers/pai_deployer.py:1259-1281 | the build fails with ValueError iff the type is "resource" without resource_id, "quota" without quota_id, or any other type than public/resource/quota |
| PaiBuild.DeploymentConfigResources | src/agentscope_runtime/engine/deployers/pai_deployer.py:1253-1279 | priority 9 iff quota mode; the resource id only in resource mode and the quota id only in quota mode; cpu only in a pool mode when truthy; computing only in public mode with an instance type |
| PaiBuild.NetworkingKeys | src/agentscope_runtime/engine/deployers/pai_deployer.py:1283-1291 | each networking key is present iff its VPC field is non-empty, with that value |
| PaiBuild.DeploymentConfigEnv | src/agentscope_runtime/engine/deployers/pai_deployer.py:1236-1247 | the container environment is present iff the environment is non-empty, and lists every variable in order |
| PaiBuild.BuildCredentialConfig | src/agentscope_runtime/engine/deployers/pai_deployer.py:1310-1334 | "none" disables injection; "custom" without an ARN is a ValueError and with one lists exactly that ARN; any other mode injects one role item with no roles |
| PaiBuild.AutoTags | src/agentscope_runtime/engine/deployers/pai_deployer.py:1083-1099 | the automatic tags are exactly deployed-by, client-version and deploy-method |
| PaiBuild.DeployTags | src/agentscope_runtime/engine/deployers/pai_deployer.py:1537-1546 | a missing service name is a ValueError; otherwise the automatic tags updated with the user's |
| PaiBuild.DeployTagsLookup | src/agentscope_runtime/engine/deployers/pai_deployer.py:1540-1546 | a user tag overrides the automatic tag of the same key, and every automatic key is present |
| PaiBuild.ValidatedBuilds | src/agentscope_runtime/engine/deployers/pai_deployer.py:1223-1334 | a configuration passing `validate_for_deploy` yields kwargs from which both the deployment and the credential configuration build, with exactly the configured ARN as role |
| FcDeploy.LogConfigOf | src/agentscope_runtime/engine/deployers/fc_deployer.py:95-103 | a log configuration exists iff both FC_LOG_STORE and FC_LOG_PROJECT are non-empty, and carries exactly those two values |
| FcDeploy.VpcConfigOf | src/agentscope_runtime/engine/deployers/fc_deployer.py:105-120 | a VPC configuration is built only when VPC id, security group and vswitch ids are all set; it succeeds iff the vswitch text decodes to a JSON list, and fails with a decoding error or ValueError otherwise |
| FcDeploy.FcFromEnv | src/agentscope_runtime/engine/deployers/fc_deployer.py:92-180 | `FCConfig.from_env` fails exactly when the VPC part fails, and carries the log and VPC configurations above |
| FcDeploy.EnvIntDefault | src/agentscope_runtime/engine/deployers/fc_deployer.py:122-163 | a numeric variable that parses gives its value; an absent or unparsable one gives the fallback |
| FcDeploy.DefaultTexts | src/agentscope_runtime/engine/deployers/fc_deployer.py:124-134 | the default texts "2048", "512", "200" and "3600" are the decimal texts of the numeric fallbacks |
| FcDeploy.FromEnvNumericDefaults | src/agentscope_runtime/engine/deployers/fc_deployer.py:141-163 | without the numeric variables memory is 2048, disk 512, concurrency 200 and idle timeout 3600 |
| FcDeploy.FcEnsureValid | src/agentscope_runtime/engine/deployers/fc_deployer.py:182-198 | passes iff nothing is missing; otherwise one ValueError "Missing required FC env vars: " followed by the missing names joined by ", " |
| FcDeploy.FcMissingComplete | src/agentscope_runtime/engine/deployers/fc_deployer.py:188-194 | each of key id, secret and account id is named iff it is missing, in that order, none twice |
| FcDeploy.OssFromEnv | src/agentscope_runtime/engine/deployers/fc_deployer.py:207-225 | the OSS key variables fall back to the Alibaba Cloud ones only when absent; a missing bucket name fails model validation |
| FcDeploy.OssEnsureValid | src/agentscope_runtime/engine/deployers/fc_deployer.py:227-243 | passes iff key id, secret and bucket are all non-empty, else RuntimeError |
| FcDeploy.RuntimeEnvironment | src/agentscope_runtime/engine/deployers/fc_deployer.py:829-834 | the runtime variables are exactly PATH, PYTHONPATH, LD_LIBRARY_PATH and PYTHON_VERSION="3.12" |
| FcDeploy.MergeEnvironmentLookup | src/agentscope_runtime/engine/deployers/fc_deployer.py:823-836 | the merge always holds the four runtime variables, caller keys override them, and PYTHON_VERSION is "3.12" unless the caller sets it |
| FcDeploy.GenerateEnvFile | src/agentscope_runtime/engine/deployers/fc_deployer.py:374-414 | None for a missing or empty dictionary; FileNotFoundError for a missing project directory; None when writing fails; otherwise the text of the header line and of one line per non-None entry, in order, each ended by a newline |
| FcDeploy.EscapeValueChars | src/agentscope_runtime/engine/deployers/fc_deployer.py:400-404 | doubling backslashes first and then escaping quotes escapes each character on its own |
| FcDeploy.UnescapeEscape | src/agentscope_runtime/engine/deployers/fc_deployer.py:400-404 | the escaping is undone by reading back: no information is lost |
| FcDeploy.EnvLineRoundTrip | src/agentscope_runtime/engine/deployers/fc_deployer.py:394-407 | every written line (quoted `KEY="v"` when v holds a space or one of $ ` " ' \, else `KEY=v`) reads back as its key and value when the key has no "=" |
| FcDeploy.EnvLinesRoundTrip | src/agentscope_runtime/engine/deployers/fc_deployer.py:387-407 | the written lines read back as exactly the non-None entries, in dictionary order |
| FcDeploy.ReadFileText | src/agentscope_runtime/engine/deployers/fc_deployer.py:386-407 | a text of newline-ended lines that hold no newline splits back into those lines |
| FcDeploy.EnvFileRoundTrip | src/agentscope_runtime/engine/deployers/fc_deployer.py:386-407 | the written file reads back as the header and then exactly the non-None entries, in order, when no key holds "=" and no key or value holds a newline |
| FcDeploy.NewlineValueAddsEntry | src/agentscope_runtime/engine/deployers/fc_deployer.py:394-407 | a value holding a newline is written unquoted and as is: `A` set to "x\nB=y" reads back as two entries, `A=x` and `B=y` |
| FcDeploy.DeployInputCheck | src/agentscope_runtime/engine/deployers/fc_deployer.py:434-443 | a ValueError iff there is no function name and none of app, runner, project dir or external wheel |
| FcDeploy.StopTarget | src/agentscope_runtime/engine/deployers/fc_deployer.py:1462-1469 | `stop` deletes the deployment's resource_name, falling back to the deploy id |
| FcDeploy.Stop | src/agentscope_runtime/engine/deployers/fc_deployer.py:1476-1497 | success equals the deletion's success, and the state records "stopped" only after a successful deletion of a known deployment |
| AguiEvents.NoEnds | src/agentscope_runtime/engine/deployers/adapter/agui/agui_adapter_utils.py:379-413 | events without TEXT_MESSAGE_END end no message |
| AguiEvents.StartedFirstAt | src/agentscope_runtime/engine/deployers/adapter/agui/agui_adapter_utils.py:624-633 | every message or tool event has a RUN_STARTED before it |
| AguiEvents.EventStepInv | src/agentscope_runtime/engine/deployers/adapter/agui/agui_adapter_utils.py:360-377 | every event step keeps the adapter invariant: RUN_STARTED first and once, at most one end per message |
| AguiEvents.EventStepGrows | src/agentscope_runtime/engine/deployers/adapter/agui/agui_adapter_utils.py:360-377 | a step keeps the thread and run ids, never clears a flag and never leaves COMPLETED |
| AguiEvents.RunProperties | src/agentscope_runtime/engine/deployers/adapter/agui/agui_adapter_utils.py:360-633 | from a fresh adapter, RUN_STARTED with the adapter's ids is emitted at most once and before every message or tool event, no message id is ended twice, and the finished flag is set exactly when a terminal event was emitted |
| AguiEvents.ResponseTransitions | src/agentscope_runtime/engine/deployers/adapter/agui/agui_adapter_utils.py:415-455 | CREATED starts the run; FAILED and REJECTED emit one RUN_ERROR with defaulted message and code; COMPLETED and CANCELED emit RUN_FINISHED; only those four finish the run |
| AguiEvents.MessageTransitions | src/agentscope_runtime/engine/deployers/adapter/agui/agui_adapter_utils.py:379-413 | a COMPLETED message ends its started, not yet completed AG-UI message exactly once and completes it; other statuses change nothing |
| AguiEvents.TextTransitionsShape | src/agentscope_runtime/engine/deployers/adapter/agui/agui_adapter_utils.py:467-534 | an unseen id emits TEXT_MESSAGE_START right after RUN_STARTED, and every later event is about that message |
| AguiEvents.TextTransitionsEvents | src/agentscope_runtime/engine/deployers/adapter/agui/agui_adapter_utils.py:513-566 | a non-empty delta emits content; a full text ends an IN_PROGRESS message or sends a CREATED one whole; nothing else emits |
| AguiEvents.TextTransitionsStatus | src/agentscope_runtime/engine/deployers/adapter/agui/agui_adapter_utils.py:513-566 | a non-empty delta moves to IN_PROGRESS; a full text completes; COMPLETED absorbs; other messages are untouched |
| AguiEvents.DataTransitions | src/agentscope_runtime/engine/deployers/adapter/agui/agui_adapter_utils.py:567-614 | a completed function call on an unseen id emits START, ARGS, END with its call id; an output emits one RESULT; completed data that is neither raises; anything else only RUN_STARTED |
| AguiEvents.DeltaEvents | src/agentscope_runtime/engine/deployers/adapter/agui/agui_adapter_utils.py:513-533 | the delta contents of one message, in order |
| AguiEvents.DeltaStream | src/agentscope_runtime/engine/deployers/adapter/agui/agui_adapter_utils.py:513-533 | streamed deltas start the message, stay about it, and the client joins them back into the streamed text |
| AguiEvents.StreamedMessage | src/agentscope_runtime/engine/deployers/adapter/agui/agui_adapter_utils.py:513-566 | a streamed message closed by its full text: the client rebuilds the joined deltas (or the full text), the message ends COMPLETED with one end exactly when deltas carried text |
| AguiAdapter.ChooseId | src/agentscope_runtime/engine/deployers/adapter/agui/agui_adapter_utils.py:224-236 | the snake_case id when non-empty, else the camelCase one, else the prefix and a fresh uuid |
| AguiAdapter.Adapter.constructor | src/agentscope_runtime/engine/deployers/adapter/agui/agui_adapter_utils.py:224-243 | the chosen ids, no flags set, no message statuses |
| AguiAdapter.Adapter.RunFinishedEmitted | src/agentscope_runtime/engine/deployers/adapter/agui/agui_adapter_utils.py:244-245 | the run-finished flag |
| AguiAdapter.Adapter.EnsureRunStarted | src/agentscope_runtime/engine/deployers/adapter/agui/agui_adapter_utils.py:624-633 | RUN_STARTED once, then nothing |
| AguiAdapter.Adapter.ConvertAgentEvent | src/agentscope_runtime/engine/deployers/adapter/agui/agui_adapter_utils.py:360-377 | the state and events are those of the event step; it raises exactly when the event is a completed data content on an unseen id that is neither call nor output, with that error |
| AguiAdapter.Adapter.ConvertResponse | src/agentscope_runtime/engine/deployers/adapter/agui/agui_adapter_utils.py:415-455 | the state and events of the response step |
| AguiAdapter.Adapter.ConvertMessage | src/agentscope_runtime/engine/deployers/adapter/agui/agui_adapter_utils.py:379-413 | the state and events of the message step |
| AguiAdapter.Adapter.CompleteMessage | src/agentscope_runtime/engine/deployers/adapter/agui/agui_adapter_utils.py:385-412 | the completed branch of the message step |
| AguiAdapter.Adapter.EndMessages | src/agentscope_runtime/engine/deployers/adapter/agui/agui_adapter_utils.py:390-412 | every started, not completed AG-UI id of the message is ended and completed |
| AguiAdapter.Adapter.EnsureTextMessageStarted | src/agentscope_runtime/engine/deployers/adapter/agui/agui_adapter_utils.py:471-483 | an unseen id is started and marked CREATED; a seen one emits nothing |
| AguiAdapter.Adapter.EnsureToolCallStarted | src/agentscope_runtime/engine/deployers/adapter/agui/agui_adapter_utils.py:485-499 | the tool call is started and the id marked CREATED |
| AguiAdapter.Adapter.ConvertContent | src/agentscope_runtime/engine/deployers/adapter/agui/agui_adapter_utils.py:467-622 | the state and events of the content step; raises exactly in the invalid-data case |
| AguiAdapter.Adapter.ConvertBody | src/agentscope_runtime/engine/deployers/adapter/agui/agui_adapter_utils.py:501-622 | the id is recorded, then the content kind decides; only invalid completed data raises |
| AguiAdapter.Adapter.ConvertTextContent | src/agentscope_runtime/engine/deployers/adapter/agui/agui_adapter_utils.py:513-566 | the text branch of the content step |
| AguiAdapter.Adapter.ConvertDataContent | src/agentscope_runtime/engine/deployers/adapter/agui/agui_adapter_utils.py:567-614 | only a completed content on an unseen id emits; data that is neither a function call nor its output raises its validation error |
| AguiAdapter.Adapter.ConvertText | src/agentscope_runtime/engine/deployers/adapter/agui/agui_adapter_utils.py:513-566 | the text branch once the message has started |
| AguiAdapter.Adapter.BuildRunEvent | src/agentscope_runtime/engine/deployers/adapter/agui/agui_adapter_utils.py:635-657 | RUN_STARTED and RUN_FINISHED carry the thread and run ids, RUN_ERROR the run id; any other kind is ValueError |
| AguiAdapter.Adapter.ResponseEventsBuilt | src/agentscope_runtime/engine/deployers/adapter/agui/agui_adapter_utils.py:415-455 | the response step's events are those `build_run_event` builds |
| AguiConvert.MessageId | src/agentscope_runtime/engine/deployers/adapter/agui/agui_adapter_utils.py:79 | the message's own id when set, else `msg_` and a fresh uuid |
| AguiConvert.PartContent | src/agentscope_runtime/engine/deployers/adapter/agui/agui_adapter_utils.py:103-122 | text items give text, image items with a URL give images, other items are skipped |
| AguiConvert.UserContents | src/agentscope_runtime/engine/deployers/adapter/agui/agui_adapter_utils.py:93-137 | a string gives one text, a list its items, anything else is ValueError; an empty result becomes one empty text |
| AguiConvert.CallContent | src/agentscope_runtime/engine/deployers/adapter/agui/agui_adapter_utils.py:146-163 | a tool call becomes a function-call data content with its id or a generated one |
| AguiConvert.ToolOutput | src/agentscope_runtime/engine/deployers/adapter/agui/agui_adapter_utils.py:178-184 | the content, else the error, else empty |
| AguiConvert.ConvertOne | src/agentscope_runtime/engine/deployers/adapter/agui/agui_adapter_utils.py:78-209 | each message class converts to its role; activity messages are dropped; unknown classes raise |
| AguiConvert.ConvertOneKinds | src/agentscope_runtime/engine/deployers/adapter/agui/agui_adapter_utils.py:82-204 | the role and type each message class converts to |
| AguiConvert.ConvertAllOrder | src/agentscope_runtime/engine/deployers/adapter/agui/agui_adapter_utils.py:64-210 | the conversion succeeds exactly when every message converts, and keeps their order, leaving the dropped ones out |
| AguiConvert.ConvertMessages | src/agentscope_runtime/engine/deployers/adapter/agui/agui_adapter_utils.py:64-210 | the loop's result is that of the per-message conversions |
| AguiConvert.ConvertAllErr | src/agentscope_runtime/engine/deployers/adapter/agui/agui_adapter_utils.py:64-210 | once a prefix raises, the whole conversion raises the same error |
| AguiConvert.UserIdOf | src/agentscope_runtime/engine/deployers/adapter/agui/agui_adapter_utils.py:260-267 | the first of `user_id`, `userId` present, else `default_user_id`; non-dict props raise TypeError |
| AguiConvert.ConvertTool | src/agentscope_runtime/engine/deployers/adapter/agui/agui_adapter_utils.py:297-358 | absent parameters become an empty object schema |
| AguiConvert.ConvertToolRequired | src/agentscope_runtime/engine/deployers/adapter/agui/agui_adapter_utils.py:329-350 | an object schema keeps `required` only when it is a list of strings |
| AguiConvert.ConvertRequest | src/agentscope_runtime/engine/deployers/adapter/agui/agui_adapter_utils.py:247-295 | the request carries the converted messages and tools and the adapter's ids |
| AguiStream.SseData | src/agentscope_runtime/engine/deployers/adapter/agui/agui_protocol_adapter.py:147-153 | one `data:` line holding the event JSON, then a blank line |
| AguiStream.SsePayloadOfData | src/agentscope_runtime/engine/deployers/adapter/agui/agui_protocol_adapter.py:147-153 | a client slicing the frame gets back exactly the framed JSON |
| AguiStream.SseDataInjective | src/agentscope_runtime/engine/deployers/adapter/agui/agui_protocol_adapter.py:147-153 | different events never give the same frame |
| AguiStream.StreamCloses | src/agentscope_runtime/engine/deployers/adapter/agui/agui_protocol_adapter.py:155-194 | when no conversion raises, a completed stream appends exactly one RUN_FINISHED when no terminal event was emitted, and nothing otherwise |
| AguiStream.StreamFails | src/agentscope_runtime/engine/deployers/adapter/agui/agui_protocol_adapter.py:155-194 | when no conversion raises, a failing agent's stream ends with one RUN_ERROR carrying the error text |
| AguiStream.StreamConversionFails | src/agentscope_runtime/engine/deployers/adapter/agui/agui_protocol_adapter.py:164-194 | when converting the i-th event raises first, the stream is the events of the earlier ones and one RUN_ERROR with that validation error |
| AguiStream.RaiseFromFirst | src/agentscope_runtime/engine/deployers/adapter/agui/agui_protocol_adapter.py:168-169 | the first raising event is the one that raises with none raising before it |
| AguiStream.RaiseFrom | src/agentscope_runtime/engine/deployers/adapter/agui/agui_protocol_adapter.py:168-169 | the position found raises and none before it does; None means none raises |
| AguiStream.StreamStartedOnce | src/agentscope_runtime/engine/deployers/adapter/agui/agui_protocol_adapter.py:155-194 | RUN_STARTED occurs at most once, always with the adapter's ids |
| AguiStream.GenerateStream | src/agentscope_runtime/engine/deployers/adapter/agui/agui_protocol_adapter.py:155-194 | the frames are those of the reference stream: the adapter's events, closed, failed or cut at a raising conversion as above |
| AguiStream.ConvertAll | src/agentscope_runtime/engine/deployers/adapter/agui/agui_protocol_adapter.py:168-171 | the loop frames the run's events until a conversion raises, and then exactly those of the earlier events |
| AguiStream.ConvertStep | src/agentscope_runtime/engine/deployers/adapter/agui/agui_protocol_adapter.py:169-171 | one event converted and framed, or its validation error with the frames unchanged |
| AguiStream.CloseStream | src/agentscope_runtime/engine/deployers/adapter/agui/agui_protocol_adapter.py:173-180 | the agent's failure frame, else one RUN_FINISHED frame with the adapter's ids unless a terminal event was already emitted |
| AguiStream.AppendFrames | src/agentscope_runtime/engine/deployers/adapter/agui/agui_protocol_adapter.py:170-180 | each converted event is framed and appended in order |
| AguiStream.ParseRunInputIds | src/agentscope_runtime/engine/deployers/adapter/agui/agui_protocol_adapter.py:33-78 | both ids are required, each under either spelling |
| AguiStream.ParseRunInputDefaults | src/agentscope_runtime/engine/deployers/adapter/agui/agui_protocol_adapter.py:33-78 | a body holding only the two ids is accepted with every other field defaulted |
| AgentApiClient.ParseSseLine | src/agentscope_runtime/engine/helpers/agent_api_client.py:91-111 | `data: ` keeps the rest as is; `event:`/`retry:` keep the stripped text from index 7; `id: ` from index 4; other lines give (None, None) |
| AgentApiClient.ParseSseLineIntended | src/agentscope_runtime/engine/helpers/agent_api_client.py:105-110 | `event:` and `retry:` keep the whole stripped value after the colon |
| AgentApiClient.ParseSseLineSpaced | src/agentscope_runtime/engine/helpers/agent_api_client.py:105-110 | with a space after the colon the parser as written and the intended one agree |
| AgentApiClient.ParseSseLineDropsFirstChar | src/agentscope_runtime/engine/helpers/agent_api_client.py:105-106 | `event:x` loses its value as written and keeps it in the intended parser |
| AgentApiClient.ParseSseLineDropsRetryDigit | src/agentscope_runtime/engine/helpers/agent_api_client.py:109-110 | `retry:5` loses its digit as written and keeps it in the intended parser |
| AgentApiClient.ParseSseLineBareData | src/agentscope_runtime/engine/helpers/agent_api_client.py:103-104 | a bare `data:` line gives no field |
| AgentApiClient.ParseSseLineEmptyPayload | src/agentscope_runtime/engine/helpers/agent_api_client.py:91-104 | a `data: ` line with an empty payload gives no field |
| AgentApiClient.ContentClassOf | src/agentscope_runtime/engine/helpers/agent_api_client.py:132-140 | the content class of a known type, the base class otherwise, none for an unhashable type |
| AgentApiClient.ParseEvent | src/agentscope_runtime/engine/helpers/agent_api_client.py:114-152 | response, message and content objects parse to their class, other objects with `object` to a generic event; every failure gives None |
| AgentApiClient.LineEvent | src/agentscope_runtime/engine/helpers/agent_api_client.py:237-250 | an event only for a non-empty data field that decodes and parses |
| AgentApiClient.StreamedEventsMembers | src/agentscope_runtime/engine/helpers/agent_api_client.py:208-253 | every yielded event comes from a line, and every line that parses is yielded |
| AgentApiClient.Stream | src/agentscope_runtime/engine/helpers/agent_api_client.py:208-314 | the stream yields exactly the line events, in order |
| AgentApiClient.ReadLine | src/agentscope_runtime/engine/helpers/agent_api_client.py:237-250 | one line's checks before yielding |
| AgentApiClient.Texts | src/agentscope_runtime/engine/helpers/agent_api_client.py:332-334 | the non-empty texts of the text items, in order |
| AgentApiClient.ConcatNonEmpty | src/agentscope_runtime/engine/helpers/agent_api_client.py:335 | a join of non-empty texts is empty only when there are none |
| AgentApiClient.ExtractedTextOfMessage | src/agentscope_runtime/engine/helpers/agent_api_client.py:328-335 | a message's extracted text is never empty: the joined texts, or None |
| AgentApiClient.ExtractText | src/agentscope_runtime/engine/helpers/agent_api_client.py:316-336 | a text content gives its text; a completed message its joined non-empty texts; anything else None |
| AgentApiClient.BaseParamsGet | src/agentscope_runtime/engine/helpers/agent_api_client.py:339-372 | without kwargs the request holds the message, the streaming flag and the session id when given, and nothing else |
| AgentApiClient.SimpleRequestFields | src/agentscope_runtime/engine/helpers/agent_api_client.py:339-372 | a keyword argument wins; otherwise one streamed user message holding the query, with the session id only when given |
| AgentApiClient.PrepareHeadersGet | src/agentscope_runtime/engine/helpers/agent_api_client.py:191-206 | the token's Authorization wins, custom headers win over the defaults |
| AgentApiClient.PrepareHeadersKeys | src/agentscope_runtime/engine/helpers/agent_api_client.py:191-206 | the three default headers are always present |
| RuntimeMessage.TryLoads | src/agentscope_runtime/adapters/agentscope/message.py:51-59 | dicts and lists pass through, a non-blank string is parsed, falling back to the string or the default |
| RuntimeMessage.TryLoadsText | src/agentscope_runtime/adapters/agentscope/message.py:51-59 | a non-blank string is parsed; unparseable text is kept exactly when asked to; a dumped value comes back |
| RuntimeMessage.TryLoadsDumped | src/agentscope_runtime/adapters/agentscope/message.py:51-59 | loading a dumped value gives the value back |
| RuntimeMessage.LastProbeFound | src/agentscope_runtime/adapters/agentscope/message.py:90-97 | the value found is that of the last content holding one |
| RuntimeMessage.LastProbeNone | src/agentscope_runtime/adapters/agentscope/message.py:90-98 | nothing is found exactly when every content is skipped |
| RuntimeMessage.LastProbeBroken | src/agentscope_runtime/adapters/agentscope/message.py:90-97 | the search fails only at a content whose data is unusable |
| RuntimeMessage.FindPayload | src/agentscope_runtime/adapters/agentscope/message.py:88-98 | the backward loop's result is the probe search over the contents |
| RuntimeMessage.CallIdAndName | src/agentscope_runtime/adapters/agentscope/message.py:99-107 | the first content's call id and name, with the errors they raise |
| RuntimeMessage.FirstText | src/agentscope_runtime/adapters/agentscope/message.py:172-178 | the first content's text of a reasoning message |
| RuntimeMessage.ToolArgs | src/agentscope_runtime/adapters/agentscope/message.py:98-101 | the loaded arguments, `{}` when none were found or they load as None |
| RuntimeMessage.MsgName | src/agentscope_runtime/adapters/agentscope/message.py:63-79 | `original_name` from metadata, else the name, else the role |
| RuntimeMessage.MsgMetadata | src/agentscope_runtime/adapters/agentscope/message.py:80-81 | metadata taken only from the metadata's own `metadata` entry |
| RuntimeMessage.CollectOk | src/agentscope_runtime/adapters/agentscope/message.py:303-304 | the list is built exactly when no element raises, holding every value in order |
| RuntimeMessage.CollectErr | src/agentscope_runtime/adapters/agentscope/message.py:303-304 | a failing list fails with its first failing element's error |
| RuntimeMessage.CollectEach | src/agentscope_runtime/adapters/agentscope/message.py:303-304 | the loop's result is the collected list or the first error |
| RuntimeMessage.CollectPresent | src/agentscope_runtime/adapters/agentscope/message.py:187-296 | the same loop keeping only present values |
| RuntimeMessage.ConvertedId | src/agentscope_runtime/adapters/agentscope/message.py:75-77 | `original_id` from dict metadata, else the message id |
| RuntimeMessage.GroupKeyIsConvertedId | src/agentscope_runtime/adapters/agentscope/message.py:307-318 | the grouping key is the converted id whichever branch computes it |
| RuntimeMessage.GroupedKeys | src/agentscope_runtime/adapters/agentscope/message.py:306-330 | groups come in order of first appearance, each key once |
| RuntimeMessage.GroupKeysDistinct | src/agentscope_runtime/adapters/agentscope/message.py:306-330 | no key is grouped twice |
| RuntimeMessage.GroupedContents | src/agentscope_runtime/adapters/agentscope/message.py:306-330 | each group holds its first entry's fields and the contents of all its entries, in input order |
| RuntimeMessage.GroupEntries | src/agentscope_runtime/adapters/agentscope/message.py:306-330 | the loop builds exactly the grouping above |
| AgentScopeMessage.MatchesTypedDictStructure | src/agentscope_runtime/adapters/agentscope/message.py:31-35 | a dict whose keys are exactly the typed dict's keys |
| AgentScopeMessage.RoleLabel | src/agentscope_runtime/adapters/agentscope/message.py:63-74 | `tool` becomes `system`, a missing or empty role `assistant` |
| AgentScopeMessage.DataUrlParts | src/agentscope_runtime/adapters/agentscope/message.py:199-212 | the media type before `;` without `data:` and the payload after `,`; no comma raises |
| AgentScopeMessage.DataUrlRoundTrip | src/agentscope_runtime/adapters/agentscope/message.py:199-212 | a base64 data URL splits back into the media type and payload it was built from |
| AgentScopeMessage.UrlScheme | src/agentscope_runtime/adapters/agentscope/message.py:241-242 | the scheme `urlparse` finds |
| AgentScopeMessage.NetlocPrefix | src/agentscope_runtime/adapters/agentscope/message.py:241-242 | the longest prefix without `/`, `?`, `#` |
| AgentScopeMessage.UrlWithHost | src/agentscope_runtime/adapters/agentscope/message.py:241-246 | a URL with a scheme and a host has both parts |
| AgentScopeMessage.NoColonNoUrl | src/agentscope_runtime/adapters/agentscope/message.py:241-256 | a text without a colon names no scheme |
| AgentScopeMessage.DataSource | src/agentscope_runtime/adapters/agentscope/message.py:199-212 | the base64 source of a `data:` value |
| AgentScopeMessage.ImageBlockOf | src/agentscope_runtime/adapters/agentscope/message.py:198-218 | `data:` is split, another non-empty string is a URL, an empty one is dropped |
| AgentScopeMessage.AudioBlockOf | src/agentscope_runtime/adapters/agentscope/message.py:219-256 | `data:` is split, a URL with scheme and host is a URL, anything else is base64 of `audio/<format>` |
| AgentScopeMessage.VideoBlockOf | src/agentscope_runtime/adapters/agentscope/message.py:257-280 | `data:` is split, any other value is a URL |
| AgentScopeMessage.ContentBlock | src/agentscope_runtime/adapters/agentscope/message.py:187-295 | one content of a plain message becomes its block; a text or data content whose value is not a string becomes an untyped text block holding its dump; unsupported types raise |
| AgentScopeMessage.ConvertContents | src/agentscope_runtime/adapters/agentscope/message.py:187-295 | the loop's result is the collected blocks or the first error |
| AgentScopeMessage.ToolOutputRaw | src/agentscope_runtime/adapters/agentscope/message.py:114-170 | an output that does not load as a list or dict is kept as its text; none found gives "" |
| AgentScopeMessage.ToolOutputFallback | src/agentscope_runtime/adapters/agentscope/message.py:135-170 | when the MCP conversion raises the raw output is kept |
| AgentScopeMessage.ConvertedOne | src/agentscope_runtime/adapters/agentscope/message.py:61-297 | `_convert_one` by message type |
| AgentScopeMessage.ConvertedCall | src/agentscope_runtime/adapters/agentscope/message.py:83-107 | a call becomes one tool-use block with the last usable arguments |
| AgentScopeMessage.ConvertedCallOutput | src/agentscope_runtime/adapters/agentscope/message.py:108-171 | a call output becomes one tool-result block over the last usable output |
| AgentScopeMessage.ConvertedReasoning | src/agentscope_runtime/adapters/agentscope/message.py:172-178 | a reasoning message becomes one thinking block with its first text |
| AgentScopeMessage.PlainContentErrors | src/agentscope_runtime/adapters/agentscope/message.py:179-296 | a plain message fails exactly when one of its contents does, with the first error |
| AgentScopeMessage.UnsupportedContent | src/agentscope_runtime/adapters/agentscope/message.py:192-193 | an unsupported content type fails the message with ValueError |
| AgentScopeMessage.ConvertOne | src/agentscope_runtime/adapters/agentscope/message.py:61-297 | the loops compute `ConvertedOne` |
| AgentScopeMessage.GroupedMsgsSpec | src/agentscope_runtime/adapters/agentscope/message.py:300-330 | one message per original id in first-appearance order, with the first message's fields and all contents in input order |
| AgentScopeMessage.MessageToAgentScopeMsg | src/agentscope_runtime/adapters/agentscope/message.py:38-334 | one message converts alone, a list is converted and grouped |
| AgentScopeMessage.ConvertList | src/agentscope_runtime/adapters/agentscope/message.py:302-330 | the list conversion and grouping |
| MsAgentMessage.ChatRole | src/agentscope_runtime/adapters/ms_agent_framework/message.py:52-59 | the role or `assistant`, and `tool` for every call output |
| MsAgentMessage.ToolResult | src/agentscope_runtime/adapters/ms_agent_framework/message.py:98-117 | the loaded output, the raw text when it does not load, "" when none or None |
| MsAgentMessage.ToolResultDumped | src/agentscope_runtime/adapters/ms_agent_framework/message.py:98-117 | a dumped result comes back as its value unless it is null |
| MsAgentMessage.ChatContentOf | src/agentscope_runtime/adapters/ms_agent_framework/message.py:136-166 | media contents become URI contents, text is kept or dumped; unsupported types raise |
| MsAgentMessage.TextContentOf | src/agentscope_runtime/adapters/ms_agent_framework/message.py:153-160 | a string text is kept, anything else dumped to JSON text |
| MsAgentMessage.ConvertContents | src/agentscope_runtime/adapters/ms_agent_framework/message.py:136-166 | the loop's result is the collected contents or the first error |
| MsAgentMessage.ConvertedOne | src/agentscope_runtime/adapters/ms_agent_framework/message.py:52-168 | `_convert_one` by message type |
| MsAgentMessage.ConvertedCall | src/agentscope_runtime/adapters/ms_agent_framework/message.py:69-92 | a call becomes one function-call content with the last usable arguments |
| MsAgentMessage.ConvertedCallOutput | src/agentscope_runtime/adapters/ms_agent_framework/message.py:93-117 | a call output becomes a `tool` message with one function-result content |
| MsAgentMessage.ConvertedReasoning | src/agentscope_runtime/adapters/ms_agent_framework/message.py:118-123 | a reasoning message becomes one reasoning content with its first text |
| MsAgentMessage.PlainContentErrors | src/agentscope_runtime/adapters/ms_agent_framework/message.py:124-166 | a plain message fails exactly when one content does; otherwise one content per content |
| MsAgentMessage.UnsupportedContent | src/agentscope_runtime/adapters/ms_agent_framework/message.py:139-140 | an unsupported type, video among them, fails with ValueError |
| MsAgentMessage.ConvertOne | src/agentscope_runtime/adapters/ms_agent_framework/message.py:52-168 | the loops compute `ConvertedOne` |
| MsAgentMessage.GroupedChatsSpec | src/agentscope_runtime/adapters/ms_agent_framework/message.py:171-201 | one message per original id in first-appearance order, with the first message's fields and all contents in input order |
| MsAgentMessage.MessageToMsAgentMessage | src/agentscope_runtime/adapters/ms_agent_framework/message.py:23-205 | one message converts alone, a list is converted and grouped, anything else is TypeError |
| MsAgentMessage.ConvertList | src/agentscope_runtime/adapters/ms_agent_framework/message.py:173-201 | the list conversion and grouping |
| ServerConfig.StripOrDrop | src/agentscope_runtime/sandbox/manager/server/config.py:130-135 | the stripped item when non-empty, dropped otherwise |
| ServerConfig.CleanItemsClean | src/agentscope_runtime/sandbox/manager/server/config.py:130-135 | every kept item is a stripped piece, without commas when the piece had none |
| ServerConfig.CleanItemsOfClean | src/agentscope_runtime/sandbox/manager/server/config.py:130-135 | pieces that are already clean are all kept, in order |
| ServerConfig.SplitItems | src/agentscope_runtime/sandbox/manager/server/config.py:130-135 | the comma-separated, stripped, non-empty items |
| ServerConfig.ParseStripped | src/agentscope_runtime/sandbox/manager/server/config.py:124-135 | a bracketed text goes to JSON, falling back to its inner items; any other text is split on commas |
| ServerConfig.ParseDefaultType | src/agentscope_runtime/sandbox/manager/server/config.py:121-136 | a string is stripped and parsed as above; any other value passes through |
| ServerConfig.ParseJoinedRoundTrip | src/agentscope_runtime/sandbox/manager/server/config.py:121-136 | a comma-joined list of clean items not starting with `[` parses back to those items |
| ServerConfig.SplitItemsJoin | src/agentscope_runtime/sandbox/manager/server/config.py:135 | splitting a comma-joined list of clean items gives the items back |
| ServerConfig.ParseOfStripped | src/agentscope_runtime/sandbox/manager/server/config.py:124-125 | a string that is already stripped is parsed as it stands |
| ServerConfig.ParseBracketedFallback | src/agentscope_runtime/sandbox/manager/server/config.py:126-134 | a bracketed comma-joined list that is not JSON parses to the items inside |
| ServerConfig.DataBefore | src/agentscope_runtime/sandbox/manager/server/config.py:11-119 | the validator sees exactly the fields declared before it that have a value |
| ServerConfig.DataBeforeGet | src/agentscope_runtime/sandbox/manager/server/config.py:11-119 | every field validated earlier shows its value to a later validator |
| ServerConfig.ValidateWorkers | src/agentscope_runtime/sandbox/manager/server/config.py:114-119 | 1 unless `REDIS_ENABLED`, as seen so far, is truthy; else the value |
| ServerConfig.RedisAfterWorkers | src/agentscope_runtime/sandbox/manager/server/config.py:17-46 | `REDIS_ENABLED` is declared after `WORKERS` |
| ServerConfig.WorkersAlwaysOne | src/agentscope_runtime/sandbox/manager/server/config.py:114-119 | as declared, `WORKERS` is always 1, whatever the settings |
| ServerConfig.WorkersKeptWithRedis | src/agentscope_runtime/sandbox/manager/server/config.py:114-119 | with `REDIS_ENABLED` validated first and truthy, `WORKERS` keeps its value |
| ServerConfig.WorkersOneWithoutRedis | src/agentscope_runtime/sandbox/manager/server/config.py:114-119 | with `REDIS_ENABLED` validated first and falsy, `WORKERS` is 1 |
| ServerConfig.InstanceLimit | src/agentscope_runtime/sandbox/manager/server/config.py:107 | `MAX_SANDBOX_INSTANCES` 0 means no limit |
| ServerConfig.ParseBool | src/agentscope_runtime/sandbox/manager/server/config.py:46 | the boolean spellings a setting accepts |
| ServerConfig.IntField | src/agentscope_runtime/sandbox/manager/server/config.py:17-107 | the default when unset, else the parsed text or a validation error |
| ServerConfig.BoolField | src/agentscope_runtime/sandbox/manager/server/config.py:46 | the default when unset, else the parsed text or a validation error |
| ServerConfig.WorkersValue | src/agentscope_runtime/sandbox/manager/server/config.py:17 | what the validator returns is read as an `int`: an integer as is, a text when it reads as an integer, else a validation error |
| ServerConfig.WorkersField | src/agentscope_runtime/sandbox/manager/server/config.py:17-119 | WORKERS for a field order: unset, or `REDIS_ENABLED` not validated before it, or falsy, gives 1; validated before it and true keeps the configured number |
| ServerConfig.SandboxTypeField | src/agentscope_runtime/sandbox/manager/server/config.py:22-136 | an environment value goes through `parse_default_type`; the default stays "base" |
| ServerConfig.SettingsIn | src/agentscope_runtime/sandbox/manager/server/config.py:11-136 | the settings for a field order: each modelled field as read from the environment, and an error exactly when one of them fails validation |
| ServerConfig.FromEnv | src/agentscope_runtime/sandbox/manager/server/config.py:11-136 | as declared: the modelled settings read from the environment with WORKERS always 1; an error exactly when one of the other listed fields fails validation |
| ServerConfig.FromEnvIntended | src/agentscope_runtime/sandbox/manager/server/config.py:11-136 | with `REDIS_ENABLED` validated first: WORKERS keeps its configured number when Redis is enabled, else 1 |
| ServerConfig.EmptyEnvDefaults | src/agentscope_runtime/sandbox/manager/server/config.py:103-107 | an empty environment gives the defaults: heartbeat check off, no instance limit |
| ServerConfig.LoadDotenvGet | src/agentscope_runtime/sandbox/manager/server/config.py:149-154 | `load_dotenv` sets a file's variables, overriding existing ones only when asked |
| ServerConfig.SettingsCache.GetSettings | src/agentscope_runtime/sandbox/manager/server/config.py:142-156 | the first successful call loads the first existing file and builds the settings as declared (WORKERS 1); later calls return them unchanged |
| Deprecation.ReasonSentence | src/agentscope_runtime/common/utils/deprecation.py:37-38 | the reason with trailing dots replaced by exactly one |
| Deprecation.FormatDeprecationMessage | src/agentscope_runtime/common/utils/deprecation.py:26-39 | the parts joined by single spaces, each optional part only when its field is set |
| Deprecation.MessageHead | src/agentscope_runtime/common/utils/deprecation.py:27 | every message starts by naming what is deprecated |
| Deprecation.BareMessage | src/agentscope_runtime/common/utils/deprecation.py:26-39 | with nothing but the subject, the message is the bare notice |
| Deprecation.IssueZeroIncluded | src/agentscope_runtime/common/utils/deprecation.py:34-35 | an issue is included whenever given, even 0, while an empty since is left out |
| Deprecation.FullMessage | src/agentscope_runtime/common/utils/deprecation.py:26-39 | a full notice holds every part in order, separated by single spaces |
| Deprecation.InfoFor | src/agentscope_runtime/common/utils/deprecation.py:80-90 | a given info is used unchanged, else one built from the keywords |
| Deprecation.SubjectOf | src/agentscope_runtime/common/utils/deprecation.py:93-97 | `__qualname__`, else `__name__`, else `repr` |
| Deprecation.ModuleSubject | src/agentscope_runtime/common/utils/deprecation.py:132-160 | the subject `deprecated_module` warns about |
| Deprecation.WarningLog.CallDeprecated | src/agentscope_runtime/common/utils/deprecation.py:92-129 | one warning with the notice, then the original callable's own result |
| Deprecation.WarningLog.WarnModule | src/agentscope_runtime/common/utils/deprecation.py:132-160 | one warning naming the module |
| SandboxHttp.WithoutParams | src/agentscope_runtime/sandbox/client/base.py:56-59 | the path without the `;` parameters of its last segment |
| SandboxHttp.NonEmpty | src/agentscope_runtime/sandbox/client/base.py:56-59 | the non-empty strings, in order |
| SandboxHttp.MergedSegments | src/agentscope_runtime/sandbox/client/base.py:56-59 | the base path without its last segment, then the reference |
| SandboxHttp.ResolveDots | src/agentscope_runtime/sandbox/client/base.py:56-59 | `..` drops the segment before it, `.` is dropped |
| SandboxHttp.UrlJoin | src/agentscope_runtime/sandbox/client/base.py:56-59 | scheme and host kept and the reference replacing the last path segment; bases it does not resolve within give the reference itself |
| SandboxHttp.HostOnly | src/agentscope_runtime/sandbox/client/base.py:56-59 | a host with no path gives the host's `/fastapi` |
| SandboxHttp.HostWithSlash | src/agentscope_runtime/sandbox/client/base.py:56-59 | a trailing slash gives the same |
| SandboxHttp.LastSegmentReplaced | src/agentscope_runtime/sandbox/client/base.py:56-59 | the last path segment is replaced by `fastapi` |
| SandboxHttp.DirectoryKept | src/agentscope_runtime/sandbox/client/base.py:56-59 | a path ending in `/` keeps its segments and gains `fastapi` |
| SandboxHttp.SchemelessHostPort | src/agentscope_runtime/sandbox/client/base.py:56-59 | `host:port` without `//` takes the host as a scheme, giving the bare reference |
| SandboxHttp.LocalhostReplaced | src/agentscope_runtime/sandbox/client/base.py:57 | a `localhost` URL points at the domain instead |
| SandboxHttp.TimeoutFor | src/agentscope_runtime/sandbox/client/base.py:61 | the model's timeout when set and non-zero, else the default |
| SandboxHttp.SessionHeaders | src/agentscope_runtime/sandbox/client/base.py:64-70 | both session headers are `s` + container id; `Authorization` exactly when there is a non-empty token |
| SandboxHttp.GenericTools | src/agentscope_runtime/sandbox/client/base.py:12-53 | each entry is keyed by its tool's name |
| SandboxHttp.GenericToolsNamedByKey | src/agentscope_runtime/sandbox/client/base.py:12-53 | the generic tools are exactly the IPython cell and the shell command |
| SandboxHttp.SandboxHttpBase.constructor | src/agentscope_runtime/sandbox/client/base.py:55-70 | the base URL, timeouts, secret and headers the model gives |
| SandboxHttp.SandboxHttpBase.Create | src/agentscope_runtime/sandbox/client/base.py:55-70 | a `ValueError` exactly when the URL does not parse, else the client |
| SandboxHttp.SandboxHttpBase.GenericToolsOf | src/agentscope_runtime/sandbox/client/base.py:72-74 | the generic tools |
| MemoryDemo.PrefixSlice | examples/modelstudio_memory/memory_demo.py:74 | `text[:stop]` with Python's negative and clamped stops |
| MemoryDemo.Truncate | examples/modelstudio_memory/memory_demo.py:69-74 | None shows as empty, a short text as itself, a long one cut and ended by `...` |
| MemoryDemo.TruncateBound | examples/modelstudio_memory/memory_demo.py:69-74 | with length at least 3 the result never exceeds it, and a cut text fills it exactly |
| MemoryDemo.TruncateShortLength | examples/modelstudio_memory/memory_demo.py:72-74 | below 3 the stop is negative and the result is longer than `length` |
| MemoryDemo.FloorDiv | examples/modelstudio_memory/memory_demo.py:300-303 | Python's floor division |
| MemoryDemo.TotalPages | examples/modelstudio_memory/memory_demo.py:300-303 | the ceiling of total over page size, or 1 without a page size |
| MemoryDemo.TotalPagesCeiling | examples/modelstudio_memory/memory_demo.py:300-303 | at least one page for a non-empty list and no page too many |
| MemoryDemo.ErrorLines | examples/modelstudio_memory/memory_demo.py:98-115 | the message part of the error, then each set field |
| MemoryDemo.FormatApiErrorText | examples/modelstudio_memory/memory_demo.py:98-115 | the lines joined by the indented separator |
| MemoryDemo.FormatHeadline | examples/modelstudio_memory/memory_demo.py:103-104 | a message without `|` is shown alone; the fields are not repeated |
| MemoryDemo.FormatCutsMessage | examples/modelstudio_memory/memory_demo.py:103 | a message holding ` | ` is cut at it |
| MemoryDemo.FormatPlainError | examples/modelstudio_memory/memory_demo.py:98-115 | a plain error with no field set shows as its message |
| MemoryDemo.NodeIds | examples/modelstudio_memory/memory_demo.py:246-248 | the ids that are set and non-empty, in order |
| MemoryDemo.NodeIdsAppend | examples/modelstudio_memory/memory_demo.py:246-248 | the ids of two lists are those of the first then the second |
| MemoryDemo.NodeIdsMembership | examples/modelstudio_memory/memory_demo.py:246-248 | an id is listed exactly when some node carries it |
| MemoryDemo.IdsOrEmpty | examples/modelstudio_memory/memory_demo.py:324-326 | each node's id or "" |
| MemoryDemo.NonEmptyIdsOfNodes | examples/modelstudio_memory/memory_demo.py:324-333 | replacing missing ids by "" and dropping empties keeps the same ids |
| MemoryDemo.ListedIds | examples/modelstudio_memory/memory_demo.py:324-333 | the returned ids are those of the nodes that carry one |
| MemoryErrors.BaseClass | src/agentscope_runtime/tools/modelstudio_memory/exceptions.py:8-60 | every error class but the root derives directly from `MemoryAPIError` |
| MemoryErrors.NewError | src/agentscope_runtime/tools/modelstudio_memory/exceptions.py:19-29 | the error holds the class, message and the three fields as given |
| MemoryErrors.ErrorParts | src/agentscope_runtime/tools/modelstudio_memory/exceptions.py:31-44 | the message, then each truthy field with its label |
| MemoryErrors.ErrorToString | src/agentscope_runtime/tools/modelstudio_memory/exceptions.py:31-44 | the parts joined by ` | ` |
| MemoryErrors.ErrorTextHead | src/agentscope_runtime/tools/modelstudio_memory/exceptions.py:31-44 | the text starts with the message |
| MemoryErrors.PlainErrorText | src/agentscope_runtime/tools/modelstudio_memory/exceptions.py:31-44 | without a truthy field the text is the bare message |
| MemoryErrors.FullErrorText | src/agentscope_runtime/tools/modelstudio_memory/exceptions.py:31-44 | with all three fields, each follows in order behind ` | ` |
| MemoryErrors.MessageBeforeSeparator | src/agentscope_runtime/tools/modelstudio_memory/exceptions.py:31-44 | a message without `|` is what precedes the first ` | ` of the text |
| MemoryConfig.FromEnv | src/agentscope_runtime/tools/modelstudio_memory/config.py:31-60 | the key must be set and non-empty; endpoint and service id default only when unset |
| MemoryConfig.OnlyKeySet | src/agentscope_runtime/tools/modelstudio_memory/config.py:31-60 | with only the key set, endpoint and service id are the defaults |
| MemoryConfig.ConfigOrEnv | src/agentscope_runtime/tools/modelstudio_memory/base.py:40-52 | a given configuration wins over the environment |
| MemoryConfig.AddMemoryUrl | src/agentscope_runtime/tools/modelstudio_memory/config.py:62-64 | the endpoint followed by `/add` |
| MemoryConfig.SearchMemoryUrl | src/agentscope_runtime/tools/modelstudio_memory/config.py:66-68 | the endpoint followed by `/memory_nodes/search` |
| MemoryConfig.ListMemoryUrl | src/agentscope_runtime/tools/modelstudio_memory/config.py:70-72 | the endpoint followed by `/memory_nodes` |
| MemoryConfig.DeleteMemoryUrl | src/agentscope_runtime/tools/modelstudio_memory/config.py:74-76 | the endpoint followed by `/memory_nodes/` and the node id |
| MemoryConfig.CreateProfileSchemaUrl | src/agentscope_runtime/tools/modelstudio_memory/config.py:78-80 | the endpoint followed by `/profile_schemas` |
| MemoryConfig.UserProfileUrl | src/agentscope_runtime/tools/modelstudio_memory/config.py:82-86 | the endpoint followed by `/profile_schemas/<id>/user_profile` |
| MemoryConfig.RouteRoundTrip | src/agentscope_runtime/tools/modelstudio_memory/config.py:62-86 | every operation's method and URL parse back to that operation, ids included |
| MemoryConfig.RoutesDistinct | src/agentscope_runtime/tools/modelstudio_memory/config.py:62-86 | two operations never share a method and URL |
| MemoryBase.Headers | src/agentscope_runtime/tools/modelstudio_memory/base.py:54-65 | JSON content type, the runtime user agent and the bearer key, in that order |
| MemoryBase.StatusClass | src/agentscope_runtime/tools/modelstudio_memory/base.py:142-176 | 401/403 authentication, 404 not found, other 4xx validation, anything else the base error |
| MemoryBase.ErrorFromData | src/agentscope_runtime/tools/modelstudio_memory/base.py:118-176 | the error's message, code and request id come from the reply's data, with defaults |
| MemoryBase.Handle | src/agentscope_runtime/tools/modelstudio_memory/base.py:78-197 | success exactly on status 200 with a JSON body, giving that body; every other reply raises the status's error; client failures raise a network error |
| MemoryBase.TextBecomesMessage | src/agentscope_runtime/tools/modelstudio_memory/base.py:118-140 | a non-JSON error body becomes the message, with the default code and request id |
| MemorySchemas.ExcludeNone | src/agentscope_runtime/tools/modelstudio_memory/core.py:103 | the fields in order without the `None` ones |
| MemorySchemas.ExcludeNoneGet | src/agentscope_runtime/tools/modelstudio_memory/core.py:103 | a key of the dump has its field's value, unless that is `None` |
| MemorySchemas.MessageDump | src/agentscope_runtime/tools/modelstudio_memory/schemas.py:11-17 | the role, and the content unless it is `None` |
| MemorySchemas.MessagesDump | src/agentscope_runtime/tools/modelstudio_memory/schemas.py:39-54 | one dumped message per message, in order |
| MemorySchemas.SearchDefaultsSent | src/agentscope_runtime/tools/modelstudio_memory/schemas.py:76-95 | a default search sends top_k 100 and min_score 0.0 with the caller's user id |
| MemorySchemas.NoneFieldNotSent | src/agentscope_runtime/tools/modelstudio_memory/schemas.py:108-120 | an optional field given as `None` is not sent |
| MemorySchemas.ValidateAttributes | src/agentscope_runtime/tools/modelstudio_memory/schemas.py:186-196 | a schema without attributes is a validation error; otherwise unchanged |
| MemorySchemas.RequiredStr | src/agentscope_runtime/tools/modelstudio_memory/schemas.py:19-37 | a JSON string, anything else fails validation |
| MemorySchemas.OptionalStr | src/agentscope_runtime/tools/modelstudio_memory/schemas.py:19-37 | absent or null is None, a string is kept, anything else fails |
| MemorySchemas.RequiredInt | src/agentscope_runtime/tools/modelstudio_memory/schemas.py:122-134 | lax `int` validation: an integer as is, a boolean as 0 or 1, a text that reads as an integer; null, lists and objects fail |
| MemorySchemas.NodeOf | src/agentscope_runtime/tools/modelstudio_memory/schemas.py:19-37 | a mapping with text content and optional text fields |
| MemorySchemas.NodeOfFields | src/agentscope_runtime/tools/modelstudio_memory/schemas.py:19-37 | a node dict with text fields is read back field by field |
| MemorySchemas.ByAliasOrName | src/agentscope_runtime/tools/modelstudio_memory/schemas.py:217-237 | the alias first, then the field name |
| MemorySchemas.UserAttributeOf | src/agentscope_runtime/tools/modelstudio_memory/schemas.py:209-215 | a mapping with text `name` and `id` and any `value` |
| MemorySchemas.UserProfileOf | src/agentscope_runtime/tools/modelstudio_memory/schemas.py:217-237 | each aliased field by its camelCase alias or its name |
| MemorySchemas.AliasAccepted | src/agentscope_runtime/tools/modelstudio_memory/schemas.py:217-237 | a profile given by its camelCase aliases is accepted |
| MemorySchemas.FieldNameAccepted | src/agentscope_runtime/tools/modelstudio_memory/schemas.py:217-237 | the same profile given by snake_case names is accepted |
| MemorySchemas.GetUserProfileOutputOf | src/agentscope_runtime/tools/modelstudio_memory/schemas.py:246-253 | `requestId` or `request_id`, and the profile |
| MemoryCore.GetOrDefault | src/agentscope_runtime/tools/modelstudio_memory/core.py:120 | only a dict has `get`; the value or the default |
| MemoryCore.TextOrEmpty | src/agentscope_runtime/tools/modelstudio_memory/core.py:133 | a text field read with default "" |
| MemoryCore.Iterated | src/agentscope_runtime/tools/modelstudio_memory/core.py:216-219 | a list gives its items, a dict its keys, a string its characters; nothing else iterates |
| MemoryCore.NodesOf | src/agentscope_runtime/tools/modelstudio_memory/core.py:130-132 | one node per item, or the first item's error |
| MemoryCore.AddedNodes | src/agentscope_runtime/tools/modelstudio_memory/core.py:120-127 | a single dict becomes a one-node list, a list is kept, anything else is empty |
| MemoryCore.AddMemoryResult | src/agentscope_runtime/tools/modelstudio_memory/core.py:120-134 | the nodes and the request id of an add reply |
| MemoryCore.SingleNodeWrapped | src/agentscope_runtime/tools/modelstudio_memory/core.py:121-123 | a single node dict still gives that one node |
| MemoryCore.SearchMemoryResult | src/agentscope_runtime/tools/modelstudio_memory/core.py:215-221 | the nodes and the request id of a search reply |
| MemoryCore.SearchNodeDictRejected | src/agentscope_runtime/tools/modelstudio_memory/core.py:216-219 | a single node dict is iterated by its keys, and the first raises |
| MemoryCore.OrDefault | src/agentscope_runtime/tools/modelstudio_memory/core.py:311-312 | `page_size or 10`, `page_num or 1` |
| MemoryCore.IntOr | src/agentscope_runtime/tools/modelstudio_memory/core.py:311-313 | the default when the key is absent, else the field validated as an `int`; a reply that is not a dictionary fails |
| MemoryCore.ListMemoryResult | src/agentscope_runtime/tools/modelstudio_memory/core.py:306-315 | the nodes, paging and request id of a list reply: an absent page size or page number falls back to the request's, a present one is validated as an `int`; total defaults to 0 |
| MemoryCore.EmptyListReply | src/agentscope_runtime/tools/modelstudio_memory/core.py:311 | an empty reply to page size 0 reports page size 10 |
| MemoryCore.DeleteMemoryResult | src/agentscope_runtime/tools/modelstudio_memory/core.py:394-396 | the request id of a delete reply |
| MemoryCore.CreateProfileSchemaResult | src/agentscope_runtime/tools/modelstudio_memory/core.py:478-481 | the schema id and request id of the reply |
| MemoryCore.ProfileAttributeOf | src/agentscope_runtime/tools/modelstudio_memory/core.py:570-578 | `name` and `id` default to "", `value` to None |
| MemoryCore.GetUserProfileResult | src/agentscope_runtime/tools/modelstudio_memory/core.py:564-583 | the profile and the camelCase `requestId` of the reply |
| MemoryCore.EmptyProfileReply | src/agentscope_runtime/tools/modelstudio_memory/core.py:564-583 | no profile gives an empty profile and an empty request id |
| MemoryCore.ProfileSnakeCaseIgnored | src/agentscope_runtime/tools/modelstudio_memory/core.py:582 | the snake_case `request_id` is not read |
| MemoryCore.Then | src/agentscope_runtime/tools/modelstudio_memory/core.py:80-145 | a decoded reply turned into an output, or the failure passed on |
| MemoryCore.AddMemory | src/agentscope_runtime/tools/modelstudio_memory/core.py:80-145 | POST to the add URL with the dumped input; the reply's nodes or the error |
| MemoryCore.SearchMemory | src/agentscope_runtime/tools/modelstudio_memory/core.py:180-234 | POST to the search URL; the reply's nodes or the error |
| MemoryCore.ListMemory | src/agentscope_runtime/tools/modelstudio_memory/core.py:270-326 | GET on the list URL with the dumped input as query |
| MemoryCore.DeleteMemory | src/agentscope_runtime/tools/modelstudio_memory/core.py:362-408 | DELETE on the node's URL; a missing node raises not found with 404 |
| MemoryCore.CreateProfileSchema | src/agentscope_runtime/tools/modelstudio_memory/core.py:445-492 | validated input POSTed to the schema URL |
| MemoryCore.GetUserProfile | src/agentscope_runtime/tools/modelstudio_memory/core.py:528-594 | GET on the user profile URL, reading the camelCase reply |

## Left out

- Network and cloud I/O is not modelled. This covers HTTP/SSE transport, the sandbox HTTP clients' request methods, LangStudio, the OSS/FC/EAS/Workspace SDK calls, the Kubernetes API, the BoxLite runtime and Redis itself. The container engine, storage and Redis lock state are parameters or class state. Response bodies, HTTP statuses and parse outcomes are parameters.
- Concurrency is not modelled: the watcher thread with its lock and event, the AG-UI request semaphore, the multi-instance reap race, and async scheduling. Every operation runs as one sequential step.
- Wall-clock polling loops and sleeps are not modelled: `_wait_for_deployment`, `wait_for_approval_stage` and `wait_until_healthy`. The Knative `wait_for_ready` loop is reduced to a sequence of condition snapshots: `KnativeClient.WaitForReady` sees the snapshots in order and does not model the clock.
- Clocks: `time.time()` is an integer `now` parameter. Timestamps, the heartbeat timeout, the released-key TTL and the HTTP client timeout are integers rather than floats, so sub-second values are not modelled. FC/AgentRun CPU values (floats) are left out.
- Randomness: `uuid4`-based session ids, runtime tokens, generated AG-UI `thread_…`/`run_…` ids and container names are parameters. Their freshness is assumed through the `SandboxManager.Manager.FreshSession` and `SandboxManager.Unrelated` preconditions, not produced by a generator.
- Strings: `str.lower`, `str.strip` and friends are modelled for ASCII only (`Strings.Lower`, `Strings.Strip`). Unicode case mapping and Unicode whitespace are not modelled.
- Container `meta` is a `map<string, string>`, not an arbitrary JSON dictionary. Port lists are `seq<int>`.
- SandboxManager.Manager.constructor: the model gives the manager a heartbeat store whose heartbeat and recycled maps start empty. The heartbeat mixin requires its host to provide `heartbeat_mapping` and `recycled_mapping` (src/agentscope_runtime/sandbox/manager/heartbeat_mixin.py:88-90), but `SandboxManager.__init__` never assigns them. In the code as shown, every heartbeat or recycled-marker access raises `AttributeError`. That affects `create`, `_bind_meta`, the heartbeat scan, `touch_session` and `restore_session`, which raise or swallow the error there. The model does not follow those paths: it treats the maps as present and empty.
- MemorySchemas.RequiredInt: floats are not modelled, because JSON numbers are integers here. Lax validation would accept `5.0` and reject `5.5`. For a text, pydantic's exact rules on surrounding whitespace and underscores are not followed: the text is read by `Strings.ParseInt`, which strips ASCII whitespace and takes an optional sign and decimal digits.
- FcDeploy.EnvFileRoundTrip: the round trip is promised only when no key or value holds a newline. The writer neither quotes nor escapes a newline, so such a value breaks its line in two (`FcDeploy.NewlineValueAddsEntry`).
- Deprecation.WarningLog: the model records each `warnings.warn` call. The `once` argument and the filter that the code installs for it are not modelled: with `once=True`, the default for `deprecated_module`, the code wraps the warning in `catch_warnings` and installs a `filterwarnings("once", module=…)` filter (src/agentscope_runtime/common/utils/deprecation.py:51-59). Whether a recorded warning is shown, which also depends on Python's default filters for `DeprecationWarning`, is not modelled.
- Heartbeat.HeartbeatStore.AcquireHeartbeatLock: the Redis lock's expiry (TTL) is not modelled, so a held lock never expires by itself.
- SandboxManager.Manager.ScanHeartbeatOnce: the per-session error counter is always 0, because the per-session exception paths inside the scan are not modelled.
- PaiIgnore.Glob: `fnmatch` is modelled for `*` and `?` only; a `[...]` character class is matched literally.
- ServerConfig.ParseDefaultType: in the JSON branch of `parse_default_type`, the decoding of a value that starts with `[` is a parameter: the decoded list is returned as is. The model follows the code here: that list is neither stripped nor filtered.
- SandboxManager.Manager.Create: `max_sandbox_instances` is not enforced. The code (src/agentscope_runtime/sandbox/manager/sandbox_manager.py:705-731) counts the active containers but never compares the count with the limit, so the model has no limit either.
- SandboxManager.Manager.Create: `readonly_mounts`, the AgentRun/FC `container_deployment` branches, the storage download into the mount directory, and `os.path.abspath` of the mount path are not modelled.
- SandboxManager.Manager.Release and SandboxManager.Manager.ReapSession: the container client's `stop`/`remove` effects and the storage upload are reduced to oracle outcomes. Only their effect on the bookkeeping maps is modelled. A failing upload is not distinguished, because its result is ignored.
- The remote mode (`remote_wrapper` forwarding calls over HTTP), `start`, `stop`, `get_status`, `check_health`, `list_tools`, `call_tool` and `add_mcp_servers` of the sandbox manager are HTTP or client wrappers and are not modelled.
- AguiConvert.ConvertRequest: pydantic validation of `AgentRequest` and of the AG-UI input models is not modelled. Only the field defaults and aliases that the code relies on are modelled (`AguiStream.ParseRunInput`).
- `clear_container_recycle_marker` is called at src/agentscope_runtime/sandbox/manager/sandbox_manager.py:622 and :913, but no modelled file defines it. The as-written path is modelled (see Findings). The corrected members `SandboxManager.Manager.Create` and `SandboxManager.Manager.BindMeta` read it by the comment at line 912 ("Session is now alive again; clear restore-required marker"), as the heartbeat tests' stand-ins for it do. They clear the session's recycled marker, so the session no longer needs a restore, and leave the record RUNNING. `SandboxManager.Manager.CreateStored` is `create` up to that call.
- Filesystem, subprocess and archive work is not modelled: the project archive, the Docker build, the `.env` file write (only its text is modelled), path-existence checks (a parameter), and reading ignore files (their text is a parameter).
- Library semantics: `urlparse` is modelled for scheme, host lower-casing and path; `urljoin` for the joins the code performs. `json.dumps` output is a structured value, not text, except where the code inspects the text.
- Logging is not modelled, nor are the streaming adapters for LangGraph and MS Agent Framework (they depend on foreign framework types). Also left out: `sandbox.py` and the sandbox subclasses, `ContainerClientFactory`, the lazy loaders, the Celery mixin, `net_utils.py`, the gVisor client, the A2A registry, and the example scripts other than the memory demo helpers. These files are not part of this model.
- The demo's asynchronous steps and `print` calls are not modelled. Only `truncate`, `format_api_error`, the total-pages computation and the node-id filters are.
- SandboxManager.Manager.ScanReleasedCleanupOnce: the `errors` counter is always 0. The `except` branch (src/agentscope_runtime/sandbox/manager/sandbox_manager.py:1638-1643) is not modelled, because stored records are validated and the mapping's reads and deletes do not fail in the model.
- PaiBuild.DeployTags: a `deploy_method` keyword passed explicitly as None would give the tag the value None, because src/agentscope_runtime/engine/deployers/pai_deployer.py:1543 defaults only a missing key. Tags are strings here, so the model cannot express that; an absent `deployMethod` stands for a missing keyword and gives "sdk".
- AguiStream.GenerateStream: src/agentscope_runtime/engine/deployers/adapter/agui/agui_protocol_adapter.py:16-21 imports `AGUIAdapter`, but agui_adapter_utils.py defines only `AGUIAdapterUtils` (line 219). In the code as shown, the import fails. The model reads the imported name as `AGUIAdapterUtils`.
- KnativeClient.CreatePodSpec: the runtime `resources` and `security_context` values are passed through as JSON. The construction of `V1ResourceRequirements`/`V1SecurityContext` from their keys is not modelled, and neither is the `TypeError` that a value which is not a mapping of known keyword arguments would raise.

## Findings

| source | as written | input that shows it | evidently intended | confidence | as-written member | corrected member |
|---|---|---|---|---|---|---|
| src/agentscope_runtime/engine/helpers/agent_api_client.py:105-110 | `event:` and `retry:` lines are sliced from index 7, which assumes one character after the 6-character prefix | `event:x` gives an empty event name, and `retry:5` gives an empty retry value | keep the whole stripped value after the colon | not executed | AgentApiClient.ParseSseLine | AgentApiClient.ParseSseLineIntended |
| src/agentscope_runtime/sandbox/manager/server/config.py:114-119 | the `WORKERS` validator reads `REDIS_ENABLED`, which is declared after `WORKERS` and is therefore never among the values validated so far | `WORKERS=4` with `REDIS_ENABLED=True` still gives 1 worker | keep the configured number of workers when Redis is enabled | not executed | ServerConfig.WorkersAlwaysOne | ServerConfig.WorkersKeptWithRedis |
| src/agentscope_runtime/sandbox/manager/sandbox_manager.py:900-929 | `create` calls `clear_container_recycle_marker`, which no class defines, after storing, listing and heart-beating a session-bound container; the `AttributeError` is caught, the container is released and None is returned | any `create` whose `meta` holds a `session_ctx_id` | the container is left RUNNING and bound, and its name is returned | not executed | SandboxManager.Manager.CreateAsWritten | SandboxManager.Manager.Create |
| src/agentscope_runtime/sandbox/manager/sandbox_manager.py:591-688 | `_bind_meta` calls the same undefined method after rebinding and listing the pooled container, before its heartbeat; `create_from_pool` then falls back to `create`, which fails the same way, so the caller gets None and the dequeued container stays RUNNING and bound with nothing to release it | a pooled container taken for `meta` with a `session_ctx_id` | the pooled container is bound, RUNNING, given a heartbeat and returned | not executed | SandboxManager.Manager.CreateFromPoolAsWritten | SandboxManager.Manager.CreateFromPool |
| src/agentscope_runtime/common/container_clients/boxlite_client.py:151-228 | `_find_free_ports` adds the ports it finds to `port_set`, and a `create` that then fails never removes them | a `create` whose box creation fails: its ports stay reserved for good | release the reserved ports when the box is not created | not executed | BoxliteClient.Client.CreateFailureKeepsPorts | BoxliteClient.Client.CreateReleasingPorts |
