/**
 * The BoxLite container client's state (boxlite_client.py): the set of host
 * ports handed out and the cache of each box's host ports, with
 * `_find_free_ports`, `create`, `remove`, `inspect` and `get_status`. The
 * BoxLite runtime and the socket bind test are parameters.
 */
module BoxliteClient {
  import opened Wrappers
  import opened Strings
  import opened Dicts
  import opened BoxlitePorts

  function NotEnoughPorts(): string
  {
    "Not enough free ports available" + " in the specified range."
  }

  /** The options handed to the BoxLite runtime's `create`. */
  datatype BoxOptions = BoxOptions(
    image: string,
    env: Dict<string>,
    volumes: seq<BoxVolume>,
    ports: seq<BoxPort>,
    autoRemove: bool,
    detach: bool)

  /** A successful `create`: (box id, host ports, host). */
  datatype Created = Created(boxId: string, hostPorts: seq<int>, host: string)

  /** What the runtime reports about a box. */
  datatype BoxInfo = BoxInfo(status: string, running: bool, pid: Option<int>, memoryMib: int)

  /** The Docker-like `inspect` dict, reduced to the entries the model follows. */
  datatype Inspection = Inspection(
    status: string,
    running: bool,
    dead: bool,
    pid: int,
    exitCode: int,
    ports: Dict<seq<HostBinding>>,
    memoryBytes: int)

  /** Every cached port is reserved, and no port is cached for two boxes. */
  predicate ValidState(portSet: set<int>, portsCache: map<string, seq<int>>)
  {
    && (forall id, p :: id in portsCache && p in portsCache[id] ==> p in portSet)
    && (forall a, b, p :: a in portsCache && b in portsCache && a != b && p in portsCache[a] ==> p !in portsCache[b])
  }

  /** Reserving more ports keeps the state valid. */
  lemma ValidGrow(s1: set<int>, s2: set<int>, cache: map<string, seq<int>>)
    requires ValidState(s1, cache) && s1 <= s2
    ensures ValidState(s2, cache)
  {
  }

  /** Caching freshly reserved ports for a box keeps the state valid. */
  lemma ValidStore(s1: set<int>, s2: set<int>, cache: map<string, seq<int>>, id: string, hostPorts: seq<int>)
    requires ValidState(s1, cache) && s1 <= s2
    requires forall p :: p in hostPorts ==> p !in s1 && p in s2
    ensures ValidState(s2, cache[id := hostPorts])
  {
  }

  /** Releasing a box's ports along with its cache entry keeps the state valid. */
  lemma ValidRelease(s: set<int>, cache: map<string, seq<int>>, id: string)
    requires ValidState(s, cache)
    ensures ValidState(s - (if id in cache then Elements(cache[id]) else {}), cache - {id})
  {
  }

  class Client {
    /** `port_range = range(lo, hi)`. */
    const lo: int
    const hi: int
    /** `port_set`: the host ports reserved by this client. */
    var portSet: set<int>
    /** `ports_cache`: each box's host ports. */
    var portsCache: map<string, seq<int>>

    predicate Valid()
      reads this
    {
      ValidState(portSet, portsCache)
    }

    constructor(lo: int, hi: int)
      ensures this.lo == lo && this.hi == hi
      ensures portSet == {} && portsCache == map[]
      ensures Valid()
    {
      this.lo := lo;
      this.hi := hi;
      portSet := {};
      portsCache := map[];
    }

    /**
     * `_find_free_ports(n)`: the scan of the port range; `bind` says whether
     * binding a port succeeds. Finding fewer than `n` ports raises
     * RuntimeError and keeps the ports found reserved.
     */
    method FindFreePorts(n: nat, bind: int -> bool) returns (r: Result<seq<int>>)
      modifies this
      ensures portsCache == old(portsCache)
      ensures portSet == Scan(lo, hi, n, old(portSet), bind).1
      ensures var f := Scan(lo, hi, n, old(portSet), bind).0;
        r == if |f| < n then Err("RuntimeError", NotEnoughPorts()) else Ok(f)
    {
      ghost var s := Scan(lo, hi, n, portSet, bind);
      var free: seq<int> := [];
      var port := lo;
      while port < hi
        invariant |free| <= n
        invariant free + Scan(port, hi, n - |free|, portSet, bind).0 == s.0
        invariant Scan(port, hi, n - |free|, portSet, bind).1 == s.1
        invariant portsCache == old(portsCache)
        decreases hi - port
      {
        if |free| >= n {
          break;
        }
        if port in portSet {
          port := port + 1;
          continue;
        }
        portSet := portSet + {port};
        if bind(port) {
          free := free + [port];
        } else {
          portSet := portSet - {port};
        }
        port := port + 1;
      }
      assert Scan(port, hi, n - |free|, portSet, bind) == ([], portSet);
      assert free + [] == free;
      if |free| < n {
        return Err("RuntimeError", NotEnoughPorts());
      }
      return Ok(free);
    }

    /** The host ports of a new box are reserved and cached for no other box. */
    static lemma FindFreePortsFresh(lo: int, hi: int, n: nat, used: set<int>, bind: int -> bool, p: int)
      requires p in Scan(lo, hi, n, used, bind).0
      ensures p !in used && p in Scan(lo, hi, n, used, bind).1
    {
      ScanFound(lo, hi, n, used, bind);
      ScanSet(lo, hi, n, used, bind);
    }

    /**
     * `create`: reserves a host port per requested container port (raising
     * RuntimeError when the range runs out), pairs them up in a dict keyed
     * by container port, converts volumes and ports, and asks the runtime to
     * create the box (`boxId`, `None` when the runtime or the first command
     * raised). On success the host ports are cached for the box; on failure
     * after the reservation the ports stay reserved and nothing is cached.
     */
    method Create(image: string, ports: seq<PortKey>, volumes: seq<VolumeSpec>, environment: Dict<string>,
                  bind: int -> bool, boxId: Option<string>) returns (r: Result<Option<Created>>, options: Option<BoxOptions>)
      requires Valid()
      modifies this
      ensures Valid()
      ensures portSet == Scan(lo, hi, |ports|, old(portSet), bind).1
      ensures var f := Scan(lo, hi, |ports|, old(portSet), bind).0;
        var m := MappingOf(Zip(ports, f));
        if ports != [] && |f| < |ports| then
          r == Err("RuntimeError", NotEnoughPorts()) && options.None? && portsCache == old(portsCache)
        else
          && options == (if PortListOf(m).Some?
                         then Some(BoxOptions(image, environment, VolumeListOf(volumes), PortListOf(m).value, false, true))
                         else None)
          && r == (if options.Some? && boxId.Some?
                   then Ok(Some(Created(boxId.value, MappingValues(m), "localhost")))
                   else Ok(None))
          && portsCache == (if r.value.Some? && m != [] then old(portsCache)[boxId.value := MappingValues(m)]
                            else old(portsCache))
    {
      ghost var oldSet := portSet;
      ghost var f := Scan(lo, hi, |ports|, portSet, bind).0;
      var mapping: PortMapping := [];
      options := None;
      ScanSet(lo, hi, |ports|, oldSet, bind);
      if ports != [] {
        var found := FindFreePorts(|ports|, bind);
        ValidGrow(oldSet, portSet, portsCache);
        if found.Err? {
          return Err(found.kind, found.message), None;
        }
        mapping := BuildMapping(ports, found.value);
      } else {
        assert Scan(lo, hi, |ports|, oldSet, bind) == ([], oldSet);
      }
      // The conversions of the `try` block; an unreadable container port raises ValueError there.
      var volumeList := ConvertVolumes(volumes);
      var portList := PortListOf(mapping);
      if portList.None? {
        return Ok(None), None;
      }
      options := Some(BoxOptions(image, environment, volumeList, portList.value, false, true));
      if boxId.None? {
        return Ok(None), options;
      }
      var hostPorts := MappingValues(mapping);
      if mapping != [] {
        forall p | p in hostPorts
          ensures p !in oldSet && p in portSet
        {
          MappingOfValues(Zip(ports, f), p);
          FindFreePortsFresh(lo, hi, |ports|, oldSet, bind, p);
        }
        ValidStore(oldSet, portSet, portsCache, boxId.value, hostPorts);
        portsCache := portsCache[boxId.value := hostPorts];
      }
      r := Ok(Some(Created(boxId.value, hostPorts, "localhost")));
    }

    /**
     * What `create` as written leaves behind when the box is not created
     * although enough ports were found: every reserved host port stays in
     * `port_set` while no box caches it, so no later `remove` frees it.
     */
    static lemma CreateFailureKeepsPorts(lo: int, hi: int, n: nat, used: set<int>, bind: int -> bool,
                                         cache: map<string, seq<int>>, p: int)
      requires p in Scan(lo, hi, n, used, bind).0
      requires ValidState(used, cache)
      ensures p in Scan(lo, hi, n, used, bind).1
      ensures forall id :: id in cache ==> p !in cache[id]
    {
      FindFreePortsFresh(lo, hi, n, used, bind, p);
    }

    /**
     * `create` with the evidently intended clean-up: when no box comes out
     * of it, the host ports it reserved are handed back, so `port_set` is
     * what it was; a created box is recorded exactly as `Create` records it.
     */
    method CreateReleasingPorts(image: string, ports: seq<PortKey>, volumes: seq<VolumeSpec>, environment: Dict<string>,
                                bind: int -> bool, boxId: Option<string>)
      returns (r: Result<Option<Created>>, options: Option<BoxOptions>)
      requires Valid()
      modifies this
      ensures Valid()
      ensures portsCache == (if r.Ok? && r.value.Some? && r.value.value.hostPorts != []
                             then old(portsCache)[r.value.value.boxId := r.value.value.hostPorts]
                             else old(portsCache))
      ensures !(r.Ok? && r.value.Some?) ==> portSet == old(portSet)
      ensures r.Ok? && r.value.Some? ==>
        portSet == Scan(lo, hi, |ports|, old(portSet), bind).1 && boxId == Some(r.value.value.boxId)
      ensures r.Err? <==> ports != [] && |Scan(lo, hi, |ports|, old(portSet), bind).0| < |ports|
    {
      var before := portSet;
      ScanSet(lo, hi, |ports|, before, bind);
      r, options := Create(image, ports, volumes, environment, bind, boxId);
      if r.Ok? && r.value.Some? {
        return;
      }
      var taken := portSet - before;
      portSet := portSet - taken;
      assert portSet == before;
    }

    /**
     * `remove`: when the runtime removes the box (`removed`), its cache entry
     * is dropped and its host ports are released; when the runtime raises,
     * nothing changes and the result is False.
     */
    method Remove(id: string, removed: bool) returns (ok: bool)
      requires Valid()
      modifies this
      ensures Valid()
      ensures ok == removed
      ensures !removed ==> portSet == old(portSet) && portsCache == old(portsCache)
      ensures removed ==> (portsCache == old(portsCache) - {id}
        && portSet == old(portSet) - (if id in old(portsCache) then Elements(old(portsCache)[id]) else {}))
    {
      var ports := if id in portsCache then Some(portsCache[id]) else None;
      if !removed {
        return false;
      }
      ValidRelease(portSet, portsCache, id);
      portsCache := portsCache - {id};
      if ports.Some? {
        var hostPorts := ports.value;
        var i := 0;
        while i < |hostPorts|
          invariant 0 <= i <= |hostPorts|
          invariant portSet == old(portSet) - Elements(hostPorts[..i])
          invariant portsCache == old(portsCache) - {id}
        {
          portSet := portSet - {hostPorts[i]};
          assert Elements(hostPorts[..i + 1]) == Elements(hostPorts[..i]) + {hostPorts[i]} by {
            assert hostPorts[..i + 1] == hostPorts[..i] + [hostPorts[i]];
          }
          i := i + 1;
        }
        assert hostPorts[..i] == hostPorts;
      }
      return true;
    }

    /** `inspect`: `None` for an unknown box; the ports dict is formatted from the cache. */
    function Inspect(id: string, box: Option<BoxInfo>): (r: Option<Inspection>)
      reads this
      ensures r.Some? <==> box.Some?
      ensures r.Some? ==> r.value.dead == !r.value.running && r.value.exitCode == (if r.value.running then 0 else 1)
    {
      match box
      case None => None
      case Some(info) =>
        var cached := if id in portsCache then portsCache[id] else [];
        Some(Inspection(
          info.status,
          info.running,
          !info.running,
          if TruthyInt(info.pid) then info.pid.value else 0,
          if info.running then 0 else 1,
          FormattedPorts(cached),
          info.memoryMib * 1024 * 1024))
    }

    /** Every cached host port of an inspected box appears under "p/tcp", bound on 0.0.0.0. */
    lemma InspectPorts(id: string, info: BoxInfo, p: int)
      requires id in portsCache && p in portsCache[id]
      ensures Get(Inspect(id, Some(info)).value.ports, PortKeyText(p)) == Some(BindingOf(p))
    {
      FormattedPortsLookup(portsCache[id], p, PortKeyText(p));
    }

    /** `get_status`: the inspected state's status, or `None` for an unknown box. */
    function GetStatus(id: string, box: Option<BoxInfo>): (r: Option<string>)
      reads this
      ensures r.Some? <==> box.Some?
      ensures r.Some? ==> r.value == box.value.status
    {
      var attrs := Inspect(id, box);
      if attrs.Some? then Some(attrs.value.status) else None
    }
  }
}
