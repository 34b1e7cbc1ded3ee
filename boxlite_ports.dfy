/**
 * The bookkeeping of the BoxLite container client (boxlite_client.py) as
 * values: the scan of the port range for free host ports, the dict from
 * container ports to host ports, the conversion of volume and port requests
 * into BoxLite's tuples, and the Docker-like `NetworkSettings.Ports` dict.
 */
module BoxlitePorts {
  import opened Wrappers
  import opened Strings
  import opened Dicts

  // ---------------------------------------------------------------------
  // The free-port scan
  // ---------------------------------------------------------------------

  /**
   * `_find_free_ports` from port `p` up to (excluding) `hi`, still needing
   * `n` ports, with `used` the port set: the ports found and the new set. A
   * port already in the set is skipped; a new one is added, and removed again
   * when `bind` says binding it fails.
   */
  function Scan(p: int, hi: int, n: nat, used: set<int>, bind: int -> bool): (seq<int>, set<int>)
    decreases hi - p
  {
    if p >= hi || n == 0 then ([], used)
    else if p in used then Scan(p + 1, hi, n, used, bind)
    else if bind(p) then
      var r := Scan(p + 1, hi, n - 1, used + {p}, bind);
      ([p] + r.0, r.1)
    else Scan(p + 1, hi, n, used, bind)
  }

  function Elements(s: seq<int>): set<int>
  {
    set x | x in s
  }

  /** Strictly ascending. */
  predicate Ascending(s: seq<int>)
  {
    forall i, j :: 0 <= i < j < |s| ==> s[i] < s[j]
  }

  /** The scan finds at most `n` ports, each in range, previously unused and bindable, in ascending order. */
  lemma {:induction false} ScanFound(p: int, hi: int, n: nat, used: set<int>, bind: int -> bool)
    ensures var f := Scan(p, hi, n, used, bind).0;
      && |f| <= n
      && (forall k :: 0 <= k < |f| ==> p <= f[k] < hi && f[k] !in used && bind(f[k]))
      && Ascending(f)
    decreases hi - p
  {
    if p < hi && n > 0 {
      if p in used {
        ScanFound(p + 1, hi, n, used, bind);
      } else if bind(p) {
        var r := Scan(p + 1, hi, n - 1, used + {p}, bind).0;
        ScanFound(p + 1, hi, n - 1, used + {p}, bind);
        var f := [p] + r;
        assert forall k :: 0 < k < |f| ==> f[k] == r[k - 1];
      } else {
        ScanFound(p + 1, hi, n, used, bind);
      }
    }
  }

  /** The new port set is the old one plus exactly the ports found. */
  lemma {:induction false} ScanSet(p: int, hi: int, n: nat, used: set<int>, bind: int -> bool)
    ensures Scan(p, hi, n, used, bind).1 == used + Elements(Scan(p, hi, n, used, bind).0)
    decreases hi - p
  {
    if p < hi && n > 0 {
      if p in used {
        ScanSet(p + 1, hi, n, used, bind);
      } else if bind(p) {
        var r := Scan(p + 1, hi, n - 1, used + {p}, bind);
        ScanSet(p + 1, hi, n - 1, used + {p}, bind);
        assert Elements([p] + r.0) == {p} + Elements(r.0);
      } else {
        ScanSet(p + 1, hi, n, used, bind);
      }
    }
  }

  /** When the scan finds fewer than `n` ports, every unused bindable port of the range is among them. */
  lemma {:induction false} ScanComplete(p: int, hi: int, n: nat, used: set<int>, bind: int -> bool, q: int)
    requires |Scan(p, hi, n, used, bind).0| < n
    requires p <= q < hi && q !in used && bind(q)
    ensures q in Scan(p, hi, n, used, bind).0
    decreases hi - p
  {
    if p in used {
      ScanComplete(p + 1, hi, n, used, bind, q);
    } else if bind(p) {
      if q != p {
        var r := Scan(p + 1, hi, n - 1, used + {p}, bind).0;
        ScanComplete(p + 1, hi, n - 1, used + {p}, bind, q);
        assert q in [p] + r;
      }
    } else {
      ScanComplete(p + 1, hi, n, used, bind, q);
    }
  }

  /** The scan skips no eligible port before the last one it finds. */
  lemma {:induction false} ScanNoGaps(p: int, hi: int, n: nat, used: set<int>, bind: int -> bool, q: int)
    requires var f := Scan(p, hi, n, used, bind).0; f != [] && p <= q < f[|f| - 1]
    requires q !in used && bind(q)
    ensures q in Scan(p, hi, n, used, bind).0
    decreases hi - p
  {
    var f := Scan(p, hi, n, used, bind).0;
    if p == q {
      assert f[0] == p;
    } else if p in used {
      ScanNoGaps(p + 1, hi, n, used, bind, q);
    } else if bind(p) {
      var r := Scan(p + 1, hi, n - 1, used + {p}, bind).0;
      assert f == [p] + r;
      ScanNoGaps(p + 1, hi, n - 1, used + {p}, bind, q);
    } else {
      ScanNoGaps(p + 1, hi, n, used, bind, q);
    }
  }

  // ---------------------------------------------------------------------
  // The container-port to host-port dict
  // ---------------------------------------------------------------------

  /** A requested container port: an `int` or a text such as "80/tcp". */
  datatype PortKey = IntPort(i: int) | StrPort(s: string)

  /** An insertion-ordered dict from container ports to host ports. */
  type PortMapping = seq<(PortKey, int)>

  function MappingKeys(m: PortMapping): (r: seq<PortKey>)
    ensures |r| == |m| && forall i :: 0 <= i < |m| ==> r[i] == m[i].0
  {
    if m == [] then [] else MappingKeys(m[..|m| - 1]) + [m[|m| - 1].0]
  }

  function MappingValues(m: PortMapping): (r: seq<int>)
    ensures |r| == |m| && forall i :: 0 <= i < |m| ==> r[i] == m[i].1
  {
    if m == [] then [] else MappingValues(m[..|m| - 1]) + [m[|m| - 1].1]
  }

  /** The position of `k` in `m`, if present. */
  function MappingIndex(m: PortMapping, k: PortKey): (r: Option<nat>)
    ensures r.None? ==> k !in MappingKeys(m)
    ensures r.Some? ==> r.value < |m| && m[r.value].0 == k
  {
    if m == [] then None
    else if m[|m| - 1].0 == k then Some(|m| - 1)
    else
      var r := MappingIndex(m[..|m| - 1], k);
      assert MappingKeys(m) == MappingKeys(m[..|m| - 1]) + [m[|m| - 1].0];
      r
  }

  /** `port_mapping[k] = v`. */
  function MappingPut(m: PortMapping, k: PortKey, v: int): PortMapping
  {
    match MappingIndex(m, k)
    case None => m + [(k, v)]
    case Some(i) => m[i := (k, v)]
  }

  /** `zip(ports, free_ports)`: pairs up to the shorter length. */
  function Zip(ports: seq<PortKey>, free: seq<int>): (r: PortMapping)
    ensures |r| == if |ports| <= |free| then |ports| else |free|
    ensures forall i :: 0 <= i < |r| ==> r[i] == (ports[i], free[i])
  {
    if ports == [] || free == [] then [] else [(ports[0], free[0])] + Zip(ports[1..], free[1..])
  }

  /** The dict the loop `for container_port, host_port in zip(…)` builds. */
  function MappingOf(pairs: seq<(PortKey, int)>): PortMapping
  {
    if pairs == [] then [] else MappingPut(MappingOf(pairs[..|pairs| - 1]), pairs[|pairs| - 1].0, pairs[|pairs| - 1].1)
  }

  /** The dict-building loop of `create`. */
  method BuildMapping(ports: seq<PortKey>, free: seq<int>) returns (mapping: PortMapping)
    ensures mapping == MappingOf(Zip(ports, free))
  {
    var pairs := Zip(ports, free);
    mapping := [];
    var i := 0;
    while i < |pairs|
      invariant 0 <= i <= |pairs|
      invariant mapping == MappingOf(pairs[..i])
    {
      var (containerPort, hostPort) := pairs[i];
      mapping := MappingPut(mapping, containerPort, hostPort);
      assert pairs[..i + 1][..i] == pairs[..i];
      i := i + 1;
    }
    assert pairs[..i] == pairs;
  }

  /** Every host port of the dict is one of the pairs' host ports. */
  lemma {:induction false} MappingOfValues(pairs: seq<(PortKey, int)>, x: int)
    requires x in MappingValues(MappingOf(pairs))
    ensures exists i :: 0 <= i < |pairs| && pairs[i].1 == x
    decreases |pairs|
  {
    var init := pairs[..|pairs| - 1];
    var m := MappingOf(init);
    var last := pairs[|pairs| - 1];
    var vs := MappingValues(MappingOf(pairs));
    var k :| 0 <= k < |vs| && vs[k] == x;
    match MappingIndex(m, last.0)
    case None =>
      if k < |m| {
        assert MappingValues(m)[k] == x;
        MappingOfValues(init, x);
        var i :| 0 <= i < |init| && init[i].1 == x;
        assert pairs[i] == init[i];
      }
    case Some(j) =>
      if k != j {
        assert MappingValues(m)[k] == x;
        MappingOfValues(init, x);
        var i :| 0 <= i < |init| && init[i].1 == x;
        assert pairs[i] == init[i];
      }
  }

  /** Distinct container ports.  */
  predicate DistinctKeys(ports: seq<PortKey>)
  {
    forall i, j :: 0 <= i < j < |ports| ==> ports[i] != ports[j]
  }

  /** With distinct container ports the dict is the pairs themselves, in request order. */
  lemma {:induction false} MappingOfDistinct(pairs: seq<(PortKey, int)>)
    requires forall i, j :: 0 <= i < j < |pairs| ==> pairs[i].0 != pairs[j].0
    ensures MappingOf(pairs) == pairs
    decreases |pairs|
  {
    if pairs != [] {
      var init := pairs[..|pairs| - 1];
      MappingOfDistinct(init);
      assert init + [pairs[|pairs| - 1]] == pairs;
    }
  }

  /** With distinct container ports, the host ports come back in the order of the requested container ports. */
  lemma HostPortsInRequestOrder(ports: seq<PortKey>, free: seq<int>)
    requires DistinctKeys(ports) && |free| == |ports|
    ensures MappingValues(MappingOf(Zip(ports, free))) == free
  {
    MappingOfDistinct(Zip(ports, free));
  }

  // ---------------------------------------------------------------------
  // Conversions for BoxLite's options
  // ---------------------------------------------------------------------

  /** The container port as a number: an int, or `int()` of the text before the first "/". */
  function ContainerPortNumber(k: PortKey): Option<int>
  {
    match k
    case IntPort(i) => Some(i)
    case StrPort(s) => ParseInt(Split(s, '/')[0])
  }

  /** A BoxLite port tuple (host port, container port, protocol). */
  datatype BoxPort = BoxPort(hostPort: int, containerPort: int, protocol: string)

  /** The port tuples of the dict, or `None` when some container port is not a number (`ValueError`). */
  function PortListOf(m: PortMapping): (r: Option<seq<BoxPort>>)
    ensures r.Some? <==> forall i :: 0 <= i < |m| ==> ContainerPortNumber(m[i].0).Some?
    ensures r.Some? ==> |r.value| == |m| && forall i :: 0 <= i < |m| ==>
      r.value[i] == BoxPort(m[i].1, ContainerPortNumber(m[i].0).value, "tcp")
  {
    if m == [] then Some([])
    else
      var init := m[..|m| - 1];
      var rest := PortListOf(init);
      var n := ContainerPortNumber(m[|m| - 1].0);
      assert forall i :: 0 <= i < |init| ==> init[i] == m[i];
      if rest.None? || n.None? then None
      else Some(rest.value + [BoxPort(m[|m| - 1].1, n.value, "tcp")])
  }

  /** A text container port with a protocol suffix maps to its number and "tcp". */
  lemma PortWithProtocol(p: nat, proto: string)
    ensures ContainerPortNumber(StrPort(NatToString(p) + "/" + proto)) == Some(p as int)
  {
    assert !HasChar(NatToString(p), '/');
    SplitAfter(NatToString(p), '/', proto);
    ParseIntOfNat(p);
  }

  /** An element of a volume request tuple. */
  datatype VolItem = VText(s: string) | VFlag(b: bool) | VNum(i: int) | VOtherItem

  /** A volume request: a list or tuple of elements, or some other value. */
  datatype VolumeSpec = VolTuple(items: seq<VolItem>) | VolOther

  /** `x in ("ro", "readonly", True)`; Python's `1 == True` makes the number 1 count too. */
  predicate ReadOnlyFlag(x: VolItem)
  {
    x == VText("ro") || x == VText("readonly") || x == VFlag(true) || x == VNum(1)
  }

  datatype BoxVolume = BoxVolume(host: VolItem, guest: VolItem, mode: string)

  /** One volume request converted, or dropped when it is not a tuple of at least two elements. */
  function VolumeOf(v: VolumeSpec): Option<BoxVolume>
  {
    if v.VolTuple? && |v.items| >= 2 then
      Some(BoxVolume(v.items[0], v.items[1], if |v.items| > 2 && ReadOnlyFlag(v.items[2]) then "ro" else "rw"))
    else None
  }

  function VolumeOpts(vols: seq<VolumeSpec>): (r: seq<Option<BoxVolume>>)
    ensures |r| == |vols| && forall i :: 0 <= i < |vols| ==> r[i] == VolumeOf(vols[i])
  {
    if vols == [] then [] else VolumeOpts(vols[..|vols| - 1]) + [VolumeOf(vols[|vols| - 1])]
  }

  /** The BoxLite volume list: every convertible request, in order. */
  function VolumeListOf(vols: seq<VolumeSpec>): seq<BoxVolume>
  {
    Somes(VolumeOpts(vols))
  }

  /**
   * A volume is in the list exactly when some request of at least two
   * elements gives its host and guest path, with mode "ro" exactly when the
   * request's third element is a read-only flag, and "rw" otherwise.
   */
  lemma VolumeListMembers(vols: seq<VolumeSpec>, bv: BoxVolume)
    ensures bv in VolumeListOf(vols) <==>
      exists i :: 0 <= i < |vols| && vols[i].VolTuple? && |vols[i].items| >= 2
        && bv.host == vols[i].items[0] && bv.guest == vols[i].items[1]
        && (bv.mode == "ro" <==> |vols[i].items| > 2 && ReadOnlyFlag(vols[i].items[2]))
        && (bv.mode == "ro" || bv.mode == "rw")
  {
    SomesMembers(VolumeOpts(vols), bv);
  }

  /** The conversion loop of `create`. */
  method ConvertVolumes(vols: seq<VolumeSpec>) returns (list: seq<BoxVolume>)
    ensures list == VolumeListOf(vols)
  {
    list := [];
    var i := 0;
    while i < |vols|
      invariant 0 <= i <= |vols|
      invariant list == VolumeListOf(vols[..i])
    {
      var vol := vols[i];
      if vol.VolTuple? && |vol.items| >= 2 {
        var readOnly := |vol.items| > 2 && ReadOnlyFlag(vol.items[2]);
        list := list + [BoxVolume(vol.items[0], vol.items[1], if readOnly then "ro" else "rw")];
      }
      assert vols[..i + 1][..i] == vols[..i];
      assert VolumeOpts(vols[..i + 1]) == VolumeOpts(vols[..i]) + [VolumeOf(vol)];
      i := i + 1;
    }
    assert vols[..i] == vols;
  }

  // ---------------------------------------------------------------------
  // The Docker-like ports dict
  // ---------------------------------------------------------------------

  datatype HostBinding = HostBinding(hostIp: string, hostPort: string)

  function PortKeyText(p: int): string
  {
    IntToString(p) + "/tcp"
  }

  function BindingOf(p: int): seq<HostBinding>
  {
    [HostBinding("0.0.0.0", IntToString(p))]
  }

  /** `_format_ports`: each host port p under the key "p/tcp", bound on 0.0.0.0. */
  function FormattedPorts(hostPorts: seq<int>): Dict<seq<HostBinding>>
  {
    PutEach(hostPorts, PortKeyText, BindingOf)
  }

  /** Equal keys come from equal host ports' texts. */
  lemma PortKeyTextEq(p: int, q: int)
    requires PortKeyText(p) == PortKeyText(q)
    ensures BindingOf(p) == BindingOf(q)
  {
    var a, b := PortKeyText(p), PortKeyText(q);
    assert IntToString(p) == a[..|a| - 4];
    assert IntToString(q) == b[..|b| - 4];
  }

  /**
   * Every host port is found under its key "p/tcp" with its binding; the keys
   * are exactly the host ports' keys, each once.
   */
  lemma FormattedPortsLookup(hostPorts: seq<int>, p: int, key: string)
    requires p in hostPorts
    ensures Get(FormattedPorts(hostPorts), PortKeyText(p)) == Some(BindingOf(p))
    ensures UniqueKeys(FormattedPorts(hostPorts))
    ensures HasKey(FormattedPorts(hostPorts), key) <==> key in KeysOf(hostPorts, PortKeyText)
  {
    forall a, b | PortKeyText(a) == PortKeyText(b)
      ensures BindingOf(a) == BindingOf(b)
    {
      PortKeyTextEq(a, b);
    }
    PutEachLookup(hostPorts, PortKeyText, BindingOf, p);
    PutEachUnique(hostPorts, PortKeyText, BindingOf);
    PutEachKeys(hostPorts, PortKeyText, BindingOf, key);
  }

  /** The loop of `_format_ports`; an empty list gives the empty dict. */
  method FormatPorts(hostPorts: seq<int>) returns (ports: Dict<seq<HostBinding>>)
    ensures ports == FormattedPorts(hostPorts)
    ensures hostPorts == [] ==> ports == []
  {
    if hostPorts == [] {
      return [];
    }
    ports := [];
    var i := 0;
    while i < |hostPorts|
      invariant 0 <= i <= |hostPorts|
      invariant ports == FormattedPorts(hostPorts[..i])
    {
      var hostPort := hostPorts[i];
      ports := Put(ports, IntToString(hostPort) + "/tcp", [HostBinding("0.0.0.0", IntToString(hostPort))]);
      assert hostPorts[..i + 1][|hostPorts[..i + 1]| - 1] == hostPort;
      assert hostPorts[..i + 1][..i] == hostPorts[..i];
      i := i + 1;
    }
    assert hostPorts[..i] == hostPorts;
  }
}
