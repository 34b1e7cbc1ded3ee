/**
 * The runtime's own message, as the two framework adapters read it
 * (adapters/agentscope/message.py and adapters/ms_agent_framework/message.py),
 * and the parts of their conversion that the two adapters share word for
 * word: `_try_loads`, the backward search for a tool call's arguments or
 * output, and the grouping of converted messages by their original id.
 */
module RuntimeMessage {
  import opened Wrappers
  import opened Dicts
  import opened Strings
  import opened Json

  /** The message types the adapters tell apart. */
  datatype MessageType =
    | MessageKind
    | FunctionCall | PluginCall | McpToolCall
    | FunctionCallOutput | PluginCallOutput | McpToolCallOutput
    | Reasoning
    | OtherKind(name: string)

  predicate IsCall(t: MessageType)
  {
    t == FunctionCall || t == PluginCall || t == McpToolCall
  }

  predicate IsCallOutput(t: MessageType)
  {
    t == FunctionCallOutput || t == PluginCallOutput || t == McpToolCallOutput
  }

  /**
   * One content object: its `type` and its other attributes by name. An
   * attribute the object's class does not declare is absent from `attrs`; a
   * declared attribute holding `None` is there as `JNull`.
   */
  datatype Content = Content(ctype: Option<string>, attrs: Dict<JsonValue>)

  /**
   * A runtime message. `name` is `None` when the message has no `name`
   * attribute, so that `getattr(message, "name", message.role)` falls back to
   * the role.
   */
  datatype Message = Message(
    id: string,
    role: Option<string>,
    name: Option<string>,
    mtype: MessageType,
    content: seq<Content>,
    metadata: Option<Dict<JsonValue>>)

  /** The library functions the conversions call: `json.loads`, `json.dumps` and `str`. */
  datatype Codec = Codec(
    decode: string -> Option<JsonValue>,
    dump: JsonValue -> string,
    show: JsonValue -> string)

  /** A Python `str` that `v.strip()` leaves non-empty. */
  predicate NonBlank(v: JsonValue)
  {
    v.JStr? && Strip(v.s) != ""
  }

  /** `_try_loads(v, default, keep_original)`. */
  function TryLoads(v: JsonValue, default: JsonValue, keepOriginal: bool, decode: string -> Option<JsonValue>): (r: JsonValue)
    ensures v.JArr? || v.JObj? ==> r == v
    ensures !(v.JArr? || v.JObj? || NonBlank(v)) ==> r == default
  {
    if v.JArr? || v.JObj? then v
    else if NonBlank(v) then
      match decode(v.s)
      case Some(parsed) => parsed
      case None => if keepOriginal then v else default
    else default
  }

  /**
   * A non-blank string is parsed; when it does not parse, the string itself
   * is kept exactly when `keep_original` is set. A text produced by a dumper
   * that the parser inverts comes back as the value it encodes.
   */
  lemma TryLoadsText(text: string, default: JsonValue, keepOriginal: bool, decode: string -> Option<JsonValue>)
    requires Strip(text) != ""
    ensures decode(text).Some? ==> TryLoads(JStr(text), default, keepOriginal, decode) == decode(text).value
    ensures decode(text).None? && keepOriginal ==> TryLoads(JStr(text), default, keepOriginal, decode) == JStr(text)
    ensures decode(text).None? && !keepOriginal ==> TryLoads(JStr(text), default, keepOriginal, decode) == default
  {
  }

  /** With a dumper the parser inverts, loading a dumped value gives that value back. */
  lemma TryLoadsDumped(x: JsonValue, default: JsonValue, keepOriginal: bool, codec: Codec)
    requires forall y :: codec.decode(codec.dump(y)) == Some(y)
    requires Strip(codec.dump(x)) != ""
    ensures TryLoads(JStr(codec.dump(x)), default, keepOriginal, codec.decode) == x
  {
    TryLoadsText(codec.dump(x), default, keepOriginal, codec.decode);
  }

  /** What one content object says about a tool call's `arguments` or `output`. */
  datatype Probe =
    | Skip                 // no `data` attribute, or the field is missing, empty or of another type
    | Found(v: JsonValue)  // a dict, a list, or a non-blank string
    | Broken               // `data` is not a dict, so `data.get` raises AttributeError

  function ProbeOf(c: Content, field: string): (r: Probe)
    ensures r.Found? ==> r.v.JArr? || r.v.JObj? || NonBlank(r.v)
  {
    match Get(c.attrs, "data")
    case None => Skip
    case Some(data) =>
      if !data.JObj? then Broken
      else
        match Get(data.fields, field)
        case Some(v) => if v.JArr? || v.JObj? || NonBlank(v) then Found(v) else Skip
        case None => Skip
  }

  /** What each content says, in order. */
  function Probes(cs: seq<Content>, field: string): (r: seq<Probe>)
    ensures |r| == |cs| && forall i :: 0 <= i < |cs| ==> r[i] == ProbeOf(cs[i], field)
  {
    seq(|cs|, i requires 0 <= i < |cs| => ProbeOf(cs[i], field))
  }

  /** The loop over `reversed(message.content)` that breaks at the last usable value. */
  function LastPayload(cs: seq<Content>, field: string): Result<Option<JsonValue>>
  {
    LastProbe(Probes(cs, field))
  }

  function LastProbe(ps: seq<Probe>): Result<Option<JsonValue>>
    decreases |ps|
  {
    if ps == [] then Ok(None)
    else
      match ps[|ps| - 1]
      case Found(v) => Ok(Some(v))
      case Broken => Err("AttributeError", "'data' has no attribute 'get'")
      case Skip => LastProbe(ps[..|ps| - 1])
  }

  /** The `i`-th probe is `p` and every later one is a skip. */
  predicate LastAt(ps: seq<Probe>, i: int, p: Probe)
  {
    0 <= i < |ps| && ps[i] == p && forall j :: i < j < |ps| ==> ps[j] == Skip
  }

  /** A value found is the one of the last content that has one; only skipped contents come after it. */
  lemma {:induction false} LastProbeFound(ps: seq<Probe>)
    requires LastProbe(ps).Ok? && LastProbe(ps).value.Some?
    ensures exists i :: LastAt(ps, i, Found(LastProbe(ps).value.value))
    decreases |ps|
  {
    var init := ps[..|ps| - 1];
    if ps[|ps| - 1].Skip? {
      LastProbeFound(init);
      var i :| LastAt(init, i, Found(LastProbe(init).value.value));
      assert LastAt(ps, i, Found(LastProbe(ps).value.value));
    } else {
      assert LastAt(ps, |ps| - 1, Found(LastProbe(ps).value.value));
    }
  }

  /** Nothing is found exactly when every content is skipped. */
  lemma {:induction false} LastProbeNone(ps: seq<Probe>)
    ensures LastProbe(ps) == Ok(None) <==> forall j :: 0 <= j < |ps| ==> ps[j] == Skip
    decreases |ps|
  {
    if ps != [] {
      var init := ps[..|ps| - 1];
      LastProbeNone(init);
      assert forall j :: 0 <= j < |init| ==> init[j] == ps[j];
    }
  }

  /** The search fails only at a content whose `data` is unusable, with only skipped contents after it. */
  lemma {:induction false} LastProbeBroken(ps: seq<Probe>)
    requires LastProbe(ps).Err?
    ensures exists i :: LastAt(ps, i, Broken)
    decreases |ps|
  {
    var init := ps[..|ps| - 1];
    if ps[|ps| - 1].Skip? {
      LastProbeBroken(init);
      var i :| LastAt(init, i, Broken);
      assert LastAt(ps, i, Broken);
    } else {
      assert LastAt(ps, |ps| - 1, Broken);
    }
  }

  /** The backward loop itself. */
  method FindPayload(cs: seq<Content>, field: string) returns (r: Result<Option<JsonValue>>)
    ensures r == LastPayload(cs, field)
  {
    ghost var ps := Probes(cs, field);
    var i := |cs|;
    assert ps[..i] == ps;
    while i > 0
      invariant 0 <= i <= |cs|
      invariant LastProbe(ps) == LastProbe(ps[..i])
    {
      assert ps[..i][..i - 1] == ps[..i - 1];
      var probe := ProbeOf(cs[i - 1], field);
      if probe.Found? {
        return Ok(Some(probe.v));
      } else if probe.Broken? {
        return Err("AttributeError", "'data' has no attribute 'get'");
      }
      i := i - 1;
    }
    return Ok(None);
  }

  /** `message.content[0].data["call_id"]` and `.get("name")`, with the exceptions they raise. */
  function CallIdAndName(cs: seq<Content>): (r: Result<(JsonValue, JsonValue)>)
    ensures r.Ok? ==> cs != [] && Get(cs[0].attrs, "data").Some? && Get(cs[0].attrs, "data").value.JObj?
    ensures r.Ok? ==> Some(r.value.0) == Get(Get(cs[0].attrs, "data").value.fields, "call_id")
    ensures r.Ok? ==> r.value.1 == Get(Get(cs[0].attrs, "data").value.fields, "name").GetOr(JNull)
  {
    if cs == [] then Err("IndexError", "list index out of range")
    else
      match Get(cs[0].attrs, "data")
      case None => Err("AttributeError", "content has no attribute 'data'")
      case Some(data) =>
        if !data.JObj? then Err("TypeError", "'data' is not subscriptable")
        else
          match Get(data.fields, "call_id")
          case None => Err("KeyError", "call_id")
          case Some(id) => Ok((id, Get(data.fields, "name").GetOr(JNull)))
  }

  /** `message.content[0].text` for a reasoning message. */
  function FirstText(cs: seq<Content>): (r: Result<JsonValue>)
    ensures r.Ok? <==> cs != [] && HasKey(cs[0].attrs, "text")
    ensures r.Ok? ==> Get(cs[0].attrs, "text") == Some(r.value)
  {
    if cs == [] then Err("IndexError", "list index out of range")
    else
      match Get(cs[0].attrs, "text")
      case None => Err("AttributeError", "content has no attribute 'text'")
      case Some(t) => Ok(t)
  }

  /** `tool_args`: the loaded arguments, `{}` when none were found or they load as `None`. */
  function ToolArgs(found: Option<JsonValue>, codec: Codec): (r: JsonValue)
    ensures r != JNull
    ensures found.None? ==> r == JObj([])
    ensures found.Some? && (found.value.JArr? || found.value.JObj?) ==> r == found.value
  {
    if found.None? then JObj([])
    else
      var loaded := TryLoads(found.value, JObj([]), false, codec.decode);
      if loaded == JNull then JObj([]) else loaded
  }

  /** The name the message carries: `original_name` from the metadata, else its name, else its role. */
  function MsgName(m: Message): (r: JsonValue)
    ensures m.metadata.Some? && HasKey(m.metadata.value, "original_name") ==> Some(r) == Get(m.metadata.value, "original_name")
  {
    var own := if m.name.Some? then JStr(m.name.value) else if m.role.Some? then JStr(m.role.value) else JNull;
    match m.metadata
    case Some(meta) => Get(meta, "original_name").GetOr(own)
    case None => own
  }

  /** `result["metadata"]`, set only from the metadata's own "metadata" entry. */
  function MsgMetadata(m: Message): (r: Option<JsonValue>)
    ensures r.Some? <==> m.metadata.Some? && HasKey(m.metadata.value, "metadata")
  {
    match m.metadata
    case Some(meta) => Get(meta, "metadata")
    case None => None
  }

  /** What a top-level conversion is given: one message, a list, or anything else. */
  datatype Input = OneMessage(m: Message) | MessageList(ms: seq<Message>) | NotAMessage

  /** A list built element by element, stopping at the first element that raises. */
  function Collect<T>(rs: seq<Result<T>>): Result<seq<T>>
    decreases |rs|
  {
    if rs == [] then Ok([])
    else
      match Collect(rs[..|rs| - 1])
      case Err(kind, message) => Err(kind, message)
      case Ok(vs) =>
        match rs[|rs| - 1]
        case Err(kind, message) => Err(kind, message)
        case Ok(v) => Ok(vs + [v])
  }

  /** The list is built exactly when no element raises, and then holds every element's value in order. */
  lemma {:induction false} CollectOk<T>(rs: seq<Result<T>>)
    ensures Collect(rs).Ok? <==> forall i :: 0 <= i < |rs| ==> rs[i].Ok?
    ensures Collect(rs).Ok? ==> |Collect(rs).value| == |rs| && forall i :: 0 <= i < |rs| ==> Collect(rs).value[i] == rs[i].value
    decreases |rs|
  {
    if rs != [] {
      var init := rs[..|rs| - 1];
      CollectOk(init);
      assert forall i :: 0 <= i < |init| ==> init[i] == rs[i];
    }
  }

  /** `[f(x) for x in xs]`. */
  function Map<X, T>(xs: seq<X>, f: X -> T): (r: seq<T>)
    ensures |r| == |xs| && forall i :: 0 <= i < |xs| ==> r[i] == f(xs[i])
  {
    seq(|xs|, i requires 0 <= i < |xs| => f(xs[i]))
  }

  /** `rs[i]` is the first element that raises. */
  predicate FirstErr<T>(rs: seq<Result<T>>, i: int)
  {
    0 <= i < |rs| && rs[i].Err? && forall j :: 0 <= j < i ==> rs[j].Ok?
  }

  /** Once the elements before `i` succeed, the error of element `i` is the error of the whole. */
  lemma {:induction false} CollectFirstErr<T>(rs: seq<Result<T>>, i: int)
    requires FirstErr(rs, i)
    ensures Collect(rs) == Err(rs[i].kind, rs[i].message)
    decreases |rs|
  {
    var init := rs[..|rs| - 1];
    if i < |rs| - 1 {
      assert FirstErr(init, i);
      CollectFirstErr(init, i);
    } else {
      CollectOk(init);
    }
  }

  /** A failing list fails with the error of its first failing element. */
  lemma {:induction false} CollectErr<T>(rs: seq<Result<T>>)
    requires Collect(rs).Err?
    ensures exists i :: FirstErr(rs, i) && Collect(rs) == Err(rs[i].kind, rs[i].message)
    decreases |rs|
  {
    var init := rs[..|rs| - 1];
    if Collect(init).Err? {
      CollectErr(init);
      var i :| FirstErr(init, i) && Collect(init) == Err(init[i].kind, init[i].message);
      assert FirstErr(rs, i);
    } else {
      CollectOk(init);
      assert FirstErr(rs, |rs| - 1);
    }
  }

  /** The loop that applies `f` to each element in turn and returns at the first one that raises. */
  method CollectEach<X, T>(xs: seq<X>, f: X -> Result<T>) returns (r: Result<seq<T>>)
    ensures r == Collect(Map(xs, f))
  {
    ghost var rs := Map(xs, f);
    var vs: seq<T> := [];
    var i := 0;
    while i < |xs|
      invariant 0 <= i <= |xs|
      invariant Collect(rs[..i]) == Ok(vs)
    {
      assert rs[..i + 1][..i] == rs[..i];
      var v := f(xs[i]);
      if v.Err? {
        assert FirstErr(rs, i) by { CollectOk(rs[..i]); }
        CollectFirstErr(rs, i);
        return Err(v.kind, v.message);
      }
      vs := vs + [v.value];
      i := i + 1;
    }
    assert rs[..i] == rs;
    return Ok(vs);
  }

  /** The same loop where an element may also contribute nothing: only present values are appended. */
  method CollectPresent<X, T>(xs: seq<X>, f: X -> Result<Option<T>>) returns (r: Result<seq<T>>)
    ensures Collect(Map(xs, f)).Err? ==> r == Err(Collect(Map(xs, f)).kind, Collect(Map(xs, f)).message)
    ensures Collect(Map(xs, f)).Ok? ==> r == Ok(Somes(Collect(Map(xs, f)).value))
  {
    ghost var rs := Map(xs, f);
    var vs: seq<T> := [];
    var i := 0;
    while i < |xs|
      invariant 0 <= i <= |xs|
      invariant Collect(rs[..i]).Ok? && vs == Somes(Collect(rs[..i]).value)
    {
      assert rs[..i + 1][..i] == rs[..i];
      var v := f(xs[i]);
      if v.Err? {
        assert FirstErr(rs, i) by { CollectOk(rs[..i]); }
        CollectFirstErr(rs, i);
        return Err(v.kind, v.message);
      }
      assert Collect(rs[..i + 1]).value == Collect(rs[..i]).value + [v.value];
      if v.value.Some? {
        vs := vs + [v.value.value];
      }
      i := i + 1;
    }
    assert rs[..i] == rs;
    return Ok(vs);
  }

  /**
   * The key a converted message is grouped under: `metadata.get("original_id",
   * converted_id)` when the metadata is a non-empty dict, else the message's
   * own id.
   */
  function GroupKey(m: Message, convertedId: JsonValue): JsonValue
  {
    match m.metadata
    case Some(meta) => if meta != [] then Get(meta, "original_id").GetOr(convertedId) else JStr(m.id)
    case None => JStr(m.id)
  }

  /** The id a conversion gives a message: `original_id` from a dict metadata, else its own id. */
  function ConvertedId(m: Message): (r: JsonValue)
    ensures m.metadata.Some? && HasKey(m.metadata.value, "original_id") ==> Some(r) == Get(m.metadata.value, "original_id")
    ensures !(m.metadata.Some? && HasKey(m.metadata.value, "original_id")) ==> r == JStr(m.id)
  {
    match m.metadata
    case Some(meta) => Get(meta, "original_id").GetOr(JStr(m.id))
    case None => JStr(m.id)
  }

  /** The grouping key is always the converted id, whichever branch computes it. */
  lemma GroupKeyIsConvertedId(m: Message)
    ensures GroupKey(m, ConvertedId(m)) == ConvertedId(m)
  {
    if m.metadata.Some? && m.metadata.value == [] {
      assert !HasKey(m.metadata.value, "original_id");
    }
  }

  /** Python refuses lists and dicts as dict keys. */
  predicate Hashable(k: JsonValue)
  {
    !k.JArr? && !k.JObj?
  }

  /** One entry of the `grouped` OrderedDict: its key, the first message's other fields, and the contents so far. */
  datatype Group<K, H, C> = Group(key: K, head: H, items: seq<C>)

  function GroupIndex<K(==), H, C>(gs: seq<Group<K, H, C>>, k: K): (r: Option<nat>)
    ensures r.Some? ==> r.value < |gs| && gs[r.value].key == k
    ensures r.None? ==> forall i :: 0 <= i < |gs| ==> gs[i].key != k
    decreases |gs|
  {
    if gs == [] then None
    else if gs[|gs| - 1].key == k then Some(|gs| - 1)
    else GroupIndex(gs[..|gs| - 1], k)
  }

  /** The grouping loop: a new key opens a group, a known key extends its group's contents. */
  function Grouped<K(==), H, C>(entries: seq<(K, H, seq<C>)>): seq<Group<K, H, C>>
    decreases |entries|
  {
    if entries == [] then []
    else
      var prev := Grouped(entries[..|entries| - 1]);
      var e := entries[|entries| - 1];
      match GroupIndex(prev, e.0)
      case Some(i) => prev[i := prev[i].(items := prev[i].items + e.2)]
      case None => prev + [Group(e.0, e.1, e.2)]
  }

  function GroupKeys<K, H, C>(gs: seq<Group<K, H, C>>): (r: seq<K>)
    ensures |r| == |gs| && forall i :: 0 <= i < |gs| ==> r[i] == gs[i].key
  {
    if gs == [] then [] else GroupKeys(gs[..|gs| - 1]) + [gs[|gs| - 1].key]
  }

  function EntryKeys<K, H, C>(entries: seq<(K, H, seq<C>)>): (r: seq<K>)
    ensures |r| == |entries| && forall i :: 0 <= i < |entries| ==> r[i] == entries[i].0
  {
    if entries == [] then [] else EntryKeys(entries[..|entries| - 1]) + [entries[|entries| - 1].0]
  }

  /** The keys in order of first appearance. */
  function FirstAppearances<K(==)>(ks: seq<K>): seq<K>
    decreases |ks|
  {
    if ks == [] then []
    else
      var prev := FirstAppearances(ks[..|ks| - 1]);
      if ks[|ks| - 1] in prev then prev else prev + [ks[|ks| - 1]]
  }

  /** Everything filed under `k`, in input order. */
  function ItemsOf<K(==), H, C>(entries: seq<(K, H, seq<C>)>, k: K): seq<C>
    decreases |entries|
  {
    if entries == [] then []
    else
      var e := entries[|entries| - 1];
      ItemsOf(entries[..|entries| - 1], k) + (if e.0 == k then e.2 else [])
  }

  /** The fields of the first entry filed under `k`. */
  function FirstHead<K(==), H, C>(entries: seq<(K, H, seq<C>)>, k: K): Option<H>
    decreases |entries|
  {
    if entries == [] then None
    else
      var prev := FirstHead(entries[..|entries| - 1], k);
      if prev.Some? then prev
      else if entries[|entries| - 1].0 == k then Some(entries[|entries| - 1].1) else None
  }

  lemma {:induction false} FirstAppearancesMembers<K>(ks: seq<K>, k: K)
    ensures k in FirstAppearances(ks) <==> k in ks
    decreases |ks|
  {
    if ks != [] {
      FirstAppearancesMembers(ks[..|ks| - 1], k);
      assert ks == ks[..|ks| - 1] + [ks[|ks| - 1]];
    }
  }

  /** A key no entry carries has no contents and no first entry. */
  lemma {:induction false} AbsentKey<K, H, C>(entries: seq<(K, H, seq<C>)>, k: K)
    requires k !in EntryKeys(entries)
    ensures ItemsOf(entries, k) == [] && FirstHead(entries, k).None?
    decreases |entries|
  {
    if entries != [] {
      var init := entries[..|entries| - 1];
      assert EntryKeys(entries) == EntryKeys(init) + [entries[|entries| - 1].0];
      AbsentKey(init, k);
    }
  }

  /** The groups come in order of each key's first appearance, each key once. */
  lemma {:induction false} GroupedKeys<K, H, C>(entries: seq<(K, H, seq<C>)>)
    ensures GroupKeys(Grouped(entries)) == FirstAppearances(EntryKeys(entries))
    decreases |entries|
  {
    if entries != [] {
      var init := entries[..|entries| - 1];
      var e := entries[|entries| - 1];
      GroupedKeys(init);
      var prev := Grouped(init);
      assert EntryKeys(entries)[..|entries| - 1] == EntryKeys(init);
      match GroupIndex(prev, e.0)
      case Some(i) =>
        assert GroupKeys(prev)[i] == e.0;
        assert GroupKeys(Grouped(entries)) == GroupKeys(prev);
      case None =>
        assert e.0 !in GroupKeys(prev);
        assert GroupKeys(Grouped(entries)) == GroupKeys(prev) + [e.0];
    }
  }

  /** Distinct keys: no key is grouped twice. */
  lemma {:induction false} GroupKeysDistinct<K, H, C>(entries: seq<(K, H, seq<C>)>)
    ensures forall i, j :: 0 <= i < j < |Grouped(entries)| ==> Grouped(entries)[i].key != Grouped(entries)[j].key
    decreases |entries|
  {
    if entries != [] {
      GroupKeysDistinct(entries[..|entries| - 1]);
    }
  }

  /**
   * Each group holds the fields of the first entry with its key and the
   * contents of every entry with its key, concatenated in input order.
   */
  lemma {:induction false} GroupedContents<K, H, C>(entries: seq<(K, H, seq<C>)>)
    ensures forall i :: 0 <= i < |Grouped(entries)| ==>
      && Grouped(entries)[i].items == ItemsOf(entries, Grouped(entries)[i].key)
      && FirstHead(entries, Grouped(entries)[i].key) == Some(Grouped(entries)[i].head)
    decreases |entries|
  {
    if entries != [] {
      var init := entries[..|entries| - 1];
      var e := entries[|entries| - 1];
      GroupedContents(init);
      GroupKeysDistinct(init);
      var prev := Grouped(init);
      var g := Grouped(entries);
      match GroupIndex(prev, e.0)
      case Some(i) =>
        forall j | 0 <= j < |g|
          ensures g[j].items == ItemsOf(entries, g[j].key) && FirstHead(entries, g[j].key) == Some(g[j].head)
        {
          if j != i {
            assert prev[j].key != e.0;
          }
        }
      case None =>
        GroupedKeys(init);
        FirstAppearancesMembers(EntryKeys(init), e.0);
        assert e.0 !in GroupKeys(prev);
        AbsentKey(init, e.0);
    }
  }

  /** The grouping loop over the converted messages, with the OrderedDict as a sequence of groups. */
  method GroupEntries<K(==), H, C>(entries: seq<(K, H, seq<C>)>) returns (grouped: seq<Group<K, H, C>>)
    ensures grouped == Grouped(entries)
  {
    grouped := [];
    var i := 0;
    while i < |entries|
      invariant 0 <= i <= |entries|
      invariant grouped == Grouped(entries[..i])
    {
      assert entries[..i + 1][..i] == entries[..i];
      var (k, head, items) := entries[i];
      match GroupIndex(grouped, k) {
        case Some(j) =>
          grouped := grouped[j := grouped[j].(items := grouped[j].items + items)];
        case None =>
          grouped := grouped + [Group(k, head, items)];
      }
      i := i + 1;
    }
    assert entries[..i] == entries;
  }
}
