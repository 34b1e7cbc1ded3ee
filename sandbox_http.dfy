/**
 * The shared base of the sandbox HTTP clients (sandbox/client/base.py): the
 * client's base URL, its timeouts, the session headers it sends to the
 * container, and the two generic tools every sandbox offers. The base URL is
 * the container URL with "localhost" replaced by the domain, resolved
 * against "fastapi" by Python's `urllib.parse.urljoin`, modelled here for
 * that one relative reference.
 */
module SandboxHttp {
  import opened Wrappers
  import opened Strings
  import opened Dicts
  import opened Json
  import opened Container
  import opened OssUri

  const DefaultTimeout := 60

  /** The relative reference every base URL is resolved against. */
  const Relative := "fastapi"

  /** `urllib.parse.uses_relative`: the schemes `urljoin` resolves within. */
  predicate RelativeScheme(s: string)
  {
    s in {"", "ftp", "http", "gopher", "nntp", "imap", "wais", "file", "https", "shttp", "mms", "prospero",
          "rtsp", "rtsps", "rtspu", "sftp", "svn", "svn+ssh", "ws", "wss"}
  }

  /** `urllib.parse.uses_netloc`. */
  predicate NetlocScheme(s: string)
  {
    s in {"", "ftp", "http", "gopher", "nntp", "telnet", "imap", "wais", "file", "mms", "https", "shttp", "snews",
          "prospero", "rtsp", "rtsps", "rtspu", "rsync", "svn", "svn+ssh", "sftp", "nfs", "git", "git+ssh", "ws",
          "wss", "itms-services"}
  }

  /** `urllib.parse.uses_params`: the schemes whose last path segment loses its `;params`. */
  predicate ParamsScheme(s: string)
  {
    s in {"", "ftp", "hdl", "prospero", "http", "imap", "https", "shttp", "rtsp", "rtsps", "rtspu", "sip", "sips",
          "mms", "sftp", "tel"}
  }

  /** `_splitparams`: the path without the `;…` part of its last segment. */
  function WithoutParams(path: string): (r: string)
    ensures !HasChar(path, ';') ==> r == path
  {
    var last := AfterLast(path, '/');
    assert path == path[..|path| - |last|] + last;
    path[..|path| - |last|] + Before(last, ';')
  }

  /** The path `urlparse` gives for the text after the network location. */
  function BasePath(scheme: string, rest: string): (r: string)
    ensures !HasChar(PathOf(rest), ';') ==> r == PathOf(rest)
  {
    if ParamsScheme(scheme) then WithoutParams(PathOf(rest)) else PathOf(rest)
  }

  /** `filter(None, xs)`: the non-empty strings, in order. */
  function NonEmpty(xs: seq<string>): (r: seq<string>)
    ensures forall k :: 0 <= k < |r| ==> r[k] != ""
    ensures |r| <= |xs|
  {
    if xs == [] then []
    else (if xs[0] == "" then [] else [xs[0]]) + NonEmpty(xs[1..])
  }

  /**
   * The segments of the merged path: the base path's segments without its
   * last one (unless that is empty, as after a trailing `/`), then the
   * relative reference, with the empty segments in between dropped.
   */
  function MergedSegments(parts: seq<string>): (r: seq<string>)
    requires parts != []
    ensures |r| >= 2 || r == [Relative]
    ensures r[|r| - 1] == Relative
  {
    var dir := if parts[|parts| - 1] != "" then parts[..|parts| - 1] else parts;
    var segs := dir + [Relative];
    if |segs| <= 2 then segs
    else [segs[0]] + NonEmpty(segs[1..|segs| - 1]) + [Relative]
  }

  /** Dot-segment removal: `..` drops the segment before it (if any), `.` is dropped. */
  function ResolveDots(segs: seq<string>, acc: seq<string>): (r: seq<string>)
    ensures segs != [] && segs[|segs| - 1] !in {".", ".."} ==> r != [] && r[|r| - 1] == segs[|segs| - 1]
    decreases |segs|
  {
    if segs == [] then acc
    else if segs[0] == ".." then ResolveDots(segs[1..], if acc == [] then [] else acc[..|acc| - 1])
    else if segs[0] == "." then ResolveDots(segs[1..], acc)
    else ResolveDots(segs[1..], acc + [segs[0]])
  }

  /** The path the reference resolves to within a base path. */
  function ResolvedPath(bpath: string): string
  {
    Join(ResolveDots(MergedSegments(Split(bpath, '/')), []), "/")
  }

  /** `urlunsplit((scheme, netloc, path, "", ""))`. */
  function Unsplit(scheme: string, netloc: string, path: string): string
  {
    var url :=
      if netloc != "" then "//" + netloc + (if path != "" && path[0] != '/' then "/" + path else path)
      else if StartsWith(path, "//") then "//" + path
      else if scheme != "" && NetlocScheme(scheme) && (path == "" || path[0] == '/') then "//" + path
      else path;
    if scheme != "" then scheme + ":" + url else url
  }

  /**
   * `urljoin(base, "fastapi")`. An empty base, or one whose scheme `urljoin`
   * does not resolve within, gives the reference itself; a network location
   * with an unmatched bracket is a `ValueError`; otherwise the scheme and
   * network location are kept and the reference replaces the last path
   * segment. The base's query and fragment are dropped.
   */
  function UrlJoin(base: string): (r: Result<string>)
    ensures base == "" ==> r == Ok(Relative)
    ensures r.Err? <==> base != "" && BracketsMismatched(SplitNetloc(SplitScheme(base).1).0)
    ensures r.Err? ==> r.kind == "ValueError"
    ensures r.Ok? && r.value != Relative ==> StartsWith(r.value, SplitScheme(base).0)
  {
    if base == "" then Ok(Relative)
    else
      var (scheme, rest) := SplitScheme(base);
      var (netloc, tail) := SplitNetloc(rest);
      if BracketsMismatched(netloc) then Err("ValueError", "Invalid IPv6 URL")
      else if !RelativeScheme(scheme) then Ok(Relative)
      else
        var u := Unsplit(scheme, netloc, ResolvedPath(BasePath(scheme, tail)));
        assert scheme != "" ==> u[..|scheme|] == scheme;
        Ok(u)
  }

  /** `self.base_url`. */
  function BaseUrl(url: string, domain: string): Result<string>
  {
    UrlJoin(ReplaceAll(url, "localhost", domain))
  }

  /** The text after `http://` when it holds the network location up to its end. */
  lemma HttpSplit(netloc: string, tail: string)
    requires !HasChar(netloc, '/') && !HasChar(netloc, '?') && !HasChar(netloc, '#')
    requires tail == "" || tail[0] == '/'
    ensures SplitScheme("http://" + netloc + tail) == ("http", "//" + netloc + tail)
    ensures SplitNetloc("//" + netloc + tail) == (netloc, tail)
  {
    HttpScheme("//" + netloc + tail);
    assert "http://" + netloc + tail == "http:" + ("//" + netloc + tail);
    NetlocUpTo(netloc, tail);
  }

  lemma HttpScheme(rest: string)
    ensures SplitScheme("http:" + rest) == ("http", rest)
  {
    var s := "http:" + rest;
    assert s == "http" + [':'] + rest;
    IndexOfAfter("http", ':', rest);
    assert s[..4] == "http" && s[5..] == rest;
    assert forall k :: 0 <= k < 4 ==> SchemeChar(s[k]);
    LowerUnchanged("http");
  }

  lemma NetlocUpTo(netloc: string, tail: string)
    requires !HasChar(netloc, '/') && !HasChar(netloc, '?') && !HasChar(netloc, '#')
    requires tail == "" || tail[0] == '/'
    ensures SplitNetloc("//" + netloc + tail) == (netloc, tail)
  {
    var rest := "//" + netloc + tail;
    assert rest[..2] == "//" && rest[2..] == netloc + tail;
    var d := FirstIn(netloc + tail, {'/', '?', '#'});
    assert d == |netloc| by {
      forall k | 0 <= k < |netloc| ensures (netloc + tail)[k] !in {'/', '?', '#'} {
        assert (netloc + tail)[k] == netloc[k];
      }
      if tail != [] {
        assert (netloc + tail)[|netloc|] == '/';
        FirstInAt(netloc + tail, {'/', '?', '#'}, |netloc|);
      } else {
        assert netloc + tail == netloc;
      }
    }
    assert (netloc + tail)[..d] == netloc && (netloc + tail)[d..] == tail;
  }

  /** A network location a URL keeps intact: non-empty, with no delimiter and no bracket. */
  predicate PlainNetloc(netloc: string)
  {
    netloc != [] && !HasChar(netloc, '/') && !HasChar(netloc, '?') && !HasChar(netloc, '#')
    && !HasChar(netloc, '[') && !HasChar(netloc, ']')
  }

  /** An `http` base whose path resolves to an absolute path keeps its network location in front of that path. */
  lemma FastapiPath(netloc: string, bpath: string)
    requires PlainNetloc(netloc) && (bpath == "" || bpath[0] == '/')
    requires !HasChar(bpath, '?') && !HasChar(bpath, '#') && !HasChar(bpath, ';')
    requires StartsWith(ResolvedPath(bpath), "/")
    ensures UrlJoin("http://" + netloc + bpath) == Ok("http://" + netloc + ResolvedPath(bpath))
  {
    HttpSplit(netloc, bpath);
    assert RelativeScheme("http");
    FirstInAt(bpath, {'?', '#'}, |bpath|);
    assert PathOf(bpath) == bpath;
    assert BasePath("http", bpath) == bpath;
    assert !BracketsMismatched(netloc);
    UnsplitHttp(netloc, ResolvedPath(bpath));
  }

  lemma UnsplitHttp(netloc: string, path: string)
    requires netloc != "" && StartsWith(path, "/")
    ensures Unsplit("http", netloc, path) == "http://" + netloc + path
  {
    assert path[0] == '/';
    assert Unsplit("http", netloc, path) == "http:" + ("//" + netloc + path);
  }

  /** A sequence of two or three segments joined by `/`. */
  lemma JoinPath(a: string, b: string, c: string)
    ensures Join([a, b], "/") == a + "/" + b
    ensures Join([a, b, c], "/") == a + "/" + b + "/" + c
  {
    JoinCons([a, b], "/");
    JoinCons([a, b, c], "/");
    assert [a, b, c][1..] == [b, c];
    JoinCons([b, c], "/");
  }

  /** A segment other than `.` and `..` is kept. */
  lemma ResolveKeeps(seg: string, rest: seq<string>, acc: seq<string>)
    requires seg != "." && seg != ".."
    ensures ResolveDots([seg] + rest, acc) == ResolveDots(rest, acc + [seg])
  {
    assert ([seg] + rest)[1..] == rest;
  }

  lemma RelativeIsPlain()
    ensures Relative != "." && Relative != ".." && Relative != ""
  {
    assert |Relative| == 7;
  }

  /** The segments `["", "fastapi"]` resolve to `/fastapi`. */
  lemma RootResolved(bpath: string)
    requires MergedSegments(Split(bpath, '/')) == ["", Relative]
    ensures ResolvedPath(bpath) == "/fastapi"
  {
    RelativeIsPlain();
    ResolveKeeps("", [Relative], []);
    ResolveKeeps(Relative, [], [""]);
    JoinPath("", Relative, "");
  }

  lemma EmptyPathMerged()
    ensures MergedSegments(Split("", '/')) == ["", Relative]
  {
    assert Split("", '/') == [""];
  }

  lemma SlashPathMerged()
    ensures MergedSegments(Split("/", '/')) == ["", Relative]
  {
    assert "/" == "" + ['/'] + "";
    SplitAt("", '/', "");
    assert Split("", '/') == [""];
    assert Split("/", '/') == ["", ""];
  }

  /** A host and port with no path: the client's URL is the host's `/fastapi`. */
  lemma HostOnly(netloc: string)
    requires PlainNetloc(netloc)
    ensures UrlJoin("http://" + netloc) == Ok("http://" + netloc + "/fastapi")
  {
    EmptyPathMerged();
    RootResolved("");
    FastapiPath(netloc, "");
    assert "http://" + netloc + "" == "http://" + netloc;
  }

  /** A trailing `/` changes nothing either. */
  lemma HostWithSlash(netloc: string)
    requires PlainNetloc(netloc)
    ensures UrlJoin("http://" + netloc + "/") == Ok("http://" + netloc + "/fastapi")
  {
    SlashPathMerged();
    RootResolved("/");
    FastapiPath(netloc, "/");
  }

  /** A segment that `urljoin` neither splits nor resolves. */
  predicate PlainSegment(seg: string)
  {
    seg != "" && seg != "." && seg != ".." && !HasChar(seg, '/') && !HasChar(seg, ';')
    && !HasChar(seg, '?') && !HasChar(seg, '#')
  }

  lemma LastSegmentMerged(seg: string)
    requires PlainSegment(seg)
    ensures MergedSegments(Split("/" + seg, '/')) == ["", Relative]
  {
    assert "/" + seg == "" + ['/'] + seg;
    SplitAt("", '/', seg);
    assert Split("", '/') == [""];
    assert Split(seg, '/') == [seg];
  }

  /** `/` and a plain segment hold none of `?`, `#` and `;`. */
  lemma SlashSegmentPlain(seg: string, after: string)
    requires PlainSegment(seg) && (after == "" || after == "/")
    ensures var p := "/" + seg + after; !HasChar(p, '?') && !HasChar(p, '#') && !HasChar(p, ';') && p[0] == '/'
  {
    var p := "/" + seg + after;
    forall k | 0 <= k < |p| ensures p[k] !in {'?', '#', ';'} {
      if 0 < k <= |seg| { assert p[k] == seg[k - 1]; }
    }
  }

  /** The last path segment, when not followed by `/`, is replaced by the reference. */
  lemma LastSegmentReplaced(netloc: string, seg: string)
    requires PlainNetloc(netloc) && PlainSegment(seg)
    ensures UrlJoin("http://" + netloc + ("/" + seg)) == Ok("http://" + netloc + "/fastapi")
  {
    var bpath := "/" + seg;
    SlashSegmentPlain(seg, "");
    assert bpath + "" == bpath;
    LastSegmentMerged(seg);
    RootResolved(bpath);
    FastapiPath(netloc, bpath);
  }

  lemma DirectorySplit(seg: string)
    requires !HasChar(seg, '/')
    ensures Split("/" + seg + "/", '/') == ["", seg, ""]
  {
    assert "/" + seg + "/" == "" + ['/'] + (seg + "/");
    SplitAt("", '/', seg + "/");
    assert seg + "/" == seg + ['/'] + "";
    SplitAt(seg, '/', "");
    assert Split("", '/') == [""];
  }

  lemma NonEmptyOne(seg: string)
    requires seg != ""
    ensures NonEmpty([seg, ""]) == [seg]
  {
    assert NonEmpty([""]) == [];
    assert [seg, ""][1..] == [""];
  }

  lemma DirectoryMerged(seg: string)
    requires seg != ""
    ensures MergedSegments(["", seg, ""]) == ["", seg, Relative]
  {
    var parts := ["", seg, ""];
    NonEmptyOne(seg);
    var segs := parts + [Relative];
    assert segs == ["", seg, "", Relative];
    assert segs[1..|segs| - 1] == [seg, ""];
  }

  /** Three segments, none of them a dot segment, are all kept. */
  lemma ResolveThree(a: string, b: string, c: string)
    requires a !in {".", ".."} && b !in {".", ".."} && c !in {".", ".."}
    ensures ResolveDots([a, b, c], []) == [a, b, c]
  {
    ResolveKeeps(a, [b, c], []);
    assert [a] + [b, c] == [a, b, c] && [] + [a] == [a];
    ResolveKeeps(b, [c], [a]);
    assert [b] + [c] == [b, c] && [a] + [b] == [a, b];
    ResolveKeeps(c, [], [a, b]);
    assert [c] + [] == [c] && [a, b] + [c] == [a, b, c];
  }

  lemma DirectoryResolved(seg: string)
    requires PlainSegment(seg)
    ensures ResolvedPath("/" + seg + "/") == "/" + seg + "/fastapi"
  {
    DirectorySplit(seg);
    DirectoryMerged(seg);
    RelativeIsPlain();
    ResolveThree("", seg, Relative);
    JoinPath("", seg, Relative);
    assert "" + "/" + seg + "/" + Relative == "/" + seg + "/fastapi";
  }

  /** A path that ends in `/` is a directory the reference is resolved inside. */
  lemma DirectoryKept(netloc: string, seg: string)
    requires PlainNetloc(netloc) && PlainSegment(seg)
    ensures UrlJoin("http://" + netloc + ("/" + seg + "/")) == Ok("http://" + netloc + ("/" + seg + "/fastapi"))
  {
    var bpath := "/" + seg + "/";
    SlashSegmentPlain(seg, "/");
    DirectoryResolved(seg);
    var path := "/" + seg + "/fastapi";
    assert path[..1] == "/";
    FastapiPath(netloc, bpath);
  }

  /**
   * A URL without `//` whose text before the first `:` is a scheme name,
   * as in "localhost:8000", has that name as its scheme; when `urljoin` does
   * not resolve within it, the base URL is the bare reference.
   */
  lemma SchemelessHostPort(host: string, port: string)
    requires host != "" && IsAsciiAlpha(host[0]) && forall k :: 0 <= k < |host| ==> SchemeChar(host[k])
    requires forall k :: 0 <= k < |port| ==> IsDigit(port[k])
    requires !RelativeScheme(Lower(host))
    ensures UrlJoin(host + ":" + port) == Ok(Relative)
  {
    HostPortSplit(host, port);
  }

  lemma HostPortSplit(host: string, port: string)
    requires host != "" && IsAsciiAlpha(host[0]) && forall k :: 0 <= k < |host| ==> SchemeChar(host[k])
    requires forall k :: 0 <= k < |port| ==> IsDigit(port[k])
    ensures host + ":" + port != ""
    ensures SplitScheme(host + ":" + port) == (Lower(host), port)
    ensures SplitNetloc(port) == ("", port)
  {
    var s := host + ":" + port;
    ColonAfterHost(host, port);
    assert forall k :: 0 <= k < |host| ==> s[k] == host[k];
    assert !StartsWith(port, "//") by {
      if |port| >= 2 { assert IsDigit(port[0]); assert port[..2][0] == port[0]; }
    }
  }

  lemma ColonAfterHost(host: string, port: string)
    requires forall k :: 0 <= k < |host| ==> SchemeChar(host[k])
    ensures var s := host + ":" + port; IndexOf(s, ':') == Some(|host|) && s[..|host|] == host && s[|host| + 1..] == port
  {
    assert !HasChar(host, ':') by {
      forall k | 0 <= k < |host| ensures host[k] != ':' { assert SchemeChar(host[k]); }
    }
    var s := host + ":" + port;
    assert s == host + [':'] + port;
    IndexOfAfter(host, ':', port);
    assert s[..|host|] == host && s[|host| + 1..] == port;
  }

  /** `str.replace` on a `http://localhost:<port>` URL. */
  lemma ReplaceLocalhost(port: string, domain: string)
    requires forall k :: 0 <= k < |port| ==> IsDigit(port[k])
    ensures ReplaceAll("http://localhost:" + port, "localhost", domain) == "http://" + (domain + ":" + port)
  {
    var tail := ":" + port;
    assert !HasChar(tail, 'l') by {
      forall k | 0 <= k < |tail| ensures tail[k] != 'l' { if k > 0 { assert tail[k] == port[k - 1]; } }
    }
    NoFirstCharNoContains(tail, "localhost");
    ReplaceAllHit(tail, "localhost", domain);
    ReplaceAllSkip("http://", "localhost" + tail, "localhost", domain);
    assert "http://localhost:" + port == "http://" + ("localhost" + tail);
    assert domain + tail == domain + ":" + port;
  }

  /** The container URL on "localhost" points at the domain instead. */
  lemma LocalhostReplaced(port: string, domain: string)
    requires forall k :: 0 <= k < |port| ==> IsDigit(port[k])
    requires PlainNetloc(domain + ":")
    ensures BaseUrl("http://localhost:" + port, domain) == Ok("http://" + (domain + ":" + port) + "/fastapi")
  {
    ReplaceLocalhost(port, domain);
    var netloc := domain + ":" + port;
    assert PlainNetloc(netloc) by {
      forall k | 0 <= k < |netloc| ensures netloc[k] !in {'/', '?', '#', '[', ']'} {
        if k < |domain| + 1 { assert netloc[k] == (domain + ":")[k]; } else { assert netloc[k] == port[k - |domain| - 1]; }
      }
    }
    HostOnly(netloc);
  }

  /** `model.timeout or DEFAULT_TIMEOUT`. */
  function TimeoutFor(timeout: Option<int>): (t: int)
    ensures TruthyInt(timeout) ==> t == timeout.value
    ensures !TruthyInt(timeout) ==> t == DefaultTimeout
    ensures t != 0
  {
    if TruthyInt(timeout) then timeout.value else DefaultTimeout
  }

  lemma HeaderKeysDistinct()
    ensures "Content-Type" != "x-agentrun-session-id" && "Content-Type" != "x-agentscope-runtime-session-id"
    ensures "x-agentrun-session-id" != "x-agentscope-runtime-session-id"
    ensures "Authorization" !in ["Content-Type", "x-agentrun-session-id", "x-agentscope-runtime-session-id"]
  {
    assert "Content-Type"[0] != "x-agentrun-session-id"[0];
    assert "Content-Type"[0] != "x-agentscope-runtime-session-id"[0];
    assert "x-agentrun-session-id"[7] != "x-agentscope-runtime-session-id"[7];
    assert "Authorization"[0] != "Content-Type"[0] && "Authorization"[0] != "x-agentrun-session-id"[0];
    assert "Authorization"[0] != "x-agentscope-runtime-session-id"[0];
  }

  /** The headers before the token is considered. */
  function BaseHeaders(containerId: string): Dict<string>
  {
    [("Content-Type", "application/json"),
     ("x-agentrun-session-id", "s" + containerId),
     ("x-agentscope-runtime-session-id", "s" + containerId)]
  }

  /**
   * The headers sent to the container: both session ids are "s" and the
   * container id, and `Authorization` is present exactly when there is a
   * token that is not empty.
   */
  function SessionHeaders(containerId: string, secret: Option<string>): (h: Dict<string>)
    ensures UniqueKeys(h)
    ensures Get(h, "Content-Type") == Some("application/json")
    ensures Get(h, "x-agentrun-session-id") == Some("s" + containerId)
    ensures Get(h, "x-agentscope-runtime-session-id") == Some("s" + containerId)
    ensures HasKey(h, "Authorization") <==> Truthy(secret)
    ensures Truthy(secret) ==> Get(h, "Authorization") == Some("Bearer " + secret.value)
    ensures Keys(h) == ["Content-Type", "x-agentrun-session-id", "x-agentscope-runtime-session-id"]
                       + (if Truthy(secret) then ["Authorization"] else [])
  {
    var h := BaseHeaders(containerId);
    HeaderKeysDistinct();
    assert Keys(h) == ["Content-Type", "x-agentrun-session-id", "x-agentscope-runtime-session-id"];
    assert UniqueKeys(h);
    GetUnique(h, h[0].0, h[0].1);
    GetUnique(h, h[1].0, h[1].1);
    GetUnique(h, h[2].0, h[2].1);
    if Truthy(secret) then
      var a := h + [("Authorization", "Bearer " + secret.value)];
      assert Keys(a) == Keys(h) + ["Authorization"];
      assert UniqueKeys(a);
      GetUnique(a, a[0].0, a[0].1);
      GetUnique(a, a[1].0, a[1].1);
      GetUnique(a, a[2].0, a[2].1);
      GetUnique(a, a[3].0, a[3].1);
      a
    else
      h
  }

  /** One generic tool's entry: its name and its function-call schema with one required string parameter. */
  function ToolEntry(name: string, description: string, param: string, paramDescription: string): JsonValue
  {
    JObj([
      ("name", JStr(name)),
      ("json_schema", JObj([
        ("type", JStr("function")),
        ("function", JObj([
          ("name", JStr(name)),
          ("description", JStr(description)),
          ("parameters", JObj([
            ("type", JStr("object")),
            ("properties", JObj([(param, JObj([("type", JStr("string")), ("description", JStr(paramDescription))]))])),
            ("required", JArr([JStr(param)]))]))]))]))])
  }

  /** `_generic_tools`: each entry is keyed by its tool's name. */
  function GenericTools(): (r: Dict<JsonValue>)
    ensures Keys(r) == ["run_ipython_cell", "run_shell_command"]
  {
    [("run_ipython_cell", ToolEntry("run_ipython_cell", "Run an IPython cell.", "code", "IPython code to execute")),
     ("run_shell_command", ToolEntry("run_shell_command", "Run a shell command.", "command", "Shell command to execute"))]
  }

  /** The name of a tool entry, both at its top and in its schema. */
  function ToolNames(entry: JsonValue): (r: (Option<JsonValue>, Option<JsonValue>))
  {
    if !entry.JObj? then (None, None)
    else
      var schema := Get(entry.fields, "json_schema");
      var fn := if schema.Some? && schema.value.JObj? then Get(schema.value.fields, "function") else None;
      (Get(entry.fields, "name"), if fn.Some? && fn.value.JObj? then Get(fn.value.fields, "name") else None)
  }

  lemma ToolEntryNamed(name: string, description: string, param: string, paramDescription: string)
    ensures ToolNames(ToolEntry(name, description, param, paramDescription)) == (Some(JStr(name)), Some(JStr(name)))
  {
    var e := ToolEntry(name, description, param, paramDescription);
    var schema := e.fields[1].1;
    var fn := schema.fields[1].1;
    GetCons("name", JStr(name), e.fields[1..], "name");
    GetCons("name", JStr(name), e.fields[1..], "json_schema");
    GetCons("json_schema", schema, [], "json_schema");
    GetCons("type", JStr("function"), schema.fields[1..], "function");
    GetCons("function", fn, [], "function");
    GetCons("name", JStr(name), fn.fields[1..], "name");
  }

  /** The generic tools are exactly the IPython cell and the shell command, each named by its key. */
  lemma GenericToolsNamedByKey(k: string)
    requires HasKey(GenericTools(), k)
    ensures k == "run_ipython_cell" || k == "run_shell_command"
    ensures ToolNames(Get(GenericTools(), k).value) == (Some(JStr(k)), Some(JStr(k)))
  {
    var t := GenericTools();
    assert "run_ipython_cell"[4] != "run_shell_command"[4];
    assert UniqueKeys(t);
    GetUnique(t, t[0].0, t[0].1);
    GetUnique(t, t[1].0, t[1].1);
    ToolEntryNamed("run_ipython_cell", "Run an IPython cell.", "code", "IPython code to execute");
    ToolEntryNamed("run_shell_command", "Run a shell command.", "command", "Shell command to execute");
  }

  /** `SandboxHttpBase`: the state each sandbox client starts from. */
  class SandboxHttpBase {
    var baseUrl: string
    var startTimeout: int
    var timeout: int
    var secret: Option<string>
    var headers: Dict<string>

    /** `__init__`, for a model whose URL resolves (otherwise `urljoin` raises, see `Create`). */
    constructor (model: ContainerRecord, startTimeout: int := 60, domain: string := "localhost")
      requires BaseUrl(model.url, domain).Ok?
      ensures baseUrl == BaseUrl(model.url, domain).value
      ensures this.startTimeout == startTimeout
      ensures timeout == TimeoutFor(model.timeout)
      ensures secret == model.runtimeToken
      ensures headers == SessionHeaders(model.containerId, model.runtimeToken)
    {
      baseUrl := BaseUrl(model.url, domain).value;
      this.startTimeout := startTimeout;
      timeout := if TruthyInt(model.timeout) then model.timeout.value else DefaultTimeout;
      secret := model.runtimeToken;
      headers := [("Content-Type", "application/json"),
                  ("x-agentrun-session-id", "s" + model.containerId),
                  ("x-agentscope-runtime-session-id", "s" + model.containerId)];
      if Truthy(model.runtimeToken) {
        headers := headers + [("Authorization", "Bearer " + model.runtimeToken.value)];
      }
    }

    /** `SandboxHttpBase(model, timeout, domain)`: a `ValueError` when the URL does not parse. */
    static method Create(model: ContainerRecord, startTimeout: int := 60, domain: string := "localhost")
      returns (r: Result<SandboxHttpBase>)
      ensures r.Err? <==> BaseUrl(model.url, domain).Err?
      ensures r.Err? ==> r.kind == "ValueError"
      ensures r.Ok? ==> fresh(r.value) && r.value.baseUrl == BaseUrl(model.url, domain).value
                        && r.value.timeout == TimeoutFor(model.timeout)
                        && r.value.headers == SessionHeaders(model.containerId, model.runtimeToken)
    {
      var url := BaseUrl(model.url, domain);
      if url.Err? {
        r := Err(url.kind, url.message);
      } else {
        var c := new SandboxHttpBase(model, startTimeout, domain);
        r := Ok(c);
      }
    }

    /** `generic_tools`. */
    function GenericToolsOf(): (r: Dict<JsonValue>)
      ensures Keys(r) == ["run_ipython_cell", "run_shell_command"]
    {
      GenericTools()
    }
  }
}
