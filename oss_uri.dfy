/**
 * `parse_oss_uri` (oss_utils.py) and the URI rebuilding of
 * `_oss_uri_patch_endpoint` (pai_deployer.py), over the part of Python's
 * `urllib.parse.urlsplit` they use: the scheme, the network location up to
 * the first `/`, `?` or `#`, the path up to the first `?` or `#`, and the
 * host name of the network location (after the last `@`, inside `[...]` or
 * before the first `:`, ASCII lower-cased up to a `%` zone).
 */
module OssUri {
  import opened Wrappers
  import opened Strings

  /** The parts of an OSS location: bucket, optional endpoint, object key. */
  datatype OssLocation = OssLocation(bucket: Option<string>, endpoint: Option<string>, key: string)

  predicate IsAsciiAlpha(c: char)
  {
    'a' <= c <= 'z' || 'A' <= c <= 'Z'
  }

  /** `urllib.parse.scheme_chars`. */
  predicate SchemeChar(c: char)
  {
    IsAsciiAlpha(c) || IsDigit(c) || c == '+' || c == '-' || c == '.'
  }

  /** The index of the first character of `s` in `cs`, or `|s|` when there is none. */
  function FirstIn(s: string, cs: set<char>): (r: nat)
    ensures r <= |s| && (r < |s| ==> s[r] in cs)
    ensures forall k :: 0 <= k < r ==> s[k] !in cs
  {
    if s == [] then 0
    else if s[0] in cs then 0
    else
      var r := FirstIn(s[1..], cs);
      assert forall k :: 1 <= k < r + 1 ==> s[k] == s[1..][k - 1];
      r + 1
  }

  /** The text after the last `c` of `s` (`s.rpartition(c)[2]`); all of `s` when there is none. */
  function AfterLast(s: string, c: char): (r: string)
    ensures |r| <= |s| && r == s[|s| - |r|..]
    ensures !HasChar(r, c)
    ensures !HasChar(s, c) ==> r == s
    decreases |s|
  {
    if s == [] then []
    else if s[|s| - 1] == c then []
    else
      var r := AfterLast(s[..|s| - 1], c);
      assert forall k :: 0 <= k < |r| ==> r[k] == s[..|s| - 1][|s| - 1 - |r| + k];
      r + [s[|s| - 1]]
  }

  /** `s.partition(c)`: the text before the first `c` and the text after it (empty when there is none). */
  function Before(s: string, c: char): (r: string)
    ensures !HasChar(s, c) ==> r == s
  {
    match SplitOnce(s, c)
    case None => s
    case Some(p) => p.0
  }

  function After(s: string, c: char): string
  {
    match SplitOnce(s, c)
    case None => ""
    case Some(p) => p.1
  }

  /** `urlsplit`'s scheme and the rest of the URL: a scheme is taken when it is non-empty, starts with a letter and only holds scheme characters. */
  function SplitScheme(url: string): (string, string)
  {
    match IndexOf(url, ':')
    case None => ("", url)
    case Some(i) =>
      if i > 0 && IsAsciiAlpha(url[0]) && forall k :: 0 <= k < i ==> SchemeChar(url[k])
      then (Lower(url[..i]), url[i + 1..])
      else ("", url)
  }

  /** `urlsplit`'s network location and the rest, when the text after the scheme starts with `//`. */
  function SplitNetloc(rest: string): (string, string)
  {
    if StartsWith(rest, "//") then
      var tail := rest[2..];
      var d := FirstIn(tail, {'/', '?', '#'});
      (tail[..d], tail[d..])
    else ("", rest)
  }

  /** `urlsplit`'s path: the text before the query and the fragment. */
  function PathOf(rest: string): (r: string)
  {
    rest[..FirstIn(rest, {'?', '#'})]
  }

  /** `urlsplit` rejects a network location with an unmatched bracket ("Invalid IPv6 URL"). */
  predicate BracketsMismatched(netloc: string)
  {
    (HasChar(netloc, '[') && !HasChar(netloc, ']')) || (HasChar(netloc, ']') && !HasChar(netloc, '['))
  }

  /** `SplitResult.hostname`. */
  function Hostname(netloc: string): (r: Option<string>)
    ensures r.Some? ==> r.value != ""
  {
    var hostinfo := AfterLast(netloc, '@');
    var host := if HasChar(hostinfo, '[') then Before(After(hostinfo, '['), ']') else Before(hostinfo, ':');
    if host == "" then None
    else
      var name := Before(host, '%');
      Some(Lower(name) + (if HasChar(host, '%') then "%" + After(host, '%') else ""))
  }

  /** The host name of a URI, as `urlparse(uri).hostname` gives it. */
  function UriHost(uri: string): Option<string>
  {
    Hostname(SplitNetloc(SplitScheme(uri).1).0)
  }

  /** The path of a URI, as `urlparse(uri).path` gives it. */
  function UriPath(uri: string): string
  {
    PathOf(SplitNetloc(SplitScheme(uri).1).1)
  }

  /**
   * `parse_oss_uri`: the scheme must be `oss`; the host splits at its
   * first `.` into bucket and endpoint, or is the whole bucket with no
   * endpoint; the key is the path without its leading slashes.
   */
  function ParseOssUri(uri: string): (r: Result<OssLocation>)
    ensures SplitScheme(uri).0 != "oss" ==> r.Err?
    ensures r.Ok? ==> r.value.key == LStripChar(UriPath(uri), '/')
    ensures r.Ok? ==> r.value.key == [] || r.value.key[0] != '/'
    ensures r.Ok? && UriHost(uri).Some? && HasChar(UriHost(uri).value, '.') ==>
      r.value.bucket.Some? && r.value.endpoint.Some? && !HasChar(r.value.bucket.value, '.') &&
      UriHost(uri).value == r.value.bucket.value + "." + r.value.endpoint.value
    ensures r.Ok? && !(UriHost(uri).Some? && HasChar(UriHost(uri).value, '.')) ==>
      r.value.bucket == UriHost(uri) && r.value.endpoint.None?
  {
    var (scheme, rest) := SplitScheme(uri);
    var (netloc, tail) := SplitNetloc(rest);
    if BracketsMismatched(netloc) then Err("ValueError", "Invalid IPv6 URL")
    else if scheme != "oss" then Err("ValueError", "require oss uri but given '" + uri + "'")
    else
      var host := Hostname(netloc);
      var key := LStripChar(PathOf(tail), '/');
      if host.Some? && HasChar(host.value, '.') then
        var (bucket, endpoint) := SplitOnce(host.value, '.').value;
        Ok(OssLocation(Some(bucket), Some(endpoint), key))
      else Ok(OssLocation(host, None, key))
  }

  /** The characters that end or restructure the host part of a URI. */
  const HostDelims: set<char> := {'/', '?', '#', '@', ':', '[', ']', '%'}

  /** A bucket or endpoint that survives the trip through a URI unchanged. */
  predicate PlainHostPart(s: string)
  {
    IsLower(s) && forall k :: 0 <= k < |s| ==> s[k] !in HostDelims
  }

  lemma IndexOfAt(s: string, c: char, i: nat)
    requires i < |s| && s[i] == c && forall k :: 0 <= k < i ==> s[k] != c
    ensures IndexOf(s, c) == Some(i)
  {
  }

  lemma FirstInAt(s: string, cs: set<char>, i: nat)
    requires i <= |s| && (i < |s| ==> s[i] in cs) && forall k :: 0 <= k < i ==> s[k] !in cs
    ensures FirstIn(s, cs) == i
  {
  }

  lemma SplitOnceAt(s: string, c: char, i: nat)
    requires i < |s| && s[i] == c && forall k :: 0 <= k < i ==> s[k] != c
    ensures SplitOnce(s, c) == Some((s[..i], s[i + 1..]))
  {
    IndexOfAt(s, c, i);
  }

  /** None of the characters of a plain host part. */
  lemma NotInPlain(s: string, c: char)
    requires PlainHostPart(s) && c in HostDelims
    ensures !HasChar(s, c)
  {
  }

  /** A plain host name is its own `hostname`. */
  lemma HostnameOfPlain(host: string)
    requires host != [] && PlainHostPart(host)
    ensures Hostname(host) == Some(host)
  {
    NotInPlain(host, '@');
    NotInPlain(host, '[');
    NotInPlain(host, ':');
    NotInPlain(host, '%');
    assert AfterLast(host, '@') == host;
    assert Before(host, ':') == host;
    assert Before(host, '%') == host;
    LowerOfLower(host);
    assert host + "" == host;
  }

  /** The URI `_oss_uri_patch_endpoint` renders from its parts. */
  function OssUriOf(bucket: string, endpoint: string, key: string): (u: string)
    ensures StartsWith(u, "oss://") && EndsWith(u, key)
  {
    "oss://" + bucket + "." + endpoint + "/" + key
  }

  /**
   * Parsing the rendered URI gives the parts back, when bucket and endpoint
   * are lower-case and free of URI delimiters, the bucket has no `.`, and the
   * key neither starts with `/` nor holds `?` or `#`.
   */
  lemma ParseOssUriOf(bucket: string, endpoint: string, key: string)
    requires PlainHostPart(bucket) && PlainHostPart(endpoint) && !HasChar(bucket, '.')
    requires key == [] || key[0] != '/'
    requires forall k :: 0 <= k < |key| ==> key[k] != '?' && key[k] != '#'
    ensures ParseOssUri(OssUriOf(bucket, endpoint, key)) == Ok(OssLocation(Some(bucket), Some(endpoint), key))
  {
    var host := bucket + "." + endpoint;
    var uri := OssUriOf(bucket, endpoint, key);
    var rest := "//" + host + "/" + key;
    assert uri == "oss://" + host + "/" + key;
    SchemeOfRendered(host, key);
    assert SplitScheme(uri) == ("oss", rest);
    PlainJoined(bucket, endpoint);
    NetlocOfRendered(host, key);
    NotInPlain(host, '[');
    NotInPlain(host, ']');
    assert !BracketsMismatched(host);
    HostnameOfPlain(host);
    assert host[|bucket|] == '.';
    HostSplit(bucket, endpoint);
    PathOfRendered(key);
  }

  lemma SchemeOfRendered(host: string, key: string)
    ensures SplitScheme("oss://" + host + "/" + key) == ("oss", "//" + host + "/" + key)
  {
    var uri := "oss://" + host + "/" + key;
    assert uri == "oss:" + ("//" + host + "/" + key);
    IndexOfAt(uri, ':', 3);
    assert uri[..3] == "oss";
    assert Lower("oss") == "oss";
  }

  lemma PlainJoined(bucket: string, endpoint: string)
    requires PlainHostPart(bucket) && PlainHostPart(endpoint)
    ensures PlainHostPart(bucket + "." + endpoint)
  {
    var host := bucket + "." + endpoint;
    forall k | 0 <= k < |host|
      ensures LowerChar(host[k]) == host[k] && host[k] !in HostDelims
    {
      if k < |bucket| {
        assert host[k] == bucket[k];
      } else if k > |bucket| {
        assert host[k] == endpoint[k - |bucket| - 1];
      }
    }
  }

  lemma NetlocOfRendered(host: string, key: string)
    requires PlainHostPart(host)
    ensures SplitNetloc("//" + host + "/" + key) == (host, "/" + key)
  {
    var rest := "//" + host + "/" + key;
    assert rest[2..] == host + "/" + key;
    assert forall k :: 0 <= k < |host| ==> host[k] !in HostDelims;
    FirstInAt(host + "/" + key, {'/', '?', '#'}, |host|);
    assert (host + "/" + key)[..|host|] == host;
    assert (host + "/" + key)[|host|..] == "/" + key;
  }

  lemma HostSplit(bucket: string, endpoint: string)
    requires !HasChar(bucket, '.')
    ensures SplitOnce(bucket + "." + endpoint, '.') == Some((bucket, endpoint))
  {
    var host := bucket + "." + endpoint;
    assert host[|bucket|] == '.';
    assert forall k :: 0 <= k < |bucket| ==> host[k] == bucket[k];
    SplitOnceAt(host, '.', |bucket|);
    assert host[..|bucket|] == bucket && host[|bucket| + 1..] == endpoint;
  }

  lemma PathOfRendered(key: string)
    requires key == [] || key[0] != '/'
    requires forall k :: 0 <= k < |key| ==> key[k] != '?' && key[k] != '#'
    ensures LStripChar(PathOf("/" + key), '/') == key
  {
    assert forall k :: 1 <= k < |key| + 1 ==> ("/" + key)[k] == key[k - 1];
    FirstInAt("/" + key, {'?', '#'}, |key| + 1);
    assert PathOf("/" + key) == "/" + key;
    assert ("/" + key)[1..] == key;
  }

  /**
   * `_oss_uri_patch_endpoint`: re-renders the URI with its endpoint, or with
   * the region's endpoint when it has none (or an empty one); a missing
   * bucket renders as `None`. `regionEndpoint` stands for
   * `_get_oss_endpoint`, which probes the network.
   */
  function PatchEndpoint(uri: string, regionEndpoint: string): (r: Result<string>)
    ensures ParseOssUri(uri).Err? <==> r.Err?
  {
    match ParseOssUri(uri)
    case Err(kind, msg) => Err(kind, msg)
    case Ok(loc) =>
      var endpoint := if Truthy(loc.endpoint) then loc.endpoint.value else regionEndpoint;
      Ok(OssUriOf(if loc.bucket.Some? then loc.bucket.value else "None", endpoint, loc.key))
  }

  /**
   * Patching keeps the bucket and the key and fills in the endpoint: parsing
   * the patched URI gives the original bucket and key with the URI's own
   * endpoint when it had a non-empty one, else the region's.
   */
  lemma PatchEndpointKeepsParts(uri: string, regionEndpoint: string)
    requires ParseOssUri(uri).Ok? && ParseOssUri(uri).value.bucket.Some?
    requires PlainHostPart(ParseOssUri(uri).value.bucket.value)
    requires ParseOssUri(uri).value.endpoint.Some? ==> PlainHostPart(ParseOssUri(uri).value.endpoint.value)
    requires PlainHostPart(regionEndpoint)
    requires forall k :: 0 <= k < |ParseOssUri(uri).value.key| ==> ParseOssUri(uri).value.key[k] != '?' && ParseOssUri(uri).value.key[k] != '#'
    ensures PatchEndpoint(uri, regionEndpoint).Ok?
    ensures ParseOssUri(PatchEndpoint(uri, regionEndpoint).value) == Ok(OssLocation(
      ParseOssUri(uri).value.bucket,
      Some(if Truthy(ParseOssUri(uri).value.endpoint) then ParseOssUri(uri).value.endpoint.value else regionEndpoint),
      ParseOssUri(uri).value.key))
  {
    var loc := ParseOssUri(uri).value;
    var endpoint := if Truthy(loc.endpoint) then loc.endpoint.value else regionEndpoint;
    ParseOssUriOf(loc.bucket.value, endpoint, loc.key);
  }
}
