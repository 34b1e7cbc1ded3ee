/**
 * The `.gitignore`-style filter the PAI deployer applies to the files it
 * packs for upload (pai_deployer.py): reading the patterns of an ignore
 * file, the path components of `PurePosixPath(path).parts`, the `*`/`?`
 * subset of `fnmatch`, and `_should_ignore`.
 */
module PaiIgnore {
  import opened Wrappers
  import opened Strings

  /** A stripped line is kept when it is neither empty nor a comment. */
  predicate KeptLine(l: string)
  {
    l != "" && !StartsWith(l, "#")
  }

  /** The patterns an ignore file with these lines yields, in file order. */
  function IgnorePatterns(lines: seq<string>): seq<string>
  {
    if lines == [] then []
    else
      var l := Strip(lines[|lines| - 1]);
      IgnorePatterns(lines[..|lines| - 1]) + (if KeptLine(l) then [l] else [])
  }

  /**
   * `_read_ignore_file`: no pattern when the file does not exist; otherwise
   * each line stripped, skipping empty lines and comments. `fileExists` stands
   * for `ignore_file_path.exists()` and `lines` for the file's lines.
   */
  method ReadIgnoreFile(fileExists: bool, lines: seq<string>) returns (patterns: seq<string>)
    ensures patterns == if fileExists then IgnorePatterns(lines) else []
  {
    patterns := [];
    if fileExists {
      var i := 0;
      while i < |lines|
        invariant 0 <= i <= |lines|
        invariant patterns == IgnorePatterns(lines[..i])
      {
        var line := Strip(lines[i]);
        if line != "" && !StartsWith(line, "#") {
          patterns := patterns + [line];
        }
        assert lines[..i + 1][..i] == lines[..i];
        i := i + 1;
      }
      assert lines[..i] == lines;
    }
  }

  /** A text is a pattern of the file exactly when some line strips to it and it is kept. */
  lemma {:induction false} IgnorePatternsMembers(lines: seq<string>, x: string)
    ensures x in IgnorePatterns(lines) <==> KeptLine(x) && exists i :: 0 <= i < |lines| && Strip(lines[i]) == x
    decreases |lines|
  {
    if lines != [] {
      var init := lines[..|lines| - 1];
      var last := Strip(lines[|lines| - 1]);
      IgnorePatternsMembers(init, x);
      MapsToSnoc(lines, init, Strip, x);
      assert IgnorePatterns(lines) == IgnorePatterns(init) + (if KeptLine(last) then [last] else []);
    }
  }

  /** Some element maps to `x` exactly when an earlier element or the last one does. */
  lemma MapsToSnoc<T>(s: seq<T>, init: seq<T>, f: T -> string, x: string)
    requires s != [] && init == s[..|s| - 1]
    ensures (exists i :: 0 <= i < |s| && f(s[i]) == x) <==>
      (exists i :: 0 <= i < |init| && f(init[i]) == x) || f(s[|s| - 1]) == x
  {
    if exists i :: 0 <= i < |s| && f(s[i]) == x {
      var i :| 0 <= i < |s| && f(s[i]) == x;
      if i < |init| {
        assert init[i] == s[i];
      }
    }
    if exists i :: 0 <= i < |init| && f(init[i]) == x {
      var i :| 0 <= i < |init| && f(init[i]) == x;
      assert s[i] == init[i];
    }
  }

  /** The root of an absolute POSIX path: exactly two leading slashes are kept, any other number collapses to one. */
  function Root(path: string): string
  {
    if StartsWith(path, "//") && !StartsWith(path, "///") then "//"
    else if StartsWith(path, "/") then "/"
    else ""
  }

  /** The named components among the pieces between slashes: empty pieces and "." are dropped. */
  function Segments(pieces: seq<string>): (r: seq<string>)
    ensures forall k :: 0 <= k < |r| ==> r[k] in pieces && r[k] != "" && r[k] != "."
    ensures forall k :: 0 <= k < |pieces| && pieces[k] != "" && pieces[k] != "." ==> pieces[k] in r
  {
    if pieces == [] then []
    else (if pieces[0] != "" && pieces[0] != "." then [pieces[0]] else []) + Segments(pieces[1..])
  }

  /** `PurePosixPath(path).parts`. */
  function PathParts(path: string): (r: seq<string>)
    ensures forall k :: 0 <= k < |r| ==> r[k] != ""
  {
    (if Root(path) != "" then [Root(path)] else []) + Segments(Split(path, '/'))
  }

  /** `fnmatch` wildcards are absent. */
  predicate NoWildcard(p: string)
  {
    !HasChar(p, '*') && !HasChar(p, '?')
  }

  /**
   * `fnmatch.fnmatch(s, p)` on POSIX for patterns built from `*`, `?` and
   * literal characters: `*` matches any text, slashes included, `?` any one
   * character, and the match is case-sensitive and covers the whole text.
   */
  function Glob(p: string, s: string): bool
    decreases |p| + |s|
  {
    if p == [] then s == []
    else if p[0] == '*' then Glob(p[1..], s) || (s != [] && Glob(p, s[1..]))
    else if p[0] == '?' then s != [] && Glob(p[1..], s[1..])
    else s != [] && s[0] == p[0] && Glob(p[1..], s[1..])
  }

  /** A pattern without wildcards matches only itself. */
  lemma {:induction false} GlobLiteral(p: string, s: string)
    requires NoWildcard(p)
    ensures Glob(p, s) <==> s == p
    decreases |p|
  {
    if p != [] {
      assert NoWildcard(p[1..]);
      assert p[0] != '*' && p[0] != '?';
      if s != [] {
        GlobLiteral(p[1..], s[1..]);
        assert s == [s[0]] + s[1..] && p == [p[0]] + p[1..];
      }
    }
  }

  /** A text ends with a suffix when it is the suffix or its tail ends with it. */
  lemma EndsWithTail(s: string, q: string)
    ensures EndsWith(s, q) <==> s == q || (s != [] && EndsWith(s[1..], q))
  {
    if s != [] && EndsWith(s[1..], q) {
      assert s[|s| - |q|..] == s[1..][|s[1..]| - |q|..];
    }
    if EndsWith(s, q) && s != q && s != [] {
      assert |q| < |s|;
      assert s[1..][|s[1..]| - |q|..] == s[|s| - |q|..];
    }
  }

  /** `*` followed by a literal suffix matches exactly the texts that end with it, as "*.pyc" does. */
  lemma {:induction false} GlobStarSuffix(q: string, s: string)
    requires NoWildcard(q)
    ensures Glob(['*'] + q, s) <==> EndsWith(s, q)
    decreases |s|
  {
    var p := ['*'] + q;
    assert p[1..] == q;
    GlobLiteral(q, s);
    EndsWithTail(s, q);
    if s != [] {
      GlobStarSuffix(q, s[1..]);
    }
  }

  /** One pattern of `_should_ignore` against one path. */
  predicate Hits(path: string, pattern: string)
  {
    var p := LStripChar(pattern, '/');
    var pn := RStripChar(p, '/');
    var parts := PathParts(path);
    pn in parts
    || (!NoWildcard(p) && (Glob(p, path) || exists k :: 0 <= k < |parts| && Glob(p, parts[k])))
    || StartsWith(path, pn + "/")
    || path == pn
  }

  /**
   * `_should_ignore`: the patterns are tried in order and the first that
   * hits decides; the path is kept when none does.
   */
  function ShouldIgnore(path: string, patterns: seq<string>): (r: bool)
    ensures r <==> exists i :: 0 <= i < |patterns| && Hits(path, patterns[i])
  {
    if patterns == [] then false
    else if Hits(path, patterns[0]) then true
    else
      var r := ShouldIgnore(path, patterns[1..]);
      assert forall i :: 0 < i < |patterns| ==> patterns[i] == patterns[1..][i - 1];
      r
  }

  /** A name: non-empty, no slash, no wildcard, and not ".". */
  predicate PlainName(n: string)
  {
    n != "" && n != "." && !HasChar(n, '/') && NoWildcard(n)
  }

  /** The first piece of a path that starts with a name and a slash is that name. */
  lemma SplitAfterName(path: string, n: string)
    requires PlainName(n) && StartsWith(path, n + "/")
    ensures Split(path, '/')[0] == n
  {
    assert path[|n|] == '/';
    assert path[..|n|] == n;
    var i := IndexOf(path, '/');
    assert i.Some?;
  }

  /** A name that is the whole path is its only piece. */
  lemma SplitOfName(n: string)
    requires !HasChar(n, '/')
    ensures Split(n, '/') == [n]
  {
  }

  /**
   * A plain name such as "build" ignores exactly the paths that have it as a
   * component: "build/output.js" and "src/build" but not "src/build.py".
   */
  lemma PlainNameHits(path: string, n: string)
    requires PlainName(n)
    ensures Hits(path, n) <==> n in PathParts(path)
  {
    assert LStripChar(n, '/') == n by {
      if n[0] == '/' {
        assert HasChar(n, '/');
      }
    }
    assert RStripChar(n, '/') == n by {
      if n[|n| - 1] == '/' {
        assert HasChar(n, '/');
      }
    }
    var pieces := Split(path, '/');
    if StartsWith(path, n + "/") {
      SplitAfterName(path, n);
      assert pieces[0] in pieces;
      assert path[0] == n[0];
    }
    if path == n {
      SplitOfName(n);
      assert pieces[0] == n;
    }
  }

  /** A pattern "*" followed by a literal suffix ignores every path that ends with the suffix. */
  lemma StarSuffixHits(path: string, q: string)
    requires NoWildcard(q)
    requires EndsWith(path, q)
    ensures Hits(path, ['*'] + q)
  {
    var p := ['*'] + q;
    assert LStripChar(p, '/') == p;
    assert p[0] == '*';
    GlobStarSuffix(q, path);
  }

  /** Adding patterns never un-ignores a path: the filter is the disjunction of its patterns. */
  lemma ShouldIgnoreAppend(path: string, a: seq<string>, b: seq<string>)
    ensures ShouldIgnore(path, a + b) == (ShouldIgnore(path, a) || ShouldIgnore(path, b))
  {
    if ShouldIgnore(path, a) {
      var i :| 0 <= i < |a| && Hits(path, a[i]);
      assert (a + b)[i] == a[i];
    }
    if ShouldIgnore(path, b) {
      var i :| 0 <= i < |b| && Hits(path, b[i]);
      assert (a + b)[|a| + i] == b[i];
    }
    if ShouldIgnore(path, a + b) {
      var i :| 0 <= i < |a + b| && Hits(path, (a + b)[i]);
      if i < |a| {
        assert a[i] == (a + b)[i];
      } else {
        assert b[i - |a|] == (a + b)[i];
      }
    }
  }
}
