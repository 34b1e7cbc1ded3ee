/**
 * The configuration side of the Function Compute deployer (fc_deployer.py):
 * `FCConfig.from_env` and `ensure_valid`, `OSSConfig.from_env` and
 * `ensure_valid`, the environment merge, the lines of the generated `.env`
 * file, the input check at the start of `deploy`, and the name `stop`
 * deletes. The process environment is a dictionary parameter.
 */
module FcDeploy {
  import opened Wrappers
  import opened Strings
  import opened Dicts

  datatype LogConfig = LogConfig(logstore: string, project: string)

  datatype VpcConfig = VpcConfig(vpcId: string, securityGroupId: string, vswitchIds: seq<string>)

  /**
   * What `json.loads` makes of the vswitch variable: not JSON at all, a list
   * (of strings, the only list content modelled), or some other JSON value.
   */
  datatype JsonValue = NotJson | JsonList(items: seq<string>) | JsonOther

  /** `FCConfig`; `cpu` is a float and is not modelled. */
  datatype FcConfig = FcConfig(
    accessKeyId: Option<string>,
    accessKeySecret: Option<string>,
    accountId: Option<string>,
    regionId: string,
    logConfig: Option<LogConfig>,
    vpcConfig: Option<VpcConfig>,
    memory: int,
    disk: int,
    executionRoleArn: Option<string>,
    sessionConcurrencyLimit: Option<int>,
    sessionIdleTimeoutSeconds: Option<int>)

  const DefaultMemory: int := 2048
  const DefaultDisk: int := 512
  const DefaultConcurrency: int := 200
  const DefaultIdleTimeout: int := 3600

  /** `FCConfig()`: every field at its declared default. */
  const DefaultFcConfig: FcConfig := FcConfig(None, None, None, "cn-hangzhou", None, None,
    DefaultMemory, DefaultDisk, None, Some(DefaultConcurrency), Some(DefaultIdleTimeout))

  /**
   * `int(os.environ.get(name, text))` with the fallback of the surrounding
   * `try`: `text` is the written default and `fallback` the value used when
   * parsing fails.
   */
  function EnvInt(env: Dict<string>, name: string, text: string, fallback: int): int
  {
    match ParseInt(Get(env, name).GetOr(text))
    case Some(n) => n
    case None => fallback
  }

  /** The log configuration, present only when both the log store and the log project are set. */
  function LogConfigOf(env: Dict<string>): (r: Option<LogConfig>)
    ensures r.Some? <==> Truthy(Get(env, "FC_LOG_STORE")) && Truthy(Get(env, "FC_LOG_PROJECT"))
    ensures r.Some? ==> r.value == LogConfig(Get(env, "FC_LOG_STORE").value, Get(env, "FC_LOG_PROJECT").value)
  {
    var store, project := Get(env, "FC_LOG_STORE"), Get(env, "FC_LOG_PROJECT");
    if Truthy(store) && Truthy(project) then Some(LogConfig(store.value, project.value)) else None
  }

  /** All three VPC variables are set. */
  predicate VpcRequested(env: Dict<string>)
  {
    Truthy(Get(env, "FC_VPC_ID")) && Truthy(Get(env, "FC_SECURITY_GROUP_ID")) && Truthy(Get(env, "FC_VSWITCH_IDS"))
  }

  /**
   * The VPC configuration, present only when all three variables are set;
   * a vswitch value that is not JSON, or is JSON but not a list, is an error.
   * `decode` is `json.loads`.
   */
  function VpcConfigOf(env: Dict<string>, decode: string -> JsonValue): (r: Result<Option<VpcConfig>>)
    ensures !VpcRequested(env) ==> r == Ok(None)
    ensures VpcRequested(env) ==> (r.Ok? <==> decode(Get(env, "FC_VSWITCH_IDS").value).JsonList?)
    ensures VpcRequested(env) && r.Ok? ==>
      r.value == Some(VpcConfig(Get(env, "FC_VPC_ID").value, Get(env, "FC_SECURITY_GROUP_ID").value,
        decode(Get(env, "FC_VSWITCH_IDS").value).items))
    ensures r.Err? ==> r.kind in {"JSONDecodeError", "ValueError"}
  {
    if !VpcRequested(env) then Ok(None)
    else
      match decode(Get(env, "FC_VSWITCH_IDS").value)
      case NotJson => Err("JSONDecodeError", "Expecting value")
      case JsonOther => Err("ValueError", "vswitch_ids must be a list")
      case JsonList(ids) =>
        Ok(Some(VpcConfig(Get(env, "FC_VPC_ID").value, Get(env, "FC_SECURITY_GROUP_ID").value, ids)))
  }

  /** `FCConfig.from_env`. */
  function FcFromEnv(env: Dict<string>, decode: string -> JsonValue): (r: Result<FcConfig>)
    ensures r.Err? <==> VpcConfigOf(env, decode).Err?
    ensures r.Ok? ==> r.value.logConfig == LogConfigOf(env) && r.value.vpcConfig == VpcConfigOf(env, decode).value
  {
    match VpcConfigOf(env, decode)
    case Err(k, m) => Err(k, m)
    case Ok(vpc) =>
      Ok(FcConfig(
        Get(env, "ALIBABA_CLOUD_ACCESS_KEY_ID"),
        Get(env, "ALIBABA_CLOUD_ACCESS_KEY_SECRET"),
        Get(env, "FC_ACCOUNT_ID"),
        Get(env, "FC_REGION_ID").GetOr("cn-hangzhou"),
        LogConfigOf(env),
        vpc,
        EnvInt(env, "FC_MEMORY", "2048", DefaultMemory),
        EnvInt(env, "FC_DISK", "512", DefaultDisk),
        Get(env, "FC_EXECUTION_ROLE_ARN"),
        Some(EnvInt(env, "FC_SESSION_CONCURRENCY_LIMIT", "200", DefaultConcurrency)),
        Some(EnvInt(env, "FC_SESSION_IDLE_TIMEOUT_SECONDS", "3600", DefaultIdleTimeout))))
  }

  /**
   * A numeric variable that parses gives its value; an absent or unparsable
   * one gives the default, which is also what the written default text
   * parses to.
   */
  lemma EnvIntDefault(env: Dict<string>, name: string, fallback: nat)
    ensures ParseInt(Get(env, name).GetOr(NatToString(fallback))).Some? ==>
      EnvInt(env, name, NatToString(fallback), fallback) == ParseInt(Get(env, name).GetOr(NatToString(fallback))).value
    ensures ParseInt(Get(env, name).GetOr(NatToString(fallback))).None? ==>
      EnvInt(env, name, NatToString(fallback), fallback) == fallback
    ensures Get(env, name).None? ==> EnvInt(env, name, NatToString(fallback), fallback) == fallback
  {
    ParseIntOfNat(fallback);
  }

  /** The written defaults are the decimal texts of the numeric defaults. */
  lemma DefaultTexts()
    ensures NatToString(2048) == "2048" && NatToString(512) == "512"
    ensures NatToString(200) == "200" && NatToString(3600) == "3600"
  {
  }

  /** From an environment without the numeric variables, the numeric fields are at their defaults. */
  lemma FromEnvNumericDefaults(env: Dict<string>, decode: string -> JsonValue)
    requires FcFromEnv(env, decode).Ok?
    requires !HasKey(env, "FC_MEMORY") && !HasKey(env, "FC_DISK")
    requires !HasKey(env, "FC_SESSION_CONCURRENCY_LIMIT") && !HasKey(env, "FC_SESSION_IDLE_TIMEOUT_SECONDS")
    ensures FcFromEnv(env, decode).value.memory == DefaultMemory
    ensures FcFromEnv(env, decode).value.disk == DefaultDisk
    ensures FcFromEnv(env, decode).value.sessionConcurrencyLimit == Some(DefaultConcurrency)
    ensures FcFromEnv(env, decode).value.sessionIdleTimeoutSeconds == Some(DefaultIdleTimeout)
  {
    DefaultTexts();
    EnvIntDefault(env, "FC_MEMORY", 2048);
    EnvIntDefault(env, "FC_DISK", 512);
    EnvIntDefault(env, "FC_SESSION_CONCURRENCY_LIMIT", 200);
    EnvIntDefault(env, "FC_SESSION_IDLE_TIMEOUT_SECONDS", 3600);
  }

  /** The variables `FCConfig.ensure_valid` reports missing, in its order. */
  function FcMissing(c: FcConfig): (r: seq<string>)
  {
    (if !Truthy(c.accessKeyId) then ["ALIBABA_CLOUD_ACCESS_KEY_ID"] else [])
    + (if !Truthy(c.accessKeySecret) then ["ALIBABA_CLOUD_ACCESS_KEY_SECRET"] else [])
    + (if !Truthy(c.accountId) then ["FC_ACCOUNT_ID"] else [])
  }

  /** `FCConfig.ensure_valid`: one ValueError naming every missing variable. */
  method FcEnsureValid(c: FcConfig) returns (r: Result<()>)
    ensures FcMissing(c) == [] ==> r == Ok(())
    ensures FcMissing(c) != [] ==> r == Err("ValueError", "Missing required FC env vars: " + Join(FcMissing(c), ", "))
  {
    var missing: seq<string> := [];
    if !Truthy(c.accessKeyId) {
      missing := missing + ["ALIBABA_CLOUD_ACCESS_KEY_ID"];
    }
    if !Truthy(c.accessKeySecret) {
      missing := missing + ["ALIBABA_CLOUD_ACCESS_KEY_SECRET"];
    }
    if !Truthy(c.accountId) {
      missing := missing + ["FC_ACCOUNT_ID"];
    }
    assert missing == FcMissing(c);
    if missing != [] {
      return Err("ValueError", "Missing required FC env vars: " + Join(missing, ", "));
    }
    return Ok(());
  }

  /** Each variable is reported exactly when its field is missing; none is reported twice. */
  lemma FcMissingComplete(c: FcConfig)
    ensures "ALIBABA_CLOUD_ACCESS_KEY_ID" in FcMissing(c) <==> !Truthy(c.accessKeyId)
    ensures "ALIBABA_CLOUD_ACCESS_KEY_SECRET" in FcMissing(c) <==> !Truthy(c.accessKeySecret)
    ensures "FC_ACCOUNT_ID" in FcMissing(c) <==> !Truthy(c.accountId)
    ensures FcMissing(c) == [] <==> Truthy(c.accessKeyId) && Truthy(c.accessKeySecret) && Truthy(c.accountId)
    ensures |FcMissing(c)| <= 3
  {
    var a, b, d := "ALIBABA_CLOUD_ACCESS_KEY_ID", "ALIBABA_CLOUD_ACCESS_KEY_SECRET", "FC_ACCOUNT_ID";
    assert |a| != |b| && |a| != |d| && |b| != |d|;
  }

  /** `OSSConfig`. */
  datatype OssConfig = OssConfig(region: string, accessKeyId: Option<string>, accessKeySecret: Option<string>,
                                 bucketName: string)

  /**
   * `OSSConfig.from_env`: the OSS key variables, falling back to the Alibaba
   * Cloud ones only when absent; the bucket name is a required string, so its
   * absence fails model validation.
   */
  function OssFromEnv(env: Dict<string>): (r: Result<OssConfig>)
    ensures r.Err? <==> !HasKey(env, "OSS_BUCKET_NAME")
    ensures r.Ok? ==> r.value.bucketName == Get(env, "OSS_BUCKET_NAME").value
    ensures r.Ok? && HasKey(env, "OSS_ACCESS_KEY_ID") ==> r.value.accessKeyId == Get(env, "OSS_ACCESS_KEY_ID")
    ensures r.Ok? && !HasKey(env, "OSS_ACCESS_KEY_ID") ==> r.value.accessKeyId == Get(env, "ALIBABA_CLOUD_ACCESS_KEY_ID")
  {
    var bucket := Get(env, "OSS_BUCKET_NAME");
    if bucket.None? then Err("ValidationError", "bucket_name: Input should be a valid string")
    else
      Ok(OssConfig(
        Get(env, "OSS_REGION").GetOr("cn-hangzhou"),
        if HasKey(env, "OSS_ACCESS_KEY_ID") then Get(env, "OSS_ACCESS_KEY_ID") else Get(env, "ALIBABA_CLOUD_ACCESS_KEY_ID"),
        if HasKey(env, "OSS_ACCESS_KEY_SECRET") then Get(env, "OSS_ACCESS_KEY_SECRET")
        else Get(env, "ALIBABA_CLOUD_ACCESS_KEY_SECRET"),
        bucket.value))
  }

  /** `OSSConfig.ensure_valid`: a RuntimeError unless both keys and the bucket are non-empty. */
  function OssEnsureValid(c: OssConfig): (r: Result<()>)
    ensures r.Ok? <==> Truthy(c.accessKeyId) && Truthy(c.accessKeySecret) && c.bucketName != ""
    ensures r.Err? ==> r.kind == "RuntimeError"
  {
    if !Truthy(c.accessKeyId) || !Truthy(c.accessKeySecret) || c.bucketName == "" then
      Err("RuntimeError", "Missing OSS configuration. Set OSS_BUCKET_NAME and either " +
        "OSS_ACCESS_KEY_ID/OSS_ACCESS_KEY_SECRET or " +
        "ALIBABA_CLOUD_ACCESS_KEY_ID/ALIBABA_CLOUD_ACCESS_KEY_SECRET.")
    else Ok(())
  }

  /** The search path of the Python 3.12 runtime. */
  const RuntimePath: string := "/var/fc/lang/python3.12/bin:" + "/usr/local/bin/apache-maven/bin:"
    + "/usr/local/bin:/usr/local/sbin:" + "/usr/local/bin:/usr/sbin:" + "/usr/bin:/sbin:/bin:"
    + "/usr/local/ruby/bin:/opt/bin:" + "/code:/code/bin"

  /** The Python 3.12 runtime variables every function gets. */
  function RuntimeEnvironment(): (r: Dict<string>)
    ensures UniqueKeys(r)
    ensures Keys(r) == ["PATH", "PYTHONPATH", "LD_LIBRARY_PATH", "PYTHON_VERSION"]
    ensures r[3] == ("PYTHON_VERSION", "3.12")
  {
    var r := [("PATH", RuntimePath), ("PYTHONPATH", "/opt/python:/code/python:/code"),
      ("LD_LIBRARY_PATH", "/code:/code/lib:/usr/lib:" + "/opt/lib:/usr/local/lib"), ("PYTHON_VERSION", "3.12")];
    assert |"PATH"| == 4 && |"PYTHONPATH"| == 10 && |"LD_LIBRARY_PATH"| == 15 && |"PYTHON_VERSION"| == 14;
    r
  }

  /** `_merge_environment_variables`: the runtime variables, overridden by the caller's. */
  function MergeEnvironment(environment: Option<Dict<string>>): Dict<string>
  {
    Update(RuntimeEnvironment(), environment.GetOr([]))
  }

  /**
   * The merged environment always holds the four runtime variables, every
   * caller key wins, and PYTHON_VERSION is "3.12" unless the caller sets it.
   */
  lemma MergeEnvironmentLookup(environment: Option<Dict<string>>, k: string)
    requires environment.Some? ==> UniqueKeys(environment.value)
    ensures Get(MergeEnvironment(environment), k) ==
      if environment.Some? && HasKey(environment.value, k) then Get(environment.value, k)
      else Get(RuntimeEnvironment(), k)
    ensures k in {"PATH", "PYTHONPATH", "LD_LIBRARY_PATH", "PYTHON_VERSION"} ==> HasKey(MergeEnvironment(environment), k)
    ensures !(environment.Some? && HasKey(environment.value, "PYTHON_VERSION")) ==>
      Get(MergeEnvironment(environment), "PYTHON_VERSION") == Some("3.12")
  {
    var base := RuntimeEnvironment();
    var e := environment.GetOr([]);
    GetUpdate(base, e, k);
    GetUpdate(base, e, "PYTHON_VERSION");
    UpdateKeys(base, e, k);
    GetUnique(base, "PYTHON_VERSION", "3.12");
    assert base[3] == ("PYTHON_VERSION", "3.12");
    if k in {"PATH", "PYTHONPATH", "LD_LIBRARY_PATH", "PYTHON_VERSION"} {
      assert k in Keys(base);
    }
  }

  /** The first line of every generated `.env` file. */
  const EnvHeader: string := "# Environment variables " + "used by AgentScope Runtime"

  /** A value is quoted when it holds a space or one of $ ` " ' \. */
  predicate NeedsQuote(v: string)
  {
    HasChar(v, ' ') || HasChar(v, '$') || HasChar(v, '`') || HasChar(v, '"') || HasChar(v, '\'') || HasChar(v, '\\')
  }

  /** The escaping of a quoted value: backslashes doubled first, then double quotes escaped. */
  function EscapeValue(v: string): string
  {
    ReplaceAll(ReplaceAll(v, "\\", "\\\\"), "\"", "\\\"")
  }

  /** One line of the `.env` file, without its newline. */
  function EnvLine(key: string, value: string): string
  {
    if NeedsQuote(value) then key + "=\"" + EscapeValue(value) + "\"" else key + "=" + value
  }

  /** The lines for the entries whose value is not `None`, in dictionary order. */
  function EnvLines(env: seq<(string, Option<string>)>): seq<string>
  {
    if env == [] then []
    else
      var e := env[|env| - 1];
      EnvLines(env[..|env| - 1]) + (if e.1.Some? then [EnvLine(e.0, e.1.value)] else [])
  }

  /** The text of a file holding these lines, each followed by a newline. */
  function FileText(lines: seq<string>): string
  {
    if lines == [] then "" else lines[0] + "\n" + FileText(lines[1..])
  }

  /** The text of the `.env` file written for a dictionary: the header, then its lines. */
  function EnvFileText(env: seq<(string, Option<string>)>): string
  {
    FileText([EnvHeader] + EnvLines(env))
  }

  lemma {:induction false} FileTextSnoc(lines: seq<string>, line: string)
    ensures FileText(lines + [line]) == FileText(lines) + line + "\n"
    decreases |lines|
  {
    if lines == [] {
      assert [line][1..] == [];
    } else {
      assert (lines + [line])[1..] == lines[1..] + [line];
      FileTextSnoc(lines[1..], line);
    }
  }

  /** Writing the next entry of the dictionary adds its line, if any, to the file. */
  lemma EnvFileTextStep(env: seq<(string, Option<string>)>, i: nat)
    requires i < |env|
    ensures FileText([EnvHeader] + EnvLines(env[..i + 1])) ==
      FileText([EnvHeader] + EnvLines(env[..i])) + (if env[i].1.Some? then EnvLine(env[i].0, env[i].1.value) + "\n" else "")
  {
    var prefix := env[..i + 1];
    assert prefix[|prefix| - 1] == env[i] && prefix[..|prefix| - 1] == env[..i];
    if env[i].1.Some? {
      var line := EnvLine(env[i].0, env[i].1.value);
      assert EnvLines(prefix) == EnvLines(env[..i]) + [line];
      assert [EnvHeader] + EnvLines(prefix) == ([EnvHeader] + EnvLines(env[..i])) + [line];
      FileTextSnoc([EnvHeader] + EnvLines(env[..i]), line);
    } else {
      assert EnvLines(prefix) == EnvLines(env[..i]);
    }
  }

  /**
   * `_generate_env_file`, as the text it writes: nothing for a missing or
   * empty dictionary, a FileNotFoundError for a missing project directory,
   * and nothing when writing fails. `projectExists`, `projectPath` and
   * `writeOk` stand for the filesystem.
   */
  method GenerateEnvFile(projectExists: bool, projectPath: string, writeOk: bool,
                         environment: Option<seq<(string, Option<string>)>>) returns (r: Result<Option<string>>)
    ensures environment.None? || environment.value == [] ==> r == Ok(None)
    ensures environment.Some? && environment.value != [] && !projectExists ==>
      r == Err("FileNotFoundError", "Project directory not found: " + projectPath)
    ensures environment.Some? && environment.value != [] && projectExists ==>
      r == Ok(if writeOk then Some(EnvFileText(environment.value)) else None)
  {
    if environment.None? || environment.value == [] {
      return Ok(None);
    }
    if !projectExists {
      return Err("FileNotFoundError", "Project directory not found: " + projectPath);
    }
    if !writeOk {
      return Ok(None);
    }
    var env := environment.value;
    var text := EnvHeader + "\n";
    var i := 0;
    while i < |env|
      invariant 0 <= i <= |env|
      invariant text == FileText([EnvHeader] + EnvLines(env[..i]))
    {
      var (key, value) := env[i];
      EnvFileTextStep(env, i);
      if value.Some? {
        if NeedsQuote(value.value) {
          text := text + (key + "=\"" + EscapeValue(value.value) + "\"") + "\n";
        } else {
          text := text + (key + "=" + value.value) + "\n";
        }
      }
      i := i + 1;
    }
    assert env[..i] == env;
    return Ok(Some(text));
  }

  /** How a reader splits a text into lines: at each newline, a last line without one kept. */
  function ReadLines(text: string): seq<string>
    decreases |text|
  {
    if text == [] then []
    else
      match IndexOf(text, '\n')
      case None => [text]
      case Some(i) => [text[..i]] + ReadLines(text[i + 1..])
  }

  lemma ReadLinesCons(line: string, text: string)
    requires !HasChar(line, '\n')
    ensures ReadLines(line + "\n" + text) == [line] + ReadLines(text)
  {
    var t := line + "\n" + text;
    assert t[|line|] == '\n';
    assert t[..|line|] == line;
    assert IndexOf(t, '\n') == Some(|line|);
    assert t[|line| + 1..] == text;
  }

  /** A file whose lines hold no newline reads back as those lines. */
  lemma {:induction false} ReadFileText(lines: seq<string>)
    requires forall i :: 0 <= i < |lines| ==> !HasChar(lines[i], '\n')
    ensures ReadLines(FileText(lines)) == lines
    decreases |lines|
  {
    if lines != [] {
      ReadFileText(lines[1..]);
      ReadLinesCons(lines[0], FileText(lines[1..]));
    }
  }

  /** `s.replace(c, rep)` for one character, character by character. */
  function ReplaceChar(s: string, c: char, rep: string): string
  {
    if s == [] then [] else (if s[0] == c then rep else [s[0]]) + ReplaceChar(s[1..], c, rep)
  }

  lemma {:induction false} ReplaceAllChar(s: string, c: char, rep: string)
    ensures ReplaceAll(s, [c], rep) == ReplaceChar(s, c, rep)
    decreases |s|
  {
    if s != [] {
      ReplaceAllChar(s[1..], c, rep);
      assert s[..1] == [s[0]];
    }
  }

  lemma {:induction false} ReplaceCharConcat(a: string, b: string, c: char, rep: string)
    ensures ReplaceChar(a + b, c, rep) == ReplaceChar(a, c, rep) + ReplaceChar(b, c, rep)
    decreases |a|
  {
    if a != [] {
      assert (a + b)[0] == a[0];
      assert (a + b)[1..] == a[1..] + b;
      ReplaceCharConcat(a[1..], b, c, rep);
      var head: string := if a[0] == c then rep else [a[0]];
      assert ReplaceChar(a + b, c, rep) == head + ReplaceChar(a[1..] + b, c, rep);
      assert ReplaceChar(a, c, rep) == head + ReplaceChar(a[1..], c, rep);
    } else {
      assert a + b == b;
    }
  }

  /** The escape of one character. */
  function EscapeChar(c: char): string
  {
    if c == '\\' then "\\\\" else if c == '"' then "\\\"" else [c]
  }

  /** The two replacements escape each character on its own. */
  lemma {:induction false} EscapeValueChars(v: string)
    ensures v != [] ==> EscapeValue(v) == EscapeChar(v[0]) + EscapeValue(v[1..])
    ensures v == [] ==> EscapeValue(v) == []
  {
    ReplaceAllChar(v, '\\', "\\\\");
    var once := ReplaceChar(v, '\\', "\\\\");
    ReplaceAllChar(once, '"', "\\\"");
    if v != [] {
      ReplaceAllChar(v[1..], '\\', "\\\\");
      var rest := ReplaceChar(v[1..], '\\', "\\\\");
      ReplaceAllChar(rest, '"', "\\\"");
      var head: string := if v[0] == '\\' then "\\\\" else [v[0]];
      ReplaceCharConcat(head, rest, '"', "\\\"");
      assert ReplaceChar(head, '"', "\\\"") == EscapeChar(v[0]);
    }
  }

  /** Reading a quoted value back: a backslash takes the next character literally. */
  function Unescape(s: string): string
    decreases |s|
  {
    if s == [] then []
    else if s[0] == '\\' && |s| >= 2 then [s[1]] + Unescape(s[2..])
    else [s[0]] + Unescape(s[1..])
  }

  /** Unescaping an escaped value gives the value back. */
  lemma {:induction false} UnescapeEscape(v: string)
    ensures Unescape(EscapeValue(v)) == v
    decreases |v|
  {
    EscapeValueChars(v);
    if v != [] {
      UnescapeEscape(v[1..]);
      var e := EscapeChar(v[0]) + EscapeValue(v[1..]);
      if v[0] == '\\' || v[0] == '"' {
        assert e[2..] == EscapeValue(v[1..]);
      } else {
        assert e[1..] == EscapeValue(v[1..]);
      }
    }
  }

  /**
   * How a `.env` reader takes a line apart: the key before the first "=",
   * and the value after it, unescaped when it is wrapped in double quotes.
   */
  function ParseEnvLine(line: string): Option<(string, string)>
  {
    match SplitOnce(line, '=')
    case None => None
    case Some((k, rest)) =>
      if |rest| >= 2 && rest[0] == '"' && rest[|rest| - 1] == '"' then Some((k, Unescape(rest[1..|rest| - 1])))
      else Some((k, rest))
  }

  /** Every line reads back as its key and value, whenever the key has no "=". */
  lemma EnvLineRoundTrip(key: string, value: string)
    requires !HasChar(key, '=')
    ensures ParseEnvLine(EnvLine(key, value)) == Some((key, value))
  {
    if NeedsQuote(value) {
      var e := EscapeValue(value);
      var rest := "\"" + e + "\"";
      assert EnvLine(key, value) == key + ['='] + rest;
      SplitAfter(key, '=', rest);
      assert rest[1..|rest| - 1] == e;
      UnescapeEscape(value);
    } else {
      assert EnvLine(key, value) == key + ['='] + value;
      SplitAfter(key, '=', value);
      if |value| >= 1 {
        assert value[0] != '"' by {
          assert !HasChar(value, '"');
        }
      }
    }
  }


  /** The entries a `.env` file records: those whose value is not `None`, in order. */
  function PresentEntries(env: seq<(string, Option<string>)>): seq<(string, string)>
  {
    if env == [] then []
    else
      var e := env[|env| - 1];
      PresentEntries(env[..|env| - 1]) + (if e.1.Some? then [(e.0, e.1.value)] else [])
  }

  /** Reading the lines back, one at a time. */
  function ParseEnvLines(lines: seq<string>): seq<Option<(string, string)>>
  {
    if lines == [] then [] else ParseEnvLines(lines[..|lines| - 1]) + [ParseEnvLine(lines[|lines| - 1])]
  }

  /** Each entry as a successfully read line. */
  function Parsed(entries: seq<(string, string)>): (r: seq<Option<(string, string)>>)
    ensures |r| == |entries| && forall i :: 0 <= i < |entries| ==> r[i] == Some(entries[i])
  {
    if entries == [] then [] else Parsed(entries[..|entries| - 1]) + [Some(entries[|entries| - 1])]
  }

  /** Every key without "=" in the dictionary. */
  predicate EnvKeysPlain(env: seq<(string, Option<string>)>)
  {
    forall i :: 0 <= i < |env| ==> !HasChar(env[i].0, '=')
  }

  /** The lines of the file read back as exactly the non-`None` entries, in dictionary order. */
  lemma {:induction false} EnvLinesRoundTrip(env: seq<(string, Option<string>)>)
    requires EnvKeysPlain(env)
    ensures ParseEnvLines(EnvLines(env)) == Parsed(PresentEntries(env))
    decreases |env|
  {
    if env != [] {
      var init := env[..|env| - 1];
      var e := env[|env| - 1];
      assert EnvKeysPlain(init) by {
        forall i | 0 <= i < |init| ensures !HasChar(init[i].0, '=') {
          assert init[i] == env[i];
        }
      }
      EnvLinesRoundTrip(init);
      if e.1.Some? {
        EnvLineRoundTrip(e.0, e.1.value);
        ParseEnvLinesAppend(EnvLines(init), EnvLine(e.0, e.1.value));
        var p := PresentEntries(init) + [(e.0, e.1.value)];
        assert PresentEntries(env) == p;
        assert p[..|p| - 1] == PresentEntries(init);
        assert Parsed(p) == Parsed(PresentEntries(init)) + [Some((e.0, e.1.value))];
        assert EnvLines(env) == EnvLines(init) + [EnvLine(e.0, e.1.value)];
      } else {
        assert PresentEntries(env) == PresentEntries(init);
        assert EnvLines(env) == EnvLines(init);
      }
    }
  }

  lemma ParseEnvLinesAppend(lines: seq<string>, line: string)
    ensures ParseEnvLines(lines + [line]) == ParseEnvLines(lines) + [ParseEnvLine(line)]
  {
    assert (lines + [line])[..|lines|] == lines;
  }

  /** Escaping adds no newline. */
  lemma {:induction false} EscapeNoNewline(v: string)
    requires !HasChar(v, '\n')
    ensures !HasChar(EscapeValue(v), '\n')
    decreases |v|
  {
    EscapeValueChars(v);
    if v != [] {
      assert !HasChar(v[1..], '\n') by {
        forall k | 0 <= k < |v| - 1 ensures v[1..][k] != '\n' {
          assert v[1..][k] == v[k + 1];
        }
      }
      EscapeNoNewline(v[1..]);
      var head := EscapeChar(v[0]);
      assert v[0] != '\n';
      forall k | 0 <= k < |head + EscapeValue(v[1..])| ensures (head + EscapeValue(v[1..]))[k] != '\n' {
        if k >= |head| {
          assert (head + EscapeValue(v[1..]))[k] == EscapeValue(v[1..])[k - |head|];
        }
      }
    }
  }

  /** Neither the keys nor the values hold a newline. */
  predicate EnvOneLine(env: seq<(string, Option<string>)>)
  {
    forall i :: 0 <= i < |env| ==> !HasChar(env[i].0, '\n') && (env[i].1.Some? ==> !HasChar(env[i].1.value, '\n'))
  }

  /** A line written for a key and a value without newlines is a single line. */
  lemma EnvLineOneLine(key: string, value: string)
    requires !HasChar(key, '\n') && !HasChar(value, '\n')
    ensures !HasChar(EnvLine(key, value), '\n')
  {
    var line := EnvLine(key, value);
    if NeedsQuote(value) {
      EscapeNoNewline(value);
      var e := EscapeValue(value);
      assert line == key + "=\"" + e + "\"";
      forall k | 0 <= k < |line| ensures line[k] != '\n' {
        if k < |key| {
          assert line[k] == key[k];
        } else if |key| + 2 <= k < |key| + 2 + |e| {
          assert line[k] == e[k - |key| - 2];
        }
      }
    } else {
      assert line == key + "=" + value;
      forall k | 0 <= k < |line| ensures line[k] != '\n' {
        if k < |key| {
          assert line[k] == key[k];
        } else if k > |key| {
          assert line[k] == value[k - |key| - 1];
        }
      }
    }
  }

  lemma {:induction false} EnvLinesOneLine(env: seq<(string, Option<string>)>)
    requires EnvOneLine(env)
    ensures forall i :: 0 <= i < |EnvLines(env)| ==> !HasChar(EnvLines(env)[i], '\n')
    decreases |env|
  {
    if env != [] {
      var init := env[..|env| - 1];
      var e := env[|env| - 1];
      assert EnvOneLine(init) by {
        forall i | 0 <= i < |init| ensures !HasChar(init[i].0, '\n') && (init[i].1.Some? ==> !HasChar(init[i].1.value, '\n')) {
          assert init[i] == env[i];
        }
      }
      EnvLinesOneLine(init);
      if e.1.Some? {
        EnvLineOneLine(e.0, e.1.value);
      }
    }
  }

  /** The header is one line. */
  lemma HeaderOneLine()
    ensures !HasChar(EnvHeader, '\n')
  {
  }

  /** The file reads back as the header line, then the lines of the text after it. */
  lemma ReadEnvFile(env: seq<(string, Option<string>)>)
    ensures ReadLines(EnvFileText(env)) == [EnvHeader] + ReadLines(FileText(EnvLines(env)))
  {
    HeaderOneLine();
    assert ([EnvHeader] + EnvLines(env))[1..] == EnvLines(env);
    ReadLinesCons(EnvHeader, FileText(EnvLines(env)));
  }

  /**
   * The written file reads back as the header followed by exactly the
   * non-`None` entries, in dictionary order, when no key holds "=" and no
   * key or value holds a newline.
   */
  lemma EnvFileRoundTrip(env: seq<(string, Option<string>)>)
    requires EnvKeysPlain(env) && EnvOneLine(env)
    ensures var lines := ReadLines(EnvFileText(env));
      |lines| >= 1 && lines[0] == EnvHeader && ParseEnvLines(lines[1..]) == Parsed(PresentEntries(env))
  {
    HeaderOneLine();
    EnvLinesOneLine(env);
    var lines := [EnvHeader] + EnvLines(env);
    assert forall i :: 0 < i < |lines| ==> lines[i] == EnvLines(env)[i - 1];
    ReadFileText(lines);
    assert lines[1..] == EnvLines(env);
    EnvLinesRoundTrip(env);
  }

  /**
   * A value holding a newline is written unquoted and as is, so the file
   * reads back with an entry the dictionary does not have: `A` set to
   * "x\nB=y" reads back as `A=x` and `B=y`.
   */
  lemma NewlineValueAddsEntry()
    ensures ParseEnvLines(ReadLines(EnvFileText([("A", Some("x\nB=y"))]))[1..]) == [Some(("A", "x")), Some(("B", "y"))]
  {
    var env := [("A", Some("x\nB=y"))];
    NewlineValueLine();
    ReadEnvFile(env);
    NewlineValueText();
    assert ReadLines(EnvFileText(env))[1..] == ["A=x", "B=y"];
    SimpleLines();
  }

  /** The value holding a newline is written as one unquoted line. */
  lemma NewlineValueLine()
    ensures EnvLines([("A", Some("x\nB=y"))]) == ["A=x\nB=y"]
  {
    var env := [("A", Some("x\nB=y"))];
    assert !NeedsQuote("x\nB=y");
    assert env[..0] == [] && env[0] == ("A", Some("x\nB=y"));
    assert EnvLine("A", "x\nB=y") == "A" + "=" + "x\nB=y";
    assert EnvLines(env) == EnvLines([]) + [EnvLine("A", "x\nB=y")];
    assert "A" + "=" + "x\nB=y" == "A=x\nB=y";
  }

  /** That line reads back as two. */
  lemma NewlineValueText()
    ensures ReadLines(FileText(["A=x\nB=y"])) == ["A=x", "B=y"]
  {
    assert !HasChar("A=x", '\n') && !HasChar("B=y", '\n');
    assert FileText(["A=x\nB=y"]) == "A=x" + "\n" + ("B=y" + "\n" + "");
    ReadLinesCons("A=x", "B=y" + "\n" + "");
    ReadLinesCons("B=y", "");
  }

  /** The two lines read as the two entries. */
  lemma SimpleLines()
    ensures ParseEnvLines(["A=x", "B=y"]) == [Some(("A", "x")), Some(("B", "y"))]
  {
    assert !NeedsQuote("x") && !NeedsQuote("y");
    assert EnvLine("A", "x") == "A=x" && EnvLine("B", "y") == "B=y";
    EnvLineRoundTrip("A", "x");
    EnvLineRoundTrip("B", "y");
    ParseEnvLinesAppend(["A=x"], "B=y");
    ParseEnvLinesAppend([], "A=x");
  }

  /**
   * The check at the start of `deploy`: without a function name, at least
   * one of an app, a runner, a project directory or an external wheel is
   * needed.
   */
  function DeployInputCheck(functionName: Option<string>, hasApp: bool, hasRunner: bool,
                            projectDir: Option<string>, externalWheel: Option<string>): (r: Result<()>)
    ensures r.Err? <==> !Truthy(functionName) && !hasApp && !hasRunner && !Truthy(projectDir) && !Truthy(externalWheel)
    ensures r.Err? ==> r.kind == "ValueError"
  {
    if !Truthy(functionName) && !hasApp && !hasRunner && !Truthy(projectDir) && !Truthy(externalWheel) then
      Err("ValueError", "Must provide either app, runner, project_dir, or external_whl_path")
    else Ok(())
  }

  /** The function `stop` deletes: the deployment's resource name, else the deployment id. */
  function StopTarget(deployId: string, resourceName: Option<string>): (name: string)
    ensures Truthy(resourceName) ==> name == resourceName.value
    ensures !Truthy(resourceName) ==> name == deployId
  {
    if Truthy(resourceName) then resourceName.value else deployId
  }

  /** What `stop` reports. */
  datatype StopResult = StopResult(success: bool, message: string)

  /**
   * `stop`: deletes `StopTarget`'s function and marks the deployment
   * "stopped" only when the deletion succeeds; a deployment the state does
   * not know stays unknown. `deleted` and `deleteMessage` are the outcome of
   * `delete`, and `statuses` the state manager's status per deployment.
   */
  function Stop(statuses: map<string, string>, deployId: string, deleted: bool, deleteMessage: Option<string>):
    (r: (StopResult, map<string, string>))
    ensures r.0.success == deleted
    ensures deleted && deployId in statuses ==> r.1 == statuses[deployId := "stopped"]
    ensures !deleted || deployId !in statuses ==> r.1 == statuses
  {
    if deleted then
      (StopResult(true, "FC deployment " + deployId + " deleted successfully"),
       if deployId in statuses then statuses[deployId := "stopped"] else statuses)
    else
      (StopResult(false, "Failed to delete FC deployment: " + deleteMessage.GetOr("Unknown error")), statuses)
  }
}
