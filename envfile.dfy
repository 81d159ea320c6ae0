/** `ConfigurationExtensions`: the `.env` loader (`LoadEnvFile`), the
    choice of the file (`LoadEnvironmentVariables`) and the option values
    `AddAppConfiguration` derives from the environment. The process
    environment is a map from names to values; a name that is not in the
    map is unset. */
module EnvConfiguration {
  import opened Wrappers
  import opened Text

  type Environment = map<string, string>

  /** `Environment.GetEnvironmentVariable(name)`, `None` for null. */
  function Lookup(env: Environment, name: string): Option<string> {
    if name in env then Some(env[name]) else None
  }

  /** `string.IsNullOrEmpty(GetEnvironmentVariable(name))`. */
  predicate IsUnset(env: Environment, name: string) {
    name !in env || env[name] == ""
  }

  /** `Environment.SetEnvironmentVariable(name, value)`: the runtime refuses
      an empty name, one starting with U+0000 or one holding `=`, and an
      empty value (or one starting with U+0000) deletes the variable. */
  function SetVariable(env: Environment, name: string, value: string): (r: Result<Environment>)
    ensures r.Ok? <==> name != "" && name[0] != '\0' && '=' !in name
    ensures r.Ok? && (value == "" || value[0] == '\0') ==> r.value == env - {name}
    ensures r.Ok? && value != "" && value[0] != '\0' ==> r.value == env[name := value]
  {
    if name == "" || name[0] == '\0' || '=' in name then Err("ArgumentException")
    else if value == "" || value[0] == '\0' then Ok(env - {name})
    else Ok(env[name := value])
  }

  // ---------------------------------------------------------------------
  // One line of a .env file

  /** Line `line` after `Trim()`: blank lines and comments assign nothing. */
  predicate IsIgnorable(t: string) {
    t == "" || StartsWith(t, "#")
  }

  /** One pair of surrounding double quotes removed. A value that is a lone
      `"` both starts and ends with a quote, and `Substring(1, -1)` throws. */
  function Unquote(value: string): (r: Result<string>)
    ensures |value| >= 2 && value[0] == '"' && value[|value| - 1] == '"' ==> r == Ok(value[1..|value| - 1])
    ensures value == "\"" ==> r.Err?
    ensures !(value != [] && value[0] == '"' && value[|value| - 1] == '"') ==> r == Ok(value)
  {
    if value != [] && value[0] == '"' && value[|value| - 1] == '"' then
      if |value| < 2 then Err("ArgumentOutOfRangeException") else Ok(value[1..|value| - 1])
    else Ok(value)
  }

  /** What one line of the file asks for. */
  datatype LineAction = Ignore | Assign(name: string, value: string) | Throw(error: string)

  /** The split is at the first `=`, which must not be the first character;
      name and value are trimmed, and the value unquoted. */
  function ParseLine(line: string): (r: LineAction)
    ensures IsIgnorable(Trim(line)) ==> r == Ignore
    ensures IndexOf(Trim(line), '=').None? ==> r == Ignore
    ensures IndexOf(Trim(line), '=') == Some(0) ==> r == Ignore
    ensures r.Assign? ==> '=' !in r.name
  {
    var t := Trim(line);
    if IsIgnorable(t) then Ignore
    else
      match IndexOf(t, '=')
      case None => Ignore
      case Some(i) =>
        if i == 0 then Ignore
        else
          var name := Trim(t[..i]);
          TrimmedHasNoEquals(t[..i]);
          match Unquote(Trim(t[i + 1..]))
          case Err(e) => Throw(e)
          case Ok(value) => Assign(name, value)
  }

  lemma TrimmedHasNoEquals(s: string)
    requires '=' !in s
    ensures '=' !in Trim(s)
  {
    var t := TrimStart(s);
    TrimStartIsSuffix(s);
    TrimEndIsPrefix(t);
    assert forall k :: 0 <= k < |t| ==> t[k] == s[|s| - |t| + k];
    var r := TrimEnd(t);
    assert forall k :: 0 <= k < |r| ==> r[k] == t[k];
  }

  /** The effect of one parsed line: an assignment applies only to a
      variable that is unset or empty. */
  function Apply(env: Environment, action: LineAction): Result<Environment> {
    match action
    case Ignore => Ok(env)
    case Throw(e) => Err(e)
    case Assign(name, value) => if IsUnset(env, name) then SetVariable(env, name, value) else Ok(env)
  }

  /** The environment after the actions, in order; the first one that
      throws ends the loop (the `catch` is outside it), keeping what came
      before. */
  function ApplyAll(env: Environment, actions: seq<LineAction>): Environment
    decreases |actions|
  {
    if actions == [] then env
    else
      match Apply(env, actions[0])
      case Err(_) => env
      case Ok(next) => ApplyAll(next, actions[1..])
  }

  /** Each line parsed on its own. */
  function ParseLines(lines: seq<string>): (r: seq<LineAction>)
    ensures |r| == |lines| && forall i :: 0 <= i < |lines| ==> r[i] == ParseLine(lines[i])
  {
    seq(|lines|, i requires 0 <= i < |lines| => ParseLine(lines[i]))
  }

  /** `LoadEnvFile` as a value: a file that cannot be read changes nothing. */
  function LoadFile(env: Environment, lines: Option<seq<string>>): (r: Environment)
    ensures lines.None? ==> r == env
    ensures forall name :: name in env && env[name] != "" ==> name in r && r[name] == env[name]
  {
    match lines
    case None => env
    case Some(ls) =>
      KeepsSetVariables(env, ParseLines(ls));
      ApplyAll(env, ParseLines(ls))
  }

  // ---------------------------------------------------------------------
  // Properties of the loader

  /** A variable that holds a non-empty value keeps it. */
  lemma {:induction false} NoOverwrite(env: Environment, actions: seq<LineAction>, name: string)
    requires name in env && env[name] != ""
    ensures name in ApplyAll(env, actions) && ApplyAll(env, actions)[name] == env[name]
    decreases |actions|
  {
    if actions != [] {
      match Apply(env, actions[0])
      case Err(_) =>
      case Ok(next) =>
        assert name in next && next[name] == env[name];
        NoOverwrite(next, actions[1..], name);
    }
  }

  /** Every variable that holds a non-empty value keeps it. */
  lemma KeepsSetVariables(env: Environment, actions: seq<LineAction>)
    ensures forall name :: name in env && env[name] != "" ==>
      name in ApplyAll(env, actions) && ApplyAll(env, actions)[name] == env[name]
  {
    forall name | name in env && env[name] != ""
      ensures name in ApplyAll(env, actions) && ApplyAll(env, actions)[name] == env[name]
    {
      NoOverwrite(env, actions, name);
    }
  }

  /** Does the action assign to `name`? */
  predicate Names(action: LineAction, name: string) {
    action.Assign? && action.name == name
  }

  /** Variables the file does not name stay as they were. */
  lemma {:induction false} OnlyNamedVariablesChange(env: Environment, actions: seq<LineAction>, name: string)
    requires forall i :: 0 <= i < |actions| ==> !Names(actions[i], name)
    ensures Lookup(ApplyAll(env, actions), name) == Lookup(env, name)
    decreases |actions|
  {
    if actions != [] {
      match Apply(env, actions[0])
      case Err(_) =>
      case Ok(next) =>
        assert Lookup(next, name) == Lookup(env, name);
        OnlyNamedVariablesChange(next, actions[1..], name);
    }
  }

  /** A line that throws ends the file: nothing after it is applied. */
  lemma {:induction false} FaultStops(env: Environment, before: seq<LineAction>, bad: LineAction, after: seq<LineAction>)
    requires bad.Throw?
    ensures ApplyAll(env, before + [bad] + after) == ApplyAll(env, before)
    decreases |before|
  {
    if before == [] {
      assert (before + [bad] + after)[0] == bad;
    } else {
      assert (before + [bad] + after)[0] == before[0];
      assert (before + [bad] + after)[1..] == before[1..] + [bad] + after;
      match Apply(env, before[0])
      case Err(_) =>
      case Ok(next) => FaultStops(next, before[1..], bad, after);
    }
  }

  /** A name `SetEnvironmentVariable` accepts (the parser never yields one
      holding `=`). */
  predicate ValidName(name: string) {
    name != "" && name[0] != '\0' && '=' !in name
  }

  /** Does the action give `name` a value that is kept (not a deletion)? */
  predicate AssignsValue(action: LineAction, name: string) {
    action.Assign? && action.name == name && action.value != "" && action.value[0] != '\0'
  }

  /** An action that cannot throw. */
  predicate Harmless(action: LineAction) {
    action.Ignore? || (action.Assign? && ValidName(action.name))
  }

  /** With duplicate names the first non-empty value wins: when action `i`
      is the first to give `name` a value and nothing throws before it,
      `name` ends up with that value. */
  lemma {:induction false} FirstValueWins(env: Environment, actions: seq<LineAction>, name: string, i: nat)
    requires IsUnset(env, name) && ValidName(name)
    requires i < |actions| && AssignsValue(actions[i], name)
    requires forall j :: 0 <= j < i ==> !AssignsValue(actions[j], name) && Harmless(actions[j])
    ensures name in ApplyAll(env, actions) && ApplyAll(env, actions)[name] == actions[i].value
    decreases i
  {
    var step := Apply(env, actions[0]);
    if i == 0 {
      assert step == Ok(env[name := actions[0].value]);
      NoOverwrite(step.value, actions[1..], name);
    } else {
      assert step.Ok? && IsUnset(step.value, name);
      assert forall j :: 0 <= j < i - 1 ==> actions[1..][j] == actions[j + 1];
      FirstValueWins(step.value, actions[1..], name, i - 1);
    }
  }

  /** On a file, the same: the first line to give `name` a value decides it. */
  lemma FirstLineWins(env: Environment, lines: seq<string>, name: string, i: nat)
    requires IsUnset(env, name) && ValidName(name)
    requires i < |lines| && AssignsValue(ParseLine(lines[i]), name)
    requires forall j :: 0 <= j < i ==> !AssignsValue(ParseLine(lines[j]), name) && Harmless(ParseLine(lines[j]))
    ensures name in LoadFile(env, Some(lines)) && LoadFile(env, Some(lines))[name] == ParseLine(lines[i]).value
  {
    FirstValueWins(env, ParseLines(lines), name, i);
  }

  // ---------------------------------------------------------------------
  // A line written as `name=value`

  /** A name that the parser reads back unchanged. */
  predicate IsPlainName(name: string) {
    && name != [] && name[0] != '#' && name[0] != '\0'
    && !IsWhiteSpace(name[0]) && !IsWhiteSpace(name[|name| - 1])
    && '=' !in name
  }

  /** `name="value"` assigns exactly `value`, whatever it holds: white
      space, `=` signs and quotes inside the quotes are kept. */
  lemma QuotedAssignment(name: string, value: string)
    requires IsPlainName(name)
    ensures ParseLine(name + "=\"" + value + "\"") == Assign(name, value)
  {
    var rhs := "\"" + value + "\"";
    var line := name + "=" + rhs;
    assert line == name + "=\"" + value + "\"";
    LineUntrimmed(name, rhs);
    EqualsAfterName(name, rhs);
    TrimUnchanged(name);
    QuotedUntrimmed(value);
  }

  /** `name=value` with an unquoted value assigns it; an `=` inside the
      value stays part of it. */
  lemma PlainAssignment(name: string, value: string)
    requires IsPlainName(name)
    requires value != [] && !IsWhiteSpace(value[0]) && !IsWhiteSpace(value[|value| - 1]) && value[0] != '"'
    ensures ParseLine(name + "=" + value) == Assign(name, value)
  {
    LineUntrimmed(name, value);
    EqualsAfterName(name, value);
    TrimUnchanged(name);
    TrimUnchanged(value);
  }

  /** A value that is a lone quote makes the line throw. */
  lemma LoneQuoteThrows(name: string)
    requires IsPlainName(name)
    ensures ParseLine(name + "=\"").Throw?
  {
    LineUntrimmed(name, "\"");
    EqualsAfterName(name, "\"");
    TrimUnchanged("\"");
  }

  /** A comment line assigns nothing, whatever follows the `#`. */
  lemma CommentIgnored(text: string)
    ensures ParseLine("#" + text).Ignore?
  {
    var line := "#" + text;
    TrimStartIsSuffix(line);
    TrimEndIsPrefix(TrimStart(line));
    assert Trim(line) == [] || Trim(line)[0] == '#';
  }

  /** `name + "=" + rest` has nothing to trim when the name does not start
      with white space and the rest does not end with it. */
  lemma LineUntrimmed(name: string, rest: string)
    requires name != [] && !IsWhiteSpace(name[0])
    requires rest != [] && !IsWhiteSpace(rest[|rest| - 1])
    ensures Trim(name + "=" + rest) == name + "=" + rest
    ensures !IsIgnorable(name + "=" + rest) <== name[0] != '#'
  {
    var line := name + "=" + rest;
    assert line[0] == name[0];
    assert line[|line| - 1] == rest[|rest| - 1];
    TrimUnchanged(line);
  }

  /** A quoted value is its own trim and unquotes to the value. */
  lemma QuotedUntrimmed(value: string)
    ensures Trim("\"" + value + "\"") == "\"" + value + "\""
    ensures Unquote("\"" + value + "\"") == Ok(value)
  {
    var rhs := "\"" + value + "\"";
    TrimUnchanged(rhs);
    assert rhs[1..|rhs| - 1] == value;
  }

  /** The first `=` of `name + "=" + rest` is right after the name. */
  lemma EqualsAfterName(name: string, rest: string)
    requires '=' !in name
    ensures IndexOf(name + "=" + rest, '=') == Some(|name|)
    ensures (name + "=" + rest)[..|name|] == name
    ensures (name + "=" + rest)[|name| + 1..] == rest
  {
    var s := name + "=" + rest;
    assert s[|name|] == '=';
    assert s[..|name|] == name;
  }

  // ---------------------------------------------------------------------
  // The file chosen by LoadEnvironmentVariables

  /** The files that exist, by name relative to the working directory:
      `Some(lines)` when the file can be read, `None` when reading it
      throws. */
  type Files = map<string, Option<seq<string>>>

  /** `[.env.<environment>, .env]`, the environment name lower-cased and
      "Development" when `ASPNETCORE_ENVIRONMENT` is unset. */
  function Candidates(env: Environment): (r: seq<string>)
    ensures |r| == 2 && r[1] == ".env"
    ensures r[0] == ".env." + LowerAscii(Lookup(env, "ASPNETCORE_ENVIRONMENT").GetOr("Development"))
  {
    [".env." + LowerAscii(Lookup(env, "ASPNETCORE_ENVIRONMENT").GetOr("Development")), ".env"]
  }

  /** The first candidate that exists, if any. */
  function ChosenFile(env: Environment, files: Files): (r: Option<string>)
    ensures r.Some? ==> r.value in files && r.value in Candidates(env)
    ensures r.None? <==> forall c :: c in Candidates(env) ==> c !in files
    ensures Candidates(env)[0] in files ==> r == Some(Candidates(env)[0])
  {
    var cs := Candidates(env);
    if cs[0] in files then Some(cs[0]) else if cs[1] in files then Some(cs[1]) else None
  }

  /** `LoadEnvironmentVariables` as a value: only the chosen file is read. */
  function LoadResult(env: Environment, files: Files): Environment {
    match ChosenFile(env, files)
    case None => env
    case Some(f) => LoadFile(env, files[f])
  }

  /** When the environment-specific file exists, `.env` is never read. */
  lemma SpecificFileShadowsDefault(env: Environment, files: Files)
    requires Candidates(env)[0] in files
    ensures LoadResult(env, files) == LoadFile(env, files[Candidates(env)[0]])
  {
  }

  /** The process environment, updated in place by the loader. */
  class ProcessEnvironment {
    var vars: Environment

    constructor (initial: Environment)
      ensures vars == initial
    {
      vars := initial;
    }

    /** `LoadEnvFile`: the loop over the lines, left at the first line
        that throws. */
    method LoadEnvFile(lines: Option<seq<string>>)
      modifies this
      ensures vars == LoadFile(old(vars), lines)
    {
      if lines.None? {
        return;
      }
      var ls := lines.value;
      ghost var actions := ParseLines(ls);
      for i := 0 to |ls|
        invariant ApplyAll(vars, actions[i..]) == ApplyAll(old(vars), actions)
      {
        assert actions[i..][1..] == actions[i + 1..];
        match ParseLine(ls[i])
        case Ignore =>
        case Throw(_) =>
          return;
        case Assign(name, value) =>
          if IsUnset(vars, name) {
            var updated := SetVariable(vars, name, value);
            if updated.Err? {
              return;
            }
            vars := updated.value;
          }
      }
    }

    /** `LoadEnvironmentVariables`: the first existing candidate is loaded,
        then the loop breaks. */
    method LoadEnvironmentVariables(files: Files)
      modifies this
      ensures vars == LoadResult(old(vars), files)
    {
      var candidates := Candidates(vars);
      for i := 0 to |candidates|
        invariant forall j :: 0 <= j < i ==> candidates[j] !in files
      {
        if candidates[i] in files {
          LoadEnvFile(files[candidates[i]]);
          break;
        }
      }
    }
  }

  // ---------------------------------------------------------------------
  // AddAppConfiguration

  datatype TextGenerateServiceConfig = TextGenerateServiceConfig(baseUrl: string, timeout: int, retryCount: int)

  datatype AppHealthCheckConfig = AppHealthCheckConfig(interval: string, timeout: string, path: string, reactivationPeriod: string)

  datatype LoadBalancingConfig = LoadBalancingConfig(policy: string)

  /** `int.Parse(s)`: the value, or the exception a non-integer text raises. */
  function IntParse(s: string): (r: Result<int>)
    ensures r.Ok? <==> ParseI32(Some(s)).Some?
    ensures r.Ok? ==> r.value == ParseI32(Some(s)).value
  {
    match ParseI32(Some(s))
    case Some(v) => Ok(v)
    case None => Err("FormatException")
  }

  /** The `TextGenerateServiceConfig` options: each variable, or its
      default when unset; an integer that does not parse throws. */
  function TextGenerateOptions(env: Environment): (r: Result<TextGenerateServiceConfig>)
    ensures r.Ok? <==> (IntParse(Lookup(env, "TEXT_GENERATE_TIMEOUT").GetOr("30")).Ok?
      && IntParse(Lookup(env, "TEXT_GENERATE_RETRY_COUNT").GetOr("3")).Ok?)
    ensures r.Ok? ==> r.value.baseUrl == Lookup(env, "TEXT_GENERATE_BASE_URL").GetOr("http://127.0.0.1:8000")
    ensures r.Ok? ==> r.value.timeout == IntParse(Lookup(env, "TEXT_GENERATE_TIMEOUT").GetOr("30")).value
    ensures r.Ok? ==> r.value.retryCount == IntParse(Lookup(env, "TEXT_GENERATE_RETRY_COUNT").GetOr("3")).value
  {
    var baseUrl := Lookup(env, "TEXT_GENERATE_BASE_URL").GetOr("http://127.0.0.1:8000");
    match (IntParse(Lookup(env, "TEXT_GENERATE_TIMEOUT").GetOr("30")), IntParse(Lookup(env, "TEXT_GENERATE_RETRY_COUNT").GetOr("3")))
    case (Ok(timeout), Ok(retries)) => Ok(TextGenerateServiceConfig(baseUrl, timeout, retries))
    case (Err(e), _) => Err(e)
    case (_, Err(e)) => Err(e)
  }

  /** An unset timeout is 30 seconds and an unset retry count is 3,
      whatever else the environment holds; the other option must still parse. */
  lemma UnsetIntegerDefaults(env: Environment)
    ensures "TEXT_GENERATE_TIMEOUT" !in env && TextGenerateOptions(env).Ok? ==> TextGenerateOptions(env).value.timeout == 30
    ensures "TEXT_GENERATE_RETRY_COUNT" !in env && TextGenerateOptions(env).Ok? ==> TextGenerateOptions(env).value.retryCount == 3
    ensures ("TEXT_GENERATE_TIMEOUT" !in env && "TEXT_GENERATE_RETRY_COUNT" in env) ==>
      (TextGenerateOptions(env).Ok? <==> ParseI32(Some(env["TEXT_GENERATE_RETRY_COUNT"])).Some?)
  {
    ParseI32OfRendering(30);
    ParseI32OfRendering(3);
    assert NatToString(30) == "30";
    assert NatToString(3) == "3";
  }

  function HealthCheckOptions(env: Environment): (r: AppHealthCheckConfig)
    ensures r.interval == Lookup(env, "HEALTH_CHECK_INTERVAL").GetOr("00:00:30")
    ensures r.timeout == Lookup(env, "HEALTH_CHECK_TIMEOUT").GetOr("00:00:05")
    ensures r.path == Lookup(env, "HEALTH_CHECK_PATH").GetOr("/api/system/server-info")
    ensures r.reactivationPeriod == Lookup(env, "PASSIVE_HEALTH_REACTIVATION_PERIOD").GetOr("00:00:10")
  {
    AppHealthCheckConfig(
      Lookup(env, "HEALTH_CHECK_INTERVAL").GetOr("00:00:30"),
      Lookup(env, "HEALTH_CHECK_TIMEOUT").GetOr("00:00:05"),
      Lookup(env, "HEALTH_CHECK_PATH").GetOr("/api/system/server-info"),
      Lookup(env, "PASSIVE_HEALTH_REACTIVATION_PERIOD").GetOr("00:00:10"))
  }

  function LoadBalancingOptions(env: Environment): (r: LoadBalancingConfig)
    ensures r.policy == Lookup(env, "LOAD_BALANCING_POLICY").GetOr("RoundRobin")
  {
    LoadBalancingConfig(Lookup(env, "LOAD_BALANCING_POLICY").GetOr("RoundRobin"))
  }

  /** An empty environment yields the documented defaults. */
  lemma DefaultOptions()
    ensures TextGenerateOptions(map[]) == Ok(TextGenerateServiceConfig("http://127.0.0.1:8000", 30, 3))
    ensures HealthCheckOptions(map[]) == AppHealthCheckConfig("00:00:30", "00:00:05", "/api/system/server-info", "00:00:10")
    ensures LoadBalancingOptions(map[]) == LoadBalancingConfig("RoundRobin")
  {
    ParseI32OfRendering(30);
    ParseI32OfRendering(3);
    assert NatToString(30) == "30";
    assert NatToString(3) == "3";
  }

  /** A set but non-numeric timeout makes the options throw. */
  lemma NonNumericTimeoutThrows(env: Environment)
    requires Lookup(env, "TEXT_GENERATE_TIMEOUT") == Some("abc")
    ensures TextGenerateOptions(env).Err?
  {
    assert NumberBody("abc") == "abc";
    assert !IsDigit('a');
  }
}
