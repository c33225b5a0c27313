/** `${NAME}` interpolation of a server's environment and the environment a
    server session is started with. The process environment is a parameter. */
module McpProxy {
  import opened Wrappers
  import opened Text
  import opened JsonValue

  /** A placeholder name: one or more characters, none of them '}'. */
  predicate IsName(name: string) {
    |name| > 0 && '}' !in name
  }

  function Placeholder(name: string): string {
    "${" + name + "}"
  }

  /** The pattern `\$\{([^}]+)\}` matches at position `i` of `s`: "${", a
      character other than '}', and a '}' somewhere later. */
  predicate PlaceholderStartsAt(s: string, i: nat) {
    && i + 2 < |s|
    && s[i] == '$' && s[i + 1] == '{' && s[i + 2] != '}'
    && '}' in s[i + 3..]
  }

  /** The name of the placeholder that `s` starts with, if it starts with one;
      the match ends at the first '}'. */
  function LeadingPlaceholder(s: string): (r: Option<string>)
    ensures r.Some? <==> PlaceholderStartsAt(s, 0)
    ensures r.Some? ==> IsName(r.value) && StartsWith(s, Placeholder(r.value))
  {
    if |s| >= 3 && s[0] == '$' && s[1] == '{' then
      match IndexOf(s[2..], '}')
      case Some(k) =>
        if k > 0 then
          assert s[..k + 3] == Placeholder(s[2..2 + k]);
          Some(s[2..2 + k])
        else None
      case None => None
    else None
  }

  /** A string that starts with `${NAME}` for a valid NAME has that placeholder. */
  lemma LeadingPlaceholderOf(name: string, rest: string)
    requires IsName(name)
    ensures LeadingPlaceholder(Placeholder(name) + rest) == Some(name)
  {
    var s := Placeholder(name) + rest;
    assert s[2..] == name + "}" + rest;
    assert s[2..][|name|] == '}';
    var k := IndexOf(s[2..], '}');
    assert k.Some?;
    assert forall j :: 0 <= j < |name| ==> s[2..][j] == name[j];
    assert k.value == |name|;
    assert s[2..2 + |name|] == name;
  }

  /** `re.sub(r'\$\{([^}]+)\}', replace_var, value)`: scanning left to right, each
      placeholder whose name is a key of `env` becomes that key's value, and any
      other placeholder is kept as it is. */
  function Interpolate(s: string, env: map<string, string>): (r: string)
    ensures |env| == 0 ==> r == s
    decreases |s|
  {
    if s == [] then []
    else match LeadingPlaceholder(s)
      case Some(name) =>
        var n := |name| + 3;
        assert s[..n] + s[n..] == s;
        (if name in env then env[name] else s[..n]) + Interpolate(s[n..], env)
      case None =>
        assert [s[0]] + s[1..] == s;
        [s[0]] + Interpolate(s[1..], env)
  }

  /** A known placeholder is replaced by its value, and the value is not scanned
      again: scanning resumes after the placeholder. */
  lemma InterpolateKnown(name: string, rest: string, env: map<string, string>)
    requires IsName(name) && name in env
    ensures Interpolate(Placeholder(name) + rest, env) == env[name] + Interpolate(rest, env)
  {
    var s := Placeholder(name) + rest;
    LeadingPlaceholderOf(name, rest);
    assert s[|name| + 3..] == rest;
  }

  /** An unknown placeholder stays in the output verbatim, braces included. */
  lemma InterpolateUnknown(name: string, rest: string, env: map<string, string>)
    requires IsName(name) && name !in env
    ensures Interpolate(Placeholder(name) + rest, env) == Placeholder(name) + Interpolate(rest, env)
  {
    var s := Placeholder(name) + rest;
    LeadingPlaceholderOf(name, rest);
    assert s[..|name| + 3] == Placeholder(name);
    assert s[|name| + 3..] == rest;
  }

  /** Where no placeholder starts, one character is copied. */
  lemma CopiesOneChar(c: char, rest: string, env: map<string, string>)
    requires !PlaceholderStartsAt([c] + rest, 0)
    ensures Interpolate([c] + rest, env) == [c] + Interpolate(rest, env)
  {
    assert ([c] + rest)[1..] == rest;
  }

  /** '$', any character and then '}' start no placeholder, so the three are
      copied. */
  lemma CopiesClosedPair(open: char, rest: string, env: map<string, string>)
    ensures Interpolate(['$', open, '}'] + rest, env) == ['$', open, '}'] + Interpolate(rest, env)
  {
    var u := ['}'] + rest;
    var t := [open] + u;
    var s := ['$', open, '}'] + rest;
    assert s == ['$'] + t;
    calc {
      Interpolate(s, env);
      == { assert t[1] == '}'; CopiesOneChar('$', t, env); }
      ['$'] + Interpolate(t, env);
      == { CopiesOneChar(open, u, env); }
      ['$'] + ([open] + Interpolate(u, env));
      == { CopiesOneChar('}', rest, env); }
      ['$'] + ([open] + (['}'] + Interpolate(rest, env)));
      ['$', open, '}'] + Interpolate(rest, env);
    }
  }

  /** `${}` has an empty name and is not a placeholder: it is copied as text. */
  lemma EmptyBracesKept(rest: string, env: map<string, string>)
    ensures Interpolate("${}" + rest, env) == "${}" + Interpolate(rest, env)
  {
    CopiesClosedPair('{', rest, env);
  }

  /** No placeholder starts anywhere in `s`. */
  predicate NoPlaceholder(s: string) {
    forall i: nat :: i < |s| ==> !PlaceholderStartsAt(s, i)
  }

  /** A string with no placeholder comes back unchanged. */
  lemma {:induction false} InterpolateNoPlaceholder(s: string, env: map<string, string>)
    requires NoPlaceholder(s)
    ensures Interpolate(s, env) == s
    decreases |s|
  {
    if s != [] {
      assert !PlaceholderStartsAt(s, 0);
      forall i: nat | i < |s[1..]|
        ensures !PlaceholderStartsAt(s[1..], i)
      {
        assert !PlaceholderStartsAt(s, i + 1);
        if i + 3 <= |s[1..]| {
          assert s[1..][i + 3..] == s[i + 4..];
        }
      }
      InterpolateNoPlaceholder(s[1..], env);
    }
  }

  /** Substitution is single-pass: a value that itself looks like a placeholder
      is inserted as it is. */
  lemma InterpolateSinglePass()
    ensures Interpolate("${A}", map["A" := "${B}", "B" := "x"]) == "${B}"
  {
    InterpolateKnown("A", "", map["A" := "${B}", "B" := "x"]);
    assert Placeholder("A") + "" == "${A}";
  }

  /** `server_config.get("env") or {}`: a missing or falsy `env` is an empty map,
      a dict is used as it is, and any other truthy value raises when its
      `.items()` is taken. */
  function ServerEnv(config: map<string, Json>): (r: Result<map<string, Json>>)
    ensures r.Ok? && r.value != map[] <==> "env" in config && config["env"].JObj? && config["env"].fields != map[]
    ensures r.Err? <==> "env" in config && Truthy(config["env"]) && !config["env"].JObj?
    ensures "env" in config && config["env"].JObj? ==> r == Ok(config["env"].fields)
    ensures "env" !in config || !Truthy(config["env"]) ==> r == Ok(map[])
  {
    if "env" !in config || !Truthy(config["env"]) then Ok(map[])
    else if config["env"].JObj? then Ok(config["env"].fields)
    else Err("object has no attribute 'items'")
  }

  /** The loop of `apply` that fills `interpolated_env`: string values are
      interpolated from the process environment, other values are copied. */
  method InterpolateServerEnv(serverEnv: map<string, Json>, processEnv: map<string, string>)
    returns (interpolated: map<string, Json>)
    ensures interpolated.Keys == serverEnv.Keys
    ensures forall key :: key in serverEnv && serverEnv[key].JStr? ==>
      interpolated[key] == JStr(Interpolate(serverEnv[key].s, processEnv))
    ensures forall key :: key in serverEnv && !serverEnv[key].JStr? ==>
      interpolated[key] == serverEnv[key]
  {
    interpolated := map[];
    var pending := serverEnv.Keys;
    while pending != {}
      invariant pending <= serverEnv.Keys
      invariant interpolated.Keys == serverEnv.Keys - pending
      invariant forall key :: key in interpolated && serverEnv[key].JStr? ==>
        interpolated[key] == JStr(Interpolate(serverEnv[key].s, processEnv))
      invariant forall key :: key in interpolated && !serverEnv[key].JStr? ==>
        interpolated[key] == serverEnv[key]
      decreases pending
    {
      var key :| key in pending;
      var value := serverEnv[key];
      if value.JStr? {
        interpolated := interpolated[key := JStr(Interpolate(value.s, processEnv))];
      } else {
        interpolated := interpolated[key := value];
      }
      pending := pending - {key};
    }
  }

  /** `{**env_vars, **interpolated_env}`: the server's entries override the
      process entries with the same key. */
  function MergeEnv(processEnv: map<string, string>, serverEnv: map<string, Json>): (r: map<string, Json>)
    ensures r.Keys == processEnv.Keys + serverEnv.Keys
    ensures forall key :: key in serverEnv ==> r[key] == serverEnv[key]
    ensures forall key :: key in processEnv && key !in serverEnv ==> r[key] == JStr(processEnv[key])
  {
    (map key | key in processEnv :: JStr(processEnv[key])) + serverEnv
  }

  /** The environment `apply` starts a server session with (lines 61-75). */
  method SessionEnv(config: map<string, Json>, processEnv: map<string, string>)
    returns (r: Result<map<string, Json>>)
    ensures r.Err? <==> ServerEnv(config).Err?
    ensures r.Ok? ==> r.value.Keys == processEnv.Keys + ServerEnv(config).value.Keys
    ensures r.Ok? ==> forall key :: key in ServerEnv(config).value && ServerEnv(config).value[key].JStr? ==>
      r.value[key] == JStr(Interpolate(ServerEnv(config).value[key].s, processEnv))
    ensures r.Ok? ==> forall key :: key in ServerEnv(config).value && !ServerEnv(config).value[key].JStr? ==>
      r.value[key] == ServerEnv(config).value[key]
    ensures r.Ok? ==> forall key :: key in processEnv && key !in ServerEnv(config).value ==>
      r.value[key] == JStr(processEnv[key])
  {
    match ServerEnv(config)
    case Err(e) =>
      r := Err(e);
    case Ok(serverEnv) =>
      var interpolated := InterpolateServerEnv(serverEnv, processEnv);
      r := Ok(MergeEnv(processEnv, interpolated));
  }
}
