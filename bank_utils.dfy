/**
 * The error helpers of the bank-statement server: `format_error`, which
 * wraps a message and a code into an MCP error, and `require_env_vars`,
 * which reads the named environment variables or reports every one that is
 * missing.
 */
module BankUtils {
  import opened Strings
  import opened Common

  const MissingPrefix: string := "Отсутствуют обязательные переменные окружения: "

  /** `format_error(message, code=-32603)` */
  function FormatError(message: string, code: int := InternalError): (e: Error)
    ensures e.McpError? && e.code == code && e.message == message
  {
    McpError(code, message)
  }

  /** The names, in their order, whose variable is unset or empty: `[var for var in var_names if not os.getenv(var)]`. */
  function Missing(env: Env, names: seq<string>): (m: seq<string>)
    ensures |m| <= |names|
    ensures forall i :: 0 <= i < |m| ==> m[i] in names && !EnvSet(env, m[i])
    ensures forall i :: 0 <= i < |names| && !EnvSet(env, names[i]) ==> names[i] in m
    decreases |names|
  {
    if names == [] then []
    else
      var rest := Missing(env, names[1..]);
      assert forall i :: 0 <= i < |names[1..]| ==> names[1..][i] == names[i + 1];
      if EnvSet(env, names[0]) then rest else [names[0]] + rest
  }

  /** `require_env_vars(var_names)` */
  function RequireEnvVars(env: Env, names: seq<string>): (r: Result<map<string, string>>)
    ensures r.Ok? <==> Missing(env, names) == []
    ensures r.Err? ==> r.error == McpError(InvalidParams, MissingPrefix + Join(", ", Missing(env, names)))
  {
    var missing := Missing(env, names);
    if missing != [] then Err(FormatError(MissingPrefix + Join(", ", missing), InvalidParams))
    else Ok(map name | name in names :: GetEnv(env, name, ""))
  }

  /** With nothing missing, the result maps exactly the requested names to their (non-empty) values. */
  lemma RequiredValues(env: Env, names: seq<string>)
    requires RequireEnvVars(env, names).Ok?
    ensures RequireEnvVars(env, names).value.Keys == set name | name in names
    ensures forall name :: name in names ==> name in env && RequireEnvVars(env, names).value[name] == env[name] != ""
  {
    forall name | name in names
      ensures EnvSet(env, name)
    {
      var i :| 0 <= i < |names| && names[i] == name;
    }
  }

  /** Any requested variable that is unset or empty makes the call fail with -32602, and the message names it. */
  lemma MissingReported(env: Env, names: seq<string>, i: nat)
    requires i < |names| && !EnvSet(env, names[i])
    ensures RequireEnvVars(env, names).Err? && RequireEnvVars(env, names).error.code == InvalidParams
    ensures names[i] in Missing(env, names)
  {
  }

  /** The missing names keep the order of the request: the names of a concatenation are the names of each part. */
  lemma {:induction false} MissingInOrder(env: Env, a: seq<string>, b: seq<string>)
    ensures Missing(env, a + b) == Missing(env, a) + Missing(env, b)
    decreases |a|
  {
    if a == [] {
      assert a + b == b;
    } else {
      assert (a + b)[1..] == a[1..] + b;
      MissingInOrder(env, a[1..], b);
    }
  }

  /** A single missing variable gives exactly its name after the prefix. */
  lemma OneMissing(env: Env, name: string)
    requires !EnvSet(env, name)
    ensures RequireEnvVars(env, [name]) == Err(McpError(InvalidParams, MissingPrefix + name))
  {
    assert [name][1..] == [];
    assert Missing(env, [name]) == [name];
  }
}
