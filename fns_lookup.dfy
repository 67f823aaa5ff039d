/**
 * What the api-fns.ru lookup tools share: the FNS_API_TOKEN check that
 * precedes every request, the GET request they issue, the optional query
 * parameters they add only when truthy, the two `except` clauses around the
 * call, and the final `ToolResult` with the stripped human text.
 */
module FnsLookup {
  import opened Wrappers
  import opened JsonValues
  import opened Strings
  import opened Common
  import opened FnsUtils

  const TokenVar: string := "FNS_API_TOKEN"
  const ApiBase: string := "https://api-fns.ru/api/"
  const TokenMissingMessage: string := "Не указан FNS_API_TOKEN"
  const ApiStatusPrefix: string := "API-ФНС вернула ошибку: "

  /** Raised before any request when FNS_API_TOKEN is unset or empty. */
  function TokenMissing(): Error {
    McpError(InvalidParams, TokenMissingMessage)
  }

  /** Every mode except "test" calls the API (the lookup tools know no other switch). */
  predicate ApiMode(env: Env) {
    FnsMode(env) != "test"
  }

  /** `f"API-ФНС вернула ошибку: {e.response.status_code}"` */
  function ApiStatusError(status: int): Error {
    McpError(InternalError, ApiStatusPrefix + IntToString(status))
  }

  /**
   * The two handlers around the API call: an HTTP status error reports the
   * status, any other exception becomes the tool's own generic message.
   */
  function ApiFailure(e: Error, generic: string): (r: Error)
    ensures r.McpError? && r.code == InternalError
    ensures e.HttpStatusError? ==> r == ApiStatusError(e.status)
    ensures !e.HttpStatusError? ==> r.message == generic
  {
    if e.HttpStatusError? then ApiStatusError(e.status) else McpError(InternalError, generic)
  }

  /** The outcome of the `try` block, with its exception mapped by `ApiFailure`. */
  function Guarded(r: Result<ToolResult>, generic: string): (g: Result<ToolResult>)
    ensures r.Ok? ==> g == r
    ensures r.Err? ==> g.Err? && g.error.McpError? && g.error.code == InternalError
  {
    if r.Ok? then r else Err(ApiFailure(r.error, generic))
  }

  /** The GET request to an api-fns.ru endpoint. */
  function ApiGet(endpoint: string, params: seq<(string, Json)>, timeout: real): (q: Request)
    ensures q.verb == GET && q.url == ApiBase + endpoint && q.params == params && q.payload == None
  {
    Request(GET, ApiBase + endpoint, [], params, None, timeout)
  }

  /** `if value: params[key] = value` on a dict that does not yet hold `key`. */
  function AddIfTruthy(params: seq<(string, Json)>, key: string, value: Json): (r: seq<(string, Json)>)
    ensures Truthy(value) ==> r == params + [(key, value)]
    ensures !Truthy(value) ==> r == params
  {
    if Truthy(value) then params + [(key, value)] else params
  }

  /** An optional string argument as Python holds it: `None` or the string. */
  function OptStr(o: Option<string>): (v: Json)
    ensures Truthy(v) <==> o.Some? && o.value != ""
  {
    if o.None? then JNull else JStr(o.value)
  }

  /** An optional integer argument: `None` or the integer. */
  function OptInt(o: Option<int>): (v: Json)
    ensures Truthy(v) <==> o.Some? && o.value != 0
  {
    if o.None? then JNull else JInt(o.value)
  }

  /** `ToolResult(content=[TextContent(text=human_text.strip())], structured_content, meta)`, unless rendering raised. */
  function Finish(text: Result<string>, structured: Json, meta: Json): (r: Result<ToolResult>)
    ensures r.Ok? <==> text.Ok?
    ensures text.Err? ==> r == Err(text.error)
    ensures text.Ok? ==> r.value.text == Strip(text.value) && r.value.structured == structured && r.value.meta == meta
  {
    if text.Err? then Err(text.error) else Ok(ToolResult(Strip(text.value), structured, meta))
  }

  /** `{"mode": mode, ...}` */
  function ModeMeta(mode: string, rest: seq<(string, Json)>): (m: Json)
    ensures m.JObj? && m.fields != [] && m.fields[0] == ("mode", JStr(mode)) && m.fields[1..] == rest
  {
    JObj([("mode", JStr(mode))] + rest)
  }

  /** `text` followed by a rendered part, or the exception rendering it raised. */
  function After(text: string, part: Result<string>): (r: Result<string>)
    ensures part.Err? ==> r == part
    ensures part.Ok? ==> r == Ok(text + part.value)
  {
    if part.Err? then part else Ok(text + part.value)
  }

  /**
   * What `for item in items: human_text += <lines for item>` appends: each
   * item's lines in order, or the exception of the first item that raises.
   */
  function RenderAll<T>(items: seq<T>, render: T -> Result<string>): Result<string>
    decreases |items|
  {
    if items == [] then Ok("")
    else
      var init :- RenderAll(items[..|items| - 1], render);
      var lines :- render(items[|items| - 1]);
      Ok(init + lines)
  }

  /** Once an item has raised, the items after it are never rendered. */
  lemma {:induction false} RenderAllStuck<T>(items: seq<T>, n: nat, render: T -> Result<string>)
    requires n <= |items| && RenderAll(items[..n], render).Err?
    ensures RenderAll(items, render) == RenderAll(items[..n], render)
    decreases |items|
  {
    if n < |items| {
      var init := items[..|items| - 1];
      assert init[..n] == items[..n];
      RenderAllStuck(init, n, render);
    } else {
      assert items[..n] == items;
    }
  }

  /** Items that all render contribute their lines side by side. */
  lemma {:induction false} RenderAllConcat<T>(a: seq<T>, b: seq<T>, render: T -> Result<string>)
    requires RenderAll(a, render).Ok? && RenderAll(b, render).Ok?
    ensures RenderAll(a + b, render) == Ok(RenderAll(a, render).value + RenderAll(b, render).value)
    decreases |b|
  {
    if b == [] {
      assert a + b == a;
      assert RenderAll(a, render).value + "" == RenderAll(a, render).value;
    } else {
      var init := b[..|b| - 1];
      assert (a + b)[..|a + b| - 1] == a + init;
      assert (a + b)[|a + b| - 1] == b[|b| - 1];
      RenderAllConcat(a, init, render);
      ConcatAssoc(RenderAll(a, render).value, RenderAll(init, render).value, render(b[|b| - 1]).value);
    }
  }

  /** When every item renders, each item's lines appear in the whole. */
  lemma {:induction false} RenderAllPart<T>(items: seq<T>, i: nat, render: T -> Result<string>)
    requires i < |items| && RenderAll(items, render).Ok?
    ensures render(items[i]).Ok? && IsSubstring(render(items[i]).value, RenderAll(items, render).value)
    decreases |items|
  {
    var init := items[..|items| - 1];
    var last := render(items[|items| - 1]).value;
    if i == |items| - 1 {
      SubstringOfConcat(RenderAll(init, render).value, last, "");
      assert RenderAll(init, render).value + last + "" == RenderAll(items, render).value;
    } else {
      assert init[i] == items[i];
      RenderAllPart(init, i, render);
      SubstringExtends(render(items[i]).value, RenderAll(init, render).value, last);
    }
  }

  /** When every item renders, the opening of each item's lines appears in the whole. */
  lemma RenderAllHead<T>(items: seq<T>, i: nat, render: T -> Result<string>, head: string)
    requires i < |items| && RenderAll(items, render).Ok?
    requires render(items[i]).Ok? ==> StartsWith(render(items[i]).value, head)
    ensures IsSubstring(head, RenderAll(items, render).value)
  {
    RenderAllPart(items, i, render);
    PrefixIsSubstring(head, render(items[i]).value);
    SubstringTrans(head, render(items[i]).value, RenderAll(items, render).value);
  }

  /** The loop itself: appends each item's lines to `text`, stopping at the first item that raises. */
  method AppendAll<T>(text: string, items: seq<T>, render: T -> Result<string>) returns (r: Result<string>)
    ensures r == After(text, RenderAll(items, render))
  {
    var humanText := "";
    var i := 0;
    while i < |items|
      invariant i <= |items|
      invariant RenderAll(items[..i], render) == Ok(humanText)
    {
      var lines := render(items[i]);
      assert items[..i + 1][..i] == items[..i];
      if lines.Err? {
        RenderAllStuck(items, i + 1, render);
        return Err(lines.error);
      }
      humanText := humanText + lines.value;
      i := i + 1;
    }
    assert items[..|items|] == items;
    return Ok(text + humanText);
  }

  /** An HTTP status error never turns into the generic message and carries the status digits. */
  lemma StatusReported(status: int, generic: string)
    ensures ApiFailure(HttpStatusError(status), generic) == ApiStatusError(status)
    ensures IsSubstring(IntToString(status), ApiFailure(HttpStatusError(status), generic).message)
  {
    SubstringOfConcat(ApiStatusPrefix, IntToString(status), "");
    assert ApiStatusPrefix + IntToString(status) + "" == ApiStatusPrefix + IntToString(status);
  }
}
