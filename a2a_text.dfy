/**
 * The web UI's reading of an agent's A2A JSON-RPC reply: the best-effort
 * answer text (`_extract_text_from_a2a_response`, with its depth-bounded
 * `walk_texts`) and the status/answer/history summary
 * (`_format_human_readable`). Each is a method with the source's loops,
 * proved equal to a specification function, and the properties are lemmas
 * about those functions.
 */
module A2aText {
  import opened Wrappers
  import opened JsonValues
  import opened Strings
  import opened Common
  import opened Py

  const AnswerHeading: string := "\nОтвет:"
  const HistoryHeading: string := "\nИстория:"

  /** `walk_texts` collects nothing from a value nested deeper than this. */
  const MaxDepth: nat := 6

  // ---- walk_texts ----

  /** What a value contributes itself: a dict's `text` when its `kind` is "text" and the text is a string. */
  function OwnText(obj: Json): (own: seq<string>)
    ensures |own| <= 1
  {
    if obj.JObj? && FieldOr(obj.fields, "kind", JNull) == JStr("text") && FieldOr(obj.fields, "text", JNull).JStr?
    then [FieldOr(obj.fields, "text", JNull).s]
    else []
  }

  /** `d.get(key)` on a dict's fields, written out without `Get`'s contract for the walk's proofs. */
  function FieldOr(fields: seq<(string, Json)>, key: string, default: Json): Json
  {
    if fields == [] then default
    else if fields[0].0 == key then fields[0].1
    else FieldOr(fields[1..], key, default)
  }

  lemma FieldOrIsGet(obj: Json, key: string, default: Json)
    requires obj.JObj?
    ensures Get(obj, key, default) == Ok(FieldOr(obj.fields, key, default))
  {
    LookupFieldOr(obj.fields, key, default);
  }

  lemma {:induction false} LookupFieldOr(fields: seq<(string, Json)>, key: string, default: Json)
    ensures FieldOr(fields, key, default) == (if Lookup(fields, key).Some? then Lookup(fields, key).value else default)
  {
    if fields != [] && fields[0].0 != key {
      LookupFieldOr(fields[1..], key, default);
    }
  }

  /** What the walk descends into: a dict's values or a list's items, in order. */
  function Children(obj: Json): (cs: seq<Json>)
    ensures forall i :: 0 <= i < |cs| ==> cs[i] < obj
    ensures obj.JArr? ==> cs == obj.items
    ensures obj.JObj? ==> |cs| == |obj.fields| && forall i :: 0 <= i < |cs| ==> cs[i] == obj.fields[i].1
    ensures !obj.JArr? && !obj.JObj? ==> cs == []
  {
    match obj
    case JObj(fields) => seq(|fields|, i requires 0 <= i < |fields| => fields[i].1)
    case JArr(items) => items
    case _ => []
  }

  /** `walk_texts(obj, depth)` */
  function Walk(obj: Json, depth: nat): seq<string>
    decreases obj, 1
  {
    if depth > MaxDepth then [] else OwnText(obj) + Flatten(Walks(obj, Children(obj), depth + 1))
  }

  /** The walk of each of `children`. */
  function Walks(parent: Json, children: seq<Json>, depth: nat): (ws: seq<seq<string>>)
    requires forall i :: 0 <= i < |children| ==> children[i] < parent
    ensures |ws| == |children|
    decreases parent, 0, |children|
  {
    if children == [] then [] else [Walk(children[0], depth)] + Walks(parent, children[1..], depth)
  }

  lemma {:induction false} WalksAt(parent: Json, children: seq<Json>, depth: nat, i: nat)
    requires forall j :: 0 <= j < |children| ==> children[j] < parent
    requires i < |children|
    ensures Walks(parent, children, depth)[i] == Walk(children[i], depth)
    decreases |children|
  {
    if i > 0 {
      assert children[1..][i - 1] == children[i];
      WalksAt(parent, children[1..], depth, i - 1);
    }
  }

  /** The lists of `lists`, one after the other. */
  function Flatten<T>(lists: seq<seq<T>>): seq<T> {
    if lists == [] then [] else lists[0] + Flatten(lists[1..])
  }

  lemma {:induction false} FlattenSnoc<T>(lists: seq<seq<T>>, i: nat)
    requires i < |lists|
    ensures Flatten(lists[..i + 1]) == Flatten(lists[..i]) + lists[i]
    decreases i
  {
    if i > 0 {
      assert lists[..i + 1][1..] == lists[1..][..i];
      assert lists[..i][1..] == lists[1..][..i - 1];
      FlattenSnoc(lists[1..], i - 1);
    } else {
      assert lists[..1] == [lists[0]];
    }
  }

  lemma {:induction false} FlattenHas<T>(lists: seq<seq<T>>, k: nat, x: T)
    requires k < |lists| && x in lists[k]
    ensures x in Flatten(lists)
    decreases |lists|
  {
    if k > 0 {
      assert lists[1..][k - 1] == lists[k];
      FlattenHas(lists[1..], k - 1, x);
    }
  }

  lemma {:induction false} FlattenSource<T>(lists: seq<seq<T>>, x: T) returns (k: nat)
    requires x in Flatten(lists)
    ensures k < |lists| && x in lists[k]
    decreases |lists|
  {
    if x in lists[0] {
      k := 0;
    } else {
      var j := FlattenSource(lists[1..], x);
      assert lists[1..][j] == lists[j + 1];
      k := j + 1;
    }
  }

  lemma WalkUnfold(obj: Json, depth: nat)
    requires depth <= MaxDepth
    ensures Walk(obj, depth) == OwnText(obj) + Flatten(Walks(obj, Children(obj), depth + 1))
  {
  }

  /** `walk_texts`, with its loops over a dict's values and a list's items. */
  method WalkTexts(obj: Json, depth: nat) returns (texts: seq<string>)
    ensures texts == Walk(obj, depth)
    decreases obj, 1
  {
    texts := [];
    if depth > MaxDepth {
      return;
    }
    if obj.JObj? {
      FieldOrIsGet(obj, "kind", JNull);
      FieldOrIsGet(obj, "text", JNull);
    }
    if obj.JObj? && Get(obj, "kind", JNull).value == JStr("text") && Get(obj, "text", JNull).value.JStr? {
      texts := texts + [Get(obj, "text", JNull).value.s];
    }
    assert texts == OwnText(obj);
    var found := WalkChildren(obj, Children(obj), depth + 1);
    WalkUnfold(obj, depth);
    texts := texts + found;
  }

  /** The loop `for v in ...: texts.extend(walk_texts(v, depth + 1))`. */
  method WalkChildren(parent: Json, children: seq<Json>, depth: nat) returns (texts: seq<string>)
    requires forall j :: 0 <= j < |children| ==> children[j] < parent
    ensures texts == Flatten(Walks(parent, children, depth))
    decreases parent, 0
  {
    ghost var walks := Walks(parent, children, depth);
    texts := [];
    var i := 0;
    while i < |children|
      invariant 0 <= i <= |children|
      invariant texts == Flatten(walks[..i])
    {
      var more := WalkTexts(children[i], depth);
      WalksAt(parent, children, depth, i);
      FlattenSnoc(walks, i);
      texts := texts + more;
      i := i + 1;
    }
    assert walks[..|children|] == walks;
  }

  /** The value reached from `obj` by following child positions. */
  function Node(obj: Json, path: seq<nat>): Option<Json>
    decreases |path|
  {
    if path == [] then Some(obj)
    else if path[0] < |Children(obj)| then Node(Children(obj)[path[0]], path[1..])
    else None
  }

  /** `t` is the own text of the value at `path`, which lies at most `MaxDepth` levels below the walk's start at `depth`. */
  predicate TextAt(obj: Json, path: seq<nat>, depth: nat, t: string) {
    depth + |path| <= MaxDepth && Node(obj, path).Some? && OwnText(Node(obj, path).value) == [t]
  }

  /** What the walk finds below a child, it finds at the parent. */
  lemma WalkFindsInChild(obj: Json, k: nat, depth: nat, t: string)
    requires depth <= MaxDepth && k < |Children(obj)| && t in Walk(Children(obj)[k], depth + 1)
    ensures t in Walk(obj, depth)
  {
    WalkUnfold(obj, depth);
    WalksAt(obj, Children(obj), depth + 1, k);
    FlattenHas(Walks(obj, Children(obj), depth + 1), k, t);
  }

  /** Every text dict within the depth bound is collected. */
  lemma {:induction false} WalkFindsText(obj: Json, path: seq<nat>, depth: nat, t: string)
    requires TextAt(obj, path, depth, t)
    ensures t in Walk(obj, depth)
    decreases |path|
  {
    if path == [] {
      WalkUnfold(obj, depth);
    } else {
      var k := path[0];
      assert Node(obj, path) == Node(Children(obj)[k], path[1..]);
      WalkFindsText(Children(obj)[k], path[1..], depth + 1, t);
      WalkFindsInChild(obj, k, depth, t);
    }
  }

  /** Every collected text is the text of a dict within the depth bound. */
  lemma {:induction false} WalkTextSource(obj: Json, depth: nat, t: string) returns (path: seq<nat>)
    requires t in Walk(obj, depth)
    ensures TextAt(obj, path, depth, t)
    decreases obj
  {
    if t in OwnText(obj) {
      path := [];
    } else {
      var cs := Children(obj);
      var k := FlattenSource(Walks(obj, cs, depth + 1), t);
      WalksAt(obj, cs, depth + 1, k);
      var rest := WalkTextSource(cs[k], depth + 1, t);
      path := [k] + rest;
      assert path[1..] == rest;
      assert Node(obj, path) == Node(cs[k], rest);
    }
  }

  /**
   * The walk collects exactly the texts of the "text" dicts nested at most
   * `MaxDepth - depth` levels below its start: through dict values and list
   * items alike, and nothing deeper.
   */
  lemma WalkCollects(obj: Json, depth: nat, t: string)
    ensures t in Walk(obj, depth) <==> exists path :: TextAt(obj, path, depth, t)
  {
    if t in Walk(obj, depth) {
      var path := WalkTextSource(obj, depth, t);
    }
    if exists path :: TextAt(obj, path, depth, t) {
      var path :| TextAt(obj, path, depth, t);
      WalkFindsText(obj, path, depth, t);
    }
  }

  /** A text dict's own text comes before anything found in its values. */
  lemma DictTextFirst(obj: Json, depth: nat, t: string)
    requires depth <= MaxDepth && OwnText(obj) == [t]
    ensures Walk(obj, depth) != [] && Walk(obj, depth)[0] == t
  {
    assert Walk(obj, depth) == [t] + Flatten(Walks(obj, Children(obj), depth + 1));
  }

  // ---- _extract_text_from_a2a_response ----

  /** The texts `"\n\n".join(t for t in texts if ... t.strip())` keeps: the non-blank ones, in order. */
  function NonBlank(texts: seq<string>): seq<string> {
    if texts == [] then [] else (if Strip(texts[0]) != "" then [texts[0]] else []) + NonBlank(texts[1..])
  }

  /** The kept texts are exactly the non-blank ones of `texts`. */
  lemma {:induction false} NonBlankKeeps(texts: seq<string>, t: string)
    ensures t in NonBlank(texts) <==> t in texts && Strip(t) != ""
    decreases |texts|
  {
    if texts != [] {
      assert t in texts <==> t == texts[0] || t in texts[1..];
      NonBlankKeeps(texts[1..], t);
    }
  }

  /** A walk's answer: its non-blank texts joined by blank lines, stripped. */
  function Joined(texts: seq<string>): string {
    Strip(Join("\n\n", NonBlank(texts)))
  }

  predicate IsNonBlankStr(v: Json) {
    v.JStr? && Strip(v.s) != ""
  }

  /** The first non-blank string among a dict's values, stripped; "" when there is none. */
  function FirstNonBlank(fields: seq<(string, Json)>): string {
    if fields == [] then ""
    else if IsNonBlankStr(fields[0].1) then Strip(fields[0].1.s)
    else FirstNonBlank(fields[1..])
  }

  /** `_extract_text_from_a2a_response(response)`; `.get` on a value that is not a dict raises AttributeError. */
  function Extracted(response: Json): Result<string> {
    var result :- Get(response, "result", JObj([]));
    var artifacts :- Get(result, "artifacts", JArr([]));
    var texts := Walk(artifacts, 0);
    if texts != [] then Ok(Joined(texts))
    else
      var history :- Get(result, "history", JArr([]));
      var more := Walk(history, 0);
      if more != [] then Ok(Joined(more))
      else
        var txt :- Get(result, "text", JNull);
        if IsNonBlankStr(txt) then Ok(Strip(txt.s)) else Ok(FirstNonBlank(result.fields))
  }

  /** `_extract_text_from_a2a_response`, with its loop over the result's values. */
  method ExtractText(response: Json) returns (r: Result<string>)
    ensures r == Extracted(response)
  {
    var result := Get(response, "result", JObj([]));
    if result.Err? {
      return Err(result.error);
    }
    var artifacts := Get(result.value, "artifacts", JArr([]));
    if artifacts.Err? {
      return Err(artifacts.error);
    }
    var texts := WalkTexts(artifacts.value, 0);
    if texts != [] {
      return Ok(Joined(texts));
    }
    var history := Get(result.value, "history", JArr([])).value;
    texts := WalkTexts(history, 0);
    if texts != [] {
      return Ok(Joined(texts));
    }
    var txt := Get(result.value, "text", JNull).value;
    if txt.JStr? && Strip(txt.s) != "" {
      return Ok(Strip(txt.s));
    }
    var first := FirstNonBlankValue(result.value.fields);
    return Ok(first);
  }

  /** The last resort's loop: the first non-blank string value, stripped, or "". */
  method FirstNonBlankValue(fields: seq<(string, Json)>) returns (first: string)
    ensures first == FirstNonBlank(fields)
  {
    var i := 0;
    while i < |fields|
      invariant 0 <= i <= |fields|
      invariant FirstNonBlank(fields[i..]) == FirstNonBlank(fields)
    {
      var v := fields[i].1;
      if v.JStr? && Strip(v.s) != "" {
        return Strip(v.s);
      }
      assert fields[i..][1..] == fields[i + 1..];
      i := i + 1;
    }
    return "";
  }

  /** `response.get("result", {})` of a dict response. */
  function ResultOf(response: Json): Json
    requires response.JObj?
  {
    Get(response, "result", JObj([])).value
  }

  /** The walk of the result's `artifacts` (default []). */
  function ArtifactWalk(result: Json): seq<string>
    requires result.JObj?
  {
    Walk(Get(result, "artifacts", JArr([])).value, 0)
  }

  /** The walk of the result's `history` (default []). */
  function HistoryWalk(result: Json): seq<string>
    requires result.JObj?
  {
    Walk(Get(result, "history", JArr([])).value, 0)
  }

  /** Extraction raises exactly when the response, or its `result`, is not a dict. */
  lemma ExtractRaises(response: Json)
    ensures Extracted(response).Err? <==> !response.JObj? || !ResultOf(response).JObj?
  {
  }

  /** Texts found under `artifacts` decide the answer. */
  lemma ArtifactsFirst(response: Json)
    requires response.JObj? && ResultOf(response).JObj? && ArtifactWalk(ResultOf(response)) != []
    ensures Extracted(response) == Ok(Joined(ArtifactWalk(ResultOf(response))))
  {
  }

  /** Found texts that are all blank still decide the answer: it is empty, whatever the history holds. */
  lemma BlankArtifactsFinal(response: Json)
    requires response.JObj? && ResultOf(response).JObj? && ArtifactWalk(ResultOf(response)) != []
    requires forall t :: t in ArtifactWalk(ResultOf(response)) ==> Strip(t) == ""
    ensures Extracted(response) == Ok("")
  {
    var texts := ArtifactWalk(ResultOf(response));
    NonBlankOfBlanks(texts);
    assert Joined(texts) == "";
    ArtifactsFirst(response);
  }

  lemma {:induction false} NonBlankOfBlanks(texts: seq<string>)
    requires forall t :: t in texts ==> Strip(t) == ""
    ensures NonBlank(texts) == []
    decreases |texts|
  {
    if texts != [] {
      assert texts[0] in texts;
      assert forall t :: t in texts[1..] ==> t in texts;
      NonBlankOfBlanks(texts[1..]);
    }
  }

  /** Without artifact texts, texts found under `history` decide the answer. */
  lemma HistorySecond(response: Json)
    requires response.JObj? && ResultOf(response).JObj?
    requires ArtifactWalk(ResultOf(response)) == [] && HistoryWalk(ResultOf(response)) != []
    ensures Extracted(response) == Ok(Joined(HistoryWalk(ResultOf(response))))
  {
  }

  /** Without texts from either walk, a non-blank string `result.text` is the answer, stripped. */
  lemma TextThird(response: Json)
    requires response.JObj? && ResultOf(response).JObj?
    requires ArtifactWalk(ResultOf(response)) == [] && HistoryWalk(ResultOf(response)) == []
    requires IsNonBlankStr(Get(ResultOf(response), "text", JNull).value)
    ensures Extracted(response) == Ok(Strip(Get(ResultOf(response), "text", JNull).value.s))
  {
  }

  lemma {:induction false} FirstNonBlankAt(fields: seq<(string, Json)>, i: nat)
    requires i < |fields| && IsNonBlankStr(fields[i].1)
    requires forall j :: 0 <= j < i ==> !IsNonBlankStr(fields[j].1)
    ensures FirstNonBlank(fields) == Strip(fields[i].1.s)
    decreases i
  {
    if i > 0 {
      FirstNonBlankAt(fields[1..], i - 1);
    }
  }

  lemma {:induction false} FirstNonBlankNone(fields: seq<(string, Json)>)
    requires forall j :: 0 <= j < |fields| ==> !IsNonBlankStr(fields[j].1)
    ensures FirstNonBlank(fields) == ""
    decreases |fields|
  {
    if fields != [] {
      FirstNonBlankNone(fields[1..]);
    }
  }

  /** Otherwise the first non-blank string among the result's values is the answer, stripped. */
  lemma ValueFourth(response: Json, i: nat)
    requires response.JObj? && ResultOf(response).JObj?
    requires ArtifactWalk(ResultOf(response)) == [] && HistoryWalk(ResultOf(response)) == []
    requires !IsNonBlankStr(Get(ResultOf(response), "text", JNull).value)
    requires i < |ResultOf(response).fields| && IsNonBlankStr(ResultOf(response).fields[i].1)
    requires forall j :: 0 <= j < i ==> !IsNonBlankStr(ResultOf(response).fields[j].1)
    ensures Extracted(response) == Ok(Strip(ResultOf(response).fields[i].1.s))
  {
    FirstNonBlankAt(ResultOf(response).fields, i);
  }

  /** With nothing found anywhere, the answer is empty. */
  lemma NothingFound(response: Json)
    requires response.JObj? && ResultOf(response).JObj?
    requires ArtifactWalk(ResultOf(response)) == [] && HistoryWalk(ResultOf(response)) == []
    requires forall j :: 0 <= j < |ResultOf(response).fields| ==> !IsNonBlankStr(ResultOf(response).fields[j].1)
    ensures Extracted(response) == Ok("")
  {
    FirstNonBlankNone(ResultOf(response).fields);
  }

  /** The answer never starts or ends with whitespace. */
  lemma ExtractStripped(response: Json)
    requires Extracted(response).Ok?
    ensures Strip(Extracted(response).value) == Extracted(response).value
  {
    var result := ResultOf(response);
    if ArtifactWalk(result) != [] {
      StripIdempotent(Join("\n\n", NonBlank(ArtifactWalk(result))));
    } else if HistoryWalk(result) != [] {
      StripIdempotent(Join("\n\n", NonBlank(HistoryWalk(result))));
    } else if IsNonBlankStr(Get(result, "text", JNull).value) {
      StripIdempotent(Get(result, "text", JNull).value.s);
    } else {
      FirstNonBlankStripped(result.fields);
    }
  }

  lemma {:induction false} FirstNonBlankStripped(fields: seq<(string, Json)>)
    ensures Strip(FirstNonBlank(fields)) == FirstNonBlank(fields)
    decreases |fields|
  {
    if fields == [] {
    } else if IsNonBlankStr(fields[0].1) {
      StripIdempotent(fields[0].1.s);
    } else {
      FirstNonBlankStripped(fields[1..]);
    }
  }

  // ---- _format_human_readable ----

  /** `sep.join(values)`: TypeError at the first value that is not a string. */
  function JoinStrs(sep: string, values: seq<Json>): (r: Result<string>)
    ensures r.Ok? <==> forall i :: 0 <= i < |values| ==> values[i].JStr?
    ensures r.Ok? ==> r.value == Join(sep, StrValues(values))
  {
    var k := FirstNonStr(values);
    if k == |values| then Ok(Join(sep, StrValues(values)))
    else Err(Raised("TypeError", "sequence item " + NatToString(k) + ": expected str instance, " + TypeName(values[k]) + " found"))
  }

  function StrValues(values: seq<Json>): (ss: seq<string>)
    requires forall i :: 0 <= i < |values| ==> values[i].JStr?
    ensures |ss| == |values| && forall i :: 0 <= i < |values| ==> values[i] == JStr(ss[i])
  {
    seq(|values|, i requires 0 <= i < |values| => values[i].s)
  }

  /** The position of the first value that is not a string, or the length when all are. */
  function FirstNonStr(values: seq<Json>): (k: nat)
    ensures k <= |values| && forall j :: 0 <= j < k ==> values[j].JStr?
    ensures k < |values| ==> !values[k].JStr?
  {
    if values == [] then 0
    else if !values[0].JStr? then 0
    else 1 + FirstNonStr(values[1..])
  }

  /** The text of a part that is a dict of kind "text" whose `text` (default "") is truthy. */
  function PartText(p: Json): Option<Json> {
    if p.JObj? && FieldOr(p.fields, "kind", JNull) == JStr("text") && Truthy(FieldOr(p.fields, "text", JStr("")))
    then Some(FieldOr(p.fields, "text", JStr("")))
    else None
  }

  /** The texts of a list of parts, in order. */
  function PartTexts(parts: seq<Json>): seq<Json> {
    if parts == [] then []
    else
      var last := PartText(parts[|parts| - 1]);
      PartTexts(parts[..|parts| - 1]) + (if last.Some? then [last.value] else [])
  }

  predicate HasPartText(parts: seq<Json>) {
    exists j :: 0 <= j < |parts| && PartText(parts[j]).Some?
  }

  lemma {:induction false} PartTextsEmpty(parts: seq<Json>)
    ensures PartTexts(parts) == [] <==> !HasPartText(parts)
    decreases |parts|
  {
    if parts != [] {
      var n := |parts|;
      PartTextsEmpty(parts[..n - 1]);
      HasPartTextLast(parts);
    }
  }

  lemma HasPartTextLast(parts: seq<Json>)
    requires parts != []
    ensures HasPartText(parts) <==> HasPartText(parts[..|parts| - 1]) || PartText(parts[|parts| - 1]).Some?
  {
    var n := |parts|;
    var init := parts[..n - 1];
    assert forall j :: 0 <= j < n - 1 ==> init[j] == parts[j];
    if HasPartText(init) {
      var j :| 0 <= j < n - 1 && PartText(init[j]).Some?;
      assert 0 <= j < n && PartText(parts[j]).Some?;
    }
    if HasPartText(parts) && PartText(parts[n - 1]).None? {
      var j :| 0 <= j < n && PartText(parts[j]).Some?;
      assert 0 <= j < n - 1 && PartText(init[j]).Some?;
    }
  }

  /** The values of a list, or none when it is not a list. */
  function ListItems(v: Json): seq<Json> {
    if v.JArr? then v.items else []
  }

  /** An artifact's `parts` when it is a dict whose `parts` is a list. */
  function ArtifactParts(art: Json): seq<Json> {
    if art.JObj? then ListItems(FieldOr(art.fields, "parts", JNull)) else []
  }

  /** The texts of all artifacts, in order. */
  function ArtifactTexts(arts: seq<Json>): seq<Json> {
    if arts == [] then []
    else ArtifactTexts(arts[..|arts| - 1]) + PartTexts(ArtifactParts(arts[|arts| - 1]))
  }

  predicate HasArtifactText(arts: seq<Json>) {
    exists i :: 0 <= i < |arts| && HasPartText(ArtifactParts(arts[i]))
  }

  lemma {:induction false} ArtifactTextsEmpty(arts: seq<Json>)
    ensures ArtifactTexts(arts) == [] <==> !HasArtifactText(arts)
    decreases |arts|
  {
    if arts != [] {
      var n := |arts|;
      ArtifactTextsEmpty(arts[..n - 1]);
      PartTextsEmpty(ArtifactParts(arts[n - 1]));
      HasArtifactTextLast(arts);
    }
  }

  lemma HasArtifactTextLast(arts: seq<Json>)
    requires arts != []
    ensures HasArtifactText(arts) <==> HasArtifactText(arts[..|arts| - 1]) || HasPartText(ArtifactParts(arts[|arts| - 1]))
  {
    var n := |arts|;
    var init := arts[..n - 1];
    assert forall i :: 0 <= i < n - 1 ==> init[i] == arts[i];
    if HasArtifactText(init) {
      var i :| 0 <= i < n - 1 && HasPartText(ArtifactParts(init[i]));
      assert 0 <= i < n && HasPartText(ArtifactParts(arts[i]));
    }
    if HasArtifactText(arts) && !HasPartText(ArtifactParts(arts[n - 1])) {
      var i :| 0 <= i < n && HasPartText(ArtifactParts(arts[i]));
      assert 0 <= i < n - 1 && HasPartText(ArtifactParts(init[i]));
    }
  }

  /** A history entry's `parts` (default []) when it is a list. */
  function EntryParts(entry: Json): seq<Json>
    requires entry.JObj?
  {
    ListItems(FieldOr(entry.fields, "parts", JArr([])))
  }

  /** `role or 'message'` as an f-string shows it. */
  function RoleLabel(entry: Json): (shown: string)
    requires entry.JObj?
    ensures !Truthy(Get(entry, "role", JStr("")).value) ==> shown == "message"
    ensures Get(entry, "role", JStr("")).value.JStr? && Get(entry, "role", JStr("")).value.s != "" ==>
      shown == Get(entry, "role", JStr("")).value.s
  {
    Display(Or(Get(entry, "role", JStr("")).value, JStr("message")))
  }

  /** One history entry's line, when it is a dict with texts; TypeError when one of them is not a string. */
  function EntryLine(entry: Json): Result<Option<string>> {
    if !entry.JObj? then Ok(None)
    else
      var texts := PartTexts(EntryParts(entry));
      if texts == [] then Ok(None)
      else
        var joined :- JoinStrs(" / ", texts);
        Ok(Some(RoleLabel(entry) + ": " + joined))
  }

  /** The lines of the history entries, in order; the first failing entry's error. */
  function HistoryLines(entries: seq<Json>): Result<seq<string>> {
    if entries == [] then Ok([])
    else
      var earlier :- HistoryLines(entries[..|entries| - 1]);
      var line :- EntryLine(entries[|entries| - 1]);
      Ok(earlier + (if line.Some? then [line.value] else []))
  }

  predicate HasText(entry: Json) {
    entry.JObj? && HasPartText(EntryParts(entry))
  }

  predicate HasEntryText(entries: seq<Json>) {
    exists i :: 0 <= i < |entries| && HasText(entries[i])
  }

  /** The number of entries that have texts. */
  function EntriesWithText(entries: seq<Json>): nat {
    if entries == [] then 0
    else EntriesWithText(entries[..|entries| - 1]) + (if HasText(entries[|entries| - 1]) then 1 else 0)
  }

  lemma {:induction false} EntryLineShown(entry: Json)
    requires EntryLine(entry).Ok?
    ensures EntryLine(entry).value.Some? <==> HasText(entry)
  {
    if entry.JObj? {
      PartTextsEmpty(EntryParts(entry));
    }
  }

  /** One line per entry that has texts, in order. */
  lemma {:induction false} HistoryLineCount(entries: seq<Json>)
    requires HistoryLines(entries).Ok?
    ensures |HistoryLines(entries).value| == EntriesWithText(entries)
    decreases |entries|
  {
    if entries != [] {
      var n := |entries|;
      HistoryLineCount(entries[..n - 1]);
      EntryLineShown(entries[n - 1]);
    }
  }

  lemma {:induction false} EntriesWithTextZero(entries: seq<Json>)
    ensures EntriesWithText(entries) == 0 <==> !HasEntryText(entries)
    decreases |entries|
  {
    if entries != [] {
      EntriesWithTextZero(entries[..|entries| - 1]);
      HasEntryTextLast(entries);
    }
  }

  lemma HasEntryTextLast(entries: seq<Json>)
    requires entries != []
    ensures HasEntryText(entries) <==> HasEntryText(entries[..|entries| - 1]) || HasText(entries[|entries| - 1])
  {
    var n := |entries|;
    var init := entries[..n - 1];
    assert forall i :: 0 <= i < n - 1 ==> init[i] == entries[i];
    if HasEntryText(init) {
      var i :| 0 <= i < n - 1 && HasText(init[i]);
      assert 0 <= i < n && HasText(entries[i]);
    }
    if HasEntryText(entries) && !HasText(entries[n - 1]) {
      var i :| 0 <= i < n && HasText(entries[i]);
      assert 0 <= i < n - 1 && HasText(init[i]);
    }
  }

  /** A history line: the role (or "message"), then the entry's texts joined by " / ". */
  lemma EntryLineShape(entry: Json)
    requires entry.JObj? && PartTexts(EntryParts(entry)) != []
    requires forall i :: 0 <= i < |PartTexts(EntryParts(entry))| ==> PartTexts(EntryParts(entry))[i].JStr?
    ensures EntryLine(entry) == Ok(Some(RoleLabel(entry) + ": " + Join(" / ", StrValues(PartTexts(EntryParts(entry))))))
  {
  }

  /** An error in an earlier entry is the error of the whole history. */
  lemma {:induction false} HistoryFails(entries: seq<Json>, i: nat)
    requires i <= |entries| && HistoryLines(entries[..i]).Err?
    ensures HistoryLines(entries) == Err(HistoryLines(entries[..i]).error)
    decreases |entries| - i
  {
    if i < |entries| {
      assert entries[..i + 1][..i] == entries[..i];
      HistoryFails(entries, i + 1);
    } else {
      assert entries[..i] == entries;
    }
  }

  /** `response.get("result", {})` when the response is a dict, else `{}`. */
  function ResultOrEmpty(response: Json): Json {
    if response.JObj? then Get(response, "result", JObj([])).value else JObj([])
  }

  /** `result.get("status", {})` when the result is a dict, else `{}`. */
  function StatusOf(result: Json): Json {
    if result.JObj? then Get(result, "status", JObj([])).value else JObj([])
  }

  /** `result.get(key, [])` when the result is a dict, as a list of values. */
  function ListOf(result: Json, key: string): seq<Json> {
    if result.JObj? then ListItems(Get(result, key, JArr([])).value) else []
  }

  /** `f"Статус: {state}" + (f" @ {ts}" if ts else "")` */
  function StatusLine(state: Json, ts: Json): string {
    "Статус: " + Display(state) + (if Truthy(ts) then " @ " + Display(ts) else "")
  }

  /** The status line starts with the state and has more only when the timestamp is truthy. */
  lemma StatusLineShape(state: Json, ts: Json)
    ensures StartsWith(StatusLine(state, ts), "Статус: " + Display(state))
    ensures StatusLine(state, ts) == "Статус: " + Display(state) <==> !Truthy(ts)
  {
    var head := "Статус: " + Display(state);
    var line := StatusLine(state, ts);
    assert line[..|head|] == head;
    if Truthy(ts) {
      assert |line| > |head|;
    }
  }

  /** `f"• {h}"` for each history line. */
  function Bullets(lines: seq<string>): (bulleted: seq<string>)
    ensures |bulleted| == |lines| && forall k :: 0 <= k < |lines| ==> bulleted[k] == "• " + lines[k]
  {
    seq(|lines|, k requires 0 <= k < |lines| => "• " + lines[k])
  }

  /** The answer block: a heading and the artifact texts separated by blank lines. */
  function AnswerLines(texts: seq<Json>): Result<seq<string>> {
    var joined :- JoinStrs("\n\n", texts);
    Ok([AnswerHeading, joined])
  }

  /** The history block: a heading and the bulleted history lines. */
  function HistoryBlock(lines: seq<string>): seq<string> {
    if lines == [] then [] else [HistoryHeading, Join("\n", Bullets(lines))]
  }

  /** The lines `_format_human_readable` joins; AttributeError when `status` is not a dict. */
  function SummaryLines(response: Json): Result<seq<string>> {
    var result := ResultOrEmpty(response);
    var status := StatusOf(result);
    var state :- Get(status, "state", JStr("unknown"));
    var ts :- Get(status, "timestamp", JStr(""));
    var historyLines :- HistoryLines(ListOf(result, "history"));
    SummaryFrom(state, ts, ArtifactTexts(ListOf(result, "artifacts")), historyLines)
  }

  /** The status line, the answer block when there are artifact texts, and the history block. */
  function SummaryFrom(state: Json, ts: Json, artifactTexts: seq<Json>, historyLines: seq<string>): Result<seq<string>> {
    var answer :- if artifactTexts == [] then Ok([]) else AnswerLines(artifactTexts);
    Ok([StatusLine(state, ts)] + answer + HistoryBlock(historyLines))
  }

  /** `_format_human_readable(response)` */
  function HumanReadable(response: Json): Result<string> {
    var lines :- SummaryLines(response);
    Ok(Strip(Join("\n", lines)))
  }

  /** The artifact part of `_format_human_readable`: its two nested loops. */
  method CollectArtifactTexts(artifacts: Json) returns (texts: seq<Json>)
    ensures texts == ArtifactTexts(ListItems(artifacts))
  {
    texts := [];
    if artifacts.JArr? {
      var arts := artifacts.items;
      var i := 0;
      while i < |arts|
        invariant 0 <= i <= |arts|
        invariant texts == ArtifactTexts(arts[..i])
      {
        var art := arts[i];
        if art.JObj? {
          FieldOrIsGet(art, "parts", JNull);
        }
        var parts := if art.JObj? then Get(art, "parts", JNull).value else JNull;
        var found := [];
        if parts.JArr? {
          found := CollectPartTexts(parts.items);
        }
        assert arts[..i + 1][..i] == arts[..i];
        texts := texts + found;
        i := i + 1;
      }
      assert arts[..|arts|] == arts;
    }
  }

  /** The inner loop over one list of parts. */
  method CollectPartTexts(parts: seq<Json>) returns (texts: seq<Json>)
    ensures texts == PartTexts(parts)
  {
    texts := [];
    var j := 0;
    while j < |parts|
      invariant 0 <= j <= |parts|
      invariant texts == PartTexts(parts[..j])
    {
      var p := parts[j];
      if p.JObj? {
        FieldOrIsGet(p, "kind", JNull);
        FieldOrIsGet(p, "text", JStr(""));
      }
      if p.JObj? && Get(p, "kind", JNull).value == JStr("text") {
        var txt := Get(p, "text", JStr("")).value;
        if Truthy(txt) {
          texts := texts + [txt];
        }
      }
      assert parts[..j + 1][..j] == parts[..j];
      j := j + 1;
    }
    assert parts[..|parts|] == parts;
  }

  /** The history part of `_format_human_readable`: a loop over the entries, skipping those that are not dicts. */
  method CollectHistoryLines(history: Json) returns (r: Result<seq<string>>)
    ensures r == HistoryLines(ListItems(history))
  {
    var lines: seq<string> := [];
    if history.JArr? {
      var entries := history.items;
      var i := 0;
      while i < |entries|
        invariant 0 <= i <= |entries|
        invariant HistoryLines(entries[..i]) == Ok(lines)
      {
        var line := HistoryEntryLine(entries[i]);
        if line.Err? {
          HistoryStepFails(entries, i);
          return Err(line.error);
        }
        HistoryStep(entries, i);
        if line.value.Some? {
          lines := lines + [line.value.value];
        } else {
          assert lines + [] == lines;
        }
        i := i + 1;
      }
      assert entries[..|entries|] == entries;
    }
    r := Ok(lines);
  }

  /** One round of the history loop: the entry's texts and, if there are any, its line. */
  method HistoryEntryLine(entry: Json) returns (r: Result<Option<string>>)
    ensures r == EntryLine(entry)
  {
    if !entry.JObj? {
      return Ok(None);
    }
    var role := Get(entry, "role", JStr("")).value;
    FieldOrIsGet(entry, "parts", JArr([]));
    var parts := Get(entry, "parts", JArr([])).value;
    var texts := [];
    if parts.JArr? {
      texts := CollectPartTexts(parts.items);
    }
    if texts == [] {
      return Ok(None);
    }
    var joined := JoinStrs(" / ", texts);
    if joined.Err? {
      return Err(joined.error);
    }
    r := Ok(Some(Display(Or(role, JStr("message"))) + ": " + joined.value));
  }

  lemma HistoryStep(entries: seq<Json>, i: nat)
    requires i < |entries| && HistoryLines(entries[..i]).Ok? && EntryLine(entries[i]).Ok?
    ensures HistoryLines(entries[..i + 1]) ==
      Ok(HistoryLines(entries[..i]).value + (if EntryLine(entries[i]).value.Some? then [EntryLine(entries[i]).value.value] else []))
  {
    assert entries[..i + 1][..i] == entries[..i];
  }

  lemma HistoryStepFails(entries: seq<Json>, i: nat)
    requires i < |entries| && HistoryLines(entries[..i]).Ok? && EntryLine(entries[i]).Err?
    ensures HistoryLines(entries) == Err(EntryLine(entries[i]).error)
  {
    assert entries[..i + 1][..i] == entries[..i];
    HistoryFails(entries, i + 1);
  }

  /** `_format_human_readable`: the status line, then the answer and history blocks when there is anything to show. */
  method FormatHumanReadable(response: Json) returns (r: Result<string>)
    ensures r == HumanReadable(response)
  {
    var result := if response.JObj? then Get(response, "result", JObj([])).value else JObj([]);
    var status := if result.JObj? then Get(result, "status", JObj([])).value else JObj([]);
    var state := Get(status, "state", JStr("unknown"));
    if state.Err? {
      return Err(state.error);
    }
    var ts := Get(status, "timestamp", JStr("")).value;
    var artifacts := if result.JObj? then Get(result, "artifacts", JArr([])).value else JArr([]);
    var artifactTexts := CollectArtifactTexts(artifacts);
    var history := if result.JObj? then Get(result, "history", JArr([])).value else JArr([]);
    var historyLines := CollectHistoryLines(history);
    if historyLines.Err? {
      return Err(historyLines.error);
    }
    var lines := AssembleLines(state.value, ts, artifactTexts, historyLines.value);
    if lines.Err? {
      return Err(lines.error);
    }
    r := Ok(Strip(Join("\n", lines.value)));
  }

  /** The lines of `_format_human_readable`, appended block by block. */
  method AssembleLines(state: Json, ts: Json, artifactTexts: seq<Json>, historyLines: seq<string>) returns (r: Result<seq<string>>)
    ensures r == SummaryFrom(state, ts, artifactTexts, historyLines)
  {
    var lines := [StatusLine(state, ts)];
    var answer: seq<string> := [];
    if artifactTexts != [] {
      var joined := JoinStrs("\n\n", artifactTexts);
      if joined.Err? {
        return Err(joined.error);
      }
      answer := [AnswerHeading, joined.value];
      lines := lines + answer;
    }
    if historyLines != [] {
      lines := lines + [HistoryHeading, Join("\n", Bullets(historyLines))];
    }
    assert lines == [StatusLine(state, ts)] + answer + HistoryBlock(historyLines);
    r := Ok(lines);
  }

  // ---- properties of the summary ----

  /** A response that is not a dict is summarised as an empty one. */
  lemma NonDictResponse(response: Json)
    requires !response.JObj?
    ensures HumanReadable(response) == HumanReadable(JObj([]))
    ensures HumanReadable(response) == Ok("Статус: unknown")
  {
    assert ResultOrEmpty(response) == JObj([]) == ResultOrEmpty(JObj([]));
    EmptySummary();
  }

  /** An empty response: the default state and no timestamp, answer or history. */
  lemma EmptySummary()
    ensures HumanReadable(JObj([])) == Ok("Статус: unknown")
  {
    var status := StatusOf(ResultOrEmpty(JObj([])));
    assert status == JObj([]);
    assert ListOf(ResultOrEmpty(JObj([])), "artifacts") == [];
    assert ListOf(ResultOrEmpty(JObj([])), "history") == [];
    assert Get(status, "state", JStr("unknown")) == Ok(JStr("unknown"));
    assert Get(status, "timestamp", JStr("")) == Ok(JStr(""));
    assert ArtifactTexts([]) == [] && HistoryLines([]) == Ok([]) && HistoryBlock([]) == [];
    var line := StatusLine(JStr("unknown"), JStr(""));
    assert [line] + [] + [] == [line];
    assert SummaryLines(JObj([])) == Ok([line]);
    UnknownStatusText();
  }

  lemma UnknownStatusText()
    ensures Strip(Join("\n", [StatusLine(JStr("unknown"), JStr(""))])) == "Статус: unknown"
  {
    var line := "Статус: unknown";
    assert StatusLine(JStr("unknown"), JStr("")) == line;
    assert Join("\n", [line]) == line;
    StripUnchanged(line);
  }

  /** A `status` that is not a dict makes the summary raise AttributeError on its `.get`. */
  lemma StatusMustBeDict(response: Json)
    requires !StatusOf(ResultOrEmpty(response)).JObj?
    ensures HumanReadable(response) == Err(NoAttribute(StatusOf(ResultOrEmpty(response)), "get"))
  {
  }

  /** The first line is the status, with " @ ts" only when the timestamp is truthy. */
  lemma FirstLineIsStatus(response: Json)
    requires SummaryLines(response).Ok?
    ensures var status := StatusOf(ResultOrEmpty(response));
      var line := SummaryLines(response).value[0];
      var state := Get(status, "state", JStr("unknown")).value;
      StartsWith(line, "Статус: " + Display(state)) &&
      (line == "Статус: " + Display(state) <==> !Truthy(Get(status, "timestamp", JStr("")).value))
  {
    var status := StatusOf(ResultOrEmpty(response));
    StatusLineShape(Get(status, "state", JStr("unknown")).value, Get(status, "timestamp", JStr("")).value);
  }

  /** The answer's lines, when there are artifact texts. */
  function AnswerOf(response: Json): Result<seq<string>> {
    var artifactTexts := ArtifactTexts(ListOf(ResultOrEmpty(response), "artifacts"));
    if artifactTexts == [] then Ok([]) else AnswerLines(artifactTexts)
  }

  /** A summary's lines: the status line, the answer block, the history block. */
  lemma SummaryShape(response: Json)
    requires SummaryLines(response).Ok?
    ensures AnswerOf(response).Ok? && HistoryLines(ListOf(ResultOrEmpty(response), "history")).Ok?
    ensures var status := StatusOf(ResultOrEmpty(response));
      SummaryLines(response).value ==
        [StatusLine(Get(status, "state", JStr("unknown")).value, Get(status, "timestamp", JStr("")).value)] +
        AnswerOf(response).value + HistoryBlock(HistoryLines(ListOf(ResultOrEmpty(response), "history")).value)
  {
  }

  /** Where the two headings can stand in `[first] + answer + block`. */
  lemma BlockLayout(first: string, answer: seq<string>, block: seq<string>)
    requires answer == [] || (|answer| == 2 && answer[0] == AnswerHeading)
    requires block == [] || (|block| == 2 && block[0] == HistoryHeading)
    ensures var lines := [first] + answer + block;
      (|lines| >= 3 && lines[1] == AnswerHeading <==> answer != []) &&
      (|lines| >= 3 && lines[|lines| - 2] == HistoryHeading <==> block != []) &&
      (block != [] ==> lines[|lines| - 1] == block[1])
  {
    assert AnswerHeading[1] != HistoryHeading[1];
  }

  /** The answer block is present exactly when some artifact has a non-empty text part. */
  lemma AnswerShown(response: Json)
    requires SummaryLines(response).Ok?
    ensures var lines := SummaryLines(response).value;
      |lines| >= 3 && lines[1] == AnswerHeading <==> HasArtifactText(ListOf(ResultOrEmpty(response), "artifacts"))
  {
    SummaryShape(response);
    var lines := SummaryLines(response).value;
    var status := StatusOf(ResultOrEmpty(response));
    var first := StatusLine(Get(status, "state", JStr("unknown")).value, Get(status, "timestamp", JStr("")).value);
    var block := HistoryBlock(HistoryLines(ListOf(ResultOrEmpty(response), "history")).value);
    BlockLayout(first, AnswerOf(response).value, block);
    ArtifactTextsEmpty(ListOf(ResultOrEmpty(response), "artifacts"));
  }

  /** The history block is present, last, exactly when some history entry has texts; it has one bullet per such entry. */
  lemma HistoryShown(response: Json)
    requires SummaryLines(response).Ok?
    ensures var lines := SummaryLines(response).value;
      |lines| >= 3 && lines[|lines| - 2] == HistoryHeading <==> HasEntryText(ListOf(ResultOrEmpty(response), "history"))
    ensures var lines := SummaryLines(response).value;
      var historyLines := HistoryLines(ListOf(ResultOrEmpty(response), "history")).value;
      historyLines != [] ==>
        lines[|lines| - 1] == Join("\n", Bullets(historyLines)) &&
        |historyLines| == EntriesWithText(ListOf(ResultOrEmpty(response), "history"))
  {
    SummaryShape(response);
    var entries := ListOf(ResultOrEmpty(response), "history");
    var status := StatusOf(ResultOrEmpty(response));
    var first := StatusLine(Get(status, "state", JStr("unknown")).value, Get(status, "timestamp", JStr("")).value);
    var historyLines := HistoryLines(entries).value;
    BlockLayout(first, AnswerOf(response).value, HistoryBlock(historyLines));
    HistoryLineCount(entries);
    EntriesWithTextZero(entries);
  }
}
