/** The request-decision rules of the HTTP front end (app.py), with Flask's
    request and response objects replaced by plain values: the status code a
    handler answers with, and the calls it makes into the state. An exception
    that escapes a handler is Flask's status 500. */
module App {
  import opened JsonData
  import Cargo
  import MockData

  // ---------------------------------------------------------------------------
  // ASCII case mapping (`str.lower`, `str.upper`)
  // ---------------------------------------------------------------------------

  function LowerChar(c: char): char {
    if 'A' <= c <= 'Z' then (c as int + 32) as char else c
  }

  function UpperChar(c: char): char {
    if 'a' <= c <= 'z' then (c as int - 32) as char else c
  }

  function Lower(s: string): (r: string)
    ensures |r| == |s| && forall i :: 0 <= i < |s| ==> r[i] == LowerChar(s[i])
  {
    seq(|s|, i requires 0 <= i < |s| => LowerChar(s[i]))
  }

  function Upper(s: string): (r: string)
    ensures |r| == |s| && forall i :: 0 <= i < |s| ==> r[i] == UpperChar(s[i])
  {
    seq(|s|, i requires 0 <= i < |s| => UpperChar(s[i]))
  }

  /** Two strings that are equal once lower-cased are equal once upper-cased. */
  lemma UpperAgreesWithLower(a: string, b: string)
    requires Lower(a) == Lower(b)
    ensures Upper(a) == Upper(b)
  {
    forall i | 0 <= i < |a|
      ensures Upper(a)[i] == Upper(b)[i]
    {
      assert LowerChar(a[i]) == Lower(a)[i] == Lower(b)[i] == LowerChar(b[i]);
    }
  }

  /** The reading of case-insensitive equality that does not go through `Lower`. */
  predicate EqualsIgnoringCase(a: string, b: string) {
    |a| == |b| && forall i :: 0 <= i < |a| ==> LowerChar(a[i]) == LowerChar(b[i])
  }

  // ---------------------------------------------------------------------------
  // convert_path_to_flask: re.sub(r"{(\w+)}", r"<string:\1>", path)
  // ---------------------------------------------------------------------------

  predicate IsWordChar(c: char) {
    'a' <= c <= 'z' || 'A' <= c <= 'Z' || '0' <= c <= '9' || c == '_'
  }

  /** The length of the longest prefix of word characters (`\w+` is greedy). */
  function WordRun(s: string): (n: nat)
    ensures n <= |s|
    ensures forall i :: 0 <= i < n ==> IsWordChar(s[i])
    ensures n < |s| ==> !IsWordChar(s[n])
    decreases |s|
  {
    if |s| > 0 && IsWordChar(s[0]) then 1 + WordRun(s[1..]) else 0
  }

  /** The length of the name when `s` starts with a placeholder `{name}`. */
  function PlaceholderAt(s: string): (r: Option<nat>)
    ensures r.Some? ==>
              1 <= r.value && r.value + 2 <= |s| && s[0] == '{' && s[r.value + 1] == '}' &&
              forall i :: 1 <= i <= r.value ==> IsWordChar(s[i])
  {
    if |s| > 0 && s[0] == '{' then
      var n := WordRun(s[1..]);
      if 1 <= n && n + 1 < |s| && s[n + 1] == '}' then Some(n) else None
    else None
  }

  /** No position of `s` starts a placeholder. */
  predicate NoPlaceholder(s: string)
    decreases |s|
  {
    |s| == 0 || (PlaceholderAt(s).None? && NoPlaceholder(s[1..]))
  }

  /** The path rewrite, scanning left to right as `re.sub` does: each
      placeholder becomes `<string:name>`; every other character is copied. */
  function ConvertPathToFlask(path: string): (r: string)
    ensures |r| >= |path|
    decreases |path|
  {
    if |path| == 0 then ""
    else
      match PlaceholderAt(path)
      case Some(n) => "<string:" + path[1..n + 1] + ">" + ConvertPathToFlask(path[n + 2..])
      case None => [path[0]] + ConvertPathToFlask(path[1..])
  }

  /** The rewrite never shortens a path, lengthens it exactly when it has a
      placeholder, and returns a path without one unchanged. */
  lemma {:induction false} ConvertGrowsExactlyAtPlaceholders(path: string)
    ensures |ConvertPathToFlask(path)| >= |path|
    ensures |ConvertPathToFlask(path)| == |path| <==> NoPlaceholder(path)
    ensures NoPlaceholder(path) ==> ConvertPathToFlask(path) == path
    decreases |path|
  {
    if |path| > 0 {
      match PlaceholderAt(path)
      case Some(n) =>
        ConvertGrowsExactlyAtPlaceholders(path[n + 2..]);
      case None =>
        ConvertGrowsExactlyAtPlaceholders(path[1..]);
        assert path == [path[0]] + path[1..];
    }
  }

  /** A run of word characters ended by a non-word character is exactly that run. */
  lemma {:induction false} WordRunOfWord(w: string, t: string)
    requires forall i :: 0 <= i < |w| ==> IsWordChar(w[i])
    requires |t| > 0 && !IsWordChar(t[0])
    ensures WordRun(w + t) == |w|
    decreases |w|
  {
    if w != [] {
      assert (w + t)[1..] == w[1..] + t;
      WordRunOfWord(w[1..], t);
    } else {
      assert w + t == t;
    }
  }

  /** A placeholder at the front is rewritten and the rest converted on its own. */
  lemma ConvertRewritesPlaceholder(name: string, rest: string)
    requires |name| >= 1 && forall i :: 0 <= i < |name| ==> IsWordChar(name[i])
    ensures ConvertPathToFlask("{" + name + "}" + rest) == "<string:" + name + ">" + ConvertPathToFlask(rest)
  {
    var s := "{" + name + "}" + rest;
    assert s[1..] == name + ("}" + rest);
    WordRunOfWord(name, "}" + rest);
    assert s[1..|name| + 1] == name;
    assert s[|name| + 2..] == rest;
  }

  /** A first character other than `{` is copied, and the rest converted on its own. */
  lemma ConvertCopiesFirstChar(c: char, rest: string)
    requires c != '{'
    ensures ConvertPathToFlask([c] + rest) == [c] + ConvertPathToFlask(rest)
  {
    assert ([c] + rest)[1..] == rest;
  }

  /** Text without `{` is copied unchanged and in order. */
  lemma {:induction false} ConvertKeepsLiteralText(lit: string, rest: string)
    requires forall i :: 0 <= i < |lit| ==> lit[i] != '{'
    ensures ConvertPathToFlask(lit + rest) == lit + ConvertPathToFlask(rest)
    decreases |lit|
  {
    if lit == [] {
      assert lit + rest == rest;
    } else {
      var tail := lit[1..];
      calc {
        ConvertPathToFlask(lit + rest);
        { assert lit + rest == [lit[0]] + (tail + rest); }
        ConvertPathToFlask([lit[0]] + (tail + rest));
        { ConvertCopiesFirstChar(lit[0], tail + rest); }
        [lit[0]] + ConvertPathToFlask(tail + rest);
        { ConvertKeepsLiteralText(tail, rest); }
        [lit[0]] + (tail + ConvertPathToFlask(rest));
        { assert lit == [lit[0]] + tail; }
        lit + ConvertPathToFlask(rest);
      }
    }
  }

  /** A prefix of the output made of word characters, followed by `}`, was
      copied from the input: the rewrite only inserts `<`, `>` and names. */
  lemma {:induction false} WordPrefixCopied(t: string)
    ensures var out := ConvertPathToFlask(t);
            var k := WordRun(out);
            k < |out| && out[k] == '}' ==> WordRun(t) == k && k < |t| && t[k] == '}'
    decreases |t|
  {
    var out := ConvertPathToFlask(t);
    if |t| > 0 && PlaceholderAt(t).None? {
      assert out == [t[0]] + ConvertPathToFlask(t[1..]);
      assert out[1..] == ConvertPathToFlask(t[1..]);
      if IsWordChar(t[0]) {
        WordPrefixCopied(t[1..]);
      }
    }
  }

  /** Text that contains no `{` followed by any string without a placeholder has no placeholder. */
  lemma {:induction false} NoPlaceholderAfterBracelessText(p: string, q: string)
    requires forall i :: 0 <= i < |p| ==> p[i] != '{'
    requires NoPlaceholder(q)
    ensures NoPlaceholder(p + q)
    decreases |p|
  {
    if p != [] {
      assert (p + q)[0] == p[0] && PlaceholderAt(p + q).None?;
      assert (p + q)[1..] == p[1..] + q;
      NoPlaceholderAfterBracelessText(p[1..], q);
    } else {
      assert p + q == q;
    }
  }

  /** The replacement `<string:name>` of a word-character name contains no `{`. */
  lemma ReplacementHasNoBrace(name: string)
    requires forall i :: 0 <= i < |name| ==> IsWordChar(name[i])
    ensures var p := "<string:" + name + ">";
            forall i :: 0 <= i < |p| ==> p[i] != '{'
  {
    var p := "<string:" + name + ">";
    forall i | 0 <= i < |p|
      ensures p[i] != '{'
    {
      if 8 <= i < 8 + |name| {
        assert p[i] == name[i - 8];
      }
    }
  }

  /** A leading placeholder is replaced by text without `{`, so no placeholder
      appears in front of the converted rest. */
  lemma RewrittenPlaceholderAddsNone(s: string, n: nat)
    requires |s| > 0 && PlaceholderAt(s) == Some(n)
    requires NoPlaceholder(ConvertPathToFlask(s[n + 2..]))
    ensures NoPlaceholder(ConvertPathToFlask(s))
  {
    var name := s[1..n + 1];
    var rest := ConvertPathToFlask(s[n + 2..]);
    assert forall i :: 0 <= i < |name| ==> IsWordChar(name[i]) by {
      forall i | 0 <= i < |name| ensures IsWordChar(name[i]) {
        assert name[i] == s[i + 1];
      }
    }
    ReplacementHasNoBrace(name);
    assert ConvertPathToFlask(s) == "<string:" + name + ">" + rest;
    NoPlaceholderAfterBracelessText("<string:" + name + ">", rest);
  }

  /** A copied character cannot start a placeholder in the output, since the
      input would then have had one at the same place. */
  lemma CopiedCharAddsNone(s: string)
    requires |s| > 0 && PlaceholderAt(s).None?
    requires NoPlaceholder(ConvertPathToFlask(s[1..]))
    ensures NoPlaceholder(ConvertPathToFlask(s))
  {
    var t := s[1..];
    var out := ConvertPathToFlask(s);
    assert out == [s[0]] + ConvertPathToFlask(t);
    assert out[1..] == ConvertPathToFlask(t);
    WordPrefixCopied(t);
    assert PlaceholderAt(out).None?;
  }

  /** The output of the rewrite contains no placeholder. */
  lemma {:induction false} ConvertLeavesNoPlaceholder(s: string)
    ensures NoPlaceholder(ConvertPathToFlask(s))
    decreases |s|
  {
    if |s| > 0 {
      match PlaceholderAt(s)
      case Some(n) =>
        ConvertLeavesNoPlaceholder(s[n + 2..]);
        RewrittenPlaceholderAddsNone(s, n);
      case None =>
        ConvertLeavesNoPlaceholder(s[1..]);
        CopiedCharAddsNone(s);
    }
  }

  /** The word run of `a + b`: that of `a` when it ends inside `a`, and otherwise
      all of `a` followed by the word run of `b`. */
  lemma {:induction false} WordRunAppend(a: string, b: string)
    ensures WordRun(a) < |a| ==> WordRun(a + b) == WordRun(a)
    ensures WordRun(a) == |a| ==> WordRun(a + b) == |a| + WordRun(b)
    decreases |a|
  {
    if a == [] {
      assert a + b == b;
    } else {
      assert (a + b)[0] == a[0];
      assert (a + b)[1..] == a[1..] + b;
      WordRunAppend(a[1..], b);
    }
  }

  /** A string that starts no placeholder still starts none once text is
      appended that cannot continue a name or close one. */
  lemma PlaceholderAtNoneExtends(lit: string, rest: string)
    requires |lit| > 0 && PlaceholderAt(lit).None?
    requires rest == [] || (!IsWordChar(rest[0]) && rest[0] != '}')
    ensures PlaceholderAt(lit + rest).None?
  {
    var s := lit + rest;
    assert s[0] == lit[0];
    if lit[0] == '{' {
      assert s[1..] == lit[1..] + rest;
      WordRunAppend(lit[1..], rest);
      if rest != [] {
        assert s[|lit|] == rest[0];
      }
    }
  }

  /** The first character of `lit + rest`, when it starts no placeholder, is copied. */
  lemma ConvertCopiesUnmatchedChar(lit: string, rest: string)
    requires |lit| > 0 && PlaceholderAt(lit + rest).None?
    ensures ConvertPathToFlask(lit + rest) == [lit[0]] + ConvertPathToFlask(lit[1..] + rest)
  {
    assert (lit + rest)[1..] == lit[1..] + rest;
  }

  /**
   * Text without a placeholder, followed by a character that cannot continue
   * a name or close one (or by nothing), is copied unchanged and in order,
   * including any `{` it contains.
   */
  lemma {:induction false} ConvertKeepsTextWithoutPlaceholder(lit: string, rest: string)
    requires NoPlaceholder(lit)
    requires rest == [] || (!IsWordChar(rest[0]) && rest[0] != '}')
    ensures ConvertPathToFlask(lit + rest) == lit + ConvertPathToFlask(rest)
    decreases |lit|
  {
    if lit == [] {
      assert lit + rest == rest;
    } else {
      var tail := lit[1..];
      PlaceholderAtNoneExtends(lit, rest);
      calc {
        ConvertPathToFlask(lit + rest);
        { ConvertCopiesUnmatchedChar(lit, rest); }
        [lit[0]] + ConvertPathToFlask(tail + rest);
        { ConvertKeepsTextWithoutPlaceholder(tail, rest); }
        [lit[0]] + (tail + ConvertPathToFlask(rest));
        { assert lit == [lit[0]] + tail; }
        lit + ConvertPathToFlask(rest);
      }
    }
  }

  /** `{a-b}` is no placeholder: `\w+` stops at the hyphen, which is not `}`. */
  lemma HyphenatedNameIsNoPlaceholder()
    ensures NoPlaceholder("/p/{a-b}")
  {
    var name := "a-b}";
    assert WordRun(name[1..]) == 0;
    assert WordRun(name) == 1;
    NoPlaceholderAfterBracelessText(name, "");
    assert name + "" == name;
    var braced := "{" + name;
    assert braced[1..] == name;
    assert PlaceholderAt(braced).None?;
    NoPlaceholderAfterBracelessText("/p/", braced);
    assert "/p/" + braced == "/p/{a-b}";
  }

  /** A slash followed by a placeholder. */
  lemma ConvertSlashThenPlaceholder()
    ensures ConvertPathToFlask("/{id}") == "/<string:id>"
  {
  }

  /** A hyphenated name stays as written, while a later placeholder is rewritten. */
  lemma ConvertKeepsHyphenatedName(path: string)
    requires path == "/p/{a-b}/{id}"
    ensures ConvertPathToFlask(path) == "/p/{a-b}" + "/<string:id>"
  {
    var lit, rest := "/p/{a-b}", "/{id}";
    assert path == lit + rest;
    HyphenatedNameIsNoPlaceholder();
    ConvertKeepsTextWithoutPlaceholder(lit, rest);
    ConvertSlashThenPlaceholder();
  }

  /** Converting twice is converting once. */
  lemma ConvertIdempotent(s: string)
    ensures ConvertPathToFlask(ConvertPathToFlask(s)) == ConvertPathToFlask(s)
  {
    ConvertLeavesNoPlaceholder(s);
    ConvertGrowsExactlyAtPlaceholders(ConvertPathToFlask(s));
  }

  // ---------------------------------------------------------------------------
  // operate_box
  // ---------------------------------------------------------------------------

  /** The lower-case token that `operate_box` accepts for a door command. */
  function OperationToken(d: Cargo.DoorStatus): string
    requires Cargo.IsDoorCommand(d)
  {
    if d == Cargo.Open then ":open" else ":close"
  }

  /** The `if/elif` on `operation.lower()`; None is the 400 answer. */
  function ParseOperation(operation: string): (r: Option<Cargo.DoorStatus>)
    ensures r.Some? ==> Cargo.IsDoorCommand(r.value) && Lower(operation) == OperationToken(r.value)
    ensures r.None? ==> Lower(operation) != ":open" && Lower(operation) != ":close"
  {
    if Lower(operation) == ":open" then Some(Cargo.Open)
    else if Lower(operation) == ":close" then Some(Cargo.Closed)
    else None
  }

  /** A token selects a door command exactly when it equals that command's token up to case. */
  lemma ParseOperationIgnoresCase(operation: string, d: Cargo.DoorStatus)
    requires Cargo.IsDoorCommand(d)
    ensures ParseOperation(operation) == Some(d) <==> EqualsIgnoringCase(operation, OperationToken(d))
  {
    var tok := OperationToken(d);
    assert forall i :: 0 <= i < |tok| ==> LowerChar(tok[i]) == tok[i];
    if EqualsIgnoringCase(operation, tok) {
      assert Lower(operation) == tok;
    }
  }

  /** The first cargo whose id is the requested string. */
  predicate IsFirstMatch(cargos: seq<Cargo.Cargo>, cargoId: string, k: int) {
    && 0 <= k < |cargos|
    && cargos[k].id == JStr(cargoId)
    && forall j :: 0 <= j < k ==> cargos[j].id != JStr(cargoId)
  }

  /** There is only one first match. */
  lemma FirstMatchUnique(cargos: seq<Cargo.Cargo>, cargoId: string, k: int)
    requires IsFirstMatch(cargos, cargoId, k)
    ensures forall k' :: IsFirstMatch(cargos, cargoId, k') ==> k' == k
  {
  }

  /** The `for ... break` search of `operate_box`. */
  method FindCargo(cargos: seq<Cargo.Cargo>, cargoId: string) returns (found: Option<nat>)
    ensures found.Some? ==> IsFirstMatch(cargos, cargoId, found.value)
    ensures found.None? ==> forall j :: 0 <= j < |cargos| ==> cargos[j].id != JStr(cargoId)
  {
    var i := 0;
    while i < |cargos|
      invariant 0 <= i <= |cargos|
      invariant forall j :: 0 <= j < i ==> cargos[j].id != JStr(cargoId)
    {
      if cargos[i].id == JStr(cargoId) {
        return Some(i);
      }
      i := i + 1;
    }
    return None;
  }

  datatype BoxReply = BoxReply(code: int, doorStatus: Option<Cargo.DoorStatus>)

  /** `operate_box(cargo_id, box_id, operation)`: 400 for an unknown token,
      404 for an unknown cargo, otherwise the operation on the first matching
      cargo and the box's door status after it (500 when the index is out of range). */
  method OperateBox(cargos: seq<Cargo.Cargo>, cargoId: string, boxId: nat, operation: string) returns (reply: BoxReply)
    requires forall i :: 0 <= i < |cargos| ==> cargos[i].Valid()
    modifies set c | c in cargos
    ensures forall i :: 0 <= i < |cargos| ==> cargos[i].Valid()
    ensures ParseOperation(operation).None? ==>
              reply == BoxReply(400, None) && forall c :: c in cargos ==> c.State() == old(c.State())
    ensures ParseOperation(operation).Some? && (forall j :: 0 <= j < |cargos| ==> cargos[j].id != JStr(cargoId)) ==>
              reply == BoxReply(404, None) && forall c :: c in cargos ==> c.State() == old(c.State())
    ensures forall k :: IsFirstMatch(cargos, cargoId, k) && ParseOperation(operation).Some? ==>
              old(cargos[k].Valid()) &&
              var op := Cargo.OperateStep(old(cargos[k].State()), ParseOperation(operation).value, boxId);
              && cargos[k].State() == op.doors
              && (forall c :: c in cargos && c != cargos[k] ==> c.State() == old(c.State()))
              && reply == if op.outcome == Cargo.BoxIndexError then BoxReply(500, None)
                          else BoxReply(200, Some(op.doors.boxes[boxId].doorStatus))
  {
    var target := ParseOperation(operation);
    if target.None? {
      return BoxReply(400, None);
    }
    var found := FindCargo(cargos, cargoId);
    if found.None? {
      return BoxReply(404, None);
    }
    var cargo := cargos[found.value];
    ghost var before := cargo.State();
    var outcome := cargo.Operate(target.value, boxId);
    assert cargo.State() == Cargo.OperateStep(before, target.value, boxId).doors;
    FirstMatchUnique(cargos, cargoId, found.value);
    if outcome == Cargo.BoxIndexError {
      return BoxReply(500, None);
    }
    reply := BoxReply(200, Some(cargo.boxes[boxId].doorStatus));
  }

  // ---------------------------------------------------------------------------
  // create_action, get_current_action, abort_current_action
  // ---------------------------------------------------------------------------

  /** `sub` occurs in `s` starting at index `i`. */
  predicate OccursAt(sub: string, s: string, i: int) {
    0 <= i <= |s| - |sub| && s[i..i + |sub|] == sub
  }

  predicate IsSubstring(sub: string, s: string) {
    exists i | 0 <= i <= |s| :: OccursAt(sub, s, i)
  }

  /** Python's `item in container` for a string item; None where it raises `TypeError`. */
  function Contains(container: Json, item: string): (r: Option<bool>)
    ensures container.JObj? ==> r == Some(item in container.fields)
    ensures container.JArr? ==> r == Some(JStr(item) in container.items)
    ensures container.JStr? ==> r == Some(IsSubstring(item, container.s))
    ensures r.None? <==> !container.JObj? && !container.JArr? && !container.JStr?
  {
    match container
    case JObj(fields) => Some(item in fields)
    case JArr(items) => Some(JStr(item) in items)
    case JStr(s) => Some(IsSubstring(item, s))
    case _ => None
  }

  /** What `create_action` does with the request body before any reply:
      answer at once, or call the scheduler with the name and the options. */
  datatype CreateCheck = Respond(code: int) | CallStart(actionName: Json, options: Json)

  function CheckCreateAction(data: Json): (r: CreateCheck)
    ensures r == Respond(400) <==> !Truthy(data) || Contains(data, "action_name") == Some(false)
    ensures r.CallStart? <==> data.JObj? && "action_name" in data.fields
    ensures r.CallStart? ==>
              r.actionName == data.fields["action_name"] && r.options == Get(data.fields, "options", JObj(map[]))
    ensures r.Respond? ==> r.code == 400 || r.code == 500
    // `in` on a value that is neither a container nor a string, or `.get` on a list or a string that holds the key
    ensures r == Respond(500) <==>
              Truthy(data) && (Contains(data, "action_name").None? || (Contains(data, "action_name") == Some(true) && !data.JObj?))
  {
    if !Truthy(data) then Respond(400)
    else
      match Contains(data, "action_name")
      case None => Respond(500)
      case Some(present) =>
        if !present then Respond(400)
        else if !data.JObj? then Respond(500)  // `data.get` on a list or a string
        else CallStart(data.fields["action_name"], Get(data.fields, "options", JObj(map[])))
  }

  /** The status `create_action` answers with; `started` is what the
      scheduler's `start_new_action` returned (falsy when an action is already running). */
  function CreateActionStatus(data: Json, started: Json): (code: int)
    ensures code == 200 <==> CheckCreateAction(data).CallStart? && Truthy(started)
    ensures code == 400 <==>
              CheckCreateAction(data) == Respond(400) || (CheckCreateAction(data).CallStart? && !Truthy(started))
    ensures code == 500 <==> CheckCreateAction(data) == Respond(500)
  {
    match CheckCreateAction(data)
    case Respond(c) => c
    case CallStart(_, _) => if Truthy(started) then 200 else 400
  }

  /** `get_current_action`: reading `.id` of an empty slot raises. */
  function GetCurrentActionStatus(current: Option<MockData.ActionInfo>): (code: int)
    ensures code == 404 <==> current.Some? && current.value.id == -1
    ensures code == 200 <==> current.Some? && current.value.id != -1
    ensures current.None? ==> code == 500
  {
    match current
    case None => 500
    case Some(action) => if action.id != -1 then 200 else 404
  }

  /** `abort_current_action` answers 200: the scheduler's abort result is not consulted. */
  function AbortCurrentActionStatus(): (code: int)
    ensures code == 200
  {
    200
  }

  // ---------------------------------------------------------------------------
  // create_routes_from_spec
  // ---------------------------------------------------------------------------

  /** The operationIds of `handler_map`. */
  const HandlerIds: set<string> := {
    "getPowerStatus", "getRobotInfo", "getRobotHealth", "shutdown", "getPose",
    "getLocalizationQuality", "setPose", "getCurrentPois", "addPois", "deletePoi",
    "clearPois", "getCompositeMap", "getCargos", "getCurrentAction", "createAction",
    "abortCurrentAction"}

  datatype Handler = Specific(operationId: string) | Generic

  /** The handler choice; None where `operation_id in handler_map` raises for an unhashable id. */
  function SelectHandler(operationId: Json): (r: Option<Handler>)
    ensures forall s :: r == Some(Specific(s)) <==> operationId == JStr(s) && s in HandlerIds
    ensures r.None? <==> Truthy(operationId) && !Hashable(operationId)
  {
    if !Truthy(operationId) then Some(Generic)
    else if !Hashable(operationId) then None
    else if operationId.JStr? && operationId.s in HandlerIds then Some(Specific(operationId.s))
    else Some(Generic)
  }

  /** The methods that produce routes, after `lower()`. */
  const RouteMethods: set<string> := {"get", "post", "put", "delete"}

  /** The HTTP methods a route can carry. */
  const HttpMethods: set<string> := {"GET", "POST", "PUT", "DELETE"}

  /** A route that `app.add_url_rule` registers. */
  datatype Route = Route(rule: string, endpoint: string, handler: Handler, httpMethod: string)

  /** A path of the OpenAPI document with its (verb, operation) entries, in document order. */
  datatype PathItem = PathItem(path: string, operations: seq<(string, Json)>)

  /** Why route creation raises. */
  datatype RouteError =
    | OperationNotObject(path: string, verb: string)    // `operation.get` on a non-dict
    | UnhashableOperationId(path: string, verb: string)

  /** `path.replace('/', '_')`. */
  function ReplaceSlashes(s: string): (r: string)
    ensures |r| == |s| && forall i :: 0 <= i < |s| ==> r[i] == if s[i] == '/' then '_' else s[i]
  {
    seq(|s|, i requires 0 <= i < |s| => if s[i] == '/' then '_' else s[i])
  }

  /** The route made for one (verb, operation) entry of a path, if any. */
  function OperationRoute(path: string, verb: string, operation: Json): (r: Result<Option<Route>, RouteError>)
    ensures Lower(verb) !in RouteMethods ==> r == Ok(None)
    ensures Lower(verb) in RouteMethods && r.Ok? ==> r.value.Some?
    ensures r.Ok? && r.value.Some? ==>
              var route := r.value.value;
              && operation.JObj?
              && route.rule == ConvertPathToFlask(path)
              && Some(route.handler) == SelectHandler(Get(operation.fields, "operationId", JNull))
              && route.httpMethod == Upper(verb)
              && route.httpMethod in HttpMethods
              && route.endpoint == verb + "_" + ReplaceSlashes(path)
    ensures r.Err? <==>
              Lower(verb) in RouteMethods &&
              (!operation.JObj? || SelectHandler(Get(operation.fields, "operationId", JNull)).None?)
  {
    if Lower(verb) !in RouteMethods then Ok(None)
    else if !operation.JObj? then Err(OperationNotObject(path, verb))
    else
      match SelectHandler(Get(operation.fields, "operationId", JNull))
      case None => Err(UnhashableOperationId(path, verb))
      case Some(h) =>
        UpperOfRouteMethod(verb);
        Ok(Some(Route(ConvertPathToFlask(path), verb + "_" + ReplaceSlashes(path), h, Upper(verb))))
  }

  /** An HTTP method that is one of get/post/put/delete up to case is registered as GET/POST/PUT/DELETE. */
  lemma UpperOfRouteMethod(verb: string)
    requires Lower(verb) in RouteMethods
    ensures Upper(verb) in HttpMethods
  {
    var low := Lower(verb);
    assert Lower(low) == low;
    UpperAgreesWithLower(verb, low);
    assert low == "get" || low == "post" || low == "put" || low == "delete";
    assert Upper("get") == "GET" && Upper("post") == "POST";
    assert Upper("put") == "PUT" && Upper("delete") == "DELETE";
  }

  /** `rs` put in front of a result, or the error. */
  function Prepend(rs: seq<Route>, r: Result<seq<Route>, RouteError>): Result<seq<Route>, RouteError> {
    match r
    case Ok(more) => Ok(rs + more)
    case Err(e) => Err(e)
  }

  /** The routes of one path, in entry order; the first failing entry raises. */
  function PathRoutes(path: string, ops: seq<(string, Json)>): (r: Result<seq<Route>, RouteError>)
    ensures r.Ok? ==> |r.value| <= |ops|
    ensures r.Ok? ==> forall k :: 0 <= k < |r.value| ==>
              r.value[k].rule == ConvertPathToFlask(path) && r.value[k].httpMethod in HttpMethods
    decreases |ops|
  {
    if ops == [] then Ok([])
    else
      match OperationRoute(path, ops[0].0, ops[0].1)
      case Err(e) => Err(e)
      case Ok(first) => Prepend(if first.Some? then [first.value] else [], PathRoutes(path, ops[1..]))
  }

  /** The routes of the whole document, path after path. */
  function SpecRoutes(items: seq<PathItem>): (r: Result<seq<Route>, RouteError>)
    ensures r.Ok? ==> forall k :: 0 <= k < |r.value| ==> r.value[k].httpMethod in HttpMethods
    decreases |items|
  {
    if items == [] then Ok([])
    else
      match PathRoutes(items[0].path, items[0].operations)
      case Err(e) => Err(e)
      case Ok(rs) => Prepend(rs, SpecRoutes(items[1..]))
  }

  /** The entries of one path whose method is one of get/post/put/delete, in entry order. */
  function RoutedEntries(ops: seq<(string, Json)>): (es: seq<(string, Json)>)
    ensures forall k :: 0 <= k < |es| ==> Lower(es[k].0) in RouteMethods && es[k] in ops
    ensures forall e :: e in ops && Lower(e.0) in RouteMethods ==> e in es
    decreases |ops|
  {
    if ops == [] then []
    else (if Lower(ops[0].0) in RouteMethods then [ops[0]] else []) + RoutedEntries(ops[1..])
  }

  /** Filtering keeps the order: the routed entries of `a + b` are those of `a` followed by those of `b`. */
  lemma {:induction false} RoutedEntriesAppend(a: seq<(string, Json)>, b: seq<(string, Json)>)
    ensures RoutedEntries(a + b) == RoutedEntries(a) + RoutedEntries(b)
    decreases |a|
  {
    if a == [] {
      assert a + b == b;
    } else {
      assert (a + b)[1..] == a[1..] + b;
      RoutedEntriesAppend(a[1..], b);
    }
  }

  /** Building the routes of one path fails exactly when one of its entries fails. */
  lemma {:induction false} PathRoutesOkIffEveryEntryOk(path: string, ops: seq<(string, Json)>)
    ensures PathRoutes(path, ops).Ok? <==>
              forall j :: 0 <= j < |ops| ==> OperationRoute(path, ops[j].0, ops[j].1).Ok?
    decreases |ops|
  {
    if ops != [] {
      PathRoutesOkIffEveryEntryOk(path, ops[1..]);
      assert forall j :: 1 <= j < |ops| ==> ops[1..][j - 1] == ops[j];
    }
  }

  /** A route built by an entry, put before routes built by entries in order, keeps them in order. */
  lemma RouteBeforeRoutes(path: string, e: (string, Json), x: Route, es: seq<(string, Json)>, rs: seq<Route>)
    requires OperationRoute(path, e.0, e.1) == Ok(Some(x))
    requires |rs| == |es| && forall k :: 0 <= k < |rs| ==> OperationRoute(path, es[k].0, es[k].1) == Ok(Some(rs[k]))
    ensures |[x] + rs| == |[e] + es|
    ensures forall k :: 0 <= k < |[x] + rs| ==>
              OperationRoute(path, ([e] + es)[k].0, ([e] + es)[k].1) == Ok(Some(([x] + rs)[k]))
  {
    forall k | 0 < k < |[x] + rs|
      ensures OperationRoute(path, ([e] + es)[k].0, ([e] + es)[k].1) == Ok(Some(([x] + rs)[k]))
    {
      assert ([e] + es)[k] == es[k - 1] && ([x] + rs)[k] == rs[k - 1];
    }
  }

  /**
   * A successful table of one path holds exactly one route per get/post/put/delete entry,
   * in entry order, each the route that entry builds.
   */
  lemma {:induction false} PathRoutesFollowRoutedEntries(path: string, ops: seq<(string, Json)>)
    ensures PathRoutes(path, ops).Ok? ==>
              var rs := PathRoutes(path, ops).value;
              var es := RoutedEntries(ops);
              && |rs| == |es|
              && forall k :: 0 <= k < |rs| ==> OperationRoute(path, es[k].0, es[k].1) == Ok(Some(rs[k]))
    decreases |ops|
  {
    if ops != [] && PathRoutes(path, ops).Ok? {
      PathRoutesFollowRoutedEntries(path, ops[1..]);
      var first := OperationRoute(path, ops[0].0, ops[0].1);
      var rest := PathRoutes(path, ops[1..]).value;
      var esRest := RoutedEntries(ops[1..]);
      if first.value.Some? {
        assert PathRoutes(path, ops).value == [first.value.value] + rest;
        assert RoutedEntries(ops) == [ops[0]] + esRest;
        RouteBeforeRoutes(path, ops[0], first.value.value, esRest, rest);
      } else {
        assert PathRoutes(path, ops).value == [] + rest;
        assert RoutedEntries(ops) == [] + esRest;
      }
    }
  }

  /** The routes of every path of the document, one list per path, empty where the path fails. */
  function PathTables(items: seq<PathItem>): (ts: seq<seq<Route>>)
    ensures |ts| == |items|
    ensures forall i :: 0 <= i < |items| ==>
              (PathRoutes(items[i].path, items[i].operations).Ok? ==>
                 ts[i] == PathRoutes(items[i].path, items[i].operations).value)
  {
    seq(|items|, i requires 0 <= i < |items| =>
      var r := PathRoutes(items[i].path, items[i].operations);
      if r.Ok? then r.value else [])
  }

  /** Lists joined end to end. */
  function Flatten(xss: seq<seq<Route>>): seq<Route>
    decreases |xss|
  {
    if xss == [] then [] else xss[0] + Flatten(xss[1..])
  }

  /**
   * The route table of a document is built exactly when the table of every path is, and
   * is then the tables of its paths joined in document order.
   */
  lemma {:induction false} SpecRoutesJoinsPathTables(items: seq<PathItem>)
    ensures SpecRoutes(items).Ok? <==>
              forall i :: 0 <= i < |items| ==> PathRoutes(items[i].path, items[i].operations).Ok?
    ensures SpecRoutes(items).Ok? ==> SpecRoutes(items).value == Flatten(PathTables(items))
    decreases |items|
  {
    if items != [] {
      SpecRoutesJoinsPathTables(items[1..]);
      assert forall i :: 1 <= i < |items| ==> items[1..][i - 1] == items[i];
      if SpecRoutes(items).Ok? {
        assert PathTables(items)[1..] == PathTables(items[1..]);
      }
    }
  }

  /** Putting no routes in front of a result leaves it as it is. */
  lemma PrependNothing(r: Result<seq<Route>, RouteError>)
    ensures Prepend([], r) == r
  {
    if r.Ok? {
      assert [] + r.value == r.value;
    }
  }

  /** Putting `a` in front of `b` in front of a result is putting `a + b` in front of it. */
  lemma PrependPrepend(a: seq<Route>, b: seq<Route>, r: Result<seq<Route>, RouteError>)
    ensures Prepend(a, Prepend(b, r)) == Prepend(a + b, r)
  {
    if r.Ok? {
      assert a + (b + r.value) == (a + b) + r.value;
    }
  }

  /** The inner loop of `create_routes_from_spec`, over the entries of one path. */
  method CreatePathRoutes(item: PathItem) returns (r: Result<seq<Route>, RouteError>)
    ensures r == PathRoutes(item.path, item.operations)
  {
    var ops := item.operations;
    var flaskPath := ConvertPathToFlask(item.path);
    var pathRoutes: seq<Route> := [];
    var j := 0;
    assert ops[j..] == ops;
    PrependNothing(PathRoutes(item.path, ops));
    while j < |ops|
      invariant 0 <= j <= |ops|
      invariant PathRoutes(item.path, ops) == Prepend(pathRoutes, PathRoutes(item.path, ops[j..]))
    {
      var (verb, operation) := ops[j];
      ghost var later := PathRoutes(item.path, ops[j + 1..]);
      assert ops[j..][0] == (verb, operation) && ops[j..][1..] == ops[j + 1..];
      if Lower(verb) in RouteMethods {
        if !operation.JObj? {
          assert PathRoutes(item.path, ops) == Err(OperationNotObject(item.path, verb));
          return Err(OperationNotObject(item.path, verb));
        }
        var handler := SelectHandler(Get(operation.fields, "operationId", JNull));
        if handler.None? {
          assert PathRoutes(item.path, ops) == Err(UnhashableOperationId(item.path, verb));
          return Err(UnhashableOperationId(item.path, verb));
        }
        var route := Route(flaskPath, verb + "_" + ReplaceSlashes(item.path), handler.value, Upper(verb));
        assert OperationRoute(item.path, verb, operation) == Ok(Some(route));
        PrependPrepend(pathRoutes, [route], later);
        pathRoutes := pathRoutes + [route];
      } else {
        assert pathRoutes + [] == pathRoutes;
        PrependPrepend(pathRoutes, [], later);
      }
      j := j + 1;
    }
    assert ops[j..] == [] && pathRoutes + [] == pathRoutes;
    return Ok(pathRoutes);
  }

  /** The outer loop of `create_routes_from_spec`: the result is the route table. */
  method CreateRoutesFromSpec(items: seq<PathItem>) returns (r: Result<seq<Route>, RouteError>)
    ensures r == SpecRoutes(items)
  {
    var routes: seq<Route> := [];
    var i := 0;
    assert items[i..] == items;
    PrependNothing(SpecRoutes(items));
    while i < |items|
      invariant 0 <= i <= |items|
      invariant SpecRoutes(items) == Prepend(routes, SpecRoutes(items[i..]))
    {
      ghost var tail := SpecRoutes(items[i + 1..]);
      assert items[i..][0] == items[i] && items[i..][1..] == items[i + 1..];
      var pathRoutes := CreatePathRoutes(items[i]);
      if pathRoutes.Err? {
        return Err(pathRoutes.error);
      }
      PrependPrepend(routes, pathRoutes.value, tail);
      routes := routes + pathRoutes.value;
      i := i + 1;
    }
    assert items[i..] == [] && routes + [] == routes;
    return Ok(routes);
  }
}
