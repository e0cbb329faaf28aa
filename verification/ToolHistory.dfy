/** Validation of the tool calls and results in a request's message history. */
module ToolHistory {
  import opened Sums
  import opened Text

  datatype Json =
    | Null
    | Bool(flag: bool)
    | Number(digits: string)
    | Str(text: string)
    | Array(items: seq<Json>)
    | Object(fields: map<string, Json>)

  function Get(j: Json, key: string): Json { if j.Object? && key in j.fields then j.fields[key] else Null }

  function StringValue(j: Json): string { if j.Str? then j.text else "" }

  function Items(j: Json): seq<Json> { if j.Array? then j.items else [] }

  datatype Code =
    | InvalidToolSchema | DuplicateToolName
    | InvalidCallId | DuplicateCallId | InvalidToolName | InvalidArguments
    | UnmatchedResult | DuplicateResult | MissingResult

  datatype Issue = Issue(code: Code, toolName: string, callId: string)

  // ----- declarations -----

  function Definition(item: Json): Json {
    if Get(item, "function").Object? then Get(item, "function") else item
  }

  function ToolName(item: Json): string { Trim(StringValue(Get(Definition(item), "name"))) }

  /** A nameless tool run by the provider, such as a web search. */
  predicate Hosted(item: Json) {
    ToolName(item) == "" && StringValue(Get(item, "type")) !in {"", "function"}
  }

  function RawSchema(item: Json): Json {
    if Get(Definition(item), "parameters") != Null then Get(Definition(item), "parameters")
    else Get(Definition(item), "input_schema")
  }

  predicate WellDeclared(item: Json) {
    && item.Object?
    && (Hosted(item) || (ToolName(item) != "" && (RawSchema(item) == Null || RawSchema(item).Object?)))
  }

  /** A tool without a schema has the empty one. */
  function Schema(item: Json): map<string, Json> {
    if RawSchema(item).Object? then RawSchema(item).fields else map[]
  }

  predicate NameAt(items: seq<Json>, i: int, name: string) {
    name != "" && 0 <= i < |items| && ToolName(items[i]) == name
  }

  ghost predicate DeclarationsOk(items: seq<Json>) {
    && (forall i :: 0 <= i < |items| ==> WellDeclared(items[i]))
    && (forall i, j, n :: NameAt(items, i, n) && NameAt(items, j, n) ==> i == j)
  }

  /** What the reported declaration issue says is so. */
  ghost predicate BlamesDeclaration(items: seq<Json>, issue: Issue) {
    match issue.code
    case InvalidToolSchema => exists i :: 0 <= i < |items| && !WellDeclared(items[i])
    case DuplicateToolName => exists i, j :: i < j && NameAt(items, i, issue.toolName) && NameAt(items, j, issue.toolName)
    case _ => false
  }

  /** One declaration: refused, passed over when hosted, or entered under its name. */
  method DeclareTool(declared: map<string, map<string, Json>>, item: Json)
    returns (next: map<string, map<string, Json>>, issue: Option<Issue>)
    requires "" !in declared
    ensures issue.None? <==> WellDeclared(item) && ToolName(item) !in declared
    ensures issue.Some? ==> issue.value.code == (if WellDeclared(item) || ToolName(item) in declared then DuplicateToolName else InvalidToolSchema)
    ensures issue.Some? && issue.value.code == DuplicateToolName ==> issue.value.toolName == ToolName(item) && ToolName(item) in declared
    ensures issue.None? ==> next == if ToolName(item) == "" then declared else declared[ToolName(item) := Schema(item)]
  {
    next, issue := declared, None;
    if !item.Object? {
      return next, Some(Issue(InvalidToolSchema, "", ""));
    }
    var definition := item;
    if Get(item, "function").Object? {
      definition := Get(item, "function");
    }
    var name := Trim(StringValue(Get(definition, "name")));
    if name == "" {
      var toolType := StringValue(Get(item, "type"));
      if toolType != "" && toolType != "function" {
        return;
      }
      return next, Some(Issue(InvalidToolSchema, "", ""));
    }
    if name in declared {
      return next, Some(Issue(DuplicateToolName, name, ""));
    }
    var rawSchema := Get(definition, "parameters");
    if rawSchema == Null {
      rawSchema := Get(definition, "input_schema");
    }
    var schema := map[];
    if rawSchema != Null {
      if !rawSchema.Object? {
        return next, Some(Issue(InvalidToolSchema, name, ""));
      }
      schema := rawSchema.fields;
    }
    next := declared[name := schema];
  }

  method CollectDeclaredTools(raw: Json) returns (declared: map<string, map<string, Json>>, issue: Option<Issue>)
    ensures issue.None? <==> DeclarationsOk(Items(raw))
    ensures issue.Some? ==> BlamesDeclaration(Items(raw), issue.value)
    ensures issue.None? ==> forall n :: Recorded(Items(raw), declared, n)
  {
    declared, issue := map[], None;
    var items := Items(raw);
    var k := 0;
    while k < |items|
      invariant 0 <= k <= |items| && issue.None?
      invariant Collected(items[..k], declared)
    {
      ghost var before := declared;
      assert Recorded(items[..k], declared, "");
      declared, issue := DeclareTool(declared, items[k]);
      assert items[..k] + [items[k]] == items[..k + 1];
      if issue.Some? {
        Refused(items, k, before, issue.value);
        return;
      }
      CollectedStep(items[..k], items[k], before, declared);
      k := k + 1;
    }
    assert items[..k] == items;
  }

  /** The declarations are in order and the table holds exactly them. */
  ghost predicate Collected(items: seq<Json>, declared: map<string, map<string, Json>>) {
    DeclarationsOk(items) && forall n :: Recorded(items, declared, n)
  }

  ghost predicate Recorded(items: seq<Json>, declared: map<string, map<string, Json>>, n: string) {
    && (n in declared <==> exists i :: NameAt(items, i, n))
    && (forall i :: NameAt(items, i, n) ==> declared[n] == Schema(items[i]))
  }

  lemma NameSnoc(items: seq<Json>, item: Json, n: string)
    ensures forall i :: NameAt(items, i, n) ==> NameAt(items + [item], i, n) && (items + [item])[i] == items[i]
    ensures forall i :: NameAt(items + [item], i, n) ==> NameAt(items, i, n) || (i == |items| && n == ToolName(item))
  {
  }

  lemma CollectedStep(items: seq<Json>, item: Json, before: map<string, map<string, Json>>, after: map<string, map<string, Json>>)
    requires Collected(items, before) && WellDeclared(item) && ToolName(item) !in before
    requires after == if ToolName(item) == "" then before else before[ToolName(item) := Schema(item)]
    ensures Collected(items + [item], after)
  {
    var all := items + [item];
    forall n ensures Recorded(all, after, n) {
      assert Recorded(items, before, n);
      NameSnoc(items, item, n);
      assert n == ToolName(item) != "" ==> NameAt(all, |items|, n);
    }
    forall i, j, n | NameAt(all, i, n) && NameAt(all, j, n) ensures i == j {
      assert Recorded(items, before, n);
      NameSnoc(items, item, n);
    }
  }

  lemma Refused(items: seq<Json>, k: nat, declared: map<string, map<string, Json>>, issue: Issue)
    requires k < |items| && Collected(items[..k], declared)
    requires !WellDeclared(items[k]) || ToolName(items[k]) in declared
    requires issue.code == if WellDeclared(items[k]) || ToolName(items[k]) in declared then DuplicateToolName else InvalidToolSchema
    requires issue.code == DuplicateToolName ==> issue.toolName == ToolName(items[k]) && issue.toolName in declared
    ensures !DeclarationsOk(items) && BlamesDeclaration(items, issue)
  {
    if issue.code == DuplicateToolName {
      assert Recorded(items[..k], declared, issue.toolName);
      var i :| NameAt(items[..k], i, issue.toolName);
      assert NameAt(items, i, issue.toolName) && NameAt(items, k, issue.toolName);
    }
  }

  // ----- the history as a sequence of calls and results -----

  datatype Entry =
    | Call(id: string, name: string, arguments: Json, at: nat)
    | Result(id: string, at: nat)

  function Key(e: Entry): string { Trim(e.id) }

  function CallEntries(raw: seq<Json>, at: nat): seq<Entry> {
    if raw == [] then [] else
      var fn := Get(raw[0], "function");
      [Call(StringValue(Get(raw[0], "id")), StringValue(Get(fn, "name")), Get(fn, "arguments"), at)]
      + CallEntries(raw[1..], at)
  }

  function BlockEntry(block: Json, at: nat): seq<Entry> {
    if !block.Object? then []
    else if StringValue(Get(block, "type")) == "tool_use" then
      [Call(StringValue(Get(block, "id")), StringValue(Get(block, "name")), Get(block, "input"), at)]
    else if StringValue(Get(block, "type")) == "tool_result" then
      [Result(StringValue(Get(block, "tool_use_id")), at)]
    else []
  }

  function BlockEntries(raw: seq<Json>, at: nat): seq<Entry> {
    if raw == [] then [] else BlockEntry(raw[0], at) + BlockEntries(raw[1..], at)
  }

  /** The part of a message that the OpenAI format carries beside its content. */
  function RoleEntries(message: Json, at: nat): seq<Entry> {
    var role := StringValue(Get(message, "role"));
    if role == "assistant" then CallEntries(Items(Get(message, "tool_calls")), at)
    else if role == "tool" then [Result(StringValue(Get(message, "tool_call_id")), at)]
    else []
  }

  function MessageEntries(message: Json, at: nat): seq<Entry> {
    if !message.Object? then []
    else RoleEntries(message, at) + BlockEntries(Items(Get(message, "content")), at)
  }

  /** All entries of the messages, numbered from `at`. */
  function Entries(messages: seq<Json>, at: nat): seq<Entry> {
    if messages == [] then [] else MessageEntries(messages[0], at) + Entries(messages[1..], at + 1)
  }

  ghost predicate InOrder(es: seq<Entry>) { forall i, j :: 0 <= i < j < |es| ==> es[i].at <= es[j].at }

  lemma {:induction false} CallsAreHere(raw: seq<Json>, at: nat)
    ensures forall e :: e in CallEntries(raw, at) ==> e.at == at
  {
    if raw != [] {
      CallsAreHere(raw[1..], at);
    }
  }

  lemma {:induction false} BlocksAreHere(raw: seq<Json>, at: nat)
    ensures forall e :: e in BlockEntries(raw, at) ==> e.at == at
  {
    if raw != [] {
      BlocksAreHere(raw[1..], at);
    }
  }

  lemma {:induction false} EntriesInOrder(messages: seq<Json>, at: nat)
    ensures InOrder(Entries(messages, at)) && forall e :: e in Entries(messages, at) ==> e.at >= at
    decreases |messages|
  {
    if messages != [] {
      EntriesInOrder(messages[1..], at + 1);
      CallsAreHere(Items(Get(messages[0], "tool_calls")), at);
      BlocksAreHere(Items(Get(messages[0], "content")), at);
      var here, later := MessageEntries(messages[0], at), Entries(messages[1..], at + 1);
      assert forall e :: e in here ==> e.at == at;
      forall i, j | 0 <= i < j < |here + later| ensures (here + later)[i].at <= (here + later)[j].at {
        assert i < |here| ==> (here + later)[i] in here;
        assert j < |here| ==> (here + later)[j] in here;
        assert j >= |here| ==> (here + later)[j] in later;
      }
    }
  }

  // ----- when a history is accepted -----

  predicate ArgumentsOk(arguments: Json, valid: string -> bool) {
    arguments.Str? ==> Trim(arguments.text) != "" && valid(arguments.text)
  }

  predicate GoodCall(e: Entry, valid: string -> bool)
    requires e.Call?
  {
    Key(e) != "" && Trim(e.name) != "" && ArgumentsOk(e.arguments, valid)
  }

  ghost predicate CallAt(es: seq<Entry>, i: int, id: string) { 0 <= i < |es| && es[i].Call? && Key(es[i]) == id }

  ghost predicate ResultAt(es: seq<Entry>, j: int, id: string) { 0 <= j < |es| && es[j].Result? && Key(es[j]) == id }

  /** Every result answers a call of a strictly earlier message, and no two entries of a kind
      share an id. */
  ghost predicate Consistent(es: seq<Entry>, valid: string -> bool) {
    && (forall i :: 0 <= i < |es| && es[i].Call? ==> GoodCall(es[i], valid))
    && (forall i, j, id :: CallAt(es, i, id) && CallAt(es, j, id) ==> i == j)
    && (forall i, j, id :: ResultAt(es, i, id) && ResultAt(es, j, id) ==> i == j)
    && (forall j, id :: ResultAt(es, j, id) ==> exists i :: CallAt(es, i, id) && es[i].at < es[j].at)
  }

  ghost predicate Complete(es: seq<Entry>) {
    forall i, id :: CallAt(es, i, id) ==> exists j :: ResultAt(es, j, id)
  }

  ghost predicate Accepted(payload: Json, valid: string -> bool) {
    var es := Entries(Items(Get(payload, "messages")), 0);
    DeclarationsOk(Items(Get(payload, "tools"))) && Consistent(es, valid) && Complete(es)
  }

  /** What the reported history issue says is so. */
  ghost predicate Blames(es: seq<Entry>, issue: Issue, valid: string -> bool) {
    var id := issue.callId;
    match issue.code
    case InvalidCallId => id == "" && exists i :: CallAt(es, i, "") && Trim(es[i].name) == issue.toolName
    case DuplicateCallId => exists i, j :: i < j && CallAt(es, i, id) && CallAt(es, j, id) && Trim(es[j].name) == issue.toolName
    case InvalidToolName => issue.toolName == "" && exists i :: CallAt(es, i, id) && Trim(es[i].name) == ""
    case InvalidArguments => exists i :: CallAt(es, i, id) && Trim(es[i].name) == issue.toolName && !ArgumentsOk(es[i].arguments, valid)
    case UnmatchedResult => exists j :: ResultAt(es, j, id) && forall i :: CallAt(es, i, id) ==> es[i].at >= es[j].at
    case DuplicateResult => exists i, j :: i < j && ResultAt(es, i, id) && ResultAt(es, j, id)
    case MissingResult => (exists i :: CallAt(es, i, id) && Trim(es[i].name) == issue.toolName) && forall j :: !ResultAt(es, j, id)
    case _ => false
  }

  // ----- the one pass -----

  datatype Observed = Observed(name: string, at: nat, result: bool)

  datatype Outcome = Going(calls: map<string, Observed>) | Failed(issue: Issue)

  function Register(calls: map<string, Observed>, e: Entry, valid: string -> bool): Outcome {
    var id := Key(e);
    if e.Call? then
      var name := Trim(e.name);
      if id == "" then Failed(Issue(InvalidCallId, name, ""))
      else if id in calls then Failed(Issue(DuplicateCallId, name, id))
      else if name == "" then Failed(Issue(InvalidToolName, "", id))
      else if !ArgumentsOk(e.arguments, valid) then Failed(Issue(InvalidArguments, name, id))
      else Going(calls[id := Observed(name, e.at, false)])
    else
      if id !in calls || id == "" then Failed(Issue(UnmatchedResult, "", id))
      else if calls[id].at >= e.at then Failed(Issue(UnmatchedResult, calls[id].name, id))
      else if calls[id].result then Failed(Issue(DuplicateResult, calls[id].name, id))
      else Going(calls[id := calls[id].(result := true)])
  }

  function Pass(calls: map<string, Observed>, es: seq<Entry>, valid: string -> bool): Outcome
    decreases |es|
  {
    if es == [] then Going(calls) else
      match Register(calls, es[0], valid)
      case Failed(issue) => Failed(issue)
      case Going(next) => Pass(next, es[1..], valid)
  }

  function Then(o: Outcome, rest: seq<Entry>, valid: string -> bool): Outcome {
    if o.Going? then Pass(o.calls, rest, valid) else o
  }

  lemma {:induction false} PassConcat(calls: map<string, Observed>, a: seq<Entry>, b: seq<Entry>, valid: string -> bool)
    ensures Pass(calls, a + b, valid) == Then(Pass(calls, a, valid), b, valid)
    decreases |a|
  {
    if a == [] {
      assert a + b == b;
    } else {
      assert (a + b)[1..] == a[1..] + b;
      var first := Register(calls, a[0], valid);
      if first.Going? {
        PassConcat(first.calls, a[1..], b, valid);
      }
    }
  }

  // ----- the one pass decides the declarative condition -----

  /** The map of the pass records exactly the calls and results seen. */
  ghost predicate Tracks(calls: map<string, Observed>, es: seq<Entry>) { forall id :: TracksId(calls, es, id) }

  ghost predicate TracksId(calls: map<string, Observed>, es: seq<Entry>, id: string) {
    && (id in calls <==> exists i :: CallAt(es, i, id))
    && (forall i :: CallAt(es, i, id) ==> calls[id].at == es[i].at && calls[id].name == Trim(es[i].name))
    && (forall j :: ResultAt(es, j, id) ==> id in calls && calls[id].result)
    && (id in calls && calls[id].result ==> exists j :: ResultAt(es, j, id))
  }

  /** The pass goes on exactly while the history is consistent, and says truly why it stops. */
  ghost predicate Decides(o: Outcome, es: seq<Entry>, valid: string -> bool) {
    match o
    case Going(calls) => Consistent(es, valid) && Tracks(calls, es)
    case Failed(issue) => issue.code != MissingResult && !Consistent(es, valid) && Blames(es, issue, valid)
  }

  predicate AllAnswered(calls: map<string, Observed>) { forall id :: id in calls ==> calls[id].result }

  lemma Snoc(es: seq<Entry>, e: Entry)
    ensures forall i, id :: CallAt(es + [e], i, id) <==> CallAt(es, i, id) || (i == |es| && e.Call? && Key(e) == id)
    ensures forall j, id :: ResultAt(es + [e], j, id) <==> ResultAt(es, j, id) || (j == |es| && e.Result? && Key(e) == id)
  {
  }

  lemma CallKeepsConsistent(es: seq<Entry>, e: Entry, valid: string -> bool)
    requires e.Call? && GoodCall(e, valid) && Consistent(es, valid) && forall i :: !CallAt(es, i, Key(e))
    ensures Consistent(es + [e], valid)
  {
    Snoc(es, e);
    var all := es + [e];
    forall j, d | ResultAt(all, j, d) ensures exists i :: CallAt(all, i, d) && all[i].at < all[j].at {
      var i :| CallAt(es, i, d) && es[i].at < es[j].at;
      assert CallAt(all, i, d) && all[i] == es[i] && all[j] == es[j];
    }
  }

  lemma ResultKeepsConsistent(es: seq<Entry>, e: Entry, c: int, valid: string -> bool)
    requires e.Result? && Consistent(es, valid) && forall j :: !ResultAt(es, j, Key(e))
    requires CallAt(es, c, Key(e)) && es[c].at < e.at
    ensures Consistent(es + [e], valid)
  {
    Snoc(es, e);
    var all := es + [e];
    forall j, d | ResultAt(all, j, d) ensures exists i :: CallAt(all, i, d) && all[i].at < all[j].at {
      if j == |es| {
        assert CallAt(all, c, d) && all[c] == es[c];
      } else {
        var i :| CallAt(es, i, d) && es[i].at < es[j].at;
        assert CallAt(all, i, d) && all[i] == es[i] && all[j] == es[j];
      }
    }
  }

  lemma CallTracked(calls: map<string, Observed>, es: seq<Entry>, e: Entry)
    requires e.Call? && Tracks(calls, es) && Key(e) !in calls
    ensures Tracks(calls[Key(e) := Observed(Trim(e.name), e.at, false)], es + [e])
  {
    var all, next := es + [e], calls[Key(e) := Observed(Trim(e.name), e.at, false)];
    forall d ensures TracksId(next, all, d) {
      assert TracksId(calls, es, d);
      KeptEntries(es, e, d);
      assert d == Key(e) ==> CallAt(all, |es|, d);
    }
  }

  /** Adding an entry keeps the other ids' entries. */
  lemma KeptEntries(es: seq<Entry>, e: Entry, id: string)
    ensures forall i :: CallAt(es, i, id) ==> CallAt(es + [e], i, id) && (es + [e])[i] == es[i]
    ensures forall j :: ResultAt(es, j, id) ==> ResultAt(es + [e], j, id)
    ensures forall i :: CallAt(es + [e], i, id) ==> CallAt(es, i, id) || (i == |es| && e.Call? && Key(e) == id)
    ensures forall j :: ResultAt(es + [e], j, id) ==> ResultAt(es, j, id) || (j == |es| && e.Result? && Key(e) == id)
  {
  }

  lemma ResultTracked(calls: map<string, Observed>, es: seq<Entry>, e: Entry)
    requires e.Result? && Tracks(calls, es) && Key(e) in calls
    ensures Tracks(calls[Key(e) := calls[Key(e)].(result := true)], es + [e])
  {
    var all, next := es + [e], calls[Key(e) := calls[Key(e)].(result := true)];
    forall d ensures TracksId(next, all, d) {
      assert TracksId(calls, es, d);
      KeptEntries(es, e, d);
      assert d == Key(e) ==> ResultAt(all, |es|, d);
    }
  }

  lemma RegisterCall(calls: map<string, Observed>, es: seq<Entry>, e: Entry, valid: string -> bool)
    requires e.Call? && Tracks(calls, es) && Consistent(es, valid)
    ensures Decides(Register(calls, e, valid), es + [e], valid)
  {
    var all, id := es + [e], Key(e);
    assert TracksId(calls, es, id);
    assert CallAt(all, |es|, id) && all[|es|] == e;
    if id in calls {
      var i :| CallAt(es, i, id);
      assert CallAt(all, i, id);
    } else if GoodCall(e, valid) {
      CallKeepsConsistent(es, e, valid);
      CallTracked(calls, es, e);
    }
  }

  lemma RegisterResult(calls: map<string, Observed>, es: seq<Entry>, e: Entry, valid: string -> bool)
    requires e.Result? && Tracks(calls, es) && Consistent(es, valid)
    ensures Decides(Register(calls, e, valid), es + [e], valid)
  {
    var all, id := es + [e], Key(e);
    assert TracksId(calls, es, id);
    assert ResultAt(all, |es|, id) && all[|es|] == e;
    if id == "" || id !in calls || calls[id].at >= e.at {
      NoEarlierCall(calls, es, e, valid);
    } else if calls[id].result {
      var j :| ResultAt(es, j, id);
      assert ResultAt(all, j, id);
    } else {
      var c :| CallAt(es, c, id);
      ResultKeepsConsistent(es, e, c, valid);
      ResultTracked(calls, es, e);
    }
  }

  lemma NoEarlierCall(calls: map<string, Observed>, es: seq<Entry>, e: Entry, valid: string -> bool)
    requires e.Result? && Tracks(calls, es) && Consistent(es, valid)
    requires Key(e) == "" || Key(e) !in calls || calls[Key(e)].at >= e.at
    ensures forall i :: CallAt(es + [e], i, Key(e)) ==> (es + [e])[i].at >= e.at
  {
    var all, id := es + [e], Key(e);
    assert TracksId(calls, es, id);
    forall i | CallAt(all, i, id) ensures all[i].at >= e.at {
      assert CallAt(es, i, id) && all[i] == es[i];
    }
  }

  lemma Embedded(a: seq<Entry>, b: seq<Entry>)
    ensures forall i, id :: CallAt(a, i, id) ==> CallAt(a + b, i, id)
    ensures forall i, id :: ResultAt(a, i, id) ==> ResultAt(a + b, i, id)
  {
  }

  /** A consistent history is consistent up to every point. */
  lemma PrefixConsistent(a: seq<Entry>, b: seq<Entry>, valid: string -> bool)
    requires InOrder(a + b) && Consistent(a + b, valid)
    ensures Consistent(a, valid)
  {
    var all := a + b;
    assert forall i :: 0 <= i < |a| ==> a[i] == all[i];
    Embedded(a, b);
    forall j, id | ResultAt(a, j, id) ensures exists i :: CallAt(a, i, id) && a[i].at < a[j].at {
      var i :| CallAt(all, i, id) && all[i].at < all[j].at;
      assert i < j;
      assert CallAt(a, i, id);
    }
  }

  /** What is wrong with a beginning is wrong with the whole. */
  lemma BlameStays(a: seq<Entry>, b: seq<Entry>, issue: Issue, valid: string -> bool)
    requires InOrder(a + b) && Blames(a, issue, valid) && issue.code != MissingResult
    ensures Blames(a + b, issue, valid)
  {
    var all, id := a + b, issue.callId;
    assert forall i :: 0 <= i < |a| ==> a[i] == all[i];
    assert forall i, d :: CallAt(a, i, d) ==> CallAt(all, i, d);
    assert forall i, d :: ResultAt(a, i, d) ==> ResultAt(all, i, d);
    if issue.code == UnmatchedResult {
      var j :| ResultAt(a, j, id) && forall i :: CallAt(a, i, id) ==> a[i].at >= a[j].at;
      forall i | CallAt(all, i, id) ensures all[i].at >= all[j].at {
        if i < |a| {
          assert CallAt(a, i, id);
        }
      }
      assert ResultAt(all, j, id);
    }
  }

  lemma {:induction false} PassDecides(seen: seq<Entry>, calls: map<string, Observed>, rest: seq<Entry>, valid: string -> bool)
    requires Tracks(calls, seen) && Consistent(seen, valid) && InOrder(seen + rest)
    ensures Decides(Pass(calls, rest, valid), seen + rest, valid)
    decreases |rest|
  {
    if rest == [] {
      assert seen + rest == seen;
    } else {
      var e, next := rest[0], seen + [rest[0]];
      assert next + rest[1..] == seen + rest;
      assert InOrder(next) by {
        assert forall i :: 0 <= i < |next| ==> next[i] == (seen + rest)[i];
      }
      if e.Call? {
        RegisterCall(calls, seen, e, valid);
      } else {
        RegisterResult(calls, seen, e, valid);
      }
      match Register(calls, e, valid)
      case Going(c) => PassDecides(next, c, rest[1..], valid);
      case Failed(issue) =>
        BlameStays(next, rest[1..], issue, valid);
        if Consistent(seen + rest, valid) {
          PrefixConsistent(next, rest[1..], valid);
        }
    }
  }

  lemma HistoryDecided(messages: seq<Json>, valid: string -> bool)
    ensures Decides(Pass(map[], Entries(messages, 0), valid), Entries(messages, 0), valid)
    ensures Pass(map[], Entries(messages, 0), valid).Going? ==>
      (Complete(Entries(messages, 0)) <==> AllAnswered(Pass(map[], Entries(messages, 0), valid).calls))
  {
    var es := Entries(messages, 0);
    EntriesInOrder(messages, 0);
    assert [] + es == es;
    PassDecides([], map[], es, valid);
    if Pass(map[], es, valid).Going? {
      CompleteIffAnswered(es, Pass(map[], es, valid).calls);
    }
  }

  lemma CompleteIffAnswered(es: seq<Entry>, calls: map<string, Observed>)
    requires Tracks(calls, es)
    ensures Complete(es) <==> AllAnswered(calls)
  {
    if Complete(es) {
      forall id | id in calls ensures calls[id].result {
        assert TracksId(calls, es, id);
        var i :| CallAt(es, i, id);
        var j :| ResultAt(es, j, id);
      }
    } else {
      var i, id :| CallAt(es, i, id) && forall j :: !ResultAt(es, j, id);
      assert TracksId(calls, es, id);
    }
  }

  // ----- the validator -----

  method RegisterEntry(calls: map<string, Observed>, e: Entry, valid: string -> bool)
    returns (next: map<string, Observed>, issue: Option<Issue>)
    ensures Register(calls, e, valid) == if issue.Some? then Failed(issue.value) else Going(next)
  {
    next, issue := calls, None;
    var id := Trim(e.id);
    match e
    case Call(_, rawName, arguments, at) =>
      var name := Trim(rawName);
      if id == "" {
        return calls, Some(Issue(InvalidCallId, name, ""));
      }
      if id in calls {
        return calls, Some(Issue(DuplicateCallId, name, id));
      }
      if name == "" {
        return calls, Some(Issue(InvalidToolName, "", id));
      }
      if !ArgumentsOk(arguments, valid) {
        return calls, Some(Issue(InvalidArguments, name, id));
      }
      next := calls[id := Observed(name, at, false)];
    case Result(_, at) =>
      if id !in calls || id == "" {
        return calls, Some(Issue(UnmatchedResult, "", id));
      }
      var call := calls[id];
      if call.at >= at {
        return calls, Some(Issue(UnmatchedResult, call.name, id));
      }
      if call.result {
        return calls, Some(Issue(DuplicateResult, call.name, id));
      }
      next := calls[id := call.(result := true)];
  }

  /** The first entry is registered first. */
  lemma HeadFirst(calls: map<string, Observed>, e: Entry, rest: seq<Entry>, valid: string -> bool)
    ensures Pass(calls, [e] + rest, valid) == Then(Register(calls, e, valid), rest, valid)
  {
    assert ([e] + rest)[1..] == rest;
  }

  method ObserveToolCalls(calls: map<string, Observed>, toolCalls: seq<Json>, messageNo: nat, valid: string -> bool)
    returns (next: map<string, Observed>, issue: Option<Issue>)
    ensures Pass(calls, CallEntries(toolCalls, messageNo), valid) == if issue.Some? then Failed(issue.value) else Going(next)
  {
    next, issue := calls, None;
    var k := 0;
    while k < |toolCalls|
      invariant 0 <= k <= |toolCalls| && issue.None?
      invariant Pass(calls, CallEntries(toolCalls, messageNo), valid) == Pass(next, CallEntries(toolCalls[k..], messageNo), valid)
    {
      var fn := Get(toolCalls[k], "function");
      var e := Call(StringValue(Get(toolCalls[k], "id")), StringValue(Get(fn, "name")), Get(fn, "arguments"), messageNo);
      assert toolCalls[k..][1..] == toolCalls[k + 1..];
      HeadFirst(next, e, CallEntries(toolCalls[k + 1..], messageNo), valid);
      next, issue := RegisterEntry(next, e, valid);
      if issue.Some? {
        return;
      }
      k := k + 1;
    }
  }

  method ObserveRole(calls: map<string, Observed>, message: Json, messageNo: nat, valid: string -> bool)
    returns (next: map<string, Observed>, issue: Option<Issue>)
    ensures Pass(calls, RoleEntries(message, messageNo), valid) == if issue.Some? then Failed(issue.value) else Going(next)
  {
    var role := StringValue(Get(message, "role"));
    next, issue := calls, None;
    if role == "assistant" {
      next, issue := ObserveToolCalls(calls, Items(Get(message, "tool_calls")), messageNo, valid);
    }
    if role == "tool" {
      var e := Result(StringValue(Get(message, "tool_call_id")), messageNo);
      HeadFirst(calls, e, [], valid);
      next, issue := RegisterEntry(calls, e, valid);
    }
  }

  method ObserveBlock(calls: map<string, Observed>, block: Json, messageNo: nat, valid: string -> bool)
    returns (next: map<string, Observed>, issue: Option<Issue>)
    ensures Pass(calls, BlockEntry(block, messageNo), valid) == if issue.Some? then Failed(issue.value) else Going(next)
  {
    next, issue := calls, None;
    if !block.Object? {
      return;
    }
    var kind := StringValue(Get(block, "type"));
    if kind == "tool_use" {
      var e := Call(StringValue(Get(block, "id")), StringValue(Get(block, "name")), Get(block, "input"), messageNo);
      HeadFirst(calls, e, [], valid);
      next, issue := RegisterEntry(calls, e, valid);
    } else if kind == "tool_result" {
      var e := Result(StringValue(Get(block, "tool_use_id")), messageNo);
      HeadFirst(calls, e, [], valid);
      next, issue := RegisterEntry(calls, e, valid);
    }
  }

  method ObserveBlocks(calls: map<string, Observed>, blocks: seq<Json>, messageNo: nat, valid: string -> bool)
    returns (next: map<string, Observed>, issue: Option<Issue>)
    ensures Pass(calls, BlockEntries(blocks, messageNo), valid) == if issue.Some? then Failed(issue.value) else Going(next)
  {
    next, issue := calls, None;
    var k := 0;
    while k < |blocks|
      invariant 0 <= k <= |blocks| && issue.None?
      invariant Pass(calls, BlockEntries(blocks, messageNo), valid) == Pass(next, BlockEntries(blocks[k..], messageNo), valid)
    {
      assert blocks[k..][1..] == blocks[k + 1..];
      PassConcat(next, BlockEntry(blocks[k], messageNo), BlockEntries(blocks[k + 1..], messageNo), valid);
      next, issue := ObserveBlock(next, blocks[k], messageNo, valid);
      if issue.Some? {
        return;
      }
      k := k + 1;
    }
  }

  method ObserveMessage(calls: map<string, Observed>, message: Json, messageNo: nat, valid: string -> bool)
    returns (next: map<string, Observed>, issue: Option<Issue>)
    ensures Pass(calls, MessageEntries(message, messageNo), valid) == if issue.Some? then Failed(issue.value) else Going(next)
  {
    next, issue := calls, None;
    if !message.Object? {
      return;
    }
    PassConcat(calls, RoleEntries(message, messageNo), BlockEntries(Items(Get(message, "content")), messageNo), valid);
    next, issue := ObserveRole(calls, message, messageNo, valid);
    if issue.None? {
      next, issue := ObserveBlocks(next, Items(Get(message, "content")), messageNo, valid);
    }
  }

  method FindUnanswered(calls: map<string, Observed>) returns (found: Option<string>)
    ensures found.None? <==> AllAnswered(calls)
    ensures found.Some? ==> found.value in calls && !calls[found.value].result
  {
    var unseen := calls.Keys;
    while unseen != {}
      invariant unseen <= calls.Keys
      invariant forall id :: id in calls && id !in unseen ==> calls[id].result
      decreases |unseen|
    {
      var id :| id in unseen;
      if !calls[id].result {
        return Some(id);
      }
      unseen := unseen - {id};
    }
    return None;
  }

  method CheckMessages(messages: seq<Json>, valid: string -> bool) returns (issue: Option<Issue>)
    ensures issue.None? <==> Consistent(Entries(messages, 0), valid) && Complete(Entries(messages, 0))
    ensures issue.Some? ==> Blames(Entries(messages, 0), issue.value, valid)
  {
    var calls: map<string, Observed> := map[];
    HistoryDecided(messages, valid);
    calls, issue := ObserveMessages(messages, valid);
    if issue.Some? {
      return;
    }
    var id := FindUnanswered(calls);
    if id.Some? {
      assert TracksId(calls, Entries(messages, 0), id.value);
      return Some(Issue(MissingResult, calls[id.value].name, id.value));
    }
  }

  method ObserveMessages(messages: seq<Json>, valid: string -> bool)
    returns (calls: map<string, Observed>, issue: Option<Issue>)
    ensures Pass(map[], Entries(messages, 0), valid) == if issue.Some? then Failed(issue.value) else Going(calls)
  {
    calls, issue := map[], None;
    ghost var es := Entries(messages, 0);
    var messageNo := 0;
    while messageNo < |messages|
      invariant 0 <= messageNo <= |messages| && issue.None?
      invariant Pass(map[], es, valid) == Pass(calls, Entries(messages[messageNo..], messageNo), valid)
    {
      assert messages[messageNo..][1..] == messages[messageNo + 1..];
      PassConcat(calls, MessageEntries(messages[messageNo], messageNo), Entries(messages[messageNo + 1..], messageNo + 1), valid);
      calls, issue := ObserveMessage(calls, messages[messageNo], messageNo, valid);
      if issue.Some? {
        return;
      }
      messageNo := messageNo + 1;
    }
  }

  /** Accepts exactly the histories in which calls and results are in one-to-one correspondence,
      each result in a later message than its call; any issue it reports is a real one. */
  method ValidateToolHistory(payload: Json, valid: string -> bool) returns (issue: Option<Issue>)
    ensures issue.None? <==> Accepted(payload, valid)
    ensures issue.Some? ==>
      || BlamesDeclaration(Items(Get(payload, "tools")), issue.value)
      || Blames(Entries(Items(Get(payload, "messages")), 0), issue.value, valid)
  {
    var _, declaredIssue := CollectDeclaredTools(Get(payload, "tools"));
    if declaredIssue.Some? {
      return declaredIssue;
    }
    issue := CheckMessages(Items(Get(payload, "messages")), valid);
  }
}
