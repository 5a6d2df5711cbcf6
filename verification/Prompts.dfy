/** The tool-evidence assertions generated for a scripted scenario, and the evaluator they meet. */
module Prompts {
  import opened Wrappers

  datatype Json =
    | Null | Truth(truth: bool) | Number(number: int) | Text(text: string) | List(items: seq<Json>) | Object(fields: map<string, Json>)

  type Fields = map<string, Json>

  const PLACEHOLDER: string := "$last."

  predicate IsPlaceholder(v: Json) {
    v.Text? && PLACEHOLDER <= v.text
  }

  // ---------- Placeholders ----------

  /** Drops the entries of dictionaries that are placeholders, at any depth; nothing else. */
  function Evidence(v: Json): Json {
    match v
    case Object(fields) => Object(map k | k in fields && !IsPlaceholder(fields[k]) :: Evidence(fields[k]))
    case List(items) => List(seq(|items|, i requires 0 <= i < |items| => Evidence(items[i])))
    case _ => v
  }

  /** What a scripted worker sends: placeholders read the last tool result. `None` is the `ValueError`. */
  function Resolve(v: Json, last: Option<Json>): Option<Json> {
    match v
    case Text(text) =>
      if !IsPlaceholder(v) then Some(v)
      else if last.Some? && last.value.Object? && text[|PLACEHOLDER|..] in last.value.fields
      then Some(last.value.fields[text[|PLACEHOLDER|..]]) else None
    case Object(fields) =>
      if forall k :: k in fields ==> Resolve(fields[k], last).Some?
      then Some(Object(map k | k in fields :: Resolve(fields[k], last).value)) else None
    case List(items) =>
      if forall i :: 0 <= i < |items| ==> Resolve(items[i], last).Some?
      then Some(List(seq(|items|, i requires 0 <= i < |items| => Resolve(items[i], last).value))) else None
    case _ => Some(v)
  }

  /** No dictionary below holds a placeholder, and one in a list resolves to its own text. */
  predicate Plain(v: Json, last: Option<Json>) {
    match v
    case Object(fields) => forall k :: k in fields ==> !IsPlaceholder(fields[k]) && Plain(fields[k], last)
    case List(items) => forall i :: 0 <= i < |items| ==> Plain(items[i], last)
    case _ => Resolve(v, last) == Some(v)
  }

  lemma PlainObject(fields: Fields, last: Option<Json>)
    requires Resolve(Object(fields), last).Some?
    requires forall k :: k in fields ==> (Resolve(fields[k], last) == Some(Evidence(fields[k])) <==> Plain(fields[k], last))
    ensures Resolve(Object(fields), last) == Some(Evidence(Object(fields))) <==> Plain(Object(fields), last)
  {
    var sent, pinned := Resolve(Object(fields), last).value.fields, Evidence(Object(fields)).fields;
    if Plain(Object(fields), last) {
      assert sent == pinned;
    } else {
      var k :| k in fields && (IsPlaceholder(fields[k]) || !Plain(fields[k], last));
      assert k in sent;
      assert IsPlaceholder(fields[k]) ==> k !in pinned;
      assert k in pinned ==> pinned[k] == Evidence(fields[k]);
    }
  }

  lemma PlainList(items: seq<Json>, last: Option<Json>)
    requires Resolve(List(items), last).Some?
    requires forall i :: 0 <= i < |items| ==> (Resolve(items[i], last) == Some(Evidence(items[i])) <==> Plain(items[i], last))
    ensures Resolve(List(items), last) == Some(Evidence(List(items))) <==> Plain(List(items), last)
  {
    var sent, pinned := Resolve(List(items), last).value.items, Evidence(List(items)).items;
    if Plain(List(items), last) {
      assert sent == pinned;
    } else {
      var i :| 0 <= i < |items| && !Plain(items[i], last);
      assert sent[i] != pinned[i];
    }
  }

  /** The pinned form of a value is what gets sent exactly when the value is plain. */
  lemma {:induction false} EvidenceExact(v: Json, last: Option<Json>)
    requires Resolve(v, last).Some?
    ensures Resolve(v, last) == Some(Evidence(v)) <==> Plain(v, last)
    decreases v
  {
    match v {
      case Object(fields) =>
        forall k | k in fields ensures Resolve(fields[k], last) == Some(Evidence(fields[k])) <==> Plain(fields[k], last) {
          EvidenceExact(fields[k], last);
        }
        PlainObject(fields, last);
      case List(items) =>
        forall i | 0 <= i < |items| ensures Resolve(items[i], last) == Some(Evidence(items[i])) <==> Plain(items[i], last) {
          EvidenceExact(items[i], last);
        }
        PlainList(items, last);
      case _ =>
    }
  }

  // ---------- Matching ----------

  /** Inclusion, not equality: every expected field is present with its value. */
  predicate Includes(actual: Fields, expected: Fields) {
    forall k :: k in expected ==> k in actual && actual[k] == expected[k]
  }

  function Pinned(arguments: Fields): Fields {
    Evidence(Object(arguments)).fields
  }

  /** A sent call carries its own pinned arguments exactly when every argument that is not itself
      a placeholder is plain: a placeholder nested in a dictionary makes the pin unsatisfiable. */
  lemma OwnArgumentsMatch(arguments: Fields, last: Option<Json>)
    requires Resolve(Object(arguments), last).Some?
    ensures Includes(Resolve(Object(arguments), last).value.fields, Pinned(arguments)) <==>
      forall k :: k in arguments ==> IsPlaceholder(arguments[k]) || Plain(arguments[k], last)
  {
    var sent, pinned := Resolve(Object(arguments), last).value.fields, Pinned(arguments);
    forall k | k in arguments
      ensures k in sent && sent[k] == Resolve(arguments[k], last).value
      ensures k in pinned <==> !IsPlaceholder(arguments[k])
      ensures k in pinned ==> (sent[k] == pinned[k] <==> Plain(arguments[k], last))
    {
      EvidenceExact(arguments[k], last);
    }
  }

  /** Concretely: a dictionary argument holding one placeholder never matches what is sent for it. */
  lemma NestedPlaceholderFails(name: string, inner: string, field: string, last: Option<Json>)
    requires var arguments := map[name := Object(map[inner := Text(PLACEHOLDER + field)])]; Resolve(Object(arguments), last).Some?
    ensures var arguments := map[name := Object(map[inner := Text(PLACEHOLDER + field)])];
      !Includes(Resolve(Object(arguments), last).value.fields, Pinned(arguments))
  {
    var nested := Object(map[inner := Text(PLACEHOLDER + field)]);
    var arguments := map[name := nested];
    OwnArgumentsMatch(arguments, last);
    assert name in arguments && IsPlaceholder(nested.fields[inner]) && inner in nested.fields;
  }

  function DigitsValue(text: string): Option<nat> {
    if text == "" then None
    else
      var last := text[|text| - 1];
      if !('0' <= last <= '9') then None
      else
        var digit := (last as int) - ('0' as int);
        if |text| == 1 then Some(digit)
        else
          var rest := DigitsValue(text[..|text| - 1]);
          if rest.None? then None else Some(10 * rest.value + digit)
  }

  /** A dotted path, already split at its dots; `None` is the missing marker, not null. */
  function ResolvePath(v: Json, path: seq<string>): Option<Json> {
    if path == [] then Some(v)
    else if v.Object? && path[0] in v.fields then ResolvePath(v.fields[path[0]], path[1..])
    else if v.List? && DigitsValue(path[0]).Some? && DigitsValue(path[0]).value < |v.items|
    then ResolvePath(v.items[DigitsValue(path[0]).value], path[1..])
    else None
  }

  /** The loop moves a cursor through the value, one component at a time. */
  method ResolveLoop(v: Json, path: seq<string>) returns (found: Option<Json>)
    ensures found == ResolvePath(v, path)
  {
    var current := v;
    for i := 0 to |path|
      invariant ResolvePath(v, path) == ResolvePath(current, path[i..])
    {
      assert path[i..][0] == path[i] && path[i..][1..] == path[i + 1..];
      if current.Object? && path[i] in current.fields {
        current := current.fields[path[i]];
      } else if current.List? && DigitsValue(path[i]).Some? && DigitsValue(path[i]).value < |current.items| {
        current := current.items[DigitsValue(path[i]).value];
      } else {
        return None;
      }
    }
    found := Some(current);
  }

  /** Resolving a longer path continues from where the shorter one arrives, or misses with it. */
  lemma {:induction false} PathsCompose(v: Json, path: seq<string>, more: seq<string>)
    ensures ResolvePath(v, path + more) ==
      if ResolvePath(v, path).None? then None else ResolvePath(ResolvePath(v, path).value, more)
  {
    if path == [] {
      assert path + more == more;
    } else {
      assert (path + more)[0] == path[0] && (path + more)[1..] == path[1..] + more;
      if v.Object? && path[0] in v.fields {
        PathsCompose(v.fields[path[0]], path[1..], more);
      } else if v.List? && DigitsValue(path[0]).Some? && DigitsValue(path[0]).value < |v.items| {
        PathsCompose(v.items[DigitsValue(path[0]).value], path[1..], more);
      }
    }
  }

  // ---------- Records and assertions ----------

  datatype Status = SUCCESS | ERROR
  datatype Call = Call(id: string, tool: string, arguments: Fields)
  datatype Result = Result(callId: string, status: Status, errorType: Option<string>, output: Json)
  datatype Turn = Turn(call: Option<Call>, result: Option<Result>)

  /** A generated assertion; `output` holds dotted paths into the result, never an empty set of them. */
  datatype Assertion = Assertion(
    tool: string, arguments: Fields, status: Status, errorType: Option<string>, count: int, output: map<seq<string>, Json>)

  /** Results by call id; a later one replaces an earlier. */
  function ResultOf(turns: seq<Turn>, callId: string): Option<Result> {
    if turns == [] then None
    else
      var last := turns[|turns| - 1];
      if last.result.Some? && last.result.value.callId == callId then last.result else ResultOf(turns[..|turns| - 1], callId)
  }

  predicate OutputAgrees(output: Json, pins: map<seq<string>, Json>) {
    forall path :: path in pins ==> ResolvePath(output, path) == Some(pins[path])
  }

  predicate Matches(a: Assertion, call: Call, result: Option<Result>) {
    && call.tool == a.tool && Includes(call.arguments, a.arguments)
    && result.Some? && result.value.status == a.status
    && (a.errorType.None? || result.value.errorType == a.errorType)
    && OutputAgrees(result.value.output, a.output)
  }

  function CallsOf(turns: seq<Turn>): seq<Call> {
    if turns == [] then []
    else
      var last := turns[|turns| - 1];
      CallsOf(turns[..|turns| - 1]) + (if last.call.Some? then [last.call.value] else [])
  }

  /** How many calls of a record match, each against the result with its id. */
  function Matching(a: Assertion, calls: seq<Call>, turns: seq<Turn>): nat {
    if calls == [] then 0
    else
      var last := calls[|calls| - 1];
      Matching(a, calls[..|calls| - 1], turns) + (if Matches(a, last, ResultOf(turns, last.id)) then 1 else 0)
  }

  lemma MatchingAppend(a: Assertion, calls: seq<Call>, call: Call, turns: seq<Turn>)
    ensures Matching(a, calls + [call], turns) == Matching(a, calls, turns) + (if Matches(a, call, ResultOf(turns, call.id)) then 1 else 0)
  {
    assert (calls + [call])[..|calls|] == calls;
  }

  predicate Passes(a: Assertion, turns: seq<Turn>) {
    Matching(a, CallsOf(turns), turns) == a.count
  }

  /** The evaluator's loop over turns, with its early continues. */
  method ToolResultMatches(a: Assertion, turns: seq<Turn>) returns (passed: bool, observed: nat)
    ensures observed == Matching(a, CallsOf(turns), turns)
    ensures passed <==> Passes(a, turns)
  {
    observed := 0;
    for i := 0 to |turns|
      invariant observed == Matching(a, CallsOf(turns[..i]), turns)
    {
      assert turns[..i + 1][..i] == turns[..i];
      if turns[i].call.None? {
        assert CallsOf(turns[..i + 1]) == CallsOf(turns[..i]);
        continue;
      }
      var call := turns[i].call.value;
      MatchingAppend(a, CallsOf(turns[..i]), call, turns);
      if call.tool != a.tool {
        continue;
      }
      if !Includes(call.arguments, a.arguments) {
        continue;
      }
      var result := ResultOf(turns, call.id);
      if result.None? || result.value.status != a.status {
        continue;
      }
      if a.errorType.Some? && result.value.errorType != a.errorType {
        continue;
      }
      if !OutputAgrees(result.value.output, a.output) {
        continue;
      }
      observed := observed + 1;
    }
    assert turns[..|turns|] == turns;
    passed := observed == a.count;
  }

  // ---------- Generation ----------

  datatype CallSpec = CallSpec(tool: string, arguments: Fields, expectedOutput: Option<map<seq<string>, Json>>)

  /** What the grouping key serialises; the canonical text is taken to be injective. */
  datatype Fingerprint = Fingerprint(tool: string, arguments: Fields, status: Status, output: Option<map<seq<string>, Json>>)

  datatype Group = Group(fingerprint: Fingerprint, call: CallSpec, status: Status, count: nat)

  function FingerprintOf(call: CallSpec, status: Status): Fingerprint {
    Fingerprint(call.tool, Pinned(call.arguments), status, call.expectedOutput)
  }

  function IndexOf(groups: seq<Group>, f: Fingerprint): (i: nat)
    ensures i <= |groups| && (i < |groups| ==> groups[i].fingerprint == f)
    ensures forall j :: 0 <= j < i ==> groups[j].fingerprint != f
  {
    if groups == [] then 0
    else if groups[0].fingerprint == f then 0
    else
      var rest := IndexOf(groups[1..], f);
      assert forall j :: 1 <= j < 1 + rest ==> groups[j] == groups[1..][j - 1];
      1 + rest
  }

  /** One step of the grouping: a known key keeps its place, takes the newer call and counts up. */
  function Grouped(groups: seq<Group>, call: CallSpec, status: Status): seq<Group> {
    var f := FingerprintOf(call, status);
    var i := IndexOf(groups, f);
    if i < |groups| then groups[i := Group(f, call, status, groups[i].count + 1)]
    else groups + [Group(f, call, status, 1)]
  }

  function Groups(calls: seq<CallSpec>, statuses: seq<Status>): seq<Group>
    requires |calls| == |statuses|
  {
    if calls == [] then []
    else
      var n := |calls| - 1;
      Grouped(Groups(calls[..n], statuses[..n]), calls[n], statuses[n])
  }

  function AssertionOf(g: Group): Assertion {
    Assertion(g.call.tool, Pinned(g.call.arguments), g.status, None, g.count,
              if g.call.expectedOutput.Some? then g.call.expectedOutput.value else map[])
  }

  function AssertionsOf(groups: seq<Group>): (r: seq<Assertion>)
    ensures |r| == |groups|
  {
    if groups == [] then [] else AssertionsOf(groups[..|groups| - 1]) + [AssertionOf(groups[|groups| - 1])]
  }

  /** `None` is the `ValueError` of the strict `zip`. */
  method Generate(calls: seq<CallSpec>, statuses: seq<Status>) returns (assertions: Option<seq<Assertion>>)
    ensures assertions == if |calls| == |statuses| then Some(AssertionsOf(Groups(calls, statuses))) else None
  {
    if |calls| != |statuses| {
      return None;
    }
    var groups: seq<Group> := [];
    for i := 0 to |calls|
      invariant groups == Groups(calls[..i], statuses[..i])
    {
      assert calls[..i + 1][..i] == calls[..i] && statuses[..i + 1][..i] == statuses[..i];
      groups := Grouped(groups, calls[i], statuses[i]);
    }
    assert calls[..|calls|] == calls && statuses[..|calls|] == statuses;
    var list: seq<Assertion> := [];
    for i := 0 to |groups|
      invariant list == AssertionsOf(groups[..i])
    {
      assert groups[..i + 1][..i] == groups[..i];
      list := list + [AssertionOf(groups[i])];
    }
    assert groups[..|groups|] == groups;
    assertions := Some(list);
  }

  const KEY: string := "idempotency_key"

  /** The same tool under the same idempotency key, or under none, with different arguments. */
  predicate Conflicts(first: CallSpec, last: CallSpec) {
    && first.tool == last.tool
    && (if KEY in first.arguments then first.arguments[KEY] else Null) == (if KEY in last.arguments then last.arguments[KEY] else Null)
    && first.arguments != last.arguments
  }

  /** The derived statuses: only the last can be an error, and it is one exactly for a "!" event or
      for a last call that conflicts with the one before it. `None` is the `IndexError` raised by a
      "!" event without calls. */
  method ExpectedStatuses(calls: seq<CallSpec>, event: Option<string>) returns (statuses: Option<seq<Status>>)
    ensures statuses.None? <==> calls == [] && event.Some? && "!" <= event.value
    ensures statuses.Some? ==>
      && |statuses.value| == |calls|
      && forall i :: 0 <= i < |calls| ==>
           (statuses.value[i] == ERROR <==>
              && i == |calls| - 1
              && ((event.Some? && "!" <= event.value) || (i > 0 && Conflicts(calls[i - 1], calls[i]))))
  {
    var list := seq(|calls|, _ => SUCCESS);
    if event.Some? && "!" <= event.value {
      if |list| == 0 {
        return None;
      }
      list := list[|list| - 1 := ERROR];
    } else if |calls| > 1 {
      if Conflicts(calls[|calls| - 2], calls[|calls| - 1]) {
        list := list[|list| - 1 := ERROR];
      }
    }
    statuses := Some(list);
  }

  // ---------- What generation promises ----------

  function Counts(groups: seq<Group>): nat {
    if groups == [] then 0 else Counts(groups[..|groups| - 1]) + groups[|groups| - 1].count
  }

  lemma {:induction false} CountsUpdate(groups: seq<Group>, i: nat, g: Group)
    requires i < |groups|
    ensures Counts(groups[i := g]) == Counts(groups) - groups[i].count + g.count
  {
    var n := |groups| - 1;
    if i < n {
      CountsUpdate(groups[..n], i, g);
      assert groups[i := g][..n] == groups[..n][i := g];
    } else {
      assert groups[i := g][..n] == groups[..n];
    }
  }

  /** How many calls share a fingerprint. */
  function Sharing(calls: seq<CallSpec>, statuses: seq<Status>, f: Fingerprint): nat
    requires |calls| == |statuses|
  {
    if calls == [] then 0
    else
      var n := |calls| - 1;
      Sharing(calls[..n], statuses[..n], f) + (if FingerprintOf(calls[n], statuses[n]) == f then 1 else 0)
  }

  /** Each group counts the calls that share its fingerprint, and its call is one of them. */
  ghost predicate Partition(groups: seq<Group>, calls: seq<CallSpec>, statuses: seq<Status>)
    requires |calls| == |statuses|
  {
    && (forall i :: 0 <= i < |groups| ==>
          && groups[i].fingerprint == FingerprintOf(groups[i].call, groups[i].status)
          && groups[i].count == Sharing(calls, statuses, groups[i].fingerprint) > 0)
    && (forall i, j :: 0 <= i < j < |groups| ==> groups[i].fingerprint != groups[j].fingerprint)
    && (forall f :: Sharing(calls, statuses, f) > 0 ==> IndexOf(groups, f) < |groups|)
  }

  lemma SharingAppend(calls: seq<CallSpec>, statuses: seq<Status>, call: CallSpec, status: Status, f: Fingerprint)
    requires |calls| == |statuses|
    ensures Sharing(calls + [call], statuses + [status], f)
      == Sharing(calls, statuses, f) + (if FingerprintOf(call, status) == f then 1 else 0)
  {
    assert (calls + [call])[..|calls|] == calls && (statuses + [status])[..|calls|] == statuses;
  }

  lemma GroupedFound(groups: seq<Group>, call: CallSpec, status: Status, f: Fingerprint)
    requires f == FingerprintOf(call, status) || IndexOf(groups, f) < |groups|
    ensures IndexOf(Grouped(groups, call, status), f) < |Grouped(groups, call, status)|
  {
    var next, i := Grouped(groups, call, status), IndexOf(groups, FingerprintOf(call, status));
    if f == FingerprintOf(call, status) {
      assert next[if i < |groups| then i else |groups|].fingerprint == f;
    } else {
      assert next[IndexOf(groups, f)].fingerprint == f;
    }
  }

  lemma GroupedPartition(groups: seq<Group>, calls: seq<CallSpec>, statuses: seq<Status>, call: CallSpec, status: Status)
    requires |calls| == |statuses| && Partition(groups, calls, statuses)
    ensures Partition(Grouped(groups, call, status), calls + [call], statuses + [status])
  {
    var next := Grouped(groups, call, status);
    forall g
      ensures Sharing(calls + [call], statuses + [status], g) == Sharing(calls, statuses, g) + (if FingerprintOf(call, status) == g then 1 else 0)
    {
      SharingAppend(calls, statuses, call, status, g);
    }
    forall g | Sharing(calls + [call], statuses + [status], g) > 0 ensures IndexOf(next, g) < |next| {
      GroupedFound(groups, call, status, g);
    }
  }

  lemma {:induction false} GroupsPartition(calls: seq<CallSpec>, statuses: seq<Status>)
    requires |calls| == |statuses|
    ensures Partition(Groups(calls, statuses), calls, statuses)
  {
    if calls != [] {
      var n := |calls| - 1;
      GroupsPartition(calls[..n], statuses[..n]);
      GroupedPartition(Groups(calls[..n], statuses[..n]), calls[..n], statuses[..n], calls[n], statuses[n]);
      assert calls[..n] + [calls[n]] == calls && statuses[..n] + [statuses[n]] == statuses;
    }
  }

  /** The generated counts add up to the number of calls. */
  lemma {:induction false} CountsConserved(calls: seq<CallSpec>, statuses: seq<Status>)
    requires |calls| == |statuses|
    ensures Counts(Groups(calls, statuses)) == |calls|
  {
    if calls != [] {
      var n := |calls| - 1;
      CountsConserved(calls[..n], statuses[..n]);
      var groups, f := Groups(calls[..n], statuses[..n]), FingerprintOf(calls[n], statuses[n]);
      var i := IndexOf(groups, f);
      if i < |groups| {
        CountsUpdate(groups, i, Group(f, calls[n], statuses[n], groups[i].count + 1));
      } else {
        var g := Group(f, calls[n], statuses[n], 1);
        assert (groups + [g])[..|groups|] == groups;
      }
    }
  }

  /** A record performs the calls: once each, in order, carrying its pinned arguments, answered with
      the derived status and the pinned output. */
  ghost predicate Performs(turns: seq<Turn>, calls: seq<CallSpec>, statuses: seq<Status>)
    requires |calls| == |statuses|
  {
    && |CallsOf(turns)| == |calls|
    && forall i :: 0 <= i < |calls| ==> Satisfied(CallsOf(turns)[i], turns, calls[i], statuses[i])
  }

  predicate Satisfied(sent: Call, turns: seq<Turn>, call: CallSpec, status: Status) {
    && sent.tool == call.tool && Includes(sent.arguments, Pinned(call.arguments))
    && ResultOf(turns, sent.id).Some? && ResultOf(turns, sent.id).value.status == status
    && OutputAgrees(ResultOf(turns, sent.id).value.output, if call.expectedOutput.Some? then call.expectedOutput.value else map[])
  }

  /** Among the first calls of a record, those of other groups that this group's assertion matches too. */
  function Strays(a: Assertion, f: Fingerprint, sent: seq<Call>, turns: seq<Turn>, calls: seq<CallSpec>, statuses: seq<Status>): nat
    requires |sent| == |calls| == |statuses|
  {
    if calls == [] then 0
    else
      var n := |calls| - 1;
      Strays(a, f, sent[..n], turns, calls[..n], statuses[..n])
      + (if FingerprintOf(calls[n], statuses[n]) != f && Matches(a, sent[n], ResultOf(turns, sent[n].id)) then 1 else 0)
  }

  lemma OwnCallMatches(g: Group, sent: Call, turns: seq<Turn>, call: CallSpec, status: Status)
    requires g.fingerprint == FingerprintOf(g.call, g.status) == FingerprintOf(call, status)
    requires Satisfied(sent, turns, call, status)
    ensures Matches(AssertionOf(g), sent, ResultOf(turns, sent.id))
  {
  }

  lemma {:induction false} MatchingSplits(g: Group, sent: seq<Call>, turns: seq<Turn>, calls: seq<CallSpec>, statuses: seq<Status>)
    requires |sent| == |calls| == |statuses| && g.fingerprint == FingerprintOf(g.call, g.status)
    requires forall i :: 0 <= i < |calls| ==> Satisfied(sent[i], turns, calls[i], statuses[i])
    ensures Matching(AssertionOf(g), sent, turns)
      == Sharing(calls, statuses, g.fingerprint) + Strays(AssertionOf(g), g.fingerprint, sent, turns, calls, statuses)
  {
    if calls != [] {
      var n := |calls| - 1;
      MatchingSplits(g, sent[..n], turns, calls[..n], statuses[..n]);
      if FingerprintOf(calls[n], statuses[n]) == g.fingerprint {
        OwnCallMatches(g, sent[n], turns, calls[n], statuses[n]);
      }
    }
  }

  /** A performing record passes a generated assertion exactly when no call of another group
      matches it as well. */
  lemma GeneratedPassExactly(turns: seq<Turn>, calls: seq<CallSpec>, statuses: seq<Status>, k: nat)
    requires |calls| == |statuses| && Performs(turns, calls, statuses)
    requires k < |Groups(calls, statuses)|
    ensures var g := Groups(calls, statuses)[k];
      Passes(AssertionOf(g), turns) <==> Strays(AssertionOf(g), g.fingerprint, CallsOf(turns), turns, calls, statuses) == 0
  {
    GroupsPartition(calls, statuses);
    MatchingSplits(Groups(calls, statuses)[k], CallsOf(turns), turns, calls, statuses);
  }

  /** Two calls, seen as sent: same tool and status, and one's pinned arguments within the other's. */
  predicate Overlaps(g: Group, sent: Call, status: Status) {
    g.call.tool == sent.tool && g.status == status && Includes(sent.arguments, Pinned(g.call.arguments))
  }

  lemma {:induction false} NoStrays(g: Group, sent: seq<Call>, turns: seq<Turn>, calls: seq<CallSpec>, statuses: seq<Status>)
    requires |sent| == |calls| == |statuses|
    requires forall i :: 0 <= i < |calls| ==> Satisfied(sent[i], turns, calls[i], statuses[i])
    requires forall i :: 0 <= i < |calls| && FingerprintOf(calls[i], statuses[i]) != g.fingerprint ==> !Overlaps(g, sent[i], statuses[i])
    ensures Strays(AssertionOf(g), g.fingerprint, sent, turns, calls, statuses) == 0
  {
    if calls != [] {
      var n := |calls| - 1;
      NoStrays(g, sent[..n], turns, calls[..n], statuses[..n]);
      assert Satisfied(sent[n], turns, calls[n], statuses[n]);
    }
  }

  /** So every generated assertion passes when no group's pinned arguments are contained in those of
      a differently grouped call with the same tool and status. */
  lemma GeneratedSatisfiable(turns: seq<Turn>, calls: seq<CallSpec>, statuses: seq<Status>)
    requires |calls| == |statuses| && Performs(turns, calls, statuses)
    requires forall k, i :: 0 <= k < |Groups(calls, statuses)| && 0 <= i < |calls|
               && FingerprintOf(calls[i], statuses[i]) != Groups(calls, statuses)[k].fingerprint
               ==> !Overlaps(Groups(calls, statuses)[k], CallsOf(turns)[i], statuses[i])
    ensures forall k :: 0 <= k < |Groups(calls, statuses)| ==> Passes(AssertionOf(Groups(calls, statuses)[k]), turns)
  {
    forall k | 0 <= k < |Groups(calls, statuses)| ensures Passes(AssertionOf(Groups(calls, statuses)[k]), turns) {
      GeneratedPassExactly(turns, calls, statuses, k);
      NoStrays(Groups(calls, statuses)[k], CallsOf(turns), turns, calls, statuses);
    }
  }
}
