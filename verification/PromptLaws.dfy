/** What placeholders, pins, grouping and matching mean, in terms of the scenario and the record alone. */
module PromptLaws {
  import opened Wrappers
  import opened Prompts

  // ---------- Placeholders ----------

  /** A placeholder is a text that starts with `$last.`. */
  predicate ReadsLast(v: Json) {
    v.Text? && |v.text| >= 6 && v.text[..6] == "$last."
  }

  lemma PlaceholderExactly(v: Json)
    ensures IsPlaceholder(v) <==> ReadsLast(v)
  {
  }

  /** What is sent for a placeholder is the field it names of the last result, which must be an object
      that has it; any other text is sent as it is. */
  lemma PlaceholderSent(field: string, last: Option<Json>)
    ensures Resolve(Text("$last." + field), last) ==
      if last.Some? && last.value.Object? && field in last.value.fields then Some(last.value.fields[field]) else None
  {
    assert ("$last." + field)[6..] == field;
  }

  lemma TextSent(v: Json, last: Option<Json>)
    requires v.Text? && !ReadsLast(v)
    ensures Resolve(v, last) == Some(v) && Evidence(v) == v
  {
    PlaceholderExactly(v);
  }

  /** The pins of a call are its arguments that are not placeholders themselves. */
  lemma PinsExactly(arguments: Fields, k: string)
    ensures k in Pinned(arguments) <==> k in arguments && !ReadsLast(arguments[k])
    ensures k in Pinned(arguments) ==> Pinned(arguments)[k] == Evidence(arguments[k])
  {
    if k in arguments {
      PlaceholderExactly(arguments[k]);
    }
  }

  // ---------- Paths ----------

  function Decimal(n: nat): string {
    var digit := [('0' as int + n % 10) as char];
    if n < 10 then digit else Decimal(n / 10) + digit
  }

  lemma {:induction false} DigitsRead(n: nat)
    ensures DigitsValue(Decimal(n)) == Some(n)
  {
    var text := Decimal(n);
    if n >= 10 {
      DigitsRead(n / 10);
      assert text[..|text| - 1] == Decimal(n / 10);
      assert Decimal(n / 10) != "";
    }
    assert text[|text| - 1] as int - '0' as int == n % 10;
  }

  predicate AllDigits(text: string) {
    forall i :: 0 <= i < |text| ==> '0' <= text[i] <= '9'
  }

  lemma {:induction false} DigitsExactly(text: string)
    ensures DigitsValue(text).Some? <==> |text| > 0 && AllDigits(text)
  {
    if |text| > 1 {
      var n := |text| - 1;
      DigitsExactly(text[..n]);
      assert AllDigits(text) <==> AllDigits(text[..n]) && '0' <= text[n] <= '9';
    }
  }

  /** A path steps into an object's field, or into the item of a list at its position in decimals. */
  lemma PathSteps(fields: Fields, items: seq<Json>, name: string, i: nat, rest: seq<string>)
    ensures ResolvePath(Object(fields), [name] + rest) == if name in fields then ResolvePath(fields[name], rest) else None
    ensures ResolvePath(List(items), [Decimal(i)] + rest) == if i < |items| then ResolvePath(items[i], rest) else None
    ensures ResolvePath(Object(fields), []) == Some(Object(fields)) && ResolvePath(Text(name), [name] + rest).None?
  {
    assert ([name] + rest)[1..] == rest && ([Decimal(i)] + rest)[1..] == rest;
    DigitsRead(i);
  }

  // ---------- The evaluator ----------

  /** The result a call got: the last one in the record that names it. */
  predicate Answers(turns: seq<Turn>, j: nat, callId: string) {
    && j < |turns| && turns[j].result.Some? && turns[j].result.value.callId == callId
    && forall l :: j < l < |turns| && turns[l].result.Some? ==> turns[l].result.value.callId != callId
  }

  lemma {:induction false} ResultExactly(turns: seq<Turn>, callId: string) returns (j: nat)
    ensures ResultOf(turns, callId).Some? ==> Answers(turns, j, callId) && ResultOf(turns, callId) == turns[j].result
    ensures ResultOf(turns, callId).None? ==> forall l :: 0 <= l < |turns| && turns[l].result.Some? ==> turns[l].result.value.callId != callId
  {
    j := 0;
    if turns != [] {
      var n := |turns| - 1;
      if turns[n].result.Some? && turns[n].result.value.callId == callId {
        j := n;
      } else {
        j := ResultExactly(turns[..n], callId);
      }
    }
  }

  lemma OneAnswer(turns: seq<Turn>, j: nat, k: nat, callId: string)
    requires Answers(turns, j, callId) && Answers(turns, k, callId)
    ensures j == k
  {
    assert turns[j].result.Some? && turns[k].result.Some?;
  }

  /** Turn `i` calls the tool with at least the pinned arguments, and the call's result has the status,
      the error type if one is asked for, and every pinned output. */
  predicate Meets(a: Assertion, turns: seq<Turn>, i: nat) {
    && i < |turns| && turns[i].call.Some? && turns[i].call.value.tool == a.tool
    && (forall k :: k in a.arguments ==> k in turns[i].call.value.arguments && turns[i].call.value.arguments[k] == a.arguments[k])
    && exists j :: 0 <= j < |turns| && Answers(turns, j, turns[i].call.value.id) && Agrees(a, turns[j].result.value)
  }

  predicate Agrees(a: Assertion, result: Result) {
    && result.status == a.status && (a.errorType.Some? ==> result.errorType == a.errorType)
    && forall path :: path in a.output ==> ResolvePath(result.output, path) == Some(a.output[path])
  }

  lemma MeetsExactly(a: Assertion, turns: seq<Turn>, i: nat)
    requires i < |turns| && turns[i].call.Some?
    ensures Meets(a, turns, i) <==> Matches(a, turns[i].call.value, ResultOf(turns, turns[i].call.value.id))
  {
    var id := turns[i].call.value.id;
    var j := ResultExactly(turns, id);
    if Meets(a, turns, i) {
      var k: nat :| k < |turns| && Answers(turns, k, id) && Agrees(a, turns[k].result.value);
      assert ResultOf(turns, id).Some?;
      OneAnswer(turns, j, k, id);
    }
    if Matches(a, turns[i].call.value, ResultOf(turns, id)) {
      assert Answers(turns, j, id) && Agrees(a, turns[j].result.value);
    }
  }

  /** The turns before `n` that meet an assertion. */
  function MeetingBefore(a: Assertion, turns: seq<Turn>, n: nat): set<nat> {
    set i: nat | i < n && Meets(a, turns, i)
  }

  lemma OneMoreMeets(a: Assertion, turns: seq<Turn>, i: nat)
    ensures |MeetingBefore(a, turns, i + 1)| == |MeetingBefore(a, turns, i)| + (if Meets(a, turns, i) then 1 else 0)
  {
    assert MeetingBefore(a, turns, i + 1) == MeetingBefore(a, turns, i) + (if Meets(a, turns, i) then {i} else {});
  }

  lemma {:induction false} MatchingBefore(a: Assertion, turns: seq<Turn>, n: nat)
    requires n <= |turns|
    ensures Matching(a, CallsOf(turns[..n]), turns) == |MeetingBefore(a, turns, n)|
  {
    if n > 0 {
      var i := n - 1;
      MatchingBefore(a, turns, i);
      assert turns[..n][..i] == turns[..i];
      OneMoreMeets(a, turns, i);
      if turns[i].call.Some? {
        MeetsExactly(a, turns, i);
        MatchingAppend(a, CallsOf(turns[..i]), turns[i].call.value, turns);
      } else {
        assert CallsOf(turns[..n]) == CallsOf(turns[..i]);
      }
    }
  }

  /** An assertion passes exactly when as many turns of the record meet it as it counts. */
  lemma PassesExactly(a: Assertion, turns: seq<Turn>)
    ensures Passes(a, turns) <==> |MeetingBefore(a, turns, |turns|)| == a.count
  {
    MatchingBefore(a, turns, |turns|);
    assert turns[..|turns|] == turns;
  }

  // ---------- Generated assertions ----------

  /** Two calls go to the same assertion when tool, pins, expected status and expected output agree. */
  predicate Alike(calls: seq<CallSpec>, statuses: seq<Status>, i: nat, j: nat)
    requires |calls| == |statuses| && i < |calls| && j < |calls|
  {
    && calls[i].tool == calls[j].tool && Pinned(calls[i].arguments) == Pinned(calls[j].arguments)
    && statuses[i] == statuses[j] && calls[i].expectedOutput == calls[j].expectedOutput
  }

  function AlikeBefore(calls: seq<CallSpec>, statuses: seq<Status>, i: nat, n: nat): set<nat>
    requires |calls| == |statuses| && i < |calls| && n <= |calls|
  {
    set j: nat | j < n && Alike(calls, statuses, i, j)
  }

  lemma {:induction false} SharingExactly(calls: seq<CallSpec>, statuses: seq<Status>, i: nat, n: nat)
    requires |calls| == |statuses| && i < |calls| && n <= |calls|
    ensures Sharing(calls[..n], statuses[..n], FingerprintOf(calls[i], statuses[i])) == |AlikeBefore(calls, statuses, i, n)|
  {
    if n > 0 {
      var m := n - 1;
      SharingExactly(calls, statuses, i, m);
      assert calls[..n][..m] == calls[..m] && statuses[..n][..m] == statuses[..m];
      assert AlikeBefore(calls, statuses, i, n) == AlikeBefore(calls, statuses, i, m) + (if Alike(calls, statuses, i, m) then {m} else {});
    }
  }

  lemma {:induction false} SharedByOne(calls: seq<CallSpec>, statuses: seq<Status>, f: Fingerprint) returns (i: nat)
    requires |calls| == |statuses| && Sharing(calls, statuses, f) > 0
    ensures i < |calls| && FingerprintOf(calls[i], statuses[i]) == f
  {
    var n := |calls| - 1;
    i := n;
    if FingerprintOf(calls[n], statuses[n]) != f {
      i := SharedByOne(calls[..n], statuses[..n], f);
    }
  }

  /** The assertion a call stands for: its tool, pins, status and output, no error type, and a count of
      all the calls alike. */
  predicate StandsFor(a: Assertion, calls: seq<CallSpec>, statuses: seq<Status>, i: nat)
    requires |calls| == |statuses| && i < |calls|
  {
    && a.tool == calls[i].tool && a.arguments == Pinned(calls[i].arguments) && a.status == statuses[i] && a.errorType.None?
    && a.output == (match calls[i].expectedOutput case None => map[] case Some(output) => output)
    && a.count == |AlikeBefore(calls, statuses, i, |calls|)|
  }

  lemma GroupStandsFor(calls: seq<CallSpec>, statuses: seq<Status>, g: Group, i: nat)
    requires |calls| == |statuses| && i < |calls| && g.fingerprint == FingerprintOf(calls[i], statuses[i])
    requires g.fingerprint == FingerprintOf(g.call, g.status) && g.count == Sharing(calls, statuses, g.fingerprint)
    ensures StandsFor(AssertionOf(g), calls, statuses, i)
  {
    SharingExactly(calls, statuses, i, |calls|);
    assert calls[..|calls|] == calls && statuses[..|calls|] == statuses;
  }

  lemma {:induction false} AssertionAt(groups: seq<Group>, k: nat)
    requires k < |groups|
    ensures AssertionsOf(groups)[k] == AssertionOf(groups[k])
  {
    if k < |groups| - 1 {
      AssertionAt(groups[..|groups| - 1], k);
    }
  }

  /** Every generated assertion stands for some scripted call. */
  lemma GeneratedStandFor(calls: seq<CallSpec>, statuses: seq<Status>, k: nat) returns (i: nat)
    requires |calls| == |statuses| && k < |AssertionsOf(Groups(calls, statuses))|
    ensures i < |calls| && StandsFor(AssertionsOf(Groups(calls, statuses))[k], calls, statuses, i)
  {
    GroupsPartition(calls, statuses);
    var groups := Groups(calls, statuses);
    AssertionAt(groups, k);
    i := SharedByOne(calls, statuses, groups[k].fingerprint);
    GroupStandsFor(calls, statuses, groups[k], i);
  }

  /** Every scripted call has one generated assertion that stands for it. */
  lemma CallsAreAsserted(calls: seq<CallSpec>, statuses: seq<Status>, i: nat) returns (k: nat)
    requires |calls| == |statuses| && i < |calls|
    ensures k < |AssertionsOf(Groups(calls, statuses))| && StandsFor(AssertionsOf(Groups(calls, statuses))[k], calls, statuses, i)
  {
    GroupsPartition(calls, statuses);
    var groups, f := Groups(calls, statuses), FingerprintOf(calls[i], statuses[i]);
    SharingExactly(calls, statuses, i, |calls|);
    assert calls[..|calls|] == calls && statuses[..|calls|] == statuses;
    assert i in AlikeBefore(calls, statuses, i, |calls|);
    k := IndexOf(groups, f);
    AssertionAt(groups, k);
    GroupStandsFor(calls, statuses, groups[k], i);
  }

  /** Calls alike share their assertion: there are as many assertions as kinds of call. */
  lemma AssertionsAreDistinct(calls: seq<CallSpec>, statuses: seq<Status>, k: nat, l: nat, i: nat, j: nat)
    requires |calls| == |statuses| && k < |Groups(calls, statuses)| && l < |Groups(calls, statuses)| && i < |calls| && j < |calls|
    requires Groups(calls, statuses)[k].fingerprint == FingerprintOf(calls[i], statuses[i])
    requires Groups(calls, statuses)[l].fingerprint == FingerprintOf(calls[j], statuses[j])
    ensures k == l <==> Alike(calls, statuses, i, j)
  {
    GroupsPartition(calls, statuses);
  }

  // ---------- Expected statuses ----------

  predicate HasKey(call: CallSpec, v: Json) {
    "idempotency_key" in call.arguments && call.arguments["idempotency_key"] == v
  }

  /** A missing key and a null one are the same. */
  ghost predicate SameKey(first: CallSpec, last: CallSpec) {
    forall v :: v != Null ==> (HasKey(first, v) <==> HasKey(last, v))
  }

  /** A repeated call conflicts exactly when the tool and the key stay and the arguments change. */
  lemma ConflictsExactly(first: CallSpec, last: CallSpec)
    ensures Conflicts(first, last) <==> first.tool == last.tool && SameKey(first, last) && first.arguments != last.arguments
  {
    if SameKey(first, last) {
      if KEY in first.arguments && first.arguments[KEY] != Null {
        assert HasKey(first, first.arguments[KEY]);
      }
      if KEY in last.arguments && last.arguments[KEY] != Null {
        assert HasKey(last, last.arguments[KEY]);
      }
    }
  }
}
