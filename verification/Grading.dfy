/** The snapshot diff behind the changed-entities assertion, and what the assertion guarantees. */
module Grading {
  import opened Wrappers
  import opened Collections

  /** One element of a state list: a dictionary with an id, or something the diff skips. */
  datatype Entry<+K, +V> = Identified(id: string, fields: map<K, V>) | Unidentified

  /** A state's value for one entity type. */
  datatype Section<+K, +V> = Rows(entries: seq<Entry<K, V>>) | Scalar(value: V)

  type State<!T, +K, +V> = map<T, Section<K, V>>

  datatype Change<+T, +K> = Root(entityType: T) | Entity(entityType: T, id: string, fields: seq<K>)

  /** How a set of entity types or field names is put in order. */
  datatype Order<!T, !K> = Order(types: set<T> -> seq<T>, fields: set<K> -> seq<K>)

  ghost predicate Lists<T(!new), K(!new)>(order: Order<T, K>) {
    && (forall s, x :: x in order.types(s) <==> x in s)
    && (forall s, x :: x in order.fields(s) <==> x in s)
  }

  /** Rows by id; a later row replaces an earlier one with the same id. */
  function ById<K, V>(entries: seq<Entry<K, V>>): map<string, map<K, V>> {
    if entries == [] then map[]
    else
      var rest, last := ById(entries[..|entries| - 1]), entries[|entries| - 1];
      if last.Identified? then rest[last.id := last.fields] else rest
  }

  /** `dict.get`: a missing field reads as null. */
  function Get<K(==), V>(row: map<K, V>, k: K, none: V): V {
    if k in row then row[k] else none
  }

  function RowAt<K, V>(entries: seq<Entry<K, V>>, id: string): map<K, V> {
    if id in ById(entries) then ById(entries)[id] else map[]
  }

  function DifferingFields<K(==), V(==)>(left: map<K, V>, right: map<K, V>, none: V): set<K> {
    set k | k in left.Keys + right.Keys && Get(left, k, none) != Get(right, k, none)
  }

  function FieldsAt<T, K(==), V(==)>(before: seq<Entry<K, V>>, after: seq<Entry<K, V>>, id: string, none: V, order: Order<T, K>): seq<K> {
    order.fields(DifferingFields(RowAt(before, id), RowAt(after, id), none))
  }

  function RowChanges<T, K(==), V(==)>(t: T, before: seq<Entry<K, V>>, after: seq<Entry<K, V>>, ids: seq<string>, none: V,
                                       order: Order<T, K>): seq<Change<T, K>>
  {
    if ids == [] then []
    else
      var id := ids[|ids| - 1];
      var fields := FieldsAt(before, after, id, none, order);
      RowChanges(t, before, after, ids[..|ids| - 1], none, order) + (if fields != [] then [Entity(t, id, fields)] else [])
  }

  function Ids<K, V>(entries: seq<Entry<K, V>>): (ids: seq<string>)
    ensures forall id :: id in ids <==> id in ById(entries)
  {
    if entries == [] then []
    else
      var rest, last := Ids(entries[..|entries| - 1]), entries[|entries| - 1];
      if last.Identified? then rest + [last.id] else rest
  }

  function SectionAt<T(==), K, V>(state: State<T, K, V>, t: T): Section<K, V> {
    if t in state then state[t] else Rows([])
  }

  function SectionChanges<T, K(==), V(==)>(t: T, before: Section<K, V>, after: Section<K, V>, none: V, order: Order<T, K>): seq<Change<T, K>> {
    if before.Scalar? || after.Scalar? then (if before != after then [Root(t)] else [])
    else RowChanges(t, before.entries, after.entries, SortedUnique(Ids(before.entries) + Ids(after.entries)), none, order)
  }

  function ChangesOver<T(==), K(==), V(==)>(initial: State<T, K, V>, final: State<T, K, V>, types: seq<T>, none: V,
                                            order: Order<T, K>): seq<Change<T, K>>
  {
    if types == [] then []
    else
      var t := types[|types| - 1];
      ChangesOver(initial, final, types[..|types| - 1], none, order)
      + SectionChanges(t, SectionAt(initial, t), SectionAt(final, t), none, order)
  }

  /** The diff of a run's two snapshots; without both there is none. */
  function ChangedEntities<T(==), K(==), V(==)>(initial: Option<State<T, K, V>>, final: Option<State<T, K, V>>, none: V,
                                                order: Order<T, K>): seq<Change<T, K>>
  {
    if initial.None? || final.None? then []
    else ChangesOver(initial.value, final.value, order.types(initial.value.Keys + final.value.Keys), none, order)
  }

  // ---------- The loops ----------

  method RowLoop<T, K(==), V(==)>(t: T, before: seq<Entry<K, V>>, after: seq<Entry<K, V>>, none: V, order: Order<T, K>)
    returns (changes: seq<Change<T, K>>)
    ensures changes == RowChanges(t, before, after, SortedUnique(Ids(before) + Ids(after)), none, order)
  {
    var ids := SortedUnique(Ids(before) + Ids(after));
    changes := [];
    for i := 0 to |ids|
      invariant changes == RowChanges(t, before, after, ids[..i], none, order)
    {
      assert ids[..i + 1][..i] == ids[..i];
      var fields := FieldsAt(before, after, ids[i], none, order);
      if fields != [] {
        changes := changes + [Entity(t, ids[i], fields)];
      }
    }
    assert ids[..|ids|] == ids;
  }

  method Diff<T(==), K(==), V(==)>(initial: State<T, K, V>, final: State<T, K, V>, none: V, order: Order<T, K>)
    returns (changes: seq<Change<T, K>>)
    ensures changes == ChangedEntities(Some(initial), Some(final), none, order)
  {
    var types := order.types(initial.Keys + final.Keys);
    changes := [];
    for i := 0 to |types|
      invariant changes == ChangesOver(initial, final, types[..i], none, order)
    {
      assert types[..i + 1][..i] == types[..i];
      var before, after := SectionAt(initial, types[i]), SectionAt(final, types[i]);
      if before.Scalar? || after.Scalar? {
        if before != after {
          changes := changes + [Root(types[i])];
        }
        continue;
      }
      var found := RowLoop(types[i], before.entries, after.entries, none, order);
      changes := changes + found;
    }
    assert types[..|types|] == types;
  }

  // ---------- The diff is exact ----------

  /** A field of an entity reads differently in the two states. */
  predicate Differs<T(==), K(==), V(==)>(initial: State<T, K, V>, final: State<T, K, V>, t: T, id: string, k: K, none: V) {
    var before, after := SectionAt(initial, t), SectionAt(final, t);
    before.Rows? && after.Rows? && Get(RowAt(before.entries, id), k, none) != Get(RowAt(after.entries, id), k, none)
  }

  predicate Listed<T(==), K(==)>(changes: seq<Change<T, K>>, t: T, id: string, k: K) {
    exists i :: 0 <= i < |changes| && changes[i].Entity? && changes[i].entityType == t && changes[i].id == id && k in changes[i].fields
  }

  lemma ListedConcat<T, K>(a: seq<Change<T, K>>, b: seq<Change<T, K>>, t: T, id: string, k: K)
    ensures Listed(a + b, t, id, k) <==> Listed(a, t, id, k) || Listed(b, t, id, k)
  {
    if i :| 0 <= i < |a| && a[i].Entity? && a[i].entityType == t && a[i].id == id && k in a[i].fields {
      assert (a + b)[i] == a[i];
    }
    if i :| 0 <= i < |b| && b[i].Entity? && b[i].entityType == t && b[i].id == id && k in b[i].fields {
      assert (a + b)[|a| + i] == b[i];
    }
    if i :| 0 <= i < |a + b| && (a + b)[i].Entity? && (a + b)[i].entityType == t && (a + b)[i].id == id && k in (a + b)[i].fields {
      assert if i < |a| then (a + b)[i] == a[i] else (a + b)[i] == b[i - |a|];
    }
  }

  lemma FieldListed<T(!new), K(!new), V>(before: seq<Entry<K, V>>, after: seq<Entry<K, V>>, id: string, k: K, none: V, order: Order<T, K>)
    requires Lists(order)
    ensures k in FieldsAt(before, after, id, none, order) <==> Get(RowAt(before, id), k, none) != Get(RowAt(after, id), k, none)
  {
  }

  lemma {:induction false} RowsExact<T(!new), K(!new), V>(t: T, before: seq<Entry<K, V>>, after: seq<Entry<K, V>>, ids: seq<string>,
                                                        none: V, order: Order<T, K>, t': T, id: string, k: K)
    requires Lists(order)
    ensures Listed(RowChanges(t, before, after, ids, none, order), t', id, k) <==>
      t == t' && id in ids && Get(RowAt(before, id), k, none) != Get(RowAt(after, id), k, none)
  {
    if ids != [] {
      var rest, last := ids[..|ids| - 1], ids[|ids| - 1];
      RowsExact(t, before, after, rest, none, order, t', id, k);
      FieldListed(before, after, last, k, none, order);
      var fields := FieldsAt(before, after, last, none, order);
      var one := if fields != [] then [Entity(t, last, fields)] else [];
      ListedConcat(RowChanges(t, before, after, rest, none, order), one, t', id, k);
      assert ids == rest + [last];
      OneListed(t, last, fields, t', id, k);
    }
  }

  lemma OneListed<T, K>(t: T, last: string, fields: seq<K>, t': T, id: string, k: K)
    ensures Listed(if fields != [] then [Entity(t, last, fields)] else [], t', id, k) <==> t == t' && id == last && k in fields
  {
    if fields != [] {
      var one := [Entity(t, last, fields)];
      assert one[0] == Entity(t, last, fields);
    }
  }

  lemma SectionExact<T(!new), K(!new), V>(t: T, before: Section<K, V>, after: Section<K, V>, none: V, order: Order<T, K>, t': T, id: string, k: K)
    requires Lists(order)
    ensures Listed(SectionChanges(t, before, after, none, order), t', id, k) <==>
      t == t' && before.Rows? && after.Rows? && Get(RowAt(before.entries, id), k, none) != Get(RowAt(after.entries, id), k, none)
  {
    if before.Rows? && after.Rows? {
      var names := Ids(before.entries) + Ids(after.entries);
      RowsExact(t, before.entries, after.entries, SortedUnique(names), none, order, t', id, k);
      assert id in SortedUnique(names) <==> id in Ids(before.entries) || id in Ids(after.entries);
    }
  }

  lemma {:induction false} OverExact<T(!new), K(!new), V>(initial: State<T, K, V>, final: State<T, K, V>, types: seq<T>, none: V,
                                                        order: Order<T, K>, t: T, id: string, k: K)
    requires Lists(order)
    ensures Listed(ChangesOver(initial, final, types, none, order), t, id, k) <==> t in types && Differs(initial, final, t, id, k, none)
  {
    if types != [] {
      var rest, last := types[..|types| - 1], types[|types| - 1];
      OverExact(initial, final, rest, none, order, t, id, k);
      SectionExact(last, SectionAt(initial, last), SectionAt(final, last), none, order, t, id, k);
      ListedConcat(ChangesOver(initial, final, rest, none, order),
                   SectionChanges(last, SectionAt(initial, last), SectionAt(final, last), none, order), t, id, k);
      assert types == rest + [last];
    }
  }

  /** The diff lists exactly the (type, id, field) triples that read differently. */
  lemma DiffExact<T(!new), K(!new), V>(initial: State<T, K, V>, final: State<T, K, V>, none: V, order: Order<T, K>, t: T, id: string, k: K)
    requires Lists(order)
    ensures Listed(ChangedEntities(Some(initial), Some(final), none, order), t, id, k) <==> Differs(initial, final, t, id, k, none)
  {
    var types := order.types(initial.Keys + final.Keys);
    OverExact(initial, final, types, none, order, t, id, k);
    assert t in types <==> t in initial || t in final;
  }

  // ---------- The subset assertion ----------

  /** A rule for one entity type; no id or "*" means any entity, no fields or "*" any field. */
  datatype Rule<+T, +K> = Rule(entityType: T, entityId: Option<string>, fields: Option<seq<K>>)

  const ROOT: string := "root"

  predicate Applies<T(==), K>(rule: Rule<T, K>, t: T, id: string) {
    rule.entityType == t && (rule.entityId.None? || rule.entityId.value == id)
  }

  predicate Permits<T(==), K(==)>(rule: Rule<T, K>, change: Change<T, K>) {
    && Applies(rule, change.entityType, if change.Root? then ROOT else change.id)
    && (rule.fields.None? || (change.Entity? && forall k :: k in change.fields ==> k in rule.fields.value))
  }

  predicate Allowed<T(==), K(==)>(change: Change<T, K>, rules: seq<Rule<T, K>>) {
    exists rule :: rule in rules && Permits(rule, change)
  }

  /** The assertion passes when every listed change is permitted by some one rule. */
  predicate SubsetPasses<T(==), K(==)>(changes: seq<Change<T, K>>, rules: seq<Rule<T, K>>) {
    forall i :: 0 <= i < |changes| ==> Allowed(changes[i], rules)
  }

  predicate Covers<T(==), K(==)>(rules: seq<Rule<T, K>>, t: T, id: string, k: K) {
    exists rule :: rule in rules && rule.entityType == t && (rule.entityId == None || rule.entityId == Some(id))
                   && (rule.fields.None? || k in rule.fields.value)
  }

  /** A passing assertion leaves every field no rule covers unchanged between the snapshots. */
  lemma SubsetSound<T(!new), K(!new), V>(initial: State<T, K, V>, final: State<T, K, V>, none: V, order: Order<T, K>,
                                         rules: seq<Rule<T, K>>, t: T, id: string, k: K)
    requires Lists(order) && SubsetPasses(ChangedEntities(Some(initial), Some(final), none, order), rules)
    ensures Differs(initial, final, t, id, k, none) ==> Covers(rules, t, id, k)
  {
    var changes := ChangedEntities(Some(initial), Some(final), none, order);
    DiffExact(initial, final, none, order, t, id, k);
    if i :| 0 <= i < |changes| && changes[i].Entity? && changes[i].entityType == t && changes[i].id == id && k in changes[i].fields {
      assert Allowed(changes[i], rules);
      var rule :| rule in rules && Permits(rule, changes[i]);
      assert rule.entityType == t && (rule.fields.None? || k in rule.fields.value);
    }
  }

  /** One rule covers every differing field of an entity. */
  ghost predicate Embraces<T(!new), K(!new), V>(rule: Rule<T, K>, initial: State<T, K, V>, final: State<T, K, V>, t: T, id: string, none: V) {
    && rule.entityType == t && (rule.entityId == None || rule.entityId == Some(id))
    && (rule.fields.None? || forall k :: Differs(initial, final, t, id, k, none) ==> k in rule.fields.value)
  }

  /** A state's value for a type differs and is not a list on both sides. */
  predicate ScalarDiffers<T(==), K(==), V(==)>(initial: State<T, K, V>, final: State<T, K, V>, t: T) {
    var before, after := SectionAt(initial, t), SectionAt(final, t);
    (before.Scalar? || after.Scalar?) && before != after
  }

  /** A listed change says what differs: a whole scalar, or exactly the differing fields of a row. */
  predicate Accurate<T(==), K(==), V(==)>(c: Change<T, K>, initial: State<T, K, V>, final: State<T, K, V>, none: V, order: Order<T, K>) {
    var before, after := SectionAt(initial, c.entityType), SectionAt(final, c.entityType);
    if c.Root? then ScalarDiffers(initial, final, c.entityType)
    else before.Rows? && after.Rows? && c.fields != [] && c.fields == FieldsAt(before.entries, after.entries, c.id, none, order)
  }

  lemma {:induction false} RowsAccurate<T, K, V>(t: T, initial: State<T, K, V>, final: State<T, K, V>, ids: seq<string>, none: V,
                                                 order: Order<T, K>, c: Change<T, K>)
    requires SectionAt(initial, t).Rows? && SectionAt(final, t).Rows?
    requires c in RowChanges(t, SectionAt(initial, t).entries, SectionAt(final, t).entries, ids, none, order)
    ensures Accurate(c, initial, final, none, order)
  {
    var before, after := SectionAt(initial, t).entries, SectionAt(final, t).entries;
    if c in RowChanges(t, before, after, ids[..|ids| - 1], none, order) {
      RowsAccurate(t, initial, final, ids[..|ids| - 1], none, order, c);
    }
  }

  lemma {:induction false} OverAccurate<T, K, V>(initial: State<T, K, V>, final: State<T, K, V>, types: seq<T>, none: V,
                                                 order: Order<T, K>, c: Change<T, K>)
    requires c in ChangesOver(initial, final, types, none, order)
    ensures Accurate(c, initial, final, none, order)
  {
    var last := types[|types| - 1];
    if c in ChangesOver(initial, final, types[..|types| - 1], none, order) {
      OverAccurate(initial, final, types[..|types| - 1], none, order, c);
    } else {
      var before, after := SectionAt(initial, last), SectionAt(final, last);
      assert c in SectionChanges(last, before, after, none, order);
      if before.Rows? && after.Rows? {
        RowsAccurate(last, initial, final, SortedUnique(Ids(before.entries) + Ids(after.entries)), none, order, c);
      }
    }
  }

  lemma {:induction false} ScalarListed<T, K, V>(initial: State<T, K, V>, final: State<T, K, V>, types: seq<T>, none: V,
                                                 order: Order<T, K>, t: T)
    requires t in types && ScalarDiffers(initial, final, t)
    ensures Root(t) in ChangesOver(initial, final, types, none, order)
  {
    if types[|types| - 1] != t {
      ScalarListed(initial, final, types[..|types| - 1], none, order, t);
    }
  }

  /** Each changed entity has one rule covering all its changed fields, and each changed scalar an
      applicable rule for any field. */
  ghost predicate EachEmbraced<T(!new), K(!new), V>(initial: State<T, K, V>, final: State<T, K, V>, none: V, rules: seq<Rule<T, K>>) {
    && (forall t, id, k :: Differs(initial, final, t, id, k, none) ==>
          exists rule :: rule in rules && Embraces(rule, initial, final, t, id, none))
    && (forall t :: ScalarDiffers(initial, final, t) ==>
          exists rule :: rule in rules && rule.entityType == t && (rule.entityId == None || rule.entityId == Some("root")) && rule.fields.None?)
  }

  lemma EntityEmbraced<T(!new), K(!new), V>(initial: State<T, K, V>, final: State<T, K, V>, none: V, order: Order<T, K>,
                                            rules: seq<Rule<T, K>>, t: T, id: string, k: K)
    requires Lists(order) && SubsetPasses(ChangedEntities(Some(initial), Some(final), none, order), rules)
    requires Differs(initial, final, t, id, k, none)
    ensures exists rule :: rule in rules && Embraces(rule, initial, final, t, id, none)
  {
    var changes := ChangedEntities(Some(initial), Some(final), none, order);
    DiffExact(initial, final, none, order, t, id, k);
    var i :| 0 <= i < |changes| && changes[i].Entity? && changes[i].entityType == t && changes[i].id == id && k in changes[i].fields;
    OverAccurate(initial, final, order.types(initial.Keys + final.Keys), none, order, changes[i]);
    assert Allowed(changes[i], rules);
    var rule :| rule in rules && Permits(rule, changes[i]);
    forall k' | Differs(initial, final, t, id, k', none) ensures k' in changes[i].fields {
      FieldListed(SectionAt(initial, t).entries, SectionAt(final, t).entries, id, k', none, order);
    }
    assert Embraces(rule, initial, final, t, id, none);
  }

  lemma ChangeAllowed<T(!new), K(!new), V>(initial: State<T, K, V>, final: State<T, K, V>, none: V, order: Order<T, K>,
                                           rules: seq<Rule<T, K>>, c: Change<T, K>)
    requires Lists(order) && Accurate(c, initial, final, none, order) && EachEmbraced(initial, final, none, rules)
    ensures Allowed(c, rules)
  {
    var t := c.entityType;
    if c.Root? {
      var rule :| rule in rules && Applies(rule, t, ROOT) && rule.fields.None?;
      assert Permits(rule, c);
    } else {
      forall k | k in c.fields ensures Differs(initial, final, t, c.id, k, none) {
        FieldListed(SectionAt(initial, t).entries, SectionAt(final, t).entries, c.id, k, none, order);
      }
      assert c.fields[0] in c.fields;
      var rule :| rule in rules && Embraces(rule, initial, final, t, c.id, none);
      assert Permits(rule, c);
    }
  }

  /** The assertion passes exactly when each changed entity has one rule that covers all of its changed
      fields, and each changed scalar an applicable rule for any field. */
  lemma SubsetExactly<T(!new), K(!new), V>(initial: State<T, K, V>, final: State<T, K, V>, none: V, order: Order<T, K>, rules: seq<Rule<T, K>>)
    requires Lists(order)
    ensures SubsetPasses(ChangedEntities(Some(initial), Some(final), none, order), rules) <==> EachEmbraced(initial, final, none, rules)
  {
    var types := order.types(initial.Keys + final.Keys);
    var changes := ChangedEntities(Some(initial), Some(final), none, order);
    if SubsetPasses(changes, rules) {
      forall t, id, k | Differs(initial, final, t, id, k, none)
        ensures exists rule :: rule in rules && Embraces(rule, initial, final, t, id, none)
      {
        EntityEmbraced(initial, final, none, order, rules, t, id, k);
      }
      forall t | ScalarDiffers(initial, final, t)
        ensures exists rule :: rule in rules && rule.entityType == t && (rule.entityId == None || rule.entityId == Some("root")) && rule.fields.None?
      {
        assert t in initial.Keys + final.Keys;
        ScalarListed(initial, final, types, none, order, t);
        var i :| 0 <= i < |changes| && changes[i] == Root(t);
        assert Allowed(changes[i], rules);
      }
    }
    if EachEmbraced(initial, final, none, rules) {
      forall i | 0 <= i < |changes| ensures Allowed(changes[i], rules) {
        OverAccurate(initial, final, types, none, order, changes[i]);
        ChangeAllowed(initial, final, none, order, rules, changes[i]);
      }
    }
  }

  /** A field that differs fails the assertion whenever no rule of its type is for that entity or for
      any entity. */
  lemma OtherEntitiesRulesFail<T(!new), K(!new), V>(initial: State<T, K, V>, final: State<T, K, V>, none: V, order: Order<T, K>,
                                                    rules: seq<Rule<T, K>>, t: T, id: string, k: K)
    requires Lists(order) && Differs(initial, final, t, id, k, none)
    requires forall rule :: rule in rules && rule.entityType == t ==> rule.entityId.Some? && rule.entityId.value != id
    ensures !SubsetPasses(ChangedEntities(Some(initial), Some(final), none, order), rules)
  {
    SubsetExactly(initial, final, none, order, rules);
    assert forall rule :: rule in rules ==> !Embraces(rule, initial, final, t, id, none);
  }

  // ---------- What a row reads as ----------

  /** An id names the fields of its last row, or none at all. */
  lemma {:induction false} LastRowRead<K, V>(entries: seq<Entry<K, V>>, i: nat, id: string)
    requires i < |entries| && entries[i].Identified? && entries[i].id == id
    requires forall j :: i < j < |entries| && entries[j].Identified? ==> entries[j].id != id
    ensures RowAt(entries, id) == entries[i].fields
  {
    if i < |entries| - 1 {
      LastRowRead(entries[..|entries| - 1], i, id);
    }
  }

  lemma {:induction false} NoRowRead<K, V>(entries: seq<Entry<K, V>>, id: string)
    requires forall j :: 0 <= j < |entries| && entries[j].Identified? ==> entries[j].id != id
    ensures RowAt(entries, id) == map[]
  {
    if entries != [] {
      NoRowRead(entries[..|entries| - 1], id);
    }
  }

  predicate UniqueIds<K, V>(entries: seq<Entry<K, V>>) {
    forall i, j :: 0 <= i < j < |entries| && entries[i].Identified? && entries[j].Identified? ==> entries[i].id != entries[j].id
  }

  /** On lists with unique ids, for an entity that both have: its field is listed exactly when the two
      rows hold different values for it, a missing field counting as null. */
  lemma KeptEntityListed<T(!new), K(!new), V>(initial: State<T, K, V>, final: State<T, K, V>, none: V, order: Order<T, K>, t: T,
                                              i: nat, j: nat, k: K)
    requires Lists(order) && t in initial && t in final && initial[t].Rows? && final[t].Rows?
    requires UniqueIds(initial[t].entries) && UniqueIds(final[t].entries)
    requires i < |initial[t].entries| && j < |final[t].entries|
    requires initial[t].entries[i].Identified? && final[t].entries[j].Identified? && initial[t].entries[i].id == final[t].entries[j].id
    ensures var left, right := initial[t].entries[i].fields, final[t].entries[j].fields;
      Listed(ChangedEntities(Some(initial), Some(final), none, order), t, initial[t].entries[i].id, k) <==>
        (if k in left then left[k] else none) != (if k in right then right[k] else none)
  {
    DiffExact(initial, final, none, order, t, initial[t].entries[i].id, k);
    LastRowRead(initial[t].entries, i, initial[t].entries[i].id);
    LastRowRead(final[t].entries, j, initial[t].entries[i].id);
  }

  /** An entity that only the later list has is listed with exactly its fields that are not null. */
  lemma NewEntityListed<T(!new), K(!new), V>(initial: State<T, K, V>, final: State<T, K, V>, none: V, order: Order<T, K>, t: T, j: nat, k: K)
    requires Lists(order) && t in initial && t in final && initial[t].Rows? && final[t].Rows? && UniqueIds(final[t].entries)
    requires j < |final[t].entries| && final[t].entries[j].Identified?
    requires forall i :: 0 <= i < |initial[t].entries| && initial[t].entries[i].Identified? ==> initial[t].entries[i].id != final[t].entries[j].id
    ensures var right := final[t].entries[j].fields;
      Listed(ChangedEntities(Some(initial), Some(final), none, order), t, final[t].entries[j].id, k) <==> k in right && right[k] != none
  {
    DiffExact(initial, final, none, order, t, final[t].entries[j].id, k);
    NoRowRead(initial[t].entries, final[t].entries[j].id);
    LastRowRead(final[t].entries, j, final[t].entries[j].id);
  }

  // Two states of one list with one row, in which both fields of the row change.

  function OneRow(value: int): State<int, int, int> {
    map[0 := Rows([Identified("row", map[0 := value, 1 := value])])]
  }

  lemma OneRowAt(value: int, id: string)
    ensures RowAt(SectionAt(OneRow(value), 0).entries, id) == if id == "row" then map[0 := value, 1 := value] else map[]
  {
    ByIdOne<int, int>("row", map[0 := value, 1 := value]);
  }

  lemma ByIdOne<K, V>(id: string, fields: map<K, V>)
    ensures ById([Identified(id, fields)]) == map[id := fields]
  {
    var entries := [Identified(id, fields)];
    assert entries[..0] == [];
    assert ById(entries[..0]) == map[];
  }

  const FIELD_ZERO: Rule<int, int> := Rule(0, None, Some([0]))
  const FIELD_ONE: Rule<int, int> := Rule(0, None, Some([1]))

  lemma OneRowDiffers(t: int, id: string, k: int)
    ensures Differs(OneRow(0), OneRow(1), t, id, k, 0) <==> t == 0 && id == "row" && (k == 0 || k == 1)
  {
    OneRowAt(0, id);
    OneRowAt(1, id);
  }

  /** Covering each changed field by some rule is not enough: a rule for each field of a row that
      changes in both, and yet the assertion fails. */
  lemma RulesDoNotCombine(order: Order<int, int>)
    requires Lists(order)
    ensures forall t, id, k :: Differs(OneRow(0), OneRow(1), t, id, k, 0) ==> Covers([FIELD_ZERO, FIELD_ONE], t, id, k)
    ensures !SubsetPasses(ChangedEntities(Some(OneRow(0)), Some(OneRow(1)), 0, order), [FIELD_ZERO, FIELD_ONE])
  {
    var rules := [FIELD_ZERO, FIELD_ONE];
    assert rules[0] in rules && rules[1] in rules;
    forall t, id, k | Differs(OneRow(0), OneRow(1), t, id, k, 0) ensures Covers(rules, t, id, k) {
      OneRowDiffers(t, id, k);
    }
    OneRowDiffers(0, "row", 0);
    OneRowDiffers(0, "row", 1);
    assert forall rule :: rule in rules ==> !Embraces(rule, OneRow(0), OneRow(1), 0, "row", 0);
    SubsetExactly(OneRow(0), OneRow(1), 0, order, rules);
  }
}
