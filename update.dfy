/** The generated `update` client call and its builder: four append-only
    lists of pending ADD, SET, REMOVE and DELETE actions, and the one-shot
    `build_expression` that drains them into an update expression, a name
    table and a value table. Attribute-name enum values are modelled by the
    attribute names they convert to. */
module Update {
  import opened Attribute
  import opened Placeholders

  /** The request being built; only the fields this builder touches. */
  datatype UpdateItemInput = UpdateItemInput(
    tableName: string,
    key: map<string, AttributeValue>,
    updateExpression: Option<string>,
    expressionAttributeNames: Option<map<string, string>>,
    expressionAttributeValues: Option<map<string, AttributeValue>>)

  datatype Action = AddAction | SetAction | RemoveAction | DeleteAction

  /** The text of one entry of a clause. */
  function ItemText(action: Action, name: string, id: nat): string
  {
    match action
    case SetAction => Alias(name) + " = " + ValuePlaceholder(id)
    case AddAction => Alias(name) + " " + ValuePlaceholder(id)
    case DeleteAction => Alias(name) + " " + ValuePlaceholder(id)
    case RemoveAction => Alias(name)
  }

  /** Rust's `join`: the parts with `sep` between neighbours. */
  function Join(parts: seq<string>, sep: string): string
  {
    if |parts| == 0 then ""
    else if |parts| == 1 then parts[0]
    else Join(parts[..|parts| - 1], sep) + sep + parts[|parts| - 1]
  }

  /** A join is empty only when there are no parts or its only part is empty. */
  lemma JoinEmpty(parts: seq<string>, sep: string)
    requires forall i :: 0 <= i < |parts| ==> parts[i] != ""
    ensures Join(parts, sep) == "" <==> parts == []
  {
  }

  /** The entries of one clause; entry i uses id `start + i`. */
  function ItemTexts(action: Action, names: seq<string>, start: nat): seq<string>
  {
    seq(|names|, i requires 0 <= i < |names| => ItemText(action, names[i], start + i))
  }

  lemma ItemTextsSnoc(action: Action, names: seq<string>, start: nat)
    requires names != []
    ensures ItemTexts(action, names, start)
            == ItemTexts(action, names[..|names| - 1], start) + [ItemText(action, names[|names| - 1], start + |names| - 1)]
  {
  }

  function ClauseText(action: Action, names: seq<string>, start: nat): string
  {
    Join(ItemTexts(action, names, start), ", ")
  }

  /** A clause text is empty exactly when its list is. */
  lemma ClauseTextEmpty(action: Action, names: seq<string>, start: nat)
    ensures ClauseText(action, names, start) == "" <==> names == []
  {
    var parts := ItemTexts(action, names, start);
    forall i | 0 <= i < |parts|
      ensures parts[i] != ""
    {
      assert parts[i][0] == '#';
    }
    JoinEmpty(parts, ", ");
  }

  /** The non-empty clauses, in the fixed order ADD, SET, REMOVE, DELETE,
      joined by single spaces. */
  function Expression(adds: string, sets: string, removes: string, deletes: string): string
  {
    Join((if adds != "" then ["ADD " + adds] else [])
         + (if sets != "" then ["SET " + sets] else [])
         + (if removes != "" then ["REMOVE " + removes] else [])
         + (if deletes != "" then ["DELETE " + deletes] else []), " ")
  }

  /** The name table built by inserting `#n -> n` for each name in turn. */
  function Aliases(m: map<string, string>, names: seq<string>): map<string, string>
  {
    if names == [] then m
    else Aliases(m, names[..|names| - 1])[Alias(names[|names| - 1]) := names[|names| - 1]]
  }

  /** The value table built by inserting `:value<start+i> -> values[i]` in turn. */
  function Bind(m: map<string, AttributeValue>, values: seq<AttributeValue>, start: nat): map<string, AttributeValue>
  {
    if values == [] then m
    else Bind(m, values[..|values| - 1], start)[ValuePlaceholder(start + |values| - 1) := values[|values| - 1]]
  }

  function Names(items: seq<(string, AttributeValue)>): seq<string>
  {
    seq(|items|, i requires 0 <= i < |items| => items[i].0)
  }

  function Values(items: seq<(string, AttributeValue)>): seq<AttributeValue>
  {
    seq(|items|, i requires 0 <= i < |items| => items[i].1)
  }

  function SetOf(names: seq<string>): set<string>
  {
    set i | 0 <= i < |names| :: names[i]
  }

  /** The four pending lists of a builder, in the order the fields are
      declared. */
  datatype Pending = Pending(adds: seq<(string, AttributeValue)>, sets: seq<(string, AttributeValue)>,
                             removes: seq<string>, deletes: seq<(string, AttributeValue)>)
  {
    /** Ids are taken by the SET entries first, then ADD, then REMOVE (whose
        ids go unused), then DELETE. */
    function AddStart(start: nat): nat { start + |sets| }
    function RemoveStart(start: nat): nat { start + |sets| + |adds| }
    function DeleteStart(start: nat): nat { start + |sets| + |adds| + |removes| }
    function Count(): nat { |adds| + |sets| + |removes| + |deletes| }
  }

  function ExpressionOf(p: Pending, start: nat): string
  {
    Expression(ClauseText(AddAction, Names(p.adds), p.AddStart(start)), ClauseText(SetAction, Names(p.sets), start),
               ClauseText(RemoveAction, p.removes, p.RemoveStart(start)),
               ClauseText(DeleteAction, Names(p.deletes), p.DeleteStart(start)))
  }

  function NameTable(p: Pending): map<string, string>
  {
    Aliases(Aliases(Aliases(Aliases(map[], Names(p.sets)), Names(p.adds)), p.removes), Names(p.deletes))
  }

  function ValueTable(p: Pending, start: nat): map<string, AttributeValue>
  {
    Bind(Bind(Bind(map[], Values(p.sets), start), Values(p.adds), p.AddStart(start)), Values(p.deletes), p.DeleteStart(start))
  }

  datatype Compiled = Compiled(expression: string, names: map<string, string>, values: map<string, AttributeValue>)

  /** What `build_expression` produces from the pending lists and the
      counter's value. */
  function Compile(p: Pending, start: nat): Compiled
  {
    Compiled(ExpressionOf(p, start), NameTable(p), ValueTable(p, start))
  }

  /** What `build_expression` returns, in one statement: an expression that is
      empty exactly when nothing is pending, one alias per attribute name the
      lists refer to, and one value under each id of the SET, ADD and DELETE
      ranges, none under the ids REMOVE consumes. */
  lemma CompileTables(p: Pending, start: nat)
    ensures Compile(p, start).expression == "" <==> p.Count() == 0
    ensures Compile(p, start).names == AliasMap(ReferencedNames(p))
    ensures |Compile(p, start).names| == |ReferencedNames(p)|
    ensures Compile(p, start).values.Keys
            == PlaceholderRange(start, |p.sets|) + PlaceholderRange(p.AddStart(start), |p.adds|)
               + PlaceholderRange(p.DeleteStart(start), |p.deletes|)
    ensures |Compile(p, start).values| == |p.sets| + |p.adds| + |p.deletes|
  {
    ExpressionEmpty(p, start);
    CompileNames(p);
    ValueTableKeys(p, start);
    ValueTableSize(p, start);
  }

  /** The expression is empty exactly when all four lists are. */
  lemma ExpressionEmpty(p: Pending, start: nat)
    ensures ExpressionOf(p, start) == "" <==> p.Count() == 0
  {
    var a := ClauseText(AddAction, Names(p.adds), p.AddStart(start));
    var s := ClauseText(SetAction, Names(p.sets), start);
    var r := ClauseText(RemoveAction, p.removes, p.RemoveStart(start));
    var d := ClauseText(DeleteAction, Names(p.deletes), p.DeleteStart(start));
    ClauseTextEmpty(AddAction, Names(p.adds), p.AddStart(start));
    ClauseTextEmpty(SetAction, Names(p.sets), start);
    ClauseTextEmpty(RemoveAction, p.removes, p.RemoveStart(start));
    ClauseTextEmpty(DeleteAction, Names(p.deletes), p.DeleteStart(start));
    var parts := (if a != "" then ["ADD " + a] else []) + (if s != "" then ["SET " + s] else [])
                 + (if r != "" then ["REMOVE " + r] else []) + (if d != "" then ["DELETE " + d] else []);
    forall i | 0 <= i < |parts|
      ensures parts[i] != ""
    {
    }
    JoinEmpty(parts, " ");
  }

  /** With every list non-empty the clauses appear in the order ADD, SET,
      REMOVE, DELETE, separated by single spaces. */
  lemma ExpressionAllClauses(p: Pending, start: nat)
    requires p.adds != [] && p.sets != [] && p.removes != [] && p.deletes != []
    ensures ExpressionOf(p, start)
            == "ADD " + ClauseText(AddAction, Names(p.adds), p.AddStart(start))
               + " SET " + ClauseText(SetAction, Names(p.sets), start)
               + " REMOVE " + ClauseText(RemoveAction, p.removes, p.RemoveStart(start))
               + " DELETE " + ClauseText(DeleteAction, Names(p.deletes), p.DeleteStart(start))
  {
    var a := ClauseText(AddAction, Names(p.adds), p.AddStart(start));
    var s := ClauseText(SetAction, Names(p.sets), start);
    var r := ClauseText(RemoveAction, p.removes, p.RemoveStart(start));
    var d := ClauseText(DeleteAction, Names(p.deletes), p.DeleteStart(start));
    ClauseTextEmpty(AddAction, Names(p.adds), p.AddStart(start));
    ClauseTextEmpty(SetAction, Names(p.sets), start);
    ClauseTextEmpty(RemoveAction, p.removes, p.RemoveStart(start));
    ClauseTextEmpty(DeleteAction, Names(p.deletes), p.DeleteStart(start));
    var parts := ["ADD " + a] + ["SET " + s] + ["REMOVE " + r] + ["DELETE " + d];
    assert parts[..3] == ["ADD " + a, "SET " + s, "REMOVE " + r];
    assert parts[..3][..2] == ["ADD " + a, "SET " + s];
    assert parts[..3][..2][..1] == ["ADD " + a];
    assert Join(parts[..3][..2], " ") == "ADD " + a + " " + "SET " + s;
    assert Join(parts[..3], " ") == "ADD " + a + " " + "SET " + s + " " + "REMOVE " + r;
  }

  /** Updating a merged map updates its right-hand side. */
  lemma MergeUpdate<K, V>(m: map<K, V>, r: map<K, V>, k: K, v: V)
    ensures (m + r)[k := v] == m + r[k := v]
  {
  }

  lemma SetOfSnoc(names: seq<string>)
    requires names != []
    ensures SetOf(names) == SetOf(names[..|names| - 1]) + {names[|names| - 1]}
  {
  }

  /** Inserting aliases one by one gives the alias table of the names seen. */
  lemma {:induction false} AliasesTable(m: map<string, string>, names: seq<string>)
    ensures Aliases(m, names) == m + AliasMap(SetOf(names))
  {
    if names == [] {
      AliasMapEmpty();
    } else {
      var init, last := names[..|names| - 1], names[|names| - 1];
      AliasesTable(m, init);
      MergeUpdate(m, AliasMap(SetOf(init)), Alias(last), last);
      AliasMapInsert(SetOf(init), last);
      SetOfSnoc(names);
    }
  }

  /** Every attribute name an update refers to, REMOVE entries included. */
  function ReferencedNames(p: Pending): set<string>
  {
    SetOf(Names(p.sets)) + SetOf(Names(p.adds)) + SetOf(p.removes) + SetOf(Names(p.deletes))
  }

  /** The name table of a compiled update has one entry `#n -> n` per
      distinct attribute name the update refers to, and nothing else. */
  lemma CompileNames(p: Pending)
    ensures NameTable(p) == AliasMap(ReferencedNames(p))
    ensures |NameTable(p)| == |ReferencedNames(p)|
  {
    var s, a, r, d := SetOf(Names(p.sets)), SetOf(Names(p.adds)), SetOf(p.removes), SetOf(Names(p.deletes));
    var t1 := Aliases(map[], Names(p.sets));
    var t2 := Aliases(t1, Names(p.adds));
    var t3 := Aliases(t2, p.removes);
    assert t1 == AliasMap(s) by {
      AliasesTable(map[], Names(p.sets));
      assert map[] + AliasMap(s) == AliasMap(s);
    }
    assert t2 == AliasMap(s + a) by {
      AliasesTable(t1, Names(p.adds));
      AliasMapUnion(s, a);
    }
    assert t3 == AliasMap(s + a + r) by {
      AliasesTable(t2, p.removes);
      AliasMapUnion(s + a, r);
    }
    assert NameTable(p) == AliasMap(s + a + r + d) by {
      AliasesTable(t3, Names(p.deletes));
      AliasMapUnion(s + a + r, d);
    }
    AliasMapSize(s + a + r + d);
  }

  /** Binding values adds exactly the placeholders of their ids as keys. */
  lemma {:induction false} BindKeys(m: map<string, AttributeValue>, values: seq<AttributeValue>, start: nat)
    ensures Bind(m, values, start).Keys == m.Keys + PlaceholderRange(start, |values|)
  {
    if values != [] {
      var n := |values| - 1;
      BindKeys(m, values[..n], start);
      PlaceholderRangeSnoc(start, n);
    }
  }

  /** The i-th value is bound to the placeholder of id `start + i`. */
  lemma {:induction false} BindAt(m: map<string, AttributeValue>, values: seq<AttributeValue>, start: nat, i: nat)
    requires i < |values|
    ensures ValuePlaceholder(start + i) in Bind(m, values, start)
    ensures Bind(m, values, start)[ValuePlaceholder(start + i)] == values[i]
  {
    var n := |values| - 1;
    if i < n {
      BindAt(m, values[..n], start, i);
      ValuePlaceholderInjective(start + i, start + n);
    }
  }

  /** Keys outside the bound range keep their entries. */
  lemma {:induction false} BindKeeps(m: map<string, AttributeValue>, values: seq<AttributeValue>, start: nat, k: string)
    requires k in m && k !in PlaceholderRange(start, |values|)
    ensures k in Bind(m, values, start) && Bind(m, values, start)[k] == m[k]
  {
    if values != [] {
      var n := |values| - 1;
      PlaceholderRangeSnoc(start, n);
      BindKeeps(m, values[..n], start, k);
    }
  }

  /** The value table's keys are the placeholders of the ids the SET, ADD
      and DELETE entries took. */
  lemma ValueTableKeys(p: Pending, start: nat)
    ensures ValueTable(p, start).Keys
            == PlaceholderRange(start, |p.sets|) + PlaceholderRange(p.AddStart(start), |p.adds|)
               + PlaceholderRange(p.DeleteStart(start), |p.deletes|)
  {
    var v1 := Bind(map[], Values(p.sets), start);
    var v2 := Bind(v1, Values(p.adds), p.AddStart(start));
    BindKeys(map[], Values(p.sets), start);
    BindKeys(v1, Values(p.adds), p.AddStart(start));
    BindKeys(v2, Values(p.deletes), p.DeleteStart(start));
  }

  /** The ids the REMOVE entries took have no entry in the value table. */
  lemma ValueTableSkipsRemoves(p: Pending, start: nat)
    ensures forall id: nat :: p.RemoveStart(start) <= id < p.DeleteStart(start) ==>
              ValuePlaceholder(id) !in ValueTable(p, start)
  {
    ValueTableKeys(p, start);
    forall id: nat | p.RemoveStart(start) <= id < p.DeleteStart(start)
      ensures ValuePlaceholder(id) !in ValueTable(p, start)
    {
      InPlaceholderRange(start, |p.sets|, id);
      InPlaceholderRange(p.AddStart(start), |p.adds|, id);
      InPlaceholderRange(p.DeleteStart(start), |p.deletes|, id);
    }
  }

  /** The value table has exactly one entry per SET, ADD or DELETE entry. */
  lemma ValueTableSize(p: Pending, start: nat)
    ensures |ValueTable(p, start)| == |p.sets| + |p.adds| + |p.deletes|
  {
    ValueTableKeys(p, start);
    RangesDisjointSize(start, |p.sets|, p.AddStart(start), |p.adds|, p.DeleteStart(start), |p.deletes|);
  }

  /** Each SET entry's placeholder is bound to that entry's value. */
  lemma ValueTableSets(p: Pending, start: nat)
    ensures forall id: nat :: start <= id < p.AddStart(start) ==>
              ValuePlaceholder(id) in ValueTable(p, start) && ValueTable(p, start)[ValuePlaceholder(id)] == p.sets[id - start].1
  {
    var addStart, deleteStart := p.AddStart(start), p.DeleteStart(start);
    var v1 := Bind(map[], Values(p.sets), start);
    var v2 := Bind(v1, Values(p.adds), addStart);
    forall id: nat | start <= id < addStart
      ensures ValuePlaceholder(id) in ValueTable(p, start) && ValueTable(p, start)[ValuePlaceholder(id)] == p.sets[id - start].1
    {
      var k := ValuePlaceholder(id);
      BindAt(map[], Values(p.sets), start, id - start);
      InPlaceholderRange(addStart, |p.adds|, id);
      InPlaceholderRange(deleteStart, |p.deletes|, id);
      BindKeeps(v1, Values(p.adds), addStart, k);
      BindKeeps(v2, Values(p.deletes), deleteStart, k);
    }
  }

  /** Each ADD entry's placeholder is bound to that entry's value. */
  lemma ValueTableAdds(p: Pending, start: nat)
    ensures forall id: nat :: p.AddStart(start) <= id < p.RemoveStart(start) ==>
              ValuePlaceholder(id) in ValueTable(p, start)
              && ValueTable(p, start)[ValuePlaceholder(id)] == p.adds[id - p.AddStart(start)].1
  {
    var addStart, deleteStart := p.AddStart(start), p.DeleteStart(start);
    var v1 := Bind(map[], Values(p.sets), start);
    var v2 := Bind(v1, Values(p.adds), addStart);
    forall id: nat | addStart <= id < p.RemoveStart(start)
      ensures ValuePlaceholder(id) in ValueTable(p, start) && ValueTable(p, start)[ValuePlaceholder(id)] == p.adds[id - addStart].1
    {
      BindAt(v1, Values(p.adds), addStart, id - addStart);
      InPlaceholderRange(deleteStart, |p.deletes|, id);
      BindKeeps(v2, Values(p.deletes), deleteStart, ValuePlaceholder(id));
    }
  }

  /** Each DELETE entry's placeholder is bound to that entry's value. */
  lemma ValueTableDeletes(p: Pending, start: nat)
    ensures forall id: nat :: p.DeleteStart(start) <= id < p.DeleteStart(start) + |p.deletes| ==>
              ValuePlaceholder(id) in ValueTable(p, start)
              && ValueTable(p, start)[ValuePlaceholder(id)] == p.deletes[id - p.DeleteStart(start)].1
  {
    var deleteStart := p.DeleteStart(start);
    var v2 := Bind(Bind(map[], Values(p.sets), start), Values(p.adds), p.AddStart(start));
    forall id: nat | deleteStart <= id < deleteStart + |p.deletes|
      ensures ValuePlaceholder(id) in ValueTable(p, start) && ValueTable(p, start)[ValuePlaceholder(id)] == p.deletes[id - deleteStart].1
    {
      BindAt(v2, Values(p.deletes), deleteStart, id - deleteStart);
    }
  }

  /** Three ranges laid out one after another have as many placeholders as
      ids. */
  lemma RangesDisjointSize(a: nat, n: nat, b: nat, m: nat, c: nat, l: nat)
    requires a + n <= b && b + m <= c
    ensures |PlaceholderRange(a, n) + PlaceholderRange(b, m) + PlaceholderRange(c, l)| == n + m + l
  {
    var r1, r2, r3 := PlaceholderRange(a, n), PlaceholderRange(b, m), PlaceholderRange(c, l);
    assert r1 !! r2 by {
      forall k | k in r1 && k in r2
        ensures false
      {
        var id: nat :| a <= id < a + n && k == ValuePlaceholder(id);
        InPlaceholderRange(b, m, id);
      }
    }
    assert (r1 + r2) !! r3 by {
      forall k | k in r1 + r2 && k in r3
        ensures false
      {
        var id: nat :| c <= id < c + l && k == ValuePlaceholder(id);
        InPlaceholderRange(a, n, id);
        InPlaceholderRange(b, m, id);
      }
    }
    PlaceholderRangeSize(a, n);
    PlaceholderRangeSize(b, m);
    PlaceholderRangeSize(c, l);
  }

  /** One more name extends a clause's items and aliases by its own. */
  lemma ClauseStep(action: Action, names: seq<string>, m: map<string, string>, start: nat, i: nat)
    requires i < |names|
    ensures ItemTexts(action, names[..i + 1], start)
            == ItemTexts(action, names[..i], start) + [ItemText(action, names[i], start + i)]
    ensures Aliases(m, names[..i + 1]) == Aliases(m, names[..i])[Alias(names[i]) := names[i]]
  {
    assert names[..i + 1][..i] == names[..i];
    ItemTextsSnoc(action, names[..i + 1], start);
  }

  /** One more value extends a value table by its placeholder. */
  lemma BindStep(m: map<string, AttributeValue>, values: seq<AttributeValue>, start: nat, i: nat)
    requires i < |values|
    ensures Bind(m, values[..i + 1], start) == Bind(m, values[..i], start)[ValuePlaceholder(start + i) := values[i]]
  {
    assert values[..i + 1][..i] == values[..i];
  }

  /** One `map` closure of `build_expression` followed by `collect` and
      `join(", ")`: each entry takes a fresh id, registers its alias and,
      except for REMOVE, binds its placeholder. */
  method CompileClause(action: Action, names: seq<string>, values: seq<AttributeValue>, counter: ValueIdCounter,
                       attrNames: map<string, string>, attrValues: map<string, AttributeValue>)
    returns (text: string, attrNames': map<string, string>, attrValues': map<string, AttributeValue>)
    requires |values| == if action == RemoveAction then 0 else |names|
    modifies counter
    ensures counter.next == old(counter.next) + |names|
    ensures text == ClauseText(action, names, old(counter.next))
    ensures attrNames' == Aliases(attrNames, names)
    ensures attrValues' == Bind(attrValues, values, old(counter.next))
  {
    var start := counter.next;
    var parts: seq<string> := [];
    attrNames', attrValues' := attrNames, attrValues;
    for i := 0 to |names|
      invariant counter.next == start + i
      invariant parts == ItemTexts(action, names[..i], start)
      invariant attrNames' == Aliases(attrNames, names[..i])
      invariant action == RemoveAction ==> attrValues' == attrValues
      invariant action != RemoveAction ==> attrValues' == Bind(attrValues, values[..i], start)
    {
      var id := counter.Generate();
      var placeholder := ValuePlaceholder(id);
      var attrName := Alias(names[i]);
      attrNames' := attrNames'[attrName := names[i]];
      ClauseStep(action, names, attrNames, start, i);
      if action != RemoveAction {
        BindStep(attrValues, values, start, i);
        attrValues' := attrValues'[placeholder := values[i]];
      }
      var entry := ItemText(action, names[i], id);
      parts := parts + [entry];
    }
    assert names[..|names|] == names;
    assert values[..|values|] == values;
    text := Join(parts, ", ");
  }

  /** Keeps the non-empty clauses, prefixed by their keywords, and joins
      them with spaces. */
  method JoinClauses(addExpression: string, setExpression: string, removeExpression: string, deleteExpression: string)
    returns (expression: string)
    ensures expression == Expression(addExpression, setExpression, removeExpression, deleteExpression)
  {
    var updateExpressions: seq<string> := [];
    if addExpression != "" {
      updateExpressions := updateExpressions + ["ADD " + addExpression];
    }
    if setExpression != "" {
      updateExpressions := updateExpressions + ["SET " + setExpression];
    }
    if removeExpression != "" {
      updateExpressions := updateExpressions + ["REMOVE " + removeExpression];
    }
    if deleteExpression != "" {
      updateExpressions := updateExpressions + ["DELETE " + deleteExpression];
    }
    assert updateExpressions
           == (if addExpression != "" then ["ADD " + addExpression] else [])
              + (if setExpression != "" then ["SET " + setExpression] else [])
              + (if removeExpression != "" then ["REMOVE " + removeExpression] else [])
              + (if deleteExpression != "" then ["DELETE " + deleteExpression] else []);
    expression := Join(updateExpressions, " ");
  }

  /** The body of `build_expression` once the lists are taken: the four
      clauses in id order SET, ADD, REMOVE, DELETE, then the non-empty ones
      joined in the order ADD, SET, REMOVE, DELETE. */
  method CompileAll(p: Pending, counter: ValueIdCounter)
    returns (expression: string, names: map<string, string>, values: map<string, AttributeValue>)
    modifies counter
    ensures expression == ExpressionOf(p, old(counter.next))
    ensures names == NameTable(p)
    ensures values == ValueTable(p, old(counter.next))
    ensures counter.next == old(counter.next) + p.Count()
  {
    ghost var start := counter.next;
    names, values := map[], map[];
    var setExpression, addExpression, removeExpression, deleteExpression;
    setExpression, names, values := CompileClause(SetAction, Names(p.sets), Values(p.sets), counter, names, values);
    ghost var v1 := values;
    assert counter.next == p.AddStart(start);
    addExpression, names, values := CompileClause(AddAction, Names(p.adds), Values(p.adds), counter, names, values);
    ghost var v2 := values;
    assert counter.next == p.RemoveStart(start);
    removeExpression, names, values := CompileClause(RemoveAction, p.removes, [], counter, names, values);
    assert values == v2;
    assert counter.next == p.DeleteStart(start);
    deleteExpression, names, values := CompileClause(DeleteAction, Names(p.deletes), Values(p.deletes), counter, names, values);

    expression := JoinClauses(addExpression, setExpression, removeExpression, deleteExpression);
  }

  /** The request `run` sends, as written: the compiled name and value tables
      are stored, but the compiled expression is dropped. */
  function SentAsWritten(input: UpdateItemInput, p: Pending, start: nat): UpdateItemInput
  {
    var c := Compile(p, start);
    input.(expressionAttributeNames := Some(c.names), expressionAttributeValues := Some(c.values))
  }

  /** The request `run` evidently means to send: the compiled expression
      travels with the tables it refers to. */
  function Sent(input: UpdateItemInput, p: Pending, start: nat): UpdateItemInput
  {
    var c := Compile(p, start);
    input.(updateExpression := Some(c.expression), expressionAttributeNames := Some(c.names),
           expressionAttributeValues := Some(c.values))
  }

  /** Any pending action makes `run` as written send a non-empty name table
      with no update expression for it to belong to; the expression it
      computed was not empty. */
  lemma AsWrittenDropsExpression(input: UpdateItemInput, p: Pending, start: nat)
    requires input.updateExpression.None?
    requires p.Count() > 0
    ensures SentAsWritten(input, p, start).updateExpression.None?
    ensures ExpressionOf(p, start) != ""
    ensures SentAsWritten(input, p, start).expressionAttributeNames.Some?
    ensures |SentAsWritten(input, p, start).expressionAttributeNames.value| > 0
  {
    ExpressionEmpty(p, start);
    CompileNames(p);
    ReferencedNonEmpty(p);
  }

  /** Some pending action means some referenced name. */
  lemma ReferencedNonEmpty(p: Pending)
    requires p.Count() > 0
    ensures |ReferencedNames(p)| > 0
  {
    if p.sets != [] {
      assert Names(p.sets)[0] in SetOf(Names(p.sets));
    } else if p.adds != [] {
      assert Names(p.adds)[0] in SetOf(Names(p.adds));
    } else if p.removes != [] {
      assert p.removes[0] in SetOf(p.removes);
    } else {
      assert Names(p.deletes)[0] in SetOf(Names(p.deletes));
    }
  }

  /** The corrected `run` sends the compiled expression, empty exactly when
      nothing is pending, with the name table of exactly the names it refers
      to and one value per SET, ADD and DELETE entry; table and key are the
      builder's. */
  lemma SentCarriesExpression(input: UpdateItemInput, p: Pending, start: nat)
    ensures Sent(input, p, start).updateExpression == Some(ExpressionOf(p, start))
    ensures ExpressionOf(p, start) == "" <==> p.Count() == 0
    ensures Sent(input, p, start).expressionAttributeNames == Some(AliasMap(ReferencedNames(p)))
    ensures Sent(input, p, start).expressionAttributeValues.Some?
    ensures |Sent(input, p, start).expressionAttributeValues.value| == |p.sets| + |p.adds| + |p.deletes|
    ensures Sent(input, p, start).tableName == input.tableName && Sent(input, p, start).key == input.key
  {
    ExpressionEmpty(p, start);
    CompileNames(p);
    ValueTableSize(p, start);
  }

  /** The builder `update` returns. */
  class UpdateItemBuilder {
    /** `stringify!` of the sort-key identifier; empty for a table without one. */
    const sortKey: string
    var input: UpdateItemInput
    var addItems: seq<(string, AttributeValue)>
    var setItems: seq<(string, AttributeValue)>
    var removeItems: seq<string>
    var deleteItems: seq<(string, AttributeValue)>

    /** `update(key)`: the key map holds only the partition key. */
    constructor (tableName: string, partitionKey: string, sortKey: string, key: AttributeValue)
      ensures input == UpdateItemInput(tableName, map[partitionKey := key], None, None, None)
      ensures this.sortKey == sortKey
      ensures addItems == [] && setItems == [] && removeItems == [] && deleteItems == []
    {
      this.sortKey := sortKey;
      input := UpdateItemInput(tableName, map[partitionKey := key], None, None, None);
      addItems, setItems, removeItems, deleteItems := [], [], [], [];
    }

    method RawInput(newInput: UpdateItemInput)
      modifies this
      ensures input == newInput
      ensures addItems == old(addItems) && setItems == old(setItems)
      ensures removeItems == old(removeItems) && deleteItems == old(deleteItems)
    {
      input := newInput;
    }

    method Add(attr: string, value: AttributeValue)
      modifies this
      ensures addItems == old(addItems) + [(attr, value)]
      ensures setItems == old(setItems) && removeItems == old(removeItems) && deleteItems == old(deleteItems)
      ensures input == old(input)
    {
      addItems := addItems + [(attr, value)];
    }

    method Set(attr: string, value: AttributeValue)
      modifies this
      ensures setItems == old(setItems) + [(attr, value)]
      ensures addItems == old(addItems) && removeItems == old(removeItems) && deleteItems == old(deleteItems)
      ensures input == old(input)
    {
      setItems := setItems + [(attr, value)];
    }

    method Remove(attr: string)
      modifies this
      ensures removeItems == old(removeItems) + [attr]
      ensures addItems == old(addItems) && setItems == old(setItems) && deleteItems == old(deleteItems)
      ensures input == old(input)
    {
      removeItems := removeItems + [attr];
    }

    method Delete(attr: string, value: AttributeValue)
      modifies this
      ensures deleteItems == old(deleteItems) + [(attr, value)]
      ensures addItems == old(addItems) && setItems == old(setItems) && removeItems == old(removeItems)
      ensures input == old(input)
    {
      deleteItems := deleteItems + [(attr, value)];
    }

    /** Inserts or overwrites the sort-key entry of the key map only. */
    method SortKey(key: AttributeValue)
      modifies this
      ensures input == old(input).(key := old(input).key[sortKey := key])
      ensures addItems == old(addItems) && setItems == old(setItems)
      ensures removeItems == old(removeItems) && deleteItems == old(deleteItems)
    {
      input := input.(key := input.key[sortKey := key]);
    }

    /** Drains the four lists and compiles them. */
    method BuildExpression(counter: ValueIdCounter) returns (expression: string, names: map<string, string>,
                                                             values: map<string, AttributeValue>)
      modifies this, counter
      ensures Compiled(expression, names, values)
              == Compile(Pending(old(addItems), old(setItems), old(removeItems), old(deleteItems)), old(counter.next))
      ensures counter.next == old(counter.next) + Pending(old(addItems), old(setItems), old(removeItems), old(deleteItems)).Count()
      ensures addItems == [] && setItems == [] && removeItems == [] && deleteItems == []
      ensures input == old(input)
    {
      var pending := Pending(addItems, setItems, removeItems, deleteItems);
      addItems, setItems, removeItems, deleteItems := [], [], [], [];
      expression, names, values := CompileAll(pending, counter);
    }

    /** `run` as written: compiles, stores the two tables in the request and
        sends it; the store's answer is ignored. */
    method RunAsWritten(counter: ValueIdCounter) returns (sent: UpdateItemInput)
      modifies this, counter
      ensures sent == SentAsWritten(old(input), Pending(old(addItems), old(setItems), old(removeItems), old(deleteItems)),
                                    old(counter.next))
      ensures input == sent
      ensures counter.next == old(counter.next) + Pending(old(addItems), old(setItems), old(removeItems), old(deleteItems)).Count()
      ensures addItems == [] && setItems == [] && removeItems == [] && deleteItems == []
    {
      var expression, names, values := BuildExpression(counter);
      input := input.(expressionAttributeNames := Some(names), expressionAttributeValues := Some(values));
      sent := input;
    }

    /** `run` corrected: the compiled expression is stored too. */
    method Run(counter: ValueIdCounter) returns (sent: UpdateItemInput)
      modifies this, counter
      ensures sent == Sent(old(input), Pending(old(addItems), old(setItems), old(removeItems), old(deleteItems)),
                           old(counter.next))
      ensures input == sent
      ensures counter.next == old(counter.next) + Pending(old(addItems), old(setItems), old(removeItems), old(deleteItems)).Count()
      ensures addItems == [] && setItems == [] && removeItems == [] && deleteItems == []
    {
      var expression, names, values := BuildExpression(counter);
      input := input.(updateExpression := Some(expression), expressionAttributeNames := Some(names),
                      expressionAttributeValues := Some(values));
      sent := input;
    }
  }
}
