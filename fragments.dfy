/**
 * The SQL fragments the builders render from a list of properties: the select
 * list, the update SET list, the insert column and value lists, the id
 * predicates of Get and Delete by id, and the WHERE predicates. Each is a list
 * of items joined by a separator; `names` stands for the ColumnNames cache.
 */
module Fragments {
  import opened Wrappers
  import opened Text
  import opened Metadata
  import opened Classifier
  import opened Dialects
  import opened Naming
  import opened Memo

  /** Which fragment is being rendered, with what it depends on. */
  datatype Layout =
    | SelectList(quote: Quote)                                   // BuildSelect
    | SetList                                                    // BuildUpdateSet
    | ColumnList                                                 // BuildInsertParameters
    | ValueList                                                  // BuildInsertValues
    | IdPredicates                                               // Get and Delete by id
    | Conditions(source: seq<Field>, conditions: Option<Record>)  // BuildWhere

  /** The text appended after each item, and removed once after the last. */
  function Sep(l: Layout): string
  {
    match l
    case SelectList(_) => ","
    case SetList => ", "
    case ColumnList => ", "
    case ValueList => ", "
    case IdPredicates => " and"
    case Conditions(_, _) => " and "
  }

  /** Does the loop emit an item for `f`? */
  predicate Emits(l: Layout, f: Field)
  {
    match l
    case SelectList(_) => !f.ignoreSelect && !f.notMapped
    case ColumnList => !InsertSkipped(f)
    case ValueList => !InsertSkipped(f)
    case _ => true
  }

  /** The properties the loop emits items for, in order. */
  function Emitted(l: Layout, fs: seq<Field>): (r: seq<Field>)
    ensures |r| <= |fs|
  {
    if |fs| == 0 then [] else (if Emits(l, fs[0]) then [fs[0]] else []) + Emitted(l, fs[1..])
  }

  lemma {:induction false} EmittedSnoc(l: Layout, fs: seq<Field>, f: Field)
    ensures Emitted(l, fs + [f]) == Emitted(l, fs) + (if Emits(l, f) then [f] else [])
    decreases |fs|
  {
    if |fs| == 0 {
      assert fs + [f] == [f];
    } else {
      assert (fs + [f])[0] == fs[0];
      assert (fs + [f])[1..] == fs[1..] + [f];
      EmittedSnoc(l, fs[1..], f);
    }
  }

  /** The insert lists emit exactly the insertable properties. */
  lemma {:induction false} EmittedInsertFields(l: Layout, fs: seq<Field>)
    requires l == ColumnList || l == ValueList
    ensures Emitted(l, fs) == InsertFields(fs)
    decreases |fs|
  {
    if |fs| > 0 {
      EmittedInsertFields(l, fs[1..]);
    }
  }

  /** Does the loop emit every property? All layouts but the select list and the insert lists. */
  predicate EmitsAll(l: Layout)
  {
    l.SetList? || l.IdPredicates? || l.Conditions?
  }

  lemma {:induction false} EmittedEvery(l: Layout, fs: seq<Field>)
    requires EmitsAll(l)
    ensures Emitted(l, fs) == fs
    decreases |fs|
  {
    if |fs| > 0 {
      EmittedEvery(l, fs[1..]);
    }
  }

  /** The loop emits exactly the properties it does not skip. */
  lemma {:induction false} EmittedMembers(l: Layout, fs: seq<Field>)
    ensures forall f :: f in Emitted(l, fs) <==> f in fs && Emits(l, f)
    decreases |fs|
  {
    if |fs| > 0 {
      EmittedMembers(l, fs[1..]);
      assert fs == [fs[0]] + fs[1..];
    }
  }

  /** The first property of `source` called `name`: the inner search loop of BuildWhere. */
  function MatchByName(source: seq<Field>, name: string): (r: Option<Field>)
    ensures r.Some? ==> r.value in source && r.value.name == name
    ensures r.None? <==> forall g | g in source :: g.name != name
  {
    if |source| == 0 then None
    else if source[0].name == name then Some(source[0])
    else MatchByName(source[1..], name)
  }

  /** The match is the first property with that name, as the search loop breaks at the first hit. */
  lemma {:induction false} MatchByNameIsFirst(source: seq<Field>, name: string, i: int)
    requires 0 <= i < |source| && source[i].name == name
    requires forall j | 0 <= j < i :: source[j].name != name
    ensures MatchByName(source, name) == Some(source[i])
    decreases i
  {
    if i > 0 {
      MatchByNameIsFirst(source[1..], name, i - 1);
    }
  }

  /** propertyToUse: for WHERE predicates, the model property of the same name if there is one. */
  function Target(l: Layout, f: Field): (r: Field)
    ensures r.name == f.name
  {
    if l.Conditions? && MatchByName(l.source, f.name).Some? then MatchByName(l.source, f.name).value else f
  }

  /** Only the insert value list is rendered without column names. */
  predicate UsesColumn(l: Layout)
  {
    !l.ValueList?
  }

  /**
   * useIsNull: an object was supplied, the name matches a model property and the
   * object's value of that property is null or DBNull.
   */
  predicate IsNullTest(l: Layout, f: Field)
  {
    && l.Conditions? && l.conditions.Some? && MatchByName(l.source, f.name).Some?
    && (ValueOf(l.conditions.value.values, f.name).Null? || ValueOf(l.conditions.value.values, f.name).DbNull?)
  }

  /** One item, given the column name of the property it is rendered for. */
  function Item(l: Layout, f: Field, col: string): string
  {
    match l
    case SelectList(q) => if f.column.Some? then col + " as " + Encapsulate(q, f.name) else col
    case SetList => col + " = @" + f.name
    case ColumnList => col
    case ValueList => "@" + f.name
    case IdPredicates => col + " = @" + f.name
    case Conditions(_, _) => if IsNullTest(l, f) then col + " is null" else col + " = @" + f.name
  }

  /** Every property the loop looks a column name up for has one in `names`. */
  predicate Named(l: Layout, fs: seq<Field>, names: map<string, string>)
  {
    UsesColumn(l) ==> forall f | f in fs :: ColumnKey(Target(l, f)) in names
  }

  function ItemOf(l: Layout, f: Field, names: map<string, string>): string
    requires Named(l, [f], names)
  {
    Item(l, f, if UsesColumn(l) then names[ColumnKey(Target(l, f))] else "")
  }

  function Items(l: Layout, fs: seq<Field>, names: map<string, string>): (r: seq<string>)
    requires Named(l, fs, names)
    ensures |r| == |fs|
    ensures forall i | 0 <= i < |fs| :: Named(l, [fs[i]], names) && r[i] == ItemOf(l, fs[i], names)
  {
    if |fs| == 0 then []
    else
      assert Named(l, [fs[0]], names) && Named(l, fs[1..], names);
      [ItemOf(l, fs[0], names)] + Items(l, fs[1..], names)
  }

  /** The fragment a builder loop leaves: the emitted items joined by the separator. */
  function Fragment(l: Layout, fs: seq<Field>, names: map<string, string>): string
    requires Named(l, Emitted(l, fs), names)
  {
    Join(Items(l, Emitted(l, fs), names), Sep(l))
  }

  /** Appending a property appends its item. */
  lemma ItemsSnoc(l: Layout, fs: seq<Field>, f: Field, names: map<string, string>)
    requires Named(l, fs + [f], names)
    ensures Named(l, fs, names) && Named(l, [f], names)
    ensures Items(l, fs + [f], names) == Items(l, fs, names) + [ItemOf(l, f, names)]
  {
    assert forall g | g in fs :: g in fs + [f];
    assert f in fs + [f];
    var a, b := Items(l, fs + [f], names), Items(l, fs, names) + [ItemOf(l, f, names)];
    forall i | 0 <= i < |a| ensures a[i] == b[i] {
      if i < |fs| {
        assert (fs + [f])[i] == fs[i];
      } else {
        assert (fs + [f])[i] == f;
      }
    }
  }

  /** Items only read the cache entries of their own properties, which later lookups never change. */
  lemma ItemsFrame(l: Layout, fs: seq<Field>, before: map<string, string>, after: map<string, string>)
    requires Named(l, fs, before) && Extends(before, after)
    ensures Named(l, fs, after)
    ensures Items(l, fs, before) == Items(l, fs, after)
  {
    var a := Items(l, fs, before);
    var b := Items(l, fs, after);
    forall i | 0 <= i < |fs| ensures a[i] == b[i] {
      ItemOfFrame(l, fs[i], before, after);
    }
  }

  /** The item of one property reads only its own column name. */
  lemma ItemOfFrame(l: Layout, f: Field, before: map<string, string>, after: map<string, string>)
    requires Named(l, [f], before) && Extends(before, after)
    ensures Named(l, [f], after) && ItemOf(l, f, before) == ItemOf(l, f, after)
  {
    if UsesColumn(l) {
      assert f in [f];
    }
  }

  /** One iteration of an append loop: the item of `f`, with its column name just looked up, and the separator. */
  lemma AppendStep(l: Layout, emitted: seq<Field>, f: Field, before: map<string, string>,
                   after: map<string, string>, col: string)
    requires Named(l, emitted, before) && Extends(before, after)
    requires UsesColumn(l) ==> ColumnKey(Target(l, f)) in after && col == after[ColumnKey(Target(l, f))]
    requires !UsesColumn(l) ==> col == ""
    ensures Named(l, emitted + [f], after)
    ensures Appended(Items(l, emitted + [f], after), Sep(l))
         == Appended(Items(l, emitted, before), Sep(l)) + (Item(l, f, col) + Sep(l))
  {
    ItemsFrame(l, emitted, before, after);
    assert Named(l, emitted + [f], after);
    ItemsSnoc(l, emitted, f, after);
    AppendedSnoc(Items(l, emitted, after), ItemOf(l, f, after), Sep(l));
  }

  /** After the loop: removing the last separator, when there is one, leaves the fragment. */
  lemma FinishAppend(l: Layout, fs: seq<Field>, names: map<string, string>)
    requires Named(l, Emitted(l, fs), names)
    ensures var a := Appended(Items(l, Emitted(l, fs), names), Sep(l));
      && (|Emitted(l, fs)| != 0 ==> |a| >= |Sep(l)| && a[..|a| - |Sep(l)|] == Fragment(l, fs, names))
      && (|Emitted(l, fs)| == 0 ==> a == Fragment(l, fs, names))
  {
    if |Emitted(l, fs)| != 0 {
      TrimmedAppendedIsJoin(Items(l, Emitted(l, fs), names), Sep(l));
    }
  }

  /**
   * BuildSelect renders one item per property without IgnoreSelect or NotMapped:
   * its column, followed by " as " and the quoted property name when the column
   * is renamed; the items are joined by ",".
   */
  lemma SelectListFragment(q: Quote, props: seq<Field>, names: map<string, string>)
    requires Named(SelectList(q), Emitted(SelectList(q), props), names)
    ensures forall f :: f in Emitted(SelectList(q), props) <==> f in props && !f.ignoreSelect && !f.notMapped
    ensures Fragment(SelectList(q), props, names) == Join(Items(SelectList(q), Emitted(SelectList(q), props), names), ",")
    ensures var e := Emitted(SelectList(q), props);
      forall k | 0 <= k < |e| ::
        Items(SelectList(q), e, names)[k]
          == names[ColumnKey(e[k])] + (if e[k].column.Some? then " as " + Encapsulate(q, e[k].name) else "")
  {
    EmittedMembers(SelectList(q), props);
  }

  /** The SET list: "col = @name" for every updateable property, joined by ", ". */
  lemma UpdateSetFragment(props: seq<Field>, names: map<string, string>)
    requires Named(SetList, props, names)
    ensures Emitted(SetList, props) == props
    ensures Fragment(SetList, props, names) == Join(Items(SetList, props, names), ", ")
    ensures forall k | 0 <= k < |props| :: Items(SetList, props, names)[k] == names[ColumnKey(props[k])] + " = @" + props[k].name
  {
    EmittedEvery(SetList, props);
  }

  /** The id predicates of Get and Delete by id: "col = @name" for every identity property, joined by " and". */
  lemma IdPredicatesFragment(ids: seq<Field>, names: map<string, string>)
    requires Named(IdPredicates, ids, names)
    ensures Emitted(IdPredicates, ids) == ids
    ensures Fragment(IdPredicates, ids, names) == Join(Items(IdPredicates, ids, names), " and")
    ensures forall k | 0 <= k < |ids| :: Items(IdPredicates, ids, names)[k] == names[ColumnKey(ids[k])] + " = @" + ids[k].name
  {
    EmittedEvery(IdPredicates, ids);
  }

  /**
   * The insert column list and the insert value list emit the same properties,
   * so the k-th column is the column of the property whose @Name is the k-th value.
   */
  lemma InsertListsCorrespond(scaffoldable: seq<Field>, names: map<string, string>)
    requires Named(ColumnList, Emitted(ColumnList, scaffoldable), names)
    ensures Emitted(ColumnList, scaffoldable) == InsertFields(scaffoldable)
    ensures Emitted(ValueList, scaffoldable) == InsertFields(scaffoldable)
    ensures var e := InsertFields(scaffoldable);
      var cols := Items(ColumnList, e, names);
      var vals := Items(ValueList, e, names);
      && |cols| == |vals| == |e|
      && forall k | 0 <= k < |e| :: cols[k] == names[ColumnKey(e[k])] && vals[k] == "@" + e[k].name
  {
    EmittedInsertFields(ColumnList, scaffoldable);
    EmittedInsertFields(ValueList, scaffoldable);
  }

  /**
   * A WHERE predicate is rendered against the model property of the same name
   * when there is one: "col is null" exactly when an object was supplied, the
   * name matches and the value is null or DBNull; "col = @name" otherwise.
   */
  lemma ConditionItem(source: seq<Field>, conditions: Option<Record>, f: Field, names: map<string, string>)
    requires Named(Conditions(source, conditions), [f], names)
    ensures var l := Conditions(source, conditions);
      var col := names[ColumnKey(Target(l, f))];
      var item := ItemOf(l, f, names);
      && (MatchByName(source, f.name).Some? ==> Target(l, f) == MatchByName(source, f.name).value)
      && (MatchByName(source, f.name).None? ==> Target(l, f) == f)
      && (item == col + " is null" <==>
            conditions.Some? && MatchByName(source, f.name).Some?
            && (ValueOf(conditions.value.values, f.name).Null? || ValueOf(conditions.value.values, f.name).DbNull?))
      && (!IsNullTest(l, f) ==> item == col + " = @" + f.name)
  {
    var l := Conditions(source, conditions);
    var col := names[ColumnKey(Target(l, f))];
    if !IsNullTest(l, f) {
      assert ItemOf(l, f, names) == col + " = @" + f.name;
      assert (col + " = @" + f.name)[|col| + 1] == '=';
      assert (col + " is null")[|col| + 1] == 'i';
    }
  }

  /** BuildWhere renders one predicate per given property, joined by " and " with no trailing separator. */
  lemma ConditionFragment(source: seq<Field>, conditions: Option<Record>, props: seq<Field>, names: map<string, string>)
    requires Named(Conditions(source, conditions), props, names)
    ensures Emitted(Conditions(source, conditions), props) == props
    ensures Fragment(Conditions(source, conditions), props, names) == Join(Items(Conditions(source, conditions), props, names), " and ")
  {
    EmittedEvery(Conditions(source, conditions), props);
  }

  /** Without an object no predicate tests for null: every item is "col = @name". */
  lemma NoNullTestWithoutObject(source: seq<Field>, props: seq<Field>, names: map<string, string>)
    requires Named(Conditions(source, None), props, names)
    ensures var l := Conditions(source, None);
      forall k | 0 <= k < |props| ::
        Items(l, props, names)[k] == names[ColumnKey(Target(l, props[k]))] + " = @" + props[k].name
  {
  }

  /**
   * BuildInsertParameters and BuildInsertValues as written: the trailing ", " is
   * removed whenever the scaffoldable list is non-empty, even when every
   * property was skipped and the builder is empty (StringBuilder.Remove(-2, 2)).
   */
  function InsertListAsWritten(l: Layout, scaffoldable: seq<Field>, names: map<string, string>): (r: Result<string>)
    requires l == ColumnList || l == ValueList
    requires Named(l, Emitted(l, scaffoldable), names)
  {
    var sb := Appended(Items(l, Emitted(l, scaffoldable), names), ", ");
    if |scaffoldable| != 0 then
      if |sb| - 2 < 0 then Err(TrimOutOfRange) else Ok(sb[..|sb| - 2])
    else Ok(sb)
  }

  /**
   * The as-written trim fails exactly when there are scaffoldable properties but
   * none is inserted; otherwise it produces the joined list, which is what the
   * corrected trim (conditioned on the number of emitted items) always produces.
   */
  lemma InsertTrimAsWritten(l: Layout, scaffoldable: seq<Field>, names: map<string, string>)
    requires l == ColumnList || l == ValueList
    requires Named(l, Emitted(l, scaffoldable), names)
    ensures InsertListAsWritten(l, scaffoldable, names).Err? <==> scaffoldable != [] && Emitted(l, scaffoldable) == []
    ensures InsertListAsWritten(l, scaffoldable, names).Ok? ==>
      InsertListAsWritten(l, scaffoldable, names).value == Fragment(l, scaffoldable, names)
  {
    var items := Items(l, Emitted(l, scaffoldable), names);
    if |items| > 0 {
      TrimmedAppendedIsJoin(items, ", ");
    } else if scaffoldable != [] {
      assert Appended(items, ", ") == "";
    }
  }

  /** A model whose only scaffoldable property is an identity "Id": the as-written insert list fails. */
  lemma InsertTrimFailsForIdOnlyModel()
    ensures var id := Field("Id", "Demo.Counter", Int, false, false, None, None, false, false, false, false, None, true);
      && Scaffoldable([id]) == [id]
      && InsertListAsWritten(ValueList, [id], map[]) == Err(TrimOutOfRange)
      && Fragment(ValueList, [id], map[]) == ""
  {
    var id := Field("Id", "Demo.Counter", Int, false, false, None, None, false, false, false, false, None, true);
    assert IsSimpleType(Int);
    assert InsertSkipped(id);
    assert Emitted(ValueList, [id]) == [];
  }

  /**
   * BuildWhere as written reads the property's value (line 815) before testing
   * whether an object was supplied: without an object, a property that matches
   * a model property is read from a null target, which throws.
   */
  function ConditionItemAsWritten(source: seq<Field>, conditions: Option<Record>, f: Field, names: map<string, string>): (r: Result<string>)
    requires Named(Conditions(source, conditions), [f], names)
  {
    if MatchByName(source, f.name).Some? && conditions.None? then Err(NullTarget)
    else Ok(ItemOf(Conditions(source, conditions), f, names))
  }

  /**
   * DeleteList and RecordCount with a conditions object pass no object to
   * BuildWhere, so as written every condition on a model property fails; the
   * corrected rule renders "col = @name" for it.
   */
  lemma ConditionsWithoutObjectAsWritten(source: seq<Field>, f: Field, names: map<string, string>)
    requires Named(Conditions(source, None), [f], names)
    requires exists g | g in source :: g.name == f.name
    ensures ConditionItemAsWritten(source, None, f, names) == Err(NullTarget)
    ensures ItemOf(Conditions(source, None), f, names) == names[ColumnKey(Target(Conditions(source, None), f))] + " = @" + f.name
  {
  }

  /**
   * A NamedStringCache entry after AppendToStringBuilderCachedOrFuncValue: on a
   * hit the stored text is kept; on a miss it is the rendered fragment.
   */
  predicate CachedFragment(before: map<string, string>, after: map<string, string>, names: map<string, string>,
                           key: string, l: Layout, fs: seq<Field>)
  {
    && key in after
    && (key in before ==> after[key] == before[key])
    && (key !in before ==> Named(l, Emitted(l, fs), names) && after[key] == Fragment(l, fs, names))
  }

  /** Later calls only add cache entries, so a cached fragment stays what it was. */
  lemma CachedFragmentGrows(before: map<string, string>, mid: map<string, string>, names: map<string, string>,
                            after: map<string, string>, laterNames: map<string, string>,
                            key: string, l: Layout, fs: seq<Field>)
    requires CachedFragment(before, mid, names, key, l, fs)
    requires Extends(mid, after) && Extends(names, laterNames)
    ensures CachedFragment(before, after, laterNames, key, l, fs)
  {
    if key !in before {
      ItemsFrame(l, Emitted(l, fs), names, laterNames);
    }
  }

  /** The parameter names "@Name" of the given properties. */
  function ParameterNames(ids: seq<Field>): (r: set<string>)
    ensures forall j | 0 <= j < |ids| :: "@" + ids[j].name in r
  {
    if |ids| == 0 then {} else ParameterNames(ids[..|ids| - 1]) + {"@" + ids[|ids| - 1].name}
  }

  /** Can the id be bound? One identity property takes the id itself; several need an object having each of them. */
  predicate IdBindable(ids: seq<Field>, id: Value)
  {
    |ids| <= 1 || (id.Composite? && forall j | 0 <= j < |ids| :: HasProperty(id.r.runtimeType, ids[j].name))
  }

  /**
   * The parameters bound for Get and Delete by id: exactly the "@Name" of each
   * identity property; with one the id itself, with several the id object's
   * property of that name.
   */
  predicate BindsIds(ids: seq<Field>, id: Value, parms: map<string, Value>)
  {
    && parms.Keys == ParameterNames(ids)
    && (|ids| == 1 ==> "@" + ids[0].name in parms && parms["@" + ids[0].name] == id)
    && (|ids| > 1 ==>
          id.Composite? && forall j | 0 <= j < |ids| ::
            "@" + ids[j].name in parms && parms["@" + ids[j].name] == ValueOf(id.r.values, ids[j].name))
  }

  /** The parameters the loop of Get and Delete by id has bound after the properties `ids` of the id object. */
  function IdObjectParameters(obj: Record, ids: seq<Field>): map<string, Value>
  {
    if |ids| == 0 then map[]
    else IdObjectParameters(obj, ids[..|ids| - 1])["@" + ids[|ids| - 1].name := ValueOf(obj.values, ids[|ids| - 1].name)]
  }

  /** The id object's parameters are exactly the "@Name" of each property, bound to its value. */
  lemma {:induction false} IdObjectParametersBind(obj: Record, ids: seq<Field>)
    ensures IdObjectParameters(obj, ids).Keys == ParameterNames(ids)
    ensures forall j | 0 <= j < |ids| ::
      "@" + ids[j].name in IdObjectParameters(obj, ids)
      && IdObjectParameters(obj, ids)["@" + ids[j].name] == ValueOf(obj.values, ids[j].name)
    decreases |ids|
  {
    if |ids| > 0 {
      var init, last := ids[..|ids| - 1], ids[|ids| - 1];
      IdObjectParametersBind(obj, init);
      forall j | 0 <= j < |init| && "@" + init[j].name == "@" + last.name
        ensures init[j].name == last.name
      {
        assert ("@" + init[j].name)[1..] == init[j].name;
        assert ("@" + last.name)[1..] == last.name;
      }
      forall j | 0 <= j < |ids|
        ensures "@" + ids[j].name in IdObjectParameters(obj, ids)
        ensures IdObjectParameters(obj, ids)["@" + ids[j].name] == ValueOf(obj.values, ids[j].name)
      {
        if j < |init| {
          assert ids[j] == init[j];
        }
      }
    }
  }

  /**
   * The parameters of Get and Delete by id: a missing property, or an id that
   * is not an object when several are needed, fails with a null reference.
   */
  method BindIdParameters(ids: seq<Field>, id: Value) returns (r: Result<map<string, Value>>)
    ensures r.Ok? <==> IdBindable(ids, id)
    ensures r.Err? ==> r.error == NullReference
    ensures r.Ok? ==> BindsIds(ids, id, r.value)
  {
    if |ids| == 1 {
      return Ok(map["@" + ids[0].name := id]);
    } else if |ids| == 0 {
      return Ok(map[]);
    } else if !id.Composite? {
      return Err(NullReference);
    }
    var obj := id.r;
    var parms: map<string, Value> := map[];
    var i := 0;
    while i < |ids|
      invariant 0 <= i <= |ids|
      invariant forall j | 0 <= j < i :: HasProperty(obj.runtimeType, ids[j].name)
      invariant parms == IdObjectParameters(obj, ids[..i])
    {
      var prop := ids[i];
      if !HasProperty(obj.runtimeType, prop.name) {
        return Err(NullReference);
      }
      parms := parms["@" + prop.name := ValueOf(obj.values, prop.name)];
      assert ids[..i + 1][..i] == ids[..i];
      i := i + 1;
    }
    assert ids[..i] == ids;
    IdObjectParametersBind(obj, ids);
    return Ok(parms);
  }
}
