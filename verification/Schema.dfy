/**
 * Checking and normalizing values against a JSON schema (_type_ok, _check, _normalize, validate_arguments and
 * validate_result of easy_mcp/schema.py).  Floats are reals, or not finite.
 */
module Schemas {
  import opened Wrappers

  datatype Scalar = Null | Bool(b: bool) | Int(i: int) | Float(x: real) | NaN | Infinite(positive: bool) |
      Str(s: string)

  /** A dict's key need not be a string. */
  datatype Key = Name(name: string) | NotAString(id: nat)

  datatype Entry = Entry(key: Key, value: Value)

  /** A dict keeps its entries in order; Foreign is whatever else a tool returns. */
  datatype Value = Scalar(of: Scalar) | Array(items: seq<Value>) | Object(entries: seq<Entry>) | Foreign(id: nat)

  datatype Type = BooleanType | IntegerType | NumberType | StringType | NullType | UnknownType

  datatype Additional = Allowed | Forbidden | Each(schema: Schema)

  datatype Property = Property(name: string, schema: Schema)

  datatype Schema =
    | Anything
    | Enum(allowed: seq<Scalar>)
    | AnyOf(options: seq<Schema>)
    | Of(expected: Type)
    | ArrayOf(items: Option<Schema>)
    | ObjectOf(properties: seq<Property>, required: seq<string>, additional: Additional)

  datatype Step = Item(index: nat) | Field(key: Key)
  datatype Problem = NotAllowed | NoOption | WrongType | NotAnArray | NotAnObject | Missing(name: string) |
      KeyNotAString | Unexpected
  datatype Error = Error(path: seq<Step>, problem: Problem)

  // ----------------------------------------------------------------- checking

  predicate IsInteger(x: real) {
    x == x.Floor as real
  }

  /** _type_ok; a bool is no number, a float without a fraction is an integer. */
  predicate TypeOk(value: Value, expected: Type) {
    value.Scalar? &&
    match expected
    case BooleanType => value.of.Bool?
    case IntegerType => value.of.Int? || (value.of.Float? && IsInteger(value.of.x))
    case NumberType => value.of.Int? || value.of.Float? || value.of.NaN? || value.of.Infinite?
    case StringType => value.of.Str?
    case NullType => value.of.Null?
    case UnknownType => false
  }

  /** The same type and equal; NaN equals nothing. */
  predicate IsAllowed(value: Value, allowed: seq<Scalar>) {
    value.Scalar? && !value.of.NaN? && value.of in allowed
  }

  function Lookup(properties: seq<Property>, key: Key): (r: Option<Schema>)
    ensures r.Some? ==> key.Name? && exists k :: 0 <= k < |properties| && properties[k] == Property(key.name, r.value)
    ensures r.None? ==> forall k :: 0 <= k < |properties| ==> key != Name(properties[k].name)
  {
    if properties == [] then None
    else if key == Name(properties[0].name) then Some(properties[0].schema)
    else
      var r := Lookup(properties[1..], key);
      assert r.Some? ==> exists k ::
          0 <= k < |properties[1..]| && properties[1..][k] == Property(key.name, r.value) &&
          properties[k + 1] == properties[1..][k];
      r
  }

  predicate Has(entries: seq<Entry>, key: Key) {
    exists k :: 0 <= k < |entries| && entries[k].key == key
  }

  function MissingFrom(entries: seq<Entry>, required: seq<string>, path: seq<Step>): seq<Error> {
    if required == [] then []
    else
      (if Has(entries, Name(required[0])) then [] else [Error(path, Missing(required[0]))])
      + MissingFrom(entries, required[1..], path)
  }

  /** _check: every violation, in the order it is found. */
  function Check(value: Value, schema: Schema, path: seq<Step>): seq<Error>
    decreases schema, 3, 0
  {
    match schema
    case Anything => []
    case Enum(allowed) => if IsAllowed(value, allowed) then [] else [Error(path, NotAllowed)]
    case AnyOf(options) => if FirstOption(value, schema, options, path).Some? then [] else [Error(path, NoOption)]
    case Of(expected) => if TypeOk(value, expected) then [] else [Error(path, WrongType)]
    case ArrayOf(items) =>
      if !value.Array? then [Error(path, NotAnArray)]
      else if items.None? then []
      else CheckItems(value.items, schema, path)
    case ObjectOf(_, required, _) =>
      if !value.Object? then [Error(path, NotAnObject)]
      else MissingFrom(value.entries, required, path) + CheckEntries(value.entries, schema, path)
  }

  /** The first of the options the value has no error against. */
  function FirstOption(value: Value, schema: Schema, options: seq<Schema>, path: seq<Step>): (r: Option<nat>)
    requires schema.AnyOf? && |options| <= |schema.options| && options == schema.options[|schema.options| - |options|..]
    ensures r.Some? ==> r.value < |options|
    decreases schema, 2, |options|
  {
    if options == [] then None
    else if assert options[0] == schema.options[|schema.options| - |options|];
        Check(value, options[0], path) == [] then Some(0)
    else match FirstOption(value, schema, options[1..], path)
      case None => None
      case Some(k) => Some(k + 1)
  }

  function CheckItems(items: seq<Value>, schema: Schema, path: seq<Step>): seq<Error>
    requires schema.ArrayOf? && schema.items.Some?
    decreases schema, 2, |items|
  {
    if items == [] then []
    else
      CheckItems(items[..|items| - 1], schema, path)
      + Check(items[|items| - 1], schema.items.value, path + [Item(|items| - 1)])
  }

  function CheckEntry(entry: Entry, schema: Schema, path: seq<Step>): seq<Error>
    requires schema.ObjectOf?
    decreases schema, 1, 0
  {
    if !entry.key.Name? then [Error(path, KeyNotAString)]
    else match Lookup(schema.properties, entry.key)
      case Some(known) => Check(entry.value, known, path + [Field(entry.key)])
      case None =>
        if schema.additional.Forbidden? then [Error(path + [Field(entry.key)], Unexpected)]
        else if schema.additional.Each? then Check(entry.value, schema.additional.schema, path + [Field(entry.key)])
        else []
  }

  function CheckEntries(entries: seq<Entry>, schema: Schema, path: seq<Step>): seq<Error>
    requires schema.ObjectOf?
    decreases schema, 2, |entries|
  {
    if entries == [] then []
        else CheckEntries(entries[..|entries| - 1], schema, path) + CheckEntry(entries[|entries| - 1], schema, path)
  }

  // ------------------------------------------------------------- what it means

  /** What a schema says, without how it is checked. */
  predicate Valid(value: Value, schema: Schema)
    decreases schema, 1
  {
    match schema
    case Anything => true
    case Enum(allowed) => IsAllowed(value, allowed)
    case AnyOf(options) => exists k :: 0 <= k < |options| && Valid(value, options[k])
    case Of(expected) => TypeOk(value, expected)
    case ArrayOf(items) => value.Array? &&
        (items.Some? ==> forall k :: 0 <= k < |value.items| ==> Valid(value.items[k], items.value))
    case ObjectOf(_, required, _) =>
      && value.Object?
      && (forall name :: name in required ==> Has(value.entries, Name(name)))
      && (forall k :: 0 <= k < |value.entries| ==> ValidEntry(value.entries[k], schema))
  }

  predicate ValidEntry(entry: Entry, schema: Schema)
    requires schema.ObjectOf?
    decreases schema, 0
  {
    && entry.key.Name?
    && match Lookup(schema.properties, entry.key)
       case Some(known) => Valid(entry.value, known)
       case None =>
         !schema.additional.Forbidden? && (schema.additional.Each? ==> Valid(entry.value, schema.additional.schema))
  }

  lemma {:induction false} MissingMeaning(entries: seq<Entry>, required: seq<string>, path: seq<Step>)
    ensures MissingFrom(entries, required, path) == [] <==> forall name :: name in required ==> Has(entries, Name(name))
  {
    if required != [] {
      MissingMeaning(entries, required[1..], path);
      assert forall name :: name in required <==> name == required[0] || name in required[1..];
    }
  }

  /** A value has no violation exactly when it satisfies the schema. */
  lemma {:induction false} CheckMeaning(value: Value, schema: Schema, path: seq<Step>)
    ensures Check(value, schema, path) == [] <==> Valid(value, schema)
    decreases schema, 3, 0
  {
    match schema
    case AnyOf(options) => FirstMeaning(value, schema, options, path);
    case ArrayOf(items) => if value.Array? && items.Some? { ItemsMeaning(value.items, schema, path); }
    case ObjectOf(_, required, _) =>
      if value.Object? {
        MissingMeaning(value.entries, required, path);
        EntriesMeaning(value.entries, schema, path);
      }
    case _ =>
  }

  /** The option found is the first the value satisfies. */
  lemma {:induction false} FirstMeaning(value: Value, schema: Schema, options: seq<Schema>, path: seq<Step>)
    requires schema.AnyOf? && |options| <= |schema.options| && options == schema.options[|schema.options| - |options|..]
    ensures var first := FirstOption(value, schema, options, path);
      match first case Some(k) => Valid(value, options[k]) && (forall j :: 0 <= j < k ==> !Valid(value, options[j]))
                  case None => forall j :: 0 <= j < |options| ==> !Valid(value, options[j])
    decreases schema, 2, |options|
  {
    if options != [] {
      assert options[0] == schema.options[|schema.options| - |options|];
      CheckMeaning(value, options[0], path);
      FirstMeaning(value, schema, options[1..], path);
      assert forall j :: 1 <= j < |options| ==> options[j] == options[1..][j - 1];
    }
  }

  lemma {:induction false} ItemsMeaning(items: seq<Value>, schema: Schema, path: seq<Step>)
    requires schema.ArrayOf? && schema.items.Some?
    ensures CheckItems(items, schema, path) == [] <==>
      forall k :: 0 <= k < |items| ==> Valid(items[k], schema.items.value)
    decreases schema, 2, |items|
  {
    if items != [] {
      var last := |items| - 1;
      ItemsMeaning(items[..last], schema, path);
      CheckMeaning(items[last], schema.items.value, path + [Item(last)]);
    }
  }

  lemma {:induction false} EntryMeaning(entry: Entry, schema: Schema, path: seq<Step>)
    requires schema.ObjectOf?
    ensures CheckEntry(entry, schema, path) == [] <==> ValidEntry(entry, schema)
    decreases schema, 1, 0
  {
    if entry.key.Name? {
      match Lookup(schema.properties, entry.key)
      case Some(known) => CheckMeaning(entry.value, known, path + [Field(entry.key)]);
      case None => if schema.additional.Each? { CheckMeaning(entry.value, schema.additional.schema,
          path + [Field(entry.key)]); }
    }
  }

  lemma {:induction false} EntriesMeaning(entries: seq<Entry>, schema: Schema, path: seq<Step>)
    requires schema.ObjectOf?
    ensures CheckEntries(entries, schema, path) == [] <==>
      forall k :: 0 <= k < |entries| ==> ValidEntry(entries[k], schema)
    decreases schema, 2, |entries|
  {
    if entries != [] {
      var last := |entries| - 1;
      EntriesMeaning(entries[..last], schema, path);
      EntryMeaning(entries[last], schema, path);
    }
  }

  // ------------------------------------------------------- what is reported

  /** The types a scalar has: a bool is no number, and a number without a fraction is an integer however it is kept. */
  ghost predicate HasType(of: Scalar, expected: Type) {
    match of
    case Null => expected == NullType
    case Bool(_) => expected == BooleanType
    case Int(_) => expected in {IntegerType, NumberType}
    case Float(x) => expected == NumberType || (expected == IntegerType && Whole(x))
    case NaN => expected == NumberType
    case Infinite(_) => expected == NumberType
    case Str(_) => expected == StringType
  }

  ghost predicate Whole(x: real) {
    exists i: int :: Same(i, x)
  }

  ghost predicate Same(i: int, x: real) {
    i as real == x
  }

  /** What satisfies a type is a scalar that has it, and an enum takes exactly what it lists, but for NaN. */
  lemma WhatATypeTakes(value: Value, expected: Type, allowed: seq<Scalar>)
    ensures TypeOk(value, expected) <==> value.Scalar? && HasType(value.of, expected)
    ensures IsAllowed(value, allowed) <==>
      exists k :: 0 <= k < |allowed| && !allowed[k].NaN? && value == Scalar(allowed[k])
  {
    if value.Scalar? && value.of.Float? {
      var x := value.of.x;
      if IsInteger(x) { assert Same(x.Floor, x); }
      if Whole(x) {
        var i: int :| Same(i, x);
        assert x.Floor == i;
      }
    }
  }

  /** The value breaks the schema at the place the steps lead to, in that way. */
  predicate IsWrong(value: Value, schema: Schema, at: seq<Step>, problem: Problem)
    decreases |at|
  {
    if at == [] then
      match problem
      case NotAllowed => schema.Enum? && !Valid(value, schema)
      case NoOption => schema.AnyOf? && !Valid(value, schema)
      case WrongType => schema.Of? && !Valid(value, schema)
      case NotAnArray => schema.ArrayOf? && !value.Array?
      case NotAnObject => schema.ObjectOf? && !value.Object?
      case Missing(name) =>
        schema.ObjectOf? && value.Object? && name in schema.required && !Has(value.entries, Name(name))
      case KeyNotAString =>
        schema.ObjectOf? && value.Object? && exists k :: 0 <= k < |value.entries| && !value.entries[k].key.Name?
      case Unexpected => false
    else match at[0]
      case Item(index) =>
        && schema.ArrayOf? && schema.items.Some? && value.Array? && index < |value.items|
        && IsWrong(value.items[index], schema.items.value, at[1..], problem)
      case Field(key) =>
        && schema.ObjectOf? && value.Object?
        && exists k :: 0 <= k < |value.entries| && value.entries[k].key == key &&
             FieldIsWrong(value.entries[k], schema, at, problem)
  }

  /** So does the value of a field, or the field is one too many. */
  predicate FieldIsWrong(entry: Entry, schema: Schema, at: seq<Step>, problem: Problem)
    requires schema.ObjectOf? && at != []
    decreases |at|, 0
  {
    && entry.key.Name?
    && match Lookup(schema.properties, entry.key)
       case Some(known) => IsWrong(entry.value, known, at[1..], problem)
       case None =>
         match schema.additional
         case Allowed => false
         case Forbidden => |at| == 1 && problem.Unexpected?
         case Each(each) => IsWrong(entry.value, each, at[1..], problem)
  }

  lemma {:induction false} MissingExtends(entries: seq<Entry>, required: seq<string>, path: seq<Step>, e: Error)
    ensures e in MissingFrom(entries, required, path) <==>
      e.path == path && e.problem.Missing? && e.problem.name in required && !Has(entries, Name(e.problem.name))
  {
    if required != [] {
      MissingExtends(entries, required[1..], path, e);
      assert forall name :: name in required <==> name == required[0] || name in required[1..];
    }
  }

  /** Errors are found at the place looked at or below it. */
  lemma {:induction false} ErrorsExtend(value: Value, schema: Schema, path: seq<Step>, e: Error)
    requires e in Check(value, schema, path)
    ensures path <= e.path
    decreases schema, 3, 0
  {
    match schema
    case ArrayOf(items) => if value.Array? && items.Some? { ItemsExtend(value.items, schema, path, e); }
    case ObjectOf(_, required, _) =>
      if value.Object? {
        MissingExtends(value.entries, required, path, e);
        if e in CheckEntries(value.entries, schema, path) { EntriesExtend(value.entries, schema, path, e); }
      }
    case _ =>
  }

  lemma {:induction false} ItemsExtend(items: seq<Value>, schema: Schema, path: seq<Step>, e: Error)
    requires schema.ArrayOf? && schema.items.Some? && e in CheckItems(items, schema, path)
    ensures path < e.path && e.path[|path|].Item? && e.path[|path|].index < |items|
    decreases schema, 2, |items|
  {
    var last := |items| - 1;
    if e in CheckItems(items[..last], schema, path) { ItemsExtend(items[..last], schema, path, e); }
    else { ErrorsExtend(items[last], schema.items.value, path + [Item(last)], e); }
  }

  lemma {:induction false} EntryExtends(entry: Entry, schema: Schema, path: seq<Step>, e: Error)
    requires schema.ObjectOf? && e in CheckEntry(entry, schema, path)
    ensures if entry.key.Name? then path + [Field(entry.key)] <= e.path else e == Error(path, KeyNotAString)
    decreases schema, 1, 0
  {
    if entry.key.Name? {
      match Lookup(schema.properties, entry.key)
      case Some(known) => ErrorsExtend(entry.value, known, path + [Field(entry.key)], e);
      case None =>
        if schema.additional.Each? {
          ErrorsExtend(entry.value, schema.additional.schema, path + [Field(entry.key)], e);
        }
    }
  }

  lemma {:induction false} EntriesExtend(entries: seq<Entry>, schema: Schema, path: seq<Step>, e: Error)
    requires schema.ObjectOf? && e in CheckEntries(entries, schema, path)
    ensures path <= e.path && (e.path == path ==> e.problem.KeyNotAString?)
    decreases schema, 2, |entries|
  {
    var last := |entries| - 1;
    if e in CheckEntries(entries[..last], schema, path) { EntriesExtend(entries[..last], schema, path, e); }
    else { EntryExtends(entries[last], schema, path, e); }
  }

  /**
   * What is reported is exactly what is wrong: an error for every place where the value breaks the schema, with the
   * way that leads there and the way it is broken, and no other.  Below an anyOf nothing is told apart.
   */
  lemma {:induction false} ErrorsAre(value: Value, schema: Schema, path: seq<Step>, at: seq<Step>, problem: Problem)
    ensures Error(path + at, problem) in Check(value, schema, path) <==> IsWrong(value, schema, at, problem)
    decreases schema, 3, 0
  {
    var e := Error(path + at, problem);
    assert path + at == path <==> at == [] by { assert |path + at| == |path| + |at|; }
    match schema
    case Anything =>
    case Enum(_) => CheckMeaning(value, schema, path);
    case AnyOf(_) => CheckMeaning(value, schema, path);
    case Of(_) => CheckMeaning(value, schema, path);
    case ArrayOf(items) => if value.Array? && items.Some? { ItemsAre(value.items, schema, path, at, problem); }
    case ObjectOf(_, required, _) =>
      if value.Object? {
        MissingExtends(value.entries, required, path, e);
        EntriesAre(value.entries, schema, path, at, problem);
      }
  }

  lemma Below(path: seq<Step>, at: seq<Step>, step: Step)
    ensures path + [step] <= path + at ==> at != [] && at[0] == step
  {
    if path + [step] <= path + at { assert (path + at)[|path|] == (path + [step])[|path|]; }
  }

  lemma {:induction false} ItemsAre(items: seq<Value>, schema: Schema, path: seq<Step>, at: seq<Step>, problem: Problem)
    requires schema.ArrayOf? && schema.items.Some?
    ensures Error(path + at, problem) in CheckItems(items, schema, path) <==>
      at != [] && at[0].Item? && at[0].index < |items| &&
      IsWrong(items[at[0].index], schema.items.value, at[1..], problem)
    decreases schema, 2, |items|
  {
    if items != [] {
      var last := |items| - 1;
      var here := path + [Item(last)];
      ItemsAre(items[..last], schema, path, at, problem);
      hide IsWrong;
      if at != [] && at[0] == Item(last) {
        assert path + at == here + at[1..];
        ErrorsAre(items[last], schema.items.value, here, at[1..], problem);
      } else if Error(path + at, problem) in Check(items[last], schema.items.value, here) {
        Below(path, at, Item(last));
        ErrorsExtend(items[last], schema.items.value, here, Error(path + at, problem));
      }
    }
  }

  /** An entry's own key, or what is under it. */
  predicate EntryIsWrong(entry: Entry, schema: Schema, at: seq<Step>, problem: Problem)
    requires schema.ObjectOf?
  {
    if at == [] then !entry.key.Name? && problem.KeyNotAString?
    else at[0] == Field(entry.key) && FieldIsWrong(entry, schema, at, problem)
  }

  lemma {:induction false} EntryAre(entry: Entry, schema: Schema, path: seq<Step>, at: seq<Step>, problem: Problem)
    requires schema.ObjectOf?
    ensures Error(path + at, problem) in CheckEntry(entry, schema, path) <==> EntryIsWrong(entry, schema, at, problem)
    decreases schema, 1, 0
  {
    var e, here := Error(path + at, problem), path + [Field(entry.key)];
    assert path + at == path <==> at == [] by { assert |path + at| == |path| + |at|; }
    if at != [] && at[0] == Field(entry.key) {
      assert path + at == here + at[1..];
      assert here + at[1..] == here <==> at[1..] == [] by { assert |here + at[1..]| == |here| + |at[1..]|; }
      if entry.key.Name? {
        match Lookup(schema.properties, entry.key)
        case Some(known) => ErrorsAre(entry.value, known, here, at[1..], problem);
        case None =>
          if schema.additional.Each? { ErrorsAre(entry.value, schema.additional.schema, here, at[1..], problem); }
      }
    } else if e in CheckEntry(entry, schema, path) {
      Below(path, at, Field(entry.key));
      EntryExtends(entry, schema, path, e);
    }
  }

  lemma {:induction false} EntriesAre(entries: seq<Entry>, schema: Schema, path: seq<Step>, at: seq<Step>,
      problem: Problem)
    requires schema.ObjectOf?
    ensures Error(path + at, problem) in CheckEntries(entries, schema, path) <==>
      exists k :: 0 <= k < |entries| && EntryIsWrong(entries[k], schema, at, problem)
    decreases schema, 2, |entries|
  {
    if entries != [] {
      var last := |entries| - 1;
      EntriesAre(entries[..last], schema, path, at, problem);
      EntryAre(entries[last], schema, path, at, problem);
      hide EntryIsWrong, CheckEntry;
      if exists k :: 0 <= k < last && EntryIsWrong(entries[k], schema, at, problem) {
        var k :| 0 <= k < last && EntryIsWrong(entries[k], schema, at, problem);
        assert entries[..last][k] == entries[k];
      }
    }
  }

  /** Entries are checked one after the other. */
  lemma {:induction false} EntriesInOrder(first: seq<Entry>, rest: seq<Entry>, schema: Schema, path: seq<Step>)
    requires schema.ObjectOf?
    ensures CheckEntries(first + rest, schema, path) ==
      CheckEntries(first, schema, path) + CheckEntries(rest, schema, path)
    decreases |rest|
  {
    if rest == [] {
      assert first + rest == first;
    } else {
      var before, last := rest[..|rest| - 1], rest[|rest| - 1];
      assert (first + rest)[..|first + rest| - 1] == first + before && (first + rest)[|first + rest| - 1] == last;
      EntriesInOrder(first, before, schema, path);
    }
  }

  lemma {:induction false} ItemsInOrder(items: seq<Value>, schema: Schema, path: seq<Step>, i: nat, j: nat)
    requires schema.ArrayOf? && schema.items.Some? && i < j < |CheckItems(items, schema, path)|
    ensures var errors := CheckItems(items, schema, path);
      && path < errors[i].path && path < errors[j].path && errors[i].path[|path|].Item? && errors[j].path[|path|].Item?
      && errors[i].path[|path|].index <= errors[j].path[|path|].index
    decreases |items|
  {
    var last, errors := |items| - 1, CheckItems(items, schema, path);
    var before := CheckItems(items[..last], schema, path);
    ItemsExtend(items, schema, path, errors[i]);
    ItemsExtend(items, schema, path, errors[j]);
    if j < |before| { ItemsInOrder(items[..last], schema, path, i, j); }
    else { ErrorsExtend(items[last], schema.items.value, path + [Item(last)], errors[j]); }
  }

  /**
   * Errors come in the order of the value: of an object what is missing first, then what is wrong with its entries,
   * one after the other; of an array what is wrong with its items by their place.
   */
  lemma ErrorsInOrder(value: Value, schema: Schema, path: seq<Step>, i: nat, j: nat)
    requires i < j < |Check(value, schema, path)|
    ensures var errors := Check(value, schema, path);
      && (schema.ObjectOf? && errors[j].path == path && errors[j].problem.Missing? ==>
          errors[i].path == path && errors[i].problem.Missing?)
      && (schema.ArrayOf? ==>
          path < errors[i].path && path < errors[j].path && errors[i].path[|path|].Item? &&
          errors[j].path[|path|].Item? && errors[i].path[|path|].index <= errors[j].path[|path|].index)
  {
    if schema.ArrayOf? { ItemsInOrder(value.items, schema, path, i, j); }
    else if schema.ObjectOf? {
      var missing := MissingFrom(value.entries, schema.required, path);
      var errors := Check(value, schema, path);
      assert errors == missing + CheckEntries(value.entries, schema, path);
      if j >= |missing| { EntriesExtend(value.entries, schema, path, errors[j]); }
      else { MissingExtends(value.entries, schema.required, path, missing[i]); }
    }
  }

  // -------------------------------------------------------------- normalizing

  /** _normalize, of a value that was validated. */
  function Normalize(value: Value, schema: Schema): Value
    decreases schema, 1
  {
    match schema
    case AnyOf(options) =>
      (match FirstOption(value, schema, options, []) case Some(k) => Normalize(value, options[k]) case None => value)
    case Of(expected) =>
      if expected.IntegerType? && value.Scalar? && value.of.Float? && IsInteger(value.of.x)
          then Scalar(Int(value.of.x.Floor)) else value
    case ArrayOf(items) =>
      if value.Array? && items.Some?
          then Array(seq(|value.items|, i requires 0 <= i < |value.items| => Normalize(value.items[i], items.value)))
      else value
    case ObjectOf(_, _, _) =>
      if value.Object? then Object(seq(|value.entries|, i requires 0 <= i < |value.entries| =>
          NormalizeEntry(value.entries[i], schema)))
      else value
    case _ => value
  }

  function NormalizeEntry(entry: Entry, schema: Schema): Entry
    requires schema.ObjectOf?
    decreases schema, 0
  {
    match Lookup(schema.properties, entry.key)
    case Some(known) => Entry(entry.key, Normalize(entry.value, known))
    case None => if schema.additional.Each? then Entry(entry.key, Normalize(entry.value, schema.additional.schema))
        else entry
  }

  /**
   * The same but for floats without a fraction that became ints: no number changes its value, nothing else changes at
   * all.
   */
  predicate SameNumbers(before: Value, after: Value)
    decreases before, 1
  {
    match (before, after)
    case (Scalar(a), Scalar(b)) => a == b || (a.Float? && b.Int? && a.x == b.i as real)
    case (Array(a), Array(b)) => |a| == |b| && forall i :: 0 <= i < |a| ==> SameNumbers(a[i], b[i])
    case (Object(a), Object(b)) => |a| == |b| && forall i :: 0 <= i < |a| ==>
        a[i].key == b[i].key && SameNumbers(a[i].value, b[i].value)
    case _ => before == after
  }

  lemma {:induction false} SameAsItself(value: Value)
    ensures SameNumbers(value, value)
  {
    match value
    case Array(items) => forall i | 0 <= i < |items| ensures SameNumbers(items[i], items[i]) { SameAsItself(items[i]); }
    case Object(entries) =>
        forall i | 0 <= i < |entries| ensures SameNumbers(entries[i].value,
        entries[i].value) { SameAsItself(entries[i].value); }
    case _ =>
  }

  lemma {:induction false} NormalizeKeepsNumbers(value: Value, schema: Schema)
    ensures SameNumbers(value, Normalize(value, schema))
    decreases schema
  {
    SameAsItself(value);
    match schema
    case AnyOf(options) =>
      match FirstOption(value, schema, options, []) { case Some(k) => NormalizeKeepsNumbers(value, options[k]);
          case None => }
    case ArrayOf(items) =>
      if value.Array? && items.Some? {
        forall i | 0 <= i < |value.items| ensures SameNumbers(value.items[i], Normalize(value.items[i], items.value)) {
          NormalizeKeepsNumbers(value.items[i], items.value);
        }
      }
    case ObjectOf(_, _, additional) =>
      if value.Object? {
        forall i | 0 <= i < |value.entries|
          ensures SameNumbers(value.entries[i].value, NormalizeEntry(value.entries[i], schema).value)
        {
          var entry := value.entries[i];
          SameAsItself(entry.value);
          match Lookup(schema.properties, entry.key)
          case Some(known) => NormalizeKeepsNumbers(entry.value, known);
          case None => if additional.Each? { NormalizeKeepsNumbers(entry.value, additional.schema); }
        }
      }
    case _ =>
  }

  /** Valid, and of the Python type the schema promises: an integer is an int. */
  predicate Typed(value: Value, schema: Schema)
    decreases schema, 1
  {
    match schema
    case Anything => true
    case Enum(allowed) => IsAllowed(value, allowed)
    case AnyOf(options) => exists k :: 0 <= k < |options| && Typed(value, options[k])
    case Of(expected) => TypeOk(value, expected) && (expected.IntegerType? ==> value.of.Int?)
    case ArrayOf(items) => value.Array? &&
        (items.Some? ==> forall k :: 0 <= k < |value.items| ==> Typed(value.items[k], items.value))
    case ObjectOf(_, required, _) =>
      && value.Object?
      && (forall name :: name in required ==> Has(value.entries, Name(name)))
      && (forall k :: 0 <= k < |value.entries| ==> TypedEntry(value.entries[k], schema))
  }

  predicate TypedEntry(entry: Entry, schema: Schema)
    requires schema.ObjectOf?
    decreases schema, 0
  {
    && entry.key.Name?
    && match Lookup(schema.properties, entry.key)
       case Some(known) => Typed(entry.value, known)
       case None =>
         !schema.additional.Forbidden? && (schema.additional.Each? ==> Typed(entry.value, schema.additional.schema))
  }

  lemma {:induction false} TypedIsValid(value: Value, schema: Schema)
    requires Typed(value, schema)
    ensures Valid(value, schema)
    decreases schema
  {
    match schema
    case AnyOf(options) =>
      var k :| 0 <= k < |options| && Typed(value, options[k]);
      TypedIsValid(value, options[k]);
    case ArrayOf(items) =>
      if items.Some? { forall k | 0 <=
          k < |value.items| ensures Valid(value.items[k], items.value) { TypedIsValid(value.items[k], items.value); } }
    case ObjectOf(_, _, additional) =>
      forall k | 0 <= k < |value.entries| ensures ValidEntry(value.entries[k], schema) {
        var entry := value.entries[k];
        assert TypedEntry(entry, schema);
        match Lookup(schema.properties, entry.key)
        case Some(known) => TypedIsValid(entry.value, known);
        case None => if additional.Each? { TypedIsValid(entry.value, additional.schema); }
      }
    case _ =>
  }

  lemma NormalizedHas(entries: seq<Entry>, schema: Schema, name: string)
    requires schema.ObjectOf? && Has(entries, Name(name))
    ensures Has(Normalize(Object(entries), schema).entries, Name(name))
  {
    var k :| 0 <= k < |entries| && entries[k].key == Name(name);
    assert Normalize(Object(entries), schema).entries[k].key == Name(name);
  }

  /** A valid value normalized has the types the schema promises. */
  lemma {:induction false} NormalizedIsTyped(value: Value, schema: Schema)
    requires Valid(value, schema)
    ensures Typed(Normalize(value, schema), schema)
    decreases schema
  {
    match schema
    case AnyOf(options) =>
      FirstMeaning(value, schema, options, []);
      var k := FirstOption(value, schema, options, []).value;
      NormalizedIsTyped(value, options[k]);
    case ArrayOf(items) =>
      if items.Some? {
        forall k | 0 <= k < |value.items| ensures Typed(Normalize(value.items[k], items.value), items.value) {
          NormalizedIsTyped(value.items[k], items.value);
        }
      }
    case ObjectOf(_, required, additional) =>
      forall name | name in required ensures Has(Normalize(value, schema).entries,
          Name(name)) { NormalizedHas(value.entries, schema, name); }
      forall k | 0 <= k < |value.entries| ensures TypedEntry(NormalizeEntry(value.entries[k], schema), schema) {
        var entry := value.entries[k];
        assert ValidEntry(entry, schema);
        match Lookup(schema.properties, entry.key)
        case Some(known) => NormalizedIsTyped(entry.value, known);
        case None => if additional.Each? { NormalizedIsTyped(entry.value, additional.schema); }
      }
    case _ =>
  }

  /** A schema with nothing inside. */
  predicate Flat(schema: Schema) {
    schema.Anything? || schema.Enum? || schema.Of?
  }

  /** No anyOf has two options for arrays, or two for objects: which option a list or an object meets cannot change. */
  predicate Decided(schema: Schema) {
    match schema
    case AnyOf(options) =>
      && (forall k :: 0 <= k < |options| ==>
          Flat(options[k]) || ((options[k].ArrayOf? || options[k].ObjectOf?) && Decided(options[k])))
      && (forall j, k :: 0 <= j < k < |options| ==>
          !(options[j].ArrayOf? && options[k].ArrayOf?) && !(options[j].ObjectOf? && options[k].ObjectOf?))
    case ArrayOf(items) => items.Some? ==> Decided(items.value)
    case ObjectOf(properties, _, additional) =>
      (forall k :: 0 <= k < |properties| ==> Decided(properties[k].schema)) &&
          (additional.Each? ==> Decided(additional.schema))
    case _ => true
  }

  /** An anyOf normalizes as the first option that fits. */
  lemma TheFirstThatFits(value: Value, schema: Schema, k: nat)
    requires schema.AnyOf? && k < |schema.options| && Valid(value, schema.options[k])
    requires forall j :: 0 <= j < k ==> !Valid(value, schema.options[j])
    ensures Valid(value, schema) && FirstOption(value, schema, schema.options, []) == Some(k)
    ensures Normalize(value, schema) == Normalize(value, schema.options[k])
  {
    hide Check, FirstOption;
    FirstMeaning(value, schema, schema.options, []);
  }

  lemma NormalizedIsValid(value: Value, schema: Schema)
    requires Valid(value, schema)
    ensures Valid(Normalize(value, schema), schema)
  {
    NormalizedIsTyped(value, schema);
    TypedIsValid(Normalize(value, schema), schema);
  }

  /** Normalizing keeps a list a list and an object an object, and makes nothing one. */
  lemma {:induction false} NormalizeKeepsShape(value: Value, schema: Schema)
    ensures Normalize(value, schema).Array? == value.Array? && Normalize(value, schema).Object? == value.Object?
    decreases schema
  {
    if schema.AnyOf? {
      match FirstOption(value, schema, schema.options, [])
      case Some(k) => NormalizeKeepsShape(value, schema.options[k]);
      case None =>
    }
  }

  /** No flat option changes an int, and none but Anything accepts a list or an object. */
  lemma FlatOptions(value: Value, option: Schema)
    requires Flat(option)
    ensures value.Scalar? && value.of.Int? ==> Normalize(value, option) == value
    ensures (value.Array? || value.Object?) && Valid(value, option) ==> option.Anything?
    ensures Normalize(value, option) != value ==> Normalize(value, option).Scalar? && Normalize(value, option).of.Int?
  {
  }

  /** What the option made of the value no option before it changes: those for lists and objects refuse it. */
  lemma EarlierLeavesIt(value: Value, schema: Schema, j: nat, k: nat)
    requires schema.AnyOf? && Decided(schema) && j < k < |schema.options| && Valid(value, schema.options[k]) &&
      !Valid(value, schema.options[j])
    requires var n := Normalize(value, schema.options[k]); n != value && Valid(n, schema.options[j])
    ensures var n := Normalize(value, schema.options[k]); Normalize(n, schema.options[j]) == n
  {
    var earlier, option := schema.options[j], schema.options[k];
    assert Flat(earlier) || earlier.ArrayOf? || earlier.ObjectOf?;
    assert Flat(option) || option.ArrayOf? || option.ObjectOf?;
    var n := Normalize(value, option);
    NormalizeKeepsShape(value, option);
    if Flat(option) { FlatOptions(value, option); }
    if Flat(earlier) { FlatOptions(n, earlier); FlatOptions(value, earlier); }
    hide Normalize;
  }

  lemma AnyOfMeetsItsOption(value: Value, schema: Schema, k: nat)
    requires schema.AnyOf? && Decided(schema) && k < |schema.options|
    requires Valid(value, schema.options[k]) && forall j :: 0 <= j < k ==> !Valid(value, schema.options[j])
    requires Normalize(Normalize(value, schema.options[k]), schema.options[k]) == Normalize(value, schema.options[k])
    ensures Normalize(Normalize(value, schema), schema) == Normalize(value, schema)
  {
    hide Normalize, Valid, Check, FirstOption, Decided;
    var n := Normalize(value, schema.options[k]);
    TheFirstThatFits(value, schema, k);
    if n != value {
      NormalizedIsValid(value, schema.options[k]);
      FirstMeaning(n, schema, schema.options, []);
      var j := FirstOption(n, schema, schema.options, []).value;
      TheFirstThatFits(n, schema, j);
      if j < k { EarlierLeavesIt(value, schema, j, k); }
    }
  }

  /** Where no anyOf has two options for arrays or two for objects, normalizing again changes nothing. */
  lemma {:induction false} NormalizeIsIdempotent(value: Value, schema: Schema)
    requires Decided(schema)
    ensures Normalize(Normalize(value, schema), schema) == Normalize(value, schema)
    decreases schema, 1
  {
    match schema
    case AnyOf(options) =>
      FirstMeaning(value, schema, options, []);
      match FirstOption(value, schema, options, []) {
        case Some(k) =>
          assert Decided(options[k]);
          NormalizeIsIdempotent(value, options[k]);
          hide Normalize, Decided;
          AnyOfMeetsItsOption(value, schema, k);
        case None =>
      }
    case ArrayOf(items) =>
      if value.Array? && items.Some? {
        forall i | 0 <= i < |value.items|
          ensures Normalize(Normalize(value.items[i], items.value), items.value) ==
            Normalize(value.items[i], items.value)
        {
          NormalizeIsIdempotent(value.items[i], items.value);
        }
      }
    case ObjectOf(_, _, _) =>
      if value.Object? {
        forall i | 0 <= i < |value.entries|
          ensures NormalizeEntry(NormalizeEntry(value.entries[i], schema), schema) ==
            NormalizeEntry(value.entries[i], schema)
        {
          EntryIsIdempotent(value.entries[i], schema);
        }
      }
    case _ =>
  }

  lemma {:induction false} EntryIsIdempotent(entry: Entry, schema: Schema)
    requires schema.ObjectOf? && Decided(schema)
    ensures NormalizeEntry(NormalizeEntry(entry, schema), schema) == NormalizeEntry(entry, schema)
    decreases schema, 0
  {
    match Lookup(schema.properties, entry.key)
    case Some(known) => NormalizeIsIdempotent(entry.value, known);
    case None => if schema.additional.Each? { NormalizeIsIdempotent(entry.value, schema.additional.schema); }
  }

  /**
   * Where a second pass changes more: at an anyOf whose earlier option accepts what the first pass made of the value
   * and changes it, and nowhere else.
   */
  predicate ChangesAgain(value: Value, schema: Schema)
    decreases schema, 1
  {
    match schema
    case AnyOf(options) =>
      (match FirstOption(value, schema, options, [])
       case None => false
       case Some(k) =>
         var n := Normalize(value, options[k]);
         (match FirstOption(n, schema, options, [])
          case None => false
          case Some(j) => if j < k then Normalize(n, options[j]) != n else ChangesAgain(value, options[k])))
    case ArrayOf(items) => value.Array? && items.Some? && exists i ::
        0 <= i < |value.items| && ChangesAgain(value.items[i], items.value)
    case ObjectOf(_, _, _) => value.Object? && exists i ::
        0 <= i < |value.entries| && EntryChangesAgain(value.entries[i], schema)
    case _ => false
  }

  predicate EntryChangesAgain(entry: Entry, schema: Schema)
    requires schema.ObjectOf?
    decreases schema, 0
  {
    match Lookup(schema.properties, entry.key)
    case Some(known) => ChangesAgain(entry.value, known)
    case None => schema.additional.Each? && ChangesAgain(entry.value, schema.additional.schema)
  }

  lemma AnyOfChangesAgain(value: Value, schema: Schema, k: nat)
    requires schema.AnyOf? && k < |schema.options| && FirstOption(value, schema, schema.options, []) == Some(k) &&
      Valid(value, schema.options[k])
    requires var option := schema.options[k];
      Normalize(Normalize(value, option), option) != Normalize(value, option) <==> ChangesAgain(value, option)
    ensures Normalize(Normalize(value, schema), schema) != Normalize(value, schema) <==> ChangesAgain(value, schema)
  {
    hide Check, FirstOption;
    var n := Normalize(value, schema.options[k]);
    NormalizedIsValid(value, schema.options[k]);
    FirstMeaning(n, schema, schema.options, []);
  }

  lemma {:induction false} WhenNormalizeChangesAgain(value: Value, schema: Schema)
    requires Valid(value, schema)
    ensures Normalize(Normalize(value, schema), schema) != Normalize(value, schema) <==> ChangesAgain(value, schema)
    decreases schema
  {
    match schema
    case AnyOf(options) =>
      FirstMeaning(value, schema, options, []);
      var k := FirstOption(value, schema, options, []).value;
      WhenNormalizeChangesAgain(value, options[k]);
      AnyOfChangesAgain(value, schema, k);
    case ArrayOf(items) => if items.Some? { ItemsChangeAgain(value, schema); }
    case ObjectOf(_, _, _) => EntriesChangeAgain(value, schema);
    case _ =>
  }

  lemma {:induction false} ItemsChangeAgain(value: Value, schema: Schema)
    requires schema.ArrayOf? && schema.items.Some? && Valid(value, schema)
    ensures Normalize(Normalize(value, schema), schema) != Normalize(value, schema) <==> ChangesAgain(value, schema)
    decreases schema, 0
  {
    var once, twice := Normalize(value, schema), Normalize(Normalize(value, schema), schema);
    forall i | 0 <= i < |value.items| ensures twice.items[i] != once.items[i] <==>
        ChangesAgain(value.items[i], schema.items.value) {
      WhenNormalizeChangesAgain(value.items[i], schema.items.value);
    }
    hide Normalize;
    if forall i :: 0 <= i < |value.items| ==> twice.items[i] == once.items[i] { assert twice.items == once.items; }
  }

  lemma {:induction false} EntriesChangeAgain(value: Value, schema: Schema)
    requires schema.ObjectOf? && Valid(value, schema)
    ensures Normalize(Normalize(value, schema), schema) != Normalize(value, schema) <==> ChangesAgain(value, schema)
    decreases schema, 0
  {
    var once, twice := Normalize(value, schema), Normalize(Normalize(value, schema), schema);
    forall i | 0 <= i < |value.entries| ensures twice.entries[i] != once.entries[i] <==>
        EntryChangesAgain(value.entries[i], schema) {
      var entry := value.entries[i];
      assert ValidEntry(entry, schema);
      assert once.entries[i] == NormalizeEntry(entry, schema) &&
          twice.entries[i] == NormalizeEntry(once.entries[i], schema);
      match Lookup(schema.properties, entry.key)
      case Some(known) => WhenNormalizeChangesAgain(entry.value, known);
      case None => if schema.additional.Each? { WhenNormalizeChangesAgain(entry.value, schema.additional.schema); }
    }
    hide Normalize;
    if forall i :: 0 <= i < |value.entries| ==>
        twice.entries[i] == once.entries[i] { assert twice.entries == once.entries; }
  }

  // What list[Literal[3] | list[int]] | list[int | list] becomes.
  const STRICT_ITEM: Schema := AnyOf([Enum([Int(3)]), ArrayOf(Some(Of(IntegerType)))])
  const LOOSE_ITEM: Schema := AnyOf([Of(IntegerType), ArrayOf(None)])
  const TWO_LISTS: Schema := AnyOf([ArrayOf(Some(STRICT_ITEM)), ArrayOf(Some(LOOSE_ITEM))])

  function Nested(a: Scalar, b: Scalar): Value {
    Array([Scalar(a), Array([Scalar(b)])])
  }

  lemma NestedIn(a: Scalar, b: Scalar, item: Schema)
    ensures var schema := ArrayOf(Some(item)); var inner := Array([Scalar(b)]);
      && (Valid(Nested(a, b), schema) <==> Valid(Scalar(a), item) && Valid(inner, item))
      && Normalize(Nested(a, b), schema) == Array([Normalize(Scalar(a), item), Normalize(inner, item)])
  {
    var schema, value := ArrayOf(Some(item)), Nested(a, b);
    assert value.items[0] == Scalar(a) && value.items[1] == Array([Scalar(b)]);
    assert Normalize(value, schema).items == [Normalize(Scalar(a), item), Normalize(Array([Scalar(b)]), item)];
  }

  lemma ListOfInts(b: Scalar)
    requires b == Float(3.0)
    ensures var ints := ArrayOf(Some(Of(IntegerType))); var list := Array([Scalar(b)]);
      Valid(list, ints) && Normalize(list, ints) == Array([Scalar(Int(3))])
  {
    assert 3.0.Floor == 3;
    assert Normalize(Array([Scalar(b)]), ArrayOf(Some(Of(IntegerType)))).items == [Scalar(Int(3))];
  }

  lemma RefusedItem()
    ensures !Valid(Scalar(Float(3.0)), STRICT_ITEM)
  {
    assert STRICT_ITEM.options[0] == Enum([Int(3)]) && STRICT_ITEM.options[1].ArrayOf?;
    assert !Valid(Scalar(Float(3.0)), STRICT_ITEM.options[0]) && !Valid(Scalar(Float(3.0)), STRICT_ITEM.options[1]);
  }

  lemma FitLooseItem()
    ensures var x, inner := Scalar(Float(3.0)), Array([Scalar(Float(3.0))]);
      && Valid(x, LOOSE_ITEM) && Valid(inner, LOOSE_ITEM) && Normalize(x, LOOSE_ITEM) == Scalar(Int(3))
      && Normalize(inner, LOOSE_ITEM) == inner
  {
    var x, inner := Scalar(Float(3.0)), Array([Scalar(Float(3.0))]);
    assert 3.0.Floor == 3;
    assert LOOSE_ITEM.options[0] == Of(IntegerType) && LOOSE_ITEM.options[1] == ArrayOf(None);
    assert Valid(x, Of(IntegerType)) && Normalize(x, Of(IntegerType)) == Scalar(Int(3));
    assert !Valid(inner, Of(IntegerType)) && Valid(inner, ArrayOf(None)) && Normalize(inner, ArrayOf(None)) == inner;
    hide Normalize, Valid, LOOSE_ITEM;
    TheFirstThatFits(x, LOOSE_ITEM, 0);
    TheFirstThatFits(inner, LOOSE_ITEM, 1);
  }

  /** The first list option refuses the float; the second makes it an int, and leaves the inner list alone. */
  lemma FitsLooseOnly()
    ensures var value, lists := Nested(Float(3.0), Float(3.0)), TWO_LISTS.options;
      !Valid(value, lists[0]) && Valid(value, lists[1]) && Normalize(value, lists[1]) == Nested(Int(3), Float(3.0))
  {
    hide Normalize, Valid, STRICT_ITEM, LOOSE_ITEM;
    RefusedItem();
    FitLooseItem();
    NestedIn(Float(3.0), Float(3.0), STRICT_ITEM);
    NestedIn(Float(3.0), Float(3.0), LOOSE_ITEM);
  }

  lemma FitStrictItem()
    ensures var three, inner := Scalar(Int(3)), Array([Scalar(Float(3.0))]);
      && Valid(three, STRICT_ITEM) && Valid(inner, STRICT_ITEM) && Normalize(three, STRICT_ITEM) == three
      && Normalize(inner, STRICT_ITEM) == Array([three])
  {
    var inner := Array([Scalar(Float(3.0))]);
    ListOfInts(Float(3.0));
    assert STRICT_ITEM.options[0] == Enum([Int(3)]) && STRICT_ITEM.options[1] == ArrayOf(Some(Of(IntegerType)));
    assert Valid(Scalar(Int(3)), Enum([Int(3)])) && !Valid(inner, Enum([Int(3)]));
    assert Normalize(Scalar(Int(3)), Enum([Int(3)])) == Scalar(Int(3));
    hide Normalize, Valid, STRICT_ITEM;
    TheFirstThatFits(Scalar(Int(3)), STRICT_ITEM, 0);
    TheFirstThatFits(inner, STRICT_ITEM, 1);
  }

  /** Now the first accepts it, and makes the inner one an int too. */
  lemma NowFitsStrict()
    ensures var once, lists := Nested(Int(3), Float(3.0)), TWO_LISTS.options;
      Valid(once, lists[0]) && Normalize(once, lists[0]) == Nested(Int(3), Int(3))
  {
    hide Normalize, Valid, STRICT_ITEM;
    NestedIn(Int(3), Float(3.0), STRICT_ITEM);
    FitStrictItem();
  }

  /**
   * A tool's parameters, one of them with two list options: the first pass makes the first of them fit, which then
   * changes more.
   */
  lemma AnyOfIsNotIdempotent()
    ensures var schema := ObjectOf([Property("x", TWO_LISTS)], ["x"], Forbidden);
      var arguments := (value: Value) => Object([Entry(Name("x"), value)]);
      var value := arguments(Nested(Float(3.0), Float(3.0)));
      && Valid(value, schema) && Normalize(value, schema) == arguments(Nested(Int(3), Float(3.0)))
      && Normalize(Normalize(value, schema), schema) == arguments(Nested(Int(3), Int(3)))
  {
    hide Valid, Normalize, Nested;
    var value, once, twice := Nested(Float(3.0), Float(3.0)), Nested(Int(3), Float(3.0)), Nested(Int(3), Int(3));
    FitsLooseOnly();
    NowFitsStrict();
    TheFirstThatFits(value, TWO_LISTS, 1);
    TheFirstThatFits(once, TWO_LISTS, 0);
    AsParameter(value, TWO_LISTS);
    AsParameter(once, TWO_LISTS);
  }

  lemma AsParameter(value: Value, of: Schema)
    ensures var schema := ObjectOf([Property("x", of)], ["x"], Forbidden);
      var arguments := Object([Entry(Name("x"), value)]);
      && (Valid(arguments, schema) <==> Valid(value, of))
      && Normalize(arguments, schema) == Object([Entry(Name("x"), Normalize(value, of))])
  {
    var schema, arguments := ObjectOf([Property("x", of)], ["x"], Forbidden), Object([Entry(Name("x"), value)]);
    assert arguments.entries[0].key == Name("x") && Has(arguments.entries, Name("x"));
    assert Lookup(schema.properties, Name("x")) == Some(of);
    assert Valid(arguments, schema) <==> ValidEntry(arguments.entries[0], schema);
    assert Normalize(arguments, schema).entries == [NormalizeEntry(arguments.entries[0], schema)];
  }

  // ---------------------------------------------------------------- the loops

  datatype Result = Ok(value: Value) | Err(errors: seq<Error>)

  /** validate_arguments and validate_result: everything that is wrong, or the value as the tool or client gets it. */
  method Validate(value: Value, schema: Schema, name: string) returns (r: Result)
    ensures r.Ok? <==> Valid(value, schema)
    ensures r.Ok? ==> Typed(r.value, schema) && SameNumbers(value, r.value) && r.value == Normalize(value, schema)
    ensures r.Err? ==> r.errors == Check(value, schema, [Field(Name(name))]) && r.errors != []
  {
    var errors := CheckValue(value, schema, [Field(Name(name))]);
    CheckMeaning(value, schema, [Field(Name(name))]);
    if errors != [] { return Err(errors); }
    NormalizedIsTyped(value, schema);
    NormalizeKeepsNumbers(value, schema);
    var normalized := NormalizeValue(value, schema);
    r := Ok(normalized);
  }

  method CheckValue(value: Value, schema: Schema, path: seq<Step>) returns (errors: seq<Error>)
    ensures errors == Check(value, schema, path)
    decreases schema, 1
  {
    match schema
    case Anything => errors := [];
    case Enum(allowed) => errors := if IsAllowed(value, allowed) then [] else [Error(path, NotAllowed)];
    case AnyOf(_) => errors := CheckAnyOf(value, schema, path);
    case Of(expected) => errors := if TypeOk(value, expected) then [] else [Error(path, WrongType)];
    case ArrayOf(items) =>
      if !value.Array? { return [Error(path, NotAnArray)]; }
      if items.None? { return []; }
      errors := CheckAllItems(value.items, schema, path);
    case ObjectOf(_, required, _) =>
      if !value.Object? { return [Error(path, NotAnObject)]; }
      errors := CheckRequired(value.entries, required, path);
      var more := CheckAllEntries(value.entries, schema, path);
      errors := errors + more;
  }

  method CheckAnyOf(value: Value, schema: Schema, path: seq<Step>) returns (errors: seq<Error>)
    requires schema.AnyOf?
    ensures errors == Check(value, schema, path)
    decreases schema, 0, 1
  {
    var options := schema.options;
    var i := 0;
    while i < |options|
      invariant 0 <= i <= |options| && forall j :: 0 <= j < i ==> !Valid(value, options[j])
    {
      var wrong := CheckValue(value, options[i], path);
      CheckMeaning(value, options[i], path);
      if wrong == [] {
        FitsAnyOf(value, schema, path, i);
        return [];
      }
      i := i + 1;
    }
    FirstMeaning(value, schema, options, path);
    errors := [Error(path, NoOption)];
  }

  lemma FitsAnyOf(value: Value, schema: Schema, path: seq<Step>, k: nat)
    requires schema.AnyOf? && k < |schema.options| && Valid(value, schema.options[k])
    ensures Check(value, schema, path) == []
  {
    assert Valid(value, schema);
    CheckMeaning(value, schema, path);
  }

  method CheckAllItems(items: seq<Value>, schema: Schema, path: seq<Step>) returns (errors: seq<Error>)
    requires schema.ArrayOf? && schema.items.Some?
    ensures errors == CheckItems(items, schema, path)
    decreases schema, 0, 1
  {
    errors := [];
    var i := 0;
    while i < |items|
      invariant 0 <= i <= |items| && errors == CheckItems(items[..i], schema, path)
    {
      var more := CheckValue(items[i], schema.items.value, path + [Item(i)]);
      assert items[..i + 1][..i] == items[..i];
      errors := errors + more;
      i := i + 1;
    }
    assert items[..i] == items;
  }

  method CheckAllEntries(entries: seq<Entry>, schema: Schema, path: seq<Step>) returns (errors: seq<Error>)
    requires schema.ObjectOf?
    ensures errors == CheckEntries(entries, schema, path)
    decreases schema, 0, 1
  {
    errors := [];
    var i := 0;
    while i < |entries|
      invariant 0 <= i <= |entries| && errors == CheckEntries(entries[..i], schema, path)
    {
      var more := CheckField(entries[i], schema, path);
      assert entries[..i + 1][..i] == entries[..i];
      errors := errors + more;
      i := i + 1;
    }
    assert entries[..i] == entries;
  }

  method CheckRequired(entries: seq<Entry>, required: seq<string>, path: seq<Step>) returns (errors: seq<Error>)
    ensures errors == MissingFrom(entries, required, path)
  {
    errors := [];
    var i := 0;
    while i < |required|
      invariant 0 <= i <= |required| &&
        errors + MissingFrom(entries, required[i..], path) == MissingFrom(entries, required, path)
    {
      assert required[i..][1..] == required[i + 1..];
      if !Has(entries, Name(required[i])) { errors := errors + [Error(path, Missing(required[i]))]; }
      i := i + 1;
    }
  }

  method CheckField(entry: Entry, schema: Schema, path: seq<Step>) returns (errors: seq<Error>)
    requires schema.ObjectOf?
    ensures errors == CheckEntry(entry, schema, path)
    decreases schema, 0, 0
  {
    if !entry.key.Name? { return [Error(path, KeyNotAString)]; }
    var known := Lookup(schema.properties, entry.key);
    if known.Some? { errors := CheckValue(entry.value, known.value, path + [Field(entry.key)]); }
    else if schema.additional.Forbidden? { errors := [Error(path + [Field(entry.key)], Unexpected)]; }
    else if schema.additional.Each? { errors :=
        CheckValue(entry.value, schema.additional.schema, path + [Field(entry.key)]); }
    else { errors := []; }
  }

  method NormalizeValue(value: Value, schema: Schema) returns (r: Value)
    ensures r == Normalize(value, schema)
    decreases schema, 1
  {
    match schema
    case AnyOf(_) => r := NormalizeAnyOf(value, schema);
    case Of(expected) =>
      r := if expected.IntegerType? && value.Scalar? && value.of.Float? && IsInteger(value.of.x)
          then Scalar(Int(value.of.x.Floor)) else value;
    case ArrayOf(items) => if value.Array? && items.Some? { r := NormalizeItems(value.items, schema); }
        else { r := value; }
    case ObjectOf(_, _, _) => if value.Object? { r := NormalizeEntries(value.entries, schema); } else { r := value; }
    case _ => r := value;
  }

  /** By the first option that fits; the value as it is where none does. */
  method NormalizeAnyOf(value: Value, schema: Schema) returns (r: Value)
    requires schema.AnyOf?
    ensures r == Normalize(value, schema)
    decreases schema, 0
  {
    var options := schema.options;
    var i := 0;
    while i < |options|
      invariant 0 <= i <= |options| && forall j :: 0 <= j < i ==> !Valid(value, options[j])
    {
      var wrong := CheckValue(value, options[i], []);
      CheckMeaning(value, options[i], []);
      if wrong == [] {
        r := NormalizeValue(value, options[i]);
        TheFirstThatFits(value, schema, i);
        return;
      }
      i := i + 1;
    }
    FirstMeaning(value, schema, options, []);
    r := value;
  }

  method NormalizeItems(items: seq<Value>, schema: Schema) returns (r: Value)
    requires schema.ArrayOf? && schema.items.Some?
    ensures r == Normalize(Array(items), schema)
    decreases schema, 0
  {
    var all: seq<Value> := [];
    var i := 0;
    while i < |items|
      invariant 0 <= i <= |items| && |all| == i && forall k :: 0 <= k < i ==>
        all[k] == Normalize(items[k], schema.items.value)
    {
      var item := NormalizeValue(items[i], schema.items.value);
      all := all + [item];
      i := i + 1;
    }
    r := Array(all);
  }

  method NormalizeEntries(entries: seq<Entry>, schema: Schema) returns (r: Value)
    requires schema.ObjectOf?
    ensures r == Normalize(Object(entries), schema)
    decreases schema, 0, 1
  {
    var all: seq<Entry> := [];
    var i := 0;
    while i < |entries|
      invariant 0 <= i <= |entries| && |all| == i && forall k :: 0 <= k < i ==>
        all[k] == NormalizeEntry(entries[k], schema)
    {
      var entry := NormalizeField(entries[i], schema);
      all := all + [entry];
      i := i + 1;
    }
    r := Object(all);
  }

  method NormalizeField(entry: Entry, schema: Schema) returns (r: Entry)
    requires schema.ObjectOf?
    ensures r == NormalizeEntry(entry, schema)
    decreases schema, 0, 0
  {
    var known := Lookup(schema.properties, entry.key);
    var value := entry.value;
    if known.Some? { value := NormalizeValue(entry.value, known.value); }
    else if schema.additional.Each? { value := NormalizeValue(entry.value, schema.additional.schema); }
    r := Entry(entry.key, value);
  }
}
