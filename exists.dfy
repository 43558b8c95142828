/**
 * The exists filter of the root package (exists.go): an `IS NULL` / `IS NOT NULL` test on a
 * column, chosen by an optional boolean.
 */
module Exists {
  import opened Base
  import opened Wire
  import opened Sql

  /** The test for a column that should (or should not) hold a value. */
  function NullTest(present: bool): (r: string)
    ensures r == "IS NOT NULL" <==> present
    ensures r == "IS NULL" <==> !present
  {
    if present then "IS NOT NULL" else "IS NULL"
  }

  /** The condition `? ?` with the column and the test as trusted SQL. */
  function TestCondition(column: string, present: bool): Frag {
    Frag("? ?", [Ident(column), Safe(NullTest(present))])
  }

  /**
   * The condition selects exactly the rows whose column is not NULL when `present`, and
   * exactly those whose column is NULL otherwise.
   */
  lemma TestSelects(column: string, present: bool, row: Row)
    ensures Eval(TestCondition(column, present), row) == Some(if present then row(column) != Null else row(column) == Null)
  {
    var f := TestCondition(column, present);
    TestTemplate(f.template);
    assert f.args[1] == Safe(NullTest(present));
  }

  /** The condition has one argument per placeholder and no bound parameter. */
  lemma TestWellFormed(column: string, present: bool)
    ensures WellFormed(TestCondition(column, present))
    ensures forall a :: a in TestCondition(column, present).args ==> !a.Value? && !a.In?
  {
    TestTemplate(TestCondition(column, present).template);
  }

  lemma TestTemplate(t: string)
    requires t == "? ?"
    ensures Holes(t) == 2
    ensures t != "? = ?" && t != "? IN (?)"
  {
    assert multiset(t) == multiset{'?', ' ', '?'};
  }

  /** The first trial: an object with an optional boolean under "value" (`null` is the zero struct). */
  function ObjectShape(j: Json): Option<Option<bool>> {
    FreshStruct(j, fields => FreshPtr(Field(fields, "value"), AsBool), None)
  }

  /** The second trial: a bare boolean or `null`. */
  function BareShape(j: Json): Option<Option<bool>> {
    FreshPtr(j, AsBool)
  }

  /**
   * The `Value` a document decodes to, or `None` when both trials fail: `null` clears it, a
   * boolean sets it, an object sets it from "value" when that is a boolean, `null` or
   * absent; every other document is an error.
   */
  function Decode(input: Input): (r: Option<Option<bool>>)
    ensures input == Doc(Null) ==> r == Some(None)
    ensures input.Doc? && input.json.Bool? ==> r == Some(Some(input.json.b))
    ensures input.Doc? && input.json.Obj? ==>
      var v := Field(input.json.fields, "value");
      r == if v.Null? then Some(None) else if v.Bool? then Some(Some(v.b)) else None
    ensures r.Some? ==> input.Doc? && (input.json.Null? || input.json.Bool? || input.json.Obj?)
  {
    match input
    case Malformed => None
    case Doc(j) =>
      var attempts := [ObjectShape(j), BareShape(j)];
      assert j.Bool? ==> attempts[0].None? && attempts[1] == Some(Some(j.b));
      match FirstSome(attempts)
      case None => None
      case Some(found) => Some(found.1)
  }

  /** `MarshalJSON`: `null` when unset, the boolean otherwise. */
  function Encode(value: Option<bool>): (r: Json)
    ensures r.Null? <==> value.None?
    ensures value.Some? ==> r == Bool(value.value)
  {
    match value
    case None => Null
    case Some(b) => Bool(b)
  }

  /** Decoding the marshalled value gives it back. */
  lemma RoundTrip(value: Option<bool>)
    ensures Decode(Doc(Encode(value))) == Some(value)
  {
  }

  class Exists {
    var column: string
    var value: Option<bool>

    /** `NewExists`: no value set. */
    constructor(column: string)
      ensures this.column == column && value == None
    {
      this.column := column;
      value := None;
    }

    method Column(column: string)
      modifies this
      ensures this.column == column && value == old(value)
    {
      this.column := column;
    }

    method Exists(value: bool)
      modifies this
      ensures this.value == Some(value) && column == old(column)
    {
      this.value := Some(value);
    }

    method ShouldExists()
      modifies this
      ensures value == Some(true) && column == old(column)
    {
      Exists(true);
    }

    method ShouldNotExists()
      modifies this
      ensures value == Some(false) && column == old(column)
    {
      Exists(false);
    }

    /**
     * `UnmarshalJSON`: the object trial first, then the bare trial; the first that decodes
     * sets the value. Only the value changes, and only on success.
     */
    method UnmarshalJSON(input: Input) returns (err: Option<Error>)
      modifies this
      ensures err.None? <==> Decode(input).Some?
      ensures err.None? ==> value == Decode(input).value
      ensures err.Some? ==> err == Some(UnsupportedFormat) && value == old(value)
      ensures column == old(column)
    {
      if input.Malformed? {
        return Some(UnsupportedFormat);
      }
      var m1 := ObjectShape(input.json);
      if m1.Some? {
        value := m1.value;
        return None;
      }
      var m2 := BareShape(input.json);
      if m2.Some? {
        value := m2.value;
        return None;
      }
      return Some(UnsupportedFormat);
    }

    function MarshalJSON(): (r: Json)
      reads this
      ensures Decode(Doc(r)) == Some(value)
    {
      RoundTrip(value);
      Encode(value)
    }

    /** `buildValue`: an unset value tests for NULL, like `false`. */
    function BuildValue(): (r: string)
      reads this
      ensures r == "IS NOT NULL" <==> value == Some(true)
      ensures r == "IS NULL" <==> value != Some(true)
    {
      if value.Some? && value.value then NullTest(true) else NullTest(false)
    }

    /** `Appender`: selects the non-NULL rows exactly when the value is set and true. */
    function Appender(): (r: Frag)
      reads this
      ensures r == TestCondition(column, value == Some(true))
      ensures WellFormed(r)
      ensures forall row :: Eval(r, row) == Some(if value == Some(true) then row(column) != Null else row(column) == Null)
    {
      var present := value == Some(true);
      forall row ensures Eval(TestCondition(column, present), row) ==
          Some(if present then row(column) != Null else row(column) == Null) {
        TestSelects(column, present, row);
      }
      TestWellFormed(column, present);
      Frag("? ?", [Ident(column), Safe(BuildValue())])
    }
  }
}
