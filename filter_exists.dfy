/**
 * The exists filter of the `filter` package (pgquery/filter/exists.go): a plain boolean
 * value and a decoder that never reports an error.
 */
module FilterExists {
  import opened Base
  import opened Wire
  import opened Sql
  import E = Exists

  /** The first trial: a fresh struct, so `null`, `{}` and a `null` "value" all give `false`. */
  function ObjectShape(j: Json): Option<bool> {
    FreshStruct(j, fields => Fresh(Field(fields, "value"), AsBool, false), false)
  }

  /** The second trial: a bare boolean; `null` gives `false`. */
  function BareShape(j: Json): Option<bool> {
    Fresh(j, AsBool, false)
  }

  /**
   * The value a document decodes to, or `None` when both trials fail (and the value is
   * left alone): `null` gives `false`, a boolean gives itself, an object gives its "value"
   * when that is a boolean and `false` when it is `null` or absent.
   */
  function Decode(input: Input): (r: Option<bool>)
    ensures input == Doc(Null) ==> r == Some(false)
    ensures input.Doc? && input.json.Bool? ==> r == Some(input.json.b)
    ensures input.Doc? && input.json.Obj? ==>
      var v := Field(input.json.fields, "value");
      r == if v.Null? then Some(false) else if v.Bool? then Some(v.b) else None
    ensures r.Some? ==> input.Doc? && (input.json.Null? || input.json.Bool? || input.json.Obj?)
  {
    match input
    case Malformed => None
    case Doc(j) =>
      var attempts := [ObjectShape(j), BareShape(j)];
      assert j.Bool? ==> attempts[0].None? && attempts[1] == Some(j.b);
      match FirstSome(attempts)
      case None => None
      case Some(found) => Some(found.1)
  }

  /** Decoding the marshalled value, a bare boolean, gives it back. */
  lemma RoundTrip(value: bool)
    ensures Decode(Doc(Bool(value))) == Some(value)
  {
  }

  class Exists {
    var column: string
    var value: bool

    /** `NewExists` takes the value; the column starts empty. */
    constructor(value: bool)
      ensures this.value == value && column == ""
    {
      this.value := value;
      column := "";
    }

    method Column(column: string)
      modifies this
      ensures this.column == column && value == old(value)
    {
      this.column := column;
    }

    /** `UnmarshalJSON`: the two trials in turn; when neither decodes nothing changes. */
    method UnmarshalJSON(input: Input) returns (err: Option<Error>)
      modifies this
      ensures err == None
      ensures value == if Decode(input).Some? then Decode(input).value else old(value)
      ensures column == old(column)
    {
      if input.Malformed? {
        return None;
      }
      var m1 := ObjectShape(input.json);
      if m1.Some? {
        value := m1.value;
        return None;
      }
      var m2 := BareShape(input.json);
      if m2.Some? {
        value := m2.value;
        return None;
      }
      return None;
    }

    function MarshalJSON(): (r: Json)
      reads this
      ensures Decode(Doc(r)) == Some(value)
    {
      RoundTrip(value);
      Bool(value)
    }

    function BuildValue(): (r: string)
      reads this
      ensures r == "IS NOT NULL" <==> value
      ensures r == "IS NULL" <==> !value
    {
      E.NullTest(value)
    }

    /** `Build`: selects the non-NULL rows exactly when the value is `true`. */
    function Build(): (r: Frag)
      reads this
      ensures r == E.TestCondition(column, value)
      ensures WellFormed(r)
      ensures forall row :: Eval(r, row) == Some(if value then row(column) != Null else row(column) == Null)
    {
      forall row ensures Eval(E.TestCondition(column, value), row) ==
          Some(if value then row(column) != Null else row(column) == Null) {
        E.TestSelects(column, value, row);
      }
      E.TestWellFormed(column, value);
      Frag("? ?", [Ident(column), Safe(BuildValue())])
    }
  }
}
