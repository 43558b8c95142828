/**
 * The order sorter of the `sorter` package (pgquery/sorter/order.go): the direction is a
 * plain value, only the two string shapes are decoded, and no error is ever reported.
 */
module SorterOrder {
  import opened Base
  import opened Wire
  import opened Sql
  import opened Text
  import O = Order

  /**
   * The direction a document names, if any: a bare string, or the string under
   * "direction" of an object (or of `null`), read case-insensitively. Every other document,
   * and every string that names no direction, names none.
   */
  function Decode(input: Input): (r: Option<O.Direction>)
    ensures input.Doc? && input.json.Str? ==> r == O.ParseText(input.json.s)
    ensures input.Doc? && input.json.Obj? && Field(input.json.fields, "direction").Str? ==>
      r == O.ParseText(Field(input.json.fields, "direction").s)
    ensures r.Some? ==> input.Doc? && (input.json.Str? || (input.json.Obj? && Field(input.json.fields, "direction").Str?))
  {
    match input
    case Malformed => None
    case Doc(j) =>
      if O.ObjectText(j).Some? then O.ParseText(O.ObjectText(j).value)
      else if O.BareText(j).Some? then O.ParseText(O.BareText(j).value)
      else None
  }

  /** Decoding the marshalled direction gives it back. */
  lemma RoundTrip(d: O.Direction)
    ensures Decode(Doc(Str(O.DirectionText(d)))) == Some(d)
  {
    O.TextRoundTrip(d, O.DirectionText(d));
  }

  /** Spellings in any letter case name a direction; an unknown direction names nothing. */
  lemma DecodeExamples()
    ensures Decode(Doc(Str("Asc"))) == Some(O.Asc)
    ensures Decode(Doc(Str("up"))) == None
    ensures Decode(Doc(Num(1))) == None
  {
    assert Lower("Asc") == "asc";
    assert Lower("up") == "up";
  }

  /** The object shape of the examples. */
  lemma DecodeObjectExample(fields: map<string, Json>)
    requires fields == map["direction" := Str("desc")]
    ensures Decode(Doc(Obj(fields))) == Some(O.Desc)
  {
    assert Field(fields, "direction") == Str("desc");
    assert Lower("desc") == "desc";
  }

  class Order {
    var column: string
    var direction: O.Direction

    /** `NewOrder`: the given direction and no column. */
    constructor(direction: O.Direction)
      ensures this.direction == direction && column == ""
    {
      this.direction := direction;
      column := "";
    }

    method Column(column: string)
      modifies this
      ensures this.column == column && direction == old(direction)
    {
      this.column := column;
    }

    method Asc()
      modifies this
      ensures direction == O.Asc && column == old(column)
    {
      direction := O.Asc;
    }

    method Desc()
      modifies this
      ensures direction == O.Desc && column == old(column)
    {
      direction := O.Desc;
    }

    /** Sets the direction a decoded string names, if it names one. */
    method SetFromText(t: string)
      modifies this
      ensures direction == O.ParseText(t).GetOr(old(direction)) && column == old(column)
    {
      var d := Lower(t);
      if d == Lower(O.DirectionText(O.Asc)) {
        direction := O.Asc;
      }
      if d == Lower(O.DirectionText(O.Desc)) {
        direction := O.Desc;
      }
    }

    /** `UnmarshalJSON`: the object trial, then the bare string; it never reports an error. */
    method UnmarshalJSON(input: Input) returns (err: Option<Error>)
      modifies this
      ensures err == None
      ensures direction == Decode(input).GetOr(old(direction))
      ensures column == old(column)
    {
      if input.Malformed? {
        return None;
      }
      var m1 := O.ObjectText(input.json);
      if m1.Some? {
        SetFromText(m1.value);
        return None;
      }
      var m2 := O.BareText(input.json);
      if m2.Some? {
        SetFromText(m2.value);
        return None;
      }
      return None;
    }

    function MarshalJSON(): (r: Json)
      reads this
      ensures r == Str(O.DirectionText(direction))
      ensures Decode(Doc(r)) == Some(direction)
    {
      RoundTrip(direction);
      Str(O.DirectionText(direction))
    }

    /** `Build`: the order expression. */
    function Build(): (r: Frag)
      reads this
      ensures r == O.OrderExpr(column, direction)
    {
      O.OrderExpr(column, direction)
    }
  }

  /** `NewOrderAsc`: a zero filter made ascending. */
  method NewOrderAsc() returns (o: Order)
    ensures fresh(o) && o.column == "" && o.direction == O.Asc
  {
    o := new Order(O.Asc);
    o.Asc();
  }

  /** `NewOrderDesc`. */
  method NewOrderDesc() returns (o: Order)
    ensures fresh(o) && o.column == "" && o.direction == O.Desc
  {
    o := new Order(O.Asc);
    o.Desc();
  }
}
