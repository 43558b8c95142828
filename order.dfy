/**
 * The order sorter of the root package (order.go): a column and a direction, rendered as
 * `? ?` with the direction as trusted SQL, and decoded from four JSON shapes.
 */
module Order {
  import opened Base
  import opened Wire
  import opened Sql
  import opened Text

  /** `OrderDirection`: `Asc` is 0 and `Desc` is 1. */
  datatype Direction = Asc | Desc

  /** `OrderDirection.String`. */
  function DirectionText(d: Direction): (r: string)
    ensures Lower(r) == if d == Asc then "asc" else "desc"
    ensures forall i :: 0 <= i < |r| ==> 'A' <= r[i] <= 'Z'
  {
    match d
    case Asc => "ASC"
    case Desc => "DESC"
  }

  /** A direction string, compared case-insensitively; anything else names no direction. */
  function ParseText(t: string): (r: Option<Direction>)
    ensures r == Some(Asc) <==> Lower(t) == "asc"
    ensures r == Some(Desc) <==> Lower(t) == "desc"
    ensures r.None? <==> Lower(t) != "asc" && Lower(t) != "desc"
  {
    assert Lower(DirectionText(Asc)) == "asc";
    assert Lower(DirectionText(Desc)) == "desc";
    var d := Lower(t);
    if d == Lower(DirectionText(Desc)) then Some(Desc)
    else if d == Lower(DirectionText(Asc)) then Some(Asc)
    else None
  }

  /** A direction number: 0 and 1 name a direction, any other number none. */
  function ParseInt(n: Int64): (r: Option<Direction>)
    ensures r == Some(Asc) <==> n == 0
    ensures r == Some(Desc) <==> n == 1
  {
    if n == 0 then Some(Asc) else if n == 1 then Some(Desc) else None
  }

  /** The string of a direction reads back as that direction, in any letter case. */
  lemma TextRoundTrip(d: Direction, t: string)
    requires Lower(t) == Lower(DirectionText(d))
    ensures ParseText(DirectionText(d)) == Some(d) && ParseText(t) == Some(d)
  {
    assert Lower("ASC") == "asc";
    assert Lower("DESC") == "desc";
  }

  /** Reading a string is reading its lower-case form. */
  lemma ParseTextIgnoresCase(t: string)
    ensures ParseText(t) == ParseText(Lower(t))
  {
    LowerIdempotent(t);
  }

  // ---------------------------------------------------------------------------------------
  // JSON
  // ---------------------------------------------------------------------------------------

  /** The first trial: an object with a string (or `null`, or nothing) under "direction". */
  function ObjectText(j: Json): Option<string> {
    FreshStruct(j, fields => Fresh(Field(fields, "direction"), AsString, ""), "")
  }

  /** The second trial: a bare string (or `null`). */
  function BareText(j: Json): Option<string> {
    Fresh(j, AsString, "")
  }

  /** The third trial: an object with an integer (or `null`, or nothing) under "direction". */
  function ObjectInt(j: Json): Option<Int64> {
    FreshStruct(j, fields => Fresh(Field(fields, "direction"), AsInt64, 0), 0)
  }

  /** The fourth trial: a bare integer. */
  function BareInt(j: Json): Option<Int64> {
    Fresh(j, AsInt64, 0)
  }

  /** A direction value in the shape a document holds it: as a string, a number, or neither. */
  function ValueDirection(v: Json): Option<Option<Direction>> {
    if v.Null? then Some(None)
    else if v.Str? then Some(ParseText(v.s))
    else if AsInt64(v).Some? then Some(ParseInt(AsInt64(v).value))
    else None
  }

  /**
   * The outcome of `UnmarshalJSON`: `None` is an error, `Some(None)` a success that leaves
   * the direction alone, `Some(Some(d))` a success that sets `d`. A bare value and the
   * value under "direction" are read alike: a string by its letters, a 64-bit integer by
   * its number, and `null` (or an object without the key) as no direction; anything else
   * is an error.
   */
  function Decode(input: Input): (r: Option<Option<Direction>>)
    ensures input.Malformed? ==> r.None?
    ensures input.Doc? && !input.json.Obj? ==> r == ValueDirection(input.json)
    ensures input.Doc? && input.json.Obj? ==> r == ValueDirection(Field(input.json.fields, "direction"))
  {
    match input
    case Malformed => None
    case Doc(j) =>
      if ObjectText(j).Some? then Some(ParseText(ObjectText(j).value))
      else if BareText(j).Some? then Some(ParseText(BareText(j).value))
      else if ObjectInt(j).Some? then Some(ParseInt(ObjectInt(j).value))
      else if BareInt(j).Some? then Some(ParseInt(BareInt(j).value))
      else None
  }

  /** Shapes that decode but name no direction succeed and change nothing. */
  lemma UnknownValues()
    ensures Decode(Doc(Str("up"))) == Some(None)
    ensures Decode(Doc(Num(7))) == Some(None)
    ensures Decode(Doc(Obj(map[]))) == Some(None)
    ensures Decode(Doc(Bool(true))) == None
  {
    assert Lower("up") == "up";
  }

  /** Decoding the marshalled direction gives it back. */
  lemma RoundTrip(d: Direction)
    ensures Decode(Doc(Str(DirectionText(d)))) == Some(Some(d))
  {
    TextRoundTrip(d, DirectionText(d));
  }

  /** `Appender`: the column and the direction as trusted SQL. */
  function OrderExpr(column: string, d: Direction): (r: Frag)
    ensures WellFormed(r) && r.template == "? ?" && |r.args| == 2
    ensures r.args[0] == Ident(column) && r.args[1] == Safe(DirectionText(d))
    ensures forall a :: a in r.args ==> !a.Value? && !a.In?
  {
    assert multiset("? ?") == multiset{'?', ' ', '?'};
    Frag("? ?", [Ident(column), Safe(DirectionText(d))])
  }

  class Order {
    var column: string
    var direction: Direction

    /** `NewOrder`: ascending. */
    constructor(column: string)
      ensures this.column == column && direction == Direction.Asc
    {
      this.column := column;
      direction := Direction.Asc;
    }

    method Column(column: string)
      modifies this
      ensures this.column == column && direction == old(direction)
    {
      this.column := column;
    }

    method Asc()
      modifies this
      ensures direction == Direction.Asc && column == old(column)
    {
      direction := Direction.Asc;
    }

    method Desc()
      modifies this
      ensures direction == Direction.Desc && column == old(column)
    {
      direction := Direction.Desc;
    }

    /** Sets the direction a decoded string names, if it names one. */
    method SetFromText(t: string)
      modifies this
      ensures direction == ParseText(t).GetOr(old(direction)) && column == old(column)
    {
      var d := Lower(t);
      if d == Lower(DirectionText(Direction.Asc)) {
        direction := Direction.Asc;
      }
      if d == Lower(DirectionText(Direction.Desc)) {
        direction := Direction.Desc;
      }
    }

    /** Sets the direction a decoded number names, if it names one. */
    method SetFromInt(n: Int64)
      modifies this
      ensures direction == ParseInt(n).GetOr(old(direction)) && column == old(column)
    {
      if n == 0 {
        direction := Direction.Asc;
      }
      if n == 1 {
        direction := Direction.Desc;
      }
    }

    /**
     * `UnmarshalJSON`: the four trials in order; the first that decodes decides, and the
     * direction changes only when the decoded value names one.
     */
    method UnmarshalJSON(input: Input) returns (err: Option<Error>)
      modifies this
      ensures err.None? <==> Decode(input).Some?
      ensures err.Some? ==> err == Some(UnsupportedFormat)
      ensures direction == if Decode(input).Some? then Decode(input).value.GetOr(old(direction)) else old(direction)
      ensures column == old(column)
    {
      if input.Malformed? {
        return Some(UnsupportedFormat);
      }
      var j := input.json;
      var m1 := ObjectText(j);
      if m1.Some? {
        SetFromText(m1.value);
        return None;
      }
      var m2 := BareText(j);
      if m2.Some? {
        SetFromText(m2.value);
        return None;
      }
      var m3 := ObjectInt(j);
      if m3.Some? {
        SetFromInt(m3.value);
        return None;
      }
      var m4 := BareInt(j);
      if m4.Some? {
        SetFromInt(m4.value);
        return None;
      }
      return Some(UnsupportedFormat);
    }

    /** `MarshalJSON`: the direction's string, which decodes back to the direction. */
    function MarshalJSON(): (r: Json)
      reads this
      ensures r == Str(DirectionText(direction))
      ensures Decode(Doc(r)) == Some(Some(direction))
    {
      RoundTrip(direction);
      Str(DirectionText(direction))
    }

    function Appender(): (r: Frag)
      reads this
      ensures r == OrderExpr(column, direction)
    {
      OrderExpr(column, direction)
    }
  }

  /** `NewOrderAsc`. */
  method NewOrderAsc(column: string) returns (o: Order)
    ensures fresh(o) && o.column == column && o.direction == Asc
  {
    o := new Order(column);
    o.Asc();
  }

  /** `NewOrderDesc`. */
  method NewOrderDesc(column: string) returns (o: Order)
    ensures fresh(o) && o.column == column && o.direction == Desc
  {
    o := new Order(column);
    o.Desc();
  }
}
