/** The integer range filter of the root package (range.go). */
module Range {
  import opened Base
  import opened Wire
  import opened Sql
  import opened Bounds

  /** A bound is rendered as an integer parameter. */
  function IntParam(n: Int64): Json {
    Num(n)
  }

  class Range {
    var column: string
    var gt: Option<Int64>
    var gte: Option<Int64>
    var lt: Option<Int64>
    var lte: Option<Int64>

    /** `NewRange`: no bound is set. */
    constructor(column: string)
      ensures this.column == column
      ensures gt == None && gte == None && lt == None && lte == None
    {
      this.column := column;
      gt, gte, lt, lte := None, None, None, None;
    }

    function Bounds(): Quad<Option<Int64>>
      reads this
    {
      Quad(gt, gte, lt, lte)
    }

    method Column(column: string)
      modifies this
      ensures this.column == column && Bounds() == old(Bounds())
    {
      this.column := column;
    }

    method GreaterThan(value: Int64)
      modifies this
      ensures Bounds() == old(Bounds()).Set(Gt, Some(value)) && column == old(column)
    {
      gt := Some(value);
    }

    method GreaterThanEqual(value: Int64)
      modifies this
      ensures Bounds() == old(Bounds()).Set(Gte, Some(value)) && column == old(column)
    {
      gte := Some(value);
    }

    method LessThan(value: Int64)
      modifies this
      ensures Bounds() == old(Bounds()).Set(Lt, Some(value)) && column == old(column)
    {
      lt := Some(value);
    }

    method LessThanEqual(value: Int64)
      modifies this
      ensures Bounds() == old(Bounds()).Set(Lte, Some(value)) && column == old(column)
    {
      lte := Some(value);
    }

    /**
     * `Build`: the conditions of the group, one per set bound in the order lt, lte, gte, gt;
     * together they select exactly the rows whose column lies within every set bound.
     */
    function Build(): (r: seq<Frag>)
      reads this
      ensures |r| == |Emitted(Bounds())|
      ensures forall b :: b in Emitted(Bounds()) <==> Bounds().Get(b).Some?
      ensures forall row :: AllHold(r, row) <==>
        (forall b :: Bounds().Get(b).None?) || (row(column).Num? && InRange(row(column).n, Bounds()))
    {
      EmittedExactly(Bounds());
      Selects(column, Bounds());
      Conditions(column, Bounds(), IntParam)
    }
  }

  lemma Selects(column: string, q: Quad<Option<Int64>>)
    ensures forall row :: AllHold(Conditions(column, q, IntParam), row) <==>
      (forall b :: q.Get(b).None?) || (row(column).Num? && InRange(row(column).n, q))
  {
    forall row
      ensures AllHold(Conditions(column, q, IntParam), row) <==>
        (forall b :: q.Get(b).None?) || (row(column).Num? && InRange(row(column).n, q))
    {
      IntConditionsSelect(column, q, row);
      assert Conditions(column, q, IntParam) == Conditions(column, q, n => Num(n));
    }
  }

  /** A bound of 0 is emitted like any other: presence, not value, decides emission. */
  lemma ZeroBoundEmitted()
    ensures Conditions("age", Quad(None, None, Some(0), None), IntParam) == [Frag("? < ?", [Ident("age"), Value(Num(0))])]
  {
    var q: Quad<Option<Int64>> := Quad(None, None, Some(0), None);
    assert SetBounds(q, EmitOrder[3..]) == [];
    assert SetBounds(q, EmitOrder[1..]) == [];
    assert Emitted(q) == [Lt];
    assert Template(Lt) == "? < ?";
    var r := Conditions("age", q, IntParam);
    assert r[0] == Cond("age", Lt, Num(0));
  }
}
