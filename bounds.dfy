/**
 * The four bounds of the range-style filters (Range and DateTimeRange in both packages) and
 * their condition emission: one `? <op> ?` fragment per set bound, always in the order
 * lt, lte, gte, gt, with the column as an identifier and the bound as a parameter.
 */
module Bounds {
  import opened Base
  import opened Wire
  import opened Sql

  datatype Bound = Gt | Gte | Lt | Lte

  /** One value per bound, e.g. the four pointer fields of a range filter. */
  datatype Quad<T> = Quad(gt: T, gte: T, lt: T, lte: T) {
    function Get(b: Bound): T {
      match b
      case Gt => gt
      case Gte => gte
      case Lt => lt
      case Lte => lte
    }

    function Set(b: Bound, v: T): (r: Quad<T>)
      ensures r.Get(b) == v
      ensures forall c :: c != b ==> r.Get(c) == Get(c)
    {
      match b
      case Gt => this.(gt := v)
      case Gte => this.(gte := v)
      case Lt => this.(lt := v)
      case Lte => this.(lte := v)
    }
  }

  function Op(b: Bound): string {
    match b
    case Gt => ">"
    case Gte => ">="
    case Lt => "<"
    case Lte => "<="
  }

  function Template(b: Bound): string {
    "? " + Op(b) + " ?"
  }

  /** The order in which the set bounds are emitted. */
  const EmitOrder: seq<Bound> := [Lt, Lte, Gte, Gt]

  /** The position of a bound in `EmitOrder`. */
  function Rank(b: Bound): nat {
    match b
    case Lt => 0
    case Lte => 1
    case Gte => 2
    case Gt => 3
  }

  /** Whether `x` lies on the allowed side of bound `b` with limit `n`. */
  predicate Satisfies(x: int, b: Bound, n: int) {
    match b
    case Gt => x > n
    case Gte => x >= n
    case Lt => x < n
    case Lte => x <= n
  }

  /** The bounds of `bs` that are set in `q`, in the order of `bs`. */
  function SetBounds<V>(q: Quad<Option<V>>, bs: seq<Bound>): (r: seq<Bound>)
    ensures |r| <= |bs|
    ensures forall b :: b in r <==> b in bs && q.Get(b).Some?
    ensures forall i :: 0 <= i < |r| ==> q.Get(r[i]).Some?
  {
    if bs == [] then []
    else if q.Get(bs[0]).Some? then [bs[0]] + SetBounds(q, bs[1..])
    else SetBounds(q, bs[1..])
  }

  /** The bounds a filter with bounds `q` emits, in emission order. */
  function Emitted<V>(q: Quad<Option<V>>): (r: seq<Bound>)
    ensures forall b :: b in r <==> q.Get(b).Some?
    ensures |r| <= 4
  {
    assert forall b :: EmitOrder[Rank(b)] == b;
    SetBounds(q, EmitOrder)
  }

  /** One condition: `column <op> value`. */
  function Cond(column: string, b: Bound, value: Json): Frag {
    Frag(Template(b), [Ident(column), Value(value)])
  }

  function ConditionsOf<V>(column: string, q: Quad<Option<V>>, render: V -> Json, bs: seq<Bound>): (r: seq<Frag>)
    ensures |r| == |SetBounds(q, bs)|
    ensures forall i :: 0 <= i < |r| ==>
      r[i] == Cond(column, SetBounds(q, bs)[i], render(q.Get(SetBounds(q, bs)[i]).value))
  {
    if bs == [] then []
    else if q.Get(bs[0]).Some? then
      [Cond(column, bs[0], render(q.Get(bs[0]).value))] + ConditionsOf(column, q, render, bs[1..])
    else ConditionsOf(column, q, render, bs[1..])
  }

  /** The conditions of a range-style filter; `render` turns a bound into its parameter. */
  function Conditions<V>(column: string, q: Quad<Option<V>>, render: V -> Json): (r: seq<Frag>)
    ensures |r| == |Emitted(q)|
    ensures forall i :: 0 <= i < |r| ==>
      r[i] == Cond(column, Emitted(q)[i], render(q.Get(Emitted(q)[i]).value))
  {
    ConditionsOf(column, q, render, EmitOrder)
  }

  lemma {:induction false} SetBoundsOrdered<V>(q: Quad<Option<V>>, bs: seq<Bound>)
    requires forall i, j :: 0 <= i < j < |bs| ==> Rank(bs[i]) < Rank(bs[j])
    ensures forall i, j :: 0 <= i < j < |SetBounds(q, bs)| ==>
      Rank(SetBounds(q, bs)[i]) < Rank(SetBounds(q, bs)[j])
  {
    if bs != [] {
      SetBoundsOrdered(q, bs[1..]);
      var rest := SetBounds(q, bs[1..]);
      assert forall b :: b in rest ==> Rank(bs[0]) < Rank(b) by {
        forall b | b in rest ensures Rank(bs[0]) < Rank(b) {
          var k :| 1 <= k < |bs| && bs[k] == b;
        }
      }
    }
  }

  /**
   * A bound is emitted exactly when it is set, once, and the emitted bounds come in the
   * order lt, lte, gte, gt; so with no bound set there is no condition at all.
   */
  lemma EmittedExactly<V>(q: Quad<Option<V>>)
    ensures forall b :: b in Emitted(q) <==> q.Get(b).Some?
    ensures forall i, j :: 0 <= i < j < |Emitted(q)| ==> Rank(Emitted(q)[i]) < Rank(Emitted(q)[j])
    ensures Emitted(q) == [] <==> forall b :: q.Get(b).None?
  {
    SetBoundsOrdered(q, EmitOrder);
    assert forall b :: b in EmitOrder by {
      forall b ensures b in EmitOrder { assert EmitOrder[Rank(b)] == b; }
    }
    if Emitted(q) != [] {
      assert q.Get(Emitted(q)[0]).Some?;
    }
  }

  /**
   * Every condition has two placeholders and two arguments: the column as an identifier and
   * the bound as a parameter, so no bound value is ever part of the template text.
   */
  lemma ConditionsWellFormed<V>(column: string, q: Quad<Option<V>>, render: V -> Json)
    ensures forall f :: f in Conditions(column, q, render) ==>
      WellFormed(f) && f.args[0] == Ident(column) && f.args[1].Value?
  {
    forall f | f in Conditions(column, q, render)
      ensures WellFormed(f) && f.args[0] == Ident(column) && f.args[1].Value?
    {
      var i :| 0 <= i < |Conditions(column, q, render)| && Conditions(column, q, render)[i] == f;
      TemplateHoles(Emitted(q)[i]);
    }
  }

  lemma TemplateHoles(b: Bound)
    ensures Holes(Template(b)) == 2
  {
    var op := Op(b);
    assert '?' !in op;
    assert multiset(op)['?'] == 0;
    assert multiset("? ") == multiset{'?', ' '};
    assert multiset(" ?") == multiset{' ', '?'};
    assert multiset(Template(b)) == multiset("? ") + multiset(op) + multiset(" ?");
  }

  /** What the database makes of one integer condition. */
  lemma EvalCond(column: string, b: Bound, n: int, row: Row)
    ensures Eval(Cond(column, b, Num(n)), row) ==
      Some(row(column).Num? && Satisfies(row(column).n, b, n))
  {
    var t := Template(b);
    assert t != "? = ?" && t != "? IN (?)" && t != "? ?" by {
      assert |t| >= 5 && t[2] != '=' && t[2] != 'I';
    }
    match b
    case Lt =>
      assert t == "? < ?";
    case Lte =>
      assert t == "? <= ?";
      assert t != "? < ?" by { assert |t| != 5; }
    case Gte =>
      assert t == "? >= ?";
      assert t != "? < ?" && t != "? <= ?" by { assert t[2] == '>'; }
    case Gt =>
      assert t == "? > ?";
      assert t != "? < ?" && t != "? <= ?" && t != "? >= ?" by { assert t[2] == '>' && |t| == 5; }
  }

  /** A row value lies within every set bound of `q`. */
  predicate InRange(x: int, q: Quad<Option<Int64>>) {
    forall b :: q.Get(b).Some? ==> Satisfies(x, b, q.Get(b).value)
  }

  lemma {:induction false} SelectsOn(column: string, q: Quad<Option<Int64>>, row: Row, bs: seq<Bound>)
    ensures AllHold(ConditionsOf(column, q, n => Num(n), bs), row) <==>
      SetBounds(q, bs) == [] ||
      (row(column).Num? && forall b :: b in SetBounds(q, bs) ==> Satisfies(row(column).n, b, q.Get(b).value))
  {
    if bs != [] {
      SelectsOn(column, q, row, bs[1..]);
      var b := bs[0];
      if q.Get(b).Some? {
        EvalCond(column, b, q.Get(b).value, row);
        var r := ConditionsOf(column, q, n => Num(n), bs);
        assert r[1..] == ConditionsOf(column, q, n => Num(n), bs[1..]);
        assert AllHold(r, row) <==> Eval(r[0], row) == Some(true) && AllHold(r[1..], row) by {
          if Eval(r[0], row) == Some(true) && AllHold(r[1..], row) {
            forall i | 0 <= i < |r| ensures Eval(r[i], row) == Some(true) {
              if i > 0 { assert r[i] == r[1..][i - 1]; }
            }
          }
        }
      }
    }
  }

  /**
   * The conditions of an integer range filter, joined by AND, select exactly the rows whose
   * column lies within every set bound (a NULL column matches no condition); with no bound
   * set the group is empty and selects every row.
   */
  lemma IntConditionsSelect(column: string, q: Quad<Option<Int64>>, row: Row)
    ensures AllHold(Conditions(column, q, n => Num(n)), row) <==>
      (forall b :: q.Get(b).None?) || (row(column).Num? && InRange(row(column).n, q))
  {
    SelectsOn(column, q, row, EmitOrder);
    EmittedExactly(q);
  }
}
