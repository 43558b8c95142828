/**
 * The match filter of the root package (match.go): the column equals one of a list of
 * values. The list is a Go slice, so nil (`None`) and empty (`Some([])`) are told apart,
 * as `encoding/json` tells them apart.
 */
module Match {
  import opened Base
  import opened Wire
  import opened Sql

  /** The length of a Go slice; nil has none. */
  function Len(values: Option<seq<Json>>): nat {
    |values.GetOr([])|
  }

  /** Decoding into a fresh `[]interface{}`: `null` leaves it nil. */
  function SliceOf(j: Json): Option<Option<seq<Json>>> {
    match j
    case Null => Some(None)
    case Arr(items) => Some(Some(items))
    case _ => None
  }

  /** The first trial: an object whose "values" is an array, `null` or absent. */
  function ObjectList(j: Json): Option<Option<seq<Json>>> {
    FreshStruct(j, fields => SliceOf(Field(fields, "values")), None)
  }

  /** The second trial: an object whose "values" is anything, decoded into `interface{}`. */
  function ObjectAny(j: Json): Option<Json> {
    FreshStruct(j, fields => Some(Field(fields, "values")), Null)
  }

  /** The third trial: a bare array (or `null`). */
  function BareList(j: Json): Option<Option<seq<Json>>> {
    SliceOf(j)
  }

  /**
   * What `Values` becomes. Only a malformed input is an error, because the last trial
   * (`interface{}`) accepts every document. `null` gives nil, an array gives its items,
   * an object gives its "values" (nil when `null` or absent, the items when an array, the
   * value itself otherwise), and any other value is wrapped as the single element.
   */
  function Decode(input: Input): (r: Option<Option<seq<Json>>>)
    ensures r.None? <==> input.Malformed?
    ensures input == Doc(Null) ==> r == Some(None)
    ensures input.Doc? && input.json.Arr? ==> r == Some(Some(input.json.items))
    ensures input.Doc? && (input.json.Str? || input.json.Num? || input.json.Bool?) ==> r == Some(Some([input.json]))
    ensures input.Doc? && input.json.Obj? ==>
      var v := Field(input.json.fields, "values");
      r == Some(if v.Null? then None else if v.Arr? then Some(v.items) else Some([v]))
  {
    match input
    case Malformed => None
    case Doc(j) =>
      if ObjectList(j).Some? then ObjectList(j)
      else if ObjectAny(j).Some? then Some(Some([ObjectAny(j).value]))
      else if BareList(j).Some? then BareList(j)
      else Some(Some([j]))
  }

  /** `MarshalJSON`: a single value bare, otherwise the list (`null` for a nil slice). */
  function Encode(values: Option<seq<Json>>): (r: Json)
    ensures Len(values) == 1 ==> r == values.value[0]
    ensures Len(values) != 1 && values.Some? ==> r == Arr(values.value)
    ensures values.None? ==> r == Null
  {
    match values
    case None => Null
    case Some(vs) => if |vs| == 1 then vs[0] else Arr(vs)
  }

  /**
   * Marshalling and decoding again gives the list back, except for a single element that
   * is itself `null`, an array or an object, which the decoder reads as a shape of its own.
   */
  lemma RoundTrip(values: Option<seq<Json>>)
    requires Len(values) == 1 ==> !(values.value[0].Null? || values.value[0].Arr? || values.value[0].Obj?)
    ensures Decode(Doc(Encode(values))) == Some(values)
  {
    var j := Encode(values);
    if Len(values) == 1 {
      assert j == values.value[0];
      assert values.value == [j];
    } else if values.Some? {
      assert j == Arr(values.value);
    }
  }

  /** A single `null` comes back as a nil list, and a single array as its items. */
  lemma SingleShapesLost(items: seq<Json>)
    ensures Decode(Doc(Encode(Some([Null])))) == Some(None)
    ensures Decode(Doc(Encode(Some([Arr(items)])))) == Some(Some(items))
  {
  }

  /**
   * `Build`: no condition for no values, `? = ?` with the value bound for one, and
   * `? IN (?)` with the list for two or more.
   */
  function Condition(column: string, values: seq<Json>): (r: Option<Frag>)
    ensures r.None? <==> values == []
    ensures |values| == 1 ==> r == Some(Frag("? = ?", [Ident(column), Value(values[0])]))
    ensures |values| > 1 ==> r == Some(Frag("? IN (?)", [Ident(column), In(values)]))
  {
    if |values| > 1 then Some(Frag("? IN (?)", [Ident(column), In(values)]))
    else if |values| == 1 then Some(Frag("? = ?", [Ident(column), Value(values[0])]))
    else None
  }

  /**
   * Whatever the number of values, the condition selects exactly the rows whose column is
   * not NULL and equals one of the values, and has one argument per placeholder.
   */
  lemma ConditionSelects(column: string, values: seq<Json>, row: Row)
    requires values != []
    ensures WellFormed(Condition(column, values).value)
    ensures Eval(Condition(column, values).value, row) == Some(row(column) != Null && row(column) in values)
  {
    if |values| == 1 {
      OneSelects(column, values, row);
    } else {
      ManySelects(column, values, row);
    }
  }

  lemma OneSelects(column: string, values: seq<Json>, row: Row)
    requires |values| == 1
    ensures WellFormed(Condition(column, values).value)
    ensures Eval(Condition(column, values).value, row) == Some(row(column) != Null && row(column) in values)
  {
    var f := Frag("? = ?", [Ident(column), Value(values[0])]);
    EqualSelects(f, f.template, row);
    assert row(column) in values <==> row(column) == values[0];
  }

  lemma ManySelects(column: string, values: seq<Json>, row: Row)
    requires |values| > 1
    ensures WellFormed(Condition(column, values).value)
    ensures Eval(Condition(column, values).value, row) == Some(row(column) != Null && row(column) in values)
  {
    var f := Frag("? IN (?)", [Ident(column), In(values)]);
    InSelects(f, f.template, row);
  }

  lemma EqualSelects(f: Frag, t: string, row: Row)
    requires t == "? = ?" && f.template == t && |f.args| == 2 && f.args[0].Ident? && f.args[1].Value?
    ensures WellFormed(f)
    ensures Eval(f, row) == Some(row(f.args[0].name) != Null && row(f.args[0].name) == f.args[1].v)
  {
    assert multiset(t) == multiset{'?', ' ', '=', ' ', '?'};
  }

  lemma InSelects(f: Frag, t: string, row: Row)
    requires t == "? IN (?)" && f.template == t && |f.args| == 2 && f.args[0].Ident? && f.args[1].In?
    ensures WellFormed(f)
    ensures Eval(f, row) == Some(row(f.args[0].name) != Null && row(f.args[0].name) in f.args[1].values)
  {
    assert t != "? = ?" by { assert |t| != 5; }
    assert multiset(t) == multiset{'?', ' ', 'I', 'N', ' ', '(', '?', ')'};
  }

  class Match {
    var column: string
    var values: Option<seq<Json>>

    /** `NewMatch`: no values (a nil slice). */
    constructor(column: string)
      ensures this.column == column && values == None
    {
      this.column := column;
      values := None;
    }

    method Column(column: string)
      modifies this
      ensures this.column == column && values == old(values)
    {
      this.column := column;
    }

    /** `Matches`: appends after the existing values, in order; appending nothing to nil leaves nil. */
    method Matches(more: seq<Json>)
      modifies this
      ensures values == if old(values).None? && more == [] then None else Some(old(values).GetOr([]) + more)
      ensures column == old(column)
    {
      if more != [] || values.Some? {
        values := Some(values.GetOr([]) + more);
      }
    }

    /**
     * `UnmarshalJSON`: the four trials in order, the first that decodes replacing the
     * values; the column is untouched.
     */
    method UnmarshalJSON(input: Input) returns (err: Option<Error>)
      modifies this
      ensures err.None? <==> Decode(input).Some?
      ensures err.None? ==> values == Decode(input).value
      ensures err.Some? ==> err == Some(UnsupportedFormat) && values == old(values)
      ensures column == old(column)
    {
      if input.Malformed? {
        return Some(UnsupportedFormat);
      }
      var j := input.json;
      var m1 := ObjectList(j);
      if m1.Some? {
        values := m1.value;
        return None;
      }
      var m2 := ObjectAny(j);
      if m2.Some? {
        values := Some([m2.value]);
        return None;
      }
      var m3 := BareList(j);
      if m3.Some? {
        values := m3.value;
        return None;
      }
      // Every document decodes into `interface{}`.
      values := Some([j]);
      return None;
    }

    function MarshalJSON(): (r: Json)
      reads this
      ensures Len(values) == 1 ==> r == values.value[0]
      ensures Len(values) != 1 ==> Decode(Doc(r)) == Some(values)
    {
      Encode(values)
    }

    function Build(): (r: Option<Frag>)
      reads this
      ensures r.None? <==> Len(values) == 0
      ensures r.Some? ==> forall row :: Eval(r.value, row) == Some(row(column) != Null && row(column) in values.value)
    {
      var vs := values.GetOr([]);
      forall row ensures vs != [] ==> Eval(Condition(column, vs).value, row) == Some(row(column) != Null && row(column) in vs) {
        if vs != [] {
          ConditionSelects(column, vs, row);
        }
      }
      Condition(column, vs)
    }
  }
}
