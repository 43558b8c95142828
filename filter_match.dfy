/**
 * The match filter of the `filter` package (pgquery/filter/match.go): two decode
 * attempts run one after the other, each overwriting the values when it decodes, and no
 * error is ever reported.
 */
module FilterMatch {
  import opened Base
  import opened Wire
  import opened Sql
  import M = Match

  /** The first attempt: an object with a string (or `null`, or nothing) under "values". */
  function StringAttempt(j: Json): Option<seq<Json>> {
    if j.Obj? then
      match Fresh(Field(j.fields, "values"), AsString, "")
      case Some(s) => Some([Str(s)])
      case None => None
    else None
  }

  /** The second attempt: an object with an array (or `null`, or nothing) under "values". */
  function ListAttempt(j: Json): Option<Option<seq<Json>>> {
    if j.Obj? then M.SliceOf(Field(j.fields, "values")) else None
  }

  /**
   * The values after decoding `input` into a filter holding `values`: an object whose
   * "values" is an array gives its items, one whose "values" is `null` or absent gives nil
   * (the first attempt's [""] is overwritten by the second), a string gives that one
   * string; every other input leaves the values alone.
   */
  function Decode(values: Option<seq<Json>>, input: Input): (r: Option<seq<Json>>)
    requires input != Doc(Null)
    ensures !(input.Doc? && input.json.Obj?) ==> r == values
    ensures input.Doc? && input.json.Obj? ==>
      var v := Field(input.json.fields, "values");
      r == if v.Null? then None else if v.Arr? then Some(v.items) else if v.Str? then Some([v]) else values
  {
    match input
    case Malformed => values
    case Doc(j) =>
      var first := if StringAttempt(j).Some? then Some(StringAttempt(j).value) else values;
      if ListAttempt(j).Some? then ListAttempt(j).value else first
  }

  /** The example inputs of the two attempts. */
  lemma DecodeExamples(values: Option<seq<Json>>)
    ensures Decode(values, Doc(Obj(map[]))) == None
    ensures Decode(values, Doc(Obj(map["values" := Str("match")]))) == Some([Str("match")])
    ensures Decode(values, Doc(Arr([Str("a"), Str("b")]))) == values
    ensures Decode(values, Doc(Obj(map["values" := Num(1)]))) == values
  {
  }

  class Match {
    var column: string
    var values: Option<seq<Json>>

    /** `NewMatch(values...)`: the values in the order given; none gives a nil slice. */
    constructor(values: seq<Json>)
      ensures column == "" && this.values == if values == [] then None else Some(values)
    {
      column := "";
      this.values := if values == [] then None else Some(values);
    }

    method Column(column: string)
      modifies this
      ensures this.column == column && values == old(values)
    {
      this.column := column;
    }

    /** `UnmarshalJSON`: the two attempts in turn; a `null` document makes Go dereference nil. */
    method UnmarshalJSON(input: Input) returns (err: Option<Error>)
      requires input != Doc(Null)
      modifies this
      ensures err == None
      ensures values == Decode(old(values), input)
      ensures column == old(column)
    {
      if input.Malformed? {
        return None;
      }
      var t := StringAttempt(input.json);
      if t.Some? {
        values := Some(t.value);
      }
      var tt := ListAttempt(input.json);
      if tt.Some? {
        values := tt.value;
      }
      return None;
    }

    function Build(): (r: Option<Frag>)
      reads this
      ensures r.None? <==> M.Len(values) == 0
      ensures r.Some? ==> forall row :: Eval(r.value, row) == Some(row(column) != Null && row(column) in values.value)
    {
      var vs := values.GetOr([]);
      forall row ensures vs != [] ==> Eval(M.Condition(column, vs).value, row) == Some(row(column) != Null && row(column) in vs) {
        if vs != [] {
          M.ConditionSelects(column, vs, row);
        }
      }
      M.Condition(column, vs)
    }
  }
}
