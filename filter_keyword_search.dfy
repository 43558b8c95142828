/**
 * The keyword search filter of the `filter` package (pgquery/filter/keyword_search.go): the
 * same pattern, operator and column rules as the root package, with the keyword as a plain
 * string and a decoder that never reports an error.
 */
module FilterKeywordSearch {
  import opened Base
  import opened Wire
  import opened Sql
  import Search = KeywordSearch

  /** The first trial: an object with a string under "value"; `null` and absent give "". */
  function ObjectShape(j: Json): Option<string> {
    FreshStruct(j, fields => Fresh(Field(fields, "value"), AsString, ""), "")
  }

  /** The second trial: a bare string; `null` gives "". */
  function BareShape(j: Json): Option<string> {
    Fresh(j, AsString, "")
  }

  /**
   * The keyword a document decodes to, or `None` when both trials fail: `null` gives "",
   * a string gives itself, an object gives its "value" when that is a string (or "" when
   * it is `null` or absent); every other document leaves the keyword alone.
   */
  function Decode(input: Input): (r: Option<string>)
    ensures input == Doc(Null) ==> r == Some("")
    ensures input.Doc? && input.json.Str? ==> r == Some(input.json.s)
    ensures input.Doc? && input.json.Obj? ==>
      var v := Field(input.json.fields, "value");
      r == if v.Null? then Some("") else if v.Str? then Some(v.s) else None
    ensures r.Some? ==> input.Doc? && (input.json.Null? || input.json.Str? || input.json.Obj?)
  {
    match input
    case Malformed => None
    case Doc(j) =>
      var attempts := [ObjectShape(j), BareShape(j)];
      assert j.Str? ==> attempts[0].None? && attempts[1] == Some(j.s);
      match FirstSome(attempts)
      case None => None
      case Some(found) => Some(found.1)
  }

  /** Decoding the marshalled keyword, a bare string, gives it back. */
  lemma RoundTrip(value: string)
    ensures Decode(Doc(Str(value))) == Some(value)
  {
  }

  class KeywordSearch {
    var column: string
    var caseInsensitive: bool
    var matchAll: bool
    var matchStart: bool
    var matchEnd: bool
    var value: string

    /** `NewKeywordSearch` takes the keyword, not the column, which starts empty. */
    constructor(value: string)
      ensures this.value == value && column == ""
      ensures !caseInsensitive && !matchAll && !matchStart && !matchEnd
    {
      this.value := value;
      column := "";
      caseInsensitive, matchAll, matchStart, matchEnd := false, false, false, false;
    }

    method Column(column: string)
      modifies this
      ensures this.column == column && value == old(value)
      ensures caseInsensitive == old(caseInsensitive) && matchAll == old(matchAll)
      ensures matchStart == old(matchStart) && matchEnd == old(matchEnd)
    {
      this.column := column;
    }

    method CaseInsensitive()
      modifies this
      ensures caseInsensitive && column == old(column) && value == old(value)
      ensures matchAll == old(matchAll) && matchStart == old(matchStart) && matchEnd == old(matchEnd)
    {
      caseInsensitive := true;
    }

    method MatchAll()
      modifies this
      ensures matchAll && column == old(column) && value == old(value)
      ensures caseInsensitive == old(caseInsensitive) && matchStart == old(matchStart) && matchEnd == old(matchEnd)
    {
      matchAll := true;
    }

    method MatchStart()
      modifies this
      ensures matchStart && column == old(column) && value == old(value)
      ensures caseInsensitive == old(caseInsensitive) && matchAll == old(matchAll) && matchEnd == old(matchEnd)
    {
      matchStart := true;
    }

    method MatchEnd()
      modifies this
      ensures matchEnd && column == old(column) && value == old(value)
      ensures caseInsensitive == old(caseInsensitive) && matchAll == old(matchAll) && matchStart == old(matchStart)
    {
      matchEnd := true;
    }

    /**
     * `UnmarshalJSON`: the object trial first, then the bare trial; the first that decodes
     * sets the keyword, and when neither does nothing changes. It never reports an error.
     */
    method UnmarshalJSON(input: Input) returns (err: Option<Error>)
      modifies this
      ensures err == None
      ensures value == if Decode(input).Some? then Decode(input).value else old(value)
      ensures column == old(column) && caseInsensitive == old(caseInsensitive)
      ensures matchAll == old(matchAll) && matchStart == old(matchStart) && matchEnd == old(matchEnd)
    {
      if input.Malformed? {
        return None;
      }
      var m1 := ObjectShape(input.json);
      if m1.Some? {
        value := m1.value;
        return None;
      }
      var m2 := BareShape(input.json);
      if m2.Some? {
        value := m2.value;
        return None;
      }
      return None;
    }

    function MarshalJSON(): (r: Json)
      reads this
      ensures Decode(Doc(r)) == Some(value)
    {
      RoundTrip(value);
      Str(value)
    }

    /**
     * `buildValue`: the step that adds the leading `%` rebuilds from the keyword itself,
     * which is the same text as the value built so far at that point.
     */
    method BuildValue() returns (v: string)
      ensures v == Search.Pattern(value, matchAll, matchStart, matchEnd)
    {
      v := value;
      if matchAll {
        return v;
      }
      if !matchStart {
        v := "%" + value;
      }
      if !matchEnd {
        v := v + "%";
      }
    }

    /** `Build`: the arguments handed to the condition function. */
    method Build() returns (r: Frag)
      ensures r == Frag("? ? ?", [Search.SearchColumn(column), Safe(Search.Operator(caseInsensitive)),
                                  Value(Str(Search.Pattern(value, matchAll, matchStart, matchEnd)))])
      ensures WellFormed(r)
    {
      var v := BuildValue();
      var c := Search.SearchColumn(column);
      var like := Search.Operator(caseInsensitive);
      r := Frag("? ? ?", [c, Safe(like), Value(Str(v))]);
      Search.SearchTemplateHoles();
    }
  }
}
