/**
 * The keyword search filter of the root package (keyword_search.go): a `LIKE`/`ILIKE`
 * condition on a column (or on an array column flattened by `array_to_string`), with the
 * keyword wrapped in `%` wildcards according to the match flags.
 */
module KeywordSearch {
  import opened Base
  import opened Wire
  import opened Sql
  import opened Text
  import opened Like

  /** The column suffix that asks for a search through an array column. */
  const ArraySuffix: string := ",array"

  /**
   * The pattern for keyword `v`: the keyword as it is with `matchAll`, otherwise with a `%`
   * in front unless `matchStart` and a `%` behind unless `matchEnd`.
   */
  function Pattern(v: string, matchAll: bool, matchStart: bool, matchEnd: bool): (r: string)
    ensures |v| <= |r| <= |v| + 2
    ensures Contains(r, v)
  {
    var p := if matchAll then v else (if !matchStart then "%" else "") + v + (if !matchEnd then "%" else "");
    var front := if !matchAll && !matchStart then 1 else 0;
    assert p[front..][..|v|] == v;
    assert HasPrefix(p[front..], v);
    p
  }

  /**
   * For a keyword without wildcard characters, the condition selects the texts equal to
   * the keyword (`matchAll`, or both `matchStart` and `matchEnd`), starting with it
   * (`matchStart`), ending with it (`matchEnd`), or containing it (no flag).
   */
  lemma PatternSelects(v: string, matchAll: bool, matchStart: bool, matchEnd: bool, t: string)
    requires Literal(v)
    ensures Matches(Pattern(v, matchAll, matchStart, matchEnd), t) <==>
      if matchAll || (matchStart && matchEnd) then t == v
      else if matchStart then HasPrefix(t, v)
      else if matchEnd then HasSuffix(t, v)
      else Contains(t, v)
  {
    var p := Pattern(v, matchAll, matchStart, matchEnd);
    if matchAll || (matchStart && matchEnd) {
      assert p == v;
      Exactly(v, t);
    } else if matchStart {
      assert p == v + "%";
      StartsWith(v, t);
    } else if matchEnd {
      assert p == "%" + v;
      EndsWith(v, t);
    } else {
      Within(v, t);
    }
  }

  /** The wildcards are the only characters the pattern adds: stripping them gives the keyword back. */
  lemma PatternKeyword(v: string, matchAll: bool, matchStart: bool, matchEnd: bool)
    ensures var p := Pattern(v, matchAll, matchStart, matchEnd);
      var front := if !matchAll && !matchStart then 1 else 0;
      var back := if !matchAll && !matchEnd then 1 else 0;
      |p| == front + |v| + back && p[front..|p| - back] == v
      && (front == 1 ==> p[0] == '%') && (back == 1 ==> p[|p| - 1] == '%')
  {
  }

  /** The patterns of the match flags for keyword "keyword". */
  lemma PatternExamples(v: string)
    requires v == "keyword"
    ensures Pattern(v, false, false, false) == "%keyword%"
    ensures Pattern(v, false, true, false) == "keyword%"
    ensures Pattern(v, false, false, true) == "%keyword"
    ensures Pattern(v, true, false, false) == "keyword"
  {
    assert "%" + v + "%" == "%keyword%";
    assert v + "%" == "keyword%";
    assert "%" + v == "%keyword";
  }

  /** `buildLike`. */
  function Operator(caseInsensitive: bool): (r: string)
    ensures r == "ILIKE" <==> caseInsensitive
    ensures r == "LIKE" <==> !caseInsensitive
  {
    if caseInsensitive then "ILIKE" else "LIKE"
  }

  /**
   * `buildColumn`: a column ending in ",array" is searched through `array_to_string` of the
   * column without that one suffix, joined by ","; any other column is an identifier.
   */
  function SearchColumn(column: string): (r: Arg)
    ensures r.ArrayToString? <==> HasSuffix(column, ArraySuffix)
    ensures r.ArrayToString? ==> r.column + ArraySuffix == column && r.sep == ","
    ensures !r.ArrayToString? ==> r == Ident(column)
  {
    if HasSuffix(column, ArraySuffix) then ArrayToString(TrimSuffix(column, ArraySuffix), ",")
    else Ident(column)
  }

  /** Only one ",array" is removed. */
  lemma SearchColumnOnce()
    ensures SearchColumn("tags,array,array") == ArrayToString("tags,array", ",")
    ensures SearchColumn("tags") == Ident("tags")
  {
    assert HasSuffix("tags,array,array", ArraySuffix);
    assert !HasSuffix("tags", ArraySuffix);
  }

  // ---------------------------------------------------------------------------------------
  // JSON
  // ---------------------------------------------------------------------------------------

  /** The first trial: an object with an optional string under "value" (`null` is the zero struct). */
  function ObjectShape(j: Json): Option<Option<string>> {
    FreshStruct(j, fields => FreshPtr(Field(fields, "value"), AsString), None)
  }

  /** The second trial: a bare string or `null`. */
  function BareShape(j: Json): Option<Option<string>> {
    FreshPtr(j, AsString)
  }

  /**
   * The `Value` a document decodes to, or `None` when both trials fail: `null` clears it, a
   * string sets it, an object sets it from "value" when that is a string, `null` or absent;
   * every other document is an error.
   */
  function Decode(input: Input): (r: Option<Option<string>>)
    ensures input == Doc(Null) ==> r == Some(None)
    ensures input.Doc? && input.json.Str? ==> r == Some(Some(input.json.s))
    ensures input.Doc? && input.json.Obj? ==>
      var v := Field(input.json.fields, "value");
      r == if v.Null? then Some(None) else if v.Str? then Some(Some(v.s)) else None
    ensures r.Some? ==> input.Doc? && (input.json.Null? || input.json.Str? || input.json.Obj?)
  {
    match input
    case Malformed => None
    case Doc(j) =>
      var attempts := [ObjectShape(j), BareShape(j)];
      assert j.Str? ==> attempts[0].None? && attempts[1] == Some(Some(j.s));
      match FirstSome(attempts)
      case None => None
      case Some(found) => Some(found.1)
  }

  /** `MarshalJSON`: the keyword as a bare string, or `null` when unset. */
  function Encode(value: Option<string>): (r: Json)
    ensures r.Null? <==> value.None?
    ensures value.Some? ==> r == Str(value.value)
  {
    match value
    case None => Null
    case Some(s) => Str(s)
  }

  /** Decoding the marshalled keyword gives it back. */
  lemma RoundTrip(value: Option<string>)
    ensures Decode(Doc(Encode(value))) == Some(value)
  {
  }

  // ---------------------------------------------------------------------------------------
  // The filter
  // ---------------------------------------------------------------------------------------

  class KeywordSearch {
    var column: string
    var caseInsensitive: bool
    var matchAll: bool
    var matchStart: bool
    var matchEnd: bool
    var value: Option<string>

    /** `NewKeywordSearch`: no flag set and no keyword. */
    constructor(column: string)
      ensures this.column == column && value == None
      ensures !caseInsensitive && !matchAll && !matchStart && !matchEnd
    {
      this.column := column;
      caseInsensitive, matchAll, matchStart, matchEnd := false, false, false, false;
      value := None;
    }

    method Column(column: string)
      modifies this
      ensures this.column == column && value == old(value)
      ensures caseInsensitive == old(caseInsensitive) && matchAll == old(matchAll)
      ensures matchStart == old(matchStart) && matchEnd == old(matchEnd)
    {
      this.column := column;
    }

    method CaseInsensitive()
      modifies this
      ensures caseInsensitive && column == old(column) && value == old(value)
      ensures matchAll == old(matchAll) && matchStart == old(matchStart) && matchEnd == old(matchEnd)
    {
      caseInsensitive := true;
    }

    method MatchAll()
      modifies this
      ensures matchAll && column == old(column) && value == old(value)
      ensures caseInsensitive == old(caseInsensitive) && matchStart == old(matchStart) && matchEnd == old(matchEnd)
    {
      matchAll := true;
    }

    method MatchStart()
      modifies this
      ensures matchStart && column == old(column) && value == old(value)
      ensures caseInsensitive == old(caseInsensitive) && matchAll == old(matchAll) && matchEnd == old(matchEnd)
    {
      matchStart := true;
    }

    method MatchEnd()
      modifies this
      ensures matchEnd && column == old(column) && value == old(value)
      ensures caseInsensitive == old(caseInsensitive) && matchAll == old(matchAll) && matchStart == old(matchStart)
    {
      matchEnd := true;
    }

    /** `Keyword`. */
    method Keyword(keyword: string)
      modifies this
      ensures value == Some(keyword) && column == old(column)
      ensures caseInsensitive == old(caseInsensitive) && matchAll == old(matchAll)
      ensures matchStart == old(matchStart) && matchEnd == old(matchEnd)
    {
      value := Some(keyword);
    }

    /**
     * `UnmarshalJSON`: the object trial first, then the bare trial; the first that decodes
     * sets the keyword. Only the keyword changes, and only on success.
     */
    method UnmarshalJSON(input: Input) returns (err: Option<Error>)
      modifies this
      ensures err.None? <==> Decode(input).Some?
      ensures err.None? ==> value == Decode(input).value
      ensures err.Some? ==> err == Some(UnsupportedFormat) && value == old(value)
      ensures column == old(column) && caseInsensitive == old(caseInsensitive)
      ensures matchAll == old(matchAll) && matchStart == old(matchStart) && matchEnd == old(matchEnd)
    {
      if input.Malformed? {
        return Some(UnsupportedFormat);
      }
      var m1 := ObjectShape(input.json);
      if m1.Some? {
        value := m1.value;
        return None;
      }
      var m2 := BareShape(input.json);
      if m2.Some? {
        value := m2.value;
        return None;
      }
      return Some(UnsupportedFormat);
    }

    function MarshalJSON(): (r: Json)
      reads this
      ensures Decode(Doc(r)) == Some(value)
    {
      RoundTrip(value);
      Encode(value)
    }

    /** `buildValue`: an unset keyword counts as "". */
    method BuildValue() returns (v: string)
      ensures v == Pattern(value.GetOr(""), matchAll, matchStart, matchEnd)
    {
      v := "";
      if value.Some? {
        v := value.value;
      }
      if matchAll {
        return v;
      }
      if !matchStart {
        v := "%" + v;
      }
      if !matchEnd {
        v := v + "%";
      }
    }

    /**
     * `Appender`: `? ? ?` with the searched column, the operator as trusted SQL and the
     * pattern as a bound parameter.
     */
    method Appender() returns (r: Frag)
      ensures r == Frag("? ? ?", [SearchColumn(column), Safe(Operator(caseInsensitive)),
                                  Value(Str(Pattern(value.GetOr(""), matchAll, matchStart, matchEnd)))])
      ensures WellFormed(r)
    {
      var v := BuildValue();
      var c := SearchColumn(column);
      var like := Operator(caseInsensitive);
      r := Frag("? ? ?", [c, Safe(like), Value(Str(v))]);
      SearchTemplateHoles();
    }
  }

  lemma SearchTemplateHoles()
    ensures Holes("? ? ?") == 3
  {
    assert multiset("? ? ?") == multiset{'?', ' ', '?', ' ', '?'};
  }
}
