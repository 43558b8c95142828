/**
 * The relative datetime range filter of the root package (relative_datetime_range.go): a
 * pivot instant `at` and two sets of time units, `ago` and `upcoming`, rendered as
 * PostgreSQL interval strings such as "1 year 2 days".
 */
module RelativeDateTimeRange {
  import opened Base
  import opened Wire
  import opened Sql
  import opened Clock
  import opened Text

  // ---------------------------------------------------------------------------------------
  // Units and their wording
  // ---------------------------------------------------------------------------------------

  datatype Unit =
    | Millennium | Century | Decade | Year | Month | Week | Day
    | Hour | Minute | Second | Millisecond | Microsecond

  /** The order in which the units appear in an interval string, largest first. */
  const Hierarchy: seq<Unit> :=
    [Millennium, Century, Decade, Year, Month, Week, Day, Hour, Minute, Second, Millisecond, Microsecond]

  /** The singular word of a unit, which is also its JSON key. */
  function Singular(u: Unit): string {
    match u
    case Millennium => "millennium"
    case Century => "century"
    case Decade => "decade"
    case Year => "year"
    case Month => "month"
    case Week => "week"
    case Day => "day"
    case Hour => "hour"
    case Minute => "minute"
    case Second => "second"
    case Millisecond => "millisecond"
    case Microsecond => "microsecond"
  }

  function Plural(u: Unit): string {
    match u
    case Millennium => "millenniums"
    case Century => "centuries"
    case Decade => "decades"
    case Year => "years"
    case Month => "months"
    case Week => "weeks"
    case Day => "days"
    case Hour => "hours"
    case Minute => "minutes"
    case Second => "seconds"
    case Millisecond => "milliseconds"
    case Microsecond => "microseconds"
  }

  /** The unit a word names, in either number. */
  function WordUnit(w: string): Option<Unit> {
    if w == "millennium" || w == "millenniums" then Some(Millennium)
    else if w == "century" || w == "centuries" then Some(Century)
    else if w == "decade" || w == "decades" then Some(Decade)
    else if w == "year" || w == "years" then Some(Year)
    else if w == "month" || w == "months" then Some(Month)
    else if w == "week" || w == "weeks" then Some(Week)
    else if w == "day" || w == "days" then Some(Day)
    else if w == "hour" || w == "hours" then Some(Hour)
    else if w == "minute" || w == "minutes" then Some(Minute)
    else if w == "second" || w == "seconds" then Some(Second)
    else if w == "millisecond" || w == "milliseconds" then Some(Millisecond)
    else if w == "microsecond" || w == "microseconds" then Some(Microsecond)
    else None
  }

  /** Every word names exactly its own unit, and no word contains a space. */
  lemma WordsOf(u: Unit)
    ensures WordUnit(Singular(u)) == Some(u) && WordUnit(Plural(u)) == Some(u)
    ensures ' ' !in Singular(u) && ' ' !in Plural(u)
    ensures Singular(u) != Plural(u)
  {
    SingularNamesUnit(u);
    PluralNamesUnit(u);
    NoSpaceInWords(u);
  }

  lemma SingularNamesUnit(u: Unit)
    ensures WordUnit(Singular(u)) == Some(u)
  {
  }

  lemma PluralNamesUnit(u: Unit)
    ensures WordUnit(Plural(u)) == Some(u)
  {
  }

  lemma NoSpaceInWords(u: Unit)
    ensures ' ' !in Singular(u) && ' ' !in Plural(u)
    ensures Singular(u) != Plural(u)
  {
  }

  lemma InHierarchy(u: Unit)
    ensures u in Hierarchy
  {
    match u
    case Millennium => assert Hierarchy[0] == u;
    case Century => assert Hierarchy[1] == u;
    case Decade => assert Hierarchy[2] == u;
    case Year => assert Hierarchy[3] == u;
    case Month => assert Hierarchy[4] == u;
    case Week => assert Hierarchy[5] == u;
    case Day => assert Hierarchy[6] == u;
    case Hour => assert Hierarchy[7] == u;
    case Minute => assert Hierarchy[8] == u;
    case Second => assert Hierarchy[9] == u;
    case Millisecond => assert Hierarchy[10] == u;
    case Microsecond => assert Hierarchy[11] == u;
  }

  lemma HierarchyComplete()
    ensures forall u :: u in Hierarchy
  {
    forall u ensures u in Hierarchy {
      InHierarchy(u);
    }
  }

  // ---------------------------------------------------------------------------------------
  // Interval strings
  // ---------------------------------------------------------------------------------------

  /** A `RelativeDateTimeRangeUnitOption`: the units whose pointer is set, with their value. */
  type Units = map<Unit, Int64>

  /** `buildValue`: "<n> <plural>" above 1, "1 <singular>" at 1, "" otherwise. */
  function UnitText(value: Int64, plural: string, singular: string): (r: string)
    ensures r == "" <==> value < 1
  {
    if value > 1 then Decimal(value) + " " + plural
    else if value == 1 then Decimal(value) + " " + singular
    else ""
  }

  /** The word `buildValue` chooses for a positive magnitude. */
  function Word(u: Unit, n: int): string {
    if n == 1 then Singular(u) else Plural(u)
  }

  /** The text one unit contributes to the interval ("" for none). */
  function Phrase(m: Units, u: Unit): (r: string)
    ensures r != "" <==> u in m && m[u] >= 1
  {
    if u in m then UnitText(m[u], Plural(u), Singular(u)) else ""
  }

  /** The non-empty phrases of the units `us`, in the order of `us`. */
  function Phrases(m: Units, us: seq<Unit>): seq<string> {
    if us == [] then []
    else (if Phrase(m, us[0]) != "" then [Phrase(m, us[0])] else []) + Phrases(m, us[1..])
  }

  lemma {:induction false} PhrasesNonEmpty(m: Units, us: seq<Unit>)
    ensures forall i :: 0 <= i < |Phrases(m, us)| ==> Phrases(m, us)[i] != ""
  {
    if us != [] {
      PhrasesNonEmpty(m, us[1..]);
    }
  }

  /** The interval string of a unit option (what `build` returns). */
  function Interval(m: Units): (r: string)
    ensures r == "" <==> Phrases(m, Hierarchy) == []
  {
    PhrasesNonEmpty(m, Hierarchy);
    JoinEmpty(Phrases(m, Hierarchy), " ");
    Join(Phrases(m, Hierarchy), " ")
  }

  lemma {:induction false} PhrasesSnoc(m: Units, us: seq<Unit>, u: Unit)
    ensures Phrases(m, us + [u]) == Phrases(m, us) + (if Phrase(m, u) != "" then [Phrase(m, u)] else [])
  {
    var last := if Phrase(m, u) != "" then [Phrase(m, u)] else [];
    if us == [] {
      assert [u][1..] == [] && us + [u] == [u];
      assert Phrases(m, [u]) == last + Phrases(m, []);
    } else {
      var t := us + [u];
      var h := if Phrase(m, us[0]) != "" then [Phrase(m, us[0])] else [];
      assert t[0] == us[0] && t[1..] == us[1..] + [u];
      assert Phrases(m, t) == h + Phrases(m, us[1..] + [u]);
      PhrasesSnoc(m, us[1..], u);
      assert Phrases(m, us) == h + Phrases(m, us[1..]);
      assert h + (Phrases(m, us[1..]) + last) == (h + Phrases(m, us[1..])) + last;
    }
  }

  /**
   * `build`: walks the twelve units from millennium down to microsecond, keeping the
   * phrase of every set unit that renders non-empty, and joins them with single spaces.
   */
  method Build(o: Units) returns (r: string)
    ensures r == Interval(o)
  {
    var units: seq<string> := [];
    for i := 0 to |Hierarchy|
      invariant units == Phrases(o, Hierarchy[..i])
    {
      var u := Hierarchy[i];
      if u in o {
        var v := UnitText(o[u], Plural(u), Singular(u));
        if v != "" {
          units := units + [v];
        }
      }
      PhrasesSnoc(o, Hierarchy[..i], u);
      assert Hierarchy[..i + 1] == Hierarchy[..i] + [u];
    }
    assert Hierarchy[..|Hierarchy|] == Hierarchy;
    r := Join(units, " ");
  }

  // ---------------------------------------------------------------------------------------
  // Reading an interval string back
  // ---------------------------------------------------------------------------------------

  /** A magnitude and its word: canonical decimal digits, at least 1, in the right number. */
  function ReadPair(digits: string, word: string): Option<(Unit, Int64)> {
    if digits != [] && (forall i :: 0 <= i < |digits| ==> IsDigit(digits[i])) then
      var n := DecimalValue(digits);
      var u := WordUnit(word);
      if 1 <= n <= MaxInt64 && Decimal(n) == digits && u.Some? && word == Word(u.value, n) then
        Some((u.value, n as Int64))
      else None
    else None
  }

  /** Reads magnitude/word token pairs, each unit at most once and in the order of `us`. */
  function ReadTokens(ts: seq<string>, us: seq<Unit>): Option<Units>
    decreases |us|
  {
    if ts == [] then Some(map[])
    else if us == [] || |ts| < 2 then None
    else
      var pair := ReadPair(ts[0], ts[1]);
      if pair.Some? && pair.value.0 == us[0] then
        match ReadTokens(ts[2..], us[1..])
        case None => None
        case Some(m) => Some(m[us[0] := pair.value.1])
      else ReadTokens(ts, us[1..])
  }

  /**
   * The units an interval string states: magnitude/word pairs separated by single spaces,
   * largest unit first, each unit at most once; `None` for any other string.
   */
  function ReadInterval(s: string): Option<Units> {
    if s == "" then Some(map[]) else ReadTokens(Split(s, ' '), Hierarchy)
  }

  /** The units of `m` among `us` that contribute to the interval. */
  function PositiveOn(m: Units, us: seq<Unit>): Units {
    map u | u in us && u in m && m[u] > 0 :: m[u]
  }

  /** The units of `m` that contribute to the interval. */
  function Positive(m: Units): Units {
    PositiveOn(m, Hierarchy)
  }

  /** The tokens of the phrases of `us`: magnitude, word, magnitude, word, ... */
  function Tokens(m: Units, us: seq<Unit>): seq<string> {
    if us == [] then []
    else (if us[0] in m && m[us[0]] > 0 then [Decimal(m[us[0]]), Word(us[0], m[us[0]])] else []) + Tokens(m, us[1..])
  }

  lemma PhraseParts(m: Units, u: Unit)
    ensures Phrase(m, u) != "" <==> u in m && m[u] > 0
    ensures u in m && m[u] > 0 ==> Phrase(m, u) == Decimal(m[u]) + " " + Word(u, m[u])
  {
  }

  /** Joining a phrase "a b" in front equals joining its two tokens in front. */
  lemma JoinPair(a: string, b: string, p: seq<string>, t: seq<string>)
    requires Join(p, " ") == Join(t, " ") && (p == [] <==> t == [])
    ensures Join([a + " " + b] + p, " ") == Join([a, b] + t, " ")
  {
    assert [a, b] + t == [a] + ([b] + t);
    JoinCons(a + " " + b, p, " ");
    JoinCons(b, t, " ");
    JoinCons(a, [b] + t, " ");
    if p != [] {
      assert (a + " " + b) + " " + Join(p, " ") == a + " " + (b + " " + Join(t, " "));
    }
  }

  /** The first step of `Phrases` and of `Tokens`. */
  lemma PhrasesTokensCons(m: Units, us: seq<Unit>)
    requires us != []
    ensures var u := us[0];
      if u in m && m[u] > 0 then
        Phrases(m, us) == [Decimal(m[u]) + " " + Word(u, m[u])] + Phrases(m, us[1..])
        && Tokens(m, us) == [Decimal(m[u]), Word(u, m[u])] + Tokens(m, us[1..])
      else Phrases(m, us) == Phrases(m, us[1..]) && Tokens(m, us) == Tokens(m, us[1..])
  {
    PhraseParts(m, us[0]);
  }

  lemma {:induction false} JoinPhrasesTokens(m: Units, us: seq<Unit>)
    ensures Join(Phrases(m, us), " ") == Join(Tokens(m, us), " ")
    ensures Phrases(m, us) == [] <==> Tokens(m, us) == []
  {
    if us != [] {
      var u := us[0];
      JoinPhrasesTokens(m, us[1..]);
      PhrasesTokensCons(m, us);
      if u in m && m[u] > 0 {
        JoinPair(Decimal(m[u]), Word(u, m[u]), Phrases(m, us[1..]), Tokens(m, us[1..]));
      }
    }
  }

  /** A magnitude and its word read back as the unit and the magnitude. */
  lemma ReadPairWritten(u: Unit, n: Int64)
    requires n > 0
    ensures ReadPair(Decimal(n), Word(u, n)) == Some((u, n))
  {
    DecimalRoundTrip(n);
    WordsOf(u);
  }

  predicate Distinct(us: seq<Unit>) {
    forall i, j :: 0 <= i < j < |us| ==> us[i] != us[j]
  }

  lemma DistinctTail(us: seq<Unit>)
    requires us != [] && Distinct(us)
    ensures Distinct(us[1..]) && us[0] !in us[1..]
  {
    var rest := us[1..];
    forall i, j | 0 <= i < j < |rest| ensures rest[i] != rest[j] {
      assert rest[i] == us[i + 1] && rest[j] == us[j + 1];
    }
    assert forall k :: 0 <= k < |rest| ==> rest[k] == us[k + 1];
  }

  lemma PositiveOnCons(m: Units, us: seq<Unit>)
    requires us != []
    ensures PositiveOn(m, us) ==
      if us[0] in m && m[us[0]] > 0 then PositiveOn(m, us[1..])[us[0] := m[us[0]]] else PositiveOn(m, us[1..])
  {
    assert forall u :: u in us <==> u == us[0] || u in us[1..] by {
      assert us == [us[0]] + us[1..];
    }
  }

  /** The first pair of the tokens of `us`, when there is one, names a unit of `us`. */
  lemma {:induction false} TokensHead(m: Units, us: seq<Unit>)
    requires Tokens(m, us) != []
    ensures |Tokens(m, us)| >= 2
    ensures ReadPair(Tokens(m, us)[0], Tokens(m, us)[1]).Some?
    ensures ReadPair(Tokens(m, us)[0], Tokens(m, us)[1]).value.0 in us
  {
    var u := us[0];
    if u in m && m[u] > 0 {
      ReadPairWritten(u, m[u]);
    } else {
      assert Tokens(m, us) == Tokens(m, us[1..]);
      TokensHead(m, us[1..]);
    }
  }

  /** Reading the tokens of distinct units `us` gives back their positive units. */
  lemma {:induction false} ReadTokensWritten(m: Units, us: seq<Unit>)
    requires Distinct(us)
    ensures ReadTokens(Tokens(m, us), us) == Some(PositiveOn(m, us))
    decreases |us|
  {
    if us != [] {
      var u, rest := us[0], us[1..];
      DistinctTail(us);
      ReadTokensWritten(m, rest);
      PositiveOnCons(m, us);
      var ts := Tokens(m, us);
      if u in m && m[u] > 0 {
        ReadPairWritten(u, m[u]);
        assert ts == [Decimal(m[u]), Word(u, m[u])] + Tokens(m, rest);
        assert ts[2..] == Tokens(m, rest);
      } else {
        assert ts == Tokens(m, rest);
        if ts != [] {
          TokensHead(m, rest);
        }
      }
    }
  }

  lemma {:induction false} TokensShape(m: Units, us: seq<Unit>)
    ensures forall i :: 0 <= i < |Tokens(m, us)| ==> ' ' !in Tokens(m, us)[i] && Tokens(m, us)[i] != ""
  {
    if us != [] {
      TokensShape(m, us[1..]);
      var u := us[0];
      WordsOf(u);
      if u in m && m[u] > 0 {
        var d := Decimal(m[u]);
        assert forall k :: 0 <= k < |d| ==> d[k] != ' ';
      }
    }
  }

  /** No unit appears twice in the hierarchy. */
  lemma HierarchyDistinct()
    ensures Distinct(Hierarchy)
  {
  }

  /**
   * Reading the interval of a unit option gives back exactly its positive units: so the
   * interval names each of them once, in the order millennium ... microsecond, with its
   * magnitude and the singular word for 1 and the plural one otherwise, and nothing else.
   */
  lemma IntervalRoundTrip(m: Units)
    ensures ReadInterval(Interval(m)) == Some(Positive(m))
  {
    HierarchyDistinct();
    JoinPhrasesTokens(m, Hierarchy);
    ReadTokensWritten(m, Hierarchy);
    TokensShape(m, Hierarchy);
    var ts := Tokens(m, Hierarchy);
    JoinEmpty(ts, " ");
    if ts != [] {
      assert [' '] == " ";
      SplitJoin(ts, ' ');
    }
  }

  /** A successful read of a non-empty token list yields at least one unit. */
  lemma {:induction false} ReadTokensNonEmpty(ts: seq<string>, us: seq<Unit>)
    requires ts != [] && ReadTokens(ts, us).Some?
    ensures ReadTokens(ts, us).value != map[]
    decreases |us|
  {
    var pair := ReadPair(ts[0], ts[1]);
    if !(pair.Some? && pair.value.0 == us[0]) {
      ReadTokensNonEmpty(ts, us[1..]);
    } else {
      assert us[0] in ReadTokens(ts, us).value;
    }
  }

  /** The interval is "" exactly when no unit is set to a positive value. */
  lemma IntervalEmptyIff(m: Units)
    ensures Interval(m) == "" <==> forall u :: u in m ==> m[u] <= 0
  {
    IntervalRoundTrip(m);
    var p := Positive(m);
    if Interval(m) == "" {
      forall u | u in m ensures m[u] <= 0 {
        InHierarchy(u);
        assert u !in p;
      }
    } else {
      ReadTokensNonEmpty(Split(Interval(m), ' '), Hierarchy);
      var u :| u in p;
      assert u in m && m[u] > 0;
    }
  }

  lemma {:induction false} PhrasesAppend(m: Units, a: seq<Unit>, b: seq<Unit>)
    ensures Phrases(m, a + b) == Phrases(m, a) + Phrases(m, b)
  {
    if a != [] {
      var h := if Phrase(m, a[0]) != "" then [Phrase(m, a[0])] else [];
      assert (a + b)[0] == a[0] && (a + b)[1..] == a[1..] + b;
      assert Phrases(m, a + b) == h + Phrases(m, a[1..] + b);
      PhrasesAppend(m, a[1..], b);
      assert h + (Phrases(m, a[1..]) + Phrases(m, b)) == (h + Phrases(m, a[1..])) + Phrases(m, b);
    } else {
      assert a + b == b;
    }
  }

  lemma {:induction false} PhrasesNone(m: Units, us: seq<Unit>)
    requires forall i :: 0 <= i < |us| ==> us[i] !in m
    ensures Phrases(m, us) == []
  {
    if us != [] {
      PhrasesNone(m, us[1..]);
    }
  }

  lemma ExamplePhrases(m: Units)
    requires m == map[Year := 1, Day := 2]
    ensures Phrases(m, [Year]) == ["1 year"] && Phrases(m, [Day]) == ["2 days"]
  {
    assert Decimal(1) == "1" && Decimal(2) == "2";
    assert Phrase(m, Year) == "1 year";
    assert Phrase(m, Day) == "2 days";
  }

  lemma ExampleList(m: Units)
    requires m == map[Year := 1, Day := 2]
    ensures Phrases(m, Hierarchy) == ["1 year", "2 days"]
  {
    var h := Hierarchy;
    var a, b, c := h[..3], h[4..6], h[7..];
    assert h == a + [Year] + b + [Day] + c;
    ExamplePieces(m, a, b, c);
    PhrasesAppend(m, a + [Year] + b + [Day], c);
  }

  lemma ExamplePieces(m: Units, a: seq<Unit>, b: seq<Unit>, c: seq<Unit>)
    requires m == map[Year := 1, Day := 2]
    requires a == Hierarchy[..3] && b == Hierarchy[4..6] && c == Hierarchy[7..]
    ensures Phrases(m, a + [Year] + b + [Day]) == ["1 year", "2 days"] && Phrases(m, c) == []
  {
    ExamplePhrases(m);
    ExampleGaps(m, a, b, c);
    var ay, ayb := a + [Year], a + [Year] + b;
    PhrasesAppend(m, a, [Year]);
    assert Phrases(m, ay) == ["1 year"];
    PhrasesAppend(m, ay, b);
    assert Phrases(m, ayb) == ["1 year"];
    PhrasesAppend(m, ayb, [Day]);
  }

  /** The units other than year and day contribute nothing. */
  lemma ExampleGaps(m: Units, a: seq<Unit>, b: seq<Unit>, c: seq<Unit>)
    requires m == map[Year := 1, Day := 2]
    requires a == Hierarchy[..3] && b == Hierarchy[4..6] && c == Hierarchy[7..]
    ensures Phrases(m, a) == [] && Phrases(m, b) == [] && Phrases(m, c) == []
  {
    assert a == [Millennium, Century, Decade] && b == [Month, Week];
    assert c == [Hour, Minute, Second, Millisecond, Microsecond];
    PhrasesNone(m, a);
    PhrasesNone(m, b);
    PhrasesNone(m, c);
  }

  lemma IntervalExample(m: Units)
    requires m == map[Year := 1, Day := 2]
    ensures Interval(m) == "1 year 2 days"
  {
    ExampleList(m);
    assert ["1 year", "2 days"] == ["1 year"] + ["2 days"];
    JoinCons("1 year", ["2 days"], " ");
  }

  // ---------------------------------------------------------------------------------------
  // Decoding units from JSON
  // ---------------------------------------------------------------------------------------

  /** The unit a filter's option holds, as a Go `*int` field. */
  function UnitOf(m: Units, u: Unit): Option<Int64> {
    if u in m then Some(m[u]) else None
  }

  /**
   * Decoding one JSON value into an existing `*int` field: `null` makes it nil, an integer
   * that fits sets it; anything else is a type error, after which the pointer has been
   * allocated (keeping an existing value, else 0). The flag is `false` on a type error.
   */
  function DecodeUnit(cur: Option<Int64>, v: Json): (Option<Int64>, bool) {
    if v.Null? then (None, true)
    else if AsInt64(v).Some? then (AsInt64(v), true)
    else (Some(cur.GetOr(0)), false)
  }

  /** A unit after decoding an object into the option: unchanged when its key is absent. */
  function UnitAfter(base: Units, fields: map<string, Json>, u: Unit): Option<Int64> {
    if Singular(u) in fields then DecodeUnit(UnitOf(base, u), fields[Singular(u)]).0 else UnitOf(base, u)
  }

  /** Decoding an object into an existing option: each unit key present is decoded into its field. */
  function MergeUnits(base: Units, fields: map<string, Json>): (r: Units)
    ensures forall u :: UnitOf(r, u) == UnitAfter(base, fields, u)
  {
    HierarchyComplete();
    map u | u in Hierarchy && UnitAfter(base, fields, u).Some? :: UnitAfter(base, fields, u).value
  }

  /** Whether every unit key present decodes without a type error. */
  predicate MergeOk(base: Units, fields: map<string, Json>) {
    forall u | u in Hierarchy :: Singular(u) in fields ==> DecodeUnit(UnitOf(base, u), fields[Singular(u)]).1
  }

  /**
   * Decoding the value of "ago" or "upcoming" into the existing pointer: `null` makes it
   * nil; an object allocates it when nil and is merged into it; anything else is a type
   * error after which the pointer has been allocated.
   */
  function DecodeUnits(cur: Option<Units>, v: Json): (Option<Units>, bool) {
    match v
    case Null => (None, true)
    case Obj(fields) => (Some(MergeUnits(cur.GetOr(map[]), fields)), MergeOk(cur.GetOr(map[]), fields))
    case _ => (Some(cur.GetOr(map[])), false)
  }

  /** A key of a decoded object: the field decoded into the current value when present. */
  function DecodeKey<T>(fields: map<string, Json>, key: string, cur: T, dec: (T, Json) -> (T, bool)): (T, bool) {
    if key in fields then dec(cur, fields[key]) else (cur, true)
  }

  /** Decoding "at" into the outer `string` field, which shadows the filter's own `At`. */
  function DecodeAtText(cur: string, v: Json): (string, bool) {
    match v
    case Null => (cur, true)
    case Str(t) => (t, true)
    case _ => (cur, false)
  }

  /** What `json.Unmarshal` leaves behind: the filter's options, the "at" text, and success. */
  datatype Decoded = Decoded(ago: Option<Units>, upcoming: Option<Units>, at: string, ok: bool)

  /**
   * Decoding a document into the filter through its alias: `null` changes nothing, an
   * object decodes "at", "ago" and "upcoming" (each independently, keeping what a type error
   * leaves), any other value is a type error that writes nothing.
   */
  function DecodeDoc(ago: Option<Units>, upcoming: Option<Units>, j: Json): Decoded {
    match j
    case Null => Decoded(ago, upcoming, "", true)
    case Obj(fields) =>
      var a := DecodeKey(fields, "ago", ago, DecodeUnits);
      var u := DecodeKey(fields, "upcoming", upcoming, DecodeUnits);
      var t := DecodeKey(fields, "at", "", DecodeAtText);
      Decoded(a.0, u.0, t.0, a.1 && u.1 && t.1)
    case _ => Decoded(ago, upcoming, "", false)
  }

  // ---------------------------------------------------------------------------------------
  // Encoding units as JSON
  // ---------------------------------------------------------------------------------------

  /** The object of the units of `us` in `m`: each set unit under its singular key. */
  function EncodeFields(m: Units, us: seq<Unit>): (r: map<string, Json>)
    ensures forall u :: Singular(u) in r <==> u in us && u in m
    ensures forall u :: Singular(u) in r ==> r[Singular(u)] == Num(m[u])
  {
    if us == [] then map[]
    else
      var rest := EncodeFields(m, us[1..]);
      WordsDistinct(us[0]);
      if us[0] in m then rest[Singular(us[0]) := Num(m[us[0]])] else rest
  }

  /** No two units share a singular word. */
  lemma WordsDistinct(u: Unit)
    ensures forall v :: Singular(v) == Singular(u) ==> v == u
  {
    forall v | Singular(v) == Singular(u) ensures v == u {
      WordsOf(u);
      WordsOf(v);
    }
  }

  /** A `RelativeDateTimeRangeUnitOption` marshalled: every non-nil unit under its key. */
  function EncodeUnits(m: Units): Json {
    Obj(EncodeFields(m, Hierarchy))
  }

  /**
   * Decoding an encoded option into an existing one succeeds and sets exactly the encoded
   * units, keeping the others: the result is the existing option overridden by `m`.
   */
  lemma MergeEncoded(base: Units, m: Units)
    ensures DecodeUnits(Some(base), EncodeUnits(m)) == (Some(base + m), true)
  {
    var fields := EncodeFields(m, Hierarchy);
    assert DecodeUnits(Some(base), Obj(fields)) == (Some(MergeUnits(base, fields)), MergeOk(base, fields));
    MergedEncoded(base, m);
    EncodedMergeOk(base, m);
  }

  lemma MergedEncoded(base: Units, m: Units)
    ensures MergeUnits(base, EncodeFields(m, Hierarchy)) == base + m
  {
    var r := MergeUnits(base, EncodeFields(m, Hierarchy));
    forall u ensures UnitOf(r, u) == UnitOf(base + m, u) {
      EncodedUnit(base, m, u);
    }
    SameUnits(r, base + m);
  }

  lemma EncodedMergeOk(base: Units, m: Units)
    ensures MergeOk(base, EncodeFields(m, Hierarchy))
  {
    var fields := EncodeFields(m, Hierarchy);
    forall u | u in Hierarchy && Singular(u) in fields
      ensures DecodeUnit(UnitOf(base, u), fields[Singular(u)]).1
    {
      EncodedUnit(base, m, u);
    }
  }

  lemma EncodedUnit(base: Units, m: Units, u: Unit)
    ensures var fields := EncodeFields(m, Hierarchy);
      UnitAfter(base, fields, u) == UnitOf(base + m, u)
      && (Singular(u) in fields ==> DecodeUnit(UnitOf(base, u), fields[Singular(u)]).1)
  {
    InHierarchy(u);
  }

  lemma SameUnits(a: Units, b: Units)
    requires forall u :: UnitOf(a, u) == UnitOf(b, u)
    ensures a == b
  {
    forall u ensures u in a <==> u in b {
      assert UnitOf(a, u).Some? <==> UnitOf(b, u).Some?;
    }
    forall u | u in a ensures a[u] == b[u] {
      assert UnitOf(a, u) == UnitOf(b, u);
    }
  }

  // ---------------------------------------------------------------------------------------
  // The filter's state
  // ---------------------------------------------------------------------------------------

  datatype State = State(marshalLayout: Layout, ago: Option<Units>, upcoming: Option<Units>, at: Option<Instant>)

  predicate Initialised(s: State) {
    s.at.Some? && s.ago.Some? && s.upcoming.Some?
  }

  /** `init`: allocates every nil pointer (`At` to the current instant `now`). */
  function InitState(s: State, now: Instant): (r: State)
    ensures Initialised(r) && r.marshalLayout == s.marshalLayout
    ensures s.at.Some? ==> r.at == s.at
    ensures s.ago.Some? ==> r.ago == s.ago
    ensures s.upcoming.Some? ==> r.upcoming == s.upcoming
  {
    State(s.marshalLayout,
      if s.ago.Some? then s.ago else Some(map[]),
      if s.upcoming.Some? then s.upcoming else Some(map[]),
      if s.at.Some? then s.at else Some(now))
  }

  /** `init` changes nothing in an initialised filter, so it is idempotent. */
  lemma InitIdempotent(s: State, now: Instant, later: Instant)
    ensures Initialised(s) ==> InitState(s, later) == s
    ensures InitState(InitState(s, now), later) == InitState(s, now)
  {
  }

  /** The side of the range a unit setter writes to. */
  datatype Side = Ago | Upcoming

  /** An `AgoX` / `UpcomingX` setter on an initialised state. */
  function WithUnit(s: State, side: Side, u: Unit, value: Int64): (r: State)
    requires Initialised(s)
    ensures Initialised(r) && r.marshalLayout == s.marshalLayout && r.at == s.at
    ensures side == Ago ==> r.upcoming == s.upcoming && UnitOf(r.ago.value, u) == Some(value)
    ensures side == Ago ==> forall v :: v != u ==> UnitOf(r.ago.value, v) == UnitOf(s.ago.value, v)
    ensures side == Upcoming ==> r.ago == s.ago && UnitOf(r.upcoming.value, u) == Some(value)
    ensures side == Upcoming ==> forall v :: v != u ==> UnitOf(r.upcoming.value, v) == UnitOf(s.upcoming.value, v)
  {
    match side
    case Ago => s.(ago := Some(s.ago.value[u := value]))
    case Upcoming => s.(upcoming := Some(s.upcoming.value[u := value]))
  }

  /**
   * The layout loop of `UnmarshalJSON` over `layouts`: while `At` is nil and the "at" text is
   * non-empty, the first layout that parses the text sets `At` and becomes the marshal layout.
   */
  function ParseAt(s: State, text: string, layouts: seq<Layout>, parse: (Layout, string) -> Option<Instant>): State {
    if s.at.Some? || text == "" then s
    else match EarliestParse(layouts, text, parse)
      case None => s
      case Some(found) => s.(at := Some(found.0), marshalLayout := found.1)
  }

  /**
   * Once `At` is set the text is ignored (so a constructed filter keeps its `At`); otherwise
   * the instant comes from the first layout, in list order, that parses the text, and that
   * layout becomes the marshal layout; if none parses, nothing changes.
   */
  lemma ParseAtFirstLayout(s: State, text: string, layouts: seq<Layout>, parse: (Layout, string) -> Option<Instant>)
    ensures s.at.Some? || text == "" ==> ParseAt(s, text, layouts, parse) == s
    ensures s.at.None? && text != "" ==>
      match FirstParsing(layouts, text, parse)
      case None => ParseAt(s, text, layouts, parse) == s
      case Some(k) =>
        ParseAt(s, text, layouts, parse) == s.(at := parse(layouts[k], text), marshalLayout := layouts[k])
        && forall i :: 0 <= i < k ==> parse(layouts[i], text).None?
    ensures ParseAt(s, text, layouts, parse).ago == s.ago && ParseAt(s, text, layouts, parse).upcoming == s.upcoming
  {
  }

  /** The "at" text a marshalled filter carries ("" when `At` is nil). */
  function MarshalAt(s: State, format: (Layout, Instant) -> string): string {
    if s.at.Some? then format(s.marshalLayout, s.at.value) else ""
  }

  /**
   * The members of the marshalled object: "at" unless its text is empty (`omitempty` on a
   * string), "ago" and "upcoming" unless nil.
   */
  function Members(at: string, ago: Option<Units>, upcoming: Option<Units>): (r: map<string, Json>)
    ensures "at" in r <==> at != ""
    ensures "at" in r ==> r["at"] == Str(at)
    ensures "ago" in r <==> ago.Some?
    ensures ago.Some? ==> r["ago"] == EncodeUnits(ago.value)
    ensures "upcoming" in r <==> upcoming.Some?
    ensures upcoming.Some? ==> r["upcoming"] == EncodeUnits(upcoming.value)
    ensures forall k :: k in r ==> k == "at" || k == "ago" || k == "upcoming"
  {
    assert "at" != "ago" && "at" != "upcoming" && "ago" != "upcoming";
    var f0: map<string, Json> := map[];
    var f1 := if at != "" then f0["at" := Str(at)] else f0;
    var f2 := if ago.Some? then f1["ago" := EncodeUnits(ago.value)] else f1;
    if upcoming.Some? then f2["upcoming" := EncodeUnits(upcoming.value)] else f2
  }

  /**
   * `MarshalJSON`: fails when `At` is set and there is no marshal layout; otherwise the
   * object of the filter's members, `At` formatted with the marshal layout.
   */
  function Marshal(s: State, format: (Layout, Instant) -> string): (r: Result<Json>)
    ensures r.Err? <==> s.at.Some? && s.marshalLayout == ""
    ensures r.Err? ==> r.error == MarshalLayoutNotSpecified("marshalLayout")
    ensures r.Ok? ==> r.value == Obj(Members(MarshalAt(s, format), s.ago, s.upcoming))
  {
    if s.at.Some? && s.marshalLayout == "" then Err(MarshalLayoutNotSpecified("marshalLayout"))
    else Ok(Obj(Members(MarshalAt(s, format), s.ago, s.upcoming)))
  }

  /** Decoding one option member of a marshalled filter into an existing option. */
  lemma MemberRoundTrip(fields: map<string, Json>, key: string, cur: Option<Units>, m: Option<Units>)
    requires key in fields <==> m.Some?
    requires m.Some? ==> fields[key] == EncodeUnits(m.value)
    ensures DecodeKey(fields, key, cur, DecodeUnits) ==
      (if m.Some? then Some(cur.GetOr(map[]) + m.value) else cur, true)
  {
    if m.Some? {
      MergeEncoded(cur.GetOr(map[]), m.value);
    }
  }

  /**
   * Decoding the marshalled filter always succeeds; it hands back the formatted "at" text,
   * and overrides each existing option with the marshalled one (a fresh option, as a
   * constructed filter holds, comes back equal to the marshalled one).
   */
  lemma MarshalRoundTrip(s: State, format: (Layout, Instant) -> string, ago: Option<Units>, upcoming: Option<Units>)
    requires Marshal(s, format).Ok?
    ensures DecodeDoc(ago, upcoming, Marshal(s, format).value) ==
      Decoded(
        if s.ago.Some? then Some(ago.GetOr(map[]) + s.ago.value) else ago,
        if s.upcoming.Some? then Some(upcoming.GetOr(map[]) + s.upcoming.value) else upcoming,
        MarshalAt(s, format), true)
  {
    var fields := Members(MarshalAt(s, format), s.ago, s.upcoming);
    MemberRoundTrip(fields, "ago", ago, s.ago);
    MemberRoundTrip(fields, "upcoming", upcoming, s.upcoming);
  }

  // ---------------------------------------------------------------------------------------
  // Conditions
  // ---------------------------------------------------------------------------------------

  /** `column >= pivot::timestamp` for the ago side, `column <= pivot::timestamp` for upcoming. */
  function Comparison(side: Side): string {
    match side
    case Ago => "?" + " >= " + "?" + "::timestamp"
    case Upcoming => "?" + " <= " + "?" + "::timestamp"
  }

  /** The interval shift each side appends when its interval is non-empty. */
  function Shift(side: Side): string {
    match side
    case Ago => " - interval " + "?"
    case Upcoming => " + interval " + "?"
  }

  lemma HolesConcat(a: string, b: string)
    ensures Holes(a + b) == Holes(a) + Holes(b)
  {
    assert multiset(a + b) == multiset(a) + multiset(b);
  }

  /** The placeholders of a template built from pieces. */
  lemma HolesOfPieces(a: string, b: string, c: string, d: string)
    requires Holes(a) == 1 && Holes(b) == 0 && Holes(c) == 1 && Holes(d) == 0
    ensures Holes(a + b + c + d) == 2
  {
    HolesConcat(a, b);
    HolesConcat(a + b, c);
    HolesConcat(a + b + c, d);
  }

  lemma HolesOfShift(a: string, b: string)
    requires Holes(a) == 0 && Holes(b) == 1
    ensures Holes(a + b) == 1
  {
    HolesConcat(a, b);
  }

  lemma NoHoles(a: string)
    requires '?' !in a
    ensures Holes(a) == 0
  {
  }

  lemma OneHole()
    ensures Holes("?") == 1
  {
    assert multiset("?") == multiset{'?'};
  }

  /** The fixed text between the placeholders has none of its own. */
  lemma FixedTextHoles()
    ensures Holes(" >= ") == 0 && Holes(" <= ") == 0 && Holes("::timestamp") == 0
  {
    NoHoles(" >= ");
    NoHoles(" <= ");
    NoHoles("::timestamp");
  }

  lemma IntervalTextHoles()
    ensures Holes(" - interval ") == 0 && Holes(" + interval ") == 0
  {
    NoHoles(" - interval ");
    NoHoles(" + interval ");
  }

  lemma TemplateHoles(side: Side)
    ensures Holes(Comparison(side)) == 2 && Holes(Shift(side)) == 1
    ensures Holes(Comparison(side) + Shift(side)) == 3
  {
    OneHole();
    FixedTextHoles();
    IntervalTextHoles();
    match side
    case Ago =>
      HolesOfPieces("?", " >= ", "?", "::timestamp");
      HolesOfShift(" - interval ", "?");
    case Upcoming =>
      HolesOfPieces("?", " <= ", "?", "::timestamp");
      HolesOfShift(" + interval ", "?");
    HolesConcat(Comparison(side), Shift(side));
  }

  /** One side of the range: the pivot with `interval` subtracted or added, if non-empty. */
  function SideCond(column: string, side: Side, pivot: string, interval: string): (r: Frag)
    ensures |r.args| == (if interval != "" then 3 else 2)
    ensures r.args[0] == Ident(column) && r.args[1] == Value(Str(pivot))
    ensures r.template == (if interval != "" then Comparison(side) + Shift(side) else Comparison(side))
    ensures interval != "" ==> r.args[2] == Value(Str(interval))
  {
    if interval != "" then Frag(Comparison(side) + Shift(side), [Ident(column), Value(Str(pivot)), Value(Str(interval))])
    else Frag(Comparison(side), [Ident(column), Value(Str(pivot))])
  }

  /** Each side's template has one placeholder per argument. */
  lemma SideCondWellFormed(column: string, side: Side, pivot: string, interval: string)
    ensures WellFormed(SideCond(column, side, pivot, interval))
  {
    TemplateHoles(side);
  }

  /**
   * `Appender`'s two conditions, ago side first: the column as an identifier, `At`
   * formatted as RFC 3339 with nanoseconds as the pivot, and each side's interval as a
   * third parameter exactly when that side has a unit with a positive value.
   */
  function Conds(column: string, at: Instant, ago: Units, upcoming: Units, format: (Layout, Instant) -> string): (r: seq<Frag>)
    ensures |r| == 2
    ensures r[0] == SideCond(column, Ago, format(RFC3339Nano, at), Interval(ago))
    ensures r[1] == SideCond(column, Upcoming, format(RFC3339Nano, at), Interval(upcoming))
    ensures |r[0].args| == 3 <==> exists u :: u in ago && ago[u] > 0
    ensures |r[1].args| == 3 <==> exists u :: u in upcoming && upcoming[u] > 0
  {
    IntervalEmptyIff(ago);
    IntervalEmptyIff(upcoming);
    var pivot := format(RFC3339Nano, at);
    [SideCond(column, Ago, pivot, Interval(ago)), SideCond(column, Upcoming, pivot, Interval(upcoming))]
  }

  /** Both conditions have one placeholder per argument. */
  lemma CondsWellFormed(column: string, at: Instant, ago: Units, upcoming: Units, format: (Layout, Instant) -> string)
    ensures WellFormed(Conds(column, at, ago, upcoming, format)[0])
    ensures WellFormed(Conds(column, at, ago, upcoming, format)[1])
  {
    var pivot := format(RFC3339Nano, at);
    SideCondWellFormed(column, Ago, pivot, Interval(ago));
    SideCondWellFormed(column, Upcoming, pivot, Interval(upcoming));
  }

  // ---------------------------------------------------------------------------------------
  // Unmarshalling
  // ---------------------------------------------------------------------------------------

  /** One more layout at the end of the list: tried only if `At` is still nil. */
  lemma ParseAtSnoc(s: State, text: string, layouts: seq<Layout>, layout: Layout, parse: (Layout, string) -> Option<Instant>)
    ensures var c := ParseAt(s, text, layouts, parse);
      ParseAt(s, text, layouts + [layout], parse) ==
        if c.at.None? && text != "" && parse(layout, text).Some? then c.(at := parse(layout, text), marshalLayout := layout)
        else c
  {
    var all := layouts + [layout];
    EarliestParseSnoc(all, text, parse);
    assert all[..|all| - 1] == layouts && all[|all| - 1] == layout;
  }

  /**
   * What `UnmarshalJSON` does to the filter's state and what it returns: without layouts,
   * or on input that is not JSON, nothing changes; otherwise "ago" and "upcoming" are
   * decoded into the filter, and on a type error the call fails there; otherwise the layout
   * loop runs on the "at" text.
   */
  function Unmarshal(s: State, input: Input, layouts: seq<Layout>, parse: (Layout, string) -> Option<Instant>): (r: (State, Option<Error>))
    ensures r.1 == Some(LayoutsNotSpecified) <==> |layouts| == 0
    ensures r.1.Some? ==> r.1 == Some(LayoutsNotSpecified) || r.1 == Some(UnsupportedFormat)
  {
    if |layouts| == 0 then (s, Some(LayoutsNotSpecified))
    else match input
      case Malformed => (s, Some(UnsupportedFormat))
      case Doc(j) =>
        var d := DecodeDoc(s.ago, s.upcoming, j);
        var decoded := s.(ago := d.ago, upcoming := d.upcoming);
        if !d.ok then (decoded, Some(UnsupportedFormat))
        else (ParseAt(decoded, d.at, layouts, parse), None)
  }

  /**
   * `UnmarshalJSON` fails exactly without layouts, on input that is not JSON, or on a type
   * error; it never changes a set `At` or the marshal layout that goes with it, so a
   * constructed filter (whose `At` is always set) keeps its `At` whatever "at" says.
   */
  lemma UnmarshalOutcome(s: State, input: Input, layouts: seq<Layout>, parse: (Layout, string) -> Option<Instant>)
    ensures Unmarshal(s, input, layouts, parse).1.Some? <==>
      |layouts| == 0 || input.Malformed? || !DecodeDoc(s.ago, s.upcoming, input.json).ok
    ensures s.at.Some? ==>
      Unmarshal(s, input, layouts, parse).0.at == s.at
      && Unmarshal(s, input, layouts, parse).0.marshalLayout == s.marshalLayout
    ensures |layouts| == 0 || input.Malformed? ==> Unmarshal(s, input, layouts, parse).0 == s
  {
  }

  /**
   * With `At` nil, an "at" text that some layout parses sets `At` to what the first such
   * layout in list order makes of it, and that layout becomes the marshal layout.
   */
  lemma UnmarshalFirstLayout(s: State, j: Json, layouts: seq<Layout>, parse: (Layout, string) -> Option<Instant>, k: nat)
    requires s.at.None? && DecodeDoc(s.ago, s.upcoming, j).ok
    requires var text := DecodeDoc(s.ago, s.upcoming, j).at;
      text != "" && k < |layouts| && parse(layouts[k], text).Some?
      && forall i :: 0 <= i < k ==> parse(layouts[i], text).None?
    ensures var text := DecodeDoc(s.ago, s.upcoming, j).at;
      Unmarshal(s, Doc(j), layouts, parse).0.at == parse(layouts[k], text)
      && Unmarshal(s, Doc(j), layouts, parse).0.marshalLayout == layouts[k]
  {
    var d := DecodeDoc(s.ago, s.upcoming, j);
    ParseAtFirstLayout(s.(ago := d.ago, upcoming := d.upcoming), d.at, layouts, parse);
  }

  // ---------------------------------------------------------------------------------------
  // The filter
  // ---------------------------------------------------------------------------------------

  class RelativeDateTimeRange {
    var column: string
    var layouts: seq<Layout>
    var marshalLayout: Layout
    var ago: Option<Units>
    var upcoming: Option<Units>
    var at: Option<Instant>

    function Current(): State
      reads this
    {
      State(marshalLayout, ago, upcoming, at)
    }

    /**
     * `NewRelativeDateTimeRange`: the caller's layouts followed by RFC 3339, marshalled as
     * RFC 3339, then `init` with the current instant `now`.
     */
    constructor(column: string, layouts: seq<Layout>, now: Instant)
      ensures this.column == column && this.layouts == layouts + [RFC3339]
      ensures Current() == State(RFC3339, Some(map[]), Some(map[]), Some(now))
    {
      this.column := column;
      this.layouts := layouts + [RFC3339];
      marshalLayout := RFC3339;
      ago, upcoming, at := None, None, None;
      new;
      Init(now);
    }

    /** `init`: allocates the nil pointers. */
    method Init(now: Instant)
      modifies this
      ensures Current() == InitState(old(Current()), now)
      ensures column == old(column) && layouts == old(layouts)
    {
      if at.None? {
        at := Some(now);
      }
      if ago.None? {
        ago := Some(map[]);
      }
      if upcoming.None? {
        upcoming := Some(map[]);
      }
    }

    method Column(column: string)
      modifies this
      ensures this.column == column && layouts == old(layouts) && Current() == old(Current())
    {
      this.column := column;
    }

    /** `Layout`: appends parsing layouts. */
    method Layout(more: seq<Layout>)
      modifies this
      ensures layouts == old(layouts) + more
      ensures column == old(column) && Current() == old(Current())
    {
      layouts := layouts + more;
    }

    method MarshalLayout(layout: Layout)
      modifies this
      ensures Current() == old(Current()).(marshalLayout := layout)
      ensures column == old(column) && layouts == old(layouts)
    {
      marshalLayout := layout;
    }

    method AsAt(t: Instant)
      modifies this
      ensures Current() == old(Current()).(at := Some(t))
      ensures column == old(column) && layouts == old(layouts)
    {
      at := Some(t);
    }

    /**
     * The 24 setters `AgoMillennium` ... `UpcomingMicrosecond`: `init`, then set one unit of
     * one side.
     */
    method SetUnit(side: Side, u: Unit, value: Int64, now: Instant)
      modifies this
      ensures Current() == WithUnit(InitState(old(Current()), now), side, u, value)
      ensures column == old(column) && layouts == old(layouts)
    {
      Init(now);
      match side
      case Ago => ago := Some(ago.value[u := value]);
      case Upcoming => upcoming := Some(upcoming.value[u := value]);
    }

    /** `UnmarshalJSON`. */
    method UnmarshalJSON(input: Input, parse: (Layout, string) -> Option<Instant>) returns (err: Option<Error>)
      modifies this
      ensures (Current(), err) == Unmarshal(old(Current()), input, layouts, parse)
      ensures column == old(column) && layouts == old(layouts)
    {
      if |layouts| == 0 {
        return Some(LayoutsNotSpecified);
      }
      if input.Malformed? {
        return Some(UnsupportedFormat);
      }
      var d := DecodeDoc(ago, upcoming, input.json);
      ago, upcoming := d.ago, d.upcoming;
      if !d.ok {
        return Some(UnsupportedFormat);
      }
      ghost var s1 := Current();
      for i := 0 to |layouts|
        invariant column == old(column) && layouts == old(layouts)
        invariant Current() == ParseAt(s1, d.at, layouts[..i], parse)
      {
        ParseAtSnoc(s1, d.at, layouts[..i], layouts[i], parse);
        assert layouts[..i + 1] == layouts[..i] + [layouts[i]];
        if at.None? && d.at != "" {
          var parsed := parse(layouts[i], d.at);
          if parsed.None? {
            continue;
          }
          marshalLayout := layouts[i];
          at := parsed;
        }
      }
      assert layouts[..|layouts|] == layouts;
      return None;
    }

    function MarshalJSON(format: (Layout, Instant) -> string): (r: Result<Json>)
      reads this
      ensures r.Err? <==> at.Some? && marshalLayout == ""
    {
      Marshal(Current(), format)
    }

    /**
     * `Appender`: `init`, then the two conditions, the intervals built from the current
     * options.
     */
    method Appender(now: Instant, format: (Layout, Instant) -> string) returns (r: seq<Frag>)
      modifies this
      ensures Current() == InitState(old(Current()), now)
      ensures column == old(column) && layouts == old(layouts)
      ensures r == Conds(column, at.value, ago.value, upcoming.value, format)
    {
      Init(now);
      var pivot := format(RFC3339Nano, at.value);
      var since := Build(ago.value);
      var until := Build(upcoming.value);
      r := [SideCond(column, Ago, pivot, since), SideCond(column, Upcoming, pivot, until)];
    }
  }
}
