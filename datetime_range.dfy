/**
 * The datetime range filter of the root package (datetime_range.go): four optional instant
 * bounds, a list of parsing layouts, and per bound the layout it is marshalled with (the
 * layout that parsed it, once decoded).
 */
module DateTimeRange {
  import opened Base
  import opened Wire
  import opened Sql
  import opened Clock
  import opened Bounds

  /** The JSON key of each bound. */
  function JsonKey(b: Bound): string {
    match b
    case Gt => "after"
    case Gte => "from"
    case Lt => "before"
    case Lte => "to"
  }

  /** The name of the bound's marshal layout field, as the marshal error message gives it. */
  function FieldName(b: Bound): string {
    match b
    case Gt => "gtMarshalLayout"
    case Gte => "gteMarshalLayout"
    case Lt => "ltMarshalLayout"
    case Lte => "lteMarshalLayout"
  }

  /** The decoded bounds and the layout each one is marshalled with. */
  datatype State = State(values: Quad<Option<Instant>>, layouts: Quad<Layout>)

  // ---------------------------------------------------------------------------------------
  // Decoding the document into the four date strings
  // ---------------------------------------------------------------------------------------

  /** The string under the key of `b` in a fresh struct; absent and `null` give "". */
  function KeyText(fields: map<string, Json>, b: Bound): Option<string> {
    Fresh(Field(fields, JsonKey(b)), AsString, "")
  }

  function ObjectTexts(fields: map<string, Json>): (r: Option<Quad<string>>)
    ensures r.Some? <==> forall b :: KeyText(fields, b).Some?
    ensures r.Some? ==> forall b :: r.value.Get(b) == KeyText(fields, b).value
  {
    var gt, gte, lt, lte := KeyText(fields, Gt), KeyText(fields, Gte), KeyText(fields, Lt), KeyText(fields, Lte);
    if gt.Some? && gte.Some? && lt.Some? && lte.Some? then
      Some(Quad(gt.value, gte.value, lt.value, lte.value))
    else
      assert KeyText(fields, Gt).None? || KeyText(fields, Gte).None? || KeyText(fields, Lt).None? || KeyText(fields, Lte).None?;
      None
  }

  /**
   * The four date strings of the decoding struct: `null` leaves them all "", an object whose
   * date keys are strings or `null` gives those strings, anything else is a decode error.
   */
  function BoundTexts(input: Input): (r: Option<Quad<string>>)
    ensures input == Doc(Null) ==> r == Some(Quad("", "", "", ""))
    ensures input.Doc? && input.json.Obj? ==> r == ObjectTexts(input.json.fields)
    ensures r.Some? ==> input == Doc(Null) || (input.Doc? && input.json.Obj?)
  {
    match input
    case Malformed => None
    case Doc(j) => FreshStruct(j, ObjectTexts, Quad("", "", "", ""))
  }

  // ---------------------------------------------------------------------------------------
  // The layout loop, as written
  // ---------------------------------------------------------------------------------------

  /** The order in which one layout tries the bounds. */
  const TryOrder: seq<Bound> := [Gt, Lt, Gte, Lte]

  /**
   * One `if` block of the loop body: an unset bound with a non-empty string is parsed with
   * `layout`; on success the bound and its marshal layout are set. The flag is false when
   * the parse fails, where the loop body `continue`s to the next layout.
   */
  function Attempt(s: State, texts: Quad<string>, layout: Layout, parse: (Layout, string) -> Option<Instant>, b: Bound): (State, bool) {
    if s.values.Get(b).None? && texts.Get(b) != "" then
      match parse(layout, texts.Get(b))
      case None => (s, false)
      case Some(t) => (State(s.values.Set(b, Some(t)), s.layouts.Set(b, layout)), true)
    else (s, true)
  }

  function TryBounds(s: State, texts: Quad<string>, layout: Layout, parse: (Layout, string) -> Option<Instant>, bs: seq<Bound>): (r: State)
    ensures forall b :: r.values.Get(b) != s.values.Get(b) ==>
      s.values.Get(b).None? && texts.Get(b) != "" && r.values.Get(b) == parse(layout, texts.Get(b)) && r.layouts.Get(b) == layout
    ensures forall b :: r.values.Get(b) == s.values.Get(b) ==> r.layouts.Get(b) == s.layouts.Get(b)
    decreases |bs|
  {
    if bs == [] then s
    else
      var (s', go) := Attempt(s, texts, layout, parse, bs[0]);
      if go then TryBounds(s', texts, layout, parse, bs[1..]) else s'
  }

  /** One iteration of the loop over the layouts. */
  function TryLayout(s: State, texts: Quad<string>, layout: Layout, parse: (Layout, string) -> Option<Instant>): State {
    TryBounds(s, texts, layout, parse, TryOrder)
  }

  /** The loop over `layouts`, as it runs from `s`. */
  function DecodeLoop(s: State, texts: Quad<string>, layouts: seq<Layout>, parse: (Layout, string) -> Option<Instant>): (r: State)
    ensures forall b :: s.values.Get(b).Some? ==> r.values.Get(b) == s.values.Get(b)
  {
    if layouts == [] then s
    else TryLayout(DecodeLoop(s, texts, layouts[..|layouts| - 1], parse), texts, layouts[|layouts| - 1], parse)
  }

  lemma TryOrderTails()
    ensures TryOrder[0] == Gt && TryOrder[1..] == [Lt, Gte, Lte]
    ensures [Lt, Gte, Lte][1..] == [Gte, Lte] && [Gte, Lte][1..] == [Lte] && [Lte][1..] == []
  {
  }

  // ---------------------------------------------------------------------------------------
  // Properties of the loop
  // ---------------------------------------------------------------------------------------

  /** A bound that is already set is never replaced, and neither is its marshal layout. */
  lemma {:induction false} TryBoundsKeepsSet(s: State, texts: Quad<string>, layout: Layout, parse: (Layout, string) -> Option<Instant>, bs: seq<Bound>, b: Bound)
    requires s.values.Get(b).Some?
    ensures TryBounds(s, texts, layout, parse, bs).values.Get(b) == s.values.Get(b)
    ensures TryBounds(s, texts, layout, parse, bs).layouts.Get(b) == s.layouts.Get(b)
    decreases |bs|
  {
    if bs != [] {
      var (s', go) := Attempt(s, texts, layout, parse, bs[0]);
      if go {
        TryBoundsKeepsSet(s', texts, layout, parse, bs[1..], b);
      }
    }
  }

  lemma {:induction false} DecodeKeepsSet(s: State, texts: Quad<string>, layouts: seq<Layout>, parse: (Layout, string) -> Option<Instant>, b: Bound)
    requires s.values.Get(b).Some?
    ensures DecodeLoop(s, texts, layouts, parse).values.Get(b) == s.values.Get(b)
    ensures DecodeLoop(s, texts, layouts, parse).layouts.Get(b) == s.layouts.Get(b)
  {
    if layouts != [] {
      DecodeKeepsSet(s, texts, layouts[..|layouts| - 1], parse, b);
      TryBoundsKeepsSet(DecodeLoop(s, texts, layouts[..|layouts| - 1], parse), texts, layouts[|layouts| - 1], parse, TryOrder, b);
    }
  }

  /** What a bound means after decoding, relative to what it was before. */
  predicate Justified(s0: State, s: State, texts: Quad<string>, layouts: seq<Layout>, parse: (Layout, string) -> Option<Instant>, b: Bound) {
    (s.values.Get(b) == s0.values.Get(b) && s.layouts.Get(b) == s0.layouts.Get(b))
    || (texts.Get(b) != "" && s.layouts.Get(b) in layouts && s.values.Get(b) == parse(s.layouts.Get(b), texts.Get(b))
        && s.values.Get(b).Some?)
  }

  lemma {:induction false} TryBoundsJustified(s0: State, s: State, texts: Quad<string>, layouts: seq<Layout>, layout: Layout,
                                              parse: (Layout, string) -> Option<Instant>, bs: seq<Bound>, b: Bound)
    requires layout in layouts
    requires Justified(s0, s, texts, layouts, parse, b)
    ensures Justified(s0, TryBounds(s, texts, layout, parse, bs), texts, layouts, parse, b)
    decreases |bs|
  {
    if bs != [] {
      var (s', go) := Attempt(s, texts, layout, parse, bs[0]);
      assert Justified(s0, s', texts, layouts, parse, b);
      if go {
        TryBoundsJustified(s0, s', texts, layouts, layout, parse, bs[1..], b);
      }
    }
  }

  lemma {:induction false} DecodeJustifiedPrefix(s: State, texts: Quad<string>, layouts: seq<Layout>, all: seq<Layout>,
                                                 parse: (Layout, string) -> Option<Instant>, b: Bound)
    requires forall l :: l in layouts ==> l in all
    ensures Justified(s, DecodeLoop(s, texts, layouts, parse), texts, all, parse, b)
  {
    if layouts != [] {
      var init := layouts[..|layouts| - 1];
      assert forall l :: l in init ==> l in layouts;
      DecodeJustifiedPrefix(s, texts, init, all, parse, b);
      TryBoundsJustified(s, DecodeLoop(s, texts, init, parse), texts, all, layouts[|layouts| - 1], parse, TryOrder, b);
    }
  }

  /**
   * Every bound the loop sets was parsed from its own non-empty string with one of the
   * layouts, and that layout is the one stored as its marshal layout; every other bound
   * and marshal layout is as it was.
   */
  lemma DecodeJustified(s: State, texts: Quad<string>, layouts: seq<Layout>, parse: (Layout, string) -> Option<Instant>)
    ensures forall b :: Justified(s, DecodeLoop(s, texts, layouts, parse), texts, layouts, parse, b)
  {
    forall b ensures Justified(s, DecodeLoop(s, texts, layouts, parse), texts, layouts, parse, b) {
      DecodeJustifiedPrefix(s, texts, layouts, layouts, parse, b);
    }
  }

  /** The settled value of bound `b` after one step: the earliest parse, or unset. */
  predicate FirstWins(s0: State, s: State, texts: Quad<string>, layouts: seq<Layout>, parse: (Layout, string) -> Option<Instant>, b: Bound) {
    match EarliestParse(layouts, texts.Get(b), parse)
    case None => s.values.Get(b).None?
    case Some(found) => s.values.Get(b) == Some(found.0) && s.layouts.Get(b) == found.1
  }

  /**
   * The after (gt) bound is tried first with every layout, so it always gets the earliest
   * layout in list order that parses its string.
   */
  lemma {:induction false} DecodeGtEarliest(s: State, texts: Quad<string>, layouts: seq<Layout>, parse: (Layout, string) -> Option<Instant>)
    requires s.values.gt.None? && texts.gt != ""
    ensures FirstWins(s, DecodeLoop(s, texts, layouts, parse), texts, layouts, parse, Gt)
  {
    if layouts != [] {
      var init, last := layouts[..|layouts| - 1], layouts[|layouts| - 1];
      DecodeGtEarliest(s, texts, init, parse);
      EarliestParseSnoc(layouts, texts.gt, parse);
      var mid := DecodeLoop(s, texts, init, parse);
      if mid.values.gt.Some? {
        TryBoundsKeepsSet(mid, texts, last, parse, TryOrder, Gt);
      } else {
        var (s1, go1) := Attempt(mid, texts, last, parse, Gt);
        if go1 {
          assert s1.values.gt.Some?;
          TryBoundsKeepsSet(s1, texts, last, parse, TryOrder[1..], Gt);
        }
      }
    }
  }

  /**
   * The `continue` of a failed parse skips the later bounds for that layout: with layouts
   * ["A", "B"], an after string no layout parses, and a before string that "A" parses,
   * the before bound ends up unset although "A" parses it.
   */
  lemma ContinueSkipsLaterBounds(t0: Instant)
    ensures var parse := (l: Layout, text: string) => if l == "A" && text == "2020" then Some(t0) else None;
      var s := State(Quad(None, None, None, None), Quad("", "", "", ""));
      var texts := Quad("never", "", "2020", "");
      EarliestParse(["A", "B"], "2020", parse) == Some((t0, "A"))
      && DecodeLoop(s, texts, ["A", "B"], parse).values.lt.None?
  {
    var parse := (l: Layout, text: string) => if l == "A" && text == "2020" then Some(t0) else None;
    var s := State(Quad(None, None, None, None), Quad("", "", "", ""));
    var texts := Quad("never", "", "2020", "");
    assert "never" != "2020";
    assert ["A", "B"][..1] == ["A"];
    assert ["A"][..0] == [];
    TryOrderTails();
    assert Attempt(s, texts, "A", parse, Gt) == (s, false);
    assert DecodeLoop(s, texts, ["A"], parse) == s;
    assert Attempt(s, texts, "B", parse, Gt) == (s, false);
    assert FirstParsing(["A", "B"], "2020", parse) == Some(0);
  }

  // ---------------------------------------------------------------------------------------
  // A reference loop in which a failed parse skips only that bound, not the later ones
  // ---------------------------------------------------------------------------------------

  function TryBoundsPerBound(s: State, texts: Quad<string>, layout: Layout, parse: (Layout, string) -> Option<Instant>, bs: seq<Bound>): State
    decreases |bs|
  {
    if bs == [] then s
    else TryBoundsPerBound(Attempt(s, texts, layout, parse, bs[0]).0, texts, layout, parse, bs[1..])
  }

  function DecodeLoopPerBound(s: State, texts: Quad<string>, layouts: seq<Layout>, parse: (Layout, string) -> Option<Instant>): State {
    if layouts == [] then s
    else TryBoundsPerBound(DecodeLoopPerBound(s, texts, layouts[..|layouts| - 1], parse), texts, layouts[|layouts| - 1], parse, TryOrder)
  }

  /** One layout step of the reference loop acts on each bound separately. */
  lemma {:induction false} TryBoundsPerBoundEach(s: State, texts: Quad<string>, layout: Layout, parse: (Layout, string) -> Option<Instant>, bs: seq<Bound>, b: Bound)
    requires forall i, j :: 0 <= i < j < |bs| ==> bs[i] != bs[j]
    ensures b in bs ==>
      TryBoundsPerBound(s, texts, layout, parse, bs).values.Get(b) == Attempt(s, texts, layout, parse, b).0.values.Get(b)
      && TryBoundsPerBound(s, texts, layout, parse, bs).layouts.Get(b) == Attempt(s, texts, layout, parse, b).0.layouts.Get(b)
    ensures b !in bs ==>
      TryBoundsPerBound(s, texts, layout, parse, bs).values.Get(b) == s.values.Get(b)
      && TryBoundsPerBound(s, texts, layout, parse, bs).layouts.Get(b) == s.layouts.Get(b)
    decreases |bs|
  {
    if bs != [] {
      var s' := Attempt(s, texts, layout, parse, bs[0]).0;
      TryBoundsPerBoundEach(s', texts, layout, parse, bs[1..], b);
      if b != bs[0] {
        assert s'.values.Get(b) == s.values.Get(b) && s'.layouts.Get(b) == s.layouts.Get(b);
        assert Attempt(s', texts, layout, parse, b).0.values.Get(b) == Attempt(s, texts, layout, parse, b).0.values.Get(b);
        assert Attempt(s', texts, layout, parse, b).0.layouts.Get(b) == Attempt(s, texts, layout, parse, b).0.layouts.Get(b);
      } else {
        assert b !in bs[1..];
      }
    }
  }

  /**
   * In the reference loop every unset bound with a non-empty string gets the earliest layout
   * in list order that parses it, whatever happens to the other bounds.
   */
  lemma {:induction false} DecodePerBoundEarliest(s: State, texts: Quad<string>, layouts: seq<Layout>, parse: (Layout, string) -> Option<Instant>, b: Bound)
    requires s.values.Get(b).None? && texts.Get(b) != ""
    ensures FirstWins(s, DecodeLoopPerBound(s, texts, layouts, parse), texts, layouts, parse, b)
  {
    if layouts != [] {
      var init, last := layouts[..|layouts| - 1], layouts[|layouts| - 1];
      DecodePerBoundEarliest(s, texts, init, parse, b);
      EarliestParseSnoc(layouts, texts.Get(b), parse);
      assert b in TryOrder by { assert TryOrder[Rank(b) + 0] in TryOrder; match b { case Gt => case Gte => case Lt => case Lte => } }
      TryBoundsPerBoundEach(DecodeLoopPerBound(s, texts, init, parse), texts, last, parse, TryOrder, b);
    }
  }

  // ---------------------------------------------------------------------------------------
  // Marshalling
  // ---------------------------------------------------------------------------------------

  /** The order in which `MarshalJSON` checks the bounds. */
  const CheckOrder: seq<Bound> := [Gt, Lt, Gte, Lte]

  function CheckIndex(b: Bound): (k: nat)
    ensures k < |CheckOrder| && CheckOrder[k] == b
  {
    match b
    case Gt => 0
    case Lt => 1
    case Gte => 2
    case Lte => 3
  }

  predicate MissingLayout(s: State, b: Bound) {
    s.values.Get(b).Some? && s.layouts.Get(b) == ""
  }

  function FirstMissing(s: State, bs: seq<Bound>): (r: Option<nat>)
    ensures r.Some? ==> r.value < |bs| && MissingLayout(s, bs[r.value])
    ensures r.Some? ==> forall k :: 0 <= k < r.value ==> !MissingLayout(s, bs[k])
    ensures r.None? <==> forall k :: 0 <= k < |bs| ==> !MissingLayout(s, bs[k])
  {
    if bs == [] then None
    else if MissingLayout(s, bs[0]) then Some(0)
    else match FirstMissing(s, bs[1..])
      case None => None
      case Some(k) => Some(k + 1)
  }

  /** The bound `b` added to the encoded object, unless unset or formatted as "" (omitempty). */
  function Put(m: map<string, Json>, s: State, format: (Layout, Instant) -> string, b: Bound): map<string, Json> {
    if s.values.Get(b).Some? && format(s.layouts.Get(b), s.values.Get(b).value) != "" then
      m[JsonKey(b) := Str(format(s.layouts.Get(b), s.values.Get(b).value))]
    else m
  }

  /** Whether bound `b` appears in the encoded object. */
  predicate Encoded(s: State, format: (Layout, Instant) -> string, b: Bound) {
    s.values.Get(b).Some? && format(s.layouts.Get(b), s.values.Get(b).value) != ""
  }

  /**
   * `MarshalJSON`: fails at the first set bound, in the order gt, lt, gte, lte, whose marshal
   * layout is ""; otherwise an object with each set bound formatted with its own layout
   * under its own key.
   */
  function Marshal(s: State, format: (Layout, Instant) -> string): (r: Result<Json>)
    ensures r.Err? <==> exists b :: MissingLayout(s, b)
    ensures r.Err? ==> exists k :: (0 <= k < 4 && r.error == MarshalLayoutNotSpecified(FieldName(CheckOrder[k]))
      && MissingLayout(s, CheckOrder[k]) && forall j :: 0 <= j < k ==> !MissingLayout(s, CheckOrder[j]))
    ensures r.Ok? ==> r.value.Obj? && forall b ::
      (JsonKey(b) in r.value.fields <==> Encoded(s, format, b))
      && (Encoded(s, format, b) ==> r.value.fields[JsonKey(b)] == Str(format(s.layouts.Get(b), s.values.Get(b).value)))
    ensures r.Ok? ==> forall key :: key in r.value.fields ==> exists b :: key == JsonKey(b)
  {
    match FirstMissing(s, CheckOrder)
    case Some(k) =>
      assert MissingLayout(s, CheckOrder[k]);
      Err(MarshalLayoutNotSpecified(FieldName(CheckOrder[k])))
    case None =>
      assert forall b :: !MissingLayout(s, b) by {
        forall b ensures !MissingLayout(s, b) {
          assert CheckOrder[CheckIndex(b)] == b;
        }
      }
      Ok(Obj(Put(Put(Put(Put(map[], s, format, Gt), s, format, Lt), s, format, Gte), s, format, Lte)))
  }

  /** The string of a bound in the marshalled object, or "" when it is not there. */
  function MarshalText(s: State, format: (Layout, Instant) -> string, b: Bound): string {
    if s.values.Get(b).Some? then format(s.layouts.Get(b), s.values.Get(b).value) else ""
  }

  lemma MarshalTexts(s: State, format: (Layout, Instant) -> string)
    requires forall b :: !MissingLayout(s, b)
    ensures Marshal(s, format).Ok?
    ensures BoundTexts(Doc(Marshal(s, format).value)) ==
      Some(Quad(MarshalText(s, format, Gt), MarshalText(s, format, Gte), MarshalText(s, format, Lt), MarshalText(s, format, Lte)))
  {
    var j := Marshal(s, format).value;
    assert forall b :: KeyText(j.fields, b) == Some(MarshalText(s, format, b));
  }

  /**
   * With a single layout that parses every non-empty string, the loop sets exactly the
   * bounds with a non-empty string, to what that layout parses.
   */
  lemma DecodeSingleLayout(blank: State, texts: Quad<string>, layout: Layout, parse: (Layout, string) -> Option<Instant>)
    requires forall b :: blank.values.Get(b).None?
    requires forall b :: texts.Get(b) != "" ==> parse(layout, texts.Get(b)).Some?
    ensures forall b :: (DecodeLoop(blank, texts, [layout], parse).values.Get(b) ==
      if texts.Get(b) != "" then parse(layout, texts.Get(b)) else None)
  {
    assert [layout][..0] == [];
    TryOrderTails();
    var a1 := Attempt(blank, texts, layout, parse, Gt);
    var a2 := Attempt(a1.0, texts, layout, parse, Lt);
    var a3 := Attempt(a2.0, texts, layout, parse, Gte);
    var a4 := Attempt(a3.0, texts, layout, parse, Lte);
    assert a1.1 && a2.1 && a3.1 && a4.1;
    assert DecodeLoop(blank, texts, [layout], parse) == a4.0;
    forall b ensures a4.0.values.Get(b) == if texts.Get(b) != "" then parse(layout, texts.Get(b)) else None {
      match b
      case Gt => assert a1.0.values.Get(Gt) == a4.0.values.Get(Gt);
      case Lt => assert a2.0.values.Get(Lt) == a4.0.values.Get(Lt);
      case Gte => assert a3.0.values.Get(Gte) == a4.0.values.Get(Gte);
      case Lte =>
    }
  }

  /** Once every unset bound has an empty string, a further layout changes nothing. */
  lemma {:induction false} TryBoundsSettled(s: State, texts: Quad<string>, layout: Layout, parse: (Layout, string) -> Option<Instant>, bs: seq<Bound>)
    requires forall b :: s.values.Get(b).None? ==> texts.Get(b) == ""
    ensures TryBounds(s, texts, layout, parse, bs) == s
    decreases |bs|
  {
    if bs != [] {
      assert Attempt(s, texts, layout, parse, bs[0]) == (s, true);
      TryBoundsSettled(s, texts, layout, parse, bs[1..]);
    }
  }

  /**
   * When the first layout parses every non-empty string, the loop, from no bounds set, sets
   * exactly the bounds with a non-empty string, to what the first layout parses; the later
   * layouts change nothing.
   */
  lemma {:induction false} DecodeFirstLayout(blank: State, texts: Quad<string>, layouts: seq<Layout>, parse: (Layout, string) -> Option<Instant>)
    requires layouts != []
    requires forall b :: blank.values.Get(b).None?
    requires forall b :: texts.Get(b) != "" ==> parse(layouts[0], texts.Get(b)).Some?
    ensures forall b :: (DecodeLoop(blank, texts, layouts, parse).values.Get(b) ==
      if texts.Get(b) != "" then parse(layouts[0], texts.Get(b)) else None)
    decreases |layouts|
  {
    if |layouts| == 1 {
      assert layouts == [layouts[0]];
      DecodeSingleLayout(blank, texts, layouts[0], parse);
    } else {
      var init := layouts[..|layouts| - 1];
      assert init[0] == layouts[0];
      DecodeFirstLayout(blank, texts, init, parse);
      TryBoundsSettled(DecodeLoop(blank, texts, init, parse), texts, layouts[|layouts| - 1], parse, TryOrder);
    }
  }

  /**
   * Marshalling and decoding again into a filter with no bounds set, with a layout list whose
   * first layout is the one every bound is marshalled with, restores the bounds (for a layout
   * whose formatting is non-empty and parses back to the same instant). A constructed filter
   * marshals with RFC 3339 and decodes with its layouts followed by RFC 3339, so this covers
   * it whenever it was built without layouts of its own.
   */
  lemma MarshalRoundTrip(s: State, layout: Layout, layouts: seq<Layout>, lib: TimeLib, blank: State)
    requires layout != ""
    requires layouts != [] && layouts[0] == layout
    requires forall b :: s.values.Get(b).Some? ==> s.layouts.Get(b) == layout
    requires forall t :: lib.parse(layout, lib.format(layout, t)) == Some(t) && lib.format(layout, t) != ""
    requires forall b :: blank.values.Get(b).None?
    ensures Marshal(s, lib.format).Ok?
    ensures BoundTexts(Doc(Marshal(s, lib.format).value)).Some?
    ensures DecodeLoop(blank, BoundTexts(Doc(Marshal(s, lib.format).value)).value, layouts, lib.parse).values == s.values
  {
    MarshalTexts(s, lib.format);
    var texts := BoundTexts(Doc(Marshal(s, lib.format).value)).value;
    assert forall b :: texts.Get(b) == MarshalText(s, lib.format, b);
    DecodeFirstLayout(blank, texts, layouts, lib.parse);
    var out := DecodeLoop(blank, texts, layouts, lib.parse).values;
    assert forall b :: out.Get(b) == s.values.Get(b);
    assert out.gt == s.values.Get(Gt) && out.gte == s.values.Get(Gte) && out.lt == s.values.Get(Lt) && out.lte == s.values.Get(Lte);
  }

  // ---------------------------------------------------------------------------------------
  // The filter
  // ---------------------------------------------------------------------------------------

  class DateTimeRange {
    var column: string
    var layouts: seq<Layout>
    var gtMarshalLayout: Layout
    var gteMarshalLayout: Layout
    var ltMarshalLayout: Layout
    var lteMarshalLayout: Layout
    var gt: Option<Instant>
    var gte: Option<Instant>
    var lt: Option<Instant>
    var lte: Option<Instant>

    function Current(): State
      reads this
    {
      State(Quad(gt, gte, lt, lte), Quad(gtMarshalLayout, gteMarshalLayout, ltMarshalLayout, lteMarshalLayout))
    }

    /** `NewDateTimeRange`: the caller's layouts followed by RFC 3339, marshalled as RFC 3339. */
    constructor(column: string, layouts: seq<Layout>)
      ensures this.column == column && this.layouts == layouts + [RFC3339]
      ensures Current() == State(Quad(None, None, None, None), Quad(RFC3339, RFC3339, RFC3339, RFC3339))
    {
      this.column := column;
      this.layouts := layouts + [RFC3339];
      gtMarshalLayout, gteMarshalLayout, ltMarshalLayout, lteMarshalLayout := RFC3339, RFC3339, RFC3339, RFC3339;
      gt, gte, lt, lte := None, None, None, None;
    }

    method Column(column: string)
      modifies this
      ensures this.column == column && layouts == old(layouts) && Current() == old(Current())
    {
      this.column := column;
    }

    /** `Layout`: appends parsing layouts. */
    method Layout(more: seq<Layout>)
      modifies this
      ensures layouts == old(layouts) + more
      ensures column == old(column) && Current() == old(Current())
    {
      layouts := layouts + more;
    }

    /** `AfterMarshalLayout`, `FromMarshalLayout`, `BeforeMarshalLayout`, `ToMarshalLayout`. */
    method MarshalLayout(b: Bound, layout: Layout)
      modifies this
      ensures Current() == State(old(Current()).values, old(Current()).layouts.Set(b, layout))
      ensures column == old(column) && layouts == old(layouts)
    {
      match b
      case Gt => gtMarshalLayout := layout;
      case Gte => gteMarshalLayout := layout;
      case Lt => ltMarshalLayout := layout;
      case Lte => lteMarshalLayout := layout;
    }

    /** `After`, `From`, `Before`, `To`. */
    method SetBound(b: Bound, value: Instant)
      modifies this
      ensures Current() == State(old(Current()).values.Set(b, Some(value)), old(Current()).layouts)
      ensures column == old(column) && layouts == old(layouts)
    {
      match b
      case Gt => gt := Some(value);
      case Gte => gte := Some(value);
      case Lt => lt := Some(value);
      case Lte => lte := Some(value);
    }

    /**
     * `UnmarshalJSON`: fails without a change when there is no layout or the input does not
     * decode; otherwise runs the layout loop and succeeds, whatever the strings parse to.
     */
    method UnmarshalJSON(input: Input, parse: (Layout, string) -> Option<Instant>) returns (err: Option<Error>)
      modifies this
      ensures column == old(column) && layouts == old(layouts)
      ensures |layouts| == 0 ==> err == Some(LayoutsNotSpecified) && Current() == old(Current())
      ensures |layouts| > 0 && BoundTexts(input).None? ==> err == Some(UnsupportedFormat) && Current() == old(Current())
      ensures |layouts| > 0 && BoundTexts(input).Some? ==>
        err == None && Current() == DecodeLoop(old(Current()), BoundTexts(input).value, layouts, parse)
    {
      if |layouts| == 0 {
        return Some(LayoutsNotSpecified);
      }
      var m := BoundTexts(input);
      if m.None? {
        return Some(UnsupportedFormat);
      }
      var texts := m.value;
      ghost var s0 := Current();
      for i := 0 to |layouts|
        invariant column == old(column) && layouts == old(layouts)
        invariant Current() == DecodeLoop(s0, texts, layouts[..i], parse)
      {
        var layout := layouts[i];
        assert layouts[..i + 1][..i] == layouts[..i];
        TryOrderTails();
        // The rest of this iteration is `TryBounds` from the current state over the blocks still to run.
        ghost var goal := DecodeLoop(s0, texts, layouts[..i + 1], parse);
        var go := TryBound(Gt, layout, texts, parse);
        if !go {
          continue;
        }
        assert goal == TryBounds(Current(), texts, layout, parse, [Lt, Gte, Lte]);
        go := TryBound(Lt, layout, texts, parse);
        if !go {
          continue;
        }
        assert goal == TryBounds(Current(), texts, layout, parse, [Gte, Lte]);
        go := TryBound(Gte, layout, texts, parse);
        if !go {
          continue;
        }
        assert goal == TryBounds(Current(), texts, layout, parse, [Lte]);
        go := TryBound(Lte, layout, texts, parse);
      }
      assert layouts[..|layouts|] == layouts;
      return None;
    }

    /**
     * One block of the loop body of `UnmarshalJSON`: when bound `b` is unset and its string
     * is non-empty, parses it with `layout` and on success stores the instant and the
     * layout; `false` means the parse failed and the loop goes on to the next layout.
     */
    method TryBound(b: Bound, layout: Layout, texts: Quad<string>, parse: (Layout, string) -> Option<Instant>) returns (go: bool)
      modifies this
      ensures (Current(), go) == Attempt(old(Current()), texts, layout, parse, b)
      ensures column == old(column) && layouts == old(layouts)
    {
      go := true;
      if Current().values.Get(b).None? && texts.Get(b) != "" {
        var parsed := parse(layout, texts.Get(b));
        if parsed.None? {
          return false;
        }
        match b
        case Gt => gtMarshalLayout, gt := layout, parsed;
        case Gte => gteMarshalLayout, gte := layout, parsed;
        case Lt => ltMarshalLayout, lt := layout, parsed;
        case Lte => lteMarshalLayout, lte := layout, parsed;
      }
    }

    function MarshalJSON(format: (Layout, Instant) -> string): (r: Result<Json>)
      reads this
      ensures r.Err? <==> exists b :: MissingLayout(Current(), b)
    {
      Marshal(Current(), format)
    }

    /**
     * `Appender`: one condition per set bound in the order lt, lte, gte, gt, each bound
     * formatted as RFC 3339 with nanoseconds and bound as a parameter.
     */
    function Appender(format: (Layout, Instant) -> string): (r: seq<Frag>)
      reads this
      ensures |r| == |Emitted(Current().values)|
      ensures forall i :: 0 <= i < |r| ==>
        r[i] == Cond(column, Emitted(Current().values)[i], Str(format(RFC3339Nano, Current().values.Get(Emitted(Current().values)[i]).value)))
    {
      Conditions(column, Current().values, (t: Instant) => Str(format(RFC3339Nano, t)))
    }
  }
}
