/**
 * The datetime range filter of the `filter` package (pgquery/filter/datetime_range.go):
 * four optional instant bounds parsed with one layout, each decoded on its own and
 * overwriting what was there; the decoder never reports an error.
 */
module FilterDateTimeRange {
  import opened Base
  import opened Wire
  import opened Sql
  import opened Clock
  import opened Bounds
  import DT = DateTimeRange

  /**
   * The four date strings of a document: an object whose date keys are strings (or `null`,
   * or absent, giving ""); any other document does not decode. A `null` document makes Go
   * dereference a nil struct pointer, so no caller may pass one.
   */
  function Texts(input: Input): (r: Option<Quad<string>>)
    requires input != Doc(Null)
    ensures r.Some? ==> input.Doc? && input.json.Obj? && r == DT.ObjectTexts(input.json.fields)
    ensures input.Doc? && input.json.Obj? ==> r == DT.ObjectTexts(input.json.fields)
  {
    match input
    case Malformed => None
    case Doc(j) => if j.Obj? then DT.ObjectTexts(j.fields) else None
  }

  /** A bound after decoding its string: overwritten when the string parses, kept otherwise. */
  function Overwritten(current: Option<Instant>, text: string, layout: Layout, parse: (Layout, string) -> Option<Instant>): Option<Instant> {
    if text != "" && parse(layout, text).Some? then parse(layout, text) else current
  }

  class DateTimeRange {
    var column: string
    var layout: Layout
    var gt: Option<Instant>
    var gte: Option<Instant>
    var lt: Option<Instant>
    var lte: Option<Instant>

    function Bounds(): Quad<Option<Instant>>
      reads this
    {
      Quad(gt, gte, lt, lte)
    }

    /** `NewDateTimeRange`: RFC 3339 and no bound. */
    constructor()
      ensures layout == RFC3339 && column == ""
      ensures Bounds() == Quad(None, None, None, None)
    {
      layout := RFC3339;
      column := "";
      gt, gte, lt, lte := None, None, None, None;
    }

    method Column(column: string)
      modifies this
      ensures this.column == column && layout == old(layout) && Bounds() == old(Bounds())
    {
      this.column := column;
    }

    /** `Layout` replaces the one parsing layout. */
    method Layout(layout: Layout)
      modifies this
      ensures this.layout == layout && column == old(column) && Bounds() == old(Bounds())
    {
      this.layout := layout;
    }

    /** `After`, `From`, `Before`, `To`. */
    method SetBound(b: Bound, value: Instant)
      modifies this
      ensures Bounds() == old(Bounds()).Set(b, Some(value))
      ensures column == old(column) && layout == old(layout)
    {
      match b
      case Gt => gt := Some(value);
      case Gte => gte := Some(value);
      case Lt => lt := Some(value);
      case Lte => lte := Some(value);
    }

    /**
     * `UnmarshalJSON`: when the document decodes, each bound with a non-empty string that
     * the layout parses is overwritten, whatever the other bounds do; a document that does
     * not decode, and a string that does not parse, change nothing. No error is reported.
     */
    method UnmarshalJSON(input: Input, parse: (Layout, string) -> Option<Instant>) returns (err: Option<Error>)
      requires input != Doc(Null)
      modifies this
      ensures err == None
      ensures Texts(input).None? ==> Bounds() == old(Bounds())
      ensures Texts(input).Some? ==> forall b ::
        Bounds().Get(b) == Overwritten(old(Bounds()).Get(b), Texts(input).value.Get(b), layout, parse)
      ensures column == old(column) && layout == old(layout)
    {
      var t := Texts(input);
      if t.Some? {
        var texts := t.value;
        ghost var q0 := Bounds();
        ParseBound(Gt, texts.gt, parse);
        ParseBound(Lt, texts.lt, parse);
        ParseBound(Gte, texts.gte, parse);
        ParseBound(Lte, texts.lte, parse);
        assert Bounds() == Quad(Overwritten(q0.gt, texts.gt, layout, parse), Overwritten(q0.gte, texts.gte, layout, parse),
                                Overwritten(q0.lt, texts.lt, layout, parse), Overwritten(q0.lte, texts.lte, layout, parse));
      }
      return None;
    }

    /** One block of `UnmarshalJSON`: a non-empty string that parses overwrites bound `b`. */
    method ParseBound(b: Bound, text: string, parse: (Layout, string) -> Option<Instant>)
      modifies this
      ensures Bounds() == old(Bounds()).Set(b, Overwritten(old(Bounds()).Get(b), text, layout, parse))
      ensures column == old(column) && layout == old(layout)
    {
      if text != "" {
        var parsed := parse(layout, text);
        if parsed.Some? {
          match b
          case Gt => gt := parsed;
          case Gte => gte := parsed;
          case Lt => lt := parsed;
          case Lte => lte := parsed;
        }
      }
    }

    /**
     * `Build`: one condition per set bound in the order lt, lte, gte, gt, each bound
     * formatted as RFC 3339 with nanoseconds and bound as a parameter.
     */
    function Build(format: (Layout, Instant) -> string): (r: seq<Frag>)
      reads this
      ensures |r| == |Emitted(Bounds())|
      ensures forall b :: b in Emitted(Bounds()) <==> Bounds().Get(b).Some?
      ensures forall i :: 0 <= i < |r| ==>
        r[i] == Cond(column, Emitted(Bounds())[i], Str(format(RFC3339Nano, Bounds().Get(Emitted(Bounds())[i]).value)))
    {
      EmittedExactly(Bounds());
      Conditions(column, Bounds(), (t: Instant) => Str(format(RFC3339Nano, t)))
    }
  }
}
