/**
 * Instants and Go's `time` layouts. `time.Parse`, `Time.Format` and `time.Now` are not part
 * of this model: parsing and formatting are passed in as a `TimeLib`, the current instant
 * as a parameter.
 */
module Clock {
  import opened Base

  /** A `time.Time`. */
  type Instant(==)

  /** A Go reference-time layout such as "2006-01-02". */
  type Layout = string

  datatype TimeLib = TimeLib(
    parse: (Layout, string) -> Option<Instant>,   // time.Parse(layout, value); None is an error
    format: (Layout, Instant) -> string)          // t.Format(layout)

  const RFC3339: Layout := "2006-01-02T15:04:05Z07:00"
  const RFC3339Nano: Layout := "2006-01-02T15:04:05.999999999Z07:00"

  /** The position of the first layout in `layouts` that parses `text`, if any. */
  function FirstParsing(layouts: seq<Layout>, text: string, parse: (Layout, string) -> Option<Instant>): (r: Option<nat>)
    ensures r.Some? ==> r.value < |layouts| && parse(layouts[r.value], text).Some?
    ensures r.Some? ==> forall k :: 0 <= k < r.value ==> parse(layouts[k], text).None?
    ensures r.None? <==> forall k :: 0 <= k < |layouts| ==> parse(layouts[k], text).None?
  {
    if layouts == [] then None
    else if parse(layouts[0], text).Some? then Some(0)
    else match FirstParsing(layouts[1..], text, parse)
      case None => None
      case Some(k) => Some(k + 1)
  }

  /** The instant `text` parses to with the first of `layouts` that parses it, and that layout. */
  function EarliestParse(layouts: seq<Layout>, text: string, parse: (Layout, string) -> Option<Instant>): Option<(Instant, Layout)> {
    match FirstParsing(layouts, text, parse)
    case None => None
    case Some(k) => Some((parse(layouts[k], text).value, layouts[k]))
  }

  /** The first parsing layout of a list with one more layout at the end. */
  lemma {:induction false} EarliestParseSnoc(layouts: seq<Layout>, text: string, parse: (Layout, string) -> Option<Instant>)
    requires layouts != []
    ensures var init, last := layouts[..|layouts| - 1], layouts[|layouts| - 1];
      EarliestParse(layouts, text, parse) ==
        if EarliestParse(init, text, parse).Some? then EarliestParse(init, text, parse)
        else if parse(last, text).Some? then Some((parse(last, text).value, last))
        else None
  {
    var init, last := layouts[..|layouts| - 1], layouts[|layouts| - 1];
    assert forall k :: 0 <= k < |init| ==> init[k] == layouts[k];
    assert layouts == init + [last];
  }
}
