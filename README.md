# pgquery filters and sorters in Dafny

pgquery is a small Go library of query "filter" and "sorter" value objects for go-pg. Each
object is filled in two ways: by chained builder setters, and by a JSON decoder that tries
several input shapes in turn. Each object then adds parameterised SQL conditions to a query:
a template with `?` placeholders plus an ordered argument list.

This project models the decision logic of those objects. The repository has two variants,
and both are modelled:

- **The root package `pgquery`.** Its filters are `RelativeDateTimeRange`, `DateTimeRange`,
  `KeywordSearch`, `Match`, `Exists`, `Range`, `OffsetPagination` and `Order`. They use
  pointer-optional fields, and the date filters accept several parse layouts.
- **The older `pgquery/filter` and `pgquery/sorter` packages.** Their filters are
  `DateTimeRange`, `KeywordSearch`, `Match`, `Exists`, `OffsetPagination` and `Order`. They
  use value fields and a single layout, and their decoders never report an error.

Each Go file is one module. Each filter struct is a class of the same name. The one other
struct, `RelativeDateTimeRangeUnitOption`, holds only optional unit values, so it is the map
type `Units`. The builder setters and the JSON decoders are methods with `modifies` clauses. Each pure decision is a
function, and the properties of those functions are lemmas. Shared modules:

- `Base`: `Option`, `Result`, the error values, and 64-bit `int` with its wrap-around.
- `Text`: ASCII `strings.ToLower`, suffixes, `strings.Join`, and the `%d` decimal rendering.
- `Wire`: a JSON value, and the decoding rules `encoding/json` applies to the shapes the
  filters try. A `null` decodes to the zero value. A pointer becomes nil on `null`. A fresh
  struct treats an absent field as its zero value. A type error makes the attempt fail.
- `Sql`: a condition fragment, a count of its placeholders, and a small evaluator. The
  evaluator gives the fragments a meaning on a database row: `=`, `IN`, `IS [NOT] NULL` and
  the four comparisons.
- `Like`: PostgreSQL `LIKE` patterns. `%` matches any run of characters, and `_` matches any
  one character. The default escape character, backslash, makes the character after it stand
  for itself. Every other character matches itself.
- `Clock`: an abstract instant. `time.Parse` and `Time.Format` are passed in as functions, and
  `time.Now` is passed in as a value.
- `Bounds`: the four bounds of the range-style filters, and the order in which they are
  emitted.

What the model shows:

- **Interval strings.** The relative range writes its time units as an interval string such
  as "1 year 2 days". The string can be read back: `IntervalRoundTrip` recovers exactly the
  positively valued units.
- **Bound emission.** `Range` and both `DateTimeRange` filters emit one condition per set
  bound, always in the order lt, lte, gte, gt. For the integer `Range`, those conditions
  together select exactly the rows whose column lies within every set bound
  (`Bounds.IntConditionsSelect`). The date filters bind formatted date strings, so for them
  only the emission order and the shape of each condition are proved.
  `RelativeDateTimeRange` is different: it always emits two conditions, `>=` and `<=`.
- **Date decoding.** The root `DateTimeRange` decoder tries every layout in turn and remembers,
  per bound, the layout that parsed it. A parse failure `continue`s to the next layout, so the
  later bounds are not tried with the layout that failed. `ContinueSkipsLaterBounds` shows the
  consequence: with layouts "A" then "B", a "before" string that "A" parses stays unset when
  the "after" string parses with neither layout. `DecodeLoopPerBound` is a reference loop in
  which a failure skips only its own bound. For that loop, `DecodePerBoundEarliest` proves that
  every bound gets the earliest layout that parses it.
- **Decoders and encoders.** Decoding the encoded value gives the value back for the root
  `KeywordSearch`, `Exists` and `Order`, for the filter `KeywordSearch` and `Exists`, and for
  the sorter `Order`. The root `Match` is the exception. A single value that is `null`, an
  array or an object is encoded bare, and it comes back changed (`Match.SingleShapesLost`), so
  `Match.RoundTrip` is stated for the other values. The filter `Match` has no encoder.
- **Pagination arithmetic.** The page offset is computed in 64-bit `int`, as Go computes it.
  The offset is `(page - 1) * limit` while that product fits in 64 bits. It wraps past that:
  page 2^62 with limit 4 gives offset -4 (`OffsetWraps`, `NegativeOffset`). `ExactWindow` is a
  reference window in exact arithmetic, and `ExactAgrees` proves that the window matches it
  wherever the product does not overflow.

## Model

| member | source | states |
|---|---|---|
| RelativeDateTimeRange.PhraseParts | relative_datetime_range.go:34-43 | a unit contributes text iff it is set to a value above 0; that text is the decimal value, a space, and the singular word at 1 or the plural word above 1 |
| RelativeDateTimeRange.WordsOf | relative_datetime_range.go:47-105 | each unit's singular and plural words (including "millenniums" and "centuries") name that unit and no other, contain no space, and differ from each other |
| RelativeDateTimeRange.HierarchyComplete | relative_datetime_range.go:45-108 | the walk visits every one of the twelve units |
| RelativeDateTimeRange.HierarchyDistinct | relative_datetime_range.go:45-108 | the walk visits no unit twice |
| RelativeDateTimeRange.Build | relative_datetime_range.go:45-108 | the loop over the units returns the interval string: the non-empty phrases in hierarchy order, joined by single spaces |
| RelativeDateTimeRange.UnitText | relative_datetime_range.go:34-43 | `buildValue` of one unit: the text is "" iff the value is below 1; its form is stated by `PhraseParts` |
| RelativeDateTimeRange.Phrase | relative_datetime_range.go:34-43 | the text a unit of an option contributes is non-empty iff the unit is set to a value of 1 or more |
| RelativeDateTimeRange.Interval | relative_datetime_range.go:45-108 | `build`: the interval string is "" iff no unit contributes a phrase; its reading back is `IntervalRoundTrip` |
| RelativeDateTimeRange.PhrasesAppend | relative_datetime_range.go:45-106 | the phrases of two consecutive stretches of the walk are the phrases of the first stretch followed by those of the second |
| RelativeDateTimeRange.IntervalRoundTrip | relative_datetime_range.go:45-108 | reading the interval string back, pair by pair in hierarchy order, recovers exactly the units set to a positive value with their values, so no two unit options with different positive parts render alike |
| RelativeDateTimeRange.IntervalEmptyIff | relative_datetime_range.go:45-108 | the interval string is "" iff no unit is set to a positive value |
| RelativeDateTimeRange.IntervalExample | relative_datetime_range.go:62-81 | year 1 and day 2 give "1 year 2 days" |
| RelativeDateTimeRange.RelativeDateTimeRange.constructor | relative_datetime_range.go:172-180 | the layouts are the caller's followed by RFC 3339, the marshal layout is RFC 3339, the pivot is the current instant, and both unit options are allocated and empty |
| RelativeDateTimeRange.InitState | relative_datetime_range.go:182-193 | `init` allocates the pivot and both unit options when nil, and keeps every field that is already set |
| RelativeDateTimeRange.InitIdempotent | relative_datetime_range.go:182-193 | `init` changes nothing on an initialised filter, so a second `init` changes nothing whatever the clock says |
| RelativeDateTimeRange.RelativeDateTimeRange.Init | relative_datetime_range.go:182-193 | the new state is `InitState` of the old one and the current instant; column and layouts are unchanged |
| RelativeDateTimeRange.RelativeDateTimeRange.Column | relative_datetime_range.go:196-199 | sets the column only |
| RelativeDateTimeRange.RelativeDateTimeRange.Layout | relative_datetime_range.go:202-205 | appends the given layouts to the list and changes nothing else |
| RelativeDateTimeRange.RelativeDateTimeRange.MarshalLayout | relative_datetime_range.go:208-211 | sets the marshal layout only |
| RelativeDateTimeRange.RelativeDateTimeRange.AsAt | relative_datetime_range.go:382-385 | sets the pivot only |
| RelativeDateTimeRange.WithUnit | relative_datetime_range.go:213-379 | setting a unit on one side sets exactly that unit of that side's option, leaves its other units and the other side alone, and keeps the pivot and the marshal layout |
| RelativeDateTimeRange.RelativeDateTimeRange.SetUnit | relative_datetime_range.go:213-379 | each of the 24 Ago/Upcoming setters: `init` first, then `WithUnit` for its side and unit |
| RelativeDateTimeRange.Members | relative_datetime_range.go:121-136 | the marshalled object holds "at" iff the formatted pivot is non-empty, and "ago"/"upcoming" iff those options are allocated, each under its own key and nothing else |
| RelativeDateTimeRange.Marshal | relative_datetime_range.go:121-137 | marshalling fails iff the pivot is set and the marshal layout is ""; otherwise it gives the object of `Members`, with the pivot formatted in the marshal layout |
| RelativeDateTimeRange.RelativeDateTimeRange.MarshalJSON | relative_datetime_range.go:121-137 | the filter's marshalling fails iff the pivot is set and the marshal layout is "" |
| RelativeDateTimeRange.MergeUnits | relative_datetime_range.go:143-152 | decoding a unit option into an existing one gives each unit the decoded value when its key is there, nil on `null`, and otherwise keeps the existing value |
| RelativeDateTimeRange.MergeEncoded | relative_datetime_range.go:121-152 | decoding a marshalled unit option into an existing one succeeds and overrides the existing units with the marshalled ones |
| RelativeDateTimeRange.MarshalRoundTrip | relative_datetime_range.go:121-166 | decoding the marshalled filter always succeeds, hands back the formatted pivot text, and merges each marshalled option into the receiving one |
| RelativeDateTimeRange.ParseAtFirstLayout | relative_datetime_range.go:157-166 | the layout loop leaves a set pivot or an empty text alone; otherwise the first layout in list order that parses the text sets the pivot and becomes the marshal layout; the unit options are not touched |
| RelativeDateTimeRange.Unmarshal | relative_datetime_range.go:140-169 | `UnmarshalJSON` on values: the error is "layouts not specified" iff there are no layouts, and any other error is "unsupported format" |
| RelativeDateTimeRange.UnmarshalOutcome | relative_datetime_range.go:140-169 | unmarshalling fails exactly without layouts, on input that is not JSON, or on a type error; it never replaces a set pivot or its marshal layout, so a constructed filter keeps its pivot |
| RelativeDateTimeRange.UnmarshalFirstLayout | relative_datetime_range.go:157-166 | with the pivot nil, the first layout that parses "at" sets the pivot and becomes the marshal layout |
| RelativeDateTimeRange.RelativeDateTimeRange.UnmarshalJSON | relative_datetime_range.go:140-169 | the new state and the error are those of `Unmarshal`; column and layouts are unchanged |
| RelativeDateTimeRange.SideCond | relative_datetime_range.go:391-400 | one side's condition: the column as identifier and the pivot as parameter, with the interval shift and its parameter added iff the interval string is non-empty |
| RelativeDateTimeRange.TemplateHoles | relative_datetime_range.go:392-399 | the comparison template has two placeholders, the interval shift one more |
| RelativeDateTimeRange.CondsWellFormed | relative_datetime_range.go:391-400 | both conditions have as many arguments as placeholders |
| RelativeDateTimeRange.Conds | relative_datetime_range.go:388-403 | exactly two conditions, ago (`>=`) first and upcoming (`<=`) second, the pivot formatted as RFC 3339 with nanoseconds; each side has the interval argument iff some unit of that side is positive |
| RelativeDateTimeRange.RelativeDateTimeRange.Appender | relative_datetime_range.go:388-403 | runs `init`, then returns `Conds` of the initialised filter |
| DateTimeRange.ObjectTexts | datetime_range.go:74-86 | the object decodes iff each of "after", "from", "before", "to" is absent, null or a string; the texts are then those strings, with "" for absent or null |
| DateTimeRange.BoundTexts | datetime_range.go:71-89 | `null` gives four empty texts, an object gives `ObjectTexts`, and any other document fails |
| DateTimeRange.TryBounds | datetime_range.go:92-123 | one layout's pass over the bounds in the order gt, lt, gte, lte, stopping at the first parse failure: a bound it changes was unset, has a non-empty string, now holds what the layout parses from it, and records the layout; a bound whose value it keeps keeps its layout |
| DateTimeRange.DecodeLoop | datetime_range.go:91-124 | the loop over the layouts in list order, each running `TryBounds`: a bound that is set stays as it is |
| DateTimeRange.DecodeKeepsSet | datetime_range.go:91-124 | the layout loop never changes a bound, or its layout, that is already set |
| DateTimeRange.DecodeJustified | datetime_range.go:91-124 | every bound the loop sets has a non-empty text that its recorded layout, one of the list, parses to the stored instant |
| DateTimeRange.DecodeGtEarliest | datetime_range.go:91-99 | the "after" bound, tried first in each round, gets the earliest layout in list order that parses its text, with that instant |
| DateTimeRange.ContinueSkipsLaterBounds | datetime_range.go:91-124 | a failed parse skips the later bounds for that layout: with layouts "A", "B", the "before" text that "A" parses stays unset when "after" parses with neither |
| DateTimeRange.DecodePerBoundEarliest | datetime_range.go:91-124 | in a reference loop where a failure skips only its own bound, every unset bound with a text gets its earliest parsing layout |
| DateTimeRange.FirstMissing | datetime_range.go:42-65 | the first bound, in the order of the checks, that is set but has no marshal layout |
| DateTimeRange.Marshal | datetime_range.go:31-68 | marshalling fails iff a set bound has an empty marshal layout, and it names the first such bound in the order gt, lt, gte, lte; otherwise each set bound is formatted with its own layout under its own key, and nothing else is there |
| DateTimeRange.MarshalTexts | datetime_range.go:31-89 | the texts decoded from a marshalled range are each bound's formatted value, "" for an unset bound |
| DateTimeRange.TryBoundsSettled | datetime_range.go:92-123 | once every unset bound has an empty string, a further layout changes nothing |
| DateTimeRange.DecodeFirstLayout | datetime_range.go:91-124 | from no bound set, when the first layout parses every non-empty string, the loop sets exactly the bounds with a string, to what the first layout parses, whatever layouts follow |
| DateTimeRange.MarshalRoundTrip | datetime_range.go:31-127 | with a layout that every bound is marshalled with and that parses back what it formats, decoding the marshalled range into a blank one restores every bound, for any layout list that starts with that layout |
| DateTimeRange.DateTimeRange.constructor | datetime_range.go:130-139 | the layouts are the caller's followed by RFC 3339, no bound is set, and every marshal layout is RFC 3339 |
| DateTimeRange.DateTimeRange.Column | datetime_range.go:142-145 | sets the column only |
| DateTimeRange.DateTimeRange.Layout | datetime_range.go:148-151 | appends the given layouts and changes nothing else |
| DateTimeRange.DateTimeRange.MarshalLayout | datetime_range.go:154-175 | the four marshal-layout setters: each changes exactly its bound's layout |
| DateTimeRange.DateTimeRange.SetBound | datetime_range.go:178-199 | After, Before, From, To: each sets exactly its bound |
| DateTimeRange.DateTimeRange.TryBound | datetime_range.go:92-123 | one bound's step of the loop: a set bound or an empty text is skipped; a parse sets the bound and its layout; a failure stops the round |
| DateTimeRange.DateTimeRange.UnmarshalJSON | datetime_range.go:71-127 | fails, changing nothing, without layouts or when the document does not decode; otherwise succeeds with the new state given by the layout loop |
| DateTimeRange.DateTimeRange.MarshalJSON | datetime_range.go:31-68 | fails iff a set bound has an empty marshal layout |
| DateTimeRange.DateTimeRange.Appender | datetime_range.go:202-218 | one condition per set bound in the order lt, lte, gte, gt, each bound formatted as RFC 3339 with nanoseconds and passed as a parameter |
| Bounds.Emitted | range.go:61-72 | the bounds that are emitted are exactly the set ones, at most four |
| Bounds.Conditions | range.go:61-72 | one condition per emitted bound, in emission order: the bound's comparison on the column, with the bound's value as parameter |
| Bounds.EmittedExactly | range.go:61-72 | a bound is emitted iff it is set, in the order lt, lte, gte, gt, so with no bound set there is no condition |
| Bounds.ConditionsWellFormed | range.go:62-71 | every condition has two placeholders and two arguments: the column as identifier and the bound as parameter |
| Bounds.IntConditionsSelect | range.go:59-74 | the integer conditions, taken together, hold on a row iff no bound is set or the row's column is a number within every set bound |
| Range.Range.constructor | range.go:22-26 | no bound is set |
| Range.Range.Column | range.go:29-32 | sets the column only |
| Range.Range.GreaterThan | range.go:35-38 | sets the gt bound only |
| Range.Range.GreaterThanEqual | range.go:41-44 | sets the gte bound only |
| Range.Range.LessThan | range.go:47-50 | sets the lt bound only |
| Range.Range.LessThanEqual | range.go:53-56 | sets the lte bound only |
| Range.Range.Build | range.go:59-75 | one condition per set bound, emitted iff set; together they select the rows within every set bound |
| Range.Selects | range.go:59-75 | the emitted conditions hold on a row iff no bound is set or the column lies within every set bound |
| Range.ZeroBoundEmitted | range.go:61-62 | a bound of 0 is emitted like any other: presence, not value, decides |
| KeywordSearch.Pattern | keyword_search.go:94-109 | `buildValue`: the pattern contains the keyword and is at most two characters longer |
| KeywordSearch.PatternSelects | keyword_search.go:94-109 | for a keyword without wildcards or backslashes, the pattern matches a text iff the text equals the keyword (matchAll, or both start and end set), starts with it (matchStart), ends with it (matchEnd), or contains it (default) |
| KeywordSearch.PatternKeyword | keyword_search.go:94-109 | the pattern is the keyword with `%` added at the front iff neither matchAll nor matchStart, and at the back iff neither matchAll nor matchEnd |
| KeywordSearch.PatternExamples | keyword_search.go:94-109 | "keyword" gives "%keyword%", "keyword%", "%keyword" and, with matchAll, "keyword" |
| Like.BackslashNotLiteral | keyword_search.go:94-109 | a keyword with a backslash is not a literal pattern |
| Like.EscapeDropped | keyword_search.go:94-109 | with keyword `a\b` and no flags, the pattern matches "ab", because the backslash escapes `b` |
| Like.EscapeNotLiteral | keyword_search.go:94-109 | with keyword `a\b` and no flags, the pattern does not match "a\b" |
| Like.TrailingEscape | keyword_search.go:94-109 | a pattern that ends in a backslash matches no text |
| KeywordSearch.Operator | keyword_search.go:111-116 | "ILIKE" iff case-insensitive, "LIKE" otherwise |
| KeywordSearch.SearchColumn | keyword_search.go:118-123 | a column ending in ",array" becomes `array_to_string` of the column without one ",array", joined by ","; any other column is an identifier |
| KeywordSearch.SearchColumnOnce | keyword_search.go:118-123 | only one ",array" is removed |
| KeywordSearch.Decode | keyword_search.go:27-44 | `null` unsets the value, a string sets it, an object sets it from "value" (absent or null unset it), and any other document fails |
| KeywordSearch.Encode | keyword_search.go:47-49 | an unset value encodes as `null`, a set one as its string |
| KeywordSearch.RoundTrip | keyword_search.go:27-49 | decoding the encoded value gives it back |
| KeywordSearch.KeywordSearch.constructor | keyword_search.go:52-56 | the value is unset and every flag is false |
| KeywordSearch.KeywordSearch.Column | keyword_search.go:59-62 | sets the column only |
| KeywordSearch.KeywordSearch.CaseInsensitive | keyword_search.go:65-68 | sets its flag only |
| KeywordSearch.KeywordSearch.MatchAll | keyword_search.go:71-74 | sets its flag only |
| KeywordSearch.KeywordSearch.MatchStart | keyword_search.go:77-80 | sets its flag only |
| KeywordSearch.KeywordSearch.MatchEnd | keyword_search.go:83-86 | sets its flag only |
| KeywordSearch.KeywordSearch.Keyword | keyword_search.go:89-92 | sets the value only |
| KeywordSearch.KeywordSearch.UnmarshalJSON | keyword_search.go:27-44 | succeeds iff `Decode` does, then setting the value it decodes; on failure nothing changes and the error is "unsupported format"; the flags and column never change |
| KeywordSearch.KeywordSearch.MarshalJSON | keyword_search.go:47-49 | decoding the output restores the value |
| KeywordSearch.KeywordSearch.BuildValue | keyword_search.go:94-109 | the step-by-step pattern is `Pattern` of the value, with an unset value taken as "" |
| KeywordSearch.KeywordSearch.Appender | keyword_search.go:126-131 | "? ? ?" with the column, the operator as safe SQL, and the pattern as a parameter, never template text |
| Match.Decode | match.go:22-54 | fails only on input that is not JSON; `null` unsets the values, an array is taken as is, a single string, number or boolean becomes a list of one, and an object's "values" is taken as is when it is an array, wrapped when it is anything else |
| Match.Encode | match.go:57-66 | one value is encoded bare, any other list as an array, unset values as `null` |
| Match.RoundTrip | match.go:22-66 | decoding the encoded values gives them back, except for a single `null`, array or object |
| Match.SingleShapesLost | match.go:22-66 | a single `null` comes back unset, and a single array comes back as its elements |
| Match.Condition | match.go:88-97 | no values give no condition, one gives "? = ?" with that value, more give "? IN (?)" with the list |
| Match.ConditionSelects | match.go:88-97 | the condition is well formed and holds on a row iff the row's column is non-null and among the values |
| Match.Match.constructor | match.go:69-73 | the values are unset |
| Match.Match.Column | match.go:76-79 | sets the column only |
| Match.Match.Matches | match.go:82-85 | appends its arguments after the current values; unset values with nothing to add stay unset |
| Match.Match.UnmarshalJSON | match.go:22-54 | succeeds iff `Decode` does, then replacing the values wholesale; on failure nothing changes |
| Match.Match.MarshalJSON | match.go:57-66 | one value is emitted bare; any other list decodes back to itself |
| Match.Match.Build | match.go:88-97 | no condition iff there are no values; otherwise the condition holds on a row iff its column is non-null and among the values |
| Exists.NullTest | exists.go:77-82 | "IS NOT NULL" iff presence is asked for, "IS NULL" otherwise |
| Exists.TestSelects | exists.go:85-88 | the condition holds on a row iff the column is non-null (presence asked) or null (absence asked) |
| Exists.TestWellFormed | exists.go:85-88 | two placeholders, two arguments, none bound as a value |
| Exists.Decode | exists.go:24-41 | `null` unsets the value, a boolean sets it, an object sets it from "value", and any other document fails |
| Exists.Encode | exists.go:44-46 | an unset value encodes as `null`, a set one as its boolean |
| Exists.RoundTrip | exists.go:24-46 | decoding the encoded value gives it back |
| Exists.Exists.constructor | exists.go:49-53 | the value is unset |
| Exists.Exists.Column | exists.go:56-59 | sets the column only |
| Exists.Exists.Exists | exists.go:62-65 | sets the value to the argument only |
| Exists.Exists.ShouldExists | exists.go:68-70 | sets the value to true |
| Exists.Exists.ShouldNotExists | exists.go:73-75 | sets the value to false |
| Exists.Exists.UnmarshalJSON | exists.go:24-41 | succeeds iff `Decode` does, then setting its value; on failure nothing changes |
| Exists.Exists.MarshalJSON | exists.go:44-46 | decoding the output restores the value |
| Exists.Exists.BuildValue | exists.go:77-82 | "IS NOT NULL" iff the value is set and true; unset and false both give "IS NULL" |
| Exists.Exists.Appender | exists.go:85-88 | "? ?" with the column and the null test as safe SQL; it holds on a row iff the column is non-null exactly when the value is true |
| OffsetPagination.NormalPage | offset_pagination.go:20-24 | a page of 0 or less becomes 1, a positive page stays |
| OffsetPagination.NormalPageIdempotent | offset_pagination.go:20-24 | normalising twice is normalising once |
| OffsetPagination.PageOffset | offset_pagination.go:38 | the offset is `(page - 1) * limit` whenever that fits in 64 bits |
| OffsetPagination.OffsetSkipsEarlierPages | offset_pagination.go:36-38 | without overflow and with a limit of 0 or more, the offset is the non-negative number of rows on the earlier pages |
| OffsetPagination.OffsetWraps | offset_pagination.go:38 | page 2^62 with limit 4 wraps to offset -4 |
| OffsetPagination.WindowOf | offset_pagination.go:36-39 | no limit and no offset iff the limit is absent; otherwise that limit and the 64-bit offset of the page, which is 0 on page 1 |
| OffsetPagination.FirstPage | offset_pagination.go:20-39 | page 0 and page 1 give the same window, offset 0 |
| OffsetPagination.OffsetPagination.constructor | offset_pagination.go:16-18 | page 0, no limit |
| OffsetPagination.OffsetPagination.Init | offset_pagination.go:20-24 | normalises the page and keeps the limit |
| OffsetPagination.OffsetPagination.Offset | offset_pagination.go:27-31 | sets the page and makes the limit present, even at 0 |
| OffsetPagination.OffsetPagination.Build | offset_pagination.go:34-41 | normalises the page in the object, then returns `WindowOf` the normalised page and the limit, so a second call gives the same window |
| Order.DirectionText | order.go:27-29 | `String`: upper-case text that lower-cases to "asc" for Asc and "desc" for Desc |
| Order.ParseText | order.go:57-77 | Asc iff the lower-cased text is "asc", Desc iff it is "desc", nothing otherwise |
| Order.ParseInt | order.go:79-98 | Asc iff 0, Desc iff 1, nothing otherwise |
| Order.TextRoundTrip | order.go:27-29 | "ASC" and "DESC", in any letter case, parse back to their direction |
| Order.ParseTextIgnoresCase | order.go:58-75 | parsing a text and parsing its lower-cased form agree |
| Order.Decode | order.go:43-102 | input that is not JSON fails; an object is decided by its "direction" and any other document by itself: `null` names no direction, a string is parsed by text, a 64-bit number by integer, and anything else fails |
| Order.UnknownValues | order.go:57-99 | "up", 7 and `{}` decode without a direction, and a bare boolean fails |
| Order.RoundTrip | order.go:27-77 | decoding the marshalled direction gives it back |
| Order.OrderExpr | order.go:143-145 | "? ?" with the column as identifier and the direction as safe SQL, no bound value |
| Order.Order.constructor | order.go:105-110 | the direction is Asc |
| Order.Order.Column | order.go:125-128 | sets the column only |
| Order.Order.Asc | order.go:131-134 | sets Asc, keeps the column |
| Order.Order.Desc | order.go:137-140 | sets Desc, keeps the column |
| Order.Order.SetFromText | order.go:58-64 | a recognised text sets its direction; anything else keeps the current one |
| Order.Order.SetFromInt | order.go:80-86 | 0 or 1 sets its direction; anything else keeps the current one |
| Order.Order.UnmarshalJSON | order.go:43-102 | succeeds iff some shape decodes; an unrecognised direction keeps the current one; on failure nothing changes |
| Order.Order.MarshalJSON | order.go:38-40 | emits "ASC" or "DESC", which decodes back to the direction |
| Order.Order.Appender | order.go:143-145 | the order expression of the column and the direction |
| Order.NewOrderAsc | order.go:113-116 | a fresh order on the column, ascending |
| Order.NewOrderDesc | order.go:119-122 | a fresh order on the column, descending |
| FilterDateTimeRange.Texts | pgquery/filter/datetime_range.go:49-56 | only an object decodes, to its four texts |
| FilterDateTimeRange.DateTimeRange.constructor | pgquery/filter/datetime_range.go:86-90 | layout RFC 3339, empty column, no bound |
| FilterDateTimeRange.DateTimeRange.Column | pgquery/filter/datetime_range.go:93-96 | sets the column only |
| FilterDateTimeRange.DateTimeRange.Layout | pgquery/filter/datetime_range.go:99-102 | replaces the layout, does not append |
| FilterDateTimeRange.DateTimeRange.SetBound | pgquery/filter/datetime_range.go:105-126 | After, Before, From, To: each sets exactly its bound |
| FilterDateTimeRange.DateTimeRange.ParseBound | pgquery/filter/datetime_range.go:57-80 | one bound: a non-empty text that the layout parses overwrites it, even when set; otherwise it stays |
| FilterDateTimeRange.DateTimeRange.UnmarshalJSON | pgquery/filter/datetime_range.go:49-83 | never reports an error; a document that does not decode changes nothing; otherwise each bound is overwritten by its own text or kept, whatever happens to the others |
| FilterDateTimeRange.DateTimeRange.Build | pgquery/filter/datetime_range.go:129-145 | one condition per set bound in the order lt, lte, gte, gt, each bound formatted as RFC 3339 with nanoseconds and passed as a parameter |
| FilterKeywordSearch.Decode | pgquery/filter/keyword_search.go:26-43 | `null` gives "", a string gives itself, an object its "value", and any other document fails |
| FilterKeywordSearch.RoundTrip | pgquery/filter/keyword_search.go:26-48 | decoding the marshalled string gives it back |
| FilterKeywordSearch.KeywordSearch.constructor | pgquery/filter/keyword_search.go:51-55 | takes the keyword, not the column; the column is empty and every flag is false |
| FilterKeywordSearch.KeywordSearch.Column | pgquery/filter/keyword_search.go:58-61 | sets the column only |
| FilterKeywordSearch.KeywordSearch.CaseInsensitive | pgquery/filter/keyword_search.go:64-67 | sets its flag only |
| FilterKeywordSearch.KeywordSearch.MatchAll | pgquery/filter/keyword_search.go:70-73 | sets its flag only |
| FilterKeywordSearch.KeywordSearch.MatchStart | pgquery/filter/keyword_search.go:76-79 | sets its flag only |
| FilterKeywordSearch.KeywordSearch.MatchEnd | pgquery/filter/keyword_search.go:82-85 | sets its flag only |
| FilterKeywordSearch.KeywordSearch.UnmarshalJSON | pgquery/filter/keyword_search.go:26-43 | never reports an error; sets what `Decode` gives, and keeps the value when both shapes fail |
| FilterKeywordSearch.KeywordSearch.MarshalJSON | pgquery/filter/keyword_search.go:46-48 | decoding the output restores the value |
| FilterKeywordSearch.KeywordSearch.BuildValue | pgquery/filter/keyword_search.go:87-99 | the step-by-step pattern, rebuilt from the keyword at the `%` step, equals the root package's `Pattern` |
| FilterKeywordSearch.KeywordSearch.Build | pgquery/filter/keyword_search.go:116-121 | "? ? ?" with the column rule, the operator and the pattern as a parameter |
| FilterMatch.Decode | pgquery/filter/match.go:21-35 | a document other than an object keeps the values; in an object, the array attempt, run second, wins when it succeeds (absent or null "values" unsets them); otherwise a string "values" gives a list of one; otherwise nothing changes |
| FilterMatch.DecodeExamples | pgquery/filter/match.go:21-35 | `{}` unsets the values, `{"values": "match"}` gives a list of one, and a bare array or a number under "values" keeps the values |
| FilterMatch.Match.constructor | pgquery/filter/match.go:38-40 | the given values in order, with an empty argument list as no values |
| FilterMatch.Match.Column | pgquery/filter/match.go:43-46 | sets the column only |
| FilterMatch.Match.UnmarshalJSON | pgquery/filter/match.go:21-35 | never reports an error; the values become `Decode` of the old values and the input |
| FilterMatch.Match.Build | pgquery/filter/match.go:49-58 | no condition iff there are no values; otherwise the condition holds iff the column is non-null and among the values |
| FilterExists.Decode | pgquery/filter/exists.go:21-38 | `null` gives false, a boolean gives itself, an object its "value" (absent or null give false), and any other document fails |
| FilterExists.RoundTrip | pgquery/filter/exists.go:21-43 | decoding the marshalled boolean gives it back |
| FilterExists.Exists.constructor | pgquery/filter/exists.go:46-50 | the given value, empty column |
| FilterExists.Exists.Column | pgquery/filter/exists.go:53-56 | sets the column only |
| FilterExists.Exists.UnmarshalJSON | pgquery/filter/exists.go:21-38 | never reports an error; sets what `Decode` gives, and keeps the value when both shapes fail |
| FilterExists.Exists.MarshalJSON | pgquery/filter/exists.go:41-43 | decoding the output restores the value |
| FilterExists.Exists.BuildValue | pgquery/filter/exists.go:58-63 | "IS NOT NULL" iff the value is true |
| FilterExists.Exists.Build | pgquery/filter/exists.go:66-69 | the null-test condition, which holds iff the column is non-null exactly when the value is true |
| FilterOffsetPagination.NormalLimit | pgquery/filter/offset_pagination.go:28-30 | a limit of 0 or less becomes the default limit, a positive one stays |
| FilterOffsetPagination.NormalLimitIdempotent | pgquery/filter/offset_pagination.go:24-31 | normalising twice with the same default is normalising once |
| FilterOffsetPagination.WindowOf | pgquery/filter/offset_pagination.go:42-45 | limit and offset iff the limit is positive, the offset computed in 64-bit arithmetic |
| FilterOffsetPagination.NoLimitNoPagination | pgquery/filter/offset_pagination.go:28-45 | with limit and default limit both 0 or less, nothing is emitted |
| FilterOffsetPagination.NegativeOffset | pgquery/filter/offset_pagination.go:44 | page 2^62 with limit 4 emits offset -4 |
| FilterOffsetPagination.ExactAgrees | pgquery/filter/offset_pagination.go:42-45 | wherever `(page - 1) * limit` fits in 64 bits, the window equals the exact one, whose offset is never negative |
| FilterOffsetPagination.OffsetPagination.constructor | pgquery/filter/offset_pagination.go:17-22 | the given page and limit, default limit 0 |
| FilterOffsetPagination.OffsetPagination.Init | pgquery/filter/offset_pagination.go:24-31 | normalises page and limit |
| FilterOffsetPagination.OffsetPagination.DefaultLimit | pgquery/filter/offset_pagination.go:34-37 | sets the default limit only |
| FilterOffsetPagination.OffsetPagination.Build | pgquery/filter/offset_pagination.go:40-47 | normalises the fields in the object, then returns `WindowOf` the normalised page and limit |
| FilterOffsetPagination.DefaultLimitExample | pgquery/filter/offset_pagination.go:17-47 | page 1, limit 0 and default limit 5 give limit 5, offset 0 |
| SorterOrder.Decode | pgquery/sorter/order.go:43-75 | a bare string, or the string under an object's "direction", is parsed as text; no other document gives a direction |
| SorterOrder.RoundTrip | pgquery/sorter/order.go:38-72 | decoding the marshalled direction gives it back |
| SorterOrder.DecodeExamples | pgquery/sorter/order.go:52-74 | "Asc" decodes to Asc; "up" and 1 give no direction |
| SorterOrder.DecodeObjectExample | pgquery/sorter/order.go:52-61 | `{"direction": "desc"}` decodes to Desc |
| SorterOrder.Order.constructor | pgquery/sorter/order.go:78-82 | the given direction, empty column |
| SorterOrder.Order.Column | pgquery/sorter/order.go:97-100 | sets the column only |
| SorterOrder.Order.Asc | pgquery/sorter/order.go:103-106 | sets Asc only |
| SorterOrder.Order.Desc | pgquery/sorter/order.go:109-112 | sets Desc only |
| SorterOrder.Order.SetFromText | pgquery/sorter/order.go:53-59 | a recognised text sets its direction; anything else keeps the current one |
| SorterOrder.Order.UnmarshalJSON | pgquery/sorter/order.go:43-75 | never reports an error; the direction is the decoded one or stays |
| SorterOrder.Order.MarshalJSON | pgquery/sorter/order.go:38-40 | emits "ASC" or "DESC", which decodes back to the direction |
| SorterOrder.Order.Build | pgquery/sorter/order.go:115-117 | the order expression of the column and the direction |
| SorterOrder.NewOrderAsc | pgquery/sorter/order.go:85-88 | a fresh ascending order |
| SorterOrder.NewOrderDesc | pgquery/sorter/order.go:91-94 | a fresh descending order |
| Text.DecimalRoundTrip | relative_datetime_range.go:37-39 | the `%d` rendering of a natural number reads back to that number |
| Text.SplitJoin | relative_datetime_range.go:107 | joining words that contain no space, and splitting at spaces, gives the words back |
| Text.LowerIdempotent | order.go:58-59 | lower-casing twice is lower-casing once |
| Text.TrimSuffix | keyword_search.go:120 | removing a present suffix leaves what precedes it; an absent one leaves the text |
| Base.Wrap64 | offset_pagination.go:38 | 64-bit wrap-around: the value itself when it fits, otherwise congruent to it modulo 2^64 |

## Left out

- go-pg query building is not modelled. `orm.Query`, `Where`, `WhereGroup`, `OrderExpr`, `Limit`, `Offset`, `types.Ident`, `types.Safe`, `types.In` and `pg.Array` become returned fragments and windows. Quoting, rendering and grouping belong to the library.
- The closures that `Appender` and `Build` return become those fragments directly. Whatever the query is is left out.
- `time.Parse`, `Time.Format` and `time.Now` are parameters. Nothing is assumed about them except where a lemma states it, such as the layout that formats and parses back in `DateTimeRange.MarshalRoundTrip`.
- JSON is a value, not bytes. Malformed text is the `Malformed` input.
- `encoding/json` matches keys case-insensitively. The model matches them exactly.
- JSON numbers are 64-bit integers. Fractional numbers, which Go decodes as `float64` into `interface{}`, are not modelled. Match values are JSON values rather than Go's `float64`/`string`/`bool` dynamic values.
- The twelve `if` blocks of `build` are one loop over the unit list.
- The 24 `Ago*`/`Upcoming*` setters are one `SetUnit(side, unit, value)`.
- The four `gt`/`lt`/`gte`/`lte` setters of each date range are one `SetBound(b, value)`. The four marshal-layout setters are one `MarshalLayout(b, layout)`.
- The per-bound steps of the root `DateTimeRange.UnmarshalJSON` are factored into `TryBound`. The steps of the filter `DateTimeRange.UnmarshalJSON` are factored into `ParseBound`.
- `MarshalJSON` of the filter `DateTimeRange` (pgquery/filter/datetime_range.go:26-46) is not modelled. It writes through a nil struct pointer whenever a bound is set, so it has no result to state.
- FilterDateTimeRange.DateTimeRange.UnmarshalJSON: requires input other than `null`, because the code dereferences a nil pointer there.
- FilterMatch.Match.UnmarshalJSON: requires input other than `null`, because the code dereferences a nil pointer there.
- `NewMatch` in the filter package with an explicit empty slice is modelled like no values. Go distinguishes nil from empty, but both emit no condition.
- The marshalling of a filter `Match` is not modelled. The filter package has no custom marshaller.
- Order directions other than Asc and Desc, and a nil `Direction` pointer, cannot be expressed: `Direction` has exactly those two values. Go's `String` would panic on the others.
- `OffsetPagination` has no custom JSON codec. Go's default encoding of its fields is not modelled.
- OffsetPagination.OffsetSkipsEarlierPages: requires `(page - 1) * limit` to fit in 64 bits, because Go's `int` wraps beyond that (`OffsetWraps`). The same holds for FilterOffsetPagination.ExactAgrees.
- The keyword goes into the `LIKE` pattern unescaped, as in the code, so `%`, `_` and backslash in a keyword keep their pattern meaning. `KeywordSearch.PatternSelects` is stated for keywords without those three characters. The `Like` lemmas show what a backslash does.
- PostgreSQL rejects a `LIKE` pattern that ends in the escape character with an error. `Like.Matches` treats it as matching no text instead.
- `LIKE ... ESCAPE` with another escape character is not modelled: the code never uses it.
- `ILIKE` case folding is not modelled. `Text.Lower` folds ASCII letters only, which is what the direction names need.
- Concurrency is left out: every filter is used by one goroutine at a time.
