/**
 * Condition fragments as the filters hand them to go-pg: a template with `?` placeholders
 * and the ordered arguments that fill them. Identifiers and trusted SQL are separate
 * argument kinds from bound values, so a value never becomes part of the template text.
 */
module Sql {
  import opened Base
  import opened Wire

  datatype Arg =
    | Ident(name: string)                          // types.Ident: a quoted column name
    | Safe(sql: string)                            // types.Safe: trusted SQL text
    | Value(v: Json)                               // a parameter bound by the driver
    | ArrayToString(column: string, sep: string)   // orm.SafeQuery("array_to_string(?, ?)", types.Ident(column), sep)
    | In(values: seq<Json>)                        // types.In: a parameter list

  datatype Frag = Frag(template: string, args: seq<Arg>)

  /** The number of placeholders in a template. */
  function Holes(template: string): nat {
    multiset(template)['?']
  }

  /** Every placeholder has exactly one argument. */
  predicate WellFormed(f: Frag) {
    Holes(f.template) == |f.args|
  }

  /** The values of one table row, by column name; SQL NULL is `Null`. */
  type Row = string -> Json

  /**
   * What the database makes of a fragment for one row, for the templates the filters emit
   * (`None` for any other fragment). Comparisons with NULL select nothing.
   */
  function Eval(f: Frag, row: Row): Option<bool> {
    if |f.args| == 2 && f.args[0].Ident? then
      var x := row(f.args[0].name);
      var a := f.args[1];
      if f.template == "? = ?" && a.Value? then Some(x != Null && x == a.v)
      else if f.template == "? IN (?)" && a.In? then Some(x != Null && x in a.values)
      else if f.template == "? ?" && a == Safe("IS NULL") then Some(x == Null)
      else if f.template == "? ?" && a == Safe("IS NOT NULL") then Some(x != Null)
      else if a.Value? && a.v.Num? then
        var n := a.v.n;
        if f.template == "? < ?" then Some(x.Num? && x.n < n)
        else if f.template == "? <= ?" then Some(x.Num? && x.n <= n)
        else if f.template == "? >= ?" then Some(x.Num? && x.n >= n)
        else if f.template == "? > ?" then Some(x.Num? && x.n > n)
        else None
      else None
    else None
  }

  /** A group of fragments joined by AND selects the row. */
  predicate AllHold(fs: seq<Frag>, row: Row) {
    forall i :: 0 <= i < |fs| ==> Eval(fs[i], row) == Some(true)
  }
}
