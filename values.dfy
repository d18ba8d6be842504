// The dynamic `data any` argument of a renderer, reduced to what the modelled
// code inspects: its dynamic type in the cases it switches on, and otherwise the
// results of the methods it may call.
module Values {

  import opened Wrappers

  datatype Value =
    | Str(s: string)                    // a Go `string`
    | Records(rows: seq<seq<string>>)   // a `[][]string`
    | Other(stringer: Option<string>, errorText: Option<string>, formatted: string)
      // any other value: what `String()` returns when it is a fmt.Stringer, what
      // `Error()` returns when it is an error, and what the `%v` verb prints

  /** What `fmt.Sprintf("%v", v)` prints for a `[][]string`: "[[a b] [c]]". */
  function RecordsText(rows: seq<seq<string>>): string
  {
    "[" + JoinRows(rows) + "]"
  }

  function JoinRows(rows: seq<seq<string>>): string
  {
    if rows == [] then ""
    else if |rows| == 1 then RowText(rows[0])
    else RowText(rows[0]) + " " + JoinRows(rows[1..])
  }

  function RowText(row: seq<string>): string
  {
    "[" + JoinFields(row) + "]"
  }

  function JoinFields(row: seq<string>): string
  {
    if row == [] then ""
    else if |row| == 1 then row[0]
    else row[0] + " " + JoinFields(row[1..])
  }
}
