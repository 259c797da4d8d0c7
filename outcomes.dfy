/** Failure-compatible wrappers used throughout the model. */
module Outcomes {

  datatype Option<+T> = None | Some(value: T)

  datatype Result<+T, +E> = Ok(value: T) | Err(error: E)
}

/**
 * The values the relational driver hands back. A query result is a
 * sequence of row tuples; a cell is an integer, a text or SQL NULL.
 */
module Cells {

  datatype Cell = Int(i: int) | Str(s: string) | Null

  type Row = seq<Cell>

  type QueryResult = seq<Row>

  /** The Python exceptions that the row projection can raise. */
  datatype Error =
    | IndexError          // value[0][k] past the end of a row
    | UnpackError         // `for tech, loc in value` on a row that is not a pair
    | IntConversionError  // int(loc) on a cell that is not an integer
}
