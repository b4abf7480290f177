/**
 * The abstract side of Go's database/sql as this layer sees it. The driver is an
 * oracle: every call into it is a function parameter of the operation that makes
 * the call, and the values below are opaque tokens that the driver hands out.
 */
module Driver {
  import opened Wrappers

  /** An opened connection pool (a non-nil *sql.DB), numbered by the sql.Open call that returned it. */
  datatype Handle = Handle(id: nat)

  /** A *sql.DB variable, which may be nil. */
  type DB = Option<Handle>

  /** A non-nil Go error value. */
  datatype Error = Error(message: string)

  /** *sql.Rows, *sql.Row, *sql.Stmt, *sql.Tx and sql.Result. */
  datatype Rows = Rows(id: nat)
  datatype Row = Row(id: nat)
  datatype Stmt = Stmt(id: nat)
  datatype Tx = Tx(id: nat)
  datatype ExecResult = ExecResult(lastInsertId: int, rowsAffected: int)

  type uint64 = n: nat | n < 0x1_0000_0000_0000_0000

  /** A bound query argument (an element of Go's `args ...any`). */
  datatype Value = Null | Bool(b: bool) | Int(i: int) | Uint(u: nat) | Text(s: string)
}
