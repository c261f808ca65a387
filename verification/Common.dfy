// Types shared by every component of the model.
module Common {

  // A nullable column.
  datatype Option<+T> = None | Some(value: T)

  // Row identifiers.  PostgreSQL orders uuid values totally; the model keeps only that order.
  type Uuid = nat

  // A timestamp, in microseconds.
  type Time = int

  function Max(a: int, b: int): int {
    if a < b then b else a
  }

  // COALESCE over a nullable column and a fallback value.
  function Coalesce<T>(o: Option<T>, fallback: T): T {
    if o.Some? then o.value else fallback
  }

  // What everything but the workflow's own operations says about retrying it.  Held: an
  // operation on another resource of its acquisition is still stopping, its subscription
  // is archived, or its target is processed by another acquisition or present in the
  // catalogue; this may pass.  Taken: another acquisition imported the target.
  datatype Hold = Free | Held | Taken
}
