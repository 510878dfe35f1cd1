/**
 Abstract rows for the denormalization engine: the values a column holds, the
 rows of the source and target tables, the errors a callback can raise, and the
 single update a callback may issue against the target row.
 */
module Records {

  type Column = string

  /** A column value. `Nil` is SQL NULL; `Time` is a timestamp, the kind of
      value written into a `*_denormalized_at` column. */
  datatype Value = Nil | Int(i: int) | Str(s: string) | Time(t: int)

  /** The exceptions the engine itself can raise. */
  datatype Error =
    | NoMethod(name: Column)                  // reading an attribute the record does not define
    | KeyError(column: Column, value: Value)  // an enum table has no entry for the value

  datatype Option<+T> = None | Some(value: T)

  /** Either a value or the exception that aborted the computation. */
  datatype Result<+T> = Ok(value: T) | Err(error: Error) {

    predicate IsFailure() {
      Err?
    }

    function PropagateFailure<U>(): Result<U>
      requires Err?
    {
      Err(error)
    }

    function Extract(): T
      requires Ok?
    {
      value
    }
  }

  /** A persisted row: its attributes by column name (the keys are exactly the
      columns of its table) and its `created_at` timestamp. */
  datatype Record = Record(attrs: map<Column, Value>, createdAt: int)

  /** Metadata of the source model: its singular model name (the column
      prefix), its ordered column names, its primary-key column and the enum
      table of every enumerated column. */
  datatype SourceType = SourceType(
    prefix: string,
    columnNames: seq<Column>,
    primaryKey: Column,
    enums: map<Column, map<Value, Value>>)

  /** The attribute reader `record.public_send(name)`. */
  function Read(r: Record, name: Column): Result<Value>
  {
    if name in r.attrs then Ok(r.attrs[name]) else Err(NoMethod(name))
  }

  /** What a callback does to the target row: nothing, or one `update!` with
      exactly the given attributes. */
  datatype Write = NoWrite | Update(attrs: map<Column, Value>)

  function Apply(t: Record, w: Write): Record
  {
    match w
    case NoWrite => t
    case Update(a) => Record(t.attrs + a, t.createdAt)
  }

  /** The target row as stored once a callback has finished: a raised error
      means no update was reached, so the row is as it was. */
  function Persisted(t: Record, r: Result<Write>): Record
  {
    match r
    case Ok(w) => Apply(t, w)
    case Err(_) => t
  }

  /** After a successful update, a written column holds the written value and
      any other column of the row keeps its old one. */
  lemma PersistedLookup(t: Record, r: Result<Write>, c: Column)
    requires r.Ok? && r.value.Update?
    ensures c in r.value.attrs ==> Persisted(t, r).attrs[c] == r.value.attrs[c]
    ensures c !in r.value.attrs && c in t.attrs ==> Persisted(t, r).attrs[c] == t.attrs[c]
  {
  }
}
