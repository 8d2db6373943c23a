/** The value types a query is assembled from: argument values, selection
    nodes and the operation handed to the query engine. */
module Values {

  datatype Option<+T> = None | Some(value: T)

  /** Rust's `i64`, the type of `skip` and `take`. */
  newtype i64 = x: int | -0x8000_0000_0000_0000 <= x < 0x8000_0000_0000_0000

  /** The structured argument value (`PrismaValue`, converted into `QueryValue`). */
  datatype Value =
    | Object(entries: seq<(string, Value)>)
    | List(items: seq<Value>)
    | Int(n: int)
    | String(s: string)

  /** One named argument of a selection, `(String, QueryValue)`. */
  type Argument = (string, Value)

  /** One node of the query tree: a name, its arguments and its child selections. */
  datatype Selection = Selection(name: string, arguments: seq<Argument>, nested: seq<Selection>)

  /** The unit handed to the engine; a find-many query is always a read. */
  datatype Operation = Read(selection: Selection)
}
