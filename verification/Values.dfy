/** Column values and rows of the object store. Decimals and datetimes are identified with
    their text, `str(d)` and `d.isoformat()`. */
module Values {

  datatype Entry = Entry(key: string, value: Value)

  datatype Value =
    | Null
    | Bool(b: bool)
    | Int(i: int)
    | Float(r: real)
    | Text(text: string)
    | Dec(dec: string)
    | Date(iso: string)
    | Tags(tags: set<string>)
    | List(items: seq<Value>)
    | Dict(entries: seq<Entry>)

  type Row = map<string, Value>

  /** `row.get(column)`. */
  function Get(row: Row, column: string): Value {
    if column in row then row[column] else Null
  }
}
