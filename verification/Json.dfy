/** JSON values as the source reads them back from its database and input files. */
module Json {
  import opened Prelude

  datatype Value =
    | Null
    | Bool(flag: bool)
    | Number(number: real)
    | Text(text: string)
    | Array(elements: seq<Value>)
    | Object(fields: map<string, Value>)

  /** Property access: `undefined` is None, and so is any property of a non-record. */
  function Field(v: Value, name: string): Option<Value> {
    if v.Object? && name in v.fields then Some(v.fields[name]) else None
  }

  function TextField(v: Value, name: string): Option<string> {
    var f := Field(v, name);
    if f.Some? && f.value.Text? then Some(f.value.text) else None
  }

  function BoolField(v: Value, name: string): Option<bool> {
    var f := Field(v, name);
    if f.Some? && f.value.Bool? then Some(f.value.flag) else None
  }
}
