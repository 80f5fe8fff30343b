/**
  Shared vocabulary of the logger: the values a record can carry, the `Data`
  maps callers and sessions attach to records, and the reserved field names
  and tokens of the field order.
 */
module Types {

  /** A value stored under a key of a record or of a `Data` map. The logger
      itself stores strings (time, session, level, message) and a nested
      `Data` (the merged payload); callers may pass any of the other kinds.
      `Nil` is what a lookup of an absent key yields. */
  datatype Value =
    | Nil
    | Str(s: string)
    | Int(i: int)
    | Bool(b: bool)
    | List(items: seq<Value>)
    | Object(members: map<string, Value>)

  /** An unordered key/value payload. A nil map and an empty map behave
      alike everywhere in the logger, so both are `map[]`. */
  type Data = map<string, Value>

  datatype Option<T> = None | Some(value: T)

  /** Indexing a map of interfaces: the stored value, or nil when absent. */
  function Lookup(m: Data, key: string): Value
  {
    if key in m then m[key] else Nil
  }

  // Field names the logger fills in itself, and the two synthetic tokens
  // of the field order.
  const FieldTime := "time"
  const FieldSession := "session"
  const FieldLevel := "level"
  const FieldMessage := "message"
  const FieldData := "data"
  const CustomFields := "customFields"
}
