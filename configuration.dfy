/**
  The process-wide configuration: where records go, the order of their
  fields, the minimum level and the custom fields added to every record.
  The setters normalise their inputs and never fail.
 */
module Configuration {
  import opened Types
  import opened Levels

  /** An output destination. The logger only ever appends to it; writes
      cannot fail here because write errors are ignored. */
  class Sink {
    var written: string

    constructor ()
      ensures written == ""
    {
      written := "";
    }

    /** Appends the bytes of `line`. */
    method Write(line: string)
      modifies this
      ensures written == old(written) + line
    {
      written := written + line;
    }
  }

  /** The field order used until `SetFieldsOrder` is called. */
  const DefaultFieldsOrder: seq<string> :=
    [FieldTime, FieldSession, FieldLevel, FieldMessage, CustomFields, FieldData]

  /** The four configurable globals, plus the value encoder the records are
      rendered with. */
  class Config {
    var outputSinks: seq<Sink>
    var fieldsOrder: seq<string>
    var logLevel: LogLevel
    var customFields: Data
    const encode: Value -> string

    /** The stored minimum level is always a named level. */
    ghost predicate Valid()
      reads this
    {
      LevelFatal <= logLevel <= LevelDebug
    }

    /** The initial state: one sink (standard output), the default field
        order, level INFO and no custom fields. */
    constructor (stdout: Sink, encode: Value -> string)
      ensures Valid()
      ensures outputSinks == [stdout]
      ensures fieldsOrder == DefaultFieldsOrder
      ensures logLevel == LevelInfo
      ensures customFields == map[]
      ensures this.encode == encode
    {
      outputSinks := [stdout];
      fieldsOrder := DefaultFieldsOrder;
      logLevel := LevelInfo;
      customFields := map[];
      this.encode := encode;
    }

    /** Stores the sinks in the given order; no sinks at all stores an empty
        list, not the default one. Only `outputSinks` changes. */
    method SetOutputSinks(sinks: seq<Sink>)
      modifies this`outputSinks
      ensures outputSinks == sinks
      ensures old(Valid()) ==> Valid()
    {
      outputSinks := sinks;
    }

    /** Stores the field-order tokens in the given order; no tokens at all
        stores an empty list. Only `fieldsOrder` changes. */
    method SetFieldsOrder(keys: seq<string>)
      modifies this`fieldsOrder
      ensures fieldsOrder == keys
      ensures old(Valid()) ==> Valid()
    {
      fieldsOrder := keys;
    }

    /** Stores the level clamped to the named range. Only `logLevel` changes. */
    method SetLogLevel(level: LogLevel)
      modifies this`logLevel
      ensures logLevel == Clamp(level)
      ensures Valid()
    {
      if level <= LevelFatal {
        logLevel := LevelFatal;
      } else if level >= LevelDebug {
        logLevel := LevelDebug;
      } else {
        logLevel := level;
      }
    }

    /** Replaces the custom fields wholesale; a nil map (`None`) stores an
        empty map. Only `customFields` changes. */
    method SetCustomFields(fields: Option<Data>)
      modifies this`customFields
      ensures fields.Some? ==> customFields == fields.value
      ensures fields.None? ==> customFields == map[]
      ensures old(Valid()) ==> Valid()
    {
      match fields
      case None => customFields := map[];
      case Some(m) => customFields := m;
    }
  }
}
