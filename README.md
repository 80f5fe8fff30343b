# A verified model of a structured JSON-line logger

This project models the record-composition engine of a small Go logging
library (`package log`). The library provides named sessions (sub-loggers
whose names form a dotted path), five severity levels with a configurable
minimum, persistent per-session data fields, process-wide custom fields, and
a configurable field order for the emitted one-line JSON records. Every
record is rendered once and appended to every configured output sink.

The model is written in Dafny and has one module per source component:

- `Types` (`types.dfy`): the values a record carries (`Value`), the `Data`
  map type, and the reserved field names and field-order tokens.
- `Levels` (`levels.dfy`): the `LogLevel` constants, `LogLevel.String`, the
  clamping done by `SetLogLevel`, and the level gate.
- `DataMerge` (`data_merge.dfy`): `joinData`. It is a method with the source's
  nested loops, proved equal to a left-to-right, last-writer-wins fold
  `Merge`.
- `JsonFormat` (`json_format.dfy`): `formatJsonMessage`. It is a method that
  grows the string and trims the trailing separator, as the source does. It
  is proved equal to a reference rendering `Render`.
- `Configuration` (`configuration.dfy`): the four mutable configuration
  globals. They are fields of a `Config` class with the source's setters. A
  `Sink` class stands for an `io.Writer` that the logger appends to.
- `Logging` (`logging.dfy`): `loggerImpl` as the class `Logger`. It has
  `AddDataField`, `Session`, the five leveled methods and `sendLog`. The steps
  of `sendLog` (key-list construction, payload merge, removal of an empty
  message, rendering, fan-out to the sinks) are methods. Each is proved against
  a reference definition (`ResolveKeys`, `ResolveFields`, `Payload`,
  `RemoveFirst`, `Assemble`, `RecordLine`). The lemmas state what the library
  promises about records.
- `GlobalLogger` (`global_logger.dfy`): the package-level state is the
  configuration plus a root session with an empty name and no fields. The
  package functions forward to that root session.

The wall clock, the order in which Go walks the custom-field map, and the
external value encoder are all parameters:

- `now` is the time string of a call.
- `customKeys` is the order in which the custom-field map is walked during
  one call. It must list each of that map's keys exactly once and nothing
  else (`Enumerates`), as a Go `range` over the map does.
- `encode` is the value encoder. It is an arbitrary function
  `Value -> string` that the configuration holds.

The contracts therefore hold for every clock reading, every walk order of
the map and every encoder.

Some of the code's behaviour is easy to misread. The model follows the code
exactly in these cases:

- The `"data"` member is present iff at least one call-site `Data` argument
  was passed or the session has fields. It is not "iff the merged map is
  non-empty". So `Info("Test", Data{})` writes `"data":{}`. `Payload`
  captures this, and `PayloadPrecedence` states it.
- An empty key list renders as `}` plus a newline. The opening brace is
  sliced off together with the separator that was never written
  (`Render`).
- When the message is empty, only the first `"message"` entry of the key
  list is removed (`RemoveFirst`). The message value is deleted, so a
  second configured `"message"` renders as the encoding of nil.
  `EmptyMessageOmitted` states both facts for every field order, and
  `DoubleMessageEntry` spells out the line for the order
  `["message", "message"]`.
- A custom field named like a built-in field (`time`, `level`, `session`,
  `message`) overwrites the built-in value in the record. A custom field named
  `data` competes with the payload: the later of the two tokens in the field
  order decides the `"data"` value (`DataLastWriter`). `CustomValueKept`,
  `BaseValueKept` and `PayloadValueKept` state when the other values
  survive, and `DataUnwritten` covers a `"data"` entry that no token writes.

## Model

| member | source | states |
|---|---|---|
| `Levels.Name` | GetConfig.go:54-69 | levels 0..4 are named fatal, error, warning, info, debug; every other value gets the empty name, and only those do |
| `Levels.NamesDistinct` | GetConfig.go:54-69 | two levels with the same non-empty name are the same level |
| `Levels.Clamp` | GetConfig.go:97-108 | the stored level is always in FATAL..DEBUG: an in-range request is stored unchanged, below FATAL stores FATAL, above DEBUG stores DEBUG |
| `Levels.ClampIdempotent` | GetConfig.go:101-107 | clamping a stored level again leaves it unchanged |
| `Levels.EmitsAfterClamp` | Logger.go:79-105 | under any stored level, a named level passes the gate iff it is at least as severe; at FATAL only fatal passes, at DEBUG everything passes |
| `DataMerge.MergeKeys` | joinData.go:11-15 | a key is in the merge iff some input map has it |
| `DataMerge.MergeLastWriter` | joinData.go:12-14 | each key holds the value of the last input map that contains it |
| `DataMerge.MergeSingle` | joinData.go:11-15 | merging one map gives that map |
| `DataMerge.MergeAppend` | joinData.go:11-15 | merging `s + t` equals merging `s` and then `t` on top, so the fold runs left to right |
| `DataMerge.JoinData` | joinData.go:6-19 | the nested copy loops (any walk order of each map; nil or empty input gives an empty map) produce exactly `Merge` of the inputs |
| `JsonFormat.Render` | formatJsonMessage.go:8-15 | every line ends with `}` and a newline; a non-empty key list opens with `{` |
| `JsonFormat.RenderOne` | formatJsonMessage.go:9-14 | one key renders as `{`, the quoted key, a colon, the encoded value, `}` and a newline |
| `JsonFormat.RenderReadsOnlyListedKeys` | formatJsonMessage.go:10-12 | value maps that agree on the listed keys render identically, so unlisted entries never appear; an absent listed key renders as nil |
| `JsonFormat.RenderConcat` | formatJsonMessage.go:10-14 | the line for keys `a + b` is `{`, the members of `a`, a comma, the members of `b`, and the closing brace: members follow the key list exactly, duplicates included |
| `JsonFormat.FormatJsonMessage` | formatJsonMessage.go:8-15 | appending `key":value,"` per key to `{"` and trimming the last two characters yields `Render`, including `}` plus newline for no keys |
| `Configuration.Sink.Write` | Logger.go:145-147 | a write appends the line's bytes to the sink |
| `Configuration.Config.constructor` | GetConfig.go:16-35 | the initial configuration has one sink, order time, session, level, message, customFields, data, level INFO and no custom fields |
| `Configuration.Config.SetOutputSinks` | GetConfig.go:77-85 | stores the sinks as given, in order (no sinks stores an empty list); only the sinks change, so the stored level stays in range |
| `Configuration.Config.SetFieldsOrder` | GetConfig.go:87-95 | stores the tokens as given, in order (none stores an empty list); only the field order changes, so the stored level stays in range |
| `Configuration.Config.SetLogLevel` | GetConfig.go:97-108 | stores the clamped level; only the level changes |
| `Configuration.Config.SetCustomFields` | GetConfig.go:110-118 | replaces the custom fields wholesale, nil storing an empty map; only the custom fields change, so the stored level stays in range |
| `Logging.SessionPath` | Logger.go:68-74 | opening sub-sessions with non-empty names from the root yields their dot-joined path, with no leading dot |
| `Logging.ResolveKeysConcat` | Logger.go:116-130 | the key list of a concatenated field order is the concatenation of the key lists: tokens contribute in order |
| `Logging.ResolveKeysMember` | Logger.go:116-130 | a key is listed iff it is a literal token (unknown tokens included), or a custom key under a present custom-fields token, or "data" under a present data token when there is a payload |
| `Logging.DefaultOrderKeys` | GetConfig.go:22-29 | the default order yields time, session, level, message, the custom keys, then "data" iff there is a payload |
| `Logging.CustomValueKept` | Logger.go:117-121 | with the custom-fields token present, a custom field (other than "data") holds its custom value in the record's values |
| `Logging.BaseValueKept` | Logger.go:109-130 | a built-in value survives the token walk unless a custom field of the same name is written |
| `Logging.PayloadValueKept` | Logger.go:122-126 | with the data token present, a payload, and no custom field named "data", the "data" value is the payload |
| `Logging.DataLastWriter` | Logger.go:116-127 | when a custom field named "data" and a payload are both written, the later of the custom-fields and data tokens decides the "data" value |
| `Logging.DataUnwritten` | Logger.go:116-127 | when no token writes "data" (no custom "data" under a custom-fields token, no payload under a data token), the "data" entry stays as the base values had it |
| `Logging.PayloadPrecedence` | Logger.go:123-125 | a payload exists iff a call-site map was passed or the session has fields; a session field beats a call-site key of the same name; otherwise the last call-site map with the key wins |
| `Logging.RemoveFirstMultiset` | Logger.go:134-139 | removing the first "message" takes out exactly one occurrence (none if absent) and keeps every other entry |
| `Logging.RemoveFirstAt` | Logger.go:134-139 | the removal splices out the entry at the first index holding the key |
| `Logging.RemoveFirstAbsent` | Logger.go:134-139 | a list without the key is left unchanged |
| `Logging.RemoveFirstKeeps` | Logger.go:134-139 | every other key keeps its membership |
| `Logging.EmptyMessageOmitted` | Logger.go:132-140 | with an empty message the record holds no message value (so any "message" entry renders as nil), the number of "message" keys drops by exactly one when there was one, and no "message" key remains iff the built list had at most one |
| `Logging.DoubleMessageEntry` | Logger.go:132-140 | with the field order ["message", "message"] and an empty message, one "message" entry remains and the line is that member with the encoding of nil |
| `Logging.NonEmptyMessageKept` | Logger.go:132-140 | with a non-empty message the key list is the one built, and a configured "message" token is listed |
| `Logging.CustomFieldsAtTopLevel` | Logger.go:116-121 | every custom field (other than "data"/"message") appears as a top-level key with its own value whenever the custom-fields token is configured |
| `Logging.NoPayloadNoDataKey` | Logger.go:122-126 | with no call-site maps, no session fields and no custom field named "data", the record has no "data" key |
| `Logging.InfoExampleLine` | Logger.go:107-148 | root session, default order, custom field svc, `Info("hello", {"k":"v"})` renders exactly the time, session, level, message, svc and data members in that order |
| `Logging.CopyFields` | Logger.go:62-65 | the key-by-key copy loop (any walk order) yields a map equal to the original |
| `Logging.AddCustomFields` | Logger.go:117-121 | the inner walk appends every custom key in walk order and writes every custom value over the record's values |
| `Logging.BuildRecord` | Logger.go:108-130 | the token walk produces exactly `ResolveKeys` and `ResolveFields` |
| `Logging.RemoveFirstKey` | Logger.go:132-140 | the search-and-splice loop returns `RemoveFirst`: unchanged without the key, else the list with the first occurrence spliced out |
| `Logging.WriteAll` | Logger.go:142-147 | every sink receives the line once per occurrence in the sink list, and nothing else changes |
| `Logging.Logger.AddDataField` | Logger.go:54-59 | sets one field of the receiver; nothing else (no other key, no other session) changes |
| `Logging.Logger.Session` | Logger.go:61-77 | the child is new, shares the configuration, is named `ChildName(parent, sub)`, and starts with a separate copy equal to the parent's fields |
| `Logging.Logger.ComposeLine` | Logger.go:107-142 | the rendered line is `RecordLine` of the session's name and fields, the configuration and the call |
| `Logging.Logger.SendLog` | Logger.go:107-148 | the line for this call is appended to every configured sink, once per occurrence; nothing else changes |
| `Logging.Logger.Fatal` | Logger.go:79-81 | fatal is never filtered: the fatal line always reaches every sink |
| `Logging.Logger.Error` | Logger.go:83-87 | the error line reaches the sinks iff the configured level is at least ERROR, else no sink changes |
| `Logging.Logger.Warning` | Logger.go:89-93 | the warning line reaches the sinks iff the configured level is at least WARNING, else no sink changes |
| `Logging.Logger.Info` | Logger.go:95-99 | the info line reaches the sinks iff the configured level is at least INFO, else no sink changes |
| `Logging.Logger.Debug` | Logger.go:101-105 | the debug line reaches the sinks iff the configured level is at least DEBUG (under a valid configuration, exactly DEBUG), else no sink changes |
| `Logging.BranchThenAdd` | Logger.go:54-77 | after branching, a field added to the parent and one added to the child each stay in their own session |
| `GlobalLogger.Globals.constructor` | GetConfig.go:12-42 | start-up state: the default configuration and a root session with empty name, no fields and that configuration |
| `GlobalLogger.Globals.Session` | GlobalLogger.go:3-5 | a package-level session is named exactly the given name and has no fields |
| `GlobalLogger.Globals.Fatal` | GlobalLogger.go:7-9 | forwards to the root's Fatal: the line with empty session name and no session fields always reaches the sinks |
| `GlobalLogger.Globals.Error` | GlobalLogger.go:11-13 | forwards to the root's Error, with the same gate and a line with empty session name |
| `GlobalLogger.Globals.Warning` | GlobalLogger.go:15-17 | forwards to the root's Warning, with the same gate and a line with empty session name |
| `GlobalLogger.Globals.Info` | GlobalLogger.go:19-21 | forwards to the root's Info, with the same gate and a line with empty session name |
| `GlobalLogger.Globals.Debug` | GlobalLogger.go:23-25 | forwards to the root's Debug, with the same gate and a line with empty session name |
| `GlobalLogger.ErrorLevelScenario` | logger_test.go:88-106 | at level ERROR the calls fatal, error, warning, info, debug in turn leave each sink with exactly the fatal line and then the error line, once per occurrence of the sink |

## Left out

- The mutex around setters, `AddDataField` and the sink loop: it only
  serialises concurrent callers. The model is sequential.
- `time.Now().String()`: the clock is the `now` parameter.
- `json_utils.Encode`: the value encoder is not part of this model. It is the
  arbitrary function `Config.encode`, so nothing is assumed about how values
  are quoted or escaped.
- Go's map iteration order: the walk over the custom fields is the
  `customKeys` parameter, and one walk order is used for every
  custom-fields token of a call. The copy loops pick keys in any order.
- Real `io.Writer`s and the ignored results and errors of `Write`: a sink is
  a string the logger appends to.
- nil slices and nil maps: a nil map and an empty map are both `map[]`, and
  no variadic arguments is the empty sequence. The nil custom-field map of
  `SetCustomFields` is `None`.
- Slice aliasing of `append(data, lg.additionalDataFields)` on the caller's
  variadic array: the caller's sequence is a value and is never changed.
- Reference sharing with callers. `SetCustomFields` stores the caller's map
  itself, `SetOutputSinks` and `SetFieldsOrder` store the caller's slice,
  `AddDataField` stores the caller's value, and `Session` copies only the
  top-level field map, so a mutable field value stays shared between parent
  and child. In the model maps, values and sequences are immutable, so a
  caller who mutates its map, slice or value after the call changes later
  records in Go but not in the model.
- `GetConfig` only returns a handle to the globals. The `Config` object is
  that handle.
- Logging.WriteAll: states what each sink receives (the line, once per
  occurrence in the sink list), not the order in which different sinks are
  written, because separate buffers cannot observe that order.
