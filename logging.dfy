/**
  Sessions (named loggers with their own persistent fields) and the
  assembly and emission of one record: the level gate, the key order built
  from the configured field-order tokens, the payload merge, the removal of
  an empty message, rendering, and the fan-out to every sink.
 */
module Logging {
  import opened Types
  import opened Levels
  import opened DataMerge
  import opened JsonFormat
  import opened Configuration

  // ---------------------------------------------------------------------
  // Session names

  /** The name of a sub-session: `parent.subname`, or just `subname` under
      a parent with an empty name (no leading dot). */
  function ChildName(parent: string, subname: string): string
  {
    if |parent| != 0 then parent + "." + subname else subname
  }

  /** The name reached by opening `path` one sub-session at a time, starting
      from a logger named `start`. */
  function NameAfter(start: string, path: seq<string>): string
  {
    if path == [] then start else ChildName(NameAfter(start, path[..|path| - 1]), path[|path| - 1])
  }

  /** The segments of `path` joined by dots. */
  function Dotted(path: seq<string>): string
  {
    if |path| == 0 then ""
    else if |path| == 1 then path[0]
    else Dotted(path[..|path| - 1]) + "." + path[|path| - 1]
  }

  /** Opening sub-sessions with non-empty names from the root (whose name is
      empty) yields their dotted path: "a" then "b" gives "a.b", and "c" alone
      gives "c". */
  lemma {:induction false} SessionPath(path: seq<string>)
    requires forall i :: 0 <= i < |path| ==> path[i] != ""
    ensures NameAfter("", path) == Dotted(path)
    ensures path != [] ==> NameAfter("", path) != ""
  {
    if path != [] {
      var init := path[..|path| - 1];
      SessionPath(init);
    }
  }

  // ---------------------------------------------------------------------
  // Record assembly: the reference definitions

  /** `keys` holds the keys of `m` and nothing else. */
  predicate ListsKeys(keys: seq<string>, m: Data)
  {
    (forall i :: 0 <= i < |keys| ==> keys[i] in m) && (forall k :: k in m ==> k in keys)
  }

  /** `keys` lists every key of the custom-field map exactly once and
      nothing else, in the order a walk over the map produced them. */
  predicate Enumerates(keys: seq<string>, m: Data)
  {
    ListsKeys(keys, m) && forall i, j :: 0 <= i < j < |keys| ==> keys[i] != keys[j]
  }

  /** The keys one field-order token contributes. */
  function TokenKeys(token: string, customKeys: seq<string>, withData: bool): seq<string>
  {
    if token == CustomFields then customKeys
    else if token == FieldData then (if withData then [FieldData] else [])
    else [token]
  }

  /** The key list built token by token from the field order. */
  function ResolveKeys(order: seq<string>, customKeys: seq<string>, withData: bool): seq<string>
  {
    if order == [] then []
    else ResolveKeys(order[..|order| - 1], customKeys, withData)
         + TokenKeys(order[|order| - 1], customKeys, withData)
  }

  /** The value map after one field-order token: the custom-fields token
      writes every custom field, the data token writes the payload when
      there is one, any other token writes nothing. */
  function TokenFields(token: string, acc: Data, custom: Data, payload: Option<Value>): Data
  {
    if token == CustomFields then acc + custom
    else if token == FieldData && payload.Some? then acc[FieldData := payload.value]
    else acc
  }

  /** The value map after the whole field order, starting from `base`. */
  function ResolveFields(order: seq<string>, base: Data, custom: Data, payload: Option<Value>): Data
  {
    if order == [] then base
    else TokenFields(order[|order| - 1], ResolveFields(order[..|order| - 1], base, custom, payload), custom, payload)
  }

  /** The values every record starts from. */
  function BaseFields(now: string, level: LogLevel, message: string, name: string): Data
  {
    map[FieldTime := Str(now), FieldLevel := Str(Name(level)), FieldMessage := Str(message), FieldSession := Str(name)]
  }

  /** The "data" value of a record: present iff at least one call-site map
      was passed or the session has fields, and then the merge of the
      call-site maps followed by the session's fields. */
  function Payload(data: seq<Data>, sessionFields: Data): Option<Value>
  {
    if |data| != 0 || |sessionFields| != 0 then Some(Object(Merge(data + [sessionFields]))) else None
  }

  /** `keys` without its first occurrence of `x`. */
  function RemoveFirst(keys: seq<string>, x: string): seq<string>
  {
    if keys == [] then []
    else if keys[0] == x then keys[1..]
    else [keys[0]] + RemoveFirst(keys[1..], x)
  }

  /** One record: the ordered key list and the values it is rendered from. */
  datatype Record = Record(keys: seq<string>, fields: Data)

  /** The record one call produces. An empty message deletes the message
      value and the first "message" entry of the key list. */
  function Assemble(name: string, sessionFields: Data, order: seq<string>, custom: Data,
                    customKeys: seq<string>, level: LogLevel, message: string,
                    data: seq<Data>, now: string): Record
  {
    var payload := Payload(data, sessionFields);
    var keys := ResolveKeys(order, customKeys, payload.Some?);
    var fields := ResolveFields(order, BaseFields(now, level, message, name), custom, payload);
    if message == "" then Record(RemoveFirst(keys, FieldMessage), fields - {FieldMessage})
    else Record(keys, fields)
  }

  /** The line one call writes to every sink. */
  function RecordLine(name: string, sessionFields: Data, order: seq<string>, custom: Data,
                      customKeys: seq<string>, level: LogLevel, message: string,
                      data: seq<Data>, now: string, encode: Value -> string): string
  {
    var r := Assemble(name, sessionFields, order, custom, customKeys, level, message, data, now);
    Render(r.keys, r.fields, encode)
  }

  // ---------------------------------------------------------------------
  // Properties of the key order

  /** Tokens contribute independently and in order. */
  lemma {:induction false} ResolveKeysConcat(a: seq<string>, b: seq<string>, customKeys: seq<string>, withData: bool)
    ensures ResolveKeys(a + b, customKeys, withData) == ResolveKeys(a, customKeys, withData) + ResolveKeys(b, customKeys, withData)
  {
    if b == [] {
      assert a + b == a;
    } else {
      var bi := b[..|b| - 1];
      assert (a + b)[..|a + b| - 1] == a + bi;
      ResolveKeysConcat(a, bi, customKeys, withData);
    }
  }

  /** A key is in the list iff it is a literal token, or a custom key with
      the custom-fields token present, or "data" with the data token present
      and a payload to show. Unknown tokens pass through. */
  lemma {:induction false} ResolveKeysMember(order: seq<string>, customKeys: seq<string>, withData: bool, key: string)
    ensures key in ResolveKeys(order, customKeys, withData)
        <==> ((key in order && key != CustomFields && key != FieldData)
              || (CustomFields in order && key in customKeys)
              || (withData && key == FieldData && FieldData in order))
  {
    if order != [] {
      var init := order[..|order| - 1];
      ResolveKeysMember(init, customKeys, withData, key);
      assert order == init + [order[|order| - 1]];
    }
  }

  /** With the default field order the keys are time, session, level,
      message, every custom key, then "data" when there is a payload. */
  lemma DefaultOrderKeys(customKeys: seq<string>, withData: bool)
    ensures ResolveKeys(DefaultFieldsOrder, customKeys, withData)
         == [FieldTime, FieldSession, FieldLevel, FieldMessage] + customKeys
            + (if withData then [FieldData] else [])
  {
    var o := DefaultFieldsOrder;
    assert o[..1][..0] == [];
    assert o[..2][..1] == o[..1] && o[..3][..2] == o[..2] && o[..4][..3] == o[..3];
    assert o[..5][..4] == o[..4] && o[..6][..5] == o[..5] && o[..6] == o;
    assert ResolveKeys(o[..1], customKeys, withData) == [FieldTime];
    assert ResolveKeys(o[..2], customKeys, withData) == [FieldTime, FieldSession];
    assert ResolveKeys(o[..3], customKeys, withData) == [FieldTime, FieldSession, FieldLevel];
    assert ResolveKeys(o[..4], customKeys, withData) == [FieldTime, FieldSession, FieldLevel, FieldMessage];
    assert ResolveKeys(o[..5], customKeys, withData) == [FieldTime, FieldSession, FieldLevel, FieldMessage] + customKeys;
  }

  // ---------------------------------------------------------------------
  // Properties of the values

  /** A custom field ends up at top level with its own value, unless it is
      named "data" (the payload may overwrite it). */
  lemma {:induction false} CustomValueKept(order: seq<string>, base: Data, custom: Data, payload: Option<Value>, key: string)
    requires CustomFields in order && key in custom && key != FieldData
    ensures key in ResolveFields(order, base, custom, payload)
    ensures ResolveFields(order, base, custom, payload)[key] == custom[key]
  {
    var init := order[..|order| - 1];
    if order[|order| - 1] != CustomFields {
      assert order == init + [order[|order| - 1]];
      CustomValueKept(init, base, custom, payload, key);
    }
  }

  /** A base value survives unless a custom field of the same name is
      written over it (the payload only ever writes "data"). */
  lemma {:induction false} BaseValueKept(order: seq<string>, base: Data, custom: Data, payload: Option<Value>, key: string)
    requires key in base && key != FieldData
    requires CustomFields !in order || key !in custom
    ensures key in ResolveFields(order, base, custom, payload)
    ensures ResolveFields(order, base, custom, payload)[key] == base[key]
  {
    if order != [] {
      var init := order[..|order| - 1];
      assert order == init + [order[|order| - 1]];
      BaseValueKept(init, base, custom, payload, key);
    }
  }

  /** With the data token present and no custom field named "data", the
      "data" value is the payload. */
  lemma {:induction false} PayloadValueKept(order: seq<string>, base: Data, custom: Data, payload: Option<Value>)
    requires FieldData in order && payload.Some? && FieldData !in custom
    ensures FieldData in ResolveFields(order, base, custom, payload)
    ensures ResolveFields(order, base, custom, payload)[FieldData] == payload.value
  {
    var init := order[..|order| - 1];
    if order[|order| - 1] != FieldData {
      assert order == init + [order[|order| - 1]];
      PayloadValueKept(init, base, custom, payload);
    }
  }

  /** Whether a field-order token writes the "data" value: the custom-fields
      token does when a custom field is named "data", the data token does
      when there is a payload. */
  predicate WritesData(token: string, custom: Data, payload: Option<Value>)
  {
    (token == CustomFields && FieldData in custom) || (token == FieldData && payload.Some?)
  }

  /** A custom field named "data" and the payload compete for the "data"
      value: the later of the two tokens in the field order wins. */
  lemma {:induction false} DataLastWriter(order: seq<string>, base: Data, custom: Data, payload: Option<Value>, i: nat)
    requires i < |order| && WritesData(order[i], custom, payload)
    requires forall j :: i < j < |order| ==> !WritesData(order[j], custom, payload)
    ensures FieldData in ResolveFields(order, base, custom, payload)
    ensures ResolveFields(order, base, custom, payload)[FieldData]
         == if order[i] == FieldData then payload.value else custom[FieldData]
  {
    var init := order[..|order| - 1];
    if i < |order| - 1 {
      assert !WritesData(order[|order| - 1], custom, payload);
      forall j | i < j < |init| ensures !WritesData(init[j], custom, payload) {
        assert init[j] == order[j];
      }
      assert init[i] == order[i];
      DataLastWriter(init, base, custom, payload, i);
    }
  }

  /** When no token writes "data", the "data" entry is the one the base
      values had. */
  lemma {:induction false} DataUnwritten(order: seq<string>, base: Data, custom: Data, payload: Option<Value>)
    requires forall j :: 0 <= j < |order| ==> !WritesData(order[j], custom, payload)
    ensures FieldData in ResolveFields(order, base, custom, payload) <==> FieldData in base
    ensures FieldData in base ==> ResolveFields(order, base, custom, payload)[FieldData] == base[FieldData]
  {
    if order != [] {
      var init := order[..|order| - 1];
      assert !WritesData(order[|order| - 1], custom, payload);
      forall j | 0 <= j < |init| ensures !WritesData(init[j], custom, payload) {
        assert init[j] == order[j];
      }
      DataUnwritten(init, base, custom, payload);
    }
  }

  /** A session field overrides a call-site key of the same name, and a
      call-site key the session lacks keeps the value of the last call-site
      map that has it. */
  lemma PayloadPrecedence(data: seq<Data>, sessionFields: Data, key: string)
    ensures Payload(data, sessionFields).Some? <==> |data| != 0 || |sessionFields| != 0
    ensures key in sessionFields ==>
      Payload(data, sessionFields) == Some(Object(Merge(data + [sessionFields])))
      && Merge(data + [sessionFields])[key] == sessionFields[key]
    ensures forall i :: (0 <= i < |data| && key in data[i] && key !in sessionFields
                         && (forall j :: i < j < |data| ==> key !in data[j]))
                        ==> (key in Merge(data + [sessionFields]) && Merge(data + [sessionFields])[key] == data[i][key])
  {
    var all := data + [sessionFields];
    if key in sessionFields {
      MergeLastWriter(all, |data|, key);
    }
    forall i | 0 <= i < |data| && key in data[i] && key !in sessionFields
               && (forall j :: i < j < |data| ==> key !in data[j])
      ensures key in Merge(all) && Merge(all)[key] == data[i][key]
    {
      assert all[i] == data[i];
      forall j | i < j < |all| ensures key !in all[j] {
        if j < |data| { assert all[j] == data[j]; }
      }
      MergeLastWriter(all, i, key);
    }
  }

  // ---------------------------------------------------------------------
  // Removing the message entry

  /** Removing the first occurrence takes exactly one copy of `x` out (none
      when there is none) and keeps everything else. */
  lemma {:induction false} RemoveFirstMultiset(keys: seq<string>, x: string)
    ensures multiset(RemoveFirst(keys, x)) == multiset(keys) - multiset{x}
  {
    if keys != [] {
      assert keys == [keys[0]] + keys[1..];
      if keys[0] != x {
        RemoveFirstMultiset(keys[1..], x);
      }
    }
  }

  /** The removal splices out the entry at the first index holding `x`. */
  lemma {:induction false} RemoveFirstAt(keys: seq<string>, x: string, i: nat)
    requires i < |keys| && keys[i] == x && x !in keys[..i]
    ensures RemoveFirst(keys, x) == keys[..i] + keys[i + 1..]
  {
    if i > 0 {
      assert keys[0] != x by { assert keys[..i][0] == keys[0]; }
      assert keys[1..][..i - 1] == keys[..i][1..];
      RemoveFirstAt(keys[1..], x, i - 1);
      assert keys[..i] == [keys[0]] + keys[1..][..i - 1];
    }
  }

  /** Without `x` the list is left as it is. */
  lemma {:induction false} RemoveFirstAbsent(keys: seq<string>, x: string)
    requires x !in keys
    ensures RemoveFirst(keys, x) == keys
  {
    if keys != [] {
      RemoveFirstAbsent(keys[1..], x);
    }
  }

  /** Every other key keeps its membership. */
  lemma {:induction false} RemoveFirstKeeps(keys: seq<string>, x: string, y: string)
    requires y != x
    ensures y in RemoveFirst(keys, x) <==> y in keys
  {
    if keys != [] && keys[0] != x {
      RemoveFirstKeeps(keys[1..], x, y);
      assert keys == [keys[0]] + keys[1..];
    }
  }

  /** With an empty message the message value is deleted outright, so any
      "message" entry left in the key list renders as nil. Exactly one
      "message" entry is removed from the key list: none remains iff the
      built list held at most one. */
  lemma EmptyMessageOmitted(name: string, sessionFields: Data, order: seq<string>, custom: Data,
                            customKeys: seq<string>, level: LogLevel, data: seq<Data>, now: string)
    ensures FieldMessage !in Assemble(name, sessionFields, order, custom, customKeys, level, "", data, now).fields
    ensures Lookup(Assemble(name, sessionFields, order, custom, customKeys, level, "", data, now).fields, FieldMessage) == Nil
    ensures var built := multiset(ResolveKeys(order, customKeys, Payload(data, sessionFields).Some?))[FieldMessage];
      multiset(Assemble(name, sessionFields, order, custom, customKeys, level, "", data, now).keys)[FieldMessage]
      == if built == 0 then 0 else built - 1
    ensures FieldMessage !in Assemble(name, sessionFields, order, custom, customKeys, level, "", data, now).keys
        <==> multiset(ResolveKeys(order, customKeys, Payload(data, sessionFields).Some?))[FieldMessage] <= 1
  {
    RemoveFirstMultiset(ResolveKeys(order, customKeys, Payload(data, sessionFields).Some?), FieldMessage);
  }

  /** A field order naming "message" twice, with an empty message: one
      "message" entry remains and it renders as nil. */
  lemma DoubleMessageEntry(name: string, sessionFields: Data, custom: Data, customKeys: seq<string>,
                           level: LogLevel, data: seq<Data>, now: string, encode: Value -> string)
    ensures Assemble(name, sessionFields, [FieldMessage, FieldMessage], custom, customKeys, level, "", data, now).keys
         == [FieldMessage]
    ensures RecordLine(name, sessionFields, [FieldMessage, FieldMessage], custom, customKeys, level, "", data, now, encode)
         == "{\"" + "message" + "\":" + encode(Nil) + "}\n"
  {
    var withData := Payload(data, sessionFields).Some?;
    TwoMessageTokens(customKeys, withData);
    var r := Assemble(name, sessionFields, [FieldMessage, FieldMessage], custom, customKeys, level, "", data, now);
    assert r.keys == [FieldMessage];
    assert Lookup(r.fields, FieldMessage) == Nil;
    RenderOne(FieldMessage, r.fields, encode);
  }

  lemma TwoMessageTokens(customKeys: seq<string>, withData: bool)
    ensures ResolveKeys([FieldMessage, FieldMessage], customKeys, withData) == [FieldMessage, FieldMessage]
  {
    var order := [FieldMessage, FieldMessage];
    assert order[..1] == [FieldMessage] && order[..1][..0] == [];
    assert ResolveKeys(order[..1], customKeys, withData) == [FieldMessage];
  }

  /** A non-empty message keeps the key list as built, so a configured
      "message" token always shows the message entry. */
  lemma NonEmptyMessageKept(name: string, sessionFields: Data, order: seq<string>, custom: Data,
                            customKeys: seq<string>, level: LogLevel, message: string,
                            data: seq<Data>, now: string)
    requires message != ""
    ensures Assemble(name, sessionFields, order, custom, customKeys, level, message, data, now).keys
         == ResolveKeys(order, customKeys, Payload(data, sessionFields).Some?)
    ensures FieldMessage in order ==>
      FieldMessage in Assemble(name, sessionFields, order, custom, customKeys, level, message, data, now).keys
  {
  }

  // ---------------------------------------------------------------------
  // Properties of whole records

  /** Custom fields appear as top-level members with their own values in
      every record whose field order holds the custom-fields token. */
  lemma CustomFieldsAtTopLevel(name: string, sessionFields: Data, order: seq<string>, custom: Data,
                               customKeys: seq<string>, level: LogLevel, message: string,
                               data: seq<Data>, now: string, key: string)
    requires Enumerates(customKeys, custom) && CustomFields in order
    requires key in custom && key != FieldData && key != FieldMessage
    ensures key in Assemble(name, sessionFields, order, custom, customKeys, level, message, data, now).keys
    ensures Lookup(Assemble(name, sessionFields, order, custom, customKeys, level, message, data, now).fields, key)
         == custom[key]
  {
    var payload := Payload(data, sessionFields);
    var keys := ResolveKeys(order, customKeys, payload.Some?);
    assert key in customKeys;
    ResolveKeysMember(order, customKeys, payload.Some?, key);
    RemoveFirstKeeps(keys, FieldMessage, key);
    var fields := ResolveFields(order, BaseFields(now, level, message, name), custom, payload);
    CustomValueKept(order, BaseFields(now, level, message, name), custom, payload, key);
    assert key in fields && fields[key] == custom[key];
    assert key in fields - {FieldMessage} && (fields - {FieldMessage})[key] == custom[key];
  }

  /** With no call-site maps, no session fields and no custom field named
      "data", a record has no "data" key. */
  lemma NoPayloadNoDataKey(name: string, order: seq<string>, custom: Data, customKeys: seq<string>,
                           level: LogLevel, message: string, now: string)
    requires Enumerates(customKeys, custom) && FieldData !in custom
    ensures FieldData !in Assemble(name, map[], order, custom, customKeys, level, message, [], now).keys
  {
    var keys := ResolveKeys(order, customKeys, false);
    assert FieldData !in customKeys;
    ResolveKeysMember(order, customKeys, false, FieldData);
    RemoveFirstKeeps(keys, FieldMessage, FieldData);
    assert Payload([], map[]) == None;
  }

  /** The complete line of one call: the root session, the default field
      order, custom fields {"svc": "x"} and `Info("hello", {"k": "v"})` give
      time, session, level, message, svc and data, in that order. */
  lemma InfoExampleLine(now: string, encode: Value -> string)
    ensures RecordLine("", map[], DefaultFieldsOrder, map["svc" := Str("x")], ["svc"], LevelInfo,
                       "hello", [map["k" := Str("v")]], now, encode)
         == "{\"" + "time" + "\":" + encode(Str(now))
            + ",\"" + "session" + "\":" + encode(Str(""))
            + ",\"" + "level" + "\":" + encode(Str("info"))
            + ",\"" + "message" + "\":" + encode(Str("hello"))
            + ",\"" + "svc" + "\":" + encode(Str("x"))
            + ",\"" + "data" + "\":" + encode(Object(map["k" := Str("v")])) + "}\n"
  {
    var r := ExampleRecord(now);
    assert RecordLine("", map[], DefaultFieldsOrder, map["svc" := Str("x")], ["svc"], LevelInfo,
                      "hello", [map["k" := Str("v")]], now, encode)
        == Render(r.keys, r.fields, encode);
    RenderSix(r.keys, r.fields, encode);
  }

  lemma ExampleRecord(now: string)
    returns (r: Record)
    ensures r == Assemble("", map[], DefaultFieldsOrder, map["svc" := Str("x")], ["svc"], LevelInfo,
                          "hello", [map["k" := Str("v")]], now)
    ensures r.keys == [FieldTime, FieldSession, FieldLevel, FieldMessage, "svc", FieldData]
    ensures Lookup(r.fields, FieldTime) == Str(now) && Lookup(r.fields, FieldSession) == Str("")
    ensures Lookup(r.fields, FieldLevel) == Str("info") && Lookup(r.fields, FieldMessage) == Str("hello")
    ensures Lookup(r.fields, "svc") == Str("x") && Lookup(r.fields, FieldData) == Object(map["k" := Str("v")])
  {
    var custom := map["svc" := Str("x")];
    var data := [map["k" := Str("v")]];
    var payload := Payload(data, map[]);
    assert data + [map[]] == [map["k" := Str("v")], map[]];
    assert Merge([map["k" := Str("v")], map[]]) == map["k" := Str("v")] by {
      assert [map["k" := Str("v")], map[]][..1] == [map["k" := Str("v")]];
      MergeSingle(map["k" := Str("v")]);
    }
    DefaultOrderKeys(["svc"], true);
    var base := BaseFields(now, LevelInfo, "hello", "");
    BaseValueKept(DefaultFieldsOrder, base, custom, payload, FieldTime);
    BaseValueKept(DefaultFieldsOrder, base, custom, payload, FieldSession);
    BaseValueKept(DefaultFieldsOrder, base, custom, payload, FieldLevel);
    BaseValueKept(DefaultFieldsOrder, base, custom, payload, FieldMessage);
    CustomValueKept(DefaultFieldsOrder, base, custom, payload, "svc");
    PayloadValueKept(DefaultFieldsOrder, base, custom, payload);
    r := Assemble("", map[], DefaultFieldsOrder, custom, ["svc"], LevelInfo, "hello", data, now);
  }

  /** Rendering six keys, spelled out. */
  lemma RenderSix(keys: seq<string>, fields: Data, encode: Value -> string)
    requires |keys| == 6
    ensures Render(keys, fields, encode)
         == "{\"" + keys[0] + "\":" + encode(Lookup(fields, keys[0]))
            + ",\"" + keys[1] + "\":" + encode(Lookup(fields, keys[1]))
            + ",\"" + keys[2] + "\":" + encode(Lookup(fields, keys[2]))
            + ",\"" + keys[3] + "\":" + encode(Lookup(fields, keys[3]))
            + ",\"" + keys[4] + "\":" + encode(Lookup(fields, keys[4]))
            + ",\"" + keys[5] + "\":" + encode(Lookup(fields, keys[5])) + "}\n"
  {
    var k := keys;
    assert k[..2][..1] == k[..1] && k[..3][..2] == k[..2];
    assert k[..4][..3] == k[..3] && k[..5][..4] == k[..4];
    assert k[..6] == k && k[..6][..5] == k[..5];
    var m1, m2, m3 := Member(k[0], fields, encode), Member(k[1], fields, encode), Member(k[2], fields, encode);
    var m4, m5, m6 := Member(k[3], fields, encode), Member(k[4], fields, encode), Member(k[5], fields, encode);
    assert Body(k[..1], fields, encode) == m1;
    assert Body(k[..2], fields, encode) == m1 + "," + m2;
    assert Body(k[..3], fields, encode) == m1 + "," + m2 + "," + m3;
    assert Body(k[..4], fields, encode) == m1 + "," + m2 + "," + m3 + "," + m4;
    assert Body(k[..5], fields, encode) == m1 + "," + m2 + "," + m3 + "," + m4 + "," + m5;
    assert Body(k, fields, encode) == m1 + "," + m2 + "," + m3 + "," + m4 + "," + m5 + "," + m6;
    SixMembers(k[0], k[1], k[2], k[3], k[4], k[5],
               encode(Lookup(fields, k[0])), encode(Lookup(fields, k[1])), encode(Lookup(fields, k[2])),
               encode(Lookup(fields, k[3])), encode(Lookup(fields, k[4])), encode(Lookup(fields, k[5])));
  }

  lemma SixMembers(k1: string, k2: string, k3: string, k4: string, k5: string, k6: string,
                   e1: string, e2: string, e3: string, e4: string, e5: string, e6: string)
    ensures "{" + (("\"" + k1 + "\":" + e1) + "," + ("\"" + k2 + "\":" + e2) + "," + ("\"" + k3 + "\":" + e3)
                   + "," + ("\"" + k4 + "\":" + e4) + "," + ("\"" + k5 + "\":" + e5) + "," + ("\"" + k6 + "\":" + e6)) + "}\n"
         == "{\"" + k1 + "\":" + e1 + ",\"" + k2 + "\":" + e2 + ",\"" + k3 + "\":" + e3
            + ",\"" + k4 + "\":" + e4 + ",\"" + k5 + "\":" + e5 + ",\"" + k6 + "\":" + e6 + "}\n"
  {
  }

  // ---------------------------------------------------------------------
  // The steps of sendLog

  /** Copies a map key by key, in whatever order the map is walked; the
      copy is a separate value equal to the original. */
  method CopyFields(m: Data) returns (copy: Data)
    ensures copy == m
  {
    copy := map[];
    var pending := m.Keys;
    while pending != {}
      invariant pending <= m.Keys
      invariant copy.Keys == m.Keys - pending
      invariant forall k :: k in copy ==> copy[k] == m[k]
      decreases pending
    {
      var key :| key in pending;
      copy := copy[key := m[key]];
      pending := pending - {key};
    }
  }

  /** Walks the field order, growing the key list and writing the values of
      custom fields and of the payload as the tokens ask. */
  method BuildRecord(order: seq<string>, base: Data, custom: Data, customKeys: seq<string>,
                     data: seq<Data>, sessionFields: Data)
    returns (keysOrder: seq<string>, fields: Data)
    requires Enumerates(customKeys, custom)
    ensures keysOrder == ResolveKeys(order, customKeys, Payload(data, sessionFields).Some?)
    ensures fields == ResolveFields(order, base, custom, Payload(data, sessionFields))
  {
    ghost var payload := Payload(data, sessionFields);
    keysOrder := [];
    fields := base;
    for n := 0 to |order|
      invariant keysOrder == ResolveKeys(order[..n], customKeys, payload.Some?)
      invariant fields == ResolveFields(order[..n], base, custom, payload)
    {
      var key := order[n];
      assert order[..n + 1][..n] == order[..n];
      assert ResolveKeys(order[..n + 1], customKeys, payload.Some?)
          == ResolveKeys(order[..n], customKeys, payload.Some?) + TokenKeys(key, customKeys, payload.Some?);
      assert ResolveFields(order[..n + 1], base, custom, payload)
          == TokenFields(key, ResolveFields(order[..n], base, custom, payload), custom, payload);
      if key == CustomFields {
        keysOrder, fields := AddCustomFields(keysOrder, fields, custom, customKeys);
      } else if key == FieldData {
        if |data| != 0 || |sessionFields| != 0 {
          keysOrder := keysOrder + [FieldData];
          var merged := JoinData(data + [sessionFields]);
          assert payload == Some(Object(merged));
          fields := fields[FieldData := Object(merged)];
        }
      } else {
        keysOrder := keysOrder + [key];
      }
    }
    assert order[..|order|] == order;
  }

  /** The inner walk over the custom-field map: appends every custom key to
      the key list and writes its value. */
  method AddCustomFields(keysOrder: seq<string>, fields: Data, custom: Data, customKeys: seq<string>)
    returns (keysOrder': seq<string>, fields': Data)
    requires ListsKeys(customKeys, custom)
    ensures keysOrder' == keysOrder + customKeys
    ensures fields' == fields + custom
  {
    keysOrder', fields' := keysOrder, fields;
    for j := 0 to |customKeys|
      invariant keysOrder' == keysOrder + customKeys[..j]
      invariant fields'.Keys == fields.Keys + set i | 0 <= i < j :: customKeys[i]
      invariant forall k :: k in fields' ==>
        fields'[k] == if k in customKeys[..j] then custom[k] else fields[k]
    {
      var customKey := customKeys[j];
      assert customKeys[..j + 1] == customKeys[..j] + [customKey];
      keysOrder' := keysOrder' + [customKey];
      fields' := fields'[customKey := custom[customKey]];
    }
    assert customKeys[..|customKeys|] == customKeys;
    assert fields'.Keys == fields.Keys + custom.Keys;
  }

  /** Finds the first `x` by a left-to-right search and splices it out. */
  method RemoveFirstKey(keys: seq<string>, x: string) returns (rest: seq<string>)
    ensures rest == RemoveFirst(keys, x)
    ensures x !in keys ==> rest == keys
    ensures x in keys ==> exists i :: 0 <= i < |keys| && keys[i] == x && x !in keys[..i]
                                      && rest == keys[..i] + keys[i + 1..]
  {
    rest := keys;
    for id := 0 to |keys|
      invariant x !in keys[..id]
    {
      if keys[id] == x {
        assert keys[..id + 1] == keys[..id] + [x];
        rest := keys[..id] + keys[id + 1..];
        RemoveFirstAt(keys, x, id);
        return;
      }
      assert keys[..id + 1] == keys[..id] + [keys[id]];
    }
    assert keys[..|keys|] == keys;
    RemoveFirstAbsent(keys, x);
  }

  /** `line` repeated `count` times. */
  function Repeat(line: string, count: nat): string
  {
    if count == 0 then "" else Repeat(line, count - 1) + line
  }

  /** Every sink of `sinks` received `line` once per occurrence in the list,
      and nothing else. */
  twostate predicate Appended(sinks: seq<Sink>, line: string)
    reads sinks
  {
    forall s | s in sinks :: s.written == old(s.written) + Repeat(line, multiset(sinks)[s])
  }

  /** No sink of `sinks` received anything. */
  twostate predicate Untouched(sinks: seq<Sink>)
    reads sinks
  {
    forall s | s in sinks :: s.written == old(s.written)
  }

  /** One more sink in the prefix counts once more for that sink only. */
  lemma CountStep(sinks: seq<Sink>, n: nat, s: Sink)
    requires n < |sinks|
    ensures multiset(sinks[..n + 1])[s] == multiset(sinks[..n])[s] + (if s == sinks[n] then 1 else 0)
  {
    assert sinks[..n + 1] == sinks[..n] + [sinks[n]];
  }

  /** The second half of sendLog: writes `line` to every sink, in list
      order. */
  method WriteAll(sinks: seq<Sink>, line: string)
    modifies sinks
    ensures Appended(sinks, line)
  {
    for n := 0 to |sinks|
      invariant forall s | s in sinks :: s.written == old(s.written) + Repeat(line, multiset(sinks[..n])[s])
    {
      var sink := sinks[n];
      label Before:
      sink.Write(line);
      forall s | s in sinks
        ensures s.written == old(s.written) + Repeat(line, multiset(sinks[..n + 1])[s])
      {
        CountStep(sinks, n, s);
        if s == sink {
          assert s.written == old@Before(s.written) + line;
        }
      }
    }
    assert sinks[..|sinks|] == sinks;
  }

  // ---------------------------------------------------------------------
  // Sessions

  /** A session: a dotted name and its own persistent fields, sharing the
      one process-wide configuration. */
  class Logger {
    var name: string
    var fields: Data
    const cfg: Config

    constructor (cfg: Config, name: string, fields: Data)
      ensures this.cfg == cfg && this.name == name && this.fields == fields
    {
      this.cfg := cfg;
      this.name := name;
      this.fields := fields;
    }

    /** Sets one persistent field of this session only. */
    method AddDataField(key: string, field: Value)
      modifies this`fields
      ensures fields == old(fields)[key := field]
    {
      fields := fields[key := field];
    }

    /** A new session named after this one, starting with its own copy of
        this session's fields. */
    method Session(subname: string) returns (child: Logger)
      ensures fresh(child)
      ensures child.cfg == cfg && child.name == ChildName(name, subname) && child.fields == fields
    {
      var previous := CopyFields(fields);
      child := new Logger(cfg, ChildName(name, subname), previous);
    }

    /** The line this session writes for one call under the current
        configuration. */
    function Line(level: LogLevel, message: string, data: seq<Data>, now: string, customKeys: seq<string>): string
      reads this, cfg
    {
      RecordLine(name, fields, cfg.fieldsOrder, cfg.customFields, customKeys, level, message, data, now, cfg.encode)
    }

    /** The first half of sendLog: builds the record and renders it.
        `now` is the clock reading and `customKeys` the order in which the
        custom-field map is walked. */
    method ComposeLine(level: LogLevel, message: string, data: seq<Data>, now: string, customKeys: seq<string>)
      returns (line: string)
      requires Enumerates(customKeys, cfg.customFields)
      ensures line == Line(level, message, data, now, customKeys)
    {
      var base := map[FieldTime := Str(now), FieldLevel := Str(Name(level)),
                       FieldMessage := Str(message), FieldSession := Str(name)];
      var keysOrder, record := BuildRecord(cfg.fieldsOrder, base, cfg.customFields, customKeys, data, fields);
      if |message| == 0 {
        record := record - {FieldMessage};
        keysOrder := RemoveFirstKey(keysOrder, FieldMessage);
      }
      line := FormatJsonMessage(keysOrder, record, cfg.encode);
    }

    /** Builds the record, renders it, and appends the line to every
        configured sink in order; nothing else changes. */
    method SendLog(level: LogLevel, message: string, data: seq<Data>, now: string, customKeys: seq<string>)
      requires Enumerates(customKeys, cfg.customFields)
      modifies cfg.outputSinks
      ensures Appended(old(cfg.outputSinks), old(Line(level, message, data, now, customKeys)))
    {
      var line := ComposeLine(level, message, data, now, customKeys);
      WriteAll(cfg.outputSinks, line);
    }

    /** Fatal is never filtered. */
    method Fatal(message: string, data: seq<Data>, now: string, customKeys: seq<string>)
      requires Enumerates(customKeys, cfg.customFields)
      modifies cfg.outputSinks
      ensures Appended(old(cfg.outputSinks), old(Line(LevelFatal, message, data, now, customKeys)))
    {
      SendLog(LevelFatal, message, data, now, customKeys);
    }

    method Error(message: string, data: seq<Data>, now: string, customKeys: seq<string>)
      requires Enumerates(customKeys, cfg.customFields)
      modifies cfg.outputSinks
      ensures Emits(old(cfg.logLevel), LevelError) ==>
        Appended(old(cfg.outputSinks), old(Line(LevelError, message, data, now, customKeys)))
      ensures !Emits(old(cfg.logLevel), LevelError) ==> Untouched(old(cfg.outputSinks))
    {
      if cfg.logLevel >= LevelError {
        SendLog(LevelError, message, data, now, customKeys);
      }
    }

    method Warning(message: string, data: seq<Data>, now: string, customKeys: seq<string>)
      requires Enumerates(customKeys, cfg.customFields)
      modifies cfg.outputSinks
      ensures Emits(old(cfg.logLevel), LevelWarning) ==>
        Appended(old(cfg.outputSinks), old(Line(LevelWarning, message, data, now, customKeys)))
      ensures !Emits(old(cfg.logLevel), LevelWarning) ==> Untouched(old(cfg.outputSinks))
    {
      if cfg.logLevel >= LevelWarning {
        SendLog(LevelWarning, message, data, now, customKeys);
      }
    }

    method Info(message: string, data: seq<Data>, now: string, customKeys: seq<string>)
      requires Enumerates(customKeys, cfg.customFields)
      modifies cfg.outputSinks
      ensures Emits(old(cfg.logLevel), LevelInfo) ==>
        Appended(old(cfg.outputSinks), old(Line(LevelInfo, message, data, now, customKeys)))
      ensures !Emits(old(cfg.logLevel), LevelInfo) ==> Untouched(old(cfg.outputSinks))
    {
      if cfg.logLevel >= LevelInfo {
        SendLog(LevelInfo, message, data, now, customKeys);
      }
    }

    method Debug(message: string, data: seq<Data>, now: string, customKeys: seq<string>)
      requires Enumerates(customKeys, cfg.customFields)
      modifies cfg.outputSinks
      ensures Emits(old(cfg.logLevel), LevelDebug) ==>
        Appended(old(cfg.outputSinks), old(Line(LevelDebug, message, data, now, customKeys)))
      ensures !Emits(old(cfg.logLevel), LevelDebug) ==> Untouched(old(cfg.outputSinks))
    {
      if cfg.logLevel >= LevelDebug {
        SendLog(LevelDebug, message, data, now, customKeys);
      }
    }
  }

  /** A branch shares no storage with its parent: after the parent adds
      `key := v` and the child adds `key := w`, each sees only its own write,
      on top of the fields the parent had when the child was made. */
  method BranchThenAdd(parent: Logger, subname: string, key: string, v: Value, w: Value)
    returns (child: Logger)
    modifies parent`fields
    ensures fresh(child) && child.name == ChildName(parent.name, subname)
    ensures parent.fields == old(parent.fields)[key := v]
    ensures child.fields == old(parent.fields)[key := w]
  {
    child := parent.Session(subname);
    parent.AddDataField(key, v);
    child.AddDataField(key, w);
  }
}
