/**
  Rendering one record: an ordered key list and a value map become one line
  `{"k1":v1,"k2":v2}` followed by a newline. Keys are inserted verbatim
  (no escaping) and values go through the value encoder, which is a
  parameter here.
 */
module JsonFormat {
  import opened Types

  /** One member `"key":<encoded value>`; an absent key encodes nil. */
  function Member(key: string, fields: Data, encode: Value -> string): string
  {
    "\"" + key + "\":" + encode(Lookup(fields, key))
  }

  /** The members for `keys`, one per key in key order (duplicates
      included), separated by commas. */
  function Body(keys: seq<string>, fields: Data, encode: Value -> string): string
  {
    if |keys| == 0 then ""
    else if |keys| == 1 then Member(keys[0], fields, encode)
    else Body(keys[..|keys| - 1], fields, encode) + "," + Member(keys[|keys| - 1], fields, encode)
  }

  /** The reference rendering: for a non-empty key list, `{`, the members
      separated by commas, and `}` plus newline; for an empty key list only
      `}` plus newline (the opening brace is cut off together with the
      trailing separator that was never written). */
  function Render(keys: seq<string>, fields: Data, encode: Value -> string): (line: string)
    ensures |line| >= 2 && line[|line| - 2..] == "}\n"
    ensures keys != [] ==> line[0] == '{'
  {
    if keys == [] then "}\n"
    else "{" + Body(keys, fields, encode) + "}\n"
  }

  /** Only the listed keys matter: two value maps that agree on every listed
      key render the same line, so an entry whose key is not listed never
      shows up. */
  lemma {:induction false} RenderReadsOnlyListedKeys(keys: seq<string>, f1: Data, f2: Data, encode: Value -> string)
    requires forall i :: 0 <= i < |keys| ==> Lookup(f1, keys[i]) == Lookup(f2, keys[i])
    ensures Render(keys, f1, encode) == Render(keys, f2, encode)
  {
    BodyReadsOnlyListedKeys(keys, f1, f2, encode);
  }

  /** A single key renders as one member between the braces. */
  lemma RenderOne(key: string, fields: Data, encode: Value -> string)
    ensures Render([key], fields, encode) == "{\"" + key + "\":" + encode(Lookup(fields, key)) + "}\n"
  {
  }

  lemma {:induction false} BodyReadsOnlyListedKeys(keys: seq<string>, f1: Data, f2: Data, encode: Value -> string)
    requires forall i :: 0 <= i < |keys| ==> Lookup(f1, keys[i]) == Lookup(f2, keys[i])
    ensures Body(keys, f1, encode) == Body(keys, f2, encode)
  {
    if |keys| > 1 {
      var init := keys[..|keys| - 1];
      assert forall i :: 0 <= i < |init| ==> init[i] == keys[i];
      BodyReadsOnlyListedKeys(init, f1, f2, encode);
    }
  }

  /** Members appear exactly in key order, duplicates included: the line
      for `a + b` holds the members of `a`, a comma, then the members of `b`. */
  lemma RenderConcat(a: seq<string>, b: seq<string>, fields: Data, encode: Value -> string)
    requires a != [] && b != []
    ensures Render(a + b, fields, encode)
         == "{" + Body(a, fields, encode) + "," + Body(b, fields, encode) + "}\n"
  {
    BodyConcat(a, b, fields, encode);
  }

  lemma {:induction false} BodyConcat(a: seq<string>, b: seq<string>, fields: Data, encode: Value -> string)
    requires a != [] && b != []
    ensures Body(a + b, fields, encode) == Body(a, fields, encode) + "," + Body(b, fields, encode)
  {
    var last := Member(b[|b| - 1], fields, encode);
    if |b| == 1 {
      assert (a + b)[..|a + b| - 1] == a;
    } else {
      var bi := b[..|b| - 1];
      assert (a + b)[..|a + b| - 1] == a + bi;
      BodyConcat(a, bi, fields, encode);
    }
  }

  /** Appending one member to a non-empty accumulated line. */
  lemma AppendMember(body: string, key: string, e: string)
    ensures "{" + body + ",\"" + key + "\":" + e + ",\""
         == "{" + (body + "," + ("\"" + key + "\":" + e)) + ",\""
  {
  }

  /** Appending the first member to the opening `{"`. */
  lemma FirstMember(key: string, e: string)
    ensures "{\"" + key + "\":" + e + ",\"" == "{" + ("\"" + key + "\":" + e) + ",\""
  {
  }

  /** Models formatJsonMessage: start from `{"`, append one
      `key":<value>,"` per key, then drop the last two characters and close
      with `}` and a newline. */
  method FormatJsonMessage(fieldsOrder: seq<string>, fields: Data, encode: Value -> string)
    returns (line: string)
    ensures line == Render(fieldsOrder, fields, encode)
  {
    var result := "{\"";
    for n := 0 to |fieldsOrder|
      invariant result == if n == 0 then "{\"" else "{" + Body(fieldsOrder[..n], fields, encode) + ",\""
    {
      var key := fieldsOrder[n];
      var e := encode(Lookup(fields, key));
      assert fieldsOrder[..n + 1][..n] == fieldsOrder[..n];
      if n == 0 {
        FirstMember(key, e);
      } else {
        AppendMember(Body(fieldsOrder[..n], fields, encode), key, e);
      }
      result := result + key + "\":" + e + ",\"";
    }
    assert fieldsOrder[..|fieldsOrder|] == fieldsOrder;
    line := result[0..|result| - 2] + "}\n";
  }
}
