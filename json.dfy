/**
 * The text form in which the fallback tier (localStorage) keeps a whole
 * collection: a JSON array of objects `{"id":"…","body":"…"}`. Encode plays
 * the part of JSON.stringify and Decode that of JSON.parse; Decode accepts
 * exactly the canonical form Encode writes and reports everything else as a
 * parse error (None).
 */
module Json {
  import opened Records

  /** The characters of a string literal between its quotes: `"` and `\` get a backslash. */
  function Escape(s: string): string
  {
    if s == [] then []
    else (if s[0] == '"' || s[0] == '\\' then ['\\', s[0]] else [s[0]]) + Escape(s[1..])
  }

  /**
   * Reads a string literal whose opening quote has already been consumed:
   * yields its value and the text after the closing quote.
   */
  function ParseStringBody(t: string): (r: Option<(string, string)>)
    ensures r.Some? ==> |r.value.1| < |t|
    decreases |t|
  {
    if t == [] then None
    else if t[0] == '"' then Some(([], t[1..]))
    else if t[0] == '\\' then
      if |t| >= 2 && (t[1] == '"' || t[1] == '\\') then
        var tail := ParseStringBody(t[2..]);
        if tail.None? then None else Some(([t[1]] + tail.value.0, tail.value.1))
      else None
    else
      var tail := ParseStringBody(t[1..]);
      if tail.None? then None else Some(([t[0]] + tail.value.0, tail.value.1))
  }

  /** Consumes the literal text `lit` at the front of `t`. */
  function Expect(lit: string, t: string): (r: Option<string>)
    ensures r.Some? ==> t == lit + r.value
  {
    if |lit| <= |t| && t[..|lit|] == lit then Some(t[|lit|..]) else None
  }

  const IdField: string := "{\"id\":\""
  const BodyField: string := "\",\"body\":\""
  const ObjectEnd: string := "\"}"

  function EncodeRecord(r: Record): string
  {
    IdField + Escape(r.id) + BodyField + Escape(r.body) + ObjectEnd
  }

  /** The records after the first one, each preceded by a comma, then the closing bracket. */
  function EncodeTail(rs: seq<Record>): string
  {
    if rs == [] then "]" else "," + EncodeRecord(rs[0]) + EncodeTail(rs[1..])
  }

  function Encode(rs: seq<Record>): (text: string)
    ensures |text| >= 2 && text[0] == '['
  {
    "[" + (if rs == [] then "]" else EncodeRecord(rs[0]) + EncodeTail(rs[1..]))
  }

  function ParseRecord(t: string): (r: Option<(Record, string)>)
    ensures r.Some? ==> |r.value.1| < |t|
  {
    var t1 := Expect(IdField, t);
    if t1.None? then None else
    var id := ParseStringBody(t1.value);
    if id.None? then None else
    var t3 := Expect(",\"body\":\"", id.value.1);
    if t3.None? then None else
    var body := ParseStringBody(t3.value);
    if body.None? then None else
    var t5 := Expect("}", body.value.1);
    if t5.None? then None else
    Some((Record(id.value.0, body.value.0), t5.value))
  }

  /** Reads `]` or `,` record … `]`: what follows the first record of a non-empty array. */
  function ParseTail(t: string): (r: Option<(seq<Record>, string)>)
    ensures r.Some? ==> |r.value.1| < |t|
    decreases |t|
  {
    if t == [] then None
    else if t[0] == ']' then Some(([], t[1..]))
    else if t[0] == ',' then
      var first := ParseRecord(t[1..]);
      if first.None? then None else
      var rest := ParseTail(first.value.1);
      if rest.None? then None else Some(([first.value.0] + rest.value.0, rest.value.1))
    else None
  }

  function Decode(text: string): Option<seq<Record>>
  {
    if text == [] || text[0] != '[' then None
    else if |text| >= 2 && text[1] == ']' then
      if |text| == 2 then Some([]) else None
    else
      var first := ParseRecord(text[1..]);
      if first.None? then None else
      var rest := ParseTail(first.value.1);
      if rest.None? || rest.value.1 != [] then None
      else Some([first.value.0] + rest.value.0)
  }

  lemma {:induction false} ParseEscaped(s: string, rest: string)
    ensures ParseStringBody(Escape(s) + "\"" + rest) == Some((s, rest))
    decreases |s|
  {
    var t := Escape(s) + "\"" + rest;
    if s == [] {
      assert t == "\"" + rest;
    } else {
      ParseEscaped(s[1..], rest);
      var tail := Escape(s[1..]) + "\"" + rest;
      if s[0] == '"' || s[0] == '\\' {
        assert t == ['\\', s[0]] + tail;
        assert t[2..] == tail;
      } else {
        assert t == [s[0]] + tail;
        assert t[1..] == tail;
      }
      assert [s[0]] + s[1..] == s;
    }
  }

  lemma ExpectLiteral(lit: string, t: string)
    ensures Expect(lit, lit + t) == Some(t)
  {
    assert (lit + t)[..|lit|] == lit;
    assert (lit + t)[|lit|..] == t;
  }

  lemma EncodedRecordShape(r: Record, rest: string)
    ensures EncodeRecord(r) + rest
         == IdField + (Escape(r.id) + "\"" + (",\"body\":\"" + (Escape(r.body) + "\"" + ("}" + rest))))
  {
    assert BodyField == "\"" + ",\"body\":\"";
    assert ObjectEnd == "\"" + "}";
  }

  lemma ParseEncodedRecord(r: Record, rest: string)
    ensures ParseRecord(EncodeRecord(r) + rest) == Some((r, rest))
  {
    var d := "}" + rest;
    var c := Escape(r.body) + "\"" + d;
    var b := ",\"body\":\"" + c;
    var a := Escape(r.id) + "\"" + b;
    EncodedRecordShape(r, rest);
    ExpectLiteral(IdField, a);
    ParseEscaped(r.id, b);
    ExpectLiteral(",\"body\":\"", c);
    ParseEscaped(r.body, d);
    ExpectLiteral("}", rest);
  }

  lemma {:induction false} ParseEncodedTail(rs: seq<Record>, rest: string)
    ensures ParseTail(EncodeTail(rs) + rest) == Some((rs, rest))
    decreases |rs|
  {
    var t := EncodeTail(rs) + rest;
    if rs == [] {
      assert t == "]" + rest;
      assert t[1..] == rest;
    } else {
      var after := EncodeTail(rs[1..]) + rest;
      assert t == "," + (EncodeRecord(rs[0]) + after);
      assert t[1..] == EncodeRecord(rs[0]) + after;
      ParseEncodedRecord(rs[0], after);
      ParseEncodedTail(rs[1..], rest);
      assert [rs[0]] + rs[1..] == rs;
    }
  }

  /** Whatever the fallback tier stores for a collection reads back as that collection. */
  lemma DecodeEncode(rs: seq<Record>)
    ensures Decode(Encode(rs)) == Some(rs)
  {
    var text := Encode(rs);
    if rs == [] {
      assert text == "[]";
    } else {
      assert text[1..] == EncodeRecord(rs[0]) + (EncodeTail(rs[1..]) + []);
      assert text[1] == '{';
      ParseEncodedRecord(rs[0], EncodeTail(rs[1..]) + []);
      ParseEncodedTail(rs[1..], []);
      assert [rs[0]] + rs[1..] == rs;
    }
  }
}
