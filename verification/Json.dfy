/** Compact JSON text as the evidence recorder serialises it. */
module Json {
  import opened Tables

  type NumberText = t: Text | forall i | 0 <= i < |t| :: t[i] in "0123456789+-.eE" witness "0"

  datatype Value =
    | Null
    | Bool(truth: bool)
    | Number(digits: NumberText)
    | Str(text: Text)
    | Array(items: seq<Value>)
    | Object(fields: seq<(Text, Value)>)

  const HEX := "0123456789abcdef"

  /** One code unit of a string literal; control characters are escaped. */
  function Escaped(c: char): Text {
    if c == '\"' then ['\\', '\"']
    else if c == '\\' then ['\\', '\\']
    else if c as int == 8 then "\\b"
    else if c as int == 9 then "\\t"
    else if c as int == 10 then "\\n"
    else if c as int == 12 then "\\f"
    else if c as int == 13 then "\\r"
    else if (c as int) < 0x20 then "\\u00" + [HEX[c as int / 16], HEX[c as int % 16]]
    else [c]
  }

  function EscapedText(t: Text): Text {
    if t == [] then [] else Escaped(t[0]) + EscapedText(t[1..])
  }

  function Serialize(v: Value): Text
    decreases v, 1, 0
  {
    match v
    case Null => "null"
    case Bool(b) => if b then "true" else "false"
    case Number(t) => t
    case Str(t) => "\"" + EscapedText(t) + "\""
    case Array(items) => "[" + SerializeItems(v, items) + "]"
    case Object(fields) => "{" + SerializeFields(v, fields) + "}"
  }

  function SerializeItems(v: Value, items: seq<Value>): Text
    requires forall n | 0 <= n < |items| :: items[n] < v
    decreases v, 0, |items|
  {
    if items == [] then []
    else Serialize(items[0]) + (if |items| > 1 then "," else "") + SerializeItems(v, items[1..])
  }

  function SerializeFields(v: Value, fields: seq<(Text, Value)>): Text
    requires forall n | 0 <= n < |fields| :: fields[n].1 < v
    decreases v, 0, |fields|
  {
    if fields == [] then []
    else "\"" + EscapedText(fields[0].0) + "\":" + Serialize(fields[0].1)
         + (if |fields| > 1 then "," else "") + SerializeFields(v, fields[1..])
  }

  /** No control character, in particular no NUL, occurs in the text. */
  predicate Printable(t: Text) {
    forall i | 0 <= i < |t| :: t[i] as int >= 0x20
  }

  lemma EscapedCharIsPrintable(c: char)
    ensures Printable(Escaped(c))
  {
    assert forall i | 0 <= i < 16 :: HEX[i] as int >= 0x20;
  }

  lemma {:induction false} EscapedIsPrintable(t: Text)
    ensures Printable(EscapedText(t))
  {
    if t != [] {
      EscapedCharIsPrintable(t[0]);
      EscapedIsPrintable(t[1..]);
    }
  }

  lemma EnclosedIsPrintable(left: char, body: Text, right: char)
    requires left as int >= 0x20 && right as int >= 0x20 && Printable(body)
    ensures Printable([left] + body + [right])
  {
  }

  /** Serialised evidence contains no control character (section 7 of RFC 8259). */
  lemma {:induction false} SerializedIsPrintable(v: Value)
    ensures Printable(Serialize(v))
    decreases v, 1, 0
  {
    if v.Array? {
      ArrayIsPrintable(v);
    } else if v.Object? {
      ObjectIsPrintable(v);
    } else if v.Str? {
      QuotedIsPrintable(v);
    } else {
      WordIsPrintable(v);
    }
  }

  lemma QuotedIsPrintable(v: Value)
    requires v.Str?
    ensures Printable(Serialize(v))
  {
    EscapedIsPrintable(v.text);
    EnclosedIsPrintable('\"', EscapedText(v.text), '\"');
  }

  lemma WordIsPrintable(v: Value)
    requires v.Null? || v.Bool? || v.Number?
    ensures Printable(Serialize(v))
  {
    if v.Number? {
      NumberIsPrintable(v.digits);
    } else {
      assert Serialize(v) == "null" || Serialize(v) == "true" || Serialize(v) == "false";
    }
  }

  lemma NumberIsPrintable(t: NumberText)
    ensures Printable(t)
  {
  }

  lemma {:induction false} ArrayIsPrintable(v: Value)
    requires v.Array?
    ensures Printable(Serialize(v))
    decreases v, 0, |v.items| + 1
  {
    ItemsArePrintable(v, v.items);
    EnclosedIsPrintable('[', SerializeItems(v, v.items), ']');
  }

  lemma {:induction false} ObjectIsPrintable(v: Value)
    requires v.Object?
    ensures Printable(Serialize(v))
    decreases v, 0, |v.fields| + 1
  {
    FieldsArePrintable(v, v.fields);
    EnclosedIsPrintable('{', SerializeFields(v, v.fields), '}');
  }

  lemma {:induction false} ItemsArePrintable(v: Value, items: seq<Value>)
    requires forall n | 0 <= n < |items| :: items[n] < v
    ensures Printable(SerializeItems(v, items))
    decreases v, 0, |items|
  {
    if items != [] {
      SerializedIsPrintable(items[0]);
      ItemsArePrintable(v, items[1..]);
    }
  }

  lemma {:induction false} FieldsArePrintable(v: Value, fields: seq<(Text, Value)>)
    requires forall n | 0 <= n < |fields| :: fields[n].1 < v
    ensures Printable(SerializeFields(v, fields))
    decreases v, 0, |fields|
  {
    if fields != [] {
      EscapedIsPrintable(fields[0].0);
      SerializedIsPrintable(fields[0].1);
      FieldsArePrintable(v, fields[1..]);
    }
  }
}
