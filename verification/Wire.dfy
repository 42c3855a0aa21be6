/**
 * The wire format: values JSON cannot carry travel as escape objects, and
 * decoding gives the value back with undefined normalised away.
 */
module Wire {
  import opened Basics
  import opened Base64

  // -------------------------------------------------------------------- values

  datatype Num = Finite(value: real) | NotFinite

  /** A value to encode. Objects list their own fields in insertion order; `Opaque` is a function or a symbol. */
  datatype Value =
    | Null | Undefined | Opaque
    | Boolean(flag: bool)
    | Number(num: Num)
    | Text(text: string)
    | BigInt(integer: int)
    | Bytes(bytes: seq<Byte>)
    | Array(items: seq<Value>)
    | Object(fields: seq<Field>)

  datatype Field = Field(key: string, value: Value)

  /** A JSON tree. */
  datatype Json =
    | JNull
    | JBoolean(flag: bool)
    | JNumber(number: real)
    | JText(text: string)
    | JArray(items: seq<Json>)
    | JObject(members: seq<Member>)

  datatype Member = Member(key: string, value: Json)

  predicate Owns(fields: seq<Field>, key: string) {
    exists i :: 0 <= i < |fields| && fields[i].key == key
  }

  function Lookup(ms: seq<Member>, key: string): Option<Json> {
    if ms == [] then None
    else if ms[0].key == key then Some(ms[0].value)
    else Lookup(ms[1..], key)
  }

  // ----------------------------------------------------------------- decimals

  function Decimal(n: nat): (s: string)
    ensures s != "" && forall i | 0 <= i < |s| :: '0' <= s[i] <= '9'
  {
    if n < 10 then ['0' + n as char] else Decimal(n / 10) + ['0' + (n % 10) as char]
  }

  function IntText(i: int): string {
    if i < 0 then "-" + Decimal(-i) else Decimal(i)
  }

  function ParseDecimal(s: string): Option<nat> {
    if s == "" then None
    else if !('0' <= s[|s| - 1] <= '9') then None
    else
      var digit := (s[|s| - 1] - '0') as nat;
      if |s| == 1 then Some(digit)
      else
        match ParseDecimal(s[..|s| - 1])
        case None => None
        case Some(n) => Some(n * 10 + digit)
  }

  function ParseInt(s: string): Option<int> {
    var negative := s != "" && s[0] == '-';
    var digits := ParseDecimal(if negative then s[1..] else s);
    if digits.None? then None
    else
      var n: int := digits.value;
      Some(if negative then -n else n)
  }

  lemma {:induction false} ParseInvertsDecimal(n: nat)
    ensures ParseDecimal(Decimal(n)) == Some(n)
  {
    if n >= 10 {
      ParseInvertsDecimal(n / 10);
      assert Decimal(n)[..|Decimal(n)| - 1] == Decimal(n / 10);
    }
  }

  lemma ParseSigned(s: string, n: nat)
    requires s != "" && '0' <= s[0] && ParseDecimal(s) == Some(n)
    ensures ParseInt(s) == Some(n) && ParseInt("-" + s) == Some(0 - n as int)
  {
    assert ("-" + s)[1..] == s;
  }

  lemma ParseInvertsIntText(i: int)
    ensures ParseInt(IntText(i)) == Some(i)
  {
    var n := if i < 0 then -i else i;
    ParseInvertsDecimal(n);
    ParseSigned(Decimal(n), n);
  }

  // ------------------------------------------------------------------ encoding

  /** What encoding a value gives: an error, nothing (for undefined), or a tree. */
  datatype Encoding = Throws | Absent | Sent(json: Json)

  function Escape(tag: string, payload: Json): Json {
    JObject([Member("$", JText(tag)), Member("v", payload)])
  }

  function ToWire(v: Value): Encoding
    decreases v
  {
    match v
    case Null => Sent(JNull)
    case Undefined => Absent
    case Opaque => Throws
    case Boolean(flag) => Sent(JBoolean(flag))
    case Number(num) => if num.Finite? then Sent(JNumber(num.value)) else Throws
    case Text(text) => Sent(JText(text))
    case BigInt(i) => Sent(Escape("b", JText(IntText(i))))
    case Bytes(bytes) => Sent(Escape("x", JText(Encoded(bytes))))
    case Array(items) =>
      (match ToWireItems(items)
       case None => Throws
       case Some(js) => Sent(JArray(js)))
    case Object(fields) =>
      match ToWireFields(fields)
      case None => Throws
      case Some(ms) => Sent(if Owns(fields, "$") then Escape("o", JObject(ms)) else JObject(ms))
  }

  /** Array slots: an undefined one is sent as null. */
  function ToWireItems(items: seq<Value>): Option<seq<Json>>
    decreases items
  {
    if items == [] then Some([])
    else
      match (ToWire(items[0]), ToWireItems(items[1..]))
      case (Throws, _) => None
      case (_, None) => None
      case (Absent, Some(rest)) => Some([JNull] + rest)
      case (Sent(j), Some(rest)) => Some([j] + rest)
  }

  /** Object fields: an undefined one is dropped. */
  function ToWireFields(fields: seq<Field>): Option<seq<Member>>
    decreases fields
  {
    if fields == [] then Some([])
    else
      match (ToWire(fields[0].value), ToWireFields(fields[1..]))
      case (Throws, _) => None
      case (_, None) => None
      case (Absent, Some(rest)) => Some(rest)
      case (Sent(j), Some(rest)) => Some([Member(fields[0].key, j)] + rest)
  }

  // ------------------------------------------------------------------ decoding

  /** Decoding; absent where the source throws. */
  function FromWire(j: Json): Option<Value>
    decreases j
  {
    match j
    case JNull => Some(Null)
    case JBoolean(flag) => Some(Boolean(flag))
    case JNumber(number) => Some(Number(Finite(number)))
    case JText(text) => Some(Text(text))
    case JArray(items) =>
      (match FromWireItems(items)
       case None => None
       case Some(vs) => Some(Array(vs)))
    case JObject(ms) =>
      var tag := Lookup(ms, "$");
      if tag.Some? && tag.value.JText? then
        var payload := Lookup(ms, "v");
        if payload.None? then None
        else
          LookupIsPart(ms, "v");
          FromEscape(tag.value.text, payload.value)
      else ObjectOf(FromWireMembers(ms))
  }

  function ObjectOf(fields: Option<seq<Field>>): Option<Value> {
    if fields.None? then None else Some(Object(fields.value))
  }

  function FromEscape(tag: string, payload: Json): Option<Value>
    decreases payload
  {
    if tag == "b" then
      if !payload.JText? || ParseInt(payload.text).None? then None else Some(BigInt(ParseInt(payload.text).value))
    else if tag == "x" then
      if !payload.JText? || Decoded(payload.text).None? then None else Some(Bytes(Decoded(payload.text).value))
    else if tag == "o" then
      if !payload.JObject? then None else ObjectOf(FromWireMembers(payload.members))
    else None
  }

  function FromWireItems(items: seq<Json>): Option<seq<Value>>
    decreases items
  {
    if items == [] then Some([])
    else
      match (FromWire(items[0]), FromWireItems(items[1..]))
      case (Some(v), Some(rest)) => Some([v] + rest)
      case _ => None
  }

  function FromWireMembers(ms: seq<Member>): Option<seq<Field>>
    decreases ms
  {
    if ms == [] then Some([])
    else
      match (FromWire(ms[0].value), FromWireMembers(ms[1..]))
      case (Some(v), Some(rest)) => Some([Field(ms[0].key, v)] + rest)
      case _ => None
  }

  lemma {:induction false} LookupIsPart(ms: seq<Member>, key: string)
    ensures Lookup(ms, key).Some? ==> exists i :: 0 <= i < |ms| && ms[i].value == Lookup(ms, key).value
  {
    if ms != [] && ms[0].key != key && Lookup(ms, key).Some? {
      LookupIsPart(ms[1..], key);
      var i :| 0 <= i < |ms| - 1 && ms[1..][i].value == Lookup(ms[1..], key).value;
      assert ms[i + 1].value == Lookup(ms, key).value;
    }
  }

  // ----------------------------------------------------------------- round trip

  /** No function, symbol or number without a finite value anywhere inside. */
  predicate Encodable(v: Value)
    decreases v
  {
    match v
    case Opaque => false
    case Number(num) => num.Finite?
    case Array(items) => forall i | 0 <= i < |items| :: Encodable(items[i])
    case Object(fields) => forall i | 0 <= i < |fields| :: Encodable(fields[i].value)
    case _ => true
  }

  /** The value with undefined normalised away: null in array slots, nothing in objects. */
  function Normalized(v: Value): Value
    decreases v
  {
    match v
    case Array(items) => Array(NormalizedItems(items))
    case Object(fields) => Object(NormalizedFields(fields))
    case _ => v
  }

  function NormalizedItems(items: seq<Value>): seq<Value>
    decreases items
  {
    if items == [] then []
    else [if items[0].Undefined? then Null else Normalized(items[0])] + NormalizedItems(items[1..])
  }

  function NormalizedFields(fields: seq<Field>): seq<Field>
    decreases fields
  {
    if fields == [] then []
    else (if fields[0].value.Undefined? then [] else [Field(fields[0].key, Normalized(fields[0].value))])
         + NormalizedFields(fields[1..])
  }

  /**
   * Encoding throws exactly for values that are not encodable and gives nothing
   * exactly for undefined; whatever is sent decodes to the normalised value.
   */
  lemma {:induction false} RoundTrip(v: Value)
    ensures match ToWire(v)
            case Throws => !Encodable(v)
            case Absent => v.Undefined?
            case Sent(j) => Encodable(v) && !v.Undefined? && FromWire(j) == Some(Normalized(v))
    decreases v
  {
    match v
    case BigInt(i) =>
      ParseInvertsIntText(i);
      EscapeDecodes("b", JText(IntText(i)));
    case Bytes(bytes) =>
      DecodeInvertsEncode(bytes);
      EscapeDecodes("x", JText(Encoded(bytes)));
    case Array(items) => ItemsRoundTrip(items);
    case Object(fields) =>
      FieldsRoundTrip(fields);
      if ToWireFields(fields).Some? {
        var ms := ToWireFields(fields).value;
        EscapeDecodes("o", JObject(ms));
        if !Owns(fields, "$") { NoDollar(fields); }
      }
    case _ =>
  }

  lemma EscapeDecodes(tag: string, payload: Json)
    ensures FromWire(Escape(tag, payload)) == FromEscape(tag, payload)
  {
    var ms := [Member("$", JText(tag)), Member("v", payload)];
    assert ms[1..] == [Member("v", payload)];
    assert Lookup(ms, "v") == Lookup(ms[1..], "v") == Some(payload);
  }

  lemma {:induction false} ItemsRoundTrip(items: seq<Value>)
    ensures match ToWireItems(items)
            case None => !(forall i | 0 <= i < |items| :: Encodable(items[i]))
            case Some(js) =>
              (forall i | 0 <= i < |items| :: Encodable(items[i])) && FromWireItems(js) == Some(NormalizedItems(items))
    decreases items
  {
    if items != [] {
      RoundTrip(items[0]);
      ItemsRoundTrip(items[1..]);
      HeadAndRest(items, v => Encodable(v));
      if ToWireItems(items).Some? {
        var js := ToWireItems(items).value;
        assert js[1..] == ToWireItems(items[1..]).value;
      }
    }
  }

  lemma {:induction false} FieldsRoundTrip(fields: seq<Field>)
    ensures match ToWireFields(fields)
            case None => !(forall i | 0 <= i < |fields| :: Encodable(fields[i].value))
            case Some(ms) =>
              (forall i | 0 <= i < |fields| :: Encodable(fields[i].value))
              && FromWireMembers(ms) == Some(NormalizedFields(fields))
    decreases fields
  {
    if fields != [] {
      RoundTrip(fields[0].value);
      FieldsRoundTrip(fields[1..]);
      HeadAndRest(fields, (f: Field) => Encodable(f.value));
      if ToWireFields(fields).Some? {
        var ms := ToWireFields(fields).value;
        if fields[0].value.Undefined? {
          assert NormalizedFields(fields) == NormalizedFields(fields[1..]);
        } else {
          assert ms[1..] == ToWireFields(fields[1..]).value;
        }
      }
    }
  }

  lemma HeadAndRest<T>(xs: seq<T>, p: T -> bool)
    requires xs != []
    ensures (forall i | 0 <= i < |xs| :: p(xs[i])) <==> p(xs[0]) && (forall i | 0 <= i < |xs| - 1 :: p(xs[1..][i]))
  {
    if p(xs[0]) && forall i | 0 <= i < |xs| - 1 :: p(xs[1..][i]) {
      forall i | 0 <= i < |xs|
        ensures p(xs[i])
      {
        if i > 0 { assert xs[i] == xs[1..][i - 1]; }
      }
    }
    if forall i | 0 <= i < |xs| :: p(xs[i]) {
      forall i | 0 <= i < |xs| - 1
        ensures p(xs[1..][i])
      {
        assert xs[1..][i] == xs[i + 1];
      }
    }
  }

  /** Without an own "$" there is nothing to mistake for an escape. */
  lemma {:induction false} NoDollar(fields: seq<Field>)
    requires !Owns(fields, "$")
    ensures ToWireFields(fields).Some? ==> Lookup(ToWireFields(fields).value, "$") == None
    decreases fields
  {
    if fields != [] {
      assert fields[0].key != "$";
      assert forall i | 0 <= i < |fields| - 1 :: fields[1..][i] == fields[i + 1];
      NoDollar(fields[1..]);
      if ToWireFields(fields).Some? && ToWire(fields[0].value).Sent? {
        assert ToWireFields(fields).value[1..] == ToWireFields(fields[1..]).value;
      }
    }
  }
}
