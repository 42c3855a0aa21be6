/**
 * The canonical key of a value: its wire tree with every object's members in
 * key order. Which values share a key, exactly.
 */
module WireKey {
  import opened Basics
  import opened Base64
  import opened Wire

  // ------------------------------------------------------------- order of keys

  predicate Less(a: string, b: string) {
    b != "" && (a == "" || a[0] < b[0] || (a[0] == b[0] && Less(a[1..], b[1..])))
  }

  lemma {:induction false} LessIsTotal(a: string, b: string)
    ensures Less(a, b) || Less(b, a) || a == b
    ensures !(Less(a, b) && Less(b, a)) && !Less(a, a)
  {
    if a != "" && b != "" && a[0] == b[0] {
      LessIsTotal(a[1..], b[1..]);
      assert a == [a[0]] + a[1..] && b == [b[0]] + b[1..];
    }
    if a != "" { LessIsTotal(a[1..], a[1..]); }
  }

  lemma {:induction false} LessIsTransitive(a: string, b: string, c: string)
    requires Less(a, b) && Less(b, c)
    ensures Less(a, c)
  {
    if a != "" && b != "" && c != "" && a[0] == b[0] == c[0] {
      LessIsTransitive(a[1..], b[1..], c[1..]);
    }
  }

  // ------------------------------------------------------------------- sorting

  predicate Sorted(ms: seq<Member>) {
    forall i, j | 0 <= i < j < |ms| :: Less(ms[i].key, ms[j].key)
  }

  predicate Distinct(ms: seq<Member>) {
    forall i, j | 0 <= i < j < |ms| :: ms[i].key != ms[j].key
  }

  function Insert(m: Member, ms: seq<Member>): seq<Member> {
    if ms == [] || Less(m.key, ms[0].key) then [m] + ms else [ms[0]] + Insert(m, ms[1..])
  }

  function SortMembers(ms: seq<Member>): seq<Member> {
    if ms == [] then [] else Insert(ms[0], SortMembers(ms[1..]))
  }

  lemma {:induction false} LookupInsert(m: Member, ms: seq<Member>, key: string)
    requires Lookup(ms, m.key) == None
    ensures Lookup(Insert(m, ms), key) == if key == m.key then Some(m.value) else Lookup(ms, key)
  {
    if ms == [] || Less(m.key, ms[0].key) {
      assert ([m] + ms)[1..] == ms;
    } else {
      LookupInsert(m, ms[1..], key);
      assert Insert(m, ms)[1..] == Insert(m, ms[1..]);
    }
  }

  lemma {:induction false} LookupAbsent(ms: seq<Member>, key: string)
    ensures Lookup(ms, key) == None <==> forall i | 0 <= i < |ms| :: ms[i].key != key
  {
    if ms != [] {
      LookupAbsent(ms[1..], key);
      HeadAndRest(ms, (m: Member) => m.key != key);
    }
  }

  lemma DistinctRest(ms: seq<Member>)
    requires ms != [] && Distinct(ms)
    ensures Distinct(ms[1..]) && Lookup(ms[1..], ms[0].key) == None
  {
    LookupAbsent(ms[1..], ms[0].key);
  }

  /** Sorting changes the order of members, not what a key stands for. */
  lemma {:induction false} LookupSorted(ms: seq<Member>, key: string)
    requires Distinct(ms)
    ensures Lookup(SortMembers(ms), key) == Lookup(ms, key)
  {
    if ms != [] {
      DistinctRest(ms);
      LookupSorted(ms[1..], key);
      LookupSorted(ms[1..], ms[0].key);
      LookupInsert(ms[0], SortMembers(ms[1..]), key);
    }
  }

  lemma {:induction false} InsertKeepsSorted(m: Member, ms: seq<Member>)
    requires Sorted(ms) && Lookup(ms, m.key) == None
    ensures Sorted(Insert(m, ms))
    ensures forall x | x in Insert(m, ms) :: x == m || x in ms
  {
    if ms != [] {
      LessIsTotal(m.key, ms[0].key);
      if Less(m.key, ms[0].key) {
        forall j | 0 < j < |ms|
          ensures Less(m.key, ms[j].key)
        {
          LessIsTransitive(m.key, ms[0].key, ms[j].key);
        }
      } else {
        InsertKeepsSorted(m, ms[1..]);
        var rest := Insert(m, ms[1..]);
        forall j | 0 <= j < |rest|
          ensures Less(ms[0].key, rest[j].key)
        {
          assert rest[j] in rest;
          if rest[j] != m {
            var i :| 0 <= i < |ms| - 1 && ms[1..][i] == rest[j];
            assert ms[i + 1] == rest[j];
          }
        }
      }
    }
  }

  lemma {:induction false} SortedMembers(ms: seq<Member>)
    requires Distinct(ms)
    ensures Sorted(SortMembers(ms))
  {
    if ms != [] {
      DistinctRest(ms);
      SortedMembers(ms[1..]);
      LookupSorted(ms[1..], ms[0].key);
      InsertKeepsSorted(ms[0], SortMembers(ms[1..]));
    }
  }

  lemma SortedRest(ms: seq<Member>)
    requires ms != [] && Sorted(ms)
    ensures Sorted(ms[1..]) && Lookup(ms[1..], ms[0].key) == None
    ensures forall key | Lookup(ms[1..], key).Some? :: Less(ms[0].key, key)
  {
    forall key
      ensures Lookup(ms[1..], key).Some? ==> Less(ms[0].key, key)
    {
      LookupAbsent(ms[1..], key);
    }
    LookupAbsent(ms[1..], ms[0].key);
    LessIsTotal(ms[0].key, ms[0].key);
  }

  ghost predicate SameLookups(a: seq<Member>, b: seq<Member>) {
    forall key :: Lookup(a, key) == Lookup(b, key)
  }

  lemma FirstFound(ms: seq<Member>)
    ensures ms != [] ==> exists key :: Lookup(ms, key).Some?
  {
    if ms != [] { assert Lookup(ms, ms[0].key).Some?; }
  }

  /** Sorted members are determined by what each key stands for. */
  lemma {:induction false} SortedIsUnique(a: seq<Member>, b: seq<Member>)
    requires Sorted(a) && Sorted(b) && SameLookups(a, b)
    ensures a == b
  {
    FirstFound(a);
    FirstFound(b);
    if a != [] && b != [] {
      SortedRest(a);
      SortedRest(b);
      assert Lookup(a, a[0].key) == Lookup(b, a[0].key) && Lookup(a, b[0].key) == Lookup(b, b[0].key);
      LessIsTotal(a[0].key, b[0].key);
      assert a[0].key == b[0].key;
      forall key
        ensures Lookup(a[1..], key) == Lookup(b[1..], key)
      {
        assert Lookup(a, key) == Lookup(b, key);
      }
      SortedIsUnique(a[1..], b[1..]);
      assert a == [a[0]] + a[1..] && b == [b[0]] + b[1..];
    }
  }

  lemma SortedAlike(a: seq<Member>, b: seq<Member>)
    requires Distinct(a) && Distinct(b)
    ensures SortMembers(a) == SortMembers(b) <==> SameLookups(a, b)
  {
    forall key
      ensures Lookup(SortMembers(a), key) == Lookup(a, key) && Lookup(SortMembers(b), key) == Lookup(b, key)
    {
      LookupSorted(a, key);
      LookupSorted(b, key);
    }
    if SameLookups(a, b) {
      SortedMembers(a);
      SortedMembers(b);
      SortedIsUnique(SortMembers(a), SortMembers(b));
    }
  }

  // ------------------------------------------------------------------- the key

  function SortDeep(j: Json): Json
    decreases j
  {
    match j
    case JArray(items) => JArray(SortItems(items))
    case JObject(ms) => JObject(SortMembers(SortValues(ms)))
    case _ => j
  }

  function SortItems(items: seq<Json>): seq<Json>
    decreases items
  {
    if items == [] then [] else [SortDeep(items[0])] + SortItems(items[1..])
  }

  function SortValues(ms: seq<Member>): seq<Member>
    decreases ms
  {
    if ms == [] then [] else [Member(ms[0].key, SortDeep(ms[0].value))] + SortValues(ms[1..])
  }

  /** The canonical tree of a value, absent where encoding throws; undefined has the key of null. */
  function Key(v: Value): Option<Json> {
    match ToWire(v)
    case Throws => None
    case Absent => Some(JNull)
    case Sent(j) => Some(SortDeep(j))
  }

  // ------------------------------------------------------------ the same value

  /** An undefined value, where it stands for something, is read as null. */
  function Slot(v: Value): Value {
    if v.Undefined? then Null else v
  }

  /** The value of a key, if the object owns one that is not undefined. */
  function Get(fields: seq<Field>, key: string): Option<Value>
  {
    if fields == [] then None
    else if fields[0].key == key && !fields[0].value.Undefined? then Some(fields[0].value)
    else Get(fields[1..], key)
  }

  /** Objects list each own key once. */
  predicate WellFormed(v: Value)
    decreases v
  {
    match v
    case Array(items) => forall i | 0 <= i < |items| :: WellFormed(items[i])
    case Object(fields) =>
      && (forall i, j | 0 <= i < j < |fields| :: fields[i].key != fields[j].key)
      && (forall i | 0 <= i < |fields| :: WellFormed(fields[i].value))
    case _ => true
  }

  /**
   * The same value up to the order of object keys, dropped undefined fields and
   * undefined slots read as null. With `strict`, two objects must also agree on
   * whether they own the key "$", even when it is undefined.
   */
  predicate Same(a: Value, b: Value, strict: bool)
    decreases a
  {
    match a
    case Array(xs) =>
      b.Array? && |xs| == |b.items| &&
      forall i | 0 <= i < |xs| ::
        if xs[i].Undefined? then Slot(b.items[i]).Null? else Same(xs[i], Slot(b.items[i]), strict)
    case Object(fs) =>
      && b.Object?
      && (strict ==> (Owns(fs, "$") <==> Owns(b.fields, "$")))
      && (forall i | 0 <= i < |fs| && !fs[i].value.Undefined? ::
            Get(b.fields, fs[i].key).Some? && Same(fs[i].value, Get(b.fields, fs[i].key).value, strict))
      && (forall i | 0 <= i < |b.fields| && !b.fields[i].value.Undefined? :: Get(fs, b.fields[i].key).Some?)
    case _ => a == b
  }

  /** The canonical tree of an encodable value. */
  function KeyOf(v: Value): Json {
    var e := ToWire(v);
    if e.Sent? then SortDeep(e.json) else JNull
  }

  // ---------------------------------------------------------------- key shapes

  lemma SortEscape(tag: string, payload: Json)
    ensures SortDeep(Escape(tag, payload)) == Escape(tag, SortDeep(payload))
  {
    var m, n := Member("$", JText(tag)), Member("v", SortDeep(payload));
    var ms := [Member("$", JText(tag)), Member("v", payload)];
    assert ms[1..] == [Member("v", payload)];
    assert SortValues(ms) == [m] + SortValues(ms[1..]) && SortValues(ms[1..]) == [n] + SortValues(ms[1..][1..]);
    assert SortValues(ms) == [m, n];
    TwoMembers(m, n);
  }

  lemma TwoMembers(m: Member, n: Member)
    requires Less(m.key, n.key)
    ensures SortMembers([m, n]) == [m, n]
  {
    assert [m, n][1..] == [n] && [n][1..] == [];
    assert SortMembers([n]) == Insert(n, SortMembers([n][1..])) == [n];
  }

  lemma EscapeLookup(tag: string, payload: Json)
    ensures Escape(tag, payload).JObject? && Lookup(Escape(tag, payload).members, "$") == Some(JText(tag))
  {
  }

  /** The members of an object's canonical tree. */
  function Inner(fields: seq<Field>): seq<Member> {
    var ms := ToWireFields(fields);
    if ms.None? then [] else SortMembers(SortValues(ms.value))
  }

  lemma ObjectKey(fields: seq<Field>)
    requires ToWireFields(fields).Some?
    ensures KeyOf(Object(fields)) ==
            if Owns(fields, "$") then Escape("o", JObject(Inner(fields))) else JObject(Inner(fields))
  {
    hide ToWireFields, SortMembers, SortValues, Escape;
    SortEscape("o", JObject(ToWireFields(fields).value));
  }

  /** What a key of an object stands for in its canonical tree. */
  lemma {:induction false} FieldLookup(fields: seq<Field>, key: string)
    requires ToWireFields(fields).Some?
    ensures Lookup(SortValues(ToWireFields(fields).value), key) ==
            if Get(fields, key).None? then None else Some(KeyOf(Get(fields, key).value))
    decreases fields
  {
    if fields != [] {
      FieldLookup(fields[1..], key);
      RoundTrip(fields[0].value);
      if ToWire(fields[0].value).Sent? {
        var ms := ToWireFields(fields).value;
        assert ms[1..] == ToWireFields(fields[1..]).value;
        assert SortValues(ms)[1..] == SortValues(ms[1..]);
      }
    }
  }

  predicate DistinctFields(fields: seq<Field>) {
    forall i, j | 0 <= i < j < |fields| :: fields[i].key != fields[j].key
  }

  lemma {:induction false} FieldKeys(fields: seq<Field>)
    requires ToWireFields(fields).Some? && DistinctFields(fields)
    ensures Distinct(SortValues(ToWireFields(fields).value))
    ensures forall m | m in SortValues(ToWireFields(fields).value) :: Owns(fields, m.key)
    decreases fields
  {
    if fields != [] {
      FieldKeys(fields[1..]);
      var ms := SortValues(ToWireFields(fields).value);
      var rest := SortValues(ToWireFields(fields[1..]).value);
      forall m | m in rest
        ensures Owns(fields, m.key) && m.key != fields[0].key
      {
        var i :| 0 <= i < |fields| - 1 && fields[1..][i].key == m.key;
        assert fields[i + 1].key == m.key;
      }
      if ToWire(fields[0].value).Sent? {
        assert ToWireFields(fields).value[1..] == ToWireFields(fields[1..]).value;
        assert ms == [Member(fields[0].key, KeyOf(fields[0].value))] + rest;
      }
    }
  }

  lemma InnerAlike(fs: seq<Field>, gs: seq<Field>)
    requires ToWireFields(fs).Some? && ToWireFields(gs).Some? && DistinctFields(fs) && DistinctFields(gs)
    ensures Inner(fs) == Inner(gs) <==> forall key :: SameKeyAt(fs, gs, key)
  {
    hide SortMembers, SortValues, ToWireFields, KeyOf;
    FieldKeys(fs);
    FieldKeys(gs);
    SortedAlike(SortValues(ToWireFields(fs).value), SortValues(ToWireFields(gs).value));
    forall key
      ensures SameKeyAt(fs, gs, key) <==>
        Lookup(SortValues(ToWireFields(fs).value), key) == Lookup(SortValues(ToWireFields(gs).value), key)
    {
      FieldLookup(fs, key);
      FieldLookup(gs, key);
    }
  }

  predicate SameKeyAt(fs: seq<Field>, gs: seq<Field>, key: string) {
    var x, y := Get(fs, key), Get(gs, key);
    (x.None? && y.None?) || (x.Some? && y.Some? && KeyOf(x.value) == KeyOf(y.value))
  }

  lemma {:induction false} GetOwn(fields: seq<Field>, i: nat)
    requires DistinctFields(fields) && i < |fields|
    ensures Get(fields, fields[i].key) == if fields[i].value.Undefined? then None else Some(fields[i].value)
  {
    if i == 0 {
      GetAbsent(fields[1..], fields[0].key);
    } else {
      assert fields[0].key != fields[i].key;
      GetOwn(fields[1..], i - 1);
    }
  }

  lemma {:induction false} GetAbsent(fields: seq<Field>, key: string)
    requires forall i | 0 <= i < |fields| :: fields[i].key != key
    ensures Get(fields, key) == None
  {
    if fields != [] { GetAbsent(fields[1..], key); }
  }

  lemma {:induction false} GetIsOwn(fields: seq<Field>, key: string)
    requires Get(fields, key).Some?
    ensures exists i :: 0 <= i < |fields| && fields[i].key == key && fields[i].value == Get(fields, key).value
    ensures !Get(fields, key).value.Undefined?
  {
    if !(fields[0].key == key && !fields[0].value.Undefined?) {
      GetIsOwn(fields[1..], key);
      var i :| 0 <= i < |fields| - 1 && fields[1..][i].key == key && fields[1..][i].value == Get(fields, key).value;
      assert fields[i + 1].key == key;
    }
  }

  lemma {:induction false} ItemsKeys(items: seq<Value>)
    requires ToWireItems(items).Some?
    ensures var ks := SortItems(ToWireItems(items).value);
            |ks| == |items| && forall i | 0 <= i < |items| :: ks[i] == KeyOf(items[i])
    decreases items
  {
    if items != [] {
      ItemsKeys(items[1..]);
      var js := ToWireItems(items).value;
      assert js[1..] == ToWireItems(items[1..]).value;
      assert SortItems(js) == [KeyOf(items[0])] + SortItems(js[1..]);
      forall i | 0 <= i < |items|
        ensures SortItems(js)[i] == KeyOf(items[i])
      {
        if i > 0 { assert items[i] == items[1..][i - 1]; }
      }
    }
  }

  // --------------------------------------------------------- who shares a key

  predicate Good(v: Value) {
    WellFormed(v) && Encodable(v)
  }

  /** Which kind of value a canonical tree came from can be read off it. */
  datatype Shape = IsNull | IsBoolean | IsNumber | IsText | IsBigInt | IsBytes | IsArray | IsObject

  function ShapeOf(v: Value): Shape {
    match v
    case Null | Undefined | Opaque => IsNull
    case Boolean(_) => IsBoolean
    case Number(_) => IsNumber
    case Text(_) => IsText
    case BigInt(_) => IsBigInt
    case Bytes(_) => IsBytes
    case Array(_) => IsArray
    case Object(_) => IsObject
  }

  function ShapeRead(j: Json): Shape {
    match j
    case JNull => IsNull
    case JBoolean(_) => IsBoolean
    case JNumber(_) => IsNumber
    case JText(_) => IsText
    case JArray(_) => IsArray
    case JObject(ms) =>
      if Lookup(ms, "$") == Some(JText("b")) then IsBigInt
      else if Lookup(ms, "$") == Some(JText("x")) then IsBytes
      else IsObject
  }

  lemma InnerNoDollar(fields: seq<Field>)
    requires ToWireFields(fields).Some? && DistinctFields(fields) && !Owns(fields, "$")
    ensures Lookup(Inner(fields), "$") == None
  {
    FieldKeys(fields);
    LookupSorted(SortValues(ToWireFields(fields).value), "$");
    LookupAbsent(SortValues(ToWireFields(fields).value), "$");
  }

  lemma KeyShowsShape(v: Value)
    requires Good(v)
    ensures ShapeRead(KeyOf(v)) == ShapeOf(v)
  {
    RoundTrip(v);
    match v
    case BigInt(i) =>
      SortEscape("b", JText(IntText(i)));
      EscapeLookup("b", JText(IntText(i)));
    case Bytes(bytes) =>
      SortEscape("x", JText(Encoded(bytes)));
      EscapeLookup("x", JText(Encoded(bytes)));
    case Object(fields) =>
      ObjectKey(fields);
      EscapeLookup("o", JObject(Inner(fields)));
      if !Owns(fields, "$") { InnerNoDollar(fields); }
    case _ =>
  }

  lemma ObjectsAlike(fs: seq<Field>, gs: seq<Field>)
    requires Good(Object(fs)) && Good(Object(gs))
    ensures KeyOf(Object(fs)) == KeyOf(Object(gs))
       <==> (Owns(fs, "$") <==> Owns(gs, "$")) && forall key :: SameKeyAt(fs, gs, key)
  {
    hide Inner, KeyOf, SameKeyAt;
    FieldsRoundTrip(fs);
    FieldsRoundTrip(gs);
    ObjectKey(fs);
    ObjectKey(gs);
    InnerAlike(fs, gs);
    if !Owns(fs, "$") { InnerNoDollar(fs); }
    if !Owns(gs, "$") { InnerNoDollar(gs); }
    EscapeLookup("o", JObject(Inner(fs)));
    EscapeLookup("o", JObject(Inner(gs)));
  }

  lemma ArraysAlike(xs: seq<Value>, ys: seq<Value>)
    requires Good(Array(xs)) && Good(Array(ys))
    ensures KeyOf(Array(xs)) == KeyOf(Array(ys))
       <==> |xs| == |ys| && forall i | 0 <= i < |xs| :: KeyOf(xs[i]) == KeyOf(ys[i])
  {
    ItemsRoundTrip(xs);
    ItemsRoundTrip(ys);
    ItemsKeys(xs);
    ItemsKeys(ys);
  }

  lemma BigIntsAlike(i: int, j: int)
    ensures KeyOf(BigInt(i)) == KeyOf(BigInt(j)) <==> i == j
  {
    SortEscape("b", JText(IntText(i)));
    SortEscape("b", JText(IntText(j)));
    ParseInvertsIntText(i);
    ParseInvertsIntText(j);
  }

  lemma BytesAlike(a: seq<Byte>, b: seq<Byte>)
    ensures KeyOf(Bytes(a)) == KeyOf(Bytes(b)) <==> a == b
  {
    SortEscape("x", JText(Encoded(a)));
    SortEscape("x", JText(Encoded(b)));
    DecodeInvertsEncode(a);
    DecodeInvertsEncode(b);
  }

  /** Two encodable values share a key exactly when they are the same value in the strict sense. */
  lemma {:induction false} SameKeyIff(a: Value, b: Value)
    requires Good(a) && Good(b)
    ensures KeyOf(a) == KeyOf(b) <==> Same(Slot(a), Slot(b), true)
    decreases a
  {
    KeyShowsShape(a);
    KeyShowsShape(b);
    if ShapeOf(a) == ShapeOf(b) {
      match a
      case BigInt(i) => BigIntsAlike(i, b.integer);
      case Bytes(bytes) => BytesAlike(bytes, b.bytes);
      case Array(xs) =>
        ArraysAlike(xs, b.items);
        if |xs| == |b.items| {
          forall i | 0 <= i < |xs|
            ensures KeyOf(xs[i]) == KeyOf(b.items[i]) <==> Same(Slot(xs[i]), Slot(b.items[i]), true)
          {
            SameKeyIff(xs[i], b.items[i]);
          }
        }
      case Object(fs) =>
        ObjectsAlike(fs, b.fields);
        forall i | 0 <= i < |fs| && Get(b.fields, fs[i].key).Some?
          ensures KeyOf(fs[i].value) == KeyOf(Get(b.fields, fs[i].key).value)
             <==> Same(Slot(fs[i].value), Get(b.fields, fs[i].key).value, true)
        {
          GetIsOwn(b.fields, fs[i].key);
          SameKeyIff(fs[i].value, Get(b.fields, fs[i].key).value);
        }
        FieldsAlike(fs, b.fields);
      case _ =>
    }
  }

  /** Agreement key by key is agreement field by field, both ways. */
  lemma FieldsAlike(fs: seq<Field>, gs: seq<Field>)
    requires DistinctFields(fs) && DistinctFields(gs)
    ensures (forall key :: SameKeyAt(fs, gs, key)) <==>
            && (forall i | 0 <= i < |fs| && !fs[i].value.Undefined? ::
                  Get(gs, fs[i].key).Some? && KeyOf(fs[i].value) == KeyOf(Get(gs, fs[i].key).value))
            && (forall i | 0 <= i < |gs| && !gs[i].value.Undefined? :: Get(fs, gs[i].key).Some?)
  {
    hide KeyOf;
    forall i | 0 <= i < |fs|
      ensures Get(fs, fs[i].key) == if fs[i].value.Undefined? then None else Some(fs[i].value)
    {
      GetOwn(fs, i);
    }
    forall i | 0 <= i < |gs|
      ensures Get(gs, gs[i].key) == if gs[i].value.Undefined? then None else Some(gs[i].value)
    {
      GetOwn(gs, i);
    }
    if forall key :: SameKeyAt(fs, gs, key) {
      forall i | 0 <= i < |fs|
        ensures SameKeyAt(fs, gs, fs[i].key)
      {
      }
      forall i | 0 <= i < |gs|
        ensures SameKeyAt(fs, gs, gs[i].key)
      {
      }
    }
    forall key
      ensures Get(fs, key).Some? ==>
                exists i :: 0 <= i < |fs| && fs[i].key == key && fs[i].value == Get(fs, key).value
                            && !fs[i].value.Undefined?
      ensures Get(gs, key).Some? ==>
                exists i :: 0 <= i < |gs| && gs[i].key == key && gs[i].value == Get(gs, key).value
                            && !gs[i].value.Undefined?
    {
      if Get(fs, key).Some? { GetIsOwn(fs, key); }
      if Get(gs, key).Some? { GetIsOwn(gs, key); }
    }
  }

  // ------------------------------------------------ where the key is canonical

  /** Every object inside that owns the key "$" has a value for it. */
  predicate DollarsDefined(v: Value)
    decreases v
  {
    match v
    case Array(items) => forall i | 0 <= i < |items| :: DollarsDefined(items[i])
    case Object(fields) =>
      && (Owns(fields, "$") ==> Get(fields, "$").Some?)
      && (forall i | 0 <= i < |fields| :: DollarsDefined(fields[i].value))
    case _ => true
  }

  lemma OwnsWhatItGets(fields: seq<Field>, key: string)
    requires Get(fields, key).Some?
    ensures Owns(fields, key)
  {
    GetIsOwn(fields, key);
  }

  lemma GetsFieldByField(fs: seq<Field>, gs: seq<Field>, key: string)
    requires forall i | 0 <= i < |fs| && !fs[i].value.Undefined? :: Get(gs, fs[i].key).Some?
    requires Get(fs, key).Some?
    ensures Get(gs, key).Some?
  {
    GetIsOwn(fs, key);
  }

  /** Without an undefined "$" the strict sense is no stricter. */
  lemma {:induction false} StrictIsNoStricter(a: Value, b: Value)
    requires Good(a) && Good(b) && DollarsDefined(a) && DollarsDefined(b)
    ensures Same(a, b, true) <==> Same(a, b, false)
    decreases a
  {
    match a
    case Array(xs) =>
      if b.Array? && |xs| == |b.items| {
        forall i | 0 <= i < |xs|
          ensures Same(xs[i], Slot(b.items[i]), true) <==> Same(xs[i], Slot(b.items[i]), false)
        {
          StrictIsNoStricter(xs[i], Slot(b.items[i]));
        }
      }
    case Object(fs) =>
      if b.Object? {
        forall i | 0 <= i < |fs| && Get(b.fields, fs[i].key).Some?
          ensures Same(fs[i].value, Get(b.fields, fs[i].key).value, true)
             <==> Same(fs[i].value, Get(b.fields, fs[i].key).value, false)
        {
          GetIsOwn(b.fields, fs[i].key);
          StrictIsNoStricter(fs[i].value, Get(b.fields, fs[i].key).value);
        }
        if Same(a, b, false) { DollarsAgree(fs, b.fields); }
      }
    case _ =>
  }

  lemma DollarsAgree(fs: seq<Field>, gs: seq<Field>)
    requires Owns(fs, "$") ==> Get(fs, "$").Some?
    requires Owns(gs, "$") ==> Get(gs, "$").Some?
    requires forall i | 0 <= i < |fs| && !fs[i].value.Undefined? :: Get(gs, fs[i].key).Some?
    requires forall i | 0 <= i < |gs| && !gs[i].value.Undefined? :: Get(fs, gs[i].key).Some?
    ensures Owns(fs, "$") <==> Owns(gs, "$")
  {
    if Owns(fs, "$") {
      GetsFieldByField(fs, gs, "$");
      OwnsWhatItGets(gs, "$");
    }
    if Owns(gs, "$") {
      GetsFieldByField(gs, fs, "$");
      OwnsWhatItGets(fs, "$");
    }
  }

  /**
   * Canonical key: for values in which no object owns an undefined "$", two keys
   * are equal if and only if the values are the same up to the order of object
   * keys, dropped undefined fields and undefined slots read as null.
   */
  lemma KeyIsCanonical(a: Value, b: Value)
    requires Good(a) && Good(b) && DollarsDefined(a) && DollarsDefined(b)
    ensures Key(a) == Key(b) <==> Same(Slot(a), Slot(b), false)
  {
    hide Same;
    RoundTrip(a);
    RoundTrip(b);
    SameKeyIff(a, b);
    StrictIsNoStricter(Slot(a), Slot(b));
  }

  // ----------------------------------------------------- and where it is not

  lemma {:induction false} NormalizedItem(items: seq<Value>, i: nat)
    requires i < |items|
    ensures |NormalizedItems(items)| == |items|
    ensures NormalizedItems(items)[i] == if items[i].Undefined? then Null else Normalized(items[i])
    decreases items
  {
    if |items| > 1 { NormalizedItem(items[1..], if i == 0 then 0 else i - 1); }
  }

  lemma {:induction false} NormalizedGet(fields: seq<Field>, key: string)
    ensures Get(NormalizedFields(fields), key) ==
            if Get(fields, key).None? then None else Some(Normalized(Get(fields, key).value))
    ensures Owns(NormalizedFields(fields), key) <==> Get(fields, key).Some?
    decreases fields
  {
    if fields != [] {
      var ns := NormalizedFields(fields);
      NormalizedGet(fields[1..], key);
      if fields[0].value.Undefined? {
        assert ns == NormalizedFields(fields[1..]);
      } else {
        assert ns[1..] == NormalizedFields(fields[1..]) && ns[0].key == fields[0].key;
        OwnsFirst(ns, key);
      }
    }
  }

  lemma OwnsFirst(fields: seq<Field>, key: string)
    requires fields != []
    ensures Owns(fields, key) <==> fields[0].key == key || Owns(fields[1..], key)
  {
    if Owns(fields[1..], key) {
      var i :| 0 <= i < |fields| - 1 && fields[1..][i].key == key;
      assert fields[i + 1].key == key;
    }
    if Owns(fields, key) && fields[0].key != key {
      var i :| 0 <= i < |fields| && fields[i].key == key;
      assert fields[1..][i - 1].key == key;
    }
  }

  lemma {:induction false} NormalizedOrigin(fields: seq<Field>, i: nat)
    requires i < |NormalizedFields(fields)|
    ensures exists j :: 0 <= j < |fields| && !fields[j].value.Undefined?
                     && NormalizedFields(fields)[i] == Field(fields[j].key, Normalized(fields[j].value))
    decreases fields
  {
    var ns := NormalizedFields(fields);
    if fields[0].value.Undefined? {
      assert ns == NormalizedFields(fields[1..]);
      NormalizedOrigin(fields[1..], i);
      var j :| 0 <= j < |fields| - 1 && !fields[1..][j].value.Undefined?
            && ns[i] == Field(fields[1..][j].key, Normalized(fields[1..][j].value));
      assert fields[j + 1] == fields[1..][j];
    } else if i > 0 {
      assert ns[1..] == NormalizedFields(fields[1..]);
      NormalizedOrigin(fields[1..], i - 1);
      var j :| 0 <= j < |fields| - 1 && !fields[1..][j].value.Undefined?
            && ns[1..][i - 1] == Field(fields[1..][j].key, Normalized(fields[1..][j].value));
      assert fields[j + 1] == fields[1..][j];
    }
  }

  lemma {:induction false} NormalizedDistinct(fields: seq<Field>)
    requires DistinctFields(fields)
    ensures DistinctFields(NormalizedFields(fields))
    decreases fields
  {
    if fields != [] {
      NormalizedDistinct(fields[1..]);
      var ns := NormalizedFields(fields[1..]);
      forall i | 0 <= i < |ns|
        ensures ns[i].key != fields[0].key
      {
        NormalizedOrigin(fields[1..], i);
        var j :| 0 <= j < |fields| - 1 && ns[i].key == fields[1..][j].key;
        assert fields[j + 1] == fields[1..][j];
      }
    }
  }

  /** The normalised value is encodable too, and owns no undefined "$". */
  lemma {:induction false} NormalizedIsGood(v: Value)
    requires Good(v)
    ensures Good(Normalized(v)) && DollarsDefined(Normalized(v))
    decreases v
  {
    match v
    case Array(items) =>
      forall i | 0 <= i < |items|
        ensures |NormalizedItems(items)| == |items|
        ensures Good(NormalizedItems(items)[i]) && DollarsDefined(NormalizedItems(items)[i])
      {
        NormalizedItem(items, i);
        NormalizedIsGood(items[i]);
      }
      if items != [] { NormalizedItem(items, 0); }
    case Object(fields) =>
      var ns := NormalizedFields(fields);
      NormalizedDistinct(fields);
      NormalizedGet(fields, "$");
      forall i | 0 <= i < |ns|
        ensures Good(ns[i].value) && DollarsDefined(ns[i].value)
      {
        NormalizedOrigin(fields, i);
        var j :| 0 <= j < |fields| && ns[i] == Field(fields[j].key, Normalized(fields[j].value));
        NormalizedIsGood(fields[j].value);
      }
    case _ =>
  }

  /** A value is the same as its normalised form; strictly so exactly when no "$" is undefined. */
  lemma {:induction false} SameAsNormalized(v: Value, strict: bool)
    requires Good(v)
    ensures Same(v, Normalized(v), strict) <==> strict ==> DollarsDefined(v)
    decreases v
  {
    match v
    case Array(items) =>
      forall i | 0 <= i < |items|
        ensures |NormalizedItems(items)| == |items|
        ensures !items[i].Undefined? ==>
          (Same(items[i], Slot(NormalizedItems(items)[i]), strict) <==> strict ==> DollarsDefined(items[i]))
        ensures items[i].Undefined? ==> NormalizedItems(items)[i] == Null
      {
        NormalizedItem(items, i);
        SameAsNormalized(items[i], strict);
      }
      if items != [] { NormalizedItem(items, 0); }
    case Object(fields) => ObjectAsNormalized(fields, strict);
    case _ =>
  }

  lemma {:induction false} ObjectAsNormalized(fields: seq<Field>, strict: bool)
    requires Good(Object(fields))
    ensures Same(Object(fields), Normalized(Object(fields)), strict) <==> strict ==> DollarsDefined(Object(fields))
    decreases fields
  {
    var ns := NormalizedFields(fields);
    NormalizedGet(fields, "$");
    forall i | 0 <= i < |fields| && !fields[i].value.Undefined?
      ensures Get(ns, fields[i].key) == Some(Normalized(fields[i].value))
      ensures Same(fields[i].value, Normalized(fields[i].value), strict) <==> strict ==> DollarsDefined(fields[i].value)
    {
      GetOwn(fields, i);
      NormalizedGet(fields, fields[i].key);
      SameAsNormalized(fields[i].value, strict);
    }
    forall i | 0 <= i < |ns|
      ensures Get(fields, ns[i].key).Some?
    {
      NormalizedOrigin(fields, i);
      var j :| 0 <= j < |fields| && !fields[j].value.Undefined? && ns[i].key == fields[j].key;
      GetOwn(fields, j);
    }
    if Owns(fields, "$") && Get(fields, "$").Some? { OwnsWhatItGets(fields, "$"); }
    if Get(fields, "$").Some? { OwnsWhatItGets(fields, "$"); }
  }

  /**
   * An object somewhere inside that owns an undefined "$" is enough: such a value
   * and its normalised form are the same value, and their keys differ.
   */
  lemma UndefinedDollarBreaksTheKey(v: Value)
    requires Good(v) && !DollarsDefined(v)
    ensures Good(Normalized(v)) && DollarsDefined(Normalized(v))
    ensures Same(v, Normalized(v), false) && Key(v) != Key(Normalized(v))
  {
    hide Same;
    NormalizedIsGood(v);
    SameAsNormalized(v, false);
    SameAsNormalized(v, true);
    RoundTrip(v);
    RoundTrip(Normalized(v));
    SameKeyIff(v, Normalized(v));
  }

  /** The smallest case: an object whose only own key is an undefined "$", and the empty object. */
  lemma SmallestBrokenKey()
    ensures var v := Object([Field("$", Undefined)]);
            Same(v, Object([]), false) && Key(v).Some? && Key(Object([])).Some? && Key(v) != Key(Object([]))
  {
    var v := Object([Field("$", Undefined)]);
    assert v.fields[0].key == "$";
    assert Owns(v.fields, "$");
    assert v.fields[1..] == [];
    assert NormalizedFields(v.fields) == [] + NormalizedFields(v.fields[1..]);
    UndefinedDollarBreaksTheKey(v);
    RoundTrip(v);
    RoundTrip(Object([]));
  }
}
