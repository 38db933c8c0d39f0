/**
 The conformance executor's bridge between CBOR values and JSON (src/conformance/executor.rs):
 octets travel as prefixed base64 text, and labels as decimal names. In what order an
 object lists its members is a parameter: any order will do.
 */
module JsonBridge {
  import opened Errors
  import opened Integers
  import opened Octets
  import opened Cbor
  import Base64

  datatype Member = Member(name: Bytes, value: Json)

  datatype Json =
    | JNull
    | JBool(flag: bool)
    | JNumber(number: nat)
    | JOtherNumber
    | JString(text: Bytes)
    | JArray(items: seq<Json>)
    | JObject(members: seq<Member>)

  /** Octets of `base64:`. */
  const PREFIX: Bytes := [98, 97, 115, 101, 54, 52, 58]

  function Refuse<T>(): Result<T> {
    Err(Errors.Invalid(InvalidRepresentation))
  }

  // ---- Decimal labels ----

  function Decimal(n: nat): (text: Bytes)
    ensures text != [] && forall i | 0 <= i < |text| :: 48 <= text[i] <= 57
  {
    if n < 10 then [48 + n] else Decimal(n / 10) + [48 + n % 10]
  }

  function Digits(text: Bytes): Option<nat> {
    if text == [] then Some(0)
    else
      var last := text[|text| - 1];
      var front := Digits(text[..|text| - 1]);
      if front.None? || last < 48 || last > 57 then None else Some(front.value * 10 + (last - 48))
  }

  /** One optional plus sign, then at least one digit, within 64 bits. */
  function ParseLabel(text: Bytes): Option<nat> {
    var body := if text != [] && text[0] == 43 then text[1..] else text;
    if body == [] then None
    else
      var n := Digits(body);
      if n.None? || n.value > MAX_U64 then None else n
  }

  lemma {:induction false} DecimalReadsBack(n: nat)
    ensures Digits(Decimal(n)) == Some(n)
  {
    if n < 10 {
      assert Decimal(n)[..0] == [];
    } else {
      DecimalReadsBack(n / 10);
      assert Decimal(n)[..|Decimal(n)| - 1] == Decimal(n / 10);
    }
  }

  lemma LabelsReadBack(n: nat)
    requires n <= MAX_U64
    ensures ParseLabel(Decimal(n)) == Some(n)
  {
    DecimalReadsBack(n);
  }

  // ---- From JSON ----

  function FromString(text: Bytes): Result<CborValue> {
    if PREFIX <= text then
      var octets :- Base64.Decode(text[|PREFIX|..]);
      Ok(ByteString(octets))
    else Ok(TextString(text))
  }

  function FromJson(j: Json): Result<CborValue>
    decreases j, 1
  {
    match j
    case JNull => Ok(Null)
    case JBool(flag) => Ok(Boolean(flag))
    case JNumber(number) => if number <= MAX_U64 then Ok(Unsigned(number)) else Refuse()
    case JOtherNumber => Refuse()
    case JString(text) => FromString(text)
    case JArray(items) =>
      var values :- FromItems(items);
      Ok(Array(values))
    case JObject(members) =>
      var entries :- FromMembers(members);
      Ok(Map(entries))
  }

  function FromItems(items: seq<Json>): Result<seq<CborValue>>
    decreases items, 0
  {
    if items == [] then Ok([])
    else
      var head :- FromJson(items[0]);
      var tail :- FromItems(items[1..]);
      Ok([head] + tail)
  }

  function FromMember(member: Member): Result<(nat, CborValue)>
    decreases member, 0
  {
    var key := ParseLabel(member.name);
    if key.None? then Refuse()
    else
      var value :- FromJson(member.value);
      Ok((key.value, value))
  }

  /** Members in order; a later one replaces an earlier one whose name means the same label. */
  function FromMembers(members: seq<Member>): Result<map<nat, CborValue>>
    decreases members, 0
  {
    if members == [] then Ok(map[])
    else
      var (key, value) :- FromMember(members[0]);
      var rest :- FromMembers(members[1..]);
      Ok(map[key := value] + rest)
  }

  // ---- To JSON ----

  type Order = set<nat> -> seq<nat>

  ghost predicate Lists(order: Order) {
    forall s: set<nat> :: NoRepeats(order(s)) && forall k :: k in order(s) <==> k in s
  }

  function ToJson(order: Order, v: CborValue): Json
    requires Lists(order)
    decreases v, 1, 0
  {
    match v
    case Null => JNull
    case Unsigned(number) => JNumber(number)
    case ByteString(bytes) => JString(PREFIX + Base64.Encode(bytes))
    case TextString(text) => JString(text)
    case Boolean(flag) => JBool(flag)
    case Array(items) => JArray(ToItems(order, items))
    case Map(entries) => JObject(ToMembers(order, v, order(entries.Keys)))
  }

  function ToItems(order: Order, items: seq<CborValue>): seq<Json>
    requires Lists(order)
    decreases items, 0, 0
  {
    if items == [] then [] else [ToJson(order, items[0])] + ToItems(order, items[1..])
  }

  function ToMembers(order: Order, v: CborValue, keys: seq<nat>): seq<Member>
    requires Lists(order) && v.Map? && forall k | k in keys :: k in v.entries
    decreases v, 0, |keys|
  {
    if keys == [] then []
    else [Member(Decimal(keys[0]), ToJson(order, v.entries[keys[0]]))] + ToMembers(order, v, keys[1..])
  }

  // ---- There and back ----

  /** Integers and labels fit 64 bits, as they do in the source's type. */
  predicate Fits64(v: CborValue) {
    match v
    case Unsigned(number) => number <= MAX_U64
    case Array(items) => forall i | 0 <= i < |items| :: Fits64(items[i])
    case Map(entries) => forall k | k in entries :: k <= MAX_U64 && Fits64(entries[k])
    case _ => true
  }

  /** No text anywhere in the value looks like prefixed base64. */
  predicate PlainTexts(v: CborValue) {
    match v
    case TextString(text) => !(PREFIX <= text)
    case Array(items) => forall i | 0 <= i < |items| :: PlainTexts(items[i])
    case Map(entries) => forall k | k in entries :: PlainTexts(entries[k])
    case _ => true
  }

  /** The bridge returns a value unchanged exactly when none of its texts starts with the base64 prefix. */
  lemma {:induction false} ReturnsExactlyPlainTexts(order: Order, v: CborValue)
    requires Lists(order) && Fits64(v)
    ensures FromJson(ToJson(order, v)) == Ok(v) <==> PlainTexts(v)
    decreases v, 1, 0
  {
    hide FromString, FromItems, FromMembers, ToItems, ToMembers, Base64.Encode, Part;
    match v
    case ByteString(bytes) => BytesReturn(bytes);
    case TextString(text) => TextReturns(text);
    case Array(items) => ItemsReturn(order, items);
    case Map(entries) =>
      MembersReturn(order, v, order(entries.Keys));
      AllIsPart(v, order(entries.Keys));
    case _ =>
  }

  lemma BytesReturn(bytes: Bytes)
    ensures FromString(PREFIX + Base64.Encode(bytes)) == Ok(ByteString(bytes))
  {
    Base64.DecodeInvertsEncode(bytes);
    assert (PREFIX + Base64.Encode(bytes))[|PREFIX|..] == Base64.Encode(bytes);
    assert PREFIX <= PREFIX + Base64.Encode(bytes);
  }

  lemma TextReturns(text: Bytes)
    ensures FromString(text) == Ok(TextString(text)) <==> !(PREFIX <= text)
  {
    hide Base64.Decode;
  }

  lemma AllIsPart(v: CborValue, keys: seq<nat>)
    requires v.Map? && forall k :: k in keys <==> k in v.entries
    ensures Part(v, keys) == v.entries
  {
  }

  lemma {:induction false} ItemsReturn(order: Order, items: seq<CborValue>)
    requires Lists(order) && forall i | 0 <= i < |items| :: Fits64(items[i])
    ensures FromItems(ToItems(order, items)) == Ok(items) <==> forall i | 0 <= i < |items| :: PlainTexts(items[i])
    decreases items, 0, 0
  {
    if items != [] {
      ReturnsExactlyPlainTexts(order, items[0]);
      ItemsReturn(order, items[1..]);
      ItemsStep(order, items);
    }
  }

  lemma ItemsStep(order: Order, items: seq<CborValue>)
    requires Lists(order) && items != []
    ensures FromItems(ToItems(order, items)) == Ok(items) <==>
            FromJson(ToJson(order, items[0])) == Ok(items[0]) && FromItems(ToItems(order, items[1..])) == Ok(items[1..])
    ensures (forall i | 0 <= i < |items| :: PlainTexts(items[i])) <==>
            PlainTexts(items[0]) && forall i | 0 <= i < |items[1..]| :: PlainTexts(items[1..][i])
  {
    hide FromJson, ToJson, PlainTexts;
    var json := ToItems(order, items);
    assert json[0] == ToJson(order, items[0]) && json[1..] == ToItems(order, items[1..]);
    assert items == [items[0]] + items[1..];
    if forall i | 0 <= i < |items[1..]| :: PlainTexts(items[1..][i]) {
      assert forall i | 0 < i < |items| :: items[i] == items[1..][i - 1];
    }
  }

  function Part(v: CborValue, keys: seq<nat>): map<nat, CborValue>
    requires v.Map? && forall k | k in keys :: k in v.entries
  {
    map k | k in keys :: v.entries[k]
  }

  /** Listed members return exactly when their values do. */
  lemma {:induction false} MembersReturn(order: Order, v: CborValue, keys: seq<nat>)
    requires Lists(order) && v.Map? && NoRepeats(keys) && forall k | k in keys :: k in v.entries
    requires forall k | k in v.entries :: k <= MAX_U64 && Fits64(v.entries[k])
    ensures FromMembers(ToMembers(order, v, keys)).Ok? ==>
              FromMembers(ToMembers(order, v, keys)).value.Keys == Part(v, keys).Keys
    ensures FromMembers(ToMembers(order, v, keys)) == Ok(Part(v, keys)) <==> forall k | k in keys :: PlainTexts(v.entries[k])
    decreases v, 0, |keys|
  {
    if keys != [] {
      ReturnsExactlyPlainTexts(order, v.entries[keys[0]]);
      MembersReturn(order, v, keys[1..]);
      MembersStep(order, v, keys);
    }
  }

  lemma MemberReadsBack(key: nat, member: Member)
    requires key <= MAX_U64 && member.name == Decimal(key)
    ensures var r := FromJson(member.value);
            FromMember(member) == if r.Ok? then Ok((key, r.value)) else Err(r.error)
  {
    hide FromJson, ParseLabel, Decimal;
    LabelsReadBack(key);
  }

  lemma MembersStep(order: Order, v: CborValue, keys: seq<nat>)
    requires Lists(order) && v.Map? && keys != [] && NoRepeats(keys) && forall k | k in keys :: k in v.entries
    requires forall k | k in v.entries :: k <= MAX_U64 && Fits64(v.entries[k])
    requires FromMembers(ToMembers(order, v, keys[1..])).Ok? ==>
               FromMembers(ToMembers(order, v, keys[1..])).value.Keys == Part(v, keys[1..]).Keys
    ensures var r, rest := FromMembers(ToMembers(order, v, keys)), FromMembers(ToMembers(order, v, keys[1..]));
            var head := FromJson(ToJson(order, v.entries[keys[0]]));
            && (r.Ok? <==> head.Ok? && rest.Ok?)
            && (r.Ok? ==> r.value.Keys == Part(v, keys).Keys)
            && (r == Ok(Part(v, keys)) <==> head == Ok(v.entries[keys[0]]) && rest == Ok(Part(v, keys[1..])))
    ensures (forall k | k in keys :: PlainTexts(v.entries[k])) <==>
            PlainTexts(v.entries[keys[0]]) && forall k | k in keys[1..] :: PlainTexts(v.entries[k])
  {
    hide FromJson, ToJson, PlainTexts, Fits64, FromMember, Decimal, ParseLabel, Part, Lists;
    assert keys[0] in keys && keys == [keys[0]] + keys[1..];
    FirstMember(order, v, keys);
    var rest := FromMembers(ToMembers(order, v, keys[1..]));
    var head := FromJson(ToJson(order, v.entries[keys[0]]));
    hide FromMembers, ToMembers, NoRepeats;
    if head.Ok? && rest.Ok? {
      JoinedPart(v, keys, head.value, rest.value);
    }
  }

  lemma FirstMember(order: Order, v: CborValue, keys: seq<nat>)
    requires Lists(order) && v.Map? && keys != [] && forall k | k in keys :: k in v.entries
    requires keys[0] <= MAX_U64
    ensures var r, rest := FromMembers(ToMembers(order, v, keys)), FromMembers(ToMembers(order, v, keys[1..]));
            var head := FromJson(ToJson(order, v.entries[keys[0]]));
            && (r.Ok? <==> head.Ok? && rest.Ok?)
            && (r.Ok? ==> r.value == map[keys[0] := head.value] + rest.value)
  {
    hide FromJson, ToJson, FromMember, Decimal, ParseLabel;
    var members := ToMembers(order, v, keys);
    assert members[0] == Member(Decimal(keys[0]), ToJson(order, v.entries[keys[0]]));
    assert members[1..] == ToMembers(order, v, keys[1..]);
    MemberReadsBack(keys[0], members[0]);
  }

  lemma JoinedPart(v: CborValue, keys: seq<nat>, head: CborValue, rest: map<nat, CborValue>)
    requires v.Map? && keys != [] && NoRepeats(keys) && forall k | k in keys :: k in v.entries
    requires rest.Keys == Part(v, keys[1..]).Keys
    ensures (map[keys[0] := head] + rest).Keys == Part(v, keys).Keys
    ensures map[keys[0] := head] + rest == Part(v, keys) <==> head == v.entries[keys[0]] && rest == Part(v, keys[1..])
  {
    var joined := map[keys[0] := head] + rest;
    assert keys == [keys[0]] + keys[1..];
    assert keys[0] !in rest && joined[keys[0]] == head;
    assert forall k | k in rest :: joined[k] == rest[k];
    if joined == Part(v, keys) {
      assert joined[keys[0]] == Part(v, keys)[keys[0]];
      assert rest == Part(v, keys[1..]) by {
        forall k | k in rest
          ensures rest[k] == Part(v, keys[1..])[k]
        {
          assert joined[k] == Part(v, keys)[k];
        }
      }
    }
  }
}
