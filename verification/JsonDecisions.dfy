/** Exactly which JSON values are read as values, and what their labels, texts and members mean. */
module JsonDecisions {
  import opened Errors
  import opened Octets
  import opened Cbor
  import opened JsonBridge
  import Base64

  // ---- Labels ----

  function Decimally(digits: Bytes): nat
    requires forall i | 0 <= i < |digits| :: 48 <= digits[i] <= 57
  {
    if digits == [] then 0 else Decimally(digits[..|digits| - 1]) * 10 + (digits[|digits| - 1] - 48)
  }

  /** One digit or more, that together mean `n`. */
  predicate AreDigits(text: Bytes, n: nat) {
    text != [] && (forall i | 0 <= i < |text| :: 48 <= text[i] <= 57) && Decimally(text) == n
  }

  /** The name of a label: its digits, leading zeros and one plus sign allowed, within 64 bits. */
  predicate Names(text: Bytes, n: nat) {
    n <= 18_446_744_073_709_551_615 && (AreDigits(text, n) || (text != [] && text[0] == 43 && AreDigits(text[1..], n)))
  }

  ghost predicate IsLabel(text: Bytes) {
    exists n: nat :: Names(text, n)
  }

  lemma {:induction false} DigitsExactly(text: Bytes)
    ensures Digits(text).Some? <==> forall i | 0 <= i < |text| :: 48 <= text[i] <= 57
    ensures Digits(text).Some? ==> Digits(text).value == Decimally(text)
  {
    if text != [] {
      DigitsExactly(text[..|text| - 1]);
      assert forall i | 0 <= i < |text| - 1 :: text[i] == text[..|text| - 1][i];
    }
  }

  lemma LabelsExactly(text: Bytes, n: nat)
    ensures ParseLabel(text) == Some(n) <==> Names(text, n)
  {
    DigitsExactly(text);
    if text != [] {
      DigitsExactly(text[1..]);
    }
  }

  // ---- Values ----

  /** A text behind the octets of `base64:` is the encoding of some octets. */
  ghost predicate TextReads(text: Bytes) {
    [98, 97, 115, 101, 54, 52, 58] <= text ==>
      exists octets: Bytes :: text == [98, 97, 115, 101, 54, 52, 58] + Base64.Encode(octets)
  }

  /** Integers of 64 bits, texts that read, and objects all of whose names are labels. */
  ghost predicate Reads(j: Json) {
    match j
    case JNumber(number) => number <= 18_446_744_073_709_551_615
    case JOtherNumber => false
    case JString(text) => TextReads(text)
    case JArray(items) => forall i | 0 <= i < |items| :: Reads(items[i])
    case JObject(members) => forall i | 0 <= i < |members| :: IsLabel(members[i].name) && Reads(members[i].value)
    case _ => true
  }

  lemma TextsExactly(text: Bytes)
    ensures FromString(text).Ok? <==> TextReads(text)
    ensures forall octets: Bytes | text == [98, 97, 115, 101, 54, 52, 58] + Base64.Encode(octets) ::
              FromString(text) == Ok(ByteString(octets))
    ensures !([98, 97, 115, 101, 54, 52, 58] <= text) ==> FromString(text) == Ok(TextString(text))
  {
    hide Base64.Encode, Base64.Decode;
    forall octets: Bytes | text == [98, 97, 115, 101, 54, 52, 58] + Base64.Encode(octets)
      ensures FromString(text) == Ok(ByteString(octets))
    {
      BytesReturn(octets);
    }
    if PREFIX <= text && Base64.Decode(text[|PREFIX|..]).Ok? {
      Base64.EncodeInvertsDecode(text[|PREFIX|..]);
      assert text == PREFIX + text[|PREFIX|..];
    }
  }

  /** A JSON value is read exactly if every number, text and name in it is. */
  lemma {:induction false} ReadsExactly(j: Json)
    ensures FromJson(j).Ok? <==> Reads(j)
    decreases j, 1
  {
    hide FromString, FromItems, FromMembers, TextReads, IsLabel;
    match j
    case JString(text) => TextsExactly(text);
    case JArray(items) =>
      ItemsMean(items);
      forall i | 0 <= i < |items|
        ensures FromJson(items[i]).Ok? <==> Reads(items[i])
      {
        ReadsExactly(items[i]);
      }
    case JObject(members) =>
      MembersMean(members);
      forall i | 0 <= i < |members|
        ensures FromJson(members[i].value).Ok? <==> Reads(members[i].value)
      {
        ReadsExactly(members[i].value);
      }
    case _ =>
  }

  /** An array is read item by item. */
  lemma {:induction false} ItemsMean(items: seq<Json>)
    ensures FromItems(items).Ok? <==> forall i | 0 <= i < |items| :: FromJson(items[i]).Ok?
    ensures FromItems(items).Ok? ==>
              && |FromItems(items).value| == |items|
              && forall i | 0 <= i < |items| :: FromJson(items[i]) == Ok(FromItems(items).value[i])
  {
    hide FromJson;
    if items != [] {
      ItemsMean(items[1..]);
      assert forall i | 0 < i < |items| :: items[i] == items[1..][i - 1];
    }
  }

  /** The `i`-th member is the last whose name means the label. */
  predicate IsLast(members: seq<Member>, i: nat, n: nat) {
    && i < |members| && Names(members[i].name, n)
    && forall k | i < k < |members| :: !Names(members[k].name, n)
  }

  predicate Named(members: seq<Member>, n: nat) {
    exists i | 0 <= i < |members| :: Names(members[i].name, n)
  }

  /** An object is read if all its members are; under each label that is named stands the last member that names it. */
  lemma {:induction false} MembersMean(members: seq<Member>)
    ensures FromMembers(members).Ok? <==>
            forall i | 0 <= i < |members| :: IsLabel(members[i].name) && FromJson(members[i].value).Ok?
    ensures FromMembers(members).Ok? ==>
              && (forall n: nat :: n in FromMembers(members).value <==> Named(members, n))
              && forall n: nat, i: nat | i < |members| && IsLast(members, i, n) && n in FromMembers(members).value ::
                   FromJson(members[i].value) == Ok(FromMembers(members).value[n])
  {
    hide FromJson, FromMember, Names, IsLabel, IsLast, Named;
    if members == [] {
      NothingNamed();
    } else {
      MembersMean(members[1..]);
      FirstMemberReads(members[0]);
      assert forall i | 0 < i < |members| :: members[i] == members[1..][i - 1];
      assert forall i | 0 <= i < |members[1..]| :: members[1..][i] == members[i + 1];
      forall n: nat
        ensures Named(members, n) <==> Names(members[0].name, n) || Named(members[1..], n)
      {
        NamedStep(members, n);
      }
      if FromMembers(members).Ok? {
        forall n: nat, i: nat | i < |members| && IsLast(members, i, n)
          ensures n in FromMembers(members).value && FromJson(members[i].value) == Ok(FromMembers(members).value[n])
        {
          LastStep(members, i, n);
        }
      }
    }
  }

  lemma NothingNamed()
    ensures forall n: nat :: !Named([], n)
    ensures forall n: nat, i: nat :: !IsLast([], i, n)
  {
  }

  lemma NamedStep(members: seq<Member>, n: nat)
    requires members != []
    ensures Named(members, n) <==> Names(members[0].name, n) || Named(members[1..], n)
  {
    hide Names;
    if Named(members[1..], n) {
      var i :| 0 <= i < |members[1..]| && Names(members[1..][i].name, n);
      assert members[i + 1] == members[1..][i];
    }
  }

  lemma LastStep(members: seq<Member>, i: nat, n: nat)
    requires IsLast(members, i, n)
    ensures if i == 0 then Names(members[0].name, n) && !Named(members[1..], n)
            else IsLast(members[1..], i - 1, n) && Named(members[1..], n) && members[1..][i - 1] == members[i]
  {
    hide Names;
  }

  lemma FirstMemberReads(member: Member)
    ensures FromMember(member).Ok? <==> IsLabel(member.name) && FromJson(member.value).Ok?
    ensures FromMember(member).Ok? ==>
              FromJson(member.value) == Ok(FromMember(member).value.1)
              && forall n :: Names(member.name, n) <==> n == FromMember(member).value.0
  {
    hide FromJson, Names, ParseLabel;
    forall n: nat
      ensures ParseLabel(member.name) == Some(n) <==> Names(member.name, n)
    {
      LabelsExactly(member.name, n);
    }
  }
}
