/**
 Tag-length-value encoding: tags and lengths in the form of section 8.1.3 of ITU-T X.690, the client's and the
 test helpers' encoders, and the field-by-field parser that every structure shares.
 */
module Tlv {
  import opened Bytes

  // ---------------------------------------------------------------- tags and lengths

  /** tlv.py: der_encode */
  function DerEncode(value: u32): (r: seq<byte>)
    ensures |r| >= 1
  {
    if value < 0x80 then [value]
    else
      MinLenIsShortest(value, 4);
      Pow256Values();
      [0x80 + MinLen(value)] + MinBE(value)
  }

  /** tlv_helpers.h: der_encode, which keeps the low 24 bits of a long value. */
  function DerEncodeC(value: u32): seq<byte> {
    if value < 0x80 then [value]
    else if value <= 0xff then [0x81, value]
    else if value <= 0xffff then [0x82, value / 0x100, value % 0x100]
    else [0x83, value / 0x1_0000 % 0x100, value / 0x100 % 0x100, value % 0x100]
  }

  /** Reads a tag or a length from the front of bs: one byte, or a count of one to four bytes and that many. */
  function ReadDer(bs: seq<byte>): (r: Option<(nat, seq<byte>)>)
    ensures r.Some? ==> |r.value.1| < |bs|
  {
    if bs == [] then None
    else if bs[0] < 0x80 then Some((bs[0], bs[1..]))
    else
      var n := bs[0] - 0x80;
      if 1 <= n <= 4 && 1 + n <= |bs| then Some((FromBE(bs[1..1 + n]), bs[1 + n..])) else None
  }

  lemma ReadDerInverts(value: u32, rest: seq<byte>)
    ensures ReadDer(DerEncode(value) + rest) == Some((value, rest))
  {
    hide BE, FromBE, MinLen;
    var bs := DerEncode(value) + rest;
    if value < 0x80 {
      assert bs[1..] == rest;
    } else {
      MinLenIsShortest(value, 4);
      Pow256Values();
      var n := MinLen(value);
      assert bs == [0x80 + n] + (MinBE(value) + rest);
      assert bs[1..1 + n] == MinBE(value) && bs[1 + n..] == rest;
      FromBEInvertsMinBE(value);
    }
  }

  lemma BEStep(n: nat, k: nat)
    ensures BE(n, 0) == [] && BE(n, k + 1) == BE(n / 0x100, k) + [n % 0x100]
  {
  }

  lemma OneByte(n: nat)
    ensures BE(n, 1) == [n % 0x100]
  {
    BEStep(n, 0);
  }

  lemma TwoBytes(n: nat)
    ensures BE(n, 2) == [n / 0x100 % 0x100, n % 0x100]
  {
    hide BE;
    BEStep(n, 1);
    OneByte(n / 0x100);
  }

  lemma ThreeBytes(n: nat)
    ensures BE(n, 3) == [n / 0x1_0000 % 0x100, n / 0x100 % 0x100, n % 0x100]
  {
    hide BE;
    BEStep(n, 2);
    TwoBytes(n / 0x100);
    assert n / 0x100 / 0x100 == n / 0x1_0000;
  }

  /** The two encoders agree on exactly the values below 2^24. */
  lemma EncodersAgree(value: u32)
    ensures DerEncodeC(value) == DerEncode(value) <==> value < 0x100_0000
  {
    hide BE, MinLen, Pow256;
    Pow256Values();
    MinLenIsShortest(value, 1);
    MinLenIsShortest(value, 2);
    MinLenIsShortest(value, 3);
    OneByte(value);
    TwoBytes(value);
    ThreeBytes(value);
  }

  // ---------------------------------------------------------------- fields

  datatype Field = Field(tag: nat, value: seq<byte>, raw: seq<byte>)

  /** tlv.py: serialize_field, for a value already turned into bytes. */
  function PrintField(tag: u32, value: seq<byte>): seq<byte>
    requires |value| < 0x1_0000_0000
  {
    DerEncode(tag) + DerEncode(|value|) + value
  }

  function ReadField(bs: seq<byte>): (r: Option<(Field, seq<byte>)>)
    ensures r.Some? ==> |r.value.1| < |bs|
  {
    var (tag, b1) :- ReadDer(bs);
    var (len, b2) :- ReadDer(b1);
    if |b2| < len then None
    else Some((Field(tag, b2[..len], bs[..|bs| - (|b2| - len)]), b2[len..]))
  }

  lemma ReadFieldInverts(tag: u32, value: seq<byte>, rest: seq<byte>)
    requires |value| < 0x1_0000_0000
    ensures ReadField(PrintField(tag, value) + rest) == Some((Field(tag, value, PrintField(tag, value)), rest))
  {
    hide ReadDer, DerEncode;
    var bs := PrintField(tag, value) + rest;
    ReadDerInverts(tag, DerEncode(|value|) + (value + rest));
    assert bs == DerEncode(tag) + (DerEncode(|value|) + (value + rest));
    ReadDerInverts(|value|, value + rest);
    assert (value + rest)[..|value|] == value && (value + rest)[|value|..] == rest;
    assert bs[..|bs| - |rest|] == PrintField(tag, value);
  }

  // ---------------------------------------------------------------- the shared parser

  /** One structure: its tags, each marked unique or repeatable, and what its handlers do with a field. */
  datatype Spec<!S> = Spec(tags: map<nat, bool>, handle: (Field, S) -> Option<S>)

  /** A field is refused when its tag is unknown, or unique and already received. */
  predicate Admits<S>(spec: Spec<S>, received: set<nat>, tag: nat) {
    tag in spec.tags && !(spec.tags[tag] && tag in received)
  }

  function RunTlv<S>(spec: Spec<S>, bs: seq<byte>, received: set<nat>, out: S): Option<S>
    decreases |bs|
  {
    if bs == [] then Some(out) else
    var (f, rest) :- ReadField(bs);
    if !Admits(spec, received, f.tag) then None else
    var next :- spec.handle(f, out);
    RunTlv(spec, rest, received + {f.tag}, next)
  }

  /** The parser loop: reads a field, hands it over, and stops at the first refusal. */
  method ParseTlv<S>(spec: Spec<S>, payload: seq<byte>, init: S) returns (r: Option<S>)
    ensures r == RunTlv(spec, payload, {}, init)
  {
    var rest, received, out := payload, {}, init;
    while rest != []
      invariant RunTlv(spec, payload, {}, init) == RunTlv(spec, rest, received, out)
      decreases |rest|
    {
      var field := ReadField(rest);
      if field.None? || !Admits(spec, received, field.value.0.tag) {
        return None;
      }
      var next := spec.handle(field.value.0, out);
      if next.None? {
        return None;
      }
      rest, received, out := field.value.1, received + {field.value.0.tag}, next.value;
    }
    return Some(out);
  }

  // ---------------------------------------------------------------- printing and parsing back

  type Item = i: (u32, seq<byte>) | |i.1| < 0x1_0000_0000 witness (0, [])

  function PrintItem(i: Item): seq<byte> {
    PrintField(i.0, i.1)
  }

  function PrintItems(items: seq<Item>): seq<byte> {
    FlatMap(PrintItem, items)
  }

  function ItemField(i: Item): Field {
    Field(i.0, i.1, PrintField(i.0, i.1))
  }

  function TagSet(items: seq<Item>): set<nat> {
    set i | 0 <= i < |items| :: items[i].0
  }

  /** No unique tag comes twice, and all tags are known. */
  ghost predicate Admissible<S>(spec: Spec<S>, items: seq<Item>) {
    forall j :: 0 <= j < |items| ==>
      items[j].0 in spec.tags &&
      (spec.tags[items[j].0] ==> forall i :: 0 <= i < j ==> items[i].0 != items[j].0)
  }

  /** outs lists the states that the handlers go through on items. */
  ghost predicate Handles<S>(spec: Spec<S>, items: seq<Item>, outs: seq<S>) {
    |outs| == |items| + 1 &&
    forall i :: 0 <= i < |items| ==> spec.handle(ItemField(items[i]), outs[i]) == Some(outs[i + 1])
  }

  lemma {:induction false} RunPrintedFrom<S>(spec: Spec<S>, items: seq<Item>, outs: seq<S>, k: nat)
    requires k <= |items| && Admissible(spec, items) && Handles(spec, items, outs)
    ensures RunTlv(spec, PrintItems(items[k..]), TagSet(items[..k]), outs[k]) == Some(outs[|items|])
    decreases |items| - k
  {
    hide ReadField, PrintField;
    if k < |items| {
      var item, tail := items[k], PrintItems(items[k + 1..]);
      assert items[k..] == [item] + items[k + 1..];
      FlatMapCons(PrintItem, item, items[k + 1..]);
      ReadFieldInverts(item.0, item.1, tail);
      assert PrintItems(items[k..]) == PrintField(item.0, item.1) + tail;
      assert PrintItems(items[k..]) != [] by { assert |PrintField(item.0, item.1)| >= 1 by { PrintFieldNonEmpty(item); } }
      assert TagSet(items[..k + 1]) == TagSet(items[..k]) + {item.0} by { TagSetSnoc(items, k); }
      RunPrintedFrom(spec, items, outs, k + 1);
    }
  }

  lemma PrintFieldNonEmpty(i: Item)
    ensures |PrintField(i.0, i.1)| >= 1
  {
  }

  lemma TagSetSnoc(items: seq<Item>, k: nat)
    requires k < |items|
    ensures TagSet(items[..k + 1]) == TagSet(items[..k]) + {items[k].0}
  {
    forall t ensures t in TagSet(items[..k + 1]) <==> t in TagSet(items[..k]) + {items[k].0} {
      if t in TagSet(items[..k + 1]) {
        var i :| 0 <= i < k + 1 && items[..k + 1][i].0 == t;
        if i < k {
          assert items[..k][i].0 == t;
        }
      }
      if t in TagSet(items[..k]) {
        var i :| 0 <= i < k && items[..k][i].0 == t;
        assert items[..k + 1][i].0 == t;
      }
      assert items[..k + 1][k].0 == items[k].0;
    }
  }

  /** Printed fields are handed to the handlers one by one, in order. */
  lemma RunPrinted<S>(spec: Spec<S>, items: seq<Item>, outs: seq<S>)
    requires Admissible(spec, items) && Handles(spec, items, outs)
    ensures RunTlv(spec, PrintItems(items), {}, outs[0]) == Some(outs[|items|])
  {
    RunPrintedFrom(spec, items, outs, 0);
    assert items[0..] == items && TagSet(items[..0]) == {};
  }

  /** One printed field in front of anything else. */
  lemma RunPrintedField<S>(spec: Spec<S>, item: Item, rest: seq<byte>, received: set<nat>, out: S, next: S)
    requires Admits(spec, received, item.0) && spec.handle(ItemField(item), out) == Some(next)
    ensures RunTlv(spec, PrintItem(item) + rest, received, out) == RunTlv(spec, rest, received + {item.0 as nat}, next)
  {
    ReadFieldInverts(item.0, item.1, rest);
    PrintFieldNonEmpty(item);
  }

  /** What every admitted field keeps, a successful run keeps. */
  lemma {:induction false} RunKeeps<S(!new)>(spec: Spec<S>, inv: (set<nat>, S) -> bool, bs: seq<byte>,
                                             received: set<nat>, out: S)
    requires inv(received, out)
    requires forall rec, s, f: Field, next ::
               inv(rec, s) && Admits(spec, rec, f.tag) && spec.handle(f, s) == Some(next) ==> inv(rec + {f.tag}, next)
    requires RunTlv(spec, bs, received, out).Some?
    ensures exists rec :: inv(rec, RunTlv(spec, bs, received, out).value)
    decreases |bs|
  {
    if bs != [] {
      var (f, rest) := ReadField(bs).value;
      RunKeeps(spec, inv, rest, received + {f.tag}, spec.handle(f, out).value);
    }
  }

  // ---------------------------------------------------------------- reading field values

  /** An unsigned value of one to eight bytes, refused above max. */
  function GetUint(v: seq<byte>, max: nat): (r: Option<nat>)
    ensures r.Some? ==> r.value <= max
  {
    if 1 <= |v| <= 8 && FromBE(v) <= max then Some(FromBE(v)) else None
  }

  function GetU32(v: seq<byte>): Option<u32> {
    var n :- GetUint(v, 0xffff_ffff); Some(n)
  }

  function GetU64(v: seq<byte>): Option<u64> {
    var n :- GetUint(v, 0xffff_ffff_ffff_ffff); Some(n)
  }

  function GetBool(v: seq<byte>): Option<bool> {
    var n :- GetUint(v, 1); Some(n == 1)
  }

  lemma GetUintInverts(n: nat, max: nat)
    requires n <= max <= 0xffff_ffff_ffff_ffff
    ensures GetUint(MinBE(n), max) == Some(n) && |MinBE(n)| <= 8
  {
    hide BE, FromBE, MinLen, Pow256;
    Pow256Values();
    MinLenIsShortest(n, 8);
    FromBEInvertsMinBE(n);
  }

  /** encode_int_be of the test helpers: eight shifted bytes, of which the leading zero bytes are skipped. */
  method EncodeIntBE(value: u64) returns (r: seq<byte>)
    ensures r == MinBE(value)
  {
    var tmp := BE(value, 8);
    var start := 0;
    Pow256Values();
    FromBEInvertsBE(value, 8);
    assert tmp == Zeros(0) + tmp[0..];
    while start < 7 && tmp[start] == 0
      invariant 0 <= start <= 7
      invariant tmp == Zeros(start) + tmp[start..]
    {
      assert tmp[start..] == [0] + tmp[start + 1..];
      start := start + 1;
    }
    r := tmp[start..];
    FromBELeadingZeros(start, r);
    MinimalIsMinBE(r);
  }

  /** A form without leading zero byte is the shortest one. */
  lemma MinimalIsMinBE(r: seq<byte>)
    requires |r| == 1 || (|r| > 1 && r[0] != 0)
    ensures r == MinBE(FromBE(r))
  {
    var n := FromBE(r);
    BEInvertsFromBE(r);
    MinLenIsShortest(n, |r|);
    if |r| > 1 {
      LeadingByteMatters(r);
      MinLenIsShortest(n, |r| - 1);
    }
  }

  lemma {:induction false} LeadingByteMatters(r: seq<byte>)
    requires |r| >= 1 && r[0] != 0
    ensures FromBE(r) >= Pow256(|r| - 1)
  {
    if |r| > 1 {
      LeadingByteMatters(r[..|r| - 1]);
    } else {
      assert r[..0] == [];
    }
  }
}
