/**
 The part of MessagePack that the cmp library writes for this application: the int, bool, str,
 array and map format families, each value in its smallest form. A serialized object is a sequence
 of tokens; a header token announces how many values follow it.
 */
module MessagePack {
  import opened Bytes

  type Text = s: seq<byte> | |s| < 0x1_0000_0000 witness []
  type Word = n: int | -0x8000_0000_0000_0000 <= n < 0x1_0000_0000_0000_0000

  datatype Token =
    | MapHdr(size: u32)
    | ArrHdr(count: u32)
    | Str(text: Text)
    | Int(n: Word)
    | Bool(b: bool)

  function EncInt(n: Word): (r: seq<byte>)
    ensures 1 <= |r| <= 9
  {
    if n >= 0 then
      if n < 0x80 then [n]
      else if n < 0x100 then [0xcc, n]
      else if n < 0x1_0000 then [0xcd] + BE(n, 2)
      else if n < 0x1_0000_0000 then [0xce] + BE(n, 4)
      else [0xcf] + BE(n, 8)
    else
      if n >= -32 then [0x100 + n]
      else if n >= -0x80 then [0xd0, 0x100 + n]
      else if n >= -0x8000 then [0xd1] + BE(n + 0x1_0000, 2)
      else if n >= -0x8000_0000 then [0xd2] + BE(n + 0x1_0000_0000, 4)
      else [0xd3] + BE(n + 0x1_0000_0000_0000_0000, 8)
  }

  function EncStrHdr(n: u32): (r: seq<byte>)
    ensures 1 <= |r| <= 5
    ensures n < 32 ==> |r| == 1
    ensures 32 <= n < 256 ==> |r| == 2
  {
    if n < 32 then [0xa0 + n]
    else if n < 0x100 then [0xd9, n]
    else if n < 0x1_0000 then [0xda] + BE(n, 2)
    else [0xdb] + BE(n, 4)
  }

  function EncMapHdr(n: u32): (r: seq<byte>)
    ensures 1 <= |r| <= 5
    ensures n < 16 ==> |r| == 1
  {
    if n < 16 then [0x80 + n]
    else if n < 0x1_0000 then [0xde] + BE(n, 2)
    else [0xdf] + BE(n, 4)
  }

  function EncArrHdr(n: u32): (r: seq<byte>)
    ensures 1 <= |r| <= 5
    ensures n < 16 ==> |r| == 1
  {
    if n < 16 then [0x90 + n]
    else if n < 0x1_0000 then [0xdc] + BE(n, 2)
    else [0xdd] + BE(n, 4)
  }

  function EncToken(t: Token): (r: seq<byte>)
    ensures |r| >= 1
  {
    match t
    case MapHdr(n) => EncMapHdr(n)
    case ArrHdr(n) => EncArrHdr(n)
    case Str(s) => EncStrHdr(|s|) + s
    case Int(n) => EncInt(n)
    case Bool(b) => if b then [0xc3] else [0xc2]
  }

  function Enc(ts: seq<Token>): seq<byte> {
    FlatMap(EncToken, ts)
  }

  // ---------------------------------------------------------------- decoding

  /** Reads an unsigned big-endian number of k bytes after the marker byte. */
  function DecNumber(bs: seq<byte>, k: nat): Option<nat> {
    if |bs| < 1 + k then None else Some(FromBE(bs[1..1 + k]))
  }

  function DecText(bs: seq<byte>, hdr: nat, n: nat): (r: Option<(Token, seq<byte>)>)
    requires 1 <= hdr
    ensures r.Some? ==> |r.value.1| < |bs|
  {
    if |bs| < hdr + n || n >= 0x1_0000_0000 then None else Some((Str(bs[hdr..hdr + n]), bs[hdr + n..]))
  }

  function SignedOf(n: nat, bits: nat): int {
    if n < bits then n else n - 2 * bits
  }

  /** The value of one header or scalar, as the MessagePack specification reads it, and the bytes after it. */
  function DecToken(bs: seq<byte>): (r: Option<(Token, seq<byte>)>)
    ensures r.Some? ==> |r.value.1| < |bs|
  {
    if bs == [] then None else
    var m := bs[0];
    if m < 0x80 then Some((Int(m), bs[1..]))
    else if m < 0x90 then Some((MapHdr(m - 0x80), bs[1..]))
    else if m < 0xa0 then Some((ArrHdr(m - 0x90), bs[1..]))
    else if m < 0xc0 then DecText(bs, 1, m - 0xa0)
    else if m == 0xc2 then Some((Bool(false), bs[1..]))
    else if m == 0xc3 then Some((Bool(true), bs[1..]))
    else if m == 0xcc then DecUnsigned(bs, 1)
    else if m == 0xcd then DecUnsigned(bs, 2)
    else if m == 0xce then DecUnsigned(bs, 4)
    else if m == 0xcf then DecUnsigned(bs, 8)
    else if m == 0xd0 then DecSigned(bs, 1, 0x80)
    else if m == 0xd1 then DecSigned(bs, 2, 0x8000)
    else if m == 0xd2 then DecSigned(bs, 4, 0x8000_0000)
    else if m == 0xd3 then DecSigned(bs, 8, 0x8000_0000_0000_0000)
    else if m == 0xd9 then (var n :- DecNumber(bs, 1); DecText(bs, 2, n))
    else if m == 0xda then (var n :- DecNumber(bs, 2); DecText(bs, 3, n))
    else if m == 0xdb then (var n :- DecNumber(bs, 4); DecText(bs, 5, n))
    else if m == 0xdc then (var n :- DecNumber(bs, 2); if n < 0x1_0000_0000 then Some((ArrHdr(n), bs[3..])) else None)
    else if m == 0xdd then (var n :- DecNumber(bs, 4); if n < 0x1_0000_0000 then Some((ArrHdr(n), bs[5..])) else None)
    else if m == 0xde then (var n :- DecNumber(bs, 2); if n < 0x1_0000_0000 then Some((MapHdr(n), bs[3..])) else None)
    else if m == 0xdf then (var n :- DecNumber(bs, 4); if n < 0x1_0000_0000 then Some((MapHdr(n), bs[5..])) else None)
    else if m >= 0xe0 then Some((Int(m as int - 0x100), bs[1..]))
    else None
  }

  function DecUnsigned(bs: seq<byte>, k: nat): (r: Option<(Token, seq<byte>)>)
    ensures r.Some? ==> |r.value.1| < |bs|
  {
    var n :- DecNumber(bs, k);
    if n < 0x1_0000_0000_0000_0000 then Some((Int(n), bs[1 + k..])) else None
  }

  function DecSigned(bs: seq<byte>, k: nat, bits: nat): (r: Option<(Token, seq<byte>)>)
    ensures r.Some? ==> |r.value.1| < |bs|
  {
    var n :- DecNumber(bs, k);
    var v := SignedOf(n, bits);
    if -0x8000_0000_0000_0000 <= v < 0x1_0000_0000_0000_0000 then Some((Int(v), bs[1 + k..])) else None
  }

  lemma DecNumberOfBE(m: byte, n: nat, k: nat, rest: seq<byte>)
    requires n < Pow256(k)
    ensures DecNumber([m] + BE(n, k) + rest, k) == Some(n)
    ensures ([m] + BE(n, k) + rest)[0] == m
    ensures ([m] + BE(n, k) + rest)[1 + k..] == rest
  {
    var bs := [m] + BE(n, k) + rest;
    assert bs[1..1 + k] == BE(n, k);
    FromBEInvertsBE(n, k);
  }

  lemma OneByteBE(n: byte)
    ensures BE(n, 1) == [n]
  {
    assert BE(n, 1) == BE(n / 256, 0) + [n % 256];
  }

  lemma DecIntInvertsEnc(n: Word, rest: seq<byte>)
    ensures DecToken(EncInt(n) + rest) == Some((Int(n), rest))
  {
    hide BE, FromBE;
    Pow256Values();
    var bs := EncInt(n) + rest;
    if -32 <= n < 0x80 {
      assert bs[1..] == rest;
    } else if 0 <= n < 0x100 {
      OneByteBE(n);
      assert bs == [0xcc] + BE(n, 1) + rest;
      DecNumberOfBE(0xcc, n, 1, rest);
    } else if 0 <= n < 0x1_0000 {
      DecNumberOfBE(0xcd, n, 2, rest);
    } else if 0 <= n < 0x1_0000_0000 {
      DecNumberOfBE(0xce, n, 4, rest);
    } else if 0 <= n {
      DecNumberOfBE(0xcf, n, 8, rest);
    } else if n >= -0x80 {
      OneByteBE(0x100 + n);
      assert bs == [0xd0] + BE(0x100 + n, 1) + rest;
      DecNumberOfBE(0xd0, 0x100 + n, 1, rest);
    } else if n >= -0x8000 {
      DecNumberOfBE(0xd1, n + 0x1_0000, 2, rest);
    } else if n >= -0x8000_0000 {
      DecNumberOfBE(0xd2, n + 0x1_0000_0000, 4, rest);
    } else {
      DecNumberOfBE(0xd3, n + 0x1_0000_0000_0000_0000, 8, rest);
    }
  }

  lemma DecStrInvertsEnc(s: Text, rest: seq<byte>)
    ensures DecToken(EncToken(Str(s)) + rest) == Some((Str(s), rest))
  {
    hide BE, FromBE;
    Pow256Values();
    var n, hdr := |s|, EncStrHdr(|s|);
    var bs := EncToken(Str(s)) + rest;
    assert bs == hdr + (s + rest);
    assert bs[|hdr|..|hdr| + n] == s && bs[|hdr| + n..] == rest;
    if 32 <= n < 0x100 {
      OneByteBE(n);
      assert bs == [0xd9] + BE(n, 1) + (s + rest);
      DecNumberOfBE(0xd9, n, 1, s + rest);
    } else if 0x100 <= n < 0x1_0000 {
      DecNumberOfBE(0xda, n, 2, s + rest);
    } else if 0x1_0000 <= n {
      DecNumberOfBE(0xdb, n, 4, s + rest);
    }
  }

  lemma DecHdrInvertsEnc(t: Token, rest: seq<byte>)
    requires t.MapHdr? || t.ArrHdr?
    ensures DecToken(EncToken(t) + rest) == Some((t, rest))
  {
    Pow256Values();
    var n := if t.MapHdr? then t.size else t.count;
    var bs := EncToken(t) + rest;
    if n < 16 {
      assert bs[1..] == rest;
    } else if n < 0x1_0000 {
      DecNumberOfBE(if t.MapHdr? then 0xde else 0xdc, n, 2, rest);
    } else {
      DecNumberOfBE(if t.MapHdr? then 0xdf else 0xdd, n, 4, rest);
    }
  }

  /** Every token is recovered from its smallest form, whatever follows it. */
  lemma DecTokenInvertsEnc(t: Token, rest: seq<byte>)
    ensures DecToken(EncToken(t) + rest) == Some((t, rest))
  {
    match t
    case MapHdr(_) => DecHdrInvertsEnc(t, rest);
    case ArrHdr(_) => DecHdrInvertsEnc(t, rest);
    case Str(s) => DecStrInvertsEnc(s, rest);
    case Int(n) => DecIntInvertsEnc(n, rest);
    case Bool(_) => assert (EncToken(t) + rest)[1..] == rest;
  }

  lemma NumberBound(bs: seq<byte>, k: nat)
    requires DecNumber(bs, k).Some?
    ensures |bs| >= 1 + k && DecNumber(bs, k).value < Pow256(k)
  {
    BEInvertsFromBE(bs[1..1 + k]);
  }

  lemma UnsignedIsShortest(bs: seq<byte>, k: nat)
    requires k in {1, 2, 4, 8} && DecUnsigned(bs, k).Some?
    ensures var (t, rest) := DecUnsigned(bs, k).value; |EncToken(t)| + |rest| <= |bs|
  {
    hide BE, DecNumber;
    Pow256Values();
    NumberBound(bs, k);
  }

  lemma SignedIsShortest(bs: seq<byte>, k: nat, bits: nat)
    requires k in {1, 2, 4, 8} && 2 * bits == Pow256(k) && DecSigned(bs, k, bits).Some?
    ensures var (t, rest) := DecSigned(bs, k, bits).value; |EncToken(t)| + |rest| <= |bs|
  {
    hide BE, DecNumber;
    Pow256Values();
    NumberBound(bs, k);
  }

  lemma HeaderIsShortest(bs: seq<byte>, k: nat)
    requires k in {1, 2, 4} && DecNumber(bs, k).Some?
    ensures var n := DecNumber(bs, k).value;
            |bs| >= 1 + k && n < 0x1_0000_0000 && |EncStrHdr(n)| <= 1 + k
            && (k > 1 ==> |EncMapHdr(n)| <= 1 + k && |EncArrHdr(n)| <= 1 + k)
  {
    hide BE, DecNumber;
    Pow256Values();
    NumberBound(bs, k);
  }

  /** No other form of a token that the specification reads is shorter than the one written. */
  lemma WrittenFormIsShortest(bs: seq<byte>)
    requires DecToken(bs).Some?
    ensures var (t, rest) := DecToken(bs).value; |EncToken(t)| + |rest| <= |bs|
  {
    hide BE, FromBE, DecNumber, DecUnsigned, DecSigned, EncInt, EncStrHdr, EncMapHdr, EncArrHdr;
    Pow256Values();
    var m := bs[0];
    if 0xcc <= m <= 0xcf {
      UnsignedIsShortest(bs, if m == 0xcc then 1 else if m == 0xcd then 2 else if m == 0xce then 4 else 8);
    } else if 0xd0 <= m <= 0xd3 {
      var k := if m == 0xd0 then 1 else if m == 0xd1 then 2 else if m == 0xd2 then 4 else 8;
      SignedIsShortest(bs, k, Pow256(k) / 2);
    } else if 0xd9 <= m <= 0xdb {
      var k := if m == 0xd9 then 1 else if m == 0xda then 2 else 4;
      HeaderIsShortest(bs, k);
      var n := DecNumber(bs, k).value;
      assert DecToken(bs) == DecText(bs, 1 + k, n);
    } else if 0xdc <= m <= 0xdf {
      HeaderIsShortest(bs, if m == 0xdc || m == 0xde then 2 else 4);
    } else {
      OneByteForms(bs);
    }
  }

  /** The forms whose marker holds the value or the length. */
  lemma OneByteForms(bs: seq<byte>)
    requires DecToken(bs).Some? && (bs[0] < 0xc0 || bs[0] in {0xc2, 0xc3} || bs[0] >= 0xe0)
    ensures var (t, rest) := DecToken(bs).value; |EncToken(t)| + |rest| <= |bs|
  {
    hide BE, FromBE;
  }

  // ------------------------------------------------- documents: headers match contents

  /** How many values are still owed after reading t, when p > 0 were owed before it. */
  function Owed(p: nat, t: Token): nat
    requires p > 0
  {
    p - 1 + match t
            case MapHdr(n) => 2 * n
            case ArrHdr(n) => n
            case _ => 0
  }

  /** From index i on, ts holds exactly p complete values and then ends. */
  predicate Closes(ts: seq<Token>, i: nat, p: nat)
    requires i <= |ts|
    decreases |ts| - i
  {
    if p == 0 then i == |ts| else i < |ts| && Closes(ts, i + 1, Owed(p, ts[i]))
  }

  /** One complete value: every header announces exactly what follows. */
  predicate IsDocument(ts: seq<Token>) {
    Closes(ts, 0, 1)
  }

  predicate IsScalar(t: Token) { !t.MapHdr? && !t.ArrHdr? }

  ghost predicate TurnsAt(a: seq<Token>, m: nat, n: nat, ts: seq<Token>, i: nat, p: nat) {
    At(ts, i, a) ==> (Closes(ts, i, p + m) <==> Closes(ts, i + |a|, p + n))
  }

  /** Wherever a is written, it turns m values owed into n values owed. */
  ghost predicate Turns(a: seq<Token>, m: nat, n: nat) {
    forall ts: seq<Token>, i: nat, p: nat :: TurnsAt(a, m, n, ts, i, p)
  }

  lemma TurnsDocument(a: seq<Token>)
    requires Turns(a, 1, 0)
    ensures IsDocument(a)
  {
    AtWhole(a);
    assert TurnsAt(a, 1, 0, a, 0, 0);
  }

  lemma TurnsThen(a: seq<Token>, b: seq<Token>, m: nat, n: nat, k: nat)
    requires Turns(a, m, n) && Turns(b, n, k)
    ensures Turns(a + b, m, k)
  {
    forall ts: seq<Token>, i: nat, p: nat
      ensures TurnsAt(a + b, m, k, ts, i, p)
    {
      if At(ts, i, a + b) {
        AtSplit(ts, i, a, b);
        assert TurnsAt(a, m, n, ts, i, p) && TurnsAt(b, n, k, ts, i + |a|, p);
      }
    }
  }

  lemma TurnsMore(a: seq<Token>, m: nat, n: nat, extra: nat)
    requires Turns(a, m, n)
    ensures Turns(a, m + extra, n + extra)
  {
    var before, after := m + extra, n + extra;
    forall ts: seq<Token>, i: nat, p: nat
      ensures TurnsAt(a, before, after, ts, i, p)
    {
      assert TurnsAt(a, m, n, ts, i, p + extra);
    }
  }

  lemma HeaderTurns(t: Token, n: nat)
    requires n == Owed(1, t)
    ensures Turns([t], 1, n)
  {
    forall ts: seq<Token>, i: nat, p: nat
      ensures TurnsAt([t], 1, n, ts, i, p)
    {
      if At(ts, i, [t]) {
        assert ts[i] == ts[i..i + 1][0] == t;
      }
    }
  }

  lemma {:induction false} ScalarsTurn(a: seq<Token>)
    requires forall j :: 0 <= j < |a| ==> IsScalar(a[j])
    ensures Turns(a, |a|, 0)
  {
    if a == [] {
      assert forall ts: seq<Token>, i: nat, p: nat :: TurnsAt(a, 0, 0, ts, i, p);
    } else {
      ScalarsTurn(a[1..]);
      HeaderTurns(a[0], 0);
      TurnsMore([a[0]], 1, 0, |a| - 1);
      TurnsThen([a[0]], a[1..], |a|, |a| - 1, 0);
      assert a == [a[0]] + a[1..];
    }
  }

  lemma {:induction false} ListTurns<X(!new)>(emit: X -> seq<Token>, xs: seq<X>)
    requires forall x: X :: Turns(emit(x), 1, 0)
    ensures Turns(FlatMap(emit, xs), |xs|, 0)
  {
    if xs == [] {
      ScalarsTurn([]);
    } else {
      var init, last := xs[..|xs| - 1], xs[|xs| - 1];
      ListTurns(emit, init);
      TurnsMore(FlatMap(emit, init), |init|, 0, 1);
      TurnsThen(FlatMap(emit, init), emit(last), |xs|, 1, 0);
    }
  }

  /** A header, k scalars it announces, and the rest. */
  lemma RecordTurns(t: Token, scalars: seq<Token>, rest: seq<Token>, n: nat)
    requires forall j :: 0 <= j < |scalars| ==> IsScalar(scalars[j])
    requires Owed(1, t) == |scalars| + n
    requires Turns(rest, n, 0)
    ensures Turns([t] + (scalars + rest), 1, 0)
  {
    HeaderTurns(t, |scalars| + n);
    ScalarsTurn(scalars);
    TurnsMore(scalars, |scalars|, 0, n);
    TurnsThen(scalars, rest, |scalars| + n, n, 0);
    TurnsThen([t], scalars + rest, 1, |scalars| + n, 0);
  }

  /** Reads p complete values from the front of bs. */
  function ReadValues(bs: seq<byte>, p: nat): Option<(seq<Token>, seq<byte>)>
    decreases |bs|
  {
    if p == 0 then Some(([], bs)) else
    var (t, r) :- DecToken(bs);
    var (ts, rest) :- ReadValues(r, Owed(p, t));
    Some(([t] + ts, rest))
  }

  lemma {:induction false} ReadValuesInvertsEnc(ts: seq<Token>, i: nat, p: nat, rest: seq<byte>)
    requires i <= |ts| && Closes(ts, i, p)
    ensures ReadValues(Enc(ts[i..]) + rest, p) == Some((ts[i..], rest))
    decreases |ts| - i
  {
    if p > 0 {
      var t := ts[i];
      assert ts[i..] == [t] + ts[i + 1..];
      FlatMapCons(EncToken, t, ts[i + 1..]);
      assert Enc(ts[i..]) + rest == EncToken(t) + (Enc(ts[i + 1..]) + rest);
      DecTokenInvertsEnc(t, Enc(ts[i + 1..]) + rest);
      ReadValuesInvertsEnc(ts, i + 1, Owed(p, t), rest);
    } else {
      assert Enc(ts[i..]) + rest == rest;
    }
  }

  /** A document is recovered from its bytes, and the bytes after it are left alone. */
  lemma DocumentRoundTrip(ts: seq<Token>, rest: seq<byte>)
    requires IsDocument(ts)
    ensures ReadValues(Enc(ts) + rest, 1) == Some((ts, rest))
  {
    ReadValuesInvertsEnc(ts, 0, 1, rest);
    assert ts[0..] == ts;
  }
}
