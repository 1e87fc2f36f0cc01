/** Byte strings, fixed-width integers and their big-endian forms. */
module Bytes {

  type byte = x: int | 0 <= x < 0x100
  type u32 = x: int | 0 <= x < 0x1_0000_0000
  type u64 = x: int | 0 <= x < 0x1_0000_0000_0000_0000
  type i64 = x: int | -0x8000_0000_0000_0000 <= x < 0x8000_0000_0000_0000

  datatype Option<+T> = None | Some(value: T) {
    predicate IsFailure() { None? }

    function PropagateFailure<U>(): Option<U>
      requires None?
    {
      None
    }

    function Extract(): T
      requires Some?
    {
      value
    }
  }

  /** The bytes of a C string literal, without its NUL. */
  function Ascii(s: string): (r: seq<byte>)
    ensures |r| == |s|
  {
    if s == [] then [] else Ascii(s[..|s| - 1]) + [s[|s| - 1] as int % 0x100]
  }

  lemma {:induction false} AsciiAt(s: string, i: nat)
    requires i < |s|
    ensures Ascii(s)[i] == s[i] as int % 0x100
  {
    if i < |s| - 1 {
      AsciiAt(s[..|s| - 1], i);
      assert s[..|s| - 1][i] == s[i];
    }
  }

  function Zeros(n: nat): (r: seq<byte>)
    ensures |r| == n && forall i :: 0 <= i < n ==> r[i] == 0
  {
    seq(n, i => 0)
  }

  function Pow256(k: nat): (r: nat)
    ensures r >= 1
  {
    if k == 0 then 1 else 256 * Pow256(k - 1)
  }

  lemma Pow256Values()
    ensures Pow256(1) == 0x100 && Pow256(2) == 0x1_0000 && Pow256(3) == 0x100_0000
    ensures Pow256(4) == 0x1_0000_0000 && Pow256(8) == 0x1_0000_0000_0000_0000
  {
    assert Pow256(2) == 256 * Pow256(1);
    assert Pow256(3) == 256 * Pow256(2);
    assert Pow256(4) == 256 * Pow256(3);
    assert Pow256(5) == 256 * Pow256(4);
    assert Pow256(6) == 256 * Pow256(5);
    assert Pow256(7) == 256 * Pow256(6);
    assert Pow256(8) == 256 * Pow256(7);
  }

  /** The low k bytes of n, most significant first. */
  function BE(n: nat, k: nat): (r: seq<byte>)
    ensures |r| == k
  {
    if k == 0 then [] else BE(n / 256, k - 1) + [n % 256]
  }

  function FromBE(bs: seq<byte>): nat {
    if bs == [] then 0 else FromBE(bs[..|bs| - 1]) * 256 + bs[|bs| - 1]
  }

  lemma {:induction false} FromBEInvertsBE(n: nat, k: nat)
    requires n < Pow256(k)
    ensures FromBE(BE(n, k)) == n
  {
    if k > 0 {
      FromBEInvertsBE(n / 256, k - 1);
      var r := BE(n, k);
      assert r[..|r| - 1] == BE(n / 256, k - 1);
    }
  }

  lemma {:induction false} BEInvertsFromBE(bs: seq<byte>)
    ensures FromBE(bs) < Pow256(|bs|) && BE(FromBE(bs), |bs|) == bs
  {
    if bs != [] {
      var init := bs[..|bs| - 1];
      BEInvertsFromBE(init);
      assert bs == init + [bs[|bs| - 1]];
    }
  }

  lemma {:induction false} FromBELeadingZeros(z: nat, bs: seq<byte>)
    ensures FromBE(Zeros(z) + bs) == FromBE(bs)
  {
    var all := Zeros(z) + bs;
    if bs != [] {
      assert all[..|all| - 1] == Zeros(z) + bs[..|bs| - 1];
      FromBELeadingZeros(z, bs[..|bs| - 1]);
    } else if z > 0 {
      assert all[..|all| - 1] == Zeros(z - 1) + [];
      FromBELeadingZeros(z - 1, []);
    }
  }

  lemma BEInjective(m: nat, n: nat, k: nat)
    requires m < Pow256(k) && n < Pow256(k) && BE(m, k) == BE(n, k)
    ensures m == n
  {
    FromBEInvertsBE(m, k);
    FromBEInvertsBE(n, k);
  }

  /** Number of bytes of the shortest big-endian form; zero takes one byte. */
  function MinLen(n: nat): (k: nat)
    ensures 1 <= k
  {
    if n < 256 then 1 else 1 + MinLen(n / 256)
  }

  /** int.bit_length */
  function BitLength(n: nat): nat {
    if n == 0 then 0 else 1 + BitLength(n / 2)
  }

  /** The client's byte count, max(1, (bit_length + 7) // 8), is the shortest one. */
  lemma {:induction false} ClientByteCount(n: nat)
    ensures MinLen(n) == if BitLength(n) == 0 then 1 else (BitLength(n) + 7) / 8
  {
    if n >= 256 {
      ClientByteCount(n / 256);
      ByteHasEightBits(n);
    } else {
      SmallBitLength(n, 8);
    }
  }

  lemma ByteHasEightBits(n: nat)
    requires n >= 256
    ensures BitLength(n) == BitLength(n / 256) + 8 && BitLength(n / 256) > 0
  {
    hide BitLength;
    var q := n / 4;
    var r := q / 4;
    var s := r / 4;
    TwoBits(n);
    TwoBits(q);
    TwoBits(r);
    TwoBits(s);
    assert s / 4 == n / 256;
  }

  lemma TwoBits(n: nat)
    requires n >= 4
    ensures BitLength(n) == 2 + BitLength(n / 4) && BitLength(n / 4) > 0
  {
    var m := n / 2;
    assert m / 2 == n / 4;
    assert BitLength(n) == 1 + BitLength(m);
  }

  lemma {:induction false} SmallBitLength(n: nat, k: nat)
    requires n < Pow2(k)
    ensures BitLength(n) <= k
  {
    if n > 0 { SmallBitLength(n / 2, k - 1); }
  }

  function Pow2(k: nat): nat { if k == 0 then 1 else 2 * Pow2(k - 1) }

  function MinBE(n: nat): (r: seq<byte>)
    ensures |r| == MinLen(n)
  {
    BE(n, MinLen(n))
  }

  lemma {:induction false} MinLenIsShortest(n: nat, k: nat)
    requires k >= 1
    ensures MinLen(n) <= k <==> n < Pow256(k)
  {
    if n >= 256 && k > 1 {
      MinLenIsShortest(n / 256, k - 1);
    } else {
      assert Pow256(1) == 256;
      if k > 1 {
        Pow256Monotonic(1, k);
      }
    }
  }

  lemma {:induction false} Pow256Monotonic(j: nat, k: nat)
    requires j <= k
    ensures Pow256(j) <= Pow256(k)
  {
    if j < k {
      Pow256Monotonic(j, k - 1);
    }
  }

  lemma FromBEInvertsMinBE(n: nat)
    ensures FromBE(MinBE(n)) == n
  {
    MinLenIsShortest(n, MinLen(n));
    FromBEInvertsBE(n, MinLen(n));
  }

  /** Two's-complement reading of a 64-bit word, and back. */
  function ToSigned(n: u64): (r: i64) {
    if n < 0x8000_0000_0000_0000 then n else n - 0x1_0000_0000_0000_0000
  }

  function ToUnsigned(n: i64): (r: u64) {
    if n >= 0 then n else n + 0x1_0000_0000_0000_0000
  }

  /** us stands in ts at position i. */
  predicate At<T(==)>(ts: seq<T>, i: nat, us: seq<T>) {
    i + |us| <= |ts| && ts[i..i + |us|] == us
  }

  lemma AtSplit<T>(ts: seq<T>, i: nat, a: seq<T>, b: seq<T>)
    requires At(ts, i, a + b)
    ensures At(ts, i, a) && At(ts, i + |a|, b)
  {
    var w := ts[i..i + |a + b|];
    assert ts[i..i + |a|] == w[..|a|] == a;
    assert ts[i + |a|..i + |a| + |b|] == w[|a|..] == b;
  }

  lemma AtIndex<T>(ts: seq<T>, i: nat, us: seq<T>)
    requires At(ts, i, us)
    ensures forall k :: 0 <= k < |us| ==> ts[i + k] == us[k]
  {
    forall k | 0 <= k < |us| ensures ts[i + k] == us[k] {
      assert ts[i..i + |us|][k] == us[k];
    }
  }

  lemma AtWhole<T>(ts: seq<T>)
    ensures At(ts, 0, ts)
  {
  }

  lemma SplitEqual<T>(a: seq<T>, b: seq<T>, c: seq<T>, d: seq<T>)
    requires a + b == c + d && (|a| == |c| || |b| == |d|)
    ensures a == c && b == d
  {
    assert |a + b| == |c + d|;
    assert a == (a + b)[..|a|] && b == (a + b)[|a|..];
    assert c == (c + d)[..|c|] && d == (c + d)[|c|..];
  }

  function Join<X>(parts: seq<seq<X>>): seq<X> {
    if parts == [] then [] else parts[0] + Join(parts[1..])
  }

  lemma {:induction false} JoinSnoc<X>(parts: seq<seq<X>>, last: seq<X>)
    ensures Join(parts + [last]) == Join(parts) + last
  {
    if parts == [] {
      assert [last][1..] == [] && last + Join<X>([]) == last;
    } else {
      JoinSnoc(parts[1..], last);
      assert (parts + [last])[1..] == parts[1..] + [last];
    }
  }

  /** The images of xs under f, one after the other. */
  function FlatMap<A, B>(f: A -> seq<B>, xs: seq<A>): seq<B> {
    if xs == [] then [] else FlatMap(f, xs[..|xs| - 1]) + f(xs[|xs| - 1])
  }

  lemma FlatMapSnoc<A, B>(f: A -> seq<B>, xs: seq<A>, x: A)
    ensures FlatMap(f, xs + [x]) == FlatMap(f, xs) + f(x)
  {
    assert (xs + [x])[..|xs|] == xs;
  }

  lemma {:induction false} FlatMapAppend<A, B>(f: A -> seq<B>, a: seq<A>, b: seq<A>)
    ensures FlatMap(f, a + b) == FlatMap(f, a) + FlatMap(f, b)
  {
    if b == [] {
      assert a + b == a;
    } else {
      hide FlatMap;
      var init, last := b[..|b| - 1], b[|b| - 1];
      FlatMapAppend(f, a, init);
      FlatMapSnoc(f, a + init, last);
      FlatMapSnoc(f, init, last);
      assert b == init + [last] && a + b == (a + init) + [last];
    }
  }

  lemma FlatMapCons<A, B>(f: A -> seq<B>, x: A, xs: seq<A>)
    ensures FlatMap(f, [x] + xs) == f(x) + FlatMap(f, xs)
  {
    FlatMapAppend(f, [x], xs);
    FlatMapSnoc(f, [], x);
    assert [] + [x] == [x];
  }

  /** Concatenating images is joining them. */
  lemma {:induction false} FlatMapIsJoin<A, B>(f: A -> seq<B>, xs: seq<A>, parts: seq<seq<B>>)
    requires |xs| == |parts| && forall i :: 0 <= i < |xs| ==> f(xs[i]) == parts[i]
    ensures FlatMap(f, xs) == Join(parts)
  {
    if xs != [] {
      var n := |xs| - 1;
      FlatMapIsJoin(f, xs[..n], parts[..n]);
      JoinSnoc(parts[..n], parts[n]);
      assert parts == parts[..n] + [parts[n]];
    }
  }

  /** totals[i] bounds the size of the first i images. */
  lemma {:induction false} FlatMapBound<A, B>(f: A -> seq<B>, xs: seq<A>, totals: seq<nat>)
    requires |totals| == |xs| + 1
    requires forall i :: 0 <= i < |xs| ==> totals[i] + |f(xs[i])| <= totals[i + 1]
    ensures |FlatMap(f, xs)| <= totals[|xs|]
  {
    if xs != [] {
      FlatMapBound(f, xs[..|xs| - 1], totals[..|xs|]);
    }
  }

  // ---------------------------------------------------------------- hex text

  const HEX: seq<byte> := [48, 49, 50, 51, 52, 53, 54, 55, 56, 57, 97, 98, 99, 100, 101, 102]

  function Hex(bs: seq<byte>): (r: seq<byte>)
    ensures |r| == 2 * |bs|
  {
    if bs == [] then [] else Hex(bs[..|bs| - 1]) + [HEX[bs[|bs| - 1] / 16], HEX[bs[|bs| - 1] % 16]]
  }

  function UnHexDigit(c: byte): (d: byte)
    ensures d < 16
  {
    if 48 <= c <= 57 then c - 48 else if 97 <= c <= 102 then c - 87 else 0
  }

  function UnHex(s: seq<byte>): seq<byte>
    decreases |s|
  {
    if |s| < 2 then [] else UnHex(s[..|s| - 2]) + [UnHexDigit(s[|s| - 2]) * 16 + UnHexDigit(s[|s| - 1])]
  }

  lemma UnHexStep(h: seq<byte>, x: byte, y: byte)
    ensures UnHex(h + [x, y]) == UnHex(h) + [UnHexDigit(x) * 16 + UnHexDigit(y)]
  {
    hide UnHexDigit;
    assert (h + [x, y])[..|h|] == h;
  }

  lemma {:induction false} UnHexInvertsHex(bs: seq<byte>)
    ensures UnHex(Hex(bs)) == bs
  {
    hide UnHexDigit, UnHex;
    if bs == [] {
      NoHex();
    } else {
      var init, last := bs[..|bs| - 1], bs[|bs| - 1];
      UnHexInvertsHex(init);
      UnHexStep(Hex(init), HEX[last / 16], HEX[last % 16]);
      HexPair(last);
      assert bs == init + [last];
    }
  }

  lemma NoHex()
    ensures UnHex([]) == []
  {
  }

  lemma HexPair(b: byte)
    ensures UnHexDigit(HEX[b / 16]) * 16 + UnHexDigit(HEX[b % 16]) == b
  {
    hide UnHexDigit;
    HexDigits(b / 16);
    HexDigits(b % 16);
  }

  lemma HexDigits(d: byte)
    requires d < 16
    ensures UnHexDigit(HEX[d]) == d && HEX[d] != 0
  {
    assert HEX[d] == if d < 10 then 48 + d else 87 + d;
  }

  lemma {:induction false} HexHasNoNul(bs: seq<byte>)
    ensures forall i :: 0 <= i < |Hex(bs)| ==> Hex(bs)[i] != 0
  {
    if bs != [] {
      HexHasNoNul(bs[..|bs| - 1]);
      HexDigits(bs[|bs| - 1] / 16);
      HexDigits(bs[|bs| - 1] % 16);
    }
  }

  /** bytes_to_lowercase_hex: fills out with the digits of value and a NUL; refuses a short buffer. */
  method BytesToLowercaseHex(out: array<byte>, start: nat, value: seq<byte>) returns (ok: bool)
    requires start < out.Length
    modifies out
    ensures ok <==> out.Length - start >= 2 * |value| + 1
    ensures out[..start] == old(out[..start])
    ensures ok ==> out[start..start + 2 * |value|] == Hex(value) && out[start + 2 * |value|] == 0
    ensures !ok ==> out[start] == 0 && out[start + 1..] == old(out[start + 1..])
  {
    if out.Length - start < 2 * |value| + 1 {
      out[start] := 0;
      return false;
    }
    var pos := start;
    for i := 0 to |value|
      invariant pos == start + 2 * i
      invariant out[..start] == old(out[..start])
      invariant out[start..pos] == Hex(value[..i])
    {
      assert value[..i + 1][..i] == value[..i];
      out[pos] := HEX[value[i] / 16];
      out[pos + 1] := HEX[value[i] % 16];
      assert out[start..pos + 2] == out[start..pos] + [out[pos], out[pos + 1]];
      pos := pos + 2;
    }
    assert value[..|value|] == value;
    out[pos] := 0;
    return true;
  }
}
