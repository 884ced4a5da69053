/**
 * The CCM mode of crypto/ccm.c on values: CBC-MAC over a formatted stream, counter-mode encryption,
 * and the formatting, with RFC 3610 as the reference.  The block cipher is any function on blocks.
 */
module Ccm {

  type byte = n: nat | n < 256

  type Block = b: seq<byte> | |b| == 16 witness seq(16, _ => 0)

  // ---------------------------------------------------------------- bytes

  /** Exclusive or of the low `n` bits. */
  function XorBits(a: nat, b: nat, n: nat): nat {
    if n == 0 then 0 else (if a % 2 != b % 2 then 1 else 0) + 2 * XorBits(a / 2, b / 2, n - 1)
  }

  function Pow2(n: nat): (p: nat)
    ensures p > 0
  {
    if n == 0 then 1 else 2 * Pow2(n - 1)
  }

  lemma {:induction false} XorBitsRange(a: nat, b: nat, n: nat)
    ensures XorBits(a, b, n) < Pow2(n)
    decreases n
  {
    if n > 0 {
      XorBitsRange(a / 2, b / 2, n - 1);
    }
  }

  lemma {:induction false} XorBitsTwice(a: nat, b: nat, n: nat)
    requires a < Pow2(n)
    ensures XorBits(XorBits(a, b, n), b, n) == a
    decreases n
  {
    if n > 0 {
      XorBitsTwice(a / 2, b / 2, n - 1);
      var x := XorBits(a / 2, b / 2, n - 1);
      assert XorBits(a, b, n) / 2 == x;
    }
  }

  function Xor1(a: byte, b: byte): byte {
    XorBitsRange(a, b, 8);
    assert Pow2(8) == 256;
    XorBits(a, b, 8)
  }

  lemma Xor1Twice(a: byte, b: byte)
    ensures Xor1(Xor1(a, b), b) == a
  {
    assert Pow2(8) == 256;
    XorBitsTwice(a, b, 8);
  }

  /** Exclusive or of byte strings, as far as both reach. */
  function Xor(a: seq<byte>, b: seq<byte>): (r: seq<byte>)
    ensures |r| == if |a| <= |b| then |a| else |b|
  {
    seq(if |a| <= |b| then |a| else |b|, i requires 0 <= i < |a| && i < |b| => Xor1(a[i], b[i]))
  }

  lemma XorTwice(a: seq<byte>, b: seq<byte>)
    requires |a| <= |b|
    ensures Xor(Xor(a, b), b) == a
  {
    forall i | 0 <= i < |a|
      ensures Xor(Xor(a, b), b)[i] == a[i]
    {
      Xor1Twice(a[i], b[i]);
    }
  }

  function Zeros(n: nat): (z: seq<byte>)
    ensures |z| == n
  {
    seq(n, _ => 0)
  }

  /** The low `size` bytes of a number, most significant first. */
  function Be(n: nat, size: nat): (r: seq<byte>)
    ensures |r| == size
  {
    if size == 0 then [] else Be(n / 256, size - 1) + [n % 256]
  }

  function Pow256(n: nat): (p: nat)
    ensures p > 0
  {
    if n == 0 then 1 else 256 * Pow256(n - 1)
  }

  /** The number a byte string stands for. */
  function FromBe(s: seq<byte>): nat {
    if s == [] then 0 else 256 * FromBe(s[..|s| - 1]) + s[|s| - 1]
  }

  lemma {:induction false} FromBeBe(n: nat, size: nat)
    ensures FromBe(Be(n, size)) == n % Pow256(size)
    decreases size
  {
    if size > 0 {
      var r := Be(n, size);
      FromBeBe(n / 256, size - 1);
      assert r[..size - 1] == Be(n / 256, size - 1);
      ModStep(n, Pow256(size - 1));
    }
  }

  lemma ModStep(n: nat, p: nat)
    requires p > 0
    ensures 256 * (n / 256 % p) + n % 256 == n % (256 * p)
  {
    var q, r := n / 256 / p, n / 256 % p;
    assert n == 256 * (n / 256) + n % 256;
    assert n / 256 == p * q + r;
    assert n == (256 * p) * q + (256 * r + n % 256);
    ModIs(n, 256 * p, q, 256 * r + n % 256);
  }

  lemma ModIs(n: nat, d: nat, q: nat, r: nat)
    requires d > 0 && n == d * q + r && r < d
    ensures n % d == r
  {
    var q', r' := n / d, n % d;
    assert d * q + r == d * q' + r';
    if q < q' {
      MulStep(d, q, q');
    } else if q' < q {
      MulStep(d, q', q);
    }
  }

  lemma MulStep(d: nat, a: nat, b: nat)
    requires a < b
    ensures d * b >= d * a + d
  {
    var c: nat := b - a - 1;
    Distribute(d, a + 1, c);
    Distribute(d, a, 1);
  }

  lemma Distribute(d: nat, a: nat, c: nat)
    ensures d * (a + c) == d * a + d * c
  {
  }

  // ---------------------------------------------------------------- CBC-MAC

  /** The chaining value after all whole blocks of a stream. */
  function Absorb(e: Block -> Block, x: Block, s: seq<byte>): Block
    decreases |s|
  {
    if |s| < 16 then x else Absorb(e, e(Xor(x, s[..16])), s[16..])
  }

  /** What is left over after the whole blocks. */
  function Tail(s: seq<byte>): (t: seq<byte>)
    ensures |t| < 16
  {
    if |s| < 16 then s else Tail(s[16..])
  }

  /** Zeros up to the next block boundary. */
  function Pad(s: seq<byte>): seq<byte> { s + Zeros((16 - |s| % 16) % 16) }

  /** Feeding two strings one after the other. */
  lemma {:induction false} AbsorbCat(e: Block -> Block, x: Block, a: seq<byte>, b: seq<byte>)
    ensures Absorb(e, x, a + b) == Absorb(e, Absorb(e, x, a), Tail(a) + b) && Tail(a + b) == Tail(Tail(a) + b)
    decreases |a|
  {
    if |a| >= 16 {
      var s := a + b;
      assert s[..16] == a[..16] && s[16..] == a[16..] + b;
      AbsorbCat(e, e(Xor(x, a[..16])), a[16..], b);
    }
  }

  lemma {:induction false} TailSize(s: seq<byte>)
    ensures |Tail(s)| == |s| % 16
    decreases |s|
  {
    if |s| >= 16 {
      TailSize(s[16..]);
    }
  }

  /** The padded stream: one more block, made of the tail and zeros, if there is a tail. */
  lemma AbsorbPad(e: Block -> Block, x: Block, s: seq<byte>)
    ensures var t := Tail(s);
            Absorb(e, x, Pad(s)) ==
            if t == [] then Absorb(e, x, s) else e(Xor(Absorb(e, x, s), t + Zeros(16 - |t|)))
  {
    var t := Tail(s);
    TailSize(s);
    if t == [] {
      assert Pad(s) == s;
    } else {
      var z := Zeros(16 - |t|);
      assert Pad(s) == s + z;
      AbsorbCat(e, x, s, z);
      var last := t + z;
      assert last[..16] == last && last[16..] == [];
    }
  }

  // ---------------------------------------------------------------- formatting, section 2.2 of RFC 3610

  datatype Result<+T> = Ok(value: T) | Err(error: int)

  const EOVERFLOW: int := -75
  const EINVAL: int := -22
  const EBADMSG: int := -74

  /** set_msg_len: the length field of `size` bytes, as the code fills it in. */
  function SetMsgLen(len: nat, size: nat): (r: Result<seq<byte>>)
    ensures r.Ok? ==> |r.value| == size
  {
    if size >= 4 then Ok(Zeros(size - 4) + Be(len, 4))
    else if len > Pow256(size) then Err(EOVERFLOW)
    else Ok(Be(len, size))
  }

  lemma {:induction false} BeZero(n: nat, size: nat)
    requires n == 0
    ensures Be(n, size) == Zeros(size)
    decreases size
  {
    if size > 0 {
      BeZero(n / 256, size - 1);
      assert Zeros(size) == Zeros(size - 1) + [0];
    }
  }

  lemma {:induction false} BeWide(n: nat, size: nat, more: nat)
    requires n < Pow256(size)
    ensures Be(n, more + size) == Zeros(more) + Be(n, size)
    decreases size
  {
    if size == 0 {
      BeZero(n, more);
    } else {
      BeWide(n / 256, size - 1, more);
      assert Zeros(more) + (Be(n / 256, size - 1) + [n % 256]) == (Zeros(more) + Be(n / 256, size - 1)) + [n % 256];
    }
  }

  /**
   * The length field: it states the length exactly when the length fits.  Short fields refuse lengths
   * that do not, but the guard lets the first such length through, and the field then says zero.
   */
  lemma MsgLenExact(len: nat, size: nat)
    requires len < Pow256(4) && size > 0
    ensures (SetMsgLen(len, size).Ok? && FromBe(SetMsgLen(len, size).value) == len) <==> len < Pow256(size)
    ensures SetMsgLen(len, size).Ok? ==> SetMsgLen(len, size).value == Be(len, size)
    ensures SetMsgLen(len, size) == Err(EOVERFLOW) <==> size < 4 && len > Pow256(size)
    ensures size < 4 && len == Pow256(size) ==> SetMsgLen(len, size).Ok? && FromBe(SetMsgLen(len, size).value) == 0
  {
    FromBeBe(len, size);
    if size >= 4 {
      BeWide(len, 4, size - 4);
      PowMono(4, size);
    } else if len == Pow256(size) {
      ModIs(len, Pow256(size), 1, 0);
    }
  }

  lemma {:induction false} PowMono(a: nat, b: nat)
    requires a <= b
    ensures Pow256(a) <= Pow256(b)
    decreases b
  {
    if a < b {
      PowMono(a, b - 1);
    }
  }

  /** A bitwise or of numbers whose set bits are given positions: `lo` below bit 3, `mid` in bits 3 to 5, bit 6. */
  function OrBits(a: nat, b: nat, n: nat): nat {
    if n == 0 then 0 else (if a % 2 == 1 || b % 2 == 1 then 1 else 0) + 2 * OrBits(a / 2, b / 2, n - 1)
  }

  lemma {:induction false} OrShift(a: nat, b: nat, k: nat, n: nat)
    requires k <= n && a < Pow2(k) && b < Pow2(n - k)
    ensures OrBits(a, Pow2(k) * b, n) == a + Pow2(k) * b
    decreases n
  {
    if k > 0 {
      var c := Pow2(k - 1) * b;
      assert Pow2(k) * b == 2 * c;
      OrShift(a / 2, b, k - 1, n - 1);
    } else {
      OrZero(b, n);
    }
  }

  lemma {:induction false} OrZero(b: nat, n: nat)
    requires b < Pow2(n)
    ensures OrBits(0, b, n) == b
    decreases n
  {
    if n > 0 {
      OrZero(b / 2, n - 1);
    }
  }

  /** The first byte of an initialisation vector is L - 1, where the length field has L bytes. */
  predicate GoodIv(iv: Block) { 1 <= iv[0] <= 7 }

  /** crypto_ccm_setauthsize. */
  predicate GoodAuthSize(m: nat) { m in {4, 6, 8, 10, 12, 14, 16} }

  const CHAR_BITS: nat := 8

  /** The first byte of the first block, or-ed together. */
  function Flags(lp: nat, mp: nat, assoc: nat): byte {
    Chop(OrFlags(lp, 8 * mp, if assoc != 0 then 64 else 0))
  }

  function OrFlags(a: nat, b: nat, c: nat): nat { OrBits(OrBits(a, b, CHAR_BITS), c, CHAR_BITS) }

  /** Storing a number in a byte. */
  function Chop(n: nat): (b: byte)
    ensures n < 256 ==> b == n
  {
    n % 256
  }

  /** format_input: flags, the nonce, and the length in the last L bytes. */
  function FormatInput(iv: Block, m: nat, assoc: nat, len: nat): Result<Block>
    requires GoodIv(iv) && GoodAuthSize(m)
  {
    var l := iv[0] + 1;
    match SetMsgLen(len, l)
    case Err(e) => Err(e)
    case Ok(field) => Ok([Flags(iv[0], (m - 2) / 2, assoc)] + iv[1..16 - l] + field)
  }

  /** The first block B_0 of section 2.2. */
  function B0(nonce: seq<byte>, l: nat, m: nat, assoc: nat, len: nat): Block
    requires 2 <= l <= 8 && |nonce| == 15 - l && GoodAuthSize(m)
  {
    [((if assoc > 0 then 64 else 0) + 8 * ((m - 2) / 2) + (l - 1)) as byte] + nonce + Be(len, l)
  }

  /** Flags in different bits add up. */
  lemma FlagsAdd(lp: nat, mp: nat, ad: nat)
    requires lp < 8 && mp < 8 && ad < 4
    ensures OrFlags(lp, 8 * mp, 64 * ad) == lp + 8 * mp + 64 * ad
  {
    assert Pow2(3) == 8 && Pow2(5) == 32 && Pow2(6) == 64 && Pow2(2) == 4;
    OrShift(lp, mp, 3, CHAR_BITS);
    OrShift(lp + 8 * mp, ad, 6, CHAR_BITS);
  }

  /** The code's first block is B_0 whenever it makes one and the length fits its field. */
  lemma FormatInputIsB0(iv: Block, m: nat, assoc: nat, len: nat)
    requires GoodIv(iv) && GoodAuthSize(m) && len < Pow256(4)
    ensures var l := iv[0] + 1;
            FormatInput(iv, m, assoc, len) ==
            if l < 4 && len > Pow256(l) then Err(EOVERFLOW) else Ok(B0(iv[1..16 - l], l, m, assoc, len))
  {
    MsgLenExact(len, iv[0] + 1);
    FlagsSum(iv[0], (m - 2) / 2, assoc);
  }

  lemma FlagsSum(lp: nat, mp: nat, assoc: nat)
    requires lp < 8 && mp < 8
    ensures Flags(lp, mp, assoc) == (if assoc > 0 then 64 else 0) + 8 * mp + lp
  {
    FlagsAdd(lp, mp, if assoc > 0 then 1 else 0);
  }

  /** format_adata: the field before the associated data. */
  function FormatAdata(a: nat): seq<byte> {
    if a < 65280 then Be(a, 2) else [0xff, 0xfe] + Be(a, 4)
  }

  // ---------------------------------------------------------------- authentication

  /** Section 2.2: the length of the associated data, in two octets, or in four or eight behind a mark. */
  function RfcLength(a: nat): seq<byte>
    requires a < Pow256(8)
  {
    if a < 0x1_0000 - 0x100 then [a / 0x100, a % 0x100]
    else if a < 0x1_0000_0000 then
      [0xff, 0xfe, a / 0x100_0000, a / 0x1_0000 % 0x100, a / 0x100 % 0x100, a % 0x100]
    else [0xff, 0xff] + Be(a, 8)
  }

  /** Section 2.2, the other way: the length that a string of blocks begins with, and the size of its field. */
  function ReadLength(s: seq<byte>): (nat, nat)
    requires |s| >= 10
  {
    if s[0] != 0xff || s[1] < 0xfe then (FromBe(s[..2]), 2)
    else if s[1] == 0xfe then (FromBe(s[2..6]), 6)
    else (FromBe(s[2..10]), 10)
  }

  /** Zeros, one at a time, until the length is a multiple of sixteen. */
  function RfcPadded(s: seq<byte>): (r: seq<byte>)
    ensures |r| % 16 == 0
    decreases 16 - (|s| + 15) % 16
  {
    if |s| % 16 == 0 then s else RfcPadded(s + [0])
  }

  /** The blocks B_1, B_2 and so on: length and associated data, if any, and the message, each padded. */
  function Stream(a: seq<byte>, msg: seq<byte>): (s: seq<byte>)
    requires |a| < Pow256(8)
    ensures |s| % 16 == 0
  {
    (if a == [] then [] else RfcPadded(RfcLength(|a|) + a)) + RfcPadded(msg)
  }

  /** Section 2.2: X_1 is the first block encrypted, and X_(i + 1) is X_i and B_i, xor-ed and encrypted. */
  function RfcX(e: Block -> Block, b0: Block, s: seq<byte>, i: nat): Block
    requires 1 <= i <= |s| / 16 + 1
  {
    if i == 1 then e(b0) else e(Xor(RfcX(e, b0, s, i - 1), s[16 * (i - 2)..16 * (i - 1)]))
  }

  /** The last of them. */
  function RfcChain(e: Block -> Block, b0: Block, s: seq<byte>): Block { RfcX(e, b0, s, |s| / 16 + 1) }

  /** Section 2.2: the value of which T is the first M bytes. */
  function RfcMac(e: Block -> Block, nonce: seq<byte>, l: nat, m: nat, a: seq<byte>, msg: seq<byte>): Block
    requires 2 <= l <= 8 && |nonce| == 15 - l && GoodAuthSize(m) && |a| < Pow256(8)
  {
    RfcChain(e, B0(nonce, l, m, |a|, |msg|), Stream(a, msg))
  }

  lemma BeTwo(a: nat)
    requires a < 0x1_0000
    ensures Be(a, 2) == [a / 0x100, a % 0x100]
  {
    assert Be(a / 256, 1) == Be(a / 256 / 256, 0) + [a / 256 % 256];
  }

  lemma BeFour(a: nat)
    requires a < 0x1_0000_0000
    ensures Be(a, 4) == [a / 0x100_0000, a / 0x1_0000 % 0x100, a / 0x100 % 0x100, a % 0x100]
  {
    BeTwo(a / 0x1_0000);
    assert Be(a / 256, 3) == Be(a / 256 / 256, 2) + [a / 256 % 256];
  }

  lemma Powers()
    ensures Pow256(2) == 0x1_0000 && Pow256(4) == 0x1_0000_0000 && Pow256(4) < Pow256(8)
  {
    assert Pow256(2) == 256 * (256 * Pow256(0));
    assert Pow256(4) == 256 * (256 * Pow256(2));
    PowMono(5, 8);
  }

  /** The field is that of the RFC for every length an unsigned int can hold. */
  lemma AdataIsRfc(a: nat)
    requires a < 0x1_0000_0000
    ensures a < Pow256(8) && FormatAdata(a) == RfcLength(a)
  {
    Powers();
    if a < 65280 {
      BeTwo(a);
    } else {
      BeFour(a);
    }
  }

  /** And it reads back as that length, whatever follows it. */
  lemma AdataReadsBack(a: nat, rest: seq<byte>)
    requires a < 0x1_0000_0000 && |rest| >= 8
    ensures ReadLength(FormatAdata(a) + rest) == (a, |FormatAdata(a)|)
  {
    var field := FormatAdata(a);
    var s := field + rest;
    Powers();
    if a < 65280 {
      BeTwo(a);
      FromBeBe(a, 2);
      assert s[..2] == Be(a, 2);
    } else {
      FromBeBe(a, 4);
      assert s[2..6] == Be(a, 4);
    }
  }

  lemma {:induction false} PadIsRfc(s: seq<byte>)
    ensures Pad(s) == RfcPadded(s)
    decreases 16 - (|s| + 15) % 16
  {
    if |s| % 16 == 0 {
      assert Pad(s) == s;
    } else {
      PadIsRfc(s + [0]);
      assert Pad(s) == Pad(s + [0]) by { PadOneMore(s); }
    }
  }

  lemma ZerosFirst(s: seq<byte>, n: nat)
    requires n > 0
    ensures s + Zeros(n) == (s + [0]) + Zeros(n - 1)
  {
  }

  lemma OneFewer(n: nat)
    requires n % 16 != 0
    ensures (16 - n % 16) % 16 == 16 - n % 16 && (16 - (n + 1) % 16) % 16 == 15 - n % 16
  {
  }

  lemma PadOneMore(s: seq<byte>)
    requires |s| % 16 != 0
    ensures Pad(s) == Pad(s + [0])
  {
    OneFewer(|s|);
    ZerosFirst(s, 16 - |s| % 16);
  }

  /** The chaining value is the last X_i. */
  lemma {:induction false} AbsorbIsRfc(e: Block -> Block, b0: Block, s: seq<byte>)
    requires |s| % 16 == 0
    ensures Absorb(e, e(b0), s) == RfcChain(e, b0, s)
    decreases |s|
  {
    if s != [] {
      var n := |s| - 16;
      var h, b := s[..n], s[n..];
      AbsorbIsRfc(e, b0, h);
      AbsorbNext(e, e(b0), h, b);
      var k := |s| / 16;
      assert h + b == s && b[..16] == b && b[16..] == [] && s[16 * (k - 1)..16 * k] == b;
      PrefixX(e, b0, h, s, |h| / 16 + 1);
    }
  }

  lemma {:induction false} PrefixX(e: Block -> Block, b0: Block, h: seq<byte>, s: seq<byte>, i: nat)
    requires 1 <= i <= |h| / 16 + 1 && h <= s
    ensures RfcX(e, b0, h, i) == RfcX(e, b0, s, i)
    decreases i
  {
    if i > 1 {
      PrefixX(e, b0, h, s, i - 1);
      assert h[16 * (i - 2)..16 * (i - 1)] == s[16 * (i - 2)..16 * (i - 1)];
    }
  }

  /** crypto_ccm_auth. */
  function Auth(e: Block -> Block, iv: Block, m: nat, a: seq<byte>, msg: seq<byte>): Result<Block>
    requires GoodIv(iv) && GoodAuthSize(m)
  {
    match FormatInput(iv, m, |a|, |msg|)
    case Err(err) => Err(err)
    case Ok(b) =>
      var x := if a == [] then e(b) else Absorb(e, e(b), Pad(FormatAdata(|a|) + a));
      Ok(Absorb(e, x, Pad(msg)))
  }

  lemma {:induction false} TailWhole(s: seq<byte>)
    requires |s| % 16 == 0
    ensures Tail(s) == []
    decreases |s|
  {
    TailSize(s);
  }

  lemma AbsorbNext(e: Block -> Block, x: Block, s: seq<byte>, t: seq<byte>)
    requires |s| % 16 == 0
    ensures Absorb(e, Absorb(e, x, s), t) == Absorb(e, x, s + t)
  {
    AbsorbCat(e, x, s, t);
    TailWhole(s);
    assert [] + t == t;
  }

  lemma StreamAbsorbed(e: Block -> Block, b0: Block, a: seq<byte>, msg: seq<byte>)
    requires |a| < Pow256(4)
    ensures |a| < Pow256(8)
    ensures var y := if a == [] then e(b0) else Absorb(e, e(b0), Pad(FormatAdata(|a|) + a));
            Absorb(e, y, Pad(msg)) == RfcChain(e, b0, Stream(a, msg))
  {
    Powers();
    AdataIsRfc(|a|);
    PadIsRfc(FormatAdata(|a|) + a);
    PadIsRfc(msg);
    if a == [] {
      assert [] + Pad(msg) == Pad(msg);
    } else {
      AbsorbNext(e, e(b0), Pad(FormatAdata(|a|) + a), Pad(msg));
    }
    AbsorbIsRfc(e, b0, Stream(a, msg));
  }

  /**
   * The authenticator is that of the RFC, with assoclen an unsigned int as in the code, for every message
   * whose length fits the length field.  One
   * byte more is still taken where the field has less than four bytes, with a first block that states
   * no length at all, which section 2.1 does not allow; anything longer is refused.
   */
  lemma AuthIsRfc(e: Block -> Block, iv: Block, m: nat, a: seq<byte>, msg: seq<byte>)
    requires GoodIv(iv) && GoodAuthSize(m) && |msg| < Pow256(4) && |a| < Pow256(4)
    ensures |a| < Pow256(8)
    ensures var l := iv[0] + 1;
            && (|msg| < Pow256(l) ==> Auth(e, iv, m, a, msg) == Ok(RfcMac(e, iv[1..16 - l], l, m, a, msg)))
            && (Auth(e, iv, m, a, msg).Ok? <==> |msg| <= Pow256(l))
            && (|msg| > Pow256(l) ==> Auth(e, iv, m, a, msg) == Err(EOVERFLOW))
    ensures var l := iv[0] + 1;
            |msg| == Pow256(l) ==>
              Auth(e, iv, m, a, msg) == Ok(RfcChain(e, B0(iv[1..16 - l], l, m, |a|, 0), Stream(a, msg)))
  {
    var l := iv[0] + 1;
    Powers();
    FormatInputIsB0(iv, m, |a|, |msg|);
    if l >= 4 { PowMono(4, l); }
    if |msg| == Pow256(l) { BeWraps(l); }
    var f := FormatInput(iv, m, |a|, |msg|);
    if f.Ok? {
      StreamAbsorbed(e, f.value, a, msg);
    }
  }

  lemma BeWraps(l: nat)
    ensures Be(Pow256(l), l) == Be(0, l)
  {
    assert 0 < Pow256(l);
    BeSplit(1, 0, 0, l);
    assert 1 * Pow256(l) + 0 == Pow256(l);
    assert [] + Be(0, l) == Be(0, l) && 0 + l == l;
  }

  // ---------------------------------------------------------------- counter mode

  /** The counter block, counted up as one 16-byte number. */
  function CtrBlock(a0: Block, i: nat): Block { Be(FromBe(a0) + i, 16) }

  function KeyStream(e: Block -> Block, a0: Block, i: nat, n: nat): (s: seq<byte>)
    requires i <= n
    ensures |s| == 16 * (n - i)
    decreases n - i
  {
    if i == n then [] else e(CtrBlock(a0, i)) + KeyStream(e, a0, i + 1, n)
  }

  function Blocks(n: nat): nat { (n + 15) / 16 }

  /** What the counter-mode cipher makes of its input. */
  function Ctr(e: Block -> Block, a0: Block, data: seq<byte>): (r: seq<byte>)
    ensures |r| == |data|
  {
    Xor(data, KeyStream(e, a0, 0, Blocks(|data|)))
  }

  /** The initialisation vector with its counter cleared. */
  function FirstCounter(iv: Block): Block
    requires GoodIv(iv)
  {
    iv[..15 - iv[0]] + Zeros(iv[0] + 1)
  }

  lemma {:induction false} FromBeCat(a: seq<byte>, b: seq<byte>)
    ensures FromBe(a + b) == FromBe(a) * Pow256(|b|) + FromBe(b)
    decreases |b|
  {
    if b == [] {
      assert a + b == a;
    } else {
      var h := b[..|b| - 1];
      FromBeCat(a, h);
      assert (a + b)[..|a + b| - 1] == a + h;
      assert FromBe(a) * Pow256(|b|) == 256 * (FromBe(a) * Pow256(|h|));
    }
  }

  lemma {:induction false} FromBeZeros(n: nat)
    ensures FromBe(Zeros(n)) == 0
    decreases n
  {
    if n > 0 {
      assert Zeros(n)[..n - 1] == Zeros(n - 1);
      FromBeZeros(n - 1);
    }
  }

  lemma {:induction false} BeFromBe(s: seq<byte>)
    ensures Be(FromBe(s), |s|) == s
    decreases |s|
  {
    if s != [] {
      var h, b := s[..|s| - 1], s[|s| - 1];
      BeFromBe(h);
      assert FromBe(s) / 256 == FromBe(h) && FromBe(s) % 256 == b;
      assert h + [b] == s;
    }
  }

  /** A number made of an upper and a lower part, in bytes. */
  lemma {:induction false} BeSplit(q: nat, i: nat, k: nat, l: nat)
    requires i < Pow256(l)
    ensures Be(q * Pow256(l) + i, k + l) == Be(q, k) + Be(i, l)
    decreases l
  {
    if l > 0 {
      var p := Pow256(l - 1);
      BeSplit(q, i / 256, k, l - 1);
      assert q * Pow256(l) == 256 * (q * p);
      assert (256 * (q * p) + i) / 256 == q * p + i / 256 && (256 * (q * p) + i) % 256 == i % 256;
      assert (Be(q, k) + Be(i / 256, l - 1)) + [i % 256] == Be(q, k) + (Be(i / 256, l - 1) + [i % 256]);
    }
  }

  /** The counter blocks are the A_i of section 2.3, as long as the counter fits its field. */
  lemma CounterIsRfc(iv: Block, i: nat)
    requires GoodIv(iv) && i < Pow256(iv[0] + 1)
    ensures var l := iv[0] + 1; CtrBlock(FirstCounter(iv), i) == [iv[0]] + iv[1..16 - l] + Be(i, l)
  {
    var l := iv[0] + 1;
    var p := iv[..16 - l];
    FromBeCat(p, Zeros(l));
    FromBeZeros(l);
    BeSplit(FromBe(p), i, 16 - l, l);
    BeFromBe(p);
    assert p == [iv[0]] + iv[1..16 - l];
  }

  // ---------------------------------------------------------------- encryption and decryption

  /** crypto_ccm_encrypt: tag and message go through the counter mode together, and the tag is cut to `m` bytes. */
  function Encrypt(e: Block -> Block, iv: Block, m: nat, a: seq<byte>, msg: seq<byte>): Result<seq<byte>>
    requires GoodAuthSize(m)
  {
    if !GoodIv(iv) then Err(EINVAL)
    else
      match Auth(e, iv, m, a, msg)
      case Err(err) => Err(err)
      case Ok(tag) =>
        var out := Ctr(e, FirstCounter(iv), tag + msg);
        Ok(out[16..] + out[..m])
  }

  /** crypto_ccm_decrypt; `stale` is what the tag buffer holds beyond the received tag. */
  function Decrypt(e: Block -> Block, iv: Block, m: nat, a: seq<byte>, c: seq<byte>,
                   stale: seq<byte>): Result<seq<byte>>
    requires GoodAuthSize(m) && |stale| == 16 - m
  {
    if |c| < m then Err(EINVAL)
    else if !GoodIv(iv) then Err(EINVAL)
    else
      var n := |c| - m;
      var out := Ctr(e, FirstCounter(iv), c[n..] + stale + c[..n]);
      match Auth(e, iv, m, a, out[16..])
      case Err(err) => Err(err)
      case Ok(tag) => if out[..m] != tag[..m] then Err(EBADMSG) else Ok(out[16..])
  }

  /** A pad of 16 bytes and one for the rest. */
  lemma CtrParts(e: Block -> Block, a0: Block, t: Block, s: seq<byte>)
    ensures var s0, rest := e(CtrBlock(a0, 0)), KeyStream(e, a0, 1, 1 + Blocks(|s|));
            Ctr(e, a0, t + s) == Xor(t, s0) + Xor(s, rest)
  {
    var data := t + s;
    assert Blocks(|data|) == 1 + Blocks(|s|);
    var s0, rest := e(CtrBlock(a0, 0)), KeyStream(e, a0, 1, 1 + Blocks(|s|));
    assert KeyStream(e, a0, 0, 1 + Blocks(|s|)) == s0 + rest;
    XorParts(t, s, s0, rest);
  }

  lemma XorParts(a: seq<byte>, b: seq<byte>, c: seq<byte>, d: seq<byte>)
    requires |a| == |c| && |b| <= |d|
    ensures Xor(a + b, c + d) == Xor(a, c) + Xor(b, d)
  {
  }

  lemma XorPrefix(a: seq<byte>, b: seq<byte>, n: nat)
    requires n <= |a| == |b|
    ensures Xor(a, b)[..n] == Xor(a[..n], b[..n])
  {
  }

  /** The counter blocks A_i of section 2.3. */
  function RfcCounter(nonce: seq<byte>, l: nat, i: nat): Block
    requires 2 <= l <= 8 && |nonce| == 15 - l
  {
    [(l - 1) as byte] + nonce + Be(i, l)
  }

  /** The key stream S_i, S_(i+1) and so on up to S_(n-1). */
  function RfcStream(e: Block -> Block, nonce: seq<byte>, l: nat, i: nat, n: nat): (s: seq<byte>)
    requires 2 <= l <= 8 && |nonce| == 15 - l && i <= n
    ensures |s| == 16 * (n - i)
    decreases n - i
  {
    if i == n then [] else e(RfcCounter(nonce, l, i)) + RfcStream(e, nonce, l, i + 1, n)
  }

  lemma {:induction false} StreamIsRfc(e: Block -> Block, iv: Block, i: nat, n: nat)
    requires GoodIv(iv) && i <= n <= Pow256(iv[0] + 1)
    ensures KeyStream(e, FirstCounter(iv), i, n) == RfcStream(e, iv[1..15 - iv[0]], iv[0] + 1, i, n)
    decreases n - i
  {
    if i < n {
      CounterIsRfc(iv, i);
      StreamIsRfc(e, iv, i + 1, n);
    }
  }

  /**
   * Sections 2.3 and 2.4: for a message whose length fits, the output is the message under S_1, S_2 and
   * so on, followed by the first M bytes of T under S_0.
   */
  lemma EncryptIsRfc(e: Block -> Block, iv: Block, m: nat, a: seq<byte>, msg: seq<byte>)
    requires GoodAuthSize(m) && GoodIv(iv) && |msg| < Pow256(4) && |msg| < Pow256(iv[0] + 1) && |a| < Pow256(4)
    ensures |a| < Pow256(8)
    ensures var l := iv[0] + 1;
            var nonce := iv[1..16 - l];
            var t := RfcMac(e, nonce, l, m, a, msg);
            var c := Xor(msg, RfcStream(e, nonce, l, 1, 1 + Blocks(|msg|)));
            Encrypt(e, iv, m, a, msg) == Ok(c + Xor(t[..m], e(RfcCounter(nonce, l, 0))[..m]))
  {
    var l, a0 := iv[0] + 1, FirstCounter(iv);
    assert Blocks(|msg|) <= |msg|;
    StreamIsRfc(e, iv, 1, 1 + Blocks(|msg|));
    CounterIsRfc(iv, 0);
    AuthIsRfc(e, iv, m, a, msg);
    var t := RfcMac(e, iv[1..16 - l], l, m, a, msg);
    CtrParts(e, a0, t, msg);
    XorPrefix(t, e(CtrBlock(a0, 0)), m);
    var u, c := Xor(t, e(CtrBlock(a0, 0))), Xor(msg, KeyStream(e, a0, 1, 1 + Blocks(|msg|)));
    assert (u + c)[16..] == c && (u + c)[..m] == u[..m];
  }

  /** The text a string decrypts to, and its tag without the mask. */
  function Text(e: Block -> Block, a0: Block, m: nat, c: seq<byte>): seq<byte>
    requires |c| >= m
  {
    Xor(c[..|c| - m], KeyStream(e, a0, 1, 1 + Blocks(|c| - m)))
  }

  function Tag(e: Block -> Block, a0: Block, m: nat, c: seq<byte>): seq<byte>
    requires |c| >= m && m <= 16
  {
    Xor(c[|c| - m..], e(CtrBlock(a0, 0))[..m])
  }

  lemma CtrOut(e: Block -> Block, a0: Block, m: nat, c: seq<byte>, stale: seq<byte>)
    requires |c| >= m && m <= 16 && |stale| == 16 - m
    ensures var n := |c| - m;
            var out := Ctr(e, a0, c[n..] + stale + c[..n]);
            out[16..] == Text(e, a0, m, c) && out[..m] == Tag(e, a0, m, c)
  {
    var n := |c| - m;
    var ct, u, s0 := c[..n], c[n..], e(CtrBlock(a0, 0));
    var t: Block := u + stale;
    CtrParts(e, a0, t, ct);
    XorPrefix(t, s0, m);
    assert t[..m] == u;
  }

  lemma DecryptForm(e: Block -> Block, iv: Block, m: nat, a: seq<byte>, c: seq<byte>, stale: seq<byte>)
    requires GoodAuthSize(m) && |stale| == 16 - m && GoodIv(iv) && |c| >= m
    ensures var q, tag := Text(e, FirstCounter(iv), m, c), Tag(e, FirstCounter(iv), m, c);
            Decrypt(e, iv, m, a, c, stale) ==
            match Auth(e, iv, m, a, q)
            case Err(err) => Err(err)
            case Ok(t) => if tag != t[..m] then Err(EBADMSG) else Ok(q)
  {
    CtrOut(e, FirstCounter(iv), m, c, stale);
  }

  /** Decryption accepts a string and returns p exactly when encrypting p gives that string. */
  lemma AcceptsExactly(e: Block -> Block, iv: Block, m: nat, a: seq<byte>, c: seq<byte>, stale: seq<byte>, p: seq<byte>)
    requires GoodAuthSize(m) && |stale| == 16 - m
    ensures Decrypt(e, iv, m, a, c, stale) == Ok(p) <==> Encrypt(e, iv, m, a, p) == Ok(c)
  {
    if GoodIv(iv) && |c| >= m {
      DecryptForm(e, iv, m, a, c, stale);
      Unmasked(e, iv, m, a, c, p);
    } else {
      TooShort(e, iv, m, a, c, p);
    }
  }

  /** The output of an encryption is at least a tag long. */
  lemma TooShort(e: Block -> Block, iv: Block, m: nat, a: seq<byte>, c: seq<byte>, p: seq<byte>)
    requires GoodAuthSize(m) && (!GoodIv(iv) || |c| < m)
    ensures Encrypt(e, iv, m, a, p) != Ok(c)
  {
  }

  lemma CtrIn(e: Block -> Block, a0: Block, m: nat, t: Block, p: seq<byte>)
    requires m <= 16
    ensures var out := Ctr(e, a0, t + p);
            out[16..] == Xor(p, KeyStream(e, a0, 1, 1 + Blocks(|p|))) &&
              out[..m] == Xor(t[..m], e(CtrBlock(a0, 0))[..m])
  {
    CtrParts(e, a0, t, p);
    XorPrefix(t, e(CtrBlock(a0, 0)), m);
  }

  /** Masked text and tag make up c exactly when text and tag are those of c. */
  lemma Masked(e: Block -> Block, a0: Block, m: nat, c: seq<byte>, p: seq<byte>, t: seq<byte>)
    requires |c| >= m && |t| == m <= 16
    ensures Xor(p, KeyStream(e, a0, 1, 1 + Blocks(|p|))) + Xor(t, e(CtrBlock(a0, 0))[..m]) == c <==>
            p == Text(e, a0, m, c) && t == Tag(e, a0, m, c)
  {
    var n, s := |c| - m, e(CtrBlock(a0, 0))[..m];
    var ct, u := c[..n], c[n..];
    assert ct + u == c;
    XorTwice(t, s);
    XorTwice(u, s);
    XorTwice(ct, KeyStream(e, a0, 1, 1 + Blocks(n)));
    if |p| == n {
      XorTwice(p, KeyStream(e, a0, 1, 1 + Blocks(n)));
    }
    var ct' := Xor(p, KeyStream(e, a0, 1, 1 + Blocks(|p|)));
    assert ct' + Xor(t, s) == c <==> ct' == ct && Xor(t, s) == u;
  }

  /** Encrypting p gives c exactly when p is the text of c and the tag of c is that of p. */
  lemma Unmasked(e: Block -> Block, iv: Block, m: nat, a: seq<byte>, c: seq<byte>, p: seq<byte>)
    requires GoodAuthSize(m) && GoodIv(iv) && |c| >= m
    ensures var q, tag := Text(e, FirstCounter(iv), m, c), Auth(e, iv, m, a, p);
            Encrypt(e, iv, m, a, p) == Ok(c) <==> p == q && tag.Ok? && Tag(e, FirstCounter(iv), m, c) == tag.value[..m]
  {
    var tag := Auth(e, iv, m, a, p);
    if tag.Ok? {
      CtrIn(e, FirstCounter(iv), m, tag.value, p);
      Masked(e, FirstCounter(iv), m, c, p, tag.value[..m]);
    }
  }
}
