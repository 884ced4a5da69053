/**
 * Cipher block chaining on bytes: crypto_xor of crypto/algapi.c, the place of the last block by a mask,
 * and the two loops of crypto/cbc.c that work in one buffer, refined to those on blocks.
 */
module CbcBytes {
  import opened Cbc
  import Ccm

  // ---------------------------------------------------------------- the mask

  /** The bitwise and of two numbers. */
  function And(a: nat, b: nat): nat {
    if a == 0 || b == 0 then 0 else 2 * And(a / 2, b / 2) + (a % 2) * (b % 2)
  }

  /** is_power_of_2, which crypto_cbc_alloc asks of the block size. */
  predicate IsPowerOf2(n: nat) { n != 0 && And(n, n - 1) == 0 }

  lemma {:induction false} AndSelf(n: nat)
    ensures And(n, n) == n
  {
    if n > 0 { AndSelf(n / 2); }
  }

  lemma AndStep(a: nat, b: nat)
    ensures And(a, b) == 2 * And(a / 2, b / 2) + (a % 2) * (b % 2)
  {
  }

  lemma {:induction false} MaskIsMod(n: nat, k: nat)
    ensures And(n, Ccm.Pow2(k) - 1) == n % Ccm.Pow2(k)
    decreases k
  {
    if k > 0 {
      MaskIsMod(n / 2, k - 1);
      MaskTwice(n, Ccm.Pow2(k - 1));
    }
  }

  lemma MaskTwice(n: nat, p: nat)
    requires p > 0 && And(n / 2, p - 1) == (n / 2) % p
    ensures And(n, 2 * p - 1) == n % (2 * p)
  {
    MaskStep(n, p);
    HalfMod(n, p);
  }

  lemma MaskStep(n: nat, p: nat)
    requires p > 0
    ensures And(n, 2 * p - 1) == 2 * And(n / 2, p - 1) + n % 2
  {
    AndStep(n, 2 * p - 1);
    assert (2 * p - 1) / 2 == p - 1 && (2 * p - 1) % 2 == 1;
  }

  lemma HalfMod(n: nat, p: nat)
    requires p > 0
    ensures n % (2 * p) == 2 * ((n / 2) % p) + n % 2
  {
    var h := n / 2;
    var q, r := h / p, h % p;
    assert h == q * p + r && n == 2 * h + n % 2;
    assert n == q * (2 * p) + (2 * r + n % 2);
    ModUnique(n, 2 * p, q, 2 * r + n % 2);
  }

  lemma Multiple(d: int, m: int)
    requires -m < d * m < m
    ensures d == 0
  {
  }

  lemma ModUnique(n: nat, m: nat, q: nat, r: nat)
    requires m > 0 && r < m && n == q * m + r
    ensures n % m == r && n / m == q
  {
    var d: int := q - n / m;
    assert d * m == n % m - r;
    Multiple(d, m);
  }

  lemma EvenPower(n: nat)
    requires n > 1 && IsPowerOf2(n)
    ensures n % 2 == 0
  {
    if n % 2 == 1 {
      OddMask(n);
    }
  }

  lemma OddMask(n: nat)
    requires n % 2 == 1
    ensures And(n, n - 1) == n - 1
  {
    assert (n - 1) / 2 == n / 2 && (n - 1) % 2 == 0;
    AndSelf(n / 2);
  }

  /** The test holds for powers of two only. */
  lemma {:induction false} PowerOf2(n: nat) returns (k: nat)
    requires IsPowerOf2(n)
    ensures n == Ccm.Pow2(k)
  {
    if n == 1 {
      k := 0;
    } else {
      EvenPower(n);
      assert (n - 1) / 2 == n / 2 - 1 && And(n, n - 1) == 2 * And(n / 2, n / 2 - 1);
      var j := PowerOf2(n / 2);
      k := j + 1;
    }
  }

  /** The mask gives the bytes beyond the last whole block, for any number of bytes, if and only if the test holds. */
  lemma MaskExact(b: nat)
    requires b > 0
    ensures (forall n: nat :: And(n, b - 1) == n % b) <==> IsPowerOf2(b)
  {
    if IsPowerOf2(b) {
      var k := PowerOf2(b);
      forall n: nat ensures And(n, b - 1) == n % b {
        MaskIsMod(n, k);
      }
    } else {
      assert b % b == 0;
    }
  }

  // ---------------------------------------------------------------- crypto_xor

  type Bytes = seq<Ccm.byte>

  /** Low and high bits are combined by themselves. */
  lemma {:induction false} XorShift(a: nat, b: nat, q: nat, r: nat, k: nat, n: nat)
    requires a < Ccm.Pow2(k) && b < Ccm.Pow2(k)
    ensures Ccm.XorBits(a + Ccm.Pow2(k) * q, b + Ccm.Pow2(k) * r, k + n) ==
            Ccm.XorBits(a, b, k) + Ccm.Pow2(k) * Ccm.XorBits(q, r, n)
    decreases k
  {
    if k > 0 {
      var p := Ccm.Pow2(k - 1);
      Halves(a, p, q);
      Halves(b, p, r);
      XorShift(a / 2, b / 2, q, r, k - 1, n);
      Twice(p, Ccm.XorBits(q, r, n));
    }
  }

  lemma Halves(a: nat, p: nat, q: nat)
    ensures (a + 2 * p * q) / 2 == a / 2 + p * q && (a + 2 * p * q) % 2 == a % 2
  {
    var m := p * q;
    assert 2 * p * q == 2 * m;
  }

  lemma Twice(p: nat, x: nat)
    ensures 2 * (p * x) == 2 * p * x
  {
  }

  /** Exclusive or of two numbers of as many bytes is exclusive or of their bytes. */
  lemma {:induction false} XorNumber(m: Bytes, n: Bytes)
    requires |m| == |n|
    ensures Ccm.XorBits(Ccm.FromBe(m), Ccm.FromBe(n), 8 * |m|) == Ccm.FromBe(Ccm.Xor(m, n))
    decreases |m|
  {
    if m != [] {
      var k := |m| - 1;
      XorNumber(m[..k], n[..k]);
      assert Ccm.Pow2(8) == 256;
      XorShift(m[k], n[k], Ccm.FromBe(m[..k]), Ccm.FromBe(n[..k]), 8, 8 * k);
      assert Ccm.Xor(m, n)[..k] == Ccm.Xor(m[..k], n[..k]);
    }
  }

  /** Four bytes, the other way round. */
  function Swapped(m: Bytes): (r: Bytes)
    requires |m| == 4
    ensures |r| == 4
  {
    [m[3], m[2], m[1], m[0]]
  }

  function Ordered(big: bool, m: Bytes): (r: Bytes)
    requires |m| == 4
    ensures |r| == 4
  {
    if big then m else Swapped(m)
  }

  /** Four bytes of memory as a word, in either byte order, and back. */
  function Word(big: bool, m: Bytes): nat
    requires |m| == 4
  {
    Ccm.FromBe(Ordered(big, m))
  }

  function Memory(big: bool, w: nat): (m: Bytes)
    ensures |m| == 4
  {
    Ordered(big, Ccm.Be(w, 4))
  }

  /** Combining words is combining the bytes in memory, whatever the byte order. */
  lemma WordXor(big: bool, m: Bytes, n: Bytes)
    requires |m| == |n| == 4
    ensures Memory(big, Ccm.XorBits(Word(big, m), Word(big, n), 32)) == Ccm.Xor(m, n)
  {
    var x, y := Ordered(big, m), Ordered(big, n);
    XorNumber(x, y);
    Ccm.BeFromBe(Ccm.Xor(x, y));
    assert Ccm.Xor(x, y) == Ordered(big, Ccm.Xor(m, n));
  }

  /** The bytes read are not among those written. */
  predicate Clear(dst: array<Ccm.byte>, d: nat, src: array<Ccm.byte>, s: nat, size: nat) {
    && d + size <= dst.Length && s + size <= src.Length
    && (src == dst ==> d + size <= s || s + size <= d)
  }

  /** The first `i` of the bytes from `d` on are combined with `y`, and nothing else has changed. */
  predicate XoredTo(was: Bytes, d: nat, y: Bytes, i: nat, now: Bytes) {
    && d + |y| <= |was| == |now| && i <= |y|
    && forall j :: 0 <= j < |was| ==> now[j] == if d <= j < d + i then Ccm.Xor1(was[j], y[j - d]) else was[j]
  }

  lemma XoredAll(was: Bytes, d: nat, y: Bytes, now: Bytes)
    requires XoredTo(was, d, y, |y|, now)
    ensures now == Filled(was, d, Ccm.Xor(was[d..d + |y|], y))
  {
  }

  lemma XoredMore(was: Bytes, d: nat, y: Bytes, i: nat, k: nat, now: Bytes, m: Bytes)
    requires XoredTo(was, d, y, i, now) && i + k <= |y|
    requires m == Ccm.Xor(now[d + i..d + i + k], y[i..i + k])
    ensures XoredTo(was, d, y, i + k, Filled(now, d + i, m))
  {
    var z := Filled(now, d + i, m);
    forall j | 0 <= j < |was| ensures z[j] == if d <= j < d + i + k then Ccm.Xor1(was[j], y[j - d]) else was[j] {
      if d + i <= j < d + i + k {
        assert z[j] == m[j - d - i];
      } else {
        assert z[j] == now[j];
      }
    }
  }

  /** Some bytes are stored. */
  method Put(dst: array<Ccm.byte>, d: nat, m: Bytes)
    requires d + |m| <= dst.Length
    modifies dst
    ensures dst[..] == Filled(old(dst[..]), d, m)
  {
    forall i | 0 <= i < |m| { dst[d + i] := m[i]; }
  }

  /** The state of crypto_xor, with what is still to be read of `y` in its place. */
  ghost predicate Mid(was: Bytes, d: nat, y: Bytes, i: nat, dst: Bytes, src: Bytes, s: nat) {
    XoredTo(was, d, y, i, dst) && s + |y| <= |src| && src[s..s + |y|] == y
  }

  lemma SliceOf<T>(x: seq<T>, from: nat, to: nat, i: nat, j: nat)
    requires from <= to <= |x| && i <= j <= to - from
    ensures x[from..to][i..j] == x[from + i..from + j]
  {
    var y, z := x[from..to][i..j], x[from + i..from + j];
    assert |y| == |z| && forall k :: 0 <= k < |y| ==> y[k] == x[from + i + k] == z[k];
  }

  lemma MidPart(was: Bytes, d: nat, y: Bytes, i: nat, k: nat, dst: Bytes, src: Bytes, s: nat)
    requires Mid(was, d, y, i, dst, src, s) && i + k <= |y|
    ensures src[s + i..s + i + k] == y[i..i + k]
  {
    SliceOf(src, s, s + |y|, i, i + k);
  }

  /** The `k` bytes from `d` on are combined with those of `src` from `s` on. */
  ghost predicate Combined(was: Bytes, d: nat, src: Bytes, s: nat, k: nat, now: Bytes) {
    d + k <= |was| && s + k <= |src| && now == Filled(was, d, Ccm.Xor(was[d..d + k], src[s..s + k]))
  }

  /** What is read is another buffer, or another part of the same one. */
  predicate Beside(src: Bytes, src2: Bytes, dst: Bytes, dst2: Bytes, d: nat, s: nat, size: nat) {
    src2 == src || (src == dst && src2 == dst2 && (d + size <= s || s + size <= d))
  }

  lemma MidNext(was: Bytes, d: nat, y: Bytes, i: nat, k: nat, dst: Bytes, src: Bytes, s: nat, dst2: Bytes, src2: Bytes)
    requires Mid(was, d, y, i, dst, src, s) && i + k <= |y|
    requires Combined(dst, d + i, src, s + i, k, dst2) && Beside(src, src2, dst, dst2, d, s, |y|)
    ensures Mid(was, d, y, i + k, dst2, src2, s)
  {
    var m := Ccm.Xor(dst[d + i..d + i + k], src[s + i..s + i + k]);
    MidPart(was, d, y, i, k, dst, src, s);
    XoredMore(was, d, y, i, k, dst, m);
    if src2 != src {
      assert forall j :: s <= j < s + |y| ==> dst2[j] == dst[j];
    }
  }

  /** One turn of the word loop, with what the buffers held. */
  method XorWord(big: bool, dst: array<Ccm.byte>, d: nat, src: array<Ccm.byte>, s: nat, ghost z: Bytes, ghost x: Bytes)
    returns (ghost z2: Bytes)
    requires d + 4 <= dst.Length && s + 4 <= src.Length && dst[..] == z && src[..] == x
    modifies dst
    ensures dst[..] == z2 && Combined(z, d, x, s, 4, z2)
  {
    var m, n := dst[..][d..d + 4], src[..][s..s + 4];
    WordXor(big, m, n);
    Put(dst, d, Memory(big, Ccm.XorBits(Word(big, m), Word(big, n), 32)));
    z2 := dst[..];
  }

  /** One turn of the byte loop. */
  method XorByte(dst: array<Ccm.byte>, d: nat, src: array<Ccm.byte>, s: nat, ghost z: Bytes, ghost x: Bytes)
    returns (ghost z2: Bytes)
    requires d < dst.Length && s < src.Length && dst[..] == z && src[..] == x
    modifies dst
    ensures dst[..] == z2 && Combined(z, d, x, s, 1, z2)
  {
    assert Ccm.Xor(z[d..d + 1], x[s..s + 1]) == [Ccm.Xor1(dst[d], src[s])];
    Put(dst, d, [Ccm.Xor1(dst[d], src[s])]);
    z2 := dst[..];
  }

  /** One turn of either loop, for `k` bytes. */
  method XorPart(big: bool, dst: array<Ccm.byte>, d: nat, src: array<Ccm.byte>, s: nat, k: nat, ghost z: Bytes,
                 ghost x: Bytes)
    returns (ghost z2: Bytes, ghost x2: Bytes)
    requires (k == 4 || k == 1) && d + k <= dst.Length && s + k <= src.Length && dst[..] == z && src[..] == x
    modifies dst
    ensures dst[..] == z2 && src[..] == x2 && Combined(z, d, x, s, k, z2)
    ensures if src == dst then x == z && x2 == z2 else x2 == x
  {
    if k == 4 {
      z2 := XorWord(big, dst, d, src, s, z, x);
    } else {
      z2 := XorByte(dst, d, src, s, z, x);
    }
    x2 := src[..];
  }

  method XorRound(big: bool, dst: array<Ccm.byte>, d: nat, src: array<Ccm.byte>, s: nat, k: nat, i: nat,
                  ghost was: Bytes, ghost y: Bytes, ghost z: Bytes, ghost x: Bytes)
    returns (ghost z2: Bytes, ghost x2: Bytes)
    requires (k == 4 || k == 1) && i + k <= |y| && Clear(dst, d, src, s, |y|) && dst[..] == z && src[..] == x
    requires Mid(was, d, y, i, z, x, s)
    modifies dst
    ensures dst[..] == z2 && src[..] == x2 && Mid(was, d, y, i + k, z2, x2, s)
  {
    z2, x2 := XorPart(big, dst, d + i, src, s + i, k, z, x);
    MidNext(was, d, y, i, k, z, x, s, z2, x2);
  }

  /** crypto_xor: words while there are four bytes, then bytes; whatever the byte order, bytes meet bytes. */
  method CryptoXor(big: bool, dst: array<Ccm.byte>, d: nat, src: array<Ccm.byte>, s: nat, size: nat)
    requires Clear(dst, d, src, s, size)
    modifies dst
    ensures dst[..] == Filled(old(dst[..]), d, Ccm.Xor(old(dst[..])[d..d + size], old(src[..])[s..s + size]))
  {
    ghost var was, y := dst[..], src[..][s..s + size];
    ghost var z, x := was, src[..];
    var i: nat := 0;
    while i < size
      invariant i <= size && dst[..] == z && src[..] == x && Mid(was, d, y, i, z, x, s)
    {
      var k := if size - i >= 4 then 4 else 1;
      z, x := XorRound(big, dst, d, src, s, k, i, was, y, z, x);
      i := i + k;
    }
    XoredAll(was, d, y, z);
  }

  // ---------------------------------------------------------------- blocks of bytes

  /** Where the block with a number starts. */
  function Start(i: nat, b: nat): nat { if i == 0 then 0 else Start(i - 1, b) + b }

  lemma {:induction false} StartIs(i: nat, b: nat)
    ensures Start(i, b) == i * b
  {
    if i > 0 {
      StartIs(i - 1, b);
      assert i * b == (i - 1) * b + b;
    }
  }

  lemma {:induction false} StartOrder(i: nat, j: nat, b: nat)
    requires i <= j
    ensures Start(i, b) <= Start(j, b)
    decreases j
  {
    if i < j { StartOrder(i, j - 1, b); }
  }

  lemma Before(i: nat, n: nat, b: nat)
    requires i < n
    ensures Start(i, b) + b <= Start(n, b)
  {
    StartOrder(i + 1, n, b);
  }

  /** A buffer made of these blocks, with the bytes of `was` beyond them. */
  ghost predicate Holds(s: Bytes, b: nat, was: Bytes, blocks: seq<Bytes>) {
    && |s| == |was| && Start(|blocks|, b) <= |s| && s[Start(|blocks|, b)..] == was[Start(|blocks|, b)..]
    && forall i :: 0 <= i < |blocks| ==> BlockIs(s, b, i, blocks[i])
  }

  ghost predicate BlockIs(s: Bytes, b: nat, i: nat, x: Bytes) {
    |x| == b && Start(i, b) + b <= |s| && s[Start(i, b)..Start(i, b) + b] == x
  }

  /** These are all whole blocks of a buffer. */
  ghost predicate Divided(s: Bytes, b: nat, blocks: seq<Bytes>) {
    Holds(s, b, s, blocks) && |s| < Start(|blocks|, b) + b
  }

  /** Every buffer can be divided, in one way. */
  lemma Divide(s: Bytes, b: nat) returns (blocks: seq<Bytes>)
    requires b > 0
    ensures Divided(s, b, blocks) && |blocks| == |s| / b
  {
    WholeBlocks(|s|, b);
    blocks := FirstBlocks(s, b, |s| / b);
  }

  lemma {:induction false} FirstBlocks(s: Bytes, b: nat, n: nat) returns (blocks: seq<Bytes>)
    requires Start(n, b) <= |s|
    ensures Holds(s, b, s, blocks) && |blocks| == n
    decreases n
  {
    if n == 0 {
      blocks := [];
    } else {
      var h := FirstBlocks(s, b, n - 1);
      blocks := h + [s[Start(n - 1, b)..Start(n - 1, b) + b]];
      assert forall i :: 0 <= i < n - 1 ==> BlockIs(s, b, i, h[i]);
    }
  }

  lemma {:induction false} DividedOnce(s: Bytes, b: nat, x: seq<Bytes>, y: seq<Bytes>)
    requires b > 0 && Divided(s, b, x) && Divided(s, b, y)
    ensures x == y
  {
    if |x| < |y| {
      Before(|x|, |y|, b);
    } else if |y| < |x| {
      Before(|y|, |x|, b);
    } else {
      forall i | 0 <= i < |x| ensures x[i] == y[i] {
        assert BlockIs(s, b, i, x[i]) && BlockIs(s, b, i, y[i]);
      }
    }
  }

  /** A number of bytes as whole blocks and the rest. */
  lemma WholeBlocks(n: nat, b: nat)
    requires b > 0
    ensures n == Start(n / b, b) + n % b && n % b < b
  {
    StartIs(n / b, b);
    DivMod(n, b);
  }

  lemma DivMod(n: nat, b: nat)
    requires b > 0
    ensures n == (n / b) * b + n % b
  {
  }

  /** The number of whole blocks, and of bytes beyond them. */
  lemma DividedSizes(n: nat, b: nat, k: nat)
    requires b > 0 && Start(k, b) <= n < Start(k, b) + b
    ensures k == n / b && n - Start(k, b) == n % b
  {
    StartIs(k, b);
    ModUnique(n, b, k, n - Start(k, b));
  }

  /** Bytes of another block are not touched. */
  lemma OtherBlock(s: Bytes, b: nat, i: nat, r: Bytes, j: nat, x: Bytes)
    requires |r| == b && Start(i, b) + b <= |s| && i != j && BlockIs(s, b, j, x)
    ensures BlockIs(Filled(s, Start(i, b), r), b, j, x)
  {
    if i < j { Before(i, j, b); } else { Before(j, i, b); }
    FilledElsewhere(s, Start(i, b), r, Start(j, b), Start(j, b) + b);
  }

  lemma FilledElsewhere(s: Bytes, at: nat, r: Bytes, from: nat, to: nat)
    requires at + |r| <= |s| && from <= to <= |s| && (to <= at || at + |r| <= from)
    ensures Filled(s, at, r)[from..to] == s[from..to]
  {
    var z := Filled(s, at, r);
    assert forall i :: from <= i < to ==> z[i] == s[i];
    var u, v := z[from..to], s[from..to];
    assert forall i :: 0 <= i < |u| ==> u[i] == z[from + i] == v[i];
  }

  lemma PutBlock(s: Bytes, b: nat, was: Bytes, blocks: seq<Bytes>, i: nat, r: Bytes, z: Bytes)
    requires Holds(s, b, was, blocks) && i < |blocks| && |r| == b
    requires Start(i, b) + b <= |s| && z == Filled(s, Start(i, b), r)
    ensures Holds(z, b, was, blocks[i := r])
  {
    Before(i, |blocks|, b);
    var t := Start(|blocks|, b);
    assert z[t..] == s[t..];
    var now := blocks[i := r];
    forall j | 0 <= j < |now| ensures BlockIs(z, b, j, now[j]) {
      assert BlockIs(s, b, j, blocks[j]);
      if j == i {
        assert z[Start(i, b)..Start(i, b) + b] == r;
      } else {
        OtherBlock(s, b, i, r, j, blocks[j]);
      }
    }
  }

  // ---------------------------------------------------------------- the loops in one buffer

  /** A cipher on blocks of bytes. */
  function Over(enc: Bytes -> Bytes, dec: Bytes -> Bytes): Cipher<Bytes> {
    Cipher(enc, dec, (x: Bytes, y: Bytes) => Ccm.Xor(x, y))
  }

  ghost predicate Sized(f: Bytes -> Bytes, b: nat) { forall x {:trigger f(x)} :: |x| == b ==> |f(x)| == b }

  /** The cipher on one block, in place. */
  method Transform(f: Bytes -> Bytes, buf: array<Ccm.byte>, b: nat, ghost i: nat, at: nat, ghost was: Bytes,
                   ghost blocks: seq<Bytes>)
    requires Sized(f, b) && Holds(buf[..], b, was, blocks) && i < |blocks| && at == Start(i, b)
    modifies buf
    ensures |blocks[i]| == b && Holds(buf[..], b, was, blocks[i := f(blocks[i])])
  {
    ghost var s := buf[..];
    assert BlockIs(s, b, i, blocks[i]);
    var x := buf[..][at..at + b];
    Put(buf, at, f(x));
    PutBlock(s, b, was, blocks, i, f(blocks[i]), buf[..]);
  }

  /** crypto_xor of one block with a block of this or of another buffer. */
  method XorBlock(big: bool, buf: array<Ccm.byte>, b: nat, ghost i: nat, at: nat, src: array<Ccm.byte>, s: nat,
                  ghost was: Bytes, ghost blocks: seq<Bytes>, ghost prev: Bytes)
    requires Holds(buf[..], b, was, blocks) && i < |blocks| && at == Start(i, b) && Clear(buf, at, src, s, b)
    requires src[..][s..s + b] == prev
    modifies buf
    ensures |blocks[i]| == b && Holds(buf[..], b, was, blocks[i := Ccm.Xor(blocks[i], prev)])
  {
    ghost var z := buf[..];
    assert BlockIs(z, b, i, blocks[i]);
    CryptoXor(big, buf, at, src, s, b);
    PutBlock(z, b, was, blocks, i, Ccm.Xor(blocks[i], prev), buf[..]);
  }

  lemma PutTwice(blocks: seq<Bytes>, i: nat, u: Bytes, v: Bytes)
    requires i < |blocks|
    ensures blocks[i := u][i] == u && blocks[i := u][i := v] == blocks[i := v]
    ensures i > 0 ==> blocks[i := u][i - 1] == blocks[i - 1]
  {
  }

  lemma Neighbour(s: Bytes, b: nat, was: Bytes, blocks: seq<Bytes>, i: nat)
    requires Holds(s, b, was, blocks) && 0 < i < |blocks|
    ensures var at := Start(i, b); b <= at && at + b <= |s| && s[at - b..at] == blocks[i - 1]
  {
    assert BlockIs(s, b, i, blocks[i]) && BlockIs(s, b, i - 1, blocks[i - 1]);
  }

  /** The cipher and then the block before, which is still encrypted. */
  method DecryptInner(big: bool, dec: Bytes -> Bytes, buf: array<Ccm.byte>, b: nat, ghost i: nat, at: nat,
                      ghost was: Bytes, ghost blocks: seq<Bytes>)
    requires Sized(dec, b) && Holds(buf[..], b, was, blocks) && 0 < i < |blocks| && at == Start(i, b)
    modifies buf
    ensures b <= at && Holds(buf[..], b, was, blocks[i := Ccm.Xor(dec(blocks[i]), blocks[i - 1])])
  {
    ghost var u := dec(blocks[i]);
    PutTwice(blocks, i, u, Ccm.Xor(u, blocks[i - 1]));
    Transform(dec, buf, b, i, at, was, blocks);
    Neighbour(buf[..], b, was, blocks[i := u], i);
    XorBlock(big, buf, b, i, at, buf, at - b, was, blocks[i := u], blocks[i - 1]);
  }

  /** The cipher and then the chaining value kept elsewhere, for the first block. */
  method DecryptFirst(big: bool, dec: Bytes -> Bytes, buf: array<Ccm.byte>, b: nat, iv: array<Ccm.byte>,
                      ghost was: Bytes, ghost blocks: seq<Bytes>)
    requires Sized(dec, b) && Holds(buf[..], b, was, blocks) && blocks != [] && iv != buf && iv.Length == b
    modifies buf
    ensures Holds(buf[..], b, was, blocks[0 := Ccm.Xor(dec(blocks[0]), iv[..])])
  {
    ghost var u := dec(blocks[0]);
    PutTwice(blocks, 0, u, Ccm.Xor(u, iv[..]));
    Transform(dec, buf, b, 0, 0, was, blocks);
    assert BlockIs(buf[..], b, 0, blocks[0 := u][0]);
    assert iv[..][0..0 + b] == iv[..];
    XorBlock(big, buf, b, 0, 0, iv, 0, was, blocks[0 := u], iv[..]);
  }

  /** The mask finds the start of the last whole block. */
  lemma LastStart(n: nat, b: nat, k: nat)
    requires IsPowerOf2(b) && b <= n && Start(k, b) <= n < Start(k, b) + b
    ensures k > 0 && And(n, b - 1) == n - Start(k, b) && n - And(n, b - 1) - b == Start(k - 1, b)
  {
    MaskExact(b);
    DividedSizes(n, b, k);
  }

  /** memcpy to walk->iv. */
  method SetIv(iv: array<Ccm.byte>, v: Bytes)
    requires |v| == iv.Length
    modifies iv
    ensures iv[..] == v
  {
    Put(iv, 0, v);
  }

  /** One round on blocks, from the last to the first. */
  lemma RearBlocks(c: Cipher<Bytes>, iv: Bytes, blocks: seq<Bytes>, i: nat)
    requires i < |blocks|
    ensures var d := Dec(c, iv, blocks);
            var now, prev := Rear(blocks, 0, d, i + 1), if i == 0 then iv else blocks[i - 1];
            && |now| == |blocks| && now[i] == blocks[i] && (i > 0 ==> now[i - 1] == prev)
            && now[i := c.xor(c.dec(now[i]), prev)] == Rear(blocks, 0, d, i)
  {
    var d, prev := Dec(c, iv, blocks), if i == 0 then iv else blocks[i - 1];
    assert blocks[0..0 + |blocks|] == blocks;
    RearDec(c, iv, blocks, 0, |blocks|, i, prev);
    PutTwice(Rear(blocks, 0, d, i + 1), i, c.dec(blocks[i]), c.xor(c.dec(blocks[i]), prev));
  }

  /** The blocks from number `i` on are decrypted. */
  ghost predicate LeftTo(dec: Bytes -> Bytes, iv: Bytes, was: Bytes, b: nat, blocks: seq<Bytes>, i: nat, now: Bytes) {
    i <= |blocks| && Holds(now, b, was, Rear(blocks, 0, Dec(Over(dec, dec), iv, blocks), i))
  }

  /** Decryption needs one direction of the cipher only. */
  lemma {:induction false} DecOnly(enc: Bytes -> Bytes, dec: Bytes -> Bytes, iv: Bytes, s: seq<Bytes>)
    ensures Dec(Over(enc, dec), iv, s) == Dec(Over(dec, dec), iv, s)
    decreases |s|
  {
    if s != [] { DecOnly(enc, dec, iv, s[..|s| - 1]); }
  }

  method DecryptRound(big: bool, dec: Bytes -> Bytes, buf: array<Ccm.byte>, b: nat, ghost i: nat, at: nat,
                      ghost was: Bytes, ghost iv: Bytes, ghost blocks: seq<Bytes>, ghost s: Bytes)
    returns (ghost z: Bytes)
    requires Sized(dec, b) && 0 < i < |blocks| && at == Start(i, b) && buf[..] == s
    requires LeftTo(dec, iv, was, b, blocks, i + 1, s)
    modifies buf
    ensures b <= at && buf[..] == z && LeftTo(dec, iv, was, b, blocks, i, z)
  {
    RearBlocks(Over(dec, dec), iv, blocks, i);
    DecryptInner(big, dec, buf, b, i, at, was, Rear(blocks, 0, Dec(Over(dec, dec), iv, blocks), i + 1));
    z := buf[..];
  }

  lemma BackOne(i: nat, b: nat, r: nat)
    requires r < b && Start(i, b) + r >= b
    ensures i > 0 && Start(i - 1, b) == Start(i, b) - b
  {
  }

  lemma AtFirst(i: nat, b: nat, r: nat)
    requires b > 0 && Start(i, b) + r < b
    ensures i == 0
  {
  }

  lemma NoneLeft(dec: Bytes -> Bytes, iv: Bytes, was: Bytes, b: nat, blocks: seq<Bytes>)
    requires Holds(was, b, was, blocks)
    ensures LeftTo(dec, iv, was, b, blocks, |blocks|, was)
  {
    RearEnds(blocks, 0, Dec(Over(dec, dec), iv, blocks));
  }

  /** The loop from the last block down to the second. */
  method DecryptLoop(big: bool, dec: Bytes -> Bytes, buf: array<Ccm.byte>, b: nat, start: nat, ghost was: Bytes,
                     ghost iv: Bytes, ghost r: nat, ghost blocks: seq<Bytes>)
    returns (nbytes: nat)
    requires b > 0 && Sized(dec, b) && blocks != [] && start == Start(|blocks| - 1, b) && r < b
    requires buf.Length == start + b + r && buf[..] == was && Holds(was, b, was, blocks)
    modifies buf
    ensures nbytes == b + r && LeftTo(dec, iv, was, b, blocks, 1, buf[..])
  {
    ghost var i: nat := |blocks| - 1;
    ghost var s := was;
    NoneLeft(dec, iv, was, b, blocks);
    var src := start;
    nbytes := buf.Length;
    while nbytes - b >= b
      invariant i < |blocks| && src == Start(i, b) && nbytes == src + b + r && buf[..] == s
      invariant LeftTo(dec, iv, was, b, blocks, i + 1, s)
    {
      BackOne(i, b, r);
      s := DecryptRound(big, dec, buf, b, i, src, was, iv, blocks, s);
      src, nbytes, i := src - b, nbytes - b, i - 1;
    }
    AtFirst(i, b, r);
  }

  /** The first block, and with it all. */
  method DecryptRest(big: bool, dec: Bytes -> Bytes, buf: array<Ccm.byte>, iv: array<Ccm.byte>, b: nat,
                     ghost was: Bytes, ghost blocks: seq<Bytes>)
    requires Sized(dec, b) && iv.Length == b && iv != buf && blocks != []
    requires LeftTo(dec, iv[..], was, b, blocks, 1, buf[..])
    modifies buf
    ensures Holds(buf[..], b, was, Dec(Over(dec, dec), iv[..], blocks))
  {
    ghost var d := Dec(Over(dec, dec), iv[..], blocks);
    RearBlocks(Over(dec, dec), iv[..], blocks, 0);
    DecryptFirst(big, dec, buf, b, iv, was, Rear(blocks, 0, d, 1));
    RearEnds(blocks, 0, d);
    assert Filled(blocks, 0, d) == d;
  }

  /**
   * crypto_cbc_decrypt_inplace on bytes: the whole blocks of the buffer are decrypted as on blocks, the
   * bytes beyond them stay, and their number is returned.
   */
  method DecryptBytes(big: bool, ghost enc: Bytes -> Bytes, dec: Bytes -> Bytes, buf: array<Ccm.byte>,
                      iv: array<Ccm.byte>, b: nat, ghost blocks: seq<Bytes>)
    returns (rest: nat)
    requires IsPowerOf2(b) && Sized(dec, b) && b <= buf.Length && iv.Length == b && iv != buf
    requires Divided(buf[..], b, blocks)
    modifies buf, iv
    ensures Holds(buf[..], b, old(buf[..]), Dec(Over(enc, dec), old(iv[..]), blocks))
    ensures iv[..] == Last(old(iv[..]), blocks) && rest == buf.Length % b
  {
    ghost var was, iv0, k := buf[..], iv[..], |blocks|;
    LastStart(buf.Length, b, k);
    DividedSizes(buf.Length, b, k);
    var start: nat := buf.Length - And(buf.Length, b - 1) - b;
    assert BlockIs(was, b, k - 1, blocks[k - 1]);
    var lastIv := buf[..][start..start + b];
    var nbytes := DecryptLoop(big, dec, buf, b, start, was, iv0, buf.Length - Start(k, b), blocks);
    DecryptRest(big, dec, buf, iv, b, was, blocks);
    DecOnly(enc, dec, iv0, blocks);
    SetIv(iv, lastIv);
    rest := nbytes - b;
  }

  /** The first `i` blocks are encrypted. */
  ghost predicate DoneTo(enc: Bytes -> Bytes, iv: Bytes, was: Bytes, b: nat, blocks: seq<Bytes>, i: nat, now: Bytes) {
    i <= |blocks| && Holds(now, b, was, Filled(blocks, 0, Enc(Over(enc, enc), iv, blocks[0..0 + i])))
  }

  lemma {:induction false} EncOnly(enc: Bytes -> Bytes, dec: Bytes -> Bytes, iv: Bytes, p: seq<Bytes>)
    ensures Enc(Over(enc, dec), iv, p) == Enc(Over(enc, enc), iv, p)
    decreases |p|
  {
    if p != [] { EncOnly(enc, dec, iv, p[..|p| - 1]); }
  }

  lemma NoneDone(enc: Bytes -> Bytes, iv: Bytes, was: Bytes, b: nat, blocks: seq<Bytes>)
    requires Holds(was, b, was, blocks)
    ensures DoneTo(enc, iv, was, b, blocks, 0, was)
  {
    assert Filled(blocks, 0, []) == blocks;
  }

  lemma AllDone(enc: Bytes -> Bytes, iv: Bytes, was: Bytes, b: nat, blocks: seq<Bytes>, now: Bytes)
    requires DoneTo(enc, iv, was, b, blocks, |blocks|, now)
    ensures Holds(now, b, was, Enc(Over(enc, enc), iv, blocks))
  {
    assert blocks[0..0 + |blocks|] == blocks;
    assert Filled(blocks, 0, Enc(Over(enc, enc), iv, blocks)) == Enc(Over(enc, enc), iv, blocks);
  }

  /** The state on blocks in the middle of the loop, and after one block more. */
  lemma DoneOne(c: Cipher<Bytes>, iv: Bytes, blocks: seq<Bytes>, i: nat)
    requires i < |blocks|
    ensures var now := Filled(blocks, 0, Enc(c, iv, blocks[0..0 + i]));
            && |now| == |blocks| && now[i] == blocks[i]
            && var prev := if i == 0 then iv else now[i - 1];
               now[i := c.enc(c.xor(now[i], prev))] == Filled(blocks, 0, Enc(c, iv, blocks[0..0 + (i + 1)]))
  {
    var now, prev := Filled(blocks, 0, Enc(c, iv, blocks[0..0 + i])), Last(iv, Enc(c, iv, blocks[0..0 + i]));
    EncryptedNext(c, iv, blocks, blocks, 0, i, now, prev, c.enc(c.xor(blocks[i], prev)));
  }

  /** One block of crypto_cbc_encrypt_inplace: the chaining value, and then the cipher. */
  method EncryptBlock(big: bool, enc: Bytes -> Bytes, buf: array<Ccm.byte>, b: nat, ghost i: nat, at: nat,
                      src: array<Ccm.byte>, s: nat, ghost was: Bytes, ghost blocks: seq<Bytes>, ghost prev: Bytes)
    requires Sized(enc, b) && Holds(buf[..], b, was, blocks) && i < |blocks| && at == Start(i, b)
    requires Clear(buf, at, src, s, b) && src[..][s..s + b] == prev
    modifies buf
    ensures Holds(buf[..], b, was, blocks[i := enc(Ccm.Xor(blocks[i], prev))])
  {
    ghost var u := Ccm.Xor(blocks[i], prev);
    PutTwice(blocks, i, u, enc(u));
    XorBlock(big, buf, b, i, at, src, s, was, blocks, prev);
    Transform(enc, buf, b, i, at, was, blocks[i := u]);
  }

  /** The block before, or for the first block the chaining value, and then the cipher. */
  method EncryptAfter(big: bool, enc: Bytes -> Bytes, buf: array<Ccm.byte>, iv: array<Ccm.byte>, b: nat, ghost i: nat,
                      at: nat, ghost was: Bytes, ghost now: seq<Bytes>)
    requires b > 0 && Sized(enc, b) && iv.Length == b && iv != buf && at == Start(i, b) && i < |now|
    requires Holds(buf[..], b, was, now)
    modifies buf
    ensures Holds(buf[..], b, was, now[i := enc(Ccm.Xor(now[i], if i == 0 then iv[..] else now[i - 1]))])
  {
    assert BlockIs(buf[..], b, i, now[i]);
    if at == 0 {
      AtFirst(i, b, 0);
      assert iv[..][0..0 + b] == iv[..];
      EncryptBlock(big, enc, buf, b, i, at, iv, 0, was, now, iv[..]);
    } else {
      Neighbour(buf[..], b, was, now, i);
      EncryptBlock(big, enc, buf, b, i, at, buf, at - b, was, now, now[i - 1]);
    }
  }

  method EncryptRound(big: bool, enc: Bytes -> Bytes, buf: array<Ccm.byte>, iv: array<Ccm.byte>, b: nat, ghost i: nat,
                      at: nat, ghost was: Bytes, ghost blocks: seq<Bytes>, ghost s: Bytes)
    returns (ghost z: Bytes)
    requires b > 0 && Sized(enc, b) && iv.Length == b && iv != buf && at == Start(i, b) && i < |blocks|
    requires buf[..] == s && DoneTo(enc, iv[..], was, b, blocks, i, s)
    modifies buf
    ensures buf[..] == z && DoneTo(enc, iv[..], was, b, blocks, i + 1, z)
  {
    ghost var now := Filled(blocks, 0, Enc(Over(enc, enc), iv[..], blocks[0..0 + i]));
    DoneOne(Over(enc, enc), iv[..], blocks, i);
    EncryptAfter(big, enc, buf, iv, b, i, at, was, now);
    z := buf[..];
  }

  /** What a loop needs to know of its counters: `k` whole blocks and `r` bytes. */
  lemma InLoop(i: nat, k: nat, b: nat, r: nat)
    requires b > 0 && r < b && i <= k
    ensures Start(i, b) + b <= Start(k, b) + r ==> i < k && Start(i + 1, b) == Start(i, b) + b
    ensures Start(i, b) + b > Start(k, b) + r ==> i == k
  {
    if i < k {
      Before(i, k, b);
    }
  }

  /** The loop over the whole blocks. */
  method EncryptLoop(big: bool, enc: Bytes -> Bytes, buf: array<Ccm.byte>, iv: array<Ccm.byte>, b: nat,
                     ghost was: Bytes, ghost r: nat, ghost blocks: seq<Bytes>)
    returns (src: nat, nbytes: nat)
    requires b > 0 && Sized(enc, b) && iv.Length == b && iv != buf && buf[..] == was && Holds(was, b, was, blocks)
    requires r < b && buf.Length == Start(|blocks|, b) + r
    modifies buf
    ensures src == Start(|blocks|, b) && nbytes == r && DoneTo(enc, iv[..], was, b, blocks, |blocks|, buf[..])
  {
    ghost var i: nat, s, v := 0, was, iv[..];
    NoneDone(enc, v, was, b, blocks);
    src, nbytes := 0, buf.Length;
    while nbytes >= b
      invariant i <= |blocks| && src == Start(i, b) && src + nbytes == buf.Length && buf[..] == s && iv[..] == v
      invariant DoneTo(enc, v, was, b, blocks, i, s)
    {
      InLoop(i, |blocks|, b, r);
      s := EncryptRound(big, enc, buf, iv, b, i, src, was, blocks, s);
      i, src, nbytes := i + 1, src + b, nbytes - b;
    }
    InLoop(i, |blocks|, b, r);
  }

  /** crypto_cbc_encrypt_inplace on bytes, likewise. */
  method EncryptBytes(big: bool, enc: Bytes -> Bytes, ghost dec: Bytes -> Bytes, buf: array<Ccm.byte>,
                      iv: array<Ccm.byte>, b: nat, ghost blocks: seq<Bytes>)
    returns (rest: nat)
    requires b > 0 && Sized(enc, b) && b <= buf.Length && iv.Length == b && iv != buf
    requires Divided(buf[..], b, blocks)
    modifies buf, iv
    ensures var r := Enc(Over(enc, dec), old(iv[..]), blocks);
            Holds(buf[..], b, old(buf[..]), r) && iv[..] == Last(old(iv[..]), r)
    ensures rest == buf.Length % b
  {
    ghost var was, iv0, k := buf[..], iv[..], |blocks|;
    ghost var r := Enc(Over(enc, enc), iv0, blocks);
    DividedSizes(buf.Length, b, k);
    var src, nbytes := EncryptLoop(big, enc, buf, iv, b, was, buf.Length - Start(k, b), blocks);
    AllDone(enc, iv0, was, b, blocks, buf[..]);
    EncOnly(enc, dec, iv0, blocks);
    assert k > 0 && BlockIs(buf[..], b, k - 1, r[k - 1]);
    var v := buf[..][src - b..src];
    SetIv(iv, v);
    rest := nbytes;
  }
}
