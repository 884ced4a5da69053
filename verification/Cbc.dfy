/**
 * Cipher block chaining as in crypto/cbc.c, over blocks of any kind, against section 6.2 of
 * NIST SP 800-38A.  The data is walked in steps; each step runs one of two loops.
 */
module Cbc {

  /** A block cipher: the two directions, and exclusive or of blocks. */
  datatype Cipher<!B(!new)> = Cipher(enc: B -> B, dec: B -> B, xor: (B, B) -> B)

  ghost predicate Laws<B(!new)>(c: Cipher<B>) {
    && (forall x {:trigger c.dec(c.enc(x))} :: c.dec(c.enc(x)) == x)
    && (forall x, y {:trigger c.xor(c.xor(x, y), y)} :: c.xor(c.xor(x, y), y) == x)
  }

  // ---------------------------------------------------------------- section 6.2

  function Enc<B(!new)>(c: Cipher<B>, iv: B, p: seq<B>): (r: seq<B>)
    ensures |r| == |p|
    decreases |p|
  {
    if p == [] then [] else
      var r := Enc(c, iv, p[..|p| - 1]);
      r + [c.enc(c.xor(p[|p| - 1], Last(iv, r)))]
  }

  function Dec<B(!new)>(c: Cipher<B>, iv: B, s: seq<B>): (r: seq<B>)
    ensures |r| == |s|
    decreases |s|
  {
    if s == [] then [] else
      var t := s[..|s| - 1];
      Dec(c, iv, t) + [c.xor(c.dec(s[|s| - 1]), Last(iv, t))]
  }

  /** The chaining value behind some ciphertext. */
  function Last<B>(iv: B, s: seq<B>): B { if s == [] then iv else s[|s| - 1] }

  /** Decryption undoes encryption. */
  lemma {:induction false} DecEnc<B(!new)>(c: Cipher<B>, iv: B, p: seq<B>)
    requires Laws(c)
    ensures Dec(c, iv, Enc(c, iv, p)) == p
    decreases |p|
  {
    if p != [] {
      var q := p[..|p| - 1];
      var r, s := Enc(c, iv, q), Enc(c, iv, p);
      DecEnc(c, iv, q);
      var last := c.xor(p[|q|], Last(iv, r));
      assert s == r + [c.enc(last)];
      DecCat(c, iv, r, [c.enc(last)]);
      assert Dec(c, Last(iv, r), [c.enc(last)]) == [p[|q|]];
      assert q + [p[|q|]] == p;
    }
  }

  /** A text in two parts: the second is chained to the last block of the first. */
  lemma {:induction false} EncCat<B(!new)>(c: Cipher<B>, iv: B, p: seq<B>, q: seq<B>)
    ensures var r := Enc(c, iv, p); Enc(c, iv, p + q) == r + Enc(c, Last(iv, r), q)
    decreases |q|
  {
    if q == [] {
      assert p + q == p;
    } else {
      var h, r := q[..|q| - 1], Enc(c, iv, p);
      EncCat(c, iv, p, h);
      assert (p + q)[..|p + q| - 1] == p + h;
      assert Last(iv, r + Enc(c, Last(iv, r), h)) == Last(Last(iv, r), Enc(c, Last(iv, r), h));
    }
  }

  lemma {:induction false} DecCat<B(!new)>(c: Cipher<B>, iv: B, s: seq<B>, t: seq<B>)
    ensures Dec(c, iv, s + t) == Dec(c, iv, s) + Dec(c, Last(iv, s), t)
    decreases |t|
  {
    if t == [] {
      assert s + t == s;
    } else {
      var h := t[..|t| - 1];
      DecCat(c, iv, s, h);
      assert (s + t)[..|s + t| - 1] == s + h;
      assert Last(iv, s + h) == Last(Last(iv, s), h);
    }
  }

  /** Each block needs only itself and the one before it. */
  lemma {:induction false} DecAt<B(!new)>(c: Cipher<B>, iv: B, s: seq<B>, i: nat)
    requires i < |s|
    ensures Dec(c, iv, s)[i] == c.xor(c.dec(s[i]), if i == 0 then iv else s[i - 1])
    decreases |s|
  {
    if i < |s| - 1 { DecAt(c, iv, s[..|s| - 1], i); }
  }

  // ---------------------------------------------------------------- the loops

  /** A buffer with the blocks from `off` on replaced by `r`. */
  function Filled<B>(was: seq<B>, off: nat, r: seq<B>): (f: seq<B>)
    requires off + |r| <= |was|
    ensures |f| == |was|
  {
    was[..off] + r + was[off + |r|..]
  }

  lemma FillNext<B>(was: seq<B>, off: nat, r: seq<B>, v: B)
    requires off + |r| < |was|
    ensures Filled(was, off, r)[off + |r| := v] == Filled(was, off, r + [v])
    ensures Filled(was, off, r)[off + |r|] == was[off + |r|]
  {
  }

  /** A buffer whose blocks from `off + i` on are already replaced by those of `r`. */
  function Rear<B>(was: seq<B>, off: nat, r: seq<B>, i: nat): (f: seq<B>)
    requires off + |r| <= |was| && i <= |r|
    ensures |f| == |was|
  {
    was[..off + i] + r[i..] + was[off + |r|..]
  }

  lemma RearNext<B>(was: seq<B>, off: nat, r: seq<B>, i: nat)
    requires off + |r| <= |was| && i < |r|
    ensures Rear(was, off, r, i + 1)[off + i := r[i]] == Rear(was, off, r, i)
    ensures forall j :: off <= j <= off + i ==> Rear(was, off, r, i + 1)[j] == was[j]
  {
  }

  lemma RearEnds<B>(was: seq<B>, off: nat, r: seq<B>)
    requires off + |r| <= |was|
    ensures Rear(was, off, r, |r|) == was && Rear(was, off, r, 0) == Filled(was, off, r)
  {
  }

  /** The state of an encrypting loop once `i` blocks of `src` from `off` on are done. */
  ghost predicate Encrypted<B(!new)>(c: Cipher<B>, iv: B, src: seq<B>, was: seq<B>, off: nat, i: nat, now: seq<B>,
                                     prev: B) {
    off + i <= |src| && off + i <= |was| &&
    var r := Enc(c, iv, src[off..off + i]);
    now == Filled(was, off, r) && prev == Last(iv, r)
  }

  lemma EncryptedNext<B(!new)>(c: Cipher<B>, iv: B, src: seq<B>, was: seq<B>, off: nat, i: nat, now: seq<B>, prev: B,
                               v: B)
    requires Encrypted(c, iv, src, was, off, i, now, prev) && off + i < |src| && off + i < |was|
    requires v == c.enc(c.xor(src[off + i], prev))
    ensures |now| == |was| && now[off + i] == was[off + i]
    ensures Encrypted(c, iv, src, was, off, i + 1, now[off + i := v], v)
  {
    assert src[off..off + i + 1][..i] == src[off..off + i];
    FillNext(was, off, Enc(c, iv, src[off..off + i]), v);
  }

  /** The state of the decrypting loop with two buffers. */
  ghost predicate Decrypted<B(!new)>(c: Cipher<B>, iv: B, src: seq<B>, was: seq<B>, off: nat, i: nat, now: seq<B>,
                                     prev: B) {
    off + i <= |src| && off + i <= |was| &&
    var s := src[off..off + i];
    now == Filled(was, off, Dec(c, iv, s)) && prev == Last(iv, s)
  }

  lemma DecryptedNext<B(!new)>(c: Cipher<B>, iv: B, src: seq<B>, was: seq<B>, off: nat, i: nat, now: seq<B>, prev: B,
                               v: B)
    requires Decrypted(c, iv, src, was, off, i, now, prev) && off + i < |src| && off + i < |was|
    requires v == c.xor(c.dec(src[off + i]), prev)
    ensures |now| == |was| && Decrypted(c, iv, src, was, off, i + 1, now[off + i := v], src[off + i])
  {
    assert src[off..off + i + 1][..i] == src[off..off + i];
    FillNext(was, off, Dec(c, iv, src[off..off + i]), v);
  }

  /** crypto_xor on one block of a buffer. */
  method XorInto<B(!new)>(c: Cipher<B>, buf: array<B>, i: nat, v: B)
    requires i < buf.Length
    modifies buf
    ensures buf[..] == old(buf[..])[i := c.xor(old(buf[i]), v)]
  {
    buf[i] := c.xor(buf[i], v);
  }

  /** The cipher's output is stored. */
  method Store<B(!new)>(buf: array<B>, i: nat, v: B)
    requires i < buf.Length
    modifies buf
    ensures buf[..] == old(buf[..])[i := v]
  {
    buf[i] := v;
  }

  lemma SetTwice<B>(s: seq<B>, i: nat, u: B, v: B)
    requires i < |s|
    ensures s[i := u][i] == u && s[i := u][i := v] == s[i := v]
  {
  }

  /** One round of the loop from the last block to the first. */
  lemma RearDec<B(!new)>(c: Cipher<B>, iv: B, was: seq<B>, off: nat, k: nat, i: nat, prev: B)
    requires off + k <= |was| && i < k && prev == if i == 0 then iv else was[off + i - 1]
    ensures var d := Dec(c, iv, was[off..off + k]);
            var now, v := Rear(was, off, d, i + 1), c.dec(was[off + i]);
            && now[off + i] == was[off + i] && (i > 0 ==> now[off + i - 1] == was[off + i - 1])
            && now[off + i := v][off + i := c.xor(v, prev)] == Rear(was, off, d, i)
  {
    var s := was[off..off + k];
    var d := Dec(c, iv, s);
    DecAt(c, iv, s, i);
    RearNext(was, off, d, i);
    SetTwice(Rear(was, off, d, i + 1), off + i, c.dec(was[off + i]), d[i]);
  }

  /** The walk's chaining value. */
  class Walk<B(!new)> {
    var iv: B

    constructor (start: B)
      ensures iv == start
    {
      iv := start;
    }

    /** crypto_cbc_encrypt_segment on `k` blocks. */
    method EncryptSegment(c: Cipher<B>, src: array<B>, dst: array<B>, off: nat, k: nat)
      requires off + k <= src.Length && off + k <= dst.Length && src != dst && k > 0
      modifies this, dst
      ensures var r := Enc(c, old(iv), src[off..off + k]);
              dst[..] == Filled(old(dst[..]), off, r) && iv == Last(old(iv), r)
    {
      ghost var was, iv0, p := dst[..], iv, src[..];
      var i := 0;
      while i < k
        invariant 0 <= i <= k && Encrypted(c, iv0, p, was, off, i, dst[..], iv)
      {
        EncryptedNext(c, iv0, p, was, off, i, dst[..], iv, c.enc(c.xor(p[off + i], iv)));
        iv := c.xor(src[off + i], iv);
        dst[off + i] := c.enc(iv);
        iv := dst[off + i];
        i := i + 1;
      }
    }

    /** crypto_cbc_encrypt_inplace. */
    method EncryptInPlace(c: Cipher<B>, buf: array<B>, off: nat, k: nat)
      requires off + k <= buf.Length && k > 0
      modifies this, buf
      ensures var r := Enc(c, old(iv), old(buf[off..off + k]));
              buf[..] == Filled(old(buf[..]), off, r) && iv == Last(old(iv), r)
    {
      ghost var was := buf[..];
      var i := 0;
      var prev := iv;
      while i < k
        invariant 0 <= i <= k && iv == old(iv) && Encrypted(c, iv, was, was, off, i, buf[..], prev)
      {
        ghost var now := buf[..];
        EncryptedNext(c, iv, was, was, off, i, now, prev, c.enc(c.xor(was[off + i], prev)));
        XorInto(c, buf, off + i, prev);
        SetTwice(now, off + i, c.xor(was[off + i], prev), c.enc(c.xor(was[off + i], prev)));
        Store(buf, off + i, c.enc(buf[off + i]));
        prev := buf[off + i];
        i := i + 1;
      }
      iv := prev;
    }

    /** crypto_cbc_decrypt_segment. */
    method DecryptSegment(c: Cipher<B>, src: array<B>, dst: array<B>, off: nat, k: nat)
      requires off + k <= src.Length && off + k <= dst.Length && src != dst && k > 0
      modifies this, dst
      ensures var s := src[off..off + k];
              dst[..] == Filled(old(dst[..]), off, Dec(c, old(iv), s)) && iv == Last(old(iv), s)
    {
      ghost var was, p := dst[..], src[..];
      var i := 0;
      var prev := iv;
      while i < k
        invariant 0 <= i <= k && iv == old(iv) && Decrypted(c, iv, p, was, off, i, dst[..], prev)
      {
        ghost var now := dst[..];
        DecryptedNext(c, iv, p, was, off, i, now, prev, c.xor(c.dec(p[off + i]), prev));
        Store(dst, off + i, c.dec(src[off + i]));
        SetTwice(now, off + i, c.dec(p[off + i]), c.xor(c.dec(p[off + i]), prev));
        XorInto(c, dst, off + i, prev);
        prev := src[off + i];
        i := i + 1;
      }
      iv := prev;
    }

    /** crypto_cbc_decrypt_inplace: from the last block to the first, each needing the one before it still encrypted. */
    method DecryptInPlace(c: Cipher<B>, buf: array<B>, off: nat, k: nat)
      requires off + k <= buf.Length && k > 0
      modifies this, buf
      ensures var s := old(buf[off..off + k]);
              buf[..] == Filled(old(buf[..]), off, Dec(c, old(iv), s)) && iv == Last(old(iv), s)
    {
      ghost var was := buf[..];
      ghost var d := Dec(c, iv, was[off..off + k]);
      RearEnds(was, off, d);
      var i := k - 1;
      var lastIv := buf[off + i];
      while i > 0
        invariant 0 <= i < k && iv == old(iv)
        invariant buf[..] == Rear(was, off, d, i + 1)
      {
        RearDec(c, iv, was, off, k, i, was[off + i - 1]);
        Store(buf, off + i, c.dec(buf[off + i]));
        XorInto(c, buf, off + i, buf[off + i - 1]);
        i := i - 1;
      }
      RearDec(c, iv, was, off, k, 0, iv);
      Store(buf, off, c.dec(buf[off]));
      XorInto(c, buf, off, iv);
      iv := lastIv;
    }

    /** The bytes of a step that the walk has copied to where they are processed in place. */
    method CopyIn(src: array<B>, dst: array<B>, off: nat, k: nat)
      requires off + k <= src.Length && off + k <= dst.Length && src != dst
      modifies dst
      ensures dst[..] == Filled(old(dst[..]), off, src[off..off + k])
    {
      forall i | off <= i < off + k { dst[i] := src[i]; }
    }

    /**
     * One step of the walk.  Source and destination may be the same buffer, which makes the addresses
     * equal; else the step is in place where the walk has copied the source first.
     */
    method EncryptStep(c: Cipher<B>, src: array<B>, dst: array<B>, off: nat, step: Step)
      requires off + step.k <= src.Length && off + step.k <= dst.Length && step.k > 0
      modifies this, dst
      ensures var r := Enc(c, old(iv), old(src[..])[off..off + step.k]);
              dst[..] == Filled(old(dst[..]), off, r) && iv == Last(old(iv), r)
    {
      ghost var was, s := dst[..], src[..][off..off + step.k];
      assert src[off..off + step.k] == s;
      if step.inPlace || src == dst {
        if src != dst {
          CopyIn(src, dst, off, step.k);
          FillTwice(was, off, s, Enc(c, iv, s));
        }
        assert dst[off..off + step.k] == dst[..][off..off + step.k] == s;
        EncryptInPlace(c, dst, off, step.k);
      } else {
        EncryptSegment(c, src, dst, off, step.k);
      }
    }

    method DecryptStep(c: Cipher<B>, src: array<B>, dst: array<B>, off: nat, step: Step)
      requires off + step.k <= src.Length && off + step.k <= dst.Length && step.k > 0
      modifies this, dst
      ensures var s := old(src[..])[off..off + step.k];
              dst[..] == Filled(old(dst[..]), off, Dec(c, old(iv), s)) && iv == Last(old(iv), s)
    {
      ghost var was, s := dst[..], src[..][off..off + step.k];
      assert src[off..off + step.k] == s;
      if step.inPlace || src == dst {
        if src != dst {
          CopyIn(src, dst, off, step.k);
          FillTwice(was, off, s, Dec(c, iv, s));
        }
        assert dst[off..off + step.k] == dst[..][off..off + step.k] == s;
        DecryptInPlace(c, dst, off, step.k);
      } else {
        DecryptSegment(c, src, dst, off, step.k);
      }
    }

    /** One round of the driver, with what was read so far and the first chaining value. */
    method EncryptRound(c: Cipher<B>, ghost iv0: B, ghost p: seq<B>, src: array<B>, dst: array<B>, off: nat, step: Step)
      requires EncSoFar(c, iv0, p, off, src[..], dst[..], iv) && off + step.k <= |p| && step.k > 0
      modifies this, dst
      ensures EncSoFar(c, iv0, p, off + step.k, src[..], dst[..], iv)
    {
      ghost var s, d, v := src[..], dst[..], iv;
      EncryptStep(c, src, dst, off, step);
      EncSoFarStep(c, iv0, p, off, step.k, s, d, v, src[..], dst[..], iv);
    }

    /** One round of the driver, with what was read so far and the first chaining value. */
    method DecryptRound(c: Cipher<B>, ghost iv0: B, ghost p: seq<B>, src: array<B>, dst: array<B>, off: nat, step: Step)
      requires DecSoFar(c, iv0, p, off, src[..], dst[..], iv) && off + step.k <= |p| && step.k > 0
      modifies this, dst
      ensures DecSoFar(c, iv0, p, off + step.k, src[..], dst[..], iv)
    {
      ghost var s, d, v := src[..], dst[..], iv;
      DecryptStep(c, src, dst, off, step);
      DecSoFarStep(c, iv0, p, off, step.k, s, d, v, src[..], dst[..], iv);
    }

    /**
     * crypto_cbc_encrypt: however the data is divided, whichever loop each step runs, and whether there
     * are two buffers or one, the result is the textbook one.
     */
    method Encrypt(c: Cipher<B>, src: array<B>, dst: array<B>, steps: seq<Step>)
      requires src.Length == dst.Length == Blocks(steps) && forall i :: 0 <= i < |steps| ==> steps[i].k > 0
      modifies this, dst
      ensures dst[..] == Enc(c, old(iv), old(src[..])) && iv == Last(old(iv), dst[..])
    {
      ghost var p, iv0 := src[..], iv;
      var i := 0;
      var off: nat := 0;
      while i < |steps|
        invariant 0 <= i <= |steps| && off + Blocks(steps[i..]) == src.Length
        invariant EncSoFar(c, iv0, p, off, src[..], dst[..], iv)
      {
        EncryptRound(c, iv0, p, src, dst, off, steps[i]);
        off, i := off + steps[i].k, i + 1;
      }
      EncDone(c, iv0, p, src[..], dst[..], iv);
    }

    /** crypto_cbc_decrypt. */
    method Decrypt(c: Cipher<B>, src: array<B>, dst: array<B>, steps: seq<Step>)
      requires src.Length == dst.Length == Blocks(steps) && forall i :: 0 <= i < |steps| ==> steps[i].k > 0
      modifies this, dst
      ensures dst[..] == Dec(c, old(iv), old(src[..])) && iv == Last(old(iv), old(src[..]))
    {
      ghost var p, iv0 := src[..], iv;
      var i := 0;
      var off: nat := 0;
      while i < |steps|
        invariant 0 <= i <= |steps| && off + Blocks(steps[i..]) == src.Length
        invariant DecSoFar(c, iv0, p, off, src[..], dst[..], iv)
      {
        DecryptRound(c, iv0, p, src, dst, off, steps[i]);
        off, i := off + steps[i].k, i + 1;
      }
      DecDone(c, iv0, p, src[..], dst[..], iv);
    }
  }

  /** A step of the walk: its whole blocks, and whether the walk has copied the source to where the result goes. */
  datatype Step = Step(k: nat, inPlace: bool)

  function Blocks(steps: seq<Step>): nat {
    if steps == [] then 0 else steps[0].k + Blocks(steps[1..])
  }

  lemma NextEnc<B(!new)>(c: Cipher<B>, iv: B, p: seq<B>, off: nat, k: nat)
    requires off + k <= |p| && k > 0
    ensures var r := Enc(c, iv, p[..off]);
            var q := Enc(c, Last(iv, r), p[off..off + k]);
            Enc(c, iv, p[..off + k]) == r + q && Last(iv, r + q) == Last(Last(iv, r), q)
  {
    EncCat(c, iv, p[..off], p[off..off + k]);
    assert p[..off] + p[off..off + k] == p[..off + k];
  }

  lemma NextDec<B(!new)>(c: Cipher<B>, iv: B, s: seq<B>, off: nat, k: nat)
    requires off + k <= |s| && k > 0
    ensures Dec(c, iv, s[..off + k]) == Dec(c, iv, s[..off]) + Dec(c, Last(iv, s[..off]), s[off..off + k])
    ensures Last(iv, s[..off + k]) == Last(Last(iv, s[..off]), s[off..off + k])
  {
    DecCat(c, iv, s[..off], s[off..off + k]);
    assert s[..off] + s[off..off + k] == s[..off + k];
  }

  lemma FillTwice<B>(was: seq<B>, off: nat, a: seq<B>, b: seq<B>)
    requires off + |a| <= |was| && |a| == |b|
    ensures Filled(Filled(was, off, a), off, b) == Filled(was, off, b)
    ensures Filled(was, off, a)[off..off + |a|] == a
  {
  }

  /** The blocks before `off` are done, and what is still to be read is as it was. */
  ghost predicate EncSoFar<B(!new)>(c: Cipher<B>, iv0: B, p: seq<B>, off: nat, src: seq<B>, dst: seq<B>, iv: B) {
    && off <= |p| == |src| == |dst| && src[off..] == p[off..]
    && dst[..off] == Enc(c, iv0, p[..off]) && iv == Last(iv0, dst[..off])
  }

  ghost predicate DecSoFar<B(!new)>(c: Cipher<B>, iv0: B, p: seq<B>, off: nat, src: seq<B>, dst: seq<B>, iv: B) {
    && off <= |p| == |src| == |dst| && src[off..] == p[off..]
    && dst[..off] == Dec(c, iv0, p[..off]) && iv == Last(iv0, p[..off])
  }

  lemma EncDone<B(!new)>(c: Cipher<B>, iv0: B, p: seq<B>, src: seq<B>, dst: seq<B>, iv: B)
    requires EncSoFar(c, iv0, p, |p|, src, dst, iv)
    ensures dst == Enc(c, iv0, p) && iv == Last(iv0, dst)
  {
    assert dst[..|p|] == dst && p[..|p|] == p;
  }

  lemma DecDone<B(!new)>(c: Cipher<B>, iv0: B, p: seq<B>, src: seq<B>, dst: seq<B>, iv: B)
    requires DecSoFar(c, iv0, p, |p|, src, dst, iv)
    ensures dst == Dec(c, iv0, p) && iv == Last(iv0, p)
  {
    assert dst[..|p|] == dst && p[..|p|] == p;
  }

  /** `src2` and `dst2` are the two buffers, or the one buffer, after the blocks `r` have been stored. */
  predicate Stored<B(==)>(src: seq<B>, dst: seq<B>, off: nat, r: seq<B>, src2: seq<B>, dst2: seq<B>)
    requires off + |r| <= |dst|
  {
    dst2 == Filled(dst, off, r) && (src2 == src || (src == dst && src2 == dst2))
  }

  lemma StoredEnds<B>(src: seq<B>, dst: seq<B>, off: nat, r: seq<B>, src2: seq<B>, dst2: seq<B>, p: seq<B>)
    requires off + |r| <= |dst| == |src| == |p| && Stored(src, dst, off, r, src2, dst2) && src[off..] == p[off..]
    ensures |src2| == |dst2| == |p| && dst2[..off + |r|] == dst[..off] + r && src2[off + |r|..] == p[off + |r|..]
    ensures src[off..off + |r|] == p[off..off + |r|]
  {
    var k := |r|;
    assert src[off..off + k] == src[off..][..k] && p[off..off + k] == p[off..][..k];
    assert src[off + k..] == src[off..][k..] && p[off + k..] == p[off..][k..];
    assert dst2[off + k..] == dst[off + k..];
  }

  lemma EncSoFarStep<B(!new)>(c: Cipher<B>, iv0: B, p: seq<B>, off: nat, k: nat, src: seq<B>, dst: seq<B>, iv: B,
                              src2: seq<B>, dst2: seq<B>, iv2: B)
    requires EncSoFar(c, iv0, p, off, src, dst, iv) && off + k <= |p| && k > 0
    requires Stored(src, dst, off, Enc(c, iv, src[off..off + k]), src2, dst2) &&
             iv2 == Last(iv, Enc(c, iv, src[off..off + k]))
    ensures EncSoFar(c, iv0, p, off + k, src2, dst2, iv2)
  {
    StoredEnds(src, dst, off, Enc(c, iv, src[off..off + k]), src2, dst2, p);
    NextEnc(c, iv0, p, off, k);
  }

  lemma DecSoFarStep<B(!new)>(c: Cipher<B>, iv0: B, p: seq<B>, off: nat, k: nat, src: seq<B>, dst: seq<B>, iv: B,
                              src2: seq<B>, dst2: seq<B>, iv2: B)
    requires DecSoFar(c, iv0, p, off, src, dst, iv) && off + k <= |p| && k > 0
    requires Stored(src, dst, off, Dec(c, iv, src[off..off + k]), src2, dst2) && iv2 == Last(iv, src[off..off + k])
    ensures DecSoFar(c, iv0, p, off + k, src2, dst2, iv2)
  {
    StoredEnds(src, dst, off, Dec(c, iv, src[off..off + k]), src2, dst2, p);
    NextDec(c, iv0, p, off, k);
  }
}
