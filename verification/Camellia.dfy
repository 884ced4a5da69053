/**
 * The words, tables and round of crypto/camellia.c, and that they obey the laws the network needs.
 */
module Camellia {
  import opened CamelliaNetwork
  import opened CamelliaSetup

  /** A 32-bit word by its bits, the least significant first. */
  type Word = w: seq<bool> | |w| == 32 witness seq(32, _ => false)

  /** An unsigned char. */
  type Char = w: seq<bool> | |w| == 8 witness seq(8, _ => false)

  /** Half a block, or one subkey: the words the code calls L and R. */
  datatype Half = Half(l: Word, r: Word)

  function Eor(x: Word, y: Word): Word { seq(32, i requires 0 <= i < 32 => x[i] != y[i]) }

  function And(x: Word, y: Word): Word { seq(32, i requires 0 <= i < 32 => x[i] && y[i]) }

  function Or(x: Word, y: Word): Word { seq(32, i requires 0 <= i < 32 => x[i] || y[i]) }

  function Not(x: Word): Word { seq(32, i requires 0 <= i < 32 => !x[i]) }

  /** rol32 and ror32. */
  function Rol(x: Word, n: nat): Word
    requires n <= 32
  {
    x[32 - n..] + x[..32 - n]
  }

  function Ror(x: Word, n: nat): Word
    requires n <= 32
  {
    x[n..] + x[..n]
  }

  function Xor(x: Half, y: Half): Half { Half(Eor(x.l, y.l), Eor(x.r, y.r)) }

  // ---------------------------------------------------------------- the parts of a round

  /** The four combined S-box and permutation tables; nothing is known about their contents. */
  datatype Tables = Tables(sp1110: Char -> Word, sp0222: Char -> Word, sp3033: Char -> Word, sp4404: Char -> Word)

  /** (u8)(x >> n). */
  function Byte(x: Word, n: nat): Char
    requires n <= 24
  {
    x[n..n + 8]
  }

  function SpL(t: Tables, x: Word): Word {
    Eor(Eor(Eor(t.sp1110(Byte(x, 24)), t.sp0222(Byte(x, 16))), t.sp3033(Byte(x, 8))), t.sp4404(Byte(x, 0)))
  }

  function SpR(t: Tables, x: Word): Word {
    Eor(Eor(Eor(t.sp1110(Byte(x, 0)), t.sp0222(Byte(x, 24))), t.sp3033(Byte(x, 16))), t.sp4404(Byte(x, 8)))
  }

  /** CAMELLIA_F: the key goes in first. */
  function F(t: Tables, x: Half, k: Half): Half {
    var i := Xor(x, k);
    var yl, yr := Eor(SpR(t, i.r), SpL(t, i.l)), SpL(t, i.l);
    Half(yl, Eor(Ror(yr, 8), yl))
  }

  /** CAMELLIA_ROUNDSM: the key goes in halfway through the permutation. */
  function RoundSm(t: Tables, x: Half, k: Half, y: Half): Half {
    var il := Eor(SpL(t, x.l), k.l);
    var ir := Eor(SpR(t, x.r), Eor(il, k.r));
    Half(Eor(y.l, ir), Eor(y.r, Eor(Ror(il, 8), ir)))
  }

  /** FL and FLINV of section 2.4.2. */
  function Fl(k: Half, x: Half): Half {
    var r := Eor(x.r, Rol(And(x.l, k.l), 1));
    Half(Eor(x.l, Or(r, k.r)), r)
  }

  function FlInv(k: Half, y: Half): Half {
    var l := Eor(y.l, Or(y.r, k.r));
    Half(l, Eor(y.r, Rol(And(l, k.l), 1)))
  }

  // ---------------------------------------------------------------- algebra

  /** How a mask passes through FLINV, and backwards through FL. */
  function Lin(k: Half, w: Half): Half {
    var l := Eor(w.l, And(w.r, Not(k.r)));
    Half(l, Eor(w.r, Rol(And(l, k.l), 1)))
  }

  /** The inverse of the last half of the permutation, applied to a round key. */
  function Unmix(k: Half): Half {
    var dw := Rol(Eor(k.l, k.r), 8);
    Half(dw, Eor(k.l, dw))
  }

  /** The round function without a key. */
  function G(t: Tables, x: Half): Half {
    var yl := Eor(SpR(t, x.r), SpL(t, x.l));
    Half(yl, Eor(Ror(SpL(t, x.l), 8), yl))
  }

  lemma OrMask(xl: Word, xr: Word, wl: Word, wr: Word, kr: Word)
    ensures Eor(Eor(xl, wl), Or(Eor(xr, wr), kr)) == Eor(Eor(xl, Or(xr, kr)), Eor(wl, And(wr, Not(kr))))
  {
  }

  lemma AndNotEor(xl: Word, xr: Word, wl: Word, wr: Word, kr: Word)
    ensures Eor(Eor(xl, wl), And(Eor(xr, wr), kr)) == Eor(Eor(xl, And(xr, kr)), Eor(wl, And(wr, kr)))
  {
  }

  lemma AndEor(a: Word, b: Word, k: Word)
    ensures And(Eor(a, b), k) == Eor(And(a, k), And(b, k))
  {
  }

  lemma RolEor(a: Word, b: Word, n: nat)
    requires n <= 32
    ensures Rol(Eor(a, b), n) == Eor(Rol(a, n), Rol(b, n)) && Ror(Eor(a, b), n) == Eor(Ror(a, n), Ror(b, n))
  {
  }

  lemma RotBack(x: Word, n: nat)
    requires n <= 32
    ensures Ror(Rol(x, n), n) == x
  {
  }

  lemma Swap(a: Word, b: Word, c: Word, d: Word)
    ensures Eor(Eor(a, b), Eor(c, d)) == Eor(Eor(a, c), Eor(b, d))
  {
  }

  lemma Again(a: Word, b: Word)
    ensures Eor(Eor(a, b), b) == a
  {
  }

  lemma FlInvMask(k: Half, x: Half, w: Half)
    ensures FlInv(k, Xor(x, w)) == Xor(FlInv(k, x), Lin(k, w))
  {
    var a, b := Eor(x.l, Or(x.r, k.r)), Eor(w.l, And(w.r, Not(k.r)));
    OrMask(x.l, x.r, w.l, w.r, k.r);
    AndEor(a, b, k.l);
    RolEor(And(a, k.l), And(b, k.l), 1);
    Swap(x.r, w.r, Rol(And(a, k.l), 1), Rol(And(b, k.l), 1));
  }

  lemma LinXor(k: Half, x: Half, y: Half)
    ensures Lin(k, Xor(x, y)) == Xor(Lin(k, x), Lin(k, y))
  {
    var n := Not(k.r);
    var a, b := Eor(x.l, And(x.r, n)), Eor(y.l, And(y.r, n));
    AndNotEor(x.l, x.r, y.l, y.r, n);
    AndEor(a, b, k.l);
    RolEor(And(a, k.l), And(b, k.l), 1);
    Swap(x.r, y.r, Rol(And(a, k.l), 1), Rol(And(b, k.l), 1));
  }

  lemma FlInverse(k: Half, x: Half)
    ensures FlInv(k, Fl(k, x)) == x && Fl(k, FlInv(k, x)) == x
  {
    var r := Eor(x.r, Rol(And(x.l, k.l), 1));
    Again(x.l, Or(r, k.r));
    Again(x.r, Rol(And(x.l, k.l), 1));
    var l := Eor(x.l, Or(x.r, k.r));
    Again(x.r, Rol(And(l, k.l), 1));
    Again(x.l, Or(x.r, k.r));
  }

  lemma FlMask(k: Half, x: Half, v: Half)
    ensures Fl(k, Xor(x, Lin(k, v))) == Xor(Fl(k, x), v)
  {
    var y := Fl(k, x);
    FlInvMask(k, y, v);
    FlInverse(k, x);
    FlInverse(k, Xor(y, v));
  }

  lemma FKeyFirst(t: Tables, x: Half, k: Half)
    ensures F(t, x, k) == G(t, Xor(x, k))
  {
  }

  /** What RoundSm adds to y for the key: the last half of the permutation applied to it. */
  lemma RoundSmKey(t: Tables, x: Half, k: Half, y: Half)
    ensures RoundSm(t, x, k, y) ==
            Xor(Xor(y, G(t, x)), Half(Eor(k.l, k.r), Eor(Ror(k.l, 8), Eor(k.l, k.r))))
  {
    var a, b := SpL(t, x.l), SpR(t, x.r);
    RolEor(a, k.l, 8);
    KeyLeft(y.l, b, a, k.l, k.r);
    KeyRight(y.r, b, a, k.l, k.r, Ror(a, 8), Ror(k.l, 8));
  }

  lemma KeyLeft(y: Word, b: Word, a: Word, kl: Word, kr: Word)
    ensures Eor(y, Eor(b, Eor(Eor(a, kl), kr))) == Eor(Eor(y, Eor(b, a)), Eor(kl, kr))
  {
  }

  lemma KeyRight(y: Word, b: Word, a: Word, kl: Word, kr: Word, ra: Word, rk: Word)
    ensures Eor(y, Eor(Eor(ra, rk), Eor(b, Eor(Eor(a, kl), kr)))) ==
            Eor(Eor(y, Eor(ra, Eor(b, a))), Eor(rk, Eor(kl, kr)))
  {
  }

  /** A round with an unmixed key adds the plain key at the end of F. */
  lemma RoundKey(t: Tables, x: Half, k: Half, y: Half)
    ensures RoundSm(t, x, Unmix(k), y) == Xor(Xor(y, G(t, x)), k)
  {
    var s := Eor(k.l, k.r);
    var dw := Rol(s, 8);
    RoundSmKey(t, x, Unmix(k), y);
    RotBack(s, 8);
    Middle(dw, k.l);
    Ends(k.l, k.r);
  }

  lemma Middle(d: Word, k: Word)
    ensures Eor(d, Eor(k, d)) == k
  {
  }

  lemma Ends(l: Word, r: Word)
    ensures Eor(Eor(l, r), l) == r
  {
  }

  lemma Regroup(d: Half, m: Half, g: Half, k: Half)
    ensures Xor(Xor(Xor(d, m), g), k) == Xor(Xor(d, g), Xor(m, k))
  {
    RegroupWord(d.l, m.l, g.l, k.l);
    RegroupWord(d.r, m.r, g.r, k.r);
  }

  lemma RegroupWord(d: Word, m: Word, g: Word, k: Word)
    ensures Eor(Eor(Eor(d, m), g), k) == Eor(Eor(d, g), Eor(m, k))
  {
  }

  lemma XorTwice(x: Half, y: Half)
    ensures Xor(Xor(x, y), y) == x && Xor(x, Xor(x, y)) == y && Xor(y, Xor(x, y)) == x
  {
    EorTwice(x.l, y.l);
    EorTwice(x.r, y.r);
  }

  lemma EorTwice(x: Word, y: Word)
    ensures Eor(Eor(x, y), y) == x && Eor(x, Eor(x, y)) == y && Eor(y, Eor(x, y)) == x
  {
  }

  lemma Whitened(x: Half, y: Half, z: Half)
    ensures Xor(x, Xor(y, z)) == Xor(Xor(x, y), z)
  {
    EorAssoc(x.l, y.l, z.l);
    EorAssoc(x.r, y.r, z.r);
  }

  lemma EorAssoc(x: Word, y: Word, z: Word)
    ensures Eor(x, Eor(y, z)) == Eor(Eor(x, y), z)
  {
  }

  lemma Unwhitened(x: Half, y: Half, z: Half)
    ensures Xor(Xor(x, y), Xor(z, y)) == Xor(x, z)
  {
    EorDrop(x.l, y.l, z.l);
    EorDrop(x.r, y.r, z.r);
  }

  lemma EorDrop(x: Word, y: Word, z: Word)
    ensures Eor(Eor(x, y), Eor(z, y)) == Eor(x, z)
  {
  }

  /** A round undoes itself. */
  lemma RoundTwice(t: Tables, x: Half, k: Half, y: Half)
    ensures RoundSm(t, x, k, RoundSm(t, x, k, y)) == y
  {
    RoundSmKey(t, x, k, y);
    RoundSmKey(t, x, k, RoundSm(t, x, k, y));
    var p := Half(Eor(k.l, k.r), Eor(Ror(k.l, 8), Eor(k.l, k.r)));
    XorPairTwice(y, G(t, x), p);
  }

  lemma XorPairTwice(y: Half, g: Half, p: Half)
    ensures Xor(Xor(Xor(Xor(y, g), p), g), p) == y
  {
    EorPairTwice(y.l, g.l, p.l);
    EorPairTwice(y.r, g.r, p.r);
  }

  lemma EorPairTwice(y: Word, g: Word, p: Word)
    ensures Eor(Eor(Eor(Eor(y, g), p), g), p) == y
  {
  }

  /** One round in both forms, with the mask on the other half changing from `m` to `to`. */
  lemma OneRound(t: Tables, x: Half, y: Half, k: Half, m: Half, to: Half)
    ensures RoundSm(t, Xor(x, k), Unmix(Xor(m, to)), Xor(y, m)) == Xor(Xor(y, F(t, x, k)), to)
  {
    var key := Xor(m, to);
    FKeyFirst(t, x, k);
    RoundKey(t, Xor(x, k), key, Xor(y, m));
    Regroup(y, m, G(t, Xor(x, k)), key);
    XorTwice(m, to);
  }

  lemma XorComm(x: Half, y: Half)
    ensures Xor(x, y) == Xor(y, x)
  {
    EorComm(x.l, y.l);
    EorComm(x.r, y.r);
  }

  lemma EorComm(x: Word, y: Word)
    ensures Eor(x, y) == Eor(y, x)
  {
  }

  // ---------------------------------------------------------------- the laws

  /** Camellia's operations, for any S-box tables. */
  function CamelliaOps(t: Tables): Ops<Half> {
    Ops((x, y) => Xor(x, y), (x, k) => F(t, x, k), (x, k, y) => RoundSm(t, x, k, y), k => Unmix(k),
        (k, x) => Fl(k, x), (k, x) => FlInv(k, x), (k, w) => Lin(k, w))
  }

  lemma XorLawsHold(t: Tables)
    ensures XorLaws(CamelliaOps(t)) && CommLaw(CamelliaOps(t))
  {
    forall x: Half, y: Half, z: Half
      ensures Xor(x, Xor(y, z)) == Xor(Xor(x, y), z)
    {
      Whitened(x, y, z);
    }
    forall x: Half, y: Half
      ensures Xor(Xor(x, y), y) == x
    {
      XorTwice(x, y);
    }
    forall x: Half, y: Half, z: Half
      ensures Xor(Xor(x, y), Xor(z, y)) == Xor(x, z)
    {
      Unwhitened(x, y, z);
    }
    forall x: Half, y: Half
      ensures Xor(x, y) == Xor(y, x)
    {
      XorComm(x, y);
    }
  }

  lemma RoundLawHolds(t: Tables)
    ensures RoundLaw(CamelliaOps(t))
  {
    forall x: Half, y: Half, k: Half, m: Half, to: Half
      ensures RoundSm(t, Xor(x, k), Unmix(Xor(m, to)), Xor(y, m)) == Xor(Xor(y, F(t, x, k)), to)
    {
      OneRound(t, x, y, k, m, to);
    }
  }

  lemma MaskLawsHold(t: Tables)
    ensures MaskLaws(CamelliaOps(t)) && LinLaw(CamelliaOps(t))
  {
    forall k: Half, x: Half, v: Half
      ensures Fl(k, Xor(x, Lin(k, v))) == Xor(Fl(k, x), v)
    {
      FlMask(k, x, v);
    }
    forall k: Half, x: Half, v: Half
      ensures FlInv(k, Xor(x, v)) == Xor(FlInv(k, x), Lin(k, v))
    {
      FlInvMask(k, x, v);
    }
    forall k: Half, x: Half, v: Half
      ensures Lin(k, Xor(x, v)) == Xor(Lin(k, x), Lin(k, v))
    {
      LinXor(k, x, v);
    }
  }

  lemma UndoLawsHold(t: Tables)
    ensures UndoLaws(CamelliaOps(t))
  {
    forall x: Half, k: Half, y: Half
      ensures RoundSm(t, x, k, RoundSm(t, x, k, y)) == y
    {
      RoundTwice(t, x, k, y);
    }
    forall k: Half, x: Half
      ensures FlInv(k, Fl(k, x)) == x
    {
      FlInverse(k, x);
    }
    forall k: Half, x: Half
      ensures Fl(k, FlInv(k, x)) == x
    {
      FlInverse(k, x);
    }
  }

  /**
   * For all subkeys, all S-box tables and all blocks: encrypting with the table that
   * camellia_setup_tail makes is the cipher of RFC 3713, with 18 and with 24 rounds.
   */
  lemma EncryptIsReference(t: Tables, f: seq<Half>, k: seq<Half>, n: nat, m: Block<Half>)
    requires n > 0 && |k| == Size(n) && IsTable(CamelliaOps(t), f, k, n)
    ensures FastEncrypt(CamelliaOps(t), f, n, m) == Reference(CamelliaOps(t), k, n, m)
  {
    XorLawsHold(t);
    RoundLawHolds(t);
    MaskLawsHold(t);
    Absorption(CamelliaOps(t), f, k, n, m);
  }

  lemma DecryptIsInverse(t: Tables, f: seq<Half>, n: nat, m: Block<Half>)
    requires n > 0 && 8 * n < |f|
    ensures FastDecrypt(CamelliaOps(t), f, n, FastEncrypt(CamelliaOps(t), f, n, m)) == m
  {
    XorLawsHold(t);
    UndoLawsHold(t);
    DecryptUndoes(CamelliaOps(t), f, n, m);
  }

  lemma EncryptIsInverse(t: Tables, f: seq<Half>, n: nat, c: Block<Half>)
    requires n > 0 && 8 * n < |f|
    ensures FastEncrypt(CamelliaOps(t), f, n, FastDecrypt(CamelliaOps(t), f, n, c)) == c
  {
    XorLawsHold(t);
    UndoLawsHold(t);
    EncryptUndoes(CamelliaOps(t), f, n, c);
  }
}
