/** The functions of section 2.4 of RFC 3713, on octets and bits, and that the code computes them. */
module CamelliaRfc {
  import opened CamelliaNetwork
  import opened Camellia

  /** SBOX1 to SBOX4; nothing is known about their contents. */
  datatype Boxes = Boxes(s1: Char -> Char, s2: Char -> Char, s3: Char -> Char, s4: Char -> Char)

  function Eor8(x: Char, y: Char): Char { seq(8, i requires 0 <= i < 8 => x[i] != y[i]) }

  /** The exclusive or of three, five and six octets. */
  function Sum3(a: Char, b: Char, c: Char): Char { Eor8(Eor8(a, b), c) }

  function Sum5(a: Char, b: Char, c: Char, d: Char, e: Char): Char { Eor8(Eor8(Sum3(a, b, c), d), e) }

  function Sum6(a: Char, b: Char, c: Char, d: Char, e: Char, f: Char): Char { Eor8(Sum5(a, b, c, d, e), f) }

  const ZERO: Char := [false, false, false, false, false, false, false, false]

  /** A word of four octets, the most significant first. */
  function Octets(a: Char, b: Char, c: Char, d: Char): Word { d + c + b + a }

  /** The tables of the code combine the S-boxes with the columns of the P-function that their names tell. */
  ghost predicate Combined(t: Tables, s: Boxes) {
    && (forall c: Char :: t.sp1110(c) == Octets(s.s1(c), s.s1(c), s.s1(c), ZERO))
    && (forall c: Char :: t.sp0222(c) == Octets(ZERO, s.s2(c), s.s2(c), s.s2(c)))
    && (forall c: Char :: t.sp3033(c) == Octets(s.s3(c), ZERO, s.s3(c), s.s3(c)))
    && (forall c: Char :: t.sp4404(c) == Octets(s.s4(c), s.s4(c), ZERO, s.s4(c)))
  }

  // ---------------------------------------------------------------- the F-function

  /** Section 2.4.1: eight octets go through the S-boxes, and each octet of the result is a sum of some. */
  function RfcF(s: Boxes, x: Half, k: Half): Half {
    var i := Xor(x, k);
    var t1, t2, t3, t4 := s.s1(Byte(i.l, 24)), s.s2(Byte(i.l, 16)), s.s3(Byte(i.l, 8)), s.s4(Byte(i.l, 0));
    var t5, t6, t7, t8 := s.s2(Byte(i.r, 24)), s.s3(Byte(i.r, 16)), s.s4(Byte(i.r, 8)), s.s1(Byte(i.r, 0));
    Half(Octets(Sum6(t1, t3, t4, t6, t7, t8), Sum6(t1, t2, t4, t5, t7, t8),
                Sum6(t1, t2, t3, t5, t6, t8), Sum6(t2, t3, t4, t5, t6, t7)),
         Octets(Sum5(t1, t2, t6, t7, t8), Sum5(t2, t3, t5, t7, t8),
                Sum5(t3, t4, t5, t6, t8), Sum5(t1, t4, t5, t6, t7)))
  }

  lemma OctetsEor(a: Char, b: Char, c: Char, d: Char, a': Char, b': Char, c': Char, d': Char)
    ensures Eor(Octets(a, b, c, d), Octets(a', b', c', d')) ==
            Octets(Eor8(a, a'), Eor8(b, b'), Eor8(c, c'), Eor8(d, d'))
  {
  }

  lemma OctetsRor(a: Char, b: Char, c: Char, d: Char)
    ensures Ror(Octets(a, b, c, d), 8) == Octets(d, a, b, c)
  {
  }

  lemma EorOctets(x: Word, a: Char, b: Char, c: Char, d: Char, y: Word, a': Char, b': Char, c': Char, d': Char)
    requires x == Octets(a, b, c, d) && y == Octets(a', b', c', d')
    ensures Eor(x, y) == Octets(Eor8(a, a'), Eor8(b, b'), Eor8(c, c'), Eor8(d, d'))
  {
    OctetsEor(a, b, c, d, a', b', c', d');
  }

  lemma Zero(a: Char)
    ensures Eor8(a, ZERO) == a && Eor8(ZERO, a) == a
  {
  }

  /** The left half of the S-boxes, combined: without t2, t3, t4 and t1. */
  lemma LeftSums(t: Tables, s: Boxes, x: Word)
    requires Combined(t, s)
    ensures var t1, t2, t3, t4 := s.s1(Byte(x, 24)), s.s2(Byte(x, 16)), s.s3(Byte(x, 8)), s.s4(Byte(x, 0));
      SpL(t, x) == Octets(Sum3(t1, t3, t4), Sum3(t1, t2, t4), Sum3(t1, t2, t3), Sum3(t2, t3, t4))
  {
    Columns(s.s1(Byte(x, 24)), s.s2(Byte(x, 16)), s.s3(Byte(x, 8)), s.s4(Byte(x, 0)));
  }

  lemma RightSums(t: Tables, s: Boxes, x: Word)
    requires Combined(t, s)
    ensures var t5, t6, t7, t8 := s.s2(Byte(x, 24)), s.s3(Byte(x, 16)), s.s4(Byte(x, 8)), s.s1(Byte(x, 0));
      SpR(t, x) == Octets(Sum3(t8, t6, t7), Sum3(t8, t5, t7), Sum3(t8, t5, t6), Sum3(t5, t6, t7))
  {
    Columns(s.s1(Byte(x, 0)), s.s2(Byte(x, 24)), s.s3(Byte(x, 16)), s.s4(Byte(x, 8)));
  }

  /** The columns of the four tables added up. */
  lemma Columns(a: Char, b: Char, c: Char, d: Char)
    ensures Eor(Eor(Eor(Octets(a, a, a, ZERO), Octets(ZERO, b, b, b)), Octets(c, ZERO, c, c)), Octets(d, d, ZERO, d)) ==
            Octets(Sum3(a, c, d), Sum3(a, b, d), Sum3(a, b, c), Sum3(b, c, d))
  {
    var u := Eor(Octets(a, a, a, ZERO), Octets(ZERO, b, b, b));
    EorOctets(Octets(a, a, a, ZERO), a, a, a, ZERO, Octets(ZERO, b, b, b), ZERO, b, b, b);
    Zero(a);
    Zero(b);
    var v := Eor(u, Octets(c, ZERO, c, c));
    EorOctets(u, a, Eor8(a, b), Eor8(a, b), b, Octets(c, ZERO, c, c), c, ZERO, c, c);
    Zero(Eor8(a, b));
    EorOctets(v, Eor8(a, c), Eor8(a, b), Eor8(Eor8(a, b), c), Eor8(b, c), Octets(d, d, ZERO, d), d, d, ZERO, d);
    Zero(Eor8(Eor8(a, b), c));
  }

  /** The sums of the left word and of the right word add up to those of the left half of the result. */
  lemma LeftOctets(t1: Char, t2: Char, t3: Char, t4: Char, t5: Char, t6: Char, t7: Char, t8: Char)
    ensures Eor8(Sum3(t8, t6, t7), Sum3(t1, t3, t4)) == Sum6(t1, t3, t4, t6, t7, t8)
    ensures Eor8(Sum3(t8, t5, t7), Sum3(t1, t2, t4)) == Sum6(t1, t2, t4, t5, t7, t8)
    ensures Eor8(Sum3(t8, t5, t6), Sum3(t1, t2, t3)) == Sum6(t1, t2, t3, t5, t6, t8)
    ensures Eor8(Sum3(t5, t6, t7), Sum3(t2, t3, t4)) == Sum6(t2, t3, t4, t5, t6, t7)
  {
  }

  /** And with those of the left word, rotated, to those of the right half. */
  lemma RightOctets(t1: Char, t2: Char, t3: Char, t4: Char, t5: Char, t6: Char, t7: Char, t8: Char)
    ensures Eor8(Sum3(t2, t3, t4), Sum6(t1, t3, t4, t6, t7, t8)) == Sum5(t1, t2, t6, t7, t8)
    ensures Eor8(Sum3(t1, t3, t4), Sum6(t1, t2, t4, t5, t7, t8)) == Sum5(t2, t3, t5, t7, t8)
    ensures Eor8(Sum3(t1, t2, t4), Sum6(t1, t2, t3, t5, t6, t8)) == Sum5(t3, t4, t5, t6, t8)
    ensures Eor8(Sum3(t1, t2, t3), Sum6(t2, t3, t4, t5, t6, t7)) == Sum5(t1, t4, t5, t6, t7)
  {
  }

  /** CAMELLIA_F is the F-function, for all S-boxes that the tables combine. */
  lemma FIsRfc(t: Tables, s: Boxes, x: Half, k: Half)
    requires Combined(t, s)
    ensures F(t, x, k) == RfcF(s, x, k)
  {
    var i := Xor(x, k);
    LeftSums(t, s, i.l);
    RightSums(t, s, i.r);
    Mixed(s.s1(Byte(i.l, 24)), s.s2(Byte(i.l, 16)), s.s3(Byte(i.l, 8)), s.s4(Byte(i.l, 0)),
          s.s2(Byte(i.r, 24)), s.s3(Byte(i.r, 16)), s.s4(Byte(i.r, 8)), s.s1(Byte(i.r, 0)), SpL(t, i.l), SpR(t, i.r));
  }

  lemma Mixed(t1: Char, t2: Char, t3: Char, t4: Char, t5: Char, t6: Char, t7: Char, t8: Char, l: Word, r: Word)
    requires l == Octets(Sum3(t1, t3, t4), Sum3(t1, t2, t4), Sum3(t1, t2, t3), Sum3(t2, t3, t4))
    requires r == Octets(Sum3(t8, t6, t7), Sum3(t8, t5, t7), Sum3(t8, t5, t6), Sum3(t5, t6, t7))
    ensures Eor(r, l) == Octets(Sum6(t1, t3, t4, t6, t7, t8), Sum6(t1, t2, t4, t5, t7, t8),
                                Sum6(t1, t2, t3, t5, t6, t8), Sum6(t2, t3, t4, t5, t6, t7))
    ensures Eor(Ror(l, 8), Eor(r, l)) == Octets(Sum5(t1, t2, t6, t7, t8), Sum5(t2, t3, t5, t7, t8),
                                                Sum5(t3, t4, t5, t6, t8), Sum5(t1, t4, t5, t6, t7))
  {
    LeftOctets(t1, t2, t3, t4, t5, t6, t7, t8);
    RightOctets(t1, t2, t3, t4, t5, t6, t7, t8);
    OctetsRor(Sum3(t1, t3, t4), Sum3(t1, t2, t4), Sum3(t1, t2, t3), Sum3(t2, t3, t4));
    EorOctets(r, Sum3(t8, t6, t7), Sum3(t8, t5, t7), Sum3(t8, t5, t6), Sum3(t5, t6, t7),
              l, Sum3(t1, t3, t4), Sum3(t1, t2, t4), Sum3(t1, t2, t3), Sum3(t2, t3, t4));
    EorOctets(Ror(l, 8), Sum3(t2, t3, t4), Sum3(t1, t3, t4), Sum3(t1, t2, t4), Sum3(t1, t2, t3),
              Eor(r, l), Sum6(t1, t3, t4, t6, t7, t8), Sum6(t1, t2, t4, t5, t7, t8),
              Sum6(t1, t2, t3, t5, t6, t8), Sum6(t2, t3, t4, t5, t6, t7));
  }

  // ---------------------------------------------------------------- FL and its inverse

  /** Bit `i` of a word rotated to the left by one. */
  function RolBit(x: Word, i: nat): bool
    requires i < 32
  {
    if i == 0 then x[31] else x[i - 1]
  }

  /** Section 2.4.2 by the bits, with x1 and x2 the halves and k1 and k2 those of the key, read as a relation. */
  ghost predicate RfcFl(k: Half, x: Half, y: Half) {
    && (forall i :: 0 <= i < 32 ==> y.r[i] == (x.r[i] != (RolBit(x.l, i) && RolBit(k.l, i))))
    && (forall i :: 0 <= i < 32 ==> y.l[i] == (x.l[i] != (y.r[i] || k.r[i])))
  }

  /** FL gives the one half that section 2.4.2 does, and FLINV is the one it takes that half back to. */
  lemma FlIsRfc(k: Half, x: Half, y: Half)
    ensures RfcFl(k, x, y) <==> y == Fl(k, x)
    ensures RfcFl(k, x, y) <==> x == FlInv(k, y)
  {
    FlBits(k, x);
    FlInverse(k, x);
    FlInverse(k, y);
    if RfcFl(k, x, y) {
      assert y.r == Fl(k, x).r;
      assert y.l == Fl(k, x).l;
    }
  }

  lemma FlBits(k: Half, x: Half)
    ensures RfcFl(k, x, Fl(k, x))
  {
    var a := And(x.l, k.l);
    forall i | 0 <= i < 32 ensures Rol(a, 1)[i] == (RolBit(x.l, i) && RolBit(k.l, i)) {
    }
  }

  // ---------------------------------------------------------------- the cipher

  /** The operations of the RFC; those that only the code has are not used by the reference. */
  function RfcOps(s: Boxes): Ops<Half> {
    Ops((x, y) => Xor(x, y), (x, k) => RfcF(s, x, k), (x, k, y) => y, k => k,
        (k, x) => Fl(k, x), (k, x) => FlInv(k, x), (k, w) => w)
  }

  /** The two agree on what the reference uses. */
  ghost predicate Agree<H(!new)>(o: Ops<H>, p: Ops<H>) {
    && (forall x, y :: o.xor(x, y) == p.xor(x, y)) && (forall x, k :: o.f(x, k) == p.f(x, k))
    && (forall k, x :: o.fl(k, x) == p.fl(k, x)) && (forall k, x :: o.flInv(k, x) == p.flInv(k, x))
  }

  lemma {:induction false} GroupsAgree<H(!new)>(o: Ops<H>, p: Ops<H>, k: seq<H>, g: nat, n: nat, s: Block<H>)
    requires g < n && Size(n) <= |k| && Agree(o, p)
    ensures Groups(o, k, g, n, s) == Groups(p, k, g, n, s)
    decreases n - g
  {
    SixAgree(o, p, k, 8 * g + 2, s);
    if g + 1 < n {
      GroupsAgree(o, p, k, g + 1, n, Layer(o, k, 8 * g + 8, Six(o, k, 8 * g + 2, s)));
    }
  }

  lemma SixAgree<H(!new)>(o: Ops<H>, p: Ops<H>, k: seq<H>, i: nat, s: Block<H>)
    requires i + 6 <= |k| && Agree(o, p)
    ensures Six(o, k, i, s) == Six(p, k, i, s)
  {
  }

  lemma OpsAgree(t: Tables, s: Boxes)
    requires Combined(t, s)
    ensures Agree(CamelliaOps(t), RfcOps(s))
  {
    forall x: Half, k: Half ensures F(t, x, k) == RfcF(s, x, k) {
      FIsRfc(t, s, x, k);
    }
  }

  /**
   * For all subkeys, all S-boxes and all blocks: encrypting with the table that camellia_setup_tail makes,
   * and with the tables that combine the S-boxes and the P-function, is the cipher of RFC 3713.
   */
  lemma CipherIsRfc(t: Tables, s: Boxes, f: seq<Half>, k: seq<Half>, n: nat, m: Block<Half>)
    requires n > 0 && |k| == Size(n) && IsTable(CamelliaOps(t), f, k, n) && Combined(t, s)
    ensures FastEncrypt(CamelliaOps(t), f, n, m) == Reference(RfcOps(s), k, n, m)
  {
    EncryptIsReference(t, f, k, n, m);
    OpsAgree(t, s);
    var o := CamelliaOps(t);
    GroupsAgree(o, RfcOps(s), k, 0, n, Block(o.xor(m.a, k[0]), o.xor(m.b, k[1])));
  }
}
