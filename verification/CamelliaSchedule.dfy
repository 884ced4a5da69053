/**
 * The key schedules of crypto/camellia.c against section 2.2 of RFC 3713: the rotations of the
 * 128-bit quantities KL, KR, KA and KB by word shuffles, and the shortened computation of KA.
 */
module CamelliaSchedule {
  import opened CamelliaNetwork
  import opened CamelliaSetup
  import opened Camellia

  /** A 128-bit quantity by its bits, the least significant first. */
  type Long = b: seq<bool> | |b| == 128 witness seq(128, _ => false)

  /** Rotation to the left. */
  function Rot(b: Long, n: nat): Long
    requires n <= 128
  {
    b[128 - n..] + b[..128 - n]
  }

  /** The upper and the lower 64 bits. */
  function Hi(b: Long): Half { Half(b[96..], b[64..96]) }

  function Lo(b: Long): Half { Half(b[32..64], b[..32]) }

  function Join(hi: Half, lo: Half): Long { lo.r + lo.l + hi.r + hi.l }

  /** A word from its value. */
  function FromNat(n: nat): Word { seq(32, i requires 0 <= i < 32 => Bit(n, i)) }

  predicate Bit(n: nat, i: nat)
    decreases i
  {
    if i == 0 then n % 2 == 1 else Bit(n / 2, i - 1)
  }

  function Sigma1(): Half { Half(FromNat(0xA09E667F), FromNat(0x3BCC908B)) }
  function Sigma2(): Half { Half(FromNat(0xB67AE858), FromNat(0x4CAA73B2)) }
  function Sigma3(): Half { Half(FromNat(0xC6EF372F), FromNat(0xE94F82BE)) }
  function Sigma4(): Half { Half(FromNat(0x54FF53A5), FromNat(0xF1D36F1C)) }
  function Sigma5(): Half { Half(FromNat(0x10E527FA), FromNat(0xDE682D1D)) }
  function Sigma6(): Half { Half(FromNat(0xB05688C2), FromNat(0xB3E6C1FD)) }

  /** KA from KL and KR. */
  function Ka(t: Tables, kl: Long, kr: Long): Long {
    var d1, d2 := Xor(Hi(kl), Hi(kr)), Xor(Lo(kl), Lo(kr));
    var d2' := Xor(d2, F(t, d1, Sigma1()));
    var d1' := Xor(d1, F(t, d2', Sigma2()));
    var e1, e2 := Xor(d1', Hi(kl)), Xor(d2', Lo(kl));
    var e2' := Xor(e2, F(t, e1, Sigma3()));
    Join(Xor(e1, F(t, e2', Sigma4())), e2')
  }

  /** KB from KA and KR. */
  function Kb(t: Tables, ka: Long, kr: Long): Long {
    var d1, d2 := Xor(Hi(ka), Hi(kr)), Xor(Lo(ka), Lo(kr));
    var d2' := Xor(d2, F(t, d1, Sigma5()));
    Join(Xor(d1, F(t, d2', Sigma6())), d2')
  }

  function Zeros(): Long { seq(128, _ => false) }

  /** The subkeys for 128-bit keys, in the order kw1 kw2 k1 ... k6 ke1 ke2 k7 ... k18 kw3 kw4. */
  function Subkeys128(t: Tables, kl: Long): (k: seq<Half>)
    ensures |k| == 26
  {
    var ka := Ka(t, kl, Zeros());
    [Hi(kl), Lo(kl), Hi(ka), Lo(ka), Hi(Rot(kl, 15)), Lo(Rot(kl, 15)), Hi(Rot(ka, 15)), Lo(Rot(ka, 15)),
     Hi(Rot(ka, 30)), Lo(Rot(ka, 30)), Hi(Rot(kl, 45)), Lo(Rot(kl, 45)), Hi(Rot(ka, 45)), Lo(Rot(kl, 60)),
     Hi(Rot(ka, 60)), Lo(Rot(ka, 60)), Hi(Rot(kl, 77)), Lo(Rot(kl, 77)), Hi(Rot(kl, 94)), Lo(Rot(kl, 94)),
     Hi(Rot(ka, 94)), Lo(Rot(ka, 94)), Hi(Rot(kl, 111)), Lo(Rot(kl, 111)), Hi(Rot(ka, 111)), Lo(Rot(ka, 111))]
  }

  /** The subkeys for 192- and 256-bit keys. */
  function Subkeys256(t: Tables, kl: Long, kr: Long): (k: seq<Half>)
    ensures |k| == 34
  {
    var ka := Ka(t, kl, kr);
    var kb := Kb(t, ka, kr);
    [Hi(kl), Lo(kl), Hi(kb), Lo(kb), Hi(Rot(kr, 15)), Lo(Rot(kr, 15)), Hi(Rot(ka, 15)), Lo(Rot(ka, 15)),
     Hi(Rot(kr, 30)), Lo(Rot(kr, 30)), Hi(Rot(kb, 30)), Lo(Rot(kb, 30)), Hi(Rot(kl, 45)), Lo(Rot(kl, 45)),
     Hi(Rot(ka, 45)), Lo(Rot(ka, 45)), Hi(Rot(kl, 60)), Lo(Rot(kl, 60)), Hi(Rot(kr, 60)), Lo(Rot(kr, 60)),
     Hi(Rot(kb, 60)), Lo(Rot(kb, 60)), Hi(Rot(kl, 77)), Lo(Rot(kl, 77)), Hi(Rot(ka, 77)), Lo(Rot(ka, 77)),
     Hi(Rot(kr, 94)), Lo(Rot(kr, 94)), Hi(Rot(ka, 94)), Lo(Rot(ka, 94)), Hi(Rot(kl, 111)), Lo(Rot(kl, 111)),
     Hi(Rot(kb, 111)), Lo(Rot(kb, 111))]
  }

  // ---------------------------------------------------------------- the code's four words

  datatype Quad = Quad(ll: Word, lr: Word, rl: Word, rr: Word)

  function Bits(q: Quad): Long { q.rr + q.rl + q.lr + q.ll }

  /** (a << n) + (b >> (32 - n)): no two set bits meet. */
  function Shift(a: Word, b: Word, n: nat): Word
    requires n <= 32
  {
    b[32 - n..] + a[..32 - n]
  }

  /** ROLDQ. */
  function Roldq(q: Quad, n: nat): Quad
    requires n <= 32
  {
    Quad(Shift(q.ll, q.lr, n), Shift(q.lr, q.rl, n), Shift(q.rl, q.rr, n), Shift(q.rr, q.ll, n))
  }

  /** ROLDQo32. */
  function RoldqO32(q: Quad, n: nat): Quad
    requires 32 <= n <= 64
  {
    Quad(Shift(q.lr, q.rl, n - 32), Shift(q.rl, q.rr, n - 32), Shift(q.rr, q.ll, n - 32), Shift(q.ll, q.lr, n - 32))
  }

  lemma RoldqRotates(q: Quad, n: nat)
    requires n <= 32
    ensures Bits(Roldq(q, n)) == Rot(Bits(q), n)
  {
  }

  lemma RoldqO32Rotates(q: Quad, n: nat)
    requires 32 <= n <= 64
    ensures Bits(RoldqO32(q, n)) == Rot(Bits(q), n)
  {
  }

  lemma RotRot(b: Long, n: nat, m: nat)
    requires n + m <= 128
    ensures Rot(Rot(b, n), m) == Rot(b, n + m)
  {
  }

  lemma Halves(q: Quad)
    ensures Hi(Bits(q)) == Half(q.ll, q.lr) && Lo(Bits(q)) == Half(q.rl, q.rr)
  {
  }

  // ---------------------------------------------------------------- the setup functions

  /** ROLDQ on words that hold a quantity rotated so far by `at`. */
  method Turn(q: Quad, n: nat, ghost b: Long, ghost at: nat) returns (r: Quad)
    requires n <= 32 && at + n <= 128 && Bits(q) == Rot(b, at)
    ensures Bits(r) == Rot(b, at + n)
  {
    r := Roldq(q, n);
    RoldqRotates(q, n);
    RotRot(b, at, n);
  }

  method TurnO32(q: Quad, n: nat, ghost b: Long, ghost at: nat) returns (r: Quad)
    requires 32 <= n <= 64 && at + n <= 128 && Bits(q) == Rot(b, at)
    ensures Bits(r) == Rot(b, at + n)
  {
    r := RoldqO32(q, n);
    RoldqO32Rotates(q, n);
    RotRot(b, at, n);
  }

  /** A list with two places set to the halves of a rotated quantity. */
  function With(s: seq<Half>, i: nat, b: Long, n: nat): (r: seq<Half>)
    requires i + 1 < |s| && n <= 128
    ensures |r| == |s|
  {
    s[i := Hi(Rot(b, n))][i + 1 := Lo(Rot(b, n))]
  }

  method Put(sub: array<Half>, i: nat, q: Quad, ghost b: Long, ghost n: nat)
    requires i + 1 < sub.Length && n <= 128 && Bits(q) == Rot(b, n)
    modifies sub
    ensures sub[..] == With(old(sub[..]), i, b, n)
  {
    Halves(q);
    sub[i] := Half(q.ll, q.lr);
    sub[i + 1] := Half(q.rl, q.rr);
  }

  lemma RotNone(b: Long)
    ensures Rot(b, 0) == b && Rot(b, 128) == b
  {
  }

  /** Where camellia_setup128 stores rotations of KL and of KA. */
  function Kl128(s: seq<Half>, kl: Long): (r: seq<Half>)
    requires |s| == 26
    ensures |r| == 26
  {
    var r := With(With(With(s, 0, kl, 0), 4, kl, 15), 10, kl, 45)[13 := Lo(Rot(kl, 60))];
    With(With(With(r, 16, kl, 77), 18, kl, 94), 22, kl, 111)
  }

  function Ka128(s: seq<Half>, ka: Long): (r: seq<Half>)
    requires |s| == 26
    ensures |r| == 26
  {
    var r := With(With(With(s, 2, ka, 0), 6, ka, 15), 8, ka, 30)[12 := Hi(Rot(ka, 45))];
    With(With(With(r, 14, ka, 60), 20, ka, 94), 24, ka, 111)
  }

  /** The part of camellia_setup128 that stores rotations of KL. */
  method StoreKl128(sub: array<Half>, key: Quad)
    requires sub.Length == 26
    modifies sub
    ensures sub[..] == Kl128(old(sub[..]), Bits(key))
  {
    ghost var kl := Bits(key);
    RotNone(kl);
    var q := key;
    Put(sub, 0, q, kl, 0);
    q := Turn(q, 15, kl, 0);
    Put(sub, 4, q, kl, 15);
    q := Turn(q, 30, kl, 15);
    Put(sub, 10, q, kl, 45);
    q := Turn(q, 15, kl, 45);
    Halves(q);
    sub[13] := Half(q.rl, q.rr);
    q := Turn(q, 17, kl, 60);
    Put(sub, 16, q, kl, 77);
    q := Turn(q, 17, kl, 77);
    Put(sub, 18, q, kl, 94);
    q := Turn(q, 17, kl, 94);
    Put(sub, 22, q, kl, 111);
  }

  /** The part that stores rotations of KA. */
  method StoreKa128(sub: array<Half>, key: Quad)
    requires sub.Length == 26
    modifies sub
    ensures sub[..] == Ka128(old(sub[..]), Bits(key))
  {
    ghost var ka := Bits(key);
    RotNone(ka);
    var q := key;
    Put(sub, 2, q, ka, 0);
    q := Turn(q, 15, ka, 0);
    Put(sub, 6, q, ka, 15);
    q := Turn(q, 15, ka, 15);
    Put(sub, 8, q, ka, 30);
    q := Turn(q, 15, ka, 30);
    Halves(q);
    sub[12] := Half(q.ll, q.lr);
    q := Turn(q, 15, ka, 45);
    Put(sub, 14, q, ka, 60);
    q := TurnO32(q, 34, ka, 60);
    Put(sub, 20, q, ka, 94);
    q := Turn(q, 17, ka, 94);
    Put(sub, 24, q, ka, 111);
  }

  function Words(hi: Half, lo: Half): Quad { Quad(hi.l, hi.r, lo.l, lo.r) }

  lemma WordsJoin(hi: Half, lo: Half)
    ensures Bits(Words(hi, lo)) == Join(hi, lo)
  {
  }

  lemma XorZero(kl: Long)
    ensures Xor(Hi(kl), Hi(Zeros())) == Hi(kl) && Xor(Lo(kl), Lo(Zeros())) == Lo(kl)
  {
  }

  lemma Cancels(x: Half, f: Half)
    ensures Xor(Xor(x, f), x) == f
  {
    XorComm(x, f);
    XorTwice(f, x);
  }

  /**
   * KA as camellia_setup128 computes it: with KR zero, adding KL after two rounds only takes out what
   * was there before, so the code never puts it in.
   */
  method KaWords128(t: Tables, sub0: Half, sub1: Half, ghost kl: Long) returns (q: Quad)
    requires sub0 == Hi(kl) && sub1 == Lo(kl)
    ensures Bits(q) == Ka(t, kl, Zeros())
  {
    XorZero(kl);
    var w := F(t, sub0, Sigma1());
    var r := Xor(sub1, w);
    var l := F(t, r, Sigma2());
    Cancels(sub0, l);
    Cancels(sub1, w);
    r := F(t, l, Sigma3());
    XorComm(r, w);
    r := Xor(r, w);
    w := F(t, r, Sigma4());
    l := Xor(l, w);
    WordsJoin(l, r);
    q := Words(l, r);
  }

  /** camellia_setup128: the table it makes is the one for the subkeys of the RFC. */
  method Setup128(t: Tables, key: Quad, subkey: array<Half>)
    requires subkey.Length == 34
    modifies subkey
    ensures IsTable(CamelliaOps(t), subkey[..], Subkeys128(t, Bits(key)), 3)
  {
    ghost var kl := Bits(key);
    var sub := new Half[26];
    ghost var s := sub[..];
    StoreKl128(sub, key);
    First128(s, kl);
    var q := KaWords128(t, sub[0], sub[1], kl);
    StoreKa128(sub, q);
    All128(t, s, kl);
    XorLawsHold(t);
    MaskLawsHold(t);
    SetupTail(CamelliaOps(t), subkey, sub, 3);
  }

  lemma First128(s: seq<Half>, kl: Long)
    requires |s| == 26
    ensures Kl128(s, kl)[0] == Hi(kl) && Kl128(s, kl)[1] == Lo(kl)
  {
    RotNone(kl);
  }

  /** Every place is written once, and all of them make the list of the RFC. */
  lemma All128(t: Tables, s: seq<Half>, kl: Long)
    requires |s| == 26
    ensures Ka128(Kl128(s, kl), Ka(t, kl, Zeros())) == Subkeys128(t, kl)
  {
    RotNone(kl);
    RotNone(Ka(t, kl, Zeros()));
  }

  // ---------------------------------------------------------------- longer keys

  function Kl256(s: seq<Half>, kl: Long): (r: seq<Half>)
    requires |s| == 34
    ensures |r| == 34
  {
    With(With(With(With(With(s, 0, kl, 0), 12, kl, 45), 16, kl, 60), 22, kl, 77), 30, kl, 111)
  }

  function Kr256(s: seq<Half>, kr: Long): (r: seq<Half>)
    requires |s| == 34
    ensures |r| == 34
  {
    With(With(With(With(s, 4, kr, 15), 8, kr, 30), 18, kr, 60), 26, kr, 94)
  }

  function Ka256(s: seq<Half>, ka: Long): (r: seq<Half>)
    requires |s| == 34
    ensures |r| == 34
  {
    With(With(With(With(s, 6, ka, 15), 14, ka, 45), 24, ka, 77), 28, ka, 94)
  }

  function Kb256(s: seq<Half>, kb: Long): (r: seq<Half>)
    requires |s| == 34
    ensures |r| == 34
  {
    With(With(With(With(s, 2, kb, 0), 10, kb, 30), 20, kb, 60), 32, kb, 111)
  }

  method StoreKl256(sub: array<Half>, key: Quad)
    requires sub.Length == 34
    modifies sub
    ensures sub[..] == Kl256(old(sub[..]), Bits(key))
  {
    ghost var kl := Bits(key);
    RotNone(kl);
    var q := key;
    Put(sub, 0, q, kl, 0);
    q := TurnO32(q, 45, kl, 0);
    Put(sub, 12, q, kl, 45);
    q := Turn(q, 15, kl, 45);
    Put(sub, 16, q, kl, 60);
    q := Turn(q, 17, kl, 60);
    Put(sub, 22, q, kl, 77);
    q := TurnO32(q, 34, kl, 77);
    Put(sub, 30, q, kl, 111);
  }

  /** Rotations of KR; the last one, by 34 more, brings KR itself back. */
  method StoreKr256(sub: array<Half>, key: Quad) returns (q: Quad)
    requires sub.Length == 34
    modifies sub
    ensures sub[..] == Kr256(old(sub[..]), Bits(key)) && Bits(q) == Bits(key)
  {
    ghost var kr := Bits(key);
    RotNone(kr);
    ghost var s := sub[..];
    q := Turn(key, 15, kr, 0);
    Put(sub, 4, q, kr, 15);
    q := Turn(q, 15, kr, 15);
    Put(sub, 8, q, kr, 30);
    assert sub[..] == With(With(s, 4, kr, 15), 8, kr, 30);
    q := Turn(q, 30, kr, 30);
    Put(sub, 18, q, kr, 60);
    q := TurnO32(q, 34, kr, 60);
    Put(sub, 26, q, kr, 94);
    assert sub[..] == Kr256(s, kr);
    q := TurnO32(q, 34, kr, 94);
  }

  /** The halves of a quantity rotated by a whole word more than its words say. */
  method PutWhole(sub: array<Half>, i: nat, q: Quad, ghost b: Long, ghost n: nat)
    requires i + 1 < sub.Length && n + 32 <= 128 && Bits(q) == Rot(b, n)
    modifies sub
    ensures sub[..] == With(old(sub[..]), i, b, n + 32)
  {
    RotRot(b, n, 32);
    WholeWord(q);
    sub[i] := Half(q.lr, q.rl);
    sub[i + 1] := Half(q.rr, q.ll);
  }

  method StoreKa256(sub: array<Half>, key: Quad)
    requires sub.Length == 34
    modifies sub
    ensures sub[..] == Ka256(old(sub[..]), Bits(key))
  {
    ghost var ka := Bits(key);
    RotNone(ka);
    var q := Turn(key, 15, ka, 0);
    Put(sub, 6, q, ka, 15);
    q := Turn(q, 30, ka, 15);
    Put(sub, 14, q, ka, 45);
    PutWhole(sub, 24, q, ka, 45);
    q := TurnO32(q, 49, ka, 45);
    Put(sub, 28, q, ka, 94);
  }

  /** Rotation by a whole word, written out by hand in the code. */
  lemma WholeWord(q: Quad)
    ensures Hi(Rot(Bits(q), 32)) == Half(q.lr, q.rl) && Lo(Rot(Bits(q), 32)) == Half(q.rr, q.ll)
  {
  }

  method StoreKb256(sub: array<Half>, key: Quad)
    requires sub.Length == 34
    modifies sub
    ensures sub[..] == Kb256(old(sub[..]), Bits(key))
  {
    ghost var kb := Bits(key);
    RotNone(kb);
    var q := key;
    Put(sub, 2, q, kb, 0);
    q := Turn(q, 30, kb, 0);
    Put(sub, 10, q, kb, 30);
    q := Turn(q, 30, kb, 30);
    Put(sub, 20, q, kb, 60);
    q := TurnO32(q, 51, kb, 60);
    Put(sub, 32, q, kb, 111);
  }

  /** KA as camellia_setup256 computes it. */
  method KaWords256(t: Tables, sub0: Half, sub1: Half, kr0: Half, kr1: Half, ghost kl: Long,
                    ghost kr: Long) returns (q: Quad)
    requires sub0 == Hi(kl) && sub1 == Lo(kl) && kr0 == Hi(kr) && kr1 == Lo(kr)
    ensures Bits(q) == Ka(t, kl, kr)
  {
    var l, r := Xor(sub0, kr0), Xor(sub1, kr1);
    var w := F(t, l, Sigma1());
    r := Xor(r, w);
    var f := F(t, r, Sigma2());
    Mixed(sub0, kr0, f);
    Mixed(sub1, kr1, w);
    l := Xor(f, kr0);
    var f3 := F(t, l, Sigma3());
    Mixed3(f3, w, kr1);
    r := Xor(f3, Xor(w, kr1));
    w := F(t, r, Sigma4());
    l := Xor(l, w);
    WordsJoin(l, r);
    q := Words(l, r);
  }

  /** Adding KL a second time leaves KR and the round's output. */
  lemma Mixed(x: Half, k: Half, f: Half)
    ensures Xor(Xor(Xor(x, k), f), x) == Xor(f, k)
  {
    MixedWord(x.l, k.l, f.l);
    MixedWord(x.r, k.r, f.r);
  }

  lemma MixedWord(x: Word, k: Word, f: Word)
    ensures Eor(Eor(Eor(x, k), f), x) == Eor(f, k)
  {
  }

  lemma Mixed3(f: Half, w: Half, k: Half)
    ensures Xor(Xor(w, k), f) == Xor(f, Xor(w, k))
  {
    XorComm(Xor(w, k), f);
  }

  method KbWords256(t: Tables, a0: Half, a1: Half, kr0: Half, kr1: Half, ghost ka: Long,
                    ghost kr: Long) returns (q: Quad)
    requires a0 == Hi(ka) && a1 == Lo(ka) && kr0 == Hi(kr) && kr1 == Lo(kr)
    ensures Bits(q) == Kb(t, ka, kr)
  {
    XorComm(kr0, a0);
    XorComm(kr1, a1);
    var l, r := Xor(kr0, a0), Xor(kr1, a1);
    r := Xor(r, F(t, l, Sigma5()));
    l := Xor(l, F(t, r, Sigma6()));
    WordsJoin(l, r);
    q := Words(l, r);
  }

  lemma First256(s: seq<Half>, kl: Long, kr: Long)
    requires |s| == 34
    ensures Kr256(Kl256(s, kl), kr)[0] == Hi(kl) && Kr256(Kl256(s, kl), kr)[1] == Lo(kl)
  {
    RotNone(kl);
  }

  lemma All256(t: Tables, s: seq<Half>, kl: Long, kr: Long)
    requires |s| == 34
    ensures var ka := Ka(t, kl, kr);
            Kb256(Ka256(Kr256(Kl256(s, kl), kr), ka), Kb(t, ka, kr)) == Subkeys256(t, kl, kr)
  {
    RotNone(kl);
    RotNone(Kb(t, Ka(t, kl, kr), kr));
  }

  /** camellia_setup256. */
  method Setup256(t: Tables, left: Quad, right: Quad, subkey: array<Half>)
    requires subkey.Length == 34
    modifies subkey
    ensures IsTable(CamelliaOps(t), subkey[..], Subkeys256(t, Bits(left), Bits(right)), 4)
  {
    ghost var kl, kr := Bits(left), Bits(right);
    var sub := new Half[34];
    ghost var s := sub[..];
    StoreKl256(sub, left);
    var r := StoreKr256(sub, right);
    First256(s, kl, kr);
    Halves(r);
    var a := KaWords256(t, sub[0], sub[1], Half(r.ll, r.lr), Half(r.rl, r.rr), kl, kr);
    Halves(a);
    var b := KbWords256(t, Half(a.ll, a.lr), Half(a.rl, a.rr), Half(r.ll, r.lr), Half(r.rl, r.rr), Bits(a), kr);
    StoreKa256(sub, a);
    StoreKb256(sub, b);
    All256(t, s, kl, kr);
    XorLawsHold(t);
    MaskLawsHold(t);
    SetupTail(CamelliaOps(t), subkey, sub, 4);
  }
}
