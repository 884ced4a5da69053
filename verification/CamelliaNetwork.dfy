/**
 * The networks of crypto/camellia.c over halves of any kind: the reference of sections 2.3.1 and
 * 2.3.2 of RFC 3713, and the network the code runs, which has no key where the reference whitens
 * with kw2 and kw4 and adds every round key at the end of the round before.
 */
module CamelliaNetwork {

  /**
   * The operations on halves: exclusive or, the round function with its key first, the round as the
   * code runs it, the change made to a round key for that, FL, its inverse, and what these do to masks.
   */
  datatype Ops<!H(!new)> = Ops(
    xor: (H, H) -> H, f: (H, H) -> H, round: (H, H, H) -> H, unmix: H -> H,
    fl: (H, H) -> H, flInv: (H, H) -> H, lin: (H, H) -> H)

  datatype Block<H> = Block(a: H, b: H)

  /** Exclusive or is a group operation in which every element is its own inverse. */
  ghost predicate XorLaws<H(!new)>(o: Ops<H>) {
    && (forall x, y, z {:trigger o.xor(x, o.xor(y, z))} :: o.xor(x, o.xor(y, z)) == o.xor(o.xor(x, y), z))
    && (forall x, y {:trigger o.xor(o.xor(x, y), y)} :: o.xor(o.xor(x, y), y) == x)
    && (forall x, y, z {:trigger o.xor(o.xor(x, y), o.xor(z, y))} :: o.xor(o.xor(x, y), o.xor(z, y)) == o.xor(x, z))
  }

  /**
   * A round of the code on a half that carries exactly the mask the reference adds as round key:
   * the mask on the other half changes from `m` to `to`, and nothing else happens.
   */
  ghost predicate RoundLaw<H(!new)>(o: Ops<H>) {
    forall x, y, k, m, to {:trigger o.round(o.xor(x, k), o.unmix(o.xor(m, to)), o.xor(y, m))} ::
      o.round(o.xor(x, k), o.unmix(o.xor(m, to)), o.xor(y, m)) == o.xor(o.xor(y, o.f(x, k)), to)
  }

  /** A mask passes through FLINV, and backwards through FL, as `lin` says. */
  ghost predicate MaskLaws<H(!new)>(o: Ops<H>) {
    && (forall k, x, v {:trigger o.fl(k, o.xor(x, o.lin(k, v)))} ::
          o.fl(k, o.xor(x, o.lin(k, v))) == o.xor(o.fl(k, x), v))
    && (forall k, x, w {:trigger o.flInv(k, o.xor(x, w))} ::
          o.flInv(k, o.xor(x, w)) == o.xor(o.flInv(k, x), o.lin(k, w)))
  }

  ghost predicate LinLaw<H(!new)>(o: Ops<H>) {
    forall k, x, y {:trigger o.lin(k, o.xor(x, y))} :: o.lin(k, o.xor(x, y)) == o.xor(o.lin(k, x), o.lin(k, y))
  }

  /** Rounds and layers can be undone. */
  ghost predicate UndoLaws<H(!new)>(o: Ops<H>) {
    && (forall x, k, y {:trigger o.round(x, k, o.round(x, k, y))} :: o.round(x, k, o.round(x, k, y)) == y)
    && (forall k, x {:trigger o.flInv(k, o.fl(k, x))} :: o.flInv(k, o.fl(k, x)) == x)
    && (forall k, x {:trigger o.fl(k, o.flInv(k, x))} :: o.fl(k, o.flInv(k, x)) == x)
  }

  // ---------------------------------------------------------------- the reference

  /** Six rounds with the keys from position `i` of the list. */
  function Six<H(!new)>(o: Ops<H>, k: seq<H>, i: nat, s: Block<H>): Block<H>
    requires i + 6 <= |k|
  {
    var b1 := o.xor(s.b, o.f(s.a, k[i]));
    var a1 := o.xor(s.a, o.f(b1, k[i + 1]));
    var b2 := o.xor(b1, o.f(a1, k[i + 2]));
    var a2 := o.xor(a1, o.f(b2, k[i + 3]));
    var b3 := o.xor(b2, o.f(a2, k[i + 4]));
    Block(o.xor(a2, o.f(b3, k[i + 5])), b3)
  }

  /** The layer between two groups of rounds. */
  function Layer<H(!new)>(o: Ops<H>, k: seq<H>, i: nat, s: Block<H>): Block<H>
    requires i + 2 <= |k|
  {
    Block(o.fl(k[i], s.a), o.flInv(k[i + 1], s.b))
  }

  /** The subkeys stand as kw1 kw2, then k k k k k k for each group with ke ke between groups, then kw3 kw4. */
  function Size(groups: nat): nat { 8 * groups + 2 }

  function Groups<H(!new)>(o: Ops<H>, k: seq<H>, g: nat, n: nat, s: Block<H>): Block<H>
    requires g < n && Size(n) <= |k|
    decreases n - g
  {
    var s1 := Six(o, k, 8 * g + 2, s);
    if g + 1 == n then s1 else Groups(o, k, g + 1, n, Layer(o, k, 8 * g + 8, s1))
  }

  /** Sections 2.3.1 and 2.3.2: 3 groups for 128-bit keys, 4 for longer ones. */
  function Reference<H(!new)>(o: Ops<H>, k: seq<H>, n: nat, m: Block<H>): Block<H>
    requires n > 0 && Size(n) == |k|
  {
    var s := Groups(o, k, 0, n, Block(o.xor(m.a, k[0]), o.xor(m.b, k[1])));
    Block(o.xor(s.b, k[8 * n]), o.xor(s.a, k[8 * n + 1]))
  }

  // ---------------------------------------------------------------- what the code runs

  function FastSix<H(!new)>(o: Ops<H>, k: seq<H>, i: nat, s: Block<H>): Block<H>
    requires i + 6 <= |k|
  {
    var b1 := o.round(s.a, k[i], s.b);
    var a1 := o.round(b1, k[i + 1], s.a);
    var b2 := o.round(a1, k[i + 2], b1);
    var a2 := o.round(b2, k[i + 3], a1);
    var b3 := o.round(a2, k[i + 4], b2);
    Block(o.round(b3, k[i + 5], a2), b3)
  }

  /** The six rounds of camellia_do_decrypt: the same keys, last one first. */
  function FastSixBack<H(!new)>(o: Ops<H>, k: seq<H>, i: nat, s: Block<H>): Block<H>
    requires i + 6 <= |k|
  {
    var b1 := o.round(s.a, k[i + 5], s.b);
    var a1 := o.round(b1, k[i + 4], s.a);
    var b2 := o.round(a1, k[i + 3], b1);
    var a2 := o.round(b2, k[i + 2], a1);
    var b3 := o.round(a2, k[i + 1], b2);
    Block(o.round(b3, k[i], a2), b3)
  }

  function FastGroups<H(!new)>(o: Ops<H>, k: seq<H>, g: nat, n: nat, s: Block<H>): Block<H>
    requires g < n && 8 * n < |k|
    decreases n - g
  {
    var s1 := FastSix(o, k, 8 * g + 2, s);
    if g + 1 == n then s1 else FastGroups(o, k, g + 1, n, Layer(o, k, 8 * g + 8, s1))
  }

  /** Whitening around the rounds; the halves come out swapped, as the callers of do_encrypt put them. */
  function FastEncrypt<H(!new)>(o: Ops<H>, k: seq<H>, n: nat, m: Block<H>): Block<H>
    requires n > 0 && 8 * n < |k|
  {
    var s := FastGroups(o, k, 0, n, Block(o.xor(m.a, k[0]), m.b));
    Block(o.xor(s.b, k[8 * n]), s.a)
  }

  function FastGroupsBack<H(!new)>(o: Ops<H>, k: seq<H>, g: nat, s: Block<H>): Block<H>
    requires 8 * (g + 1) < |k|
    decreases g
  {
    var s1 := FastSixBack(o, k, 8 * g + 2, s);
    if g == 0 then s1
    else FastGroupsBack(o, k, g - 1, Block(o.fl(k[8 * g + 1], s1.a), o.flInv(k[8 * g], s1.b)))
  }

  function FastDecrypt<H(!new)>(o: Ops<H>, k: seq<H>, n: nat, c: Block<H>): Block<H>
    requires n > 0 && 8 * n < |k|
  {
    var s := FastGroupsBack(o, k, n - 1, Block(o.xor(c.a, k[8 * n]), c.b));
    Block(o.xor(s.b, k[0]), s.a)
  }

  // ---------------------------------------------------------------- key absorption

  /** The mask on the right half as a group of rounds begins: kw2, or the round key that went through FLINV. */
  function Carried<H(!new)>(o: Ops<H>, k: seq<H>, g: nat): H
    requires 8 * g + 1 < |k|
  {
    if g == 0 then k[1] else o.lin(k[8 * g + 1], k[8 * g - 1])
  }

  /** The mask on the left half as a group ends: kw4, or the next round key pulled back through FL. */
  function Ahead<H(!new)>(o: Ops<H>, k: seq<H>, n: nat, g: nat): H
    requires g < n && |k| == Size(n)
  {
    if g + 1 == n then k[8 * n + 1] else o.lin(k[8 * g + 8], k[8 * g + 10])
  }

  /** The six table entries of a group: `m` is the mask on its right half before it, `out` on its left half after it. */
  ghost predicate RoundEntries<H(!new)>(o: Ops<H>, f: seq<H>, k: seq<H>, i: nat, m: H, out: H)
    requires i + 6 <= |k| && i + 6 <= |f|
  {
    && f[i] == o.unmix(o.xor(m, k[i + 1])) && f[i + 1] == o.unmix(o.xor(k[i], k[i + 2]))
    && f[i + 2] == o.unmix(o.xor(k[i + 1], k[i + 3])) && f[i + 3] == o.unmix(o.xor(k[i + 2], k[i + 4]))
    && f[i + 4] == o.unmix(o.xor(k[i + 3], k[i + 5])) && f[i + 5] == o.unmix(o.xor(k[i + 4], out))
  }

  /** The table entries of one group and of the layer after it. */
  ghost predicate GroupEntries<H(!new)>(o: Ops<H>, f: seq<H>, k: seq<H>, n: nat, g: nat)
    requires g < n && |k| == Size(n) && 8 * n < |f|
  {
    && RoundEntries(o, f, k, 8 * g + 2, Carried(o, k, g), Ahead(o, k, n, g))
    && (g + 1 < n ==> f[8 * g + 8] == k[8 * g + 8] && f[8 * g + 9] == k[8 * g + 9])
  }

  /** What camellia_setup_tail is to make of the subkeys; position 1 of the table is never used. */
  ghost predicate IsTable<H(!new)>(o: Ops<H>, f: seq<H>, k: seq<H>, n: nat)
    requires n > 0 && |k| == Size(n)
  {
    && 8 * n < |f| && f[0] == o.xor(k[0], k[2]) && f[8 * n] == o.xor(k[8 * n], k[8 * n - 1])
    && forall g :: 0 <= g < n ==> GroupEntries(o, f, k, n, g)
  }

  /** Six rounds in both forms. */
  lemma SixRounds<H(!new)>(o: Ops<H>, k: seq<H>, f: seq<H>, i: nat, s: Block<H>, m: H, out: H)
    requires RoundLaw(o) && i + 6 <= |k| && i + 6 <= |f| && RoundEntries(o, f, k, i, m, out)
    ensures var r := Six(o, k, i, s);
            FastSix(o, f, i, Block(o.xor(s.a, k[i]), o.xor(s.b, m))) == Block(o.xor(r.a, out), o.xor(r.b, k[i + 5]))
  {
  }

  /** The layer between two groups in both forms. */
  lemma OneLayer<H(!new)>(o: Ops<H>, f: seq<H>, k: seq<H>, n: nat, g: nat, r: Block<H>)
    requires MaskLaws(o) && |k| == Size(n) && 8 * n < |f| && g + 1 < n && GroupEntries(o, f, k, n, g)
    ensures var to := Layer(o, k, 8 * g + 8, r);
            Layer(o, f, 8 * g + 8, Block(o.xor(r.a, Ahead(o, k, n, g)), o.xor(r.b, k[8 * g + 7]))) ==
            Block(o.xor(to.a, k[8 * g + 10]), o.xor(to.b, Carried(o, k, g + 1)))
  {
  }

  lemma {:induction false} AllGroups<H(!new)>(o: Ops<H>, f: seq<H>, k: seq<H>, n: nat, g: nat, s: Block<H>)
    requires RoundLaw(o) && MaskLaws(o) && |k| == Size(n) && g < n && IsTable(o, f, k, n)
    ensures var r := Groups(o, k, g, n, s);
            FastGroups(o, f, g, n, Block(o.xor(s.a, k[8 * g + 2]), o.xor(s.b, Carried(o, k, g)))) ==
            Block(o.xor(r.a, k[8 * n + 1]), o.xor(r.b, k[8 * n - 1]))
    decreases n - g
  {
    var r := Six(o, k, 8 * g + 2, s);
    OneGroup(o, f, k, n, g, s, r);
    if g + 1 < n {
      AllGroups(o, f, k, n, g + 1, Layer(o, k, 8 * g + 8, r));
    }
  }

  /** A group of rounds and the layer after it, if there is one, in both forms. */
  lemma OneGroup<H(!new)>(o: Ops<H>, f: seq<H>, k: seq<H>, n: nat, g: nat, s: Block<H>, r: Block<H>)
    requires RoundLaw(o) && MaskLaws(o) && |k| == Size(n) && g < n && IsTable(o, f, k, n)
    requires r == Six(o, k, 8 * g + 2, s)
    ensures var t := FastSix(o, f, 8 * g + 2, Block(o.xor(s.a, k[8 * g + 2]), o.xor(s.b, Carried(o, k, g))));
            && (g + 1 == n ==> t == Block(o.xor(r.a, k[8 * n + 1]), o.xor(r.b, k[8 * n - 1])))
            && (g + 1 < n ==>
                  var to := Layer(o, k, 8 * g + 8, r);
                  Layer(o, f, 8 * g + 8, t) == Block(o.xor(to.a, k[8 * g + 10]), o.xor(to.b, Carried(o, k, g + 1))))
  {
    assert GroupEntries(o, f, k, n, g);
    SixRounds(o, k, f, 8 * g + 2, s, Carried(o, k, g), Ahead(o, k, n, g));
    if g + 1 < n {
      OneLayer(o, f, k, n, g, r);
    }
  }

  /**
   * Key absorption preserves meaning: with the table made from the subkeys, the fast network is the
   * reference network, for any number of groups, any subkeys and any block.
   */
  lemma Absorption<H(!new)>(o: Ops<H>, f: seq<H>, k: seq<H>, n: nat, m: Block<H>)
    requires XorLaws(o) && RoundLaw(o) && MaskLaws(o)
    requires n > 0 && |k| == Size(n) && IsTable(o, f, k, n)
    ensures FastEncrypt(o, f, n, m) == Reference(o, k, n, m)
  {
    var s := Block(o.xor(m.a, k[0]), o.xor(m.b, k[1]));
    AllGroups(o, f, k, n, 0, s);
    assert o.xor(m.a, o.xor(k[0], k[2])) == o.xor(s.a, k[2]);
    assert m.b == o.xor(s.b, k[1]);
  }

  // ---------------------------------------------------------------- decryption

  /** Six rounds backwards on swapped halves undo six rounds. */
  lemma SixBack<H(!new)>(o: Ops<H>, k: seq<H>, i: nat, s: Block<H>)
    requires UndoLaws(o) && i + 6 <= |k|
    ensures var r := FastSix(o, k, i, s); FastSixBack(o, k, i, Block(r.b, r.a)) == Block(s.b, s.a)
  {
  }

  lemma {:induction false} GroupsBack<H(!new)>(o: Ops<H>, k: seq<H>, g: nat, n: nat, s: Block<H>)
    requires UndoLaws(o) && g < n && 8 * n < |k|
    ensures var r := FastGroups(o, k, g, n, s);
            FastGroupsBack(o, k, n - 1, Block(r.b, r.a)) ==
            if g == 0 then Block(s.b, s.a)
            else FastGroupsBack(o, k, g - 1, Block(o.fl(k[8 * g + 1], s.b), o.flInv(k[8 * g], s.a)))
    decreases n - g
  {
    var s1 := FastSix(o, k, 8 * g + 2, s);
    SixBack(o, k, 8 * g + 2, s);
    if g + 1 < n {
      var s2 := Layer(o, k, 8 * g + 8, s1);
      GroupsBack(o, k, g + 1, n, s2);
      assert Block(o.fl(k[8 * g + 9], s2.b), o.flInv(k[8 * g + 8], s2.a)) == Block(s1.b, s1.a);
    }
  }

  /** Decryption undoes encryption with the same table, whatever the table holds. */
  lemma DecryptUndoes<H(!new)>(o: Ops<H>, k: seq<H>, n: nat, m: Block<H>)
    requires XorLaws(o) && UndoLaws(o) && n > 0 && 8 * n < |k|
    ensures FastDecrypt(o, k, n, FastEncrypt(o, k, n, m)) == m
  {
    GroupsBack(o, k, 0, n, Block(o.xor(m.a, k[0]), m.b));
  }

  lemma SixForth<H(!new)>(o: Ops<H>, k: seq<H>, i: nat, s: Block<H>)
    requires UndoLaws(o) && i + 6 <= |k|
    ensures var r := FastSixBack(o, k, i, s); FastSix(o, k, i, Block(r.b, r.a)) == Block(s.b, s.a)
  {
  }

  lemma {:induction false} GroupsForth<H(!new)>(o: Ops<H>, k: seq<H>, g: nat, n: nat, s: Block<H>)
    requires UndoLaws(o) && g < n && 8 * n < |k|
    ensures var r := FastGroupsBack(o, k, g, s);
            FastGroups(o, k, 0, n, Block(r.b, r.a)) ==
            if g + 1 == n then Block(s.b, s.a)
            else FastGroups(o, k, g + 1, n, Layer(o, k, 8 * g + 8, Block(s.b, s.a)))
    decreases g
  {
    var s1 := FastSixBack(o, k, 8 * g + 2, s);
    SixForth(o, k, 8 * g + 2, s);
    if g > 0 {
      var s2 := Block(o.fl(k[8 * g + 1], s1.a), o.flInv(k[8 * g], s1.b));
      GroupsForth(o, k, g - 1, n, s2);
      assert Layer(o, k, 8 * g, Block(s2.b, s2.a)) == Block(s1.b, s1.a);
    }
  }

  /** And encryption undoes decryption, so that every block is the encryption of one block. */
  lemma EncryptUndoes<H(!new)>(o: Ops<H>, k: seq<H>, n: nat, c: Block<H>)
    requires XorLaws(o) && UndoLaws(o) && n > 0 && 8 * n < |k|
    ensures FastEncrypt(o, k, n, FastDecrypt(o, k, n, c)) == c
  {
    GroupsForth(o, k, n - 1, n, Block(o.xor(c.a, k[8 * n]), c.b));
  }
}
