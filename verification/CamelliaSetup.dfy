/**
 * camellia_setup_tail of crypto/camellia.c: the in-place passes that absorb kw2 and kw4 into the
 * other subkeys and make the key table, proved to produce the table the network needs.
 */
module CamelliaSetup {
  import opened CamelliaNetwork

  /** kw2 as it stands after the FLINV layers before group `g`. */
  function MaskW<H(!new)>(o: Ops<H>, k: seq<H>, g: nat): H
    requires 8 * g + 2 <= |k|
    decreases g
  {
    if g == 0 then k[1] else o.lin(k[8 * g + 1], MaskW(o, k, g - 1))
  }

  /** kw4 as it stands before the FL layers after group `g`. */
  function MaskV<H(!new)>(o: Ops<H>, k: seq<H>, n: nat, g: nat): H
    requires g < n && |k| == Size(n)
    decreases n - g
  {
    if g + 1 == n then k[8 * n + 1] else o.lin(k[8 * g + 8], MaskV(o, k, n, g + 1))
  }

  /** The subkeys of one group, the even rounds' with `w` absorbed and the odd rounds' with `v`. */
  ghost predicate GroupIs<H(!new)>(o: Ops<H>, k: seq<H>, s: seq<H>, g: nat, w: H, v: H)
    requires |s| == |k| && 8 * g + 8 <= |k|
  {
    && s[8 * g + 2] == o.xor(k[8 * g + 2], v) && s[8 * g + 3] == o.xor(k[8 * g + 3], w)
    && s[8 * g + 4] == o.xor(k[8 * g + 4], v) && s[8 * g + 5] == o.xor(k[8 * g + 5], w)
    && s[8 * g + 6] == o.xor(k[8 * g + 6], v) && s[8 * g + 7] == o.xor(k[8 * g + 7], w)
  }

  ghost predicate EvenRounds<H(!new)>(o: Ops<H>, k: seq<H>, s: seq<H>, g: nat, w: H)
    requires |s| == |k| && 8 * g + 8 <= |k|
  {
    && s[8 * g + 2] == k[8 * g + 2] && s[8 * g + 3] == o.xor(k[8 * g + 3], w)
    && s[8 * g + 4] == k[8 * g + 4] && s[8 * g + 5] == o.xor(k[8 * g + 5], w)
    && s[8 * g + 6] == k[8 * g + 6] && s[8 * g + 7] == o.xor(k[8 * g + 7], w)
  }

  ghost predicate SameLayers<H(!new)>(k: seq<H>, s: seq<H>, n: nat)
    requires |s| == |k| == Size(n)
  {
    forall g :: 1 <= g < n ==> s[8 * g] == k[8 * g] && s[8 * g + 1] == k[8 * g + 1]
  }

  /** After the first pass. */
  ghost predicate Kw2Absorbed<H(!new)>(o: Ops<H>, k: seq<H>, s: seq<H>, n: nat)
    requires |s| == |k| == Size(n) && n > 0
  {
    && s[0] == k[0] && s[8 * n] == o.xor(k[8 * n], MaskW(o, k, n - 1)) && s[8 * n + 1] == k[8 * n + 1]
    && SameLayers(k, s, n)
    && forall g :: 0 <= g < n ==> EvenRounds(o, k, s, g, MaskW(o, k, g))
  }

  /** After both passes. */
  ghost predicate Absorbed<H(!new)>(o: Ops<H>, k: seq<H>, s: seq<H>, n: nat)
    requires |s| == |k| == Size(n) && n > 0
  {
    && s[0] == o.xor(k[0], MaskV(o, k, n, 0)) && s[8 * n] == o.xor(k[8 * n], MaskW(o, k, n - 1))
    && SameLayers(k, s, n)
    && forall g :: 0 <= g < n ==> GroupIs(o, k, s, g, MaskW(o, k, g), MaskV(o, k, n, g))
  }

  /** Three positions of the list, each with `v` added. */
  function Plus3<H(!new)>(o: Ops<H>, s: seq<H>, i: nat, v: H): (r: seq<H>)
    requires i + 4 < |s|
    ensures |r| == |s| && r[i] == o.xor(s[i], v) && r[i + 2] == o.xor(s[i + 2], v) && r[i + 4] == o.xor(s[i + 4], v)
    ensures forall j :: 0 <= j < |s| && j != i && j != i + 2 && j != i + 4 ==> r[j] == s[j]
  {
    s[i := o.xor(s[i], v)][i + 2 := o.xor(s[i + 2], v)][i + 4 := o.xor(s[i + 4], v)]
  }

  method AddThree<H(!new)>(o: Ops<H>, sub: array<H>, i: nat, v: H)
    requires i + 4 < sub.Length
    modifies sub
    ensures sub[..] == Plus3(o, old(sub[..]), i, v)
  {
    sub[i] := o.xor(sub[i], v);
    sub[i + 2] := o.xor(sub[i + 2], v);
    sub[i + 4] := o.xor(sub[i + 4], v);
  }

  /** kw2 goes into the even rounds of group `g`; before that it has passed the layer in front of it. */
  function EvenStep<H(!new)>(o: Ops<H>, s: seq<H>, g: nat): (r: seq<H>)
    requires 8 * g + 8 <= |s|
    ensures |r| == |s|
  {
    var w := if g == 0 then s[1] else o.lin(s[8 * g + 1], s[1]);
    Plus3(o, s[1 := w], 8 * g + 3, w)
  }

  /** How far the first pass has come: groups before `g` are done. */
  ghost predicate EvenUpTo<H(!new)>(o: Ops<H>, k: seq<H>, s: seq<H>, g: nat)
    requires |s| == |k| && 8 * g + 2 <= |k|
  {
    && s[0] == k[0] && s[1] == (if g == 0 then k[1] else MaskW(o, k, g - 1))
    && (forall h :: 0 <= h < g ==> EvenRounds(o, k, s, h, MaskW(o, k, h)))
    && (forall h :: 1 <= h < g ==> s[8 * h] == k[8 * h] && s[8 * h + 1] == k[8 * h + 1])
    && (forall j :: 0 < g && 8 * g <= j < |k| ==> s[j] == k[j])
    && (g == 0 ==> s == k)
  }

  lemma EvenAdvance<H(!new)>(o: Ops<H>, k: seq<H>, s: seq<H>, g: nat)
    requires |s| == |k| && 8 * g + 10 <= |k| && EvenUpTo(o, k, s, g)
    ensures EvenUpTo(o, k, EvenStep(o, s, g), g + 1)
  {
    var r := EvenStep(o, s, g);
    assert r[1] == MaskW(o, k, g);
    assert EvenRounds(o, k, r, g, MaskW(o, k, g));
    forall h | 0 <= h < g
      ensures EvenRounds(o, k, r, h, MaskW(o, k, h))
    {
      assert EvenRounds(o, k, s, h, MaskW(o, k, h));
    }
  }

  /** The first pass: kw2 goes into the even rounds and kw3. */
  method AbsorbKw2<H(!new)>(o: Ops<H>, sub: array<H>, n: nat)
    requires (n == 3 || n == 4) && sub.Length == Size(n)
    modifies sub
    ensures Kw2Absorbed(o, old(sub[..]), sub[..], n)
  {
    ghost var k := sub[..];
    AddThree(o, sub, 3, sub[1]);
    ghost var s1 := EvenStep(o, k, 0);
    assert k[1 := k[1]] == k;
    EvenAdvance(o, k, k, 0);
    sub[1] := o.lin(sub[9], sub[1]);
    AddThree(o, sub, 11, sub[1]);
    ghost var s2 := EvenStep(o, s1, 1);
    assert sub[..] == s2;
    EvenAdvance(o, k, s1, 1);
    sub[1] := o.lin(sub[17], sub[1]);
    AddThree(o, sub, 19, sub[1]);
    ghost var s3 := EvenStep(o, s2, 2);
    assert sub[..] == s3;
    EvenAdvance(o, k, s2, 2);
    if n == 3 {
      sub[24] := o.xor(sub[24], sub[1]);
      EvenDone(o, k, s3, sub[..], 3);
    } else {
      sub[1] := o.lin(sub[25], sub[1]);
      AddThree(o, sub, 27, sub[1]);
      ghost var s4 := EvenStep(o, s3, 3);
      assert sub[..] == s4;
      EvenAdvance(o, k, s3, 3);
      sub[32] := o.xor(sub[32], sub[1]);
      EvenDone(o, k, s4, sub[..], 4);
    }
  }

  lemma EvenDone<H(!new)>(o: Ops<H>, k: seq<H>, s: seq<H>, r: seq<H>, n: nat)
    requires |s| == |k| == Size(n) && n > 0 && EvenUpTo(o, k, s, n) && r == s[8 * n := o.xor(s[8 * n], s[1])]
    ensures Kw2Absorbed(o, k, r, n)
  {
    forall h | 0 <= h < n
      ensures EvenRounds(o, k, r, h, MaskW(o, k, h))
    {
      assert EvenRounds(o, k, s, h, MaskW(o, k, h));
    }
  }

  // ---------------------------------------------------------------- the second pass

  /** How far the second pass has come: groups from `g` on are done. */
  ghost predicate OddFrom<H(!new)>(o: Ops<H>, k: seq<H>, s: seq<H>, g: nat, n: nat)
    requires |s| == |k| == Size(n) && n > 0 && g <= n
  {
    && s[0] == k[0] && s[8 * n] == o.xor(k[8 * n], MaskW(o, k, n - 1)) && s[8 * n + 1] == k[8 * n + 1]
    && SameLayers(k, s, n)
    && (forall h :: 0 <= h < g ==> EvenRounds(o, k, s, h, MaskW(o, k, h)))
    && (forall h :: g <= h < n ==> GroupIs(o, k, s, h, MaskW(o, k, h), MaskV(o, k, n, h)))
  }

  lemma OddAdvance<H(!new)>(o: Ops<H>, k: seq<H>, s: seq<H>, g: nat, n: nat, v: H)
    requires |s| == |k| == Size(n) && g < n && OddFrom(o, k, s, g + 1, n) && v == MaskV(o, k, n, g)
    ensures OddFrom(o, k, Plus3(o, s, 8 * g + 2, v), g, n)
  {
    var r := Plus3(o, s, 8 * g + 2, v);
    assert EvenRounds(o, k, s, g, MaskW(o, k, g));
    forall h | 0 <= h < g
      ensures EvenRounds(o, k, r, h, MaskW(o, k, h))
    {
      assert EvenRounds(o, k, s, h, MaskW(o, k, h));
    }
    forall h | g < h < n
      ensures GroupIs(o, k, r, h, MaskW(o, k, h), MaskV(o, k, n, h))
    {
      assert GroupIs(o, k, s, h, MaskW(o, k, h), MaskV(o, k, n, h));
    }
    assert GroupIs(o, k, r, g, MaskW(o, k, g), v);
  }

  lemma OddDone<H(!new)>(o: Ops<H>, k: seq<H>, s: seq<H>, r: seq<H>, n: nat)
    requires |s| == |k| == Size(n) && n > 0 && OddFrom(o, k, s, 0, n) && r == s[0 := o.xor(s[0], MaskV(o, k, n, 0))]
    ensures Absorbed(o, k, r, n)
  {
    forall h | 0 <= h < n
      ensures GroupIs(o, k, r, h, MaskW(o, k, h), MaskV(o, k, n, h))
    {
      assert GroupIs(o, k, s, h, MaskW(o, k, h), MaskV(o, k, n, h));
    }
  }

  /** kw4 goes into the odd rounds of group `g`, and on through the layer in front of it. */
  method AddOdd<H(!new)>(o: Ops<H>, sub: array<H>, ghost k: seq<H>, g: nat, n: nat, v: H) returns (next: H)
    requires sub.Length == |k| == Size(n) && g < n && OddFrom(o, k, sub[..], g + 1, n) && v == MaskV(o, k, n, g)
    modifies sub
    ensures OddFrom(o, k, sub[..], g, n)
    ensures next == if g > 0 then MaskV(o, k, n, g - 1) else v
  {
    OddAdvance(o, k, sub[..], g, n, v);
    AddThree(o, sub, 8 * g + 2, v);
    next := if g > 0 then o.lin(sub[8 * g], v) else v;
  }

  /** The second pass: kw4 goes into the odd rounds and kw1, last group first. */
  method AbsorbKw4<H(!new)>(o: Ops<H>, sub: array<H>, n: nat, ghost k: seq<H>)
    requires (n == 3 || n == 4) && sub.Length == |k| == Size(n) && Kw2Absorbed(o, k, sub[..], n)
    modifies sub
    ensures Absorbed(o, k, sub[..], n)
  {
    var v := sub[8 * n + 1];
    if n == 4 {
      v := AddOdd(o, sub, k, 3, n, v);
    }
    v := AddOdd(o, sub, k, 2, n, v);
    v := AddOdd(o, sub, k, 1, n, v);
    v := AddOdd(o, sub, k, 0, n, v);
    ghost var s := sub[..];
    sub[0] := o.xor(sub[0], v);
    OddDone(o, k, s, sub[..], n);
  }

  // ---------------------------------------------------------------- the table

  /** One group of the table before its keys are unmixed: every round key is moved to the end of the round before. */
  ghost predicate RawGroup<H(!new)>(o: Ops<H>, f: seq<H>, s: seq<H>, n: nat, g: nat)
    requires g < n && |s| == Size(n) && 8 * n < |f|
  {
    && f[8 * g + 2] == (if g == 0 then s[3] else o.xor(o.lin(s[8 * g + 1], s[8 * g - 1]), s[8 * g + 3]))
    && f[8 * g + 3] == o.xor(s[8 * g + 2], s[8 * g + 4]) && f[8 * g + 4] == o.xor(s[8 * g + 3], s[8 * g + 5])
    && f[8 * g + 5] == o.xor(s[8 * g + 4], s[8 * g + 6]) && f[8 * g + 6] == o.xor(s[8 * g + 5], s[8 * g + 7])
    && f[8 * g + 7] == (if g + 1 == n then s[8 * g + 6] else o.xor(s[8 * g + 6], o.lin(s[8 * g + 8], s[8 * g + 10])))
    && (g + 1 < n ==> f[8 * g + 8] == s[8 * g + 8] && f[8 * g + 9] == s[8 * g + 9])
  }

  /** The entries for one group of rounds and the layer after it; nothing else is written. */
  method WriteGroup<H(!new)>(o: Ops<H>, sub: array<H>, subkey: array<H>, n: nat, g: nat)
    requires g < n && sub.Length == Size(n) && 8 * n < subkey.Length && sub != subkey
    modifies subkey
    ensures RawGroup(o, subkey[..], sub[..], n, g)
    ensures forall j :: 0 <= j < subkey.Length && !(8 * g + 2 <= j < 8 * g + 8 ||
                                                    (g + 1 < n && 8 * g + 8 <= j < 8 * g + 10))
              ==> subkey[j] == old(subkey[j])
  {
    var i := 8 * g;
    subkey[i + 2] := if g == 0 then sub[3] else o.xor(o.lin(sub[i + 1], sub[i - 1]), sub[i + 3]);
    subkey[i + 3] := o.xor(sub[i + 2], sub[i + 4]);
    subkey[i + 4] := o.xor(sub[i + 3], sub[i + 5]);
    subkey[i + 5] := o.xor(sub[i + 4], sub[i + 6]);
    subkey[i + 6] := o.xor(sub[i + 5], sub[i + 7]);
    if g + 1 == n {
      subkey[i + 7] := sub[i + 6];
    } else {
      subkey[i + 7] := o.xor(sub[i + 6], o.lin(sub[i + 8], sub[i + 10]));
      subkey[i + 8] := sub[i + 8];
      subkey[i + 9] := sub[i + 9];
    }
  }

  ghost predicate RawTable<H(!new)>(o: Ops<H>, f: seq<H>, s: seq<H>, n: nat)
    requires n > 0 && |s| == Size(n) && 8 * n < |f|
  {
    && f[0] == o.xor(s[0], s[2]) && f[8 * n] == o.xor(s[8 * n], s[8 * n - 1])
    && forall g :: 0 <= g < n ==> RawGroup(o, f, s, n, g)
  }

  /** The output part of camellia_setup_tail. */
  method WriteTable<H(!new)>(o: Ops<H>, sub: array<H>, subkey: array<H>, n: nat)
    requires (n == 3 || n == 4) && sub.Length == Size(n) && 8 * n < subkey.Length && sub != subkey
    modifies subkey
    ensures RawTable(o, subkey[..], sub[..], n)
  {
    subkey[0] := o.xor(sub[0], sub[2]);
    subkey[8 * n] := o.xor(sub[8 * n], sub[8 * n - 1]);
    WriteGroup(o, sub, subkey, n, 0);
    ghost var f1 := subkey[..];
    WriteGroup(o, sub, subkey, n, 1);
    ghost var f2 := subkey[..];
    KeepRaw(o, f1, f2, sub[..], n, 1);
    WriteGroup(o, sub, subkey, n, 2);
    ghost var f3 := subkey[..];
    KeepRaw(o, f2, f3, sub[..], n, 2);
    if n == 4 {
      WriteGroup(o, sub, subkey, n, 3);
      KeepRaw(o, f3, subkey[..], sub[..], n, 3);
    }
  }

  lemma KeepRaw<H(!new)>(o: Ops<H>, f: seq<H>, r: seq<H>, s: seq<H>, n: nat, g: nat)
    requires g < n && |s| == Size(n) && 8 * n < |f| == |r|
    requires forall j :: 0 <= j < 8 * g + 2 ==> r[j] == f[j]
    requires forall h :: 0 <= h < g ==> RawGroup(o, f, s, n, h)
    ensures forall h :: 0 <= h < g ==> RawGroup(o, r, s, n, h)
  {
    forall h | 0 <= h < g
      ensures RawGroup(o, r, s, n, h)
    {
      assert RawGroup(o, f, s, n, h);
    }
  }

  /** The six round keys of group `g` unmixed. */
  ghost predicate UnmixedGroup<H(!new)>(o: Ops<H>, raw: seq<H>, f: seq<H>, g: nat)
    requires |f| == |raw| && 8 * g + 8 <= |raw|
  {
    forall j :: 8 * g + 2 <= j < 8 * g + 8 ==> f[j] == o.unmix(raw[j])
  }

  /** One turn of the last loop of camellia_setup_tail. */
  method UnmixSix<H(!new)>(o: Ops<H>, subkey: array<H>, i: nat)
    requires i + 6 <= subkey.Length
    modifies subkey
    ensures forall j :: 0 <= j < subkey.Length ==> subkey[j] == if i <= j < i + 6 then o.unmix(old(subkey[j]))
            else old(subkey[j])
  {
    subkey[i] := o.unmix(subkey[i]);
    subkey[i + 1] := o.unmix(subkey[i + 1]);
    subkey[i + 2] := o.unmix(subkey[i + 2]);
    subkey[i + 3] := o.unmix(subkey[i + 3]);
    subkey[i + 4] := o.unmix(subkey[i + 4]);
    subkey[i + 5] := o.unmix(subkey[i + 5]);
  }

  method UnmixTable<H(!new)>(o: Ops<H>, subkey: array<H>, n: nat)
    requires n > 0 && 8 * n < subkey.Length
    modifies subkey
    ensures forall g :: 0 <= g < n ==> UnmixedGroup(o, old(subkey[..]), subkey[..], g)
    ensures forall g :: 0 <= g <= n ==> subkey[8 * g] == old(subkey[8 * g])
    ensures forall g :: 1 <= g < n ==> subkey[8 * g + 1] == old(subkey[8 * g + 1])
  {
    ghost var raw := subkey[..];
    var i := 2;
    ghost var g := 0;
    while i < 8 * n
      invariant i == 8 * g + 2 && 0 <= g <= n
      invariant forall h :: 0 <= h < g ==> UnmixedGroup(o, raw, subkey[..], h)
      invariant forall h :: 0 <= h <= n ==> subkey[8 * h] == raw[8 * h]
      invariant forall h :: 1 <= h < n ==> subkey[8 * h + 1] == raw[8 * h + 1]
      invariant forall j :: i <= j < subkey.Length ==> subkey[j] == raw[j]
    {
      ghost var f := subkey[..];
      UnmixSix(o, subkey, i);
      forall h | 0 <= h < g
        ensures UnmixedGroup(o, raw, subkey[..], h)
      {
        assert UnmixedGroup(o, raw, f, h);
      }
      i, g := i + 8, g + 1;
    }
  }

  // ---------------------------------------------------------------- the masks cancel

  ghost predicate CommLaw<H(!new)>(o: Ops<H>) {
    forall x, y :: o.xor(x, y) == o.xor(y, x)
  }

  /** The first key of a group: what kw2 left behind is gone again. */
  lemma FirstKey<H(!new)>(o: Ops<H>, k: seq<H>, s: seq<H>, n: nat, g: nat)
    requires XorLaws(o) && LinLaw(o) && CommLaw(o) && |s| == |k| == Size(n) && g < n && Absorbed(o, k, s, n)
    ensures (if g == 0 then s[3] else o.xor(o.lin(s[8 * g + 1], s[8 * g - 1]), s[8 * g + 3])) ==
            o.xor(Carried(o, k, g), k[8 * g + 3])
  {
    assert GroupIs(o, k, s, g, MaskW(o, k, g), MaskV(o, k, n, g));
    if g == 0 {
      assert o.xor(k[3], k[1]) == o.xor(k[1], k[3]);
    } else {
      assert GroupIs(o, k, s, g - 1, MaskW(o, k, g - 1), MaskV(o, k, n, g - 1));
      var w := MaskW(o, k, g - 1);
      assert s[8 * g - 1] == o.xor(k[8 * g - 1], w);
      assert o.lin(k[8 * g + 1], o.xor(k[8 * g - 1], w)) == o.xor(o.lin(k[8 * g + 1], k[8 * g - 1]), MaskW(o, k, g));
    }
  }

  /** The last key of a group: what kw4 left behind is gone again. */
  lemma LastKey<H(!new)>(o: Ops<H>, k: seq<H>, s: seq<H>, n: nat, g: nat)
    requires XorLaws(o) && LinLaw(o) && |s| == |k| == Size(n) && g < n && Absorbed(o, k, s, n)
    ensures (if g + 1 == n then s[8 * g + 6] else o.xor(s[8 * g + 6], o.lin(s[8 * g + 8], s[8 * g + 10]))) ==
            o.xor(k[8 * g + 6], Ahead(o, k, n, g))
  {
    assert GroupIs(o, k, s, g, MaskW(o, k, g), MaskV(o, k, n, g));
    if g + 1 < n {
      var v := MaskV(o, k, n, g + 1);
      assert GroupIs(o, k, s, g + 1, MaskW(o, k, g + 1), v);
      assert s[8 * (g + 1)] == k[8 * (g + 1)];
      assert o.lin(k[8 * g + 8], o.xor(k[8 * g + 10], v)) ==
             o.xor(o.lin(k[8 * g + 8], k[8 * g + 10]), MaskV(o, k, n, g));
    }
  }

  lemma GroupDone<H(!new)>(o: Ops<H>, k: seq<H>, s: seq<H>, raw: seq<H>, f: seq<H>, n: nat, g: nat)
    requires XorLaws(o) && LinLaw(o) && CommLaw(o) && |s| == |k| == Size(n) && g < n && Absorbed(o, k, s, n)
    requires 8 * n < |raw| == |f| && RawGroup(o, raw, s, n, g) && UnmixedGroup(o, raw, f, g)
    requires g + 1 < n ==> f[8 * g + 8] == raw[8 * g + 8] && f[8 * g + 9] == raw[8 * g + 9]
    ensures GroupEntries(o, f, k, n, g)
  {
    FirstKey(o, k, s, n, g);
    LastKey(o, k, s, n, g);
    assert GroupIs(o, k, s, g, MaskW(o, k, g), MaskV(o, k, n, g));
    assert g + 1 < n ==> s[8 * (g + 1)] == k[8 * (g + 1)] && s[8 * (g + 1) + 1] == k[8 * (g + 1) + 1];
  }

  lemma TableDone<H(!new)>(o: Ops<H>, k: seq<H>, s: seq<H>, raw: seq<H>, f: seq<H>, n: nat)
    requires XorLaws(o) && LinLaw(o) && CommLaw(o) && n > 0 && |s| == |k| == Size(n) && Absorbed(o, k, s, n)
    requires 8 * n < |raw| == |f| && RawTable(o, raw, s, n)
    requires forall g :: 0 <= g < n ==> UnmixedGroup(o, raw, f, g)
    requires forall g :: 0 <= g <= n ==> f[8 * g] == raw[8 * g]
    requires forall g :: 1 <= g < n ==> f[8 * g + 1] == raw[8 * g + 1]
    ensures IsTable(o, f, k, n)
  {
    forall g | 0 <= g < n
      ensures GroupEntries(o, f, k, n, g)
    {
      assert RawGroup(o, raw, s, n, g) && UnmixedGroup(o, raw, f, g);
      assert g + 1 < n ==> f[8 * (g + 1)] == raw[8 * (g + 1)] && f[8 * (g + 1) + 1] == raw[8 * (g + 1) + 1];
      GroupDone(o, k, s, raw, f, n, g);
    }
    assert f[8 * 0] == raw[8 * 0] && f[8 * n] == raw[8 * n];
    assert GroupIs(o, k, s, 0, MaskW(o, k, 0), MaskV(o, k, n, 0));
    assert GroupIs(o, k, s, n - 1, MaskW(o, k, n - 1), MaskV(o, k, n, n - 1));
  }

  /**
   * camellia_setup_tail: three groups for max == 24, four for max == 32.  The table holds the subkeys
   * moved and unmixed as the fast network needs them, with kw2 and kw4 absorbed.
   */
  method SetupTail<H(!new)>(o: Ops<H>, subkey: array<H>, sub: array<H>, n: nat)
    requires XorLaws(o) && LinLaw(o) && CommLaw(o)
    requires (n == 3 || n == 4) && sub.Length == Size(n) && 8 * n < subkey.Length && sub != subkey
    modifies sub, subkey
    ensures IsTable(o, subkey[..], old(sub[..]), n)
  {
    ghost var k := sub[..];
    AbsorbKw2(o, sub, n);
    AbsorbKw4(o, sub, n, k);
    WriteTable(o, sub, subkey, n);
    ghost var s, raw := sub[..], subkey[..];
    UnmixTable(o, subkey, n);
    TableDone(o, k, s, raw, subkey[..], n);
  }
}
