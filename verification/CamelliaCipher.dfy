/**
 * camellia_do_encrypt and camellia_do_decrypt of crypto/camellia.c, rewriting the block in place.
 */
module CamelliaCipher {
  import opened CamelliaNetwork

  function View<H>(io: array<H>): Block<H>
    requires io.Length == 2
    reads io
  {
    Block(io[0], io[1])
  }

  /** The macro ROUNDS of camellia_do_encrypt. */
  method Rounds<H(!new)>(o: Ops<H>, subkey: array<H>, io: array<H>, i: nat)
    requires io.Length == 2 && i + 6 <= subkey.Length && io != subkey
    modifies io
    ensures View(io) == FastSix(o, subkey[..], i, old(View(io)))
  {
    io[1] := o.round(io[0], subkey[i], io[1]);
    io[0] := o.round(io[1], subkey[i + 1], io[0]);
    io[1] := o.round(io[0], subkey[i + 2], io[1]);
    io[0] := o.round(io[1], subkey[i + 3], io[0]);
    io[1] := o.round(io[0], subkey[i + 4], io[1]);
    io[0] := o.round(io[1], subkey[i + 5], io[0]);
  }

  /** The macro ROUNDS of camellia_do_decrypt. */
  method RoundsBack<H(!new)>(o: Ops<H>, subkey: array<H>, io: array<H>, i: nat)
    requires io.Length == 2 && i + 6 <= subkey.Length && io != subkey
    modifies io
    ensures View(io) == FastSixBack(o, subkey[..], i, old(View(io)))
  {
    io[1] := o.round(io[0], subkey[i + 5], io[1]);
    io[0] := o.round(io[1], subkey[i + 4], io[0]);
    io[1] := o.round(io[0], subkey[i + 3], io[1]);
    io[0] := o.round(io[1], subkey[i + 2], io[0]);
    io[1] := o.round(io[0], subkey[i + 1], io[1]);
    io[0] := o.round(io[1], subkey[i], io[0]);
  }

  /** CAMELLIA_FLS with the keys at `i` and `j`. */
  method Fls<H(!new)>(o: Ops<H>, subkey: array<H>, io: array<H>, i: nat, j: nat)
    requires io.Length == 2 && i < subkey.Length && j < subkey.Length && io != subkey
    modifies io
    ensures View(io) == Block(o.fl(subkey[i], old(io[0])), o.flInv(subkey[j], old(io[1])))
  {
    io[0] := o.fl(subkey[i], io[0]);
    io[1] := o.flInv(subkey[j], io[1]);
  }

  /** One group of rounds and the layer after it, if there is one. */
  method Group<H(!new)>(o: Ops<H>, subkey: array<H>, io: array<H>, g: nat, n: nat)
    requires g < n && io.Length == 2 && 8 * n < subkey.Length && io != subkey
    modifies io
    ensures FastGroups(o, subkey[..], g, n, old(View(io))) ==
            if g + 1 == n then View(io) else FastGroups(o, subkey[..], g + 1, n, View(io))
  {
    Rounds(o, subkey, io, 8 * g + 2);
    if g + 1 < n {
      Fls(o, subkey, io, 8 * g + 8, 8 * g + 9);
    }
  }

  method GroupBack<H(!new)>(o: Ops<H>, subkey: array<H>, io: array<H>, g: nat)
    requires io.Length == 2 && 8 * (g + 1) < subkey.Length && io != subkey
    modifies io
    ensures FastGroupsBack(o, subkey[..], g, old(View(io))) ==
            if g == 0 then View(io) else FastGroupsBack(o, subkey[..], g - 1, View(io))
  {
    RoundsBack(o, subkey, io, 8 * g + 2);
    if g > 0 {
      Fls(o, subkey, io, 8 * g + 1, 8 * g);
    }
  }

  /** camellia_do_encrypt; the caller takes the halves in the other order. */
  method DoEncrypt<H(!new)>(o: Ops<H>, subkey: array<H>, io: array<H>, n: nat)
    requires (n == 3 || n == 4) && io.Length == 2 && 8 * n < subkey.Length && io != subkey
    modifies io
    ensures Block(io[1], io[0]) == FastEncrypt(o, subkey[..], n, old(View(io)))
  {
    io[0] := o.xor(io[0], subkey[0]);
    Group(o, subkey, io, 0, n);
    Group(o, subkey, io, 1, n);
    Group(o, subkey, io, 2, n);
    if n == 4 {
      Group(o, subkey, io, 3, n);
    }
    io[1] := o.xor(io[1], subkey[8 * n]);
  }

  /** camellia_do_decrypt, likewise. */
  method DoDecrypt<H(!new)>(o: Ops<H>, subkey: array<H>, io: array<H>, n: nat)
    requires (n == 3 || n == 4) && io.Length == 2 && 8 * n < subkey.Length && io != subkey
    modifies io
    ensures Block(io[1], io[0]) == FastDecrypt(o, subkey[..], n, old(View(io)))
  {
    io[0] := o.xor(io[0], subkey[8 * n]);
    var g := n - 1;
    if n == 4 {
      GroupBack(o, subkey, io, g);
      g := g - 1;
    }
    ThreeBack(o, subkey, io, g);
    io[1] := o.xor(io[1], subkey[0]);
  }

  method ThreeBack<H(!new)>(o: Ops<H>, subkey: array<H>, io: array<H>, g: nat)
    requires g == 2 && io.Length == 2 && 8 * (g + 1) < subkey.Length && io != subkey
    modifies io
    ensures FastGroupsBack(o, subkey[..], g, old(View(io))) == View(io)
  {
    GroupBack(o, subkey, io, g);
    GroupBack(o, subkey, io, g - 1);
    GroupBack(o, subkey, io, g - 2);
  }
}
