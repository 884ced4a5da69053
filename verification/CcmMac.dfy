/**
 * The streaming MAC of crypto/ccm.c as it runs, on its block buffers, with the data coming in chunks.
 */
module CcmMac {
  import opened Ccm

  /** The bytes of a scatterlist walk: its chunks one after the other. */
  function Concat(chunks: seq<seq<byte>>): seq<byte> {
    if chunks == [] then [] else Concat(chunks[..|chunks| - 1]) + chunks[|chunks| - 1]
  }

  /** The first whole block of pending bytes and new ones. */
  lemma FirstBlock(e: Block -> Block, x: Block, p: seq<byte>, d: seq<byte>)
    requires |p| < 16 && |p| + |d| >= 16
    ensures var get := 16 - |p|;
            && Absorb(e, x, p + d) == Absorb(e, e(Xor(x, p + d[..get])), d[get..])
            && Tail(p + d) == Tail(d[get..])
  {
    var s, get := p + d, 16 - |p|;
    assert s[..16] == p + d[..get] && s[16..] == d[get..];
  }

  class Request {
    const odata: array<byte>
    const idata: array<byte>
    var ilen: nat

    constructor ()
      ensures Valid() && fresh(odata) && fresh(idata) && ilen == 0
    {
      odata, idata, ilen := new byte[16](_ => 0), new byte[16](_ => 0), 0;
    }

    ghost predicate Valid()
      reads this
    {
      odata.Length == 16 && idata.Length == 16 && odata != idata && ilen < 16
    }

    /** The bytes that wait for a block to fill up. */
    ghost function Pending(): (p: seq<byte>)
      requires Valid()
      reads this, idata
      ensures |p| == ilen
    {
      idata[..ilen]
    }

    /** The chaining value. */
    ghost function Value(): Block
      requires Valid()
      reads this, odata
    {
      odata[..]
    }

    /** crypto_xor of a block into odata, and crypto_cipher_encrypt_one in place. */
    method Mix(e: Block -> Block, b: seq<byte>)
      requires Valid() && |b| == 16
      modifies odata
      ensures Value() == e(Xor(old(Value()), b))
    {
      ghost var x := odata[..];
      var i := 0;
      while i < 16
        invariant 0 <= i <= 16
        invariant odata[..] == Xor(x, b)[..i] + x[i..]
      {
        odata[i] := Xor1(odata[i], b[i]);
        i := i + 1;
      }
      assert odata[..] == Xor(x, b);
      Encrypt(e);
    }

    method Encrypt(e: Block -> Block)
      requires Valid()
      modifies odata
      ensures Value() == e(old(Value()))
    {
      var y := e(odata[..]);
      forall i | 0 <= i < 16 { odata[i] := y[i]; }
    }

    /** memcpy of new bytes behind the pending ones. */
    method Fill(d: seq<byte>)
      requires Valid() && ilen + |d| <= 16
      modifies idata
      ensures idata[..ilen + |d|] == old(idata[..ilen]) + d
    {
      forall i | 0 <= i < |d| { idata[ilen + i] := d[i]; }
    }

    /** The pending bytes and new ones make a block. */
    method FillBlock(e: Block -> Block, d: seq<byte>)
      requires Valid() && ilen + |d| == 16
      modifies this, odata, idata
      ensures Valid() && ilen == 0 && Value() == e(Xor(old(Value()), old(Pending()) + d))
    {
      Fill(d);
      assert idata[..] == old(Pending()) + d;
      Mix(e, idata[..]);
      ilen := 0;
    }

    /** compute_mac: one more chunk of the stream. */
    method ComputeMac(e: Block -> Block, data: seq<byte>)
      requires Valid()
      modifies this, odata, idata
      ensures Valid()
      ensures Value() == Absorb(e, old(Value()), old(Pending()) + data) && Pending() == Tail(old(Pending()) + data)
    {
      ghost var x, p := Value(), Pending();
      var rest := data;
      var get := 16 - ilen;
      if |rest| >= get {
        FirstBlock(e, x, p, data);
        FillBlock(e, rest[..get]);
        rest := rest[get..];
        assert Pending() + rest == rest;
      }
      while |rest| >= 16
        invariant Valid() && (ilen == 0 || |rest| + ilen < 16)
        invariant Absorb(e, Value(), Pending() + rest) == Absorb(e, x, p + data)
        invariant Tail(Pending() + rest) == Tail(p + data)
        decreases |rest|
      {
        assert Pending() == [] && [] + rest == rest && [] + rest[16..] == rest[16..];
        Mix(e, rest[..16]);
        rest := rest[16..];
      }
      Fill(rest);
      ilen := ilen + |rest|;
    }
  
    /** The end of get_data_to_compute: whatever is pending is padded with zeros. */
    method PadOut(e: Block -> Block)
      requires Valid()
      modifies this, odata, idata
      ensures Valid() && ilen == 0
      ensures Value() == if old(Pending()) == [] then old(Value())
              else e(Xor(old(Value()), old(Pending()) + Zeros(16 - |old(Pending())|)))
    {
      if ilen != 0 {
        FillBlock(e, Zeros(16 - ilen));
      }
    }

    /** get_data_to_compute: any chunking of the data gives the MAC of the padded whole. */
    method GetData(e: Block -> Block, chunks: seq<seq<byte>>)
      requires Valid()
      modifies this, odata, idata
      ensures Valid() && ilen == 0
      ensures Value() == Absorb(e, old(Value()), Pad(old(Pending()) + Concat(chunks)))
    {
      ghost var x, p := Value(), Pending();
      var i := 0;
      assert chunks[..0] == [] && p + [] == p;
      while i < |chunks|
        invariant 0 <= i <= |chunks| && Valid()
        invariant Value() == Absorb(e, x, p + Concat(chunks[..i])) && Pending() == Tail(p + Concat(chunks[..i]))
      {
        NextChunk(e, x, p, chunks, i);
        ComputeMac(e, chunks[i]);
        i := i + 1;
      }
      assert chunks[..i] == chunks;
      AbsorbPad(e, x, p + Concat(chunks));
      PadOut(e);
    }

    /** crypto_ccm_auth, with the associated data and the text in any chunks. */
    method Authenticate(e: Block -> Block, iv: Block, m: nat, assoc: seq<seq<byte>>,
                        text: seq<seq<byte>>) returns (err: int)
      requires Valid() && GoodIv(iv) && GoodAuthSize(m)
      modifies this, odata, idata
      ensures Valid()
      ensures var r := Auth(e, iv, m, Concat(assoc), Concat(text));
              if r.Ok? then err == 0 && Value() == r.value else err == r.error
    {
      var alen, len := |Concat(assoc)|, |Concat(text)|;
      match FormatInput(iv, m, alen, len) {
        case Err(error) => return error;
        case Ok(b) =>
          forall i | 0 <= i < 16 { odata[i] := b[i]; }
          assert Value() == b;
          Encrypt(e);
          if alen != 0 {
            var field := FormatAdata(alen);
            ilen := 0;
            Fill(field);
            ilen := |field|;
            assert Pending() == field;
            GetData(e, assoc);
          } else {
            ilen := 0;
          }
          assert Pending() + Concat(text) == Concat(text);
          GetData(e, text);
          return 0;
      }
    }
  }

  lemma ConcatNext(chunks: seq<seq<byte>>, i: nat)
    requires i < |chunks|
    ensures Concat(chunks[..i + 1]) == Concat(chunks[..i]) + chunks[i]
  {
    assert chunks[..i + 1][..i] == chunks[..i];
  }

  lemma NextChunk(e: Block -> Block, x: Block, p: seq<byte>, chunks: seq<seq<byte>>, i: nat)
    requires i < |chunks|
    ensures var s, t := p + Concat(chunks[..i]), p + Concat(chunks[..i + 1]);
            Absorb(e, x, t) == Absorb(e, Absorb(e, x, s), Tail(s) + chunks[i]) && Tail(t) == Tail(Tail(s) + chunks[i])
  {
    var s := p + Concat(chunks[..i]);
    ConcatNext(chunks, i);
    assert p + (Concat(chunks[..i]) + chunks[i]) == s + chunks[i];
    AbsorbCat(e, x, s, chunks[i]);
  }
}
