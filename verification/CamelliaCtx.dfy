/**
 * The cipher context of crypto/camellia.c: setting a key, encrypting and decrypting a block.
 */
module CamelliaCtx {
  import opened CamelliaNetwork
  import opened Camellia
  import opened CamelliaSchedule
  import opened CamelliaCipher

  const EINVAL: int := -22

  /** The second key quantity of a 192-bit key: its last 64 bits and their complement. */
  function Stretch(right: Quad): Quad { Quad(right.ll, right.lr, Not(right.ll), Not(right.lr)) }

  /** The subkeys of section 2.2 of RFC 3713 for each key length; `right` is read as far as the key reaches. */
  function Subkeys(t: Tables, len: int, left: Quad, right: Quad): (k: seq<Half>)
    ensures |k| == if len == 16 then 26 else 34
  {
    if len == 16 then Subkeys128(t, Bits(left))
    else Subkeys256(t, Bits(left), Bits(if len == 24 then Stretch(right) else right))
  }

  class Context {
    const t: Tables
    const keyTable: array<Half>
    var keyLength: int

    constructor (tables: Tables)
      ensures t == tables && fresh(keyTable) && keyTable.Length == 34
    {
      t, keyLength := tables, 0;
      keyTable := new Half[34](_ => Half(seq(32, _ => false), seq(32, _ => false)));
    }

    /** Groups of six rounds. */
    function N(): nat reads this { if keyLength == 16 then 3 else 4 }

    /** The table belongs to the list of subkeys `k`. */
    ghost predicate Keyed(k: seq<Half>)
      reads this, keyTable
    {
      keyTable.Length == 34 && |k| == Size(N()) && IsTable(CamelliaOps(t), keyTable[..], k, N())
    }

    /** camellia_set_key. */
    method SetKey(len: int, left: Quad, right: Quad) returns (err: int)
      requires keyTable.Length == 34
      modifies this`keyLength, keyTable
      ensures err == if len == 16 || len == 24 || len == 32 then 0 else EINVAL
      ensures err == 0 ==> keyLength == len && Keyed(Subkeys(t, len, left, right))
      ensures err != 0 ==> keyLength == old(keyLength) && keyTable[..] == old(keyTable[..])
    {
      if len != 16 && len != 24 && len != 32 { return EINVAL; }
      keyLength := len;
      MakeTable(len, left, right);
      return 0;
    }

    method MakeTable(len: int, left: Quad, right: Quad)
      requires keyTable.Length == 34 && (len == 16 || len == 24 || len == 32)
      modifies keyTable
      ensures IsTable(CamelliaOps(t), keyTable[..], Subkeys(t, len, left, right), if len == 16 then 3 else 4)
    {
      if len == 16 {
        Setup128(t, left, keyTable);
      } else {
        SetLong(len, left, right);
      }
    }

    /** camellia_setup192 and camellia_setup256. */
    method SetLong(len: int, left: Quad, right: Quad)
      requires keyTable.Length == 34 && (len == 24 || len == 32)
      modifies keyTable
      ensures IsTable(CamelliaOps(t), keyTable[..], Subkeys(t, len, left, right), 4)
    {
      if len == 24 {
        Setup256(t, left, Stretch(right), keyTable);
      } else {
        Setup256(t, left, right, keyTable);
      }
    }

    /** camellia_encrypt, on the words of the block: the cipher of RFC 3713. */
    method Encrypt(m: Block<Half>, ghost k: seq<Half>) returns (c: Block<Half>)
      requires Keyed(k)
      ensures c == Reference(CamelliaOps(t), k, N(), m)
    {
      var io := new Half[2] [m.a, m.b];
      DoEncrypt(CamelliaOps(t), keyTable, io, N());
      c := Block(io[1], io[0]);
      EncryptIsReference(t, keyTable[..], k, N(), m);
    }

    /** camellia_decrypt: the one block whose encryption, by the cipher of RFC 3713, is `c`. */
    method Decrypt(c: Block<Half>, ghost k: seq<Half>) returns (m: Block<Half>)
      requires Keyed(k)
      ensures Reference(CamelliaOps(t), k, N(), m) == c
      ensures forall x :: c == Reference(CamelliaOps(t), k, N(), x) ==> m == x
    {
      var io := new Half[2] [c.a, c.b];
      DoDecrypt(CamelliaOps(t), keyTable, io, N());
      m := Block(io[1], io[0]);
      EncryptIsInverse(t, keyTable[..], N(), c);
      EncryptIsReference(t, keyTable[..], k, N(), m);
      forall x | c == Reference(CamelliaOps(t), k, N(), x)
        ensures m == x
      {
        EncryptIsReference(t, keyTable[..], k, N(), x);
        DecryptIsInverse(t, keyTable[..], N(), x);
      }
    }
  }
}
