/**
 * Ending I/O on part of a request: __end_that_request_first and req_bio_endio of block/blk-core.c
 * on values.  A request is a chain of bios, each with the memory vectors still to be completed.
 */
module Completion {

  datatype Vec = Vec(page: nat, offset: nat, len: nat)

  /** A bio: its vectors, the index of the current one, the bytes and first sector left, and BIO_UPTODATE. */
  datatype Bio = Bio(id: nat, vecs: seq<Vec>, idx: nat, size: nat, sector: nat, uptodate: bool)

  /** bio_endio was called for a bio. */
  datatype Ended = Ended(id: nat, error: int)

  const EIO: int := -5

  function Sum(vecs: seq<Vec>): nat {
    if vecs == [] then 0 else vecs[0].len + Sum(vecs[1..])
  }

  /** The bytes of memory that vectors cover, in order. */
  function Bytes(vecs: seq<Vec>): (b: seq<(nat, nat)>)
    ensures |b| == Sum(vecs)
  {
    if vecs == [] then []
    else seq(vecs[0].len, i requires 0 <= i => (vecs[0].page, vecs[0].offset + i)) + Bytes(vecs[1..])
  }

  function Left(b: Bio): seq<Vec> { if b.idx <= |b.vecs| then b.vecs[b.idx..] else [] }

  /** What remains of vectors after their first `n` bytes. */
  function Cut(vecs: seq<Vec>, n: nat): seq<Vec> {
    if n == 0 || vecs == [] then vecs
    else if vecs[0].len <= n then Cut(vecs[1..], n - vecs[0].len)
    else [Vec(vecs[0].page, vecs[0].offset + n, vecs[0].len - n)] + vecs[1..]
  }

  /** The error a bio ends with when the call that finishes it reports `error`. */
  function EndError(b: Bio, error: int): int {
    if error != 0 then error else if b.uptodate then 0 else EIO
  }

  /** The fields req_bio_endio changes; `n` is cut down to what the bio has left. */
  function Advance(b: Bio, n: nat, error: int): Bio {
    var m := if n > b.size then b.size else n;
    b.(size := b.size - m, sector := b.sector + m / 512, uptodate := b.uptodate && error == 0)
  }

  /** How many whole vectors the first `n` bytes cover, and how far into the next one they reach. */
  function Whole(vecs: seq<Vec>, n: nat): (r: (nat, nat))
    ensures r.0 <= |vecs|
  {
    if n == 0 || vecs == [] || vecs[0].len > n then (0, n)
    else var r := Whole(vecs[1..], n - vecs[0].len); (r.0 + 1, r.1)
  }

  /** A vector with its first `n` bytes gone. */
  function Trimmed(v: Vec, n: nat): Vec { Vec(v.page, v.offset + n, if n <= v.len then v.len - n else 0) }

  /** The first bio after a call that does not finish it. */
  function Part(b: Bio, n: nat, error: int): Bio {
    if n == 0 || Left(b) == [] then b
    else
      var (w, r) := Whole(Left(b), n);
      var a := Advance(b, n, error);
      var idx := b.idx + w;
      a.(idx := idx, vecs := if idx < |b.vecs| then b.vecs[idx := Trimmed(b.vecs[idx], r)] else b.vecs)
  }

  /** What a call for `n` bytes ends, and the chain it leaves; after ending a bio it stops if no bytes are left. */
  function Finish(bios: seq<Bio>, n: nat, error: int): (seq<Ended>, seq<Bio>) {
    if bios == [] then ([], [])
    else if n >= bios[0].size then
      var r := if n == bios[0].size then ([], bios[1..]) else Finish(bios[1..], n - bios[0].size, error);
      ([Ended(bios[0].id, EndError(bios[0], error))] + r.0, r.1)
    else ([], [Part(bios[0], n, error)] + bios[1..])
  }

  // ---------------------------------------------------------------- well-formed chains

  /** A bio with data: its size is what its vectors still hold. */
  predicate Sound(b: Bio) { b.idx <= |b.vecs| && b.size > 0 && Sum(Left(b)) == b.size }

  predicate SoundChain(bios: seq<Bio>) { forall i :: 0 <= i < |bios| ==> Sound(bios[i]) }

  function Size(bios: seq<Bio>): nat {
    if bios == [] then 0 else bios[0].size + Size(bios[1..])
  }

  /** All bytes a chain still has to complete. */
  function Pending(bios: seq<Bio>): seq<(nat, nat)> {
    if bios == [] then [] else Bytes(Left(bios[0])) + Pending(bios[1..])
  }

  function Ids(bios: seq<Bio>): (r: seq<nat>)
    ensures |r| == |bios|
  {
    if bios == [] then [] else [bios[0].id] + Ids(bios[1..])
  }

  function EndedIds(log: seq<Ended>): (r: seq<nat>)
    ensures |r| == |log|
  {
    if log == [] then [] else [log[0].id] + EndedIds(log[1..])
  }

  // ---------------------------------------------------------------- vectors

  lemma {:induction false} CutBytes(vecs: seq<Vec>, n: nat)
    requires n <= Sum(vecs)
    ensures Bytes(Cut(vecs, n)) == Bytes(vecs)[n..] && Sum(Cut(vecs, n)) == Sum(vecs) - n
    decreases |vecs|
  {
    if n > 0 && vecs != [] {
      if vecs[0].len <= n {
        CutBytes(vecs[1..], n - vecs[0].len);
      } else {
        assert Cut(vecs, n)[1..] == vecs[1..];
      }
    }
  }

  /** Cutting twice is cutting once. */
  lemma {:induction false} CutCut(vecs: seq<Vec>, a: nat, b: nat)
    ensures Cut(Cut(vecs, a), b) == Cut(vecs, a + b)
    decreases |vecs|
  {
    if a > 0 && vecs != [] {
      if vecs[0].len <= a {
        CutCut(vecs[1..], a - vecs[0].len, b);
      } else {
        assert Cut(vecs, a)[1..] == vecs[1..];
      }
    }
  }

  lemma {:induction false} WholeCut(vecs: seq<Vec>, n: nat)
    requires n < Sum(vecs)
    ensures var (w, r) := Whole(vecs, n);
            w < |vecs| && (n > 0 ==> r <= vecs[w].len && Cut(vecs, n) == [Trimmed(vecs[w], r)] + vecs[w + 1..])
    ensures n == 0 ==> Whole(vecs, n) == (0, 0)
    decreases |vecs|
  {
    if n > 0 && vecs[0].len <= n {
      WholeCut(vecs[1..], n - vecs[0].len);
      var (w, r) := Whole(vecs[1..], n - vecs[0].len);
      assert vecs[1..][w + 1..] == vecs[w + 2..];
      if n == vecs[0].len {
        assert vecs[1..] == [vecs[1]] + vecs[2..];
        assert Trimmed(vecs[1], 0) == vecs[1];
      }
    }
  }

  // ---------------------------------------------------------------- one call

  lemma PartCut(b: Bio, n: nat, error: int)
    requires Sound(b) && n < b.size
    ensures Left(Part(b, n, error)) == Cut(Left(b), n) && Part(b, n, error).idx <= |Part(b, n, error).vecs|
  {
    var left := Left(b);
    WholeCut(left, n);
    if n > 0 {
      var (w, r) := Whole(left, n);
      var v := Trimmed(left[w], r);
      SetFirst(b.vecs, b.idx, w, v);
      var p := Part(b, n, error);
      assert p.idx == b.idx + w && p.vecs == b.vecs[b.idx + w := v];
    }
  }

  /** A bio that is not finished keeps exactly its uncovered bytes. */
  lemma PartLeft(b: Bio, n: nat, error: int)
    requires Sound(b) && n < b.size
    ensures var p := Part(b, n, error);
            Left(p) == Cut(Left(b), n) && Sound(p) && p.size == b.size - n && p.id == b.id
            && p.uptodate == (b.uptodate && (n == 0 || error == 0))
  {
    CutBytes(Left(b), n);
    PartCut(b, n, error);
  }

  lemma SetFirst(vecs: seq<Vec>, idx: nat, w: nat, v: Vec)
    requires idx + w < |vecs|
    ensures vecs[idx + w := v][idx + w..] == [v] + vecs[idx..][w + 1..]
  {
  }

  lemma NothingToDo(bios: seq<Bio>, error: int)
    requires SoundChain(bios)
    ensures Finish(bios, 0, error) == ([], bios)
  {
    if bios != [] {
      assert Sound(bios[0]);
      assert [bios[0]] + bios[1..] == bios;
    }
  }

  /** A call that reaches beyond the first bio goes on with the others. */
  lemma FinishCons(bios: seq<Bio>, n: nat, error: int, r: (seq<Ended>, seq<Bio>))
    requires SoundChain(bios) && bios != [] && n >= bios[0].size && r == Finish(bios[1..], n - bios[0].size, error)
    ensures Finish(bios, n, error) == ([Ended(bios[0].id, EndError(bios[0], error))] + r.0, r.1)
  {
    NothingToDo(bios[1..], error);
  }

  lemma {:induction false} PendingSize(bios: seq<Bio>)
    requires SoundChain(bios)
    ensures |Pending(bios)| == Size(bios)
    decreases |bios|
  {
    if bios != [] {
      assert Sound(bios[0]);
      PendingSize(bios[1..]);
    }
  }

  lemma DropCat<T>(a: seq<T>, b: seq<T>, n: nat)
    requires n <= |a| + |b|
    ensures (a + b)[n..] == if n <= |a| then a[n..] + b else b[n - |a|..]
  {
  }

  /** `rest` is a well-formed chain that has exactly the bytes of `bios` after the first `n` to complete. */
  ghost predicate Suffix(bios: seq<Bio>, n: nat, rest: seq<Bio>) {
    var m := if n <= Size(bios) then n else Size(bios);
    SoundChain(rest) && |Pending(bios)| == Size(bios) && Pending(rest) == Pending(bios)[m..] &&
      Size(rest) == Size(bios) - m
  }

  lemma SuffixWhole(bios: seq<Bio>, n: nat, rest: seq<Bio>)
    requires SoundChain(bios) && bios != [] && n >= bios[0].size && Suffix(bios[1..], n - bios[0].size, rest)
    ensures Suffix(bios, n, rest)
  {
    var b, tail := bios[0], bios[1..];
    assert Sound(b);
    PendingSize(bios);
    var m := if n <= Size(bios) then n else Size(bios);
    DropCat(Bytes(Left(b)), Pending(tail), m);
  }

  lemma SuffixPart(bios: seq<Bio>, n: nat, error: int)
    requires SoundChain(bios) && bios != [] && n < bios[0].size
    ensures Suffix(bios, n, Finish(bios, n, error).1)
  {
    assert Sound(bios[0]);
    PendingSize(bios);
    PartFirst(bios, n, error);
    DropCat(Bytes(Left(bios[0])), Pending(bios[1..]), n);
  }

  /** The bytes left pending are the unfinished suffix, and the chain stays well-formed. */
  lemma {:induction false} FinishBytes(bios: seq<Bio>, n: nat, error: int)
    requires SoundChain(bios)
    ensures Suffix(bios, n, Finish(bios, n, error).1)
    decreases |bios|
  {
    if bios != [] {
      if n >= bios[0].size {
        var r := Finish(bios[1..], n - bios[0].size, error);
        FinishCons(bios, n, error, r);
        FinishBytes(bios[1..], n - bios[0].size, error);
        SuffixWhole(bios, n, r.1);
      } else {
        SuffixPart(bios, n, error);
      }
    }
  }

  lemma PartFirst(bios: seq<Bio>, n: nat, error: int)
    requires bios != [] && SoundChain(bios) && n < bios[0].size
    ensures var rest := Finish(bios, n, error).1;
            && SoundChain(rest) && Size(rest) == Size(bios) - n
            && Pending(rest) == Bytes(Left(bios[0]))[n..] + Pending(bios[1..])
  {
    var b, rest := bios[0], Finish(bios, n, error).1;
    assert Sound(b);
    PartLeft(b, n, error);
    CutBytes(Left(b), n);
    assert rest[1..] == bios[1..];
  }

  /** Every bio is ended once, in order, or is still in the chain. */
  lemma {:induction false} FinishOnce(bios: seq<Bio>, n: nat, error: int)
    ensures var f := Finish(bios, n, error); EndedIds(f.0) + Ids(f.1) == Ids(bios)
    decreases |bios|
  {
    if bios != [] {
      if n >= bios[0].size {
        var f := Finish(bios, n, error);
        if n > bios[0].size {
          FinishOnce(bios[1..], n - bios[0].size, error);
          assert f.0[1..] == Finish(bios[1..], n - bios[0].size, error).0;
        } else {
          assert f.0[1..] == [];
        }
      } else {
        var rest := Finish(bios, n, error).1;
        assert rest[1..] == bios[1..];
      }
    }
  }

  // ---------------------------------------------------------------- any split of the bytes into calls

  datatype Call = Call(bytes: nat, error: int)

  function Run(bios: seq<Bio>, calls: seq<Call>): (seq<Ended>, seq<Bio>)
    decreases |calls|
  {
    if calls == [] then ([], bios)
    else
      var f := Finish(bios, calls[0].bytes, calls[0].error);
      var r := Run(f.1, calls[1..]);
      (f.0 + r.0, r.1)
  }

  function Total(calls: seq<Call>): nat {
    if calls == [] then 0 else calls[0].bytes + Total(calls[1..])
  }

  /** However the bytes are divided into calls, what is pending is the suffix after their sum. */
  lemma {:induction false} RunBytes(bios: seq<Bio>, calls: seq<Call>)
    requires SoundChain(bios)
    ensures Suffix(bios, Total(calls), Run(bios, calls).1)
    decreases |calls|
  {
    if calls == [] {
      PendingSize(bios);
    } else {
      var f := Finish(bios, calls[0].bytes, calls[0].error);
      FinishBytes(bios, calls[0].bytes, calls[0].error);
      RunBytes(f.1, calls[1..]);
      RunFirst(bios, calls, f.1);
      SuffixTwice(bios, calls[0].bytes, f.1, Total(calls[1..]), Run(f.1, calls[1..]).1);
    }
  }

  lemma RunFirst(bios: seq<Bio>, calls: seq<Call>, mid: seq<Bio>)
    requires calls != [] && mid == Finish(bios, calls[0].bytes, calls[0].error).1
    ensures Run(bios, calls).1 == Run(mid, calls[1..]).1 && Total(calls) == calls[0].bytes + Total(calls[1..])
  {
  }

  lemma SuffixTwice(bios: seq<Bio>, m: nat, mid: seq<Bio>, n: nat, rest: seq<Bio>)
    requires Suffix(bios, m, mid) && Suffix(mid, n, rest)
    ensures Suffix(bios, m + n, rest)
  {
  }

  lemma {:induction false} EndedCat(a: seq<Ended>, b: seq<Ended>)
    ensures EndedIds(a + b) == EndedIds(a) + EndedIds(b)
    decreases |a|
  {
    if a == [] {
      assert a + b == b;
    } else {
      EndedCat(a[1..], b);
      var c := a + b;
      assert c[0] == a[0] && c[1..] == a[1..] + b;
      assert [a[0].id] + (EndedIds(a[1..]) + EndedIds(b)) == ([a[0].id] + EndedIds(a[1..])) + EndedIds(b);
    }
  }

  /** However the bytes are divided into calls, each bio ends at most once, in chain order. */
  lemma {:induction false} RunOnce(bios: seq<Bio>, calls: seq<Call>)
    ensures var r := Run(bios, calls); EndedIds(r.0) + Ids(r.1) == Ids(bios)
    decreases |calls|
  {
    if calls != [] {
      var f := Finish(bios, calls[0].bytes, calls[0].error);
      FinishOnce(bios, calls[0].bytes, calls[0].error);
      RunOnce(f.1, calls[1..]);
      EndedCat(f.0, Run(f.1, calls[1..]).0);
    }
  }

  // ---------------------------------------------------------------- what becomes of one bio

  datatype Fate = Waits | Ends(error: int)

  /**
   * A bio seen by itself, with `skip` bytes before it in the request: it ends in the call that reaches
   * its last byte, with that call's error, or EIO if an earlier call that touched it had failed.
   */
  function FateOf(skip: nat, size: nat, uptodate: bool, calls: seq<Call>): Fate
    decreases |calls|
  {
    if calls == [] then Waits
    else
      var (n, e) := (calls[0].bytes, calls[0].error);
      if n >= skip + size then Ends(if e != 0 then e else if uptodate then 0 else EIO)
      else if n <= skip then FateOf(skip - n, size, uptodate, calls[1..])
      else FateOf(0, size - (n - skip), uptodate && e == 0, calls[1..])
  }

  /**
   * After a call for `n` bytes: what the log and the chain say of bio `b`, which was at position `i` with
   * `s` bytes before it.
   */
  ghost predicate Seen(log: seq<Ended>, rest: seq<Bio>, i: nat, n: nat, s: nat, b: Bio, error: int) {
    if n >= s + b.size then i < |log| && log[i] == Ended(b.id, EndError(b, error))
    else |log| <= i && i - |log| < |rest| && Carried(rest[i - |log|], Size(rest[..i - |log|]), n, s, b, error)
  }

  ghost predicate Carried(c: Bio, before: nat, n: nat, s: nat, b: Bio, error: int) {
    && c.id == b.id && before == (if n <= s then s - n else 0)
    && c.size == (if n <= s then b.size else b.size - (n - s))
    && c.uptodate == (b.uptodate && (n <= s || error == 0))
  }

  lemma SeenCons(log: seq<Ended>, rest: seq<Bio>, e: Ended, i: nat, n: nat, s: nat, b: Bio, size: nat, error: int)
    requires i > 0 && size <= n && size <= s && Seen(log, rest, i - 1, n - size, s - size, b, error)
    ensures Seen([e] + log, rest, i, n, s, b, error)
  {
  }

  /** What one call does to the bio at position `i`. */
  lemma {:induction false} FinishAt(bios: seq<Bio>, n: nat, error: int, i: nat)
    requires SoundChain(bios) && i < |bios|
    ensures var f := Finish(bios, n, error); Seen(f.0, f.1, i, n, Size(bios[..i]), bios[i], error)
    decreases |bios|
  {
    if i == 0 {
      FinishFirst(bios, n, error);
    } else if n < bios[0].size {
      AfterPart(bios, n, error, i);
    } else {
      var b := bios[0];
      var r := Finish(bios[1..], n - b.size, error);
      FinishAt(bios[1..], n - b.size, error, i - 1);
      FinishCons(bios, n, error, r);
      SizeCons(bios, i);
      SeenCons(r.0, r.1, Ended(b.id, EndError(b, error)), i, n, Size(bios[..i]), bios[i], b.size, error);
    }
  }

  lemma FinishFirst(bios: seq<Bio>, n: nat, error: int)
    requires SoundChain(bios) && bios != []
    ensures var f := Finish(bios, n, error); Seen(f.0, f.1, 0, n, Size(bios[..0]), bios[0], error)
  {
    assert bios[..0] == [] && Size(bios[..0]) == 0;
    assert Sound(bios[0]);
    if n < bios[0].size {
      PartLeft(bios[0], n, error);
      assert Finish(bios, n, error).1[..0] == [];
    }
  }

  lemma SizeCons(bios: seq<Bio>, i: nat)
    requires 0 < i <= |bios|
    ensures Size(bios[..i]) == bios[0].size + Size(bios[1..][..i - 1])
  {
    assert bios[..i][1..] == bios[1..][..i - 1];
  }

  lemma AfterPart(bios: seq<Bio>, n: nat, error: int, i: nat)
    requires SoundChain(bios) && 0 < i < |bios| && n < bios[0].size
    ensures var f := Finish(bios, n, error);
            f.0 == [] && |f.1| == |bios| && f.1[i] == bios[i] && n <= Size(bios[..i]) &&
              Size(f.1[..i]) == Size(bios[..i]) - n
  {
    var rest := Finish(bios, n, error).1;
    assert Sound(bios[0]);
    PartLeft(bios[0], n, error);
    SizeCons(bios, i);
    SizeCons(rest, i);
    assert rest[1..] == bios[1..];
  }

  /** The log of any sequence of calls gives each bio its own fate, in order. */
  lemma {:induction false} RunFates(bios: seq<Bio>, calls: seq<Call>, i: nat)
    requires SoundChain(bios) && i < |bios|
    ensures var log, fate := Run(bios, calls).0, FateOf(Size(bios[..i]), bios[i].size, bios[i].uptodate, calls);
            (fate == Waits <==> |log| <= i) && (fate.Ends? ==> i < |log| && log[i] == Ended(bios[i].id, fate.error))
    decreases |calls|
  {
    if calls != [] {
      var n, e, s, b := calls[0].bytes, calls[0].error, Size(bios[..i]), bios[i];
      var f := Finish(bios, n, e);
      FinishBytes(bios, n, e);
      FinishAt(bios, n, e, i);
      if n < s + b.size {
        var j := i - |f.0|;
        RunFates(f.1, calls[1..], j);
        FateNext(f.1[j], Size(f.1[..j]), s, b, calls);
      }
    }
  }

  lemma FateNext(c: Bio, before: nat, s: nat, b: Bio, calls: seq<Call>)
    requires calls != [] && calls[0].bytes < s + b.size && Carried(c, before, calls[0].bytes, s, b, calls[0].error)
    ensures FateOf(s, b.size, b.uptodate, calls) == FateOf(before, c.size, c.uptodate, calls[1..])
  {
  }

  // ---------------------------------------------------------------- sectors, and bios without vectors

  /** The bytes of the calls beyond whole sectors, added up. */
  function OddEnds(calls: seq<Call>): nat {
    if calls == [] then 0 else calls[0].bytes % 512 + OddEnds(calls[1..])
  }

  /** A bio after calls none of which finishes it. */
  lemma {:induction false} RunPart(b: Bio, calls: seq<Call>)
    requires Sound(b) && Total(calls) < b.size
    ensures var r := Run([b], calls);
            && r.0 == [] && |r.1| == 1 && Left(r.1[0]) == Cut(Left(b), Total(calls))
            && 512 * r.1[0].sector + OddEnds(calls) == 512 * b.sector + Total(calls)
    decreases |calls|
  {
    if calls != [] {
      var c, rest := calls[0], calls[1..];
      var p := Part(b, c.bytes, c.error);
      assert Finish([b], c.bytes, c.error) == ([], [p]) by { assert [p] + [b][1..] == [p]; }
      PartLeft(b, c.bytes, c.error);
      PartSector(b, c.bytes, c.error);
      RunPart(p, rest);
      CutCut(Left(b), c.bytes, Total(rest));
    }
  }

  lemma PartSector(b: Bio, n: nat, error: int)
    requires Sound(b) && n < b.size
    ensures 512 * Part(b, n, error).sector + n % 512 == 512 * b.sector + n
  {
    assert n == 512 * (n / 512) + n % 512;
  }

  /**
   * The first sector a bio has left depends on how its bytes were divided into calls, unless the odd
   * ends of the calls stay within a sector; the vectors it has left never do.
   */
  lemma SectorSplit(b: Bio, calls: seq<Call>, error: int)
    requires Sound(b) && Total(calls) < b.size
    ensures var r, one := Run([b], calls).1, Part(b, Total(calls), error);
            |r| == 1 && Left(r[0]) == Left(one) && (r[0].sector == one.sector <==> OddEnds(calls) < 512)
  {
    RunPart(b, calls);
    PartLeft(b, Total(calls), error);
    PartSector(b, Total(calls), error);
  }

  /** Two calls for half a sector each leave the first sector where it was; one call for both moves it on. */
  lemma HalfSectors(id: nat, v: Vec, sector: nat)
    requires v.len == 1024
    ensures var b := Bio(id, [v], 0, 1024, sector, true);
            var r := Run([b], [Call(256, 0), Call(256, 0)]).1;
            |r| == 1 && r[0].sector == sector && Part(b, 512, 0).sector == sector + 1
  {
    var b, two := Bio(id, [v], 0, 1024, sector, true), [Call(256, 0), Call(256, 0)];
    assert Left(b) == [v] && [v][1..] == [];
    assert two[1..] == [Call(256, 0)];
    assert Total(two) == 512 && OddEnds(two) == 512;
    RunPart(b, two);
    PartSector(b, 512, 0);
  }

  /** A call for part of a first bio that has no vectors, such as a discard, changes nothing at all. */
  lemma DatalessStuck(bios: seq<Bio>, n: nat, error: int)
    requires bios != [] && n < bios[0].size && Left(bios[0]) == []
    ensures Finish(bios, n, error) == ([], bios)
  {
    assert [bios[0]] + bios[1..] == bios;
  }

  /** So a partial call takes its bytes off the bio exactly when there are vectors, or nothing to take. */
  lemma PartProgress(b: Bio, n: nat, error: int)
    requires n < b.size && (Sound(b) || Left(b) == [])
    ensures Part(b, n, error).size == b.size - n <==> n == 0 || Left(b) != []
  {
    if Left(b) != [] {
      PartLeft(b, n, error);
    }
  }
}
