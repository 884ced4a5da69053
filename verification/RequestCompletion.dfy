/**
 * The completion loop of block/blk-core.c as it runs, proved against Completion.Finish.
 */
module RequestCompletion {
  import opened Completion

  /** A bio the loop can meet: with data, or with no vectors left at all. */
  predicate Regular(b: Bio) { Sound(b) || (b.idx == |b.vecs| && Left(b) == []) }

  predicate RegularChain(bios: seq<Bio>) { forall i :: 0 <= i < |bios| ==> Regular(bios[i]) }

  /** The loop stands `k` vectors into a bio, having taken `taken` bytes of it, with `nr` to go. */
  ghost predicate Inside(b: Bio, k: nat, taken: nat, nr: nat) {
    && Sound(b) && taken + nr < b.size && nr > 0 && k <= |Left(b)|
    && taken == Sum(Left(b)[..k])
    && var w := Whole(Left(b)[k..], nr);
    Whole(Left(b), taken + nr) == (k + w.0, w.1)
  }

  /** What is done so far and what is to come make up the whole call. */
  ghost predicate Going(all: (seq<Ended>, seq<Bio>), done: seq<Ended>, bios: seq<Bio>, n: nat, error: int) {
    var f := Finish(bios, n, error);
    all == (done + f.0, f.1)
  }

  lemma {:induction false} SumSplit(vecs: seq<Vec>, k: nat)
    requires k <= |vecs|
    ensures Sum(vecs) == Sum(vecs[..k]) + Sum(vecs[k..])
    decreases k
  {
    if k > 0 {
      SumSplit(vecs[1..], k - 1);
      assert vecs[..k][1..] == vecs[1..][..k - 1] && vecs[1..][k - 1..] == vecs[k..];
    }
  }

  lemma {:induction false} SumNext(vecs: seq<Vec>, k: nat)
    requires k < |vecs|
    ensures Sum(vecs[..k + 1]) == Sum(vecs[..k]) + vecs[k].len
    decreases k
  {
    if k > 0 {
      SumNext(vecs[1..], k - 1);
      assert vecs[..k + 1][1..] == vecs[1..][..k] && vecs[..k][1..] == vecs[1..][..k - 1];
    }
  }

  /** There is a current vector while bytes of the bio are left over. */
  lemma CurrentVec(b: Bio, k: nat, taken: nat, nr: nat)
    requires Sound(b) && k <= |Left(b)| && taken == Sum(Left(b)[..k]) && taken + nr < b.size
    ensures k < |Left(b)| && b.vecs[b.idx + k] == Left(b)[k]
  {
    SumSplit(Left(b), k);
  }

  /** A whole vector is taken. */
  lemma TakeVec(b: Bio, k: nat, taken: nat, nr: nat, len: nat)
    requires Sound(b) && taken + nr < b.size && nr > 0 && k < |Left(b)| && taken == Sum(Left(b)[..k])
    requires len == Left(b)[k].len <= nr
    requires var w := Whole(Left(b)[k..], nr); Whole(Left(b), taken + nr) == (k + w.0, w.1)
    ensures nr > len ==> Inside(b, k + 1, taken + len, nr - len)
    ensures nr == len ==> Whole(Left(b), taken + len) == (k + 1, 0)
  {
    var l := Left(b);
    SumNext(l, k);
    assert l[k..][1..] == l[k + 1..];
    var w := Whole(l[k + 1..], nr - len);
    assert Whole(l[k..], nr) == (w.0 + 1, w.1);
  }

  /** The first bio is ended. */
  lemma GoingOn(all: (seq<Ended>, seq<Bio>), done: seq<Ended>, bios: seq<Bio>, n: nat, error: int)
    requires Going(all, done, bios, n, error) && bios != [] && n >= bios[0].size
    ensures var b := bios[0];
            var done' := done + [Ended(b.id, EndError(b, error))];
            && (n == b.size ==> all == (done', bios[1..]))
            && (n > b.size || bios[1..] == [] ==> Going(all, done', bios[1..], n - b.size, error))
  {
    var b := bios[0];
    var e := Ended(b.id, EndError(b, error));
    var r := if n == b.size then ([], bios[1..]) else Finish(bios[1..], n - b.size, error);
    assert done + ([e] + r.0) == (done + [e]) + r.0;
    assert done + [e] + [] == done + [e];
  }

  /** The first bio is not ended. */
  lemma GoingStop(all: (seq<Ended>, seq<Bio>), done: seq<Ended>, bios: seq<Bio>, n: nat, error: int)
    requires Going(all, done, bios, n, error) && bios != [] && n < bios[0].size
    ensures all == (done, [Part(bios[0], n, error)] + bios[1..])
    ensures n == 0 || Left(bios[0]) == [] ==> all == (done, bios)
  {
    assert done + [] == done && [bios[0]] + bios[1..] == bios;
  }

  /** Where the loop stops inside a bio: `r` bytes into vector `k`, after taking `n` bytes. */
  lemma StopInside(b: Bio, k: nat, r: nat, n: nat, error: int)
    requires Sound(b) && 0 < n < b.size && Whole(Left(b), n) == (k, r)
    ensures b.idx + k < |b.vecs|
    ensures Part(b, n, error) ==
            Advance(b, n, error).(idx := b.idx + k, vecs := b.vecs[b.idx + k := Trimmed(b.vecs[b.idx + k], r)])
  {
    WholeCut(Left(b), n);
  }

  /** The loop's invariant. */
  ghost predicate At(all: (seq<Ended>, seq<Bio>), done: seq<Ended>, bios: seq<Bio>, nr: nat, taken: nat, k: nat,
                     error: int) {
    && RegularChain(bios) && Going(all, done, bios, taken + nr, error)
    && (if k == 0 then taken == 0 else bios != [] && Inside(bios[0], k, taken, nr))
  }

  lemma AtStart(all: (seq<Ended>, seq<Bio>), bios: seq<Bio>, n: nat, error: int)
    requires RegularChain(bios) && all == Finish(bios, n, error)
    ensures At(all, [], bios, n, 0, 0, error)
  {
    assert [] + all.0 == all.0;
  }

  lemma AtFinish(all: (seq<Ended>, seq<Bio>), done: seq<Ended>, nr: nat, taken: nat, k: nat, error: int)
    requires At(all, done, [], nr, taken, k, error)
    ensures all == (done, []) && taken == 0
  {
    assert done + [] == done;
  }

  lemma AtEnd(all: (seq<Ended>, seq<Bio>), done: seq<Ended>, bios: seq<Bio>, nr: nat, taken: nat, k: nat, error: int)
    requires At(all, done, bios, nr, taken, k, error) && bios != [] && nr >= bios[0].size
    ensures var done' := done + [Ended(bios[0].id, EndError(bios[0], error))];
            if nr == bios[0].size && bios[1..] != [] then all == (done', bios[1..])
            else At(all, done', bios[1..], nr - bios[0].size, 0, 0, error)
  {
    GoingOn(all, done, bios, nr, error);
  }

  lemma AtPart(all: (seq<Ended>, seq<Bio>), done: seq<Ended>, bios: seq<Bio>, nr: nat, taken: nat, k: nat, error: int)
    requires At(all, done, bios, nr, taken, k, error) && bios != [] && nr < bios[0].size
    ensures Regular(bios[0]) && (if k == 0 then taken == 0 else Inside(bios[0], k, taken, nr))
    ensures bios[0].idx >= |bios[0].vecs| ==> taken == 0 && all == (done, bios)
  {
    GoingStop(all, done, bios, taken + nr, error);
  }

  lemma AtStop(all: (seq<Ended>, seq<Bio>), done: seq<Ended>, bios: seq<Bio>, nr: nat, taken: nat, k: nat, error: int,
               n: nat, k': nat, nr': nat)
    requires At(all, done, bios, nr, taken, k, error) && n == taken + nr && bios != [] && Sound(bios[0]) &&
             n < bios[0].size
    requires n > 0 ==> Whole(Left(bios[0]), n) == (k', nr')
    ensures all.0 == done && Stopped(all.1, bios, n, k', nr', error)
  {
    GoingStop(all, done, bios, n, error);
  }

  lemma AtNext(all: (seq<Ended>, seq<Bio>), done: seq<Ended>, bios: seq<Bio>, nr: nat, taken: nat, k: nat, error: int,
               nr': nat, taken': nat, k': nat)
    requires At(all, done, bios, nr, taken, k, error) && taken' + nr' == taken + nr
    requires bios != [] && k' > 0 && Inside(bios[0], k', taken', nr')
    ensures At(all, done, bios, nr', taken', k', error)
  {
  }

  lemma LogMore(log: seq<Ended>, done: seq<Ended>, e: Ended)
    ensures (log + done) + [e] == log + (done + [e])
  {
  }

  class Request {
    var bios: seq<Bio>
    var log: seq<Ended>

    /** req_bio_endio on a bio of this request that is not the barrier proxy. */
    method BioEndio(b: Bio, nbytes: nat, error: int) returns (b': Bio)
      modifies this`log
      ensures b' == Advance(b, nbytes, error)
      ensures log == if b'.size == 0 then old(log) + [Ended(b.id, EndError(b, error))] else old(log)
    {
      var e := if error != 0 then error else if !b.uptodate then EIO else 0;
      var n := if nbytes > b.size then b.size else nbytes;
      b' := b.(size := b.size - n, sector := b.sector + n / 512, uptodate := b.uptodate && error == 0);
      if b'.size == 0 {
        log := log + [Ended(b.id, e)];
      }
    }

    /** The state update after the loop, when it stopped inside the first bio. */
    method StoreFirst(nbytes: nat, nextIdx: nat, nr: nat, error: int)
      requires bios != [] && Sound(bios[0]) && 0 < nbytes < bios[0].size &&
               Whole(Left(bios[0]), nbytes) == (nextIdx, nr)
      modifies this`bios, this`log
      ensures bios == [Part(old(bios)[0], nbytes, error)] + old(bios)[1..] && log == old(log)
    {
      var b := bios[0];
      StopInside(b, nextIdx, nr, nbytes, error);
      var b' := BioEndio(b, nbytes, error);
      var idx := b.idx + nextIdx;
      b' := b'.(idx := idx, vecs := b.vecs[idx := Trimmed(b.vecs[idx], nr)]);
      bios := bios[0 := b'];
    }

    /** The first bio has all its bytes: it leaves the chain and ends. */
    method EndBio(error: int)
      requires bios != []
      modifies this`bios, this`log
      ensures bios == old(bios)[1..] && log == old(log) + [Ended(old(bios)[0].id, EndError(old(bios)[0], error))]
    {
      var b := bios[0];
      bios := bios[1..];
      b := BioEndio(b, b.size, error);
    }

    /** The loop of __end_that_request_first. */
    method Walk(error: int, nrBytes: nat) returns (nr: nat, taken: nat, nextIdx: nat)
      requires RegularChain(bios)
      modifies this`bios, this`log
      ensures log == old(log) + Finish(old(bios), nrBytes, error).0
      ensures Stopped(Finish(old(bios), nrBytes, error).1, bios, taken, nextIdx, nr, error)
    {
      ghost var all := Finish(bios, nrBytes, error);
      ghost var done: seq<Ended> := [];
      nr, taken, nextIdx := nrBytes, 0, 0;
      AtStart(all, bios, nrBytes, error);
      while bios != []
        invariant At(all, done, bios, nr, taken, nextIdx, error) && log == old(log) + done
        decreases |bios|, if bios == [] then 0 else |Left(bios[0])| - nextIdx
      {
        var b := bios[0];
        if nr >= b.size {
          AtEnd(all, done, bios, nr, taken, nextIdx, error);
          LogMore(old(log), done, Ended(b.id, EndError(b, error)));
          done := done + [Ended(b.id, EndError(b, error))];
          EndBio(error);
          nr, taken, nextIdx := nr - b.size, 0, 0;
          if bios != [] && nr == 0 { return; }
        } else {
          AtPart(all, done, bios, nr, taken, nextIdx, error);
          if b.idx >= |b.vecs| { return; }
          var n, m, k, stop := Scan(b, nr, taken, nextIdx);
          if stop {
            AtStop(all, done, bios, nr, taken, nextIdx, error, m, k, n);
            return n, m, k;
          }
          AtNext(all, done, bios, nr, taken, nextIdx, error, n, m, k);
          nr, taken, nextIdx := n, m, k;
        }
      }
      AtFinish(all, done, nr, taken, nextIdx, error);
    }

    /** __end_that_request_first: what is left of the request, and whether anything is. */
    method EndFirst(error: int, nrBytes: nat) returns (pending: bool)
      requires RegularChain(bios)
      modifies this
      ensures (log, bios) == (old(log) + Finish(old(bios), nrBytes, error).0, Finish(old(bios), nrBytes, error).1)
      ensures pending == (bios != [])
    {
      var nr, taken, nextIdx := Walk(error, nrBytes);
      if bios == [] { return false; }
      if taken != 0 {
        StoreFirst(taken, nextIdx, nr, error);
      }
      return true;
    }
  }

  /** The chain a call leaves is what the loop left, with the bytes taken from its first bio still to be stored. */
  ghost predicate Stopped(rest: seq<Bio>, bios: seq<Bio>, taken: nat, nextIdx: nat, nr: nat, error: int) {
    if taken == 0 then bios == rest
    else
      && bios != [] && Sound(bios[0]) && taken < bios[0].size && Whole(Left(bios[0]), taken) == (nextIdx, nr)
      && rest == [Part(bios[0], taken, error)] + bios[1..]
  }

  /** One turn of the loop inside a bio: its current vector is taken whole, or the bytes end in it. */
  method Scan(b: Bio, nr0: nat, taken0: nat, k: nat) returns (nr: nat, taken: nat, nextIdx: nat, stop: bool)
    requires Regular(b) && b.idx < |b.vecs| && nr0 < b.size
    requires if k == 0 then taken0 == 0 else Inside(b, k, taken0, nr0)
    ensures Sound(b) && taken0 + nr0 < b.size
    ensures stop ==> taken == taken0 + nr0 && (taken > 0 ==> Whole(Left(b), taken) == (nextIdx, nr))
    ensures !stop ==> nextIdx == k + 1 && taken + nr == taken0 + nr0 && Inside(b, nextIdx, taken, nr)
  {
    Current(b, k, taken0, nr0);
    nr, taken, nextIdx := nr0, taken0, k;
    var nbytes := b.vecs[b.idx + nextIdx].len;
    if nbytes > nr {
      taken := taken + nr;
      return nr, taken, nextIdx, true;
    }
    if nr > 0 {
      TakeVec(b, k, taken0, nr0, nbytes);
    }
    nextIdx := nextIdx + 1;
    taken := taken + nbytes;
    nr := nr - nbytes;
    stop := nr == 0;
  }

  /** Reading the current vector of a bio that is not ended. */
  lemma Current(b: Bio, k: nat, taken: nat, nr: nat)
    requires Regular(b) && b.idx < |b.vecs| && nr < b.size
    requires if k == 0 then taken == 0 else Inside(b, k, taken, nr)
    ensures Sound(b) && taken + nr < b.size && taken == Sum(Left(b)[..k])
    ensures k < |Left(b)| && b.vecs[b.idx + k] == Left(b)[k]
    ensures var w := Whole(Left(b)[k..], nr); Whole(Left(b), taken + nr) == (k + w.0, w.1)
    ensures Left(b)[k].len > nr ==> Whole(Left(b), taken + nr) == (k, nr)
  {
    if k == 0 {
      assert Left(b)[..0] == [] && Left(b)[0..] == Left(b);
    }
    CurrentVec(b, k, taken, nr);
  }
}
