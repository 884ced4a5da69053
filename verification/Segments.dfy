/**
 * Segment accounting of block/blk-merge.c on values: how a request's memory vectors fall into
 * segments, the count cached in the request, and what merging does to it.
 */
module Segments {
  import opened Lists

  /** A bio_vec; `high` says that its page lies above the queue's bounce limit. */
  datatype Vec = Vec(page: nat, offset: nat, len: nat, high: bool)

  /** The queue's limits; `adjacent` stands for BIOVEC_PHYS_MERGEABLE together with BIOVEC_SEG_BOUNDARY. */
  datatype Limits = Limits(
    cluster: bool, maxSize: nat, maxPhys: nat, maxHw: nat, maxSectors: nat, adjacent: (Vec, Vec) -> bool)

  /** A bio: its remaining vectors, and the cached segment count and sizes with their validity flag. */
  datatype Bio = Bio(vecs: seq<Vec>, sectors: nat, front: nat, back: nat, phys: nat, valid: bool)

  datatype Rq = Rq(bios: seq<Bio>, nr: nat, sectors: nat, noMerge: bool, special: bool)

  /** nr_phys_segments and bi_vcnt are unsigned shorts. */
  const SHORT: nat := 0x1_0000

  function Short(n: int): (r: nat)
    ensures r < SHORT && (0 <= n < SHORT ==> r == n)
  {
    n % 0x1_0000
  }

  function Last<T>(s: seq<T>): T
    requires s != []
  {
    s[|s| - 1]
  }

  function Total(run: seq<Vec>): nat {
    if run == [] then 0 else Total(run[..|run| - 1]) + Last(run).len
  }

  /** All vectors of a chain of bios, in order. */
  function Vecs(bios: seq<Bio>): seq<Vec> {
    if bios == [] then [] else Vecs(bios[..|bios| - 1]) + Last(bios).vecs
  }

  function Flatten(s: seq<seq<Vec>>): seq<Vec> {
    if s == [] then [] else Flatten(s[..|s| - 1]) + Last(s)
  }

  // ---------------------------------------------------------------- what hardware accepts

  /** A run of vectors that the queue's limits allow to form one segment. */
  predicate Run(q: Limits, r: seq<Vec>) {
    && r != []
    && (|r| > 1 ==> q.cluster && Total(r) <= q.maxSize)
    && forall i {:trigger r[i]} :: 1 <= i < |r| ==> q.adjacent(r[i - 1], r[i])
  }

  /** A way to divide the vectors into segments. */
  predicate Splits(q: Limits, s: seq<seq<Vec>>, vecs: seq<Vec>) {
    Flatten(s) == vecs && forall i :: 0 <= i < |s| ==> Run(q, s[i])
  }

  // ---------------------------------------------------------------- the two loops

  /** Whether a loop adds `v` to the segment of length `size` that ends in `prev`. */
  predicate Joins(q: Limits, bounce: bool, prev: Vec, v: Vec, size: nat) {
    && q.cluster && !(bounce && (prev.high || v.high))
    && size + v.len <= q.maxSize && q.adjacent(prev, v)
  }

  /**
   * The segments the loops form: __blk_recalc_rq_segments keeps high pages apart (`bounce`),
   * blk_rq_map_sg does not.
   */
  function Greedy(q: Limits, bounce: bool, vecs: seq<Vec>): (g: seq<seq<Vec>>)
    ensures g == [] <==> vecs == []
  {
    if vecs == [] then []
    else
      var g := Greedy(q, bounce, vecs[..|vecs| - 1]);
      if g != [] && Joins(q, bounce, vecs[|vecs| - 2], Last(vecs), Total(Last(g)))
      then g[..|g| - 1] + [Last(g) + [Last(vecs)]]
      else g + [[Last(vecs)]]
  }

  lemma TotalSnoc(r: seq<Vec>, v: Vec)
    ensures Total(r + [v]) == Total(r) + v.len
  {
    assert (r + [v])[..|r|] == r;
  }

  lemma FlattenSnoc(s: seq<seq<Vec>>, r: seq<Vec>)
    ensures Flatten(s + [r]) == Flatten(s) + r
  {
    assert (s + [r])[..|s|] == s;
  }

  lemma RunSnoc(q: Limits, r: seq<Vec>, v: Vec)
    requires Run(q, r) && q.cluster && Total(r) + v.len <= q.maxSize && q.adjacent(Last(r), v)
    ensures Run(q, r + [v])
  {
    TotalSnoc(r, v);
  }

  lemma RunPrefix(q: Limits, r: seq<Vec>)
    requires Run(q, r) && |r| > 1
    ensures Run(q, r[..|r| - 1]) && Total(r) == Total(r[..|r| - 1]) + Last(r).len
    ensures q.adjacent(r[|r| - 2], Last(r))
  {
  }

  /** Growing the last segment of a division, and opening a new one. */
  lemma GrowLast(q: Limits, g: seq<seq<Vec>>, vecs: seq<Vec>, v: Vec)
    requires Splits(q, g, vecs) && g != []
    requires q.cluster && Total(Last(g)) + v.len <= q.maxSize && q.adjacent(Last(Last(g)), v)
    ensures Splits(q, g[..|g| - 1] + [Last(g) + [v]], vecs + [v])
  {
    var h := g[..|g| - 1];
    FlattenSnoc(h, Last(g) + [v]);
    RunSnoc(q, Last(g), v);
    assert Flatten(h) + (Last(g) + [v]) == (Flatten(h) + Last(g)) + [v];
  }

  lemma OpenNew(q: Limits, g: seq<seq<Vec>>, vecs: seq<Vec>, v: Vec)
    requires Splits(q, g, vecs)
    ensures Splits(q, g + [[v]], vecs + [v])
  {
    FlattenSnoc(g, [v]);
  }

  /** What either loop forms is a legal division, and its last segment ends in the last vector. */
  lemma {:induction false} GreedySplits(q: Limits, bounce: bool, vecs: seq<Vec>)
    ensures Splits(q, Greedy(q, bounce, vecs), vecs)
    ensures vecs != [] ==> Last(Greedy(q, bounce, vecs)) != [] && Last(Last(Greedy(q, bounce, vecs))) == Last(vecs)
    decreases |vecs|
  {
    if vecs != [] {
      var rest, v := vecs[..|vecs| - 1], Last(vecs);
      var g := Greedy(q, bounce, rest);
      GreedySplits(q, bounce, rest);
      assert vecs == rest + [v];
      if g != [] && Joins(q, bounce, vecs[|vecs| - 2], v, Total(Last(g))) {
        GrowLast(q, g, rest, v);
      } else {
        OpenNew(q, g, rest, v);
      }
    }
  }

  /** Taking the last vector off a division. */
  function Shorter(s: seq<seq<Vec>>): seq<seq<Vec>>
    requires s != [] && Last(s) != []
  {
    var r := Last(s);
    if |r| == 1 then s[..|s| - 1] else s[..|s| - 1] + [r[..|r| - 1]]
  }

  lemma ShorterSplits(q: Limits, s: seq<seq<Vec>>, vecs: seq<Vec>)
    requires Splits(q, s, vecs) && vecs != []
    ensures s != [] && Run(q, Last(s)) && Last(Last(s)) == Last(vecs)
    ensures Splits(q, Shorter(s), vecs[..|vecs| - 1])
  {
    var h, r := s[..|s| - 1], Last(s);
    assert vecs == Flatten(h) + r;
    if |r| > 1 {
      RunPrefix(q, r);
      FlattenSnoc(h, r[..|r| - 1]);
      assert vecs[..|vecs| - 1] == Flatten(h) + r[..|r| - 1];
    } else {
      assert vecs[..|vecs| - 1] == Flatten(h);
    }
  }

  lemma NothingToSplit(q: Limits, s: seq<seq<Vec>>)
    requires Splits(q, s, [])
    ensures s == []
  {
  }

  /**
   * The scatterlist loop is optimal: no legal division has fewer segments, and one with as many
   * has a last segment at least as long.
   */
  lemma {:induction false} FewestSegments(q: Limits, vecs: seq<Vec>, s: seq<seq<Vec>>)
    requires Splits(q, s, vecs)
    ensures var g := Greedy(q, false, vecs);
            |g| < |s| || (|g| == |s| && (g != [] ==> Total(Last(g)) <= Total(Last(s))))
    decreases |vecs|
  {
    if vecs != [] {
      ShorterSplits(q, s, vecs);
      var rest, v, r := vecs[..|vecs| - 1], Last(vecs), Last(s);
      FewestSegments(q, rest, Shorter(s));
      var g := Greedy(q, false, rest);
      assert Total([v]) == v.len by { TotalSnoc([], v); }
      if g != [] {
        TotalSnoc(Last(g), v);
      }
      if |r| > 1 {
        RunPrefix(q, r);
        assert rest != [] by { assert |vecs| >= |r|; }
        assert vecs[|vecs| - 2] == r[|r| - 2];
      }
    } else {
      NothingToSplit(q, s);
    }
  }

  // ---------------------------------------------------------------- counting and merging

  function Max(a: nat, b: nat): nat { if a < b then b else a }

  /** __blk_recalc_rq_segments: the count, and the first and last bio's cached sizes raised to what it found. */
  function Recalc(q: Limits, bios: seq<Bio>): (r: (nat, seq<Bio>))
    ensures |r.1| == |bios|
  {
    if bios == [] then (0, []) else
      var g := Greedy(q, true, Vecs(bios));
      var first := if g == [] then 0 else Total(g[0]);
      var last := if g == [] then 0 else Total(Last(g));
      (|g|, Raised(bios, first, last))
  }

  function Raised(bios: seq<Bio>, first: nat, last: nat): (r: seq<Bio>)
    requires bios != []
    ensures |r| == |bios| && forall i :: 0 <= i < |r| ==> r[i].vecs == bios[i].vecs
    ensures r[0].front == Max(bios[0].front, first) && Last(r).back == Max(Last(bios).back, last)
  {
    var f := bios[0 := bios[0].(front := Max(bios[0].front, first))];
    f[|f| - 1 := Last(f).(back := Max(Last(f).back, last))]
  }

  /** blk_recount_segments. */
  function Counted(q: Limits, bio: Bio): Bio {
    var r := Recalc(q, [bio]);
    r.1[0].(phys := r.0, valid := true)
  }

  function IfStale(q: Limits, bio: Bio): Bio {
    if bio.valid then bio else Counted(q, bio)
  }

  /** blk_rq_bio_prep. */
  function FromBio(q: Limits, bio: Bio): Rq {
    if bio.vecs == [] then Rq([bio], 0, bio.sectors, false, false)
    else var b := IfStale(q, bio); Rq([b], Short(b.phys), b.sectors, false, false)
  }

  /** ll_new_hw_segment. */
  predicate Fits(q: Limits, nr: nat) { nr <= q.maxHw && nr <= q.maxPhys }

  /** Recounting one bio of a request, where its cache is stale. */
  function Refreshed(q: Limits, rq: Rq, i: nat): Rq
    requires i < |rq.bios|
  {
    rq.(bios := rq.bios[i := IfStale(q, rq.bios[i])])
  }

  /** ll_new_hw_segment for a bio with a valid count, and the chaining its caller does when it agrees. */
  function AddBack(q: Limits, rq: Rq, b: Bio): Rq {
    if !Fits(q, rq.nr + b.phys) then rq.(noMerge := true)
    else rq.(bios := rq.bios + [b], nr := rq.nr + b.phys, sectors := rq.sectors + b.sectors)
  }

  function AddFront(q: Limits, rq: Rq, b: Bio): Rq {
    if !Fits(q, rq.nr + b.phys) then rq.(noMerge := true)
    else rq.(bios := [b] + rq.bios, nr := rq.nr + b.phys, sectors := rq.sectors + b.sectors)
  }

  /** ll_back_merge_fn. */
  function BackMerge(q: Limits, rq: Rq, bio: Bio): Rq
    requires rq.bios != []
  {
    if rq.sectors + bio.sectors > q.maxSectors then rq.(noMerge := true)
    else AddBack(q, Refreshed(q, rq, |rq.bios| - 1), IfStale(q, bio))
  }

  /** ll_front_merge_fn. */
  function FrontMerge(q: Limits, rq: Rq, bio: Bio): Rq
    requires rq.bios != []
  {
    if rq.sectors + bio.sectors > q.maxSectors then rq.(noMerge := true)
    else AddFront(q, Refreshed(q, rq, 0), IfStale(q, bio))
  }

  /**
   * blk_phys_contig_segment.  With data in `bio` and none in `nxt` the code reads a vector that is
   * not there; `stray` is what the test then says.
   */
  predicate Contiguous(q: Limits, bio: Bio, nxt: Bio, stray: bool) {
    && q.cluster
    && bio.back + nxt.front <= q.maxSize
    && (bio.vecs == [] || if nxt.vecs == [] then stray else q.adjacent(Last(bio.vecs), nxt.vecs[0]))
  }

  /** What ll_merge_requests_fn may do: refuse, refuse after touching the cached sizes, or agree. */
  datatype Merging = Refused(req: Rq, next: Rq) | Merged(req: Rq)

  /** The cached sizes that a contiguous pair updates, whether or not the merge then goes through. */
  function Fronted(rq: Rq, size: nat): Rq
    requires rq.bios != []
  {
    if rq.nr == 1 then rq.(bios := rq.bios[0 := rq.bios[0].(front := size)]) else rq
  }

  function Backed(rq: Rq, size: nat): Rq
    requires rq.bios != []
  {
    if rq.nr == 1 then rq.(bios := rq.bios[|rq.bios| - 1 := Last(rq.bios).(back := size)]) else rq
  }

  /** ll_merge_requests_fn and, when it agrees, the chaining in attempt_merge. */
  function MergeRequests(q: Limits, req: Rq, next: Rq, stray: bool): Merging
    requires req.bios != [] && next.bios != []
  {
    if req.special || next.special || req.sectors + next.sectors > q.maxSectors then Refused(req, next)
    else if Contiguous(q, Last(req.bios), next.bios[0], stray) then
      var size := Last(req.bios).back + next.bios[0].front;
      Chained(q, Fronted(req, size), Backed(next, size), req.nr + next.nr - 1)
    else Chained(q, req, next, req.nr + next.nr)
  }

  function Chained(q: Limits, req: Rq, next: Rq, total: int): Merging {
    if total > q.maxPhys || total > q.maxHw then Refused(req, next)
    else Merged(req.(bios := req.bios + next.bios, nr := Short(total), sectors := req.sectors + next.sectors))
  }

  // ---------------------------------------------------------------- the invariant

  /** A bound on the size of a segment, if there is one. */
  datatype Cap = Any | Cap(size: nat)

  predicate Under(n: nat, c: Cap) { c.Cap? ==> n <= c.size }

  predicate Looser(c: Cap, d: Cap) { d.Cap? ==> c.Cap? && c.size <= d.size }

  /** A division with at most `nr` segments, the first and last within `front` and `back`. */
  predicate Witness(q: Limits, s: seq<seq<Vec>>, vecs: seq<Vec>, nr: nat, front: Cap, back: Cap) {
    && Splits(q, s, vecs) && |s| <= nr
    && (s != [] ==> Under(Total(s[0]), front) && Under(Total(Last(s)), back))
  }

  ghost predicate Covers(q: Limits, vecs: seq<Vec>, nr: nat, front: Cap, back: Cap) {
    exists s :: Witness(q, s, vecs, nr, front, back)
  }

  /** The sizes cached in the first and the last bio say something only where that bio has data. */
  function FrontCap(bios: seq<Bio>): Cap
    requires bios != []
  {
    if bios[0].vecs == [] then Any else Cap(bios[0].front)
  }

  function BackCap(bios: seq<Bio>): Cap
    requires bios != []
  {
    if Last(bios).vecs == [] then Any else Cap(Last(bios).back)
  }

  /** The cached count and sizes cover all vectors of a chain. */
  ghost predicate CoversBios(q: Limits, bios: seq<Bio>, nr: nat) {
    bios != [] && Covers(q, Vecs(bios), nr, FrontCap(bios), BackCap(bios))
  }

  ghost predicate Sound(q: Limits, rq: Rq) { CoversBios(q, rq.bios, rq.nr) }

  /** A bio a caller may submit: a cache marked valid was counted for this queue. */
  ghost predicate SoundBio(q: Limits, bio: Bio) {
    |bio.vecs| < SHORT && (bio.valid ==> bio.phys < SHORT && CoversBios(q, [bio], bio.phys))
  }

  lemma VecsSnoc(bios: seq<Bio>, b: Bio)
    ensures Vecs(bios + [b]) == Vecs(bios) + b.vecs
  {
    assert (bios + [b])[..|bios|] == bios;
  }

  lemma VecsOne(b: Bio)
    ensures Vecs([b]) == b.vecs
  {
    VecsSnoc([], b);
    assert [] + [b] == [b];
  }

  lemma {:induction false} VecsCat(a: seq<Bio>, b: seq<Bio>)
    ensures Vecs(a + b) == Vecs(a) + Vecs(b)
    decreases |b|
  {
    if b == [] {
      assert a + b == a;
    } else {
      var h := b[..|b| - 1];
      VecsCat(a, h);
      assert a + b == (a + h) + [Last(b)];
      VecsSnoc(a + h, Last(b));
      CatAssoc(Vecs(a), Vecs(h), Last(b).vecs);
    }
  }

  lemma {:induction false} FlattenCat(a: seq<seq<Vec>>, b: seq<seq<Vec>>)
    ensures Flatten(a + b) == Flatten(a) + Flatten(b)
    decreases |b|
  {
    if b == [] {
      assert a + b == a;
    } else {
      var h := b[..|b| - 1];
      FlattenCat(a, h);
      assert a + b == (a + h) + [Last(b)];
      FlattenSnoc(a + h, Last(b));
      CatAssoc(Flatten(a), Flatten(h), Last(b));
    }
  }

  lemma {:induction false} TotalCat(a: seq<Vec>, b: seq<Vec>)
    ensures Total(a + b) == Total(a) + Total(b)
    decreases |b|
  {
    if b == [] {
      assert a + b == a;
    } else {
      TotalCat(a, b[..|b| - 1]);
      assert a + b == (a + b[..|b| - 1]) + [Last(b)];
      TotalSnoc(a + b[..|b| - 1], Last(b));
    }
  }

  /** Changing only cached fields keeps the vectors. */
  lemma {:induction false} SameVecs(a: seq<Bio>, b: seq<Bio>)
    requires |a| == |b| && forall i :: 0 <= i < |a| ==> a[i].vecs == b[i].vecs
    ensures Vecs(a) == Vecs(b)
    decreases |a|
  {
    if a != [] {
      SameVecs(a[..|a| - 1], b[..|b| - 1]);
    }
  }

  lemma {:induction false} GreedyShort(q: Limits, bounce: bool, vecs: seq<Vec>)
    ensures |Greedy(q, bounce, vecs)| <= |vecs|
    decreases |vecs|
  {
    if vecs != [] {
      GreedyShort(q, bounce, vecs[..|vecs| - 1]);
    }
  }

  lemma VecsLast(bios: seq<Bio>)
    requires bios != [] && Last(bios).vecs != []
    ensures Vecs(bios) != [] && Last(Vecs(bios)) == Last(Last(bios).vecs)
  {
    assert Vecs(bios) == Vecs(bios[..|bios| - 1]) + Last(bios).vecs;
  }

  lemma VecsFirst(bios: seq<Bio>)
    requires bios != [] && bios[0].vecs != []
    ensures Vecs(bios) != [] && Vecs(bios)[0] == bios[0].vecs[0]
  {
    assert bios == [bios[0]] + bios[1..];
    VecsCat([bios[0]], bios[1..]);
    VecsOne(bios[0]);
  }

  // ---------------------------------------------------------------- each operation keeps it

  lemma CoversMore(q: Limits, vecs: seq<Vec>, nr: nat, front: Cap, back: Cap, nr': nat, front': Cap, back': Cap)
    requires Covers(q, vecs, nr, front, back) && nr <= nr' && Looser(front, front') && Looser(back, back')
    ensures Covers(q, vecs, nr', front', back')
  {
    var s :| Witness(q, s, vecs, nr, front, back);
    assert Witness(q, s, vecs, nr', front', back');
  }

  /** The bounds the caches of a chain give are met by any that are as tight where there are vectors. */
  lemma CoversAs(q: Limits, bios: seq<Bio>, nr: nat, front: Cap, back: Cap)
    requires bios != [] && Covers(q, Vecs(bios), nr, front, back)
    requires Looser(front, FrontCap(bios)) && Looser(back, BackCap(bios))
    ensures CoversBios(q, bios, nr)
  {
    CoversMore(q, Vecs(bios), nr, front, back, nr, FrontCap(bios), BackCap(bios));
  }

  /** Counting a chain afresh establishes the invariant, whatever was cached before. */
  lemma RecalcSound(q: Limits, bios: seq<Bio>)
    requires bios != []
    ensures var r := Recalc(q, bios); Vecs(r.1) == Vecs(bios) && r.0 <= |Vecs(bios)| && CoversBios(q, r.1, r.0)
  {
    var vecs := Vecs(bios);
    var g := Greedy(q, true, vecs);
    GreedySplits(q, true, vecs);
    GreedyShort(q, true, vecs);
    var first, last := if g == [] then 0 else Total(g[0]), if g == [] then 0 else Total(Last(g));
    var r := Raised(bios, first, last);
    SameVecs(r, bios);
    assert Witness(q, g, vecs, |g|, Cap(first), Cap(last));
    CoversAs(q, r, |g|, Cap(first), Cap(last));
  }

  lemma RecountSound(q: Limits, rq: Rq, bios: seq<Bio>)
    requires bios != [] && |Vecs(bios)| < SHORT
    ensures var r := Recalc(q, bios); Sound(q, rq.(bios := r.1, nr := Short(r.0)))
  {
    RecalcSound(q, bios);
  }

  lemma IfStaleSound(q: Limits, bio: Bio)
    requires SoundBio(q, bio)
    ensures var b := IfStale(q, bio);
            SoundBio(q, b) && b.valid && b.vecs == bio.vecs && b.sectors == bio.sectors
  {
    if !bio.valid {
      VecsOne(bio);
      RecalcSound(q, [bio]);
      CountedCovers(q, bio);
    }
  }

  lemma CountedCovers(q: Limits, bio: Bio)
    requires CoversBios(q, Recalc(q, [bio]).1, Recalc(q, [bio]).0)
    ensures CoversBios(q, [Counted(q, bio)], Counted(q, bio).phys)
  {
    var r := Recalc(q, [bio]);
    var b := Counted(q, bio);
    SameVecs([b], r.1);
    CoversAs(q, [b], r.0, FrontCap(r.1), BackCap(r.1));
  }

  /** A recount of a bio inside a request can only raise its cached sizes. */
  lemma IfStaleGrows(q: Limits, bio: Bio)
    ensures var b := IfStale(q, bio);
            b.vecs == bio.vecs && b.front >= bio.front && b.back >= bio.back
  {
  }

  /** Two divisions side by side. */
  lemma CoversSum(q: Limits, a: seq<Vec>, n: nat, fa: Cap, ba: Cap, b: seq<Vec>, m: nat, fb: Cap, bb: Cap)
    requires Covers(q, a, n, fa, ba) && Covers(q, b, m, fb, bb)
    ensures Covers(q, a + b, n + m, if a == [] then fb else fa, if b == [] then ba else bb)
  {
    var s :| Witness(q, s, a, n, fa, ba);
    var t :| Witness(q, t, b, m, fb, bb);
    SplitsCat(q, s, a, t, b);
    assert Witness(q, s + t, a + b, n + m, if a == [] then fb else fa, if b == [] then ba else bb);
  }

  lemma SplitsCat(q: Limits, s: seq<seq<Vec>>, a: seq<Vec>, t: seq<seq<Vec>>, b: seq<Vec>)
    requires Splits(q, s, a) && Splits(q, t, b)
    ensures Splits(q, s + t, a + b) && (s == [] <==> a == []) && (t == [] <==> b == [])
    ensures s != [] ==> (s + t)[0] == s[0]
    ensures t != [] ==> Last(s + t) == Last(t)
  {
    FlattenCat(s, t);
    if s != [] { SplitEnds(q, s, a); }
    if t != [] { SplitEnds(q, t, b); }
  }

  lemma RunCat(q: Limits, r: seq<Vec>, t: seq<Vec>)
    requires Run(q, r) && Run(q, t) && q.cluster && q.adjacent(Last(r), t[0]) && Total(r) + Total(t) <= q.maxSize
    ensures Run(q, r + t) && Total(r + t) == Total(r) + Total(t)
  {
    TotalCat(r, t);
  }

  lemma FlattenCons(r: seq<Vec>, s: seq<seq<Vec>>)
    ensures Flatten([r] + s) == r + Flatten(s)
  {
    FlattenCat([r], s);
    FlattenSnoc([], r);
    assert [] + [r] == [r];
  }

  lemma CatJoined(s: seq<seq<Vec>>, t: seq<seq<Vec>>)
    requires s != [] && t != []
    ensures Flatten(s[..|s| - 1] + [Last(s) + t[0]] + t[1..]) == Flatten(s) + Flatten(t)
  {
    var h, r, u := s[..|s| - 1], Last(s), t[1..];
    var fh, fu := Flatten(h), Flatten(u);
    assert Flatten(t) == t[0] + fu by {
      assert t == [t[0]] + u;
      FlattenCons(t[0], u);
    }
    FlattenCat(h + [r + t[0]], u);
    FlattenSnoc(h, r + t[0]);
    CatAssoc(fh + r, t[0], fu);
    CatAssoc(fh, r, t[0]);
  }

  /** The two middle segments made one. */
  lemma Joined(q: Limits, a: seq<Vec>, b: seq<Vec>, s: seq<seq<Vec>>, t: seq<seq<Vec>>) returns (u: seq<seq<Vec>>)
    requires Splits(q, s, a) && Splits(q, t, b) && s != [] && t != []
    requires q.cluster && Total(Last(s)) + Total(t[0]) <= q.maxSize
    requires a != [] && b != [] && Last(a) == Last(Last(s)) && b[0] == t[0][0] && q.adjacent(Last(a), b[0])
    ensures Splits(q, u, a + b) && |u| == |s| + |t| - 1
    ensures Total(u[0]) == if |s| == 1 then Total(s[0]) + Total(t[0]) else Total(s[0])
    ensures Total(Last(u)) == if |t| == 1 then Total(Last(s)) + Total(t[0]) else Total(Last(t))
  {
    var m := Last(s) + t[0];
    RunCat(q, Last(s), t[0]);
    u := s[..|s| - 1] + [m] + t[1..];
    CatJoined(s, t);
  }

  lemma SplitEnds(q: Limits, s: seq<seq<Vec>>, vecs: seq<Vec>)
    requires Splits(q, s, vecs) && s != []
    ensures vecs != [] && Last(s) != [] && Last(vecs) == Last(Last(s))
    ensures s[0] != [] && vecs[0] == s[0][0]
  {
    assert Run(q, Last(s)) && Run(q, s[0]);
    assert s == [s[0]] + s[1..];
    FlattenCons(s[0], s[1..]);
  }

  /** Counting one segment less for two contiguous requests is justified. */
  lemma CoversJoin(q: Limits, a: seq<Vec>, n: nat, fa: Cap, ba: nat, b: seq<Vec>, m: nat, fb: nat, bb: Cap)
    requires Covers(q, a, n, fa, Cap(ba)) && Covers(q, b, m, Cap(fb), bb)
    requires a != [] && b != [] && q.cluster && ba + fb <= q.maxSize && q.adjacent(Last(a), b[0])
    ensures n > 0 && m > 0
    ensures Covers(q, a + b, n + m - 1, if n == 1 then Cap(ba + fb) else fa, if m == 1 then Cap(ba + fb) else bb)
  {
    var s :| Witness(q, s, a, n, fa, Cap(ba));
    var t :| Witness(q, t, b, m, Cap(fb), bb);
    SplitsCat(q, s, a, t, b);
    SplitEnds(q, s, a);
    SplitEnds(q, t, b);
    var front, back := if n == 1 then Cap(ba + fb) else fa, if m == 1 then Cap(ba + fb) else bb;
    if |s| == n && |t| == m {
      var u := Joined(q, a, b, s, t);
      assert Witness(q, u, a + b, n + m - 1, front, back);
    } else {
      assert Witness(q, s + t, a + b, n + m - 1, front, back);
    }
  }

  /** blk_rq_bio_prep starts from a covering count. */
  lemma FromBioSound(q: Limits, bio: Bio)
    requires SoundBio(q, bio)
    ensures Sound(q, FromBio(q, bio))
  {
    if bio.vecs == [] {
      VecsOne(bio);
      assert Witness(q, [], Vecs([bio]), 0, Any, Any);
    } else {
      IfStaleSound(q, bio);
    }
  }

  /** Refreshing one bio of a request keeps its count covering. */
  lemma RefreshSound(q: Limits, rq: Rq, i: nat)
    requires Sound(q, rq) && i < |rq.bios|
    ensures Sound(q, Refreshed(q, rq, i))
  {
    IfStaleGrows(q, rq.bios[i]);
    RaisedSound(q, rq.bios, rq.nr, i, IfStale(q, rq.bios[i]));
  }

  lemma RaisedSound(q: Limits, bios: seq<Bio>, nr: nat, i: nat, b: Bio)
    requires CoversBios(q, bios, nr) && i < |bios|
    requires b.vecs == bios[i].vecs && b.front >= bios[i].front && b.back >= bios[i].back
    ensures CoversBios(q, bios[i := b], nr)
  {
    SameVecs(bios[i := b], bios);
    CoversAs(q, bios[i := b], nr, FrontCap(bios), BackCap(bios));
  }

  /** Two chains, counted together. */
  lemma ChainsSum(q: Limits, a: seq<Bio>, n: nat, b: seq<Bio>, m: nat)
    requires CoversBios(q, a, n) && CoversBios(q, b, m)
    ensures CoversBios(q, a + b, n + m)
  {
    var u, v := Vecs(a), Vecs(b);
    VecsCat(a, b);
    CoversSum(q, u, n, FrontCap(a), BackCap(a), v, m, FrontCap(b), BackCap(b));
    ChainEnds(a, b);
    CoversAs(q, a + b, n + m, if u == [] then FrontCap(b) else FrontCap(a), if v == [] then BackCap(a) else BackCap(b));
  }

  lemma ChainEnds(a: seq<Bio>, b: seq<Bio>)
    requires a != [] && b != []
    ensures FrontCap(a + b) == FrontCap(a) && BackCap(a + b) == BackCap(b)
    ensures Vecs(a) == [] ==> FrontCap(a).Any?
    ensures Vecs(b) == [] ==> BackCap(b).Any?
  {
    assert Last(a + b) == Last(b);
    if a[0].vecs != [] { VecsFirst(a); }
    if Last(b).vecs != [] { VecsLast(b); }
  }

  lemma AddBackSound(q: Limits, rq: Rq, b: Bio)
    requires Sound(q, rq) && CoversBios(q, [b], b.phys)
    ensures Sound(q, AddBack(q, rq, b))
  {
    ChainsSum(q, rq.bios, rq.nr, [b], b.phys);
  }

  lemma AddFrontSound(q: Limits, rq: Rq, b: Bio)
    requires Sound(q, rq) && CoversBios(q, [b], b.phys)
    ensures Sound(q, AddFront(q, rq, b))
  {
    ChainsSum(q, [b], b.phys, rq.bios, rq.nr);
  }

  lemma BackMergeSound(q: Limits, rq: Rq, bio: Bio)
    requires Sound(q, rq) && SoundBio(q, bio)
    ensures Sound(q, BackMerge(q, rq, bio))
  {
    IfStaleSound(q, bio);
    RefreshSound(q, rq, |rq.bios| - 1);
    AddBackSound(q, Refreshed(q, rq, |rq.bios| - 1), IfStale(q, bio));
  }

  lemma FrontMergeSound(q: Limits, rq: Rq, bio: Bio)
    requires Sound(q, rq) && SoundBio(q, bio)
    ensures Sound(q, FrontMerge(q, rq, bio))
  {
    IfStaleSound(q, bio);
    RefreshSound(q, rq, 0);
    AddFrontSound(q, Refreshed(q, rq, 0), IfStale(q, bio));
  }

  /** The limits are unsigned shorts as well. */
  predicate Widths(q: Limits) { q.maxPhys < SHORT && q.maxHw < SHORT }

  /** A request counted as one segment: that segment is bounded by both cached sizes. */
  lemma OneSegment(q: Limits, vecs: seq<Vec>, front: Cap, back: Cap, size: nat)
    requires Covers(q, vecs, 1, front, back) && (Looser(front, Cap(size)) || Looser(back, Cap(size)))
    ensures Covers(q, vecs, 1, Cap(size), back) && Covers(q, vecs, 1, front, Cap(size))
  {
    var s :| Witness(q, s, vecs, 1, front, back);
    assert Witness(q, s, vecs, 1, Cap(size), back) && Witness(q, s, vecs, 1, front, Cap(size));
  }

  lemma FrontedSound(q: Limits, rq: Rq, size: nat)
    requires Sound(q, rq) && Last(rq.bios).vecs != [] && Last(rq.bios).back <= size
    ensures Sound(q, Fronted(rq, size)) && Vecs(Fronted(rq, size).bios) == Vecs(rq.bios)
  {
    var bios := Fronted(rq, size).bios;
    SameVecs(bios, rq.bios);
    if rq.nr == 1 {
      OneSegment(q, Vecs(rq.bios), FrontCap(rq.bios), BackCap(rq.bios), size);
      CoversAs(q, bios, 1, Cap(size), BackCap(rq.bios));
    }
  }

  lemma BackedSound(q: Limits, rq: Rq, size: nat)
    requires Sound(q, rq) && rq.bios[0].vecs != [] && rq.bios[0].front <= size
    ensures Sound(q, Backed(rq, size)) && Vecs(Backed(rq, size).bios) == Vecs(rq.bios)
  {
    var bios := Backed(rq, size).bios;
    SameVecs(bios, rq.bios);
    if rq.nr == 1 {
      OneSegment(q, Vecs(rq.bios), FrontCap(rq.bios), BackCap(rq.bios), size);
      CoversAs(q, bios, 1, FrontCap(rq.bios), Cap(size));
    }
  }

  ghost predicate SoundMerging(q: Limits, m: Merging) {
    match m
    case Refused(req, next) => Sound(q, req) && Sound(q, next)
    case Merged(req) => Sound(q, req)
  }

  /**
   * The branch that goes wrong: the sizes fit, and blk_phys_contig_segment takes two bios for contiguous
   * although one of them has no data, so that there is no segment to save.
   */
  predicate Phantom(q: Limits, req: Rq, next: Rq, stray: bool)
    requires req.bios != [] && next.bios != []
  {
    && !req.special && !next.special && req.sectors + next.sectors <= q.maxSectors
    && Contiguous(q, Last(req.bios), next.bios[0], stray)
    && (Last(req.bios).vecs == [] || next.bios[0].vecs == [])
  }

  lemma ContiguousCovers(q: Limits, req: Rq, next: Rq)
    requires Sound(q, req) && Sound(q, next) && Contiguous(q, Last(req.bios), next.bios[0], false)
    requires Last(req.bios).vecs != [] && next.bios[0].vecs != []
    ensures var size := Last(req.bios).back + next.bios[0].front;
            && req.nr > 0 && next.nr > 0
            && Covers(q, Vecs(req.bios) + Vecs(next.bios), req.nr + next.nr - 1,
                      if req.nr == 1 then Cap(size) else FrontCap(req.bios),
                      if next.nr == 1 then Cap(size) else BackCap(next.bios))
  {
    VecsLast(req.bios);
    VecsFirst(next.bios);
    CoversJoin(q, Vecs(req.bios), req.nr, FrontCap(req.bios), Last(req.bios).back,
               Vecs(next.bios), next.nr, next.bios[0].front, BackCap(next.bios));
  }

  lemma ContiguousSound(q: Limits, req: Rq, next: Rq)
    requires Widths(q) && Sound(q, req) && Sound(q, next) && Contiguous(q, Last(req.bios), next.bios[0], false)
    requires Last(req.bios).vecs != [] && next.bios[0].vecs != []
    ensures var size := Last(req.bios).back + next.bios[0].front;
            SoundMerging(q, Chained(q, Fronted(req, size), Backed(next, size), req.nr + next.nr - 1))
  {
    var size := Last(req.bios).back + next.bios[0].front;
    ContiguousCovers(q, req, next);
    FrontedSound(q, req, size);
    BackedSound(q, next, size);
    JoinedChains(q, req, next, size, Fronted(req, size).bios, Backed(next, size).bios);
  }

  lemma JoinedChains(q: Limits, req: Rq, next: Rq, size: nat, a: seq<Bio>, b: seq<Bio>)
    requires req.bios != [] && next.bios != [] && req.nr + next.nr > 0
    requires a == Fronted(req, size).bios && b == Backed(next, size).bios
    requires Covers(q, Vecs(req.bios) + Vecs(next.bios), req.nr + next.nr - 1,
                    if req.nr == 1 then Cap(size) else FrontCap(req.bios),
                    if next.nr == 1 then Cap(size) else BackCap(next.bios))
    ensures CoversBios(q, a + b, req.nr + next.nr - 1)
  {
    SameVecs(a, req.bios);
    SameVecs(b, next.bios);
    VecsCat(a, b);
    ChainEnds(a, b);
    CoversAs(q, a + b, req.nr + next.nr - 1, if req.nr == 1 then Cap(size) else FrontCap(req.bios),
             if next.nr == 1 then Cap(size) else BackCap(next.bios));
  }

  /** Merging two requests, or failing to, keeps every count covering but for that branch. */
  lemma MergeRequestsSound(q: Limits, req: Rq, next: Rq, stray: bool)
    requires Widths(q) && Sound(q, req) && Sound(q, next) && !Phantom(q, req, next, stray)
    ensures SoundMerging(q, MergeRequests(q, req, next, stray))
  {
    if req.special || next.special || req.sectors + next.sectors > q.maxSectors {
    } else if Contiguous(q, Last(req.bios), next.bios[0], stray) {
      ContiguousSound(q, req, next);
    } else {
      ChainsSum(q, req.bios, req.nr, next.bios, next.nr);
    }
  }

  // ---------------------------------------------------------------- every history

  datatype Op =
    | Make(id: nat, bio: Bio)
    | Back(id: nat, bio: Bio)
    | Front(id: nat, bio: Bio)
    | Merge(id: nat, next: nat, stray: bool)
    | Recount(id: nat, bios: seq<Bio>)  // blk_recalc_rq_segments, the chain having changed in any way

  /** `lax` admits merges that take the branch above. */
  ghost predicate Enabled(q: Limits, rqs: map<nat, Rq>, op: Op, lax: bool) {
    match op
    case Make(id, bio) => id !in rqs && SoundBio(q, bio)
    case Back(id, bio) => id in rqs && SoundBio(q, bio)
    case Front(id, bio) => id in rqs && SoundBio(q, bio)
    case Merge(id, next, stray) =>
      && id in rqs && next in rqs && id != next && rqs[id].bios != [] && rqs[next].bios != []
      && (lax || !Phantom(q, rqs[id], rqs[next], stray))
    case Recount(id, bios) => id in rqs && bios != [] && |Vecs(bios)| < SHORT
  }

  function Apply(q: Limits, rqs: map<nat, Rq>, op: Op): map<nat, Rq> {
    match op
    case Make(id, bio) => rqs[id := FromBio(q, bio)]
    case Back(id, bio) => if id in rqs && rqs[id].bios != [] then rqs[id := BackMerge(q, rqs[id], bio)] else rqs
    case Front(id, bio) => if id in rqs && rqs[id].bios != [] then rqs[id := FrontMerge(q, rqs[id], bio)] else rqs
    case Merge(id, next, stray) =>
      if id in rqs && next in rqs && rqs[id].bios != [] && rqs[next].bios != [] then
        match MergeRequests(q, rqs[id], rqs[next], stray) {
          case Refused(r, n) => rqs[id := r][next := n]
          case Merged(r) => (rqs - {next})[id := r]
        }
      else rqs
    case Recount(id, bios) =>
      if id !in rqs then rqs else var r := Recalc(q, bios); rqs[id := rqs[id].(bios := r.1, nr := Short(r.0))]
  }

  ghost predicate IsRun(q: Limits, rqs: map<nat, Rq>, ops: seq<Op>, end: map<nat, Rq>, lax: bool)
    decreases |ops|
  {
    if ops == [] then end == rqs
    else Enabled(q, rqs, ops[0], lax) && IsRun(q, Apply(q, rqs, ops[0]), ops[1..], end, lax)
  }

  ghost predicate AllSound(q: Limits, rqs: map<nat, Rq>) {
    forall id :: id in rqs ==> Sound(q, rqs[id])
  }

  lemma PutSound(q: Limits, rqs: map<nat, Rq>, id: nat, rq: Rq)
    requires AllSound(q, rqs) && Sound(q, rq)
    ensures AllSound(q, rqs[id := rq])
  {
  }

  lemma RecountStep(q: Limits, rqs: map<nat, Rq>, id: nat, bios: seq<Bio>)
    requires AllSound(q, rqs) && Enabled(q, rqs, Recount(id, bios), false)
    ensures AllSound(q, Apply(q, rqs, Recount(id, bios)))
  {
    RecountSound(q, rqs[id], bios);
    var r := Recalc(q, bios);
    PutSound(q, rqs, id, rqs[id].(bios := r.1, nr := Short(r.0)));
  }

  lemma MergeStep(q: Limits, rqs: map<nat, Rq>, id: nat, next: nat, stray: bool)
    requires Widths(q) && AllSound(q, rqs) && Enabled(q, rqs, Merge(id, next, stray), false)
    ensures AllSound(q, Apply(q, rqs, Merge(id, next, stray)))
  {
    var req, after := rqs[id], rqs[next];
    MergeRequestsSound(q, req, after, stray);
    match MergeRequests(q, req, after, stray)
    case Refused(r, n) =>
      PutSound(q, rqs, id, r);
      PutSound(q, rqs[id := r], next, n);
    case Merged(r) =>
      PutSound(q, rqs - {next}, id, r);
  }

  lemma StepSound(q: Limits, rqs: map<nat, Rq>, op: Op)
    requires Widths(q) && AllSound(q, rqs) && Enabled(q, rqs, op, false)
    ensures AllSound(q, Apply(q, rqs, op))
  {
    match op
    case Make(id, bio) =>
      FromBioSound(q, bio);
      PutSound(q, rqs, id, FromBio(q, bio));
    case Back(id, bio) =>
      BackMergeSound(q, rqs[id], bio);
      PutSound(q, rqs, id, BackMerge(q, rqs[id], bio));
    case Front(id, bio) =>
      FrontMergeSound(q, rqs[id], bio);
      PutSound(q, rqs, id, FrontMerge(q, rqs[id], bio));
    case Merge(id, next, stray) => MergeStep(q, rqs, id, next, stray);
    case Recount(id, bios) => RecountStep(q, rqs, id, bios);
  }

  lemma {:induction false} RunSound(q: Limits, rqs: map<nat, Rq>, ops: seq<Op>, end: map<nat, Rq>)
    requires Widths(q) && AllSound(q, rqs) && IsRun(q, rqs, ops, end, false)
    ensures AllSound(q, end)
    decreases |ops|
  {
    if ops != [] {
      StepSound(q, rqs, ops[0]);
      RunSound(q, Apply(q, rqs, ops[0]), ops[1..], end);
    }
  }

  /** The entries blk_rq_map_sg makes of some vectors. */
  function Entries(q: Limits, vecs: seq<Vec>): nat { |Greedy(q, false, vecs)| }

  /** The scatterlist of a sound request is no longer than its count. */
  lemma SoundEntries(q: Limits, rq: Rq)
    requires Sound(q, rq)
    ensures Entries(q, Vecs(rq.bios)) <= rq.nr
  {
    var s :| Witness(q, s, Vecs(rq.bios), rq.nr, FrontCap(rq.bios), BackCap(rq.bios));
    FewestSegments(q, Vecs(rq.bios), s);
  }

  /**
   * After any history of new requests, back, front and request merges (done or refused) and recounts,
   * with or without data in the bios, blk_rq_map_sg forms no more segments than the request's cached
   * count, as long as no merge takes the branch that saves a segment next to a bio without data.
   */
  lemma EntriesWithinCount(q: Limits, ops: seq<Op>, end: map<nat, Rq>, id: nat)
    requires Widths(q) && IsRun(q, map[], ops, end, false) && id in end
    ensures Entries(q, Vecs(end[id].bios)) <= end[id].nr
  {
    RunSound(q, map[], ops, end);
    SoundEntries(q, end[id]);
  }

  // ---------------------------------------------------------------- the entries of two requests together

  /** blk_rq_map_sg needs an entry less for both together than for each by itself. */
  predicate Saves(q: Limits, a: seq<Vec>, b: seq<Vec>) { Entries(q, a + b) < Entries(q, a) + Entries(q, b) }

  /** The loop over both against the one over the second alone: one entry less and a longer last one, or level. */
  predicate InStep(q: Limits, a: seq<Vec>, b: seq<Vec>) {
    var g, h := Greedy(q, false, a + b), Greedy(q, false, b);
    b != [] && g != [] && h != [] &&
    if |g| == |Greedy(q, false, a)| + |h| then Total(Last(g)) <= Total(Last(h))
    else |g| == |Greedy(q, false, a)| + |h| - 1 && Total(Last(g)) >= Total(Last(h))
  }

  /** One more vector in the loop. */
  lemma GreedyNext(q: Limits, vecs: seq<Vec>, v: Vec)
    ensures var g, w := Greedy(q, false, vecs), Greedy(q, false, vecs + [v]);
            var joins := vecs != [] && Joins(q, false, Last(vecs), v, Total(Last(g)));
            && w != [] && |w| == |g| + (if joins then 0 else 1)
            && Total(Last(w)) == (if joins then Total(Last(g)) else 0) + v.len
  {
    assert (vecs + [v])[..|vecs|] == vecs;
    var g := Greedy(q, false, vecs);
    if g != [] { TotalSnoc(Last(g), v); }
    TotalSnoc([], v);
    assert [] + [v] == [v];
  }

  lemma {:induction false} Together(q: Limits, a: seq<Vec>, b: seq<Vec>)
    requires b != []
    ensures InStep(q, a, b)
    decreases |b|
  {
    var h, v := b[..|b| - 1], Last(b);
    assert b == h + [v] && a + b == (a + h) + [v];
    GreedyNext(q, a + h, v);
    GreedyNext(q, h, v);
    if h == [] {
      assert a + h == a;
    } else {
      Together(q, a, h);
      assert Last(a + h) == Last(h);
    }
  }

  /** The first vector of the second joins the last segment of the first. */
  predicate Touching(q: Limits, a: seq<Vec>, b: seq<Vec>) {
    a != [] && b != [] && Joins(q, false, Last(a), b[0], Total(Last(Greedy(q, false, a))))
  }

  /** Both loops have the same last segment, and as many entries. */
  predicate Level(q: Limits, a: seq<Vec>, b: seq<Vec>) {
    && b != [] && Entries(q, a + b) == Entries(q, a) + Entries(q, b)
    && Total(Last(Greedy(q, false, a + b))) == Total(Last(Greedy(q, false, b)))
  }

  /** Where the first vector of the second does not join, the two loops go on in the same way. */
  lemma {:induction false} Separate(q: Limits, a: seq<Vec>, b: seq<Vec>)
    requires !Touching(q, a, b)
    ensures if b == [] then a + b == a else Level(q, a, b)
    decreases |b|
  {
    if b == [] {
      assert a + b == a;
    } else {
      var h, v := b[..|b| - 1], Last(b);
      assert b == h + [v] && a + b == (a + h) + [v];
      if h == [] {
        SeparateOne(q, a, v);
      } else {
        Separate(q, a, h);
        SeparateNext(q, a, h, v);
      }
    }
  }

  lemma SeparateOne(q: Limits, a: seq<Vec>, v: Vec)
    requires a == [] || !Joins(q, false, Last(a), v, Total(Last(Greedy(q, false, a))))
    ensures Level(q, a, [v])
  {
    GreedyNext(q, a, v);
    GreedyNext(q, [], v);
    assert [] + [v] == [v];
  }

  lemma SeparateNext(q: Limits, a: seq<Vec>, h: seq<Vec>, v: Vec)
    requires h != [] && Level(q, a, h)
    ensures Level(q, a, h + [v])
  {
    GreedyNext(q, a + h, v);
    GreedyNext(q, h, v);
    assert a + (h + [v]) == (a + h) + [v] && Last(a + h) == Last(h);
  }

  /** The last segment of the first and the first of the second fit in one. */
  predicate Bridged(q: Limits, a: seq<Vec>, b: seq<Vec>) {
    && a != [] && b != [] && q.cluster && q.adjacent(Last(a), b[0])
    && Total(Last(Greedy(q, false, a))) + Total(Greedy(q, false, b)[0]) <= q.maxSize
  }

  /**
   * What two requests need together: as many entries as by themselves, or one less.  An entry can be
   * saved only if the first vector of the second joins the last segment of the first, and is saved if
   * its whole first segment does.
   */
  lemma SavesAtMostOne(q: Limits, a: seq<Vec>, b: seq<Vec>)
    ensures Entries(q, a + b) == Entries(q, a) + Entries(q, b) - (if Saves(q, a, b) then 1 else 0)
    ensures Saves(q, a, b) ==> Touching(q, a, b)
    ensures Bridged(q, a, b) ==> Saves(q, a, b)
  {
    var g, h := Greedy(q, false, a), Greedy(q, false, b);
    if b == [] {
      assert a + b == a;
    } else {
      Together(q, a, b);
      if !Touching(q, a, b) {
        Separate(q, a, b);
      }
      if Bridged(q, a, b) {
        WholeSaves(q, a, b);
      }
    }
  }

  lemma WholeSaves(q: Limits, a: seq<Vec>, b: seq<Vec>)
    requires Bridged(q, a, b)
    ensures Saves(q, a, b)
  {
    var g, h := Greedy(q, false, a), Greedy(q, false, b);
    GreedySplits(q, false, a);
    GreedySplits(q, false, b);
    SplitEnds(q, g, a);
    SplitEnds(q, h, b);
    var u := Joined(q, a, b, g, h);
    FewestSegments(q, a + b, u);
  }

  // ---------------------------------------------------------------- bios without data

  lemma MergedAs(q: Limits, req: Rq, next: Rq, stray: bool)
    requires req.bios != [] && next.bios != [] && MergeRequests(q, req, next, stray).Merged?
    ensures var m := MergeRequests(q, req, next, stray).req;
            && Vecs(m.bios) == Vecs(req.bios) + Vecs(next.bios)
            && m.nr == Short(req.nr + next.nr - if Contiguous(q, Last(req.bios), next.bios[0], stray) then 1 else 0)
  {
    if Contiguous(q, Last(req.bios), next.bios[0], stray) {
      var size := Last(req.bios).back + next.bios[0].front;
      ResizedVecs(req, next, size);
      ChainedAs(q, Fronted(req, size), Backed(next, size), req.nr + next.nr - 1);
    } else {
      ChainedAs(q, req, next, req.nr + next.nr);
    }
  }

  lemma ChainedAs(q: Limits, req: Rq, next: Rq, total: int)
    requires Chained(q, req, next, total).Merged?
    ensures var m := Chained(q, req, next, total).req;
            Vecs(m.bios) == Vecs(req.bios) + Vecs(next.bios) && m.nr == Short(total)
  {
    VecsCat(req.bios, next.bios);
  }

  lemma ResizedVecs(req: Rq, next: Rq, size: nat)
    requires req.bios != [] && next.bios != []
    ensures Vecs(Fronted(req, size).bios) == Vecs(req.bios) && Vecs(Backed(next, size).bios) == Vecs(next.bios)
  {
    SameVecs(Fronted(req, size).bios, req.bios);
    SameVecs(Backed(next, size).bios, next.bios);
  }

  /**
   * Exactly when the count of a merged request is too small, for any two requests whose counts and sizes
   * covered them, with or without data in their bios: a segment was saved next to a bio without data,
   * neither count had a segment to spare, and the scatterlist does not happen to save one.
   */
  lemma MergeExact(q: Limits, req: Rq, next: Rq, stray: bool)
    requires Widths(q) && Sound(q, req) && Sound(q, next) && MergeRequests(q, req, next, stray).Merged?
    ensures var m, a, b := MergeRequests(q, req, next, stray).req, Vecs(req.bios), Vecs(next.bios);
            Entries(q, Vecs(m.bios)) > m.nr <==>
            && Phantom(q, req, next, stray) && (a != [] || b != [])
            && req.nr == Entries(q, a) && next.nr == Entries(q, b) && !Saves(q, a, b)
  {
    var a, b := Vecs(req.bios), Vecs(next.bios);
    var m := MergeRequests(q, req, next, stray).req;
    MergedAs(q, req, next, stray);
    SoundEntries(q, req);
    SoundEntries(q, next);
    if Phantom(q, req, next, stray) {
      SavesAtMostOne(q, a, b);
      PhantomCount(q, req, next, stray);
    } else {
      MergeRequestsSound(q, req, next, stray);
      SoundEntries(q, m);
    }
  }

  /**
   * Where the vectors on both sides of the joint are not adjacent, or do not fit, or are missing, the last
   * part of the condition goes without saying; where the two segments at the joint fit in one, the count
   * is right after all.
   */
  lemma MergeExactAt(q: Limits, req: Rq, next: Rq, stray: bool)
    requires Widths(q) && Sound(q, req) && Sound(q, next) && MergeRequests(q, req, next, stray).Merged?
    ensures var m, a, b := MergeRequests(q, req, next, stray).req, Vecs(req.bios), Vecs(next.bios);
            && (Bridged(q, a, b) ==> Entries(q, Vecs(m.bios)) <= m.nr)
            && (!Touching(q, a, b) ==>
                  (Entries(q, Vecs(m.bios)) > m.nr <==>
                   && Phantom(q, req, next, stray) && (a != [] || b != [])
                   && req.nr == Entries(q, a) && next.nr == Entries(q, b)))
  {
    MergeExact(q, req, next, stray);
    SavesAtMostOne(q, Vecs(req.bios), Vecs(next.bios));
  }

  lemma PhantomCount(q: Limits, req: Rq, next: Rq, stray: bool)
    requires Widths(q) && req.bios != [] && next.bios != [] && Phantom(q, req, next, stray)
    requires MergeRequests(q, req, next, stray).Merged?
    ensures MergeRequests(q, req, next, stray).req.nr ==
            if req.nr + next.nr == 0 then SHORT - 1 else req.nr + next.nr - 1
  {
    assert Short(-1) == SHORT - 1;
  }

  /** The first request ends in a bio without data. */
  lemma DatalessFirst(q: Limits, req: Rq, next: Rq, stray: bool)
    requires Widths(q) && Sound(q, req) && Sound(q, next) && MergeRequests(q, req, next, stray).Merged?
    requires Last(req.bios).vecs == []
    ensures var m, a, b := MergeRequests(q, req, next, stray).req, Vecs(req.bios), Vecs(next.bios);
            Entries(q, Vecs(m.bios)) > m.nr <==>
            && q.cluster && Last(req.bios).back + next.bios[0].front <= q.maxSize && (a != [] || b != [])
            && req.nr == Entries(q, a) && next.nr == Entries(q, b) && !Saves(q, a, b)
  {
    MergeExact(q, req, next, stray);
  }

  /** The second starts with one, and the first does not end in one: the code looks at a vector that is not there. */
  lemma DatalessSecond(q: Limits, req: Rq, next: Rq, stray: bool)
    requires Widths(q) && Sound(q, req) && Sound(q, next) && MergeRequests(q, req, next, stray).Merged?
    requires Last(req.bios).vecs != [] && next.bios[0].vecs == []
    ensures var m, a, b := MergeRequests(q, req, next, stray).req, Vecs(req.bios), Vecs(next.bios);
            Entries(q, Vecs(m.bios)) > m.nr <==>
            && q.cluster && Last(req.bios).back + next.bios[0].front <= q.maxSize && stray
            && req.nr == Entries(q, a) && next.nr == Entries(q, b) && !Saves(q, a, b)
  {
    VecsLast(req.bios);
    MergeExact(q, req, next, stray);
  }

  predicate NoData(bios: seq<Bio>) {
    bios != [] && forall i :: 0 <= i < |bios| ==> bios[i].vecs == []
  }

  /** Two dataless requests: under the same test the count wraps to the largest unsigned short. */
  lemma DatalessPair(q: Limits, req: Rq, next: Rq, stray: bool)
    requires NoData(req.bios) && NoData(next.bios) && req.nr == 0 && next.nr == 0
    requires MergeRequests(q, req, next, stray).Merged?
    ensures MergeRequests(q, req, next, stray).req.nr ==
            if q.cluster && Last(req.bios).back + next.bios[0].front <= q.maxSize then SHORT - 1 else 0
  {
    assert Short(-1) == SHORT - 1;
  }

  // ---------------------------------------------------------------- runs that go wrong

  /** A discard of one sector. */
  const DISCARD := Bio([], 1, 0, 0, 0, false)

  /** A sector of data, not counted yet. */
  function Sector(v: Vec): Bio { Bio([v], 1, 0, 0, 0, false) }

  lemma OneGreedy(q: Limits, bounce: bool, v: Vec)
    ensures Greedy(q, bounce, [v]) == [[v]] && Total([v]) == v.len
  {
    assert [v][..0] == [];
  }

  lemma OneCounted(q: Limits, v: Vec)
    ensures FromBio(q, Sector(v)) == Rq([Bio([v], 1, v.len, v.len, 1, true)], 1, 1, false, false)
  {
    VecsOne(Sector(v));
    OneGreedy(q, true, v);
  }

  /** A discard merged with a write behind it: one vector, counted as none. */
  lemma DiscardThenWrite(q: Limits, v: Vec)
    requires q.cluster && v.len <= q.maxSize && q.maxSectors >= 2
    ensures var m := MergeRequests(q, FromBio(q, DISCARD), FromBio(q, Sector(v)), false);
            m.Merged? && m.req.nr == 0 && Entries(q, Vecs(m.req.bios)) == 1
  {
    var d, w := FromBio(q, DISCARD), FromBio(q, Sector(v));
    OneCounted(q, v);
    OneGreedy(q, false, v);
    MergedAs(q, d, w, false);
    VecsOne(DISCARD);
    VecsOne(w.bios[0]);
    assert [] + [v] == [v];
  }

  /** A write with a discard behind it is counted rightly; merged with another write, the two are counted as one. */
  lemma WriteDiscardWrite(q: Limits, u: Vec, v: Vec)
    requires Widths(q) && q.cluster && v.len <= q.maxSize && q.maxSectors >= 3 && q.maxPhys >= 1 && q.maxHw >= 1
    requires !q.adjacent(u, v)
    ensures var m := MergeRequests(q, FromBio(q, Sector(u)), FromBio(q, DISCARD), false);
            && m.Merged? && m.req.nr == 1 && Entries(q, Vecs(m.req.bios)) == 1
            && var n := MergeRequests(q, m.req, FromBio(q, Sector(v)), false);
               n.Merged? && n.req.nr == 1 && Entries(q, Vecs(n.req.bios)) == 2
  {
    var w, d, x := FromBio(q, Sector(u)), FromBio(q, DISCARD), FromBio(q, Sector(v));
    OneCounted(q, u);
    OneCounted(q, v);
    VecsOne(w.bios[0]);
    VecsOne(x.bios[0]);
    VecsOne(DISCARD);
    MergedAs(q, w, d, false);
    assert [u] + [] == [u];
    var m := MergeRequests(q, w, d, false).req;
    assert m.bios == w.bios + d.bios && Last(m.bios) == DISCARD;
    MergedAs(q, m, x, false);
    OneGreedy(q, false, u);
    OneGreedy(q, false, v);
    Separate(q, [u], [v]);
  }

  /** All histories under a queue's limits keep the scatterlists within the counts. */
  ghost predicate AlwaysWithin(q: Limits, lax: bool) {
    forall ops: seq<Op>, end: map<nat, Rq>, id: nat :: IsRun(q, map[], ops, end, lax) && id in end ==>
      Entries(q, Vecs(end[id].bios)) <= end[id].nr
  }

  /** The discard and the write as a history. */
  lemma DiscardRun(q: Limits) returns (ops: seq<Op>, end: map<nat, Rq>)
    requires q.cluster && q.maxSize >= 512 && q.maxSectors >= 2
    ensures IsRun(q, map[], ops, end, true) && 0 in end && Entries(q, Vecs(end[0].bios)) > end[0].nr
  {
    var v := Vec(7, 0, 512, false);
    var d, w := FromBio(q, DISCARD), FromBio(q, Sector(v));
    var a, b := map[0 := d], map[0 := d, 1 := w];
    DiscardThenWrite(q, v);
    OneCounted(q, v);
    end := map[0 := MergeRequests(q, d, w, false).req];
    MergeLast(q, d, w, end);
    assert Apply(q, map[], Make(0, DISCARD)) == a && Apply(q, a, Make(1, Sector(v))) == b;
    ops := [Make(0, DISCARD)] + ([Make(1, Sector(v))] + [Merge(0, 1, false)]);
    RunCons(q, a, Make(1, Sector(v)), [Merge(0, 1, false)], end, true);
    RunCons(q, map[], Make(0, DISCARD), [Make(1, Sector(v))] + [Merge(0, 1, false)], end, true);
  }

  lemma RunCons(q: Limits, rqs: map<nat, Rq>, op: Op, ops: seq<Op>, end: map<nat, Rq>, lax: bool)
    requires Enabled(q, rqs, op, lax) && IsRun(q, Apply(q, rqs, op), ops, end, lax)
    ensures IsRun(q, rqs, [op] + ops, end, lax)
  {
    assert ([op] + ops)[1..] == ops;
  }

  lemma MergeLast(q: Limits, d: Rq, w: Rq, end: map<nat, Rq>)
    requires d.bios != [] && w.bios != [] && MergeRequests(q, d, w, false).Merged?
    requires end == map[0 := MergeRequests(q, d, w, false).req]
    ensures IsRun(q, map[0 := d, 1 := w], [Merge(0, 1, false)], end, true)
  {
    var b := map[0 := d, 1 := w];
    var z := Apply(q, b, Merge(0, 1, false));
    assert z == (b - {1})[0 := MergeRequests(q, d, w, false).req];
    assert z == end;
    assert [Merge(0, 1, false)][1..] == [];
  }

  /** Without clustering no segment is ever saved. */
  lemma {:induction false} Unclustered(q: Limits, rqs: map<nat, Rq>, ops: seq<Op>, end: map<nat, Rq>)
    requires !q.cluster && IsRun(q, rqs, ops, end, true)
    ensures IsRun(q, rqs, ops, end, false)
    decreases |ops|
  {
    if ops != [] {
      Unclustered(q, Apply(q, rqs, ops[0]), ops[1..], end);
    }
  }

  /**
   * All histories keep the scatterlists within the counts if and only if the branch is not taken, or the
   * queue does not cluster, in which case there is none.  The limits are at least a page, as
   * blk_queue_max_segment_size and blk_queue_max_sectors see to; two sectors are enough here.
   */
  lemma WithinExactly(q: Limits, lax: bool)
    requires Widths(q) && q.maxSize >= 512 && q.maxSectors >= 2
    ensures AlwaysWithin(q, lax) <==> !lax || !q.cluster
  {
    if lax && q.cluster {
      var ops, end := DiscardRun(q);
    } else {
      forall ops: seq<Op>, end: map<nat, Rq>, id: nat | IsRun(q, map[], ops, end, lax) && id in end
        ensures Entries(q, Vecs(end[id].bios)) <= end[id].nr
      {
        if lax { Unclustered(q, map[], ops, end); }
        EntriesWithinCount(q, ops, end, id);
      }
    }
  }
}
