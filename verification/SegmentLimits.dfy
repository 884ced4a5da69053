/** Which merges block/blk-merge.c takes, and that no request outgrows the queue's limits by them. */
module SegmentLimits {
  import opened Segments

  // ---------------------------------------------------------------- counting

  /** A vector above the bounce limit is a segment of its own. */
  predicate HighAlone(g: seq<seq<Vec>>) {
    forall i, j :: 0 <= i < |g| && 0 <= j < |g[i]| && |g[i]| > 1 ==> !g[i][j].high
  }

  lemma GrowAlone(g: seq<seq<Vec>>, v: Vec)
    requires HighAlone(g) && g != [] && Last(g) != [] && !Last(Last(g)).high && !v.high
    ensures HighAlone(g[..|g| - 1] + [Last(g) + [v]])
  {
    var r: seq<Vec>, z: seq<seq<Vec>> := Last(g), g[..|g| - 1] + [Last(g) + [v]];
    forall i, j | 0 <= i < |z| && 0 <= j < |z[i]| && |z[i]| > 1 ensures !z[i][j].high {
      if i < |g| - 1 {
        assert z[i] == g[i];
      } else {
        assert z[i] == r + [v] && (j < |r| ==> z[i][j] == r[j]);
        assert |r| == 1 ==> r[0] == Last(r);
        assert |r| > 1 && j < |r| ==> !g[|g| - 1][j].high;
      }
    }
  }

  lemma OpenAlone(g: seq<seq<Vec>>, v: Vec)
    requires HighAlone(g)
    ensures HighAlone(g + [[v]])
  {
  }

  /** In the count of __blk_recalc_rq_segments, which is what the bounce code will make of the request. */
  lemma {:induction false} CountHighAlone(q: Limits, vecs: seq<Vec>)
    ensures HighAlone(Greedy(q, true, vecs))
    decreases |vecs|
  {
    if vecs != [] {
      var rest, v := vecs[..|vecs| - 1], Last(vecs);
      var g := Greedy(q, true, rest);
      CountHighAlone(q, rest);
      GreedySplits(q, true, rest);
      if g != [] && Joins(q, true, vecs[|vecs| - 2], v, Total(Last(g))) {
        GrowAlone(g, v);
      } else {
        OpenAlone(g, v);
      }
    }
  }

  lemma StaleCount(q: Limits, bio: Bio)
    ensures IfStale(q, bio).phys == if bio.valid then bio.phys else |Greedy(q, true, bio.vecs)|
    ensures IfStale(q, bio).vecs == bio.vecs && IfStale(q, bio).sectors == bio.sectors
  {
    VecsOne(bio);
  }

  // ---------------------------------------------------------------- one merge

  /** Neither the sectors nor the segments of a request and a bio together exceed the limits. */
  predicate Room(q: Limits, rq: Rq, bio: Bio) {
    var n := rq.nr + if bio.valid then bio.phys else |Greedy(q, true, bio.vecs)|;
    rq.sectors + bio.sectors <= q.maxSectors && n <= q.maxPhys && n <= q.maxHw
  }

  /** The bio is part of the request, with its sectors and segments; or the request is marked and keeps its data. */
  predicate TakenOr(rq: Rq, z: Rq, bio: Bio, n: nat, taken: bool, vecs: seq<Vec>) {
    if taken then z.sectors == rq.sectors + bio.sectors && z.nr == rq.nr + n && Vecs(z.bios) == vecs
    else z.sectors == rq.sectors && z.nr == rq.nr && Vecs(z.bios) == Vecs(rq.bios) && z.noMerge
  }

  /** ll_back_merge_fn agrees exactly if there is room, and the bio's data then comes after the request's. */
  lemma BackTaken(q: Limits, rq: Rq, bio: Bio)
    requires rq.bios != []
    ensures TakenOr(rq, BackMerge(q, rq, bio), bio, IfStale(q, bio).phys, Room(q, rq, bio), Vecs(rq.bios) + bio.vecs)
  {
    StaleCount(q, bio);
    RefreshedVecs(q, rq, |rq.bios| - 1);
    VecsSnoc(Refreshed(q, rq, |rq.bios| - 1).bios, IfStale(q, bio));
  }

  /** And ll_front_merge_fn, and it then comes before. */
  lemma FrontTaken(q: Limits, rq: Rq, bio: Bio)
    requires rq.bios != []
    ensures TakenOr(rq, FrontMerge(q, rq, bio), bio, IfStale(q, bio).phys, Room(q, rq, bio), bio.vecs + Vecs(rq.bios))
  {
    StaleCount(q, bio);
    RefreshedVecs(q, rq, 0);
    VecsCat([IfStale(q, bio)], Refreshed(q, rq, 0).bios);
    VecsOne(IfStale(q, bio));
  }

  lemma RefreshedVecs(q: Limits, rq: Rq, i: nat)
    requires i < |rq.bios|
    ensures Vecs(Refreshed(q, rq, i).bios) == Vecs(rq.bios)
  {
    StaleCount(q, rq.bios[i]);
    SameVecs(Refreshed(q, rq, i).bios, rq.bios);
  }

  // ---------------------------------------------------------------- every run

  function Sectors(bios: seq<Bio>): nat { if bios == [] then 0 else Sectors(bios[..|bios| - 1]) + Last(bios).sectors }

  /** The sectors are those of the bios, and within the limit; so are the segments of what has been merged. */
  ghost predicate Within(q: Limits, rq: Rq) {
    && rq.bios != [] && rq.sectors == Sectors(rq.bios) && rq.sectors <= q.maxSectors
    && (|rq.bios| > 1 ==> rq.nr <= q.maxPhys && rq.nr <= q.maxHw)
  }

  ghost predicate AllWithin(q: Limits, rqs: map<nat, Rq>) { forall id :: id in rqs ==> Within(q, rqs[id]) }

  lemma {:induction false} SectorsCat(a: seq<Bio>, b: seq<Bio>)
    ensures Sectors(a + b) == Sectors(a) + Sectors(b)
    decreases |b|
  {
    if b == [] {
      assert a + b == a;
    } else {
      var h := b[..|b| - 1];
      assert (a + b)[..|a + b| - 1] == a + h;
      SectorsCat(a, h);
    }
  }

  lemma {:induction false} SameSectors(a: seq<Bio>, b: seq<Bio>)
    requires |a| == |b| && forall i :: 0 <= i < |a| ==> a[i].sectors == b[i].sectors
    ensures Sectors(a) == Sectors(b)
    decreases |a|
  {
    if a != [] { SameSectors(a[..|a| - 1], b[..|b| - 1]); }
  }

  lemma SectorsOne(b: Bio)
    ensures Sectors([b]) == b.sectors
  {
    assert [b][..0] == [];
  }

  lemma RefreshedWithin(q: Limits, rq: Rq, i: nat)
    requires Within(q, rq) && i < |rq.bios|
    ensures Within(q, Refreshed(q, rq, i))
  {
    StaleCount(q, rq.bios[i]);
    SameSectors(Refreshed(q, rq, i).bios, rq.bios);
  }

  lemma BackWithin(q: Limits, rq: Rq, bio: Bio)
    requires Within(q, rq)
    ensures Within(q, BackMerge(q, rq, bio))
  {
    var r, b := Refreshed(q, rq, |rq.bios| - 1), IfStale(q, bio);
    RefreshedWithin(q, rq, |rq.bios| - 1);
    StaleCount(q, bio);
    SectorsCat(r.bios, [b]);
    SectorsOne(b);
  }

  lemma FrontWithin(q: Limits, rq: Rq, bio: Bio)
    requires Within(q, rq)
    ensures Within(q, FrontMerge(q, rq, bio))
  {
    var r, b := Refreshed(q, rq, 0), IfStale(q, bio);
    RefreshedWithin(q, rq, 0);
    StaleCount(q, bio);
    SectorsCat([b], r.bios);
    SectorsOne(b);
  }

  /** The sizes cached for contiguous requests do not count. */
  lemma ResizedWithin(q: Limits, req: Rq, next: Rq, size: nat)
    requires Within(q, req) && Within(q, next)
    ensures Within(q, Fronted(req, size)) && Within(q, Backed(next, size))
  {
    SameSectors(Fronted(req, size).bios, req.bios);
    SameSectors(Backed(next, size).bios, next.bios);
  }

  ghost predicate MergingWithin(q: Limits, m: Merging) {
    match m
    case Refused(req, next) => Within(q, req) && Within(q, next)
    case Merged(req) => Within(q, req)
  }

  lemma ChainedWithin(q: Limits, req: Rq, next: Rq, total: int, m: Merging)
    requires Within(q, req) && Within(q, next) && req.sectors + next.sectors <= q.maxSectors && total >= 0
    requires m == Chained(q, req, next, total)
    ensures MergingWithin(q, m)
  {
    SectorsCat(req.bios, next.bios);
  }

  lemma ContiguousWithin(q: Limits, req: Rq, next: Rq, size: nat, m: Merging)
    requires Within(q, req) && Within(q, next) && req.sectors + next.sectors <= q.maxSectors && req.nr > 0
    requires m == Chained(q, Fronted(req, size), Backed(next, size), req.nr + next.nr - 1)
    ensures MergingWithin(q, m)
  {
    ResizedWithin(q, req, next, size);
    ChainedWithin(q, Fronted(req, size), Backed(next, size), req.nr + next.nr - 1, m);
  }

  /** What is contiguous has segments, but for the branch that goes wrong. */
  lemma SomeSegments(q: Limits, req: Rq, next: Rq, stray: bool)
    requires Sound(q, req) && Sound(q, next) && !Phantom(q, req, next, stray)
    requires !req.special && !next.special && req.sectors + next.sectors <= q.maxSectors
    ensures Contiguous(q, Last(req.bios), next.bios[0], stray) ==> req.nr > 0
  {
    if Contiguous(q, Last(req.bios), next.bios[0], stray) {
      ContiguousCovers(q, req, next);
    }
  }

  lemma RequestsWithin(q: Limits, req: Rq, next: Rq, stray: bool, m: Merging)
    requires Within(q, req) && Within(q, next)
    requires !req.special && !next.special && req.sectors + next.sectors <= q.maxSectors
    requires Contiguous(q, Last(req.bios), next.bios[0], stray) ==> req.nr > 0
    requires m == MergeRequests(q, req, next, stray)
    ensures MergingWithin(q, m)
  {
    if Contiguous(q, Last(req.bios), next.bios[0], stray) {
      ContiguousWithin(q, req, next, Last(req.bios).back + next.bios[0].front, m);
    } else {
      ChainedWithin(q, req, next, req.nr + next.nr, m);
    }
  }

  /** The operation does not replace a chain, and what it makes a request of is not too large by itself. */
  predicate Plain(q: Limits, op: Op) { !op.Recount? && (op.Make? ==> op.bio.sectors <= q.maxSectors) }

  lemma MakeWithin(q: Limits, bio: Bio)
    requires bio.sectors <= q.maxSectors
    ensures Within(q, FromBio(q, bio))
  {
    StaleCount(q, bio);
    SectorsOne(bio);
    SectorsOne(IfStale(q, bio));
  }

  lemma PutWithin(q: Limits, rqs: map<nat, Rq>, id: nat, rq: Rq)
    requires AllWithin(q, rqs) && Within(q, rq)
    ensures AllWithin(q, rqs[id := rq])
  {
  }

  lemma StepWithin(q: Limits, rqs: map<nat, Rq>, op: Op)
    requires AllSound(q, rqs) && AllWithin(q, rqs) && Enabled(q, rqs, op, false) && Plain(q, op)
    ensures AllWithin(q, Apply(q, rqs, op))
  {
    match op
    case Make(id, bio) =>
      MakeWithin(q, bio);
      PutWithin(q, rqs, id, FromBio(q, bio));
    case Back(id, bio) =>
      BackWithin(q, rqs[id], bio);
      PutWithin(q, rqs, id, BackMerge(q, rqs[id], bio));
    case Front(id, bio) =>
      FrontWithin(q, rqs[id], bio);
      PutWithin(q, rqs, id, FrontMerge(q, rqs[id], bio));
    case Merge(id, next, stray) =>
      MergeWithin(q, rqs, id, next, stray);
  }

  lemma MergeWithin(q: Limits, rqs: map<nat, Rq>, id: nat, next: nat, stray: bool)
    requires AllSound(q, rqs) && AllWithin(q, rqs) && Enabled(q, rqs, Merge(id, next, stray), false)
    ensures AllWithin(q, Apply(q, rqs, Merge(id, next, stray)))
  {
    var req, after := rqs[id], rqs[next];
    if !req.special && !after.special && req.sectors + after.sectors <= q.maxSectors {
      SomeSegments(q, req, after, stray);
      RequestsWithin(q, req, after, stray, MergeRequests(q, req, after, stray));
    }
    match MergeRequests(q, req, after, stray)
    case Refused(r, n) =>
      PutWithin(q, rqs, id, r);
      PutWithin(q, rqs[id := r], next, n);
    case Merged(r) =>
      PutWithin(q, rqs - {next}, id, r);
  }

  lemma {:induction false} RunWithin(q: Limits, rqs: map<nat, Rq>, ops: seq<Op>, end: map<nat, Rq>)
    requires Widths(q) && AllSound(q, rqs) && AllWithin(q, rqs) && IsRun(q, rqs, ops, end, false)
    requires forall i :: 0 <= i < |ops| ==> Plain(q, ops[i])
    ensures AllWithin(q, end)
    decreases |ops|
  {
    if ops != [] {
      StepSound(q, rqs, ops[0]);
      StepWithin(q, rqs, ops[0]);
      RunWithin(q, Apply(q, rqs, ops[0]), ops[1..], end);
    }
  }

  /**
   * In every history of bios and merges, no request has more sectors than max_sectors, or other sectors
   * than its bios, and none that anything was merged into more segments than either limit.
   */
  lemma NeverOutgrown(q: Limits, ops: seq<Op>, end: map<nat, Rq>, id: nat)
    requires Widths(q) && IsRun(q, map[], ops, end, false) && id in end
    requires forall i :: 0 <= i < |ops| ==> Plain(q, ops[i])
    ensures var rq := end[id];
      && rq.sectors == Sectors(rq.bios) && rq.sectors <= q.maxSectors
      && (|rq.bios| > 1 ==> rq.nr <= q.maxPhys && rq.nr <= q.maxHw)
  {
    RunWithin(q, map[], ops, end);
  }
}
