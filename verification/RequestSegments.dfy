/**
 * The loops and in-place updates of block/blk-merge.c, proved against the functions of Segments.
 */
module RequestSegments {
  import opened Lists
  import opened Segments

  /** One turn of either loop. */
  lemma GreedySnoc(q: Limits, bounce: bool, done: seq<Vec>, v: Vec)
    ensures var g := Greedy(q, bounce, done);
            Greedy(q, bounce, done + [v]) ==
            if done != [] && Joins(q, bounce, Last(done), v, Total(Last(g)))
            then g[..|g| - 1] + [Last(g) + [v]] else g + [[v]]
  {
    assert (done + [v])[..|done|] == done;
  }

  /** The vectors before position `j` of bio `i`. */
  function Upto(bios: seq<Bio>, i: nat, j: nat): seq<Vec>
    requires i < |bios| && j <= |bios[i].vecs|
  {
    Vecs(bios[..i]) + bios[i].vecs[..j]
  }

  lemma UptoNext(bios: seq<Bio>, i: nat, j: nat)
    requires i < |bios| && j < |bios[i].vecs|
    ensures Upto(bios, i, j + 1) == Upto(bios, i, j) + [bios[i].vecs[j]]
  {
    CatAssoc(Vecs(bios[..i]), bios[i].vecs[..j], [bios[i].vecs[j]]);
    assert bios[i].vecs[..j + 1] == bios[i].vecs[..j] + [bios[i].vecs[j]];
  }

  lemma UptoEnd(bios: seq<Bio>, i: nat)
    requires i < |bios|
    ensures Upto(bios, i, 0) == Vecs(bios[..i])
    ensures Upto(bios, i, |bios[i].vecs|) == Vecs(bios[..i + 1])
  {
    VecsSnoc(bios[..i], bios[i]);
    assert bios[..i + 1] == bios[..i] + [bios[i]];
    assert bios[i].vecs[..|bios[i].vecs|] == bios[i].vecs;
  }

  /** What the counting loop knows after the vectors `done`. */
  ghost predicate CountState(q: Limits, done: seq<Vec>, front0: nat, nr: nat, size: nat, front: nat, prev: Vec,
                             highPrev: bool) {
    var g := Greedy(q, true, done);
    && nr == |g|
    && (if g == [] then size == 0 && highPrev && front == front0
        else size == Total(Last(g)) && prev == Last(done) && highPrev == prev.high
             && front == if nr == 1 then front0 else Max(front0, Total(g[0])))
  }

  lemma CountJoin(q: Limits, done: seq<Vec>, front0: nat, nr: nat, size: nat, front: nat, prev: Vec, highPrev: bool,
                  v: Vec)
    requires CountState(q, done, front0, nr, size, front, prev, highPrev)
    requires done != [] && Joins(q, true, prev, v, size)
    ensures CountState(q, done + [v], front0, nr, size + v.len, front, v, highPrev)
  {
    GreedySnoc(q, true, done, v);
    TotalSnoc(Last(Greedy(q, true, done)), v);
  }

  lemma CountNew(q: Limits, done: seq<Vec>, front0: nat, nr: nat, size: nat, front: nat, prev: Vec, highPrev: bool,
                 v: Vec)
    requires CountState(q, done, front0, nr, size, front, prev, highPrev)
    requires done != [] ==> !Joins(q, true, prev, v, size)
    ensures CountState(q, done + [v], front0, nr + 1, v.len, if nr == 1 && size > front then size else front, v, v.high)
  {
    GreedySnoc(q, true, done, v);
    TotalSnoc([], v);
    assert [] + [v] == [v];
  }

  /** What the code after the loop makes of it. */
  lemma CountDone(q: Limits, bios: seq<Bio>, nr: nat, size: nat, front: nat, prev: Vec, highPrev: bool)
    requires bios != [] && CountState(q, Vecs(bios), bios[0].front, nr, size, front, prev, highPrev)
    ensures Recalc(q, bios) == (nr, Stored(bios, if nr == 1 && size > front then size else front, size))
  {
    var g := Greedy(q, true, Vecs(bios));
    var f := if nr == 1 && size > front then size else front;
    if g != [] {
      assert f == Max(bios[0].front, Total(g[0]));
    }
  }

  function Stored(bios: seq<Bio>, front: nat, size: nat): seq<Bio>
    requires bios != []
  {
    var out := bios[0 := bios[0].(front := front)];
    out[|out| - 1 := Last(out).(back := Max(Last(out).back, size))]
  }

  /** __blk_recalc_rq_segments. */
  method CountSegments(q: Limits, bios: seq<Bio>) returns (nr: nat, out: seq<Bio>)
    ensures (nr, out) == Recalc(q, bios)
  {
    if bios == [] { return 0, []; }
    var size: nat, front: nat := 0, bios[0].front;
    var highPrev, prev := true, Vec(0, 0, 0, false);
    nr := 0;
    var i := 0;
    while i < |bios|
      invariant 0 <= i <= |bios|
      invariant CountState(q, Vecs(bios[..i]), bios[0].front, nr, size, front, prev, highPrev)
    {
      UptoEnd(bios, i);
      nr, size, front, prev, highPrev := CountBio(q, bios, i, nr, size, front, prev, highPrev);
      i := i + 1;
    }
    assert bios[..|bios|] == bios;
    CountDone(q, bios, nr, size, front, prev, highPrev);
    if nr == 1 && size > front { front := size; }
    out := bios[0 := bios[0].(front := front)];
    assert out[|out| - 1 := Last(out)] == out;
    if size > Last(out).back { out := out[|out| - 1 := Last(out).(back := size)]; }
  }

  /** The inner loop: the vectors of one bio. */
  method CountBio(q: Limits, bios: seq<Bio>, i: nat, nr0: nat, size0: nat, front0: nat, prev0: Vec, highPrev0: bool)
    returns (nr: nat, size: nat, front: nat, prev: Vec, highPrev: bool)
    requires i < |bios| && CountState(q, Upto(bios, i, 0), bios[0].front, nr0, size0, front0, prev0, highPrev0)
    ensures CountState(q, Upto(bios, i, |bios[i].vecs|), bios[0].front, nr, size, front, prev, highPrev)
  {
    nr, size, front, prev, highPrev := nr0, size0, front0, prev0, highPrev0;
    var j := 0;
    while j < |bios[i].vecs|
      invariant 0 <= j <= |bios[i].vecs|
      invariant CountState(q, Upto(bios, i, j), bios[0].front, nr, size, front, prev, highPrev)
    {
      UptoNext(bios, i, j);
      nr, size, front, prev, highPrev :=
        CountVec(q, Upto(bios, i, j), bios[0].front, nr, size, front, prev, highPrev, bios[i].vecs[j]);
      j := j + 1;
    }
  }

  /** One turn of the inner loop: the vector joins the segment or opens a new one. */
  method CountVec(q: Limits, ghost done: seq<Vec>, ghost front1: nat, nr0: nat, size0: nat, front0: nat, prev0: Vec,
                  highPrev0: bool, v: Vec)
    returns (nr: nat, size: nat, front: nat, prev: Vec, highPrev: bool)
    requires CountState(q, done, front1, nr0, size0, front0, prev0, highPrev0)
    ensures CountState(q, done + [v], front1, nr, size, front, prev, highPrev)
  {
    nr, size, front, prev, highPrev := nr0, size0, front0, prev0, highPrev0;
    if !(v.high || highPrev) && q.cluster && size + v.len <= q.maxSize && q.adjacent(prev, v) {
      CountJoin(q, done, front1, nr, size, front, prev, highPrev, v);
      size := size + v.len;
    } else {
      CountNew(q, done, front1, nr, size, front, prev, highPrev, v);
      if nr == 1 && size > front { front := size; }
      nr := nr + 1;
      size := v.len;
      highPrev := v.high;
    }
    prev := v;
  }

  /** One entry of the scatterlist. */
  datatype Sg = Sg(page: nat, offset: nat, len: nat)

  /** The entry for a segment: where its first vector starts, and its length. */
  function Entry(run: seq<Vec>): Sg
    requires run != []
  {
    Sg(run[0].page, run[0].offset, Total(run))
  }

  /** Entry by entry, the list describes the segments. */
  predicate Describes(sg: seq<Sg>, segments: seq<seq<Vec>>) {
    |sg| == |segments| && forall k :: 0 <= k < |sg| ==> segments[k] != [] && sg[k] == Entry(segments[k])
  }

  /** What the mapping loop knows after the vectors `done`. */
  ghost predicate MapState(q: Limits, done: seq<Vec>, sg: seq<Sg>, some: bool, prev: Vec) {
    && Describes(sg, Greedy(q, false, done))
    && (some <==> done != []) && (some ==> prev == Last(done))
  }

  lemma MapJoin(q: Limits, done: seq<Vec>, sg: seq<Sg>, prev: Vec, v: Vec)
    requires MapState(q, done, sg, true, prev)
    requires Joins(q, false, prev, v, Last(sg).len)
    ensures MapState(q, done + [v], sg[|sg| - 1 := Last(sg).(len := Last(sg).len + v.len)], true, v)
  {
    DescribesGrown(sg, Greedy(q, false, done), v);
    GreedySnoc(q, false, done, v);
  }

  lemma DescribesGrown(sg: seq<Sg>, g: seq<seq<Vec>>, v: Vec)
    requires Describes(sg, g) && sg != []
    ensures Describes(sg[|sg| - 1 := Last(sg).(len := Last(sg).len + v.len)], g[..|g| - 1] + [Last(g) + [v]])
  {
    TotalSnoc(Last(g), v);
    assert Entry(Last(g) + [v]) == Last(sg).(len := Last(sg).len + v.len);
  }

  lemma MapNew(q: Limits, done: seq<Vec>, sg: seq<Sg>, some: bool, prev: Vec, v: Vec)
    requires MapState(q, done, sg, some, prev)
    requires some ==> !Joins(q, false, prev, v, Last(sg).len)
    ensures MapState(q, done + [v], sg + [Sg(v.page, v.offset, v.len)], true, v)
  {
    GreedySnoc(q, false, done, v);
    TotalSnoc([], v);
    assert [] + [v] == [v];
  }

  /** blk_rq_map_sg, up to the padding and the drain entry: the list describes a legal division of all vectors. */
  method MapSg(q: Limits, bios: seq<Bio>) returns (sg: seq<Sg>)
    ensures Describes(sg, Greedy(q, false, Vecs(bios)))
    ensures Splits(q, Greedy(q, false, Vecs(bios)), Vecs(bios))
  {
    sg := [];
    var prev, some := Vec(0, 0, 0, false), false;
    var i := 0;
    while i < |bios|
      invariant 0 <= i <= |bios|
      invariant MapState(q, Vecs(bios[..i]), sg, some, prev)
    {
      UptoEnd(bios, i);
      sg, some, prev := MapBio(q, bios, i, sg, some, prev);
      i := i + 1;
    }
    assert bios[..|bios|] == bios;
    GreedySplits(q, false, Vecs(bios));
  }

  /** The vectors of one bio. */
  method MapBio(q: Limits, bios: seq<Bio>, i: nat, sg0: seq<Sg>, some0: bool, prev0: Vec)
    returns (sg: seq<Sg>, some: bool, prev: Vec)
    requires i < |bios| && MapState(q, Upto(bios, i, 0), sg0, some0, prev0)
    ensures MapState(q, Upto(bios, i, |bios[i].vecs|), sg, some, prev)
  {
    sg, some, prev := sg0, some0, prev0;
    var j := 0;
    while j < |bios[i].vecs|
      invariant 0 <= j <= |bios[i].vecs|
      invariant MapState(q, Upto(bios, i, j), sg, some, prev)
    {
      var v := bios[i].vecs[j];
      UptoNext(bios, i, j);
      ghost var done := Upto(bios, i, j);
      if some && q.cluster && Last(sg).len + v.len <= q.maxSize && q.adjacent(prev, v) {
        MapJoin(q, done, sg, prev, v);
        sg := sg[|sg| - 1 := Last(sg).(len := Last(sg).len + v.len)];
      } else {
        MapNew(q, done, sg, some, prev, v);
        sg := sg + [Sg(v.page, v.offset, v.len)];
      }
      prev, some := v, true;
      j := j + 1;
    }
  }

  /** struct request, as far as segments and merging are concerned. */
  class Request {
    var bios: seq<Bio>
    var nr: nat
    var sectors: nat
    var noMerge: bool
    var special: bool

    function View(): Rq reads this { Rq(bios, nr, sectors, noMerge, special) }

    /** blk_rq_bio_prep. */
    constructor (q: Limits, bio: Bio)
      ensures View() == FromBio(q, bio)
    {
      noMerge, special, sectors := false, false, bio.sectors;
      if bio.vecs == [] {
        bios, nr := [bio], 0;
      } else if bio.valid {
        bios, nr := [bio], Short(bio.phys);
      } else {
        var n, out := CountSegments(q, [bio]);
        bios, nr := [out[0].(phys := n, valid := true)], Short(n);
      }
    }

    /** blk_recalc_rq_segments. */
    method RecalcSegments(q: Limits)
      modifies this`bios, this`nr
      ensures View() == var r := Recalc(q, old(bios)); old(View()).(bios := r.1, nr := Short(r.0))
    {
      var n, out := CountSegments(q, bios);
      bios, nr := out, Short(n);
    }

    /** blk_recount_segments on a bio whose cache is stale. */
    static method EnsureCounted(q: Limits, bio: Bio) returns (b: Bio)
      ensures b == IfStale(q, bio)
    {
      b := bio;
      if !b.valid {
        var n, out := CountSegments(q, [bio]);
        b := out[0].(phys := n, valid := true);
      }
    }

    /** ll_new_hw_segment. */
    method NewHwSegment(q: Limits, phys: nat) returns (ok: bool)
      modifies this`nr, this`noMerge
      ensures ok == Fits(q, old(nr) + phys)
      ensures nr == if ok then old(nr) + phys else old(nr)
      ensures noMerge == (old(noMerge) || !ok)
    {
      if nr + phys > q.maxHw || nr + phys > q.maxPhys {
        noMerge := true;
        return false;
      }
      nr := nr + phys;
      return true;
    }

    /** The last bio's counts are brought up to date. */
    method RefreshTail(q: Limits)
      requires bios != []
      modifies this
      ensures View() == Refreshed(q, old(View()), |old(bios)| - 1)
    {
      var tail := EnsureCounted(q, Last(bios));
      bios := bios[|bios| - 1 := tail];
    }

    /** A bio with a valid count is chained to the end if the segments fit. */
    method ChainBack(q: Limits, b: Bio)
      modifies this
      ensures View() == AddBack(q, old(View()), b)
    {
      var ok := NewHwSegment(q, b.phys);
      if ok {
        bios := bios + [b];
        sectors := sectors + b.sectors;
      }
    }

    /** ll_back_merge_fn, and the chaining in __make_request. */
    method BackMerge(q: Limits, bio: Bio)
      requires bios != []
      modifies this
      ensures View() == Segments.BackMerge(q, old(View()), bio)
    {
      if sectors + bio.sectors > q.maxSectors {
        noMerge := true;
        return;
      }
      RefreshTail(q);
      var b := EnsureCounted(q, bio);
      ChainBack(q, b);
    }

    /** ll_front_merge_fn, likewise. */
    method FrontMerge(q: Limits, bio: Bio)
      requires bios != []
      modifies this
      ensures View() == Segments.FrontMerge(q, old(View()), bio)
    {
      if sectors + bio.sectors > q.maxSectors {
        noMerge := true;
        return;
      }
      var b := EnsureCounted(q, bio);
      var head := EnsureCounted(q, bios[0]);
      bios := bios[0 := head];
      assert View() == Refreshed(q, old(View()), 0);
      var ok := NewHwSegment(q, b.phys);
      if ok {
        bios := [b] + bios;
        sectors := sectors + b.sectors;
      }
    }

    /** The size updates of ll_merge_requests_fn for a contiguous pair. */
    method NoteJoined(next: Request, size: nat)
      requires this != next && bios != [] && next.bios != []
      modifies this`bios, next`bios
      ensures View() == Fronted(old(View()), size) && next.View() == Backed(old(next.View()), size)
    {
      if nr == 1 { bios := bios[0 := bios[0].(front := size)]; }
      if next.nr == 1 { next.bios := next.bios[|next.bios| - 1 := Last(next.bios).(back := size)]; }
    }

    /** ll_merge_requests_fn and, when it agrees, the chaining in attempt_merge; `next` is then freed. */
    method MergeWith(q: Limits, next: Request, stray: bool) returns (ok: bool)
      requires this != next && bios != [] && next.bios != []
      modifies this, next
      ensures var m := MergeRequests(q, old(View()), old(next.View()), stray);
              ok == m.Merged? && View() == m.req && (m.Refused? ==> next.View() == m.next)
    {
      var size := Last(bios).back + next.bios[0].front;
      if special || next.special || sectors + next.sectors > q.maxSectors { return false; }
      var total: int := nr + next.nr;
      if Contiguous(q, Last(bios), next.bios[0], stray) {
        NoteJoined(next, size);
        total := total - 1;
      }
      if total > q.maxPhys || total > q.maxHw { return false; }
      nr := Short(total);
      bios := bios + next.bios;
      sectors := sectors + next.sectors;
      return true;
    }
  }
}
