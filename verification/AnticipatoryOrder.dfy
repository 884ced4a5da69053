/** The order of the anticipatory scheduler's trees, and what the search for the next request finds in it. */
module AnticipatoryOrder {
  import opened Lists
  import opened NextCache
  import opened Anticipatory
  import opened AnticipatoryInv
  import opened AnticipatoryTheorems

  /** Both trees are in the order of the sectors, no two requests at the same one. */
  ghost predicate InOrder(a: As) { Sorted(a.sector, a.rd.tree) && Sorted(a.sector, a.wr.tree) }

  // ---------------------------------------------------------------- the order is kept

  lemma MoveSorted(a: As, id: nat)
    requires InOrder(a)
    ensures InOrder(Move(a, id))
  {
    var sync := At(a.rq, id).sync;
    MoveShape(a, id, sync);
    WithoutSorted(a.sector, LaneOf(a, sync).tree, id);
  }

  lemma {:induction false} ClearSorted(a: As, sync: bool, s: nat)
    requires InOrder(a)
    ensures InOrder(Clear(a, sync, s)) && Clear(a, sync, s).sector == a.sector
    decreases |LaneOf(a, sync).tree|
  {
    var al := Alias(a.sector, LaneOf(a, sync).tree, s);
    if al.Some? && At(a.rq, al.id).sync == sync {
      WithoutIndex(LaneOf(a, sync).tree, al.id);
      MoveShape(a, al.id, sync);
      MoveSorted(a, al.id);
      ClearSorted(Move(a, al.id), sync, s);
    }
  }

  lemma {:induction false} DrainSorted(a: As, sync: bool)
    requires InOrder(a)
    ensures InOrder(Drain(a, sync))
    decreases |LaneOf(a, sync).tree|
  {
    var l := LaneOf(a, sync);
    if l.next.Some? && l.next.id in l.tree && At(a.rq, l.next.id).sync == sync {
      WithoutIndex(l.tree, l.next.id);
      MoveShape(a, l.next.id, sync);
      MoveSorted(a, l.next.id);
      DrainSorted(Move(a, l.next.id), sync);
    }
  }

  /** as_add_rq_rb keeps the order: nothing is left at the request's sector when it goes in. */
  lemma AddRbSorted(a: As, id: nat, out: set<nat>)
    requires InOrder(a) && Lanes(a, At(a.rq, id).sync, out) && Flight(a) && AnticOk(a.antic) && BatchOk(a.batch) &&
             !a.bug
    ensures InOrder(AddRb(a, id))
  {
    var sync, s := At(a.rq, id).sync, SectorOf(a.sector, id);
    ClearOk(a, sync, s, out);
    ClearSorted(a, sync, s);
    LinkedSorted(a.sector, LaneOf(Clear(a, sync, s), sync).tree, id);
  }

  lemma AddSorted(k: Tunables, a: As, id: nat, s: nat, r: Rq, now: int, brk: bool)
    requires Base(a) && InOrder(a) && id !in a.rq
    ensures InOrder(Add(k, a, id, s, r, now, brk))
  {
    var n := Known(k, a, id, s, r, now);
    KnownOk(k, a, id, s, r, now);
    OtherSector(a.sector, a.rd.tree, id, s);
    OtherSector(a.sector, a.wr.tree, id, s);
    AddRbSorted(n, id, {});
  }

  lemma FrontSorted(a: As, id: nat, s: nat, nr: nat)
    requires Base(a) && InOrder(a) && Holds(a, id)
    ensures InOrder(FrontMerged(a, id, s, nr))
  {
    var sync := At(a.rq, id).sync;
    var b := Pulled(a, id, s, nr);
    PulledOk(a, id, s, nr, sync);
    WithoutSorted(a.sector, LaneOf(a, sync).tree, id);
    OtherSector(a.sector, LaneOf(b, sync).tree, id, s);
    NotOther(a, id, sync);
    OtherSector(a.sector, LaneOf(b, !sync).tree, id, s);
    AddRbSorted(b, id, {id});
  }

  lemma NotOther(a: As, id: nat, sync: bool)
    requires Base(a) && id in LaneOf(a, sync).tree
    ensures id !in LaneOf(a, !sync).tree
  {
    Flip(a, sync);
    assert id in LaneOf(a, sync).fifo;
    assert id in LaneOf(a, !sync).tree ==> id in LaneOf(a, !sync).fifo;
  }

  lemma DispatchSorted(k: Tunables, a: As, now: int, brk: bool)
    requires Base(a) && InOrder(a)
    ensures InOrder(Dispatch(k, a, now, brk))
  {
    DispatchShape(k, a, now, brk);
    var b := Marked(a);
    SameBase(a, b);
    if MayRun(b) {
      SelectGood(k, b, now, brk);
      var c := Select(k, b, now, brk);
      if c.Chosen? {
        FinishShape(k, c.a, c.id, now);
        MoveSorted(Drained(k, c.a, now), c.id);
      }
    }
  }

  lemma ForceSorted(a: As, now: int)
    requires InOrder(a)
    ensures InOrder(Force(a, now))
  {
    var a1 := a.(batch := a.batch.(sync := true, changed := false, newly := false));
    DrainSorted(a1, true);
    var b := Drain(a1, true);
    DrainSorted(b.(rd := b.rd.(check := now)), false);
  }

  lemma MergedSorted(a: As, req: nat, next: nat)
    requires InOrder(a)
    ensures InOrder(Merged(a, req, next))
  {
    WithoutSorted(a.sector, LaneOf(a, At(a.rq, next).sync).tree, next);
  }

  lemma StepSorted(k: Tunables, a: As, op: Op, now: int)
    requires Base(a) && InOrder(a) && Enabled(a, op)
    ensures InOrder(Apply(k, a, op, now))
  {
    match op
    case OpAdd(id, s, r, brk) => AddSorted(k, a, id, s, r, now, brk);
    case OpFront(id, s, nr) => FrontSorted(a, id, s, nr);
    case OpMerge(req, next) => MergedSorted(a, req, next);
    case OpTurn(brk) => DispatchSorted(k, a, now, brk);
    case OpForce => ForceSorted(a, now);
    case OpComplete(id) => {}
    case OpTimeout => {}
  }

  /** In every run both trees are in the order of the sectors, no two requests of a direction at the same one. */
  lemma {:induction false} TreesInOrder(k: Tunables, start: int, calls: seq<Call>)
    requires IsRun(k, Init(k, start), calls)
    ensures InOrder(After(k, Init(k, start), calls))
    decreases |calls|
  {
    if calls != [] {
      var n := |calls| - 1;
      TreesInOrder(k, start, calls[..n]);
      RunBase(k, start, calls[..n]);
      StepSorted(k, After(k, Init(k, start), calls[..n]), calls[n].op, calls[n].now);
    }
  }

  // ---------------------------------------------------------------- the next request

  /** Of two requests at different sectors exactly one is better, whatever the order in which they are compared. */
  lemma BetterDecides(last: nat, s: nat, t: nat)
    requires s != t
    ensures Better(last, s, t) <==> !Better(last, t, s)
  {
  }

  /**
   * Ahead of the head the nearer one is better; behind it, within reach of 1024 * 1024 sectors, too; out of
   * reach, the lower one; and one behind it is better than one ahead only if it is less than half as far.
   */
  lemma BetterNear(last: nat, s: nat, t: nat)
    ensures last <= s < t ==> Better(last, s, t)
    ensures t < s < last && s + 1048576 >= last ==> Better(last, s, t)
    ensures s < t < last && t + 1048576 < last ==> Better(last, s, t)
    ensures last <= s && t + 1048576 < last ==> Better(last, s, t)
    ensures t < last <= s && t + 1048576 >= last ==> (Better(last, s, t) <==> s - last <= 2 * (last - t))
  {
  }

  lemma BetterTransitive(last: nat, s: nat, t: nat, u: nat)
    requires Better(last, s, t) && Better(last, t, u)
    ensures Better(last, s, u)
  {
  }

  /** `x` is the best of the requests of `tree` other than `id`. */
  ghost predicate Best(sector: map<nat, nat>, tree: seq<nat>, id: nat, last: nat, x: nat) {
    && x in tree && x != id
    && forall y :: y in tree && y != id && y != x ==> Better(last, SectorOf(sector, x), SectorOf(sector, y))
  }

  /**
   * What a caller can see before the search, with the request just served at place `p`: nothing follows
   * it, or what follows starts at its end or later; or, where that starts inside it, it still beats the
   * one after it; or everything is out of reach, and at most one request is before it.
   */
  predicate Sighted(sector: map<nat, nat>, tree: seq<nat>, p: nat, last: nat)
    requires p < |tree|
  {
    p + 1 == |tree| ||
    var n := SectorOf(sector, tree[p + 1]);
    if n >= last then true
    else if Wraps(last, n) then p <= 1 && Wraps(last, SectorOf(sector, tree[|tree| - 1]))
    else p + 2 == |tree| || Better(last, n, SectorOf(sector, tree[p + 2]))
  }

  /** Everything after position `p` is at least as far as what follows it, everything before at least as far back. */
  lemma Around(sector: map<nat, nat>, tree: seq<nat>, p: nat, y: nat)
    requires Sorted(sector, tree) && p < |tree| && y in tree && y != tree[p]
    ensures SectorOf(sector, y) < SectorOf(sector, tree[p]) ==>
      p > 0 && (y == tree[p - 1] || SectorOf(sector, y) < SectorOf(sector, tree[p - 1]))
    ensures SectorOf(sector, y) > SectorOf(sector, tree[p]) ==>
      p + 1 < |tree| && (y == tree[p + 1] || SectorOf(sector, y) > SectorOf(sector, tree[p + 1]))
    ensures SectorOf(sector, y) != SectorOf(sector, tree[p])
    ensures y == tree[0] || SectorOf(sector, tree[0]) < SectorOf(sector, y)
  {
    var i := Pos(tree, y);
    assert tree[i] == y && i != p;
  }

  /** A request before `id`: the one just before it is better, or both are out of reach. */
  lemma BestBehind(sector: map<nat, nat>, tree: seq<nat>, p: nat, last: nat, y: nat)
    requires Sorted(sector, tree) && p < |tree| && y in tree && SectorOf(sector, y) < SectorOf(sector, tree[p]) <= last
    ensures p > 0 && SectorOf(sector, tree[p - 1]) < last && SectorOf(sector, y) < last
    ensures y == tree[p - 1] || Wraps(last, SectorOf(sector, tree[p - 1]))
      || Better(last, SectorOf(sector, tree[p - 1]), SectorOf(sector, y))
    ensures Wraps(last, SectorOf(sector, tree[p - 1])) ==> Wraps(last, SectorOf(sector, y))
  {
    Around(sector, tree, p, y);
    BetterNear(last, SectorOf(sector, tree[p - 1]), SectorOf(sector, y));
  }

  /** The choice between the neighbours on both sides, where what follows starts at the end or later. */
  lemma BestBetween(sector: map<nat, nat>, tree: seq<nat>, p: nat, last: nat, x: nat, y: nat)
    requires Sorted(sector, tree) && p + 1 < |tree|
    requires SectorOf(sector, tree[p]) <= last <= SectorOf(sector, tree[p + 1])
    requires Some(x) == Pick(Some(tree[p + 1]), if p > 0 then Some(tree[p - 1]) else None, Chooser(sector, last))
    requires y in tree && y != tree[p] && y != x
    ensures Better(last, SectorOf(sector, x), SectorOf(sector, y))
  {
    var n, m := tree[p + 1], SectorOf(sector, tree[p + 1]);
    assert n in tree;
    Around(sector, tree, p, n);
    Around(sector, tree, p, y);
    var t := SectorOf(sector, y);
    BetterNear(last, m, t);
    if p > 0 {
      var b := SectorOf(sector, tree[p - 1]);
      BetterDecides(last, m, b);
      BetterNear(last, m, b);
      if t < SectorOf(sector, tree[p]) { BestBehind(sector, tree, p, last, y); }
      if x == n {
        if Better(last, m, b) && Better(last, b, t) { BetterTransitive(last, m, b, t); }
      } else if Better(last, b, m) && Better(last, m, t) {
        BetterTransitive(last, b, m, t);
      }
    }
  }

  /** What follows starts inside and is in reach: it is found. */
  lemma InsideFound(sector: map<nat, nat>, tree: seq<nat>, p: nat, last: nat)
    requires Sorted(sector, tree) && p + 1 < |tree|
    requires SectorOf(sector, tree[p + 1]) < last && !Wraps(last, SectorOf(sector, tree[p + 1]))
    ensures Pick(Some(tree[p + 1]), if p > 0 then Some(tree[p - 1]) else None, Chooser(sector, last)) ==
            Some(tree[p + 1])
  {
    if p > 0 {
      BetterNear(last, SectorOf(sector, tree[p + 1]), SectorOf(sector, tree[p - 1]));
    }
  }

  /** It is the best exactly when it beats the one after it. */
  lemma InsideBest(sector: map<nat, nat>, tree: seq<nat>, p: nat, last: nat, y: nat)
    requires Sorted(sector, tree) && p + 1 < |tree| && y in tree && y != tree[p] && y != tree[p + 1]
    requires SectorOf(sector, tree[p + 1]) < last && !Wraps(last, SectorOf(sector, tree[p + 1]))
    requires p + 2 < |tree| ==> Better(last, SectorOf(sector, tree[p + 1]), SectorOf(sector, tree[p + 2]))
    ensures Better(last, SectorOf(sector, tree[p + 1]), SectorOf(sector, y))
  {
    var m, t := SectorOf(sector, tree[p + 1]), SectorOf(sector, y);
    Around(sector, tree, p + 1, y);
    BetterNear(last, m, t);
    if t > m && y != tree[p + 2] {
      var u := SectorOf(sector, tree[p + 2]);
      BetterNear(last, u, m);
      BetterDecides(last, m, u);
      BetterNear(last, u, t);
      BetterTransitive(last, m, u, t);
    }
  }

  /**
   * What follows starts inside and is out of reach, as is everything before: the one before is found, or
   * what follows.
   */
  lemma FarFound(sector: map<nat, nat>, tree: seq<nat>, p: nat, last: nat)
    requires Sorted(sector, tree) && p + 1 < |tree| && Wraps(last, SectorOf(sector, tree[p + 1]))
    ensures Pick(Some(tree[p + 1]), if p > 0 then Some(tree[p - 1]) else None, Chooser(sector, last)) ==
            Some(if p > 0 then tree[p - 1] else tree[p + 1])
  {
    if p > 0 {
      var b, m := SectorOf(sector, tree[p - 1]), SectorOf(sector, tree[p + 1]);
      BetterNear(last, b, m);
      BetterDecides(last, b, m);
    }
  }

  /** It is the best exactly when it is the lowest of all and nothing is in reach. */
  lemma FarBest(sector: map<nat, nat>, tree: seq<nat>, p: nat, last: nat, x: nat)
    requires Sorted(sector, tree) && p + 1 < |tree| && Wraps(last, SectorOf(sector, tree[p + 1]))
    requires x == if p > 0 then tree[p - 1] else tree[p + 1]
    ensures Best(sector, tree, tree[p], last, x) <==> p <= 1 && Wraps(last, SectorOf(sector, tree[|tree| - 1]))
  {
    var s, end := SectorOf(sector, x), |tree| - 1;
    assert x in tree && tree[end] in tree && tree[0] in tree;
    if p <= 1 && Wraps(last, SectorOf(sector, tree[end])) {
      forall y | y in tree && y != tree[p] && y != x ensures Better(last, s, SectorOf(sector, y)) {
        FarLower(sector, tree, p, x, y);
        BetterNear(last, s, SectorOf(sector, y));
      }
    } else if p > 1 {
      BetterNear(last, SectorOf(sector, tree[0]), s);
      BetterDecides(last, SectorOf(sector, tree[0]), s);
    } else {
      assert tree[end] != tree[p] && tree[end] != x;
    }
  }

  lemma FarLower(sector: map<nat, nat>, tree: seq<nat>, p: nat, x: nat, y: nat)
    requires Sorted(sector, tree) && p + 1 < |tree| && p <= 1 && x == (if p > 0 then tree[p - 1] else tree[p + 1])
    requires y in tree && y != tree[p] && y != x
    ensures SectorOf(sector, x) < SectorOf(sector, y) <= SectorOf(sector, tree[|tree| - 1])
  {
    var i := Pos(tree, y);
    assert tree[i] == y;
  }

  /** The choice when nothing follows: the first request of all, or the one just before. */
  lemma BestAtEnd(sector: map<nat, nat>, tree: seq<nat>, p: nat, last: nat, x: nat, y: nat)
    requires Sorted(sector, tree) && p + 1 == |tree| && p > 0 && SectorOf(sector, tree[p]) <= last
    requires Some(x) == Pick(Some(tree[0]), Some(tree[p - 1]), Chooser(sector, last))
    requires y in tree && y != tree[p] && y != x
    ensures Better(last, SectorOf(sector, x), SectorOf(sector, y))
  {
    var f, b, t := SectorOf(sector, tree[0]), SectorOf(sector, tree[p - 1]), SectorOf(sector, y);
    Around(sector, tree, p, y);
    BestBehind(sector, tree, p, last, y);
    BetterNear(last, b, f);
    BetterNear(last, f, t);
    if f != b { BetterDecides(last, f, b); }
  }

  lemma SightedBest(sector: map<nat, nat>, tree: seq<nat>, p: nat, last: nat, x: nat)
    requires Sorted(sector, tree) && p < |tree| && SectorOf(sector, tree[p]) <= last
    requires FindNext(tree, tree[p], Chooser(sector, last)) == Some(x) && Pos(tree, tree[p]) == p
    ensures Best(sector, tree, tree[p], last, x) <==> Sighted(sector, tree, p, last)
  {
    SortedDistinct(sector, tree);
    FindNextOk(tree, tree[p], Chooser(sector, last));
    WithoutAt(tree, tree[p]);
    if p + 1 == |tree| {
      forall y | y in tree && y != tree[p] && y != x ensures Better(last, SectorOf(sector, x), SectorOf(sector, y)) {
        BestAtEnd(sector, tree, p, last, x, y);
      }
    } else if SectorOf(sector, tree[p + 1]) >= last {
      forall y | y in tree && y != tree[p] && y != x ensures Better(last, SectorOf(sector, x), SectorOf(sector, y)) {
        BestBetween(sector, tree, p, last, x, y);
      }
    } else if Wraps(last, SectorOf(sector, tree[p + 1])) {
      FarFound(sector, tree, p, last);
      FarBest(sector, tree, p, last, x);
    } else {
      InsideFound(sector, tree, p, last);
      InsideChosen(sector, tree, p, last);
    }
  }

  lemma InsideChosen(sector: map<nat, nat>, tree: seq<nat>, p: nat, last: nat)
    requires Sorted(sector, tree) && p + 1 < |tree|
    requires SectorOf(sector, tree[p + 1]) < last && !Wraps(last, SectorOf(sector, tree[p + 1]))
    ensures Best(sector, tree, tree[p], last, tree[p + 1]) <==>
            p + 2 == |tree| || Better(last, SectorOf(sector, tree[p + 1]), SectorOf(sector, tree[p + 2]))
  {
    assert tree[p + 1] in tree && (p + 2 < |tree| ==> tree[p + 2] in tree);
    if p + 2 == |tree| || Better(last, SectorOf(sector, tree[p + 1]), SectorOf(sector, tree[p + 2])) {
      forall y | y in tree && y != tree[p] && y != tree[p + 1]
        ensures Better(last, SectorOf(sector, tree[p + 1]), SectorOf(sector, y))
      {
        InsideBest(sector, tree, p, last, y);
      }
    }
  }

  /**
   * When looking at the neighbours is as good as looking at all: as_find_next_rq finds a request exactly
   * when there is another, and it is what as_choose_req prefers to every other one of the direction if
   * and only if the condition holds.
   */
  lemma NeighbourIsBest(sector: map<nat, nat>, tree: seq<nat>, id: nat, last: nat)
    requires Sorted(sector, tree) && id in tree && SectorOf(sector, id) <= last
    ensures FindNext(tree, id, Chooser(sector, last)).None? <==> tree == [id]
    ensures var x := FindNext(tree, id, Chooser(sector, last));
            x.Some? ==> (Best(sector, tree, id, last, x.id) <==> Sighted(sector, tree, Pos(tree, id), last))
  {
    SortedDistinct(sector, tree);
    FindNextOk(tree, id, Chooser(sector, last));
    WithoutAt(tree, id);
    var p, x := Pos(tree, id), FindNext(tree, id, Chooser(sector, last));
    if x.Some? { SightedBest(sector, tree, p, last, x.id); }
  }

  /** The next request a direction has cached is better than every other one it holds. */
  ghost predicate CachedBest(l: Lane, sector: map<nat, nat>) {
    l.next.Some? ==> l.next.id in l.tree && forall y :: y in l.tree && y != l.next.id ==>
      Better(l.last, SectorOf(sector, l.next.id), SectorOf(sector, y))
  }

  lemma LeaveBest(l: Lane, sector: map<nat, nat>, id: nat, end: nat)
    requires Sorted(sector, l.tree) && id in l.tree && SectorOf(sector, id) <= end
    ensures CachedBest(Leave(l, sector, id, end), sector) <==> Sighted(sector, l.tree, Pos(l.tree, id), end)
  {
    SortedDistinct(sector, l.tree);
    WithoutAt(l.tree, id);
    FindNextOk(l.tree, id, Chooser(sector, end));
    NeighbourIsBest(sector, l.tree, id, end);
    if FindNext(l.tree, id, Chooser(sector, end)).None? { assert |l.tree| == 1; }
  }

  lemma DirectionOf(a: As, id: nat, sync: bool)
    requires Base(a) && id in LaneOf(a, sync).tree
    ensures At(a.rq, id).sync == sync
  {
    Flip(a, sync);
    assert id in LaneOf(a, sync).fifo;
  }

  /**
   * In every run, when a request is moved to the dispatch queue, the cached next request of its direction
   * is the best of those that remain if and only if the condition holds.
   */
  lemma NextIsBest(k: Tunables, start: int, calls: seq<Call>, a: As, id: nat, sync: bool)
    requires IsRun(k, Init(k, start), calls) && a == After(k, Init(k, start), calls) && id in LaneOf(a, sync).tree
    ensures CachedBest(LaneOf(Move(a, id), sync), a.sector) <==>
            Sighted(a.sector, LaneOf(a, sync).tree, Pos(LaneOf(a, sync).tree, id),
                    SectorOf(a.sector, id) + At(a.rq, id).nr)
  {
    RunBase(k, start, calls);
    TreesInOrder(k, start, calls);
    DirectionOf(a, id, sync);
    LeaveBest(LaneOf(a, sync), a.sector, id, SectorOf(a.sector, id) + At(a.rq, id).nr);
    MoveShape(a, id, sync);
  }

  // ---------------------------------------------------------------- a run in which the best is missed

  /** A read of eight sectors arrives. */
  function Read(id: nat): Call { Call(OpAdd(id, 5 * id, Rq(8, true, None, 0), false), 0) }

  /**
   * Reads arrive whose first sectors are 0, 5, 10 and so on: each starts inside the one before, and none
   * where another ends.
   */
  function Reads(n: nat): (l: seq<Call>)
    ensures |l| == n
  {
    if n == 0 then [] else Reads(n - 1) + [Read(n - 1)]
  }

  /** They are queued in this order. */
  ghost predicate Queued(a: As, n: nat) {
    && a.rd.fifo == a.rd.tree && |a.rd.tree| == n && (forall i :: 0 <= i < n ==> a.rd.tree[i] == i)
    && (forall x :: x in a.rq <==> 0 <= x < n)
    && (forall x :: x in a.rq ==> a.rq[x].sync && a.rq[x].nr == 8 && a.rq[x].due >= 0)
    && (forall x :: x in a.rq ==> x in a.sector && a.sector[x] == 5 * x)
  }

  /** Nothing has been dispatched, and the first read is cached. */
  predicate Idle(a: As, n: nat) {
    && a.wr.fifo == [] && a.wr.tree == [] && a.rd.next == (if n == 0 then None else Some(0)) && a.rd.last == 0
    && a.antic == Antic(Off, 0, None, false) && a.batch.sync && !a.batch.changed && !a.bug
  }

  /** A read that is behind all others joins the end of the tree and of the FIFO. */
  lemma AddBehind(k: Tunables, a: As, id: nat, s: nat, r: Rq, sector: map<nat, nat>)
    requires r.sync && sector == a.sector[id := s] && !Waiting(a.antic.status)
    requires forall x :: x in a.rd.tree ==> SectorOf(sector, x) < s
    ensures var b := Add(k, a, id, s, r, 0, false);
            && b.sector == sector && b.rq == a.rq[id := r.(due := FifoExpire(k, true))] && b.wr == a.wr
            && b.rd == a.rd.(tree := a.rd.tree + [id], fifo := a.rd.fifo + [id],
                             next := Pick(Some(id), a.rd.next, Chooser(sector, a.rd.last)))
            && b.antic == a.antic && b.batch == a.batch && b.bug == a.bug
  {
    var m := a.(rq := a.rq[id := r.(due := FifoExpire(k, true))], sector := sector);
    assert Alias(sector, a.rd.tree, s).None?;
    assert Clear(m, true, s) == m;
    SlotLast(sector, a.rd.tree, s);
    assert Linked(sector, a.rd.tree, id) == a.rd.tree + [id];
  }

  lemma ReadArrives(k: Tunables, a: As, n: nat)
    requires Queued(a, n) && Idle(a, n)
    ensures var b := Add(k, a, n, 5 * n, Rq(8, true, None, 0), 0, false); Queued(b, n + 1) && Idle(b, n + 1)
  {
    var sector, tree := a.sector[n := 5 * n], a.rd.tree;
    forall x | x in tree ensures SectorOf(sector, x) < 5 * n {
      var i := Pos(tree, x);
      assert tree[i] == x && x in a.rq;
    }
    AddBehind(k, a, n, 5 * n, Rq(8, true, None, 0), sector);
    if n > 0 {
      assert tree[0] == 0 && 0 in a.rq;
    }
  }

  lemma {:induction false} SlotLast(sector: map<nat, nat>, tree: seq<nat>, s: nat)
    requires forall x :: x in tree ==> SectorOf(sector, x) < s
    ensures Slot(sector, tree, s) == |tree|
  {
    if tree != [] {
      assert tree[0] in tree;
      SlotLast(sector, tree[1..], s);
    }
  }

  lemma {:induction false} ReadsWait(k: Tunables, n: nat)
    ensures IsRun(k, Init(k, 0), Reads(n))
    ensures var a := After(k, Init(k, 0), Reads(n)); Queued(a, n) && Idle(a, n)
  {
    if n > 0 {
      ReadsWait(k, n - 1);
      var a := After(k, Init(k, 0), Reads(n - 1));
      OneMore(k, Init(k, 0), Reads(n - 1), Read(n - 1));
      ReadArrives(k, a, n - 1);
    }
  }

  /** A dispatch call chooses the cached read. */
  lemma FirstChosen(k: Tunables, a: As, n: nat)
    requires Queued(a, n) && Idle(a, n) && n > 0
    ensures var c := Select(k, a, 0, false); c.Chosen? && c.id == 0 && !c.a.batch.changed
  {
    assert a.rd.tree[0] == 0 && 0 in a.rq;
  }

  lemma FirstServed(k: Tunables, a: As, n: nat)
    requires Queued(a, n) && Idle(a, n) && n > 0 && Base(a)
    ensures var b := Dispatch(k, a, 0, false);
            b.sector == a.sector && SameLane(Leave(a.rd, a.sector, 0, 8), b.rd)
  {
    assert a.rd.tree[0] == 0 && 0 in a.rq;
    FirstChosen(k, a, n);
    SelectGood(k, a, 0, false);
    DispatchShape(k, a, 0, false);
    ServedShape(k, a, Select(k, a, 0, false).a);
  }

  lemma ServedShape(k: Tunables, a: As, c: As)
    requires Same(a, c) && BatchOk(c.batch) && !c.bug && !c.batch.changed
    requires At(a.rq, 0).sync && SectorOf(a.sector, 0) + At(a.rq, 0).nr == 8
    ensures var b := Finish(k, c, 0, 0); b.sector == a.sector && SameLane(Leave(a.rd, a.sector, 0, 8), b.rd)
  {
    FinishShape(k, c, 0, 0);
    MoveShape(c, 0, true);
  }

  /** The one after the served read is found, and the one after that is better. */
  lemma SecondFound(l: Lane, sector: map<nat, nat>, n: nat)
    requires |l.tree| == n >= 3 && forall i :: 0 <= i < n ==> l.tree[i] == i
    requires SectorOf(sector, 1) == 5 && SectorOf(sector, 2) == 10
    ensures var m := Leave(l, sector, 0, 8); m.next == Some(1) && 2 in m.tree && m.last == 8 && !CachedBest(m, sector)
  {
    var tree := l.tree;
    assert tree[0] == 0 && tree[1] == 1 && tree[2] == 2;
    WithoutTail(tree, 0);
    assert tree[1..][1] == 2;
    assert Pos(tree, 0) == 0;
    assert !Better(8, 5, 10);
  }

  /**
   * Why the condition: with three such reads or more, after the first dispatch call the read at sector 5
   * is cached, though the one at sector 10 is preferred to it, the head being at sector 8.
   */
  lemma OverlapMisses(k: Tunables, n: nat)
    requires n >= 3
    ensures IsRun(k, Init(k, 0), Reads(n) + [Call(OpTurn(false), 0)])
    ensures var a := After(k, Init(k, 0), Reads(n) + [Call(OpTurn(false), 0)]);
            && a.rd.next == Some(1) && 2 in a.rd.tree && SectorOf(a.sector, 1) == 5 && SectorOf(a.sector, 2) == 10
            && a.rd.last == 8
            && !CachedBest(a.rd, a.sector)
  {
    ReadsWait(k, n);
    RunBase(k, 0, Reads(n));
    var a := After(k, Init(k, 0), Reads(n));
    OneMore(k, Init(k, 0), Reads(n), Call(OpTurn(false), 0));
    FirstServed(k, a, n);
    assert 1 in a.rq && 2 in a.rq;
    SecondFound(a.rd, a.sector, n);
  }
}
