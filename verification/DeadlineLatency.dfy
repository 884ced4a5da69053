/** How long an expired request of the deadline scheduler can still wait, by its place in the queue. */
module DeadlineLatency {
  import opened Lists
  import opened Deadline
  import opened DeadlineInv
  import opened DeadlineBooks
  import opened DeadlineTheorems

  // ---------------------------------------------------------------- places in a list

  /** The place of `h` in a list, counted from one; zero if it is not there. */
  function Rank(l: seq<nat>, h: nat): nat { if h in l then Pos(l, h) + 1 else 0 }

  lemma RankWithout(l: seq<nat>, id: nat, h: nat)
    requires Distinct(l)
    ensures Rank(Without(l, id), h) <= Rank(l, h)
    ensures h == id ==> Rank(Without(l, id), h) == 0
    ensures h in l && l[0] == id ==> Rank(Without(l, id), h) == Rank(l, h) - 1
  {
    WithoutAt(l, id);
    if h in l && h != id {
      var i, p := Pos(l, h), Pos(l, id);
      var j := if p < i then i - 1 else i;
      assert Without(l, id)[j] == h;
      PosUnique(Without(l, id), j);
      if l[0] == id { PosUnique(l, 0); }
    }
  }

  lemma RankAppend(l: seq<nat>, id: nat, h: nat)
    requires h != id && Distinct(l) && id !in l
    ensures Rank(l + [id], h) == Rank(l, h)
  {
    if h in l {
      assert (l + [id])[Pos(l, h)] == h;
      PosUnique(l + [id], Pos(l, h));
    }
  }

  /** `req` moves up to the place of `next`: it is where `next` was, and nothing else falls back. */
  lemma RankTakePlace(l: seq<nat>, req: nat, next: nat, h: nat)
    requires Distinct(l) && req in l && next in l && Pos(l, next) < Pos(l, req)
    ensures h != next && h != req ==> Rank(TakePlace(l, req, next), h) <= Rank(l, h)
    ensures Rank(TakePlace(l, req, next), req) == Rank(l, next)
  {
    var rest, t := Without(l, req), TakePlace(l, req, next);
    TakePlaceAt(l, req, next);
    WithoutAt(l, req);
    var i := Pos(l, next);
    assert rest[i] == next && t[i] == req;
    PosUnique(t, i);
    if h in l && h != next && h != req {
      RankWithout(l, req, h);
      var j := Pos(rest, h);
      assert t[j] == h;
      PosUnique(t, j);
    }
  }

  // ---------------------------------------------------------------- the place of an accepted request

  /** The FIFO of a direction. */
  function Fifo(s: Sched, dir: bool): seq<nat> { if dir then s.wr.fifo else s.rd.fifo }

  /** The place in its FIFO of the request that `x` is in; zero once that has left. */
  function Place(s: Sched, x: nat): nat
    requires x in s.book
  {
    Rank(Fifo(s, s.book[x].write), s.book[x].home)
  }

  lemma ClearedRank(k: Tunables, s: Sched, id: nat, write: bool, out: set<nat>, dir: bool, h: nat)
    requires BothOk(k, s, write, out) && At(s.rqs, id).write == write
    ensures Rank(Fifo(Cleared(s, id), dir), h) <= Rank(Fifo(s, dir), h)
  {
    var a := Alias(s.rqs, LaneOf(s, write).sorted, At(s.rqs, id).sector);
    if a.Some? {
      assert a.id in LaneOf(s, write).fifo;
      Moved(s, a.id, write);
      RankWithout(Fifo(s, dir), a.id, h);
    }
  }

  lemma AddRank(k: Tunables, s: Sched, id: nat, sector: nat, write: bool, dir: bool, h: nat)
    requires BothOk(k, s, write, {}) && id !in s.rqs && h in s.rqs
    ensures Rank(Fifo(AddRequest(k, s, id, sector, write), dir), h) <= Rank(Fifo(s, dir), h)
  {
    var rq := Rq(sector, write, s.now + Expire(k, write));
    var n := s.(rqs := s.rqs[id := rq]);
    Unknown(k, s, id, write);
    NewRqOk(k, s, id, rq, write);
    ClearedOk(k, n, id, write, {});
    ClearedRank(k, n, id, write, {}, dir, h);
    AddShape(k, s, id, sector, write);
    if write == dir { RankAppend(Fifo(Cleared(n, id), dir), id, h); }
  }

  lemma FrontRank(k: Tunables, s: Sched, id: nat, sector: nat, write: bool, dir: bool, h: nat)
    requires BothOk(k, s, write, {}) && id in LaneOf(s, write).fifo
    ensures Rank(Fifo(FrontMerged(s, id, sector), dir), h) <= Rank(Fifo(s, dir), h)
  {
    var rqs := s.rqs[id := s.rqs[id].(sector := sector)];
    var l := LaneOf(s, write);
    var b := PutLane(s, write, l.(sorted := Without(l.sorted, id))).(rqs := rqs);
    PulledLane(s.rqs, l, id, write, s.now + Expire(k, write), sector);
    LaneFrame(s.rqs, rqs, LaneOf(s, !write), !write, s.now + Expire(k, !write), s.now + Expire(k, !write), {});
    ClearedRank(k, b, id, write, {id}, dir, h);
    AddRbShape(b, id, write);
    assert FrontMerged(s, id, sector) == AddRb(b, id);
  }

  /** Merging `next` into `req` moves nothing back, unless it is `next` whose place counts. */
  lemma MergeRank(k: Tunables, s: Sched, req: nat, next: nat, write: bool, dir: bool, h: nat)
    requires BothOk(k, s, write, {}) && req in LaneOf(s, write).fifo && next in LaneOf(s, write).fifo &&
             req != next && h != next
    ensures Rank(Fifo(MergedRequests(s, req, next), dir), h) <= Rank(Fifo(s, dir), h)
  {
    MergeShape(s, req, next, write);
    if write == dir {
      RankWithout(Fifo(s, dir), next, h);
      if At(s.rqs, next).expiry < At(s.rqs, req).expiry {
        EarlierAhead(s.rqs, Fifo(s, dir), req, next);
        RankTakePlace(Fifo(s, dir), req, next, h);
      }
    }
  }

  lemma EarlierAhead(rqs: map<nat, Rq>, l: seq<nat>, req: nat, next: nat)
    requires ByExpiry(rqs, l) && req in l && next in l && At(rqs, next).expiry < At(rqs, req).expiry
    ensures Pos(l, next) < Pos(l, req)
  {
  }

  /** The operation does not merge the request `x` is in into one that expires with it, more than a place behind. */
  predicate KeepsPlace(s: Sched, op: Op, x: nat)
    requires x in s.book
  {
    op.Merge? && op.next == s.book[x].home ==>
      var fifo := Fifo(s, s.book[x].write);
      At(s.rqs, op.next).expiry < At(s.rqs, op.req).expiry || Pos(fifo, op.req) <= Pos(fifo, op.next) + 1
  }

  /** The home of a merged request. */
  lemma HomeMerged(s: Sched, req: nat, next: nat, x: nat)
    requires x in s.book
    ensures var t := MergedRequests(s, req, next);
            x in t.book && t.book[x].home == if s.book[x].home == next then req else s.book[x].home
  {
  }

  lemma MergeKeeps(k: Tunables, s: Sched, req: nat, next: nat, x: nat)
    requires Inv(k, s) && Enabled(s, Merge(req, next)) && x in s.book
    ensures var t := MergedRequests(s, req, next);
            x in t.book && (Place(t, x) <= Place(s, x) <==> KeepsPlace(s, Merge(req, next), x))
  {
    var write := s.rqs[req].write;
    Flip(k, s, true);
    HomeMerged(s, req, next, x);
    if s.book[x].home == next {
      assert Kept(s.rqs, Elems(s.rd.fifo), Elems(s.wr.fifo), s.dispatched, s.book[x]);
      MergeOk(k, s, req, next, write);
      var i, j := Pos(Fifo(s, write), next), Pos(Fifo(s, write), req);
      MergePlace(k, s, write, i, j);
      StaysIn(k, s, req, next, write);
    } else {
      MergeRank(k, s, req, next, write, s.book[x].write, s.book[x].home);
    }
  }

  lemma StaysIn(k: Tunables, s: Sched, req: nat, next: nat, dir: bool)
    requires BothOk(k, s, dir, {}) && req in Fifo(s, dir) && next in Fifo(s, dir) && req != next
    ensures req in Fifo(MergedRequests(s, req, next), dir)
  {
    MergeMoves(k, s, req, next, dir);
    assert req in Elems(Fifo(MergedRequests(s, req, next), dir));
  }

  /** An operation other than dispatch moves a request back exactly if it merges it so. */
  lemma OtherPlace(k: Tunables, s: Sched, op: Op, x: nat)
    requires Inv(k, s) && Enabled(s, op) && !op.Turn? && x in s.book
    ensures var t := Apply(k, s, op);
            && x in t.book && (Place(t, x) <= Place(s, x) <==> KeepsPlace(s, op, x))
            && t.batching == s.batching && t.starved == s.starved
  {
    Flip(k, s, true);
    var dir, h := s.book[x].write, s.book[x].home;
    assert Kept(s.rqs, Elems(s.rd.fifo), Elems(s.wr.fifo), s.dispatched, s.book[x]);
    match op
    case Add(id, sector, write) =>
      AddParts(k, s, id, sector, write);
      AddRank(k, s, id, sector, write, dir, h);
    case Front(id, sector) =>
      var a := FrontSends(k, s, id, sector, s.rqs[id].write);
      FrontRank(k, s, id, sector, s.rqs[id].write, dir, h);
    case Merge(req, next) =>
      MergeKeeps(k, s, req, next, x);
      MergeMoves(k, s, req, next, s.rqs[req].write);
    case Tick(now) =>
  }

  // ---------------------------------------------------------------- what a dispatch call sends

  /** The cached request of a direction. */
  function NextIn(s: Sched, dir: bool): Next { if dir then s.wr.next else s.rd.next }

  /** A batch is over: nothing is cached, or enough has been sent. */
  predicate BatchOver(k: Tunables, s: Sched) {
    (s.rd.next.None? && s.wr.next.None?) || s.batching >= k.fifoBatch
  }

  /** The direction whose turn it is: the one that waits, and of both the writes once they are starved. */
  predicate DirectionDue(k: Tunables, s: Sched, dir: bool) {
    && Fifo(s, dir) != []
    && (Fifo(s, !dir) != [] ==> (dir <==> s.starved >= Unsigned(k.writesStarved)))
  }

  /**
   * In every reachable state, a dispatch call that starts a batch of reads or of writes sends the head of
   * that FIFO if its time is over, and otherwise goes on from the cached request, if there is one.
   */
  lemma BatchStart(k: Tunables, start: int, before: seq<Op>, s: Sched, dir: bool)
    requires IsRun(k, Init(start), before, s) && BatchOver(k, s) && DirectionDue(k, s, dir)
    ensures var t, head := Dispatch(k, s), Fifo(s, dir)[0];
            && head in s.rqs && t.batching == 1
            && (s.rqs[head].expiry < s.now ==> t.dispatched == s.dispatched + [head])
            && (s.rqs[head].expiry >= s.now ==>
                  t.dispatched == s.dispatched + [if NextIn(s, dir).Some? then NextIn(s, dir).id else head])
            && t.starved == if dir then 0 else if s.wr.fifo == [] then s.starved else s.starved + 1
  {
    InitInv(k, start);
    RunKeeps(k, Init(start), before, s);
    Flip(k, s, true);
    assert Fifo(s, dir)[0] in LaneOf(s, dir).fifo;
    var starved := NewBatchDue(k, s, dir);
    BatchSends(s, dir, starved);
  }

  lemma NewBatchDue(k: Tunables, s: Sched, dir: bool) returns (starved: nat)
    requires CountersOk(k, s) && BatchOver(k, s) && DirectionDue(k, s, dir)
    ensures Dispatch(k, s) == NewBatch(s, dir, starved)
    ensures starved == if dir then 0 else if s.wr.fifo == [] then s.starved else s.starved + 1
  {
    if dir {
      starved := 0;
      WritesNext(k, s);
    } else if s.wr.fifo == [] {
      starved := s.starved;
      ReadsAlone(k, s);
    } else {
      starved := s.starved + 1;
      ReadsNext(k, s);
    }
  }

  lemma BatchSends(s: Sched, dir: bool, starved: nat)
    requires Fifo(s, dir) != []
    ensures var t, head, next := NewBatch(s, dir, starved), Fifo(s, dir)[0], NextIn(s, dir);
            t.dispatched == s.dispatched + [if At(s.rqs, head).expiry < s.now || next.None? then head else next.id]
  {
  }

  /** A batch that is not over goes on with the request that is cached, and with the same direction. */
  lemma BatchGoesOn(k: Tunables, start: int, before: seq<Op>, s: Sched, dir: bool)
    requires IsRun(k, Init(start), before, s) && !BatchOver(k, s) && NextIn(s, dir).Some?
    ensures var t, id := Dispatch(k, s), NextIn(s, dir).id;
            && id in Fifo(s, dir) && t.dispatched == s.dispatched + [id]
            && t.batching == s.batching + 1 && t.starved == s.starved
  {
    InitInv(k, start);
    RunKeeps(k, Init(start), before, s);
    Flip(k, s, true);
    assert NextIn(s, dir).id in LaneOf(s, dir).fifo;
    Moved(s, NextIn(s, dir).id, dir);
  }

  /** Of the requests of `l` that lie behind the sector, `n` is the first; it is none if there are none. */
  ghost predicate FirstBehind(rqs: map<nat, Rq>, l: seq<nat>, sector: nat, n: Next) {
    match n
    case None => forall x :: x in l ==> At(rqs, x).sector <= sector
    case Some(id) =>
      && id in l && At(rqs, id).sector > sector
      && forall x :: x in l && At(rqs, x).sector > sector ==> At(rqs, x).sector >= At(rqs, id).sector
  }

  lemma LatterIsFirst(rqs: map<nat, Rq>, l: seq<nat>, id: nat, rest: seq<nat>)
    requires BySector(rqs, l) && id in l && forall x :: x in rest <==> x in l && x != id
    ensures FirstBehind(rqs, rest, At(rqs, id).sector, Latter(l, id))
  {
    var p := Pos(l, id);
    forall x | x in rest && At(rqs, x).sector > At(rqs, id).sector
      ensures p + 1 < |l| && At(rqs, x).sector >= At(rqs, l[p + 1]).sector
    {
      assert l[Pos(l, x)] == x && l[p] == id;
    }
  }

  /**
   * The sweep: in every run, once a dispatch call has sent a request, the one cached in its direction is the
   * next behind it in the order of sectors, and none is in the other direction.
   */
  lemma SweepsUp(k: Tunables, start: int, before: seq<Op>, s: Sched, x: nat)
    requires IsRun(k, Init(start), before, s) && Dispatch(k, s).dispatched == s.dispatched + [x]
    ensures x in s.rqs
    ensures var t, dir := Dispatch(k, s), s.rqs[x].write;
            FirstBehind(s.rqs, Fifo(t, dir), s.rqs[x].sector, NextIn(t, dir)) && NextIn(t, !dir).None?
  {
    InitInv(k, start);
    RunKeeps(k, Init(start), before, s);
    var some, id, write, batching, starved := Sent(k, s);
    Flip(k, s, true);
    if some {
      Moved(s, id, write);
      LastSame(s.dispatched, id, x);
      SweepLane(k, s, id, write);
    } else {
      NotLonger(s.dispatched, x);
    }
  }

  lemma LastSame(l: seq<nat>, a: nat, b: nat)
    ensures l + [a] == l + [b] <==> a == b
  {
    assert (l + [a])[|l|] == a && (l + [b])[|l|] == b;
  }

  lemma NotLonger(l: seq<nat>, a: nat)
    ensures l != l + [a]
  {
    assert |l + [a]| == |l| + 1;
  }

  lemma SweepLane(k: Tunables, s: Sched, id: nat, write: bool)
    requires BothOk(k, s, write, {}) && id in Fifo(s, write)
    ensures var t := MoveRequest(s, id);
            FirstBehind(s.rqs, Fifo(t, write), At(s.rqs, id).sector, NextIn(t, write)) && NextIn(t, !write).None?
  {
    var l := LaneOf(s, write);
    Moved(s, id, write);
    WithoutAt(l.fifo, id);
    assert id in l.sorted;
    if Latter(l.sorted, id).Some? { LatterOther(s.rqs, l.sorted, id); }
    LatterIsFirst(s.rqs, l.sorted, id, Without(l.fifo, id));
  }

  lemma LatterOther(rqs: map<nat, Rq>, l: seq<nat>, id: nat)
    requires BySector(rqs, l) && id in l && Latter(l, id).Some?
    ensures Latter(l, id).id != id
  {
    assert At(rqs, l[Pos(l, id)]).sector < At(rqs, l[Pos(l, id) + 1]).sector;
  }

  /** A merge of the cached request into another passes the cache on to the next behind it. */
  lemma MergePassesOn(k: Tunables, start: int, before: seq<Op>, s: Sched, req: nat, next: nat)
    requires IsRun(k, Init(start), before, s) && Enabled(s, Merge(req, next))
    ensures var t, dir := Apply(k, s, Merge(req, next)), s.rqs[next].write;
            if NextIn(s, dir) == Some(next) then FirstBehind(s.rqs, Fifo(t, dir), s.rqs[next].sector, NextIn(t, dir))
            else NextIn(t, dir) == NextIn(s, dir)
  {
    InitInv(k, start);
    RunKeeps(k, Init(start), before, s);
    Flip(k, s, true);
    var dir := s.rqs[next].write;
    var l := LaneOf(s, dir);
    MergeShape(s, req, next, dir);
    assert next in l.fifo && req in l.fifo && next in l.sorted;
    TakePlaceAt(l.fifo, req, next);
    WithoutAt(l.fifo, next);
    LatterIsFirst(s.rqs, l.sorted, next, Fifo(Apply(k, s, Merge(req, next)), dir));
  }

  // ---------------------------------------------------------------- dispatch calls

  /** How many batches of the other direction may come before one of this: of writes, at most one. */
  function OthersFirst(k: Tunables, dir: bool): nat { if dir then Patience(k) else 1 }

  /** How many of them have been. */
  function OthersGone(k: Tunables, starved: nat, dir: bool): nat {
    if dir then starved else if starved >= Patience(k) then 0 else 1
  }

  /** An upper bound on the dispatch calls until the first `n` requests of a FIFO, once expired, are gone. */
  function Waiting(k: Tunables, s: Sched, dir: bool, n: nat): nat
    requires CountersOk(k, s)
  {
    Potential(n, BatchLimit(k), OthersFirst(k, dir), s.batching, OthersGone(k, s.starved, dir))
  }

  /** The step from `s` to `t` has brought `h` closer to its turn. */
  predicate Closer(k: Tunables, s: Sched, t: Sched, dir: bool, h: nat) {
    && CountersOk(k, s) && CountersOk(k, t)
    && Waiting(k, t, dir, Rank(Fifo(t, dir), h)) < Waiting(k, s, dir, Rank(Fifo(s, dir), h))
  }

  lemma MoveRank(s: Sched, id: nat, write: bool, dir: bool, h: nat)
    requires At(s.rqs, id).write == write && Distinct(Fifo(s, dir))
    ensures Rank(Fifo(MoveRequest(s, id), dir), h) <= Rank(Fifo(s, dir), h)
    ensures write != dir ==> Fifo(MoveRequest(s, id), dir) == Fifo(s, dir)
    ensures write == dir && h in Fifo(s, dir) && Fifo(s, dir)[0] == id ==>
            Rank(Fifo(MoveRequest(s, id), dir), h) == Rank(Fifo(s, dir), h) - 1
  {
    Moved(s, id, write);
    RankWithout(Fifo(s, dir), id, h);
  }

  /** A batch goes on, in whichever direction. */
  lemma OneCloser(k: Tunables, s: Sched, t: Sched, dir: bool, h: nat)
    requires CountersOk(k, s) && h in Fifo(s, dir) && s.batching < BatchLimit(k)
    requires t.batching == s.batching + 1 && t.starved == s.starved && Rank(Fifo(t, dir), h) <= Rank(Fifo(s, dir), h)
    ensures Closer(k, s, t, dir, h)
  {
    var first, gone := OthersFirst(k, dir), OthersGone(k, s.starved, dir);
    FewerDue(Rank(Fifo(t, dir), h), Rank(Fifo(s, dir), h), BatchLimit(k), first, s.batching + 1, gone);
    OneMore(Rank(Fifo(s, dir), h), BatchLimit(k), first, s.batching, gone);
  }

  lemma BatchPlace(k: Tunables, s: Sched, dir: bool, h: nat)
    requires LanesOk(k, s) && CountersOk(k, s) && h in Fifo(s, dir) && Batched(s).Some? && s.batching < k.fifoBatch
    ensures Closer(k, s, Dispatch(k, s), dir, h)
  {
    var id := Batched(s).id;
    Flip(k, s, true);
    assert id in Fifo(s, s.wr.next.Some?);
    MoveRank(s, id, s.wr.next.Some?, dir, h);
    OneCloser(k, s, Dispatch(k, s), dir, h);
  }

  /** A batch of the other direction starts. */
  lemma OtherCloser(k: Tunables, s: Sched, t: Sched, dir: bool, h: nat)
    requires CountersOk(k, s) && h in Fifo(s, dir) && Fifo(t, dir) == Fifo(s, dir) && t.batching == 1
    requires t.starved <= Patience(k) && OthersGone(k, s.starved, dir) < OthersFirst(k, dir)
    requires OthersGone(k, t.starved, dir) == OthersGone(k, s.starved, dir) + 1
    ensures Closer(k, s, t, dir, h)
  {
    ReadsPreferred(Rank(Fifo(s, dir), h), BatchLimit(k), OthersFirst(k, dir), s.batching,
                   OthersGone(k, s.starved, dir));
  }

  lemma OtherBatch(k: Tunables, s: Sched, dir: bool, starved: nat, h: nat)
    requires LanesOk(k, s) && CountersOk(k, s) && h in Fifo(s, dir) && Fifo(s, !dir) != []
    requires starved <= Patience(k) && OthersGone(k, s.starved, dir) < OthersFirst(k, dir)
    requires OthersGone(k, starved, dir) == OthersGone(k, s.starved, dir) + 1
    ensures Closer(k, s, NewBatch(s, !dir, starved), dir, h)
  {
    var id := Choose(s, !dir);
    assert id in Fifo(s, !dir);
    MoveRank(s, id, !dir, dir, h);
    OtherCloser(k, s, NewBatch(s, !dir, starved), dir, h);
  }

  /** Ahead of an expired request the head of the FIFO has expired too. */
  lemma ExpiredHead(rqs: map<nat, Rq>, l: seq<nat>, h: nat, now: int)
    requires ByExpiry(rqs, l) && h in l && At(rqs, h).expiry < now
    ensures l != [] && At(rqs, l[0]).expiry < now
  {
    assert l[Pos(l, h)] == h;
  }

  /** The fewer batches of the other direction have been, the longer the wait. */
  lemma MoreGone(n: nat, limit: nat, first: nat, batching: nat, gone: nat)
    requires batching <= limit && gone <= first && limit > 0
    ensures Potential(n, limit, first, batching, gone) <= Potential(n, limit, first, batching, 0)
  {
    if n > 0 {
      MulMono(Batches(n, first, first - gone) - 1, Batches(n, first, first) - 1, limit);
    }
  }

  /** A batch of this direction starts, with the head of the FIFO. */
  lemma OwnCloser(k: Tunables, s: Sched, t: Sched, dir: bool, h: nat)
    requires CountersOk(k, s) && h in Fifo(s, dir) && t.batching == 1 && t.starved <= Patience(k)
    requires Rank(Fifo(t, dir), h) == Rank(Fifo(s, dir), h) - 1
    ensures Closer(k, s, t, dir, h)
  {
    var n, first := Rank(Fifo(s, dir), h), OthersFirst(k, dir);
    WriteServed(n, BatchLimit(k), first, s.batching, OthersGone(k, s.starved, dir));
    MoreGone(n - 1, BatchLimit(k), first, 1, OthersGone(k, t.starved, dir));
  }

  lemma OwnBatch(k: Tunables, s: Sched, dir: bool, starved: nat, h: nat)
    requires LanesOk(k, s) && CountersOk(k, s) && h in Fifo(s, dir) && At(s.rqs, h).expiry < s.now
    requires starved <= Patience(k)
    ensures Fifo(s, dir) != []
    ensures Closer(k, s, NewBatch(s, dir, starved), dir, h)
  {
    ExpiredHead(s.rqs, Fifo(s, dir), h, s.now);
    var id := Fifo(s, dir)[0];
    assert Choose(s, dir) == id && id in Fifo(s, dir);
    MoveRank(s, id, dir, dir, h);
    OwnCloser(k, s, NewBatch(s, dir, starved), dir, h);
  }

  /** A dispatch call that starts a batch brings an expired write closer to its turn. */
  lemma WritePlace(k: Tunables, s: Sched, h: nat)
    requires LanesOk(k, s) && CountersOk(k, s) && h in s.wr.fifo && At(s.rqs, h).expiry < s.now && BatchOver(k, s)
    ensures Closer(k, s, Dispatch(k, s), true, h)
  {
    var dir := s.rd.fifo == [] || s.starved >= Patience(k);
    var starved := NewBatchDue(k, s, dir);
    if dir {
      OwnBatch(k, s, true, starved, h);
    } else {
      OtherBatch(k, s, true, starved, h);
    }
  }

  /** And an expired read, unless writes always go first. */
  lemma ReadPlace(k: Tunables, s: Sched, h: nat)
    requires LanesOk(k, s) && CountersOk(k, s) && h in s.rd.fifo && At(s.rqs, h).expiry < s.now && BatchOver(k, s)
    requires Patience(k) > 0
    ensures Closer(k, s, Dispatch(k, s), false, h)
  {
    var dir := s.wr.fifo != [] && s.starved >= Patience(k);
    var starved := NewBatchDue(k, s, dir);
    if dir {
      OtherBatch(k, s, false, starved, h);
    } else {
      OwnBatch(k, s, false, starved, h);
    }
  }

  /** Requests of this direction get their turn: writes always, reads if any are let go before writes. */
  predicate GetsTurn(k: Tunables, dir: bool) { dir || Patience(k) > 0 }

  lemma TurnPlace(k: Tunables, s: Sched, dir: bool, h: nat)
    requires LanesOk(k, s) && CountersOk(k, s) && h in Fifo(s, dir) && At(s.rqs, h).expiry < s.now && GetsTurn(k, dir)
    ensures Closer(k, s, Dispatch(k, s), dir, h)
  {
    if Batched(s).Some? && s.batching < k.fifoBatch {
      BatchPlace(k, s, dir, h);
    } else if dir {
      WritePlace(k, s, h);
    } else {
      ReadPlace(k, s, h);
    }
  }

  // ---------------------------------------------------------------- runs

  /** No merge of the run costs `x` its place. */
  predicate RunKeepsPlace(k: Tunables, s: Sched, ops: seq<Op>, x: nat)
    decreases |ops|
  {
    ops == [] || (x in s.book && KeepsPlace(s, ops[0], x) && RunKeepsPlace(k, Apply(k, s, ops[0]), ops[1..], x))
  }

  /** While it waits, the request that `x` is in is due no later than `x` was. */
  lemma HomeDue(s: Sched, x: nat)
    requires BooksOk(s) && x in s.book
    ensures Place(s, x) == 0 ==> s.book[x].home in s.dispatched
    ensures Place(s, x) > 0 ==> s.book[x].home in Fifo(s, s.book[x].write)
    ensures Place(s, x) > 0 ==> At(s.rqs, s.book[x].home).expiry <= s.book[x].due
  {
    assert Kept(s.rqs, Elems(s.rd.fifo), Elems(s.wr.fifo), s.dispatched, s.book[x]);
    var fifo := Fifo(s, s.book[x].write);
    assert s.book[x].home in fifo ==> s.book[x].home in Elems(fifo);
  }

  /** Once sent, a request stays sent. */
  lemma GoneStays(k: Tunables, s: Sched, op: Op, x: nat)
    requires Inv(k, s) && Enabled(s, op) && x in s.book && Place(s, x) == 0
    ensures var t := Apply(k, s, op); x in t.book && Place(t, x) == 0
  {
    if op.Turn? {
      var some, id, write, batching, starved := Sent(k, s);
      if some {
        Flip(k, s, true);
        MoveRank(s, id, write, s.book[x].write, s.book[x].home);
      }
    } else {
      HomeDue(s, x);
      assert KeepsPlace(s, op, x);
      OtherPlace(k, s, op, x);
    }
  }

  lemma NoLater(k: Tunables, s: Sched, t: Sched, dir: bool, n: nat, m: nat)
    requires CountersOk(k, s) && t.batching == s.batching && t.starved == s.starved && n <= m
    ensures CountersOk(k, t) && Waiting(k, t, dir, n) <= Waiting(k, s, dir, m)
  {
    FewerDue(n, m, BatchLimit(k), OthersFirst(k, dir), s.batching, OthersGone(k, s.starved, dir));
  }

  lemma StepPlace(k: Tunables, s: Sched, op: Op, x: nat)
    requires Inv(k, s) && Enabled(s, op) && x in s.book && s.book[x].due < s.now && GetsTurn(k, s.book[x].write)
    requires Place(s, x) > 0 && KeepsPlace(s, op, x)
    ensures var t := Apply(k, s, op);
            && CountersOk(k, t) && x in t.book && s.now <= t.now
            && Waiting(k, t, s.book[x].write, Place(t, x)) + Turns([op]) <= Waiting(k, s, s.book[x].write, Place(s, x))
  {
    HomeDue(s, x);
    assert [op][1..] == [];
    NowGrows(k, s, op);
    if op.Turn? {
      TurnPlace(k, s, s.book[x].write, s.book[x].home);
    } else {
      OtherPlace(k, s, op, x);
      StepRemembers(k, s, op, x);
      NoLater(k, s, Apply(k, s, op), s.book[x].write, Place(Apply(k, s, op), x), Place(s, x));
    }
  }

  lemma {:induction false} RunPlace(k: Tunables, s: Sched, ops: seq<Op>, t: Sched, x: nat)
    requires Inv(k, s) && IsRun(k, s, ops, t) && x in s.book && s.book[x].due < s.now && GetsTurn(k, s.book[x].write)
    requires RunKeepsPlace(k, s, ops, x)
    ensures Inv(k, t) && x in t.book && t.book[x].write == s.book[x].write
    ensures var dir := s.book[x].write;
            Place(t, x) == 0 || Waiting(k, t, dir, Place(t, x)) + Turns(ops) <= Waiting(k, s, dir, Place(s, x))
    ensures Place(s, x) == 0 ==> Place(t, x) == 0
    decreases |ops|
  {
    if ops != [] {
      var u := Apply(k, s, ops[0]);
      StepInv(k, s, ops[0]);
      StepRemembers(k, s, ops[0], x);
      if Place(s, x) == 0 {
        GoneStays(k, s, ops[0], x);
      } else {
        StepPlace(k, s, ops[0], x);
      }
      NowGrows(k, s, ops[0]);
      RunPlace(k, u, ops[1..], t, x);
      TurnsCons(ops);
    }
  }

  lemma NowGrows(k: Tunables, s: Sched, op: Op)
    requires Enabled(s, op)
    ensures s.now <= Apply(k, s, op).now
  {
    match op
    case Add(id, sector, write) => AddParts(k, s, id, sector, write);
    case Front(id, sector) =>
    case Merge(req, next) => MergeShape(s, req, next, At(s.rqs, next).write);
    case Turn =>
    case Tick(now) =>
  }

  /** The dispatch calls within which the `n`th request of a FIFO is sent once it has expired. */
  function PlaceTurns(k: Tunables, dir: bool, n: nat): nat { n * (OthersFirst(k, dir) + 1) * BatchLimit(k) + 1 }

  lemma NoneLeft(k: Tunables, s: Sched, dir: bool, n: nat, t: Sched, m: nat, turns: nat)
    requires CountersOk(k, s) && CountersOk(k, t) && turns >= PlaceTurns(k, dir, n)
    requires m == 0 || Waiting(k, t, dir, m) + turns <= Waiting(k, s, dir, n)
    ensures m == 0
  {
    PotentialBound(n, BatchLimit(k), OthersFirst(k, dir), s.batching, OthersGone(k, s.starved, dir));
    PotentialZero(m, BatchLimit(k), OthersFirst(k, dir), t.batching, OthersGone(k, t.starved, dir));
  }

  /**
   * How long an expired request can still wait, by its place.  From any reachable state, with n - 1 requests
   * ahead of it in the FIFO of its direction, it is dispatched, by itself or in the request it was merged
   * into, within n * (writes_starved + 1) * fifo_batch + 1 dispatch calls if it is a write, and within
   * n * 2 * fifo_batch + 1 if it is a read and writes_starved is not zero, whatever arrives and merges in
   * between, as long as it is not merged into a request that expires with it and is more than one place behind.
   */
  lemma PlaceBound(k: Tunables, start: int, before: seq<Op>, s: Sched, ops: seq<Op>, t: Sched, x: nat)
    requires IsRun(k, Init(start), before, s) && x in s.book && s.book[x].due < s.now
    requires s.book[x].write || Unsigned(k.writesStarved) > 0
    requires IsRun(k, s, ops, t) && RunKeepsPlace(k, s, ops, x)
    requires Turns(ops) >= PlaceTurns(k, s.book[x].write, Place(s, x))
    ensures x in t.book && t.book[x].home in t.dispatched
  {
    InitInv(k, start);
    RunKeeps(k, Init(start), before, s);
    RunPlace(k, s, ops, t, x);
    NoneLeft(k, s, s.book[x].write, Place(s, x), t, Place(t, x), Turns(ops));
    HomeDue(t, x);
  }

  // ---------------------------------------------------------------- why the condition on merges

  /** One write at a time, and no read preferred: the bound for the first place is two calls. */
  const HASTY := Tunables(10, 10, 1, 0)

  function Ids(n: nat): (l: seq<nat>)
    ensures |l| == n && forall i :: 0 <= i < n ==> l[i] == i + 1
  {
    seq(n, i => i + 1)
  }

  /** That many writes of eight sectors, numbered from one, arrive at once, leaving the first eight sectors free. */
  function Arrivals(n: nat): seq<Op> {
    if n == 0 then [] else Arrivals(n - 1) + [Add(n, 8 * n, true)]
  }

  function Calls(n: nat): seq<Op> {
    if n == 0 then [] else Calls(n - 1) + [Turn]
  }

  /** Writes that expire together wait in this order. */
  predicate Queued(s: Sched, fifo: seq<nat>, now: int, dispatched: seq<nat>) {
    && s.wr.fifo == fifo && s.now == now && s.dispatched == dispatched
    && (forall x :: x in fifo ==> x in s.rqs && s.rqs[x].write && s.rqs[x].expiry == 10)
  }

  /** The first `n` writes have arrived, and nothing else has happened. */
  ghost predicate Arrived(s: Sched, n: nat) {
    && Queued(s, Ids(n), 0, []) && s.wr.next.None? && s.rd.next.None? && s.rd.sorted == [] && s.batching == 0
    && (forall x :: x in s.rqs ==> 1 <= x <= n && s.rqs[x].sector == 8 * x)
    && (forall x :: x in s.book ==> 1 <= x <= n) && s.wr.sorted == Ids(n)
    && (n > 0 ==> 1 in s.book && s.book[1] == Entry(1, 10, true))
  }

  lemma TailCat(a: seq<Op>, b: seq<Op>)
    requires a != []
    ensures (a + b)[0] == a[0] && (a + b)[1..] == a[1..] + b
  {
  }

  lemma {:induction false} RunCat(k: Tunables, s: Sched, a: seq<Op>, u: Sched, b: seq<Op>, t: Sched)
    requires IsRun(k, s, a, u) && IsRun(k, u, b, t)
    ensures IsRun(k, s, a + b, t)
    decreases |a|
  {
    if a == [] {
      assert a + b == b;
    } else {
      TailCat(a, b);
      RunCat(k, Apply(k, s, a[0]), a[1..], u, b, t);
    }
  }

  lemma OneRun(k: Tunables, s: Sched, op: Op)
    requires Enabled(s, op)
    ensures IsRun(k, s, [op], Apply(k, s, op))
  {
    assert [op][1..] == [];
  }

  /** Where no request holds the sector, nothing is sent and nothing is cached. */
  lemma UnaliasedAdd(k: Tunables, s: Sched, id: nat, sector: nat)
    requires id !in s.wr.sorted && forall x :: x in s.wr.sorted ==> At(s.rqs, x).sector != sector
    ensures var t := AddRequest(k, s, id, sector, true);
            t.rd == s.rd && t.wr.next == s.wr.next && t.dispatched == s.dispatched && t.batching == s.batching
  {
    var s1 := s.(rqs := s.rqs[id := Rq(sector, true, s.now + k.writeExpire)]);
    assert Cleared(s1, id) == s1;
    AddShape(k, s, id, sector, true);
    AddParts(k, s, id, sector, true);
  }

  lemma WriteArrives(s: Sched, n: nat, t: Sched)
    requires Arrived(s, n) && t == AddRequest(HASTY, s, n + 1, 8 * (n + 1), true)
    ensures Arrived(t, n + 1)
  {
    var id, sector := n + 1, 8 * (n + 1);
    FreeSector(s, n, sector);
    FreeAdd(HASTY, s, id, sector);
    AddParts(HASTY, s, id, sector, true);
    UnaliasedAdd(HASTY, s, id, sector);
    AllThere(s, n);
    AtTheEnd(t.rqs, n, sector);
    assert Ids(n) + [id] == Ids(n + 1);
  }

  lemma AllThere(s: Sched, n: nat)
    requires Arrived(s, n)
    ensures forall x :: 1 <= x <= n ==> x in s.rqs && s.rqs[x].sector == 8 * x
  {
    forall x | 1 <= x <= n ensures x in s.rqs && s.rqs[x].sector == 8 * x {
      assert Ids(n)[x - 1] == x;
      assert x in s.wr.fifo;
    }
  }

  lemma FreeSector(s: Sched, n: nat, sector: nat)
    requires Arrived(s, n) && (sector == 0 || sector > 8 * n)
    ensures forall x :: x in s.wr.sorted ==> x in s.rqs && 1 <= x <= n && At(s.rqs, x).sector != sector
  {
    forall x | x in s.wr.sorted ensures x in s.rqs && 1 <= x <= n && At(s.rqs, x).sector != sector {
      assert x in s.wr.fifo;
    }
  }

  /** A sector behind those of all other writes. */
  lemma AtTheEnd(rqs: map<nat, Rq>, n: nat, sector: nat)
    requires sector > 8 * n && forall x :: 1 <= x <= n ==> x in rqs && rqs[x].sector == 8 * x
    ensures Inserted(Ids(n), Slot(rqs, Ids(n), sector), n + 1) == Ids(n) + [n + 1]
  {
    assert Slot(rqs, Ids(n), sector) == n;
  }

  /** One more write takes the sectors before all others: it is last in the FIFO and first in the order. */
  ghost predicate Crossed(s: Sched, m: nat) {
    && m >= 2 && s.wr.next.None? && s.rd.next.None? && 1 in s.book && s.book[1] == Entry(1, 10, true)
    && s.wr.sorted == [m] + Ids(m - 1) && m in s.rqs && s.rqs[m].sector == 0 && 1 in s.rqs && s.rqs[1].sector == 8
  }

  lemma LastArrives(s: Sched, n: nat, t: Sched)
    requires Arrived(s, n) && n > 0 && t == AddRequest(HASTY, s, n + 1, 0, true)
    ensures Queued(t, Ids(n + 1), 0, []) && Crossed(t, n + 1)
  {
    FreeSector(s, n, 0);
    FreeAdd(HASTY, s, n + 1, 0);
    AddParts(HASTY, s, n + 1, 0, true);
    UnaliasedAdd(HASTY, s, n + 1, 0);
    assert Slot(t.rqs, Ids(n), 0) == 0;
    assert Ids(n)[0] == 1 && 1 in Ids(n);
    assert Ids(n) + [n + 1] == Ids(n + 1);
  }

  lemma NoneArrived()
    ensures Arrived(Init(0), 0)
  {
    assert Ids(0) == [];
  }

  lemma OneArrives(u: Sched, n: nat) returns (s: Sched)
    requires n > 0 && Arrived(u, n - 1)
    ensures IsRun(HASTY, u, [Add(n, 8 * n, true)], s) && Arrived(s, n)
  {
    s := AddRequest(HASTY, u, n, 8 * n, true);
    WriteArrives(u, n - 1, s);
    OneRun(HASTY, u, Add(n, 8 * n, true));
  }

  lemma {:induction false} AllArrive(n: nat) returns (s: Sched)
    ensures IsRun(HASTY, Init(0), Arrivals(n), s) && Arrived(s, n)
  {
    if n == 0 {
      s := Init(0);
      NoneArrived();
    } else {
      var u := AllArrive(n - 1);
      s := OneArrives(u, n);
      RunCat(HASTY, Init(0), Arrivals(n - 1), u, [Add(n, 8 * n, true)], s);
    }
  }

  /** No batch goes on: the last one was of one request, or nothing is cached. */
  predicate NoBatch(s: Sched) { s.batching == 1 || (s.wr.next.None? && s.rd.next.None?) }

  /** A dispatch call sends the head of the FIFO. */
  lemma HeadGoes(s: Sched, fifo: seq<nat>, sent: seq<nat>)
    requires Queued(s, fifo, 11, sent) && fifo != [] && NoBatch(s)
    ensures var t := Dispatch(HASTY, s);
            Queued(t, fifo[1..], 11, sent + [fifo[0]]) && t.batching == 1 && t.book == s.book
  {
    var id := fifo[0];
    assert id in fifo;
    Moved(s, id, true);
    WithoutTail(fifo, id);
    assert Dispatch(HASTY, s) == NewBatch(s, true, 0);
  }

  lemma HeadNext(u: Sched, fifo: seq<nat>, n: nat) returns (t: Sched)
    requires 0 < n <= |fifo| && Queued(u, fifo[n - 1..], 11, fifo[..n - 1])
    requires NoBatch(u)
    ensures IsRun(HASTY, u, [Turn], t) && Queued(t, fifo[n..], 11, fifo[..n]) && t.book == u.book && t.batching == 1
  {
    HeadGoes(u, fifo[n - 1..], fifo[..n - 1]);
    t := Dispatch(HASTY, u);
    assert fifo[n - 1..][1..] == fifo[n..] && fifo[..n - 1] + [fifo[n - 1]] == fifo[..n];
    OneRun(HASTY, u, Turn);
  }

  lemma {:induction false} HeadsGo(s: Sched, fifo: seq<nat>, n: nat) returns (t: Sched)
    requires Queued(s, fifo, 11, []) && n <= |fifo| && NoBatch(s)
    ensures IsRun(HASTY, s, Calls(n), t) && Queued(t, fifo[n..], 11, fifo[..n]) && t.book == s.book
    ensures NoBatch(t)
  {
    if n == 0 {
      t := s;
    } else {
      var u := HeadsGo(s, fifo, n - 1);
      t := HeadNext(u, fifo, n);
      RunCat(HASTY, s, Calls(n - 1), u, [Turn], t);
    }
  }

  lemma {:induction false} TurnsCat(a: seq<Op>, b: seq<Op>)
    ensures Turns(a + b) == Turns(a) + Turns(b)
    decreases |a|
  {
    if a == [] {
      assert a + b == b;
    } else {
      TailCat(a, b);
      TurnsCat(a[1..], b);
    }
  }

  lemma {:induction false} CallsTurns(n: nat)
    ensures Turns(Calls(n)) == n
  {
    if n > 0 {
      CallsTurns(n - 1);
      TurnsCat(Calls(n - 1), [Turn]);
      assert [Turn][1..] == [];
    }
  }

  /** Merging the first of the writes into the last leaves it behind all others. */
  lemma FirstIntoLast(s: Sched, m: nat)
    requires m >= 2 && Queued(s, Ids(m), 11, []) && 1 in s.book && s.book[1] == Entry(1, 10, true)
    ensures var t := MergedRequests(s, m, 1);
            && Queued(t, Ids(m)[1..], 11, []) && 1 in t.book && t.book[1].home == m
            && t.batching == s.batching && (s.wr.next.None? ==> t.wr.next.None?) && t.rd.next == s.rd.next
  {
    var l := Ids(m);
    assert l[0] == 1 && l[m - 1] == m && 1 in l && m in l;
    MergeShape(s, m, 1, true);
    WithoutTail(l, 1);
    HomeMerged(s, m, 1, 1);
    var t := MergedRequests(s, m, 1);
    assert t.batching == s.batching && t.dispatched == s.dispatched;
    assert LaneOf(t, false) == LaneOf(s, false);
  }

  /** The merge of the first into the last of three or more is what the bound rules out. */
  lemma NotKept(s: Sched, m: nat)
    requires m >= 3 && Queued(s, Ids(m), 11, []) && Crossed(s, m)
    ensures Place(s, 1) == 1 && Mergeable(s, m, 1) && !KeepsPlace(s, Merge(m, 1), 1)
  {
    var l := Ids(m);
    assert Ids(m - 1)[0] == 1 && s.wr.sorted[0] == m && s.wr.sorted[1] == 1;
    assert l[0] == 1 && l[m - 1] == m && 1 in l && m in l;
    PosUnique(l, 0);
    PosUnique(l, m - 1);
  }

  lemma HastyBound()
    ensures PlaceTurns(HASTY, true, 1) == 2
  {
    assert Patience(HASTY) == 0 && BatchLimit(HASTY) == 1;
  }

  lemma NotAmong(m: nat, n: nat)
    requires n + 1 < m
    ensures m !in Ids(m)[1..][..n]
  {
    var l := Ids(m)[1..][..n];
    forall i | 0 <= i < n ensures l[i] != m {
      assert l[i] == Ids(m)[i + 1];
    }
  }

  /** The clock passes the time of all of them. */
  lemma AllExpire(m: nat) returns (before: seq<Op>, s: Sched)
    requires m > 1
    ensures IsRun(HASTY, Init(0), before, s) && Queued(s, Ids(m), 11, []) && Crossed(s, m)
  {
    var a := AllArrive(m - 1);
    var last := [Add(m, 0, true)];
    var b := AddRequest(HASTY, a, m, 0, true);
    LastArrives(a, m - 1, b);
    OneRun(HASTY, a, last[0]);
    RunCat(HASTY, Init(0), Arrivals(m - 1), a, last, b);
    s := b.(now := 11);
    OneRun(HASTY, b, Tick(11));
    before := Arrivals(m - 1) + last + [Tick(11)];
    RunCat(HASTY, Init(0), Arrivals(m - 1) + last, b, [Tick(11)], s);
  }

  lemma MergedWaits(s: Sched, m: nat, n: nat) returns (ops: seq<Op>, t: Sched)
    requires n + 3 == m && Queued(s, Ids(m), 11, []) && Crossed(s, m) && Mergeable(s, m, 1)
    ensures IsRun(HASTY, s, ops, t) && Turns(ops) == n && ops != [] && ops[0] == Merge(m, 1)
    ensures 1 in t.book && t.book[1].home !in t.dispatched
  {
    FirstIntoLast(s, m);
    var u := MergedRequests(s, m, 1);
    OneRun(HASTY, s, Merge(m, 1));
    t := HeadsGo(u, Ids(m)[1..], n);
    ops := [Merge(m, 1)] + Calls(n);
    RunCat(HASTY, s, [Merge(m, 1)], u, Calls(n), t);
    CallsTurns(n);
    TurnsCat([Merge(m, 1)], Calls(n));
    assert [Merge(m, 1)][1..] == [];
    NotAmong(m, n);
  }

  /**
   * Why the condition: no number of dispatch calls is enough for a write that is tied and merged so.
   * For every n there is a run in which the write at the head of the FIFO, for which two calls are the
   * bound, is merged into the request just before it on the disk, which expires with it and arrived
   * last, and still waits after n calls.
   */
  lemma TiedMergeLate(n: nat) returns (before: seq<Op>, s: Sched, ops: seq<Op>, t: Sched)
    ensures IsRun(HASTY, Init(0), before, s) && 1 in s.book && s.book[1].write && s.book[1].due < s.now &&
            Place(s, 1) == 1
    ensures IsRun(HASTY, s, ops, t) && Turns(ops) == n && PlaceTurns(HASTY, true, 1) == 2
    ensures ops != [] && ops[0] == Merge(n + 3, 1) && At(s.rqs, n + 3).sector == 0 && At(s.rqs, 1).sector == 8
    ensures 1 in t.book && t.book[1].home !in t.dispatched && !RunKeepsPlace(HASTY, s, ops, 1)
  {
    before, s := AllExpire(n + 3);
    NotKept(s, n + 3);
    ops, t := MergedWaits(s, n + 3, n);
    HastyBound();
  }

  // ---------------------------------------------------------------- why the condition on writes_starved

  /** A read arrives where no read waits. */
  lemma ReadArrives(k: Tunables, s: Sched, id: nat, sector: nat)
    requires s.rd.sorted == []
    ensures var t := AddRequest(k, s, id, sector, false);
            t.wr == s.wr && t.rd.next == s.rd.next && t.dispatched == s.dispatched
  {
    var s1 := s.(rqs := s.rqs[id := Rq(sector, false, s.now + k.readExpire)]);
    assert Cleared(s1, id) == s1;
    AddShape(k, s, id, sector, false);
    AddParts(k, s, id, sector, false);
  }

  /** Writes and one read wait, and all of them expire. */
  lemma ReadExpires(m: nat) returns (before: seq<Op>, s: Sched)
    ensures IsRun(HASTY, Init(0), before, s) && Queued(s, Ids(m), 11, []) && NoBatch(s)
    ensures m + 1 in s.book && s.book[m + 1] == Entry(m + 1, 10, false)
  {
    var a := AllArrive(m);
    var last := [Add(m + 1, 0, false)];
    var b := AddRequest(HASTY, a, m + 1, 0, false);
    ReadArrives(HASTY, a, m + 1, 0);
    AddParts(HASTY, a, m + 1, 0, false);
    OneRun(HASTY, a, last[0]);
    RunCat(HASTY, Init(0), Arrivals(m), a, last, b);
    s := b.(now := 11);
    OneRun(HASTY, b, Tick(11));
    before := Arrivals(m) + last + [Tick(11)];
    RunCat(HASTY, Init(0), Arrivals(m) + last, b, [Tick(11)], s);
  }

  lemma NotSent(m: nat, n: nat)
    requires n <= m
    ensures m + 1 !in Ids(m)[..n]
  {
  }

  /** With writes_starved zero no number of dispatch calls bounds the wait of an expired read, first in its FIFO. */
  lemma ReadStarves(n: nat) returns (before: seq<Op>, s: Sched, ops: seq<Op>, t: Sched, x: nat)
    ensures IsRun(HASTY, Init(0), before, s) && IsRun(HASTY, s, ops, t) && Turns(ops) == n
    ensures x in s.book && !s.book[x].write && s.book[x].due < s.now && RunKeepsPlace(HASTY, s, ops, x)
    ensures x in t.book && t.book[x].home !in t.dispatched
  {
    x := n + 1;
    before, s := ReadExpires(n);
    t := HeadsGo(s, Ids(n), n);
    ops := Calls(n);
    CallsTurns(n);
    NotSent(n, n);
    OnlyTurns(n);
    TurnsKeepPlace(HASTY, s, ops, x);
  }

  lemma {:induction false} OnlyTurns(n: nat)
    ensures forall i :: 0 <= i < |Calls(n)| ==> Calls(n)[i] == Turn
  {
    if n > 0 { OnlyTurns(n - 1); }
  }

  lemma {:induction false} TurnsKeepPlace(k: Tunables, s: Sched, ops: seq<Op>, x: nat)
    requires x in s.book && forall i :: 0 <= i < |ops| ==> ops[i] == Turn
    ensures RunKeepsPlace(k, s, ops, x)
    decreases |ops|
  {
    if ops != [] { TurnsKeepPlace(k, Apply(k, s, ops[0]), ops[1..], x); }
  }
}
