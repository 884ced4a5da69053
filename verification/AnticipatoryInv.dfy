/** What every operation of the anticipatory scheduler keeps. */
module AnticipatoryInv {
  import opened Lists
  import opened NextCache
  import opened Anticipatory

  /** Both views of a direction hold the same requests, but for those `out` of the tree for the moment. */
  ghost predicate LaneOk(rq: map<nat, Rq>, l: Lane, sync: bool, out: set<nat>) {
    && Distinct(l.tree) && Distinct(l.fifo)
    && (forall x :: x in out ==> x !in l.tree)
    && (forall x :: x in l.fifo <==> x in l.tree || x in out)
    && (forall x :: x in l.fifo ==> x in rq && rq[x].sync == sync)
  }

  ghost predicate Lanes(a: As, sync: bool, out: set<nat>) {
    LaneOk(a.rq, LaneOf(a, sync), sync, out) && LaneOk(a.rq, LaneOf(a, !sync), !sync, {})
  }

  /** What has been dispatched and not completed is counted, and no longer held. */
  ghost predicate FlightOk(flight: set<nat>, nr: nat, rq: map<nat, Rq>, f: seq<nat>, g: seq<nat>) {
    |flight| == nr && forall x :: x in flight ==> x in rq && x !in f && x !in g
  }

  ghost predicate Flight(a: As) { FlightOk(a.flight, a.nr, a.rq, a.rd.fifo, a.wr.fifo) }

  /** While waiting, the scheduler knows for whom. */
  predicate AnticOk(t: Antic) { Waiting(t.status) ==> t.ioc.Some? }

  /** Only a read batch waits for its first completion, and only once the old batch has drained. */
  predicate BatchOk(b: Batch) { b.newly ==> b.sync && !b.changed }

  ghost predicate NextsIn(a: As, sync: bool, out: set<nat>) {
    && (LaneOf(a, sync).next.Some? ==>
          LaneOf(a, sync).next.id in LaneOf(a, sync).tree || LaneOf(a, sync).next.id in out)
    && NextIn(LaneOf(a, !sync).tree, LaneOf(a, !sync).next)
  }

  ghost predicate Base(a: As) {
    Lanes(a, true, {}) && NextsIn(a, true, {}) && Flight(a) && AnticOk(a.antic) && BatchOk(a.batch) && !a.bug
  }

  /** The cache of each direction is empty exactly when the direction is. */
  predicate Exact(a: As) { NextOk(a.rd.tree, a.rd.next) && NextOk(a.wr.tree, a.wr.next) }

  /** The direction of what is in flight: the batch's, or the one before while the batch is changing. */
  function Dir(b: Batch): bool { if b.changed then !b.sync else b.sync }

  ghost predicate Apart(flight: set<nat>, rq: map<nat, Rq>, dir: bool) {
    forall x :: x in flight ==> At(rq, x).sync == dir
  }

  lemma Flip(a: As, sync: bool)
    ensures Lanes(a, sync, {}) <==> Lanes(a, true, {})
    ensures NextsIn(a, sync, {}) <==> NextsIn(a, true, {})
  {
  }

  // ---------------------------------------------------------------- moving a request

  lemma LeaveOk(rq: map<nat, Rq>, l: Lane, sync: bool, out: set<nat>, sector: map<nat, nat>, id: nat, end: nat)
    requires LaneOk(rq, l, sync, out) && id in l.tree
    ensures var m := Leave(l, sector, id, end);
      && LaneOk(rq, m, sync, out) && NextOk(m.tree, m.next) && |m.tree| == |l.tree| - 1
      && (forall x :: x in m.tree <==> x in l.tree && x != id) && (forall x :: x in m.fifo <==> x in l.fifo && x != id)
  {
    FindNextOk(l.tree, id, Chooser(sector, end));
    WithoutAt(l.tree, id);
    WithoutAt(l.fifo, id);
  }

  lemma FlightAdd(flight: set<nat>, nr: nat, rq: map<nat, Rq>, f: seq<nat>, f': seq<nat>, g: seq<nat>, id: nat)
    requires FlightOk(flight, nr, rq, f, g) && id in f && id in rq && id !in g
    requires forall x :: x in f' <==> x in f && x != id
    ensures FlightOk(flight + {id}, nr + 1, rq, f', g)
  {
  }

  /** What as_move_to_dispatch does, seen from the lane it takes the request from. */
  lemma MoveShape(a: As, id: nat, sync: bool)
    requires At(a.rq, id).sync == sync
    ensures var m := Move(a, id);
      && LaneOf(m, sync) == Leave(LaneOf(a, sync), a.sector, id, SectorOf(a.sector, id) + At(a.rq, id).nr)
      && LaneOf(m, !sync) == LaneOf(a, !sync) && m.rq == a.rq && m.sector == a.sector
      && m.nr == a.nr + 1 && m.flight == a.flight + {id} && m.sent == a.sent + [id]
      && !Waiting(m.antic.status) && m.batch == a.batch.(left := m.batch.left)
      && m.bug == (a.bug || id !in LaneOf(a, sync).tree)
  {
  }

  lemma MoveOk(a: As, id: nat, sync: bool, out: set<nat>)
    requires Lanes(a, sync, out) && Flight(a) && id in LaneOf(a, sync).tree && !a.bug
    ensures var m := Move(a, id);
      && Lanes(m, sync, out) && Flight(m) && AnticOk(m.antic) && !m.bug
      && NextOk(LaneOf(m, sync).tree, LaneOf(m, sync).next)
      && |LaneOf(m, sync).tree| == |LaneOf(a, sync).tree| - 1
      && (forall x :: x in LaneOf(m, sync).tree <==> x in LaneOf(a, sync).tree && x != id)
      && (BatchOk(a.batch) ==> BatchOk(m.batch)) && Dir(m.batch) == Dir(a.batch)
  {
    var l := LaneOf(a, sync);
    assert id in l.fifo;
    MoveShape(a, id, sync);
    LeaveOk(a.rq, l, sync, out, a.sector, id, SectorOf(a.sector, id) + At(a.rq, id).nr);
    var m := Move(a, id);
    FlightAdd(a.flight, a.nr, a.rq, l.fifo, LaneOf(m, sync).fifo, LaneOf(a, !sync).fifo, id);
  }

  /** Moving one request leaves the cache exact in its direction, and the other direction alone. */
  lemma MoveBase(a: As, id: nat, sync: bool)
    requires Base(a) && id in LaneOf(a, sync).tree
    ensures Base(Move(a, id)) && (Exact(a) ==> Exact(Move(a, id)))
    ensures NextOk(LaneOf(Move(a, id), sync).tree, LaneOf(Move(a, id), sync).next)
  {
    Flip(a, sync);
    assert id in LaneOf(a, sync).fifo;
    MoveShape(a, id, sync);
    MoveOk(a, id, sync, {});
    Flip(Move(a, id), sync);
  }

  // ---------------------------------------------------------------- aliases

  /** The loop of as_add_rq_rb: exactly the requests at the sector go, and the cache is exact if any did. */
  lemma {:induction false} ClearOk(a: As, sync: bool, s: nat, out: set<nat>)
    requires Lanes(a, sync, out) && Flight(a) && AnticOk(a.antic) && BatchOk(a.batch) && !a.bug
    ensures var c := Clear(a, sync, s);
      && Lanes(c, sync, out) && Flight(c) && AnticOk(c.antic) && BatchOk(c.batch) && !c.bug
      && LaneOf(c, !sync) == LaneOf(a, !sync) && c.rq == a.rq && c.sector == a.sector
      && (forall x :: x in LaneOf(c, sync).tree <==> x in LaneOf(a, sync).tree && SectorOf(a.sector, x) != s)
      && (Alias(a.sector, LaneOf(a, sync).tree, s).None? ==> c == a)
      && (Alias(a.sector, LaneOf(a, sync).tree, s).Some? ==> NextOk(LaneOf(c, sync).tree, LaneOf(c, sync).next))
    decreases |LaneOf(a, sync).tree|
  {
    var al := Alias(a.sector, LaneOf(a, sync).tree, s);
    if al.Some? {
      assert al.id in LaneOf(a, sync).fifo;
      assert At(a.rq, al.id).sync == sync;
      MoveShape(a, al.id, sync);
      MoveOk(a, al.id, sync, out);
      ClearOk(Move(a, al.id), sync, s, out);
    }
  }

  /** A request that is in the FIFO alone goes into the tree. */
  lemma LinkOk(rq: map<nat, Rq>, l: Lane, sync: bool, id: nat, sector: map<nat, nat>)
    requires LaneOk(rq, l, sync, {id})
    ensures var m := l.(tree := Linked(sector, l.tree, id));
      && LaneOk(rq, m, sync, {}) && (forall x :: x in m.tree <==> x in l.tree || x == id)
  {
    LinkedOk(sector, l.tree, id);
  }

  // ---------------------------------------------------------------- requests arrive

  /** A new request goes into both views and competes for the cache. */
  lemma EnlistOk(rq: map<nat, Rq>, l: Lane, sync: bool, id: nat, sector: map<nat, nat>)
    requires LaneOk(rq, l, sync, {}) && id !in l.tree && id in rq && rq[id].sync == sync
    requires NextIn(l.tree, l.next)
    ensures var m := Enlist(l.(tree := Linked(sector, l.tree, id)), sector, id);
      && LaneOk(rq, m, sync, {}) && NextOk(m.tree, m.next) && (forall x :: x in m.fifo <==> x in l.fifo || x == id)
  {
    LinkedOk(sector, l.tree, id);
  }

  /** The lanes do not depend on requests they do not hold. */
  lemma LaneFrame(rq: map<nat, Rq>, l: Lane, sync: bool, out: set<nat>, id: nat, r: Rq)
    requires LaneOk(rq, l, sync, out) && (id in l.fifo ==> r.sync == sync)
    ensures LaneOk(rq[id := r], l, sync, out)
  {
  }

  function Known(k: Tunables, a: As, id: nat, s: nat, r: Rq, now: int): As {
    a.(rq := a.rq[id := r.(due := now + FifoExpire(k, r.sync))], sector := a.sector[id := s])
  }

  lemma KnownOk(k: Tunables, a: As, id: nat, s: nat, r: Rq, now: int)
    requires Base(a) && id !in a.rq
    ensures Lanes(Known(k, a, id, s, r, now), r.sync, {}) && Flight(Known(k, a, id, s, r, now))
    ensures id !in a.rd.fifo && id !in a.wr.fifo && id !in a.flight
  {
    var q := r.(due := now + FifoExpire(k, r.sync));
    LaneFrame(a.rq, a.rd, true, {}, id, q);
    LaneFrame(a.rq, a.wr, false, {}, id, q);
  }

  /** What as_add_request makes of the lanes. */
  lemma AddLanes(k: Tunables, a: As, id: nat, s: nat, r: Rq, now: int, b: As, c: As)
    requires Base(a) && id !in a.rq && b == Clear(Known(k, a, id, s, r, now), r.sync, s)
    requires c == PutLane(b, r.sync, Enlist(LaneOf(b, r.sync).(tree := Linked(b.sector, LaneOf(b, r.sync).tree, id)),
                                            b.sector, id))
    ensures Lanes(c, r.sync, {}) && Flight(c) && AnticOk(c.antic) && BatchOk(c.batch) && !c.bug
    ensures NextOk(LaneOf(c, r.sync).tree, LaneOf(c, r.sync).next)
    ensures LaneOf(c, !r.sync) == LaneOf(a, !r.sync) && c.antic == b.antic
  {
    var n := Known(k, a, id, s, r, now);
    KnownOk(k, a, id, s, r, now);
    ClearOk(n, r.sync, s, {});
    Flip(a, r.sync);
    var l := LaneOf(b, r.sync);
    assert id !in l.tree && id !in l.fifo;
    assert NextIn(l.tree, l.next);
    EnlistOk(b.rq, l, r.sync, id, b.sector);
    NotInFlight(k, a, id, s, r, now);
    FlightEnlist(b.flight, b.nr, b.rq, l.fifo, LaneOf(c, r.sync).fifo, LaneOf(c, !r.sync).fifo, id);
  }

  lemma FlightEnlist(flight: set<nat>, nr: nat, rq: map<nat, Rq>, f: seq<nat>, f': seq<nat>, g: seq<nat>, id: nat)
    requires FlightOk(flight, nr, rq, f, g) && id !in flight
    requires forall x :: x in f' <==> x in f || x == id
    ensures FlightOk(flight, nr, rq, f', g)
  {
  }

  /** Clearing dispatches only what the tree holds. */
  lemma {:induction false} ClearFlight(a: As, sync: bool, s: nat, id: nat)
    requires Lanes(a, sync, {}) && id !in LaneOf(a, sync).tree && id !in a.flight
    ensures id !in Clear(a, sync, s).flight
    decreases |LaneOf(a, sync).tree|
  {
    var al := Alias(a.sector, LaneOf(a, sync).tree, s);
    if al.Some? && At(a.rq, al.id).sync == sync {
      MoveShape(a, al.id, sync);
      LeaveOk(a.rq, LaneOf(a, sync), sync, {}, a.sector, al.id, SectorOf(a.sector, al.id) + At(a.rq, al.id).nr);
      ClearFlight(Move(a, al.id), sync, s, id);
    }
  }

  lemma NotInFlight(k: Tunables, a: As, id: nat, s: nat, r: Rq, now: int)
    requires Base(a) && id !in a.rq
    ensures id !in Clear(Known(k, a, id, s, r, now), r.sync, s).flight
  {
    KnownOk(k, a, id, s, r, now);
    ClearFlight(Known(k, a, id, s, r, now), r.sync, s, id);
  }

  lemma AddOk(k: Tunables, a: As, id: nat, s: nat, r: Rq, now: int, brk: bool)
    requires Base(a) && id !in a.rq
    ensures Base(Add(k, a, id, s, r, now, brk)) && (Exact(a) ==> Exact(Add(k, a, id, s, r, now, brk)))
  {
    var n := Known(k, a, id, s, r, now);
    var b := Clear(n, r.sync, s);
    var c := PutLane(b, r.sync, Enlist(LaneOf(b, r.sync).(tree := Linked(b.sector, LaneOf(b, r.sync).tree, id)),
                                       b.sector, id));
    AddLanes(k, a, id, s, r, now, b, c);
    KnownOk(k, a, id, s, r, now);
    ClearOk(n, r.sync, s, {});
    var z := Add(k, a, id, s, r, now, brk);
    assert z.rd == c.rd && z.wr == c.wr && z.rq == c.rq && z.flight == c.flight && z.nr == c.nr && z.batch == c.batch;
    Flip(c, r.sync);
    Flip(a, r.sync);
  }

  // ---------------------------------------------------------------- merges

  /** The lane without the request that a front merge is about to put elsewhere. */
  function Pulled(a: As, id: nat, s: nat, nr: nat): As {
    var r := At(a.rq, id);
    var l := LaneOf(a, r.sync);
    PutLane(a, r.sync, l.(tree := Without(l.tree, id))).(sector := a.sector[id := s], rq := a.rq[id := r.(nr := nr)])
  }

  lemma PulledOk(a: As, id: nat, s: nat, nr: nat, sync: bool)
    requires Base(a) && id in LaneOf(a, sync).tree
    ensures At(a.rq, id).sync == sync
    ensures var b := Pulled(a, id, s, nr);
      && Lanes(b, sync, {id}) && Flight(b) && b.antic == a.antic && b.batch == a.batch && !b.bug
      && LaneOf(b, !sync) == LaneOf(a, !sync) && LaneOf(b, sync).next == LaneOf(a, sync).next
      && LaneOf(b, sync).tree == Without(LaneOf(a, sync).tree, id) && LaneOf(b, sync).fifo == LaneOf(a, sync).fifo
      && (forall x :: x in LaneOf(b, sync).tree <==> x in LaneOf(a, sync).tree && x != id)
  {
    Flip(a, sync);
    var l := LaneOf(a, sync);
    assert id in l.fifo;
    WithoutAt(l.tree, id);
    LaneFrame(a.rq, LaneOf(a, !sync), !sync, {}, id, At(a.rq, id).(nr := nr));
  }

  /**
   * Exactly when a front merge leaves the cache exact: unless other requests are there and all of them
   * start at the request's new first sector.  They are then dispatched while the request is out of the
   * tree, so that the cache empties, and the request comes back without being considered for it.
   */
  ghost predicate Tidy(tree: seq<nat>, sector: map<nat, nat>, id: nat, s: nat) {
    (forall x :: x in tree && x != id ==> SectorOf(sector, x) != s)
    || (exists x :: x in tree && x != id && SectorOf(sector, x) != s)
  }

  lemma FrontLane(a: As, id: nat, s: nat, nr: nat, sync: bool, b: As, c: As, z: As)
    requires Base(a) && id in LaneOf(a, sync).tree && b == Pulled(a, id, s, nr) && c == Clear(b, sync, s) &&
             z == FrontMerged(a, id, s, nr)
    ensures Base(z) && LaneOf(z, !sync) == LaneOf(a, !sync)
    ensures LaneOf(z, sync).next == LaneOf(c, sync).next
    ensures forall x :: x in LaneOf(z, sync).tree <==> x in LaneOf(c, sync).tree || x == id
  {
    PulledOk(a, id, s, nr, sync);
    ClearOk(b, sync, s, {id});
    var l := LaneOf(c, sync);
    LinkOk(c.rq, l, sync, id, b.sector);
    assert z == PutLane(c, sync, l.(tree := Linked(b.sector, l.tree, id)));
    Flip(z, sync);
    Flip(a, sync);
  }

  lemma FrontOk(a: As, id: nat, s: nat, nr: nat)
    requires Base(a) && Holds(a, id)
    ensures Base(FrontMerged(a, id, s, nr))
  {
    var sync := At(a.rq, id).sync;
    var b := Pulled(a, id, s, nr);
    FrontLane(a, id, s, nr, sync, b, Clear(b, sync, s), FrontMerged(a, id, s, nr));
  }

  lemma FrontNext(a: As, id: nat, s: nat, nr: nat, sync: bool, z: As)
    requires Base(a) && id in LaneOf(a, sync).tree && z == FrontMerged(a, id, s, nr)
    requires NextOk(LaneOf(a, sync).tree, LaneOf(a, sync).next)
    ensures NextOk(LaneOf(z, sync).tree, LaneOf(z, sync).next) <==> Tidy(LaneOf(a, sync).tree, a.sector, id, s)
    ensures LaneOf(z, !sync) == LaneOf(a, !sync)
  {
    var b := Pulled(a, id, s, nr);
    var c := Clear(b, sync, s);
    FrontLane(a, id, s, nr, sync, b, c, z);
    PulledOk(a, id, s, nr, sync);
    ClearOk(b, sync, s, {id});
    FrontExact(LaneOf(a, sync), LaneOf(b, sync), LaneOf(c, sync), LaneOf(z, sync), a.sector, b.sector, id, s);
  }

  /** The cache through a front merge, on the lane alone: before, pulled, cleared and linked again. */
  lemma FrontExact(a: Lane, b: Lane, c: Lane, z: Lane, sector: map<nat, nat>, sector': map<nat, nat>, id: nat, s: nat)
    requires id in a.tree && NextOk(a.tree, a.next) && b.next == a.next && z.next == c.next &&
             sector' == sector[id := s]
    requires forall x :: x in b.tree <==> x in a.tree && x != id
    requires forall x :: x in c.tree <==> x in b.tree && SectorOf(sector', x) != s
    requires forall x :: x in z.tree <==> x in c.tree || x == id
    requires Alias(sector', b.tree, s).None? ==> c == b
    requires Alias(sector', b.tree, s).Some? ==> NextOk(c.tree, c.next)
    ensures NextOk(z.tree, z.next) <==> Tidy(a.tree, sector, id, s)
  {
    var al := Alias(sector', b.tree, s);
    assert id in z.tree;
    assert forall x :: x != id ==> SectorOf(sector', x) == SectorOf(sector, x);
    if al.Some? {
      if c.tree != [] {
        assert c.tree[0] in b.tree;
      }
    }
  }

  // ---------------------------------------------------------------- requests merge

  /** `next` leaves both views. */
  lemma DropOk(rq: map<nat, Rq>, l: Lane, sync: bool, sector: map<nat, nat>, next: nat)
    requires LaneOk(rq, l, sync, {}) && NextIn(l.tree, l.next) && next in l.tree
    ensures var d := Drop(l, sector, next);
      && LaneOk(rq, d, sync, {}) && NextIn(d.tree, d.next) && (NextOk(l.tree, l.next) ==> NextOk(d.tree, d.next))
      && (forall x :: x in d.fifo <==> x in l.fifo && x != next)
  {
    assert next in l.fifo;
    NextWithoutOk(l.tree, l.next, next, Chooser(sector, l.last));
    WithoutAt(l.tree, next);
    WithoutAt(l.fifo, next);
  }

  lemma SameFifo(rq: map<nat, Rq>, l: Lane, sync: bool, f: seq<nat>)
    requires LaneOk(rq, l, sync, {}) && Distinct(f) && forall x :: x in f <==> x in l.fifo
    ensures LaneOk(rq, l.(fifo := f), sync, {})
  {
  }

  function MergeLane(l: Lane, sector: map<nat, nat>, req: nat, next: nat, sooner: bool): Lane {
    var d := Drop(l, sector, next);
    if sooner then d.(fifo := TakePlace(l.fifo, req, next)) else d
  }

  /** `next` is gone, and `req` may have its place in the FIFO. */
  lemma MergeLaneOk(rq: map<nat, Rq>, l: Lane, sync: bool, sector: map<nat, nat>, req: nat, next: nat, sooner: bool)
    requires LaneOk(rq, l, sync, {}) && NextIn(l.tree, l.next) && req in l.tree && next in l.tree && req != next
    ensures var m := MergeLane(l, sector, req, next, sooner);
      && LaneOk(rq, m, sync, {}) && NextIn(m.tree, m.next)
      && (NextOk(l.tree, l.next) ==> NextOk(m.tree, m.next)) && (forall x :: x in m.fifo <==> x in l.fifo && x != next)
  {
    DropOk(rq, l, sync, sector, next);
    if sooner {
      assert req in l.fifo && next in l.fifo;
      TakePlaceAt(l.fifo, req, next);
      SameFifo(rq, Drop(l, sector, next), sync, TakePlace(l.fifo, req, next));
    }
  }

  lemma MergedOk(a: As, req: nat, next: nat, sync: bool, z: As)
    requires Base(a) && req in LaneOf(a, sync).tree && next in LaneOf(a, sync).tree && req != next &&
             z == Merged(a, req, next)
    ensures Base(z) && LaneOf(z, !sync) == LaneOf(a, !sync)
    ensures NextOk(LaneOf(a, sync).tree, LaneOf(a, sync).next) ==> NextOk(LaneOf(z, sync).tree, LaneOf(z, sync).next)
  {
    var l := LaneOf(a, sync);
    Flip(a, sync);
    assert req in l.fifo && next in l.fifo;
    var r, n := At(a.rq, req), At(a.rq, next);
    var sooner := n.due < r.due;
    var q := r.(nr := r.nr + n.nr, due := if sooner then n.due else r.due);
    MergeLaneOk(a.rq, l, sync, a.sector, req, next, sooner);
    LaneFrame(a.rq, LaneOf(a, !sync), !sync, {}, req, q);
    LaneFrame(a.rq, MergeLane(l, a.sector, req, next, sooner), sync, {}, req, q);
    assert LaneOf(z, sync) == MergeLane(l, a.sector, req, next, sooner) && z.rq == a.rq[req := q];
    Flip(z, sync);
  }

  // ---------------------------------------------------------------- completion and timeout

  lemma CompletedOk(k: Tunables, a: As, id: nat, now: int)
    requires Base(a) && id in a.flight
    ensures Base(Completed(k, a, id, now)) && (Exact(a) ==> Exact(Completed(k, a, id, now)))
  {
    var z := Completed(k, a, id, now);
    FlightDel(a.flight, a.nr, a.rq, a.rd.fifo, a.wr.fifo, id);
    assert z.rd == a.rd && z.wr == a.wr && z.rq == a.rq && z.flight == a.flight - {id} && z.nr == a.nr - 1;
    assert Lanes(z, true, {}) && NextsIn(z, true, {});
  }

  lemma FlightDel(flight: set<nat>, nr: nat, rq: map<nat, Rq>, f: seq<nat>, g: seq<nat>, id: nat)
    requires FlightOk(flight, nr, rq, f, g) && id in flight
    ensures nr > 0 && FlightOk(flight - {id}, nr - 1, rq, f, g)
  {
    assert flight == (flight - {id}) + {id};
  }

  lemma CompletedApart(k: Tunables, a: As, id: nat, now: int)
    requires Base(a) && id in a.flight && Apart(a.flight, a.rq, Dir(a.batch))
    ensures var z := Completed(k, a, id, now); Apart(z.flight, z.rq, Dir(z.batch))
  {
    assert |a.flight - {id}| == |a.flight| - 1;
    if a.batch.changed && a.nr == 1 {
      assert a.flight - {id} == {};
    }
  }

  lemma TimeoutOk(a: As)
    requires Base(a)
    ensures Base(Timeout(a)) && (Exact(a) ==> Exact(Timeout(a)))
  {
  }

  // ---------------------------------------------------------------- forced dispatch

  /**
   * The loop of a forced dispatch: it moves each request of the direction once, and all of them exactly
   * when the cache was exact to begin with.
   */
  lemma {:induction false} DrainOk(a: As, sync: bool)
    requires Base(a)
    ensures var z := Drain(a, sync);
      && Base(z) && LaneOf(z, !sync) == LaneOf(a, !sync) && z.batch == a.batch.(left := z.batch.left)
      && (LaneOf(z, sync).tree == [] <==> NextOk(LaneOf(a, sync).tree, LaneOf(a, sync).next))
      && (NextOk(LaneOf(a, sync).tree, LaneOf(a, sync).next) ==> NextOk(LaneOf(z, sync).tree, LaneOf(z, sync).next))
    decreases |LaneOf(a, sync).tree|
  {
    var l := LaneOf(a, sync);
    if l.next.Some? {
      Flip(a, sync);
      var id := l.next.id;
      assert id in l.fifo;
      MoveShape(a, id, sync);
      LeaveOk(a.rq, l, sync, {}, a.sector, id, SectorOf(a.sector, id) + At(a.rq, id).nr);
      MoveBase(a, id, sync);
      DrainOk(Move(a, id), sync);
    }
  }
}
