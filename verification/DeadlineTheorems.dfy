/**
 * Whole runs of the deadline scheduler: conservation, and how long an expired write can still wait.
 */
module DeadlineTheorems {
  import opened Lists
  import opened Deadline
  import opened DeadlineInv
  import opened DeadlineBooks

  // ---------------------------------------------------------------- conservation

  lemma BooksSentAway(s: Sched, t: Sched, a: Next)
    requires BooksOk(s) && SentAway(s, t, a)
    ensures Books(s.rqs, Elems(t.rd.fifo), Elems(t.wr.fifo), t.dispatched, s.book)
  {
    if a.Some? {
      BooksSend(s.rqs, Elems(s.rd.fifo), Elems(s.wr.fifo), s.dispatched, s.book, a.id);
    }
  }

  lemma SidesAfter(t: Sched, c: Sched, id: nat, write: bool)
    requires LaneOf(t, write).fifo == LaneOf(c, write).fifo + [id] && LaneOf(t, !write).fifo == LaneOf(c, !write).fifo
    ensures Elems(t.rd.fifo) == if write then Elems(c.rd.fifo) else Elems(c.rd.fifo) + {id}
    ensures Elems(t.wr.fifo) == if write then Elems(c.wr.fifo) + {id} else Elems(c.wr.fifo)
  {
    ElemsSnoc(LaneOf(c, write).fifo, id);
  }

  /** What an insertion adds to the state in which its alias, if any, is gone. */
  lemma AddSets(k: Tunables, s: Sched, id: nat, sector: nat, write: bool, c: Sched)
    requires c == Cleared(s.(rqs := s.rqs[id := Rq(sector, write, s.now + Expire(k, write))]), id)
    ensures var t := AddRequest(k, s, id, sector, write);
            && Elems(t.rd.fifo) == (if write then Elems(c.rd.fifo) else Elems(c.rd.fifo) + {id})
            && Elems(t.wr.fifo) == (if write then Elems(c.wr.fifo) + {id} else Elems(c.wr.fifo))
            && t.dispatched == c.dispatched
  {
    AddShape(k, s, id, sector, write);
    SidesAfter(AddRequest(k, s, id, sector, write), c, id, write);
  }

  lemma Unknown(k: Tunables, s: Sched, id: nat, write: bool)
    requires BothOk(k, s, write, {}) && id !in s.rqs
    ensures id !in LaneOf(s, write).fifo && id !in LaneOf(s, !write).fifo
  {
  }

  lemma EnlistBooks(s: Sched, c: Sched, a: Next, id: nat, rq: Rq, t: Sched)
    requires BooksOk(s) && SentAway(s, c, a) && id !in s.rqs && id !in s.book
    requires t.rqs == s.rqs[id := rq] && t.book == s.book[id := Entry(id, rq.expiry, rq.write)] &&
             t.dispatched == c.dispatched
    requires Elems(t.rd.fifo) == if rq.write then Elems(c.rd.fifo) else Elems(c.rd.fifo) + {id}
    requires Elems(t.wr.fifo) == if rq.write then Elems(c.wr.fifo) + {id} else Elems(c.wr.fifo)
    ensures BooksOk(t)
  {
    BooksSentAway(s, c, a);
    BooksEnlist(s.rqs, Elems(c.rd.fifo), Elems(c.wr.fifo), c.dispatched, s.book, id, rq);
  }

  lemma AddBooks(k: Tunables, s: Sched, id: nat, sector: nat, write: bool)
    requires BothOk(k, s, write, {}) && BooksOk(s) && id !in s.rqs && id !in s.book
    ensures BooksOk(AddRequest(k, s, id, sector, write))
  {
    var rq := Rq(sector, write, s.now + Expire(k, write));
    Unknown(k, s, id, write);
    var c, a := AddSends(k, s, id, rq, write);
    AddSets(k, s, id, sector, write, c);
    AddParts(k, s, id, sector, write);
    EnlistBooks(s, c, a, id, rq, AddRequest(k, s, id, sector, write));
  }

  lemma FrontBooks(k: Tunables, s: Sched, id: nat, sector: nat, write: bool)
    requires BothOk(k, s, write, {}) && BooksOk(s) && id in LaneOf(s, write).fifo
    ensures BooksOk(FrontMerged(s, id, sector))
  {
    var a := FrontSends(k, s, id, sector, write);
    var t := FrontMerged(s, id, sector);
    BooksSentAway(s, t, a);
    BooksSector(s.rqs, Elems(t.rd.fifo), Elems(t.wr.fifo), t.dispatched, s.book, id, sector);
  }

  lemma MergeBooks(k: Tunables, s: Sched, req: nat, next: nat, write: bool)
    requires BothOk(k, s, write, {}) && BooksOk(s)
    requires req in LaneOf(s, write).fifo && next in LaneOf(s, write).fifo && req != next
    ensures BooksOk(MergedRequests(s, req, next))
  {
    var r, n := s.rqs[req], s.rqs[next];
    MergeMoves(k, s, req, next, write);
    MergeShape(s, req, next, write);
    var expiry := if n.expiry < r.expiry then n.expiry else r.expiry;
    BooksMerge(s.rqs, Elems(s.rd.fifo), Elems(s.wr.fifo), s.dispatched, s.book, req, next, write, expiry);
    assert n.expiry >= r.expiry ==> s.rqs[req := r.(expiry := expiry)] == s.rqs;
  }

  lemma TurnBooks(k: Tunables, s: Sched)
    requires LanesOk(k, s) && BooksOk(s)
    ensures BooksOk(Dispatch(k, s))
  {
    var some, id, write, batching, starved := Sent(k, s);
    if some {
      Flip(k, s, true);
      MoveSends(k, s, id, write, {});
      BooksSentAway(s, MoveRequest(s, id), Some(id));
    }
  }

  // ---------------------------------------------------------------- the potential

  /** The writes in `w` that are due by `time`. */
  function DueBy(rqs: map<nat, Rq>, w: set<nat>, time: int): set<nat> {
    set x | x in w && At(rqs, x).expiry <= time
  }

  function Overdue(s: Sched, time: int): set<nat> { DueBy(s.rqs, Elems(s.wr.fifo), time) }

  /** The longest a batch gets. */
  function BatchLimit(k: Tunables): nat { if k.fifoBatch == 0 then 1 else k.fifoBatch }

  /** How often reads may be preferred. */
  function Patience(k: Tunables): nat { Unsigned(k.writesStarved) }

  predicate CountersOk(k: Tunables, s: Sched) {
    s.batching <= BatchLimit(k) && s.starved <= Patience(k)
  }

  /**
   * The batches that may still start before `n` due writes are gone, given `left` read batches until the
   * next write batch.
   */
  function Batches(n: nat, patience: nat, left: nat): nat
    requires n > 0
  {
    (n - 1) * (patience + 1) + left + 1
  }

  /** An upper bound on the dispatch calls until no write due by then is left. */
  function Potential(n: nat, limit: nat, patience: nat, batching: nat, starved: nat): nat
    requires batching <= limit && starved <= patience && limit > 0
  {
    if n == 0 then 0
    else (limit - batching) + 1 + (Batches(n, patience, patience - starved) - 1) * limit
  }

  function Measure(k: Tunables, s: Sched, time: int): nat
    requires CountersOk(k, s)
  {
    Potential(|Overdue(s, time)|, BatchLimit(k), Patience(k), s.batching, s.starved)
  }

  /** The dispatch calls within which `n` overdue writes are sent. */
  function WaitBound(k: Tunables, n: nat): nat { n * (Patience(k) + 1) * BatchLimit(k) + 1 }

  lemma MulMono(a: nat, b: nat, c: nat)
    requires a <= b
    ensures a * c <= b * c
  {
  }

  lemma FewerDue(n: nat, m: nat, limit: nat, patience: nat, batching: nat, starved: nat)
    requires n <= m && batching <= limit && starved <= patience && limit > 0
    ensures Potential(n, limit, patience, batching, starved) <= Potential(m, limit, patience, batching, starved)
  {
    if n > 0 {
      MulMono(n - 1, m - 1, patience + 1);
      MulMono(Batches(n, patience, patience - starved) - 1, Batches(m, patience, patience - starved) - 1, limit);
    }
  }

  /** A batch goes on. */
  lemma OneMore(n: nat, limit: nat, patience: nat, batching: nat, starved: nat)
    requires n > 0 && batching < limit && starved <= patience
    ensures Potential(n, limit, patience, batching + 1, starved) == Potential(n, limit, patience, batching, starved) - 1
  {
  }

  /** A batch of reads starts while writes wait. */
  lemma ReadsPreferred(n: nat, limit: nat, patience: nat, batching: nat, starved: nat)
    requires n > 0 && batching <= limit && starved < patience && limit > 0
    ensures Potential(n, limit, patience, 1, starved + 1) < Potential(n, limit, patience, batching, starved)
  {
    var b := Batches(n, patience, patience - starved);
    assert (b - 1) * limit == (b - 2) * limit + limit;
  }

  /** A batch of writes starts with one that is due. */
  lemma WriteServed(n: nat, limit: nat, patience: nat, batching: nat, starved: nat)
    requires n > 0 && batching <= limit && starved <= patience && limit > 0
    ensures Potential(n - 1, limit, patience, 1, 0) < Potential(n, limit, patience, batching, starved)
  {
    if n > 1 {
      var b, b' := Batches(n, patience, patience - starved), Batches(n - 1, patience, patience);
      assert (n - 1) * (patience + 1) == (n - 2) * (patience + 1) + (patience + 1);
      assert b' <= b - 1;
      MulMono(b' - 1, b - 2, limit);
      assert (b - 1) * limit == (b - 2) * limit + limit;
    }
  }

  lemma PotentialBound(n: nat, limit: nat, patience: nat, batching: nat, starved: nat)
    requires batching <= limit && starved <= patience && limit > 0
    ensures Potential(n, limit, patience, batching, starved) <= n * (patience + 1) * limit + 1
  {
    if n > 0 {
      var b := Batches(n, patience, patience - starved);
      assert n * (patience + 1) == (n - 1) * (patience + 1) + (patience + 1);
      MulMono(b, n * (patience + 1), limit);
      assert (b - 1) * limit == b * limit - limit;
    }
  }

  // ---------------------------------------------------------------- each operation and the potential

  lemma SubsetCard(a: set<nat>, b: set<nat>)
    requires a <= b
    ensures |a| <= |b|
  {
    assert b == a + (b - a);
  }

  lemma SentFewer(s: Sched, t: Sched, a: Next, time: int)
    requires SentAway(s, t, a) && t.rqs == s.rqs
    ensures Overdue(t, time) == Overdue(s, time) - (if a.Some? then {a.id} else {})
    ensures |Overdue(t, time)| <= |Overdue(s, time)|
  {
    SubsetCard(Overdue(t, time), Overdue(s, time));
  }

  lemma AddFewer(k: Tunables, s: Sched, id: nat, sector: nat, write: bool, time: int)
    requires BothOk(k, s, write, {}) && id !in s.rqs && time < s.now
    ensures |Overdue(AddRequest(k, s, id, sector, write), time)| <= |Overdue(s, time)|
  {
    var rq := Rq(sector, write, s.now + Expire(k, write));
    Unknown(k, s, id, write);
    var c, a := AddSends(k, s, id, rq, write);
    AddSets(k, s, id, sector, write, c);
    AddParts(k, s, id, sector, write);
    var t := AddRequest(k, s, id, sector, write);
    assert Elems(c.wr.fifo) <= Elems(s.wr.fifo);
    NewNotDue(s.rqs, Elems(s.wr.fifo), Elems(t.wr.fifo), id, rq, time);
  }

  /** A request that is not due, and otherwise no request more. */
  lemma NewNotDue(rqs: map<nat, Rq>, w: set<nat>, v: set<nat>, id: nat, rq: Rq, time: int)
    requires id !in rqs && v <= w + {id} && rq.expiry > time
    ensures |DueBy(rqs[id := rq], v, time)| <= |DueBy(rqs, w, time)|
  {
    SubsetCard(DueBy(rqs[id := rq], v, time), DueBy(rqs, w, time));
  }

  lemma DueSector(rqs: map<nat, Rq>, w: set<nat>, v: set<nat>, id: nat, sector: nat, time: int)
    requires v <= w && id in rqs
    ensures |DueBy(rqs[id := rqs[id].(sector := sector)], v, time)| <= |DueBy(rqs, w, time)|
  {
    SubsetCard(DueBy(rqs[id := rqs[id].(sector := sector)], v, time), DueBy(rqs, w, time));
  }

  lemma DueMerged(rqs: map<nat, Rq>, w: set<nat>, req: nat, next: nat, expiry: int, time: int)
    requires req in rqs && next in rqs && req in w && next in w && req != next
    requires expiry == if rqs[next].expiry < rqs[req].expiry then rqs[next].expiry else rqs[req].expiry
    ensures |DueBy(rqs[req := rqs[req].(expiry := expiry)], w - {next}, time)| <= |DueBy(rqs, w, time)|
  {
    var was, now := DueBy(rqs, w, time), DueBy(rqs[req := rqs[req].(expiry := expiry)], w - {next}, time);
    var over := if next in was then was - {next} + {req} else was;
    assert now <= over;
    SubsetCard(now, over);
  }

  lemma DueElsewhere(rqs: map<nat, Rq>, w: set<nat>, req: nat, rq: Rq, time: int)
    requires req !in w
    ensures DueBy(rqs[req := rq], w, time) == DueBy(rqs, w, time)
  {
  }

  lemma FrontFewer(k: Tunables, s: Sched, id: nat, sector: nat, write: bool, time: int)
    requires BothOk(k, s, write, {}) && id in LaneOf(s, write).fifo
    ensures |Overdue(FrontMerged(s, id, sector), time)| <= |Overdue(s, time)|
  {
    var a := FrontSends(k, s, id, sector, write);
    DueSector(s.rqs, Elems(s.wr.fifo), Elems(FrontMerged(s, id, sector).wr.fifo), id, sector, time);
  }

  lemma MergeFewer(k: Tunables, s: Sched, req: nat, next: nat, write: bool, time: int)
    requires BothOk(k, s, write, {}) && req in LaneOf(s, write).fifo && next in LaneOf(s, write).fifo && req != next
    ensures |Overdue(MergedRequests(s, req, next), time)| <= |Overdue(s, time)|
  {
    var r, n := s.rqs[req], s.rqs[next];
    var expiry := if n.expiry < r.expiry then n.expiry else r.expiry;
    MergeMoves(k, s, req, next, write);
    MergeShape(s, req, next, write);
    var rqs := s.rqs[req := r.(expiry := expiry)];
    assert MergedRequests(s, req, next).rqs == rqs;
    if write {
      DueMerged(s.rqs, Elems(s.wr.fifo), req, next, expiry, time);
    } else {
      assert req !in s.wr.fifo;
      DueElsewhere(s.rqs, Elems(s.wr.fifo), req, r.(expiry := expiry), time);
    }
  }

  /** With a write overdue, a new batch of writes starts with the head of the FIFO, which is overdue too. */
  lemma HeadChosen(k: Tunables, s: Sched, time: int)
    requires LanesOk(k, s) && time < s.now && Overdue(s, time) != {}
    ensures s.wr.fifo != [] && Choose(s, true) == s.wr.fifo[0] && s.wr.fifo[0] in Overdue(s, time)
  {
    var x :| x in Overdue(s, time);
    assert x in s.wr.fifo;
    var i := Pos(s.wr.fifo, x);
    assert At(s.rqs, s.wr.fifo[0]).expiry <= At(s.rqs, s.wr.fifo[i]).expiry;
  }

  lemma BatchTurn(k: Tunables, s: Sched, time: int)
    requires LanesOk(k, s) && CountersOk(k, s) && Overdue(s, time) != {}
    requires Batched(s).Some? && s.batching < k.fifoBatch
    ensures CountersOk(k, Dispatch(k, s)) && Measure(k, Dispatch(k, s), time) < Measure(k, s, time)
  {
    var write, id := s.wr.next.Some?, Batched(s).id;
    Flip(k, s, true);
    MoveSends(k, s, id, write, {});
    SentFewer(s, MoveRequest(s, id), Some(id), time);
    var n, m := |Overdue(Dispatch(k, s), time)|, |Overdue(s, time)|;
    assert n <= m;
    FewerDue(n, m, BatchLimit(k), Patience(k), s.batching + 1, s.starved);
    OneMore(m, BatchLimit(k), Patience(k), s.batching, s.starved);
  }

  lemma ReadMoves(k: Tunables, s: Sched, starved: nat, time: int)
    requires LanesOk(k, s) && s.rd.fifo != []
    ensures Overdue(NewBatch(s, false, starved), time) == Overdue(s, time)
  {
    var id := Choose(s, false);
    Flip(k, s, true);
    assert id in s.rd.fifo && id !in s.wr.fifo;
    MoveSends(k, s, id, false, {});
    SentFewer(s, MoveRequest(s, id), Some(id), time);
  }

  lemma ReadTurn(k: Tunables, s: Sched, time: int)
    requires LanesOk(k, s) && CountersOk(k, s) && Overdue(s, time) != {} && s.rd.fifo != [] && s.starved < Patience(k)
    ensures var t := NewBatch(s, false, Unsigned(s.starved + 1));
            CountersOk(k, t) && Measure(k, t, time) < Measure(k, s, time)
  {
    ReadMoves(k, s, Unsigned(s.starved + 1), time);
    Later(k, s, NewBatch(s, false, Unsigned(s.starved + 1)), time);
  }

  /** The potential after a read batch has started, whatever the state is otherwise. */
  lemma Later(k: Tunables, s: Sched, t: Sched, time: int)
    requires CountersOk(k, s) && Overdue(s, time) != {} && s.starved < Patience(k)
    requires t.batching == 1 && t.starved == Unsigned(s.starved + 1) && Overdue(t, time) == Overdue(s, time)
    ensures CountersOk(k, t) && Measure(k, t, time) < Measure(k, s, time)
  {
    ReadsPreferred(|Overdue(s, time)|, BatchLimit(k), Patience(k), s.batching, s.starved);
  }

  lemma WriteTurn(k: Tunables, s: Sched, time: int)
    requires LanesOk(k, s) && CountersOk(k, s) && Overdue(s, time) != {} && time < s.now && s.wr.fifo != []
    ensures CountersOk(k, NewBatch(s, true, 0)) && Measure(k, NewBatch(s, true, 0), time) < Measure(k, s, time)
  {
    HeadChosen(k, s, time);
    var id := s.wr.fifo[0];
    MoveSends(k, s, id, true, {});
    SentFewer(s, MoveRequest(s, id), Some(id), time);
    assert Overdue(NewBatch(s, true, 0), time) == Overdue(s, time) - {id};
    WriteServed(|Overdue(s, time)|, BatchLimit(k), Patience(k), s.batching, s.starved);
  }

  /** Every dispatch call brings the end closer while an overdue write is left. */
  lemma TurnMeasure(k: Tunables, s: Sched, time: int)
    requires LanesOk(k, s) && CountersOk(k, s) && Overdue(s, time) != {} && time < s.now
    ensures CountersOk(k, Dispatch(k, s)) && Measure(k, Dispatch(k, s), time) < Measure(k, s, time)
  {
    HeadChosen(k, s, time);
    if Batched(s).Some? && s.batching < k.fifoBatch {
      BatchTurn(k, s, time);
    } else if s.rd.fifo != [] && s.starved < Patience(k) {
      ReadsNext(k, s);
      ReadTurn(k, s, time);
    } else {
      WritesNext(k, s);
      WriteTurn(k, s, time);
    }
  }

  lemma ReadsNext(k: Tunables, s: Sched)
    requires s.rd.fifo != [] && s.wr.fifo != [] && s.starved < Patience(k)
    requires !(Batched(s).Some? && s.batching < k.fifoBatch)
    ensures Dispatch(k, s) == NewBatch(s, false, Unsigned(s.starved + 1))
  {
  }

  lemma WritesNext(k: Tunables, s: Sched)
    requires s.wr.fifo != [] && (s.rd.fifo == [] || s.starved >= Patience(k))
    requires !(Batched(s).Some? && s.batching < k.fifoBatch)
    ensures Dispatch(k, s) == NewBatch(s, true, 0)
  {
  }

  lemma ReadsAlone(k: Tunables, s: Sched)
    requires s.rd.fifo != [] && s.wr.fifo == [] && !(Batched(s).Some? && s.batching < k.fifoBatch)
    ensures Dispatch(k, s) == NewBatch(s, false, s.starved)
  {
  }

  // ---------------------------------------------------------------- every run

  ghost predicate Inv(k: Tunables, s: Sched) { LanesOk(k, s) && BooksOk(s) && CountersOk(k, s) }

  lemma TurnCounters(k: Tunables, s: Sched)
    requires CountersOk(k, s)
    ensures CountersOk(k, Dispatch(k, s))
  {
  }

  lemma AddInv(k: Tunables, s: Sched, id: nat, sector: nat, write: bool)
    requires Inv(k, s) && Enabled(s, Add(id, sector, write))
    ensures Inv(k, AddRequest(k, s, id, sector, write))
  {
    var t := AddRequest(k, s, id, sector, write);
    Flip(k, s, true);
    Unknown(k, s, id, write);
    AddOk(k, s, id, sector, write);
    Flip(k, t, true);
    AddBooks(k, s, id, sector, write);
    AddParts(k, s, id, sector, write);
  }

  lemma FrontInv(k: Tunables, s: Sched, id: nat, sector: nat)
    requires Inv(k, s) && Enabled(s, Front(id, sector))
    ensures Inv(k, FrontMerged(s, id, sector))
  {
    var t, write := FrontMerged(s, id, sector), s.rqs[id].write;
    Flip(k, s, true);
    FrontOk(k, s, id, sector, write);
    Flip(k, t, true);
    FrontBooks(k, s, id, sector, write);
    var a := FrontSends(k, s, id, sector, write);
  }

  lemma MergeInv(k: Tunables, s: Sched, req: nat, next: nat)
    requires Inv(k, s) && Enabled(s, Merge(req, next))
    ensures Inv(k, MergedRequests(s, req, next))
  {
    var t, write := MergedRequests(s, req, next), s.rqs[req].write;
    Flip(k, s, true);
    MergeOk(k, s, req, next, write);
    Flip(k, t, true);
    MergeBooks(k, s, req, next, write);
    MergeMoves(k, s, req, next, write);
  }

  lemma TurnInv(k: Tunables, s: Sched)
    requires Inv(k, s)
    ensures Inv(k, Dispatch(k, s))
  {
    DispatchOk(k, s);
    TurnBooks(k, s);
    TurnCounters(k, s);
  }

  lemma StepInv(k: Tunables, s: Sched, op: Op)
    requires Inv(k, s) && Enabled(s, op)
    ensures Inv(k, Apply(k, s, op))
  {
    match op
    case Add(id, sector, write) => AddInv(k, s, id, sector, write);
    case Front(id, sector) => FrontInv(k, s, id, sector);
    case Merge(req, next) => MergeInv(k, s, req, next);
    case Turn => TurnInv(k, s);
    case Tick(now) => TickOk(k, s, now);
  }

  /** An operation other than dispatch leaves no more writes overdue and touches no counter. */
  lemma OtherFewer(k: Tunables, s: Sched, op: Op, time: int)
    requires Inv(k, s) && Enabled(s, op) && !op.Turn? && time < s.now
    ensures var t := Apply(k, s, op);
            |Overdue(t, time)| <= |Overdue(s, time)| && t.batching == s.batching && t.starved == s.starved &&
              t.now >= s.now
  {
    Flip(k, s, true);
    match op
    case Add(id, sector, write) =>
      AddFewer(k, s, id, sector, write, time);
      AddParts(k, s, id, sector, write);
    case Front(id, sector) =>
      FrontFewer(k, s, id, sector, s.rqs[id].write, time);
      var a := FrontSends(k, s, id, sector, s.rqs[id].write);
    case Merge(req, next) =>
      MergeFewer(k, s, req, next, s.rqs[req].write, time);
      MergeMoves(k, s, req, next, s.rqs[req].write);
    case Tick(now) =>
  }

  lemma TurnFewer(k: Tunables, s: Sched, time: int)
    requires Inv(k, s) && time < s.now
    ensures |Overdue(Dispatch(k, s), time)| <= |Overdue(s, time)| && Dispatch(k, s).now == s.now
  {
    var some, id, write, batching, starved := Sent(k, s);
    if some {
      Flip(k, s, true);
      MoveSends(k, s, id, write, {});
      SentFewer(s, MoveRequest(s, id), Some(id), time);
    }
  }

  lemma StepMeasure(k: Tunables, s: Sched, op: Op, time: int)
    requires Inv(k, s) && Enabled(s, op) && time < s.now
    ensures var t := Apply(k, s, op);
            && CountersOk(k, t) && time < t.now
            && (Overdue(s, time) == {} ==> Overdue(t, time) == {})
            && (Overdue(s, time) != {} ==> Measure(k, t, time) + Turns([op]) <= Measure(k, s, time))
  {
    StepInv(k, s, op);
    assert [op][1..] == [];
    if op.Turn? {
      TurnFewer(k, s, time);
      if Overdue(s, time) != {} {
        TurnMeasure(k, s, time);
      }
    } else {
      OtherFewer(k, s, op, time);
      var n, m := |Overdue(Apply(k, s, op), time)|, |Overdue(s, time)|;
      FewerDue(n, m, BatchLimit(k), Patience(k), s.batching, s.starved);
    }
  }

  lemma TurnsCons(ops: seq<Op>)
    requires ops != []
    ensures Turns(ops) == Turns([ops[0]]) + Turns(ops[1..])
  {
    assert [ops[0]][1..] == [];
  }

  lemma PotentialZero(n: nat, limit: nat, patience: nat, batching: nat, starved: nat)
    requires batching <= limit && starved <= patience && limit > 0
    ensures Potential(n, limit, patience, batching, starved) == 0 <==> n == 0
  {
    if n > 0 {
      MulMono(0, n - 1, patience + 1);
      MulMono(0, Batches(n, patience, patience - starved) - 1, limit);
    }
  }

  lemma NothingOverdue(k: Tunables, s: Sched, time: int)
    requires CountersOk(k, s)
    ensures Measure(k, s, time) == 0 <==> Overdue(s, time) == {}
  {
    PotentialZero(|Overdue(s, time)|, BatchLimit(k), Patience(k), s.batching, s.starved);
  }

  lemma {:induction false} RunMeasure(k: Tunables, s: Sched, ops: seq<Op>, t: Sched, time: int)
    requires Inv(k, s) && IsRun(k, s, ops, t) && time < s.now
    ensures Inv(k, t)
    ensures Overdue(t, time) == {} || Measure(k, t, time) + Turns(ops) <= Measure(k, s, time)
    decreases |ops|
  {
    if ops != [] {
      var u := Apply(k, s, ops[0]);
      StepInv(k, s, ops[0]);
      StepMeasure(k, s, ops[0], time);
      RunMeasure(k, u, ops[1..], t, time);
      TurnsCons(ops);
      NothingOverdue(k, u, time);
      NothingOverdue(k, t, time);
    }
  }

  lemma MeasureBound(k: Tunables, s: Sched, time: int)
    requires CountersOk(k, s)
    ensures Measure(k, s, time) <= WaitBound(k, |Overdue(s, time)|)
  {
    PotentialBound(|Overdue(s, time)|, BatchLimit(k), Patience(k), s.batching, s.starved);
  }

  /** From a good state, that many dispatch calls see every write off that was due. */
  lemma AllServed(k: Tunables, s: Sched, ops: seq<Op>, t: Sched, time: int)
    requires Inv(k, s) && IsRun(k, s, ops, t) && time < s.now
    requires Turns(ops) >= WaitBound(k, |Overdue(s, time)|)
    ensures Inv(k, t) && Overdue(t, time) == {}
  {
    RunMeasure(k, s, ops, t, time);
    MeasureBound(k, s, time);
    NothingOverdue(k, t, time);
  }

  lemma {:induction false} RunKeeps(k: Tunables, s: Sched, ops: seq<Op>, t: Sched)
    requires Inv(k, s) && IsRun(k, s, ops, t)
    ensures Inv(k, t)
    decreases |ops|
  {
    if ops != [] {
      StepInv(k, s, ops[0]);
      RunKeeps(k, Apply(k, s, ops[0]), ops[1..], t);
    }
  }

  lemma InitInv(k: Tunables, now: int)
    ensures Inv(k, Init(now))
  {
  }

  /** Entries are never dropped, and what they say of the original request never changes. */
  lemma StepRemembers(k: Tunables, s: Sched, op: Op, x: nat)
    requires Enabled(s, op) && x in s.book
    ensures var t := Apply(k, s, op);
            x in t.book && t.book[x].due == s.book[x].due && t.book[x].write == s.book[x].write
  {
    match op
    case Add(id, sector, write) => AddParts(k, s, id, sector, write);
    case Front(id, sector) =>
    case Merge(req, next) => MergeShape(s, req, next, At(s.rqs, next).write);
    case Turn =>
    case Tick(now) =>
  }

  lemma {:induction false} RunRemembers(k: Tunables, s: Sched, ops: seq<Op>, t: Sched, x: nat)
    requires IsRun(k, s, ops, t) && x in s.book
    ensures x in t.book && t.book[x].due == s.book[x].due && t.book[x].write == s.book[x].write
    decreases |ops|
  {
    if ops != [] {
      StepRemembers(k, s, ops[0], x);
      RunRemembers(k, Apply(k, s, ops[0]), ops[1..], t, x);
    }
  }

  /**
   * How long an expired write can still wait.  From any reachable state, with n writes due by a time
   * that has passed, any run with at least n * (writes_starved + 1) * fifo_batch + 1 dispatch calls,
   * whatever arrives and merges in between, ends with all of them dispatched, each by itself or in
   * the request it was merged into.
   */
  lemma LatencyBound(k: Tunables, start: int, before: seq<Op>, s: Sched, ops: seq<Op>, t: Sched, x: nat)
    requires IsRun(k, Init(start), before, s) && x in s.book && s.book[x].write && s.book[x].due < s.now
    requires IsRun(k, s, ops, t)
    requires Turns(ops) >= WaitBound(k, |Overdue(s, s.book[x].due)|)
    ensures x in t.book && t.book[x].home in t.dispatched
  {
    InitInv(k, start);
    RunKeeps(k, Init(start), before, s);
    AllServed(k, s, ops, t, s.book[x].due);
    RunRemembers(k, s, ops, t, x);
    ServedOrWaiting(t, x);
  }

  lemma ServedOrWaiting(t: Sched, x: nat)
    requires BooksOk(t) && x in t.book && t.book[x].write
    ensures t.book[x].home in t.dispatched || t.book[x].home in Overdue(t, t.book[x].due)
  {
    assert Kept(t.rqs, Elems(t.rd.fifo), Elems(t.wr.fifo), t.dispatched, t.book[x]);
  }

  /** In every reachable state both views of a direction agree, in their two orders, and nothing is sent twice. */
  lemma ViewsAgree(k: Tunables, start: int, ops: seq<Op>, s: Sched, write: bool)
    requires IsRun(k, Init(start), ops, s)
    ensures var l := LaneOf(s, write);
            && BySector(s.rqs, l.sorted) && ByExpiry(s.rqs, l.fifo) && Distinct(l.fifo)
            && Elems(l.sorted) == Elems(l.fifo) && (l.sorted == [] <==> l.fifo == [])
            && (l.next.Some? ==> l.next.id in l.sorted) && (s.rd.next.None? || s.wr.next.None?)
    ensures Distinct(s.dispatched)
  {
    InitInv(k, start);
    RunKeeps(k, Init(start), ops, s);
    Flip(k, s, true);
    var l := LaneOf(s, write);
    assert LaneOk(s.rqs, l, write, s.now + Expire(k, write), {});
    assert l.sorted != [] ==> l.sorted[0] in l.fifo;
    assert l.fifo != [] ==> l.fifo[0] in l.sorted;
  }

  /** Every accepted request is still there, in one that is due no later than it was, or has been sent. */
  lemma NothingLost(k: Tunables, start: int, ops: seq<Op>, s: Sched, x: nat)
    requires IsRun(k, Init(start), ops, s) && x in s.book
    ensures var e := s.book[x];
            e.home in s.dispatched ||
            (e.home in LaneOf(s, e.write).fifo && e.home in s.rqs && s.rqs[e.home].expiry <= e.due)
  {
    InitInv(k, start);
    RunKeeps(k, Init(start), ops, s);
    assert Kept(s.rqs, Elems(s.rd.fifo), Elems(s.wr.fifo), s.dispatched, s.book[x]);
  }

  // ---------------------------------------------------------------- what merging does to a place in the queue

  /**
   * When `next`, at place i, is merged into `req`, at place j, the survivor is at place i or before
   * exactly when `next` expires earlier or `req` was not more than one place behind.  With equal
   * expiry times it can fall behind requests that `next` was ahead of.
   */
  lemma MergePlace(k: Tunables, s: Sched, write: bool, i: nat, j: nat)
    requires BothOk(k, s, write, {}) && i < |LaneOf(s, write).fifo| && j < |LaneOf(s, write).fifo| && i != j
    ensures var fifo := LaneOf(s, write).fifo;
            var t := MergedRequests(s, fifo[j], fifo[i]);
            Pos(LaneOf(t, write).fifo, fifo[j]) <= i <==>
            At(s.rqs, fifo[i]).expiry < At(s.rqs, fifo[j]).expiry || j <= i + 1
  {
    var fifo := LaneOf(s, write).fifo;
    var req, next := fifo[j], fifo[i];
    MergeShape(s, req, next, write);
    if At(s.rqs, next).expiry < At(s.rqs, req).expiry {
      TakePlaceAt(fifo, req, next);
      WithoutAt(fifo, req);
      PosUnique(fifo, j);
      assert i < j;
      assert Without(fifo, req)[i] == next;
      PosUnique(TakePlace(fifo, req, next), i);
    } else {
      WithoutAt(fifo, next);
      PosUnique(fifo, i);
      var p := if j < i then j else j - 1;
      assert Without(fifo, next)[p] == req;
      PosUnique(Without(fifo, next), p);
    }
  }

  /** Accepting a write whose sector is free. */
  lemma FreeAdd(k: Tunables, s: Sched, id: nat, sector: nat)
    requires id !in s.wr.sorted && forall x :: x in s.wr.sorted ==> At(s.rqs, x).sector != sector
    ensures var t := AddRequest(k, s, id, sector, true);
            && t.wr.fifo == s.wr.fifo + [id] && t.rqs == s.rqs[id := Rq(sector, true, s.now + k.writeExpire)]
            && t.now == s.now && (forall x :: x in t.wr.sorted ==> x in s.wr.sorted || x == id)
            && t.wr.sorted == Inserted(s.wr.sorted, Slot(t.rqs, s.wr.sorted, sector), id)
  {
    var rqs := s.rqs[id := Rq(sector, true, s.now + k.writeExpire)];
    var s1 := s.(rqs := rqs);
    assert Cleared(s1, id) == s1;
    AddShape(k, s, id, sector, true);
    InsertedSet(s.wr.sorted, Slot(rqs, s.wr.sorted, sector), id);
  }

  lemma OneWrite(k: Tunables) returns (a: Sched)
    ensures a == AddRequest(k, Init(0), 1, 30, true)
    ensures a.wr.fifo == [1] && a.wr.sorted == [1] && a.now == 0 && a.rqs == map[1 := Rq(30, true, k.writeExpire)]
  {
    FreeAdd(k, Init(0), 1, 30);
    a := AddRequest(k, Init(0), 1, 30, true);
  }

  lemma SecondWrite(k: Tunables, a: Sched)
    requires a.wr.fifo == [1] && a.wr.sorted == [1] && a.now == 0 && a.rqs == map[1 := Rq(30, true, k.writeExpire)]
    ensures var b := AddRequest(k, a, 2, 50, true);
            && b.wr.fifo == [1, 2] && b.now == 0 && b.wr.sorted == [1, 2] && 1 in b.rqs && 2 in b.rqs
            && b.rqs[1] == Rq(30, true, k.writeExpire) && b.rqs[2] == Rq(50, true, k.writeExpire)
  {
    FreeAdd(k, a, 2, 50);
    var rqs := a.rqs[2 := Rq(50, true, k.writeExpire)];
    assert Slot(rqs, [1], 50) == 1;
    assert Inserted([1], 1, 2) == [1, 2];
  }

  lemma TwoWrites(k: Tunables) returns (b: Sched)
    ensures b == AddRequest(k, AddRequest(k, Init(0), 1, 30, true), 2, 50, true)
    ensures b.wr.fifo == [1, 2] && b.now == 0 && b.wr.sorted == [1, 2]
    ensures 1 in b.rqs && 2 in b.rqs && b.rqs[1] == Rq(30, true, k.writeExpire) &&
            b.rqs[2] == Rq(50, true, k.writeExpire)
  {
    var a := OneWrite(k);
    SecondWrite(k, a);
    b := AddRequest(k, a, 2, 50, true);
  }

  /** Three writes accepted at the same time; the first is merged into the last, before it, and loses its place. */
  lemma TiedMergeExample(k: Tunables)
    ensures var b := AddRequest(k, AddRequest(k, Init(0), 1, 30, true), 2, 50, true);
            var c := AddRequest(k, b, 3, 10, true);
            Enabled(c, Merge(3, 1)) && c.wr.fifo == [1, 2, 3] && MergedRequests(c, 3, 1).wr.fifo == [2, 3]
  {
    var b := TwoWrites(k);
    var c := AddRequest(k, b, 3, 10, true);
    ThirdWrite(k, b, c);
    TiedMerge(c, 1, 2, 3);
  }

  lemma ThirdWrite(k: Tunables, b: Sched, c: Sched)
    requires b.wr.fifo == [1, 2] && b.now == 0 && b.wr.sorted == [1, 2] && 1 in b.rqs && 2 in b.rqs
    requires b.rqs[1] == Rq(30, true, k.writeExpire) && b.rqs[2] == Rq(50, true, k.writeExpire)
    requires c == AddRequest(k, b, 3, 10, true)
    ensures Enabled(c, Merge(3, 1)) && c.wr.fifo == [1, 2, 3] && c.rqs[1].expiry == c.rqs[3].expiry && c.rqs[1].write
  {
    FreeAdd(k, b, 3, 10);
    assert Slot(c.rqs, [1, 2], 10) == 0;
    FrontFirst(c.wr.sorted, 3, 1, 2);
  }

  lemma FrontFirst(l: seq<nat>, x: nat, y: nat, z: nat)
    requires l == Inserted([y, z], 0, x)
    ensures Latter(l, x) == Some(y)
  {
    assert l[0] == x && l[1] == y;
  }

  lemma TiedMerge(c: Sched, x: nat, y: nat, z: nat)
    requires c.wr.fifo == [x, y, z] && x in c.rqs && z in c.rqs && x != z && c.rqs[x].write
    requires c.rqs[x].expiry == c.rqs[z].expiry
    ensures MergedRequests(c, z, x).wr.fifo == [y, z]
  {
    MergeShape(c, z, x, true);
    assert Pos([x, y, z], x) == 0;
  }

  // ---------------------------------------------------------------- draining

  /** A dispatch call sends one waiting request, or there is none. */
  lemma TurnSends(k: Tunables, s: Sched)
    requires Inv(k, s)
    ensures var t := Dispatch(k, s);
            if s.rd.fifo == [] && s.wr.fifo == [] then t == s
            else exists id :: SentAway(s, t, Some(id))
  {
    var some, id, write, batching, starved := Sent(k, s);
    if some {
      Flip(k, s, true);
      MoveSends(k, s, id, write, {});
      assert SentAway(s, Dispatch(k, s), Some(id));
    }
  }

  function Waits(s: Sched): set<nat> { Elems(s.rd.fifo) + Elems(s.wr.fifo) }

  /** The state after `n` dispatch calls. */
  function After(k: Tunables, s: Sched, n: nat): Sched
    decreases n
  {
    if n == 0 then s else After(k, Dispatch(k, s), n - 1)
  }

  lemma NoneWait(s: Sched)
    ensures Waits(s) == {} <==> s.rd.fifo == [] && s.wr.fifo == []
  {
    assert s.rd.fifo != [] ==> s.rd.fifo[0] in Waits(s);
    assert s.wr.fifo != [] ==> s.wr.fifo[0] in Waits(s);
  }

  lemma DrainStep(k: Tunables, s: Sched)
    requires Inv(k, s)
    ensures var u := Dispatch(k, s);
            && Elems(u.dispatched) + Waits(u) == Elems(s.dispatched) + Waits(s)
            && |Waits(u)| == if Waits(s) == {} then 0 else |Waits(s)| - 1
  {
    NoneWait(s);
    TurnSends(k, s);
    if Waits(s) != {} {
      var u := Dispatch(k, s);
      var id :| SentAway(s, u, Some(id));
      assert Waits(u) == Waits(s) - {id};
      ElemsSnoc(s.dispatched, id);
    }
  }

  lemma DrainTurn(k: Tunables, s: Sched, n: nat) returns (u: Sched)
    requires Inv(k, s) && n > 0
    ensures Inv(k, u) && After(k, s, n) == After(k, u, n - 1)
    ensures Elems(u.dispatched) + Waits(u) == Elems(s.dispatched) + Waits(s)
    ensures |Waits(u)| == if Waits(s) == {} then 0 else |Waits(s)| - 1
  {
    u := Dispatch(k, s);
    TurnInv(k, s);
    DrainStep(k, s);
  }

  lemma NothingMore(sent: set<nat>, waits: set<nat>)
    requires |waits| == 0
    ensures waits == {} && sent + waits == sent
  {
  }

  /** Calling dispatch as often as there are requests empties the scheduler, each request going once. */
  lemma {:induction false} Drains(k: Tunables, s: Sched, n: nat)
    requires Inv(k, s) && n >= |Waits(s)|
    ensures Waits(After(k, s, n)) == {} && Elems(After(k, s, n).dispatched) == Elems(s.dispatched) + Waits(s)
    decreases n
  {
    if n > 0 {
      var u := DrainTurn(k, s, n);
      Drains(k, u, n - 1);
    } else {
      NothingMore(Elems(s.dispatched), Waits(s));
    }
  }
}
