/**
 * Conservation in the deadline scheduler: every accepted request is in the scheduler or has been
 * dispatched once, alone or as part of a request it was merged into, and merging never delays it.
 */
module DeadlineBooks {
  import opened Lists
  import opened Deadline
  import opened DeadlineInv

  function Elems(l: seq<nat>): set<nat> { set x | x in l }

  function Side(r: set<nat>, w: set<nat>, write: bool): set<nat> { if write then w else r }

  /** An accepted request was sent, or waits in one that is due no later. */
  ghost predicate Kept(rqs: map<nat, Rq>, r: set<nat>, w: set<nat>, sent: seq<nat>, e: Entry) {
    && e.home in rqs && rqs[e.home].write == e.write
    && (e.home in sent || (e.home in Side(r, w, e.write) && rqs[e.home].expiry <= e.due))
  }

  ghost predicate AllKept(rqs: map<nat, Rq>, r: set<nat>, w: set<nat>, sent: seq<nat>, book: map<nat, Entry>) {
    forall x :: x in book ==> Kept(rqs, r, w, sent, book[x])
  }

  /** What waits is in the books under its own name. */
  ghost predicate Waiting(rqs: map<nat, Rq>, book: map<nat, Entry>, l: set<nat>, write: bool) {
    forall x :: x in l ==> x in rqs && rqs[x].write == write && x in book && book[x].home == x && book[x].write == write
  }

  ghost predicate SentOnce(rqs: map<nat, Rq>, r: set<nat>, w: set<nat>, sent: seq<nat>) {
    Distinct(sent) && forall x :: x in sent ==> x !in r && x !in w && x in rqs
  }

  /** `r` and `w` are the reads and writes in the scheduler. */
  ghost predicate Books(rqs: map<nat, Rq>, r: set<nat>, w: set<nat>, sent: seq<nat>, book: map<nat, Entry>) {
    && SentOnce(rqs, r, w, sent) && Waiting(rqs, book, r, false) && Waiting(rqs, book, w, true)
    && AllKept(rqs, r, w, sent, book)
  }

  ghost predicate BooksOk(s: Sched) {
    Books(s.rqs, Elems(s.rd.fifo), Elems(s.wr.fifo), s.dispatched, s.book)
  }

  lemma BooksSend(rqs: map<nat, Rq>, r: set<nat>, w: set<nat>, sent: seq<nat>, book: map<nat, Entry>, id: nat)
    requires Books(rqs, r, w, sent, book) && (id in r || id in w)
    ensures Books(rqs, r - {id}, w - {id}, sent + [id], book)
  {
    assert id in sent + [id];
    assert forall x :: x in sent + [id] <==> x in sent || x == id;
  }

  lemma BooksEnlist(rqs: map<nat, Rq>, r: set<nat>, w: set<nat>, sent: seq<nat>, book: map<nat, Entry>, id: nat, rq: Rq)
    requires Books(rqs, r, w, sent, book) && id !in rqs && id !in book
    ensures Books(rqs[id := rq], if rq.write then r else r + {id}, if rq.write then w + {id} else w,
                  sent, book[id := Entry(id, rq.expiry, rq.write)])
  {
  }

  lemma BooksSector(rqs: map<nat, Rq>, r: set<nat>, w: set<nat>, sent: seq<nat>, book: map<nat, Entry>, id: nat,
                    sector: nat)
    requires Books(rqs, r, w, sent, book) && id in rqs
    ensures Books(rqs[id := rqs[id].(sector := sector)], r, w, sent, book)
  {
  }

  lemma BooksMerge(rqs: map<nat, Rq>, r: set<nat>, w: set<nat>, sent: seq<nat>, book: map<nat, Entry>,
                   req: nat, next: nat, write: bool, expiry: int)
    requires Books(rqs, r, w, sent, book) && req != next
    requires req in Side(r, w, write) && next in Side(r, w, write)
    requires expiry <= rqs[req].expiry && expiry <= rqs[next].expiry
    ensures Books(rqs[req := rqs[req].(expiry := expiry)], if write then r else r - {next},
                  if write then w - {next} else w, sent, Redirected(book, req, next))
  {
  }

  // ---------------------------------------------------------------- what each operation moves

  /** `t` is `s` after sending what `a` names, if anything. */
  ghost predicate SentAway(s: Sched, t: Sched, a: Next) {
    if a.None? then
      Elems(t.rd.fifo) == Elems(s.rd.fifo) && Elems(t.wr.fifo) == Elems(s.wr.fifo) && t.dispatched == s.dispatched
    else
      && (a.id in s.rd.fifo || a.id in s.wr.fifo)
      && Elems(t.rd.fifo) == Elems(s.rd.fifo) - {a.id} && Elems(t.wr.fifo) == Elems(s.wr.fifo) - {a.id}
      && t.dispatched == s.dispatched + [a.id]
  }

  lemma MoveSends(k: Tunables, s: Sched, id: nat, write: bool, out: set<nat>)
    requires BothOk(k, s, write, out) && id in LaneOf(s, write).sorted && id !in out
    ensures SentAway(s, MoveRequest(s, id), Some(id))
  {
    assert id in LaneOf(s, write).fifo;
    Moved(s, id, write);
    MoveOk(k, s, id, write, out);
    assert id !in LaneOf(s, !write).fifo;
    var t := MoveRequest(s, id);
    assert Elems(LaneOf(t, write).fifo) == Elems(LaneOf(s, write).fifo) - {id};
    assert Elems(LaneOf(t, !write).fifo) == Elems(LaneOf(s, !write).fifo) - {id};
  }

  lemma ClearedSends(k: Tunables, s: Sched, id: nat, write: bool, out: set<nat>) returns (a: Next)
    requires BothOk(k, s, write, out) && At(s.rqs, id).write == write
    ensures SentAway(s, Cleared(s, id), a) && (a.Some? ==> a.id in LaneOf(s, write).sorted)
  {
    a := Alias(s.rqs, LaneOf(s, write).sorted, At(s.rqs, id).sector);
    if a.Some? {
      MoveSends(k, s, a.id, write, out);
    }
  }

  lemma ElemsSnoc(l: seq<nat>, id: nat)
    ensures Elems(l + [id]) == Elems(l) + {id}
  {
  }

  /** The state in the middle of an insertion, and what it sent. */
  lemma AddSends(k: Tunables, s: Sched, id: nat, rq: Rq, write: bool) returns (c: Sched, a: Next)
    requires BothOk(k, s, write, {}) && id !in LaneOf(s, write).fifo && id !in LaneOf(s, !write).fifo &&
             rq.write == write
    ensures SentAway(s, c, a) && c == Cleared(s.(rqs := s.rqs[id := rq]), id)
  {
    var s1 := s.(rqs := s.rqs[id := rq]);
    NewRqOk(k, s, id, rq, write);
    a := ClearedSends(k, s1, id, write, {});
    c := Cleared(s1, id);
  }

  lemma FrontSends(k: Tunables, s: Sched, id: nat, sector: nat, write: bool) returns (a: Next)
    requires BothOk(k, s, write, {}) && id in LaneOf(s, write).fifo
    ensures SentAway(s, FrontMerged(s, id, sector), a)
    ensures var t := FrontMerged(s, id, sector);
            && t.rqs == s.rqs[id := s.rqs[id].(sector := sector)] && t.book == s.book
            && t.batching == s.batching && t.starved == s.starved && t.now == s.now
  {
    var rqs, l, limit' := s.rqs[id := s.rqs[id].(sector := sector)], LaneOf(s, write), s.now + Expire(k, !write);
    var s1 := PutLane(s, write, l.(sorted := Without(l.sorted, id))).(rqs := rqs);
    PulledLane(s.rqs, l, id, write, s.now + Expire(k, write), sector);
    LaneFrame(s.rqs, rqs, LaneOf(s, !write), !write, limit', limit', {});
    a := ClearedSends(k, s1, id, write, {id});
    AddRbShape(s1, id, write);
  }

  lemma MergeMoves(k: Tunables, s: Sched, req: nat, next: nat, write: bool)
    requires BothOk(k, s, write, {}) && req in LaneOf(s, write).fifo && next in LaneOf(s, write).fifo && req != next
    ensures var t := MergedRequests(s, req, next);
            && Elems(LaneOf(t, write).fifo) == Elems(LaneOf(s, write).fifo) - {next}
            && LaneOf(t, !write).fifo == LaneOf(s, !write).fifo && t.dispatched == s.dispatched
            && t.book == Redirected(s.book, req, next)
            && t.batching == s.batching && t.starved == s.starved && t.now == s.now
  {
    MergeShape(s, req, next, write);
    var l := LaneOf(s, write);
    if At(s.rqs, next).expiry < At(s.rqs, req).expiry {
      TakePlaceAt(l.fifo, req, next);
    } else {
      DropOk(s.rqs, l, next, write, s.now + Expire(k, write), {});
    }
  }
}
