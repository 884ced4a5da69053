/**
 * What every operation of the deadline scheduler keeps: both views of a direction hold the same
 * requests, one in sector order and one in expiry order, and no request is lost or sent twice.
 */
module DeadlineInv {
  import opened Lists
  import opened Deadline

  ghost predicate BySector(rqs: map<nat, Rq>, l: seq<nat>) {
    forall i, j :: 0 <= i < j < |l| ==> At(rqs, l[i]).sector < At(rqs, l[j]).sector
  }

  ghost predicate ByExpiry(rqs: map<nat, Rq>, l: seq<nat>) {
    forall i, j :: 0 <= i < j < |l| ==> At(rqs, l[i]).expiry <= At(rqs, l[j]).expiry
  }

  ghost predicate Members(rqs: map<nat, Rq>, l: seq<nat>, write: bool) {
    forall x :: x in l ==> x in rqs && rqs[x].write == write
  }

  /** No request expires later than one accepted right now would. */
  ghost predicate NotBeyond(rqs: map<nat, Rq>, l: seq<nat>, limit: int) {
    forall x :: x in l ==> At(rqs, x).expiry <= limit
  }

  /** The two views agree, but for requests that are for the moment out of the sector order. */
  ghost predicate Agree(l: Lane, out: set<nat>) {
    forall x :: x in l.fifo <==> x in l.sorted || x in out
  }

  ghost predicate LaneOk(rqs: map<nat, Rq>, l: Lane, write: bool, limit: int, out: set<nat>) {
    && BySector(rqs, l.sorted) && (forall x :: x in out ==> x !in l.sorted)
    && Distinct(l.fifo) && ByExpiry(rqs, l.fifo) && NotBeyond(rqs, l.fifo, limit)
    && Agree(l, out) && Members(rqs, l.fifo, write)
    && (l.next.Some? ==> l.next.id in l.fifo)
  }

  /** Both directions, the one seen first with requests `out` of its order. */
  ghost predicate BothOk(k: Tunables, s: Sched, write: bool, out: set<nat>) {
    PairOk(k, s.rqs, s.now, LaneOf(s, write), LaneOf(s, !write), write, out)
  }

  ghost predicate PairOk(k: Tunables, rqs: map<nat, Rq>, now: int, mine: Lane, other: Lane, write: bool,
                         out: set<nat>) {
    && LaneOk(rqs, mine, write, now + Expire(k, write), out)
    && LaneOk(rqs, other, !write, now + Expire(k, !write), {})
    && (mine.next.None? || other.next.None?)
  }

  ghost predicate LanesOk(k: Tunables, s: Sched) { BothOk(k, s, true, {}) }

  // ---------------------------------------------------------------- lists

  lemma SectorDistinct(rqs: map<nat, Rq>, l: seq<nat>)
    requires BySector(rqs, l)
    ensures Distinct(l)
  {
  }

  lemma WithoutBySector(rqs: map<nat, Rq>, l: seq<nat>, id: nat)
    requires BySector(rqs, l)
    ensures BySector(rqs, Without(l, id))
  {
    SectorDistinct(rqs, l);
    WithoutAt(l, id);
  }

  lemma WithoutByExpiry(rqs: map<nat, Rq>, l: seq<nat>, id: nat)
    requires Distinct(l) && ByExpiry(rqs, l)
    ensures ByExpiry(rqs, Without(l, id))
  {
    WithoutAt(l, id);
  }

  lemma LatterIn(rqs: map<nat, Rq>, l: seq<nat>, id: nat)
    requires BySector(rqs, l)
    ensures Latter(l, id).Some? ==> Latter(l, id).id in l && Latter(l, id).id != id
  {
  }

  /** A request leaves a direction. */
  lemma DropOk(rqs: map<nat, Rq>, l: Lane, id: nat, write: bool, limit: int, out: set<nat>)
    requires LaneOk(rqs, l, write, limit, out) && id !in out
    ensures LaneOk(rqs, Drop(l, id), write, limit, out)
    ensures forall x :: x in Drop(l, id).fifo <==> x in l.fifo && x != id
  {
    SectorDistinct(rqs, l.sorted);
    WithoutAt(l.sorted, id);
    WithoutAt(l.fifo, id);
    WithoutBySector(rqs, l.sorted, id);
    WithoutByExpiry(rqs, l.fifo, id);
    LatterIn(rqs, l.sorted, id);
  }

  lemma Moved(s: Sched, id: nat, write: bool)
    requires At(s.rqs, id).write == write
    ensures var t, l := MoveRequest(s, id), LaneOf(s, write);
            && LaneOf(t, write) == Drop(l.(next := Latter(l.sorted, id)), id)
            && LaneOf(t, !write) == LaneOf(s, !write).(next := None)
            && t.rqs == s.rqs && t.now == s.now && t.batching == s.batching && t.starved == s.starved
            && t.book == s.book && t.dispatched == s.dispatched + [id]
  {
  }

  lemma MovedLane(rqs: map<nat, Rq>, l: Lane, id: nat, write: bool, limit: int, out: set<nat>)
    requires LaneOk(rqs, l, write, limit, out) && id in l.sorted && id !in out
    ensures var m := Drop(l.(next := Latter(l.sorted, id)), id);
            LaneOk(rqs, m, write, limit, out) && forall x :: x in m.fifo <==> x in l.fifo && x != id
  {
    LatterIn(rqs, l.sorted, id);
    DropOk(rqs, l.(next := Latter(l.sorted, id)), id, write, limit, out);
  }

  lemma NoNext(rqs: map<nat, Rq>, l: Lane, write: bool, limit: int, out: set<nat>)
    requires LaneOk(rqs, l, write, limit, out)
    ensures LaneOk(rqs, l.(next := None), write, limit, out)
  {
  }

  /** A request goes to the dispatch queue. */
  lemma MoveOk(k: Tunables, s: Sched, id: nat, write: bool, out: set<nat>)
    requires BothOk(k, s, write, out) && At(s.rqs, id).write == write && id in LaneOf(s, write).sorted && id !in out
    ensures BothOk(k, MoveRequest(s, id), write, out)
    ensures forall x :: x in LaneOf(MoveRequest(s, id), write).fifo <==> x in LaneOf(s, write).fifo && x != id
  {
    var a, b := LaneOf(s, write), LaneOf(s, !write);
    Moved(s, id, write);
    MovedLane(s.rqs, a, id, write, s.now + Expire(k, write), out);
    NoNext(s.rqs, b, !write, s.now + Expire(k, !write), {});
  }

  lemma SlotAt(rqs: map<nat, Rq>, sorted: seq<nat>, i: nat, sector: nat)
    requires i <= |sorted| && forall j :: 0 <= j < i ==> At(rqs, sorted[j]).sector < sector
    requires i < |sorted| ==> At(rqs, sorted[i]).sector >= sector
    ensures Slot(rqs, sorted, sector) == i
  {
    if i > 0 {
      SlotAt(rqs, sorted[1..], i - 1, sector);
    }
  }

  /** A request moves into its place in the sector order. */
  lemma InsertOk(rqs: map<nat, Rq>, sorted: seq<nat>, id: nat)
    requires BySector(rqs, sorted) && forall x :: x in sorted ==> At(rqs, x).sector != At(rqs, id).sector
    ensures BySector(rqs, Inserted(sorted, Slot(rqs, sorted, At(rqs, id).sector), id))
  {
    var sector := At(rqs, id).sector;
    var p := Slot(rqs, sorted, sector);
    var l := Inserted(sorted, p, id);
    assert p < |sorted| ==> sorted[p] in sorted;
    forall i, j | 0 <= i < j < |l|
      ensures At(rqs, l[i]).sector < At(rqs, l[j]).sector
    {
      if i == p {
        assert l[j] == sorted[j - 1];
      } else if j == p {
        assert l[i] == sorted[i];
      }
    }
  }

  lemma AliasGone(rqs: map<nat, Rq>, sorted: seq<nat>, sector: nat)
    requires BySector(rqs, sorted)
    ensures var a := Alias(rqs, sorted, sector);
            var rest := if a.Some? then Without(sorted, a.id) else sorted;
            forall x :: x in rest ==> At(rqs, x).sector != sector
  {
    var a := Alias(rqs, sorted, sector);
    if a.Some? {
      SectorDistinct(rqs, sorted);
      WithoutAt(sorted, a.id);
    }
  }

  lemma ClearedOk(k: Tunables, s: Sched, id: nat, write: bool, out: set<nat>)
    requires BothOk(k, s, write, out) && At(s.rqs, id).write == write
    ensures BothOk(k, Cleared(s, id), write, out)
    ensures Cleared(s, id).rqs == s.rqs && Cleared(s, id).now == s.now
    ensures forall x :: x in LaneOf(Cleared(s, id), write).fifo ==> x in LaneOf(s, write).fifo
    ensures forall x :: x in LaneOf(Cleared(s, id), write).sorted ==> At(s.rqs, x).sector != At(s.rqs, id).sector
  {
    var sorted, sector := LaneOf(s, write).sorted, At(s.rqs, id).sector;
    AliasGone(s.rqs, sorted, sector);
    var a := Alias(s.rqs, sorted, sector);
    if a.Some? {
      Moved(s, a.id, write);
      MoveOk(k, s, a.id, write, out);
    }
  }

  lemma InsertedLane(rqs: map<nat, Rq>, l: Lane, id: nat, write: bool, limit: int)
    requires LaneOk(rqs, l, write, limit, {id})
    requires forall x :: x in l.sorted ==> At(rqs, x).sector != At(rqs, id).sector
    ensures LaneOk(rqs, l.(sorted := Inserted(l.sorted, Slot(rqs, l.sorted, At(rqs, id).sector), id)), write, limit, {})
  {
    InsertOk(rqs, l.sorted, id);
    InsertedSet(l.sorted, Slot(rqs, l.sorted, At(rqs, id).sector), id);
  }

  /** Into the sector order goes a request that was out of it. */
  lemma AddRbOk(k: Tunables, s: Sched, id: nat, write: bool)
    requires BothOk(k, s, write, {id}) && At(s.rqs, id).write == write
    ensures BothOk(k, AddRb(s, id), write, {})
  {
    ClearedOk(k, s, id, write, {id});
    InsertedLane(s.rqs, LaneOf(Cleared(s, id), write), id, write, s.now + Expire(k, write));
  }

  /** Requests outside a direction may change without it noticing. */
  lemma LaneFrame(rqs: map<nat, Rq>, rqs': map<nat, Rq>, l: Lane, write: bool, limit: int, limit': int, out: set<nat>)
    requires LaneOk(rqs, l, write, limit, out) && limit <= limit'
    requires forall x :: x in l.fifo ==> x in rqs' && At(rqs', x) == At(rqs, x)
    ensures LaneOk(rqs', l, write, limit', out)
  {
    SameSectors(rqs, rqs', l.sorted);
    SameTimes(rqs, rqs', l.fifo);
  }

  // ---------------------------------------------------------------- each operation keeps the lanes

  lemma AppendedLane(rqs: map<nat, Rq>, l: Lane, id: nat, write: bool, limit: int)
    requires LaneOk(rqs, l, write, limit, {}) && id !in l.fifo
    requires id in rqs && rqs[id].write == write && rqs[id].expiry == limit
    ensures LaneOk(rqs, l.(fifo := l.fifo + [id]), write, limit, {id})
  {
  }

  lemma EnlistedLane(rqs: map<nat, Rq>, l: Lane, id: nat, write: bool, limit: int)
    requires LaneOk(rqs, l, write, limit, {}) && id !in l.fifo
    requires id in rqs && rqs[id].write == write && rqs[id].expiry == limit
    requires forall x :: x in l.sorted ==> At(rqs, x).sector != At(rqs, id).sector
    ensures var p := Slot(rqs, l.sorted, rqs[id].sector);
            LaneOk(rqs, l.(sorted := Inserted(l.sorted, p, id), fifo := l.fifo + [id]), write, limit, {})
  {
    AppendedLane(rqs, l, id, write, limit);
    InsertedLane(rqs, l.(fifo := l.fifo + [id]), id, write, limit);
  }

  lemma AddParts(k: Tunables, s: Sched, id: nat, sector: nat, write: bool)
    ensures var t, b := AddRequest(k, s, id, sector, write),
            Entered(s, id, Rq(sector, write, s.now + Expire(k, write)));
            && t.rqs == s.rqs[id := Rq(sector, write, s.now + Expire(k, write))] && t.now == s.now
            && LaneOf(t, !write) == LaneOf(b, !write) && t.dispatched == b.dispatched
            && LaneOf(t, write) == LaneOf(b, write).(fifo := LaneOf(b, write).fifo + [id])
            && t.batching == s.batching && t.starved == s.starved
            && t.book == s.book[id := Entry(id, s.now + Expire(k, write), write)]
  {
    EnlistShape(Entered(s, id, Rq(sector, write, s.now + Expire(k, write))), id, write,
                s.book[id := Entry(id, s.now + Expire(k, write), write)]);
  }

  lemma AddShape(k: Tunables, s: Sched, id: nat, sector: nat, write: bool)
    ensures var rqs := s.rqs[id := Rq(sector, write, s.now + Expire(k, write))];
            var t, c := AddRequest(k, s, id, sector, write), Cleared(s.(rqs := rqs), id);
            var l := LaneOf(c, write);
            && t.rqs == rqs && t.now == s.now && LaneOf(t, !write) == LaneOf(c, !write)
            && LaneOf(t, write) == l.(sorted := Inserted(l.sorted, Slot(rqs, l.sorted, sector), id),
                                      fifo := l.fifo + [id])
            && t.dispatched == c.dispatched
  {
    AddParts(k, s, id, sector, write);
    AddRbShape(s.(rqs := s.rqs[id := Rq(sector, write, s.now + Expire(k, write))]), id, write);
  }

  lemma EnlistShape(s: Sched, id: nat, write: bool, book: map<nat, Entry>)
    ensures var t, l := Enlist(s, id, write).(book := book), LaneOf(s, write);
            && LaneOf(t, write) == l.(fifo := l.fifo + [id]) && LaneOf(t, !write) == LaneOf(s, !write)
            && t.dispatched == s.dispatched && t.rqs == s.rqs && t.now == s.now && t.book == book
            && t.batching == s.batching && t.starved == s.starved
  {
  }

  lemma AddRbShape(s: Sched, id: nat, write: bool)
    requires At(s.rqs, id).write == write
    ensures var t, c := AddRb(s, id), Cleared(s, id);
            var l := LaneOf(c, write);
            && LaneOf(t, !write) == LaneOf(c, !write)
            && LaneOf(t, write) == l.(sorted := Inserted(l.sorted, Slot(s.rqs, l.sorted, At(s.rqs, id).sector), id))
            && t.dispatched == c.dispatched
  {
  }

  lemma NewRqOk(k: Tunables, s: Sched, id: nat, rq: Rq, write: bool)
    requires BothOk(k, s, write, {}) && id !in LaneOf(s, write).fifo && id !in LaneOf(s, !write).fifo
    ensures BothOk(k, s.(rqs := s.rqs[id := rq]), write, {})
  {
    var rqs, limit, limit' := s.rqs[id := rq], s.now + Expire(k, write), s.now + Expire(k, !write);
    var t := s.(rqs := rqs);
    LaneFrame(s.rqs, rqs, LaneOf(s, write), write, limit, limit, {});
    LaneFrame(s.rqs, rqs, LaneOf(s, !write), !write, limit', limit', {});
    assert LaneOf(t, write) == LaneOf(s, write) && LaneOf(t, !write) == LaneOf(s, !write);
  }

  /** The state between the alias's departure and the newcomer's arrival gives a good state. */
  lemma EnlistOk(k: Tunables, c: Sched, id: nat, write: bool, t: Sched)
    requires BothOk(k, c, write, {}) && id !in LaneOf(c, write).fifo
    requires id in c.rqs && c.rqs[id].write == write && c.rqs[id].expiry == c.now + Expire(k, write)
    requires forall x :: x in LaneOf(c, write).sorted ==> At(c.rqs, x).sector != c.rqs[id].sector
    requires var l := LaneOf(c, write);
             && t.rqs == c.rqs && t.now == c.now && LaneOf(t, !write) == LaneOf(c, !write)
             && LaneOf(t, write) == l.(sorted := Inserted(l.sorted, Slot(c.rqs, l.sorted, c.rqs[id].sector), id),
                                       fifo := l.fifo + [id])
    ensures BothOk(k, t, write, {})
  {
    EnlistedLane(c.rqs, LaneOf(c, write), id, write, c.now + Expire(k, write));
  }

  lemma AddOk(k: Tunables, s: Sched, id: nat, sector: nat, write: bool)
    requires BothOk(k, s, write, {}) && id !in LaneOf(s, write).fifo && id !in LaneOf(s, !write).fifo
    ensures BothOk(k, AddRequest(k, s, id, sector, write), write, {})
  {
    var rq := Rq(sector, write, s.now + Expire(k, write));
    var s1 := s.(rqs := s.rqs[id := rq]);
    NewRqOk(k, s, id, rq, write);
    assert LaneOf(s1, write) == LaneOf(s, write);
    ClearedOk(k, s1, id, write, {});
    AddShape(k, s, id, sector, write);
    EnlistOk(k, Cleared(s1, id), id, write, AddRequest(k, s, id, sector, write));
  }

  lemma PulledLane(rqs: map<nat, Rq>, l: Lane, id: nat, write: bool, limit: int, sector: nat)
    requires LaneOk(rqs, l, write, limit, {}) && id in l.fifo
    ensures LaneOk(rqs[id := rqs[id].(sector := sector)], l.(sorted := Without(l.sorted, id)), write, limit, {id})
  {
    var w, rqs' := Without(l.sorted, id), rqs[id := rqs[id].(sector := sector)];
    SectorDistinct(rqs, l.sorted);
    WithoutSet(l.sorted, id);
    WithoutBySector(rqs, l.sorted, id);
    SameSectors(rqs, rqs', w);
    SameTimes(rqs, rqs', l.fifo);
  }

  lemma SameSectors(rqs: map<nat, Rq>, rqs': map<nat, Rq>, w: seq<nat>)
    requires BySector(rqs, w) && forall x :: x in w ==> At(rqs', x).sector == At(rqs, x).sector
    ensures BySector(rqs', w)
  {
    assert forall i :: 0 <= i < |w| ==> w[i] in w;
  }

  lemma SameTimes(rqs: map<nat, Rq>, rqs': map<nat, Rq>, w: seq<nat>)
    requires ByExpiry(rqs, w) && forall x :: x in w ==> At(rqs', x).expiry == At(rqs, x).expiry
    ensures ByExpiry(rqs', w)
  {
    assert forall i :: 0 <= i < |w| ==> w[i] in w;
  }

  lemma FrontOk(k: Tunables, s: Sched, id: nat, sector: nat, write: bool)
    requires BothOk(k, s, write, {}) && id in LaneOf(s, write).fifo
    ensures BothOk(k, FrontMerged(s, id, sector), write, {})
  {
    var rqs := s.rqs[id := s.rqs[id].(sector := sector)];
    var l := LaneOf(s, write);
    PulledLane(s.rqs, l, id, write, s.now + Expire(k, write), sector);
    LaneFrame(s.rqs, rqs, LaneOf(s, !write), !write, s.now + Expire(k, !write), s.now + Expire(k, !write), {});
    AddRbOk(k, PutLane(s, write, l.(sorted := Without(l.sorted, id))).(rqs := rqs), id, write);
  }

  lemma EarlierLane(rqs: map<nat, Rq>, l: Lane, req: nat, next: nat, write: bool, limit: int)
    requires LaneOk(rqs, l, write, limit, {}) && req in l.fifo && next in l.fifo && req != next
    ensures LaneOk(rqs[req := rqs[req].(expiry := rqs[next].expiry)],
                   Drop(l, next).(fifo := TakePlace(l.fifo, req, next)), write, limit, {})
  {
    var rqs' := rqs[req := rqs[req].(expiry := rqs[next].expiry)];
    TakePlaceAt(l.fifo, req, next);
    DropOk(rqs, l, next, write, limit, {});
    TakePlaceTimely(rqs, l.fifo, req, next);
    Rebuilt(rqs, rqs', Drop(l, next), TakePlace(l.fifo, req, next), write, limit);
  }

  lemma TakePlaceTimely(rqs: map<nat, Rq>, fifo: seq<nat>, req: nat, next: nat)
    requires Distinct(fifo) && ByExpiry(rqs, fifo) && req in fifo && next in fifo && req != next
    requires req in rqs && next in rqs
    ensures ByExpiry(rqs[req := rqs[req].(expiry := rqs[next].expiry)], TakePlace(fifo, req, next))
  {
    var rqs' := rqs[req := rqs[req].(expiry := rqs[next].expiry)];
    var t, rest := TakePlace(fifo, req, next), Without(fifo, req);
    TakePlaceAt(fifo, req, next);
    WithoutByExpiry(rqs, fifo, req);
    WithoutAt(fifo, req);
    assert forall i :: 0 <= i < |t| ==> At(rqs', t[i]).expiry == At(rqs, rest[i]).expiry;
  }

  /** The same requests in another order, which suits their new expiry times. */
  lemma Rebuilt(rqs: map<nat, Rq>, rqs': map<nat, Rq>, d: Lane, t: seq<nat>, write: bool, limit: int)
    requires LaneOk(rqs, d, write, limit, {})
    requires Distinct(t) && ByExpiry(rqs', t) && forall x :: x in t <==> x in d.fifo
    requires forall x :: x in t ==>
      x in rqs' && rqs'[x].write == rqs[x].write && rqs'[x].sector == rqs[x].sector && rqs'[x].expiry <= limit
    ensures LaneOk(rqs', d.(fifo := t), write, limit, {})
  {
    SameSectors(rqs, rqs', d.sorted);
  }

  lemma MergeShape(s: Sched, req: nat, next: nat, write: bool)
    requires At(s.rqs, next).write == write
    ensures var t, l, r, n := MergedRequests(s, req, next), LaneOf(s, write), At(s.rqs, req), At(s.rqs, next);
            var earlier := n.expiry < r.expiry;
            && LaneOf(t, !write) == LaneOf(s, !write) && t.now == s.now
            && t.rqs == (if earlier then s.rqs[req := r.(expiry := n.expiry)] else s.rqs)
            && LaneOf(t, write) == if earlier then Drop(l, next).(fifo := TakePlace(l.fifo, req, next))
               else Drop(l, next)
  {
  }

  lemma MergeOk(k: Tunables, s: Sched, req: nat, next: nat, write: bool)
    requires BothOk(k, s, write, {}) && req in LaneOf(s, write).fifo && next in LaneOf(s, write).fifo && req != next
    ensures BothOk(k, MergedRequests(s, req, next), write, {})
  {
    var r, n, l := s.rqs[req], s.rqs[next], LaneOf(s, write);
    var limit, limit' := s.now + Expire(k, write), s.now + Expire(k, !write);
    MergeShape(s, req, next, write);
    assert l.next.None? ==> Drop(l, next).next.None?;
    if n.expiry < r.expiry {
      EarlierLane(s.rqs, l, req, next, write, limit);
      LaneFrame(s.rqs, s.rqs[req := r.(expiry := n.expiry)], LaneOf(s, !write), !write, limit', limit', {});
    } else {
      DropOk(s.rqs, l, next, write, limit, {});
    }
  }

  /** One request is sent, and the counters change. */
  lemma SendOk(k: Tunables, s: Sched, id: nat, write: bool, batching: nat, starved: nat)
    requires BothOk(k, s, write, {}) && id in LaneOf(s, write).fifo
    ensures BothOk(k, MoveRequest(s, id).(batching := batching, starved := starved), write, {})
  {
    MoveOk(k, s, id, write, {});
    var m := MoveRequest(s, id);
    var t := m.(batching := batching, starved := starved);
    assert LaneOf(t, write) == LaneOf(m, write) && LaneOf(t, !write) == LaneOf(m, !write);
  }

  lemma Flip(k: Tunables, s: Sched, write: bool)
    ensures BothOk(k, s, write, {}) <==> BothOk(k, s, !write, {})
  {
  }

  /** The request a dispatch sends, if any: its direction, and the counters after. */
  lemma Sent(k: Tunables, s: Sched) returns (some: bool, id: nat, write: bool, batching: nat, starved: nat)
    requires s.rd.next.Some? ==> s.rd.next.id in s.rd.fifo
    requires s.wr.next.Some? ==> s.wr.next.id in s.wr.fifo
    ensures some <==> s.rd.fifo != [] || s.wr.fifo != []
    ensures some ==> id in LaneOf(s, write).fifo &&
                     Dispatch(k, s) == MoveRequest(s, id).(batching := batching, starved := starved)
    ensures !some ==> Dispatch(k, s) == s
  {
    some, id, write, batching, starved := true, 0, false, 1, s.starved;
    if Batched(s).Some? && s.batching < k.fifoBatch {
      id, write, batching := Batched(s).id, s.wr.next.Some?, s.batching + 1;
    } else if s.rd.fifo != [] && s.wr.fifo != [] {
      write := s.starved >= Unsigned(k.writesStarved);
      id, starved := Choose(s, write), if write then 0 else Unsigned(s.starved + 1);
    } else if s.rd.fifo != [] {
      id := Choose(s, false);
    } else if s.wr.fifo != [] {
      id, write, starved := Choose(s, true), true, 0;
    } else {
      some := false;
    }
  }

  lemma DispatchOk(k: Tunables, s: Sched)
    requires LanesOk(k, s)
    ensures LanesOk(k, Dispatch(k, s))
  {
    var some, id, write, batching, starved := Sent(k, s);
    if some {
      Flip(k, s, true);
      SendOk(k, s, id, write, batching, starved);
      Flip(k, Dispatch(k, s), true);
    }
  }

  lemma TickOk(k: Tunables, s: Sched, now: int)
    requires LanesOk(k, s) && s.now <= now
    ensures LanesOk(k, s.(now := now))
  {
    LaneFrame(s.rqs, s.rqs, s.wr, true, s.now + k.writeExpire, now + k.writeExpire, {});
    LaneFrame(s.rqs, s.rqs, s.rd, false, s.now + k.readExpire, now + k.readExpire, {});
  }
}
