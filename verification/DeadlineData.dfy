/**
 * The deadline scheduler as the code runs it, each function of block/deadline-iosched.c updating
 * the scheduler's data in place, proved against the functions of Deadline.
 */
module DeadlineSchedulers {
  import opened Lists
  import opened Deadline
  import opened DeadlineInv

  /** Scanning the sector order from position `i`. */
  lemma AliasFrom(rqs: map<nat, Rq>, sorted: seq<nat>, i: nat, sector: nat)
    requires i <= |sorted| && forall j :: 0 <= j < i ==> At(rqs, sorted[j]).sector != sector
    ensures Alias(rqs, sorted, sector) == Alias(rqs, sorted[i..], sector)
  {
    if i > 0 {
      AliasFrom(rqs, sorted[1..], i - 1, sector);
      assert sorted[1..][i - 1..] == sorted[i..];
    } else {
      assert sorted[0..] == sorted;
    }
  }

  /** What a direction's sector order must be for the insertion loop to end after one alias. */
  ghost predicate Ordered(rqs: map<nat, Rq>, sorted: seq<nat>, write: bool) {
    BySector(rqs, sorted) && forall x :: x in sorted ==> At(rqs, x).write == write
  }

  /** Inserting again once the alias has gone. */
  lemma SecondTry(s: Sched, id: nat, write: bool, alias: nat)
    requires At(s.rqs, id).write == write && Ordered(s.rqs, LaneOf(s, write).sorted, write)
    requires Alias(s.rqs, LaneOf(s, write).sorted, At(s.rqs, id).sector) == Some(alias)
    ensures var m, rq := MoveRequest(s, alias), At(s.rqs, id);
            var l := LaneOf(m, write);
            && Alias(m.rqs, l.sorted, rq.sector).None?
            && AddRb(s, id) == PutLane(m, write, l.(sorted := Inserted(l.sorted, Slot(m.rqs, l.sorted, rq.sector), id)))
  {
    Moved(s, alias, write);
    AliasGone(s.rqs, LaneOf(s, write).sorted, At(s.rqs, id).sector);
  }

  /** A changed request outside the order leaves it as it was. */
  lemma OrderedFrame(rqs: map<nat, Rq>, sorted: seq<nat>, write: bool, id: nat, rq: Rq)
    requires Ordered(rqs, sorted, write) && id !in sorted
    ensures Ordered(rqs[id := rq], sorted, write)
  {
    assert forall i :: 0 <= i < |sorted| ==> sorted[i] in sorted;
  }

  lemma OrderedWithout(rqs: map<nat, Rq>, sorted: seq<nat>, write: bool, id: nat)
    requires Ordered(rqs, sorted, write)
    ensures Ordered(rqs, Without(sorted, id), write) && id !in Without(sorted, id)
  {
    SectorDistinct(rqs, sorted);
    WithoutAt(sorted, id);
    WithoutBySector(rqs, sorted, id);
  }

  /** Neither moving a request nor choosing one looks at the counters. */
  lemma CountersApart(s: Sched, id: nat, batching: nat, starved: nat)
    ensures MoveRequest(s.(batching := batching, starved := starved), id) ==
            MoveRequest(s, id).(batching := batching, starved := starved)
  {
  }

  lemma StarvedApart(s: Sched, write: bool, starved: nat)
    requires LaneOf(s, write).fifo != []
    ensures NewBatch(s.(starved := starved), write, starved) == NewBatch(s, write, starved)
  {
    CountersApart(s, Choose(s, write), s.batching, starved);
  }

  class DeadlineData {
    const k: Tunables
    var rqs: map<nat, Rq>
    var rd: Lane
    var wr: Lane
    var batching: nat
    var starved: nat
    var now: int
    var dispatched: seq<nat>
    var book: map<nat, Entry>

    function View(): Sched reads this { Sched(rqs, rd, wr, batching, starved, now, dispatched, book) }

    constructor (tunables: Tunables, start: int)
      ensures View() == Init(start) && k == tunables
    {
      k, rqs, rd, wr := tunables, map[], Lane([], [], None), Lane([], [], None);
      batching, starved, now, dispatched, book := 0, 0, start, [], map[];
    }

    /** list_del and rb_erase, with the cached next request moved on. */
    method RemoveRequest(id: nat, write: bool)
      modifies this`rd, this`wr
      ensures View() == PutLane(old(View()), write, Drop(LaneOf(old(View()), write), id))
    {
      if write { wr := Drop(wr, id); } else { rd := Drop(rd, id); }
    }

    /** deadline_move_request. */
    method MoveRequest(id: nat)
      modifies this`rd, this`wr, this`dispatched
      ensures View() == Deadline.MoveRequest(old(View()), id)
    {
      var write := At(rqs, id).write;
      var next := Latter(LaneOf(View(), write).sorted, id);
      rd, wr := rd.(next := None), wr.(next := None);
      if write { wr := wr.(next := next); } else { rd := rd.(next := next); }
      RemoveRequest(id, write);
      dispatched := dispatched + [id];
    }

    /** elv_rb_add: links the request in, or reports who holds its sector. */
    method RbAdd(id: nat, write: bool) returns (alias: Next)
      modifies this`rd, this`wr
      ensures var l, rq := LaneOf(old(View()), write), At(rqs, id);
              && alias == Alias(rqs, l.sorted, rq.sector)
              && View() == if alias.Some? then old(View())
                           else PutLane(old(View()), write,
                                        l.(sorted := Inserted(l.sorted, Slot(rqs, l.sorted, rq.sector), id)))
    {
      var sorted, sector := LaneOf(View(), write).sorted, At(rqs, id).sector;
      var i, slot := 0, 0;
      while i < |sorted|
        invariant 0 <= slot <= i <= |sorted|
        invariant forall j :: 0 <= j < i ==> At(rqs, sorted[j]).sector != sector
        invariant forall j :: 0 <= j < slot ==> At(rqs, sorted[j]).sector < sector
        invariant slot < i ==> At(rqs, sorted[slot]).sector >= sector
      {
        if At(rqs, sorted[i]).sector == sector {
          AliasFrom(rqs, sorted, i, sector);
          return Some(sorted[i]);
        }
        if slot == i && At(rqs, sorted[i]).sector < sector { slot := slot + 1; }
        i := i + 1;
      }
      AliasFrom(rqs, sorted, i, sector);
      SlotAt(rqs, sorted, slot, sector);
      alias := None;
      if write {
        wr := wr.(sorted := Inserted(sorted, slot, id));
      } else {
        rd := rd.(sorted := Inserted(sorted, slot, id));
      }
    }
  
    /** deadline_add_rq_rb. */
    method AddRqRb(id: nat, write: bool)
      requires At(rqs, id).write == write && Ordered(rqs, LaneOf(View(), write).sorted, write)
      modifies this`rd, this`wr, this`dispatched
      ensures View() == AddRb(old(View()), id)
    {
      ghost var s := View();
      var alias := RbAdd(id, write);
      while alias.Some?
        invariant alias.Some? ==> View() == s && alias == Alias(rqs, LaneOf(s, write).sorted, At(rqs, id).sector)
        invariant alias.None? ==> View() == AddRb(s, id)
        decreases if alias.Some? then 1 else 0
      {
        SecondTry(s, id, write, alias.id);
        MoveRequest(alias.id);
        alias := RbAdd(id, write);
      }
    }

    /** list_add_tail on the FIFO. */
    method Enqueue(id: nat, write: bool)
      modifies this`rd, this`wr
      ensures View() == Enlist(old(View()), id, write)
    {
      if write { wr := wr.(fifo := wr.fifo + [id]); } else { rd := rd.(fifo := rd.fifo + [id]); }
    }

    /** The request's own fields, as its submitter or a front merge sets them. */
    method SetRq(id: nat, rq: Rq)
      modifies this`rqs
      ensures View() == old(View()).(rqs := old(rqs)[id := rq])
    {
      rqs := rqs[id := rq];
    }

    /** The first part of deadline_add_request: the request enters the sector order. */
    method Enter(id: nat, rq: Rq)
      requires id !in LaneOf(View(), rq.write).sorted && Ordered(rqs, LaneOf(View(), rq.write).sorted, rq.write)
      modifies this`rqs, this`rd, this`wr, this`dispatched
      ensures View() == Entered(old(View()), id, rq)
    {
      ghost var s := View();
      OrderedFrame(rqs, LaneOf(s, rq.write).sorted, rq.write, id, rq);
      SetRq(id, rq);
      ghost var s1 := View();
      assert s1 == s.(rqs := s.rqs[id := rq]) && LaneOf(s1, rq.write) == LaneOf(s, rq.write);
      AddRqRb(id, rq.write);
    }

    /** deadline_add_request. */
    method AddRequest(id: nat, sector: nat, write: bool)
      requires id !in LaneOf(View(), write).sorted && Ordered(rqs, LaneOf(View(), write).sorted, write)
      modifies this
      ensures View() == Deadline.AddRequest(k, old(View()), id, sector, write)
    {
      var due := now + Expire(k, write);
      Enter(id, Rq(sector, write, due));
      Enqueue(id, write);
      book := book[id := Entry(id, due, write)];
    }

    /** elv_rb_del of a request that is about to be put elsewhere. */
    method RbDel(id: nat, write: bool)
      modifies this`rd, this`wr
      ensures var l := LaneOf(old(View()), write);
              View() == PutLane(old(View()), write, l.(sorted := Without(l.sorted, id)))
    {
      if write { wr := wr.(sorted := Without(wr.sorted, id)); } else { rd := rd.(sorted := Without(rd.sorted, id)); }
    }

    /** deadline_merged_request after a front merge. */
    method FrontMerged(id: nat, sector: nat)
      requires Ordered(rqs, LaneOf(View(), At(rqs, id).write).sorted, At(rqs, id).write)
      modifies this
      ensures View() == Deadline.FrontMerged(old(View()), id, sector)
    {
      ghost var s := View();
      var write := At(rqs, id).write;
      var rq := At(rqs, id).(sector := sector);
      OrderedWithout(rqs, LaneOf(s, write).sorted, write, id);
      OrderedFrame(rqs, Without(LaneOf(s, write).sorted, id), write, id, rq);
      rqs := rqs[id := rq];
      RbDel(id, write);
      ghost var l := LaneOf(s, write);
      assert View() == PutLane(s, write, l.(sorted := Without(l.sorted, id))).(rqs := rqs);
      assert LaneOf(View(), write).sorted == Without(l.sorted, id);
      AddRqRb(id, write);
    }

    /** deadline_merged_requests. */
    method MergedRequests(req: nat, next: nat)
      modifies this
      ensures View() == Deadline.MergedRequests(old(View()), req, next)
    {
      var r, n := At(rqs, req), At(rqs, next);
      var fifo := LaneOf(View(), n.write).fifo;
      RemoveRequest(next, n.write);
      if n.expiry < r.expiry {
        var moved := TakePlace(fifo, req, next);
        if n.write { wr := wr.(fifo := moved); } else { rd := rd.(fifo := moved); }
        rqs := rqs[req := r.(expiry := n.expiry)];
      }
      book := Redirected(book, req, next);
    }

    /** deadline_check_fifo. */
    method CheckFifo(write: bool) returns (expired: bool)
      requires LaneOf(View(), write).fifo != []
      ensures expired == (now > At(rqs, LaneOf(View(), write).fifo[0]).expiry)
    {
      expired := now > At(rqs, LaneOf(View(), write).fifo[0]).expiry;
    }

    /** The tail of deadline_dispatch_requests, from dispatch_find_request on. */
    method StartBatch(write: bool)
      requires LaneOf(View(), write).fifo != []
      modifies this`rd, this`wr, this`dispatched, this`batching
      ensures View() == NewBatch(old(View()), write, starved)
    {
      var l := LaneOf(View(), write);
      var expired := CheckFifo(write);
      var id := if expired || l.next.None? then l.fifo[0] else l.next.id;
      MoveRequest(id);
      batching := 1;
    }

    /** The first part of deadline_dispatch_requests: a batch goes on. */
    method ContinueBatch() returns (sent: bool)
      modifies this`rd, this`wr, this`dispatched, this`batching
      ensures sent == (Batched(old(View())).Some? && old(batching) < k.fifoBatch)
      ensures View() ==
              if sent then Deadline.MoveRequest(old(View()), Batched(old(View())).id).(batching := old(batching) + 1)
                        else old(View())
    {
      var next := if wr.next.Some? then wr.next else rd.next;
      sent := next.Some? && batching < k.fifoBatch;
      if sent {
        MoveRequest(next.id);
        batching := batching + 1;
      }
    }

    /** deadline_dispatch_requests. */
    method DispatchRequests() returns (sent: bool)
      modifies this`rd, this`wr, this`dispatched, this`batching, this`starved
      ensures View() == Dispatch(k, old(View()))
      ensures !sent ==> View() == old(View()) && rd.fifo == [] && wr.fifo == []
    {
      ghost var s := View();
      var hasReads, hasWrites := rd.fifo != [], wr.fifo != [];
      sent := ContinueBatch();
      if sent { return; }
      if hasReads {
        if hasWrites {
          var was := starved;
          starved := Unsigned(starved + 1);
          if was >= Unsigned(k.writesStarved) {
            starved := 0;
            StarvedApart(s, true, 0);
            StartBatch(true);
            return true;
          }
        }
        StarvedApart(s, false, starved);
        StartBatch(false);
        return true;
      }
      if hasWrites {
        starved := 0;
        StarvedApart(s, true, 0);
        StartBatch(true);
        return true;
      }
    }
  }
}
