/** In a drain mode, every step keeps the epochs apart and leaves no drain waiting for nothing. */
module BarrierDrain {
  import opened Barrier
  import opened BarrierInv
  import opened BarrierCore

  lemma DrainInsertSorted(s: Queue, r: Rq)
    requires Inv(s) && Drains(s) && New(s, r) && r.fs && !r.hard
    ensures Drained(InsertSorted(s, r)) && Awaited(InsertSorted(s, r))
  {
  }

  lemma DrainInsertFront(s: Queue, r: Rq)
    requires Inv(s) && Drains(s) && New(s, r) && !r.fs && !r.hard
    ensures Drained(InsertFront(s, r)) && Awaited(InsertFront(s, r))
  {
    assert InsertFront(s, r).list[0] == r;
  }

  lemma DrainInsertBack(s: Queue, r: Rq)
    requires Inv(s) && Drains(s) && New(s, r) && (r.hard ==> r.fs && s.sorted == {})
    ensures Drained(InsertBack(s, r)) && Awaited(InsertBack(s, r))
  {
    NewNowhere(s, r);
    assert s.list != [] ==> InsertBack(s, r).list[0] == s.list[0];
    assert s.orig in Running(s) || !Active(s);
  }

  lemma DrainDispatched(s: Queue, r: Rq, pos: nat)
    requires Inv(s) && Drains(s) && CanDispatch(s, r, pos)
    ensures Drained(Dispatched(s, r, pos)) && Awaited(Dispatched(s, r, pos))
  {
    var s' := Dispatched(s, r, pos);
    assert s.orig in Running(s) || !Active(s);
    if s.list != [] && pos != 0 {
      assert s'.list[0] == s.list[0];
    }
    if Active(s) && s.list != [] && pos == 0 {
      assert s.list[0] in s.list;
      TailIsNewest(s, r, 0, 0);
      assert !Stops(s, s.list[0]);
      if ReqSeq(s.orig, s.list[0]) == DRAIN && s.list[0].fs {
        HeadEpoch(s);
      }
    }
  }

  lemma DrainTaken(s: Queue, i: nat)
    requires Inv(s) && Drains(s) && i < |s.list| && s.list[i] in s.started
    ensures Drained(Taken(s, i)) && Awaited(Taken(s, i))
  {
    var r := s.list[i];
    var s' := Taken(s, i);
    assert r in s.list && r in s'.flight;
    assert !r.Orig? ==> Held(s.list, s.flight, r);
    assert i != 0 ==> s'.list[0] == s.list[0];
    FsOfAdd(s.flight, r);
  }

  /** A request of the open epoch goes back to the very front. */
  lemma RequeuedFront(s: Queue, r: Rq)
    requires Inv(s) && Drains(s) && r in s.flight && Active(s) && r.Orig?
    ensures ReqSeq(s.orig, r) == DRAIN && Requeue(s, r).list[0] == r
  {
    assert s.orig in Running(s) && s.orig.color == Odd(s.done);
  }

  lemma AwaitedRequeue(s: Queue, r: Rq)
    requires Inv(s) && Drains(s) && r in s.flight
    ensures Awaited(Requeue(s, r))
  {
    assert r in s.started;
    assert !r.Orig? ==> Held(s.list, s.flight, r);
    if Active(s) && r.Orig? {
      RequeuedFront(s, r);
    }
  }

  lemma DrainRequeue(s: Queue, r: Rq)
    requires Inv(s) && Drains(s) && r in s.flight
    ensures Drained(Requeue(s, r))
  {
    var s' := Requeue(s, r);
    assert r in s'.soft;
    assert !r.Orig? ==> Held(s.list, s.flight, r);
  }

  /** When the head is beyond the drain, nothing of the open epoch is left on the list. */
  lemma DrainOver(s: Queue)
    requires Core(s, NONE) && Drains(s) && Drained(s) && EndsDrain(s)
    ensures forall r :: r in s.list && OrigFs(r) ==> s.done < r.epoch
    ensures forall r :: r in s.flight ==> !OrigFs(r)
  {
    assert s.orig in Running(s);
    forall r | r in s.list && OrigFs(r) ensures s.done < r.epoch {
      var m :| 0 <= m < |s.list| && s.list[m] == r;
      var h := s.list[0];
      assert h in s.list;
      assert m != 0 ==> Before(h, r, true, s.done);
    }
    assert FsOf(s.flight) == {};
    forall r | r in s.flight ensures !OrigFs(r) {
      assert r !in FsOf(s.flight);
    }
  }

  lemma DrainCompleteSeq(s: Queue, phases: Bits, err: int)
    requires Core(s, phases) && Drains(s) && Drained(s) && Active(s)
    requires !Meet(s.ordseq, phases) && !phases.started
    requires s.ordseq.drain || phases.drain ==> (forall r :: Held(s.list, s.flight, r) && OrigFs(r) ==>
                                                 s.done < r.epoch)
    ensures Drained(CompleteSeq(s, phases, err))
  {
    var s' := CompleteSeq(s, phases, err);
    assert s.orig in Running(s);
    if CurSeq(Join(s.ordseq, phases)) == DONE {
      assert Join(s.ordseq, phases) == ALL;
      forall r | r in s'.all && OrigFs(r) && r.epoch < s'.done ensures r in s'.ended {
        assert r in s.list || r in s.flight ==> Held(s.list, s.flight, r);
      }
      assert forall r :: r in s.list && OrigFs(r) ==> Held(s.list, s.flight, r);
      assert forall r :: r in s.flight && OrigFs(r) ==> Held(s.list, s.flight, r);
    }
  }

  lemma DrainReleased(s: Queue, r: Rq, err: int)
    requires Inv(s) && Drains(s) && r in s.flight
    ensures Drained(Released(s, r, err))
  {
  }

  lemma DrainEnd(s: Queue, r: Rq, err: int)
    requires Inv(s) && Drains(s) && r in s.flight
    ensures Drained(End(s, r, err))
  {
    var s1 := Released(s, r, err);
    CoreReleased(s, r, err);
    DrainReleased(s, r, err);
    if !r.Orig? {
      EndOfProxy(s, r, err);
      assert Held(s.list, s.flight, r) && r in s.started;
      DrainCompleteSeq(s1, PhaseOf(r), err);
    } else {
      EndOfOrig(s, r, err);
      if EndsDrain(s1) {
        CoreDrain(s1);
        DrainOver(s1);
        DrainCompleteSeq(s1, JUST_DRAIN, 0);
      }
    }
  }

  lemma AwaitedEnd(s: Queue, r: Rq, err: int)
    requires Inv(s) && Drains(s) && r in s.flight
    ensures Awaited(End(s, r, err))
  {
    var s1 := Released(s, r, err);
    if !r.Orig? {
      EndOfProxy(s, r, err);
      assert Held(s.list, s.flight, r) && r in s.started;
    } else {
      EndOfOrig(s, r, err);
      if Active(s1) && !s1.ordseq.drain && s1.inFlight == 0 && !EndsDrain(s1) {
        assert ReqSeq(s1.orig, s1.list[0]) == DRAIN;
      }
    }
  }

  // ---------------------------------------------------------------- handing out

  /** What a drain-mode queue hands to the driver. */
  lemma NextActive(s: Queue)
    requires Inv(s) && Drains(s) && s.list != [] && Active(s)
    ensures var (s1, v) := DoOrdered(s);
            && !s1.warn
            && (v.Hand? ==> v.r == s.list[0])
            && (v.Hand? && OrigFs(v.r) ==> v.r.epoch == s.done)
            && (v.Hand? && !v.r.Orig? ==> s.ordseq.drain)
  {
    var h := s.list[0];
    assert h in s.list;
    assert s.orig in Running(s);
    if OrigFs(h) {
      HeadEpoch(s);
    } else if !h.Orig? {
      assert Held(s.list, s.flight, h);
    }
  }

  lemma DrainNextActive(s: Queue)
    requires Inv(s) && Drains(s) && s.list != [] && Active(s)
    ensures Drained(NextRequest(s)) && Awaited(NextRequest(s))
  {
    NextActive(s);
    var (s1, v) := DoOrdered(s);
    assert s1 == s.(warn := s1.warn);
  }

  lemma DrainNextIdle(s: Queue)
    requires Inv(s) && Drains(s) && s.list != [] && s.ordseq == NONE && !OrigBarrier(s.list[0])
    ensures NextRequest(s) == s.(started := s.started + {s.list[0]}, log := s.log + [Handed(s.list[0])])
    ensures OrigFs(s.list[0]) ==> s.list[0].epoch == s.done
    ensures Drained(NextRequest(s)) && Awaited(NextRequest(s))
  {
    IdleHead(s);
    assert s.list[0] in s.list;
    if OrigFs(s.list[0]) {
      HeadEpoch(s);
    }
  }

  /** Proxies stacked on a list of requests of later epochs disturb nothing. */
  lemma OrderStacked(list: seq<Rq>, l: seq<Rq>, o: Mode, flight: set<Rq>, started: set<Rq>, all: set<Rq>,
                     ended: set<Rq>, e: nat)
    requires Order(list, flight, started, all, ended, e)
    requires forall r :: r in l && OrigFs(r) ==> r in list && e < r.epoch
    ensures Order(Stacked(l, o), flight, started - Asked(o), all, ended, e)
    ensures forall r :: r in Stacked(l, o) && OrigFs(r) ==> e < r.epoch
  {
    forall r ensures r in Stacked(l, o) <==> r in l || r in Asked(o) {
      StackedHolds(l, o, r);
    }
  }

  lemma DrainSequenced(s: Queue, q: Queue)
    requires Inv(s) && Drains(s) && Startable(s) && q == Sequenced(s)
    ensures Drained(q)
  {
    LineSequence(s);
    OrderStacked(s.list, Remove(s.list, 0), OrderingFor(s.next, s.list[0].empty), s.flight, s.started, s.all, s.ended,
                 s.done);
  }

  lemma DrainQueueSequence(s: Queue)
    requires Inv(s) && Drains(s) && Startable(s)
    ensures Drained(QueueSequence(s))
  {
    EpochsSequence(s);
    SequenceFields(s);
    DrainSequenced(s, QueueSequence(s));
  }

  lemma StartLeavesOpen(s: Queue)
    requires Inv(s) && Drains(s) && Startable(s)
    ensures var q := QueueSequence(s);
            Skipped(q.ordered, q.inFlight).drain ==>
              forall r :: Held(q.list, q.flight, r) && OrigFs(r) ==> q.done < r.epoch
  {
    var b := s.list[0];
    var q := QueueSequence(s);
    assert b in s.list;
    SequenceFields(s);
    LineSequence(s);
    if Skipped(q.ordered, q.inFlight).drain {
      assert q.ordered.byDrain;
      assert FsOf(q.flight) == {};
      forall r | Held(q.list, q.flight, r) && OrigFs(r) ensures q.done < r.epoch {
        StackedHolds(Remove(s.list, 0), q.ordered, r);
        assert r !in FsOf(q.flight);
      }
    }
  }

  lemma DrainStart(s: Queue)
    requires Inv(s) && Drains(s) && Startable(s)
    ensures Drained(StartOrdered(s).0)
  {
    var q := QueueSequence(s);
    assert s.list[0] in s.list;
    CoreQueueSequence(s);
    DrainQueueSequence(s);
    SequenceFields(s);
    BitsSequence(s.next, s.list[0].empty, s.inFlight);
    StartLeavesOpen(s);
    DrainCompleteSeq(q, Skipped(q.ordered, q.inFlight), 0);
  }

  lemma AwaitedStart(s: Queue)
    requires Inv(s) && Drains(s) && Startable(s)
    ensures Awaited(StartOrdered(s).0)
  {
    var q := QueueSequence(s);
    assert s.list[0] in s.list;
    SequenceFields(s);
  }

  lemma DrainNext(s: Queue)
    requires Inv(s) && Drains(s) && s.list != []
    ensures Drained(NextRequest(s)) && Awaited(NextRequest(s))
  {
    if Active(s) {
      DrainNextActive(s);
    } else {
      IdleHead(s);
      if OrigBarrier(s.list[0]) {
        DrainStart(s);
        AwaitedStart(s);
        StartHands(s);
      } else {
        DrainNextIdle(s);
      }
    }
  }

  // ---------------------------------------------------------------- all steps

  lemma InvAdd(s: Queue, op: Op)
    requires Inv(s) && Enabled(s, op, STRICT) && (op.AddSorted? || op.AddBack? || op.AddFront?)
    ensures Inv(Apply(s, op, STRICT))
  {
    if op.AddSorted? {
      var r := Coloured(s, op.id, true, false, false);
      CoreInsertSorted(s, r);
      if Drains(s) { DrainInsertSorted(s, r); }
    } else if op.AddBack? {
      var r := Coloured(s, op.id, op.fs, op.hard, op.empty);
      CoreInsertBack(s, r);
      if Drains(s) { DrainInsertBack(s, r); }
    } else {
      var r := Coloured(s, op.id, false, op.hard, false);
      CoreInsertFront(s, r);
      if Drains(s) { DrainInsertFront(s, r); }
    }
  }

  lemma InvMove(s: Queue, op: Op)
    requires Inv(s) && Enabled(s, op, STRICT) && (op.Dispatch? || op.Take? || op.PutBack?)
    ensures Inv(Apply(s, op, STRICT))
  {
    match op {
      case Dispatch(r, pos) =>
        CoreDispatched(s, r, pos);
        if Drains(s) { DrainDispatched(s, r, pos); }
      case Take(i) =>
        CoreTaken(s, i);
        if Drains(s) { DrainTaken(s, i); }
      case PutBack(r) =>
        CoreRequeue(s, r);
        if Drains(s) { DrainRequeue(s, r); AwaitedRequeue(s, r); }
    }
  }

  lemma InvNext(s: Queue)
    requires Inv(s) && s.list != []
    ensures Inv(NextRequest(s))
  {
    CoreNext(s);
    if Drains(s) { DrainNext(s); }
  }

  lemma InvEnd(s: Queue, r: Rq, err: int)
    requires Inv(s) && r in s.flight
    ensures Inv(End(s, r, err))
  {
    CoreEnd(s, r, err);
    if Drains(s) { DrainEnd(s, r, err); AwaitedEnd(s, r, err); }
  }

  lemma InvPart(s: Queue, err: int)
    requires Inv(s)
    ensures Inv(PartOfBarrier(s, err))
  {
    CorePart(s, err);
  }

  /** Every step keeps the invariant. */
  lemma InvStep(s: Queue, op: Op)
    requires Inv(s) && Enabled(s, op, STRICT)
    ensures Inv(Apply(s, op, STRICT))
  {
    match op
    case Next => InvNext(s);
    case Finish(r, err) => InvEnd(s, r, err);
    case FinishPart(err) => InvPart(s, err);
    case AddSorted(_) => InvAdd(s, op);
    case AddBack(_, _, _, _) => InvAdd(s, op);
    case AddFront(_, _) => InvAdd(s, op);
    case Dispatch(_, _) => InvMove(s, op);
    case Take(_) => InvMove(s, op);
    case PutBack(_) => InvMove(s, op);
  }
}
