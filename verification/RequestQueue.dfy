/** The request queue as the code keeps it: fields updated in place by the block layer. */
module RequestQueues {
  import opened Barrier
  import opened BarrierTheorems

  /** What elv_dispatch_sort reads of a request besides its flags. */
  datatype Slot = Slot(sector: nat, write: bool, discard: bool)

  /** Whether the backward walk of elv_dispatch_sort ends at a request. */
  predicate WalkStops(s: Queue, slot: Rq -> Slot, boundary: nat, r: Rq, pos: Rq) {
    || slot(r).discard != slot(pos).discard
    || slot(r).write != slot(pos).write
    || Stops(s, pos)
    || (if slot(r).sector >= boundary then slot(pos).sector >= boundary && slot(r).sector >= slot(pos).sector
        else slot(pos).sector >= boundary || slot(r).sector >= slot(pos).sector)
  }

  lemma StackShrinks(s: Queue)
    requires s.list != []
    ensures var o := OrderingFor(s.next, s.list[0].Orig? && s.list[0].empty);
            && QueueSequence(s).ordered == o && QueueSequence(s).ordseq == s.ordseq.(started := true)
            && (!o.preflush && !o.bar && !o.postflush ==> |QueueSequence(s).list| == |s.list| - 1)
  {
    assert BeginSequence(s).ordered == OrderingFor(s.next, s.list[0].Orig? && s.list[0].empty);
  }

  /** Only a sequence without any request of its own is over at once. */
  lemma AllSkipped(o: Mode, inFlight: int)
    requires CurSeq(Join(NONE.(started := true), Skipped(o, inFlight))) == DONE
    ensures !o.preflush && !o.bar && !o.postflush
  {
  }

  lemma CompleteKeepsList(s: Queue, phases: Bits)
    requires s.ordseq != NONE
    ensures CompleteSeq(s, phases, 0).list == s.list
    ensures CompleteSeq(s, phases, 0).ordseq == NONE ==> CurSeq(Join(s.ordseq, phases)) == DONE
  {
  }

  lemma StartedShrinks(s: Queue)
    requires s.list != [] && s.ordseq == NONE && StartOrdered(s).1.Again?
    ensures |StartOrdered(s).0.list| < |s.list|
  {
    StackShrinks(s);
    var s1 := QueueSequence(s);
    CompleteKeepsList(s1, Skipped(s1.ordered, s1.inFlight));
    AgainMeans(s, s1);
    AllSkipped(s1.ordered, s1.inFlight);
  }

  lemma AgainMeans(s: Queue, s1: Queue)
    requires s.list != [] && StartOrdered(s).1.Again? && s1 == QueueSequence(s)
    ensures CompleteSeq(s1, Skipped(s1.ordered, s1.inFlight), 0).ordseq == NONE
    ensures StartOrdered(s).0 == CompleteSeq(s1, Skipped(s1.ordered, s1.inFlight), 0)
  {
  }

  /** A barrier that is over at once leaves the list, so __elv_next_request does not spin. */
  lemma AgainShrinks(s: Queue)
    requires s.list != [] && DoOrdered(s).1.Again?
    ensures |DoOrdered(s).0.list| < |s.list|
  {
    if s.next != MODE_NONE {
      StartedShrinks(s);
    }
  }

  /** The insertion points of elv_insert. */
  datatype Where = Front | Back | Sort

  /** Where __elv_add_request really inserts a request. */
  function FinalWhere(wanted: Where, barrier: bool, elvpriv: bool): Where {
    if wanted == Sort && (barrier || !elvpriv) then Back else wanted
  }

  /** The step an insertion is. */
  function AddOp(at: Where, id: nat, fs: bool, hard: bool, empty: bool): Op {
    match at
    case Front => AddFront(id, hard)
    case Back => AddBack(id, fs, hard, empty)
    case Sort => AddSorted(id)
  }

  datatype Option<T> = None | Some(value: T)

  class RequestQueue {
    var ordseq: Bits
    var orderr: int
    var ordered: Mode
    var nextOrdered: Mode
    var ordcolor: bool
    var origBarRq: Rq
    var queueHead: seq<Rq>
    var sorted: set<Rq>
    var inFlight: int
    var started: set<Rq>
    var soft: set<Rq>
    var bug: bool
    var warn: bool
    // history
    var flight: set<Rq>
    var bars: seq<Rq>
    ghost var log: seq<Event>
    ghost var done: nat
    ghost var all: set<Rq>
    ghost var ended: set<Rq>

    ghost function View(): Queue
      reads this
    {
      Queue(ordseq, orderr, ordered, nextOrdered, ordcolor, origBarRq, queueHead, sorted, flight, inFlight,
            started, soft, bug, warn, log, bars, done, all, ended)
    }

    constructor (mode: Mode)
      ensures View() == Init(mode)
    {
      ordseq, orderr, ordered, nextOrdered, ordcolor := NONE, 0, mode, mode, false;
      origBarRq, queueHead, sorted, inFlight := PreFlush, [], {}, 0;
      started, soft, bug, warn, flight := {}, {}, false, false, {};
      log, bars, done, all, ended := [], [], 0, {}, {};
    }

    /** blk_ordered_complete_seq */
    method OrderedCompleteSeq(phases: Bits, error: int) returns (complete: bool)
      modifies this
      ensures View() == CompleteSeq(old(View()), phases, error)
      ensures complete == (CurSeq(Join(old(ordseq), phases)) == DONE)
    {
      if error != 0 && orderr == 0 {
        orderr := error;
      }
      bug := bug || Meet(ordseq, phases);
      ordseq := Join(ordseq, phases);
      log := log + [Marked(origBarRq, phases)];
      if CurSeq(ordseq) != DONE {
        return false;
      }
      ordseq := NONE;
      EndOriginal(origBarRq, orderr);
      return true;
    }

    /** __blk_end_request on an original barrier */
    method EndOriginal(rq: Rq, error: int)
      modifies this`log, this`ended, this`done
      ensures View() == EndRequest(old(View()), rq, error)
    {
      log := log + [Ended(rq, error)];
      ended := ended + {rq};
      done := done + 1;
    }

    /** elv_dequeue_request */
    method ElvDequeue(i: nat)
      requires i < |queueHead|
      modifies this`queueHead, this`inFlight
      ensures View() == Dequeue(old(View()), i)
    {
      var rq := queueHead[i];
      if rq in started && IsFs(rq) {
        inFlight := inFlight + 1;
      }
      queueHead := Remove(queueHead, i);
    }

    /** blk_rq_init and elv_insert at the front, for one of the queue's own requests */
    method QueueProxy(rq: Rq)
      modifies this`queueHead, this`soft, this`started
      ensures View() == PushProxy(old(View()), rq)
    {
      started := started - {rq};
      soft := soft + {rq};
      queueHead := Insert(queueHead, 0, rq);
    }

    method ChooseOrdering(empty: bool)
      modifies this`ordered
      ensures ordered == OrderingFor(nextOrdered, empty)
    {
      ordered := nextOrdered;
      if empty {
        ordered := ordered.(bar := false, postflush := false);
        if ordered.byTag && !ordered.preflush {
          ordered := ordered.(byTag := false, byDrain := true);
        }
      }
    }

    /** Begin a sequence: no error yet, and the ordering of this barrier. */
    method BeginPhases(empty: bool)
      modifies this`orderr, this`ordered, this`ordseq
      ensures View() == old(View()).(orderr := 0, ordered := OrderingFor(nextOrdered, empty),
                                     ordseq := old(ordseq).(started := true))
    {
      orderr := 0;
      ChooseOrdering(empty);
      ordseq := ordseq.(started := true);
    }

    /** The first half of start_ordered, up to where the original request is stashed away. */
    method StashOriginal()
      requires queueHead != []
      modifies this`orderr, this`ordered, this`ordseq, this`queueHead, this`inFlight, this`origBarRq, this`log
      ensures View() == BeginSequence(old(View()))
    {
      var rq := queueHead[0];
      BeginPhases(rq.Orig? && rq.empty);
      ElvDequeue(0);
      origBarRq := rq;
      log := log + [Began(rq)];
    }

    /** start_ordered; the verdict is what *rqp and the return value say together */
    method StartOrderedSequence() returns (v: Verdict)
      requires queueHead != []
      modifies this
      ensures (View(), v) == StartOrdered(old(View()))
    {
      var skip := NONE;
      v := Hold;
      StashOriginal();
      ghost var s2 := View();
      if ordered.postflush {
        QueueProxy(PostFlush);
        v := Hand(PostFlush);
      } else {
        skip := skip.(postflush := true);
      }
      ghost var s3 := View();
      assert s3 == PushIf(s2, s2.ordered.postflush, PostFlush);
      if ordered.bar {
        QueueProxy(BarProxy);
        v := Hand(BarProxy);
      } else {
        skip := skip.(bar := true);
      }
      ghost var s4 := View();
      assert s4 == PushIf(s3, s2.ordered.bar, BarProxy);
      if ordered.preflush {
        QueueProxy(PreFlush);
        v := Hand(PreFlush);
      } else {
        skip := skip.(preflush := true);
      }
      assert View() == PushIf(s4, s2.ordered.preflush, PreFlush);
      if ordered.byDrain && inFlight != 0 {
        v := Hold;
      } else {
        skip := skip.(drain := true);
      }
      assert skip == Skipped(ordered, inFlight) && v == FirstProxy(ordered, inFlight);
      var complete := OrderedCompleteSeq(skip, 0);
      if complete {
        v := Again;
      }
    }

    /** blk_do_ordered */
    method DoOrderedHead() returns (v: Verdict)
      requires queueHead != []
      modifies this
      ensures (View(), v) == DoOrdered(old(View()))
    {
      var rq := queueHead[0];
      var isBarrier := IsFs(rq) && IsHard(rq);
      if ordseq == NONE {
        if !isBarrier {
          return Hand(rq);
        }
        if nextOrdered != MODE_NONE {
          v := StartOrderedSequence();
        } else {
          ElvDequeue(0);
          EndOriginal(rq, -EOPNOTSUPP);
          v := Again;
        }
        return;
      }
      if !IsFs(rq) && !rq.PreFlush? && !rq.PostFlush? {
        return Hand(rq);
      }
      v := Hand(rq);
      if ordered.byTag {
        if isBarrier && !rq.BarProxy? {
          v := Hold;
        }
      } else {
        warn := warn || ReqSeq(origBarRq, rq) < CurSeq(ordseq);
        if ReqSeq(origBarRq, rq) > CurSeq(ordseq) {
          v := Hold;
        }
      }
    }

    /** elv_completed_request */
    method ElvCompleted(rq: Rq)
      modifies this
      ensures View() == Completed(old(View()), rq)
    {
      if rq in started && IsFs(rq) {
        inFlight := inFlight - 1;
      }
      if ordseq != NONE {
        if inFlight == 0 && CurSeq(ordseq) == DRAIN
           && (queueHead == [] || ReqSeq(origBarRq, queueHead[0]) > DRAIN) {
          var _ := OrderedCompleteSeq(JUST_DRAIN, 0);
        }
      }
    }

    /** The driver ends a request: pre_flush_end_io, bar_end_io, post_flush_end_io, __blk_put_request */
    method EndIo(rq: Rq, error: int)
      modifies this
      ensures View() == End(old(View()), rq, error)
    {
      flight := flight - {rq};
      log := log + [Ended(rq, error)];
      if rq.Orig? {
        ended := ended + {rq};
      }
      ElvCompleted(rq);
      match rq {
        case PreFlush => var _ := OrderedCompleteSeq(JUST_PREFLUSH, error);
        case BarProxy => var _ := OrderedCompleteSeq(JUST_BAR, error);
        case PostFlush => var _ := OrderedCompleteSeq(JUST_POSTFLUSH, error);
        case Orig(_, _, _, _, _, _) =>
      }
    }

    /** The list walk of ELEVATOR_INSERT_REQUEUE while a sequence is in progress */
    method RequeueSlot(want: nat) returns (pos: nat)
      ensures pos == RequeuePos(queueHead, origBarRq, want, 0)
    {
      pos := 0;
      while pos < |queueHead|
        invariant pos <= |queueHead|
        invariant RequeuePos(queueHead, origBarRq, want, 0) == RequeuePos(queueHead, origBarRq, want, pos)
      {
        if want <= ReqSeq(origBarRq, queueHead[pos]) {
          break;
        }
        pos := pos + 1;
      }
    }

    /** The accounting half of elv_requeue_request */
    method Unstart(rq: Rq)
      modifies this`inFlight, this`started, this`soft, this`flight
      ensures View() == var s := old(View());
                s.(inFlight := if Account(s, rq) then s.inFlight - 1 else s.inFlight,
                   started := s.started - {rq}, soft := s.soft + {rq}, flight := s.flight - {rq})
    {
      if rq in started && IsFs(rq) {
        inFlight := inFlight - 1;
      }
      started := started - {rq};
      soft := soft + {rq};
      flight := flight - {rq};
    }

    /** elv_requeue_request */
    method ElvRequeue(rq: Rq)
      modifies this
      ensures View() == Requeue(old(View()), rq)
    {
      Unstart(rq);
      if ordseq == NONE {
        queueHead := Insert(queueHead, 0, rq);
      } else {
        var pos := RequeueSlot(ReqSeq(origBarRq, rq));
        queueHead := Insert(queueHead, pos, rq);
      }
    }

    /**
     * elv_dispatch_sort: walk back from the tail and insert behind the first request that stops
     * the walk; nothing with a stop flag is passed, so this is a legal `Dispatch`.
     */
    method DispatchSort(rq: Rq, slot: Rq -> Slot, boundary: nat) returns (ghost pos: nat)
      requires rq in sorted
      modifies this`queueHead, this`sorted
      ensures CanDispatch(old(View()), rq, pos)
      ensures View() == Dispatched(old(View()), rq, pos)
      ensures pos > 0 ==> WalkStops(old(View()), slot, boundary, rq, old(queueHead)[pos - 1])
      ensures forall j :: pos <= j < |old(queueHead)| ==> !WalkStops(old(View()), slot, boundary, rq, old(queueHead)[j])
    {
      ghost var s := View();
      sorted := sorted - {rq};
      var p: nat := |queueHead|;
      while p > 0
        invariant p <= |queueHead| == |s.list| && queueHead == s.list
        invariant forall j :: p <= j < |queueHead| ==> !WalkStops(s, slot, boundary, rq, queueHead[j])
      {
        var entry := queueHead[p - 1];
        if slot(rq).discard != slot(entry).discard {
          break;
        }
        if slot(rq).write != slot(entry).write {
          break;
        }
        if entry in soft || IsHard(entry) || entry in started {
          break;
        }
        if slot(rq).sector >= boundary {
          if slot(entry).sector < boundary {
            p := p - 1;
            continue;
          }
        } else {
          if slot(entry).sector >= boundary {
            break;
          }
        }
        if slot(rq).sector >= slot(entry).sector {
          break;
        }
        p := p - 1;
      }
      pos := p;
      queueHead := Insert(queueHead, p, rq);
    }

    /**
     * elv_drain_elevator: the scheduler gives up what it holds, in an order of its own choice, except
     * what it keeps back.  The result says whether the message about broken forced dispatch is due.
     */
    method DrainElevator(slot: Rq -> Slot, boundary: nat, kept: set<Rq>) returns (broken: bool, ghost ops: seq<Op>)
      modifies this`queueHead, this`sorted
      ensures sorted == old(sorted) * kept && broken == (sorted != {})
      ensures IsRun(old(View()), ops, View(), STRICT) && forall i :: 0 <= i < |ops| ==> ops[i].Dispatch?
    {
      ops := [];
      while sorted - kept != {}
        invariant IsRun(old(View()), ops, View(), STRICT) && sorted * kept == old(sorted) * kept
        invariant forall i :: 0 <= i < |ops| ==> ops[i].Dispatch?
        decreases sorted
      {
        var rq :| rq in sorted - kept;
        ghost var s := View();
        ghost var pos := DispatchSort(rq, slot, boundary);
        RunSnoc(old(View()), ops, s, Dispatch(rq, pos), STRICT);
        ops := ops + [Dispatch(rq, pos)];
      }
      assert forall r :: r in sorted && r !in kept ==> r in sorted - kept;
      broken := sorted != {};
    }

    /** The accounting of __elv_add_request: colour the request, toggle the colour at a barrier. */
    method Colour(rq: Rq)
      requires rq.Orig?
      modifies this`ordcolor, this`all, this`log, this`bars
      ensures View() == Accept(old(View()), rq)
    {
      if rq.hard {
        ordcolor := !ordcolor;
      }
      all := all + {rq};
      log := log + [Accepted(rq)];
      if rq.hard && rq.fs {
        bars := bars + [rq];
      }
    }

    /** The insertion itself: elv_insert for a request that is already coloured. */
    method ElvInsert(rq: Rq, at: Where)
      modifies this`queueHead, this`soft, this`sorted
      ensures View() ==
        var s := old(View());
        match at
        case Front => s.(list := Insert(s.list, 0, rq), soft := s.soft + {rq})
        case Back => s.(list := Insert(s.list, |s.list|, rq), soft := s.soft + {rq})
        case Sort => s.(sorted := s.sorted + {rq})
    {
      match at {
        case Front =>
          soft := soft + {rq};
          queueHead := Insert(queueHead, 0, rq);
        case Back =>
          soft := soft + {rq};
          queueHead := Insert(queueHead, |queueHead|, rq);
        case Sort =>
          sorted := sorted + {rq};
      }
    }

    /** A request is coloured and inserted at the place settled on. */
    method InsertAt(at: Where, id: nat, fs: bool, hard: bool, empty: bool, ghost p: Policy)
      requires Enabled(View(), AddOp(at, id, fs, hard, empty), p)
      requires (at == Front ==> !fs) && (at == Sort ==> fs && !hard)
      modifies this
      ensures View() == Apply(old(View()), AddOp(at, id, fs, hard, empty), p)
    {
      var rq := Orig(id, fs, hard, at == Back && empty, ordcolor, |bars|);
      Colour(rq);
      ElvInsert(rq, at);
    }

    /**
     * __elv_add_request.  A barrier or a request without scheduler data goes to the back, after the
     * forced dispatch.  Whatever happens is a run of the state machine, and the policy it needs is
     * the strict one unless a barrier is no file-system request or finds the scheduler not empty.
     */
    method AddRequest(id: nat, fs: bool, hard: bool, empty: bool, softFlag: bool, elvpriv: bool, wanted: Where,
                      slot: Rq -> Slot, boundary: nat, kept: set<Rq>)
      returns (ghost ops: seq<Op>)
      requires FreshId(View(), id)
      requires wanted == Front ==> !fs
      requires FinalWhere(wanted, hard || softFlag, elvpriv) == Sort ==> fs
      modifies this
      ensures IsRun(old(View()), ops, View(), Policy(hard && !fs, hard && old(sorted) * kept != {}))
      ensures ops != [] && ops[|ops| - 1] == AddOp(FinalWhere(wanted, hard || softFlag, elvpriv), id, fs, hard, empty)
      ensures forall i :: 0 <= i < |ops| - 1 ==> ops[i].Dispatch?
    {
      ghost var p := Policy(hard && !fs, hard && sorted * kept != {});
      ops := [];
      var at := wanted;
      if hard || softFlag {
        if at == Sort {
          at := Back;
        }
      } else if !elvpriv && at == Sort {
        at := Back;
      }
      if at == Back {
        var broken;
        broken, ops := DrainElevator(slot, boundary, kept);
        RunLaxer(old(View()), ops, View(), STRICT, p);
      }
      ghost var s, op := View(), AddOp(at, id, fs, hard, empty);
      InsertAt(at, id, fs, hard, empty, p);
      RunSnoc(old(View()), ops, s, op, p);
      ops := ops + [op];
    }

    /** One turn: ask blk_do_ordered about the head and mark what it lets through. */
    method TryHead() returns (v: Verdict)
      requires queueHead != []
      modifies this
      ensures v == DoOrdered(old(View())).1
      ensures View() == NextRequest(old(View()))
    {
      v := DoOrderedHead();
      if v.Hand? {
        started := started + {v.r};
        log := log + [Handed(v.r)];
      }
    }

    /** elevator_dispatch_fn: the scheduler moves what it chooses of what it holds, and says how many. */
    method AskScheduler(chosen: seq<Rq>, slot: Rq -> Slot, boundary: nat) returns (n: nat, ghost ops: seq<Op>)
      modifies this`queueHead, this`sorted
      ensures IsRun(old(View()), ops, View(), STRICT)
      ensures |queueHead| == |old(queueHead)| + n && (n == 0 ==> View() == old(View()))
    {
      ops, n := [], 0;
      for i := 0 to |chosen|
        invariant IsRun(old(View()), ops, View(), STRICT)
        invariant |queueHead| == |old(queueHead)| + n && (n == 0 ==> View() == old(View()))
      {
        if chosen[i] in sorted {
          ghost var s := View();
          ghost var pos := DispatchSort(chosen[i], slot, boundary);
          RunSnoc(old(View()), ops, s, Dispatch(chosen[i], pos), STRICT);
          ops := ops + [Dispatch(chosen[i], pos)];
          n := n + 1;
        }
      }
    }

    /** The inner loop of __elv_next_request: the head is tried until it is handed out, held, or the list is empty. */
    method TryHeads() returns (v: Verdict, ghost asked: Queue, ghost ops: seq<Op>)
      modifies this
      ensures IsRun(old(View()), ops, View(), STRICT)
      ensures v.Again? ==> queueHead == []
      ensures !v.Again? ==> asked.list != [] && v == DoOrdered(asked).1 && View() == NextRequest(asked)
    {
      ops, v, asked := [], Again, View();
      while queueHead != []
        invariant IsRun(old(View()), ops, View(), STRICT)
        invariant v.Again?
        decreases |queueHead|
      {
        asked := View();
        v := TryHead();
        RunSnoc(old(View()), ops, asked, Next, STRICT);
        ops := ops + [Next];
        if !v.Again? {
          return;
        }
        AgainShrinks(asked);
      }
    }

    /**
     * elv_next_request.  While the list is empty the scheduler is asked, `turns` being its answers; it
     * is over when it gives nothing.  No request comes back only from a held head or an empty list.
     */
    method ElvNextRequest(turns: seq<seq<Rq>>, slot: Rq -> Slot, boundary: nat)
      returns (rq: Option<Rq>, ghost asked: Queue, ghost ops: seq<Op>)
      modifies this
      ensures IsRun(old(View()), ops, View(), STRICT)
      ensures rq.Some? ==> rq.value in started && |log| > 0 && log[|log| - 1] == Handed(rq.value)
      ensures rq.None? ==> queueHead == [] || (asked.list != [] && DoOrdered(asked).1.Hold? &&
                                               View() == NextRequest(asked))
    {
      ops, rq, asked := [], None, View();
      var i := 0;
      while true
        invariant 0 <= i <= |turns| && IsRun(old(View()), ops, View(), STRICT)
        decreases |turns| - i
      {
        ghost var s := View();
        var v;
        ghost var more;
        v, asked, more := TryHeads();
        RunConcat(old(View()), ops, s, more, View(), STRICT);
        ops := ops + more;
        if v.Hand? {
          return Some(v.r), asked, ops;
        }
        if v.Hold? || i == |turns| {
          return;
        }
        s := View();
        var n;
        n, more := AskScheduler(turns[i], slot, boundary);
        RunConcat(old(View()), ops, s, more, View(), STRICT);
        ops := ops + more;
        if n == 0 {
          return;
        }
        i := i + 1;
      }
    }
  }
}
