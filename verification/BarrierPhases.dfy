/** The phases of a barrier one after the other, read off the log. */
module BarrierPhases {
  import opened Barrier
  import opened BarrierInv
  import opened BarrierCore
  import opened BarrierDrain
  import opened BarrierHistory
  import opened BarrierTheorems

  /** A request has ended since the last sequence began. */
  predicate EndedSince(log: seq<Event>, r: Rq) {
    log != [] &&
    var e := log[|log| - 1];
    !e.Began? && ((e.Ended? && e.r == r) || EndedSince(log[..|log| - 1], r))
  }

  /** All that the mode asks for on behalf of a barrier has ended. */
  predicate AllPhases(past: seq<Event>, b: Rq, mode: Mode) {
    && (mode.preflush ==> EndedSince(past, PreFlush))
    && (b.Orig? && !b.empty && mode.bar ==> EndedSince(past, BarProxy))
    && (b.Orig? && !b.empty && mode.postflush ==> EndedSince(past, PostFlush))
  }

  /**
   * In a drain mode the barrier itself is handed out only after the flush before it has ended, and the
   * flush after it only after the barrier has.  In every mode only what the mode asks for is handed out,
   * and the original request ends only after all of it has ended.
   */
  predicate PhasedAt(log: seq<Event>, k: nat, mode: Mode)
    requires k < |log|
  {
    var past := log[..k];
    && (DrainMode(mode) && log[k] == Handed(BarProxy) ==> mode.preflush ==> EndedSince(past, PreFlush))
    && (DrainMode(mode) && log[k] == Handed(PostFlush) ==>
          && (mode.preflush ==> EndedSince(past, PreFlush))
          && (LastBegan(past).Orig? && !LastBegan(past).empty ==> EndedSince(past, BarProxy)))
    && (log[k].Handed? && !log[k].r.Orig? ==> AskedFor(log[k].r, LastBegan(past), mode))
    && (log[k].Ended? && OrigBarrier(log[k].r) ==> AllPhases(past, log[k].r, mode))
  }

  /** An empty barrier has neither a request of its own nor a flush after it. */
  predicate AskedFor(p: Rq, b: Rq, mode: Mode) {
    && (p.PreFlush? ==> mode.preflush)
    && (p.BarProxy? ==> mode.bar && b.Orig? && !b.empty)
    && (p.PostFlush? ==> mode.postflush && b.Orig? && !b.empty)
  }

  /** Whatever the mode, a barrier waits for something: for the queue to drain, or for a request of its own. */
  lemma OrderingWaits(mode: Mode, empty: bool)
    requires ValidMode(mode) && mode != MODE_NONE
    ensures var o := OrderingFor(mode, empty);
            && (o.byDrain || o.preflush || o.bar || o.postflush) && o.preflush == mode.preflush && o.fua == mode.fua
            && (if empty then !o.bar && !o.postflush else o == mode)
  {
  }

  predicate InPhases(log: seq<Event>, mode: Mode) {
    forall k :: 0 <= k < |log| ==> PhasedAt(log, k, mode)
  }

  lemma SinceExtended(log: seq<Event>, e: Event)
    ensures forall r :: EndedSince(log + [e], r) <==> !e.Began? && ((e.Ended? && e.r == r) || EndedSince(log, r))
  {
    assert (log + [e])[..|log|] == log;
  }

  lemma PhasesExtended(log: seq<Event>, e: Event, mode: Mode)
    requires InPhases(log, mode) && PhasedAt(log + [e], |log|, mode)
    ensures InPhases(log + [e], mode)
  {
    var log' := log + [e];
    forall k | 0 <= k < |log'| ensures PhasedAt(log', k, mode) {
      if k < |log| {
        assert log'[..k] == log[..k] && log'[k] == log[k];
        assert PhasedAt(log, k, mode);
      }
    }
  }

  /** An event that is none of those constrained. */
  lemma PhasesQuiet(log: seq<Event>, e: Event, mode: Mode)
    requires InPhases(log, mode) && !(e.Handed? && !e.r.Orig?) && !(e.Ended? && OrigBarrier(e.r))
    ensures InPhases(log + [e], mode)
    ensures forall r :: EndedSince(log + [e], r) <==> !e.Began? && ((e.Ended? && e.r == r) || EndedSince(log, r))
  {
    SinceExtended(log, e);
    assert (log + [e])[|log|] == e;
    PhasesExtended(log, e, mode);
  }

  // ---------------------------------------------------------------- log and bits agree

  predicate Over(b: Bits, p: Rq) {
    match p case PreFlush => b.preflush case BarProxy => b.bar case PostFlush => b.postflush case _ => false
  }

  /** A proxy's phase is over exactly if it was not asked for or has ended. */
  ghost predicate Traced(log: seq<Event>, o: Mode, over: Bits) {
    forall p: Rq :: !p.Orig? ==> (Over(over, p) <==> p !in Asked(o) || EndedSince(log, p)) &&
                                 (p !in Asked(o) ==> !EndedSince(log, p))
  }

  ghost predicate Ordered(s: Queue) {
    && InPhases(s.log, s.next)
    && (Active(s) ==> Traced(s.log, s.ordered, s.ordseq))
  }

  /** With all phases over, the original request may end. */
  lemma TracedAll(log: seq<Event>, o: Mode, over: Bits, mode: Mode, b: Rq)
    requires Traced(log, o, over) && over == ALL && b.Orig? && o == OrderingFor(mode, b.empty)
    ensures AllPhases(log, b, mode)
  {
    assert Over(over, PreFlush) && Over(over, BarProxy) && Over(over, PostFlush);
  }

  lemma TracedMark(log: seq<Event>, o: Mode, over: Bits, b: Rq, phases: Bits)
    requires Traced(log, o, over)
    ensures Traced(log + [Marked(b, phases)], o, over)
  {
    SinceExtended(log, Marked(b, phases));
  }

  lemma OrderedComplete(s: Queue, phases: Bits, err: int)
    requires Active(s) && s.ordseq.started && OrigBarrier(s.orig) && s.ordered == OrderingFor(s.next, s.orig.empty)
    requires InPhases(s.log, s.next) && Traced(s.log, s.ordered, Join(s.ordseq, phases))
    ensures Ordered(CompleteSeq(s, phases, err))
  {
    var s' := CompleteSeq(s, phases, err);
    var over, log := Join(s.ordseq, phases), s.log + [Marked(s.orig, phases)];
    PhasesQuiet(s.log, Marked(s.orig, phases), s.next);
    TracedMark(s.log, s.ordered, over, s.orig, phases);
    if CurSeq(over) == DONE {
      var e := Ended(s.orig, s'.orderr);
      TracedAll(log, s.ordered, over, s.next, s.orig);
      assert (log + [e])[..|log|] == log && (log + [e])[|log|] == e;
      PhasesExtended(log, e, s.next);
      assert s'.log == log + [e] && s'.ordseq == NONE;
    } else {
      assert s'.log == log && s'.ordseq == over;
    }
  }

  // ---------------------------------------------------------------- the steps

  lemma OrderedEnd(s: Queue, r: Rq, err: int)
    requires Inv(s) && Ordered(s) && r in s.flight
    ensures Ordered(End(s, r, err))
  {
    var s1 := Released(s, r, err);
    assert r in s.started;
    PhasesQuiet(s.log, Ended(r, err), s.next);
    assert Active(s) ==> s.orig in Running(s);
    if !r.Orig? {
      EndOfProxy(s, r, err);
      ProxyOver(s, r, err);
      OrderedComplete(s1, PhaseOf(r), err);
    } else {
      EndOfOrig(s, r, err);
      if EndsDrain(s1) {
        OrderedComplete(s1, JUST_DRAIN, 0);
      }
    }
  }

  /** The end of a proxy, and its phase over with it. */
  lemma ProxyOver(s: Queue, r: Rq, err: int)
    requires Inv(s) && Ordered(s) && r in s.flight && !r.Orig? && Active(s) && !Meet(s.ordseq, PhaseOf(r))
    ensures Traced(s.log + [Ended(r, err)], s.ordered, Join(s.ordseq, PhaseOf(r)))
  {
    SinceExtended(s.log, Ended(r, err));
    assert !Over(s.ordseq, r);
    assert r in Asked(s.ordered);
  }

  lemma TracedStart(log: seq<Event>, b: Rq, o: Mode, inFlight: int)
    ensures Traced(log + [Began(b)], o, Join(NONE.(started := true), Skipped(o, inFlight)))
  {
    SinceExtended(log, Began(b));
  }

  lemma OrderedStart(s: Queue)
    requires Inv(s) && Ordered(s) && Startable(s)
    ensures Ordered(StartOrdered(s).0)
  {
    var b := s.list[0];
    var q := QueueSequence(s);
    assert b in s.list;
    SequenceFields(s);
    PhasesQuiet(s.log, Began(b), s.next);
    TracedStart(s.log, b, q.ordered, q.inFlight);
    OrderedComplete(q, Skipped(q.ordered, q.inFlight), 0);
  }

  /** What is handed out waits for the phases before it. */
  predicate Due(s: Queue, r: Rq) {
    && (r.BarProxy? ==> s.ordseq.preflush)
    && (r.PostFlush? ==> s.ordseq.preflush && s.ordseq.bar)
  }

  lemma OrderedHanded(s: Queue, r: Rq)
    requires Ordered(s) && (!r.Orig? ==> Active(s) && !Over(s.ordseq, r) && (Drains(s) ==> Due(s, r)))
    requires Active(s) ==> LastBegan(s.log) == s.orig && s.orig.Orig? && s.ordered == OrderingFor(s.next, s.orig.empty)
    ensures Ordered(s.(started := s.started + {r}, log := s.log + [Handed(r)]))
  {
    var e := Handed(r);
    SinceExtended(s.log, e);
    assert (s.log + [e])[..|s.log|] == s.log && (s.log + [e])[|s.log|] == e;
    if !r.Orig? {
      assert r in Asked(s.ordered);
      assert Over(s.ordseq, PreFlush) == s.ordseq.preflush && Over(s.ordseq, BarProxy) == s.ordseq.bar;
    }
    PhasesExtended(s.log, e, s.next);
  }

  /** The first request of a sequence is what comes first in it. */
  lemma FirstDue(s: Queue)
    requires Inv(s) && Startable(s) && StartOrdered(s).1.Hand?
    ensures var (q, v) := StartOrdered(s);
            && Active(q) && Due(q, v.r) && !v.r.Orig? && !Over(q.ordseq, v.r)
            && q.orig == s.list[0] && q.ordered == OrderingFor(s.next, s.list[0].empty) && q.next == s.next
  {
    var q := QueueSequence(s);
    assert s.list[0] in s.list;
    SequenceFields(s);
  }

  lemma OrderedNextStart(s: Queue)
    requires Inv(s) && Kept(s) && Ordered(s) && Startable(s)
    ensures Ordered(NextRequest(s))
  {
    OrderedStart(s);
    KeptStart(s);
    CoreNextStart(s);
    if StartOrdered(s).1.Hand? {
      FirstDue(s);
    }
    OrderedHandOut(StartOrdered(s).0, StartOrdered(s).1);
  }

  lemma OrderedHandOut(s: Queue, v: Verdict)
    requires Ordered(s) && Tracks(s)
    requires v.Hand? ==> Active(s) && Due(s, v.r) && !v.r.Orig? && !Over(s.ordseq, v.r)
    requires v.Hand? ==> s.orig.Orig? && s.ordered == OrderingFor(s.next, s.orig.empty)
    ensures Ordered(HandOut(s, v))
  {
    if v.Hand? {
      OrderedHanded(s, v.r);
    }
  }

  lemma HeadDue(s: Queue)
    requires Inv(s) && Drains(s) && Active(s) && s.list != [] && DoOrdered(s).1.Hand? && !s.list[0].Orig?
    ensures Due(s, s.list[0])
  {
    assert s.orig in Running(s);
  }

  lemma OrderedNextActive(s: Queue)
    requires Inv(s) && Kept(s) && Ordered(s) && s.list != [] && Active(s)
    ensures Ordered(NextRequest(s))
  {
    var (s1, v) := DoOrdered(s);
    assert s1 == s.(warn := s1.warn);
    if v.Hand? {
      HandedIsNoBarrier(s);
      assert !s.list[0].Orig? ==> Held(s.list, s.flight, s.list[0]);
      if Drains(s) && !s.list[0].Orig? {
        HeadDue(s);
      }
      OrderedHanded(s, s.list[0]);
    }
  }

  lemma OrderedNext(s: Queue)
    requires Inv(s) && Kept(s) && Ordered(s) && s.list != [] && s.next != MODE_NONE
    ensures Ordered(NextRequest(s))
  {
    if Active(s) {
      OrderedNextActive(s);
    } else {
      IdleHead(s);
      if OrigBarrier(s.list[0]) {
        OrderedNextStart(s);
      } else {
        OrderedHanded(s, s.list[0]);
      }
    }
  }

  lemma OrderedQuiet(s: Queue, e: Event)
    requires Ordered(s) && (e.Accepted? || e.Partial?)
    ensures InPhases(s.log + [e], s.next)
    ensures Active(s) ==> Traced(s.log + [e], s.ordered, s.ordseq)
  {
    PhasesQuiet(s.log, e, s.next);
  }

  /** Every step keeps the phases in order. */
  lemma OrderedStep(s: Queue, op: Op)
    requires Inv(s) && Kept(s) && Ordered(s) && Enabled(s, op, STRICT) && s.next != MODE_NONE
    ensures Ordered(Apply(s, op, STRICT))
  {
    match op
    case Next => OrderedNext(s);
    case Finish(r, err) => OrderedEnd(s, r, err);
    case FinishPart(err) => OrderedQuiet(s, Partial(err));
    case AddSorted(id) => OrderedQuiet(s, Accepted(Coloured(s, id, true, false, false)));
    case AddBack(id, fs, hard, empty) => OrderedQuiet(s, Accepted(Coloured(s, id, fs, hard, empty)));
    case AddFront(id, hard) => OrderedQuiet(s, Accepted(Coloured(s, id, false, hard, false)));
    case Dispatch(_, _) =>
    case Take(_) =>
    case PutBack(_) =>
  }

  lemma {:induction false} RunOrdered(s: Queue, ops: seq<Op>, t: Queue)
    requires Inv(s) && Kept(s) && Ordered(s) && s.next != MODE_NONE && IsRun(s, ops, t, STRICT)
    ensures Ordered(t) && t.next == s.next
    decreases |ops|
  {
    if ops != [] {
      InvStep(s, ops[0]);
      KeptStep(s, ops[0]);
      OrderedStep(s, ops[0]);
      RunOrdered(Apply(s, ops[0], STRICT), ops[1..], t);
    }
  }

  /** In every run the phases of every barrier come in their order, and none that is asked for is left out. */
  lemma PhasesInOrder(mode: Mode, ops: seq<Op>, t: Queue, k: nat)
    requires ValidMode(mode) && mode != MODE_NONE && IsRun(Init(mode), ops, t, STRICT) && k < |t.log|
    ensures PhasedAt(t.log, k, mode)
  {
    CoreInit(mode);
    assert forall r :: !EndedIn([], r);
    RunOrdered(Init(mode), ops, t);
  }
}
