/** What holds of every run of a queue. */
module BarrierTheorems {
  import opened Barrier
  import opened BarrierInv
  import opened BarrierCore
  import opened BarrierDrain
  import opened BarrierHistory

  /** `ops` can happen one after the other from `s` and lead to `t`. */
  ghost predicate IsRun(s: Queue, ops: seq<Op>, t: Queue, p: Policy)
    decreases |ops|
  {
    if ops == [] then s == t
    else Enabled(s, ops[0], p) && IsRun(Apply(s, ops[0], p), ops[1..], t, p)
  }

  lemma {:induction false} RunKeeps(s: Queue, ops: seq<Op>, t: Queue)
    requires Inv(s) && (s.next != MODE_NONE ==> Kept(s)) && IsRun(s, ops, t, STRICT)
    ensures Inv(t) && (s.next != MODE_NONE ==> Kept(t)) && t.next == s.next
    decreases |ops|
  {
    if ops != [] {
      InvStep(s, ops[0]);
      if s.next != MODE_NONE {
        KeptStep(s, ops[0]);
      }
      RunKeeps(Apply(s, ops[0], STRICT), ops[1..], t);
    }
  }

  lemma RunFromInit(mode: Mode, ops: seq<Op>, t: Queue)
    requires ValidMode(mode) && IsRun(Init(mode), ops, t, STRICT)
    ensures Inv(t) && (mode != MODE_NONE ==> Kept(t)) && t.next == mode
  {
    CoreInit(mode);
    assert forall r :: !EndedIn([], r);
    RunKeeps(Init(mode), ops, t);
  }

  ghost predicate Safe(log: seq<Event>) { forall k :: 0 <= k < |log| ==> SafeAt(log, k) }

  /**
   * Barrier safety.  In a drain mode, in every run in which every forced dispatch before a barrier
   * empties the scheduler and only file-system requests carry REQ_HARDBARRIER, a file-system request
   * accepted after a barrier is handed to the driver only after that barrier has ended, and every
   * file-system request accepted before a barrier has ended when any of its proxies is handed out.
   */
  lemma BarrierSafety(mode: Mode, ops: seq<Op>, t: Queue)
    requires DrainMode(mode) && IsRun(Init(mode), ops, t, STRICT)
    ensures Safe(t.log) && !t.warn
  {
    RunFromInit(mode, ops, t);
  }

  /**
   * Barrier bookkeeping.  In every run each phase of a barrier is marked once, no BUG_ON fires,
   * and the original request ends once, after all phases, with the first error of its proxies.
   */
  lemma BarrierBookkeeping(mode: Mode, ops: seq<Op>, t: Queue)
    requires ValidMode(mode) && mode != MODE_NONE && IsRun(Init(mode), ops, t, STRICT)
    ensures forall k :: 0 <= k < |t.log| ==> BookedAt(t.log, k)
    ensures !t.bug
    ensures forall r: Rq :: r.Orig? ==> (Accepted(r) in t.log <==> r in t.all) && (EndedIn(t.log, r) <==> r in t.ended)
  {
    RunFromInit(mode, ops, t);
  }

  /** Every request accepted is, in every run, ended or in exactly one place; in_flight counts exactly. */
  lemma NothingLost(mode: Mode, ops: seq<Op>, t: Queue)
    requires ValidMode(mode) && IsRun(Init(mode), ops, t, STRICT)
    ensures Apart(t.list, t.sorted, t.flight, Running(t))
    ensures Conserved(t.list, t.sorted, t.flight, Running(t), t.all, t.ended)
    ensures t.inFlight == |FsOf(t.flight)|
  {
    RunFromInit(mode, ops, t);
  }

  /**
   * A drain-mode queue is never wedged: when the driver holds nothing, a pending sequence or a
   * request on the list always lets blk_do_ordered hand out a request or finish a barrier.
   */
  lemma NeverWedged(mode: Mode, ops: seq<Op>, t: Queue)
    requires DrainMode(mode) && IsRun(Init(mode), ops, t, STRICT)
    requires t.flight == {} && (t.list != [] || t.ordseq != NONE)
    ensures t.list != [] && !DoOrdered(t).1.Hold?
  {
    RunFromInit(mode, ops, t);
    assert t.inFlight == 0 by { assert FsOf(t.flight) == {}; }
    if Active(t) {
      ActiveHead(t);
    } else {
      IdleHead(t);
      if OrigBarrier(t.list[0]) {
        assert t.list[0] in t.list;
        SequenceFields(t);
      }
    }
  }

  /** With nothing in flight, the head of a running sequence is what it is waiting for. */
  lemma ActiveHead(t: Queue)
    requires Inv(t) && Drains(t) && Active(t) && t.flight == {} && t.inFlight == 0
    ensures t.list != [] && DoOrdered(t).1.Hand?
  {
    assert t.orig in Running(t);
    if !t.ordseq.drain {
      assert ReqSeq(t.orig, t.list[0]) == DRAIN;
    } else {
      var p := if !t.ordseq.preflush then PreFlush else if !t.ordseq.bar then BarProxy else PostFlush;
      assert Held(t.list, t.flight, p);
      var m :| 0 <= m < |t.list| && t.list[m] == p;
      var h := t.list[0];
      assert h in t.list;
      assert !h.Orig? ==> Held(t.list, t.flight, h);
      if m != 0 {
        assert Before(h, p, true, t.done);
      }
    }
  }

  lemma {:induction false} RunSnoc(s: Queue, ops: seq<Op>, t: Queue, op: Op, p: Policy)
    requires IsRun(s, ops, t, p) && Enabled(t, op, p)
    ensures IsRun(s, ops + [op], Apply(t, op, p), p)
    decreases |ops|
  {
    if ops == [] {
      assert (ops + [op])[1..] == [];
    } else {
      assert (ops + [op])[1..] == ops[1..] + [op];
      RunSnoc(Apply(s, ops[0], p), ops[1..], t, op, p);
    }
  }

  // The run that shows why non-fs requests must not carry REQ_HARDBARRIER.

  const SPECIALS := Policy(true, false)

  const BARRIER: Rq := Orig(1, true, true, false, false, 0)
  const SPECIAL: Rq := Orig(2, false, true, false, true, 1)
  const LATER: Rq := Orig(3, true, false, false, false, 1)

  function Accepting(): Queue {
    Queue(NONE, 0, MODE_DRAIN, MODE_DRAIN, false, PreFlush, [BARRIER, SPECIAL], {LATER}, {}, 0, {},
          {BARRIER, SPECIAL}, false, false,
          [Accepted(BARRIER), Accepted(SPECIAL), Accepted(LATER)], [BARRIER], 0, {BARRIER, SPECIAL, LATER}, {})
  }

  function Sequencing(): Queue {
    Queue(ALL.(bar := false), 0, MODE_DRAIN, MODE_DRAIN, false, BARRIER, [SPECIAL], {LATER}, {BarProxy}, 1,
          {BarProxy}, {BARRIER, SPECIAL, BarProxy}, false, false,
          Accepting().log + [Began(BARRIER), Marked(BARRIER, Bits(false, true, true, false, true)), Handed(BarProxy)],
          [BARRIER], 0, {BARRIER, SPECIAL, LATER}, {})
  }

  function Overtaking(): Queue {
    Queue(ALL.(bar := false), 0, MODE_DRAIN, MODE_DRAIN, false, BARRIER, [LATER], {}, {BarProxy, SPECIAL}, 1,
          {BarProxy, SPECIAL}, {BARRIER, SPECIAL, BarProxy}, false, false,
          Sequencing().log + [Handed(SPECIAL)], [BARRIER], 0, {BARRIER, SPECIAL, LATER}, {})
  }

  lemma AcceptThree()
    ensures IsRun(Init(MODE_DRAIN), [AddBack(1, true, true, false), AddBack(2, false, true, false), AddSorted(3)],
                  Accepting(), SPECIALS)
  {
    var o1, o2 := AddBack(1, true, true, false), AddBack(2, false, true, false);
    var s0 := Init(MODE_DRAIN);
    var s1 := Apply(s0, o1, SPECIALS);
    assert s1.list == [BARRIER];
    RunSnoc(s0, [], s0, o1, SPECIALS);
    var s2 := Apply(s1, o2, SPECIALS);
    assert s2.list == [BARRIER, SPECIAL];
    RunSnoc(s0, [o1], s1, o2, SPECIALS);
    RunSnoc(s0, [o1] + [o2], s2, AddSorted(3), SPECIALS);
    assert Apply(s2, AddSorted(3), SPECIALS) == Accepting();
    assert [o1] + [o2] + [AddSorted(3)] == [o1, o2, AddSorted(3)];
  }

  lemma StartBarrier()
    ensures IsRun(Accepting(), [Next, Take(0)], Sequencing(), SPECIALS)
  {
    var s3 := Accepting();
    assert Remove(s3.list, 0) == [SPECIAL];
    var s4 := NextRequest(s3);
    assert s4.list == [BarProxy, SPECIAL];
    assert Taken(s4, 0) == Sequencing();
    RunSnoc(s3, [], s3, Next, SPECIALS);
    RunSnoc(s3, [Next], s4, Take(0), SPECIALS);
    assert [Next] + [Take(0)] == [Next, Take(0)];
  }

  lemma SkipSpecial()
    ensures IsRun(Sequencing(), [Next, Take(0), Dispatch(LATER, 0)], Overtaking(), SPECIALS)
  {
    var s5 := Sequencing();
    var s6 := NextRequest(s5);
    var s7 := Taken(s6, 0);
    assert s7.list == [];
    assert Dispatched(s7, LATER, 0) == Overtaking();
    RunSnoc(s5, [], s5, Next, SPECIALS);
    RunSnoc(s5, [Next], s6, Take(0), SPECIALS);
    RunSnoc(s5, [Next] + [Take(0)], s7, Dispatch(LATER, 0), SPECIALS);
    assert [Next] + [Take(0)] + [Dispatch(LATER, 0)] == [Next, Take(0), Dispatch(LATER, 0)];
  }

  lemma {:induction false} RunConcat(s: Queue, ops: seq<Op>, t: Queue, more: seq<Op>, u: Queue, p: Policy)
    requires IsRun(s, ops, t, p) && IsRun(t, more, u, p)
    ensures IsRun(s, ops + more, u, p)
    decreases |ops|
  {
    if ops == [] {
      assert ops + more == more;
    } else {
      assert (ops + more)[1..] == ops[1..] + more;
      RunConcat(Apply(s, ops[0], p), ops[1..], t, more, u, p);
    }
  }

  lemma StillInFlight()
    ensures var past := Overtaking().log; AcceptedBefore(past, BARRIER, LATER) && !EndedIn(past, BARRIER)
  {
    var past := Overtaking().log;
    assert past[0] == Accepted(BARRIER) && past[2] == Accepted(LATER);
    assert forall k :: 0 <= k < |past| ==> !past[k].Ended?;
  }

  lemma HandedLate()
    ensures NextRequest(Overtaking()).log == Overtaking().log + [Handed(LATER)]
  {
  }

  lemma HandTooEarly()
    ensures !SafeAt(NextRequest(Overtaking()).log, |Overtaking().log|)
  {
    HandedLate();
    StillInFlight();
    Extended(Overtaking().log, Handed(LATER));
  }

  /**
   * The safety theorem needs its condition: __elv_add_request toggles the colour for every request
   * with REQ_HARDBARRIER, so once non-fs requests may carry it, there is a run in which a request
   * accepted after a barrier is handed out while the barrier's proxy is still in flight.
   */
  lemma NonFsHardBarrierBreaksSafety() returns (ops: seq<Op>, t: Queue)
    ensures IsRun(Init(MODE_DRAIN), ops, t, SPECIALS)
    ensures t.log != [] && !SafeAt(t.log, |t.log| - 1)
  {
    AcceptThree();
    StartBarrier();
    SkipSpecial();
    HandTooEarly();
    HandedLate();
    var ops1 := [AddBack(1, true, true, false), AddBack(2, false, true, false), AddSorted(3)];
    var ops2 := ops1 + [Next, Take(0)];
    var ops3 := ops2 + [Next, Take(0), Dispatch(LATER, 0)];
    RunConcat(Init(MODE_DRAIN), ops1, Accepting(), [Next, Take(0)], Sequencing(), SPECIALS);
    RunConcat(Init(MODE_DRAIN), ops2, Sequencing(), [Next, Take(0), Dispatch(LATER, 0)], Overtaking(), SPECIALS);
    RunSnoc(Init(MODE_DRAIN), ops3, Overtaking(), Next, SPECIALS);
    ops, t := ops3 + [Next], NextRequest(Overtaking());
  }

  // The run that shows why a forced dispatch must leave nothing behind.

  const LEAKY := Policy(false, true)

  const EARLIER: Rq := Orig(1, true, false, false, false, 0)
  const OVERTAKER: Rq := Orig(2, true, true, false, false, 0)

  /** The scheduler still holds a request when a barrier is queued. */
  function Leaking(): Queue {
    Queue(NONE, 0, MODE_DRAIN, MODE_DRAIN, true, PreFlush, [OVERTAKER], {EARLIER}, {}, 0, {}, {OVERTAKER}, false, false,
          [Accepted(EARLIER), Accepted(OVERTAKER)], [OVERTAKER], 0, {EARLIER, OVERTAKER}, {})
  }

  lemma LeakTwo()
    ensures IsRun(Init(MODE_DRAIN), [AddSorted(1), AddBack(2, true, true, false)], Leaking(), LEAKY)
  {
    var o1, o2 := AddSorted(1), AddBack(2, true, true, false);
    var s0 := Init(MODE_DRAIN);
    var s1 := Apply(s0, o1, LEAKY);
    RunSnoc(s0, [], s0, o1, LEAKY);
    RunSnoc(s0, [o1], s1, o2, LEAKY);
    assert Apply(s1, o2, LEAKY).list == [OVERTAKER];
    assert Apply(s1, o2, LEAKY) == Leaking();
    assert [o1] + [o2] == [o1, o2];
  }

  lemma LeakLog()
    ensures NextRequest(Leaking()).log ==
            Leaking().log + [Began(OVERTAKER), Marked(OVERTAKER, Bits(false, true, true, false, true))] +
              [Handed(BarProxy)]
  {
  }

  /** A proxy handed out before a request that was accepted before its barrier has ended. */
  lemma ProxyTooEarly(past: seq<Event>, x: Rq)
    requires OrigFs(x) && AcceptedBefore(past, x, LastBegan(past)) && !EndedIn(past, x)
    ensures !SafeAt(past + [Handed(BarProxy)], |past|)
  {
    Extended(past, Handed(BarProxy));
  }

  lemma LeakTooEarly()
    ensures var log := NextRequest(Leaking()).log; log != [] && !SafeAt(log, |log| - 1)
  {
    LeakLog();
    var past := Leaking().log + [Began(OVERTAKER), Marked(OVERTAKER, Bits(false, true, true, false, true))];
    LastBeganLeak(past);
    LeakPast(past);
    ProxyTooEarly(past, EARLIER);
  }

  lemma LeakPast(past: seq<Event>)
    requires past == Leaking().log + [Began(OVERTAKER), Marked(OVERTAKER, Bits(false, true, true, false, true))]
    ensures AcceptedBefore(past, EARLIER, OVERTAKER) && !EndedIn(past, EARLIER)
  {
    assert past[0] == Accepted(EARLIER) && past[1] == Accepted(OVERTAKER);
    assert forall k :: 0 <= k < |past| ==> !past[k].Ended?;
  }

  lemma LastBeganLeak(past: seq<Event>)
    requires past == Leaking().log + [Began(OVERTAKER), Marked(OVERTAKER, Bits(false, true, true, false, true))]
    ensures LastBegan(past) == OVERTAKER
  {
    assert past[..|past| - 1] == Leaking().log + [Began(OVERTAKER)];
  }

  /**
   * elv_drain_elevator only prints a message if the scheduler keeps requests back, and the barrier is
   * queued all the same: its proxy is then handed out before a request accepted before it has ended.
   */
  lemma BrokenDrainBreaksSafety() returns (ops: seq<Op>, t: Queue)
    ensures IsRun(Init(MODE_DRAIN), ops, t, LEAKY)
    ensures t.log != [] && !SafeAt(t.log, |t.log| - 1)
  {
    LeakTwo();
    LeakTooEarly();
    ops := [AddSorted(1), AddBack(2, true, true, false)];
    RunSnoc(Init(MODE_DRAIN), ops, Leaking(), Next, LEAKY);
    ops, t := ops + [Next], NextRequest(Leaking());
  }

  // ---------------------------------------------------------------- exactly when the queue is safe

  predicate Within(p: Policy, q: Policy) { (p.nonFsHard ==> q.nonFsHard) && (p.leaky ==> q.leaky) }

  /** What can happen under a policy can happen under a laxer one. */
  lemma {:induction false} RunLaxer(s: Queue, ops: seq<Op>, t: Queue, p: Policy, q: Policy)
    requires IsRun(s, ops, t, p) && Within(p, q)
    ensures IsRun(s, ops, t, q)
    decreases |ops|
  {
    if ops != [] {
      assert Apply(s, ops[0], p) == Apply(s, ops[0], q);
      RunLaxer(Apply(s, ops[0], p), ops[1..], t, p, q);
    }
  }

  ghost predicate AlwaysSafe(p: Policy) {
    forall mode, ops, t :: DrainMode(mode) && IsRun(Init(mode), ops, t, p) ==> Safe(t.log)
  }

  /** Drain-mode queues are safe in all runs if and only if the policy is the strict one. */
  lemma SafeExactly(p: Policy)
    ensures AlwaysSafe(p) <==> p == STRICT
  {
    if p == STRICT {
      forall mode, ops, t | DrainMode(mode) && IsRun(Init(mode), ops, t, p) ensures Safe(t.log) {
        BarrierSafety(mode, ops, t);
      }
    } else if p.nonFsHard {
      var ops, t := NonFsHardBarrierBreaksSafety();
      RunLaxer(Init(MODE_DRAIN), ops, t, SPECIALS, p);
    } else {
      var ops, t := BrokenDrainBreaksSafety();
    }
  }
}
