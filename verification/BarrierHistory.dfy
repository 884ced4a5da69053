/** What the log of a queue says: order of requests, phases marked once, errors carried on. */
module BarrierHistory {
  import opened Barrier
  import opened BarrierInv
  import opened BarrierCore
  import opened BarrierDrain

  // ---------------------------------------------------------------- reading a log

  /** The barrier whose sequence began last. */
  function LastBegan(log: seq<Event>): Rq {
    if log == [] then PreFlush
    else var e := log[|log| - 1];
      if e.Began? then e.r else LastBegan(log[..|log| - 1])
  }

  /** The phases marked since a sequence began. */
  function MarkedSince(log: seq<Event>): Bits {
    if log == [] then NONE
    else var e := log[|log| - 1];
      if e.Began? then NONE
      else if e.Marked? then Join(MarkedSince(log[..|log| - 1]), e.phases)
      else MarkedSince(log[..|log| - 1])
  }

  /** The first non-zero error among the ends of the proxies since a sequence began. */
  function FirstError(log: seq<Event>): int {
    if log == [] then 0
    else
      var e := log[|log| - 1];
      if e.Began? then 0
      else
        var p := FirstError(log[..|log| - 1]);
        if p != 0 then p
        else if (e.Ended? && !e.r.Orig?) || e.Partial? then e.err
        else 0
  }

  ghost predicate EndedIn(log: seq<Event>, r: Rq) {
    exists e :: Ended(r, e) in log
  }

  ghost predicate AcceptedBefore(log: seq<Event>, a: Rq, b: Rq) {
    exists i, j :: 0 <= i < j < |log| && log[i] == Accepted(a) && log[j] == Accepted(b)
  }

  /**
   * When a file-system request is handed out, every barrier accepted before it has ended.
   * When a proxy is handed out, every file-system request accepted before its barrier has ended.
   */
  ghost predicate SafeAt(log: seq<Event>, k: nat)
    requires k < |log|
  {
    var past := log[..k];
    log[k].Handed? ==>
      && (OrigFs(log[k].r) ==>
            && Accepted(log[k].r) in past
            && forall b :: OrigBarrier(b) && AcceptedBefore(past, b, log[k].r) ==> EndedIn(past, b))
      && (!log[k].r.Orig? ==>
            forall x :: OrigFs(x) && AcceptedBefore(past, x, LastBegan(past)) ==> EndedIn(past, x))
  }

  /**
   * A phase is marked only for the barrier in progress and only once; a barrier ends once, after
   * all four phases, with the first error of its proxies; other requests end once too.
   */
  ghost predicate BookedAt(log: seq<Event>, k: nat)
    requires k < |log|
  {
    var past := log[..k];
    && (log[k].Marked? ==> log[k].r == LastBegan(past) && !Meet(MarkedSince(past), log[k].phases))
    && (log[k].Ended? && log[k].r.Orig? ==> !EndedIn(past, log[k].r))
    && (log[k].Ended? && OrigBarrier(log[k].r) ==>
          && log[k].r == LastBegan(past)
          && MarkedSince(past) == ALL.(started := false)
          && log[k].err == FirstError(past))
  }

  ghost predicate Good(log: seq<Event>, drain: bool) {
    forall k :: 0 <= k < |log| ==> BookedAt(log, k) && (drain ==> SafeAt(log, k))
  }

  lemma GoodExtend(log: seq<Event>, e: Event, drain: bool)
    requires Good(log, drain)
    requires BookedAt(log + [e], |log|) && (drain ==> SafeAt(log + [e], |log|))
    ensures Good(log + [e], drain)
  {
    var log' := log + [e];
    forall k | 0 <= k < |log'| ensures BookedAt(log', k) && (drain ==> SafeAt(log', k)) {
      if k < |log| {
        assert log'[..k] == log[..k] && log'[k] == log[k];
        assert BookedAt(log, k) && (drain ==> SafeAt(log, k));
      }
    }
  }

  lemma Extended(log: seq<Event>, e: Event)
    ensures (log + [e])[..|log|] == log && (log + [e])[|log|] == e
    ensures LastBegan(log + [e]) == if e.Began? then e.r else LastBegan(log)
    ensures MarkedSince(log + [e]) ==
            if e.Began? then NONE else if e.Marked? then Join(MarkedSince(log), e.phases) else MarkedSince(log)
    ensures FirstError(log + [e]) ==
            if e.Began? then 0
            else if FirstError(log) != 0 then FirstError(log)
            else if (e.Ended? && !e.r.Orig?) || e.Partial? then e.err else 0
    ensures forall r :: EndedIn(log + [e], r) <==> EndedIn(log, r) || (e.Ended? && e.r == r)
    ensures forall r :: Accepted(r) in log + [e] <==> Accepted(r) in log || e == Accepted(r)
  {
    assert (log + [e])[..|log|] == log;
    forall r ensures EndedIn(log + [e], r) <==> EndedIn(log, r) || (e.Ended? && e.r == r) {
      if EndedIn(log, r) {
        var x :| Ended(r, x) in log;
        assert Ended(r, x) in log + [e];
      }
      if e.Ended? && e.r == r {
        assert Ended(r, e.err) in log + [e];
      }
    }
  }

  // ---------------------------------------------------------------- log and state agree

  /** Acceptance is ordered by epoch, barriers strictly. */
  ghost predicate InOrder(log: seq<Event>) {
    forall i, j ::
      0 <= i < j < |log| && log[i].Accepted? && log[j].Accepted? && OrigFs(log[i].r) && OrigFs(log[j].r) ==>
      log[i].r.epoch <= log[j].r.epoch && (log[i].r.hard ==> log[i].r.epoch < log[j].r.epoch)
  }

  ghost predicate Accounts(log: seq<Event>, all: set<Rq>, ended: set<Rq>) {
    && InOrder(log)
    && (forall r :: Accepted(r) in log <==> r in all)
    && (forall r: Rq :: r.Orig? ==> (EndedIn(log, r) <==> r in ended))
  }

  /** The bits and the error of the queue are those the log gives. */
  ghost predicate Tracks(s: Queue) {
    Active(s) ==> 
      && LastBegan(s.log) == s.orig && FirstError(s.log) == s.orderr
      && MarkedSince(s.log) == s.ordseq.(started := false) && s.ordseq.started
  }

  ghost predicate Kept(s: Queue) {
    Good(s.log, Drains(s)) && Accounts(s.log, s.all, s.ended) && Tracks(s)
  }

  lemma AccountsEvent(log: seq<Event>, e: Event, all: set<Rq>, ended: set<Rq>)
    requires Accounts(log, all, ended) && !e.Accepted?
    ensures Accounts(log + [e], all, if e.Ended? && e.r.Orig? then ended + {e.r} else ended)
  {
    Extended(log, e);
  }

  lemma KeptAccept(s: Queue, r: Rq)
    requires Inv(s) && Kept(s) && New(s, r)
    ensures var log := s.log + [Accepted(r)];
            Good(log, Drains(s)) && Accounts(log, s.all + {r}, s.ended)
            && LastBegan(log) == LastBegan(s.log) && MarkedSince(log) == MarkedSince(s.log) &&
               FirstError(log) == FirstError(s.log)
  {
    var log := s.log + [Accepted(r)];
    Extended(s.log, Accepted(r));
    GoodExtend(s.log, Accepted(r), Drains(s));
    forall i, j | 0 <= i < j < |log| && log[i].Accepted? && log[j].Accepted? && OrigFs(log[i].r) && OrigFs(log[j].r)
      ensures log[i].r.epoch <= log[j].r.epoch && (log[i].r.hard ==> log[i].r.epoch < log[j].r.epoch)
    {
      if j == |s.log| {
        assert Accepted(log[i].r) in s.log;
      }
    }
  }

  /** Requests accepted after a barrier are of a later epoch than it. */
  lemma LaterEpoch(log: seq<Event>, a: Rq, b: Rq)
    requires InOrder(log) && AcceptedBefore(log, a, b) && OrigFs(a) && OrigFs(b)
    ensures a.epoch <= b.epoch && (a.hard ==> a.epoch < b.epoch)
    ensures Accepted(a) in log && Accepted(b) in log
  {
  }

  /** Handing out a request is safe in a drain mode. */
  lemma SafeHanded(s: Queue, r: Rq)
    requires Inv(s) && Kept(s) && Drains(s) && Held(s.list, s.flight, r)
    requires OrigFs(r) ==> r.epoch == s.done
    requires !r.Orig? ==> s.ordseq.drain
    ensures SafeAt(s.log + [Handed(r)], |s.log|)
  {
    var past := s.log;
    Extended(s.log, Handed(r));
    forall b | OrigFs(r) && OrigBarrier(b) && AcceptedBefore(past, b, r) ensures EndedIn(past, b) {
      LaterEpoch(past, b, r);
    }
    if !r.Orig? {
      assert s.orig in Running(s);
      forall x | OrigFs(x) && AcceptedBefore(past, x, LastBegan(past)) ensures EndedIn(past, x) {
        LaterEpoch(past, x, s.orig);
        assert x in s.all;
      }
    }
  }

  lemma KeptHanded(s: Queue, r: Rq)
    requires Inv(s) && Kept(s) && Held(s.list, s.flight, r)
    requires Drains(s) ==> (OrigFs(r) ==> r.epoch == s.done) && (!r.Orig? ==> s.ordseq.drain)
    ensures Kept(s.(started := s.started + {r}, log := s.log + [Handed(r)]))
  {
    Extended(s.log, Handed(r));
    if Drains(s) {
      SafeHanded(s, r);
    }
    GoodExtend(s.log, Handed(r), Drains(s));
    AccountsEvent(s.log, Handed(r), s.all, s.ended);
  }

  /** The last phase: with it the barrier ends. */
  lemma GoodLast(log: seq<Event>, b: Rq, all: set<Rq>, ended: set<Rq>, drain: bool)
    requires Good(log, drain) && Accounts(log, all, ended)
    requires OrigBarrier(b) && b !in ended && LastBegan(log) == b && MarkedSince(log) == ALL.(started := false)
    ensures var log' := log + [Ended(b, FirstError(log))]; Good(log', drain) && Accounts(log', all, ended + {b})
  {
    var e := Ended(b, FirstError(log));
    Extended(log, e);
    GoodExtend(log, e, drain);
    AccountsEvent(log, e, all, ended);
  }

  lemma GoodMark(log: seq<Event>, b: Rq, phases: Bits, all: set<Rq>, ended: set<Rq>, drain: bool)
    requires Good(log, drain) && Accounts(log, all, ended)
    requires LastBegan(log) == b && !Meet(MarkedSince(log), phases)
    ensures var log' := log + [Marked(b, phases)];
            Good(log', drain) && Accounts(log', all, ended)
            && LastBegan(log') == b && FirstError(log') == FirstError(log) &&
               MarkedSince(log') == Join(MarkedSince(log), phases)
  {
    var m := Marked(b, phases);
    Extended(log, m);
    GoodExtend(log, m, drain);
    AccountsEvent(log, m, all, ended);
  }

  /** Marking phases, and ending the barrier with the last of them. */
  lemma KeptCompleteSeq(s: Queue, phases: Bits, err: int)
    requires Good(s.log, Drains(s)) && Accounts(s.log, s.all, s.ended) && Active(s)
    requires OrigBarrier(s.orig) && s.orig !in s.ended
    requires LastBegan(s.log) == s.orig && MarkedSince(s.log) == s.ordseq.(started := false) && s.ordseq.started
    requires FirstError(s.log) == if err != 0 && s.orderr == 0 then err else s.orderr
    requires !Meet(s.ordseq, phases) && !phases.started
    ensures Kept(CompleteSeq(s, phases, err))
  {
    var s' := CompleteSeq(s, phases, err);
    var log := s.log + [Marked(s.orig, phases)];
    GoodMark(s.log, s.orig, phases, s.all, s.ended, Drains(s));
    if CurSeq(Join(s.ordseq, phases)) == DONE {
      GoodLast(log, s.orig, s.all, s.ended, Drains(s));
      assert s'.log == log + [Ended(s.orig, FirstError(log))] && s'.ended == s.ended + {s.orig};
    } else {
      assert s'.log == log && s'.ended == s.ended && s'.ordseq == Join(s.ordseq, phases);
    }
  }

  lemma KeptEnd(s: Queue, r: Rq, err: int)
    requires Inv(s) && Kept(s) && r in s.flight
    ensures Kept(End(s, r, err))
  {
    var e := Ended(r, err);
    var s1 := Released(s, r, err);
    assert r in s.started;
    Extended(s.log, e);
    GoodExtend(s.log, e, Drains(s));
    AccountsEvent(s.log, e, s.all, s.ended);
    CoreReleased(s, r, err);
    if !r.Orig? {
      EndOfProxy(s, r, err);
      assert s.orig in Running(s);
      KeptCompleteSeq(s1, PhaseOf(r), err);
    } else {
      EndOfOrig(s, r, err);
      if EndsDrain(s1) {
        assert s1.orig in Running(s1);
        KeptCompleteSeq(s1, JUST_DRAIN, 0);
      }
    }
  }

  lemma KeptStart(s: Queue)
    requires Inv(s) && Kept(s) && Startable(s)
    ensures Kept(StartOrdered(s).0)
  {
    var b := s.list[0];
    var q := QueueSequence(s);
    assert b in s.list;
    SequenceFields(s);
    BitsSequence(s.next, b.empty, s.inFlight);
    Extended(s.log, Began(b));
    GoodExtend(s.log, Began(b), Drains(s));
    AccountsEvent(s.log, Began(b), s.all, s.ended);
    KeptCompleteSeq(q, Skipped(q.ordered, q.inFlight), 0);
  }

  lemma KeptHandOut(s: Queue, v: Verdict)
    requires Inv(s) && Kept(s) && MayHand(s, v)
    ensures Kept(HandOut(s, v))
  {
    CoreHandOut(s, v);
    if v.Hand? {
      KeptHanded(s, v.r);
    }
  }

  lemma InvStart(s: Queue)
    requires Inv(s) && Startable(s)
    ensures Inv(StartOrdered(s).0) && MayHand(StartOrdered(s).0, StartOrdered(s).1)
  {
    CoreStartOrdered(s);
    StartHands(s);
    if Drains(s) {
      DrainStart(s);
      AwaitedStart(s);
    }
  }

  lemma KeptNextStart(s: Queue)
    requires Inv(s) && Kept(s) && Startable(s)
    ensures Kept(NextRequest(s))
  {
    KeptStart(s);
    InvStart(s);
    KeptHandOut(StartOrdered(s).0, StartOrdered(s).1);
  }

  lemma KeptNextActive(s: Queue)
    requires Inv(s) && Kept(s) && s.list != [] && Active(s)
    ensures Kept(NextRequest(s))
  {
    var (s1, v) := DoOrdered(s);
    assert s1 == s.(warn := s1.warn);
    if v.Hand? {
      HandedIsNoBarrier(s);
      if Drains(s) {
        NextActive(s);
      }
      assert s.list[0] in s.list;
      KeptHanded(s, s.list[0]);
    }
  }

  lemma KeptNext(s: Queue)
    requires Inv(s) && Kept(s) && s.list != [] && s.next != MODE_NONE
    ensures Kept(NextRequest(s))
  {
    if Active(s) {
      KeptNextActive(s);
    } else {
      IdleHead(s);
      if OrigBarrier(s.list[0]) {
        KeptNextStart(s);
      } else {
        if Drains(s) {
          DrainNextIdle(s);
        }
        assert s.list[0] in s.list;
        KeptHanded(s, s.list[0]);
      }
    }
  }

  lemma KeptPart(s: Queue, err: int)
    requires Inv(s) && Kept(s)
    ensures Kept(PartOfBarrier(s, err))
  {
    Extended(s.log, Partial(err));
    GoodExtend(s.log, Partial(err), Drains(s));
    AccountsEvent(s.log, Partial(err), s.all, s.ended);
  }

  lemma KeptAdd(s: Queue, op: Op)
    requires Inv(s) && Kept(s) && Enabled(s, op, STRICT) && (op.AddSorted? || op.AddBack? || op.AddFront?)
    ensures Kept(Apply(s, op, STRICT))
  {
    KeptAccept(s, if op.AddSorted? then Coloured(s, op.id, true, false, false)
                  else if op.AddBack? then Coloured(s, op.id, op.fs, op.hard, op.empty)
                  else Coloured(s, op.id, false, op.hard, false));
  }

  lemma KeptStep(s: Queue, op: Op)
    requires Inv(s) && Kept(s) && Enabled(s, op, STRICT) && s.next != MODE_NONE
    ensures Kept(Apply(s, op, STRICT))
  {
    match op
    case Next => KeptNext(s);
    case Finish(r, err) => KeptEnd(s, r, err);
    case FinishPart(err) => KeptPart(s, err);
    case AddSorted(_) => KeptAdd(s, op);
    case AddBack(_, _, _, _) => KeptAdd(s, op);
    case AddFront(_, _) => KeptAdd(s, op);
    case Dispatch(_, _) =>
    case Take(_) =>
    case PutBack(_) =>
  }
}
