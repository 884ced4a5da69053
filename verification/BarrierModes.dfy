/** Queues that do not drain: those without barriers, and those that order by tags. */
module BarrierModes {
  import opened Barrier
  import opened BarrierInv
  import opened BarrierCore
  import opened BarrierDrain
  import opened BarrierHistory
  import opened BarrierTheorems

  // ---------------------------------------------------------------- no support for barriers

  /** A barrier is never handed out, and ends with EOPNOTSUPP. */
  predicate Refused(e: Event) {
    && (e.Handed? ==> !OrigBarrier(e.r))
    && (e.Ended? && OrigBarrier(e.r) ==> e.err == -95)
  }

  ghost predicate Refuses(s: Queue) {
    s.next == MODE_NONE && s.ordseq == NONE && forall k :: 0 <= k < |s.log| ==> Refused(s.log[k])
  }

  lemma RefusesMore(log: seq<Event>, e: Event)
    requires (forall k :: 0 <= k < |log| ==> Refused(log[k])) && Refused(e)
    ensures forall k :: 0 <= k < |log + [e]| ==> Refused((log + [e])[k])
  {
  }

  lemma RefusesEnd(s: Queue, r: Rq, err: int)
    requires Inv(s) && Refuses(s) && r in s.flight
    ensures Refuses(End(s, r, err))
  {
    assert r in s.started;
    if !r.Orig? {
      EndOfProxy(s, r, err);
    } else {
      EndOfOrig(s, r, err);
      RefusesMore(s.log, Ended(r, err));
    }
  }

  lemma RefusesNext(s: Queue)
    requires Inv(s) && Refuses(s) && s.list != []
    ensures Refuses(NextRequest(s))
  {
    IdleHead(s);
    var r := s.list[0];
    RefusesMore(s.log, if OrigBarrier(r) then Ended(r, -95) else Handed(r));
  }

  lemma RefusesStep(s: Queue, op: Op)
    requires Inv(s) && Refuses(s) && Enabled(s, op, STRICT)
    ensures Refuses(Apply(s, op, STRICT))
  {
    match op
    case Next => RefusesNext(s);
    case Finish(r, err) => RefusesEnd(s, r, err);
    case FinishPart(err) => RefusesMore(s.log, Partial(err));
    case AddSorted(id) => RefusesMore(s.log, Accepted(Coloured(s, id, true, false, false)));
    case AddBack(id, fs, hard, empty) => RefusesMore(s.log, Accepted(Coloured(s, id, fs, hard, empty)));
    case AddFront(id, hard) => RefusesMore(s.log, Accepted(Coloured(s, id, false, hard, false)));
    case Dispatch(_, _) =>
    case Take(_) =>
    case PutBack(_) =>
  }

  lemma {:induction false} RunRefuses(s: Queue, ops: seq<Op>, t: Queue)
    requires Inv(s) && Refuses(s) && IsRun(s, ops, t, STRICT)
    ensures Refuses(t)
    decreases |ops|
  {
    if ops != [] {
      InvStep(s, ops[0]);
      RefusesStep(s, ops[0]);
      RunRefuses(Apply(s, ops[0], STRICT), ops[1..], t);
    }
  }

  /** On a queue that does not support barriers none is ever handed out, and each ends with EOPNOTSUPP. */
  lemma BarriersRefused(ops: seq<Op>, t: Queue, k: nat)
    requires IsRun(Init(MODE_NONE), ops, t, STRICT) && k < |t.log|
    ensures t.log[k].Handed? ==> !OrigBarrier(t.log[k].r)
    ensures t.log[k].Ended? && OrigBarrier(t.log[k].r) ==> t.log[k].err == -95
  {
    CoreInit(MODE_NONE);
    RunRefuses(Init(MODE_NONE), ops, t);
  }

  // ---------------------------------------------------------------- ordering by tags

  /** No barrier stands in front of a proxy. */
  predicate ProxiesFirst(l: seq<Rq>) {
    forall i, j :: 0 <= i < j < |l| && !l[j].Orig? ==> !OrigBarrier(l[i])
  }

  lemma InsertFirst(l: seq<Rq>, p: nat, x: Rq)
    requires ProxiesFirst(l) && p <= |l|
    requires OrigBarrier(x) ==> p == |l|
    requires !x.Orig? ==> forall i :: 0 <= i < p ==> !OrigBarrier(l[i])
    ensures ProxiesFirst(Insert(l, p, x))
  {
    var m := Insert(l, p, x);
    forall i, j | 0 <= i < j < |m| && !m[j].Orig? ensures !OrigBarrier(m[i]) {
      assert m[i] == if i < p then l[i] else if i == p then x else l[i - 1];
      assert m[j] == if j < p then l[j] else if j == p then x else l[j - 1];
    }
  }

  lemma RemoveFirst(l: seq<Rq>, i: nat)
    requires ProxiesFirst(l) && i < |l|
    ensures ProxiesFirst(Remove(l, i))
  {
    var m := Remove(l, i);
    assert forall a :: 0 <= a < |m| ==> m[a] == if a < i then l[a] else l[a + 1];
  }

  /** What is in front of the place where a proxy is put back is no barrier. */
  lemma PutBackBehind(s: Queue, r: Rq, p: nat)
    requires Inv(s) && Active(s) && !r.Orig? && p <= |s.list|
    requires forall j :: 0 <= j < p ==> ReqSeq(s.orig, s.list[j]) < ReqSeq(s.orig, r)
    ensures forall j :: 0 <= j < p ==> !OrigBarrier(s.list[j])
  {
    assert s.orig in Running(s);
    forall j | 0 <= j < p ensures !OrigBarrier(s.list[j]) {
      if OrigBarrier(s.list[j]) {
        NextBarrier(s, j);
      }
    }
  }

  /** The barrier behind the running one comes before any other, and has the other colour. */
  lemma NextBarrier(s: Queue, j: nat)
    requires Inv(s) && Active(s) && j < |s.list| && OrigBarrier(s.list[j])
    ensures exists i :: 0 <= i <= j && ReqSeq(s.orig, s.list[i]) == DONE
  {
    var b := s.list[j];
    assert b in s.list;
    assert b in s.all && b !in s.ended;
    assert s.bars[b.epoch] == b && s.orig in Running(s);
    assert s.done <= b.epoch;
    assert b.epoch != s.done;
    BarrierListed(s, s.done + 1);
    var c := s.bars[s.done + 1];
    var i :| 0 <= i < |s.list| && s.list[i] == c;
    assert c.color == Odd(s.done + 1) && s.orig.color == Odd(s.done);
    InEpochOrder(s.list, Drains(s), s.done, j, i);
  }

  lemma InEpochOrder(l: seq<Rq>, drain: bool, e: nat, i: nat, j: nat)
    requires Lined(l, drain, e) && i < |l| && j < |l| && OrigBarrier(l[i]) && OrigBarrier(l[j])
    ensures i < j ==> l[i].epoch < l[j].epoch
  {
    assert i < j ==> Before(l[i], l[j], drain, e);
  }

  lemma StackedFirst(l: seq<Rq>, o: Mode)
    requires ProxiesFirst(l)
    ensures ProxiesFirst(Stacked(l, o))
  {
    var l1 := if o.postflush then Insert(l, 0, PostFlush) else l;
    var l2 := if o.bar then Insert(l1, 0, BarProxy) else l1;
    InsertFirst(l, 0, PostFlush);
    InsertFirst(l1, 0, BarProxy);
    InsertFirst(l2, 0, PreFlush);
  }

  /** The list when a sequence starts, and in every other case. */
  lemma StartList(s: Queue)
    requires Inv(s) && Startable(s)
    ensures NextRequest(s).list == Stacked(Remove(s.list, 0), OrderingFor(s.next, s.list[0].empty))
  {
    assert s.list[0] in s.list;
    SequenceFields(s);
    var q := QueueSequence(s);
    CompleteList(q, Skipped(q.ordered, q.inFlight), 0);
    StartNext(s);
  }

  lemma StartNext(s: Queue)
    requires Startable(s)
    ensures NextRequest(s).list == StartOrdered(s).0.list
  {
  }

  lemma OtherList(s: Queue)
    requires Inv(s) && s.list != [] && !Startable(s)
    ensures NextRequest(s).list == s.list || NextRequest(s).list == Remove(s.list, 0)
  {
    if s.ordseq == NONE { IdleHead(s); }
  }

  lemma CompleteList(s: Queue, phases: Bits, err: int)
    ensures CompleteSeq(s, phases, err).list == s.list
  {
  }

  lemma CompletedList(s: Queue, r: Rq)
    ensures Completed(s, r).list == s.list
  {
    var s1 := if Account(s, r) then s.(inFlight := s.inFlight - 1) else s;
    CompleteList(s1, JUST_DRAIN, 0);
  }

  lemma EndList(s: Queue, r: Rq, err: int)
    ensures End(s, r, err).list == s.list
  {
    var s1 := s.(flight := s.flight - {r}, log := s.log + [Ended(r, err)],
                 ended := if r.Orig? then s.ended + {r} else s.ended);
    var s2 := Completed(s1, r);
    CompletedList(s1, r);
    CompleteList(s2, JUST_PREFLUSH, err);
    CompleteList(s2, JUST_BAR, err);
    CompleteList(s2, JUST_POSTFLUSH, err);
  }

  lemma FirstNext(s: Queue)
    requires Inv(s) && ProxiesFirst(s.list) && s.list != []
    ensures ProxiesFirst(NextRequest(s).list)
  {
    RemoveFirst(s.list, 0);
    if Startable(s) {
      StartList(s);
      StackedFirst(Remove(s.list, 0), OrderingFor(s.next, s.list[0].empty));
    } else {
      OtherList(s);
    }
  }

  lemma FirstRequeue(s: Queue, r: Rq)
    requires Inv(s) && ProxiesFirst(s.list) && r in s.flight
    ensures ProxiesFirst(Requeue(s, r).list)
  {
    assert r in s.started;
    var p := if s.ordseq == NONE then 0 else RequeuePos(s.list, s.orig, ReqSeq(s.orig, r), 0);
    if s.ordseq != NONE && !r.Orig? {
      PutBackBehind(s, r, p);
    }
    InsertFirst(s.list, p, r);
  }

  lemma FirstStep(s: Queue, op: Op)
    requires Inv(s) && ProxiesFirst(s.list) && Enabled(s, op, STRICT)
    ensures ProxiesFirst(Apply(s, op, STRICT).list)
  {
    match op
    case Next => FirstNext(s);
    case PutBack(r) => FirstRequeue(s, r);
    case AddBack(id, fs, hard, empty) => InsertFirst(s.list, |s.list|, Coloured(s, id, fs, hard, empty));
    case AddFront(id, hard) => InsertFirst(s.list, 0, Coloured(s, id, false, hard, false));
    case Dispatch(r, pos) => InsertFirst(s.list, pos, r);
    case Take(i) => RemoveFirst(s.list, i);
    case AddSorted(_) =>
    case Finish(r, err) => EndList(s, r, err);
    case FinishPart(_) =>
  }

  lemma {:induction false} RunFirst(s: Queue, ops: seq<Op>, t: Queue)
    requires Inv(s) && ProxiesFirst(s.list) && IsRun(s, ops, t, STRICT)
    ensures Inv(t) && ProxiesFirst(t.list)
    decreases |ops|
  {
    if ops != [] {
      InvStep(s, ops[0]);
      FirstStep(s, ops[0]);
      RunFirst(Apply(s, ops[0], STRICT), ops[1..], t);
    }
  }

  /**
   * A queue that orders by tags is never wedged either: when the driver holds nothing, a sequence ordered
   * by tags or a request on the list always lets blk_do_ordered hand out a request or finish a barrier.
   */
  lemma TagsNeverWedged(mode: Mode, ops: seq<Op>, t: Queue)
    requires TagMode(mode) && IsRun(Init(mode), ops, t, STRICT)
    requires t.flight == {} && (t.list != [] || t.ordseq != NONE) && (t.ordseq != NONE ==> t.ordered.byTag)
    ensures t.list != [] && !DoOrdered(t).1.Hold?
  {
    CoreInit(mode);
    RunFirst(Init(mode), ops, t);
    RunFromInit(mode, ops, t);
    assert t.inFlight == 0 by { assert FsOf(t.flight) == {}; }
    if Active(t) {
      TagHead(t);
    } else {
      TagStart(t);
    }
  }

  lemma TagStart(t: Queue)
    requires Inv(t) && TagMode(t.next) && t.ordseq == NONE && t.list != [] && t.inFlight == 0
    ensures !DoOrdered(t).1.Hold?
  {
    IdleHead(t);
    if OrigBarrier(t.list[0]) {
      assert t.list[0] in t.list;
      SequenceFields(t);
    }
  }

  /** With nothing in flight a proxy is on the list, and no barrier in front of it. */
  lemma TagHead(t: Queue)
    requires Inv(t) && ProxiesFirst(t.list) && Active(t) && t.flight == {} && t.ordered.byTag
    ensures t.list != [] && DoOrdered(t).1 == Hand(t.list[0])
  {
    var p := if !t.ordseq.preflush then PreFlush else if !t.ordseq.bar then BarProxy else PostFlush;
    assert Held(t.list, t.flight, p);
    var j :| 0 <= j < |t.list| && t.list[j] == p;
    assert j > 0 ==> !OrigBarrier(t.list[0]);
  }
}
