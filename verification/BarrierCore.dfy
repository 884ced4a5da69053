/** Every step keeps the invariants that hold in all modes. */
module BarrierCore {
  import opened Barrier
  import opened BarrierInv

  lemma CoreInit(mode: Mode)
    requires ValidMode(mode)
    ensures Inv(Init(mode))
  {
    assert FsOf({}) == {};
  }

  /** A request about to be accepted. */
  predicate New(s: Queue, r: Rq) {
    r.Orig? && r !in s.all && r.epoch == |s.bars| && r.color == s.color
  }

  predicate Nowhere(s: Queue, r: Rq) {
    r !in s.list && r !in s.sorted && r !in s.flight && r !in Running(s)
  }

  lemma NewNowhere(s: Queue, r: Rq)
    requires Core(s, NONE) && New(s, r)
    ensures Nowhere(s, r) && r !in s.ended && r !in s.started && r !in s.soft
  {
  }

  lemma EpochsAccept(s: Queue, r: Rq)
    requires Core(s, NONE) && New(s, r) && r !in s.ended && (r.hard ==> r.fs && s.sorted == {})
    ensures var s' := Accept(s, r); Epochs(s'.bars, s.done, s'.all, s.ended, s.sorted, s'.color, Running(s))
  {
  }

  lemma PlacesInsertSorted(s: Queue, r: Rq)
    requires Core(s, NONE) && New(s, r) && r.fs && !r.hard && Nowhere(s, r) && r !in s.ended && r !in s.started
    ensures var b := s.sorted + {r};
            && Apart(s.list, b, s.flight, Running(s))
            && Conserved(s.list, b, s.flight, Running(s), s.all + {r}, s.ended)
            && Flags(s.list, b, s.started, s.soft, s.all + {r})
            && Epochs(s.bars, s.done, s.all + {r}, s.ended, b, s.color, Running(s))
  {
  }

  lemma CoreInsertSorted(s: Queue, r: Rq)
    requires Core(s, NONE) && New(s, r) && r.fs && !r.hard
    ensures Core(InsertSorted(s, r), NONE)
  {
    NewNowhere(s, r);
    PlacesInsertSorted(s, r);
    assert Running(InsertSorted(s, r)) == Running(s);
  }

  lemma PlacesInsert(s: Queue, r: Rq, p: nat)
    requires Core(s, NONE) && New(s, r) && Nowhere(s, r) && r !in s.ended && p <= |s.list|
    ensures var l := Insert(s.list, p, r);
            && Apart(l, s.sorted, s.flight, Running(s))
            && Conserved(l, s.sorted, s.flight, Running(s), s.all + {r}, s.ended)
            && Proxies(l, s.flight, s.started, s.ordseq, NONE)
  {
  }

  lemma CoreInsertFront(s: Queue, r: Rq)
    requires Core(s, NONE) && New(s, r) && !r.fs && !r.hard
    ensures Core(InsertFront(s, r), NONE)
  {
    NewNowhere(s, r);
    EpochsAccept(s, r);
    PlacesInsert(s, r, 0);
    InsertLined(s.list, 0, r, Drains(s), s.done);
    var s' := InsertFront(s, r);
    assert Running(s') == Running(s);
    assert Flags(s'.list, s'.sorted, s'.started, s'.soft, s'.all);
  }

  lemma LineInsertBack(s: Queue, r: Rq)
    requires Core(s, NONE) && New(s, r)
    ensures Lined(Insert(s.list, |s.list|, r), Drains(s), s.done)
  {
    forall i | 0 <= i < |s.list| ensures Before(s.list[i], r, Drains(s), s.done) {
      assert s.list[i] in s.list;
    }
    InsertLined(s.list, |s.list|, r, Drains(s), s.done);
  }

  lemma CoreInsertBack(s: Queue, r: Rq)
    requires Core(s, NONE) && New(s, r) && (r.hard ==> r.fs && s.sorted == {})
    ensures Core(InsertBack(s, r), NONE)
  {
    NewNowhere(s, r);
    EpochsAccept(s, r);
    PlacesInsert(s, r, |s.list|);
    LineInsertBack(s, r);
    var s' := InsertBack(s, r);
    assert Running(s') == Running(s);
    assert Flags(s'.list, s'.sorted, s'.started, s'.soft, s'.all);
  }

  lemma PlacesTaken(s: Queue, i: nat)
    requires Core(s, NONE) && i < |s.list| && s.list[i] !in Remove(s.list, i)
    ensures var l := Remove(s.list, i); var f := s.flight + {s.list[i]};
            && Apart(l, s.sorted, f, Running(s))
            && Conserved(l, s.sorted, f, Running(s), s.all, s.ended)
            && Proxies(l, f, s.started, s.ordseq, NONE)
  {
  }

  lemma CoreTaken(s: Queue, i: nat)
    requires Core(s, NONE) && i < |s.list| && s.list[i] in s.started
    ensures Core(Taken(s, i), NONE)
  {
    RemoveLined(s.list, i, Drains(s), s.done);
    FsOfAdd(s.flight, s.list[i]);
    PlacesTaken(s, i);
    var s' := Taken(s, i);
    assert Running(s') == Running(s);
    assert Flags(s'.list, s'.sorted, s'.started, s'.soft, s'.all);
  }

  // ---------------------------------------------------------------- the scheduler

  /** Behind the place where elv_dispatch_sort stops there are only requests of the last epoch. */
  lemma TailIsNewest(s: Queue, r: Rq, pos: nat, j: nat)
    requires Core(s, NONE) && (Drains(s) ==> Drained(s)) && CanDispatch(s, r, pos) && pos <= j < |s.list|
    ensures s.list[j].Orig? && !s.list[j].hard
    ensures Drains(s) && s.list[j].fs ==> s.list[j].epoch == |s.bars|
  {
    var x := s.list[j];
    assert x in s.list;
    assert !Stops(s, x);
    if Drains(s) && x.fs && x.epoch < |s.bars| {
      BarrierListed(s, x.epoch);
    }
  }

  lemma LineDispatched(s: Queue, r: Rq, pos: nat)
    requires Core(s, NONE) && (Drains(s) ==> Drained(s)) && CanDispatch(s, r, pos)
    ensures Lined(Insert(s.list, pos, r), Drains(s), s.done)
  {
    forall i | 0 <= i < pos ensures Before(s.list[i], r, Drains(s), s.done) {
      assert s.list[i] in s.list;
    }
    forall j | pos <= j < |s.list| ensures Before(r, s.list[j], Drains(s), s.done) {
      assert s.list[j] in s.list;
      TailIsNewest(s, r, pos, j);
    }
    InsertLined(s.list, pos, r, Drains(s), s.done);
  }

  lemma PlacesDispatched(s: Queue, r: Rq, pos: nat)
    requires Core(s, NONE) && r in s.sorted && pos <= |s.list|
    ensures var l := Insert(s.list, pos, r); var b := s.sorted - {r};
            && Apart(l, b, s.flight, Running(s))
            && Conserved(l, b, s.flight, Running(s), s.all, s.ended)
            && Proxies(l, s.flight, s.started, s.ordseq, NONE)
            && Flags(l, b, s.started, s.soft, s.all)
            && Epochs(s.bars, s.done, s.all, s.ended, b, s.color, Running(s))
  {
  }

  lemma CoreDispatched(s: Queue, r: Rq, pos: nat)
    requires Core(s, NONE) && (Drains(s) ==> Drained(s)) && CanDispatch(s, r, pos)
    ensures Core(Dispatched(s, r, pos), NONE)
  {
    LineDispatched(s, r, pos);
    PlacesDispatched(s, r, pos);
    assert Running(Dispatched(s, r, pos)) == Running(s);
  }

  // ---------------------------------------------------------------- the end of a phase

  lemma LinedShift(l: seq<Rq>, drain: bool, e: nat)
    requires Lined(l, drain, e) && forall r :: r in l ==> r.Orig?
    ensures Lined(l, drain, e + 1)
  {
    forall i, j | 0 <= i < j < |l| ensures Before(l[i], l[j], drain, e + 1) {
      assert l[i] in l && l[j] in l;
      assert Before(l[i], l[j], drain, e);
    }
  }

  lemma CoreLastPhase(s: Queue, phases: Bits, err: int)
    requires Core(s, phases) && Active(s) && !Meet(s.ordseq, phases)
    requires CurSeq(Join(s.ordseq, phases)) == DONE
    ensures Core(CompleteSeq(s, phases, err), NONE)
  {
    var s' := CompleteSeq(s, phases, err);
    assert forall r :: r in s.list && !r.Orig? ==> Held(s.list, s.flight, r);
    LinedShift(s.list, Drains(s), s.done);
    assert Running(s') == {} && s.orig in Running(s) && s.orig == s.bars[s.done];
    assert Epochs(s'.bars, s'.done, s'.all, s'.ended, s'.sorted, s'.color, {});
    assert Conserved(s'.list, s'.sorted, s'.flight, {}, s'.all, s'.ended);
  }

  lemma CoreSomePhase(s: Queue, phases: Bits, err: int)
    requires Core(s, phases) && Active(s)
    requires !Meet(s.ordseq, phases) && !phases.started && CurSeq(Join(s.ordseq, phases)) != DONE
    ensures Core(CompleteSeq(s, phases, err), NONE)
  {
    var s' := CompleteSeq(s, phases, err);
    assert Running(s') == Running(s);
    assert Proxies(s'.list, s'.flight, s'.started, s'.ordseq, NONE);
  }

  lemma CoreCompleteSeq(s: Queue, phases: Bits, err: int)
    requires Core(s, phases) && Active(s)
    requires !Meet(s.ordseq, phases) && !phases.started
    ensures Core(CompleteSeq(s, phases, err), NONE)
  {
    if CurSeq(Join(s.ordseq, phases)) == DONE {
      CoreLastPhase(s, phases, err);
    } else {
      CoreSomePhase(s, phases, err);
    }
  }

  lemma CoreDrain(s: Queue)
    requires Core(s, NONE) && Active(s) && !s.ordseq.drain
    ensures Core(s, JUST_DRAIN) && Core(CompleteSeq(s, JUST_DRAIN, 0), NONE)
  {
    CoreCompleteSeq(s, JUST_DRAIN, 0);
  }

  /** The driver lets go of a request, before any phase is marked. */
  function Released(s: Queue, r: Rq, err: int): Queue {
    s.(flight := s.flight - {r}, log := s.log + [Ended(r, err)],
       ended := if r.Orig? then s.ended + {r} else s.ended,
       inFlight := if Account(s, r) then s.inFlight - 1 else s.inFlight)
  }

  function PhaseOf(r: Rq): Bits {
    match r case PreFlush => JUST_PREFLUSH case BarProxy => JUST_BAR case PostFlush => JUST_POSTFLUSH case _ => NONE
  }

  lemma PlacesReleased(s: Queue, r: Rq)
    requires Core(s, NONE) && r in s.flight
    ensures var f := s.flight - {r}; var ended := if r.Orig? then s.ended + {r} else s.ended;
            && Apart(s.list, s.sorted, f, Running(s))
            && Conserved(s.list, s.sorted, f, Running(s), s.all, ended)
            && Proxies(s.list, f, s.started, s.ordseq, PhaseOf(r))
  {
    assert !r.Orig? ==> Held(s.list, s.flight, r);
  }

  lemma TallyReleased(s: Queue, r: Rq)
    requires Core(s, NONE) && r in s.flight
    ensures r.Orig? ==> Epochs(s.bars, s.done, s.all, s.ended + {r}, s.sorted, s.color, Running(s))
    ensures Counts(s.flight - {r}, s.started, if IsFs(r) then s.inFlight - 1 else s.inFlight)
    ensures Account(s, r) == IsFs(r)
  {
    FsOfDrop(s.flight, r);
    assert r in s.started;
  }

  lemma CoreReleased(s: Queue, r: Rq, err: int)
    requires Core(s, NONE) && r in s.flight
    ensures Core(Released(s, r, err), PhaseOf(r))
  {
    PlacesReleased(s, r);
    TallyReleased(s, r);
    var s' := Released(s, r, err);
    assert Running(s') == Running(s) && s'.flight == s.flight - {r};
    if r.Orig? {
      assert Core(s', NONE);
    } else {
      assert Core(s', PhaseOf(r));
    }
  }

  /** Ending a proxy is releasing it and then marking its phase. */
  lemma EndOfProxy(s: Queue, r: Rq, err: int)
    requires Core(s, NONE) && r in s.flight && !r.Orig?
    ensures End(s, r, err) == CompleteSeq(Released(s, r, err), PhaseOf(r), err)
    ensures Active(s) && !Meet(s.ordseq, PhaseOf(r))
  {
    var s1 := Released(s, r, err);
    assert Held(s.list, s.flight, r) && r in s.started;
    assert Completed(s.(flight := s1.flight, log := s1.log, ended := s1.ended), r) == s1;
  }

  /** Whether the end of an ordinary request is what the drain was waiting for. */
  predicate EndsDrain(s: Queue) {
    Active(s) && !s.ordseq.drain && s.inFlight == 0 && (s.list == [] || ReqSeq(s.orig, s.list[0]) > DRAIN)
  }

  lemma EndOfOrig(s: Queue, r: Rq, err: int)
    requires Core(s, NONE) && r in s.flight && r.Orig?
    ensures var s1 := Released(s, r, err);
            End(s, r, err) == if EndsDrain(s1) then CompleteSeq(s1, JUST_DRAIN, 0) else s1
  {
  }

  lemma CoreEnd(s: Queue, r: Rq, err: int)
    requires Core(s, NONE) && r in s.flight
    ensures Core(End(s, r, err), NONE)
  {
    var s1 := Released(s, r, err);
    CoreReleased(s, r, err);
    if !r.Orig? {
      EndOfProxy(s, r, err);
      CoreCompleteSeq(s1, PhaseOf(r), err);
    } else {
      EndOfOrig(s, r, err);
      if EndsDrain(s1) {
        CoreDrain(s1);
      }
    }
  }

  // ---------------------------------------------------------------- putting a request back

  /** While a phase runs, everything in front of a later phase's slot belongs to an earlier one. */
  lemma ProxySlot(s: Queue, r: Rq, i: nat)
    requires Core(s, NONE) && Drains(s) && Drained(s) && Active(s) && r in s.flight && !r.Orig?
    requires i < RequeuePos(s.list, s.orig, ReqSeq(s.orig, r), 0)
    ensures s.list[i].Orig? ==> !s.list[i].fs
  {
    var x := s.list[i];
    assert x in s.list;
    assert ReqSeq(s.orig, x) < ReqSeq(s.orig, r);
    assert Held(s.list, s.flight, r) && r in s.started;
    assert s.orig in Running(s);
    if OrigFs(x) {
      BarrierListed(s, s.done + 1);
    }
  }

  lemma LineRequeue(s: Queue, r: Rq)
    requires Core(s, NONE) && (Drains(s) ==> Drained(s)) && r in s.flight
    ensures Lined(Requeue(s, r).list, Drains(s), s.done)
  {
    var p := if s.ordseq == NONE then 0 else RequeuePos(s.list, s.orig, ReqSeq(s.orig, r), 0);
    assert r in s.started;
    forall i | 0 <= i < p ensures Before(s.list[i], r, Drains(s), s.done) {
      assert s.list[i] in s.list;
      if Drains(s) && !r.Orig? {
        ProxySlot(s, r, i);
      }
    }
    forall j | p <= j < |s.list| ensures Before(r, s.list[j], Drains(s), s.done) {
      assert s.list[j] in s.list;
      assert p < j ==> Before(s.list[p], s.list[j], Drains(s), s.done);
      assert !r.Orig? ==> Held(s.list, s.flight, r);
    }
    InsertLined(s.list, p, r, Drains(s), s.done);
  }

  lemma PlacesRequeue(s: Queue, r: Rq, p: nat)
    requires Core(s, NONE) && r in s.flight && p <= |s.list|
    ensures var l := Insert(s.list, p, r); var f := s.flight - {r};
            && Apart(l, s.sorted, f, Running(s))
            && Conserved(l, s.sorted, f, Running(s), s.all, s.ended)
            && Proxies(l, f, s.started - {r}, s.ordseq, NONE)
            && Flags(l, s.sorted, s.started - {r}, s.soft + {r}, s.all)
            && Counts(f, s.started - {r}, if IsFs(r) then s.inFlight - 1 else s.inFlight)
  {
    FsOfDrop(s.flight, r);
  }

  lemma CoreRequeue(s: Queue, r: Rq)
    requires Core(s, NONE) && (Drains(s) ==> Drained(s)) && r in s.flight
    ensures Core(Requeue(s, r), NONE)
  {
    LineRequeue(s, r);
    PlacesRequeue(s, r, if s.ordseq == NONE then 0 else RequeuePos(s.list, s.orig, ReqSeq(s.orig, r), 0));
    assert Account(s, r) == IsFs(r) by { assert r in s.started; }
    assert Running(Requeue(s, r)) == Running(s);
  }

  // ---------------------------------------------------------------- starting a sequence

  /** The proxies an ordering asks for, in front of the rest of the list. */
  function Stacked(l: seq<Rq>, o: Mode): seq<Rq> {
    var l1 := if o.postflush then Insert(l, 0, PostFlush) else l;
    var l2 := if o.bar then Insert(l1, 0, BarProxy) else l1;
    if o.preflush then Insert(l2, 0, PreFlush) else l2
  }

  function Asked(o: Mode): set<Rq> {
    (if o.postflush then {PostFlush} else {}) +
    (if o.bar then {BarProxy} else {}) +
    (if o.preflush then {PreFlush} else {})
  }

  lemma BeginFields(s: Queue)
    requires s.list != [] && s.list[0].Orig? && s.list[0] !in s.started && s.ordseq == NONE
    ensures var b := s.list[0];
            BeginSequence(s) == s.(orderr := 0, ordered := OrderingFor(s.next, b.empty),
                                   ordseq := NONE.(started := true),
                                   list := Remove(s.list, 0), orig := b, log := s.log + [Began(b)])
  {
  }

  lemma PushFields(s: Queue, asked: bool, r: Rq)
    ensures PushIf(s, asked, r) == s.(list := if asked then Insert(s.list, 0, r) else s.list,
                                      soft := s.soft + if asked then {r} else {},
                                      started := s.started - if asked then {r} else {})
  {
  }

  lemma AskedSets(a: set<Rq>, o: Mode, p: set<Rq>, b: set<Rq>, f: set<Rq>)
    requires p == if o.postflush then {PostFlush} else {}
    requires b == if o.bar then {BarProxy} else {}
    requires f == if o.preflush then {PreFlush} else {}
    ensures ((a + p) + b) + f == a + Asked(o) && ((a - p) - b) - f == a - Asked(o)
  {
    assert Asked(o) == p + b + f;
  }

  /** The state in which the sequence for the head of the list has been set up. */
  function Sequenced(s: Queue): Queue
    requires s.list != [] && s.list[0].Orig?
  {
    var b := s.list[0];
    var o := OrderingFor(s.next, b.empty);
    s.(orderr := 0, ordered := o, ordseq := NONE.(started := true), list := Stacked(Remove(s.list, 0), o), orig := b,
       log := s.log + [Began(b)], soft := s.soft + Asked(o), started := s.started - Asked(o))
  }

  lemma SequenceFields(s: Queue)
    requires s.list != [] && s.list[0].Orig? && s.list[0] !in s.started && s.ordseq == NONE
    ensures QueueSequence(s) == Sequenced(s)
  {
    BeginFields(s);
    var s2 := BeginSequence(s);
    var o := s2.ordered;
    var s3 := PushIf(s2, o.postflush, PostFlush);
    PushFields(s2, o.postflush, PostFlush);
    var s4 := PushIf(s3, o.bar, BarProxy);
    PushFields(s3, o.bar, BarProxy);
    PushFields(s4, o.preflush, PreFlush);
    var p, b, f := if o.postflush then {PostFlush} else {}, if o.bar then {BarProxy} else {},
      if o.preflush then {PreFlush} else {};
    AskedSets(s.soft, o, p, b, f);
    AskedSets(s.started, o, p, b, f);
  }

  lemma StackedHolds(l: seq<Rq>, o: Mode, r: Rq)
    ensures r in Stacked(l, o) <==> r in l || r in Asked(o)
  {
  }

  lemma LinePush(l: seq<Rq>, x: Rq, drain: bool, e: nat)
    requires Lined(l, drain, e) && !x.Orig?
    requires forall r :: r in l && OrigFs(r) && drain ==> e < r.epoch
    requires forall r :: r in l && !r.Orig? ==> Rank(x) < Rank(r)
    ensures Lined(Insert(l, 0, x), drain, e)
  {
    forall j | 0 <= j < |l| ensures Before(x, l[j], drain, e) {
      assert l[j] in l;
    }
    InsertLined(l, 0, x, drain, e);
  }

  lemma LineStacked(l: seq<Rq>, o: Mode, drain: bool, e: nat)
    requires Lined(l, drain, e)
    requires forall r :: r in l && OrigFs(r) && drain ==> e < r.epoch
    requires forall r :: r in l ==> r.Orig?
    ensures Lined(Stacked(l, o), drain, e)
  {
    LinePush(l, PostFlush, drain, e);
    var l1 := if o.postflush then Insert(l, 0, PostFlush) else l;
    LinePush(l1, BarProxy, drain, e);
    var l2 := if o.bar then Insert(l1, 0, BarProxy) else l1;
    LinePush(l2, PreFlush, drain, e);
  }

  /** The head of an idle queue that is a barrier. */
  predicate Startable(s: Queue) {
    s.ordseq == NONE && s.next != MODE_NONE && s.list != [] && OrigBarrier(s.list[0])
  }

  lemma LineSequence(s: Queue)
    requires Core(s, NONE) && Startable(s)
    ensures var l := Remove(s.list, 0);
            && Lined(Stacked(l, OrderingFor(s.next, s.list[0].empty)), Drains(s), s.done)
            && (forall r :: r in l ==> r.Orig?)
            && (Drains(s) ==> forall r :: r in l && OrigFs(r) ==> s.done < r.epoch)
            && s.list[0] !in l
  {
    HeadBarrier(s);
    var b := s.list[0];
    var l := Remove(s.list, 0);
    assert b in s.list;
    RemoveLined(s.list, 0, Drains(s), s.done);
    forall r | r in l ensures r.Orig? && (Drains(s) && r.fs ==> s.done < r.epoch) {
      assert r in s.list && r != b;
      assert r.Orig? by { assert !Held(s.list, s.flight, PreFlush) && !Held(s.list, s.flight, BarProxy) &&
                         !Held(s.list, s.flight, PostFlush); }
      var m :| 0 <= m < |s.list| && s.list[m] == r;
      assert Before(b, s.list[m], Drains(s), s.done);
    }
    LineStacked(l, OrderingFor(s.next, b.empty), Drains(s), s.done);
  }

  lemma PlacesSequence(s: Queue, o: Mode)
    requires Core(s, NONE) && Startable(s) && s.list[0] !in Remove(s.list, 0)
    ensures var b := s.list[0]; var l := Stacked(Remove(s.list, 0), o);
            && Apart(l, s.sorted, s.flight, {b})
            && Conserved(l, s.sorted, s.flight, {b}, s.all, s.ended)
  {
    forall r ensures r in Stacked(Remove(s.list, 0), o) <==> r in Remove(s.list, 0) || r in Asked(o) {
      StackedHolds(Remove(s.list, 0), o, r);
    }
    assert !Held(s.list, s.flight, PreFlush) && !Held(s.list, s.flight, BarProxy) && !Held(s.list, s.flight, PostFlush);
  }

  lemma FlagsSequence(s: Queue, o: Mode)
    requires Core(s, NONE) && Startable(s)
    ensures Flags(Stacked(Remove(s.list, 0), o), s.sorted, s.started - Asked(o), s.soft + Asked(o), s.all)
  {
    forall r ensures r in Stacked(Remove(s.list, 0), o) <==> r in Remove(s.list, 0) || r in Asked(o) {
      StackedHolds(Remove(s.list, 0), o, r);
    }
  }

  lemma EpochsSequence(s: Queue)
    requires Core(s, NONE) && Startable(s)
    ensures Epochs(s.bars, s.done, s.all, s.ended, s.sorted, s.color, {s.list[0]}) && s.list[0] !in s.started
  {
    HeadBarrier(s);
    assert s.list[0] in s.list;
  }

  lemma ProxiesSequence(s: Queue)
    requires Core(s, NONE) && Startable(s)
    ensures var o := OrderingFor(s.next, s.list[0].empty);
            Proxies(Stacked(Remove(s.list, 0), o), s.flight, s.started - Asked(o), NONE.(started := true),
                    Skipped(o, s.inFlight))
  {
    var o := OrderingFor(s.next, s.list[0].empty);
    var l := Remove(s.list, 0);
    assert !Held(s.list, s.flight, PreFlush) && !Held(s.list, s.flight, BarProxy) && !Held(s.list, s.flight, PostFlush);
    StackedHolds(l, o, PreFlush);
    StackedHolds(l, o, BarProxy);
    StackedHolds(l, o, PostFlush);
  }

  lemma CountsSequence(s: Queue, o: Mode)
    requires Core(s, NONE) && Startable(s)
    ensures Counts(s.flight, s.started - Asked(o), s.inFlight)
  {
    assert !Held(s.list, s.flight, PreFlush) && !Held(s.list, s.flight, BarProxy) && !Held(s.list, s.flight, PostFlush);
  }

  lemma BitsSequence(mode: Mode, empty: bool, inFlight: int)
    requires ValidMode(mode) && mode != MODE_NONE
    ensures var o := OrderingFor(mode, empty);
            && (o.byTag ==> Skipped(o, inFlight).drain)
            && (FirstProxy(o, inFlight).Hand? ==>
                  && Skipped(o, inFlight).drain
                  && !FirstProxy(o, inFlight).r.Orig?
                  && !Meet(Skipped(o, inFlight), PhaseOf(FirstProxy(o, inFlight).r)))
  {
  }

  lemma CoreSequenced(s: Queue, q: Queue)
    requires Core(s, NONE) && Startable(s) && q == Sequenced(s)
    ensures Core(q, Skipped(q.ordered, q.inFlight))
  {
    var b := s.list[0];
    var o := OrderingFor(s.next, b.empty);
    LineSequence(s);
    PlacesSequence(s, o);
    FlagsSequence(s, o);
    EpochsSequence(s);
    ProxiesSequence(s);
    CountsSequence(s, o);
    BitsSequence(s.next, b.empty, s.inFlight);
    assert Running(q) == {b};
  }

  lemma CoreQueueSequence(s: Queue)
    requires Core(s, NONE) && Startable(s)
    ensures var q := QueueSequence(s); Core(q, Skipped(q.ordered, q.inFlight))
  {
    EpochsSequence(s);
    SequenceFields(s);
    CoreSequenced(s, QueueSequence(s));
  }

  /** What start_ordered may hand out. */
  predicate MayHand(s: Queue, v: Verdict) {
    v.Hand? ==> Active(s) && s.ordseq.drain && !v.r.Orig? && !Meet(s.ordseq, PhaseOf(v.r))
  }

  lemma StartHands(s: Queue)
    requires Core(s, NONE) && Startable(s)
    ensures MayHand(StartOrdered(s).0, StartOrdered(s).1)
  {
    var q := QueueSequence(s);
    BitsSequence(s.next, s.list[0].empty, s.inFlight);
    assert s.list[0] in s.list;
    SequenceFields(s);
  }

  lemma CoreStartOrdered(s: Queue)
    requires Core(s, NONE) && Startable(s)
    ensures Core(StartOrdered(s).0, NONE)
  {
    var q := QueueSequence(s);
    BitsSequence(s.next, s.list[0].empty, s.inFlight);
    CoreQueueSequence(s);
    assert s.list[0] in s.list;
    SequenceFields(s);
    CoreCompleteSeq(q, Skipped(q.ordered, q.inFlight), 0);
  }

  lemma CoreHanded(s: Queue, r: Rq)
    requires Core(s, NONE) && Held(s.list, s.flight, r) && !OrigBarrier(r)
    requires !r.Orig? ==> s.ordseq.drain
    ensures Core(s.(started := s.started + {r}, log := s.log + [Handed(r)]), NONE)
  {
    var s' := s.(started := s.started + {r}, log := s.log + [Handed(r)]);
    assert Running(s') == Running(s);
    assert Flags(s'.list, s'.sorted, s'.started, s'.soft, s'.all);
    assert Proxies(s'.list, s'.flight, s'.started, s'.ordseq, NONE);
    assert Counts(s'.flight, s'.started, s'.inFlight);
  }

  /** Without support for ordering a barrier ends at once, with an error. */
  lemma CoreUnsupported(s: Queue)
    requires Core(s, NONE) && s.ordseq == NONE && s.next == MODE_NONE && s.list != [] && OrigBarrier(s.list[0])
    ensures Core(EndRequest(Dequeue(s, 0), s.list[0], -EOPNOTSUPP), NONE)
  {
    var b := s.list[0];
    HeadBarrier(s);
    assert b in s.list;
    RemoveLined(s.list, 0, Drains(s), s.done);
    var l := Remove(s.list, 0);
    assert !Held(s.list, s.flight, PreFlush) && !Held(s.list, s.flight, BarProxy) && !Held(s.list, s.flight, PostFlush);
    LinedShift(l, false, s.done);
    var s' := EndRequest(Dequeue(s, 0), b, -EOPNOTSUPP);
    assert Running(s') == {};
    assert s.bars[s.done] == b;
    assert Epochs(s'.bars, s'.done, s'.all, s'.ended, s'.sorted, s'.color, {});
    assert Conserved(s'.list, s'.sorted, s'.flight, {}, s'.all, s'.ended);
    assert Proxies(s'.list, s'.flight, s'.started, s'.ordseq, NONE);
  }

  /** A request that blk_do_ordered lets through in mid-sequence is never an original barrier. */
  lemma HandedIsNoBarrier(s: Queue)
    requires Core(s, NONE) && s.list != [] && Active(s) && DoOrdered(s).1.Hand?
    ensures DoOrdered(s).1.r == s.list[0] && !OrigBarrier(s.list[0])
    ensures !s.list[0].Orig? ==> s.ordseq.drain
  {
    var h := s.list[0];
    assert h in s.list;
    assert s.orig in Running(s);
    if OrigBarrier(h) {
      HeadBarrier(s);
    } else if !h.Orig? {
      assert Held(s.list, s.flight, h);
    }
  }

  lemma CoreHandOut(s: Queue, v: Verdict)
    requires Core(s, NONE) && MayHand(s, v)
    ensures Core(HandOut(s, v), NONE)
    ensures v.Hand? ==> Held(s.list, s.flight, v.r)
  {
    if v.Hand? {
      assert Held(s.list, s.flight, v.r);
      CoreHanded(s, v.r);
    }
  }

  lemma CoreNextStart(s: Queue)
    requires Core(s, NONE) && Startable(s)
    ensures NextRequest(s) == HandOut(StartOrdered(s).0, StartOrdered(s).1)
    ensures Core(NextRequest(s), NONE)
  {
    CoreStartOrdered(s);
    StartHands(s);
    CoreHandOut(StartOrdered(s).0, StartOrdered(s).1);
  }

  lemma IdleHead(s: Queue)
    requires Core(s, NONE) && s.list != [] && s.ordseq == NONE
    ensures s.list[0].Orig?
  {
    assert s.list[0] in s.list;
    assert !Held(s.list, s.flight, PreFlush) && !Held(s.list, s.flight, PostFlush) && !Held(s.list, s.flight, BarProxy);
  }

  lemma CoreWarn(s: Queue, w: bool)
    requires Core(s, NONE)
    ensures Core(s.(warn := w), NONE)
  {
    assert Running(s.(warn := w)) == Running(s);
  }

  lemma CoreNextActive(s: Queue)
    requires Core(s, NONE) && s.list != [] && Active(s)
    ensures Core(NextRequest(s), NONE)
  {
    var (s1, v) := DoOrdered(s);
    assert s1 == s.(warn := s1.warn);
    CoreWarn(s, s1.warn);
    if v.Hand? {
      HandedIsNoBarrier(s);
      assert s.list[0] in s.list;
      CoreHanded(s1, s.list[0]);
    }
  }

  lemma CoreNext(s: Queue)
    requires Core(s, NONE) && s.list != []
    ensures Core(NextRequest(s), NONE)
  {
    if s.ordseq != NONE {
      CoreNextActive(s);
    } else {
      IdleHead(s);
      if !OrigBarrier(s.list[0]) {
        assert s.list[0] in s.list;
        CoreHanded(s, s.list[0]);
      } else if s.next != MODE_NONE {
        CoreNextStart(s);
      } else {
        CoreUnsupported(s);
      }
    }
  }

  lemma CorePart(s: Queue, err: int)
    requires Core(s, NONE)
    ensures Core(PartOfBarrier(s, err), NONE)
  {
    assert Running(PartOfBarrier(s, err)) == Running(s);
  }
}
