/** For whom the anticipatory scheduler waits, and when a wait begins and ends. */
module AnticipatoryWaits {
  import opened Lists
  import opened NextCache
  import opened Anticipatory
  import opened AnticipatoryInv
  import opened AnticipatoryTheorems
  import opened AnticipatoryBatches

  // ---------------------------------------------------------------- for whom

  /** The process of the last read sent that had one, if no write has been sent since. */
  function LastReader(rq: map<nat, Rq>, sent: seq<nat>): Opt {
    if sent == [] then None
    else
      var r := At(rq, sent[|sent| - 1]);
      if !r.sync then None else if r.ioc.Some? then r.ioc else LastReader(rq, sent[..|sent| - 1])
  }

  /**
   * The scheduler waits for the process whose read it has sent last: for the completion of that read if
   * none of the process's has completed since, and then for its next request.
   */
  predicate WaitsRight(t: Antic, rq: map<nat, Rq>, sent: seq<nat>) {
    t.ioc == LastReader(rq, sent) && (t.status == WaitNext ==> t.done) && (t.status == WaitReq ==> !t.done)
  }

  ghost predicate Right(a: As) {
    WaitsRight(a.antic, a.rq, a.sent) && forall x :: x in a.sent ==> x in a.rq
  }

  lemma LastReaderMore(rq: map<nat, Rq>, sent: seq<nat>, id: nat)
    ensures LastReader(rq, sent + [id]) ==
            var r := At(rq, id); if !r.sync then None else if r.ioc.Some? then r.ioc else LastReader(rq, sent)
  {
    assert (sent + [id])[..|sent|] == sent;
  }

  lemma {:induction false} LastReaderFrame(rq: map<nat, Rq>, more: map<nat, Rq>, sent: seq<nat>)
    requires forall x :: x in sent ==> At(rq, x).sync == At(more, x).sync && At(rq, x).ioc == At(more, x).ioc
    ensures LastReader(more, sent) == LastReader(rq, sent)
    decreases |sent|
  {
    if sent != [] {
      var l := sent[..|sent| - 1];
      assert forall x :: x in l ==> x in sent;
      LastReaderFrame(rq, more, l);
    }
  }

  lemma MoveRight(a: As, id: nat)
    requires Right(a) && id in a.rq
    ensures Right(Move(a, id)) && Move(a, id).rq == a.rq
  {
    MoveShape(a, id, At(a.rq, id).sync);
    LastReaderMore(a.rq, a.sent, id);
    assert Move(a, id).antic == AfterMove(a.antic, At(a.rq, id));
  }

  lemma {:induction false} ClearRight(a: As, sync: bool, s: nat)
    requires Right(a) && forall x :: x in LaneOf(a, sync).tree ==> x in a.rq
    ensures Right(Clear(a, sync, s)) && Clear(a, sync, s).rq == a.rq
    decreases |LaneOf(a, sync).tree|
  {
    var al := Alias(a.sector, LaneOf(a, sync).tree, s);
    if al.Some? && At(a.rq, al.id).sync == sync {
      WithoutIndex(LaneOf(a, sync).tree, al.id);
      MoveRight(a, al.id);
      MoveShape(a, al.id, sync);
      Leaves(a, al.id, sync);
      ClearRight(Move(a, al.id), sync, s);
    }
  }

  lemma Leaves(a: As, id: nat, sync: bool)
    requires At(a.rq, id).sync == sync
    ensures forall x :: x in LaneOf(Move(a, id), sync).tree ==> x in LaneOf(a, sync).tree
  {
    MoveShape(a, id, sync);
    WithoutIndex(LaneOf(a, sync).tree, id);
  }

  lemma {:induction false} DrainRight(a: As, sync: bool)
    requires Right(a) && forall x :: x in LaneOf(a, sync).tree ==> x in a.rq
    ensures Right(Drain(a, sync)) && Drain(a, sync).rq == a.rq && LaneOf(Drain(a, sync), !sync) == LaneOf(a, !sync)
    decreases |LaneOf(a, sync).tree|
  {
    var l := LaneOf(a, sync);
    if l.next.Some? && l.next.id in l.tree && At(a.rq, l.next.id).sync == sync {
      WithoutIndex(l.tree, l.next.id);
      MoveRight(a, l.next.id);
      MoveShape(a, l.next.id, sync);
      Leaves(a, l.next.id, sync);
      DrainRight(Move(a, l.next.id), sync);
    }
  }

  lemma AddRight(k: Tunables, a: As, id: nat, s: nat, r: Rq, now: int, brk: bool)
    requires Base(a) && Right(a) && id !in a.rq
    ensures Right(Add(k, a, id, s, r, now, brk))
  {
    var n := Known(k, a, id, s, r, now);
    KnownOk(k, a, id, s, r, now);
    LastReaderFrame(a.rq, n.rq, a.sent);
    ClearRight(n, r.sync, s);
    var c, z := Clear(n, r.sync, s), Add(k, a, id, s, r, now, brk);
    assert z.rq == c.rq && z.sent == c.sent && (z.antic == c.antic || z.antic == AnticStop(c.antic));
  }

  lemma FrontRight(a: As, id: nat, s: nat, nr: nat)
    requires Base(a) && Right(a) && Holds(a, id)
    ensures Right(FrontMerged(a, id, s, nr))
  {
    var sync := At(a.rq, id).sync;
    var b := Pulled(a, id, s, nr);
    PulledOk(a, id, s, nr, sync);
    LastReaderFrame(a.rq, b.rq, a.sent);
    ClearRight(b, sync, s);
    var c, z := Clear(b, sync, s), FrontMerged(a, id, s, nr);
    assert z.rq == c.rq && z.sent == c.sent && z.antic == c.antic;
  }

  lemma MergeRight(a: As, req: nat, next: nat)
    requires Base(a) && Right(a) && Enabled(a, OpMerge(req, next))
    ensures Right(Merged(a, req, next))
  {
    LastReaderFrame(a.rq, Merged(a, req, next).rq, a.sent);
  }

  /** A dispatch call that chooses nothing begins to wait, for the completion or for the next request. */
  lemma NothingRight(k: Tunables, a: As, now: int, brk: bool)
    requires Base(a) && MayRun(a) && Right(a) && Select(k, a, now, brk).Nothing?
    ensures Right(Select(k, a, now, brk).a)
  {
    WaitChosen(k, a, now, brk);
    SelectGood(k, a, now, brk);
    WaitTests(k, a, now, brk);
    var b := Looked(k, a, true, now);
    assert Select(k, a, now, brk) == Nothing(StartWait(b));
  }

  lemma FinishRight(k: Tunables, a: As, id: nat, now: int)
    requires Right(a) && BatchOk(a.batch) && !a.bug && id in a.rq
    ensures Right(Finish(k, a, id, now))
  {
    FinishShape(k, a, id, now);
    MoveRight(Drained(k, a, now), id);
  }

  lemma ChosenKnown(a: As, c: Choice)
    requires Base(a) && Good(a, c) && c.Chosen?
    ensures c.id in c.a.rq
  {
    assert c.id in LaneOf(a, c.a.batch.sync).fifo;
  }

  lemma DispatchRight(k: Tunables, a: As, now: int, brk: bool)
    requires Base(a) && Right(a)
    ensures Right(Dispatch(k, a, now, brk))
  {
    DispatchShape(k, a, now, brk);
    var b := Marked(a);
    SameBase(a, b);
    if MayRun(b) {
      SelectGood(k, b, now, brk);
      SelectCalm(k, b, now, brk);
      var c := Select(k, b, now, brk);
      if c.Chosen? {
        ChosenKnown(b, c);
        FinishRight(k, c.a, c.id, now);
      } else {
        NothingRight(k, b, now, brk);
      }
    }
  }

  lemma ForceRight(a: As, now: int)
    requires Base(a) && Right(a)
    ensures Right(Force(a, now))
  {
    var a1 := a.(batch := a.batch.(sync := true, changed := false, newly := false));
    DrainRight(a1, true);
    var b := Drain(a1, true);
    DrainRight(b.(rd := b.rd.(check := now)), false);
  }

  lemma StepRight(k: Tunables, a: As, op: Op, now: int)
    requires Base(a) && Right(a) && Enabled(a, op)
    ensures Right(Apply(k, a, op, now))
  {
    match op
    case OpAdd(id, s, r, brk) => AddRight(k, a, id, s, r, now, brk);
    case OpFront(id, s, nr) => FrontRight(a, id, s, nr);
    case OpMerge(req, next) => MergeRight(a, req, next);
    case OpTurn(brk) => DispatchRight(k, a, now, brk);
    case OpForce => ForceRight(a, now);
    case OpComplete(id) =>
    case OpTimeout =>
  }

  lemma {:induction false} RunRight(k: Tunables, start: int, calls: seq<Call>)
    requires IsRun(k, Init(k, start), calls)
    ensures Right(After(k, Init(k, start), calls))
    decreases |calls|
  {
    if calls != [] {
      var n := |calls| - 1;
      RunBase(k, start, calls[..n]);
      RunRight(k, start, calls[..n]);
      StepRight(k, After(k, Init(k, start), calls[..n]), calls[n].op, calls[n].now);
    }
  }

  /**
   * In every run: the process waited for is that of the last read sent, and no write has been sent since;
   * the wait is for the completion of its read exactly if none of its has completed since it was sent, and
   * else for its next request.
   */
  lemma WaitsForLastReader(k: Tunables, start: int, calls: seq<Call>, a: As)
    requires IsRun(k, Init(k, start), calls) && a == After(k, Init(k, start), calls)
    ensures a.antic.ioc == LastReader(a.rq, a.sent)
    ensures Waiting(a.antic.status) ==> a.antic.ioc.Some? && (a.antic.status == WaitNext <==> a.antic.done)
  {
    RunBase(k, start, calls);
    RunRight(k, start, calls);
  }

  // ---------------------------------------------------------------- how a wait begins and ends

  /** A dispatch call that sends something ends all waiting, and forgets the completions before it. */
  lemma SendingResets(k: Tunables, a: As, now: int, brk: bool)
    requires Base(a) && Dispatch(k, a, now, brk).sent != a.sent
    ensures var z := Dispatch(k, a, now, brk); z.antic.status == Off && !z.antic.done
  {
    DispatchShape(k, a, now, brk);
    var b := Marked(a);
    SameBase(a, b);
    if MayRun(b) {
      SelectGood(k, b, now, brk);
      var c := Select(k, b, now, brk);
      if c.Chosen? { FinishShape(k, c.a, c.id, now); }
    }
  }

  /** A completion of the process's starts the time of the wait, whatever the scheduler waited for until then. */
  lemma CompletionStarts(k: Tunables, a: As, id: nat, now: int)
    requires id in a.rq
    ensures var z, t := Completed(k, a, id, now), a.antic;
      if t.ioc.Some? && a.rq[id].ioc == t.ioc
      then z.antic == Antic(if t.status == WaitReq then WaitNext else t.status, now, t.ioc, true)
      else z.antic == t
  {
  }

  /**
   * A request that arrives during a wait ends it exactly if it is one of the process waited for, or the
   * statistics say that the process will not come in time, or what was queued at its sector has to go.
   */
  lemma ArrivalBreaks(k: Tunables, a: As, id: nat, s: nat, r: Rq, now: int, brk: bool)
    requires Base(a) && id !in a.rq && Waiting(a.antic.status)
    ensures var z := Add(k, a, id, s, r, now, brk);
      !Waiting(z.antic.status) <==>
      r.ioc == a.antic.ioc || brk || exists x :: x in LaneOf(a, r.sync).tree && SectorOf(a.sector, x) == s
  {
    var n := Known(k, a, id, s, r, now);
    KnownOk(k, a, id, s, r, now);
    ClearOk(n, r.sync, s, {});
    ClearEnds(n, r.sync, s);
    SameSectors(a, id, s, r.sync);
    Flip(a, r.sync);
    AddAntic(k, a, id, s, r, now, brk);
  }

  /** The wait after an arrival, from that after the requests at its sector are gone. */
  lemma AddAntic(k: Tunables, a: As, id: nat, s: nat, r: Rq, now: int, brk: bool)
    ensures var c, z := Clear(Known(k, a, id, s, r, now), r.sync, s), Add(k, a, id, s, r, now, brk);
      z.antic == if Waiting(c.antic.status) && CanBreak(c.antic, c.rq, Some(id), brk) then AnticStop(c.antic)
        else c.antic
  {
  }

  lemma SameSectors(a: As, id: nat, s: nat, sync: bool)
    requires id !in LaneOf(a, sync).tree
    ensures Alias(a.sector[id := s], LaneOf(a, sync).tree, s).Some? <==>
            exists x :: x in LaneOf(a, sync).tree && SectorOf(a.sector, x) == s
  {
    assert forall x :: x in LaneOf(a, sync).tree ==> SectorOf(a.sector[id := s], x) == SectorOf(a.sector, x);
  }

  lemma {:induction false} ClearEnds(a: As, sync: bool, s: nat)
    requires Lanes(a, sync, {})
    ensures Alias(a.sector, LaneOf(a, sync).tree, s).Some? ==> !Waiting(Clear(a, sync, s).antic.status)
    decreases |LaneOf(a, sync).tree|
  {
    var al := Alias(a.sector, LaneOf(a, sync).tree, s);
    if al.Some? {
      assert al.id in LaneOf(a, sync).fifo;
      WithoutIndex(LaneOf(a, sync).tree, al.id);
      MoveShape(a, al.id, sync);
      StaysOff(Move(a, al.id), sync, s);
    }
  }

  lemma {:induction false} StaysOff(a: As, sync: bool, s: nat)
    requires !Waiting(a.antic.status)
    ensures !Waiting(Clear(a, sync, s).antic.status)
    decreases |LaneOf(a, sync).tree|
  {
    var al := Alias(a.sector, LaneOf(a, sync).tree, s);
    if al.Some? && At(a.rq, al.id).sync == sync {
      WithoutIndex(LaneOf(a, sync).tree, al.id);
      MoveShape(a, al.id, sync);
      StaysOff(Move(a, al.id), sync, s);
    }
  }

  /** Once the time of a wait is over the next dispatch call does not begin another one. */
  lemma TimeoutEnds(k: Tunables, a: As, now: int, brk: bool)
    requires Base(a) && Waiting(a.antic.status) && !a.batch.changed
    ensures !Waiting(Timeout(a).antic.status) && !Waiting(Dispatch(k, Timeout(a), now, brk).antic.status)
  {
    var b := Timeout(a);
    TimeoutOk(a);
    if MayRun(b) {
      WaitsExactly(k, b, now, brk);
    } else {
      DispatchShape(k, b, now, brk);
    }
  }

  /** The FIFO of the direction is looked at once per interval: the time of the look is kept. */
  lemma LooksOnce(k: Tunables, a: As, now: int, brk: bool)
    requires Base(a) && MayRun(a) && Lasts(a, now) && LaneOf(a, a.batch.sync).next.Some?
    ensures var d := a.batch.sync;
      var l, interval := LaneOf(a, d), if d then k.fifoSync else k.fifoAsync;
      LaneOf(Dispatch(k, a, now, brk), d).check ==
      if now - l.check >= interval || l.check - now >= interval then now else l.check
  {
    DispatchShape(k, a, now, brk);
    var b, d := Marked(a), a.batch.sync;
    SameBase(a, b);
    SelectGood(k, b, now, brk);
    LookKept(k, b, now, brk);
    var c := Select(k, b, now, brk);
    if c.Chosen? {
      SameBase(b, c.a);
      Flip(c.a, d);
      assert c.id in LaneOf(c.a, c.a.batch.sync).fifo;
      FinishShape(k, c.a, c.id, now);
      MoveShape(Drained(k, c.a, now), c.id, c.a.batch.sync);
    }
  }

  /** When the FIFO of a direction was looked at last, after a look at `now` if one is due. */
  function LookAt(k: Tunables, a: As, d: bool, now: int): int {
    var l, interval := LaneOf(a, d), if d then k.fifoSync else k.fifoAsync;
    if now - l.check >= interval || l.check - now >= interval then now else l.check
  }

  lemma ExpiredLooks(k: Tunables, a: As, id: nat, now: int)
    ensures var d, c := a.batch.sync, Expired(k, a, id, now);
      c.a.batch.sync == d && LaneOf(c.a, d).check == LookAt(k, a, d, now)
  {
  }

  lemma GoOnLooks(k: Tunables, a: As, now: int)
    requires LaneOf(a, a.batch.sync).next.Some?
    ensures var d, c := a.batch.sync, GoOn(k, a, now);
      c.a.batch.sync == d && LaneOf(c.a, d).check == LookAt(k, a, d, now)
  {
    var next := LaneOf(a, a.batch.sync).next;
    var b := if a.rd.fifo != [] && a.wr.fifo == [] then a.(batch := a.batch.(expires := now + k.batchSync)) else a;
    assert GoOn(k, a, now) == Expired(k, b, next.id, now);
    ExpiredLooks(k, b, next.id, now);
  }

  lemma LookKept(k: Tunables, a: As, now: int, brk: bool)
    requires Base(a) && MayRun(a) && Lasts(a, now) && LaneOf(a, a.batch.sync).next.Some?
    ensures var d, c := a.batch.sync, Select(k, a, now, brk);
      c.a.batch.sync == d && LaneOf(c.a, d).check == LookAt(k, a, d, now)
  {
    var b := Looked(k, a, true, now);
    if a.batch.sync && k.anticExpire != 0 {
      GoOnLooks(k, b, now);
      assert LookAt(k, b, true, now) == LookAt(k, a, true, now);
    } else {
      GoOnLooks(k, a, now);
    }
  }
}
