/** When the anticipatory scheduler turns from reads to writes and back, over whole runs. */
module AnticipatoryBatches {
  import opened Lists
  import opened NextCache
  import opened Anticipatory
  import opened AnticipatoryInv
  import opened AnticipatoryTheorems

  // ---------------------------------------------------------------- one call

  /** The request chosen is the oldest of the batch's direction, or the one proposed. */
  lemma ExpiredShape(k: Tunables, a: As, id: nat, now: int)
    requires id in LaneOf(a, a.batch.sync).fifo
    ensures var c := Expired(k, a, id, now);
      && c.Chosen? && (c.id == id || c.id == LaneOf(a, a.batch.sync).fifo[0])
      && c.a.batch == a.batch && c.a.antic == a.antic
  {
  }

  /** The batch changes direction: the oldest of the other one is chosen. */
  lemma TurnShape(k: Tunables, a: As, now: int)
    requires Base(a) && !a.batch.changed && a.rd.fifo != [] && a.wr.fifo != []
    ensures var c, d := NewDirection(k, a, now), a.batch.sync;
      && c.Chosen? && c.id == LaneOf(a, !d).fifo[0] && c.a.batch.sync == !d && c.a.batch.changed
      && c.a.batch.left == (if d then a.batch.count else a.batch.left) && (d ==> !c.a.batch.idled)
  {
    FirstHeld(a.rq, a.rd, true);
    FirstHeld(a.rq, a.wr, false);
  }

  /** The batch goes on in its direction. */
  lemma GoOnShape(k: Tunables, a: As, b: As, now: int)
    requires Base(a) && Same(a, b) && b.batch == a.batch && LaneOf(a, a.batch.sync).next.Some?
    ensures var c := GoOn(k, b, now);
      && c.Chosen? && c.id in LaneOf(a, a.batch.sync).tree && c.a.antic == b.antic
      && c.a.batch == a.batch.(expires := c.a.batch.expires)
      && (a.wr.fifo != [] ==> c.a.batch.expires == a.batch.expires)
  {
    Flip(a, a.batch.sync);
    var l, next := LaneOf(b, a.batch.sync), LaneOf(b, a.batch.sync).next;
    assert next.id in l.tree && next.id in l.fifo;
    var d := if b.rd.fifo != [] && b.wr.fifo == [] then b.(batch := b.batch.(expires := now + k.batchSync)) else b;
    ExpiredShape(k, d, next.id, now);
    FirstHeld(a.rq, LaneOf(a, a.batch.sync), a.batch.sync);
  }

  /** The time of the batch is over, or a write batch has used up its count. */
  predicate Over(b: Batch, now: int) { !b.newly && (now > b.expires || (!b.sync && b.left == 0)) }

  lemma SelectTurns(k: Tunables, a: As, now: int, brk: bool)
    requires Base(a) && MayRun(a) && a.rd.fifo != [] && a.wr.fifo != [] && Over(a.batch, now)
    ensures Select(k, a, now, brk) == NewDirection(k, a, now)
  {
  }

  /** A read batch waits, goes on, or has run out of reads. */
  lemma SelectStays(k: Tunables, a: As, now: int, brk: bool)
    requires Base(a) && MayRun(a) && a.rd.fifo != [] && a.wr.fifo != [] && !Over(a.batch, now)
    requires LaneOf(a, a.batch.sync).next.Some?
    ensures var c := Select(k, a, now, brk);
      && c.a.batch == a.batch && (c.Chosen? ==> c.id in LaneOf(a, a.batch.sync).tree)
      && (!a.batch.sync ==> c.Chosen? && c.a.antic == a.antic)
  {
    if a.batch.sync && k.anticExpire != 0 {
      var b := Looked(k, a, true, now);
      FirstHeld(a.rq, a.rd, true);
      GoOnShape(k, a, b, now);
    } else {
      GoOnShape(k, a, a, now);
    }
  }

  /** What is left of the count of a write batch once a request has moved. */
  function OneLess(left: int, sync: bool): int { if !sync && left != 0 then left - 1 else left }

  lemma MoveBatch(a: As, id: nat)
    ensures Move(a, id).batch == a.batch.(left := OneLess(a.batch.left, At(a.rq, id).sync))
  {
  }

  lemma FinishTurned(k: Tunables, a: As, id: nat, now: int)
    requires Base(a) && a.batch.changed && id in LaneOf(a, a.batch.sync).tree
    ensures var z := Finish(k, a, id, now);
      && z.batch.sync == a.batch.sync && (z.batch.changed <==> a.nr != 0) && z.batch.idled == a.batch.idled
      && z.sent == (if a.nr == 0 then a.sent + [id] else a.sent)
      && z.batch.left == if a.nr == 0 then OneLess(a.batch.left, a.batch.sync) else a.batch.left
  {
    Flip(a, a.batch.sync);
    assert id in LaneOf(a, a.batch.sync).fifo;
    FinishShape(k, a, id, now);
    var b := Drained(k, a, now);
    MoveShape(b, id, a.batch.sync);
    MoveBatch(b, id);
  }

  lemma FinishStays(k: Tunables, a: As, id: nat, now: int)
    requires Base(a) && !a.batch.changed && id in LaneOf(a, a.batch.sync).tree
    ensures var z := Finish(k, a, id, now);
      && z.batch == a.batch.(left := OneLess(a.batch.left, a.batch.sync)) && z.sent == a.sent + [id]
      && LaneOf(z, !a.batch.sync) == LaneOf(a, !a.batch.sync)
  {
    Flip(a, a.batch.sync);
    assert id in LaneOf(a, a.batch.sync).fifo;
    FinishShape(k, a, id, now);
    MoveShape(a, id, a.batch.sync);
    MoveBatch(a, id);
  }

  /**
   * With requests of both directions waiting and no change pending, a dispatch call that is not waiting
   * for a process turns the batch around if it is not new and its time is over, or a write batch has used
   * up its count: the oldest request of the other direction is sent, at once or when what is in flight
   * has drained, and a batch of writes gets its count.
   */
  lemma OverTurns(k: Tunables, a: As, now: int, brk: bool)
    requires Base(a) && MayRun(a) && a.rd.fifo != [] && a.wr.fifo != []
    requires !a.batch.newly && (now > a.batch.expires || (!a.batch.sync && a.batch.left == 0))
    ensures var z, d := Dispatch(k, a, now, brk), a.batch.sync;
      && z.batch.sync == !d && (z.batch.changed <==> a.nr != 0)
      && z.sent == (if a.nr == 0 then a.sent + [LaneOf(a, !d).fifo[0]] else a.sent)
      && (d && a.nr != 0 ==> z.batch.left == a.batch.count && !z.batch.idled)
  {
    DispatchShape(k, a, now, brk);
    SelectTurns(k, a, now, brk);
    TurnShape(k, a, now);
    SelectGood(k, a, now, brk);
    var c := Select(k, a, now, brk);
    SameBase(a, c.a);
    FinishTurned(k, c.a, c.id, now);
  }

  /** And it goes on in its direction if its time is not over, the count lasts, and it has a next request. */
  lemma OnTimeStays(k: Tunables, a: As, now: int, brk: bool)
    requires Base(a) && MayRun(a) && a.rd.fifo != [] && a.wr.fifo != [] && LaneOf(a, a.batch.sync).next.Some?
    requires a.batch.newly || (now <= a.batch.expires && (a.batch.sync || a.batch.left != 0))
    ensures var z, d := Dispatch(k, a, now, brk), a.batch.sync;
      && z.batch == a.batch.(left := z.batch.left) && LaneOf(z, !d).fifo == LaneOf(a, !d).fifo
      && (!d ==> z.batch.left == a.batch.left - 1)
  {
    DispatchShape(k, a, now, brk);
    SelectStays(k, a, now, brk);
    SelectGood(k, a, now, brk);
    var c := Select(k, a, now, brk);
    SameBase(a, c.a);
    if c.Chosen? {
      FinishStays(k, c.a, c.id, now);
    }
  }

  /** The batch does not turn because the other direction waits too. */
  predicate Lasts(a: As, now: int) { a.rd.fifo == [] || a.wr.fifo == [] || !Over(a.batch, now) }

  /** The oldest request of the direction has expired, and the interval since the last look is over. */
  predicate OldestDue(k: Tunables, a: As, now: int) {
    var l, interval := LaneOf(a, a.batch.sync), if a.batch.sync then k.fifoSync else k.fifoAsync;
    && l.fifo != [] && l.fifo[0] in a.rq && a.rq[l.fifo[0]].due < now
    && (now - l.check >= interval || l.check - now >= interval)
  }

  /** The next read is one of the process waited for. */
  predicate OwnNext(a: As) {
    a.rd.next.Some? && a.rd.next.id in a.rq && a.antic.ioc.Some? && a.rq[a.rd.next.id].ioc == a.antic.ioc
  }

  lemma OldestChosen(k: Tunables, a: As, now: int, brk: bool)
    requires Base(a) && MayRun(a) && Lasts(a, now) && OldestDue(k, a, now)
    requires LaneOf(a, a.batch.sync).next.Some? || (a.batch.sync && k.anticExpire != 0)
    ensures var c := Select(k, a, now, brk);
      c.Chosen? && c.id == LaneOf(a, a.batch.sync).fifo[0] && c.a.batch.sync == a.batch.sync && !c.a.batch.changed
  {
  }

  /** Within a batch an expired request goes before the one next in the order, and before any waiting. */
  lemma ExpiredFirst(k: Tunables, a: As, now: int, brk: bool)
    requires Base(a) && MayRun(a) && Lasts(a, now) && OldestDue(k, a, now)
    requires LaneOf(a, a.batch.sync).next.Some? || (a.batch.sync && k.anticExpire != 0)
    ensures var z := Dispatch(k, a, now, brk);
      z.sent == a.sent + [LaneOf(a, a.batch.sync).fifo[0]] && z.batch.sync == a.batch.sync
  {
    DispatchShape(k, a, now, brk);
    var b := Marked(a);
    SameBase(a, b);
    OldestChosen(k, b, now, brk);
    SelectGood(k, b, now, brk);
    var c := Select(k, b, now, brk);
    SameBase(b, c.a);
    FinishStays(k, c.a, c.id, now);
  }

  /** The conditions for a dispatch call to wait: a read batch, and a process known that may still come. */
  predicate WaitsNow(k: Tunables, a: As, now: int, brk: bool) {
    && a.batch.sync && k.anticExpire != 0 && Lasts(a, now) && !OldestDue(k, a, now)
    && a.antic.ioc.Some? && a.antic.status != Finished && !OwnNext(a) && !brk
  }

  /** Where anything waits, a direction is found. */
  lemma DirectionFound(k: Tunables, a: As, now: int)
    requires a.rd.fifo != [] || a.wr.fifo != []
    ensures NewDirection(k, a, now).Chosen?
  {
  }

  lemma GoOnChosen(k: Tunables, a: As, now: int)
    requires a.rd.fifo != [] || a.wr.fifo != []
    ensures GoOn(k, a, now).Chosen?
  {
    DirectionFound(k, a, now);
  }

  /** The two tests of a read batch that may wait, on the fields. */
  lemma WaitTests(k: Tunables, a: As, now: int, brk: bool)
    requires Base(a) && a.batch.sync
    ensures FifoExpired(k, a, true, now) <==> OldestDue(k, a, now)
    ensures var b := Looked(k, a, true, now);
      CanAnticipate(b, b.rd.next, brk) <==> a.antic.ioc.Some? && a.antic.status != Finished && !OwnNext(a) && !brk
  {
    if a.rd.fifo != [] { assert a.rd.fifo[0] in a.rq; }
    if a.rd.next.Some? { assert a.rd.next.id in a.rd.fifo; }
  }

  lemma WaitChosen(k: Tunables, a: As, now: int, brk: bool)
    requires Base(a) && MayRun(a)
    ensures var c := Select(k, a, now, brk);
      (c.Nothing? <==> WaitsNow(k, a, now, brk)) && (c.Nothing? ==> Waiting(c.a.antic.status))
  {
    if !Lasts(a, now) {
      DirectionFound(k, a, now);
    } else if a.batch.sync && k.anticExpire != 0 {
      WaitTests(k, a, now, brk);
      GoOnChosen(k, Looked(k, a, true, now), now);
    } else {
      GoOnChosen(k, a, now);
    }
  }

  /** A dispatch call begins to wait for the process served last exactly under these conditions. */
  lemma WaitsExactly(k: Tunables, a: As, now: int, brk: bool)
    requires Base(a) && MayRun(a)
    ensures Waiting(Dispatch(k, a, now, brk).antic.status) <==> WaitsNow(k, a, now, brk)
  {
    DispatchShape(k, a, now, brk);
    var b := Marked(a);
    SameBase(a, b);
    WaitChosen(k, b, now, brk);
    SelectCalm(k, b, now, brk);
    SelectGood(k, b, now, brk);
    var c := Select(k, b, now, brk);
    if c.Chosen? {
      FinishShape(k, c.a, c.id, now);
      MoveShape(Drained(k, c.a, now), c.id, At(c.a.rq, c.id).sync);
    }
  }

  /** While no write waits, each read dispatched gives the read batch its whole time again. */
  lemma AloneStaysYoung(k: Tunables, a: As, now: int, brk: bool)
    requires Base(a) && MayRun(a) && a.batch.sync && a.wr.fifo == [] && a.rd.next.Some? && !WaitsNow(k, a, now, brk)
    requires !(k.anticExpire != 0 && OldestDue(k, a, now))
    ensures var z := Dispatch(k, a, now, brk);
      z.batch == a.batch.(expires := now + k.batchSync) && |z.sent| == |a.sent| + 1
  {
    DispatchShape(k, a, now, brk);
    WaitChosen(k, a, now, brk);
    SelectGood(k, a, now, brk);
    var c := Select(k, a, now, brk);
    SameBase(a, c.a);
    AloneChosen(k, a, now, brk);
    FinishStays(k, c.a, c.id, now);
  }

  lemma AloneChosen(k: Tunables, a: As, now: int, brk: bool)
    requires Base(a) && MayRun(a) && a.batch.sync && a.wr.fifo == [] && a.rd.next.Some? && !WaitsNow(k, a, now, brk)
    requires !(k.anticExpire != 0 && OldestDue(k, a, now))
    ensures var c := Select(k, a, now, brk); c.Chosen? && c.a.batch == a.batch.(expires := now + k.batchSync)
  {
    WaitTests(k, a, now, brk);
    assert a.rd.next.id in a.rd.fifo;
    YoungAgain(k, a, now);
    YoungAgain(k, Looked(k, a, true, now), now);
  }

  lemma YoungAgain(k: Tunables, a: As, now: int)
    requires a.batch.sync && a.rd.fifo != [] && a.wr.fifo == [] && a.rd.next.Some?
    ensures var c := GoOn(k, a, now); c.Chosen? && c.a.batch == a.batch.(expires := now + k.batchSync)
  {
  }

  /**
   * The batch at a completion.  The last request of the old batch starts the time of the new one, which for
   * reads is counted from the completion of the first of them; with that the count of the next write batch
   * follows the time the last one took, as WriteCountFollows says.  No other completion changes anything.
   */
  lemma CompletionTimes(k: Tunables, a: As, id: nat, now: int)
    requires id in a.rq && BatchOk(a.batch) && (a.batch.changed ==> a.rq[id].sync != a.batch.sync)
    ensures var z, b := Completed(k, a, id, now).batch, a.batch;
      && (b.changed && a.nr == 1 ==>
            && z.sync == b.sync && !z.changed && (z.newly <==> b.sync)
            && z.expires == now + if b.sync then k.batchSync else k.batchAsync)
      && (b.newly && a.rq[id].sync ==>
            z.sync && !z.changed && !z.newly && z.expires == now + k.batchSync && z.count == WriteCount(k, b, now))
      && (!(b.changed && a.nr == 1) && !(b.newly && a.rq[id].sync) ==> z == b)
  {
  }

  // ---------------------------------------------------------------- every run

  /** The counters are sound, and a batch of writes never waits for a process. */
  predicate Calm(a: As) {
    a.batch.left >= 0 && a.batch.count >= 1 && (!a.batch.sync ==> !Waiting(a.antic.status))
  }

  /** Nothing but the count of writes left has changed, and the scheduler has not begun to wait. */
  predicate Quiet(a: As, z: As) {
    && z.batch == a.batch.(left := z.batch.left) && 0 <= z.batch.left <= a.batch.left
    && (Waiting(z.antic.status) ==> Waiting(a.antic.status))
  }

  lemma MoveQuiet(a: As, id: nat)
    requires a.batch.left >= 0
    ensures Quiet(a, Move(a, id))
  {
    MoveBatch(a, id);
    MoveShape(a, id, At(a.rq, id).sync);
  }

  lemma {:induction false} ClearQuiet(a: As, sync: bool, s: nat)
    requires a.batch.left >= 0
    ensures Quiet(a, Clear(a, sync, s))
    decreases |LaneOf(a, sync).tree|
  {
    var al := Alias(a.sector, LaneOf(a, sync).tree, s);
    if al.Some? && At(a.rq, al.id).sync == sync {
      WithoutIndex(LaneOf(a, sync).tree, al.id);
      MoveQuiet(a, al.id);
      MoveShape(a, al.id, sync);
      ClearQuiet(Move(a, al.id), sync, s);
    }
  }

  lemma {:induction false} DrainQuiet(a: As, sync: bool)
    requires a.batch.left >= 0
    ensures Quiet(a, Drain(a, sync))
    decreases |LaneOf(a, sync).tree|
  {
    var l := LaneOf(a, sync);
    if l.next.Some? && l.next.id in l.tree && At(a.rq, l.next.id).sync == sync {
      WithoutIndex(l.tree, l.next.id);
      MoveQuiet(a, l.next.id);
      MoveShape(a, l.next.id, sync);
      DrainQuiet(Move(a, l.next.id), sync);
    }
  }

  /** What arrives, merges or completes leaves the direction alone, and empties neither FIFO. */
  predicate Keeps(a: As, z: As) {
    && z.batch.sync == a.batch.sync && z.batch.left <= a.batch.left
    && (!a.batch.changed ==> !z.batch.changed)
    && (!a.batch.changed && !a.batch.newly ==> !z.batch.newly && z.batch.expires == a.batch.expires)
    && (a.rd.fifo != [] ==> z.rd.fifo != []) && (a.wr.fifo != [] ==> z.wr.fifo != [])
  }

  lemma AddKeeps(k: Tunables, a: As, id: nat, s: nat, r: Rq, now: int, brk: bool)
    requires Base(a) && Calm(a) && id !in a.rq
    ensures var z := Add(k, a, id, s, r, now, brk); Calm(z) && Keeps(a, z)
  {
    var n := Known(k, a, id, s, r, now);
    var c := Clear(n, r.sync, s);
    ClearQuiet(n, r.sync, s);
    KnownOk(k, a, id, s, r, now);
    ClearOk(n, r.sync, s, {});
    var z := Add(k, a, id, s, r, now, brk);
    assert LaneOf(z, r.sync).fifo == LaneOf(c, r.sync).fifo + [id];
    assert LaneOf(z, !r.sync) == LaneOf(c, !r.sync) && z.batch == c.batch;
  }

  lemma FrontKeeps(a: As, id: nat, s: nat, nr: nat)
    requires Base(a) && Calm(a) && Holds(a, id)
    ensures var z := FrontMerged(a, id, s, nr); Calm(z) && Keeps(a, z)
  {
    var sync := At(a.rq, id).sync;
    var b := Pulled(a, id, s, nr);
    var z := FrontMerged(a, id, s, nr);
    PulledOk(a, id, s, nr, sync);
    ClearQuiet(b, sync, s);
    FrontLane(a, id, s, nr, sync, b, Clear(b, sync, s), z);
    Flip(z, sync);
    assert id in LaneOf(z, sync).tree;
    assert id in LaneOf(z, sync).fifo;
    assert z.batch == Clear(b, sync, s).batch && z.antic == Clear(b, sync, s).antic;
  }

  lemma MergeKeeps(a: As, req: nat, next: nat)
    requires Base(a) && Calm(a) && Enabled(a, OpMerge(req, next))
    ensures var z := Merged(a, req, next); Calm(z) && Keeps(a, z)
  {
    var sync := a.rq[req].sync;
    var l := LaneOf(a, sync);
    Flip(a, sync);
    var z := Merged(a, req, next);
    MergedOk(a, req, next, sync, z);
    assert req in l.fifo && next in l.fifo;
    var sooner := At(a.rq, next).due < At(a.rq, req).due;
    MergeLaneOk(a.rq, l, sync, a.sector, req, next, sooner);
    assert LaneOf(z, sync) == MergeLane(l, a.sector, req, next, sooner);
    assert req in LaneOf(z, sync).fifo;
  }

  lemma OtherKeeps(k: Tunables, a: As, op: Op, now: int)
    requires Base(a) && Calm(a) && Enabled(a, op) && !op.OpTurn? && !op.OpForce?
    ensures var z := Apply(k, a, op, now); Calm(z) && Keeps(a, z)
  {
    match op
    case OpAdd(id, s, r, brk) => AddKeeps(k, a, id, s, r, now, brk);
    case OpFront(id, s, nr) => FrontKeeps(a, id, s, nr);
    case OpMerge(req, next) => MergeKeeps(a, req, next);
    case OpComplete(id) =>
    case OpTimeout =>
  }

  lemma ForceCalm(a: As, now: int)
    requires Calm(a)
    ensures Calm(Force(a, now)) && Force(a, now).batch.sync
  {
    var a1 := a.(batch := a.batch.(sync := true, changed := false, newly := false));
    DrainQuiet(a1, true);
    var b := Drain(a1, true);
    DrainQuiet(b.(rd := b.rd.(check := now)), false);
  }

  /** A choice keeps the counters; where nothing is chosen, the batch is one of reads. */
  predicate CalmChoice(a: As, c: Choice) {
    && c.a.batch.count == a.batch.count && (c.a.batch.left == a.batch.left || c.a.batch.left == a.batch.count)
    && (c.Chosen? ==> c.a.antic == a.antic) && (c.Nothing? && !c.a.bug ==> c.a.batch.sync)
  }

  lemma NewDirectionCalm(k: Tunables, a: As, now: int)
    ensures CalmChoice(a, NewDirection(k, a, now))
  {
  }

  lemma GoOnCalm(k: Tunables, a: As, now: int)
    ensures CalmChoice(a, GoOn(k, a, now))
  {
    var next := LaneOf(a, a.batch.sync).next;
    if next.None? {
      NewDirectionCalm(k, a, now);
    } else {
      var b := if a.rd.fifo != [] && a.wr.fifo == [] then a.(batch := a.batch.(expires := now + k.batchSync)) else a;
      ExpiredCalm(k, b, next.id, now);
    }
  }

  lemma ExpiredCalm(k: Tunables, a: As, id: nat, now: int)
    ensures var c := Expired(k, a, id, now); c.Chosen? && c.a.batch == a.batch && c.a.antic == a.antic
  {
  }

  lemma SelectCalm(k: Tunables, a: As, now: int, brk: bool)
    ensures CalmChoice(a, Select(k, a, now, brk))
  {
    if a.rd.fifo != [] && a.wr.fifo != [] && BatchExpired(a.batch, now) {
      NewDirectionCalm(k, a, now);
    } else if a.batch.sync && k.anticExpire != 0 {
      GoOnCalm(k, Looked(k, a, true, now), now);
    } else {
      GoOnCalm(k, a, now);
    }
  }

  lemma FinishCalm(k: Tunables, a: As, id: nat, now: int)
    requires Calm(a) && BatchOk(a.batch) && !a.bug
    ensures Calm(Finish(k, a, id, now))
  {
    FinishShape(k, a, id, now);
    MoveQuiet(Drained(k, a, now), id);
  }

  lemma DispatchCalm(k: Tunables, a: As, now: int, brk: bool)
    requires Base(a) && Calm(a)
    ensures Calm(Dispatch(k, a, now, brk))
  {
    DispatchShape(k, a, now, brk);
    var b := Marked(a);
    SameBase(a, b);
    if MayRun(b) {
      SelectGood(k, b, now, brk);
      SelectCalm(k, b, now, brk);
      var c := Select(k, b, now, brk);
      if c.Chosen? { FinishCalm(k, c.a, c.id, now); }
    }
  }

  lemma StepCalm(k: Tunables, a: As, op: Op, now: int)
    requires Base(a) && Calm(a) && Enabled(a, op)
    ensures Calm(Apply(k, a, op, now))
  {
    if op.OpTurn? {
      DispatchCalm(k, a, now, op.brk);
    } else if op.OpForce? {
      ForceCalm(a, now);
    } else {
      OtherKeeps(k, a, op, now);
    }
  }

  lemma {:induction false} RunCalm(k: Tunables, start: int, calls: seq<Call>)
    requires IsRun(k, Init(k, start), calls)
    ensures Base(After(k, Init(k, start), calls)) && Calm(After(k, Init(k, start), calls))
    decreases |calls|
  {
    RunBase(k, start, calls);
    if calls != [] {
      var n := |calls| - 1;
      RunCalm(k, start, calls[..n]);
      StepCalm(k, After(k, Init(k, start), calls[..n]), calls[n].op, calls[n].now);
    }
  }

  // ---------------------------------------------------------------- batches end

  /** What one call does. */
  predicate Leads(k: Tunables, a: As, c: Call, z: As) { Enabled(a, c.op) && z == Apply(k, a, c.op, c.now) }

  /** The states that the calls lead through. */
  predicate IsTrace(k: Tunables, tr: seq<As>, calls: seq<Call>) {
    |tr| == |calls| + 1 && forall i {:trigger calls[i]} :: 0 <= i < |calls| ==> Leads(k, tr[i], calls[i], tr[i + 1])
  }

  /** The batch has this direction in all of them. */
  predicate StaysWith(tr: seq<As>, sync: bool) { forall i :: 0 <= i < |tr| ==> tr[i].batch.sync == sync }

  /** The dispatch calls among the first `n`. */
  function Turns(calls: seq<Call>, n: nat): nat
    requires n <= |calls|
  {
    if n == 0 then 0 else Turns(calls, n - 1) + if calls[n - 1].op.OpTurn? then 1 else 0
  }

  /** A dispatch call of a write batch with reads waiting sends one of the writes left, or turns to reads. */
  lemma WriteTurn(k: Tunables, a: As, now: int, brk: bool)
    requires Base(a) && Calm(a) && !a.batch.sync && !a.batch.changed && a.rd.fifo != []
    ensures var z := Dispatch(k, a, now, brk);
      z.batch.sync || (z.rd.fifo != [] && z.batch == a.batch.(left := a.batch.left - 1) && now <= a.batch.expires)
  {
    if a.wr.fifo == [] || a.wr.next.None? {
      RunOut(k, a, now, brk);
    } else if Over(a.batch, now) {
      OverTurns(k, a, now, brk);
    } else {
      OnTimeStays(k, a, now, brk);
    }
  }

  /** A batch without a next request turns to the other direction, if that has one. */
  lemma RunOut(k: Tunables, a: As, now: int, brk: bool)
    requires Base(a) && Calm(a) && !a.batch.sync && !a.batch.changed && a.rd.fifo != []
    requires a.wr.fifo == [] || a.wr.next.None?
    ensures Dispatch(k, a, now, brk).batch.sync
  {
    assert a.wr.next.None?;
    DispatchShape(k, a, now, brk);
    SelectGood(k, a, now, brk);
    var c := Select(k, a, now, brk);
    SameBase(a, c.a);
    FirstHeld(a.rq, a.rd, true);
    FinishTurned(k, c.a, c.id, now);
  }

  /**
   * As long as a write batch lasts while a read waits, there are no more dispatch calls than the count of
   * writes left when it was seen, and none once its time is over.
   */
  lemma WriteBatchEnds(k: Tunables, start: int, before: seq<Call>, tr: seq<As>, calls: seq<Call>)
    requires IsRun(k, Init(k, start), before) && IsTrace(k, tr, calls) && tr[0] == After(k, Init(k, start), before)
    requires !tr[0].batch.changed && tr[0].rd.fifo != [] && StaysWith(tr, false)
    ensures Turns(calls, |calls|) <= tr[0].batch.left
    ensures forall i :: 0 <= i < |calls| && calls[i].op.OpTurn? ==> calls[i].now <= tr[0].batch.expires
  {
    RunCalm(k, start, before);
    WriteTrace(k, tr, calls, |calls|);
    forall i | 0 <= i < |calls| && calls[i].op.OpTurn? ensures calls[i].now <= tr[0].batch.expires {
      WriteTrace(k, tr, calls, i);
      WriteStep(k, tr[i], calls[i], tr[i + 1]);
    }
  }

  /** A write batch in progress while a read waits. */
  ghost predicate Writing(a: As) {
    Base(a) && Calm(a) && !a.batch.sync && !a.batch.changed && a.rd.fifo != []
  }

  lemma WriteStep(k: Tunables, a: As, c: Call, z: As)
    requires Writing(a) && Leads(k, a, c, z) && !z.batch.sync
    ensures Writing(z) && z.batch.expires == a.batch.expires
    ensures z.batch.left + (if c.op.OpTurn? then 1 else 0) <= a.batch.left
    ensures c.op.OpTurn? ==> c.now <= a.batch.expires
  {
    StepBase(k, a, c.op, c.now);
    StepCalm(k, a, c.op, c.now);
    if c.op.OpTurn? {
      WriteTurn(k, a, c.now, c.op.brk);
    } else if c.op.OpForce? {
      ForceCalm(a, c.now);
    } else {
      OtherKeeps(k, a, c.op, c.now);
    }
  }

  /** What a call leaves of a write batch that goes on. */
  ghost predicate WritesOn(a: As, c: Call, z: As) {
    && Writing(z) && z.batch.expires == a.batch.expires
    && z.batch.left + (if c.op.OpTurn? then 1 else 0) <= a.batch.left
  }

  /** For any relation that keeps to it. */
  lemma {:induction false} WritesAlong(lead: (As, Call, As) -> bool, tr: seq<As>, calls: seq<Call>, n: nat)
    requires |tr| == |calls| + 1 && StaysWith(tr, false) && Writing(tr[0]) && n <= |calls|
    requires forall i {:trigger calls[i]} :: 0 <= i < |calls| ==> lead(tr[i], calls[i], tr[i + 1])
    requires forall a, c, z {:trigger lead(a, c, z)} ::
               lead(a, c, z) && Writing(a) && !z.batch.sync ==> WritesOn(a, c, z)
    ensures Writing(tr[n]) && tr[n].batch.expires == tr[0].batch.expires
    ensures tr[n].batch.left + Turns(calls, n) <= tr[0].batch.left
    decreases n
  {
    if n > 0 {
      WritesAlong(lead, tr, calls, n - 1);
      assert lead(tr[n - 1], calls[n - 1], tr[n]);
    }
  }

  lemma WriteTrace(k: Tunables, tr: seq<As>, calls: seq<Call>, n: nat)
    requires IsTrace(k, tr, calls) && StaysWith(tr, false) && Writing(tr[0]) && n <= |calls|
    ensures Writing(tr[n]) && tr[n].batch.expires == tr[0].batch.expires
    ensures tr[n].batch.left + Turns(calls, n) <= tr[0].batch.left
  {
    forall a, c, z | Leads(k, a, c, z) && Writing(a) && !z.batch.sync ensures WritesOn(a, c, z) {
      WriteStep(k, a, c, z);
    }
    WritesAlong((a, c, z) => Leads(k, a, c, z), tr, calls, n);
  }

  /** A dispatch call of a read batch with writes waiting stays with reads only if it waits or its time lasts. */
  lemma ReadTurn(k: Tunables, a: As, now: int, brk: bool)
    requires Base(a) && a.batch.sync && !a.batch.changed && !a.batch.newly && a.wr.fifo != []
    ensures var z := Dispatch(k, a, now, brk);
      z.batch.sync ==> z.wr.fifo != [] && z.batch == a.batch.(left := z.batch.left) &&
                       (Waiting(a.antic.status) || a.rd.fifo == [] || now <= a.batch.expires)
  {
    DispatchShape(k, a, now, brk);
    if MayRun(a) {
      if a.rd.fifo != [] && Over(a.batch, now) {
        OverTurns(k, a, now, brk);
      } else if a.rd.fifo != [] && a.rd.next.Some? {
        OnTimeStays(k, a, now, brk);
      } else {
        ReadsRunOut(k, a, now, brk);
      }
    }
  }

  /** A read batch without a next request waits for one, sends one that has expired, or turns to writes. */
  lemma ReadsRunOut(k: Tunables, a: As, now: int, brk: bool)
    requires Base(a) && MayRun(a) && a.batch.sync && !a.batch.newly && a.wr.fifo != []
    requires a.rd.fifo == [] || (a.rd.next.None? && !Over(a.batch, now))
    ensures var z := Dispatch(k, a, now, brk);
      z.batch.sync ==> z.wr.fifo != [] && z.batch == a.batch.(left := z.batch.left)
  {
    DispatchShape(k, a, now, brk);
    assert a.rd.next.None?;
    SelectGood(k, a, now, brk);
    var c := Select(k, a, now, brk);
    SameBase(a, c.a);
    ReadsRunOutChoice(k, a, now, brk);
    if c.Chosen? {
      if c.a.batch.sync {
        FinishStays(k, c.a, c.id, now);
      } else {
        FinishTurned(k, c.a, c.id, now);
      }
    }
  }

  lemma ReadsRunOutChoice(k: Tunables, a: As, now: int, brk: bool)
    requires Base(a) && MayRun(a) && a.batch.sync && !a.batch.newly && a.wr.fifo != [] && a.rd.next.None?
    requires a.rd.fifo == [] || !Over(a.batch, now)
    ensures var c := Select(k, a, now, brk);
      if c.a.batch.sync then c.a.batch == a.batch else c.Chosen? && c.a.batch.changed
  {
    ToWrites(k, a, now);
    ToWrites(k, Looked(k, a, true, now), now);
  }

  lemma ToWrites(k: Tunables, a: As, now: int)
    requires a.batch.sync && a.wr.fifo != [] && a.rd.next.None?
    ensures var c := GoOn(k, a, now); c.Chosen? && !c.a.batch.sync && c.a.batch.changed
  {
  }

  /** No call is a forced dispatch. */
  predicate Unforced(calls: seq<Call>) { forall i :: 0 <= i < |calls| ==> !calls[i].op.OpForce? }

  /**
   * As long as a read batch lasts while a write waits, every dispatch call after its time is over finds the
   * scheduler waiting for a process, or no reads at all.
   */
  lemma ReadBatchEnds(k: Tunables, start: int, before: seq<Call>, tr: seq<As>, calls: seq<Call>, i: nat)
    requires IsRun(k, Init(k, start), before) && IsTrace(k, tr, calls) && tr[0] == After(k, Init(k, start), before)
    requires !tr[0].batch.changed && !tr[0].batch.newly && tr[0].wr.fifo != []
    requires StaysWith(tr, true) && Unforced(calls)
    requires i < |calls| && calls[i].op.OpTurn? && calls[i].now > tr[0].batch.expires
    ensures Waiting(tr[i].antic.status) || tr[i].rd.fifo == []
  {
    RunCalm(k, start, before);
    ReadTrace(k, tr, calls, i);
    ReadStep(k, tr[i], calls[i], tr[i + 1]);
  }

  /** A read batch in progress while a write waits. */
  ghost predicate Reading(a: As) {
    Base(a) && Calm(a) && a.batch.sync && !a.batch.changed && !a.batch.newly && a.wr.fifo != []
  }

  /** For any relation that keeps a read batch going. */
  lemma {:induction false} ReadsAlong(lead: (As, Call, As) -> bool, tr: seq<As>, calls: seq<Call>, n: nat)
    requires |tr| == |calls| + 1 && StaysWith(tr, true) && Unforced(calls) && Reading(tr[0]) && n <= |calls|
    requires forall i {:trigger calls[i]} :: 0 <= i < |calls| ==> lead(tr[i], calls[i], tr[i + 1])
    requires forall a, c, z {:trigger lead(a, c, z)} ::
               lead(a, c, z) && Reading(a) && z.batch.sync && !c.op.OpForce? ==>
                 Reading(z) && z.batch.expires == a.batch.expires
    ensures Reading(tr[n]) && tr[n].batch.expires == tr[0].batch.expires
    decreases n
  {
    if n > 0 {
      ReadsAlong(lead, tr, calls, n - 1);
      assert lead(tr[n - 1], calls[n - 1], tr[n]);
    }
  }

  lemma ReadTrace(k: Tunables, tr: seq<As>, calls: seq<Call>, n: nat)
    requires IsTrace(k, tr, calls) && StaysWith(tr, true) && Unforced(calls) && Reading(tr[0]) && n <= |calls|
    ensures Reading(tr[n]) && tr[n].batch.expires == tr[0].batch.expires
  {
    forall a, c, z | Leads(k, a, c, z) && Reading(a) && z.batch.sync && !c.op.OpForce?
      ensures Reading(z) && z.batch.expires == a.batch.expires
    {
      ReadStep(k, a, c, z);
    }
    ReadsAlong((a, c, z) => Leads(k, a, c, z), tr, calls, n);
  }

  lemma ReadStep(k: Tunables, a: As, c: Call, z: As)
    requires Reading(a) && Leads(k, a, c, z) && z.batch.sync && !c.op.OpForce?
    ensures Reading(z) && z.batch.expires == a.batch.expires
    ensures c.op.OpTurn? && c.now > a.batch.expires ==> Waiting(a.antic.status) || a.rd.fifo == []
  {
    StepBase(k, a, c.op, c.now);
    StepCalm(k, a, c.op, c.now);
    if c.op.OpTurn? {
      ReadTurn(k, a, c.now, c.op.brk);
    } else {
      OtherKeeps(k, a, c.op, c.now);
    }
  }

  // ---------------------------------------------------------------- the time of a batch

  /** The batch in progress ends at most its own interval after `now`. */
  predicate InTime(k: Tunables, b: Batch, now: int) {
    && (!b.changed && !b.sync ==> b.expires <= now + k.batchAsync)
    && (!b.changed && b.sync && !b.newly ==> b.expires <= now + k.batchSync)
  }

  /** jiffies does not go back. */
  predicate Clocked(start: int, calls: seq<Call>) {
    && (forall i :: 0 <= i < |calls| ==> start <= calls[i].now)
    && (forall i, j :: 0 <= i < j < |calls| ==> calls[i].now <= calls[j].now)
  }

  function Last(start: int, calls: seq<Call>): int { if calls == [] then start else calls[|calls| - 1].now }

  lemma FinishInTime(k: Tunables, a: As, id: nat, now: int)
    requires BatchOk(a.batch) && !a.bug && InTime(k, a.batch, now)
    ensures InTime(k, Finish(k, a, id, now).batch, now)
  {
    FinishShape(k, a, id, now);
    MoveBatch(Drained(k, a, now), id);
  }

  lemma GoOnInTime(k: Tunables, a: As, now: int)
    requires !a.batch.changed && InTime(k, a.batch, now) && (!a.batch.sync && a.wr.next.Some? ==> a.wr.fifo != [])
    ensures InTime(k, GoOn(k, a, now).a.batch, now)
  {
    TurnInTime(k, a, now);
  }

  lemma TurnInTime(k: Tunables, a: As, now: int)
    requires InTime(k, a.batch, now)
    ensures InTime(k, NewDirection(k, a, now).a.batch, now)
  {
  }

  lemma SelectInTime(k: Tunables, a: As, now: int, brk: bool)
    requires Base(a) && !a.batch.changed && InTime(k, a.batch, now)
    ensures InTime(k, Select(k, a, now, brk).a.batch, now)
  {
    if a.wr.next.Some? { assert a.wr.next.id in a.wr.fifo; }
    if a.rd.fifo != [] && a.wr.fifo != [] && BatchExpired(a.batch, now) {
      TurnInTime(k, a, now);
    } else if a.batch.sync && k.anticExpire != 0 {
      GoOnInTime(k, Looked(k, a, true, now), now);
    } else {
      GoOnInTime(k, a, now);
    }
  }

  lemma DispatchInTime(k: Tunables, a: As, now: int, brk: bool)
    requires Base(a) && InTime(k, a.batch, now)
    ensures InTime(k, Dispatch(k, a, now, brk).batch, now)
  {
    DispatchShape(k, a, now, brk);
    var b := Marked(a);
    SameBase(a, b);
    if MayRun(b) {
      SelectGood(k, b, now, brk);
      SelectInTime(k, b, now, brk);
      var c := Select(k, b, now, brk);
      if c.Chosen? { FinishInTime(k, c.a, c.id, now); }
    }
  }

  lemma QuietInTime(k: Tunables, a: As, op: Op, now: int)
    requires Base(a) && Calm(a) && Enabled(a, op) && (op.OpAdd? || op.OpFront? || op.OpMerge? || op.OpTimeout?)
    requires InTime(k, a.batch, now)
    ensures InTime(k, Apply(k, a, op, now).batch, now)
  {
    match op
    case OpAdd(id, s, r, brk) =>
      ClearQuiet(Known(k, a, id, s, r, now), r.sync, s);
      assert Add(k, a, id, s, r, now, brk).batch == Clear(Known(k, a, id, s, r, now), r.sync, s).batch;
    case OpFront(id, s, nr) =>
      ClearQuiet(Pulled(a, id, s, nr), a.rq[id].sync, s);
      assert FrontMerged(a, id, s, nr).batch == Clear(Pulled(a, id, s, nr), a.rq[id].sync, s).batch;
    case OpMerge(req, next) =>
    case OpTimeout =>
  }

  /**
   * In every run without forced dispatch, the batch in progress ends at most the interval of its direction
   * after the last call: batch_expire of reads for one of reads, once its first read has completed, and
   * that of writes for one of writes.
   */
  lemma {:induction false} BatchInTime(k: Tunables, start: int, calls: seq<Call>)
    requires IsRun(k, Init(k, start), calls) && Clocked(start, calls) && Unforced(calls)
    ensures InTime(k, After(k, Init(k, start), calls).batch, Last(start, calls))
    decreases |calls|
  {
    if calls != [] {
      var n := |calls| - 1;
      RunCalm(k, start, calls[..n]);
      Shorter(start, calls);
      BatchInTime(k, start, calls[..n]);
      StepInTime(k, After(k, Init(k, start), calls[..n]), calls[n].op, Last(start, calls[..n]), calls[n].now);
    }
  }

  lemma Shorter(start: int, calls: seq<Call>)
    requires Clocked(start, calls) && Unforced(calls) && calls != []
    ensures var n := |calls| - 1;
      && Clocked(start, calls[..n]) && Unforced(calls[..n]) && !calls[n].op.OpForce?
      && Last(start, calls[..n]) <= calls[n].now
  {
  }

  lemma StepInTime(k: Tunables, a: As, op: Op, last: int, now: int)
    requires Base(a) && Calm(a) && Enabled(a, op) && !op.OpForce? && last <= now && InTime(k, a.batch, last)
    ensures InTime(k, Apply(k, a, op, now).batch, now)
  {
    if op.OpTurn? {
      DispatchInTime(k, a, now, op.brk);
    } else if op.OpComplete? {
      assert Apply(k, a, op, now).batch == BatchDone(k, a.batch, a.nr, At(a.rq, op.id).sync, now);
    } else {
      QuietInTime(k, a, op, now);
    }
  }
}
