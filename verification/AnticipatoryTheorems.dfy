/** The anticipatory scheduler over whole runs. */
module AnticipatoryTheorems {
  import opened Lists
  import opened NextCache
  import opened Anticipatory
  import opened AnticipatoryInv

  // ---------------------------------------------------------------- dispatching

  predicate SameLane(l: Lane, m: Lane) { m == l.(check := m.check) }

  /** The same requests, in the same places. */
  predicate Same(a: As, b: As) {
    && b.rq == a.rq && b.sector == a.sector && b.nr == a.nr && b.flight == a.flight && b.sent == a.sent
    && SameLane(a.rd, b.rd) && SameLane(a.wr, b.wr)
  }

  lemma SameBase(a: As, b: As)
    requires Base(a) && Same(a, b) && AnticOk(b.antic) && BatchOk(b.batch) && !b.bug
    ensures Base(b) && (Exact(a) ==> Exact(b))
  {
  }

  /** What may come of the choice: nothing has moved yet, and what is chosen has the batch's direction. */
  predicate Good(a: As, c: Choice) {
    && Same(a, c.a) && AnticOk(c.a.antic) && BatchOk(c.a.batch) && !c.a.bug && Dir(c.a.batch) == Dir(a.batch)
    && (c.Chosen? ==> c.id in LaneOf(c.a, c.a.batch.sync).tree)
  }

  lemma FirstHeld(rq: map<nat, Rq>, l: Lane, sync: bool)
    requires LaneOk(rq, l, sync, {}) && l.fifo != []
    ensures l.fifo[0] in l.tree && l.tree != []
  {
    assert l.fifo[0] in l.fifo;
  }

  lemma ExpiredGood(k: Tunables, a: As, b: As, id: nat, now: int)
    requires Base(a) && Same(a, b) && AnticOk(b.antic) && BatchOk(b.batch) && !b.bug && Dir(b.batch) == Dir(a.batch)
    requires id in LaneOf(b, b.batch.sync).tree
    ensures Good(a, Expired(k, b, id, now))
  {
    if FifoExpired(k, b, b.batch.sync, now) {
      FirstHeld(a.rq, LaneOf(a, b.batch.sync), b.batch.sync);
    }
  }

  lemma TurnSyncGood(k: Tunables, a: As, b: As, now: int)
    requires Base(a) && Same(a, b) && b.antic == a.antic && b.batch == a.batch && !b.bug
    requires !a.batch.changed && a.rd.fifo != []
    ensures Good(a, TurnSync(k, b, now))
  {
    var turn := !b.batch.sync;
    var c := b.(bug := b.bug || (turn && b.batch.newly),
                batch := b.batch.(sync := true, changed := b.batch.changed || turn), rd := b.rd.(check := now));
    FirstHeld(a.rq, a.rd, true);
    ExpiredGood(k, a, c, c.rd.fifo[0], now);
  }

  lemma TurnAsyncGood(k: Tunables, a: As, b: As, now: int)
    requires Base(a) && Same(a, b) && b.antic == a.antic && b.batch == a.batch && !b.bug
    requires !a.batch.changed && a.wr.fifo != []
    ensures Good(a, TurnAsync(k, b, now))
  {
    var turn := b.batch.sync;
    FirstHeld(a.rq, a.wr, false);
    var c := b.(bug := b.bug || b.wr.tree == [],
                batch := b.batch.(sync := false, changed := b.batch.changed || turn, newly := b.batch.newly && !turn,
                                  left := b.batch.count, idled := false),
                wr := b.wr.(check := now));
    ExpiredGood(k, a, c, c.wr.fifo[0], now);
  }

  lemma NewDirectionGood(k: Tunables, a: As, b: As, now: int)
    requires Base(a) && Same(a, b) && b.antic == a.antic && b.batch == a.batch && !b.bug
    requires !a.batch.changed && (a.rd.fifo != [] || a.wr.fifo != [])
    ensures Good(a, NewDirection(k, b, now))
  {
    if b.rd.fifo != [] { FirstHeld(a.rq, a.rd, true); }
    var c := b.(bug := b.bug || (b.rd.fifo != [] && b.rd.tree == []));
    if b.rd.fifo != [] && !(b.wr.fifo != [] && b.batch.sync) {
      TurnSyncGood(k, a, c, now);
    } else {
      TurnAsyncGood(k, a, c, now);
    }
  }

  lemma GoOnGood(k: Tunables, a: As, b: As, now: int)
    requires Base(a) && Same(a, b) && b.antic == a.antic && b.batch == a.batch && !b.bug
    requires !a.batch.changed && (a.rd.fifo != [] || a.wr.fifo != [])
    ensures Good(a, GoOn(k, b, now))
  {
    var next := LaneOf(b, b.batch.sync).next;
    if next.Some? {
      var c := if b.rd.fifo != [] && b.wr.fifo == [] then b.(batch := b.batch.(expires := now + k.batchSync)) else b;
      Flip(a, a.batch.sync);
      assert next.id in LaneOf(a, a.batch.sync).tree;
      ExpiredGood(k, a, c, next.id, now);
    } else {
      NewDirectionGood(k, a, b, now);
    }
  }

  lemma SelectGood(k: Tunables, a: As, now: int, brk: bool)
    requires Base(a) && !a.batch.changed && !Waiting(a.antic.status) && (a.rd.fifo != [] || a.wr.fifo != [])
    ensures Good(a, Select(k, a, now, brk))
  {
    if a.rd.fifo != [] && a.wr.fifo != [] && BatchExpired(a.batch, now) {
      NewDirectionGood(k, a, a, now);
    } else if a.batch.sync && k.anticExpire != 0 {
      var b := Looked(k, a, true, now);
      if FifoExpired(k, a, true, now) {
        FirstHeld(a.rq, a.rd, true);
      } else if !CanAnticipate(b, b.rd.next, brk) {
        GoOnGood(k, a, b, now);
      }
    } else {
      GoOnGood(k, a, a, now);
    }
  }

  /** The state from which as_dispatch_request moves its request, once the old batch has drained. */
  function Drained(k: Tunables, a: As, now: int): As {
    if !a.batch.changed then a
    else a.(batch := if a.batch.sync then a.batch.(changed := false, newly := true)
                     else a.batch.(changed := false, expires := now + k.batchAsync))
  }

  lemma FinishShape(k: Tunables, a: As, id: nat, now: int)
    requires BatchOk(a.batch) && !a.bug
    ensures Finish(k, a, id, now) == if a.batch.changed && a.nr != 0 then a else Move(Drained(k, a, now), id)
  {
  }

  lemma FinishOk(k: Tunables, a: As, id: nat, now: int)
    requires Base(a) && id in LaneOf(a, a.batch.sync).tree
    ensures Base(Finish(k, a, id, now)) && (Exact(a) ==> Exact(Finish(k, a, id, now)))
  {
    FinishShape(k, a, id, now);
    var b := Drained(k, a, now);
    SameBase(a, b);
    MoveBase(b, id, a.batch.sync);
  }

  /** A request moves only when what is in flight has its direction, or nothing is in flight. */
  lemma FinishApart(k: Tunables, a: As, id: nat, now: int, z: As)
    requires Lanes(a, a.batch.sync, {}) && Flight(a) && BatchOk(a.batch) && !a.bug
    requires id in LaneOf(a, a.batch.sync).tree && Apart(a.flight, a.rq, Dir(a.batch)) && z == Finish(k, a, id, now)
    ensures Apart(z.flight, z.rq, Dir(z.batch))
  {
    FinishShape(k, a, id, now);
    var b := Drained(k, a, now);
    assert id in LaneOf(a, a.batch.sync).fifo;
    MoveShape(b, id, a.batch.sync);
    if a.batch.changed && a.nr == 0 {
      assert a.flight == {};
    }
  }

  /** The write batch found uncontended is marked. */
  function Marked(a: As): As {
    if !a.batch.sync && a.rd.fifo == [] && (a.batch.left == 0 || a.wr.fifo == [])
    then a.(batch := a.batch.(idled := true)) else a
  }

  predicate MayRun(a: As) { (a.rd.fifo != [] || a.wr.fifo != []) && !Waiting(a.antic.status) && !a.batch.changed }

  lemma DispatchShape(k: Tunables, a: As, now: int, brk: bool)
    ensures var b := Marked(a);
      Dispatch(k, a, now, brk) ==
      if !MayRun(b) then b
      else
        var c := Select(k, b, now, brk);
        if c.Chosen? then Finish(k, c.a, c.id, now) else c.a
  {
  }

  lemma DispatchOk(k: Tunables, a: As, now: int, brk: bool, z: As)
    requires Base(a) && z == Dispatch(k, a, now, brk)
    ensures Base(z) && (Exact(a) ==> Exact(z))
  {
    DispatchShape(k, a, now, brk);
    var b := Marked(a);
    SameBase(a, b);
    if MayRun(b) {
      SelectGood(k, b, now, brk);
      var c := Select(k, b, now, brk);
      SameBase(b, c.a);
      if c.Chosen? {
        FinishOk(k, c.a, c.id, now);
      }
    }
  }

  lemma DispatchApart(k: Tunables, a: As, now: int, brk: bool, z: As)
    requires Base(a) && Apart(a.flight, a.rq, Dir(a.batch)) && z == Dispatch(k, a, now, brk)
    ensures Apart(z.flight, z.rq, Dir(z.batch))
  {
    DispatchShape(k, a, now, brk);
    var b := Marked(a);
    SameBase(a, b);
    if MayRun(b) {
      SelectGood(k, b, now, brk);
      var c := Select(k, b, now, brk);
      SameBase(b, c.a);
      if c.Chosen? {
        Flip(c.a, c.a.batch.sync);
        FinishApart(k, c.a, c.id, now, z);
      }
    }
  }

  // ---------------------------------------------------------------- runs

  lemma ForceBase(a: As, now: int)
    requires Base(a)
    ensures Base(Force(a, now)) && (Exact(a) ==> Exact(Force(a, now)))
    ensures Force(a, now).rd.tree == [] <==> NextOk(a.rd.tree, a.rd.next)
    ensures Force(a, now).wr.tree == [] <==> NextOk(a.wr.tree, a.wr.next)
  {
    var a1 := a.(batch := a.batch.(sync := true, changed := false, newly := false));
    SameBase(a, a1);
    DrainOk(a1, true);
    var b := Drain(a1, true);
    var b1 := b.(rd := b.rd.(check := now));
    SameBase(b, b1);
    DrainOk(b1, false);
    var c := Drain(b1, false);
    SameBase(c, c.(wr := c.wr.(check := now)));
  }

  lemma StepBase(k: Tunables, a: As, op: Op, now: int)
    requires Base(a) && Enabled(a, op)
    ensures Base(Apply(k, a, op, now))
  {
    match op
    case OpAdd(id, s, r, brk) => AddOk(k, a, id, s, r, now, brk);
    case OpFront(id, s, nr) => FrontOk(a, id, s, nr);
    case OpMerge(req, next) => MergedOk(a, req, next, At(a.rq, req).sync, Merged(a, req, next));
    case OpTurn(brk) => DispatchOk(k, a, now, brk, Dispatch(k, a, now, brk));
    case OpForce => ForceBase(a, now);
    case OpComplete(id) => CompletedOk(k, a, id, now);
    case OpTimeout => TimeoutOk(a);
  }

  /** In every run the invariant holds; in particular no BUG_ON and no WARN_ON of the modelled code fires. */
  lemma {:induction false} RunBase(k: Tunables, start: int, calls: seq<Call>)
    requires IsRun(k, Init(k, start), calls)
    ensures Base(After(k, Init(k, start), calls))
    decreases |calls|
  {
    if calls != [] {
      var n := |calls| - 1;
      RunBase(k, start, calls[..n]);
      StepBase(k, After(k, Init(k, start), calls[..n]), calls[n].op, calls[n].now);
    }
  }

  /** In every run the scheduler waits only while it knows for whom, and none of the checks of the code fires. */
  lemma WaitsForSomeone(k: Tunables, start: int, calls: seq<Call>)
    requires IsRun(k, Init(k, start), calls)
    ensures var a := After(k, Init(k, start), calls);
      && (Waiting(a.antic.status) ==> a.antic.ioc.Some?) && !a.bug
      && a.nr == |a.flight| && (forall x :: x in a.rd.fifo <==> x in a.rd.tree) &&
         (forall x :: x in a.wr.fifo <==> x in a.wr.tree)
  {
    RunBase(k, start, calls);
  }

  // ---------------------------------------------------------------- batches

  /** No forced dispatch, and no request that starts where another one of its direction does. */
  predicate Plain(a: As, op: Op) {
    match op
    case OpAdd(id, s, r, brk) => Alias(a.sector, LaneOf(a, r.sync).tree, s).None?
    case OpFront(id, s, nr) =>
      var tree := LaneOf(a, At(a.rq, id).sync).tree;
      forall x <- tree :: x != id ==> SectorOf(a.sector, x) != s
    case OpForce => false
    case _ => true
  }

  predicate PlainRun(k: Tunables, a: As, calls: seq<Call>)
    decreases |calls|
  {
    calls == [] ||
    (PlainRun(k, a, calls[..|calls| - 1]) && Plain(After(k, a, calls[..|calls| - 1]), calls[|calls| - 1].op))
  }

  lemma AddApart(k: Tunables, a: As, id: nat, s: nat, r: Rq, now: int, brk: bool)
    requires Base(a) && id !in a.rq && Plain(a, OpAdd(id, s, r, brk)) && Apart(a.flight, a.rq, Dir(a.batch))
    ensures var z := Add(k, a, id, s, r, now, brk); Apart(z.flight, z.rq, Dir(z.batch))
  {
    var n := Known(k, a, id, s, r, now);
    KnownOk(k, a, id, s, r, now);
    AliasFrame(a.sector, LaneOf(a, r.sync).tree, s, id);
    assert Clear(n, r.sync, s) == n;
  }

  /** A request that is not in a tree makes no difference to the search in it. */
  lemma AliasFrame(sector: map<nat, nat>, tree: seq<nat>, s: nat, id: nat)
    requires id !in tree && Alias(sector, tree, s).None?
    ensures Alias(sector[id := s], tree, s).None?
  {
  }

  lemma FrontApart(a: As, id: nat, s: nat, nr: nat)
    requires Base(a) && Holds(a, id) && Plain(a, OpFront(id, s, nr)) && Apart(a.flight, a.rq, Dir(a.batch))
    ensures var z := FrontMerged(a, id, s, nr); Apart(z.flight, z.rq, Dir(z.batch))
  {
    var sync := At(a.rq, id).sync;
    var b := Pulled(a, id, s, nr);
    PulledOk(a, id, s, nr, sync);
    ClearOk(b, sync, s, {id});
    assert Alias(b.sector, LaneOf(b, sync).tree, s).None?;
    assert b.flight == a.flight && Clear(b, sync, s) == b;
  }

  lemma StepApart(k: Tunables, a: As, op: Op, now: int)
    requires Base(a) && Enabled(a, op) && Plain(a, op) && Apart(a.flight, a.rq, Dir(a.batch))
    ensures var z := Apply(k, a, op, now); Apart(z.flight, z.rq, Dir(z.batch))
  {
    match op
    case OpAdd(id, s, r, brk) => AddApart(k, a, id, s, r, now, brk);
    case OpFront(id, s, nr) => FrontApart(a, id, s, nr);
    case OpMerge(req, next) => {}
    case OpTurn(brk) => DispatchApart(k, a, now, brk, Dispatch(k, a, now, brk));
    case OpComplete(id) => CompletedApart(k, a, id, now);
    case OpTimeout => {}
  }

  lemma {:induction false} RunApart(k: Tunables, start: int, calls: seq<Call>, a: As)
    requires IsRun(k, Init(k, start), calls) && PlainRun(k, Init(k, start), calls)
    requires a == After(k, Init(k, start), calls)
    ensures Apart(a.flight, a.rq, Dir(a.batch))
    decreases |calls|
  {
    if calls != [] {
      var n := |calls| - 1;
      var b := After(k, Init(k, start), calls[..n]);
      RunApart(k, start, calls[..n], b);
      RunBase(k, start, calls[..n]);
      StepApart(k, b, calls[n].op, calls[n].now);
    }
  }

  /**
   * Batches do not overlap: in every run without a forced dispatch and without aliases, all requests
   * dispatched and not yet completed have one direction, that of the batch, or the opposite one while
   * the batch is changing.
   */
  lemma BatchSeparation(k: Tunables, start: int, calls: seq<Call>, x: nat)
    requires IsRun(k, Init(k, start), calls) && PlainRun(k, Init(k, start), calls)
    requires x in After(k, Init(k, start), calls).flight
    ensures var a := After(k, Init(k, start), calls);
      x in a.rq && a.rq[x].sync == if a.batch.changed then !a.batch.sync else a.batch.sync
  {
    RunBase(k, start, calls);
    RunApart(k, start, calls, After(k, Init(k, start), calls));
  }

  // ---------------------------------------------------------------- the cached request

  /** Every front merge of the run is one after which the cache is exact. */
  ghost predicate TidyRun(k: Tunables, a: As, calls: seq<Call>)
    decreases |calls|
  {
    calls == [] ||
    (TidyRun(k, a, calls[..|calls| - 1])
     && (calls[|calls| - 1].op.OpFront? ==>
           var b, op := After(k, a, calls[..|calls| - 1]), calls[|calls| - 1].op;
           Tidy(LaneOf(b, At(b.rq, op.id).sync).tree, b.sector, op.id, op.s)))
  }

  lemma StepExact(k: Tunables, a: As, op: Op, now: int)
    requires Base(a) && Enabled(a, op) && Exact(a)
    ensures Exact(Apply(k, a, op, now)) <==>
      (op.OpFront? ==> Tidy(LaneOf(a, At(a.rq, op.id).sync).tree, a.sector, op.id, op.s))
  {
    match op
    case OpAdd(id, s, r, brk) => AddOk(k, a, id, s, r, now, brk);
    case OpFront(id, s, nr) => FrontNext(a, id, s, nr, At(a.rq, id).sync, FrontMerged(a, id, s, nr));
    case OpMerge(req, next) => MergedOk(a, req, next, At(a.rq, req).sync, Merged(a, req, next));
    case OpTurn(brk) => DispatchOk(k, a, now, brk, Dispatch(k, a, now, brk));
    case OpForce => ForceBase(a, now);
    case OpComplete(id) => CompletedOk(k, a, id, now);
    case OpTimeout => TimeoutOk(a);
  }

  /** In every such run a direction's cache is empty exactly when the direction is. */
  lemma {:induction false} NextExact(k: Tunables, start: int, calls: seq<Call>)
    requires IsRun(k, Init(k, start), calls) && TidyRun(k, Init(k, start), calls)
    ensures Exact(After(k, Init(k, start), calls))
    decreases |calls|
  {
    if calls != [] {
      var n := |calls| - 1;
      NextExact(k, start, calls[..n]);
      RunBase(k, start, calls[..n]);
      StepExact(k, After(k, Init(k, start), calls[..n]), calls[n].op, calls[n].now);
    }
  }

  // ---------------------------------------------------------------- forced dispatch

  /** One round of the loop of a forced dispatch. */
  lemma DrainRound(a: As, sync: bool, id: nat, m: As)
    requires Base(a) && LaneOf(a, sync).next == Some(id) && m == Move(a, id)
    ensures id in LaneOf(a, sync).tree && Drain(a, sync) == Drain(m, sync) && Base(m) && m.sent == a.sent + [id]
    ensures LaneOf(m, sync).tree == Without(LaneOf(a, sync).tree, id) && Distinct(LaneOf(a, sync).tree)
    ensures NextOk(LaneOf(m, sync).tree, LaneOf(m, sync).next)
    ensures |LaneOf(m, sync).tree| < |LaneOf(a, sync).tree|
  {
    var l := LaneOf(a, sync);
    Flip(a, sync);
    assert id in l.fifo;
    MoveShape(a, id, sync);
    MoveBase(a, id, sync);
    WithoutAt(l.tree, id);
  }

  /** The loop of a forced dispatch sends the requests of the direction, each once, after what was sent before. */
  lemma {:induction false} DrainSent(a: As, sync: bool) returns (moved: seq<nat>)
    requires Base(a) && NextOk(LaneOf(a, sync).tree, LaneOf(a, sync).next)
    ensures Drain(a, sync).sent == a.sent + moved && OnceEach(moved, LaneOf(a, sync).tree)
    decreases |LaneOf(a, sync).tree|
  {
    var next := LaneOf(a, sync).next;
    if next.Some? {
      var b := Move(a, next.id);
      DrainRound(a, sync, next.id, b);
      var m := DrainSent(b, sync);
      OnceMore(m, LaneOf(a, sync).tree, next.id);
      CatAssoc(a.sent, [next.id], m);
      moved := [next.id] + m;
    } else {
      moved := [];
    }
  }

  /**
   * Forced dispatch, at any point of a run whose front merges are tidy: it ends with nothing held and
   * every request held before it sent exactly once, reads before writes.
   */
  lemma ForcedDrain(k: Tunables, start: int, calls: seq<Call>, now: int) returns (rd: seq<nat>, wr: seq<nat>)
    requires IsRun(k, Init(k, start), calls) && TidyRun(k, Init(k, start), calls)
    ensures var a := After(k, Init(k, start), calls);
      var z := Force(a, now);
      && z.rd.tree == [] && z.wr.tree == [] && z.rd.fifo == [] && z.wr.fifo == []
      && z.sent == a.sent + rd + wr && OnceEach(rd, a.rd.tree) && OnceEach(wr, a.wr.tree)
  {
    var a := After(k, Init(k, start), calls);
    RunBase(k, start, calls);
    NextExact(k, start, calls);
    var a1 := a.(batch := a.batch.(sync := true, changed := false, newly := false));
    SameBase(a, a1);
    rd := DrainSent(a1, true);
    DrainOk(a1, true);
    var b := Drain(a1, true);
    var b1 := b.(rd := b.rd.(check := now));
    SameBase(b, b1);
    wr := DrainSent(b1, false);
    ForceBase(a, now);
    var z := Force(a, now);
    Emptied(z.rq, z.rd, true);
    Emptied(z.rq, z.wr, false);
  }

  lemma Emptied(rq: map<nat, Rq>, l: Lane, sync: bool)
    requires LaneOk(rq, l, sync, {}) && l.tree == []
    ensures l.fifo == []
  {
    if l.fifo != [] {
      FirstHeld(rq, l, sync);
    }
  }

  /**
   * A front merge that is not tidy, from any state of a tidy run: a later forced dispatch leaves the
   * request where it is.
   */
  lemma UntidyStays(k: Tunables, start: int, calls: seq<Call>, a: As, id: nat, s: nat, nr: nat, now: int)
    requires IsRun(k, Init(k, start), calls) && TidyRun(k, Init(k, start), calls)
    requires a == After(k, Init(k, start), calls) && Holds(a, id)
    ensures var z := Force(FrontMerged(a, id, s, nr), now);
      (z.rd.tree == [] && z.wr.tree == []) <==> Tidy(LaneOf(a, At(a.rq, id).sync).tree, a.sector, id, s)
  {
    RunBase(k, start, calls);
    NextExact(k, start, calls);
    FrontOk(a, id, s, nr);
    FrontNext(a, id, s, nr, At(a.rq, id).sync, FrontMerged(a, id, s, nr));
    ForceBase(FrontMerged(a, id, s, nr), now);
  }

  /** Two reads are queued: number 2 at sectors 0 to 3, number 1 at sectors 8 to 15. */
  function TwoReads(): seq<Call> {
    [Call(OpAdd(2, 0, Rq(4, true, None, 0), false), 0), Call(OpAdd(1, 8, Rq(8, true, None, 0), false), 0)]
  }

  lemma OneAdded(k: Tunables, r: Rq)
    requires r.sync
    ensures var a := Add(k, Init(k, 0), 2, 0, r, 0, false);
      && a.rd.tree == [2] && a.sector == map[2 := 0] && a.rq.Keys == {2} && !Waiting(a.antic.status) && a.rq[2].sync
  {
    var n := Known(k, Init(k, 0), 2, 0, r, 0);
    assert Clear(n, true, 0) == n;
  }

  lemma TwoAdded(k: Tunables, a: As, r: Rq)
    requires r.sync && a.rd.tree == [2] && a.sector == map[2 := 0] && a.rq.Keys == {2} && !Waiting(a.antic.status) &&
             a.rq[2].sync
    ensures var b := Add(k, a, 1, 8, r, 0, false);
      1 in b.rd.tree && 2 in b.rd.tree && |b.rd.tree| == 2 && b.sector == map[2 := 0, 1 := 8] && 1 in b.rq &&
        b.rq[1].sync
  {
    var n := Known(k, a, 1, 8, r, 0);
    assert Alias(n.sector, n.rd.tree, 8).None?;
    assert Clear(n, true, 8) == n;
    LinkedOk(n.sector, [2], 1);
  }

  lemma OneMore(k: Tunables, a: As, l: seq<Call>, c: Call)
    requires IsRun(k, a, l) && Enabled(After(k, a, l), c.op)
    ensures IsRun(k, a, l + [c]) && After(k, a, l + [c]) == Apply(k, After(k, a, l), c.op, c.now)
  {
    assert (l + [c])[..|l|] == l;
  }

  lemma TidyMore(k: Tunables, a: As, l: seq<Call>, c: Call)
    requires IsRun(k, a, l) && TidyRun(k, a, l) && Enabled(After(k, a, l), c.op) && c.op.OpAdd?
    ensures TidyRun(k, a, l + [c])
  {
    assert (l + [c])[..|l|] == l;
  }

  /**
   * An untidy front merge can happen: a bio for sectors 0 to 7 joins number 1 at its start.  Number 2 is
   * dispatched, the cache is left empty, and a forced dispatch does not send number 1.
   */
  lemma CacheLost(k: Tunables)
    ensures IsRun(k, Init(k, 0), TwoReads()) && TidyRun(k, Init(k, 0), TwoReads())
    ensures var a := After(k, Init(k, 0), TwoReads());
      Holds(a, 1) && !(Force(FrontMerged(a, 1, 0, 16), 0).rd.tree == [] &&
                       Force(FrontMerged(a, 1, 0, 16), 0).wr.tree == [])
  {
    var r2, r1, calls := Rq(4, true, None, 0), Rq(8, true, None, 0), TwoReads();
    var start := Init(k, 0);
    var a := Add(k, start, 2, 0, r2, 0, false);
    var b := Add(k, a, 1, 8, r1, 0, false);
    OneAdded(k, r2);
    TwoAdded(k, a, r1);
    TidyMore(k, start, [], calls[0]);
    OneMore(k, start, [], calls[0]);
    TidyMore(k, start, [] + [calls[0]], calls[1]);
    OneMore(k, start, [] + [calls[0]], calls[1]);
    assert [] + [calls[0]] + [calls[1]] == calls;
    Pair(b.rd.tree);
    assert !Tidy(b.rd.tree, b.sector, 1, 0);
    UntidyStays(k, 0, calls, b, 1, 0, 16, 0);
  }

  lemma Pair(l: seq<nat>)
    requires |l| == 2 && 1 in l && 2 in l
    ensures forall x :: x in l <==> x == 1 || x == 2
  {
  }
}
