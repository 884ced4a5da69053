/** struct as_data of block/as-iosched.c, updated in place and proved against the functions of Anticipatory. */
module AsDatas {
  import opened Lists
  import opened NextCache
  import opened Anticipatory
  import opened AnticipatoryInv
  import opened AnticipatoryTheorems

  class AsData {
    var rq: map<nat, Rq>
    var sector: map<nat, nat>
    var rd: Lane
    var wr: Lane
    var batch: Batch
    var antic: Antic
    var nr: nat
    ghost var flight: set<nat>
    ghost var sent: seq<nat>
    ghost var bug: bool

    ghost function View(): As
      reads this
    {
      As(rq, sector, rd, wr, batch, antic, nr, flight, sent, bug)
    }

    function LaneAt(sync: bool): Lane
      reads this`rd, this`wr
    {
      if sync then rd else wr
    }

    /** as_init_queue. */
    constructor (k: Tunables, now: int)
      ensures View() == Init(k, now)
    {
      rq, sector := map[], map[];
      rd, wr := Lane([], [], None, 0, 0), Lane([], [], None, 0, 0);
      var count := k.batchAsync / 10;
      if count < 2 {
        count := 2;
      }
      batch := Batch(true, false, false, now + k.batchSync, 0, count, false);
      antic := Antic(Off, 0, None, false);
      nr, flight, sent, bug := 0, {}, [], false;
    }

    static lemma MoveIs(a: As, id: nat, r: Rq, l: Lane, end: nat, m: Lane, t: Antic, left: int, z: As)
      requires r == At(a.rq, id) && l == LaneOf(a, r.sync) && end == SectorOf(a.sector, id) + r.nr
      requires m == Lane(Without(l.tree, id), Without(l.fifo, id), FindNext(l.tree, id, Chooser(a.sector, end)), end,
                         l.check)
      requires t == AfterMove(a.antic, r)
      requires left == if !r.sync && a.batch.left != 0 then a.batch.left - 1 else a.batch.left
      requires z == As(a.rq, a.sector, if r.sync then m else a.rd, if r.sync then a.wr else m, a.batch.(left := left),
                       t,
        a.nr + 1, a.flight + {id}, a.sent + [id], a.bug || id !in l.tree)
      ensures z == Move(a, id)
    {
    }

    /** The fields a move changes: the request's lane, whom to wait for, the write count and the books. */
    method Store(sync: bool, m: Lane, t: Antic, left: int, id: nat, ghost bad: bool)
      modifies this
      ensures View() == var a := old(View());
        As(a.rq, a.sector, if sync then m else a.rd, if sync then a.wr else m, a.batch.(left := left), t,
          a.nr + 1, a.flight + {id}, a.sent + [id], a.bug || bad)
    {
      antic, batch := t, batch.(left := left);
      if sync { rd := m; } else { wr := m; }
      nr, flight, sent, bug := nr + 1, flight + {id}, sent + [id], bug || bad;
    }

    method MoveToDispatch(id: nat)
      modifies this
      ensures View() == Move(old(View()), id)
    {
      ghost var a := View();
      var r := At(rq, id);
      var l := LaneAt(r.sync);
      var end := SectorOf(sector, id) + r.nr;
      var ioc := if !r.sync then None else if r.ioc.Some? then r.ioc else antic.ioc;
      var t := Antic(Off, antic.start, ioc, false);
      var left := if !r.sync && batch.left != 0 then batch.left - 1 else batch.left;
      var next := FindNext(l.tree, id, Chooser(sector, end));
      var m := Lane(Without(l.tree, id), Without(l.fifo, id), next, end, l.check);
      Store(r.sync, m, t, left, id, id !in l.tree);
      MoveIs(a, id, r, l, end, m, t, left, View());
    }

    /** as_add_rq_rb: what already has the sector is dispatched, then the request goes in. */
    method AddRqRb(id: nat)
      requires forall x :: x in LaneAt(At(rq, id).sync).tree ==> At(rq, x).sync == At(rq, id).sync
      modifies this
      ensures View() == AddRb(old(View()), id)
    {
      var sync, s := At(rq, id).sync, SectorOf(sector, id);
      ghost var goal := Clear(View(), sync, s);
      var alias := Alias(sector, LaneAt(sync).tree, s);
      while alias.Some?
        invariant rq == old(rq) && sector == old(sector)
        invariant Clear(View(), sync, s) == goal && alias == Alias(sector, LaneAt(sync).tree, s)
        invariant forall x :: x in LaneAt(sync).tree ==> At(rq, x).sync == sync
        decreases |LaneAt(sync).tree|
      {
        ghost var a := View();
        ghost var l := LaneAt(sync);
        WithoutIndex(l.tree, alias.id);
        MoveShape(a, alias.id, sync);
        Members(l.tree, alias.id);
        MoveToDispatch(alias.id);
        antic := AnticStop(antic);
        assert View() == Move(a, alias.id);
        alias := Alias(sector, LaneAt(sync).tree, s);
      }
      var l := LaneAt(sync);
      l := l.(tree := Linked(sector, l.tree, id));
      if sync { rd := l; } else { wr := l; }
    }

    method SetLane(sync: bool, l: Lane)
      modifies this`rd, this`wr
      ensures View() == PutLane(old(View()), sync, l)
    {
      if sync { rd := l; } else { wr := l; }
    }

    /** as_add_request. */
    method AddRequest(k: Tunables, id: nat, s: nat, r: Rq, now: int, brk: bool)
      requires Base(View()) && id !in rq
      modifies this
      ensures View() == Add(k, old(View()), id, s, r, now, brk)
    {
      ghost var a := View();
      KnownOk(k, a, id, s, r, now);
      rq := rq[id := r.(due := now + FifoExpire(k, r.sync))];
      sector := sector[id := s];
      assert View() == Known(k, a, id, s, r, now);
      AddRqRb(id);
      var l := LaneAt(r.sync);
      SetLane(r.sync, l.(fifo := l.fifo + [id], next := Pick(Some(id), l.next, Chooser(sector, l.last))));
      Notice(id, brk);
    }

    /** as_update_rq's second half. */
    method Notice(id: nat, brk: bool)
      modifies this`antic, this`bug
      ensures View() == Noticed(old(View()), id, brk)
    {
      if antic.status == WaitReq || antic.status == WaitNext {
        bug := bug || antic.ioc.None?;
        if CanBreak(antic, rq, Some(id), brk) { antic := antic.(status := Finished); }
      }
    }

    /** as_merged_request after a front merge. */
    method MergedFront(id: nat, s: nat, n: nat)
      requires Base(View()) && Holds(View(), id)
      modifies this
      ensures View() == FrontMerged(old(View()), id, s, n)
    {
      ghost var a := View();
      var r := At(rq, id);
      PulledOk(a, id, s, n, r.sync);
      var l := LaneAt(r.sync);
      SetLane(r.sync, l.(tree := Without(l.tree, id)));
      sector, rq := sector[id := s], rq[id := r.(nr := n)];
      assert View() == Pulled(a, id, s, n);
      AddRqRb(id);
    }

    /** as_merged_requests. */
    method MergedRequests(req: nat, next: nat)
      modifies this`rq, this`rd, this`wr
      ensures View() == Merged(old(View()), req, next)
    {
      var r, n := At(rq, req), At(rq, next);
      var l := LaneAt(n.sync);
      var fifo := Without(l.fifo, next);
      var due := r.due;
      if n.due < r.due {
        fifo, due := TakePlace(l.fifo, req, next), n.due;
      }
      var cached := if l.next == Some(next) then FindNext(l.tree, next, Chooser(sector, l.last)) else l.next;
      SetLane(n.sync, l.(tree := Without(l.tree, next), fifo := fifo, next := cached));
      rq := rq[req := r.(nr := r.nr + n.nr, due := due)];
    }

    // -------------------------------------------------------------- dispatching

    /** as_fifo_expired. */
    method CheckFifo(k: Tunables, sync: bool, now: int) returns (expired: bool)
      modifies this`rd, this`wr
      ensures View() == Looked(k, old(View()), sync, now) && expired == FifoExpired(k, old(View()), sync, now)
    {
      var l := LaneAt(sync);
      var delta := now - l.check;
      if delta < 0 { delta := -delta; }
      if delta < FifoExpire(k, sync) { return false; }
      SetLane(sync, l.(check := now));
      if l.fifo == [] { return false; }
      return now > At(rq, l.fifo[0]).due;
    }

    /** The labels dispatch_request and fifo_expired, up to the test of changed_batch. */
    method OldestFirst(k: Tunables, id: nat, now: int) returns (chosen: nat)
      requires id in LaneAt(batch.sync).tree
      modifies this`rd, this`wr
      ensures Expired(k, old(View()), id, now) == Chosen(View(), chosen)
    {
      var sync := batch.sync;
      var expired := CheckFifo(k, sync, now);
      chosen := id;
      if expired { chosen := LaneAt(sync).fifo[0]; }
    }

    method ToReads(k: Tunables, now: int) returns (chosen: nat)
      requires rd.fifo != [] && rd.fifo[0] in rd.tree
      modifies this
      ensures TurnSync(k, old(View()), now) == Chosen(View(), chosen)
    {
      if !batch.sync {
        bug := bug || batch.newly;
        batch := batch.(changed := true);
      }
      batch := batch.(sync := true);
      rd := rd.(check := now);
      chosen := OldestFirst(k, rd.fifo[0], now);
    }

    method ToWrites(k: Tunables, now: int) returns (chosen: nat)
      requires wr.fifo != [] && wr.fifo[0] in wr.tree
      modifies this
      ensures TurnAsync(k, old(View()), now) == Chosen(View(), chosen)
    {
      bug := bug || wr.tree == [];
      if batch.sync {
        batch := batch.(changed := true, newly := false);
      }
      batch := batch.(sync := false, left := batch.count, idled := false);
      wr := wr.(check := now);
      chosen := OldestFirst(k, wr.fifo[0], now);
    }

    /** Reads and writes take turns when no batch is running. */
    method NextDirection(k: Tunables, now: int) returns (chosen: nat)
      requires Base(View()) && (rd.fifo != [] || wr.fifo != [])
      modifies this
      ensures NewDirection(k, old(View()), now) == Chosen(View(), chosen)
    {
      if rd.fifo != [] { FirstHeld(rq, rd, true); }
      if wr.fifo != [] { FirstHeld(rq, wr, false); }
      var hasReads, hasWrites := rd.fifo != [], wr.fifo != [];
      if hasReads {
        bug := bug || rd.tree == [];
      }
      if hasReads && !(hasWrites && batch.sync) {
        chosen := ToReads(k, now);
      } else {
        chosen := ToWrites(k, now);
      }
    }

    /** The batch goes on with its next request, or another one begins. */
    method Continue(k: Tunables, now: int) returns (chosen: nat)
      requires Base(View()) && (rd.fifo != [] || wr.fifo != [])
      modifies this
      ensures GoOn(k, old(View()), now) == Chosen(View(), chosen)
    {
      var next := LaneAt(batch.sync).next;
      if next.Some? {
        Flip(View(), batch.sync);
        if rd.fifo != [] && wr.fifo == [] {
          batch := batch.(expires := now + k.batchSync);
        }
        chosen := OldestFirst(k, next.id, now);
      } else {
        chosen := NextDirection(k, now);
      }
    }

    /** as_antic_waitreq. */
    method WaitRequest()
      modifies this`antic, this`bug
      ensures View() == StartWait(old(View()))
    {
      bug := bug || antic.status == Finished;
      if antic.status == Off {
        antic := antic.(status := if antic.ioc.None? || antic.done then WaitNext else WaitReq);
      }
    }

    /** The part of as_dispatch_request that picks a request, or decides to wait for a better one. */
    method PickRequest(k: Tunables, now: int, brk: bool) returns (some: bool, chosen: nat)
      requires Base(View()) && (rd.fifo != [] || wr.fifo != [])
      modifies this
      ensures var c := Select(k, old(View()), now, brk);
        View() == c.a && some == c.Chosen? && (some ==> chosen == c.id)
    {
      ghost var a := View();
      chosen := 0;
      if rd.fifo != [] && wr.fifo != [] && BatchExpired(batch, now) {
        chosen := NextDirection(k, now);
        return true, chosen;
      }
      if batch.sync && k.anticExpire != 0 {
        var expired := CheckFifo(k, true, now);
        if expired { return true, rd.fifo[0]; }
        if CanAnticipate(As(rq, sector, rd, wr, batch, antic, nr, {}, [], false), rd.next, brk) {
          WaitRequest();
          return false, 0;
        }
        SameBase(a, View());
      }
      chosen := Continue(k, now);
      return true, chosen;
    }

    /** The end of as_dispatch_request; returns how many requests were moved. */
    method FinishDispatch(k: Tunables, id: nat, now: int) returns (n: nat)
      modifies this
      ensures View() == Finish(k, old(View()), id, now) && |sent| == |old(sent)| + n
    {
      BeginBatch(k, now);
      if batch.changed { return 0; }
      MoveToDispatch(id);
      return 1;
    }

    /** What as_dispatch_request does about changed_batch before it moves a request. */
    method BeginBatch(k: Tunables, now: int)
      modifies this`batch, this`bug
      ensures View() == Begun(k, old(View()), now)
    {
      if batch.changed {
        bug := bug || batch.newly;
        if nr == 0 {
          batch := if batch.sync then batch.(changed := false, newly := true)
                   else batch.(changed := false, expires := now + k.batchAsync);
        }
      }
    }

    /** as_dispatch_request, not forced. */
    method DispatchRequest(k: Tunables, now: int, brk: bool) returns (n: nat)
      requires Base(View())
      modifies this
      ensures View() == Dispatch(k, old(View()), now, brk) && |sent| == |old(sent)| + n
    {
      ghost var a := View();
      if !batch.sync && rd.fifo == [] && (batch.left == 0 || wr.fifo == []) {
        batch := batch.(idled := true);
      }
      ghost var b := View();
      assert b == Marked(a);
      SameBase(a, b);
      DispatchShape(k, a, now, brk);
      if (rd.fifo == [] && wr.fifo == []) || antic.status == WaitReq || antic.status == WaitNext || batch.changed {
        return 0;
      }
      SelectGood(k, b, now, brk);
      var some, id := PickRequest(k, now, brk);
      if !some { return 0; }
      n := FinishDispatch(k, id, now);
    }

    /** One loop of a forced dispatch. */
    method DrainLane(sync: bool) returns (n: nat)
      requires Base(View())
      modifies this
      ensures View() == Drain(old(View()), sync) && |sent| == |old(sent)| + n
    {
      ghost var goal := Drain(View(), sync);
      n := 0;
      while LaneAt(sync).next.Some?
        invariant Base(View()) && Drain(View(), sync) == goal && |sent| == |old(sent)| + n
        decreases |LaneAt(sync).tree|
      {
        var id := LaneAt(sync).next.id;
        DrainRound(View(), sync, id, Move(View(), id));
        MoveToDispatch(id);
        n := n + 1;
      }
    }

    /** as_dispatch_request, forced. */
    method ForceDispatch(now: int) returns (n: nat)
      requires Base(View())
      modifies this
      ensures View() == Force(old(View()), now) && |sent| == |old(sent)| + n
    {
      ghost var a := View();
      batch := batch.(sync := true, changed := false, newly := false);
      ghost var a1 := View();
      SameBase(a, a1);
      DrainOk(a1, true);
      n := DrainLane(true);
      ghost var b := View();
      rd := rd.(check := now);
      SameBase(b, View());
      var m := DrainLane(false);
      wr := wr.(check := now);
      n := n + m;
    }

    // -------------------------------------------------------------- completion

    /** update_write_batch. */
    method UpdateWriteBatch(k: Tunables, b: Batch, now: int) returns (count: int)
      ensures count == WriteCount(k, b, now)
    {
      var time := now - b.expires + k.batchAsync;
      if time < 0 { time := 0; }
      count := b.count;
      if time > k.batchAsync && !b.idled {
        if time > k.batchAsync * 3 {
          count := if count >= 0 then count / 2 else -((-count) / 2);
        } else {
          count := count - 1;
        }
      } else if time < k.batchAsync && b.left == 0 {
        if k.batchAsync > time * 3 { count := count * 2; } else { count := count + 1; }
      }
      if count < 1 { count := 1; }
    }

    /** The batch at a completion: the old one may be over, and the time of the new one begins. */
    method CompleteBatch(k: Tunables, sync: bool, now: int)
      modifies this`batch
      ensures batch == BatchDone(k, old(batch), nr, sync, now)
    {
      if batch.changed && nr == 1 {
        batch := batch.(expires := now + BatchExpire(k, batch.sync), changed := false,
                        newly := batch.newly || batch.sync);
      }
      if batch.newly && batch.sync == sync {
        var count := UpdateWriteBatch(k, batch, now);
        batch := batch.(count := count, expires := now + k.batchSync, newly := false);
      }
    }

    /** as_completed_request. */
    method CompletedRequest(k: Tunables, id: nat, now: int)
      modifies this
      ensures View() == Completed(k, old(View()), id, now)
    {
      var r := At(rq, id);
      CompleteBatch(k, r.sync, now);
      bug := bug || nr == 0;
      nr := if nr == 0 then 0 else nr - 1;
      flight := flight - {id};
      if antic.ioc.Some? && antic.ioc == r.ioc {
        antic := antic.(start := now, done := true);
        if antic.status == WaitReq {
          antic := antic.(status := WaitNext);
        }
      }
    }

    /** as_antic_timeout. */
    method AnticTimeout()
      modifies this`antic, this`bug
      ensures View() == Timeout(old(View()))
    {
      if antic.status == WaitReq || antic.status == WaitNext {
        bug := bug || antic.ioc.None?;
        antic := antic.(status := Finished);
      }
    }

    static lemma Members(l: seq<nat>, id: nat)
      ensures forall x :: x in Without(l, id) ==> x in l
    {
      WithoutIndex(l, id);
      var w := Without(l, id);
      forall x | x in w ensures x in l {
        var i := Pos(w, x);
        assert l[Skip(Pos(l, id), i)] == x;
      }
    }
  }
}
