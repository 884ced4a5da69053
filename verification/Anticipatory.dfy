/**
 * The anticipatory I/O scheduler of block/as-iosched.c on values.  Each direction keeps its requests
 * sorted and in a FIFO, with the one to serve next cached; requests go out in batches of one direction,
 * and the scheduler may wait for the process whose read it served last.
 */
module Anticipatory {
  import opened Lists
  import opened NextCache

  /** A request: sectors, direction (rq_is_sync), RQ_IOC, and its expiry time. */
  datatype Rq = Rq(nr: nat, sync: bool, ioc: Opt, due: int)

  /** One direction: sort_list, fifo_list, next_rq, last_sector and last_check_fifo. */
  datatype Lane = Lane(tree: seq<nat>, fifo: seq<nat>, next: Opt, last: nat, check: int)

  datatype Status = Off | WaitReq | WaitNext | Finished

  datatype Tunables = Tunables(fifoSync: nat, fifoAsync: nat, batchSync: nat, batchAsync: nat, anticExpire: nat)

  /** batch_data_dir, changed_batch, new_batch, current_batch_expires and the write counters. */
  datatype Batch = Batch(sync: bool, changed: bool, newly: bool, expires: int, left: int, count: int, idled: bool)

  /** antic_status, antic_start, io_context and ioc_finished. */
  datatype Antic = Antic(status: Status, start: int, ioc: Opt, done: bool)

  /**
   * The scheduler, with `flight` the requests dispatched and not completed, `sent` the order in which
   * they were moved, and `bug` set once a BUG_ON or a WARN_ON of the code would have fired.
   */
  datatype As = As(
    rq: map<nat, Rq>, sector: map<nat, nat>, rd: Lane, wr: Lane, batch: Batch, antic: Antic,
    nr: nat, flight: set<nat>, sent: seq<nat>, bug: bool)

  const MAXBACK: nat := 1024 * 1024

  function At(rq: map<nat, Rq>, id: nat): Rq { if id in rq then rq[id] else Rq(0, false, None, 0) }

  function LaneOf(a: As, sync: bool): Lane { if sync then a.rd else a.wr }

  function PutLane(a: As, sync: bool, l: Lane): (r: As)
    ensures LaneOf(r, sync) == l && LaneOf(r, !sync) == LaneOf(a, !sync)
  {
    if sync then a.(rd := l) else a.(wr := l)
  }

  // ---------------------------------------------------------------- choosing

  /** Too far behind the head to go back for. */
  predicate Wraps(last: nat, s: nat) { s < last && s + MAXBACK < last }

  function Cost(last: nat, s: nat): nat { if s >= last then s - last else (last - s) * 2 }

  /** as_choose_req on the sectors of two requests: whether the first is better. */
  predicate Better(last: nat, s: nat, t: nat) {
    if Wraps(last, s) != Wraps(last, t) then !Wraps(last, s)
    else if Wraps(last, s) then s <= t
    else Cost(last, s) < Cost(last, t) || (Cost(last, s) == Cost(last, t) && s >= t)
  }

  function Chooser(sector: map<nat, nat>, last: nat): (nat, nat) -> bool {
    (x: nat, y: nat) => Better(last, SectorOf(sector, x), SectorOf(sector, y))
  }

  // ---------------------------------------------------------------- moving requests

  predicate Waiting(status: Status) { status == WaitReq || status == WaitNext }

  /** as_antic_stop. */
  function AnticStop(t: Antic): Antic { if Waiting(t.status) then t.(status := Finished) else t }

  /** The lane once a request has left it for the dispatch queue. */
  function Leave(l: Lane, sector: map<nat, nat>, id: nat, end: nat): Lane {
    Lane(Without(l.tree, id), Without(l.fifo, id), FindNext(l.tree, id, Chooser(sector, end)), end, l.check)
  }

  /** Whom to wait for once a request has been served. */
  function AfterMove(t: Antic, r: Rq): Antic {
    Antic(Off, t.start, if !r.sync then None else if r.ioc.Some? then r.ioc else t.ioc, false)
  }

  /** as_move_to_dispatch. */
  function Move(a: As, id: nat): As {
    var r := At(a.rq, id);
    var l := LaneOf(a, r.sync);
    var left := if !r.sync && a.batch.left != 0 then a.batch.left - 1 else a.batch.left;
    PutLane(a, r.sync, Leave(l, a.sector, id, SectorOf(a.sector, id) + r.nr))
    .(antic := AfterMove(a.antic, r), batch := a.batch.(left := left),
      nr := a.nr + 1, flight := a.flight + {id}, sent := a.sent + [id], bug := a.bug || id !in l.tree)
  }

  /** The loop of as_add_rq_rb: what already has the sector is dispatched. */
  function Clear(a: As, sync: bool, s: nat): As
    decreases |LaneOf(a, sync).tree|
  {
    var al := Alias(a.sector, LaneOf(a, sync).tree, s);
    if al.Some? && At(a.rq, al.id).sync == sync then
      WithoutIndex(LaneOf(a, sync).tree, al.id);
      Clear(Move(a, al.id), sync, s)
    else a
  }

  /** as_add_rq_rb. */
  function AddRb(a: As, id: nat): As {
    var sync := At(a.rq, id).sync;
    var c := Clear(a, sync, SectorOf(a.sector, id));
    var l := LaneOf(c, sync);
    PutLane(c, sync, l.(tree := Linked(a.sector, l.tree, id)))
  }

  /**
   * as_can_break_anticipation.  Of its statistics on the process waited for, the model keeps only the
   * verdict, `brk`; the request of that very process always breaks the wait.
   */
  predicate CanBreak(t: Antic, rq: map<nat, Rq>, id: Opt, brk: bool) {
    (id.Some? && t.ioc.Some? && At(rq, id.id).ioc == t.ioc) || brk
  }

  function FifoExpire(k: Tunables, sync: bool): nat { if sync then k.fifoSync else k.fifoAsync }

  function BatchExpire(k: Tunables, sync: bool): nat { if sync then k.batchSync else k.batchAsync }

  /** The request joins the FIFO, and the cache is brought up to date; as_update_rq's first half. */
  function Enlist(l: Lane, sector: map<nat, nat>, id: nat): Lane {
    l.(fifo := l.fifo + [id], next := Pick(Some(id), l.next, Chooser(sector, l.last)))
  }

  /** as_update_rq's second half: the request may be what the scheduler was waiting for. */
  function Noticed(a: As, id: nat, brk: bool): As {
    if Waiting(a.antic.status) then
      a.(bug := a.bug || a.antic.ioc.None?,
         antic := if CanBreak(a.antic, a.rq, Some(id), brk) then AnticStop(a.antic) else a.antic)
    else a
  }

  /** as_add_request. */
  function Add(k: Tunables, a: As, id: nat, s: nat, r: Rq, now: int, brk: bool): As {
    var b := AddRb(a.(rq := a.rq[id := r.(due := now + FifoExpire(k, r.sync))], sector := a.sector[id := s]), id);
    Noticed(PutLane(b, r.sync, Enlist(LaneOf(b, r.sync), b.sector, id)), id, brk)
  }

  /** as_merged_request after a front merge, which has given the request a new first sector. */
  function FrontMerged(a: As, id: nat, s: nat, nr: nat): As {
    var r := At(a.rq, id);
    var l := LaneOf(a, r.sync);
    AddRb(PutLane(a, r.sync, l.(tree := Without(l.tree, id)))
          .(sector := a.sector[id := s], rq := a.rq[id := r.(nr := nr)]), id)
  }

  /** as_remove_queued_request, for a request that has become part of another. */
  function Drop(l: Lane, sector: map<nat, nat>, id: nat): Lane {
    l.(tree := Without(l.tree, id), fifo := Without(l.fifo, id),
       next := NextWithout(l.tree, l.next, id, Chooser(sector, l.last)))
  }

  /** as_merged_requests. */
  function Merged(a: As, req: nat, next: nat): As {
    var r, n := At(a.rq, req), At(a.rq, next);
    var l := LaneOf(a, n.sync);
    var d := Drop(l, a.sector, next);
    var sooner := n.due < r.due;
    PutLane(a, n.sync, if sooner then d.(fifo := TakePlace(l.fifo, req, next)) else d)
    .(rq := a.rq[req := r.(nr := r.nr + n.nr, due := if sooner then n.due else r.due)])
  }

  // ---------------------------------------------------------------- dispatching

  /** as_fifo_expired looks only once per interval; the time of the last look is kept. */
  predicate Looks(k: Tunables, l: Lane, sync: bool, now: int) {
    var delta := now - l.check;
    (if delta < 0 then -delta else delta) >= FifoExpire(k, sync)
  }

  predicate FifoExpired(k: Tunables, a: As, sync: bool, now: int) {
    var l := LaneOf(a, sync);
    Looks(k, l, sync, now) && l.fifo != [] && now > At(a.rq, l.fifo[0]).due
  }

  function Looked(k: Tunables, a: As, sync: bool, now: int): As {
    var l := LaneOf(a, sync);
    if Looks(k, l, sync, now) then PutLane(a, sync, l.(check := now)) else a
  }

  /** as_batch_expired. */
  predicate BatchExpired(b: Batch, now: int) {
    if b.changed || b.newly then false
    else if b.sync then now > b.expires
    else now > b.expires || b.left == 0
  }

  /** as_antic_waitnext. */
  function StartNext(a: As): As {
    a.(bug := a.bug || (a.antic.status != Off && a.antic.status != WaitReq), antic := a.antic.(status := WaitNext))
  }

  /** as_antic_waitreq. */
  function StartWait(a: As): As {
    var b := a.(bug := a.bug || a.antic.status == Finished);
    if a.antic.status != Off then b
    else if a.antic.ioc.None? || a.antic.done then StartNext(b)
    else b.(antic := a.antic.(status := WaitReq))
  }

  /** as_can_anticipate. */
  predicate CanAnticipate(a: As, next: Opt, brk: bool) {
    a.antic.ioc.Some? && a.antic.status != Finished && !CanBreak(a.antic, a.rq, next, brk)
  }

  /** What as_dispatch_request has come to: nothing goes out, or this request if the old batch allows. */
  datatype Choice = Nothing(a: As) | Chosen(a: As, id: nat)

  /** The oldest request, from the label fifo_expired. */
  function Oldest(a: As, sync: bool): Choice {
    var l := LaneOf(a, sync);
    if l.fifo == [] then Nothing(a.(bug := true)) else Chosen(a, l.fifo[0])
  }

  /** The label dispatch_request: an expired request goes first. */
  function Expired(k: Tunables, a: As, id: nat, now: int): Choice {
    var b := Looked(k, a, a.batch.sync, now);
    if FifoExpired(k, a, a.batch.sync, now) then Oldest(b, a.batch.sync) else Chosen(b, id)
  }

  /** The batch turns to reads, or goes on with them. */
  function TurnSync(k: Tunables, a: As, now: int): Choice {
    var turn := !a.batch.sync;
    var b := a.(bug := a.bug || (turn && a.batch.newly),
                batch := a.batch.(sync := true, changed := a.batch.changed || turn), rd := a.rd.(check := now));
    if b.rd.fifo == [] then Nothing(b.(bug := true)) else Expired(k, b, b.rd.fifo[0], now)
  }

  /** The label dispatch_writes: a write batch begins. */
  function TurnAsync(k: Tunables, a: As, now: int): Choice {
    var turn := a.batch.sync;
    var b := a.(bug := a.bug || a.wr.tree == [],
                batch := a.batch.(sync := false, changed := a.batch.changed || turn, newly := a.batch.newly && !turn,
                                  left := a.batch.count, idled := false),
                wr := a.wr.(check := now));
    if b.wr.fifo == [] then Nothing(b.(bug := true)) else Expired(k, b, b.wr.fifo[0], now)
  }

  /** No batch is running: reads and writes take turns. */
  function NewDirection(k: Tunables, a: As, now: int): Choice {
    var hasReads, hasWrites := a.rd.fifo != [], a.wr.fifo != [];
    var b := a.(bug := a.bug || (hasReads && a.rd.tree == []));
    if hasReads && !(hasWrites && a.batch.sync) then TurnSync(k, b, now)
    else if hasWrites then TurnAsync(k, b, now)
    else Nothing(b.(bug := true))
  }

  /** The batch goes on, with its next request if it has one. */
  function GoOn(k: Tunables, a: As, now: int): Choice {
    var hasReads, hasWrites := a.rd.fifo != [], a.wr.fifo != [];
    var next := LaneOf(a, a.batch.sync).next;
    if next.Some? then
      var b := if hasReads && !hasWrites then a.(batch := a.batch.(expires := now + k.batchSync)) else a;
      Expired(k, b, next.id, now)
    else NewDirection(k, a, now)
  }

  function Select(k: Tunables, a: As, now: int, brk: bool): Choice {
    var hasReads, hasWrites := a.rd.fifo != [], a.wr.fifo != [];
    if hasReads && hasWrites && BatchExpired(a.batch, now) then NewDirection(k, a, now)
    else if a.batch.sync && k.anticExpire != 0 then
      var b := Looked(k, a, true, now);
      if FifoExpired(k, a, true, now) then Oldest(b, true)
      else if CanAnticipate(b, b.rd.next, brk) then Nothing(StartWait(b))
      else GoOn(k, b, now)
    else GoOn(k, a, now)
  }

  /** A new batch begins once nothing of the old one is in flight. */
  function Begun(k: Tunables, a: As, now: int): As {
    if !a.batch.changed then a
    else
      var b := a.(bug := a.bug || a.batch.newly);
      if b.nr != 0 then b
      else if b.batch.sync then b.(batch := b.batch.(changed := false, newly := true))
      else b.(batch := b.batch.(changed := false, expires := now + k.batchAsync))
  }

  /** The end of as_dispatch_request: a request of a new batch waits until the old one has drained. */
  function Finish(k: Tunables, a: As, id: nat, now: int): As {
    var b := Begun(k, a, now);
    if b.batch.changed then b else Move(b, id)
  }

  /** as_dispatch_request, not forced. */
  function Dispatch(k: Tunables, a: As, now: int, brk: bool): As {
    var hasReads, hasWrites := a.rd.fifo != [], a.wr.fifo != [];
    var b := if !a.batch.sync && !hasReads && (a.batch.left == 0 || !hasWrites)
      then a.(batch := a.batch.(idled := true)) else a;
    if !(hasReads || hasWrites) || Waiting(b.antic.status) || b.batch.changed then b
    else
      match Select(k, b, now, brk)
      case Nothing(c) => c
      case Chosen(c, id) => Finish(k, c, id, now)
  }

  /** One loop of the forced dispatch: as long as a request is cached. */
  function Drain(a: As, sync: bool): As
    decreases |LaneOf(a, sync).tree|
  {
    var l := LaneOf(a, sync);
    if l.next.Some? && l.next.id in l.tree && At(a.rq, l.next.id).sync == sync then
      WithoutIndex(l.tree, l.next.id);
      Drain(Move(a, l.next.id), sync)
    else a
  }

  /** as_dispatch_request, forced. */
  function Force(a: As, now: int): As {
    var b := Drain(a.(batch := a.batch.(sync := true, changed := false, newly := false)), true);
    var c := Drain(b.(rd := b.rd.(check := now)), false);
    c.(wr := c.wr.(check := now))
  }

  // ---------------------------------------------------------------- completion

  /** The time a write batch took, as update_write_batch reckons it. */
  function Took(k: Tunables, b: Batch, now: int): nat {
    var raw := now - b.expires + k.batchAsync;
    if raw < 0 then 0 else raw
  }

  /** update_write_batch: the count of a write batch follows the time the last one took. */
  function WriteCount(k: Tunables, b: Batch, now: int): (n: int)
    ensures n >= 1
  {
    var time := Took(k, b, now);
    var count :=
      if time > k.batchAsync && !b.idled then
        if time > k.batchAsync * 3 then (if b.count >= 0 then b.count / 2 else -((-b.count) / 2)) else b.count - 1
      else if time < k.batchAsync && b.left == 0 then
        if k.batchAsync > time * 3 then b.count * 2 else b.count + 1
      else b.count;
    if count < 1 then 1 else count
  }

  /**
   * The next write batch is shorter exactly if the last one took longer than its interval without ever
   * running dry, and longer exactly if it used up its count before: by one, or by half or to twice if it
   * took more than three times, or less than a third, of the interval.
   */
  lemma WriteCountFollows(k: Tunables, b: Batch, now: int)
    requires b.count >= 1
    ensures var n := WriteCount(k, b, now);
            && (n < b.count <==> b.count > 1 && now > b.expires && !b.idled)
            && (n > b.count <==> now < b.expires && b.left == 0 && k.batchAsync > 0)
            && (n < b.count ==> n == if now - b.expires > 2 * k.batchAsync then b.count / 2 else b.count - 1)
            && (n > b.count ==>
                  n == if 3 * (b.expires - now) > 2 * k.batchAsync then 2 * b.count else b.count + 1)
  {
    if b.count > 1 {
      assert b.count / 2 < b.count && b.count / 2 >= 1;
    }
  }

  /** The batch at a completion: the old one may be over, and the time of the new one begins. */
  function BatchDone(k: Tunables, b: Batch, nr: nat, sync: bool, now: int): Batch {
    var c := if b.changed && nr == 1
             then b.(expires := now + BatchExpire(k, b.sync), changed := false, newly := b.sync || b.newly) else b;
    if c.newly && c.sync == sync
    then c.(count := WriteCount(k, c, now), expires := now + k.batchSync, newly := false) else c
  }

  /** as_completed_request. */
  function Completed(k: Tunables, a: As, id: nat, now: int): As {
    var r := At(a.rq, id);
    var b := a.(bug := a.bug || a.nr == 0, batch := BatchDone(k, a.batch, a.nr, r.sync, now),
                nr := if a.nr == 0 then 0 else a.nr - 1, flight := a.flight - {id});
    if a.antic.ioc.Some? && a.antic.ioc == r.ioc then
      var c := b.(antic := b.antic.(start := now, done := true));
      if c.antic.status == WaitReq then StartNext(c) else c
    else b
  }

  /** as_antic_timeout. */
  function Timeout(a: As): As {
    if Waiting(a.antic.status)
    then a.(bug := a.bug || a.antic.ioc.None?, antic := a.antic.(status := Finished)) else a
  }

  /** as_init_queue: what is not set there is zero. */
  function Init(k: Tunables, now: int): As {
    var none := Lane([], [], None, 0, 0);
    var count := if k.batchAsync / 10 < 2 then 2 else k.batchAsync / 10;
    As(map[], map[], none, none, Batch(true, false, false, now + k.batchSync, 0, count, false),
       Antic(Off, 0, None, false), 0, {}, [], false)
  }

  /** A first write batch has a tenth of its interval in requests, and two at least. */
  lemma FirstCount(k: Tunables, now: int)
    ensures var n := Init(k, now).batch.count;
            n >= 2 && (k.batchAsync >= 20 ==> 10 * n <= k.batchAsync < 10 * (n + 1)) && (k.batchAsync < 20 ==> n == 2)
  {
  }

  // ---------------------------------------------------------------- runs

  datatype Op =
    | OpAdd(id: nat, s: nat, r: Rq, brk: bool)
    | OpFront(id: nat, s: nat, nr: nat)
    | OpMerge(req: nat, next: nat)
    | OpTurn(brk: bool)
    | OpForce
    | OpComplete(id: nat)
    | OpTimeout

  function Apply(k: Tunables, a: As, op: Op, now: int): As {
    match op
    case OpAdd(id, s, r, brk) => Add(k, a, id, s, r, now, brk)
    case OpFront(id, s, nr) => FrontMerged(a, id, s, nr)
    case OpMerge(req, next) => Merged(a, req, next)
    case OpTurn(brk) => Dispatch(k, a, now, brk)
    case OpForce => Force(a, now)
    case OpComplete(id) => Completed(k, a, id, now)
    case OpTimeout => Timeout(a)
  }

  predicate Holds(a: As, id: nat) { id in a.rq && id in LaneOf(a, a.rq[id].sync).tree }

  predicate Enabled(a: As, op: Op) {
    match op
    case OpAdd(id, s, r, brk) => id !in a.rq
    case OpFront(id, s, nr) => Holds(a, id)
    case OpMerge(req, next) => Holds(a, req) && Holds(a, next) && req != next && a.rq[req].sync == a.rq[next].sync
    case OpTurn(brk) => true
    case OpForce => true
    case OpComplete(id) => id in a.flight
    case OpTimeout => true
  }

  /** A call with the value of jiffies it sees. */
  datatype Call = Call(op: Op, now: int)

  function After(k: Tunables, a: As, calls: seq<Call>): As
    decreases |calls|
  {
    if calls == [] then a
    else
      var c := calls[|calls| - 1];
      Apply(k, After(k, a, calls[..|calls| - 1]), c.op, c.now)
  }

  predicate IsRun(k: Tunables, a: As, calls: seq<Call>)
    decreases |calls|
  {
    calls == [] ||
    (IsRun(k, a, calls[..|calls| - 1]) && Enabled(After(k, a, calls[..|calls| - 1]), calls[|calls| - 1].op))
  }
}
