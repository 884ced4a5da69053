/**
 * The deadline I/O scheduler of block/deadline-iosched.c on values.  Each direction keeps its
 * requests twice, sorted by sector and queued by expiry time; the sorted tree is a sequence here.
 */
module Deadline {
  import opened Lists

  datatype Rq = Rq(sector: nat, write: bool, expiry: int)

  datatype Next = None | Some(id: nat)

  /** One direction: sort_list, fifo_list and next_rq. */
  datatype Lane = Lane(sorted: seq<nat>, fifo: seq<nat>, next: Next)

  /** The settings; writes_starved is an int that the code compares with an unsigned int. */
  datatype Tunables = Tunables(readExpire: nat, writeExpire: nat, fifoBatch: nat, writesStarved: int)

  /** History of an accepted request: the request it now is part of, and the expiry time it was given. */
  datatype Entry = Entry(home: nat, due: int, write: bool)

  /** The scheduler's data, the clock, and history: what went to the dispatch queue, and the entries. */
  datatype Sched = Sched(
    rqs: map<nat, Rq>, rd: Lane, wr: Lane, batching: nat, starved: nat, now: int,
    dispatched: seq<nat>, book: map<nat, Entry>)

  const UNSIGNED: nat := 0x1_0000_0000

  /** An int read as an unsigned int. */
  function Unsigned(n: int): (r: nat)
    ensures r < UNSIGNED && (0 <= n < UNSIGNED ==> r == n)
  {
    n % 0x1_0000_0000
  }

  function At(rqs: map<nat, Rq>, id: nat): Rq {
    if id in rqs then rqs[id] else Rq(0, false, 0)
  }

  function LaneOf(s: Sched, write: bool): Lane { if write then s.wr else s.rd }

  /** Nothing but the lanes and the dispatch queue differs. */
  predicate SameBooks(s: Sched, t: Sched) {
    s.rqs == t.rqs && s.batching == t.batching && s.starved == t.starved && s.now == t.now && s.book == t.book
  }

  function PutLane(s: Sched, write: bool, l: Lane): (r: Sched)
    ensures LaneOf(r, write) == l && LaneOf(r, !write) == LaneOf(s, !write) && SameBooks(r, s)
  {
    if write then s.(wr := l) else s.(rd := l)
  }

  // ---------------------------------------------------------------- lists

  /** deadline_latter_request. */
  function Latter(sorted: seq<nat>, id: nat): Next {
    var p := Pos(sorted, id);
    if p + 1 < |sorted| then Some(sorted[p + 1]) else None
  }

  /** The request that already has this sector, which elv_rb_add finds on its way down. */
  function Alias(rqs: map<nat, Rq>, sorted: seq<nat>, sector: nat): (a: Next)
    ensures a.Some? ==> a.id in sorted && At(rqs, a.id).sector == sector
    ensures a.None? ==> forall x :: x in sorted ==> At(rqs, x).sector != sector
  {
    if sorted == [] then None
    else if At(rqs, sorted[0]).sector == sector then Some(sorted[0])
    else Alias(rqs, sorted[1..], sector)
  }

  /** The place of a sector in the order. */
  function Slot(rqs: map<nat, Rq>, sorted: seq<nat>, sector: nat): (p: nat)
    ensures p <= |sorted|
    ensures forall i :: 0 <= i < p ==> At(rqs, sorted[i]).sector < sector
    ensures p < |sorted| ==> At(rqs, sorted[p]).sector >= sector
  {
    if sorted == [] || At(rqs, sorted[0]).sector >= sector then 0 else 1 + Slot(rqs, sorted[1..], sector)
  }

  // ---------------------------------------------------------------- operations

  /** deadline_del_rq_rb and rq_fifo_clear. */
  function Drop(l: Lane, id: nat): Lane {
    Lane(Without(l.sorted, id), Without(l.fifo, id), if l.next == Some(id) then Latter(l.sorted, id) else l.next)
  }

  /** deadline_move_request. */
  function MoveRequest(s: Sched, id: nat): (r: Sched)
    ensures SameBooks(r, s)
  {
    var write := At(s.rqs, id).write;
    var l := LaneOf(s, write);
    var other := LaneOf(s, !write).(next := None);
    PutLane(PutLane(s, !write, other), write, Drop(l.(next := Latter(l.sorted, id)), id))
    .(dispatched := s.dispatched + [id])
  }

  /** The request that already holds the sector leaves. */
  function Cleared(s: Sched, id: nat): (r: Sched)
    ensures SameBooks(r, s)
  {
    var rq := At(s.rqs, id);
    var a := Alias(s.rqs, LaneOf(s, rq.write).sorted, rq.sector);
    if a.Some? then MoveRequest(s, a.id) else s
  }

  /** deadline_add_rq_rb: an alias is dispatched on the spot, then the request goes in. */
  function AddRb(s: Sched, id: nat): (r: Sched)
    ensures SameBooks(r, s)
  {
    var rq := At(s.rqs, id);
    var s1 := Cleared(s, id);
    var l := LaneOf(s1, rq.write);
    PutLane(s1, rq.write, l.(sorted := Inserted(l.sorted, Slot(s.rqs, l.sorted, rq.sector), id)))
  }

  function Expire(k: Tunables, write: bool): nat { if write then k.writeExpire else k.readExpire }

  /** A request with these fields enters the sector order. */
  function Entered(s: Sched, id: nat, rq: Rq): (r: Sched)
    ensures r.rqs == s.rqs[id := rq] && r.batching == s.batching && r.starved == s.starved && r.now == s.now &&
            r.book == s.book
  {
    AddRb(s.(rqs := s.rqs[id := rq]), id)
  }

  /** list_add_tail on the FIFO. */
  function Enlist(s: Sched, id: nat, write: bool): (r: Sched)
    ensures SameBooks(r, s)
  {
    var l := LaneOf(s, write);
    PutLane(s, write, l.(fifo := l.fifo + [id]))
  }

  /** deadline_add_request. */
  function AddRequest(k: Tunables, s: Sched, id: nat, sector: nat, write: bool): Sched {
    var due := s.now + Expire(k, write);
    Enlist(Entered(s, id, Rq(sector, write, due)), id, write).(book := s.book[id := Entry(id, due, write)])
  }

  /** deadline_merged_request after a front merge, which has given the request a new first sector. */
  function FrontMerged(s: Sched, id: nat, sector: nat): (r: Sched)
    ensures r.now == s.now && r.book == s.book && r.batching == s.batching && r.starved == s.starved
  {
    var rq := At(s.rqs, id).(sector := sector);
    var l := LaneOf(s, rq.write);
    AddRb(PutLane(s, rq.write, l.(sorted := Without(l.sorted, id))).(rqs := s.rqs[id := rq]), id)
  }

  function Redirected(book: map<nat, Entry>, req: nat, next: nat): map<nat, Entry> {
    map x | x in book :: if book[x].home == next then book[x].(home := req) else book[x]
  }

  /** deadline_merged_requests. */
  function MergedRequests(s: Sched, req: nat, next: nat): Sched {
    var r, n := At(s.rqs, req), At(s.rqs, next);
    var l := LaneOf(s, n.write);
    var dropped := Drop(l, next);
    var book := Redirected(s.book, req, next);
    if n.expiry < r.expiry
    then PutLane(s, n.write, dropped.(fifo := TakePlace(l.fifo, req, next)))
         .(rqs := s.rqs[req := r.(expiry := n.expiry)], book := book)
    else PutLane(s, n.write, dropped).(book := book)
  }

  /** The request whose turn it is while a batch lasts. */
  function Batched(s: Sched): Next { if s.wr.next.Some? then s.wr.next else s.rd.next }

  /** Where a new batch in this direction starts. */
  function Choose(s: Sched, write: bool): nat
    requires LaneOf(s, write).fifo != []
  {
    var l := LaneOf(s, write);
    if s.now > At(s.rqs, l.fifo[0]).expiry || l.next.None? then l.fifo[0] else l.next.id
  }

  function NewBatch(s: Sched, write: bool, starved: nat): (r: Sched)
    requires LaneOf(s, write).fifo != []
    ensures r.rqs == s.rqs && r.now == s.now && r.book == s.book && r.batching == 1 && r.starved == starved
  {
    MoveRequest(s, Choose(s, write)).(batching := 1, starved := starved)
  }

  /** deadline_dispatch_requests. */
  function Dispatch(k: Tunables, s: Sched): (r: Sched)
    ensures r.rqs == s.rqs && r.now == s.now && r.book == s.book
  {
    var hasReads, hasWrites := s.rd.fifo != [], s.wr.fifo != [];
    if Batched(s).Some? && s.batching < k.fifoBatch then MoveRequest(s, Batched(s).id).(batching := s.batching + 1)
    else if hasReads && hasWrites then
      if s.starved >= Unsigned(k.writesStarved) then NewBatch(s, true, 0)
      else NewBatch(s, false, Unsigned(s.starved + 1))
    else if hasReads then NewBatch(s, false, s.starved)
    else if hasWrites then NewBatch(s, true, 0)
    else s
  }

  function Init(now: int): Sched {
    var none := Lane([], [], None);
    Sched(map[], none, none, 0, 0, now, [], map[])
  }

  // ---------------------------------------------------------------- runs

  datatype Op =
    | Add(id: nat, sector: nat, write: bool)
    | Front(id: nat, sector: nat)
    | Merge(req: nat, next: nat)
    | Turn                       // one call of the dispatch function
    | Tick(now: int)

  predicate Holds(s: Sched, id: nat) { id in s.rqs && id in LaneOf(s, s.rqs[id].write).fifo }

  /** attempt_merge is called for a request and the one behind it in the sector order. */
  predicate Mergeable(s: Sched, req: nat, next: nat) {
    && Holds(s, req) && Holds(s, next) && req != next && s.rqs[req].write == s.rqs[next].write
    && Latter(LaneOf(s, s.rqs[req].write).sorted, req) == Some(next)
  }

  predicate Enabled(s: Sched, op: Op) {
    match op
    case Add(id, _, _) => id !in s.rqs && id !in s.book
    case Front(id, _) => Holds(s, id)
    case Merge(req, next) => Mergeable(s, req, next)
    case Turn => true
    case Tick(now) => s.now <= now
  }

  function Apply(k: Tunables, s: Sched, op: Op): Sched {
    match op
    case Add(id, sector, write) => AddRequest(k, s, id, sector, write)
    case Front(id, sector) => FrontMerged(s, id, sector)
    case Merge(req, next) => MergedRequests(s, req, next)
    case Turn => Dispatch(k, s)
    case Tick(now) => s.(now := now)
  }

  predicate IsRun(k: Tunables, s: Sched, ops: seq<Op>, t: Sched)
    decreases |ops|
  {
    if ops == [] then t == s
    else Enabled(s, ops[0]) && IsRun(k, Apply(k, s, ops[0]), ops[1..], t)
  }

  /** How often a run calls the dispatch function. */
  function Turns(ops: seq<Op>): nat {
    if ops == [] then 0 else (if ops[0] == Turn then 1 else 0) + Turns(ops[1..])
  }
}
