/**
 * Request allocation of block/blk-core.c and the replacement of a queue's elevator in
 * block/elevator.c, interleaved: allocation drops the queue lock halfway, and the elevator may be
 * switched at any lock release.  A step is what happens under one hold of the lock.
 */
module RequestPool {

  // ---------------------------------------------------------------- one direction

  /** The accounting of one direction. */
  datatype Side = Side(count: nat, starved: bool, full: bool, congested: bool)

  /** blk_queue_congestion_threshold. */
  function OnThreshold(nr: nat): nat { var n := nr - nr / 8 + 1; if n > nr then nr else n }

  function OffThreshold(nr: nat): nat {
    var n: int := nr - nr / 8 - nr / 16 - 1;
    if n < 1 then 1 else n
  }

  /** The largest number of requests a direction may have. */
  function Ceiling(nr: nat): nat { 3 * nr / 2 }

  datatype MayQueue = No | May | Must

  /** get_request up to the allocation: the accounting after it, and whether a request was reserved. */
  function Reserve(nr: nat, s: Side, may: MayQueue, batching: bool): (Side, bool) {
    if may == No then (s.(starved := s.starved || s.count == 0), false)
    else
      var fills := s.count + 1 >= OnThreshold(nr) && s.count + 1 >= nr;
      if fills && s.full && may != Must && !batching then (s, false)
      else
        var s1 := if s.count + 1 >= OnThreshold(nr) then s.(congested := true, full := s.full || fills) else s;
        if s1.count >= Ceiling(nr) then (s1, false)
        else (s1.(count := s1.count + 1, starved := false), true)
  }

  /** __freed_request. */
  function Recheck(nr: nat, s: Side): Side {
    var s1 := if s.count < OffThreshold(nr) then s.(congested := false) else s;
    if s1.count + 1 <= nr then s1.(full := false) else s1
  }

  /** What holds of a direction at every lock release. */
  predicate SideOk(nr: nat, s: Side) {
    && s.count <= Ceiling(nr)
    && (s.full <==> s.count >= nr)
    && (s.congested ==> s.count >= OffThreshold(nr))
    && (!s.congested ==> s.count < OnThreshold(nr))
  }

  /**
   * The thresholds: a direction is congested from about seven eighths of the limit up and until it is
   * back at about thirteen sixteenths, so that the flag does not flicker.
   */
  lemma Hysteresis(nr: nat)
    requires nr >= 4
    ensures 1 <= OffThreshold(nr) < OnThreshold(nr) <= nr
    ensures 7 * nr <= 8 * OnThreshold(nr) && (if nr < 8 then OnThreshold(nr) == nr
                                              else 8 * OnThreshold(nr) < 7 * nr + 16)
    ensures 13 * nr <= 16 * (OffThreshold(nr) + 1) < 13 * nr + 32
  {
  }

  /**
   * Exactly when a reservation is made: the scheduler does not refuse, the direction is below the limit
   * or the scheduler insists or the process may finish its batch, and half over the limit is not reached.
   */
  lemma ReservesExactly(nr: nat, s: Side, may: MayQueue, batching: bool)
    requires SideOk(nr, s)
    ensures var r := Reserve(nr, s, may, batching);
      && (r.1 <==> may != No && 2 * (s.count + 1) <= 3 * nr && (s.count < nr || may == Must || batching))
      && (may == No && s.count == 0 ==> r.0.starved) && (r.1 ==> !r.0.starved)
  {
  }

  lemma ReserveOk(nr: nat, s: Side, may: MayQueue, batching: bool)
    requires nr >= 4 && SideOk(nr, s)
    ensures var r := Reserve(nr, s, may, batching);
            SideOk(nr, r.0) && r.0.count == (if r.1 then s.count + 1 else s.count)
  {
  }

  lemma RecheckOk(nr: nat, s: Side)
    requires nr >= 4 && SideOk(nr, s)
    ensures SideOk(nr, Recheck(nr, s)) && Recheck(nr, s).count == s.count
    ensures s.count > 0 ==> SideOk(nr, Recheck(nr, s.(count := s.count - 1)))
  {
  }

  // ---------------------------------------------------------------- the queue

  /** A reservation: the direction, and whether scheduler-private data was promised. */
  datatype Ticket = Ticket(write: bool, priv: bool)

  /** A request from the pool; `owner` is the elevator whose private data it holds. */
  datatype Rq = Rq(write: bool, priv: bool, owner: nat, sorted: bool)

  datatype Switch = Idle | Draining(next: nat) | Attached(prior: nat)

  datatype Queue = Queue(
    nr: nat, rd: Side, wr: Side, elvpriv: nat, nrSorted: nat,
    bypass: bool,             // QUEUE_FLAG_ELVSWITCH
    elevator: nat, switch: Switch,
    tickets: map<nat, Ticket>, live: map<nat, Rq>)

  function SideOf(q: Queue, write: bool): Side { if write then q.wr else q.rd }

  function PutSide(q: Queue, write: bool, s: Side): Queue { if write then q.(wr := s) else q.(rd := s) }

  /** freed_request. */
  function Freed(q: Queue, write: bool, priv: bool): Queue {
    var s, o := SideOf(q, write), SideOf(q, !write);
    var s' := Recheck(q.nr, s.(count := if s.count > 0 then s.count - 1 else 0));
    var o' := if o.starved then Recheck(q.nr, o) else o;
    q.(rd := if write then o' else s', wr := if write then s' else o',
       elvpriv := if priv && q.elvpriv > 0 then q.elvpriv - 1 else q.elvpriv)
  }

  /** elv_drain_elevator: the sorted requests go to the dispatch queue, but for those the scheduler keeps back. */
  function Drained(q: Queue, kept: set<nat>): Queue {
    var live := Unsorted(q.live, kept);
    q.(nrSorted := |Sorted(live)|, live := live)
  }

  function Unsorted(live: map<nat, Rq>, kept: set<nat>): map<nat, Rq> {
    map id | id in live :: live[id].(sorted := live[id].sorted && id in kept)
  }

  function Sorted(live: map<nat, Rq>): set<nat> { set x | x in live && live[x].sorted }

  datatype Op =
    | Get(tid: nat, write: bool, may: MayQueue, batching: bool)
    | Allocated(tid: nat, id: nat)
    | AllocFailed(tid: nat)
    | Insert(id: nat)
    | Dispatch(id: nat)
    | Put(id: nat)
    | SwitchStart(next: nat, kept: set<nat>)
    | SwitchPoll(kept: set<nat>)
    | SwitchAttach
    | SwitchEnd(registered: bool)

  predicate Enabled(q: Queue, op: Op) {
    match op
    case Get(tid, _, _, _) => tid !in q.tickets
    case Allocated(tid, id) => tid in q.tickets && id !in q.live
    case AllocFailed(tid) => tid in q.tickets
    case Insert(id) => id in q.live && !q.live[id].sorted
    case Dispatch(id) => id in q.live && q.live[id].sorted
    case Put(id) => id in q.live && !q.live[id].sorted
    case SwitchStart(_, _) => q.switch.Idle?
    case SwitchPoll(_) => q.switch.Draining?
    case SwitchAttach => q.switch.Draining? && q.elvpriv == 0
    case SwitchEnd(_) => q.switch.Attached?
  }

  function Apply(q: Queue, op: Op): Queue {
    match op
    case Get(tid, write, may, batching) =>
      var r := Reserve(q.nr, SideOf(q, write), may, batching);
      var q1 := PutSide(q, write, r.0);
      if !r.1 then q1
      else q1.(tickets := q.tickets[tid := Ticket(write, !q.bypass)], elvpriv := q.elvpriv + if q.bypass then 0 else 1)
    case Allocated(tid, id) =>
      if tid !in q.tickets then q
      else
        var t := q.tickets[tid];
        q.(tickets := q.tickets - {tid}, live := q.live[id := Rq(t.write, t.priv, q.elevator, false)])
    case AllocFailed(tid) =>
      if tid !in q.tickets then q
      else
        var t := q.tickets[tid];
        var q1 := Freed(q, t.write, t.priv);
        var s := SideOf(q1, t.write);
        PutSide(q1, t.write, s.(starved := s.starved || s.count == 0)).(tickets := q.tickets - {tid})
    case Insert(id) =>
      // without private data a request bypasses the elevator
      if id in q.live && q.live[id].priv
      then q.(live := q.live[id := q.live[id].(sorted := true)], nrSorted := q.nrSorted + 1) else q
    case Dispatch(id) =>
      if id in q.live
      then q.(live := q.live[id := q.live[id].(sorted := false)], nrSorted := if q.nrSorted > 0 then q.nrSorted - 1
              else 0)
      else q
    case Put(id) =>
      if id in q.live then Freed(q, q.live[id].write, q.live[id].priv).(live := q.live - {id}) else q
    case SwitchStart(next, kept) => Drained(q.(bypass := true, switch := Draining(next)), kept)
    case SwitchPoll(kept) => Drained(q, kept)
    case SwitchAttach => if q.switch.Draining? then q.(elevator := q.switch.next, switch := Attached(q.elevator)) else q
    case SwitchEnd(registered) =>
      if q.switch.Attached?
      then q.(elevator := if registered then q.elevator else q.switch.prior, bypass := false, switch := Idle) else q
  }

  function Init(nr: nat, elevator: nat): Queue {
    var s := Side(0, false, false, false);
    Queue(nr, s, s, 0, 0, false, elevator, Idle, map[], map[])
  }

  predicate IsRun(q: Queue, ops: seq<Op>, r: Queue)
    decreases |ops|
  {
    if ops == [] then r == q
    else Enabled(q, ops[0]) && IsRun(Apply(q, ops[0]), ops[1..], r)
  }

  // ---------------------------------------------------------------- the invariant

  /** Threads with a reservation, and requests, of one direction. */
  function Reserved(tickets: map<nat, Ticket>, write: bool): set<nat> {
    set x | x in tickets && tickets[x].write == write
  }

  function Live(live: map<nat, Rq>, write: bool): set<nat> { set x | x in live && live[x].write == write }

  function PrivTickets(tickets: map<nat, Ticket>): set<nat> { set x | x in tickets && tickets[x].priv }

  function PrivLive(live: map<nat, Rq>): set<nat> { set x | x in live && live[x].priv }

  predicate CountsOk(q: Queue) {
    && q.rd.count == |Reserved(q.tickets, false)| + |Live(q.live, false)|
    && q.wr.count == |Reserved(q.tickets, true)| + |Live(q.live, true)|
    && q.elvpriv == |PrivTickets(q.tickets)| + |PrivLive(q.live)|
    && q.nrSorted == |Sorted(q.live)|
  }

  /** What holds private data holds it from the attached elevator, and only such requests are sorted. */
  predicate OwnersOk(q: Queue) {
    && (forall x :: x in q.live && q.live[x].priv ==> q.live[x].owner == q.elevator)
    && (forall x :: x in q.live && q.live[x].sorted ==> q.live[x].priv)
  }

  /** While the new elevator is on trial nothing has private data, and the flag stays up. */
  predicate SwitchOk(q: Queue) {
    && (q.bypass <==> !q.switch.Idle?)
    && (q.switch.Attached? ==> q.elvpriv == 0)
  }

  predicate Inv(q: Queue) {
    q.nr >= 4 && SideOk(q.nr, q.rd) && SideOk(q.nr, q.wr) && CountsOk(q) && OwnersOk(q) && SwitchOk(q)
  }

  // ---------------------------------------------------------------- counting

  lemma TicketAdded(m: map<nat, Ticket>, x: nat, t: Ticket, write: bool)
    requires x !in m
    ensures |Reserved(m[x := t], write)| == |Reserved(m, write)| + if t.write == write then 1 else 0
    ensures |PrivTickets(m[x := t])| == |PrivTickets(m)| + if t.priv then 1 else 0
  {
    TicketGone(m[x := t], x, write);
    assert m[x := t] - {x} == m;
  }

  lemma TicketGone(m: map<nat, Ticket>, x: nat, write: bool)
    requires x in m
    ensures |Reserved(m - {x}, write)| == |Reserved(m, write)| - if m[x].write == write then 1 else 0
    ensures |PrivTickets(m - {x})| == |PrivTickets(m)| - if m[x].priv then 1 else 0
  {
    assert Reserved(m - {x}, write) == Reserved(m, write) - {x};
    assert PrivTickets(m - {x}) == PrivTickets(m) - {x};
  }

  lemma LiveAdded(m: map<nat, Rq>, x: nat, r: Rq, write: bool)
    requires x !in m && !r.sorted
    ensures |Live(m[x := r], write)| == |Live(m, write)| + if r.write == write then 1 else 0
    ensures |PrivLive(m[x := r])| == |PrivLive(m)| + if r.priv then 1 else 0
    ensures |Sorted(m[x := r])| == |Sorted(m)|
  {
    LiveGone(m[x := r], x, write);
    assert m[x := r] - {x} == m;
  }

  lemma LiveGone(m: map<nat, Rq>, x: nat, write: bool)
    requires x in m && !m[x].sorted
    ensures |Live(m - {x}, write)| == |Live(m, write)| - if m[x].write == write then 1 else 0
    ensures |PrivLive(m - {x})| == |PrivLive(m)| - if m[x].priv then 1 else 0
    ensures |Sorted(m - {x})| == |Sorted(m)|
  {
    assert Live(m - {x}, write) == Live(m, write) - {x};
    assert PrivLive(m - {x}) == PrivLive(m) - {x};
    assert Sorted(m - {x}) == Sorted(m);
  }

  lemma LiveSorted(m: map<nat, Rq>, x: nat, sorted: bool, write: bool)
    requires x in m && m[x].sorted != sorted
    ensures Live(m[x := m[x].(sorted := sorted)], write) == Live(m, write)
    ensures PrivLive(m[x := m[x].(sorted := sorted)]) == PrivLive(m)
    ensures |Sorted(m[x := m[x].(sorted := sorted)])| == |Sorted(m)| + if sorted then 1 else -1
  {
    var m' := m[x := m[x].(sorted := sorted)];
    assert Sorted(m') == if sorted then Sorted(m) + {x} else Sorted(m) - {x};
  }

  lemma SameLive(m: map<nat, Rq>, kept: set<nat>, write: bool)
    ensures var m' := Unsorted(m, kept);
            Live(m', write) == Live(m, write) && PrivLive(m') == PrivLive(m) && Sorted(m') == Sorted(m) * kept
  {
  }

  // ---------------------------------------------------------------- each step keeps it

  lemma GetInv(q: Queue, tid: nat, write: bool, may: MayQueue, batching: bool)
    requires Inv(q) && Enabled(q, Get(tid, write, may, batching))
    ensures Inv(Apply(q, Get(tid, write, may, batching)))
  {
    ReserveOk(q.nr, SideOf(q, write), may, batching);
    var t := Ticket(write, !q.bypass);
    TicketAdded(q.tickets, tid, t, write);
    TicketAdded(q.tickets, tid, t, !write);
  }

  /** The sides and the counter after freed_request. */
  lemma FreedSides(q: Queue, write: bool, priv: bool)
    requires q.nr >= 4 && SideOk(q.nr, q.rd) && SideOk(q.nr, q.wr) && SideOf(q, write).count > 0
    ensures var r := Freed(q, write, priv);
            && SideOk(q.nr, r.rd) && SideOk(q.nr, r.wr)
            && SideOf(r, write).count == SideOf(q, write).count - 1 &&
               SideOf(r, !write).count == SideOf(q, !write).count
            && r.(rd := q.rd, wr := q.wr, elvpriv := q.elvpriv) == q
            && r.elvpriv == if priv && q.elvpriv > 0 then q.elvpriv - 1 else q.elvpriv
  {
    RecheckOk(q.nr, SideOf(q, write));
    RecheckOk(q.nr, SideOf(q, !write));
  }

  lemma AllocatedInv(q: Queue, tid: nat, id: nat)
    requires Inv(q) && Enabled(q, Allocated(tid, id))
    ensures Inv(Apply(q, Allocated(tid, id)))
  {
    var t := q.tickets[tid];
    var r := Rq(t.write, t.priv, q.elevator, false);
    TicketGone(q.tickets, tid, true);
    TicketGone(q.tickets, tid, false);
    LiveAdded(q.live, id, r, true);
    LiveAdded(q.live, id, r, false);
  }

  function GivenBack(q: Queue, tid: nat): Queue
    requires tid in q.tickets
  {
    Freed(q, q.tickets[tid].write, q.tickets[tid].priv).(tickets := q.tickets - {tid})
  }

  function MarkStarved(q: Queue, write: bool): Queue {
    var s := SideOf(q, write);
    PutSide(q, write, s.(starved := s.starved || s.count == 0))
  }

  lemma FailedShape(q: Queue, tid: nat)
    requires tid in q.tickets
    ensures Apply(q, AllocFailed(tid)) == MarkStarved(GivenBack(q, tid), q.tickets[tid].write)
  {
  }

  lemma GivenBackInv(q: Queue, tid: nat)
    requires Inv(q) && tid in q.tickets
    ensures Inv(GivenBack(q, tid))
  {
    var t := q.tickets[tid];
    assert tid in Reserved(q.tickets, t.write) && (t.priv ==> tid in PrivTickets(q.tickets));
    FreedSides(q, t.write, t.priv);
    ReturnedInv(q, tid, GivenBack(q, tid));
  }

  lemma AllocFailedInv(q: Queue, tid: nat)
    requires Inv(q) && Enabled(q, AllocFailed(tid))
    ensures Inv(Apply(q, AllocFailed(tid)))
  {
    FailedShape(q, tid);
    GivenBackInv(q, tid);
    StarvedInv(GivenBack(q, tid), q.tickets[tid].write);
  }

  /** A reservation is given back. */
  lemma ReturnedInv(q: Queue, tid: nat, r: Queue)
    requires Inv(q) && tid in q.tickets && SideOk(q.nr, r.rd) && SideOk(q.nr, r.wr)
    requires r == q.(rd := r.rd, wr := r.wr, elvpriv := r.elvpriv, tickets := q.tickets - {tid})
    requires r.rd.count == q.rd.count - (if q.tickets[tid].write then 0 else 1)
    requires r.wr.count == q.wr.count - (if q.tickets[tid].write then 1 else 0)
    requires r.elvpriv == q.elvpriv - (if q.tickets[tid].priv then 1 else 0)
    ensures Inv(r)
  {
    TicketGone(q.tickets, tid, true);
    TicketGone(q.tickets, tid, false);
  }

  lemma StarvedInv(q: Queue, write: bool)
    requires Inv(q)
    ensures Inv(MarkStarved(q, write))
  {
  }

  lemma PutInv(q: Queue, id: nat)
    requires Inv(q) && Enabled(q, Put(id))
    ensures Inv(Apply(q, Put(id)))
  {
    var r := q.live[id];
    LiveGone(q.live, id, true);
    LiveGone(q.live, id, false);
    assert id in Live(q.live, r.write) && (r.priv ==> id in PrivLive(q.live));
    FreedSides(q, r.write, r.priv);
  }

  lemma MoveInv(q: Queue, op: Op)
    requires Inv(q) && Enabled(q, op) && (op.Insert? || op.Dispatch?)
    ensures Inv(Apply(q, op))
  {
    LiveSorted(q.live, op.id, op.Insert?, true);
    LiveSorted(q.live, op.id, op.Insert?, false);
    assert op.Dispatch? ==> op.id in Sorted(q.live);
  }

  lemma DrainedInv(q: Queue, kept: set<nat>)
    requires q.nr >= 4 && SideOk(q.nr, q.rd) && SideOk(q.nr, q.wr) && CountsOk(q) && OwnersOk(q)
    ensures var r := Drained(q, kept);
            SideOk(q.nr, r.rd) && SideOk(q.nr, r.wr) && CountsOk(r) && OwnersOk(r) &&
              Sorted(r.live) == Sorted(q.live) * kept
  {
    SameLive(q.live, kept, true);
    SameLive(q.live, kept, false);
  }

  /** Without promised or held private data no request refers to any elevator. */
  lemma NoOwners(q: Queue)
    requires CountsOk(q) && OwnersOk(q) && q.elvpriv == 0
    ensures forall x :: x in q.live ==> !q.live[x].priv && !q.live[x].sorted
    ensures forall x :: x in q.tickets ==> !q.tickets[x].priv
    ensures q.nrSorted == 0
  {
    assert PrivLive(q.live) == {} && PrivTickets(q.tickets) == {};
    assert forall x :: x in q.live && q.live[x].priv ==> x in PrivLive(q.live);
    assert forall x :: x in q.tickets && q.tickets[x].priv ==> x in PrivTickets(q.tickets);
    assert Sorted(q.live) == {};
  }

  lemma SwitchInv(q: Queue, op: Op)
    requires Inv(q) && Enabled(q, op) && (op.SwitchStart? || op.SwitchPoll? || op.SwitchAttach? || op.SwitchEnd?)
    ensures Inv(Apply(q, op))
  {
    match op
    case SwitchStart(next, kept) => DrainedInv(q.(bypass := true, switch := Draining(next)), kept);
    case SwitchPoll(kept) => DrainedInv(q, kept);
    case SwitchAttach => NoOwners(q);
    case SwitchEnd(registered) => NoOwners(q);
  }

  lemma StepInv(q: Queue, op: Op)
    requires Inv(q) && Enabled(q, op)
    ensures Inv(Apply(q, op))
  {
    match op
    case Get(tid, write, may, batching) => GetInv(q, tid, write, may, batching);
    case Allocated(tid, id) => AllocatedInv(q, tid, id);
    case AllocFailed(tid) => AllocFailedInv(q, tid);
    case Insert(id) => MoveInv(q, op);
    case Dispatch(id) => MoveInv(q, op);
    case Put(id) => PutInv(q, id);
    case _ => SwitchInv(q, op);
  }

  lemma {:induction false} RunInv(q: Queue, ops: seq<Op>, r: Queue)
    requires Inv(q) && IsRun(q, ops, r)
    ensures Inv(r)
    decreases |ops|
  {
    if ops != [] {
      StepInv(q, ops[0]);
      RunInv(Apply(q, ops[0]), ops[1..], r);
    }
  }

  lemma InitInv(nr: nat, elevator: nat)
    requires nr >= 4
    ensures Inv(Init(nr, elevator))
  {
    assert Reserved(map[], true) == {} && Reserved(map[], false) == {} && Live(map[], true) == {} &&
           Live(map[], false) == {};
    assert PrivTickets(map[]) == {} && PrivLive(map[]) == {} && Sorted(map[]) == {};
  }

  // ---------------------------------------------------------------- every run

  /**
   * At every lock release of every run: the count of a direction is its reservations and requests, at
   * most half over the limit; full, congested and not congested mean what they say.
   */
  lemma PoolAccounting(nr: nat, elevator: nat, ops: seq<Op>, q: Queue, write: bool)
    requires nr >= 4 && IsRun(Init(nr, elevator), ops, q)
    ensures var s := SideOf(q, write);
            && s.count == |Reserved(q.tickets, write)| + |Live(q.live, write)| && 2 * s.count <= 3 * q.nr
            && (s.full <==> s.count >= q.nr)
            && (s.congested ==> s.count >= OffThreshold(q.nr)) && (!s.congested ==> s.count < OnThreshold(q.nr))
  {
    InitInv(nr, elevator);
    RunInv(Init(nr, elevator), ops, q);
  }

  /**
   * In every run a thread gets a reservation exactly under the conditions of ReservesExactly: in particular
   * always below the limit if the scheduler agrees.
   */
  lemma Granted(nr: nat, elevator: nat, ops: seq<Op>, q: Queue, tid: nat, write: bool, may: MayQueue, batching: bool)
    requires nr >= 4 && IsRun(Init(nr, elevator), ops, q) && tid !in q.tickets
    ensures var n := |Reserved(q.tickets, write)| + |Live(q.live, write)|;
      tid in Apply(q, Get(tid, write, may, batching)).tickets <==>
      may != No && 2 * (n + 1) <= 3 * q.nr && (n < q.nr || may == Must || batching)
  {
    InitInv(nr, elevator);
    RunInv(Init(nr, elevator), ops, q);
    ReservesExactly(q.nr, SideOf(q, write), may, batching);
  }

  /**
   * However allocations, frees and dispatches interleave with a switch: when the new elevator is
   * attached no request holds or is promised private data of the old one and none is sorted; and in
   * every state private data is that of the attached elevator, also after a failed switch.
   */
  lemma SafeSwitch(nr: nat, elevator: nat, ops: seq<Op>, q: Queue)
    requires nr >= 4 && IsRun(Init(nr, elevator), ops, q)
    ensures q.elvpriv == |PrivTickets(q.tickets)| + |PrivLive(q.live)|
    ensures forall x :: x in q.live && q.live[x].priv ==> q.live[x].owner == q.elevator
    ensures Enabled(q, SwitchAttach) || q.switch.Attached? ==>
              && q.nrSorted == 0 && (forall x :: x in q.live ==> !q.live[x].priv && !q.live[x].sorted)
              && (forall x :: x in q.tickets ==> !q.tickets[x].priv)
  {
    InitInv(nr, elevator);
    RunInv(Init(nr, elevator), ops, q);
    if Enabled(q, SwitchAttach) || q.switch.Attached? {
      NoOwners(q);
    }
  }

  /** No step of a switch. */
  predicate Ordinary(op: Op) { !op.SwitchStart? && !op.SwitchPoll? && !op.SwitchAttach? && !op.SwitchEnd? }

  lemma {:induction false} SwitchWaits(q: Queue, ops: seq<Op>, r: Queue)
    requires IsRun(q, ops, r) && forall i :: 0 <= i < |ops| ==> Ordinary(ops[i])
    ensures r.elevator == q.elevator && r.switch == q.switch && r.bypass == q.bypass
    decreases |ops|
  {
    if ops != [] { SwitchWaits(Apply(q, ops[0]), ops[1..], r); }
  }

  /** A switch ends with the new elevator, or with the old one if the new one could not be registered. */
  lemma SwitchOrBack(q: Queue, ops: seq<Op>, r: Queue, registered: bool)
    requires Enabled(q, SwitchAttach) && IsRun(Apply(q, SwitchAttach), ops, r)
    requires forall i :: 0 <= i < |ops| ==> Ordinary(ops[i])
    ensures Enabled(r, SwitchEnd(registered))
    ensures var z := Apply(r, SwitchEnd(registered));
      z.elevator == (if registered then q.switch.next else q.elevator) && z.switch.Idle? && !z.bypass
  {
    SwitchWaits(Apply(q, SwitchAttach), ops, r);
  }
}
