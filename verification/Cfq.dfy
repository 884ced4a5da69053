/**
 * The CFQ I/O scheduler's books on values (block/cfq-iosched.c): queues of requests, each with its next
 * request cached, and the tree of the queues that have requests, with its first queue cached.  When a
 * queue's turn comes and how long it lasts is left to the caller.
 */
module Cfq {
  import opened Lists
  import opened NextCache

  /** A request: rq_is_sync, rq_is_meta, start_time and RQ_CFQQ. */
  datatype Rq = Rq(sync: bool, meta: bool, start: int, q: nat)

  /** struct cfq_queue: sort_list, fifo, next_rq, queued[1], queued[0], the on_rr flag and dispatched. */
  datatype Queue = Queue(tree: seq<nat>, fifo: seq<nat>, next: Opt, syncs: nat, asyncs: nat, onRr: bool,
                         dispatched: nat)

  /** The scheduling class of a queue: ioprio_class. */
  datatype Class = RealTime | BestEffort | Idle

  /** The service tree in its order, its leftmost cache, busy_queues, and each queue's class and rb_key. */
  datatype Service = Service(order: seq<nat>, left: Opt, busy: nat, classes: map<nat, Class>, key: map<nat, int>)

  /** What is known of the requests, and the settings that the choice of the next request looks at. */
  datatype Facts = Facts(rq: map<nat, Rq>, sector: map<nat, nat>, position: nat, backMax: nat, penalty: nat)

  /** One queue with the service tree, the order of the requests sent, and whether a BUG_ON has fired. */
  datatype One = One(u: Queue, sv: Service, sent: seq<nat>, bug: bool)

  datatype Cfqd = Cfqd(f: Facts, qs: map<nat, Queue>, sv: Service, sent: seq<nat>, bug: bool)

  function At(rq: map<nat, Rq>, id: nat): Rq { if id in rq then rq[id] else Rq(false, false, 0, 0) }

  // ---------------------------------------------------------------- choosing

  predicate Wraps(f: Facts, s: nat) { s < f.position && s + 2 * f.backMax < f.position }

  function Cost(f: Facts, s: nat): nat { if s >= f.position then s - f.position else (f.position - s) * f.penalty }

  /** cfq_choose_req on two requests: whether the first is better. */
  predicate Better(f: Facts, x: nat, y: nat) {
    var a, b, s, t := At(f.rq, x), At(f.rq, y), SectorOf(f.sector, x), SectorOf(f.sector, y);
    if a.sync != b.sync then a.sync
    else if a.meta != b.meta then a.meta
    else if Wraps(f, s) != Wraps(f, t) then !Wraps(f, s)
    else if Wraps(f, s) then s <= t
    else Cost(f, s) < Cost(f, t) || (Cost(f, s) == Cost(f, t) && s >= t)
  }

  function Chooser(f: Facts): (nat, nat) -> bool { (x: nat, y: nat) => Better(f, x, y) }

  // ---------------------------------------------------------------- the service tree

  function ClassOf(sv: Service, q: nat): Class { if q in sv.classes then sv.classes[q] else BestEffort }

  function KeyOf(sv: Service, q: nat): int { if q in sv.key then sv.key[q] else 0 }

  /** The test on the way down the tree: whether a queue of this class and key goes to the left of `q`. */
  predicate Sooner(sv: Service, cls: Class, key: int, q: nat) {
    var other := ClassOf(sv, q);
    if cls.RealTime? != other.RealTime? then cls.RealTime?
    else if cls.Idle? != other.Idle? then other.Idle?
    else key < KeyOf(sv, q)
  }

  /** Where a new entry goes: behind everything it is not sooner than. */
  function Place(sv: Service, order: seq<nat>, cls: Class, key: int): (p: nat)
    ensures p <= |order|
  {
    if order == [] || Sooner(sv, cls, key, order[0]) then 0 else 1 + Place(sv, order[1..], cls, key)
  }

  /** cfq_rb_first. */
  function First(sv: Service): Service {
    if sv.left.None? && sv.order != [] then sv.(left := Some(sv.order[0])) else sv
  }

  /** cfq_rb_erase. */
  function Erase(sv: Service, q: nat): Service {
    sv.(left := if sv.left == Some(q) then None else sv.left, order := Without(sv.order, q))
  }

  /** cfq_service_tree_add with the key it has come to. */
  function ServiceAdd(sv: Service, q: nat, key: int): Service {
    if q in sv.order && key == KeyOf(sv, q) then sv
    else
      var s := if q in sv.order then Erase(sv, q) else sv;
      var p := Place(s, s.order, ClassOf(s, q), key);
      s.(order := Inserted(s.order, p, q), left := if p == 0 then Some(q) else s.left, key := s.key[q := key])
  }

  // ---------------------------------------------------------------- one queue

  /** cfq_add_cfqq_rr. */
  function AddRr(o: One, q: nat, key: int): One {
    o.(bug := o.bug || o.u.onRr, u := o.u.(onRr := true),
       sv := ServiceAdd(o.sv.(busy := o.sv.busy + 1), q, key))
  }

  /** cfq_del_cfqq_rr. */
  function DelRr(o: One, q: nat): One {
    var sv := if q in o.sv.order then Erase(o.sv, q) else o.sv;
    o.(bug := o.bug || !o.u.onRr || sv.busy == 0, u := o.u.(onRr := false),
       sv := sv.(busy := if sv.busy == 0 then 0 else sv.busy - 1))
  }

  function Counted(u: Queue, sync: bool): nat { if sync then u.syncs else u.asyncs }

  function Less(u: Queue, sync: bool): Queue {
    if Counted(u, sync) == 0 then u
    else if sync then u.(syncs := u.syncs - 1) else u.(asyncs := u.asyncs - 1)
  }

  function More(u: Queue, sync: bool): Queue {
    if sync then u.(syncs := u.syncs + 1) else u.(asyncs := u.asyncs + 1)
  }

  /** cfq_del_rq_rb. */
  function DelRqRb(f: Facts, o: One, q: nat, id: nat): One {
    var sync := At(f.rq, id).sync;
    var u := Less(o.u, sync);
    var d := o.(bug := o.bug || Counted(o.u, sync) == 0 || id !in o.u.tree, u := u.(tree := Without(u.tree, id)));
    if d.u.onRr && d.u.tree == [] then DelRr(d, q) else d
  }

  /** cfq_remove_request. */
  function Remove(f: Facts, o: One, q: nat, id: nat): One {
    var u := o.u.(next := NextWithout(o.u.tree, o.u.next, id, Chooser(f)), fifo := Without(o.u.fifo, id));
    DelRqRb(f, o.(u := u), q, id)
  }

  /** cfq_dispatch_insert. */
  function Dispatch(f: Facts, o: One, q: nat, id: nat): One {
    var r := Remove(f, o, q, id);
    r.(u := r.u.(dispatched := r.u.dispatched + 1), sent := r.sent + [id])
  }

  lemma RemoveTree(f: Facts, o: One, q: nat, id: nat)
    ensures Remove(f, o, q, id).u.tree == Without(o.u.tree, id)
    ensures Dispatch(f, o, q, id).u.tree == Without(o.u.tree, id)
    ensures id in o.u.tree ==> |Without(o.u.tree, id)| < |o.u.tree|
  {
    WithoutIndex(o.u.tree, id);
  }

  /** The loop of cfq_add_rq_rb: what already has the sector is dispatched. */
  function Clear(f: Facts, o: One, q: nat, s: nat): One
    decreases |o.u.tree|
  {
    var al := Alias(f.sector, o.u.tree, s);
    if al.Some? then
      RemoveTree(f, o, q, al.id);
      Clear(f, Dispatch(f, o, q, al.id), q, s)
    else o
  }

  /** cfq_add_rq_rb; `key` is the place in the service tree if the queue needs one. */
  function AddRqRb(f: Facts, o: One, q: nat, id: nat, key: int): One {
    var c := Clear(f, o.(u := More(o.u, At(f.rq, id).sync)), q, SectorOf(f.sector, id));
    var l := c.(u := c.u.(tree := Linked(f.sector, c.u.tree, id)));
    var r := if l.u.onRr then l else AddRr(l, q, key);
    r.(u := r.u.(next := Pick(r.u.next, Some(id), Chooser(f))))
  }

  /** cfq_insert_request. */
  function Insert(f: Facts, o: One, q: nat, id: nat, key: int): One {
    var a := AddRqRb(f, o, q, id, key);
    a.(u := a.u.(fifo := a.u.fifo + [id]))
  }

  /** The first half of cfq_reposition_rq_rb. */
  function Pulled(f: Facts, o: One, id: nat): One {
    o.(bug := o.bug || Counted(o.u, At(f.rq, id).sync) == 0,
       u := Less(o.u, At(f.rq, id).sync).(tree := Without(o.u.tree, id)))
  }

  /** cfq_merged_requests. */
  function Merged(f: Facts, o: One, q: nat, req: nat, next: nat): One {
    var r := Remove(f, o, q, next);
    if At(f.rq, next).start < At(f.rq, req).start then r.(u := r.u.(fifo := TakePlace(o.u.fifo, req, next))) else r
  }

  /** __cfq_forced_dispatch_cfqq. */
  function ForceOne(f: Facts, o: One, q: nat): One
    decreases |o.u.tree|
  {
    if o.u.next.Some? && o.u.next.id in o.u.tree then
      RemoveTree(f, o, q, o.u.next.id);
      ForceOne(f, Dispatch(f, o, q, o.u.next.id), q)
    else o
  }

  // ---------------------------------------------------------------- the scheduler

  function Focus(c: Cfqd, q: nat): One
    requires q in c.qs
  {
    One(c.qs[q], c.sv, c.sent, c.bug)
  }

  function Put(c: Cfqd, q: nat, o: One): Cfqd {
    c.(qs := c.qs[q := o.u], sv := o.sv, sent := o.sent, bug := o.bug)
  }

  /** The body of the loop of cfq_forced_dispatch: the first queue is drained. */
  function Round(c: Cfqd): Cfqd {
    if c.sv.left.None? || c.sv.left.id !in c.qs then c
    else
      var q := c.sv.left.id;
      var o := ForceOne(c.f, Focus(c, q), q);
      Put(c, q, o.(bug := o.bug || o.u.fifo != []))
  }

  /** The loop: as long as there is a first queue, for at most `n` rounds. */
  function Loop(c: Cfqd, n: nat, round: Cfqd -> Cfqd): Cfqd
    decreases n
  {
    var d := c.(sv := First(c.sv));
    if n == 0 || d.sv.left.None? then d else Loop(round(d), n - 1, round)
  }

  /** cfq_forced_dispatch. */
  function Force(c: Cfqd): Cfqd { Loop(c, |c.sv.order|, Round) }

  function Init(classes: map<nat, Class>, f: Facts): Cfqd {
    Cfqd(f, map[], Service([], None, 0, classes, map[]), [], false)
  }

  // ---------------------------------------------------------------- runs

  datatype Op =
    | OpQueue(q: nat)
    | OpInsert(id: nat, s: nat, r: Rq, key: int)
    | OpFront(id: nat, s: nat, key: int)
    | OpMerge(req: nat, next: nat)
    | OpDispatch(id: nat)
    | OpResort(q: nat, key: int)
    | OpFirst
    | OpForce
    | OpMoved(position: nat)

  function Apply(c: Cfqd, op: Op): Cfqd {
    match op
    case OpQueue(q) => c.(qs := c.qs[q := Queue([], [], None, 0, 0, false, 0)])
    case OpInsert(id, s, r, key) =>
      var d := c.(f := c.f.(rq := c.f.rq[id := r], sector := c.f.sector[id := s]));
      if r.q in c.qs then Put(d, r.q, Insert(d.f, Focus(d, r.q), r.q, id, key)) else d
    case OpFront(id, s, key) =>
      var d := c.(f := c.f.(sector := c.f.sector[id := s]));
      var q := At(c.f.rq, id).q;
      if q in c.qs then Put(d, q, AddRqRb(d.f, Pulled(d.f, Focus(d, q), id), q, id, key)) else d
    case OpMerge(req, next) =>
      var q := At(c.f.rq, next).q;
      if q in c.qs then Put(c, q, Merged(c.f, Focus(c, q), q, req, next)) else c
    case OpDispatch(id) =>
      var q := At(c.f.rq, id).q;
      if q in c.qs then Put(c, q, Dispatch(c.f, Focus(c, q), q, id)) else c
    case OpResort(q, key) =>
      if q in c.qs && c.qs[q].onRr then c.(sv := ServiceAdd(c.sv, q, key)) else c
    case OpFirst => c.(sv := First(c.sv))
    case OpForce => Force(c)
    case OpMoved(position) => c.(f := c.f.(position := position))
  }

  predicate Holds(c: Cfqd, id: nat) { id in c.f.rq && c.f.rq[id].q in c.qs && id in c.qs[c.f.rq[id].q].tree }

  predicate Enabled(c: Cfqd, op: Op) {
    match op
    case OpQueue(q) => q !in c.qs
    case OpInsert(id, s, r, key) => id !in c.f.rq && r.q in c.qs
    case OpFront(id, s, key) => Holds(c, id)
    case OpMerge(req, next) => Holds(c, req) && Holds(c, next) && req != next && c.f.rq[req].q == c.f.rq[next].q
    case OpDispatch(id) => Holds(c, id)
    case OpResort(q, key) => true
    case OpFirst => true
    case OpForce => true
    case OpMoved(position) => true
  }

  function After(c: Cfqd, ops: seq<Op>): Cfqd
    decreases |ops|
  {
    if ops == [] then c else Apply(After(c, ops[..|ops| - 1]), ops[|ops| - 1])
  }

  predicate IsRun(c: Cfqd, ops: seq<Op>)
    decreases |ops|
  {
    ops == [] || (IsRun(c, ops[..|ops| - 1]) && Enabled(After(c, ops[..|ops| - 1]), ops[|ops| - 1]))
  }
}
