/** The CFQ scheduler over whole runs, and its forced dispatch. */
module CfqTheorems {
  import opened Lists
  import opened NextCache
  import opened Cfq
  import opened CfqInv

  // ---------------------------------------------------------------- the choice

  /** Of two requests at different sectors cfq_choose_req prefers exactly one, whatever the order of its arguments. */
  lemma ChoiceDecides(f: Facts, x: nat, y: nat)
    requires SectorOf(f.sector, x) != SectorOf(f.sector, y)
    ensures Better(f, x, y) <==> !Better(f, y, x)
  {
  }

  /** Its preference is an order, with synchronous requests first and, among equals, metadata first. */
  lemma ChoiceOrders(f: Facts, x: nat, y: nat, z: nat)
    ensures Better(f, x, y) && Better(f, y, z) ==> Better(f, x, z)
    ensures At(f.rq, x).sync && !At(f.rq, y).sync ==> Better(f, x, y) && !Better(f, y, x)
    ensures At(f.rq, x).sync == At(f.rq, y).sync && At(f.rq, x).meta && !At(f.rq, y).meta ==>
            Better(f, x, y) && !Better(f, y, x)
  {
  }

  /**
   * Of two requests alike in that, the nearer one: ahead of the head the first, behind it the last within
   * reach of twice cfq_back_max, out of reach the lowest, and the one behind it only if its distance times
   * the penalty is less than the distance of the one ahead.
   */
  lemma ChoiceNear(f: Facts, x: nat, y: nat, s: nat, t: nat)
    requires At(f.rq, x).sync == At(f.rq, y).sync && At(f.rq, x).meta == At(f.rq, y).meta
    requires s == SectorOf(f.sector, x) && t == SectorOf(f.sector, y)
    ensures f.position <= s < t ==> Better(f, x, y)
    ensures t < s < f.position && s + 2 * f.backMax >= f.position ==> Better(f, x, y)
    ensures s < t < f.position && t + 2 * f.backMax < f.position ==> Better(f, x, y)
    ensures f.position <= s && t + 2 * f.backMax < f.position ==> Better(f, x, y)
    ensures t < f.position <= s && t + 2 * f.backMax >= f.position ==>
      (Better(f, x, y) <==> s - f.position <= (f.position - t) * f.penalty)
  {
    if t < s < f.position {
      MulLess(f.position - s, f.position - t, f.penalty);
    }
  }

  lemma MulLess(a: nat, b: nat, c: nat)
    requires a <= b
    ensures a * c <= b * c
  {
  }

  // ---------------------------------------------------------------- every step

  lemma FocusRests(c: Cfqd, q: nat)
    requires Inv(c) && q in c.qs
    ensures Rests(c.f, Focus(c, q), q)
  {
  }

  /** The requests a scheduler holds are known, each in its own queue. */
  lemma HeldWhere(c: Cfqd, q: nat, x: nat)
    requires Inv(c) && q in c.qs && x in c.qs[q].fifo
    ensures x in c.f.rq && c.f.rq[x].q == q
  {
  }

  lemma HeldOnce(c: Cfqd, p: nat, q: nat, x: nat)
    requires Inv(c) && p in c.qs && q in c.qs && x in c.qs[p].tree && x in c.qs[q].tree
    ensures p == q
  {
    HeldWhere(c, p, x);
    HeldWhere(c, q, x);
  }

  lemma InsertInv(c: Cfqd, id: nat, s: nat, r: Rq, key: int)
    requires Inv(c) && Enabled(c, OpInsert(id, s, r, key))
    ensures Inv(Apply(c, OpInsert(id, s, r, key)))
  {
    var d := c.(f := c.f.(rq := c.f.rq[id := r], sector := c.f.sector[id := s]));
    forall p | p in d.qs ensures AtRest(d.f, d.qs[p], p, d.sv.order) && id !in d.qs[p].fifo {
      FactsFrame(c.f, d.f, c.qs[p], p, c.sv.order, id);
    }
    var o := Insert(d.f, Focus(d, r.q), r.q, id, key);
    InsertOk(d.f, Focus(d, r.q), r.q, id, key, o);
    PutOk(d, r.q, o);
  }

  lemma FrontInv(c: Cfqd, id: nat, s: nat, key: int)
    requires Inv(c) && Enabled(c, OpFront(id, s, key))
    ensures Inv(Apply(c, OpFront(id, s, key)))
  {
    var d := c.(f := c.f.(sector := c.f.sector[id := s]));
    var q := At(c.f.rq, id).q;
    forall p | p in d.qs ensures AtRest(d.f, d.qs[p], p, d.sv.order) {
      SectorFrame(c.f, d.f, c.qs[p], p, c.sv.order);
    }
    var o := AddRqRb(d.f, Pulled(d.f, Focus(d, q), id), q, id, key);
    FrontOk(d.f, Focus(d, q), q, id, key, o);
    PutOk(d, q, o);
  }

  lemma MergeInv(c: Cfqd, req: nat, next: nat)
    requires Inv(c) && Enabled(c, OpMerge(req, next))
    ensures Inv(Apply(c, OpMerge(req, next)))
  {
    var q := At(c.f.rq, next).q;
    var o := Merged(c.f, Focus(c, q), q, req, next);
    MergedOk(c.f, Focus(c, q), q, req, next, o);
    PutOk(c, q, o);
  }

  lemma DispatchInv(c: Cfqd, id: nat)
    requires Inv(c) && Enabled(c, OpDispatch(id))
    ensures Inv(Apply(c, OpDispatch(id)))
  {
    var q := At(c.f.rq, id).q;
    var o := Dispatch(c.f, Focus(c, q), q, id);
    SendOk(c.f, Focus(c, q), q, id, o);
    PutOk(c, q, o);
  }

  lemma ResortInv(c: Cfqd, q: nat, key: int)
    requires Inv(c)
    ensures Inv(Apply(c, OpResort(q, key)))
  {
    if q in c.qs && c.qs[q].onRr {
      ResortOk(c.sv, q, key);
      var s := ServiceAdd(c.sv, q, key);
      forall p | p in c.qs ensures AtRest(c.f, c.qs[p], p, s.order) {
        assert p in s.order <==> p in c.sv.order;
      }
    }
  }

  lemma QueueInv(c: Cfqd, q: nat)
    requires Inv(c) && q !in c.qs
    ensures Inv(Apply(c, OpQueue(q)))
  {
    var u := Queue([], [], None, 0, 0, false, 0);
    assert q !in c.sv.order;
    assert Kind(c.f.rq, [], {}, true) == {} && Kind(c.f.rq, [], {}, false) == {};
    assert AtRest(c.f, u, q, c.sv.order);
  }

  lemma MovedInv(c: Cfqd, position: nat)
    requires Inv(c)
    ensures Inv(Apply(c, OpMoved(position)))
  {
    var d := c.(f := c.f.(position := position));
    forall p | p in d.qs ensures AtRest(d.f, d.qs[p], p, d.sv.order) {
      SectorFrame(c.f, d.f, c.qs[p], p, c.sv.order);
    }
  }

  // ---------------------------------------------------------------- forced dispatch

  lemma EmptyFifo(f: Facts, u: Queue, q: nat, order: seq<nat>)
    requires AtRest(f, u, q, order)
    ensures u.tree == [] ==> u.fifo == [] && q !in order
  {
    if u.fifo != [] {
      assert u.fifo[0] in u.fifo;
      NonEmpty(u.tree, u.fifo[0]);
    }
  }

  lemma WithoutAbsent(l: seq<nat>, x: nat)
    requires x !in l
    ensures Without(l, x) == l
  {
  }

  lemma ForceStep(f: Facts, o: One, q: nat, id: nat, d: One)
    requires Rests(f, o, q) && o.u.next == Some(id) && d == Dispatch(f, o, q, id)
    ensures id in o.u.tree && ForceOne(f, o, q) == ForceOne(f, d, q)
  {
  }

  /** __cfq_forced_dispatch_cfqq sends all requests of a queue, each once, and takes the queue off the service tree. */
  lemma {:induction false} ForceOneOk(f: Facts, o: One, q: nat, z: One) returns (moved: seq<nat>)
    requires Rests(f, o, q) && z == ForceOne(f, o, q)
    ensures Rests(f, z, q) && OthersStay(o.sv, z.sv, q) && z.u.tree == [] && z.u.fifo == []
    ensures z.sv.order == Without(o.sv.order, q)
    ensures z.sent == o.sent + moved && OnceEach(moved, o.u.tree)
    decreases |o.u.tree|
  {
    if o.u.next.Some? {
      var id := o.u.next.id;
      var d := Dispatch(f, o, q, id);
      ForceStep(f, o, q, id, d);
      SendOk(f, o, q, id, d);
      var m := ForceOneOk(f, d, q, z);
      OnceMore(m, o.u.tree, id);
      CatAssoc(o.sent, [id], m);
      moved := [id] + m;
      WithoutTwice(o.sv.order, q);
      OthersTwice(o.sv, d.sv, z.sv, q);
    } else {
      EmptyFifo(f, o.u, q, o.sv.order);
      WithoutAbsent(o.sv.order, q);
      moved := [];
    }
  }

  lemma WithoutTwice(l: seq<nat>, x: nat)
    requires Distinct(l)
    ensures Without(Without(l, x), x) == Without(l, x)
  {
    WithoutAt(l, x);
    WithoutAbsent(Without(l, x), x);
  }

  lemma OthersTwice(a: Service, b: Service, c: Service, q: nat)
    requires OthersStay(a, b, q) && OthersStay(b, c, q)
    ensures OthersStay(a, c, q)
  {
  }

  /** The requests the queues hold. */
  function Held(qs: map<nat, Queue>): set<nat> { set q, x | q in qs && x in qs[q].tree :: x }

  /** `moved` are the requests the scheduler holds, each once. */
  ghost predicate AllOnce(moved: seq<nat>, held: set<nat>) {
    Distinct(moved) && forall x :: x in moved <==> x in held
  }

  /** `m` has been taken out of `held`, each member once, and `rest` is left. */
  ghost predicate Split(m: seq<nat>, held: set<nat>, rest: set<nat>) {
    Distinct(m) && (forall x :: x in held <==> x in m || x in rest) && forall x :: x in m ==> x !in rest
  }

  lemma SplitThen(m: seq<nat>, held: set<nat>, rest: set<nat>, r: seq<nat>)
    requires Split(m, held, rest) && AllOnce(r, rest)
    ensures AllOnce(m + r, held)
  {
    CatDistinct(m, r);
  }

  lemma HeldIs(qs: map<nat, Queue>, x: nat)
    ensures x in Held(qs) <==> exists q :: q in qs && x in qs[q].tree
  {
  }

  /** One queue is drained: what is left is what the others hold. */
  lemma OneDrained(was: map<nat, Queue>, q: nat, u: Queue, m: seq<nat>, qs: map<nat, Queue>)
    requires q in was && u.tree == [] && qs == was[q := u] && OnceEach(m, was[q].tree)
    requires forall p, x :: p in was && x in was[p].tree && x in was[q].tree ==> p == q
    ensures Split(m, Held(was), Held(qs))
  {
    forall x ensures x in Held(was) <==> x in m || x in Held(qs) {
      HeldIs(was, x);
      HeldIs(qs, x);
      if x in Held(was) && x !in m {
        var p :| p in was && x in was[p].tree;
        assert x in qs[p].tree;
      }
    }
    forall x | x in m ensures x !in Held(qs) {
      HeldIs(qs, x);
    }
  }

  lemma CatDistinct(a: seq<nat>, b: seq<nat>)
    requires Distinct(a) && Distinct(b) && forall x :: x in a ==> x !in b
    ensures Distinct(a + b)
  {
    var l := a + b;
    forall i, j | 0 <= i < j < |l| ensures l[i] != l[j] {
      assert l[i] in (if i < |a| then a else b);
      assert l[j] in (if j < |a| then a else b);
      if i >= |a| { assert l[i] == b[i - |a|] && l[j] == b[j - |a|]; }
    }
  }

  lemma NoneLeft(c: Cfqd)
    requires Inv(c) && c.sv.order == []
    ensures AllOnce([], Held(c.qs)) && forall q :: q in c.qs ==> c.qs[q].tree == [] && c.qs[q].fifo == []
  {
    forall q | q in c.qs ensures c.qs[q].tree == [] && c.qs[q].fifo == [] {
      EmptyFifo(c.f, c.qs[q], q, c.sv.order);
    }
  }

  /** What a round has done: the first queue is off the service tree, and its requests `m` are sent. */
  ghost predicate RoundDone(c: Cfqd, e: Cfqd, m: seq<nat>) {
    && Inv(e) && |e.sv.order| < |c.sv.order|
    && e.sent == c.sent + m && Split(m, Held(c.qs), Held(e.qs))
  }

  lemma RoundOk(c: Cfqd) returns (m: seq<nat>)
    requires Inv(c) && c.sv.left.Some?
    ensures RoundDone(c, Round(c), m)
  {
    var q := c.sv.left.id;
    assert q == c.sv.order[0] && q in c.sv.order;
    var o := ForceOne(c.f, Focus(c, q), q);
    m := ForceOneOk(c.f, Focus(c, q), q, o);
    PutOk(c, q, o);
    WithoutAt(c.sv.order, q);
    assert Round(c) == Put(c, q, o);
    forall p, x | p in c.qs && x in c.qs[p].tree && x in c.qs[q].tree ensures p == q {
      HeldOnce(c, p, q, x);
    }
    OneDrained(c.qs, q, o.u, m, c.qs[q := o.u]);
  }

  ghost predicate IsRound(round: Cfqd -> Cfqd) {
    forall c :: Inv(c) && c.sv.left.Some? ==> exists m :: RoundDone(c, round(c), m)
  }

  lemma FirstInv(c: Cfqd)
    requires Inv(c)
    ensures Inv(c.(sv := First(c.sv)))
    ensures c.sv.order == [] ==> First(c.sv).left.None? && AllOnce([], Held(c.qs))
    ensures c.sv.order != [] ==> First(c.sv).left.Some?
  {
    FirstOk(c.sv);
    if c.sv.order == [] { NoneLeft(c); }
  }

  /** Nothing is held any more in `z`, and what was held in `c` has been sent in this order. */
  ghost predicate Drained(c: Cfqd, z: Cfqd, moved: seq<nat>) {
    Inv(z) && z.sv.order == [] && z.sent == c.sent + moved && AllOnce(moved, Held(c.qs))
  }

  lemma Chained(c: Cfqd, d: Cfqd, e: Cfqd, m: seq<nat>, z: Cfqd, r: seq<nat>)
    requires d.sent == c.sent && d.qs == c.qs && RoundDone(d, e, m) && Drained(e, z, r)
    ensures Drained(c, z, m + r)
  {
    SplitThen(m, Held(c.qs), Held(e.qs), r);
    CatAssoc(c.sent, m, r);
  }

  lemma LoopEnds(c: Cfqd, n: nat, round: Cfqd -> Cfqd)
    requires Inv(c) && c.sv.order == []
    ensures Drained(c, Loop(c, n, round), [])
  {
    FirstInv(c);
  }

  /** The loop ends with nothing held and everything sent, each once, whatever a round does to get that far. */
  lemma {:induction false} LoopOk(c: Cfqd, n: nat, round: Cfqd -> Cfqd) returns (moved: seq<nat>)
    requires Inv(c) && |c.sv.order| <= n && IsRound(round)
    ensures Drained(c, Loop(c, n, round), moved)
    decreases n
  {
    if c.sv.order == [] {
      LoopEnds(c, n, round);
      moved := [];
    } else {
      FirstInv(c);
      var d := c.(sv := First(c.sv));
      var e := round(d);
      var m :| RoundDone(d, e, m);
      var r := LoopOk(e, n - 1, round);
      Chained(c, d, e, m, Loop(e, n - 1, round), r);
      moved := m + r;
    }
  }

  lemma ForceOk(c: Cfqd) returns (moved: seq<nat>)
    requires Inv(c)
    ensures Drained(c, Force(c), moved)
  {
    forall d | Inv(d) && d.sv.left.Some? ensures exists m :: RoundDone(d, Round(d), m) {
      var m := RoundOk(d);
    }
    moved := LoopOk(c, |c.sv.order|, Round);
  }

  // ---------------------------------------------------------------- runs

  lemma StepInv(c: Cfqd, op: Op)
    requires Inv(c) && Enabled(c, op)
    ensures Inv(Apply(c, op))
  {
    match op
    case OpQueue(q) => QueueInv(c, q);
    case OpInsert(id, s, r, key) => InsertInv(c, id, s, r, key);
    case OpFront(id, s, key) => FrontInv(c, id, s, key);
    case OpMerge(req, next) => MergeInv(c, req, next);
    case OpDispatch(id) => DispatchInv(c, id);
    case OpResort(q, key) => ResortInv(c, q, key);
    case OpFirst => FirstOk(c.sv);
    case OpForce => { var _ := ForceOk(c); }
    case OpMoved(position) => MovedInv(c, position);
  }

  lemma {:induction false} RunInv(classes: map<nat, Class>, f: Facts, ops: seq<Op>)
    requires IsRun(Init(classes, f), ops)
    ensures Inv(After(Init(classes, f), ops))
    decreases |ops|
  {
    if ops != [] {
      RunInv(classes, f, ops[..|ops| - 1]);
      StepInv(After(Init(classes, f), ops[..|ops| - 1]), ops[|ops| - 1]);
    }
  }

  /**
   * In every run, for every queue: the cached next request is missing exactly when the queue is empty
   * and is one of its requests otherwise, the FIFO and the tree hold the same requests, queued[] counts
   * them, and the queue is in the service tree exactly when it has requests.
   */
  lemma QueueBooks(classes: map<nat, Class>, f: Facts, ops: seq<Op>, c: Cfqd, q: nat)
    requires IsRun(Init(classes, f), ops) && c == After(Init(classes, f), ops) && q in c.qs
    ensures var u := c.qs[q];
      && (u.next.None? <==> u.tree == []) && (u.next.Some? ==> u.next.id in u.tree)
      && (forall x :: x in u.fifo <==> x in u.tree)
      && (q in c.sv.order <==> u.tree != []) && (u.onRr <==> u.tree != [])
      && u.syncs == |Kind(c.f.rq, u.tree, {}, true)| && u.asyncs == |Kind(c.f.rq, u.tree, {}, false)|
  {
    RunInv(classes, f, ops);
    assert AtRest(c.f, c.qs[q], q, c.sv.order);
  }

  /**
   * The order of service in every run, of any two queues in the tree: behind one that is not real time
   * there is none that is, behind an idle one only idle ones, and of one class the smaller key is first.
   */
  lemma ServedInOrder(classes: map<nat, Class>, f: Facts, ops: seq<Op>, c: Cfqd, i: nat, j: nat)
    requires IsRun(Init(classes, f), ops) && c == After(Init(classes, f), ops) && i < j < |c.sv.order|
    ensures var x, y := c.sv.order[i], c.sv.order[j];
      && (ClassOf(c.sv, y) == RealTime ==> ClassOf(c.sv, x) == RealTime)
      && (ClassOf(c.sv, x) == Idle ==> ClassOf(c.sv, y) == Idle)
      && (ClassOf(c.sv, x) == ClassOf(c.sv, y) ==> KeyOf(c.sv, x) <= KeyOf(c.sv, y))
  {
    RunInv(classes, f, ops);
    assert Behind(c.sv, c.sv.order[i], c.sv.order[j]);
  }

  /**
   * In every run the leftmost cache is empty or holds the first queue, and cfq_rb_first gives a queue
   * exactly when the tree has one: real time if any queue is, idle only if all are, and of the least key
   * in its class.  busy_queues counts the tree, and no BUG_ON of the modelled code fires.
   */
  lemma LeftmostTrue(classes: map<nat, Class>, f: Facts, ops: seq<Op>, c: Cfqd, q: nat)
    requires IsRun(Init(classes, f), ops) && c == After(Init(classes, f), ops)
    ensures c.sv.left.Some? ==> c.sv.order != [] && c.sv.left.id == c.sv.order[0]
    ensures First(c.sv).left.None? <==> c.sv.order == []
    ensures q in c.sv.order ==>
      var x := First(c.sv).left.id;
      && x in c.sv.order && (ClassOf(c.sv, q) == RealTime ==> ClassOf(c.sv, x) == RealTime)
      && (ClassOf(c.sv, x) == Idle ==> ClassOf(c.sv, q) == Idle)
      && (ClassOf(c.sv, x) == ClassOf(c.sv, q) ==> KeyOf(c.sv, x) <= KeyOf(c.sv, q))
    ensures c.sv.busy == |c.sv.order| && Distinct(c.sv.order) && !c.bug
  {
    RunInv(classes, f, ops);
    if q in c.sv.order {
      var i := Pos(c.sv.order, q);
      if i > 0 { ServedInOrder(classes, f, ops, c, 0, i); }
    }
  }

  /**
   * cfq_service_tree_add in every run, of a queue in the tree: it gets the key, the others keep theirs and
   * their order, and if the key is new what is behind the queue in its class has a greater one.
   */
  lemma ResortPlaces(classes: map<nat, Class>, f: Facts, ops: seq<Op>, c: Cfqd, q: nat, key: int, x: nat, z: Service)
    requires IsRun(Init(classes, f), ops) && c == After(Init(classes, f), ops) && q in c.sv.order
    requires q in c.qs && c.qs[q].onRr && z == Apply(c, OpResort(q, key)).sv
    ensures q in z.order && KeyOf(z, q) == key && Without(z.order, q) == Without(c.sv.order, q)
    ensures ClassOf(z, x) == ClassOf(c.sv, x) && (x != q ==> KeyOf(z, x) == KeyOf(c.sv, x))
    ensures key != KeyOf(c.sv, q) ==> AheadOf(z, q, key)
  {
    RunInv(classes, f, ops);
    ResortAdds(c, q, key);
    ServicePlaces(c.sv, q, key, x, z);
  }

  lemma ResortAdds(c: Cfqd, q: nat, key: int)
    requires q in c.qs && c.qs[q].onRr
    ensures Apply(c, OpResort(q, key)).sv == ServiceAdd(c.sv, q, key)
  {
  }

  /** What is behind the queue in its class has a greater key. */
  ghost predicate AheadOf(z: Service, q: nat, key: int) {
    forall i :: Pos(z.order, q) < i < |z.order| && ClassOf(z, z.order[i]) == ClassOf(z, q) ==>
                  KeyOf(z, z.order[i]) > key
  }

  lemma ServicePlaces(sv: Service, q: nat, key: int, x: nat, z: Service)
    requires ServiceOk(sv) && q in sv.order && z == ServiceAdd(sv, q, key)
    ensures q in z.order && KeyOf(z, q) == key && Without(z.order, q) == Without(sv.order, q)
    ensures ClassOf(z, x) == ClassOf(sv, x) && (x != q ==> KeyOf(z, x) == KeyOf(sv, x))
    ensures key != KeyOf(sv, q) ==> AheadOf(z, q, key)
  {
    if key != KeyOf(sv, q) {
      Resorted(sv, q, key, z);
    }
  }

  lemma Resorted(sv: Service, q: nat, key: int, z: Service)
    requires ServiceOk(sv) && q in sv.order && key != KeyOf(sv, q) && z == ServiceAdd(sv, q, key)
    ensures q in z.order && KeyOf(z, q) == key && z.classes == sv.classes && z.key == sv.key[q := key]
    ensures Without(z.order, q) == Without(sv.order, q) && AheadOf(z, q, key)
  {
    EraseOk(sv, q);
    PlacedBack(Erase(sv, q), q, key, z);
  }

  lemma PlacedBack(e: Service, q: nat, key: int, z: Service)
    requires q !in e.order && forall i, j :: 0 <= i < j < |e.order| ==> Behind(e, e.order[i], e.order[j])
    requires z.order == Inserted(e.order, Place(e, e.order, ClassOf(e, q), key), q)
    requires z.classes == e.classes && z.key == e.key[q := key]
    ensures q in z.order && Without(z.order, q) == e.order && AheadOf(z, q, key)
  {
    var p := Place(e, e.order, ClassOf(e, q), key);
    PlaceOk(e, e.order, ClassOf(e, q), key);
    InsertedBack(e.order, p, q, z.order);
    PlacedAhead(e, q, key, p, z);
  }

  lemma PlacedAhead(e: Service, q: nat, key: int, p: nat, z: Service)
    requires p <= |e.order| && forall i :: p <= i < |e.order| ==> Sooner(e, ClassOf(e, q), key, e.order[i])
    requires q !in e.order && z.order == Inserted(e.order, p, q) && Pos(z.order, q) == p
    requires z.classes == e.classes && z.key == e.key[q := key]
    ensures AheadOf(z, q, key)
  {
    forall i | p < i < |z.order| && ClassOf(z, z.order[i]) == ClassOf(z, q) ensures KeyOf(z, z.order[i]) > key {
      assert z.order[i] == e.order[i - 1];
    }
  }

  lemma InsertedPos(l: seq<nat>, p: nat, q: nat, r: seq<nat>)
    requires p <= |l| && q !in l && |r| == |l| + 1 && r[p] == q && forall i :: 0 <= i < p ==> r[i] == l[i]
    ensures Pos(r, q) == p
  {
    PosFirst(r, p);
  }

  lemma InsertedParts(l: seq<nat>, p: nat, q: nat)
    requires p <= |l|
    ensures var r := Inserted(l, p, q); r[..p] + r[p + 1..] == l
  {
  }

  lemma InsertedBack(l: seq<nat>, p: nat, q: nat, r: seq<nat>)
    requires p <= |l| && q !in l && r == Inserted(l, p, q)
    ensures Pos(r, q) == p && q in r && Without(r, q) == l
  {
    InsertedParts(l, p, q);
    InsertedPos(l, p, q, r);
  }

  lemma {:induction false} PosFirst(l: seq<nat>, p: nat)
    requires p < |l|
    ensures Pos(l, l[p]) <= p
  {
    if p > 0 && l[0] != l[p] { PosFirst(l[1..], p - 1); }
  }

  /**
   * The FIFO after a merge, in every run: the request that took in the other has the place of the one that
   * was allocated earlier, and all others keep their order.
   */
  lemma MergedFifo(classes: map<nat, Class>, f: Facts, ops: seq<Op>, c: Cfqd, req: nat, next: nat)
    requires IsRun(Init(classes, f), ops) && c == After(Init(classes, f), ops) && Enabled(c, OpMerge(req, next))
    ensures var q := c.f.rq[req].q;
      var fifo, z := c.qs[q].fifo, Apply(c, OpMerge(req, next)).qs[q].fifo;
      var rest := Without(fifo, req);
      && req in z && Without(z, req) == Without(rest, next)
      && (c.f.rq[next].start < c.f.rq[req].start ==> Pos(z, req) == Pos(rest, next))
      && (c.f.rq[next].start >= c.f.rq[req].start ==> z == Without(fifo, next))
  {
    RunInv(classes, f, ops);
    var q := c.f.rq[req].q;
    assert AtRest(c.f, c.qs[q], q, c.sv.order);
    var fifo := c.qs[q].fifo;
    assert req in fifo && next in fifo;
    MergedFifoIs(c.f, Focus(c, q), q, req, next);
    TakenPlace(fifo, req, next);
    WithoutSwap(fifo, req, next);
    WithoutAt(fifo, next);
  }

  lemma MergedFifoIs(f: Facts, o: One, q: nat, req: nat, next: nat)
    ensures Merged(f, o, q, req, next).u.fifo ==
            if At(f.rq, next).start < At(f.rq, req).start then TakePlace(o.u.fifo, req, next)
            else Without(o.u.fifo, next)
  {
    RemoveShape(f, o, q, next);
  }

  lemma TakenPlace(l: seq<nat>, req: nat, next: nat)
    requires Distinct(l) && req in l && next in l && req != next
    ensures var t, rest := TakePlace(l, req, next), Without(l, req);
      req in t && Pos(t, req) == Pos(rest, next) && Without(t, req) == Without(rest, next)
  {
    var t, rest := TakePlace(l, req, next), Without(l, req);
    TakePlaceAt(l, req, next);
    WithoutAt(l, req);
    var p := Pos(rest, next);
    assert t == rest[p := req] && t[p] == req;
    PosUnique(t, p);
    ReplacedBack(rest, p, req, next);
  }

  lemma ReplacedBack(l: seq<nat>, p: nat, req: nat, next: nat)
    requires p < |l| && Pos(l, next) == p && Pos(l[p := req], req) == p
    ensures Without(l[p := req], req) == Without(l, next)
  {
    UpdatedParts(l, p, req);
  }

  lemma UpdatedParts(l: seq<nat>, p: nat, x: nat)
    requires p < |l|
    ensures l[p := x][..p] == l[..p] && l[p := x][p + 1..] == l[p + 1..]
  {
  }

  lemma {:induction false} WithoutSwap(l: seq<nat>, x: nat, y: nat)
    requires x != y
    ensures Without(Without(l, x), y) == Without(Without(l, y), x)
    decreases |l|
  {
    if l != [] {
      if l[0] == x {
        WithoutTail(l, x);
        SwapTail(l, y, x);
      } else if l[0] == y {
        WithoutTail(l, y);
        SwapTail(l, x, y);
      } else {
        WithoutSwap(l[1..], x, y);
        SwapTail(l, x, y);
        SwapTail(l, y, x);
      }
    }
  }

  lemma SwapTail(l: seq<nat>, x: nat, y: nat)
    requires l != [] && l[0] != x
    ensures Without(Without(l, x), y) == if l[0] == y then Without(l[1..], x)
            else [l[0]] + Without(Without(l[1..], x), y)
  {
    WithoutTail(l, x);
    var w := [l[0]] + Without(l[1..], x);
    WithoutTail(w, y);
    assert w[1..] == Without(l[1..], x);
  }

  /**
   * Forced dispatch, at any point of any run: it ends after as many rounds as queues had requests, with
   * every request held before it sent exactly once, nothing held, and no queue busy.
   */
  lemma ForcedDrain(classes: map<nat, Class>, f: Facts, ops: seq<Op>, c: Cfqd) returns (moved: seq<nat>)
    requires IsRun(Init(classes, f), ops) && c == After(Init(classes, f), ops)
    ensures Force(c).sent == c.sent + moved && AllOnce(moved, Held(c.qs))
    ensures Force(c).sv.order == [] && Force(c).sv.busy == 0 && !Force(c).bug
    ensures forall q :: q in Force(c).qs ==> Force(c).qs[q].tree == [] && Force(c).qs[q].fifo == []
  {
    RunInv(classes, f, ops);
    moved := ForceOk(c);
    NoneLeft(Force(c));
  }

  // ---------------------------------------------------------------- the walk down the tree

  /** The service tree as it may stand in memory, whatever the rebalancing has made of it. */
  datatype Tree = Leaf | Node(l: Tree, q: nat, r: Tree)

  function InOrder(t: Tree): seq<nat> {
    match t
    case Leaf => []
    case Node(l, q, r) => InOrder(l) + [q] + InOrder(r)
  }

  /** In the order of service. */
  ghost predicate Ordered(sv: Service, order: seq<nat>) {
    forall i, j :: 0 <= i < j < |order| ==> Behind(sv, order[i], order[j])
  }

  lemma {:induction false} PlaceLeft(sv: Service, a: seq<nat>, q: nat, b: seq<nat>, cls: Class, key: int)
    requires Sooner(sv, cls, key, q)
    ensures Place(sv, a + [q] + b, cls, key) == Place(sv, a, cls, key)
  {
    var l := a + [q] + b;
    if a != [] {
      assert l[1..] == a[1..] + [q] + b && l[0] == a[0];
      PlaceLeft(sv, a[1..], q, b, cls, key);
    } else {
      assert l[0] == q;
    }
  }

  lemma {:induction false} PlaceRight(sv: Service, a: seq<nat>, q: nat, b: seq<nat>, cls: Class, key: int)
    requires !Sooner(sv, cls, key, q) && forall x :: x in a ==> Behind(sv, x, q)
    ensures Place(sv, a + [q] + b, cls, key) == |a| + 1 + Place(sv, b, cls, key)
  {
    var l := a + [q] + b;
    if a != [] {
      assert l[1..] == a[1..] + [q] + b && l[0] == a[0];
      assert a[0] in a;
      PlaceRight(sv, a[1..], q, b, cls, key);
    } else {
      assert l[0] == q && l[1..] == b;
    }
  }

  lemma OrderedParts(sv: Service, a: seq<nat>, q: nat, b: seq<nat>)
    requires Ordered(sv, a + [q] + b)
    ensures Ordered(sv, a) && Ordered(sv, b) && forall x :: x in a ==> Behind(sv, x, q)
  {
    var l := a + [q] + b;
    forall i, j | 0 <= i < j < |a| ensures Behind(sv, a[i], a[j]) { assert l[i] == a[i] && l[j] == a[j]; }
    forall i, j | 0 <= i < j < |b| ensures Behind(sv, b[i], b[j]) {
      assert l[i + |a| + 1] == b[i] && l[j + |a| + 1] == b[j];
    }
    forall x | x in a ensures Behind(sv, x, q) {
      var i := Pos(a, x);
      assert l[i] == x && l[|a|] == q;
    }
  }

  /**
   * The loop of cfq_service_tree_add down a tree of any shape: it arrives at the place of the entry in
   * the order, and `left` is still set exactly when that is the first place.
   */
  method WalkDown(sv: Service, t: Tree, cls: Class, key: int) returns (p: nat, left: bool)
    requires Ordered(sv, InOrder(t))
    ensures p == Place(sv, InOrder(t), cls, key) && (left <==> p == 0)
  {
    var here := t;
    p, left := 0, true;
    while here != Leaf
      invariant Ordered(sv, InOrder(here)) && (left <==> p == 0)
      invariant p + Place(sv, InOrder(here), cls, key) == Place(sv, InOrder(t), cls, key)
      decreases here
    {
      var a, b := InOrder(here.l), InOrder(here.r);
      OrderedParts(sv, a, here.q, b);
      if Sooner(sv, cls, key, here.q) {
        PlaceLeft(sv, a, here.q, b, cls, key);
        here := here.l;
      } else {
        PlaceRight(sv, a, here.q, b, cls, key);
        p, left := p + |a| + 1, false;
        here := here.r;
      }
    }
  }
}
