/** What every operation of the CFQ scheduler keeps. */
module CfqInv {
  import opened Lists
  import opened NextCache
  import opened Cfq

  // ---------------------------------------------------------------- the service tree

  /** `q` is not served before `p`. */
  predicate Behind(sv: Service, p: nat, q: nat) { !Sooner(sv, ClassOf(sv, q), KeyOf(sv, q), p) }

  /** The tree is in its order, each queue once, and the cache is empty or the first queue. */
  ghost predicate ServiceOk(sv: Service) {
    && Distinct(sv.order) && |sv.order| == sv.busy
    && (forall i, j :: 0 <= i < j < |sv.order| ==> Behind(sv, sv.order[i], sv.order[j]))
    && (sv.left.Some? ==> sv.order != [] && sv.left.id == sv.order[0])
  }

  /** As ServiceOk, while busy_queues is `n` off. */
  ghost predicate ServiceBut(sv: Service, n: int) { ServiceOk(sv.(busy := |sv.order|)) && sv.busy == |sv.order| + n }

  lemma SkipOrder(sv: Service, e: Service, p: nat, i: int, j: int)
    requires e.classes == sv.classes && e.key == sv.key && p < |sv.order| && |e.order| == |sv.order| - 1 &&
             0 <= i < j < |e.order|
    requires forall i :: 0 <= i < |e.order| ==> e.order[i] == sv.order[Skip(p, i)]
    requires forall i, j :: 0 <= i < j < |sv.order| ==> Behind(sv, sv.order[i], sv.order[j])
    ensures Behind(e, e.order[i], e.order[j])
  {
    assert Behind(sv, sv.order[Skip(p, i)], sv.order[Skip(p, j)]);
  }

  lemma EraseOk(sv: Service, q: nat)
    requires ServiceOk(sv) && q in sv.order
    ensures ServiceBut(Erase(sv, q), 1) && q !in Erase(sv, q).order
    ensures forall x :: x in Erase(sv, q).order <==> x in sv.order && x != q
  {
    WithoutAt(sv.order, q);
    var e := Erase(sv, q);
    var p := Pos(sv.order, q);
    forall i, j | 0 <= i < j < |e.order| ensures Behind(e, e.order[i], e.order[j]) {
      SkipOrder(sv, e, p, i, j);
    }
    if e.left.Some? {
      assert p > 0 && e.order[0] == sv.order[Skip(p, 0)];
    }
  }

  /** The place is behind everything the entry is not sooner than, and before everything else. */
  lemma {:induction false} PlaceOk(sv: Service, order: seq<nat>, cls: Class, key: int)
    requires forall i, j :: 0 <= i < j < |order| ==> Behind(sv, order[i], order[j])
    ensures var p := Place(sv, order, cls, key);
      && (forall i :: 0 <= i < p ==> !Sooner(sv, cls, key, order[i]))
      && (forall i :: p <= i < |order| ==> Sooner(sv, cls, key, order[i]))
  {
    if order != [] {
      var rest := order[1..];
      if Sooner(sv, cls, key, order[0]) {
        forall i | 0 <= i < |order| ensures Sooner(sv, cls, key, order[i]) {
          if i > 0 { assert Behind(sv, order[0], order[i]); }
        }
      } else {
        PlaceOk(sv, rest, cls, key);
        var p := Place(sv, rest, cls, key);
        forall i | 0 <= i < 1 + p ensures !Sooner(sv, cls, key, order[i]) {
          if i > 0 { assert order[i] == rest[i - 1]; }
        }
        forall i | 1 + p <= i < |order| ensures Sooner(sv, cls, key, order[i]) {
          assert order[i] == rest[i - 1];
        }
      }
    }
  }

  lemma BehindFrame(sv: Service, s: Service, q: nat, key: int, x: nat, y: nat)
    requires s.classes == sv.classes && s.key == sv.key[q := key]
    ensures x != q && y != q ==> Behind(s, x, y) == Behind(sv, x, y)
    ensures y != q && Sooner(sv, ClassOf(sv, q), key, y) ==> Behind(s, q, y)
    ensures x != q && !Sooner(sv, ClassOf(sv, q), key, x) ==> Behind(s, x, q)
  {
  }

  /** A new entry in its place keeps the order. */
  lemma PlacedOrder(sv: Service, s: Service, q: nat, key: int, p: nat, i: int, j: int)
    requires s.classes == sv.classes && s.key == sv.key[q := key] && q !in sv.order && p <= |sv.order|
    requires Distinct(sv.order) && forall i, j :: 0 <= i < j < |sv.order| ==> Behind(sv, sv.order[i], sv.order[j])
    requires forall i :: 0 <= i < p ==> !Sooner(sv, ClassOf(sv, q), key, sv.order[i])
    requires forall i :: p <= i < |sv.order| ==> Sooner(sv, ClassOf(sv, q), key, sv.order[i])
    requires 0 <= i < j <= |sv.order|
    ensures var n := Inserted(sv.order, p, q); n[i] != n[j] && Behind(s, n[i], n[j])
  {
    var n := Inserted(sv.order, p, q);
    BehindFrame(sv, s, q, key, n[i], n[j]);
    if i == p {
      assert n[j] == sv.order[j - 1];
    } else if j == p {
      assert n[i] == sv.order[i];
    } else {
      assert n[i] == sv.order[if i < p then i else i - 1] && n[j] == sv.order[if j < p then j else j - 1];
    }
  }

  /** A queue enters the service tree; it is cached as the first exactly when nothing is before it. */
  lemma PlacedOk(sv: Service, q: nat, key: int, s: Service)
    requires ServiceBut(sv, 1) && q !in sv.order && s == ServiceAdd(sv, q, key)
    ensures ServiceOk(s) && forall x :: x in s.order <==> x in sv.order || x == q
  {
    var p := Place(sv, sv.order, ClassOf(sv, q), key);
    var t := sv.(busy := |sv.order|);
    assert Distinct(sv.order);
    forall i, j | 0 <= i < j < |sv.order| ensures Behind(sv, sv.order[i], sv.order[j]) {
      assert Behind(t, sv.order[i], sv.order[j]);
    }
    PlaceOk(sv, sv.order, ClassOf(sv, q), key);
    InsertedSet(sv.order, p, q);
    forall i, j | 0 <= i < j < |s.order| ensures s.order[i] != s.order[j] && Behind(s, s.order[i], s.order[j]) {
      PlacedOrder(sv, s, q, key, p, i, j);
    }
  }

  /** A queue moves within the service tree. */
  lemma ResortOk(sv: Service, q: nat, key: int)
    requires ServiceOk(sv) && q in sv.order
    ensures ServiceOk(ServiceAdd(sv, q, key)) && forall x :: x in ServiceAdd(sv, q, key).order <==> x in sv.order
  {
    if key != KeyOf(sv, q) {
      EraseOk(sv, q);
      PlacedOk(Erase(sv, q), q, key, ServiceAdd(sv, q, key));
    }
  }

  lemma FirstOk(sv: Service)
    requires ServiceOk(sv)
    ensures ServiceOk(First(sv)) && First(sv).order == sv.order
    ensures First(sv).left.None? <==> sv.order == []
  {
  }

  // ---------------------------------------------------------------- one queue

  /** The requests of one kind in a tree, and among others `more`. */
  function Kind(rq: map<nat, Rq>, tree: seq<nat>, more: set<nat>, sync: bool): set<nat> {
    (set x | x in tree && At(rq, x).sync == sync) + (set x | x in more && At(rq, x).sync == sync)
  }

  /** queued[] counts the tree, and requests that are counted before they are in it. */
  ghost predicate CountsOk(rq: map<nat, Rq>, u: Queue, more: set<nat>) {
    u.syncs == |Kind(rq, u.tree, more, true)| && u.asyncs == |Kind(rq, u.tree, more, false)|
  }

  /** Both views of a queue hold the same requests, but for those `out` of the tree for the moment. */
  ghost predicate QueueOk(rq: map<nat, Rq>, u: Queue, q: nat, out: set<nat>) {
    && Distinct(u.tree) && Distinct(u.fifo)
    && (forall x :: x in out ==> x !in u.tree)
    && (forall x :: x in u.fifo <==> x in u.tree || x in out)
    && (forall x :: x in u.fifo ==> x in rq && rq[x].q == q)
  }

  /** A queue with requests is in the service tree, and the flag says whether it is there. */
  predicate OnTree(u: Queue, order: seq<nat>, q: nat) { (u.tree != [] ==> u.onRr) && (u.onRr <==> q in order) }

  ghost predicate OneOk(f: Facts, o: One, q: nat, out: set<nat>, more: set<nat>) {
    && QueueOk(f.rq, o.u, q, out) && CountsOk(f.rq, o.u, more) && (forall x :: x in more ==> x !in o.u.tree)
    && ServiceOk(o.sv) && OnTree(o.u, o.sv.order, q) && !o.bug
  }

  lemma CardLess(a: set<nat>, b: set<nat>, id: nat)
    requires b == a - {id}
    ensures |b| == |a| - if id in a then 1 else 0
  {
    if id in a {
      assert a == b + {id};
    } else {
      assert a == b;
    }
  }

  lemma KindIs(rq: map<nat, Rq>, tree: seq<nat>, more: set<nat>, sync: bool, x: nat)
    ensures x in Kind(rq, tree, more, sync) <==> (x in tree || x in more) && At(rq, x).sync == sync
  {
  }

  lemma KindLess(rq: map<nat, Rq>, tree: seq<nat>, less: seq<nat>, more: set<nat>, id: nat, sync: bool)
    requires id in tree && id !in more && forall x :: x in less <==> x in tree && x != id
    ensures |Kind(rq, less, more, sync)| == |Kind(rq, tree, more, sync)| - if At(rq, id).sync == sync then 1 else 0
  {
    var a, b := Kind(rq, tree, more, sync), Kind(rq, less, more, sync);
    forall x ensures x in b <==> x in a && x != id {
      KindIs(rq, tree, more, sync, x);
      KindIs(rq, less, more, sync, x);
    }
    CardLess(a, b, id);
    KindIs(rq, tree, more, sync, id);
  }

  /** A request leaves the tree, and is no longer counted. */
  lemma LessOk(rq: map<nat, Rq>, u: Queue, more: set<nat>, id: nat)
    requires CountsOk(rq, u, more) && Distinct(u.tree) && id in u.tree && id !in more
    ensures Counted(u, At(rq, id).sync) > 0
    ensures CountsOk(rq, Less(u, At(rq, id).sync).(tree := Without(u.tree, id)), more)
  {
    WithoutAt(u.tree, id);
    KindLess(rq, u.tree, Without(u.tree, id), more, id, true);
    KindLess(rq, u.tree, Without(u.tree, id), more, id, false);
  }

  lemma KindMore(rq: map<nat, Rq>, tree: seq<nat>, id: nat, sync: bool)
    requires id !in tree
    ensures |Kind(rq, tree, {id}, sync)| == |Kind(rq, tree, {}, sync)| + if At(rq, id).sync == sync then 1 else 0
  {
    var a, b := Kind(rq, tree, {id}, sync), Kind(rq, tree, {}, sync);
    forall x ensures x in b <==> x in a && x != id {
      KindIs(rq, tree, {id}, sync, x);
      KindIs(rq, tree, {}, sync, x);
    }
    CardLess(a, b, id);
    KindIs(rq, tree, {id}, sync, id);
  }

  /** A request is counted before it is in the tree. */
  lemma MoreOk(rq: map<nat, Rq>, u: Queue, id: nat)
    requires CountsOk(rq, u, {}) && id !in u.tree
    ensures CountsOk(rq, More(u, At(rq, id).sync), {id})
  {
    KindMore(rq, u.tree, id, true);
    KindMore(rq, u.tree, id, false);
  }

  /** What has been counted goes into the tree. */
  lemma KindIn(rq: map<nat, Rq>, tree: seq<nat>, more: seq<nat>, id: nat, sync: bool)
    requires forall x :: x in more <==> x in tree || x == id
    ensures Kind(rq, more, {}, sync) == Kind(rq, tree, {id}, sync)
  {
  }

  // ---------------------------------------------------------------- requests leave

  lemma DelRrOk(o: One, q: nat)
    requires ServiceOk(o.sv) && q in o.sv.order && o.u.onRr && !o.bug
    ensures var d := DelRr(o, q);
      && ServiceOk(d.sv) && !d.bug && d.u == o.u.(onRr := false) && d.sent == o.sent
      && (forall x :: x in d.sv.order <==> x in o.sv.order && x != q) && d.sv.order == Without(o.sv.order, q)
  {
    EraseOk(o.sv, q);
  }

  /** The queue's own fields once a request is removed, before it may leave the service tree. */
  function Removed(f: Facts, u: Queue, id: nat): Queue {
    Less(u, At(f.rq, id).sync)
    .(tree := Without(u.tree, id), fifo := Without(u.fifo, id), next := NextWithout(u.tree, u.next, id, Chooser(f)))
  }

  lemma RemovedQueue(f: Facts, u: Queue, q: nat, id: nat, out: set<nat>)
    requires QueueOk(f.rq, u, q, out) && id in u.tree
    ensures QueueOk(f.rq, Removed(f, u, id), q, out)
    ensures forall x :: x in Removed(f, u, id).tree <==> x in u.tree && x != id
    ensures forall x :: x in Removed(f, u, id).fifo <==> x in u.fifo && x != id
  {
    WithoutAt(u.tree, id);
    WithoutAt(u.fifo, id);
  }

  lemma RemovedCounts(f: Facts, u: Queue, id: nat, more: set<nat>)
    requires CountsOk(f.rq, u, more) && Distinct(u.tree) && id in u.tree && id !in more
    ensures CountsOk(f.rq, Removed(f, u, id), more) && Counted(u, At(f.rq, id).sync) > 0
  {
    LessOk(f.rq, u, more, id);
  }

  lemma RemoveShape(f: Facts, o: One, q: nat, id: nat)
    ensures var d := o.(u := Removed(f, o.u, id),
                        bug := o.bug || Counted(o.u, At(f.rq, id).sync) == 0 || id !in o.u.tree);
      Remove(f, o, q, id) == if o.u.onRr && Without(o.u.tree, id) == [] then DelRr(d, q) else d
  {
  }

  /**
   * What cfq_remove_request has made of the queue: it leaves the service tree with its last request, and
   * not before.
   */
  ghost predicate Left(f: Facts, o: One, r: One, q: nat, id: nat, out: set<nat>, more: set<nat>) {
    && OneOk(f, r, q, out, more) && (r.u.onRr <==> r.u.tree != []) && |r.u.tree| < |o.u.tree|
    && r.u == Removed(f, o.u, id).(onRr := r.u.onRr, dispatched := r.u.dispatched)
    && (forall x :: x in r.u.tree <==> x in o.u.tree && x != id)
    && r.sv.order == (if r.u.tree == [] then Without(o.sv.order, q) else o.sv.order)
    && (forall x :: x != q ==> (x in r.sv.order <==> x in o.sv.order))
  }

  lemma RemoveOk(f: Facts, o: One, q: nat, id: nat, out: set<nat>, more: set<nat>, r: One)
    requires OneOk(f, o, q, out, more) && id in o.u.tree && r == Remove(f, o, q, id)
    ensures Left(f, o, r, q, id, out, more) && r.sent == o.sent && r.u.dispatched == o.u.dispatched
  {
    RemovedQueue(f, o.u, q, id, out);
    RemovedCounts(f, o.u, id, more);
    RemoveShape(f, o, q, id);
    WithoutAt(o.u.tree, id);
    var d := o.(u := Removed(f, o.u, id));
    assert d.u.onRr;
    if d.u.tree == [] {
      DelRrOk(d, q);
    }
  }

  /** The cache, when a request leaves: exact if it was, and never a request that has gone. */
  lemma RemoveNext(f: Facts, u: Queue, id: nat)
    requires Distinct(u.tree) && id in u.tree && NextIn(u.tree, u.next)
    ensures NextIn(Removed(f, u, id).tree, Removed(f, u, id).next)
    ensures NextOk(u.tree, u.next) ==> NextOk(Removed(f, u, id).tree, Removed(f, u, id).next)
  {
    NextWithoutOk(u.tree, u.next, id, Chooser(f));
  }

  lemma LeftFrame(f: Facts, o: One, d: One, r: One, q: nat, id: nat, out: set<nat>, more: set<nat>, n: nat,
                  sent: seq<nat>)
    requires Left(f, o, d, q, id, out, more) && r == d.(u := d.u.(dispatched := n), sent := sent)
    ensures Left(f, o, r, q, id, out, more)
  {
  }

  lemma DispatchOk(f: Facts, o: One, q: nat, id: nat, out: set<nat>, more: set<nat>, r: One)
    requires OneOk(f, o, q, out, more) && id in o.u.tree && r == Dispatch(f, o, q, id)
    ensures Left(f, o, r, q, id, out, more) && r.sent == o.sent + [id] && r.u.dispatched == o.u.dispatched + 1
  {
    var d := Remove(f, o, q, id);
    RemoveOk(f, o, q, id, out, more, d);
    LeftFrame(f, o, d, r, q, id, out, more, d.u.dispatched + 1, d.sent + [id]);
  }

  // ---------------------------------------------------------------- requests arrive

  /**
   * The loop of cfq_add_rq_rb: exactly the requests at the sector go; what is cached is still there, or
   * was out before.
   */
  lemma {:induction false} ClearOk(f: Facts, o: One, q: nat, s: nat, out: set<nat>, more: set<nat>, c: One)
    requires OneOk(f, o, q, out, more) && c == Clear(f, o, q, s)
    requires o.u.next.Some? ==> o.u.next.id in o.u.tree || o.u.next.id in out
    ensures OneOk(f, c, q, out, more) && (c.u.next.Some? ==> c.u.next.id in c.u.tree || c.u.next.id in out)
    ensures forall x :: x in c.u.tree <==> x in o.u.tree && SectorOf(f.sector, x) != s
    ensures forall x :: x != q ==> (x in c.sv.order <==> x in o.sv.order)
    decreases |o.u.tree|
  {
    var al := Alias(f.sector, o.u.tree, s);
    if al.Some? {
      var d := Dispatch(f, o, q, al.id);
      DispatchOk(f, o, q, al.id, out, more, d);
      if o.u.next == Some(al.id) {
        FindNextOk(o.u.tree, al.id, Chooser(f));
      }
      ClearOk(f, d, q, s, out, more, c);
    }
  }

  lemma AddRrOk(o: One, q: nat, key: int, r: One)
    requires ServiceOk(o.sv) && q !in o.sv.order && !o.u.onRr && !o.bug && r == AddRr(o, q, key)
    ensures ServiceOk(r.sv) && !r.bug && r.u == o.u.(onRr := true) && r.sent == o.sent
    ensures forall x :: x in r.sv.order <==> x in o.sv.order || x == q
  {
    PlacedOk(o.sv.(busy := o.sv.busy + 1), q, key, r.sv);
  }

  /** The tree takes the request in, and the queue takes its place in the service tree if it has none. */
  lemma LinkOk(f: Facts, c: One, q: nat, id: nat, key: int, out: set<nat>, l: One, r: One)
    requires OneOk(f, c, q, out, {id}) && (out == {id} || (out == {} && id in f.rq && f.rq[id].q == q))
    requires l == c.(u := c.u.(tree := Linked(f.sector, c.u.tree, id))) && r == if l.u.onRr then l else AddRr(l, q, key)
    ensures ServiceOk(r.sv) && !r.bug && r.sent == c.sent && r.u == l.u.(onRr := true) && q in r.sv.order
    ensures CountsOk(f.rq, r.u, {}) && Distinct(r.u.tree) && (forall x :: x in r.u.tree <==> x in c.u.tree || x == id)
    ensures forall x :: x != q ==> (x in r.sv.order <==> x in c.sv.order)
  {
    LinkedOk(f.sector, c.u.tree, id);
    KindIn(f.rq, c.u.tree, l.u.tree, id, true);
    KindIn(f.rq, c.u.tree, l.u.tree, id, false);
    if !l.u.onRr {
      AddRrOk(l, q, key, r);
    }
  }

  /**
   * A queue at rest: both views agree, the cache is exact, and the queue is in the service tree exactly
   * when it has requests.
   */
  ghost predicate AtRest(f: Facts, u: Queue, q: nat, order: seq<nat>) {
    && QueueOk(f.rq, u, q, {}) && CountsOk(f.rq, u, {}) && NextOk(u.tree, u.next)
    && (u.onRr <==> q in order) && (u.onRr <==> u.tree != [])
  }

  ghost predicate Rests(f: Facts, o: One, q: nat) { AtRest(f, o.u, q, o.sv.order) && ServiceOk(o.sv) && !o.bug }

  /** What an operation on queue `q` leaves to the others. */
  predicate OthersStay(a: Service, b: Service, q: nat) {
    forall x <- a.order + b.order :: x != q ==> (x in b.order <==> x in a.order)
  }

  lemma OthersFrom(a: Service, b: Service, q: nat)
    requires forall x :: x != q ==> (x in b.order <==> x in a.order)
    ensures OthersStay(a, b, q)
  {
  }

  /** The queue counts a request that is not in its tree. */
  lemma CountedOk(f: Facts, o: One, q: nat, id: nat, out: set<nat>)
    requires OneOk(f, o, q, out, {}) && id !in o.u.tree
    ensures OneOk(f, o.(u := More(o.u, At(f.rq, id).sync)), q, out, {id})
  {
    MoreOk(f.rq, o.u, id);
  }

  /** What cfq_add_rq_rb has made of the queue; `c` is the state after the aliases have gone. */
  ghost predicate Joined(f: Facts, c: One, r: One, q: nat, id: nat) {
    && ServiceOk(r.sv) && !r.bug && r.u.onRr && q in r.sv.order && r.u.fifo == c.u.fifo
    && CountsOk(f.rq, r.u, {}) && Distinct(r.u.tree) && (forall x :: x in r.u.tree <==> x in c.u.tree || x == id)
    && r.u.next.Some? && r.u.next.id in r.u.tree
  }

  lemma AddRqRbOk(f: Facts, o: One, q: nat, id: nat, key: int, out: set<nat>, c: One, r: One)
    requires OneOk(f, o, q, out, {}) && id !in o.u.tree
    requires out == {id} || (out == {} && id in f.rq && f.rq[id].q == q)
    requires o.u.next.Some? ==> o.u.next.id in o.u.tree || o.u.next.id in out
    requires c == Clear(f, o.(u := More(o.u, At(f.rq, id).sync)), q, SectorOf(f.sector, id)) &&
             r == AddRqRb(f, o, q, id, key)
    ensures QueueOk(f.rq, c.u, q, out) && Joined(f, c, r, q, id) && OthersStay(o.sv, r.sv, q)
    ensures forall x :: x in c.u.tree ==> x in o.u.tree
  {
    CountedOk(f, o, q, id, out);
    ClearOk(f, o.(u := More(o.u, At(f.rq, id).sync)), q, SectorOf(f.sector, id), out, {id}, c);
    var l := c.(u := c.u.(tree := Linked(f.sector, c.u.tree, id)));
    var k := if l.u.onRr then l else AddRr(l, q, key);
    LinkOk(f, c, q, id, key, out, l, k);
    assert id in k.u.tree && r == k.(u := k.u.(next := Pick(k.u.next, Some(id), Chooser(f))));
    OthersFrom(o.sv, r.sv, q);
  }

  lemma NonEmpty(l: seq<nat>, x: nat)
    requires x in l
    ensures l != []
  {
  }

  /** cfq_add_rq_rb, for a request in the FIFO but not in the tree. */
  lemma RejoinOk(f: Facts, o: One, q: nat, id: nat, key: int, r: One)
    requires OneOk(f, o, q, {id}, {}) && (o.u.next.Some? ==> o.u.next.id in o.u.tree || o.u.next.id in {id})
    requires r == AddRqRb(f, o, q, id, key)
    ensures Rests(f, r, q) && OthersStay(o.sv, r.sv, q)
  {
    var c := Clear(f, o.(u := More(o.u, At(f.rq, id).sync)), q, SectorOf(f.sector, id));
    AddRqRbOk(f, o, q, id, key, {id}, c, r);
    RejoinedQueue(f, c, r, q, id);
  }

  lemma RejoinedQueue(f: Facts, c: One, r: One, q: nat, id: nat)
    requires QueueOk(f.rq, c.u, q, {id}) && Joined(f, c, r, q, id)
    ensures AtRest(f, r.u, q, r.sv.order)
  {
    NonEmpty(r.u.tree, r.u.next.id);
  }

  lemma JoinedQueue(f: Facts, c: One, a: One, r: One, q: nat, id: nat)
    requires QueueOk(f.rq, c.u, q, {}) && Joined(f, c, a, q, id) && id !in c.u.fifo && id in f.rq && f.rq[id].q == q
    requires r == a.(u := a.u.(fifo := a.u.fifo + [id]))
    ensures AtRest(f, r.u, q, r.sv.order)
  {
    NonEmpty(r.u.tree, r.u.next.id);
    assert CountsOk(f.rq, r.u, {});
  }

  /** cfq_insert_request. */
  lemma InsertOk(f: Facts, o: One, q: nat, id: nat, key: int, r: One)
    requires Rests(f, o, q) && id !in o.u.fifo && id in f.rq && f.rq[id].q == q && r == Insert(f, o, q, id, key)
    ensures Rests(f, r, q) && OthersStay(o.sv, r.sv, q)
  {
    var c := Clear(f, o.(u := More(o.u, At(f.rq, id).sync)), q, SectorOf(f.sector, id));
    var a := AddRqRb(f, o, q, id, key);
    assert OneOk(f, o, q, {}, {});
    AddRqRbOk(f, o, q, id, key, {}, c, a);
    assert id !in c.u.fifo;
    JoinedQueue(f, c, a, r, q, id);
  }

  /** The first half of cfq_reposition_rq_rb. */
  lemma PulledOk(f: Facts, o: One, q: nat, id: nat)
    requires Rests(f, o, q) && id in o.u.tree
    ensures OneOk(f, Pulled(f, o, id), q, {id}, {}) && Pulled(f, o, id).sv == o.sv &&
            Pulled(f, o, id).u.next == o.u.next
    ensures forall x :: x in Pulled(f, o, id).u.tree <==> x in o.u.tree && x != id
  {
    LessOk(f.rq, o.u, {}, id);
    WithoutAt(o.u.tree, id);
  }

  lemma FrontOk(f: Facts, o: One, q: nat, id: nat, key: int, r: One)
    requires Rests(f, o, q) && id in o.u.tree && r == AddRqRb(f, Pulled(f, o, id), q, id, key)
    ensures Rests(f, r, q) && OthersStay(o.sv, r.sv, q)
  {
    PulledOk(f, o, q, id);
    RejoinOk(f, Pulled(f, o, id), q, id, key, r);
  }

  lemma TakeOutOk(f: Facts, o: One, q: nat, id: nat, r: One)
    requires Rests(f, o, q) && id in o.u.tree && r == Remove(f, o, q, id)
    ensures Rests(f, r, q) && OthersStay(o.sv, r.sv, q) && r.u.fifo == Without(o.u.fifo, id)
    ensures r.sent == o.sent
  {
    RemoveOk(f, o, q, id, {}, {}, r);
    RemoveNext(f, o.u, id);
    OthersFrom(o.sv, r.sv, q);
  }

  lemma SendOk(f: Facts, o: One, q: nat, id: nat, r: One)
    requires Rests(f, o, q) && id in o.u.tree && r == Dispatch(f, o, q, id)
    ensures Rests(f, r, q) && OthersStay(o.sv, r.sv, q) && r.sent == o.sent + [id] && r.u.tree == Without(o.u.tree, id)
    ensures r.sv.order == if r.u.tree == [] then Without(o.sv.order, q) else o.sv.order
    ensures |r.u.tree| < |o.u.tree|
  {
    DispatchOk(f, o, q, id, {}, {}, r);
    RemoveNext(f, o.u, id);
    OthersFrom(o.sv, r.sv, q);
  }

  lemma MergedOk(f: Facts, o: One, q: nat, req: nat, next: nat, r: One)
    requires Rests(f, o, q) && req in o.u.tree && next in o.u.tree && req != next && r == Merged(f, o, q, req, next)
    ensures Rests(f, r, q) && OthersStay(o.sv, r.sv, q)
  {
    var d := Remove(f, o, q, next);
    TakeOutOk(f, o, q, next, d);
    assert req in o.u.fifo && next in o.u.fifo;
    TakePlaceAt(o.u.fifo, req, next);
    WithoutAt(o.u.fifo, next);
  }

  // ---------------------------------------------------------------- all queues

  ghost predicate Inv(c: Cfqd) {
    && (forall q :: q in c.qs ==> AtRest(c.f, c.qs[q], q, c.sv.order))
    && ServiceOk(c.sv) && (forall q :: q in c.sv.order ==> q in c.qs) && !c.bug
  }

  lemma PutOk(c: Cfqd, q: nat, o: One)
    requires forall p :: p in c.qs && p != q ==> AtRest(c.f, c.qs[p], p, c.sv.order)
    requires forall p :: p in c.sv.order ==> p in c.qs
    requires q in c.qs && Rests(c.f, o, q) && OthersStay(c.sv, o.sv, q)
    ensures Inv(Put(c, q, o))
  {
    var d := Put(c, q, o);
    forall p | p in d.qs ensures AtRest(d.f, d.qs[p], p, d.sv.order) {
      if p != q {
        assert p in d.sv.order <==> p in c.sv.order;
      }
    }
  }

  /** A queue does not depend on requests it does not hold, nor on where requests start. */
  lemma FactsFrame(f: Facts, g: Facts, u: Queue, q: nat, order: seq<nat>, id: nat)
    requires AtRest(f, u, q, order) && id !in u.fifo
    requires forall x :: x != id ==> (x in g.rq <==> x in f.rq) && At(g.rq, x) == At(f.rq, x)
    ensures AtRest(g, u, q, order)
  {
    KindFrame(f.rq, g.rq, u.tree, id, true);
    KindFrame(f.rq, g.rq, u.tree, id, false);
    forall x | x in u.fifo ensures x in g.rq && g.rq[x].q == q {
      assert At(f.rq, x) == f.rq[x] && At(g.rq, x) == g.rq[x];
    }
  }

  lemma KindFrame(rq: map<nat, Rq>, rq': map<nat, Rq>, tree: seq<nat>, id: nat, sync: bool)
    requires id !in tree && forall x :: x != id ==> At(rq', x) == At(rq, x)
    ensures Kind(rq', tree, {}, sync) == Kind(rq, tree, {}, sync)
  {
    forall x ensures x in Kind(rq', tree, {}, sync) <==> x in Kind(rq, tree, {}, sync) {
      KindIs(rq, tree, {}, sync, x);
      KindIs(rq', tree, {}, sync, x);
    }
  }

  lemma SectorFrame(f: Facts, g: Facts, u: Queue, q: nat, order: seq<nat>)
    requires AtRest(f, u, q, order) && g.rq == f.rq
    ensures AtRest(g, u, q, order)
  {
  }
}
