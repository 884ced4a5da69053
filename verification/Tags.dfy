/**
 * Tagged command queueing of block/blk-tag.c on values: a tag map that several queues may share,
 * each queue with its busy list and the head of its dispatch queue.
 */
module Tags {
  import opened Lists

  datatype Slot = Empty | Held(rq: nat)

  /** A queue: requests waiting in the dispatch queue, and started ones, the latest start first. */
  datatype Queue = Queue(head: seq<nat>, busy: seq<nat>)

  /**
   * The tag map: bits and index, both of length real_max_depth, the depth in use and the number of
   * queues that hold the map.  `tag` gives each tagged request's tag; `started` numbers the starts.
   */
  datatype Map = Map(
    bits: seq<bool>, index: seq<Slot>, maxDepth: nat, refcnt: nat,
    queues: map<nat, Queue>, tag: map<nat, nat>, started: map<nat, nat>, clock: nat)

  /** find_next_zero_bit; the limit itself if there is none. */
  function FirstFree(bits: seq<bool>, from: nat, limit: nat): (t: nat)
    requires limit <= |bits|
    ensures t <= limit || t == from
    ensures t < limit ==> from <= t && !bits[t] && forall i :: from <= i < t ==> bits[i]
    ensures t >= limit ==> forall i :: from <= i < limit ==> bits[i]
    decreases limit - from
  {
    if from >= limit || !bits[from] then from else FirstFree(bits, from + 1, limit)
  }

  /** The lowest tag a request may have: a quarter of them is kept for synchronous requests. */
  function Offset(m: Map, sync: bool): nat { if sync then 0 else m.maxDepth / 4 }

  /** blk_queue_start_tag: the map after it, and whether a tag was found. */
  function Start(m: Map, q: nat, r: nat, sync: bool): (Map, bool) {
    if m.maxDepth > |m.bits| || q !in m.queues then (m, false)
    else
      var t := FirstFree(m.bits, Offset(m, sync), m.maxDepth);
      if t >= m.maxDepth || t >= |m.index| then (m, false)
      else
        var u := m.queues[q];
        (m.(bits := m.bits[t := true], index := m.index[t := Held(r)], tag := m.tag[r := t],
            started := m.started[r := m.clock], clock := m.clock + 1,
            queues := m.queues[q := Queue(Without(u.head, r), [r] + u.busy)]), true)
  }

  /** blk_queue_end_tag. */
  function End(m: Map, q: nat, r: nat): Map {
    if r !in m.tag || q !in m.queues then m
    else
      var t := m.tag[r];
      if t >= |m.bits| || t >= |m.index| then m
      else
        var u := m.queues[q];
        m.(bits := m.bits[t := false], index := m.index[t := Empty], tag := m.tag - {r},
           queues := m.queues[q := u.(busy := Without(u.busy, r))])
  }

  /** blk_requeue_request with no barrier active: the tag is ended and the request goes to the front. */
  function Requeue(m: Map, q: nat, r: nat): Map {
    var m1 := End(m, q, r);
    if q !in m1.queues then m1
    else var u := m1.queues[q]; m1.(queues := m1.queues[q := u.(head := [r] + u.head)])
  }

  /** blk_queue_invalidate_tags: the requests of the list, from its front. */
  function Invalidate(m: Map, q: nat, l: seq<nat>): Map
    decreases |l|
  {
    if l == [] then m else Invalidate(Requeue(m, q, l[0]), q, l[1..])
  }

  /** The depth init_tag_map makes of a wish. */
  function Depth(depth: nat, nrRequests: nat): nat { if depth > 2 * nrRequests then 2 * nrRequests else depth }

  /**
   * memcpy of all of `from` into the start of `a`, from index `i` on: what it writes, and whether it
   * stays inside `a`.
   */
  function CopyAll<T>(a: seq<T>, from: seq<T>, i: nat): (seq<T>, bool)
    requires i <= |from|
    decreases |from| - i
  {
    if i == |from| then (a, true)
    else if i < |a| then CopyAll(a[i := from[i]], from, i + 1)
    else (CopyAll(a, from, i + 1).0, false)
  }

  /**
   * The map after blk_queue_resize_tags, whether the call succeeded, and whether its copying stayed
   * inside the new map.
   */
  datatype Resized = Resized(m: Map, ok: bool, inside: bool)

  /** blk_queue_resize_tags: a larger depth replaces the map, unless other queues hold it as well. */
  function Resize(m: Map, depth: nat, nrRequests: nat): Resized {
    if depth <= |m.bits| then Resized(m.(maxDepth := depth), true, true)
    else if m.refcnt != 1 then Resized(m, false, true)
    else
      var d := Depth(depth, nrRequests);
      var index, bits := CopyAll(seq(d, _ => Empty), m.index, 0), CopyAll(seq(d, _ => false), m.bits, 0);
      Resized(m.(bits := bits.0, index := index.0, maxDepth := d), true, index.1 && bits.1)
  }

  /** blk_queue_init_tags with a map that exists already: one more queue holds it. */
  function Join(m: Map, q: nat): Map { m.(refcnt := m.refcnt + 1, queues := m.queues[q := Queue([], [])]) }

  /** A request reaches the end of a queue's dispatch queue. */
  function Arrive(m: Map, q: nat, r: nat): Map {
    if q !in m.queues then m else m.(queues := m.queues[q := m.queues[q].(head := m.queues[q].head + [r])])
  }

  // ---------------------------------------------------------------- the invariant

  /** A bit is set exactly when its slot holds a request, and the slots and the requests' tags agree. */
  predicate TableOk(bits: seq<bool>, index: seq<Slot>, tag: map<nat, nat>) {
    && |bits| == |index|
    && (forall t :: 0 <= t < |index| ==> (bits[t] <==> index[t].Held?))
    && (forall t :: 0 <= t < |index| && index[t].Held? ==> index[t].rq in tag && tag[index[t].rq] == t)
    && (forall r :: r in tag ==> tag[r] < |index| && index[tag[r]] == Held(r))
  }

  /** Latest start first. */
  predicate Descending(l: seq<nat>, started: map<nat, nat>, clock: nat) {
    && (forall i :: 0 <= i < |l| ==> l[i] in started && started[l[i]] < clock)
    && (forall i, j :: 0 <= i < j < |l| ==> started[l[i]] > started[l[j]])
  }

  ghost predicate Orders(queues: map<nat, Queue>, started: map<nat, nat>, clock: nat) {
    forall q :: q in queues ==> Descending(queues[q].busy, started, clock)
  }

  /** The busy lists hold the tagged requests, each in one of them. */
  ghost predicate BusyOk(queues: map<nat, Queue>, tag: map<nat, nat>) {
    && (forall q, r :: q in queues && r in queues[q].busy ==> r in tag)
    && (forall q, p, r :: q in queues && p in queues && r in queues[q].busy && r in queues[p].busy ==> q == p)
    && (forall r :: r in tag ==> exists q :: q in queues && r in queues[q].busy)
  }

  ghost predicate Inv(m: Map) {
    && m.maxDepth <= |m.bits| && TableOk(m.bits, m.index, m.tag)
    && BusyOk(m.queues, m.tag) && Orders(m.queues, m.started, m.clock)
  }

  // ---------------------------------------------------------------- lists

  lemma DescendingDistinct(l: seq<nat>, started: map<nat, nat>, clock: nat)
    requires Descending(l, started, clock)
    ensures Distinct(l)
  {
  }

  lemma WithoutDescends(l: seq<nat>, x: nat, started: map<nat, nat>, clock: nat)
    requires Descending(l, started, clock)
    ensures Descending(Without(l, x), started, clock)
    ensures forall y :: y in Without(l, x) <==> y in l && y != x
  {
    DescendingDistinct(l, started, clock);
    WithoutAt(l, x);
  }

  lemma PushDescends(l: seq<nat>, x: nat, started: map<nat, nat>, clock: nat)
    requires Descending(l, started, clock) && x !in l
    ensures Descending([x] + l, started[x := clock], clock + 1) && Descending(l, started[x := clock], clock + 1)
  {
    var n := [x] + l;
    forall i | 0 <= i < |n| ensures n[i] in started[x := clock] && started[x := clock][n[i]] < clock + 1 {
      if i > 0 { assert n[i] == l[i - 1]; }
    }
    forall i, j | 0 <= i < j < |n| ensures started[x := clock][n[i]] > started[x := clock][n[j]] {
      assert n[j] == l[j - 1];
      if i > 0 { assert n[i] == l[i - 1]; }
    }
  }

  // ---------------------------------------------------------------- the steps keep the invariant

  lemma TableStart(bits: seq<bool>, index: seq<Slot>, tag: map<nat, nat>, r: nat, t: nat)
    requires TableOk(bits, index, tag) && r !in tag && t < |bits| && !bits[t]
    ensures TableOk(bits[t := true], index[t := Held(r)], tag[r := t])
  {
  }

  lemma TableEnd(bits: seq<bool>, index: seq<Slot>, tag: map<nat, nat>, r: nat)
    requires TableOk(bits, index, tag) && r in tag
    ensures TableOk(bits[tag[r] := false], index[tag[r] := Empty], tag - {r})
  {
  }

  lemma BusyStart(queues: map<nat, Queue>, tag: map<nat, nat>, q: nat, r: nat, t: nat, head: seq<nat>)
    requires BusyOk(queues, tag) && q in queues && r !in tag
    ensures BusyOk(queues[q := Queue(head, [r] + queues[q].busy)], tag[r := t])
  {
    var now := queues[q := Queue(head, [r] + queues[q].busy)];
    var tags := tag[r := t];
    forall x | x in tags ensures exists p :: p in now && x in now[p].busy {
      if x == r {
        assert r in now[q].busy;
      } else {
        var p :| p in queues && x in queues[p].busy;
        assert x in now[p].busy;
      }
    }
  }

  lemma BusyEnd(queues: map<nat, Queue>, tag: map<nat, nat>, q: nat, r: nat, started: map<nat, nat>, clock: nat)
    requires BusyOk(queues, tag) && Orders(queues, started, clock) && q in queues && r in queues[q].busy
    ensures BusyOk(queues[q := queues[q].(busy := Without(queues[q].busy, r))], tag - {r})
    ensures Orders(queues[q := queues[q].(busy := Without(queues[q].busy, r))], started, clock)
  {
    WithoutDescends(queues[q].busy, r, started, clock);
    var now := queues[q := queues[q].(busy := Without(queues[q].busy, r))];
    forall x | x in tag - {r} ensures exists p :: p in now && x in now[p].busy {
      var p :| p in queues && x in queues[p].busy;
      assert x in now[p].busy;
    }
  }

  lemma OrdersStart(queues: map<nat, Queue>, started: map<nat, nat>, clock: nat, q: nat, r: nat, head: seq<nat>)
    requires Orders(queues, started, clock) && q in queues && forall p :: p in queues ==> r !in queues[p].busy
    ensures Orders(queues[q := Queue(head, [r] + queues[q].busy)], started[r := clock], clock + 1)
  {
    var now := queues[q := Queue(head, [r] + queues[q].busy)];
    forall p | p in now ensures Descending(now[p].busy, started[r := clock], clock + 1) {
      var b := queues[p].busy;
      assert r !in b;
      PushDescends(b, r, started, clock);
    }
  }

  lemma TakenInv(m: Map, q: nat, r: nat, t: nat, head: seq<nat>)
    requires Inv(m) && q in m.queues && r !in m.tag && t < |m.bits| && !m.bits[t]
    ensures Inv(m.(bits := m.bits[t := true], index := m.index[t := Held(r)], tag := m.tag[r := t],
                   started := m.started[r := m.clock], clock := m.clock + 1,
                   queues := m.queues[q := Queue(head, [r] + m.queues[q].busy)]))
  {
    TableStart(m.bits, m.index, m.tag, r, t);
    BusyStart(m.queues, m.tag, q, r, t, head);
    OrdersStart(m.queues, m.started, m.clock, q, r, head);
  }

  lemma StartInv(m: Map, q: nat, r: nat, sync: bool)
    requires Inv(m) && q in m.queues && r !in m.tag
    ensures Inv(Start(m, q, r, sync).0)
  {
    var t := FirstFree(m.bits, Offset(m, sync), m.maxDepth);
    if t < m.maxDepth {
      TakenInv(m, q, r, t, Without(m.queues[q].head, r));
    }
  }

  lemma EndInv(m: Map, q: nat, r: nat)
    requires Inv(m) && q in m.queues && r in m.queues[q].busy
    ensures Inv(End(m, q, r))
    ensures var n := End(m, q, r);
      && m.tag[r] < |m.bits| && n.bits == m.bits[m.tag[r] := false] && n.tag == m.tag - {r}
      && n.queues == m.queues[q := m.queues[q].(busy := Without(m.queues[q].busy, r))]
  {
    TableEnd(m.bits, m.index, m.tag, r);
    BusyEnd(m.queues, m.tag, q, r, m.started, m.clock);
  }

  lemma HeadInv(m: Map, q: nat, head: seq<nat>)
    requires Inv(m) && q in m.queues
    ensures Inv(m.(queues := m.queues[q := m.queues[q].(head := head)]))
  {
    var now := m.queues[q := m.queues[q].(head := head)];
    forall r | r in m.tag ensures exists p :: p in now && r in now[p].busy {
      var p :| p in m.queues && r in m.queues[p].busy;
      assert r in now[p].busy;
    }
  }

  lemma RequeueInv(m: Map, q: nat, r: nat)
    requires Inv(m) && q in m.queues && r in m.queues[q].busy
    ensures var k := Requeue(m, q, r);
      && Inv(k) && k.tag == m.tag - {r} && k.started == m.started && k.clock == m.clock
      && k.queues == m.queues[q := Queue([r] + m.queues[q].head, Without(m.queues[q].busy, r))]
  {
    EndInv(m, q, r);
    var n := End(m, q, r);
    HeadInv(n, q, [r] + n.queues[q].head);
  }

  /** What the loop over the busy list has still to do leads to `goal`. */
  ghost predicate Pending(m: Map, q: nat, goal: Map) {
    Inv(m) && q in m.queues && Invalidate(m, q, m.queues[q].busy) == goal
  }

  lemma PendingRound(m: Map, q: nat, goal: Map, k: Map)
    requires Pending(m, q, goal) && m.queues[q].busy != [] && k == Requeue(m, q, m.queues[q].busy[0])
    ensures Pending(k, q, goal) && |k.queues[q].busy| < |m.queues[q].busy|
    ensures m.queues[q].busy[0] in m.tag && |m.bits| == |m.index|
  {
    InvalidateRound(m, q);
  }

  /** One round of the loop over the busy list. */
  lemma InvalidateRound(m: Map, q: nat)
    requires Inv(m) && q in m.queues && m.queues[q].busy != []
    ensures var l := m.queues[q].busy;
      var k := Requeue(m, q, l[0]);
      && l[0] in m.tag && |m.bits| == |m.index| && Inv(k) && q in k.queues && k.queues[q].busy == l[1..]
      && Invalidate(m, q, l) == Invalidate(k, q, k.queues[q].busy)
  {
    var l := m.queues[q].busy;
    assert l[0] in l;
    RequeueInv(m, q, l[0]);
    assert Without(l, l[0]) == l[1..];
  }

  lemma {:induction false} InvalidateInv(m: Map, q: nat, l: seq<nat>)
    requires Inv(m) && q in m.queues && m.queues[q].busy == l
    ensures Inv(Invalidate(m, q, l))
    decreases |l|
  {
    if l != [] {
      RequeueInv(m, q, l[0]);
      assert Without(l, l[0]) == l[1..];
      InvalidateInv(Requeue(m, q, l[0]), q, l[1..]);
    }
  }

  lemma JoinInv(m: Map, q: nat)
    requires Inv(m) && q !in m.queues
    ensures Inv(Join(m, q))
  {
    var now := m.queues[q := Queue([], [])];
    forall r | r in m.tag ensures exists p :: p in now && r in now[p].busy {
      var p :| p in m.queues && r in m.queues[p].busy;
      assert r in now[p].busy;
    }
  }

  /** The copy stays inside exactly when there is room, and then it is a prefix. */
  lemma {:induction false} CopyAllAt<T>(a: seq<T>, from: seq<T>, i: nat)
    requires i <= |from|
    ensures |CopyAll(a, from, i).0| == |a|
    ensures CopyAll(a, from, i).1 <==> i == |from| || |from| <= |a|
    ensures forall k :: 0 <= k < |a| ==> CopyAll(a, from, i).0[k] == if i <= k < |from| then from[k] else a[k]
    decreases |from| - i
  {
    if i < |from| {
      CopyAllAt(if i < |a| then a[i := from[i]] else a, from, i + 1);
    }
  }

  lemma TableGrown(bits: seq<bool>, index: seq<Slot>, tag: map<nat, nat>, bits': seq<bool>, index': seq<Slot>, d: nat)
    requires TableOk(bits, index, tag) && |bits| <= d == |bits'| == |index'|
    requires forall k :: 0 <= k < d ==> bits'[k] == if k < |bits| then bits[k] else false
    requires forall k :: 0 <= k < d ==> index'[k] == if k < |index| then index[k] else Empty
    ensures TableOk(bits', index', tag)
  {
  }

  /**
   * Exactly when resizing stays inside the map it makes, and keeps the map exact: when the map is not
   * replaced, or 2 * nr_requests, to which init_tag_map cuts the wish, is no less than the old depth.
   */
  lemma ResizeExact(m: Map, depth: nat, nrRequests: nat)
    requires Inv(m)
    ensures var r := Resize(m, depth, nrRequests);
      (r.inside && Inv(r.m)) <==> (depth <= |m.bits| || m.refcnt != 1 || 2 * nrRequests >= |m.bits|)
  {
    if depth > |m.bits| && m.refcnt == 1 {
      var d, r := Depth(depth, nrRequests), Resize(m, depth, nrRequests);
      CopyAllAt(seq(d, _ => Empty), m.index, 0);
      CopyAllAt(seq(d, _ => false), m.bits, 0);
      if d >= |m.bits| {
        TableGrown(m.bits, m.index, m.tag, r.m.bits, r.m.index, d);
      }
    }
  }

  // ---------------------------------------------------------------- runs

  datatype Op =
    | OpArrive(q: nat, r: nat)
    | OpStart(q: nat, r: nat, sync: bool)
    | OpEnd(q: nat, r: nat)
    | OpResize(depth: nat, nrRequests: nat)
    | OpJoin(q: nat)
    | OpInvalidate(q: nat)

  function Step(m: Map, op: Op): Map {
    match op
    case OpArrive(q, r) => Arrive(m, q, r)
    case OpStart(q, r, sync) => Start(m, q, r, sync).0
    case OpEnd(q, r) => End(m, q, r)
    case OpResize(depth, nr) => Resize(m, depth, nr).m
    case OpJoin(q) => Join(m, q)
    case OpInvalidate(q) => if q in m.queues then Invalidate(m, q, m.queues[q].busy) else m
  }

  /** What the callers owe: a request is tagged once, ended by its queue, and a new map has room for the old one. */
  predicate Enabled(m: Map, op: Op) {
    match op
    case OpArrive(q, r) => q in m.queues
    case OpStart(q, r, sync) => q in m.queues && r !in m.tag
    case OpEnd(q, r) => q in m.queues && r in m.queues[q].busy
    case OpResize(depth, nr) => depth <= |m.bits| || m.refcnt != 1 || 2 * nr >= |m.bits|
    case OpJoin(q) => q !in m.queues
    case OpInvalidate(q) => q in m.queues
  }

  function After(m: Map, ops: seq<Op>): Map
    decreases |ops|
  {
    if ops == [] then m else Step(After(m, ops[..|ops| - 1]), ops[|ops| - 1])
  }

  predicate IsRun(m: Map, ops: seq<Op>)
    decreases |ops|
  {
    ops == [] || (IsRun(m, ops[..|ops| - 1]) && Enabled(After(m, ops[..|ops| - 1]), ops[|ops| - 1]))
  }

  /** blk_queue_init_tags: the map of one queue. */
  function Fresh(depth: nat, nrRequests: nat, q: nat): Map {
    var d := Depth(depth, nrRequests);
    Map(seq(d, _ => false), seq(d, _ => Empty), d, 1, map[q := Queue([], [])], map[], map[], 0)
  }

  lemma StepInv(m: Map, op: Op)
    requires Inv(m) && Enabled(m, op)
    ensures Inv(Step(m, op))
  {
    match op
    case OpArrive(q, r) => HeadInv(m, q, m.queues[q].head + [r]);
    case OpStart(q, r, sync) => StartInv(m, q, r, sync);
    case OpEnd(q, r) => EndInv(m, q, r);
    case OpResize(depth, nr) => ResizeExact(m, depth, nr);
    case OpJoin(q) => JoinInv(m, q);
    case OpInvalidate(q) => InvalidateInv(m, q, m.queues[q].busy);
  }

  lemma {:induction false} RunInv(depth: nat, nrRequests: nat, q: nat, ops: seq<Op>)
    requires IsRun(Fresh(depth, nrRequests, q), ops)
    ensures Inv(After(Fresh(depth, nrRequests, q), ops))
    decreases |ops|
  {
    if ops != [] {
      RunInv(depth, nrRequests, q, ops[..|ops| - 1]);
      StepInv(After(Fresh(depth, nrRequests, q), ops[..|ops| - 1]), ops[|ops| - 1]);
    }
  }

  /**
   * In every run, over all the queues that share the map: a tag's bit is set exactly when a request
   * carries the tag, its slot then holds that request, and no two requests carry the same tag.
   */
  lemma TagsExact(depth: nat, nrRequests: nat, q: nat, ops: seq<Op>, t: nat)
    requires IsRun(Fresh(depth, nrRequests, q), ops)
    requires t < |After(Fresh(depth, nrRequests, q), ops).bits|
    ensures var m := After(Fresh(depth, nrRequests, q), ops);
      && |m.index| == |m.bits|
      && (m.bits[t] <==> exists r :: r in m.tag && m.tag[r] == t)
      && (forall r :: m.index[t] == Held(r) <==> r in m.tag && m.tag[r] == t)
  {
    RunInv(depth, nrRequests, q, ops);
    var m := After(Fresh(depth, nrRequests, q), ops);
    if m.bits[t] {
      assert m.tag[m.index[t].rq] == t;
    }
  }

  /**
   * In every run, a request in flight can be ended, whatever the depth was lowered to meanwhile: its
   * tag becomes free and all other requests keep theirs.
   */
  lemma Endable(depth: nat, nrRequests: nat, q: nat, ops: seq<Op>, p: nat, r: nat)
    requires IsRun(Fresh(depth, nrRequests, q), ops)
    requires var m := After(Fresh(depth, nrRequests, q), ops); p in m.queues && r in m.queues[p].busy
    ensures var m := After(Fresh(depth, nrRequests, q), ops);
      var n := End(m, p, r);
      && r in m.tag && m.tag[r] < |n.bits| && |n.bits| == |n.index| == |m.index|
      && !n.bits[m.tag[r]] && n.index[m.tag[r]] == Empty && r !in n.queues[p].busy
      && (forall x :: x in n.tag <==> x in m.tag && x != r)
      && (forall x :: x in n.tag ==> n.tag[x] == m.tag[x] && m.tag[x] < |n.index| && n.index[m.tag[x]] == Held(x))
  {
    RunInv(depth, nrRequests, q, ops);
    var m := After(Fresh(depth, nrRequests, q), ops);
    EndInv(m, p, r);
    WithoutDescends(m.queues[p].busy, r, m.started, m.clock);
  }

  /**
   * A start of a synchronous request succeeds exactly when a tag is free, that of another one when a tag
   * is free outside the first quarter, and it takes the lowest of those.
   */
  lemma StartExact(m: Map, q: nat, r: nat, sync: bool)
    requires Inv(m) && q in m.queues && r !in m.tag
    ensures Start(m, q, r, sync).1 <==>
            exists t :: 0 <= t < m.maxDepth && !m.bits[t] && (sync || t >= m.maxDepth / 4)
    ensures !Start(m, q, r, sync).1 ==> Start(m, q, r, sync).0 == m
    ensures Start(m, q, r, sync).1 ==>
      var n := Start(m, q, r, sync).0;
      && r in n.tag && 0 <= n.tag[r] < m.maxDepth && !m.bits[n.tag[r]] && (sync || n.tag[r] >= m.maxDepth / 4)
      && (forall t :: 0 <= t < n.tag[r] && (sync || t >= m.maxDepth / 4) ==> m.bits[t])
      && n.queues[q].busy == [r] + m.queues[q].busy
  {
  }

  /** The first tags, up to `n`, are free. */
  predicate LowFree(bits: seq<bool>, n: nat) { n <= |bits| && forall t :: 0 <= t < n ==> !bits[t] }

  lemma {:induction false} InvalidateFrees(m: Map, q: nat, l: seq<nat>, n: nat)
    requires LowFree(m.bits, n)
    ensures LowFree(Invalidate(m, q, l).bits, n) && Invalidate(m, q, l).maxDepth == m.maxDepth
    decreases |l|
  {
    if l != [] { InvalidateFrees(Requeue(m, q, l[0]), q, l[1..], n); }
  }

  /** No call resizes the map or starts a synchronous request. */
  predicate AsyncOnly(ops: seq<Op>) {
    forall i :: 0 <= i < |ops| ==> !ops[i].OpResize? && (ops[i].OpStart? ==> !ops[i].sync)
  }

  lemma AsyncStep(m: Map, op: Op)
    requires Inv(m) && Enabled(m, op) && LowFree(m.bits, m.maxDepth / 4)
    requires !op.OpResize? && (op.OpStart? ==> !op.sync)
    ensures Step(m, op).maxDepth == m.maxDepth && LowFree(Step(m, op).bits, m.maxDepth / 4)
  {
    if op.OpStart? {
      StartExact(m, op.q, op.r, false);
    } else if op.OpInvalidate? {
      InvalidateFrees(m, op.q, m.queues[op.q].busy, m.maxDepth / 4);
    }
  }

  lemma {:induction false} AsyncRun(depth: nat, nrRequests: nat, q: nat, ops: seq<Op>)
    requires IsRun(Fresh(depth, nrRequests, q), ops) && AsyncOnly(ops)
    ensures var m := After(Fresh(depth, nrRequests, q), ops);
      Inv(m) && m.maxDepth == Depth(depth, nrRequests) && LowFree(m.bits, m.maxDepth / 4)
    decreases |ops|
  {
    RunInv(depth, nrRequests, q, ops);
    if ops != [] {
      var n := |ops| - 1;
      RunInv(depth, nrRequests, q, ops[..n]);
      AsyncRun(depth, nrRequests, q, ops[..n]);
      AsyncStep(After(Fresh(depth, nrRequests, q), ops[..n]), ops[n]);
    }
  }

  /** However many asynchronous requests there are, a synchronous one finds a tag, if the depth is at least four. */
  lemma SyncNeverStarved(depth: nat, nrRequests: nat, q: nat, ops: seq<Op>, m: Map, p: nat, r: nat)
    requires IsRun(Fresh(depth, nrRequests, q), ops) && AsyncOnly(ops) && m == After(Fresh(depth, nrRequests, q), ops)
    requires Depth(depth, nrRequests) >= 4 && p in m.queues && r !in m.tag
    ensures Start(m, p, r, true).1 && r in Start(m, p, r, true).0.tag && Start(m, p, r, true).0.tag[r] == 0
  {
    AsyncRun(depth, nrRequests, q, ops);
    assert !m.bits[0];
    StartExact(m, p, r, true);
  }

  // ---------------------------------------------------------------- invalidation

  function Reversed(l: seq<nat>): (r: seq<nat>)
    ensures |r| == |l|
    ensures forall i :: 0 <= i < |l| ==> r[i] == l[|l| - 1 - i]
  {
    if l == [] then [] else Reversed(l[1..]) + [l[0]]
  }

  lemma ReversedCat(l: seq<nat>, head: seq<nat>)
    requires l != []
    ensures Reversed(l) + head == Reversed(l[1..]) + ([l[0]] + head)
  {
  }

  lemma Cleared(tag: map<nat, nat>, l: seq<nat>)
    requires l != []
    ensures (tag - {l[0]}) - (set x | x in l[1..]) == tag - (set x | x in l)
  {
    assert l == [l[0]] + l[1..];
    assert (set x | x in l) == {l[0]} + (set x | x in l[1..]);
  }

  lemma SetTwice(queues: map<nat, Queue>, q: nat, u: Queue, v: Queue)
    ensures queues[q := u][q := v] == queues[q := v]
  {
  }

  /** The loop over the busy list: its requests end up, last one first, before what was in the dispatch queue. */
  lemma {:induction false} InvalidateLists(m: Map, q: nat, l: seq<nat>, head: seq<nat>, z: Map)
    requires Inv(m) && q in m.queues && m.queues[q] == Queue(head, l) && z == Invalidate(m, q, l)
    ensures z.queues == m.queues[q := Queue(Reversed(l) + head, [])]
    ensures z.tag == m.tag - (set r | r in l)
    decreases |l|
  {
    if l != [] {
      RequeueInv(m, q, l[0]);
      assert Without(l, l[0]) == l[1..];
      InvalidateLists(Requeue(m, q, l[0]), q, l[1..], [l[0]] + head, z);
      ReversedCat(l, head);
      Cleared(m.tag, l);
      SetTwice(m.queues, q, Queue([l[0]] + head, l[1..]), Queue(Reversed(l) + head, []));
    } else {
      assert Reversed(l) + head == head;
    }
  }

  predicate Ascending(l: seq<nat>, started: map<nat, nat>) {
    && (forall i :: 0 <= i < |l| ==> l[i] in started)
    && (forall i, j :: 0 <= i < j < |l| ==> started[l[i]] < started[l[j]])
  }

  /** A list with the latest start first, reversed, is in the order of the starts. */
  lemma ReversedAscends(l: seq<nat>, v: seq<nat>, started: map<nat, nat>, clock: nat)
    requires Descending(l, started, clock) && |v| == |l|
    requires forall i :: 0 <= i < |l| ==> v[i] == l[|l| - 1 - i]
    ensures Ascending(v, started)
    ensures forall r :: r in v <==> r in l
  {
    forall i, j | 0 <= i < j < |v| ensures started[v[i]] < started[v[j]] {
      assert v[i] == l[|l| - 1 - i] && v[j] == l[|l| - 1 - j];
    }
    forall r | r in l ensures r in v {
      var i :| 0 <= i < |l| && l[i] == r;
      assert v[|l| - 1 - i] == r;
    }
  }

  lemma Parts(v: seq<nat>, head: seq<nat>)
    ensures (v + head)[..|v|] == v && (v + head)[|v|..] == head
  {
  }

  /** What invalidating makes of one queue. */
  ghost predicate PutBack(u: Queue, v: Queue, started: map<nat, nat>) {
    && v.busy == [] && |v.head| == |u.busy| + |u.head| && v.head[|u.busy|..] == u.head
    && (forall r :: r in v.head[..|u.busy|] <==> r in u.busy)
    && Ascending(v.head[..|u.busy|], started)
  }

  lemma PutBackInOrder(u: Queue, started: map<nat, nat>, clock: nat)
    requires Descending(u.busy, started, clock)
    ensures PutBack(u, Queue(Reversed(u.busy) + u.head, []), started)
  {
    ReversedAscends(u.busy, Reversed(u.busy), started, clock);
    Parts(Reversed(u.busy), u.head);
  }

  /**
   * In every run, invalidating a queue's tags frees all of them and no other, and puts its started
   * requests before the waiting ones in the order in which they were started.
   */
  lemma InvalidateOrder(depth: nat, nrRequests: nat, q: nat, ops: seq<Op>, m: Map, p: nat, n: Map)
    requires IsRun(Fresh(depth, nrRequests, q), ops) && m == After(Fresh(depth, nrRequests, q), ops)
    requires p in m.queues && n == Step(m, OpInvalidate(p))
    ensures p in n.queues && PutBack(m.queues[p], n.queues[p], m.started)
    ensures forall r :: r in n.tag <==> r in m.tag && r !in m.queues[p].busy
    ensures forall r :: r in n.tag ==> n.tag[r] == m.tag[r]
    ensures forall o :: o in m.queues && o != p ==> o in n.queues && n.queues[o] == m.queues[o]
  {
    RunInv(depth, nrRequests, q, ops);
    InvalidateLists(m, p, m.queues[p].busy, m.queues[p].head, n);
    PutBackInOrder(m.queues[p], m.started, m.clock);
  }

  // ---------------------------------------------------------------- a map that grows too small

  /** That many requests, numbered from zero, are started one after the other. */
  function Starts(n: nat): seq<Op> {
    if n == 0 then [] else Starts(n - 1) + [OpStart(0, n - 1, true)]
  }

  /** The first `n` tags are in use, each by the request of its number. */
  ghost predicate Filled(m: Map, n: nat, depth: nat) {
    && n <= depth == |m.bits| == |m.index| == m.maxDepth && m.refcnt == 1 && 0 in m.queues
    && (forall t :: 0 <= t < depth ==> (m.bits[t] <==> t < n))
    && (forall r :: r in m.tag <==> 0 <= r < n) && (forall r :: r in m.tag ==> m.tag[r] == r)
    && (forall r :: 0 <= r < n ==> r in m.queues[0].busy)
  }

  lemma FillOne(m: Map, n: nat, depth: nat, k: Map)
    requires Filled(m, n, depth) && n < depth && k == Start(m, 0, n, true).0
    ensures Filled(k, n + 1, depth)
  {
    var t := FirstFree(m.bits, 0, depth);
    assert !m.bits[n];
    assert t == n;
    assert k.queues[0].busy == [n] + m.queues[0].busy;
  }

  lemma {:induction false} FillUp(n: nat, depth: nat, nrRequests: nat)
    requires n <= depth <= 2 * nrRequests
    ensures IsRun(Fresh(depth, nrRequests, 0), Starts(n)) &&
            Filled(After(Fresh(depth, nrRequests, 0), Starts(n)), n, depth)
  {
    if n > 0 {
      FillUp(n - 1, depth, nrRequests);
      var before, op := Starts(n - 1), OpStart(0, n - 1, true);
      var m := After(Fresh(depth, nrRequests, 0), before);
      assert Starts(n)[..|before|] == before && Starts(n)[|before|] == op;
      FillOne(m, n - 1, depth, Step(m, op));
    }
  }

  /**
   * A larger wish can give a smaller map.  Sixteen tags, nine requests started, nr_requests lowered to
   * four: asking for seventeen tags makes a map of eight, the copy runs over its end, and the request on
   * tag 8 has no slot and cannot be ended.
   */
  lemma ShrinkingGrowth()
    ensures IsRun(Fresh(16, 8, 0), Starts(9))
    ensures var m := After(Fresh(16, 8, 0), Starts(9));
      var r := Resize(m, 17, 4);
      && 0 in m.queues && 8 in m.queues[0].busy && 8 in m.tag && m.tag[8] == 8
      && !r.inside && |r.m.bits| == 8 && End(r.m, 0, 8) == r.m
  {
    var nine, sixteen := 9, 16;
    FillUp(nine, sixteen, 8);
    var m := After(Fresh(16, 8, 0), Starts(9));
    var d := Depth(17, 4);
    CopyAllAt(seq(d, _ => Empty), m.index, 0);
    CopyAllAt(seq(d, _ => false), m.bits, 0);
  }
}
