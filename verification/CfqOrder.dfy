/** The order of the requests in the trees of CFQ's queues. */
module CfqOrder {
  import opened Lists
  import opened NextCache
  import opened Cfq
  import opened CfqInv
  import opened CfqTheorems

  ghost predicate InOrder(c: Cfqd) { forall q :: q in c.qs ==> Sorted(c.f.sector, c.qs[q].tree) }

  lemma RemoveSorted(f: Facts, o: One, q: nat, id: nat)
    requires Sorted(f.sector, o.u.tree)
    ensures Sorted(f.sector, Remove(f, o, q, id).u.tree) && Sorted(f.sector, Dispatch(f, o, q, id).u.tree)
  {
    RemoveTree(f, o, q, id);
    WithoutSorted(f.sector, o.u.tree, id);
  }

  /** Once the loop of cfq_add_rq_rb is over, nothing is left at the sector. */
  lemma {:induction false} ClearSorted(f: Facts, o: One, q: nat, s: nat)
    requires Sorted(f.sector, o.u.tree)
    ensures var t := Clear(f, o, q, s).u.tree;
            Sorted(f.sector, t) && forall x :: x in t ==> SectorOf(f.sector, x) != s
    decreases |o.u.tree|
  {
    var al := Alias(f.sector, o.u.tree, s);
    if al.Some? {
      RemoveTree(f, o, q, al.id);
      RemoveSorted(f, o, q, al.id);
      ClearSorted(f, Dispatch(f, o, q, al.id), q, s);
    }
  }

  lemma AddRqRbSorted(f: Facts, o: One, q: nat, id: nat, key: int)
    requires Sorted(f.sector, o.u.tree)
    ensures Sorted(f.sector, AddRqRb(f, o, q, id, key).u.tree) && Sorted(f.sector, Insert(f, o, q, id, key).u.tree)
  {
    var m := o.(u := More(o.u, At(f.rq, id).sync));
    ClearSorted(f, m, q, SectorOf(f.sector, id));
    LinkedSorted(f.sector, Clear(f, m, q, SectorOf(f.sector, id)).u.tree, id);
  }

  lemma {:induction false} ForceOneSorted(f: Facts, o: One, q: nat)
    requires Sorted(f.sector, o.u.tree)
    ensures Sorted(f.sector, ForceOne(f, o, q).u.tree)
    decreases |o.u.tree|
  {
    if o.u.next.Some? && o.u.next.id in o.u.tree {
      RemoveTree(f, o, q, o.u.next.id);
      RemoveSorted(f, o, q, o.u.next.id);
      ForceOneSorted(f, Dispatch(f, o, q, o.u.next.id), q);
    }
  }

  lemma RoundSorted(c: Cfqd)
    requires InOrder(c)
    ensures InOrder(Round(c))
  {
    if c.sv.left.Some? && c.sv.left.id in c.qs {
      ForceOneSorted(c.f, Focus(c, c.sv.left.id), c.sv.left.id);
    }
  }

  lemma {:induction false} LoopSorted(c: Cfqd, n: nat)
    requires InOrder(c)
    ensures InOrder(Loop(c, n, Round))
    decreases n
  {
    var d := c.(sv := First(c.sv));
    if n > 0 && d.sv.left.Some? {
      RoundSorted(d);
      LoopSorted(Round(d), n - 1);
    }
  }

  /** A new first sector for a request that no tree holds, or that only its own queue's tree holds and gives up. */
  lemma OthersSorted(c: Cfqd, id: nat, s: nat, q: nat)
    requires InOrder(c) && forall p :: p in c.qs && p != q ==> id !in c.qs[p].tree
    ensures forall p :: p in c.qs && p != q ==> Sorted(c.f.sector[id := s], c.qs[p].tree)
  {
    forall p | p in c.qs && p != q ensures Sorted(c.f.sector[id := s], c.qs[p].tree) {
      OtherSector(c.f.sector, c.qs[p].tree, id, s);
    }
  }

  lemma OnlyThere(c: Cfqd, id: nat, q: nat)
    requires Inv(c) && (id in c.f.rq ==> c.f.rq[id].q == q)
    ensures forall p :: p in c.qs && p != q ==> id !in c.qs[p].tree
    ensures id !in c.f.rq && q in c.qs ==> id !in c.qs[q].tree
  {
    forall p | p in c.qs && id in c.qs[p].tree ensures id in c.f.rq && c.f.rq[id].q == p {
      assert AtRest(c.f, c.qs[p], p, c.sv.order);
      assert id in c.qs[p].fifo;
    }
  }

  lemma InsertSorted(c: Cfqd, id: nat, s: nat, r: Rq, key: int)
    requires Inv(c) && InOrder(c) && Enabled(c, OpInsert(id, s, r, key))
    ensures InOrder(Apply(c, OpInsert(id, s, r, key)))
  {
    var q := r.q;
    OnlyThere(c, id, q);
    OthersSorted(c, id, s, q);
    OtherSector(c.f.sector, c.qs[q].tree, id, s);
    var d := c.(f := c.f.(rq := c.f.rq[id := r], sector := c.f.sector[id := s]));
    AddRqRbSorted(d.f, Focus(d, q), q, id, key);
  }

  lemma FrontSorted(c: Cfqd, id: nat, s: nat, key: int)
    requires Inv(c) && InOrder(c) && Enabled(c, OpFront(id, s, key))
    ensures InOrder(Apply(c, OpFront(id, s, key)))
  {
    var q := c.f.rq[id].q;
    OnlyThere(c, id, q);
    OthersSorted(c, id, s, q);
    PulledSorted(c.f.sector, c.qs[q].tree, id, s);
    var d := c.(f := c.f.(sector := c.f.sector[id := s]));
    var o := Pulled(d.f, Focus(d, q), id);
    PulledTree(d.f, Focus(d, q), id);
    AddRqRbSorted(d.f, o, q, id, key);
    PutSorted(d, q, AddRqRb(d.f, o, q, id, key));
  }

  lemma PulledTree(f: Facts, o: One, id: nat)
    ensures Pulled(f, o, id).u.tree == Without(o.u.tree, id)
  {
  }

  lemma PulledSorted(sector: map<nat, nat>, tree: seq<nat>, id: nat, s: nat)
    requires Sorted(sector, tree)
    ensures Sorted(sector[id := s], Without(tree, id))
  {
    WithoutSorted(sector, tree, id);
    SortedDistinct(sector, tree);
    WithoutAt(tree, id);
    OtherSector(sector, Without(tree, id), id, s);
  }

  lemma PutSorted(c: Cfqd, q: nat, o: One)
    requires Sorted(c.f.sector, o.u.tree) && forall p :: p in c.qs && p != q ==> Sorted(c.f.sector, c.qs[p].tree)
    ensures InOrder(Put(c, q, o))
  {
  }

  lemma OutSorted(c: Cfqd, op: Op)
    requires InOrder(c) && Enabled(c, op) && (op.OpMerge? || op.OpDispatch?)
    ensures InOrder(Apply(c, op))
  {
    var id := if op.OpMerge? then op.next else op.id;
    var q := c.f.rq[id].q;
    RemoveSorted(c.f, Focus(c, q), q, id);
  }

  lemma ForceSorted(c: Cfqd)
    requires InOrder(c)
    ensures InOrder(Force(c))
  {
    LoopSorted(c, |c.sv.order|);
  }

  lemma SameTreesSorted(c: Cfqd, op: Op)
    requires InOrder(c) && (op.OpQueue? || op.OpResort? || op.OpFirst? || op.OpMoved?)
    ensures InOrder(Apply(c, op))
  {
  }

  lemma StepSorted(c: Cfqd, op: Op)
    requires Inv(c) && InOrder(c) && Enabled(c, op)
    ensures InOrder(Apply(c, op))
  {
    if op.OpInsert? {
      InsertSorted(c, op.id, op.s, op.r, op.key);
    } else if op.OpFront? {
      FrontSorted(c, op.id, op.s, op.key);
    } else if op.OpMerge? || op.OpDispatch? {
      OutSorted(c, op);
    } else if op.OpForce? {
      ForceSorted(c);
    } else {
      SameTreesSorted(c, op);
    }
  }

  /** In every run each queue's tree is in the order of the sectors, no two requests of a queue at the same one. */
  lemma {:induction false} TreesInOrder(classes: map<nat, Class>, f: Facts, ops: seq<Op>)
    requires IsRun(Init(classes, f), ops)
    ensures InOrder(After(Init(classes, f), ops))
    decreases |ops|
  {
    if ops != [] {
      var n := |ops| - 1;
      TreesInOrder(classes, f, ops[..n]);
      RunInv(classes, f, ops[..n]);
      StepSorted(After(Init(classes, f), ops[..n]), ops[n]);
    }
  }
}
