/** struct cfq_data of block/cfq-iosched.c, updated in place and proved against the functions of Cfq. */
module CfqDatas {
  import opened Lists
  import opened NextCache
  import opened Cfq
  import opened CfqInv
  import opened CfqTheorems

  class CfqData {
    var f: Facts
    var qs: map<nat, Queue>
    var sv: Service
    ghost var sent: seq<nat>
    ghost var bug: bool

    ghost function View(): Cfqd
      reads this
    {
      Cfqd(f, qs, sv, sent, bug)
    }

    /** One queue as the functions of Cfq see it. */
    ghost function On(q: nat): One
      requires q in qs
      reads this
    {
      One(qs[q], sv, sent, bug)
    }

    constructor (classes: map<nat, Class>, f: Facts)
      ensures View() == Init(classes, f)
    {
      this.f := f;
      qs, sv := map[], Service([], None, 0, classes, map[]);
      sent, bug := [], false;
    }

    // -------------------------------------------------------------- the service tree

    /** cfq_rb_first. */
    method RbFirst() returns (q: Opt)
      modifies this`sv
      ensures sv == First(old(sv)) && q == sv.left
    {
      if sv.left.None? && sv.order != [] {
        sv := sv.(left := Some(sv.order[0]));
      }
      return sv.left;
    }

    /** cfq_rb_erase. */
    method RbErase(q: nat)
      modifies this`sv
      ensures sv == Erase(old(sv), q)
    {
      if sv.left == Some(q) {
        sv := sv.(left := None);
      }
      sv := sv.(order := Without(sv.order, q));
    }

    /** The walk of cfq_service_tree_add, over the order of the tree. */
    method FindPlace(cls: Class, key: int) returns (p: nat, left: bool)
      ensures p == Place(sv, sv.order, cls, key) && (left <==> p == 0)
    {
      p, left := 0, true;
      while p < |sv.order| && !Sooner(sv, cls, key, sv.order[p])
        invariant p <= |sv.order| && (left <==> p == 0)
        invariant Place(sv, sv.order, cls, key) == p + Place(sv, sv.order[p..], cls, key)
      {
        assert sv.order[p..][1..] == sv.order[p + 1..];
        p, left := p + 1, false;
      }
    }

    /** cfq_service_tree_add, with the key it has come to. */
    method ServiceTreeAdd(q: nat, key: int)
      modifies this`sv
      ensures sv == ServiceAdd(old(sv), q, key)
    {
      if q in sv.order {
        if key == KeyOf(sv, q) { return; }
        RbErase(q);
      }
      var p, left := FindPlace(ClassOf(sv, q), key);
      if left {
        sv := sv.(left := Some(q));
      }
      sv := sv.(key := sv.key[q := key], order := Inserted(sv.order, p, q));
    }

    // -------------------------------------------------------------- one queue

    /** cfq_add_cfqq_rr. */
    method AddCfqqRr(q: nat, key: int)
      requires q in qs
      modifies this`qs, this`sv, this`bug
      ensures q in qs && On(q) == AddRr(old(On(q)), q, key) && qs == old(qs)[q := qs[q]]
    {
      bug := bug || qs[q].onRr;
      qs := qs[q := qs[q].(onRr := true)];
      sv := sv.(busy := sv.busy + 1);
      ServiceTreeAdd(q, key);
    }

    /** cfq_del_cfqq_rr. */
    method DelCfqqRr(q: nat)
      requires q in qs
      modifies this`qs, this`sv, this`bug
      ensures q in qs && On(q) == DelRr(old(On(q)), q) && qs == old(qs)[q := qs[q]]
    {
      bug := bug || !qs[q].onRr;
      qs := qs[q := qs[q].(onRr := false)];
      if q in sv.order { RbErase(q); }
      bug := bug || sv.busy == 0;
      sv := sv.(busy := if sv.busy == 0 then 0 else sv.busy - 1);
    }

    /** cfq_remove_request, with cfq_del_rq_rb. */
    method RemoveRequest(q: nat, id: nat)
      requires q in qs
      modifies this`qs, this`sv, this`bug
      ensures q in qs && On(q) == Remove(f, old(On(q)), q, id) && qs == old(qs)[q := qs[q]]
    {
      var u := qs[q];
      if u.next == Some(id) {
        u := u.(next := FindNext(u.tree, id, Chooser(f)));
      }
      u := u.(fifo := Without(u.fifo, id));
      bug := bug || Counted(u, At(f.rq, id).sync) == 0 || id !in u.tree;
      u := Less(u, At(f.rq, id).sync).(tree := Without(u.tree, id));
      qs := qs[q := u];
      if u.onRr && u.tree == [] { DelCfqqRr(q); }
    }

    /** cfq_dispatch_insert. */
    method DispatchInsert(q: nat, id: nat)
      requires q in qs
      modifies this`qs, this`sv, this`bug, this`sent
      ensures q in qs && On(q) == Dispatch(f, old(On(q)), q, id) && qs == old(qs)[q := qs[q]]
    {
      RemoveRequest(q, id);
      qs := qs[q := qs[q].(dispatched := qs[q].dispatched + 1)];
      sent := sent + [id];
    }

    /** The loop of cfq_add_rq_rb: what already has the sector is dispatched. */
    method ClearAliases(q: nat, s: nat)
      requires q in qs
      modifies this`qs, this`sv, this`bug, this`sent
      ensures q in qs && On(q) == Clear(f, old(On(q)), q, s) && qs == old(qs)[q := qs[q]]
    {
      ghost var goal, was := Clear(f, On(q), q, s), qs;
      var alias := Alias(f.sector, qs[q].tree, s);
      while alias.Some?
        invariant q in qs && qs == was[q := qs[q]]
        invariant Clear(f, On(q), q, s) == goal && alias == Alias(f.sector, qs[q].tree, s)
        decreases |qs[q].tree|
      {
        ghost var u := qs[q];
        RemoveTree(f, On(q), q, alias.id);
        DispatchInsert(q, alias.id);
        PutTwice(was, q, u, qs[q]);
        alias := Alias(f.sector, qs[q].tree, s);
      }
    }

    /** What cfq_add_rq_rb does once the sector is free. */
    function LinkIn(f: Facts, c: One, q: nat, id: nat, key: int): One {
      var l := c.(u := c.u.(tree := Linked(f.sector, c.u.tree, id)));
      var r := if l.u.onRr then l else AddRr(l, q, key);
      r.(u := r.u.(next := Pick(r.u.next, Some(id), Chooser(f))))
    }

    method LinkRq(q: nat, id: nat, key: int)
      requires q in qs
      modifies this`qs, this`sv, this`bug
      ensures q in qs && On(q) == LinkIn(f, old(On(q)), q, id, key) && qs == old(qs)[q := qs[q]]
    {
      qs := qs[q := qs[q].(tree := Linked(f.sector, qs[q].tree, id))];
      if !qs[q].onRr { AddCfqqRr(q, key); }
      qs := qs[q := qs[q].(next := Pick(qs[q].next, Some(id), Chooser(f)))];
    }

    /** cfq_add_rq_rb. */
    method AddRqToTree(q: nat, id: nat, key: int)
      requires q in qs
      modifies this`qs, this`sv, this`bug, this`sent
      ensures q in qs && On(q) == AddRqRb(f, old(On(q)), q, id, key) && qs == old(qs)[q := qs[q]]
    {
      qs := qs[q := More(qs[q], At(f.rq, id).sync)];
      ClearAliases(q, SectorOf(f.sector, id));
      LinkRq(q, id, key);
    }

    /** cfq_insert_request. */
    method InsertRequest(q: nat, id: nat, s: nat, r: Rq, key: int)
      requires q in qs
      modifies this
      ensures f == old(f).(rq := old(f).rq[id := r], sector := old(f).sector[id := s])
      ensures q in qs && On(q) == Insert(f, old(On(q)), q, id, key) && qs == old(qs)[q := qs[q]]
    {
      f := f.(rq := f.rq[id := r], sector := f.sector[id := s]);
      AddRqToTree(q, id, key);
      SetFifo(q, qs[q].fifo + [id]);
    }

    method SetFifo(q: nat, fifo: seq<nat>)
      requires q in qs
      modifies this`qs
      ensures q in qs && On(q) == old(On(q)).(u := old(qs)[q].(fifo := fifo)) && qs == old(qs)[q := qs[q]]
    {
      qs := qs[q := qs[q].(fifo := fifo)];
    }

    /** The first half of cfq_reposition_rq_rb. */
    method PullOut(q: nat, id: nat)
      requires q in qs
      modifies this`qs, this`bug
      ensures q in qs && On(q) == Pulled(f, old(On(q)), id) && qs == old(qs)[q := qs[q]]
    {
      var u, sync := qs[q], At(f.rq, id).sync;
      bug := bug || Counted(u, sync) == 0;
      qs := qs[q := Less(u, sync).(tree := Without(u.tree, id))];
    }

    /** cfq_merged_request after a front merge, with cfq_reposition_rq_rb. */
    method Reposition(q: nat, id: nat, s: nat, key: int)
      requires q in qs
      modifies this
      ensures f == old(f).(sector := old(f).sector[id := s])
      ensures q in qs && On(q) == AddRqRb(f, Pulled(f, old(On(q)), id), q, id, key) && qs == old(qs)[q := qs[q]]
    {
      f := f.(sector := f.sector[id := s]);
      PullOut(q, id);
      AddRqToTree(q, id, key);
    }

    static lemma PutIs(c: Cfqd, q: nat, o: One, z: Cfqd)
      requires z.f == c.f && z.qs == c.qs[q := o.u] && z.sv == o.sv && z.sent == o.sent && z.bug == o.bug
      ensures z == Put(c, q, o)
    {
    }

    /** cfq_merged_requests. */
    method MergedRequests(q: nat, req: nat, next: nat)
      requires q in qs
      modifies this`qs, this`sv, this`bug
      ensures q in qs && On(q) == Merged(f, old(On(q)), q, req, next) && qs == old(qs)[q := qs[q]]
    {
      var moved := TakePlace(qs[q].fifo, req, next);
      RemoveRequest(q, next);
      if At(f.rq, next).start < At(f.rq, req).start { SetFifo(q, moved); }
    }

    // -------------------------------------------------------------- forced dispatch

    /** Queue `q` on its way from `a` to empty: `m` has been sent, and the queue leaves the service tree at the end. */
    ghost static predicate Draining(f: Facts, a: One, o: One, q: nat, m: seq<nat>) {
      && Rests(f, o, q) && OthersStay(a.sv, o.sv, q) && o.sent == a.sent + m
      && Split(m, SetOf(a.u.tree), SetOf(o.u.tree))
      && o.sv.order == if o.u.tree == [] then Without(a.sv.order, q) else a.sv.order
    }

    static lemma DrainingStart(f: Facts, a: One, q: nat)
      requires Rests(f, a, q)
      ensures Draining(f, a, a, q, [])
    {
      if a.u.tree == [] { WithoutAbsent(a.sv.order, q); }
    }

    static lemma DrainingStep(f: Facts, a: One, o: One, q: nat, m: seq<nat>, id: nat, d: One)
      requires Draining(f, a, o, q, m) && id in o.u.tree && d == Dispatch(f, o, q, id)
      ensures Draining(f, a, d, q, m + [id]) && |d.u.tree| < |o.u.tree|
    {
      SendOk(f, o, q, id, d);
      OthersTwice(a.sv, o.sv, d.sv, q);
      CatAssoc(a.sent, m, [id]);
      WithoutAt(o.u.tree, id);
      SplitOne(m, SetOf(a.u.tree), SetOf(o.u.tree), id, SetOf(d.u.tree));
    }

    static lemma SplitOne(m: seq<nat>, held: set<nat>, rest: set<nat>, id: nat, less: set<nat>)
      requires Split(m, held, rest) && id in rest && forall x :: x in less <==> x in rest && x != id
      ensures Split(m + [id], held, less)
    {
      CatDistinct(m, [id]);
    }

    static lemma PutTwice(qs: map<nat, Queue>, q: nat, u: Queue, v: Queue)
      ensures qs[q := u][q := v] == qs[q := v]
    {
    }

    /** One round of __cfq_forced_dispatch_cfqq. */
    method SendNext(q: nat, ghost a: One, ghost m: seq<nat>) returns (id: nat)
      requires q in qs && Draining(f, a, On(q), q, m) && qs[q].next.Some?
      modifies this`qs, this`sv, this`bug, this`sent
      ensures q in qs && qs == old(qs)[q := qs[q]] && Draining(f, a, On(q), q, m + [id])
      ensures |qs[q].tree| < |old(qs)[q].tree|
    {
      ghost var o := On(q);
      id := qs[q].next.id;
      DrainingStep(f, a, o, q, m, id, Dispatch(f, o, q, id));
      DispatchInsert(q, id);
    }

    static lemma DrainingDone(f: Facts, a: One, o: One, q: nat, m: seq<nat>)
      requires Draining(f, a, o, q, m) && o.u.next.None?
      ensures o.u.tree == []
    {
    }

    /**
     * __cfq_forced_dispatch_cfqq: the queue's requests `m` are sent, each once, and the queue is empty
     * and off the tree.
     */
    method ForcedDispatchCfqq(q: nat) returns (n: nat, ghost m: seq<nat>)
      requires q in qs && Rests(f, On(q), q)
      modifies this`qs, this`sv, this`bug, this`sent
      ensures q in qs && qs == old(qs)[q := qs[q]] && n == |m|
      ensures Draining(f, old(On(q)), On(q), q, m) && qs[q].tree == []
    {
      ghost var a, was := On(q), qs;
      n, m := 0, [];
      DrainingStart(f, a, q);
      while qs[q].next.Some?
        invariant q in qs && n == |m| && qs == was[q := qs[q]] && Draining(f, a, On(q), q, m)
        decreases |qs[q].tree|
      {
        ghost var u := qs[q];
        var id := SendNext(q, a, m);
        PutTwice(was, q, u, qs[q]);
        n, m := n + 1, m + [id];
      }
      DrainingDone(f, a, On(q), q, m);
    }

    /** The body of the loop of cfq_forced_dispatch. */
    method ForceRound(q: nat) returns (n: nat, ghost m: seq<nat>)
      requires Inv(View()) && sv.left == Some(q)
      modifies this`qs, this`sv, this`bug, this`sent
      ensures RoundDone(old(View()), View(), m) && n == |m|
    {
      ghost var c := View();
      assert q == sv.order[0] && q in sv.order;
      FocusRests(c, q);
      n, m := ForcedDispatchCfqq(q);
      ghost var o := On(q);
      EmptyFifo(f, o.u, q, o.sv.order);
      bug := bug || qs[q].fifo != [];
      PutIs(c, q, o, View());
      RoundIs(c, q, o, m, View());
    }

    static lemma RoundIs(c: Cfqd, q: nat, o: One, m: seq<nat>, z: Cfqd)
      requires Inv(c) && q in c.qs && q in c.sv.order && Draining(c.f, Focus(c, q), o, q, m) && o.u.tree == [] &&
               z == Put(c, q, o)
      ensures RoundDone(c, z, m)
    {
      PutOk(c, q, o);
      WithoutAt(c.sv.order, q);
      forall p, x | p in c.qs && x in c.qs[p].tree && x in c.qs[q].tree ensures p == q {
        HeldOnce(c, p, q, x);
      }
      OneDrained(c.qs, q, o.u, m, z.qs);
    }

    /** The loop of cfq_forced_dispatch on its way: `m` has been sent of what was held at first. */
    ghost static predicate Underway(a: Cfqd, c: Cfqd, m: seq<nat>) {
      Inv(c) && c.sent == a.sent + m && Split(m, Held(a.qs), Held(c.qs))
    }

    static lemma UnderwayMore(a: Cfqd, c: Cfqd, m: seq<nat>, e: Cfqd, r: seq<nat>)
      requires Underway(a, c, m) && RoundDone(c, e, r)
      ensures Underway(a, e, m + r)
    {
      CatAssoc(a.sent, m, r);
      CatDistinct(m, r);
    }

    static lemma UnderwayFirst(a: Cfqd, c: Cfqd, m: seq<nat>, e: Cfqd)
      requires Underway(a, c, m) && e == c.(sv := First(c.sv))
      ensures Underway(a, e, m) && |e.sv.order| == |c.sv.order| && (e.sv.left.None? ==> e.sv.order == [])
    {
      FirstInv(c);
    }

    static lemma UnderwayDone(a: Cfqd, c: Cfqd, m: seq<nat>)
      requires Underway(a, c, m) && c.sv.order == []
      ensures AllOnce(m, Held(a.qs)) && c.sv.busy == 0
      ensures forall q :: q in c.qs ==> c.qs[q].tree == [] && c.qs[q].fifo == []
    {
      NoneLeft(c);
    }

    /** cfq_forced_dispatch: everything held is sent, each request once, and no queue is busy. */
    method ForcedDispatch() returns (n: nat, ghost m: seq<nat>)
      requires Inv(View())
      modifies this`qs, this`sv, this`bug, this`sent
      ensures Inv(View()) && sent == old(sent) + m && n == |m| && AllOnce(m, Held(old(qs)))
      ensures sv.order == [] && sv.busy == 0 && forall q :: q in qs ==> qs[q].tree == [] && qs[q].fifo == []
    {
      ghost var a := View();
      n, m := 0, [];
      var first := RbFirst();
      UnderwayFirst(a, a, [], View());
      while first.Some?
        invariant first == sv.left && n == |m| && Underway(a, View(), m) && (first.None? ==> sv.order == [])
        decreases |sv.order|
      {
        ghost var c := View();
        var k, r := ForceRound(first.id);
        ghost var e := View();
        UnderwayMore(a, c, m, e, r);
        n, m := n + k, m + r;
        first := RbFirst();
        UnderwayFirst(a, e, m, View());
      }
      UnderwayDone(a, View(), m);
    }
  }
}
