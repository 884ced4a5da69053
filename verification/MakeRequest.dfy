/**
 * generic_make_request of block/blk-core.c: submissions from inside a driver's make_request function
 * are put on a list of the submitting thread, so that recursion over stacked devices becomes a loop.
 */
module MakeRequest {
  import opened Lists

  /** A bio, and the bios its driver submits in turn while handling it. */
  datatype Tree = Node(id: nat, kids: seq<Tree>)

  function Ids(trees: seq<Tree>): seq<nat> {
    if trees == [] then [] else [trees[0].id] + Ids(trees[1..])
  }

  function Kids(trees: seq<Tree>): seq<Tree> {
    if trees == [] then [] else trees[0].kids + Kids(trees[1..])
  }

  function Count(trees: seq<Tree>): nat {
    if trees == [] then 0 else 1 + Count(trees[0].kids) + Count(trees[1..])
  }

  /** All bios of a forest, depth first. */
  function Flat(trees: seq<Tree>): seq<nat> {
    if trees == [] then [] else [trees[0].id] + Flat(trees[0].kids) + Flat(trees[1..])
  }

  lemma {:induction false} CountCat(a: seq<Tree>, b: seq<Tree>)
    ensures Count(a + b) == Count(a) + Count(b)
    decreases |a|
  {
    if a == [] {
      assert a + b == b;
    } else {
      CountCat(a[1..], b);
      assert (a + b)[1..] == a[1..] + b;
    }
  }

  lemma {:induction false} FlatCat(a: seq<Tree>, b: seq<Tree>)
    ensures Flat(a + b) == Flat(a) + Flat(b)
    decreases |a|
  {
    if a == [] {
      assert a + b == b;
    } else {
      var c, rest := a + b, a[1..];
      FlatCat(rest, b);
      assert c[0] == a[0] && c[1..] == rest + b;
      CatAssoc([a[0].id] + Flat(a[0].kids), Flat(rest), Flat(b));
    }
  }

  lemma {:induction false} KidsCount(trees: seq<Tree>)
    ensures Count(Kids(trees)) + |trees| == Count(trees)
    decreases |trees|
  {
    if trees != [] {
      KidsCount(trees[1..]);
      CountCat(trees[0].kids, Kids(trees[1..]));
    }
  }

  /** A first-in first-out queue: the first bio is handled and what it submits goes to the back. */
  function Fifo(queue: seq<Tree>): seq<nat>
    decreases Count(queue)
  {
    if queue == [] then []
    else
      CountCat(queue[1..], queue[0].kids);
      [queue[0].id] + Fifo(queue[1..] + queue[0].kids)
  }

  /** Breadth first: one level of the forest after the other. */
  function Levels(trees: seq<Tree>): seq<nat>
    decreases Count(trees)
  {
    if trees == [] then []
    else
      KidsCount(trees);
      Ids(trees) + Levels(Kids(trees))
  }

  lemma {:induction false} KidsCat(a: seq<Tree>, b: seq<Tree>)
    ensures Kids(a + b) == Kids(a) + Kids(b)
    decreases |a|
  {
    if a == [] {
      assert a + b == b;
    } else {
      KidsCat(a[1..], b);
      assert (a + b)[1..] == a[1..] + b;
      CatAssoc(a[0].kids, Kids(a[1..]), Kids(b));
    }
  }

  /** Handling the first part of a queue leaves the rest, followed by all that was submitted meanwhile. */
  lemma {:induction false} FifoPart(a: seq<Tree>, b: seq<Tree>)
    ensures Fifo(a + b) == Ids(a) + Fifo(b + Kids(a))
    decreases |a|
  {
    if a == [] {
      assert a + b == b && b + [] == b;
    } else {
      var k := a[0].kids;
      assert (a + b)[0] == a[0] && (a + b)[1..] + k == a[1..] + (b + k);
      FifoPart(a[1..], b + k);
      CatAssoc(b, k, Kids(a[1..]));
      CatAssoc([a[0].id], Ids(a[1..]), Fifo(b + Kids(a)));
    }
  }

  /** The queue discipline is breadth first. */
  lemma {:induction false} FifoIsLevels(trees: seq<Tree>)
    ensures Fifo(trees) == Levels(trees)
    decreases Count(trees)
  {
    if trees != [] {
      KidsCount(trees);
      FifoPart(trees, []);
      assert trees + [] == trees && [] + Kids(trees) == Kids(trees);
      FifoIsLevels(Kids(trees));
    }
  }

  /** Every bio of the forest is handled exactly once. */
  lemma {:induction false} FifoOnce(queue: seq<Tree>)
    ensures multiset(Fifo(queue)) == multiset(Flat(queue))
    decreases Count(queue)
  {
    if queue != [] {
      var q, tail, kids := queue[0], queue[1..], queue[0].kids;
      CountCat(tail, kids);
      FifoOnce(tail + kids);
      FlatCat(tail, kids);
      assert multiset(Flat(tail) + Flat(kids)) == multiset(Flat(kids)) + multiset(Flat(tail));
      assert Flat(queue) == [q.id] + Flat(kids) + Flat(tail);
    }
  }

  // ---------------------------------------------------------------- the linked list

  class Bio {
    const tree: Tree
    var next: Bio?

    constructor (t: Tree)
      ensures tree == t && next == null
    {
      tree, next := t, null;
    }
  }

  /** current->bio_tail: null, or the address of bio_list, or the address of a bio's bi_next. */
  datatype Tail = Inactive | AtList | AtNext(bio: Bio)

  ghost function Trees(q: seq<Bio>): (r: seq<Tree>)
    ensures |r| == |q|
  {
    if q == [] then [] else [q[0].tree] + Trees(q[1..])
  }

  function Following(q: seq<Bio>, i: nat): Bio? { if i + 1 < |q| then q[i + 1] else null }

  /** The bios of a list in order, each pointing to the next. */
  ghost predicate Linked(q: seq<Bio>)
    reads q
  {
    && (forall i, j :: 0 <= i < j < |q| ==> q[i] != q[j])
    && (forall i :: 0 <= i < |q| ==> q[i].next == Following(q, i))
  }

  /** The two bios of a list whose link fields are written. */
  function Ends(q: seq<Bio>): set<Bio> { if q == [] then {} else {q[0], q[|q| - 1]} }

  class Task {
    var list: Bio?
    var tail: Tail
    ghost var queue: seq<Bio>   // the bios on the list
    var handled: seq<nat>
    var depth: nat              // make_request functions now running

    constructor ()
      ensures Idle() && handled == []
    {
      list, tail, queue, handled, depth := null, Inactive, [], [], 0;
    }

    /** Nothing is active. */
    ghost predicate Idle()
      reads this
    {
      list == null && tail == Inactive && queue == [] && depth == 0
    }

    /** A list is being worked on: it is well linked, and the tail is where the next bio goes. */
    ghost predicate Active()
      reads this`list, this`tail, this`queue, queue
    {
      && Linked(queue)
      && (if queue == [] then list == null && tail == AtList
          else list == queue[0] && tail == AtNext(queue[|queue| - 1]))
    }

    /** The branch of generic_make_request for a call from inside: the bio goes to the end of the list. */
    method Append(bio: Bio)
      requires Active() && bio !in queue
      modifies this`list, this`tail, this`queue, bio, Ends(queue)
      ensures Active() && queue == old(queue) + [bio]
    {
      match tail {
        case AtList => list := bio;
        case AtNext(last) => last.next := bio;
      }
      bio.next := null;
      tail := AtNext(bio);
      queue := queue + [bio];
    }
  
    /** The top of the loop: the first bio comes off the list. */
    method Take() returns (bio: Bio)
      requires Active() && queue != []
      modifies this`list, this`tail, this`queue, Ends(queue)
      ensures Active() && bio == old(queue)[0] && queue == old(queue)[1..] && bio.next == null
    {
      ghost var q := queue;
      assert forall i :: 0 <= i < |q| - 1 ==> q[1..][i] == q[i + 1] && Following(q[1..], i) == Following(q, i + 1);
      assert q[0].next == Following(q, 0);
      bio := list;
      list := bio.next;
      if bio.next == null {
        tail := AtList;
      } else {
        bio.next := null;
      }
      queue := queue[1..];
    }

    /** generic_make_request called from inside a make_request function. */
    method SubmitInside(t: Tree) returns (kid: Bio)
      requires Active()
      modifies this`list, this`tail, this`queue, Ends(queue)
      ensures Active() && queue == old(queue) + [kid] && fresh(kid) && kid.tree == t
    {
      kid := new Bio(t);
      Append(kid);
    }

    /** The driver's make_request function: it submits its bios one by one, always finding the list active. */
    method Handle(bio: Bio) returns (ghost more: seq<Bio>)
      requires Active() && depth == 0
      modifies this, Ends(queue)
      ensures Active() && depth == 0
      ensures handled == old(handled) + [bio.tree.id]
      ensures queue == old(queue) + more && Trees(more) == bio.tree.kids
      ensures forall b :: b in more ==> fresh(b)
    {
      depth := depth + 1;
      handled := handled + [bio.tree.id];
      more := SubmitAll(bio.tree.kids);
      depth := depth - 1;
    }

    method SubmitAll(kids: seq<Tree>) returns (ghost more: seq<Bio>)
      requires Active()
      modifies this`list, this`tail, this`queue, Ends(queue)
      ensures Active() && queue == old(queue) + more && Trees(more) == kids
      ensures forall b :: b in more ==> fresh(b)
      decreases |kids|
    {
      if kids == [] {
        more := [];
      } else {
        ghost var q := queue;
        var kid := SubmitInside(kids[0]);
        ghost var rest := SubmitAll(kids[1..]);
        more := [kid] + rest;
        Grown(q, kid, rest, kids);
      }
    }

    /** One turn of the loop. */
    method Step()
      requires Active() && depth == 0 && queue != []
      modifies this, queue
      ensures Active() && depth == 0
      ensures var t := old(Trees(queue));
              handled == old(handled) + [t[0].id] && Trees(queue) == t[1..] + t[0].kids
      ensures forall b :: b in queue ==> b in old(queue) || fresh(b)
    {
      ghost var q := queue;
      var first := Take();
      ghost var more := Handle(first);
      TreesCat(q[1..], more);
    }

    /**
     * generic_make_request from outside: everything submitted below it is handled, breadth first, before
     * it returns.
     */
    method Submit(bio: Bio)
      requires Idle() && bio.next == null
      modifies this
      ensures Idle() && handled == old(handled) + Levels([bio.tree])
    {
      ghost var goal := handled + Fifo([bio.tree]);
      list, tail := null, AtList;
      ghost var more := Handle(bio);
      ghost var left := Trees(queue);
      assert queue == more;
      FirstDone(bio.tree, left);
      while list != null
        invariant Active() && depth == 0 && left == Trees(queue)
        invariant handled + Fifo(left) == goal
        invariant forall b :: b in queue ==> fresh(b)
        decreases Count(left)
      {
        NextDone(handled, left);
        assert forall j :: 0 <= j < |queue| ==> fresh(queue[j]) by {
          assert forall j :: 0 <= j < |queue| ==> queue[j] in queue;
        }
        Step();
        left := Trees(queue);
      }
      tail := Inactive;
      FifoIsLevels([bio.tree]);
    }
  }

  lemma Grown(q: seq<Bio>, kid: Bio, rest: seq<Bio>, kids: seq<Tree>)
    requires kids != [] && kid.tree == kids[0] && Trees(rest) == kids[1..]
    ensures (q + [kid]) + rest == q + ([kid] + rest) && Trees([kid] + rest) == kids
  {
    CatAssoc(q, [kid], rest);
    assert ([kid] + rest)[1..] == rest && [kids[0]] + kids[1..] == kids;
  }

  lemma {:induction false} TreesCat(a: seq<Bio>, b: seq<Bio>)
    ensures Trees(a + b) == Trees(a) + Trees(b)
    decreases |a|
  {
    if a == [] {
      assert a + b == b;
    } else {
      var c, rest := a + b, a[1..];
      TreesCat(rest, b);
      assert c[0] == a[0] && c[1..] == rest + b;
      CatAssoc([a[0].tree], Trees(rest), Trees(b));
    }
  }

  lemma FirstDone(t: Tree, left: seq<Tree>)
    requires left == [] + t.kids
    ensures Fifo([t]) == [t.id] + Fifo(left)
  {
    assert [t][1..] + t.kids == left;
    CountCat([t][1..], t.kids);
  }

  lemma NextDone(handled: seq<nat>, left: seq<Tree>)
    requires left != []
    ensures var rest := left[1..] + left[0].kids;
            handled + Fifo(left) == (handled + [left[0].id]) + Fifo(rest) && Count(rest) < Count(left)
  {
    CountCat(left[1..], left[0].kids);
  }
}
