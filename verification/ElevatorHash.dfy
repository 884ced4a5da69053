/** The elevator_queue's merge hash of block/elevator.c as the object its functions update in place. */
module ElevatorHashes {
  import opened Lists
  import opened MergeHash

  class ElevatorHash {
    const h: nat -> nat
    var chains: array<seq<nat>>
    /** The chain a request's hash node is linked into. */
    var at: map<nat, nat>
    /** The requests the scheduler holds. */
    var rq: map<nat, Rq>
    var last: Cached

    ghost function View(): Elv
      reads this, chains
    {
      Elv(chains[..], at, rq, last)
    }

    ghost predicate Valid()
      reads this, chains
    {
      Inv(View(), h)
    }

    /** elevator_alloc: empty chains. */
    constructor (h: nat -> nat)
      ensures Valid() && fresh(chains) && this.h == h && View() == After(h, [])
    {
      this.h := h;
      chains := new seq<nat>[ENTRIES](_ => []);
      at, rq, last := map[], map[], None;
      new;
      assert chains[..] == seq(ENTRIES, _ => []);
      RunInv(h, []);
    }

    method RqhashDel(x: nat)
      requires Linked(chains[..], at)
      modifies this`at, chains
      ensures View() == Del(old(View()), x)
    {
      if x in at {
        ghost var was := View();
        var b := at[x];
        chains[b] := Without(chains[b], x);
        at := at - {x};
        assert chains[..] == was.chains[b := Without(was.chains[b], x)];
      }
    }

    method RqhashAdd(x: nat)
      requires chains.Length == ENTRIES && x in rq && x !in at
      modifies this`at, chains
      ensures View() == Add(old(View()), h, x)
    {
      ghost var was := View();
      var b := Chain(h, Key(rq[x]));
      chains[b] := [x] + chains[b];
      at := at[x := b];
      assert chains[..] == was.chains[b := [x] + was.chains[b]];
    }

    method RqhashReposition(x: nat)
      requires Linked(chains[..], at) && x in rq
      modifies this`at, chains
      ensures View() == Reposition(old(View()), h, x) && Linked(chains[..], at)
    {
      RepositionLinks(View(), h, x);
      DelLinks(View(), x);
      RqhashDel(x);
      assert |chains[..]| == ENTRIES;
      RqhashAdd(x);
    }

    /** elv_rqhash_find: the walk unlinks the requests that cannot be merged with any more. */
    method RqhashFind(offset: nat) returns (hit: Cached)
      requires Linked(chains[..], at)
      modifies this`at, chains
      ensures (View(), hit) == Find(old(View()), h, offset)
    {
      ghost var was := View();
      assert |chains[..]| == ENTRIES;
      var b, i := Chain(h, offset), 0;
      while i < |chains[b]|
        invariant chains.Length == ENTRIES && Linked(chains[..], at)
        invariant Clean(chains[b], i, rq, offset)
        invariant Find(View(), h, offset) == Find(was, h, offset)
        decreases |chains[b]| - i
      {
        ghost var v := View();
        assert v.chains[b] == chains[b];
        var x := chains[b][i];
        if x !in rq || !rq[x].ok {
          FindUnlink(v, h, offset, i);
          RqhashDel(x);
          assert chains[b] == View().chains[b];
        } else if Key(rq[x]) == offset {
          ScanClean(chains[b], i, rq, offset);
          Unchanged(v, h, offset, Some(x));
          return Some(x);
        } else {
          i := i + 1;
        }
      }
      ScanClean(chains[b], i, rq, offset);
      assert View().chains[b] == chains[b];
      Unchanged(View(), h, offset, None);
      return None;
    }

    static lemma Unchanged(e: Elv, h: nat -> nat, offset: nat, hit: Cached)
      requires |e.chains| == ENTRIES && Scan(e.chains[Chain(h, offset)], e.rq, offset) ==
               (e.chains[Chain(h, offset)], {}, hit)
      ensures Find(e, h, offset) == (e, hit)
    {
      var b := Chain(h, offset);
      assert e.chains[b := e.chains[b]] == e.chains;
      assert e.at - {} == e.at;
    }

    /** elv_insert, sorted: the scheduler takes the request over. */
    method InsertSort(x: nat, r: Rq)
      requires Valid() && x !in rq
      modifies this, chains
      ensures Valid() && chains == old(chains) && View() == Insert(old(View()), h, x, r)
    {
      InsertInv(View(), h, x, r);
      assert |chains[..]| == ENTRIES;
      rq := rq[x := r];
      if r.ok {
        RqhashAdd(x);
        if last == None { last := Some(x); }
      }
    }

    /** What elv_dispatch_sort and elv_dispatch_add_tail have in common. */
    method DispatchOut(x: nat)
      requires Valid()
      modifies this, chains
      ensures Valid() && chains == old(chains) && View() == Dispatch(old(View()), x)
    {
      DispatchInv(View(), h, x);
      DelLinks(View(), x);
      if last == Some(x) { last := None; }
      RqhashDel(x);
      rq := rq - {x};
    }

    /** The end of a back merge without a neighbour: nr_sectors grows, elv_merged_request repositions. */
    method MergedBack(x: nat, n: nat)
      requires Linked(chains[..], at) && x in rq
      modifies this, chains
      ensures chains == old(chains) && View() == BackMerge(old(View()), h, x, n)
    {
      ghost var f := Longer(View(), x, n);
      rq := rq[x := rq[x].(nr := rq[x].nr + n)];
      assert View() == f;
      RqhashReposition(x);
      last := Some(x);
    }

    /** The end of a front merge without a neighbour. */
    method MergedFront(x: nat, n: nat)
      requires x in rq && n <= rq[x].sector
      modifies this`rq, this`last
      ensures View() == FrontMerge(old(View()), x, n)
    {
      rq := rq[x := rq[x].(sector := rq[x].sector - n, nr := rq[x].nr + n)];
      last := Some(x);
    }

    /** attempt_merge and elv_merge_requests, where the sectors of `x` may have grown just before. */
    method MergeRequests(x: nat, next: nat)
      requires Linked(chains[..], at) && x in rq && next in rq && x != next
      modifies this, chains
      ensures chains == old(chains) && View() == Absorb(old(View()), h, x, next)
    {
      ghost var f := Longer(View(), x, rq[next].nr);
      rq := rq[x := rq[x].(nr := rq[x].nr + rq[next].nr)];
      assert View() == f;
      RqhashReposition(x);
      ghost var g := Reposition(f, h, x);
      assert View() == g;
      RqhashDel(next);
      assert View() == Del(g, next);
      rq := rq - {next};
      last := Some(x);
    }

    /** The ELEVATOR_BACK_MERGE arm of __make_request where the bio closes the gap before `next`. */
    method JoinBack(x: nat, n: nat, next: nat)
      requires Linked(chains[..], at) && x in rq && next in rq && x != next
      modifies this, chains
      ensures chains == old(chains) && View() == BackJoin(old(View()), h, x, n, next)
    {
      ghost var f := Longer(View(), x, n);
      rq := rq[x := rq[x].(nr := rq[x].nr + n)];
      assert View() == f;
      MergeRequests(x, next);
    }

    /** The ELEVATOR_FRONT_MERGE arm of __make_request where the bio closes the gap after `prev`. */
    method JoinFront(x: nat, n: nat, prev: nat)
      requires Linked(chains[..], at) && x in rq && prev in rq && x != prev && n <= rq[x].sector
      modifies this, chains
      ensures chains == old(chains) && View() == FrontJoin(old(View()), h, x, n, prev)
    {
      ghost var f := Sooner(View(), x, n);
      rq := rq[x := rq[x].(sector := rq[x].sector - n, nr := rq[x].nr + n)];
      assert View() == f;
      MergeRequests(prev, x);
    }
  }
}
