/** struct blk_queue_tag of block/blk-tag.c, with the lists of the queues that hold it. */
module QueueTags {
  import opened Lists
  import opened Tags

  class QueueTag {
    var tagMap: array<bool>
    var tagIndex: array<Slot>
    var maxDepth: nat
    var refcnt: nat
    /** rq->tag of the requests that have one. */
    var tag: map<nat, nat>
    var queues: map<nat, Queue>
    ghost var started: map<nat, nat>
    ghost var clock: nat

    ghost function View(): Map
      reads this, tagMap, tagIndex
    {
      Map(tagMap[..], tagIndex[..], maxDepth, refcnt, queues, tag, started, clock)
    }

    /** init_tag_map and blk_queue_init_tags for the first queue. */
    constructor (depth: nat, nrRequests: nat, q: nat)
      ensures fresh(tagMap) && fresh(tagIndex) && View() == Fresh(depth, nrRequests, q)
    {
      var d := if depth > 2 * nrRequests then 2 * nrRequests else depth;
      tagMap := new bool[d](_ => false);
      tagIndex := new Slot[d](_ => Empty);
      maxDepth, refcnt := d, 1;
      queues, tag := map[q := Queue([], [])], map[];
      started, clock := map[], 0;
      new;
      assert tagMap[..] == seq(d, _ => false);
      assert tagIndex[..] == seq(d, _ => Empty);
    }

    /** find_next_zero_bit. */
    method FindNextZero(limit: nat, from: nat) returns (t: nat)
      requires limit <= tagMap.Length
      ensures t == FirstFree(tagMap[..], from, limit)
    {
      t := from;
      while t < limit && tagMap[t]
        invariant FirstFree(tagMap[..], from, limit) == FirstFree(tagMap[..], t, limit)
      {
        t := t + 1;
      }
    }

    method StartTag(q: nat, r: nat, sync: bool) returns (full: bool)
      requires q in queues && r !in tag && maxDepth <= tagMap.Length == tagIndex.Length
      modifies this`tag, this`queues, this`started, this`clock, tagMap, tagIndex
      ensures View() == Start(old(View()), q, r, sync).0
      ensures full == !Start(old(View()), q, r, sync).1
    {
      ghost var was := View();
      var offset := if sync then 0 else maxDepth / 4;
      var t := FindNextZero(maxDepth, offset);
      if t >= maxDepth { return true; }
      tagMap[t] := true;
      tag := tag[r := t];
      tagIndex[t] := Held(r);
      var u := queues[q];
      queues := queues[q := Queue(Without(u.head, r), [r] + u.busy)];
      started, clock := started[r := clock], clock + 1;
      assert tagMap[..] == was.bits[t := true];
      assert tagIndex[..] == was.index[t := Held(r)];
      return false;
    }

    method EndTag(q: nat, r: nat)
      requires q in queues && r in tag && tagMap.Length == tagIndex.Length
      modifies this`tag, this`queues, tagMap, tagIndex
      ensures View() == End(old(View()), q, r)
    {
      ghost var was := View();
      var t := tag[r];
      if t >= tagMap.Length { return; }
      queues := queues[q := queues[q].(busy := Without(queues[q].busy, r))];
      tag := tag - {r};
      tagIndex[t] := Empty;
      tagMap[t] := false;
      assert tagMap[..] == was.bits[t := false];
      assert tagIndex[..] == was.index[t := Empty];
    }

    /** blk_requeue_request of a tagged request, no barrier active. */
    method RequeueRequest(q: nat, r: nat)
      requires q in queues && r in tag && |tagMap[..]| == |tagIndex[..]|
      modifies this`tag, this`queues, tagMap, tagIndex
      ensures View() == Requeue(old(View()), q, r)
    {
      assert |tagMap[..]| == |tagIndex[..]|;
      EndTag(q, r);
      queues := queues[q := queues[q].(head := [r] + queues[q].head)];
    }

    method InvalidateTags(q: nat)
      requires q in queues && Inv(View())
      modifies this`tag, this`queues, tagMap, tagIndex
      ensures View() == Invalidate(old(View()), q, old(queues)[q].busy)
    {
      ghost var v := View();
      ghost var goal := Invalidate(v, q, v.queues[q].busy);
      while queues[q].busy != []
        invariant tagMap == old(tagMap) && tagIndex == old(tagIndex)
        invariant q in queues && View() == v && Pending(v, q, goal)
        decreases |queues[q].busy|
      {
        var r := queues[q].busy[0];
        ghost var k := Requeue(v, q, r);
        PendingRound(v, q, goal, k);
        RequeueRequest(q, r);
        assert View() == k;
        v := k;
      }
    }

    /** memcpy of all of `from` into the start of `a`; whether it stayed inside. */
    static method Memcpy<T>(a: array<T>, from: array<T>) returns (inside: bool)
      requires a != from
      modifies a
      ensures (a[..], inside) == CopyAll(old(a[..]), from[..], 0)
    {
      inside := true;
      ghost var goal := CopyAll(a[..], from[..], 0);
      var i := 0;
      while i < from.Length
        invariant 0 <= i <= from.Length && from[..] == old(from[..])
        invariant goal == (CopyAll(a[..], from[..], i).0, inside && CopyAll(a[..], from[..], i).1)
      {
        ghost var was := a[..];
        if i < a.Length {
          a[i] := from[i];
          assert a[..] == was[i := from[..][i]];
        } else {
          inside := false;
        }
        i := i + 1;
      }
    }

    /** blk_queue_resize_tags. */
    method ResizeTags(depth: nat, nrRequests: nat) returns (ok: bool, inside: bool)
      modifies this`tagMap, this`tagIndex, this`maxDepth
      ensures Resized(View(), ok, inside) == Resize(old(View()), depth, nrRequests)
    {
      if depth <= tagMap.Length {
        maxDepth := depth;
        return true, true;
      }
      if refcnt != 1 { return false, true; }
      var d := if depth > 2 * nrRequests then 2 * nrRequests else depth;
      var index := new Slot[d](_ => Empty);
      var bits := new bool[d](_ => false);
      assert index[..] == seq(d, _ => Empty) && bits[..] == seq(d, _ => false);
      var first := Memcpy(index, tagIndex);
      var second := Memcpy(bits, tagMap);
      tagMap, tagIndex, maxDepth := bits, index, d;
      return true, first && second;
    }
  }
}
