/** Lists of request numbers, as the block layer keeps them: linked lists and sorted trees alike. */
module Lists {

  predicate Distinct(l: seq<nat>) {
    forall i, j :: 0 <= i < j < |l| ==> l[i] != l[j]
  }

  function Pos(l: seq<nat>, id: nat): (p: nat)
    ensures p <= |l| && (p < |l| ==> l[p] == id) && (p == |l| ==> id !in l)
  {
    if l == [] || l[0] == id then 0 else 1 + Pos(l[1..], id)
  }

  /** list_del, and rb_erase on the sequence of a tree in its order. */
  function Without(l: seq<nat>, id: nat): seq<nat> {
    var p := Pos(l, id);
    if p == |l| then l else l[..p] + l[p + 1..]
  }

  /** rb_link_node on the sequence of a tree in its order. */
  function Inserted(l: seq<nat>, p: nat, id: nat): (r: seq<nat>)
    requires p <= |l|
    ensures |r| == |l| + 1 && r[p] == id
    ensures forall i :: 0 <= i < |r| && i != p ==> r[i] == l[if i < p then i else i - 1]
  {
    l[..p] + [id] + l[p..]
  }

  lemma PosUnique(l: seq<nat>, i: nat)
    requires Distinct(l) && i < |l|
    ensures Pos(l, l[i]) == i
  {
  }

  /** The index in `l` of what is at index `i` once position `p` is gone. */
  function Skip(p: nat, i: nat): nat { if i < p then i else i + 1 }

  lemma WithoutIndex(l: seq<nat>, id: nat)
    ensures |Without(l, id)| == if Pos(l, id) < |l| then |l| - 1 else |l|
    ensures forall i :: 0 <= i < |Without(l, id)| ==> Without(l, id)[i] == l[Skip(Pos(l, id), i)]
  {
    var p, w := Pos(l, id), Without(l, id);
    if p < |l| {
      var a, b := l[..p], l[p + 1..];
      assert w == a + b;
      forall i | 0 <= i < |w|
        ensures w[i] == l[Skip(p, i)]
      {
        assert w[i] == if i < p then a[i] else b[i - p];
      }
    }
  }

  lemma WithoutSet(l: seq<nat>, id: nat)
    requires Distinct(l)
    ensures forall x :: x in Without(l, id) <==> x in l && x != id
  {
    var p, w := Pos(l, id), Without(l, id);
    WithoutIndex(l, id);
    forall x
      ensures x in w <==> x in l && x != id
    {
      if x in w {
        var i := Pos(w, x);
        assert l[Skip(p, i)] == x && Skip(p, i) != p;
      }
      if x in l && x != id {
        var i := Pos(l, x);
        assert w[if i < p then i else i - 1] == x;
      }
    }
  }

  lemma WithoutAt(l: seq<nat>, id: nat)
    requires Distinct(l)
    ensures Distinct(Without(l, id))
    ensures forall x :: x in Without(l, id) <==> x in l && x != id
    ensures forall i :: 0 <= i < |Without(l, id)| ==> Without(l, id)[i] == l[Skip(Pos(l, id), i)]
    ensures |Without(l, id)| == if id in l then |l| - 1 else |l|
  {
    WithoutIndex(l, id);
    WithoutSet(l, id);
  }

  /** What is further down the list is removed there. */
  lemma WithoutTail(l: seq<nat>, id: nat)
    requires l != []
    ensures Without(l, id) == if l[0] == id then l[1..] else [l[0]] + Without(l[1..], id)
  {
    var p := Pos(l, id);
    if l[0] != id && p < |l| {
      var rest := l[1..];
      assert l[..p] + l[p + 1..] == [l[0]] + (rest[..p - 1] + rest[p..]);
    }
  }

  lemma InsertedSet(l: seq<nat>, p: nat, id: nat)
    requires p <= |l|
    ensures forall x :: x in Inserted(l, p, id) <==> x in l || x == id
  {
    var r := Inserted(l, p, id);
    forall x | x in l
      ensures x in r
    {
      var i := Pos(l, x);
      assert r[if i < p then i else i + 1] == x;
    }
  }

  /** list_move of `req` behind `next`, once `next` is gone: it takes the place of `next`. */
  function TakePlace(fifo: seq<nat>, req: nat, next: nat): seq<nat> {
    var rest := Without(fifo, req);
    var p := Pos(rest, next);
    if p < |rest| then rest[p := req] else rest
  }

  lemma TakePlaceAt(fifo: seq<nat>, req: nat, next: nat)
    requires Distinct(fifo) && req in fifo && next in fifo && req != next
    ensures var t, rest := TakePlace(fifo, req, next), Without(fifo, req);
            && |t| == |rest| && Distinct(t)
            && (forall i :: 0 <= i < |t| ==> t[i] == if rest[i] == next then req else rest[i])
            && (forall x :: x in t <==> x in fifo && x != next)
  {
    var rest := Without(fifo, req);
    WithoutAt(fifo, req);
    var p, t := Pos(rest, next), TakePlace(fifo, req, next);
    assert forall i :: 0 <= i < |rest| && i != p ==> rest[i] != next;
    assert t[p] == req;
    forall x | x in fifo && x != next && x != req
      ensures x in t
    {
      assert t[Pos(rest, x)] == x;
    }
  }

  function SetOf(l: seq<nat>): set<nat> { set x | x in l }

  /** `moved` are the members of `l`, each once. */
  ghost predicate OnceEach(moved: seq<nat>, l: seq<nat>) {
    Distinct(moved) && forall x :: x in moved <==> x in l
  }

  lemma OnceMore(moved: seq<nat>, l: seq<nat>, id: nat)
    requires Distinct(l) && id in l && OnceEach(moved, Without(l, id))
    ensures OnceEach([id] + moved, l)
  {
    WithoutAt(l, id);
    var m := [id] + moved;
    forall i, j | 0 <= i < j < |m| ensures m[i] != m[j] {
      assert m[j] == moved[j - 1];
      if i > 0 { assert m[i] == moved[i - 1]; }
    }
  }

  lemma CatAssoc<T>(a: seq<T>, b: seq<T>, c: seq<T>)
    ensures (a + b) + c == a + (b + c)
  {
  }
}
