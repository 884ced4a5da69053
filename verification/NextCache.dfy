/**
 * The sorted requests of a scheduler with the request it would serve next kept beside them, as the
 * anticipatory scheduler does per direction and CFQ per queue.  A tree is the sequence of its requests.
 */
module NextCache {
  import opened Lists

  datatype Opt = None | Some(id: nat)

  /** The better of two requests, `first` telling whether it is the first of them. */
  function Pick(a: Opt, b: Opt, first: (nat, nat) -> bool): (r: Opt)
    ensures r.None? <==> a.None? && b.None?
    ensures r == a || r == b
  {
    if a.None? || a == b then b
    else if b.None? then a
    else if first(a.id, b.id) then a
    else b
  }

  /** as_find_next_rq and cfq_find_next_rq: the better neighbour, the order being a ring towards the end. */
  function FindNext(tree: seq<nat>, id: nat, first: (nat, nat) -> bool): Opt {
    var p := Pos(tree, id);
    if p == |tree| then None
    else
      var prev := if p > 0 then Some(tree[p - 1]) else None;
      var next := if p + 1 < |tree| then Some(tree[p + 1]) else if tree[0] != id then Some(tree[0]) else None;
      Pick(next, prev, first)
  }

  /** A request is cached exactly when there is one, and it is one of them. */
  predicate NextOk(tree: seq<nat>, next: Opt) {
    (next.None? <==> tree == []) && NextIn(tree, next)
  }

  predicate NextIn(tree: seq<nat>, next: Opt) { next.Some? ==> next.id in tree }

  /** What the cache is before a request is taken out. */
  function NextWithout(tree: seq<nat>, next: Opt, id: nat, first: (nat, nat) -> bool): Opt {
    if next == Some(id) then FindNext(tree, id, first) else next
  }

  /** A neighbour is found exactly when the request is not alone, and it is another request. */
  lemma FindNextOk(tree: seq<nat>, id: nat, first: (nat, nat) -> bool)
    requires Distinct(tree) && id in tree
    ensures NextOk(Without(tree, id), FindNext(tree, id, first))
  {
    var p, r := Pos(tree, id), FindNext(tree, id, first);
    WithoutAt(tree, id);
    if r.Some? {
      assert r.id in tree;
      if p > 0 { assert tree[p - 1] != tree[p]; }
      if p + 1 < |tree| { assert tree[p + 1] != tree[p]; }
    } else {
      assert |tree| == 1;
    }
  }

  lemma NextWithoutOk(tree: seq<nat>, next: Opt, id: nat, first: (nat, nat) -> bool)
    requires Distinct(tree) && id in tree && NextIn(tree, next)
    ensures NextIn(Without(tree, id), NextWithout(tree, next, id, first))
    ensures NextOk(tree, next) ==> NextOk(Without(tree, id), NextWithout(tree, next, id, first))
  {
    FindNextOk(tree, id, first);
    WithoutAt(tree, id);
  }

  // ---------------------------------------------------------------- by sector

  function SectorOf(sector: map<nat, nat>, id: nat): nat { if id in sector then sector[id] else 0 }

  /** The request elv_rb_add finds at the sector already, if there is one. */
  function Alias(sector: map<nat, nat>, tree: seq<nat>, s: nat): (a: Opt)
    ensures a.Some? ==> a.id in tree && SectorOf(sector, a.id) == s
    ensures a.None? ==> forall x :: x in tree ==> SectorOf(sector, x) != s
  {
    if tree == [] then None
    else if SectorOf(sector, tree[0]) == s then Some(tree[0])
    else Alias(sector, tree[1..], s)
  }

  function Slot(sector: map<nat, nat>, tree: seq<nat>, s: nat): (p: nat)
    ensures p <= |tree|
  {
    if tree == [] || SectorOf(sector, tree[0]) >= s then 0 else 1 + Slot(sector, tree[1..], s)
  }

  /** elv_rb_add where no alias is in the way. */
  function Linked(sector: map<nat, nat>, tree: seq<nat>, id: nat): seq<nat> {
    Inserted(tree, Slot(sector, tree, SectorOf(sector, id)), id)
  }

  lemma LinkedOk(sector: map<nat, nat>, tree: seq<nat>, id: nat)
    requires Distinct(tree) && id !in tree
    ensures Distinct(Linked(sector, tree, id)) && |Linked(sector, tree, id)| == |tree| + 1
    ensures forall x :: x in Linked(sector, tree, id) <==> x in tree || x == id
  {
    var p := Slot(sector, tree, SectorOf(sector, id));
    InsertedSet(tree, p, id);
    var r := Inserted(tree, p, id);
    forall i, j | 0 <= i < j < |r| ensures r[i] != r[j] {
      if i != p && j != p {
        assert r[i] == tree[if i < p then i else i - 1] && r[j] == tree[if j < p then j else j - 1];
      } else if i == p {
        assert r[j] == tree[j - 1];
      } else {
        assert r[i] == tree[i];
      }
    }
  }

  /** A tree in the order of the sectors, no two requests at the same one. */
  ghost predicate Sorted(sector: map<nat, nat>, tree: seq<nat>) {
    forall i, j :: 0 <= i < j < |tree| ==> SectorOf(sector, tree[i]) < SectorOf(sector, tree[j])
  }

  lemma SortedDistinct(sector: map<nat, nat>, tree: seq<nat>)
    requires Sorted(sector, tree)
    ensures Distinct(tree)
  {
  }

  lemma WithoutSorted(sector: map<nat, nat>, tree: seq<nat>, id: nat)
    requires Sorted(sector, tree)
    ensures Sorted(sector, Without(tree, id))
  {
    SortedDistinct(sector, tree);
    WithoutAt(tree, id);
  }

  lemma OtherSector(sector: map<nat, nat>, tree: seq<nat>, id: nat, s: nat)
    requires Sorted(sector, tree) && id !in tree
    ensures Sorted(sector[id := s], tree)
  {
    forall i | 0 <= i < |tree| ensures SectorOf(sector[id := s], tree[i]) == SectorOf(sector, tree[i]) {
      assert tree[i] in tree;
    }
  }

  lemma {:induction false} SlotAt(sector: map<nat, nat>, tree: seq<nat>, s: nat)
    requires Sorted(sector, tree)
    ensures var p := Slot(sector, tree, s);
      && (forall i :: 0 <= i < p ==> SectorOf(sector, tree[i]) < s)
      && (forall i :: p <= i < |tree| ==> SectorOf(sector, tree[i]) >= s)
  {
    if tree != [] && SectorOf(sector, tree[0]) < s {
      var rest := tree[1..];
      SlotAt(sector, rest, s);
      var p := Slot(sector, rest, s);
      forall i | 0 <= i < 1 + p ensures SectorOf(sector, tree[i]) < s {
        if i > 0 { assert tree[i] == rest[i - 1]; }
      }
      forall i | 1 + p <= i < |tree| ensures SectorOf(sector, tree[i]) >= s {
        assert tree[i] == rest[i - 1];
      }
    }
  }

  lemma LinkedSorted(sector: map<nat, nat>, tree: seq<nat>, id: nat)
    requires Sorted(sector, tree) && forall x :: x in tree ==> SectorOf(sector, x) != SectorOf(sector, id)
    ensures Sorted(sector, Linked(sector, tree, id))
  {
    var s := SectorOf(sector, id);
    var p := Slot(sector, tree, s);
    SlotAt(sector, tree, s);
    var r := Inserted(tree, p, id);
    forall i, j | 0 <= i < j < |r| ensures SectorOf(sector, r[i]) < SectorOf(sector, r[j]) {
      if i == p {
        assert r[j] == tree[j - 1] && tree[j - 1] in tree;
      } else if j == p {
        assert r[i] == tree[i];
      } else {
        assert r[i] == tree[if i < p then i else i - 1] && r[j] == tree[if j < p then j else j - 1];
      }
    }
  }
}
