/**
 * The merge hash of block/elevator.c on values: the requests a scheduler holds, chained by the block
 * in which they end, and the one-entry cache in front of the chains.
 */
module MergeHash {
  import opened Lists

  const ENTRIES: nat := 64

  /** A request: first sector, number of sectors, and whether rq_mergeable holds of it. */
  datatype Rq = Rq(sector: nat, nr: nat, ok: bool)

  datatype Cached = None | Some(rq: nat)

  /**
   * The chains, the chain each hashed request is linked into (none: ELV_ON_HASH is false), the
   * requests the scheduler holds, and q->last_merge.
   */
  datatype Elv = Elv(chains: seq<seq<nat>>, at: map<nat, nat>, rq: map<nat, Rq>, last: Cached)

  /** rq_hash_key: the sector after the request. */
  function Key(r: Rq): nat { r.sector + r.nr }

  /** The chain of a sector, for any function `h` in the place of ELV_HASH_FN; the first one if `h` is out of range. */
  function Chain(h: nat -> nat, sector: nat): (b: nat)
    ensures b < ENTRIES
  {
    if h(sector) < ENTRIES then h(sector) else 0
  }

  // ---------------------------------------------------------------- the chains

  /** elv_rqhash_del. */
  function Del(e: Elv, x: nat): Elv {
    if x in e.at && e.at[x] < |e.chains| then
      e.(chains := e.chains[e.at[x] := Without(e.chains[e.at[x]], x)], at := e.at - {x})
    else e
  }

  /** elv_rqhash_add. */
  function Add(e: Elv, h: nat -> nat, x: nat): Elv {
    if x !in e.rq then e
    else
      var b := Chain(h, Key(e.rq[x]));
      if b >= |e.chains| then e else e.(chains := e.chains[b := [x] + e.chains[b]], at := e.at[x := b])
  }

  function Reposition(e: Elv, h: nat -> nat, x: nat): Elv { Add(Del(e, x), h, x) }

  /** The walk of elv_rqhash_find down a chain: what stays linked, what is unlinked, and what is found. */
  function Scan(l: seq<nat>, rq: map<nat, Rq>, offset: nat): (seq<nat>, set<nat>, Cached) {
    if l == [] then ([], {}, None)
    else if l[0] !in rq || !rq[l[0]].ok then
      var (kept, gone, hit) := Scan(l[1..], rq, offset);
      (kept, gone + {l[0]}, hit)
    else if Key(rq[l[0]]) == offset then (l, {}, Some(l[0]))
    else
      var (kept, gone, hit) := Scan(l[1..], rq, offset);
      ([l[0]] + kept, gone, hit)
  }

  /** elv_rqhash_find. */
  function Find(e: Elv, h: nat -> nat, offset: nat): (Elv, Cached) {
    var b := Chain(h, offset);
    if b >= |e.chains| then (e, None)
    else
      var (kept, gone, hit) := Scan(e.chains[b], e.rq, offset);
      (e.(chains := e.chains[b := kept], at := e.at - gone), hit)
  }

  // ---------------------------------------------------------------- the operations of the elevator

  function Forget(last: Cached, x: nat): Cached { if last == Some(x) then None else last }

  /** elv_insert, sorted. */
  function Insert(e: Elv, h: nat -> nat, x: nat, r: Rq): Elv {
    var f := e.(rq := e.rq[x := r]);
    if r.ok then Add(f, h, x).(last := if f.last == None then Some(x) else f.last) else f
  }

  /** elv_dispatch_sort and elv_dispatch_add_tail: the request leaves the scheduler. */
  function Dispatch(e: Elv, x: nat): Elv {
    var f := Del(e, x);
    f.(rq := f.rq - {x}, last := Forget(f.last, x))
  }

  /** ll_back_merge_fn or ll_front_merge_fn gives a request up for merging. */
  function Refuse(e: Elv, x: nat): Elv {
    if x !in e.rq then e else e.(rq := e.rq[x := e.rq[x].(ok := false)], last := Forget(e.last, x))
  }

  /** `n` sectors more at the end. */
  function Longer(e: Elv, x: nat, n: nat): Elv {
    if x !in e.rq then e else e.(rq := e.rq[x := e.rq[x].(nr := e.rq[x].nr + n)])
  }

  /** `n` sectors more at the start. */
  function Sooner(e: Elv, x: nat, n: nat): Elv {
    if x !in e.rq || e.rq[x].sector < n then e
    else e.(rq := e.rq[x := e.rq[x].(sector := e.rq[x].sector - n, nr := e.rq[x].nr + n)])
  }

  /** elv_merge_requests: `next` has become part of `x`. */
  function Absorb(e: Elv, h: nat -> nat, x: nat, next: nat): Elv {
    if next !in e.rq then e
    else
      var f := Del(Reposition(Longer(e, x, e.rq[next].nr), h, x), next);
      f.(rq := f.rq - {next}, last := Some(x))
  }

  /** A bio of `n` sectors joins `x` at its end; no neighbour follows. */
  function BackMerge(e: Elv, h: nat -> nat, x: nat, n: nat): Elv { Reposition(Longer(e, x, n), h, x).(last := Some(x)) }

  /** A bio of `n` sectors joins `x` at its end and closes the gap before `next`. */
  function BackJoin(e: Elv, h: nat -> nat, x: nat, n: nat, next: nat): Elv { Absorb(Longer(e, x, n), h, x, next) }

  /** A bio of `n` sectors joins `x` at its start: elv_merged_request leaves the chains alone. */
  function FrontMerge(e: Elv, x: nat, n: nat): Elv { Sooner(e, x, n).(last := Some(x)) }

  /** A bio of `n` sectors joins `x` at its start and closes the gap after `prev`. */
  function FrontJoin(e: Elv, h: nat -> nat, x: nat, n: nat, prev: nat): Elv { Absorb(Sooner(e, x, n), h, prev, x) }

  // ---------------------------------------------------------------- the invariant

  /** The chains hold what is hashed, each where its link says and once. */
  ghost predicate Linked(chains: seq<seq<nat>>, at: map<nat, nat>) {
    && |chains| == ENTRIES
    && (forall x :: x in at ==> at[x] < ENTRIES && x in chains[at[x]])
    && (forall b, x :: 0 <= b < ENTRIES && x in chains[b] ==> x in at && at[x] == b)
    && (forall b :: 0 <= b < ENTRIES ==> Distinct(chains[b]))
  }

  /** What is hashed is held, in the chain of the sector where it now ends. */
  ghost predicate Placed(at: map<nat, nat>, rq: map<nat, Rq>, h: nat -> nat) {
    forall x :: x in at ==> x in rq && at[x] == Chain(h, Key(rq[x]))
  }

  /** What may be merged with is hashed. */
  ghost predicate Complete(at: map<nat, nat>, rq: map<nat, Rq>) {
    forall x :: x in rq && rq[x].ok ==> x in at
  }

  ghost predicate LastOk(last: Cached, rq: map<nat, Rq>) { last.Some? ==> last.rq in rq && rq[last.rq].ok }

  ghost predicate Inv(e: Elv, h: nat -> nat) {
    Linked(e.chains, e.at) && Placed(e.at, e.rq, h) && Complete(e.at, e.rq) && LastOk(e.last, e.rq)
  }

  // ---------------------------------------------------------------- the chains keep their links

  lemma LinkedDel(chains: seq<seq<nat>>, at: map<nat, nat>, x: nat)
    requires Linked(chains, at) && x in at
    ensures Linked(chains[at[x] := Without(chains[at[x]], x)], at - {x})
  {
    WithoutAt(chains[at[x]], x);
  }

  lemma LinkedAdd(chains: seq<seq<nat>>, at: map<nat, nat>, x: nat, b: nat)
    requires Linked(chains, at) && x !in at && b < ENTRIES
    ensures Linked(chains[b := [x] + chains[b]], at[x := b])
  {
    var l := chains[b];
    assert x !in l;
    var n := [x] + l;
    forall i, j | 0 <= i < j < |n| ensures n[i] != n[j] {
      assert n[j] == l[j - 1];
      if i > 0 { assert n[i] == l[i - 1]; }
    }
  }

  lemma {:induction false} ScanSound(l: seq<nat>, rq: map<nat, Rq>, offset: nat)
    requires Distinct(l)
    ensures var (kept, gone, hit) := Scan(l, rq, offset);
      && Distinct(kept) && (forall y :: y in kept <==> y in l && y !in gone)
      && (forall y :: y in gone ==> y in l && (y !in rq || !rq[y].ok))
      && (hit.Some? ==> hit.rq in l && hit.rq in rq && rq[hit.rq].ok && Key(rq[hit.rq]) == offset)
      && (hit.None? ==> forall y :: y in l && y in rq && rq[y].ok ==> Key(rq[y]) != offset)
  {
    if l != [] {
      var rest := l[1..];
      assert l == [l[0]] + rest;
      assert l[0] !in rest by {
        forall j | 0 <= j < |rest| ensures rest[j] != l[0] {
          assert rest[j] == l[j + 1];
        }
      }
      ScanSound(rest, rq, offset);
      var (kept, gone, hit) := Scan(rest, rq, offset);
      if l[0] in rq && rq[l[0]].ok && Key(rq[l[0]]) != offset {
        forall j | 0 <= j < |kept| ensures kept[j] != l[0] {
          assert kept[j] in rest;
        }
      }
    }
  }

  predicate Clean(l: seq<nat>, i: nat, rq: map<nat, Rq>, offset: nat) {
    i <= |l| && forall j :: 0 <= j < i ==> l[j] in rq && rq[l[j]].ok && Key(rq[l[j]]) != offset
  }

  /** A walk past mergeable requests that end elsewhere leaves the chain alone, up to the one it finds. */
  lemma {:induction false} ScanClean(l: seq<nat>, i: nat, rq: map<nat, Rq>, offset: nat)
    requires Clean(l, i, rq, offset)
    requires i < |l| ==> l[i] in rq && rq[l[i]].ok && Key(rq[l[i]]) == offset
    ensures Scan(l, rq, offset) == (l, {}, if i < |l| then Some(l[i]) else None)
  {
    if i > 0 {
      ScanClean(l[1..], i - 1, rq, offset);
      assert l == [l[0]] + l[1..];
    } else if l == [] {
    }
  }

  /** Unlinking a request the walk would unlink makes no difference to the rest of the walk. */
  lemma {:induction false} ScanUnlink(l: seq<nat>, i: nat, rq: map<nat, Rq>, offset: nat)
    requires Distinct(l) && Clean(l, i, rq, offset) && i < |l| && (l[i] !in rq || !rq[l[i]].ok)
    ensures Scan(Without(l, l[i]), rq, offset).0 == Scan(l, rq, offset).0
    ensures Scan(Without(l, l[i]), rq, offset).1 + {l[i]} == Scan(l, rq, offset).1
    ensures Scan(Without(l, l[i]), rq, offset).2 == Scan(l, rq, offset).2
  {
    WithoutTail(l, l[i]);
    if i > 0 {
      var rest := l[1..];
      assert rest[i - 1] == l[i] && Distinct(rest) && Clean(rest, i - 1, rq, offset);
      ScanUnlink(rest, i - 1, rq, offset);
      assert Without(l, l[i])[1..] == Without(rest, l[i]);
    }
  }

  lemma UnlinkShape(l: seq<nat>, i: nat)
    requires Distinct(l) && i < |l|
    ensures Without(l, l[i]) == l[..i] + l[i + 1..]
  {
    PosUnique(l, i);
  }

  lemma LinkedScan(chains: seq<seq<nat>>, at: map<nat, nat>, b: nat, kept: seq<nat>, gone: set<nat>)
    requires Linked(chains, at) && b < ENTRIES && Distinct(kept)
    requires forall y :: y in kept <==> y in chains[b] && y !in gone
    requires forall y :: y in gone ==> y in chains[b]
    ensures Linked(chains[b := kept], at - gone)
  {
    var now := chains[b := kept];
    forall c, x | 0 <= c < ENTRIES && x in now[c] ensures x in at && at[x] == c && x !in gone {
      assert x in chains[c];
    }
  }

  /** elv_rqhash_find keeps everything in order, and finds as a search through all requests would. */
  lemma FindSound(e: Elv, h: nat -> nat, offset: nat)
    requires Inv(e, h)
    ensures Inv(Find(e, h, offset).0, h) && Find(e, h, offset).0.rq == e.rq && Find(e, h, offset).0.last == e.last
    ensures var hit := Find(e, h, offset).1;
      && (hit.Some? ==> hit.rq in e.rq && e.rq[hit.rq].ok && Key(e.rq[hit.rq]) == offset)
      && (hit.None? ==> forall x :: x in e.rq && e.rq[x].ok ==> Key(e.rq[x]) != offset)
  {
    var b := Chain(h, offset);
    ScanSound(e.chains[b], e.rq, offset);
    var (kept, gone, hit) := Scan(e.chains[b], e.rq, offset);
    LinkedScan(e.chains, e.at, b, kept, gone);
    if hit.None? {
      forall x | x in e.rq && e.rq[x].ok ensures Key(e.rq[x]) != offset {
        assert x in e.chains[Chain(h, Key(e.rq[x]))];
      }
    }
  }

  /** One round of the loop: what is unlinked now would be unlinked by the rest of the walk. */
  lemma FindUnlink(e: Elv, h: nat -> nat, offset: nat, i: nat)
    requires Linked(e.chains, e.at)
    requires var l := e.chains[Chain(h, offset)];
      Clean(l, i, e.rq, offset) && i < |l| && (l[i] !in e.rq || !e.rq[l[i]].ok)
    ensures var l := e.chains[Chain(h, offset)];
      var d := Del(e, l[i]);
      && Linked(d.chains, d.at) && d.rq == e.rq && d.chains[Chain(h, offset)] == l[..i] + l[i + 1..]
      && Find(d, h, offset) == Find(e, h, offset)
  {
    var b := Chain(h, offset);
    var l := e.chains[b];
    var x := l[i];
    assert x in l;
    assert Distinct(l);
    ScanUnlink(l, i, e.rq, offset);
    UnlinkShape(l, i);
    LinkedDel(e.chains, e.at, x);
    var d := Del(e, x);
    var (kept, gone, hit) := Scan(l, e.rq, offset);
    var (kept', gone', hit') := Scan(Without(l, x), e.rq, offset);
    assert d.chains[b := kept'] == e.chains[b := kept];
    assert (e.at - {x}) - gone' == e.at - gone;
  }

  // ---------------------------------------------------------------- the operations keep the invariant

  /** Placed, but for `x`, whose end has just moved. */
  ghost predicate PlacedBut(at: map<nat, nat>, rq: map<nat, Rq>, h: nat -> nat, x: nat) {
    forall y :: y in at ==> y in rq && (y != x ==> at[y] == Chain(h, Key(rq[y])))
  }

  lemma DelLinks(e: Elv, x: nat)
    requires Linked(e.chains, e.at)
    ensures Linked(Del(e, x).chains, Del(e, x).at) && Del(e, x).at == e.at - {x}
    ensures Del(e, x).rq == e.rq && Del(e, x).last == e.last
  {
    if x in e.at {
      LinkedDel(e.chains, e.at, x);
    }
  }

  lemma AddLinks(e: Elv, h: nat -> nat, x: nat)
    requires Linked(e.chains, e.at) && x !in e.at && x in e.rq
    ensures Linked(Add(e, h, x).chains, Add(e, h, x).at) && Add(e, h, x).at == e.at[x := Chain(h, Key(e.rq[x]))]
    ensures Add(e, h, x).rq == e.rq && Add(e, h, x).last == e.last
  {
    LinkedAdd(e.chains, e.at, x, Chain(h, Key(e.rq[x])));
  }

  lemma RepositionLinks(e: Elv, h: nat -> nat, x: nat)
    requires Linked(e.chains, e.at) && x in e.rq
    ensures Linked(Reposition(e, h, x).chains, Reposition(e, h, x).at)
  {
    DelLinks(e, x);
    AddLinks(Del(e, x), h, x);
  }

  lemma RepositionPlaces(e: Elv, h: nat -> nat, x: nat)
    requires Linked(e.chains, e.at) && PlacedBut(e.at, e.rq, h, x) && Complete(e.at, e.rq) && x in e.rq
    ensures var f := Reposition(e, h, x);
      && Linked(f.chains, f.at) && Placed(f.at, f.rq, h) && Complete(f.at, f.rq) && f.rq == e.rq && f.last == e.last
  {
    DelLinks(e, x);
    AddLinks(Del(e, x), h, x);
  }

  lemma InsertInv(e: Elv, h: nat -> nat, x: nat, r: Rq)
    requires Inv(e, h) && x !in e.rq
    ensures Inv(Insert(e, h, x, r), h)
  {
    var f := e.(rq := e.rq[x := r]);
    assert x !in f.at;
    if r.ok { AddLinks(f, h, x); }
  }

  lemma DispatchInv(e: Elv, h: nat -> nat, x: nat)
    requires Inv(e, h)
    ensures Inv(Dispatch(e, x), h)
  {
    DelLinks(e, x);
  }

  lemma RefuseInv(e: Elv, h: nat -> nat, x: nat)
    requires Inv(e, h)
    ensures Inv(Refuse(e, x), h)
  {
  }

  lemma BackMergeInv(e: Elv, h: nat -> nat, x: nat, n: nat)
    requires Inv(e, h) && x in e.rq && e.rq[x].ok
    ensures Inv(BackMerge(e, h, x, n), h)
  {
    RepositionPlaces(Longer(e, x, n), h, x);
  }

  /** The end stays where it was, so the chain is still the right one. */
  lemma SoonerPlaces(e: Elv, h: nat -> nat, x: nat, n: nat)
    requires Placed(e.at, e.rq, h) && Complete(e.at, e.rq)
    ensures Placed(e.at, Sooner(e, x, n).rq, h) && Complete(e.at, Sooner(e, x, n).rq)
    ensures var f := Sooner(e, x, n); f.chains == e.chains && f.at == e.at && f.last == e.last && f.rq.Keys == e.rq.Keys
    ensures forall y :: y in e.rq ==> Sooner(e, x, n).rq[y].ok == e.rq[y].ok
  {
    if x in e.rq && n <= e.rq[x].sector {
      assert Key(Sooner(e, x, n).rq[x]) == Key(e.rq[x]);
    }
  }

  lemma FrontMergeInv(e: Elv, h: nat -> nat, x: nat, n: nat)
    requires Inv(e, h) && x in e.rq && e.rq[x].ok && n <= e.rq[x].sector
    ensures Inv(FrontMerge(e, x, n), h)
  {
    SoonerPlaces(e, h, x, n);
  }

  lemma AbsorbInv(e: Elv, h: nat -> nat, x: nat, next: nat)
    requires Linked(e.chains, e.at) && PlacedBut(e.at, e.rq, h, x) && Complete(e.at, e.rq)
    requires x in e.rq && next in e.rq && x != next && e.rq[x].ok
    ensures Inv(Absorb(e, h, x, next), h)
  {
    var f := Longer(e, x, e.rq[next].nr);
    RepositionPlaces(f, h, x);
    DelLinks(Reposition(f, h, x), next);
  }

  lemma BackJoinInv(e: Elv, h: nat -> nat, x: nat, n: nat, next: nat)
    requires Inv(e, h) && x in e.rq && e.rq[x].ok && next in e.rq && x != next
    ensures Inv(BackJoin(e, h, x, n, next), h)
  {
    AbsorbInv(Longer(e, x, n), h, x, next);
  }

  lemma FrontJoinInv(e: Elv, h: nat -> nat, x: nat, n: nat, prev: nat)
    requires Inv(e, h) && x in e.rq && prev in e.rq && e.rq[prev].ok && x != prev
    ensures Inv(FrontJoin(e, h, x, n, prev), h)
  {
    SoonerPlaces(e, h, x, n);
    AbsorbInv(Sooner(e, x, n), h, prev, x);
  }

  // ---------------------------------------------------------------- runs

  datatype Op =
    | OpInsert(x: nat, r: Rq)
    | OpDispatch(x: nat)
    | OpRefuse(x: nat)
    | OpBack(x: nat, n: nat)
    | OpBackJoin(x: nat, n: nat, next: nat)
    | OpFront(x: nat, n: nat)
    | OpFrontJoin(x: nat, n: nat, prev: nat)
    | OpFind(offset: nat)

  function Step(e: Elv, h: nat -> nat, op: Op): Elv {
    match op
    case OpInsert(x, r) => Insert(e, h, x, r)
    case OpDispatch(x) => Dispatch(e, x)
    case OpRefuse(x) => Refuse(e, x)
    case OpBack(x, n) => BackMerge(e, h, x, n)
    case OpBackJoin(x, n, next) => BackJoin(e, h, x, n, next)
    case OpFront(x, n) => FrontMerge(e, x, n)
    case OpFrontJoin(x, n, prev) => FrontJoin(e, h, x, n, prev)
    case OpFind(offset) => Find(e, h, offset).0
  }

  predicate Mergeable(e: Elv, x: nat) { x in e.rq && e.rq[x].ok }

  /** What __make_request and attempt_merge look at first. */
  predicate Enabled(e: Elv, op: Op) {
    match op
    case OpInsert(x, r) => x !in e.rq
    case OpDispatch(x) => x in e.rq
    case OpRefuse(x) => x in e.rq
    case OpBack(x, n) => Mergeable(e, x)
    case OpBackJoin(x, n, next) =>
      Mergeable(e, x) && Mergeable(e, next) && x != next && Key(e.rq[x]) + n == e.rq[next].sector
    case OpFront(x, n) => Mergeable(e, x) && n <= e.rq[x].sector
    case OpFrontJoin(x, n, prev) =>
      Mergeable(e, x) && Mergeable(e, prev) && x != prev && n <= e.rq[x].sector && Key(e.rq[prev]) == e.rq[x].sector - n
    case OpFind(offset) => true
  }

  function After(h: nat -> nat, ops: seq<Op>): Elv
    decreases |ops|
  {
    if ops == [] then Elv(seq(ENTRIES, _ => []), map[], map[], None)
    else Step(After(h, ops[..|ops| - 1]), h, ops[|ops| - 1])
  }

  predicate IsRun(h: nat -> nat, ops: seq<Op>)
    decreases |ops|
  {
    ops == [] || (IsRun(h, ops[..|ops| - 1]) && Enabled(After(h, ops[..|ops| - 1]), ops[|ops| - 1]))
  }

  lemma StepInv(e: Elv, h: nat -> nat, op: Op)
    requires Inv(e, h) && Enabled(e, op)
    ensures Inv(Step(e, h, op), h)
  {
    match op
    case OpInsert(x, r) => InsertInv(e, h, x, r);
    case OpDispatch(x) => DispatchInv(e, h, x);
    case OpRefuse(x) => RefuseInv(e, h, x);
    case OpBack(x, n) => BackMergeInv(e, h, x, n);
    case OpBackJoin(x, n, next) => BackJoinInv(e, h, x, n, next);
    case OpFront(x, n) => FrontMergeInv(e, h, x, n);
    case OpFrontJoin(x, n, prev) => FrontJoinInv(e, h, x, n, prev);
    case OpFind(offset) => FindSound(e, h, offset);
  }

  lemma {:induction false} RunInv(h: nat -> nat, ops: seq<Op>)
    requires IsRun(h, ops)
    ensures Inv(After(h, ops), h)
    decreases |ops|
  {
    if ops != [] {
      RunInv(h, ops[..|ops| - 1]);
      StepInv(After(h, ops[..|ops| - 1]), h, ops[|ops| - 1]);
    }
  }

  /** A lookup agrees with a search through all requests. */
  ghost predicate Searched(e: Elv, hit: Cached, offset: nat) {
    && (hit.Some? ==> Mergeable(e, hit.rq) && Key(e.rq[hit.rq]) == offset)
    && (hit.None? ==> forall x :: Mergeable(e, x) ==> Key(e.rq[x]) != offset)
  }

  /**
   * In every run a lookup agrees with a search through all requests: it finds a request exactly when
   * some mergeable request the scheduler holds ends at the sector, and what it finds is such a request.
   */
  lemma HashIsSearch(h: nat -> nat, ops: seq<Op>, offset: nat)
    requires IsRun(h, ops)
    ensures Searched(After(h, ops), Find(After(h, ops), h, offset).1, offset)
  {
    RunInv(h, ops);
    FindSound(After(h, ops), h, offset);
  }

  /** In every run each hashed request is held and sits in the chain of its current end, and in no other. */
  lemma ChainsAgree(h: nat -> nat, ops: seq<Op>, b: nat, x: nat)
    requires IsRun(h, ops) && b < ENTRIES
    ensures var e := After(h, ops);
      && |e.chains| == ENTRIES
      && (x in e.chains[b] ==> x in e.rq && b == Chain(h, Key(e.rq[x])))
      && (Mergeable(e, x) ==> (x in e.chains[b] <==> b == Chain(h, Key(e.rq[x]))))
      && Distinct(e.chains[b])
  {
    RunInv(h, ops);
  }

  /** The request that an operation leaves the larger, if it merges. */
  function Grown(op: Op): Cached {
    match op
    case OpBack(x, n) => Some(x)
    case OpBackJoin(x, n, next) => Some(x)
    case OpFront(x, n) => Some(x)
    case OpFrontJoin(x, n, prev) => Some(prev)
    case _ => None
  }

  /**
   * q->last_merge is the request merged into last, or else the first one inserted while there was none; it
   * is given up when that request leaves the scheduler or can no longer be merged.
   */
  lemma CacheFollows(e: Elv, h: nat -> nat, op: Op)
    requires Inv(e, h) && Enabled(e, op)
    ensures var last := Step(e, h, op).last;
      if Grown(op).Some? then last == Grown(op)
      else if op.OpInsert? && op.r.ok && e.last.None? then last == Some(op.x)
      else if (op.OpDispatch? || op.OpRefuse?) && e.last == Some(op.x) then last == None
      else last == e.last
  {
  }

  // ---------------------------------------------------------------- elv_merge

  datatype Outcome = NoMerge | Back(rq: nat) | Front(rq: nat)

  /** elv_try_merge; `may` is what elv_rq_merge_ok asks beyond rq_mergeable. */
  function TryMerge(e: Elv, x: nat, sector: nat, n: nat, may: nat -> bool): Outcome {
    if x !in e.rq || !e.rq[x].ok || !may(x) then NoMerge
    else if Key(e.rq[x]) == sector then Back(x)
    else if e.rq[x].sector == sector + n then Front(x)
    else NoMerge
  }

  /** elv_merge for a bio of `n` sectors, up to the scheduler's own search: the cache, then the chains. */
  function Merge(e: Elv, h: nat -> nat, sector: nat, n: nat, may: nat -> bool, nomerges: bool): (Elv, Outcome) {
    var first := if e.last.Some? then TryMerge(e, e.last.rq, sector, n, may) else NoMerge;
    if first != NoMerge then (e, first)
    else if nomerges then (e, NoMerge)
    else
      var (f, hit) := Find(e, h, sector);
      if hit.Some? && may(hit.rq) then (f, Back(hit.rq)) else (f, NoMerge)
  }

  ghost predicate Fits(e: Elv, o: Outcome, sector: nat, n: nat, may: nat -> bool) {
    && (o.Back? ==> Mergeable(e, o.rq) && may(o.rq) && Key(e.rq[o.rq]) == sector)
    && (o.Front? ==> Mergeable(e, o.rq) && may(o.rq) && e.rq[o.rq].sector == sector + n)
  }

  /** Some request that ends there turns the bio down. */
  ghost predicate Declined(e: Elv, sector: nat, may: nat -> bool) {
    exists y :: Mergeable(e, y) && Key(e.rq[y]) == sector && !may(y)
  }

  /** What the one-entry cache decides before the chains are looked at. */
  ghost predicate CacheFirst(e: Elv, o: Outcome, sector: nat, n: nat, may: nat -> bool, nomerges: bool) {
    if e.last.Some? && Mergeable(e, e.last.rq) && may(e.last.rq) && Key(e.rq[e.last.rq]) == sector then
      o == Back(e.last.rq)
    else if e.last.Some? && Mergeable(e, e.last.rq) && may(e.last.rq) && e.rq[e.last.rq].sector == sector + n then
      o == Front(e.last.rq)
    else !o.Front? && (nomerges ==> o == NoMerge)
  }

  lemma MergeSound(e: Elv, h: nat -> nat, sector: nat, n: nat, may: nat -> bool, nomerges: bool)
    requires Searched(e, Find(e, h, sector).1, sector)
    ensures Fits(e, Merge(e, h, sector, n, may, nomerges).1, sector, n, may)
    ensures CacheFirst(e, Merge(e, h, sector, n, may, nomerges).1, sector, n, may, nomerges)
    ensures Merge(e, h, sector, n, may, nomerges).1 == NoMerge && !nomerges ==>
      Declined(e, sector, may) || forall x :: Mergeable(e, x) ==> Key(e.rq[x]) != sector
  {
  }

  /**
   * In every run, what elv_merge proposes is held, mergeable and adjacent on the side it says; the cached
   * request is tried first, on both sides, and alone if merging is switched off; and a bio that follows
   * some mergeable request directly is merged, unless what it follows refuses it.
   */
  lemma MergeFits(h: nat -> nat, ops: seq<Op>, e: Elv, sector: nat, n: nat, may: nat -> bool, nomerges: bool)
    requires IsRun(h, ops) && e == After(h, ops)
    ensures Fits(e, Merge(e, h, sector, n, may, nomerges).1, sector, n, may)
    ensures CacheFirst(e, Merge(e, h, sector, n, may, nomerges).1, sector, n, may, nomerges)
    ensures Merge(e, h, sector, n, may, nomerges).1 == NoMerge && !nomerges ==>
      Declined(e, sector, may) || forall x :: Mergeable(e, x) ==> Key(e.rq[x]) != sector
  {
    HashIsSearch(h, ops, sector);
    MergeSound(e, h, sector, n, may, nomerges);
  }
}
