/** The invariants of the barrier protocol. */
module BarrierInv {
  import opened Barrier

  predicate Active(s: Queue) {
    s.ordseq != NONE
  }

  predicate Drains(s: Queue) {
    DrainMode(s.next)
  }

  predicate OrigFs(r: Rq) {
    r.Orig? && r.fs
  }

  predicate OrigBarrier(r: Rq) {
    r.Orig? && r.fs && r.hard
  }

  function Rank(r: Rq): nat
    requires !r.Orig?
  {
    match r case PreFlush => 0 case BarProxy => 1 case PostFlush => 2
  }

  /** The original barrier of the sequence in progress. */
  function Running(s: Queue): set<Rq> {
    if s.ordseq == NONE then {} else {s.orig}
  }

  // ---------------------------------------------------------------- every mode

  ghost predicate Phased(s: Queue, over: Bits) {
    && ValidMode(s.next)
    && (Active(s) ==>
          && s.ordseq.started && s.ordseq != ALL
          && s.next != MODE_NONE
          && s.orig.Orig? && s.ordered == OrderingFor(s.next, s.orig.empty)
          && (s.ordered.byTag ==> s.ordseq.drain || over.drain))
  }

  /** No request is in two places. */
  ghost predicate Apart(list: seq<Rq>, sorted: set<Rq>, flight: set<Rq>, running: set<Rq>) {
    && (forall r :: r in list ==> r !in flight && r !in sorted && r !in running)
    && (forall r :: r in sorted ==> r !in flight && r.Orig? && !r.hard && r.fs)
    && (forall r :: r in running ==> OrigBarrier(r) && r !in flight && r !in sorted)
  }

  /** The requests the queue holds are exactly those accepted and not ended. */
  ghost predicate Conserved(list: seq<Rq>, sorted: set<Rq>, flight: set<Rq>, running: set<Rq>,
                            all: set<Rq>, ended: set<Rq>) {
    && (forall r :: r in all ==> r.Orig?)
    && (forall r :: r in ended ==> r in all)
    && (forall r :: r in list && r.Orig? ==> r in all && r !in ended)
    && (forall r :: r in flight && r.Orig? ==> r in all && r !in ended)
    && (forall r :: r in sorted ==> r in all && r !in ended)
    && (forall r :: r in running ==> r in all && r !in ended)
    && (forall r :: r in all && r !in ended ==> r in list || r in flight || r in sorted || r in running)
  }

  /** Whether a proxy is on the queue or in flight. */
  predicate Held(list: seq<Rq>, flight: set<Rq>, r: Rq) {
    r in list || r in flight
  }

  /**
   * A proxy is on the queue or in flight exactly while its phase is pending, where the
   * phases in `over` are about to be completed; and it starts only after the drain.
   */
  ghost predicate Proxies(list: seq<Rq>, flight: set<Rq>, started: set<Rq>, ordseq: Bits, over: Bits) {
    && (Held(list, flight, PreFlush) <==> ordseq != NONE && !ordseq.preflush && !over.preflush)
    && (Held(list, flight, BarProxy) <==> ordseq != NONE && !ordseq.bar && !over.bar)
    && (Held(list, flight, PostFlush) <==> ordseq != NONE && !ordseq.postflush && !over.postflush)
    && (Held(list, flight, PreFlush) && PreFlush in started ==> ordseq.drain)
    && (Held(list, flight, BarProxy) && BarProxy in started ==> ordseq.drain)
    && (Held(list, flight, PostFlush) && PostFlush in started ==> ordseq.drain)
  }

  ghost function FsOf(rs: set<Rq>): set<Rq> {
    set r | r in rs && IsFs(r)
  }

  /** in_flight counts the started file-system requests the driver holds. */
  ghost predicate Counts(flight: set<Rq>, started: set<Rq>, inFlight: int) {
    && (forall r :: r in flight ==> r in started)
    && inFlight == |FsOf(flight)|
  }

  ghost predicate Flags(list: seq<Rq>, sorted: set<Rq>, started: set<Rq>, soft: set<Rq>, all: set<Rq>) {
    && (forall r :: r in started && r.Orig? ==> r in all && !OrigBarrier(r))
    && (forall r :: r in soft && r.Orig? ==> r in all)
    && (forall r :: r in list && r.Orig? && !r.fs ==> r in soft)
    && (forall r :: r in sorted ==> r !in started)
  }

  predicate Odd(n: nat) {
    n % 2 == 1
  }

  /** Barriers end in the order of their acceptance, and colours are the parity of epochs. */
  ghost predicate Epochs(bars: seq<Rq>, done: nat, all: set<Rq>, ended: set<Rq>,
                         sorted: set<Rq>, color: bool, running: set<Rq>) {
    && done <= |bars|
    && (forall k :: 0 <= k < |bars| ==>
          OrigBarrier(bars[k]) && bars[k].epoch == k && bars[k] in all
          && (bars[k] in ended <==> k < done))
    && (forall r :: r in all && OrigFs(r) ==>
          r.epoch <= |bars| && r.color == Odd(r.epoch)
          && (r.hard ==> r.epoch < |bars| && bars[r.epoch] == r))
    && (forall r :: r in sorted ==> r.Orig? && r.epoch == |bars|)
    && color == Odd(|bars|)
    && (forall r :: r in running ==> done < |bars| && r == bars[done])
  }

  /** Which requests may stand in front of which on the dispatch list. */
  predicate Before(a: Rq, b: Rq, drain: bool, e: nat) {
    && a != b
    && (OrigBarrier(a) && OrigBarrier(b) ==> a.epoch < b.epoch)
    && (drain ==>
          && (OrigFs(a) && OrigFs(b) ==> a.epoch <= b.epoch && (a.hard ==> a.epoch < b.epoch))
          && (!a.Orig? && OrigFs(b) ==> e < b.epoch)
          && (OrigFs(a) && e < a.epoch ==> b.Orig?)
          && (!a.Orig? && !b.Orig? ==> Rank(a) < Rank(b)))
  }

  ghost predicate Lined(l: seq<Rq>, drain: bool, e: nat) {
    forall i, j :: 0 <= i < j < |l| ==> Before(l[i], l[j], drain, e)
  }

  ghost predicate Core(s: Queue, over: Bits) {
    && !s.bug && Phased(s, over)
    && Apart(s.list, s.sorted, s.flight, Running(s))
    && Conserved(s.list, s.sorted, s.flight, Running(s), s.all, s.ended)
    && Proxies(s.list, s.flight, s.started, s.ordseq, over)
    && Counts(s.flight, s.started, s.inFlight)
    && Flags(s.list, s.sorted, s.started, s.soft, s.all)
    && Epochs(s.bars, s.done, s.all, s.ended, s.sorted, s.color, Running(s))
    && Lined(s.list, Drains(s), s.done)
  }

  // ---------------------------------------------------------------- drain modes

  /** Requests of a finished epoch have ended; the driver holds only requests of the open one. */
  ghost predicate Order(list: seq<Rq>, flight: set<Rq>, started: set<Rq>, all: set<Rq>, ended: set<Rq>, e: nat) {
    && (forall r :: r in all && OrigFs(r) && r.epoch < e ==> r in ended)
    && (forall r :: r in flight && OrigFs(r) ==> r.epoch == e)
    && (forall r :: r in list && OrigFs(r) ==> e <= r.epoch && (r in started ==> r.epoch == e))
  }

  /** During a sequence, requests of the open epoch are only those put back, and none after the drain. */
  ghost predicate Draining(list: seq<Rq>, flight: set<Rq>, started: set<Rq>, soft: set<Rq>, ordseq: Bits, e: nat) {
    ordseq != NONE ==>
      && (forall r :: r in list && OrigFs(r) && r.epoch == e ==> r in soft || r in started)
      && (ordseq.drain ==>
            && (forall r :: r in list && OrigFs(r) ==> e < r.epoch)
            && (forall r :: r in flight && OrigFs(r) ==> e < r.epoch))
  }

  /** While a drain waits, something is there whose completion will end it. */
  ghost predicate Awaited(s: Queue) {
    Active(s) && !s.ordseq.drain && s.inFlight == 0 ==>
      || (s.list != [] && ReqSeq(s.orig, s.list[0]) == DRAIN)
      || exists r :: r in s.flight && r.Orig? && !r.fs
  }

  ghost predicate Drained(s: Queue) {
    && !s.warn
    && Order(s.list, s.flight, s.started, s.all, s.ended, s.done)
    && Draining(s.list, s.flight, s.started, s.soft, s.ordseq, s.done)
  }

  ghost predicate Inv(s: Queue) {
    Core(s, NONE) && (Drains(s) ==> Drained(s) && Awaited(s))
  }

  // ---------------------------------------------------------------- list lemmas

  lemma InsertLined(l: seq<Rq>, p: nat, x: Rq, drain: bool, e: nat)
    requires Lined(l, drain, e) && p <= |l|
    requires forall i :: 0 <= i < p ==> Before(l[i], x, drain, e)
    requires forall j :: p <= j < |l| ==> Before(x, l[j], drain, e)
    ensures Lined(Insert(l, p, x), drain, e)
  {
    var m := Insert(l, p, x);
    forall i, j | 0 <= i < j < |m| ensures Before(m[i], m[j], drain, e) {
      assert m[i] == if i < p then l[i] else if i == p then x else l[i-1];
      assert m[j] == if j < p then l[j] else if j == p then x else l[j-1];
    }
  }

  lemma RemoveLined(l: seq<Rq>, i: nat, drain: bool, e: nat)
    requires Lined(l, drain, e) && i < |l|
    ensures Lined(Remove(l, i), drain, e) && l[i] !in Remove(l, i)
  {
    var m := Remove(l, i);
    forall a | 0 <= a < |m| ensures m[a] == if a < i then l[a] else l[a+1] {
    }
  }

  lemma FsOfAdd(rs: set<Rq>, r: Rq)
    requires r !in rs
    ensures |FsOf(rs + {r})| == |FsOf(rs)| + if IsFs(r) then 1 else 0
  {
    assert FsOf(rs + {r}) == if IsFs(r) then FsOf(rs) + {r} else FsOf(rs);
  }

  lemma FsOfDrop(rs: set<Rq>, r: Rq)
    requires r in rs
    ensures |FsOf(rs - {r})| == |FsOf(rs)| - if IsFs(r) then 1 else 0
  {
    assert FsOf(rs) == if IsFs(r) then FsOf(rs - {r}) + {r} else FsOf(rs - {r});
  }

  // ---------------------------------------------------------------- what the head can be

  /** A barrier that has not ended and is not running is on the dispatch list. */
  lemma BarrierListed(s: Queue, k: nat)
    requires Core(s, NONE) && s.done <= k < |s.bars| && (Active(s) ==> k != s.done)
    ensures s.bars[k] in s.list
  {
    var b := s.bars[k];
    assert b !in s.started;
  }

  /** In a drain mode only requests of the open epoch, or of the next one, can be at the head. */
  lemma HeadEpoch(s: Queue)
    requires Core(s, NONE) && Drains(s) && Drained(s)
    requires s.list != [] && OrigFs(s.list[0])
    ensures s.list[0].epoch == s.done || (Active(s) && s.list[0].epoch == s.done + 1)
    ensures Active(s) ==> (ReqSeq(s.orig, s.list[0]) == DRAIN <==> s.list[0].epoch == s.done)
  {
    var h := s.list[0];
    assert h in s.list;
    var k := if Active(s) then s.done + 1 else s.done;
    if k < h.epoch {
      BarrierListed(s, k);
    }
  }

  /** In every mode a barrier at the head of the list is the next one to end. */
  lemma HeadBarrier(s: Queue)
    requires Core(s, NONE) && s.list != [] && OrigBarrier(s.list[0])
    ensures s.list[0].epoch == if Active(s) then s.done + 1 else s.done
  {
    var h := s.list[0];
    assert h in s.list;
    assert h in s.all && h !in s.ended;
    assert s.bars[h.epoch] == h;
    assert s.done <= h.epoch;
    var k := if Active(s) then s.done + 1 else s.done;
    if k < h.epoch {
      BarrierListed(s, k);
    }
  }
}
