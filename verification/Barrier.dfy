/**
 * Ordered (barrier) requests on a request queue: block/blk-barrier.c together with the
 * parts of block/elevator.c that insert, hand out, requeue and complete requests.
 *
 * A barrier that reaches the head of the dispatch list becomes the sequence
 * drain / pre-flush / barrier / post-flush.  The bits of `ordseq` say which phases are over.
 * Two colours separate the requests accepted before a barrier from those accepted after it.
 */
module Barrier {

  /** The QUEUE_ORDERED_* flags of an ordering (include/linux/blkdev.h). */
  datatype Mode = Mode(byDrain: bool, byTag: bool, preflush: bool, bar: bool, postflush: bool, fua: bool)

  const MODE_NONE := Mode(false, false, false, false, false, false)
  const MODE_DRAIN := Mode(true, false, false, true, false, false)
  const MODE_DRAIN_FLUSH := MODE_DRAIN.(preflush := true, postflush := true)
  const MODE_DRAIN_FUA := MODE_DRAIN.(preflush := true, fua := true)
  const MODE_TAG := Mode(false, true, false, true, false, false)
  const MODE_TAG_FLUSH := MODE_TAG.(preflush := true, postflush := true)
  const MODE_TAG_FUA := MODE_TAG.(preflush := true, fua := true)

  /** A set of QUEUE_ORDSEQ_* bits, in ascending order. */
  datatype Bits = Bits(started: bool, drain: bool, preflush: bool, bar: bool, postflush: bool)

  const NONE := Bits(false, false, false, false, false)
  const ALL := Bits(true, true, true, true, true)
  const JUST_DRAIN := NONE.(drain := true)
  const JUST_PREFLUSH := NONE.(preflush := true)
  const JUST_BAR := NONE.(bar := true)
  const JUST_POSTFLUSH := NONE.(postflush := true)

  // A single QUEUE_ORDSEQ_* bit, as one plus its position; zero is no bit at all.
  const STARTED := 1
  const DRAIN := 2
  const PREFLUSH := 3
  const BAR := 4
  const POSTFLUSH := 5
  const DONE := 6

  const EOPNOTSUPP := 95

  predicate DrainMode(m: Mode) {
    m == MODE_DRAIN || m == MODE_DRAIN_FLUSH || m == MODE_DRAIN_FUA
  }

  predicate TagMode(m: Mode) {
    m == MODE_TAG || m == MODE_TAG_FLUSH || m == MODE_TAG_FUA
  }

  /** The orderings blk_queue_ordered accepts. */
  predicate ValidMode(m: Mode) {
    m == MODE_NONE || DrainMode(m) || TagMode(m)
  }

  /**
   * A request.  `epoch` is history, never read by the code: the number of barriers
   * accepted before the request.  The other three are the queue's own proxy requests.
   */
  datatype Rq =
    | Orig(id: nat, fs: bool, hard: bool, empty: bool, color: bool, epoch: nat)
    | PreFlush
    | BarProxy
    | PostFlush

  /** blk_fs_request: the flush proxies are not file-system requests, the barrier proxy is. */
  predicate IsFs(r: Rq) {
    r.BarProxy? || (r.Orig? && r.fs)
  }

  /** blk_barrier_rq: the proxies all carry REQ_HARDBARRIER. */
  predicate IsHard(r: Rq) {
    r.Orig? ==> r.hard
  }

  datatype Event =
    | Accepted(r: Rq)
    | Began(r: Rq)
    | Handed(r: Rq)
    | Ended(r: Rq, err: int)
    | Partial(err: int)
    | Marked(r: Rq, phases: Bits)

  /**
   * The queue.  `list` is the dispatch list, `sorted` what the I/O scheduler holds, `flight`
   * what the driver has dequeued and not yet ended.  `bug` and `warn` record a BUG_ON or
   * WARN_ON that fired.  From `log` on the fields are history.
   */
  datatype Queue = Queue(
    ordseq: Bits, orderr: int, ordered: Mode, next: Mode, color: bool, orig: Rq,
    list: seq<Rq>, sorted: set<Rq>, flight: set<Rq>, inFlight: int,
    started: set<Rq>, soft: set<Rq>, bug: bool, warn: bool,
    log: seq<Event>, bars: seq<Rq>, done: nat, all: set<Rq>, ended: set<Rq>)

  function Init(mode: Mode): Queue {
    Queue(NONE, 0, mode, mode, false, PreFlush, [], {}, {}, 0, {}, {}, false, false, [], [], 0, {}, {})
  }

  // ---------------------------------------------------------------- lists

  /** list_add: `x` goes in front of position `p`. */
  function Insert(l: seq<Rq>, p: nat, x: Rq): (r: seq<Rq>)
    requires p <= |l|
    ensures |r| == |l| + 1
    ensures forall y :: y in r <==> y == x || y in l
  {
    assert forall y :: y in l ==> y in l[..p] || y in l[p..];
    l[..p] + [x] + l[p..]
  }

  /** list_del of position `i`. */
  function Remove(l: seq<Rq>, i: nat): (r: seq<Rq>)
    requires i < |l|
    ensures |r| == |l| - 1
    ensures forall y :: y in l <==> y == l[i] || y in r
  {
    assert l == l[..i] + [l[i]] + l[i+1..];
    l[..i] + l[i+1..]
  }

  // ---------------------------------------------------------------- bits

  predicate Meet(a: Bits, b: Bits) {
    (a.started && b.started) || (a.drain && b.drain) || (a.preflush && b.preflush) || (a.bar && b.bar)
    || (a.postflush && b.postflush)
  }

  function Join(a: Bits, b: Bits): Bits {
    Bits(a.started || b.started, a.drain || b.drain, a.preflush || b.preflush, a.bar || b.bar,
         a.postflush || b.postflush)
  }

  /** blk_ordered_cur_seq: the lowest bit that is not set */
  function CurSeq(ordseq: Bits): nat {
    if ordseq == NONE then 0
    else if !ordseq.started then STARTED
    else if !ordseq.drain then DRAIN
    else if !ordseq.preflush then PREFLUSH
    else if !ordseq.bar then BAR
    else if !ordseq.postflush then POSTFLUSH
    else DONE
  }

  /** The word the code keeps, with the values of include/linux/blkdev.h. */
  function Word(b: Bits): bv8 {
    (if b.started then 0x01 else 0) | (if b.drain then 0x02 else 0) | (if b.preflush then 0x04 else 0)
    | (if b.bar then 0x08 else 0) | (if b.postflush then 0x10 else 0)
  }

  function Bit(n: nat): bv8 {
    if n == STARTED then 0x01 else if n == DRAIN then 0x02 else if n == PREFLUSH then 0x04
    else if n == BAR then 0x08 else if n == POSTFLUSH then 0x10 else if n == DONE then 0x20 else 0
  }

  /** On words, the operations are the ones the code uses: |, & and 1 << ffz. */
  lemma WordsAgree(a: Bits, b: Bits)
    ensures Word(Join(a, b)) == Word(a) | Word(b)
    ensures Meet(a, b) <==> Word(a) & Word(b) != 0
    ensures Word(a) == 0 <==> a == NONE
    ensures a != NONE ==> Bit(CurSeq(a)) == !Word(a) & (Word(a) + 1)
  {
    assert a.started || a.drain || a.preflush || a.bar || a.postflush || a == NONE;
  }

  // ---------------------------------------------------------------- pure queries

  /** blk_ordered_req_seq while the sequence of `orig` is in progress */
  function ReqSeq(orig: Rq, r: Rq): nat {
    match r
    case PreFlush => PREFLUSH
    case BarProxy => BAR
    case PostFlush => POSTFLUSH
    case Orig(_, fs, _, _, color, _) =>
      if !fs then DRAIN
      else if orig.Orig? && color == orig.color then DRAIN
      else DONE
  }

  /** blk_account_rq */
  predicate Account(s: Queue, r: Rq) {
    r in s.started && IsFs(r)
  }

  // ---------------------------------------------------------------- the sequence

  /** blk_ordered_complete_seq; the sequence is over exactly when `ordseq` comes back zero. */
  function CompleteSeq(s: Queue, phases: Bits, err: int): (q: Queue)
    ensures q.next == s.next
  {
    var s1 := s.(
      orderr := if err != 0 && s.orderr == 0 then err else s.orderr,
      bug := s.bug || Meet(s.ordseq, phases),
      ordseq := Join(s.ordseq, phases),
      log := s.log + [Marked(s.orig, phases)]);
    if CurSeq(s1.ordseq) != DONE then s1
    else EndRequest(s1.(ordseq := NONE), s1.orig, s1.orderr)
  }

  /** The end of an original barrier request, which was never started and is not in flight. */
  function EndRequest(s: Queue, r: Rq, err: int): (q: Queue)
    ensures q.next == s.next
  {
    s.(log := s.log + [Ended(r, err)], ended := s.ended + {r}, done := s.done + 1)
  }

  /** elv_dequeue_request */
  function Dequeue(s: Queue, i: nat): (q: Queue)
    requires i < |s.list|
    ensures q.next == s.next
  {
    var r := s.list[i];
    s.(list := Remove(s.list, i),
       inFlight := if Account(s, r) then s.inFlight + 1 else s.inFlight)
  }

  /** elv_insert with ELEVATOR_INSERT_FRONT of a freshly initialised proxy. */
  function PushProxy(s: Queue, r: Rq): (q: Queue)
    ensures q.next == s.next
  {
    s.(list := Insert(s.list, 0, r), soft := s.soft + {r}, started := s.started - {r})
  }

  /** The ordering a barrier gets: an empty one has no BAR and no POSTFLUSH. */
  function OrderingFor(mode: Mode, empty: bool): Mode {
    if !empty then mode
    else
      var m := mode.(bar := false, postflush := false);
      if m.byTag && !m.preflush then m.(byTag := false, byDrain := true) else m
  }

  datatype Verdict = Hand(r: Rq) | Hold | Again

  /** The phases start_ordered skips. */
  function Skipped(ordered: Mode, inFlight: int): Bits {
    Bits(false, !(ordered.byDrain && inFlight != 0), !ordered.preflush, !ordered.bar, !ordered.postflush)
  }

  /** The first request start_ordered hands out, if any. */
  function FirstProxy(ordered: Mode, inFlight: int): Verdict {
    if ordered.byDrain && inFlight != 0 then Hold
    else if ordered.preflush then Hand(PreFlush)
    else if ordered.bar then Hand(BarProxy)
    else if ordered.postflush then Hand(PostFlush)
    else Hold
  }

  /** start_ordered up to the point where the original request is stashed away. */
  function BeginSequence(s: Queue): (q: Queue)
    requires s.list != []
    ensures q.next == s.next
  {
    var r := s.list[0];
    var o := OrderingFor(s.next, r.Orig? && r.empty);
    var s1 := Dequeue(s.(orderr := 0, ordered := o, ordseq := s.ordseq.(started := true)), 0);
    s1.(orig := r, log := s1.log + [Began(r)])
  }

  function PushIf(s: Queue, asked: bool, r: Rq): (q: Queue)
    ensures q.next == s.next
  {
    if asked then PushProxy(s, r) else s
  }

  /** start_ordered up to the point where the skipped phases are completed. */
  function QueueSequence(s: Queue): (q: Queue)
    requires s.list != []
    ensures q.next == s.next
  {
    var s2 := BeginSequence(s);
    var s3 := PushIf(s2, s2.ordered.postflush, PostFlush);
    var s4 := PushIf(s3, s2.ordered.bar, BarProxy);
    PushIf(s4, s2.ordered.preflush, PreFlush)
  }

  /** start_ordered */
  function StartOrdered(s: Queue): (q: (Queue, Verdict))
    requires s.list != []
    ensures q.0.next == s.next
  {
    var s1 := QueueSequence(s);
    var s2 := CompleteSeq(s1, Skipped(s1.ordered, s1.inFlight), 0);
    (s2, if s2.ordseq == NONE then Again else FirstProxy(s1.ordered, s1.inFlight))
  }

  /** blk_do_ordered on the head of the dispatch list. */
  function DoOrdered(s: Queue): (q: (Queue, Verdict))
    requires s.list != []
    ensures q.0.next == s.next
  {
    var r := s.list[0];
    var isBarrier := IsFs(r) && IsHard(r);
    if s.ordseq == NONE then
      if !isBarrier then (s, Hand(r))
      else if s.next != MODE_NONE then StartOrdered(s)
      else (EndRequest(Dequeue(s, 0), r, -EOPNOTSUPP), Again)
    else if !IsFs(r) && !r.PreFlush? && !r.PostFlush? then (s, Hand(r))
    else if s.ordered.byTag then
      (s, if isBarrier && !r.BarProxy? then Hold else Hand(r))
    else
      var s1 := s.(warn := s.warn || ReqSeq(s.orig, r) < CurSeq(s.ordseq));
      (s1, if ReqSeq(s.orig, r) > CurSeq(s.ordseq) then Hold else Hand(r))
  }

  /** elv_next_request marks what it returns as started. */
  function HandOut(s: Queue, v: Verdict): (q: Queue)
    ensures q.next == s.next
  {
    if v.Hand? then s.(started := s.started + {v.r}, log := s.log + [Handed(v.r)]) else s
  }

  /** One turn of the inner loop of __elv_next_request, then the marking of elv_next_request. */
  function NextRequest(s: Queue): (q: Queue)
    requires s.list != []
    ensures q.next == s.next
  {
    var (s1, v) := DoOrdered(s);
    HandOut(s1, v)
  }

  /** elv_completed_request */
  function Completed(s: Queue, r: Rq): (q: Queue)
    ensures q.next == s.next
  {
    var s1 := if Account(s, r) then s.(inFlight := s.inFlight - 1) else s;
    if s1.ordseq != NONE && s1.inFlight == 0 && CurSeq(s1.ordseq) == DRAIN
       && (s1.list == [] || ReqSeq(s1.orig, s1.list[0]) > DRAIN)
    then CompleteSeq(s1, JUST_DRAIN, 0)
    else s1
  }

  /** The driver ends a request it holds: the end_io handlers and __blk_put_request. */
  function End(s: Queue, r: Rq, err: int): (q: Queue)
    ensures q.next == s.next
  {
    var s1 := s.(flight := s.flight - {r}, log := s.log + [Ended(r, err)],
                 ended := if r.Orig? then s.ended + {r} else s.ended);
    var s2 := Completed(s1, r);
    match r
    case Orig(_, _, _, _, _, _) => s2
    case PreFlush => CompleteSeq(s2, JUST_PREFLUSH, err)
    case BarProxy => CompleteSeq(s2, JUST_BAR, err)
    case PostFlush => CompleteSeq(s2, JUST_POSTFLUSH, err)
  }

  /** req_bio_endio on part of the barrier proxy: only the error is recorded. */
  function PartOfBarrier(s: Queue, err: int): (q: Queue)
    ensures q.next == s.next
  {
    s.(orderr := if err != 0 && s.orderr == 0 then err else s.orderr,
       log := s.log + [Partial(err)])
  }

  /** Where elv_insert puts a requeued request while a sequence is in progress. */
  function RequeuePos(list: seq<Rq>, orig: Rq, want: nat, i: nat): (p: nat)
    requires i <= |list|
    ensures i <= p <= |list|
    ensures forall j :: i <= j < p ==> ReqSeq(orig, list[j]) < want
    ensures p < |list| ==> want <= ReqSeq(orig, list[p])
    decreases |list| - i
  {
    if i == |list| || want <= ReqSeq(orig, list[i]) then i else RequeuePos(list, orig, want, i + 1)
  }

  /** elv_requeue_request */
  function Requeue(s: Queue, r: Rq): (q: Queue)
    ensures q.next == s.next
  {
    var p := if s.ordseq == NONE then 0 else RequeuePos(s.list, s.orig, ReqSeq(s.orig, r), 0);
    s.(inFlight := if Account(s, r) then s.inFlight - 1 else s.inFlight,
       started := s.started - {r}, soft := s.soft + {r}, flight := s.flight - {r},
       list := Insert(s.list, p, r))
  }

  // ---------------------------------------------------------------- the state machine

  /**
   * What can happen to the queue.  `Dispatch` is one request moved by the I/O scheduler;
   * elv_drain_elevator is a run of them, which leaves `sorted` empty unless forced dispatch is broken.
   */
  datatype Op =
    | AddSorted(id: nat)
    | AddBack(id: nat, fs: bool, hard: bool, empty: bool)
    | AddFront(id: nat, hard: bool)
    | Dispatch(r: Rq, pos: nat)
    | Next
    | Take(i: nat)
    | PutBack(r: Rq)
    | Finish(r: Rq, err: int)
    | FinishPart(err: int)

  /** __elv_add_request: colour the request, and toggle the colour at a hard barrier. */
  function Coloured(s: Queue, id: nat, fs: bool, hard: bool, empty: bool): Rq {
    Orig(id, fs, hard, empty, s.color, |s.bars|)
  }

  function Accept(s: Queue, r: Rq): (q: Queue)
    requires r.Orig?
    ensures q.next == s.next
  {
    s.(color := if r.hard then !s.color else s.color,
       all := s.all + {r}, log := s.log + [Accepted(r)],
       bars := if r.hard && r.fs then s.bars + [r] else s.bars)
  }

  /** __elv_add_request ending in ELEVATOR_INSERT_SORT */
  function InsertSorted(s: Queue, r: Rq): (q: Queue)
    requires r.Orig?
    ensures q.next == s.next
  {
    Accept(s, r).(sorted := s.sorted + {r})
  }

  /** __elv_add_request ending in ELEVATOR_INSERT_BACK, after the forced dispatch */
  function InsertBack(s: Queue, r: Rq): (q: Queue)
    requires r.Orig?
    ensures q.next == s.next
  {
    Accept(s, r).(list := Insert(s.list, |s.list|, r), soft := s.soft + {r})
  }

  /** __elv_add_request ending in ELEVATOR_INSERT_FRONT */
  function InsertFront(s: Queue, r: Rq): (q: Queue)
    requires r.Orig?
    ensures q.next == s.next
  {
    Accept(s, r).(list := Insert(s.list, 0, r), soft := s.soft + {r})
  }

  /** elv_dispatch_sort and elv_dispatch_add_tail */
  function Dispatched(s: Queue, r: Rq, pos: nat): (q: Queue)
    requires pos <= |s.list|
    ensures q.next == s.next
  {
    s.(sorted := s.sorted - {r}, list := Insert(s.list, pos, r))
  }

  /** blkdev_dequeue_request by the driver */
  function Taken(s: Queue, i: nat): (q: Queue)
    requires i < |s.list|
    ensures q.next == s.next
  {
    Dequeue(s, i).(flight := s.flight + {s.list[i]})
  }

  /** elv_dispatch_sort never moves a request past one with these flags. */
  predicate Stops(s: Queue, r: Rq) {
    r in s.soft || IsHard(r) || r in s.started
  }

  predicate CanDispatch(s: Queue, r: Rq, pos: nat) {
    r in s.sorted && pos <= |s.list| && forall j :: pos <= j < |s.list| ==> !Stops(s, s.list[j])
  }

  predicate FreshId(s: Queue, id: nat) {
    forall r :: r in s.all && r.Orig? ==> r.id != id
  }

  /**
   * What the callers and the scheduler may do besides what the design expects: `nonFsHard` admits
   * REQ_HARDBARRIER on non-fs requests, and `leaky` a forced dispatch that leaves requests with the
   * scheduler when a barrier is queued.  elv_drain_elevator prints a message then and goes on.
   */
  datatype Policy = Policy(nonFsHard: bool, leaky: bool)

  const STRICT := Policy(false, false)

  /** When an operation can happen. */
  predicate Enabled(s: Queue, op: Op, p: Policy) {
    match op
    case AddSorted(id) => FreshId(s, id)
    case AddBack(id, fs, hard, empty) =>
      FreshId(s, id) && (hard && !p.leaky ==> s.sorted == {}) && (hard && !p.nonFsHard ==> fs)
    case AddFront(id, hard) => FreshId(s, id) && (hard ==> p.nonFsHard)
    case Dispatch(r, pos) => CanDispatch(s, r, pos)
    case Next => s.list != []
    case Take(i) => i < |s.list| && s.list[i] in s.started
    case PutBack(r) => r in s.flight
    case Finish(r, err) => r in s.flight
    case FinishPart(err) => BarProxy in s.flight
  }

  function Apply(s: Queue, op: Op, p: Policy): (q: Queue)
    requires Enabled(s, op, p)
    ensures q.next == s.next
  {
    match op
    case AddSorted(id) => InsertSorted(s, Coloured(s, id, true, false, false))
    case AddBack(id, fs, hard, empty) => InsertBack(s, Coloured(s, id, fs, hard, empty))
    case AddFront(id, hard) => InsertFront(s, Coloured(s, id, false, hard, false))
    case Dispatch(r, pos) => Dispatched(s, r, pos)
    case Next => NextRequest(s)
    case Take(i) => Taken(s, i)
    case PutBack(r) => Requeue(s, r)
    case Finish(r, err) => End(s, r, err)
    case FinishPart(err) => PartOfBarrier(s, err)
  }
}
