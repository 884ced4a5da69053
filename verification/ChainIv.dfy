/**
 * The asynchronous chain-IV generator of crypto/chainiv.c, once its IV is seeded: any number of
 * callers and work items share one INUSE bit, one queue and one IV.  A step is one atomic action.
 */
module ChainIv {
  import opened Lists
  import opened CryptoQueues

  /** The next action of a thread, named after the line of code it stands before. */
  datatype Pc =
    | TryLock      // givencrypt: test_and_set_bit
    | PeekQueue    // givencrypt: read qlen
    | Unlock       // givencrypt: clear_bit
    | Postpone     // postpone_request: enqueue under the lock
    | Relock       // postpone_request: test_and_set_bit
    | NoteErr      // postpone_request: ctx->err = err
    | ReadIv       // givencrypt_tail: copy the IV out
    | Encrypt      // givencrypt_tail: ctx->err = encrypt
    | WriteIv      // givencrypt_tail: copy the IV back
    | LoadErr      // schedule_work: err = ctx->err
    | CheckQueue   // schedule_work: read qlen
    | Release      // schedule_work: clear_bit
    | Recheck      // schedule_work: read qlen again
    | Retake       // schedule_work: test_and_set_bit
    | Schedule     // schedule_work: schedule_work(&ctx->postponed)
    | Dequeue      // do_postponed: dequeue under the lock
    | Finish       // return, or complete the request
    | Done

  /** A caller, or a run of the work item.  `own` is history: what its request came to. */
  datatype Thread = Thread(pc: Pc, req: nat, worker: bool, err: int, giv: int, info: int, own: int)

  /** One use of the IV: the request, the IV it got and the IV it left behind. */
  datatype Use = Use(req: nat, giv: int, after: int)

  /** The shared context, the threads, and history from `uses` on. */
  datatype Ctx = Ctx(
    inuse: bool, pending: bool, queue: Entries<nat>, err: int, iv: int, bug: bool,
    threads: map<nat, Thread>,
    uses: seq<Use>, seen: set<nat>, dropped: set<nat>, queued: seq<nat>, dequeued: seq<nat>)

  function Init(iv: int, maxQlen: nat): Ctx {
    Ctx(false, false, Entries([], maxQlen), 0, iv, false, map[], [], {}, {}, [], [])
  }

  /** Threads that stand where the code holds the INUSE bit. */
  predicate Holds(pc: Pc) {
    match pc
    case PeekQueue | Unlock | NoteErr | ReadIv | Encrypt | WriteIv | LoadErr | CheckQueue | Release | Schedule
       | Dequeue => true
    case _ => false
  }

  /** Threads that have yet to look at the queue or the bit, and so will notice a queued request. */
  predicate WillLook(pc: Pc) {
    pc == Postpone || pc == Relock || pc == Recheck || pc == Retake
  }

  /** Threads whose request is neither queued nor encrypted yet. */
  predicate Carries(pc: Pc) {
    match pc
    case TryLock | PeekQueue | Unlock | Postpone | ReadIv | Encrypt | WriteIv => true
    case _ => false
  }

  datatype Op =
    | Call(tid: nat, req: nat)
    | Work(tid: nat)
    | Move(tid: nat, c: Choice)

  predicate Enabled(s: Ctx, op: Op) {
    match op
    case Call(tid, req) => tid !in s.threads && req !in s.seen
    case Work(tid) => tid !in s.threads && s.pending
    case Move(tid, _) => tid in s.threads
  }

  /** What the environment decides in a step: the outcome of an encryption, whether a request may wait. */
  datatype Choice = Choice(err: int, info: int, mayBacklog: bool)

  /** The thread after its next action. */
  function After(s: Ctx, t: Thread, c: Choice): Thread {
    match t.pc
    case TryLock => t.(pc := if s.inuse then Postpone else PeekQueue)
    case PeekQueue => t.(pc := if s.queue.list != [] then Unlock else ReadIv)
    case Unlock => t.(pc := Postpone)
    case Postpone =>
      var e := s.queue.Enqueue(t.req, c.mayBacklog).1;
      t.(pc := Relock, err := e, own := e)
    case Relock => t.(pc := if s.inuse then Finish else NoteErr)
    case NoteErr => t.(pc := LoadErr)
    case ReadIv => t.(pc := Encrypt, giv := s.iv, info := s.iv)
    case Encrypt => if c.err != 0 then t.(pc := LoadErr, own := c.err) else t.(pc := WriteIv, own := 0, info := c.info)
    case WriteIv => t.(pc := LoadErr)
    case LoadErr => t.(pc := CheckQueue, err := s.err)
    case CheckQueue => t.(pc := if s.queue.list == [] then Release else Schedule)
    case Release => t.(pc := Recheck)
    case Recheck => t.(pc := if s.queue.list == [] then Finish else Retake)
    case Retake => t.(pc := if s.inuse then Finish else Schedule)
    case Schedule => t.(pc := Finish)
    case Dequeue =>
      if s.queue.list == [] then t.(pc := LoadErr, own := s.err)
      else t.(pc := ReadIv, req := s.queue.list[0])
    case Finish => t.(pc := Done)
    case Done => t
  }

  /** How an action moves the request of its thread. */
  datatype Motion = Stays | Queues | Drops | Uses(after: int) | Takes

  function MotionOf(s: Ctx, t: Thread, c: Choice): Motion {
    match t.pc
    case Postpone => if s.queue.Enqueue(t.req, c.mayBacklog).0 == s.queue then Drops else Queues
    case Encrypt => if c.err != 0 then Uses(t.giv) else Stays
    case WriteIv => Uses(t.info)
    case Dequeue => if s.queue.list == [] then Stays else Takes
    case _ => Stays
  }

  function Moved(s: Ctx, t: Thread, m: Motion): Ctx {
    match m
    case Stays => s
    case Queues => s.(queue := s.queue.(list := s.queue.list + [t.req]), queued := s.queued + [t.req])
    case Drops => s.(dropped := s.dropped + {t.req})
    case Uses(after) => s.(uses := s.uses + [Use(t.req, t.giv, after)])
    case Takes =>
      if s.queue.list == [] then s
      else s.(queue := s.queue.(list := s.queue.list[1..]), dequeued := s.dequeued + [s.queue.list[0]])
  }

  /** The shared context after a thread's next action. */
  function Effect(s: Ctx, t: Thread, c: Choice): Ctx {
    var s1 := Moved(s, t, MotionOf(s, t, c));
    match t.pc
    case TryLock | Relock | Retake => s1.(inuse := true)
    case Unlock | Release => s1.(inuse := false)
    case NoteErr => s1.(err := t.err)
    case Encrypt => s1.(err := c.err)
    case WriteIv => s1.(iv := t.info)
    case Schedule => s1.(bug := s.bug || s.pending, pending := true)
    case _ => s1
  }

  function Step(s: Ctx, tid: nat, c: Choice): Ctx
    requires tid in s.threads
  {
    var t := s.threads[tid];
    Effect(s, t, c).(threads := s.threads[tid := After(s, t, c)])
  }

  function Apply(s: Ctx, op: Op): Ctx
    requires Enabled(s, op)
  {
    match op
    case Call(tid, req) =>
      s.(threads := s.threads[tid := Thread(TryLock, req, false, 0, 0, 0, 0)], seen := s.seen + {req})
    case Work(tid) =>
      s.(pending := false, threads := s.threads[tid := Thread(Dequeue, 0, true, 0, 0, 0, 0)])
    case Move(tid, c) => Step(s, tid, c)
  }

  ghost predicate IsRun(s: Ctx, ops: seq<Op>, t: Ctx)
    decreases |ops|
  {
    if ops == [] then s == t
    else Enabled(s, ops[0]) && IsRun(Apply(s, ops[0]), ops[1..], t)
  }

  // ---------------------------------------------------------------- invariants

  function Holders(threads: map<nat, Thread>): set<nat> {
    set a | a in threads && Holds(threads[a].pc)
  }

  function One(b: bool): nat {
    if b then 1 else 0
  }

  /** The bit is held by exactly one thread or by the pending work item, or it is clear. */
  ghost predicate Owned(s: Ctx) {
    !s.bug && |Holders(s.threads)| + One(s.pending) == One(s.inuse)
  }

  /** A queued request always has the bit held, or some thread on its way to look. */
  ghost predicate Noticed(s: Ctx) {
    s.queue.list != [] && !s.inuse ==> exists a :: a in s.threads && WillLook(s.threads[a].pc)
  }

  /** The IV that a list of uses leaves behind. */
  function LastIv(iv0: int, uses: seq<Use>): int {
    if uses == [] then iv0 else uses[|uses| - 1].after
  }

  /** Every request got the IV its predecessor left behind. */
  ghost predicate Chained(iv0: int, uses: seq<Use>) {
    forall i :: 0 <= i < |uses| ==> uses[i].giv == LastIv(iv0, uses[..i])
  }

  /** The IV in the context is the end of the chain, and nobody changes it behind the holder's back. */
  ghost predicate IvKept(s: Ctx, iv0: int) {
    && Chained(iv0, s.uses)
    && s.iv == LastIv(iv0, s.uses)
    && (forall a :: a in s.threads && (s.threads[a].pc == Encrypt || s.threads[a].pc == WriteIv) ==>
        s.threads[a].giv == s.iv)
  }

  /** What a thread knows of its own outcome: ctx->err is its own until it has read it back. */
  predicate KnowsErr(t: Thread, err: int) {
    match t.pc
    case Relock | NoteErr | CheckQueue | Release | Recheck | Retake | Schedule | Finish | Done => t.err == t.own
    case LoadErr => err == t.own
    case WriteIv => err == t.own == 0
    case _ => true
  }

  ghost predicate ErrKept(s: Ctx) {
    forall a :: a in s.threads ==> KnowsErr(s.threads[a], s.err)
  }

  // ---------------------------------------------------------------- ownership

  lemma HoldersPut(m: map<nat, Thread>, tid: nat, t: Thread)
    ensures |Holders(m[tid := t])| == |Holders(m)| - One(tid in Holders(m)) + One(Holds(t.pc))
  {
    var h := Holders(m) - {tid};
    assert Holders(m[tid := t]) == if Holds(t.pc) then h + {tid} else h;
    assert Holders(m) == if tid in Holders(m) then h + {tid} else h;
  }

  /** Two holders are the same thread, and a holder excludes pending work. */
  lemma SoleHolder(s: Ctx, a: nat, b: nat)
    requires Owned(s) && a in Holders(s.threads) && b in Holders(s.threads)
    ensures a == b && s.inuse && !s.pending
  {
    var h := Holders(s.threads);
    assert h == {a} + (h - {a});
    assert b in h - {a} ==> |h - {a}| > 0;
  }

  /** An action moves the bit between the thread, the work item and nobody; it never duplicates it. */
  lemma TokenMoves(s: Ctx, t: Thread, c: Choice)
    requires Holds(t.pc) ==> s.inuse && !s.pending
    ensures var s' := Effect(s, t, c);
            && One(s'.inuse) - One(s'.pending) - One(Holds(After(s, t, c).pc)) ==
               One(s.inuse) - One(s.pending) - One(Holds(t.pc))
            && s'.bug == s.bug
  {
    match t.pc {
      case TryLock =>
      case PeekQueue =>
      case Unlock =>
      case Postpone =>
      case Relock =>
      case NoteErr =>
      case ReadIv =>
      case Encrypt =>
      case WriteIv =>
      case LoadErr =>
      case CheckQueue =>
      case Release =>
      case Recheck =>
      case Retake =>
      case Schedule =>
      case Dequeue =>
      case Finish =>
      case Done =>
    }
  }

  lemma OwnedStep(s: Ctx, op: Op)
    requires Owned(s) && Enabled(s, op)
    ensures Owned(Apply(s, op))
  {
    match op
    case Call(tid, req) => HoldersPut(s.threads, tid, Thread(TryLock, req, false, 0, 0, 0, 0));
    case Work(tid) => HoldersPut(s.threads, tid, Thread(Dequeue, 0, true, 0, 0, 0, 0));
    case Move(tid, c) =>
      var t := s.threads[tid];
      if tid in Holders(s.threads) {
        SoleHolder(s, tid, tid);
      }
      TokenMoves(s, t, c);
      HoldersPut(s.threads, tid, After(s, t, c));
  }

  // ---------------------------------------------------------------- no request is forgotten

  /** A thread stops looking only when the bit is held or the queue is empty. */
  lemma LooksOn(s: Ctx, t: Thread, c: Choice)
    ensures var s' := Effect(s, t, c);
            s'.queue.list != [] && !s'.inuse && !WillLook(After(s, t, c).pc)
            ==> s.queue.list != [] && !s.inuse && !WillLook(t.pc)
  {
    match t.pc {
      case TryLock =>
      case PeekQueue =>
      case Unlock =>
      case Postpone =>
      case Relock =>
      case NoteErr =>
      case ReadIv =>
      case Encrypt =>
      case WriteIv =>
      case LoadErr =>
      case CheckQueue =>
      case Release =>
      case Recheck =>
      case Retake =>
      case Schedule =>
      case Dequeue =>
      case Finish =>
      case Done =>
    }
  }

  lemma NoticedStep(s: Ctx, op: Op)
    requires Noticed(s) && Enabled(s, op)
    ensures Noticed(Apply(s, op))
  {
    var s' := Apply(s, op);
    var tid := op.tid;
    if op.Move? {
      LooksOn(s, s.threads[tid], op.c);
    }
    if s'.queue.list != [] && !s'.inuse && !WillLook(s'.threads[tid].pc) {
      var a :| a in s.threads && WillLook(s.threads[a].pc);
      assert a in s'.threads && s'.threads[a] == s.threads[a];
    }
  }

  // ---------------------------------------------------------------- the chain of IVs

  lemma ChainedSnoc(iv0: int, uses: seq<Use>, u: Use)
    requires Chained(iv0, uses) && u.giv == LastIv(iv0, uses)
    ensures Chained(iv0, uses + [u]) && LastIv(iv0, uses + [u]) == u.after
  {
    var uses' := uses + [u];
    forall i | 0 <= i < |uses'| ensures uses'[i].giv == LastIv(iv0, uses'[..i]) {
      assert uses'[..i] == uses[..i];
      assert uses[..|uses|] == uses;
    }
  }

  predicate Using(pc: Pc) {
    pc == Encrypt || pc == WriteIv
  }

  /** Only the two last actions of givencrypt_tail extend the chain, and only the last changes the IV. */
  lemma IvIdle(s: Ctx, t: Thread, c: Choice)
    requires !Using(t.pc)
    ensures Effect(s, t, c).uses == s.uses && Effect(s, t, c).iv == s.iv
    ensures Using(After(s, t, c).pc) ==> After(s, t, c).giv == s.iv
  {
  }

  lemma IvUsed(s: Ctx, t: Thread, c: Choice, iv0: int)
    requires Chained(iv0, s.uses) && s.iv == LastIv(iv0, s.uses) && Using(t.pc) && t.giv == s.iv
    ensures var s' := Effect(s, t, c); var t' := After(s, t, c);
            && Chained(iv0, s'.uses) && s'.iv == LastIv(iv0, s'.uses)
            && (Using(t'.pc) ==> t'.giv == s'.iv)
  {
    ChainedSnoc(iv0, s.uses, Use(t.req, t.giv, if t.pc == Encrypt then t.giv else t.info));
  }

  lemma IvStep(s: Ctx, op: Op, iv0: int)
    requires Owned(s) && IvKept(s, iv0) && Enabled(s, op)
    ensures IvKept(Apply(s, op), iv0)
  {
    if op.Move? {
      var t := s.threads[op.tid];
      if Using(t.pc) {
        IvUsed(s, t, op.c, iv0);
      } else {
        IvIdle(s, t, op.c);
      }
      forall a | a in s.threads && Holds(s.threads[a].pc) && Holds(t.pc) ensures a == op.tid {
        SoleHolder(s, a, op.tid);
      }
    }
  }

  // ---------------------------------------------------------------- the error of the context

  lemma ErrMoves(s: Ctx, t: Thread, c: Choice)
    requires KnowsErr(t, s.err)
    ensures KnowsErr(After(s, t, c), Effect(s, t, c).err)
    ensures Effect(s, t, c).err != s.err ==> Holds(t.pc)
  {
    match t.pc {
      case TryLock =>
      case PeekQueue =>
      case Unlock =>
      case Postpone =>
      case Relock =>
      case NoteErr =>
      case ReadIv =>
      case Encrypt =>
      case WriteIv =>
      case LoadErr =>
      case CheckQueue =>
      case Release =>
      case Recheck =>
      case Retake =>
      case Schedule =>
      case Dequeue =>
      case Finish =>
      case Done =>
    }
  }

  lemma ErrStep(s: Ctx, op: Op)
    requires Owned(s) && ErrKept(s) && Enabled(s, op)
    ensures ErrKept(Apply(s, op))
  {
    if op.Move? {
      var t := s.threads[op.tid];
      ErrMoves(s, t, op.c);
      forall a | a in s.threads && Holds(s.threads[a].pc) && Holds(t.pc) ensures a == op.tid {
        SoleHolder(s, a, op.tid);
      }
    }
  }

  // ---------------------------------------------------------------- where a request is

  function Users(uses: seq<Use>): set<nat> {
    set i | 0 <= i < |uses| :: uses[i].req
  }

  ghost predicate UsedOnce(uses: seq<Use>) {
    forall i, j :: 0 <= i < j < |uses| ==> uses[i].req != uses[j].req
  }

  predicate CarriedBy(threads: map<nat, Thread>, a: nat, r: nat) {
    a in threads && Carries(threads[a].pc) && threads[a].req == r
  }

  /** Every request seen is with one thread, or queued, or turned away, or encrypted once. */
  ghost predicate Placed(s: Ctx) {
    && Distinct(s.queue.list) && UsedOnce(s.uses)
    && Apart(s.threads, s.queue.list, s.dropped, Users(s.uses))
    && Covered(s.threads, s.queue.list, s.dropped, Users(s.uses), s.seen)
  }

  ghost predicate Apart(threads: map<nat, Thread>, list: seq<nat>, dropped: set<nat>, users: set<nat>) {
    && (forall a, b, r :: CarriedBy(threads, a, r) && CarriedBy(threads, b, r) ==> a == b)
    && (forall a, r :: CarriedBy(threads, a, r) ==> r !in list && r !in dropped && r !in users)
    && (forall r :: r in list ==> r !in dropped && r !in users)
    && dropped !! users
  }

  ghost predicate Covered(threads: map<nat, Thread>, list: seq<nat>, dropped: set<nat>, users: set<nat>,
                          seen: set<nat>) {
    && (forall a, r :: CarriedBy(threads, a, r) ==> r in seen)
    && (forall r :: r in list ==> r in seen)
    && dropped <= seen && users <= seen
    && (forall r :: r in seen ==> r in list || r in dropped || r in users || exists a :: CarriedBy(threads, a, r))
  }

  /** Postponed requests are taken up in the order in which they were postponed. */
  ghost predicate Fifo(s: Ctx) {
    s.queued == s.dequeued + s.queue.list
  }

  lemma UsersSnoc(uses: seq<Use>, u: Use)
    ensures Users(uses + [u]) == Users(uses) + {u.req}
  {
    var all := uses + [u];
    assert forall i :: 0 <= i < |uses| ==> all[i] == uses[i];
    assert all[|uses|] == u;
    forall r | r in Users(uses) + {u.req} ensures r in Users(all) {
      if r != u.req {
        var i :| 0 <= i < |uses| && uses[i].req == r;
        assert all[i].req == r;
      }
    }
  }

  lemma MotionFields(s: Ctx, t: Thread, c: Choice)
    ensures var s' := Effect(s, t, c); var s1 := Moved(s, t, MotionOf(s, t, c));
            && s'.seen == s.seen && s'.queue == s1.queue && s'.dropped == s1.dropped && s'.uses == s1.uses
            && s'.queued == s1.queued && s'.dequeued == s1.dequeued
  {
    match t.pc {
      case TryLock =>
      case PeekQueue =>
      case Unlock =>
      case Postpone =>
      case Relock =>
      case NoteErr =>
      case ReadIv =>
      case Encrypt =>
      case WriteIv =>
      case LoadErr =>
      case CheckQueue =>
      case Release =>
      case Recheck =>
      case Retake =>
      case Schedule =>
      case Dequeue =>
      case Finish =>
      case Done =>
    }
  }

  /** What a motion does to the thread's part of the bargain. */
  lemma MotionThread(s: Ctx, t: Thread, c: Choice)
    ensures var t' := After(s, t, c);
            match MotionOf(s, t, c)
            case Stays => t'.req == t.req && Carries(t'.pc) == Carries(t.pc)
            case Takes => s.queue.list != [] && t'.req == s.queue.list[0] && Carries(t'.pc) && !Carries(t.pc)
            case _ => t'.req == t.req && Carries(t.pc) && !Carries(t'.pc)
  {
    match t.pc {
      case TryLock =>
      case PeekQueue =>
      case Unlock =>
      case Postpone =>
      case Relock =>
      case NoteErr =>
      case ReadIv =>
      case Encrypt =>
      case WriteIv =>
      case LoadErr =>
      case CheckQueue =>
      case Release =>
      case Recheck =>
      case Retake =>
      case Schedule =>
      case Dequeue =>
      case Finish =>
      case Done =>
    }
  }

  lemma FifoStep(s: Ctx, op: Op)
    requires Fifo(s) && Enabled(s, op)
    ensures Fifo(Apply(s, op))
  {
    if op.Move? {
      var t := s.threads[op.tid];
      MotionFields(s, t, op.c);
      FifoMoved(s, t, MotionOf(s, t, op.c));
    }
  }

  lemma FifoMoved(s: Ctx, t: Thread, m: Motion)
    requires Fifo(s)
    ensures Fifo(Moved(s, t, m))
  {
    var l := s.queue.list;
    match m
    case Queues => assert s.dequeued + (l + [t.req]) == (s.dequeued + l) + [t.req];
    case Takes => if l != [] { assert s.dequeued + l == (s.dequeued + [l[0]]) + l[1..]; }
    case _ =>
  }

  // ---------------------------------------------------------------- requests are conserved

  lemma PlacedCall(s: Ctx, tid: nat, req: nat)
    requires Placed(s) && Enabled(s, Call(tid, req))
    ensures Placed(Apply(s, Call(tid, req)))
  {
    var s' := Apply(s, Call(tid, req));
    assert CarriedBy(s'.threads, tid, req);
    assert forall a, r :: CarriedBy(s'.threads, a, r) <==> CarriedBy(s.threads, a, r) || (a == tid && r == req);
  }

  lemma PlacedWork(s: Ctx, tid: nat)
    requires Placed(s) && Enabled(s, Work(tid))
    ensures Placed(Apply(s, Work(tid)))
  {
    var s' := Apply(s, Work(tid));
    assert forall a, r :: CarriedBy(s'.threads, a, r) <==> CarriedBy(s.threads, a, r);
  }

  /** The carriers after one thread has changed. */
  lemma CarriersPut(m: map<nat, Thread>, tid: nat, t: Thread)
    ensures forall a, r :: CarriedBy(m[tid := t], a, r) <==>
              (a != tid && CarriedBy(m, a, r)) || (a == tid && Carries(t.pc) && t.req == r)
  {
  }

  lemma PlacedMove(s: Ctx, tid: nat, c: Choice)
    requires Placed(s) && tid in s.threads
    ensures Placed(Step(s, tid, c))
  {
    var t := s.threads[tid];
    var t' := After(s, t, c);
    var m := MotionOf(s, t, c);
    MotionFields(s, t, c);
    MotionThread(s, t, c);
    CarriersPut(s.threads, tid, t');
    PlacedMotion(s, tid, t', m);
  }

  /** Placement is kept by every motion, whatever the thread does besides. */
  lemma PlacedMotion(s: Ctx, tid: nat, t': Thread, m: Motion)
    requires Placed(s) && tid in s.threads
    requires var t := s.threads[tid];
             match m
             case Stays => t'.req == t.req && Carries(t'.pc) == Carries(t.pc)
             case Takes => s.queue.list != [] && t'.req == s.queue.list[0] && Carries(t'.pc) && !Carries(t.pc)
             case _ => t'.req == t.req && Carries(t.pc) && !Carries(t'.pc)
    ensures Placed(Moved(s, s.threads[tid], m).(threads := s.threads[tid := t']))
  {
    var t := s.threads[tid];
    CarriersPut(s.threads, tid, t');
    assert Carries(t.pc) ==> CarriedBy(s.threads, tid, t.req);
    match m {
      case Uses(after) =>
        UsersSnoc(s.uses, Use(t.req, t.giv, after));
        GivenUp(s.threads, tid, t');
      case Takes => Taken(s.threads, tid, t', s.queue.list, s.dropped, Users(s.uses), s.seen);
      case Stays =>
        var now := s.threads[tid := t'];
        assert forall a, r :: CarriedBy(now, a, r) <==> CarriedBy(s.threads, a, r);
      case Queues => GivenUp(s.threads, tid, t');
      case Drops => GivenUp(s.threads, tid, t');
    }
  }

  /** A thread that gives its request up leaves no other carrier of it. */
  lemma GivenUp(threads: map<nat, Thread>, tid: nat, t': Thread)
    requires forall a, b, r :: CarriedBy(threads, a, r) && CarriedBy(threads, b, r) ==> a == b
    requires tid in threads && Carries(threads[tid].pc) && !Carries(t'.pc)
    ensures var now := threads[tid := t'];
            forall a, r :: CarriedBy(now, a, r) <==> CarriedBy(threads, a, r) && r != threads[tid].req
  {
    assert CarriedBy(threads, tid, threads[tid].req);
    forall a, r
      ensures CarriedBy(threads[tid := t'], a, r) <==> CarriedBy(threads, a, r) && r != threads[tid].req
    {
      var now := threads[tid := t'];
      assert a != tid ==> (a in now <==> a in threads) && (a in now ==> now[a] == threads[a]);
      assert CarriedBy(threads, a, r) && r == threads[tid].req ==> a == tid;
    }
  }

  lemma Taken(threads: map<nat, Thread>, tid: nat, t': Thread, list: seq<nat>, dropped: set<nat>, users: set<nat>,
              seen: set<nat>)
    requires Apart(threads, list, dropped, users) && Covered(threads, list, dropped, users, seen)
    requires tid in threads && !Carries(threads[tid].pc) && Distinct(list)
    requires list != [] && t'.req == list[0] && Carries(t'.pc)
    ensures Apart(threads[tid := t'], list[1..], dropped, users)
    ensures Covered(threads[tid := t'], list[1..], dropped, users, seen)
  {
    CarriersPut(threads, tid, t');
    var now := threads[tid := t'];
    assert CarriedBy(now, tid, list[0]);
    assert list == [list[0]] + list[1..];
    assert forall r :: r in list <==> r == list[0] || r in list[1..];
    assert forall a, r :: CarriedBy(threads, a, r) ==> CarriedBy(now, a, r);
    assert forall a, r :: CarriedBy(now, a, r) ==> CarriedBy(threads, a, r) || (a == tid && r == list[0]);
  }

  // ---------------------------------------------------------------- every run

  ghost predicate Inv(s: Ctx, iv0: int) {
    Owned(s) && Noticed(s) && IvKept(s, iv0) && ErrKept(s) && Placed(s) && Fifo(s)
  }

  lemma InvStep(s: Ctx, op: Op, iv0: int)
    requires Inv(s, iv0) && Enabled(s, op)
    ensures Inv(Apply(s, op), iv0)
  {
    OwnedStep(s, op);
    NoticedStep(s, op);
    IvStep(s, op, iv0);
    ErrStep(s, op);
    FifoStep(s, op);
    match op
    case Call(tid, req) => PlacedCall(s, tid, req);
    case Work(tid) => PlacedWork(s, tid);
    case Move(tid, c) => PlacedMove(s, tid, c);
  }

  lemma {:induction false} RunKeeps(s: Ctx, ops: seq<Op>, t: Ctx, iv0: int)
    requires Inv(s, iv0) && IsRun(s, ops, t)
    ensures Inv(t, iv0)
    decreases |ops|
  {
    if ops != [] {
      InvStep(s, ops[0], iv0);
      RunKeeps(Apply(s, ops[0]), ops[1..], t, iv0);
    }
  }

  lemma RunFromInit(iv0: int, max: nat, ops: seq<Op>, t: Ctx)
    requires IsRun(Init(iv0, max), ops, t)
    ensures Inv(t, iv0)
  {
    assert Holders(map[]) == {};
    RunKeeps(Init(iv0, max), ops, t, iv0);
  }

  /**
   * In every interleaving the bit has one owner, a thread or the pending work item, never both;
   * so the code that reads or writes the IV or ctx->err runs alone, and BUG_ON(!queued) never fires.
   */
  lemma MutualExclusion(iv0: int, max: nat, ops: seq<Op>, t: Ctx, a: nat, b: nat)
    requires IsRun(Init(iv0, max), ops, t)
    ensures !t.bug
    ensures t.inuse <==> t.pending || Holders(t.threads) != {}
    ensures a in Holders(t.threads) ==> !t.pending
    ensures a in Holders(t.threads) && b in Holders(t.threads) ==> a == b
  {
    RunFromInit(iv0, max, ops, t);
    assert Holders(t.threads) == {} <==> |Holders(t.threads)| == 0;
    if a in Holders(t.threads) && b in Holders(t.threads) {
      SoleHolder(t, a, b);
    }
    if a in Holders(t.threads) {
      SoleHolder(t, a, a);
    }
  }

  /** No request is stranded: with all threads done and no work pending, the queue is empty and the bit clear. */
  lemma NothingStranded(iv0: int, max: nat, ops: seq<Op>, t: Ctx)
    requires IsRun(Init(iv0, max), ops, t)
    requires !t.pending && forall a :: a in t.threads ==> t.threads[a].pc == Done
    ensures t.queue.list == [] && !t.inuse
  {
    RunFromInit(iv0, max, ops, t);
    assert Holders(t.threads) == {};
  }

  /**
   * Whatever the interleaving, the IVs form one chain: each request that is encrypted gets exactly
   * the IV its predecessor left behind, the first one gets the seed, and the context holds the last.
   */
  lemma OneChain(iv0: int, max: nat, ops: seq<Op>, t: Ctx, i: nat)
    requires IsRun(Init(iv0, max), ops, t)
    ensures i < |t.uses| ==> t.uses[i].giv == if i == 0 then iv0 else t.uses[i - 1].after
    ensures t.iv == if t.uses == [] then iv0 else t.uses[|t.uses| - 1].after
  {
    RunFromInit(iv0, max, ops, t);
    assert 0 < i < |t.uses| ==> t.uses[..i][i - 1] == t.uses[i - 1];
  }

  /** A thread returns, or completes its request with, the outcome of its own request. */
  lemma OwnResult(iv0: int, max: nat, ops: seq<Op>, t: Ctx, a: nat)
    requires IsRun(Init(iv0, max), ops, t)
    requires a in t.threads && t.threads[a].pc == Done
    ensures t.threads[a].err == t.threads[a].own
  {
    RunFromInit(iv0, max, ops, t);
    assert KnowsErr(t.threads[a], t.err);
  }

  /**
   * No request is lost or encrypted twice, and postponed requests are taken up in order.  When all
   * threads are done and no work is pending, every request was encrypted once or turned away.
   */
  lemma EveryRequestOnce(iv0: int, max: nat, ops: seq<Op>, t: Ctx)
    requires IsRun(Init(iv0, max), ops, t)
    ensures UsedOnce(t.uses) && Users(t.uses) !! t.dropped
    ensures t.queued == t.dequeued + t.queue.list
    ensures !t.pending && (forall a :: a in t.threads ==> t.threads[a].pc == Done) ==>
            t.seen == Users(t.uses) + t.dropped
  {
    RunFromInit(iv0, max, ops, t);
    if !t.pending && (forall a :: a in t.threads ==> t.threads[a].pc == Done) {
      NothingStranded(iv0, max, ops, t);
      assert forall a, r :: !CarriedBy(t.threads, a, r);
    }
  }

  /**
   * A caller that gets the bit does not overtake: it goes on to encrypt exactly if nothing is postponed when
   * it looks, and otherwise gives the bit back and joins the queue, at its end, or is turned away.
   */
  lemma NoOvertaking(iv0: int, max: nat, ops: seq<Op>, t: Ctx, a: nat, c: Choice)
    requires IsRun(Init(iv0, max), ops, t) && a in t.threads && t.threads[a].pc == PeekQueue
    ensures Step(t, a, c).threads[a].pc == ReadIv <==> t.queue.list == []
    ensures t.queue.list != [] ==>
      var u := Step(Step(t, a, c), a, c);
      && !u.inuse && u.queue == t.queue && u.threads[a].pc == Postpone && u.threads[a].req == t.threads[a].req
      && Step(u, a, c).queue.list == u.queue.list +
         if |u.queue.list| < u.queue.maxQlen || c.mayBacklog then [u.threads[a].req] else []
  {
  }
}
