/** The request queue of crypto/algapi.c: a list, a cursor to the first backlogged entry, a count. */
module CryptoQueues {

  const EINPROGRESS := 115
  const EBUSY := 16

  /** A queue as a value: the entries in order and the limit on entries that are not backlog. */
  datatype Entries<T> = Entries(list: seq<T>, maxQlen: nat) {

    /** The entries past the limit. */
    function Backlog(): seq<T> {
      if |list| <= maxQlen then [] else list[maxQlen..]
    }

    /** crypto_enqueue_request: a full queue takes only requests that may be backlogged. */
    function Enqueue(x: T, mayBacklog: bool): (r: (Entries<T>, int))
      ensures r.1 == -EINPROGRESS <==> |list| < maxQlen
      ensures r.1 == -EINPROGRESS || r.1 == -EBUSY
      ensures r.0.maxQlen == maxQlen
      ensures r.0.list == list + [x] || (r.0.list == list && r.1 == -EBUSY && !mayBacklog)
    {
      var err := if |list| >= maxQlen then -EBUSY else -EINPROGRESS;
      if err == -EBUSY && !mayBacklog then (this, err)
      else (Entries(list + [x], maxQlen), err)
    }

    /** A request taken by a full queue joins the backlog, and only then. */
    lemma EnqueueBacklog(x: T, mayBacklog: bool)
      ensures Enqueue(x, mayBacklog).0.Backlog() ==
              Backlog() + if |list| >= maxQlen && mayBacklog then [x] else []
    {
    }
  }

  /**
   * The fields the code keeps.  `backlog` is the cursor: the index of the entry it points at, or
   * the length of the list when it points back at the list head.
   */
  class CryptoQueue<T> {
    var list: seq<T>
    var backlog: nat
    var qlen: nat
    var maxQlen: nat

    /** The count is the length, and the cursor stands on the first entry past the limit. */
    ghost predicate Valid()
      reads this
    {
      qlen == |list| && backlog == if qlen <= maxQlen then qlen else maxQlen
    }

    ghost function View(): Entries<T>
      reads this
    {
      Entries(list, maxQlen)
    }

    /** crypto_init_queue */
    constructor (max: nat)
      ensures Valid() && View() == Entries([], max)
    {
      list, backlog, qlen, maxQlen := [], 0, 0, max;
    }

    /** crypto_enqueue_request */
    method Enqueue(request: T, mayBacklog: bool) returns (err: int)
      requires Valid()
      modifies this
      ensures Valid()
      ensures (View(), err) == old(View()).Enqueue(request, mayBacklog)
      ensures View().Backlog() == old(View()).Backlog() + if old(qlen) >= maxQlen && mayBacklog then [request] else []
    {
      View().EnqueueBacklog(request, mayBacklog);
      err := -EINPROGRESS;
      // the cursor stays at the head of the list while there is no backlog
      var atHead := backlog == |list|;
      if qlen >= maxQlen {
        err := -EBUSY;
        if !mayBacklog {
          return;
        }
        if atHead {
          backlog := |list|;
          atHead := false;
        }
      }
      qlen := qlen + 1;
      list := list + [request];
      if atHead {
        backlog := |list|;
      }
    }

    /** crypto_dequeue_request: the oldest entry leaves, and one backlogged entry moves up. */
    method Dequeue() returns (ok: bool, request: seq<T>)
      requires Valid()
      modifies this
      ensures Valid()
      ensures ok == (old(list) != [])
      ensures ok ==> request == old(list)[..1] && View() == Entries(old(list)[1..], old(maxQlen))
      ensures !ok ==> request == [] && View() == old(View())
      ensures View().Backlog() == if old(View()).Backlog() == [] then [] else old(View()).Backlog()[1..]
    {
      if qlen == 0 {
        return false, [];
      }
      qlen := qlen - 1;
      if backlog != |list| {
        backlog := backlog + 1;
      }
      request := list[..1];
      list := list[1..];
      backlog := backlog - 1;
      ok := true;
    }
  }
}
