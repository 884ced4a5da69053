/**
 * struct request_list of block/blk-core.c as the code updates it, proved against RequestPool.
 */
module RequestLists {
  import opened RequestPool

  class RequestList {
    const nr: nat
    var rd: Side
    var wr: Side
    var elvpriv: nat
    var bypass: bool

    constructor (nrRequests: nat)
      ensures nr == nrRequests && elvpriv == 0 && !bypass
      ensures rd == Side(0, false, false, false) && wr == Side(0, false, false, false)
    {
      nr, elvpriv, bypass := nrRequests, 0, false;
      rd, wr := Side(0, false, false, false), Side(0, false, false, false);
    }

    function Get(write: bool): Side reads this { if write then wr else rd }

    method Set(write: bool, s: Side)
      modifies this`rd, this`wr
      ensures Get(write) == s && Get(!write) == old(Get(!write))
    {
      if write { wr := s; } else { rd := s; }
    }

    /** get_request up to where it drops the lock: whether a request was reserved, with private data or not. */
    method GetRequest(write: bool, may: MayQueue, batching: bool) returns (ok: bool, priv: bool)
      modifies this`rd, this`wr, this`elvpriv
      ensures (Get(write), ok) == Reserve(nr, old(Get(write)), may, batching) && Get(!write) == old(Get(!write))
      ensures priv == (ok && !bypass) && elvpriv == old(elvpriv) + if priv then 1 else 0
    {
      var s := Get(write);
      ok, priv := false, false;
      if may == No {
        if s.count == 0 { Set(write, s.(starved := true)); } else { Set(write, s); }
        return;
      }
      if s.count + 1 >= OnThreshold(nr) {
        if s.count + 1 >= nr {
          if !s.full {
            s := s.(full := true);
          } else if may != Must && !batching {
            Set(write, s);
            return;
          }
        }
        s := s.(congested := true);
      }
      if s.count >= Ceiling(nr) {
        Set(write, s);
        return;
      }
      Set(write, s.(count := s.count + 1, starved := false));
      ok, priv := true, !bypass;
      if priv { elvpriv := elvpriv + 1; }
    }

    /** __freed_request. */
    method RecheckSide(write: bool)
      modifies this`rd, this`wr
      ensures Get(write) == Recheck(nr, old(Get(write))) && Get(!write) == old(Get(!write))
    {
      var s := Get(write);
      if s.count < OffThreshold(nr) { s := s.(congested := false); }
      if s.count + 1 <= nr { s := s.(full := false); }
      Set(write, s);
    }

    /** freed_request. */
    method FreedRequest(write: bool, priv: bool)
      requires Get(write).count > 0 && (priv ==> elvpriv > 0)
      modifies this`rd, this`wr, this`elvpriv
      ensures Get(write) == Recheck(nr, old(Get(write)).(count := old(Get(write)).count - 1))
      ensures Get(!write) == if old(Get(!write)).starved then Recheck(nr, old(Get(!write))) else old(Get(!write))
      ensures elvpriv == old(elvpriv) - if priv then 1 else 0
    {
      var s := Get(write);
      Set(write, s.(count := s.count - 1));
      if priv { elvpriv := elvpriv - 1; }
      RecheckSide(write);
      if Get(!write).starved { RecheckSide(!write); }
    }
  }
}
