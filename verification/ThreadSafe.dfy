/** The per-volume try-lock and the status cache of the controller service. */
module ThreadSafe {
  import opened Wrappers

  datatype Status = Created | Deleted

  /** A try-lock: the set of strings in use, and whether the attempt succeeded. */
  function TryObtain(items: set<string>, s: string): (r: (bool, set<string>))
    ensures r.0 <==> s !in items
    ensures r.1 == items + {s}
  {
    if s in items then (false, items) else (true, items + {s})
  }

  function Unlock(items: set<string>, s: string): (r: set<string>)
    ensures s !in r && r <= items && items <= r + {s}
  {
    items - {s}
  }

  /** A lock that one goroutine got is refused to everyone else until it is released. */
  lemma HeldUntilReleased(items: set<string>, s: string, t: string)
    ensures
      var after := TryObtain(items, s).1;
      && !TryObtain(after, s).0
      && (t != s ==> TryObtain(after, t).0 == TryObtain(items, t).0)
      && (TryObtain(items, s).0 ==> Unlock(after, s) == items && TryObtain(Unlock(after, s), s).0)
  {
    if TryObtain(items, s).0 {
      assert (items + {s}) - {s} == items;
    }
  }

  class StringLock {
    var items: set<string>

    constructor ()
      ensures items == {}
    {
      items := {};
    }

    method ObtainLockOnString(s: string) returns (ok: bool)
      modifies this
      ensures (ok, items) == TryObtain(old(items), s)
    {
      if s !in items {
        items := items + {s};
        return true;
      }
      return false;
    }

    method ReleaseLockOnString(s: string)
      modifies this
      ensures items == Unlock(old(items), s)
    {
      items := items - {s};
    }
  }

  class StatusMap {
    var items: map<string, Status>

    constructor ()
      ensures items == map[]
    {
      items := map[];
    }

    method WriteStatus(volumeID: string, status: Status)
      modifies this
      ensures items == old(items)[volumeID := status]
    {
      items := items[volumeID := status];
    }

    method ReadStatus(volumeID: string) returns (status: Option<Status>)
      ensures status == if volumeID in items then Some(items[volumeID]) else None
    {
      if volumeID in items {
        return Some(items[volumeID]);
      }
      return None;
    }
  }
}
