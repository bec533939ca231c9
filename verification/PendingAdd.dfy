/**
 The owner of a proxy's directory roots and listener until the proxy is
 installed: it gives them up once, to the entry or to whoever aborts it.
*/
module PendingAdd {
  import opened Options

  /** A root or a listener. */
  class Handle {
    var closes: nat

    constructor ()
      ensures closes == 0
    {
      closes := 0;
    }

    method Close()
      modifies this
      ensures closes == old(closes) + 1
    {
      closes := closes + 1;
    }
  }

  /** The roots opened while binding one proxy. */
  class Resources {
    var roots: seq<Handle>
    var closed: bool

    ghost predicate Valid()
      reads this
    {
      forall i, j :: 0 <= i < j < |roots| ==> roots[i] != roots[j]
    }

    constructor ()
      ensures Valid() && roots == [] && !closed
    {
      roots, closed := [], false;
    }

    method AddRoot(root: Handle)
      requires Valid() && root !in roots
      modifies this`roots
      ensures Valid() && roots == old(roots) + [root]
    {
      roots := roots + [root];
    }

    /** However many paths come here, every root is closed once. */
    method Close()
      requires Valid()
      modifies this`closed, set r | r in roots
      ensures closed
      ensures forall r :: r in roots ==> r.closes == old(r.closes) + (if old(closed) then 0 else 1)
    {
      if closed {
        return;
      }
      closed := true;
      for i := 0 to |roots|
        invariant closed
        invariant forall j :: 0 <= j < |roots| ==>
                    roots[j].closes == old(roots[j].closes) + (if j < i then 1 else 0)
      {
        roots[i].Close();
      }
    }
  }

  class PendingProxyAdd {
    var resources: Option<Resources>
    var listener: Option<Handle>
    var aborted: bool
    var transferred: bool

    /** What it owns: all of it, or nothing once it gave it up. */
    ghost predicate Valid()
      reads this, if resources.Some? then {resources.value} else {}
    {
      && !(aborted && transferred)
      && (aborted || transferred ==> resources.None? && listener.None?)
      && (resources.Some? ==> resources.value.Valid())
      && (resources.Some? && listener.Some? ==> listener.value !in resources.value.roots)
    }

    constructor (resources: Resources)
      requires resources.Valid()
      ensures Valid() && this.resources == Some(resources) && listener.None? && !aborted && !transferred
    {
      this.resources, listener, aborted, transferred := Some(resources), None, false, false;
    }

    /** A listener that comes too late is closed here and now. */
    method SetListener(ln: Handle) returns (ok: bool)
      requires Valid() && (resources.Some? ==> ln !in resources.value.roots)
      modifies this`listener, ln
      ensures Valid() && ok == (!aborted && !transferred)
      ensures ok ==> listener == Some(ln) && ln.closes == old(ln.closes)
      ensures !ok ==> listener == old(listener) && ln.closes == old(ln.closes) + 1
    {
      if aborted || transferred {
        ln.Close();
        return false;
      }
      listener := Some(ln);
      return true;
    }

    /** The handles pass to the caller, still open, at most once. */
    method Transfer() returns (ok: bool)
      requires Valid()
      modifies this
      ensures Valid() && ok == (!old(aborted) && !old(transferred))
      ensures ok ==> transferred && !aborted
      ensures !ok ==> aborted == old(aborted) && transferred == old(transferred)
    {
      if aborted || transferred {
        return false;
      }
      transferred, resources, listener := true, None, None;
      return true;
    }

    /** Closes what is still owned; nothing after a transfer or an earlier abort. */
    method Abort()
      requires Valid()
      modifies this
      modifies if listener.Some? then {listener.value} else {}
      modifies if resources.Some? then {resources.value} else {}
      modifies if resources.Some? then set r | r in resources.value.roots else {}
      ensures Valid() && transferred == old(transferred) && aborted == !transferred
      ensures old(listener).Some? && !old(aborted) && !old(transferred) ==>
                old(listener).value.closes == old(listener.value.closes) + 1
      ensures old(resources).Some? && !old(aborted) && !old(transferred) ==>
                forall r :: r in old(resources.value.roots) ==>
                  r.closes == old(r.closes) + (if old(resources.value.closed) then 0 else 1)
    {
      if aborted || transferred {
        return;
      }
      var res, ln := resources, listener;
      aborted, resources, listener := true, None, None;
      if ln.Some? {
        ln.value.Close();
      }
      if res.Some? {
        res.value.Close();
      }
    }
  }
}
