/**
 The sidecar's table of proxies. An id is taken by a placeholder while its add
 is pending and by the entry once it is live; each operation is one section of
 the table's lock. Adds are known by number.
*/
module ProxyTable {
  import opened Options

  type Id = string

  /** `proxies[id]` is None for a placeholder and Some(add) for a live entry. */
  datatype Table = Table(proxies: map<Id, Option<nat>>, pending: map<Id, nat>)

  predicate Live(t: Table, id: Id, add: nat) {
    id in t.proxies && t.proxies[id] == Some(add)
  }

  predicate Waits(t: Table, id: Id, add: nat) {
    id in t.pending && t.pending[id] == add
  }

  function Placed(t: Table, id: Id, add: nat): Table {
    Table(t.proxies[id := None], t.pending[id := add])
  }

  /** Only a placeholder of this very add goes; never a live entry or another add's placeholder. */
  function Unplaced(t: Table, id: Id, add: nat): Table {
    if !Waits(t, id, add) then t
    else Table(if id in t.proxies && t.proxies[id].None? then t.proxies - {id} else t.proxies, t.pending - {id})
  }

  predicate Installable(t: Table, id: Id, add: nat) {
    id in t.proxies && t.proxies[id].None? && Waits(t, id, add)
  }

  function Installed(t: Table, id: Id, add: nat): Table {
    Table(t.proxies[id := Some(add)], t.pending - {id})
  }

  function Removed(t: Table, id: Id): Table {
    t.(proxies := t.proxies - {id})
  }

  const EMPTY := Table(map[], map[])

  function LiveAdds(t: Table): set<nat> {
    set id | id in t.proxies && t.proxies[id].Some? :: t.proxies[id].value
  }

  /** The placeholders are exactly the pending ids. */
  ghost predicate Consistent(t: Table) {
    forall id :: id in t.pending <==> id in t.proxies && t.proxies[id].None?
  }

  lemma ConsistencyKept(t: Table, id: Id, add: nat)
    requires Consistent(t)
    ensures id !in t.proxies ==> Consistent(Placed(t, id, add))
    ensures Consistent(Unplaced(t, id, add))
    ensures Installable(t, id, add) ==> Consistent(Installed(t, id, add))
    ensures id in t.proxies && t.proxies[id].Some? ==> Consistent(Removed(t, id))
  {
  }

  /** What an aborting add leaves of a consistent table: everything but its own placeholder. */
  lemma UnplacedSparesOthers(t: Table, id: Id, add: nat, other: Id)
    requires Consistent(t)
    ensures other in Unplaced(t, id, add).proxies
            <==> other in t.proxies && !(other == id && Waits(t, id, add))
    ensures other in Unplaced(t, id, add).proxies ==> Unplaced(t, id, add).proxies[other] == t.proxies[other]
    ensures forall a :: Live(t, other, a) ==> Live(Unplaced(t, id, add), other, a)
    ensures forall a :: Waits(t, other, a) && a != add ==> Waits(Unplaced(t, id, add), other, a)
  {
  }

  class Proxies {
    var proxies: map<Id, Option<nat>>
    var pending: map<Id, nat>

    ghost function Value(): Table
      reads this
    {
      Table(proxies, pending)
    }

    constructor ()
      ensures Value() == EMPTY
    {
      proxies, pending := map[], map[];
    }

    /** Takes the id unless it is taken; the port check is the caller's list of live ports. */
    method Place(id: Id, add: nat, portInUse: bool) returns (ok: bool)
      modifies this
      ensures ok <==> id !in old(proxies) && !portInUse
      ensures Value() == if ok then Placed(old(Value()), id, add) else old(Value())
    {
      if id in proxies || portInUse {
        return false;
      }
      proxies, pending := proxies[id := None], pending[id := add];
      return true;
    }

    method RemovePlaceholder(id: Id, add: nat)
      modifies this
      ensures Value() == Unplaced(old(Value()), id, add)
    {
      if id in pending && pending[id] == add {
        pending := pending - {id};
        if id in proxies && proxies[id].None? {
          proxies := proxies - {id};
        }
      }
    }

    /** `transfer` is the pending add giving its handles up, tried only when the table allows. */
    method Install(id: Id, add: nat, alive: bool, transfer: bool) returns (ok: bool)
      modifies this
      ensures ok <==> alive && Installable(old(Value()), id, add) && transfer
      ensures Value() == if ok then Installed(old(Value()), id, add) else old(Value())
    {
      if !alive || id !in proxies || proxies[id].Some? || id !in pending || pending[id] != add {
        return false;
      }
      if !transfer {
        return false;
      }
      pending := pending - {id};
      proxies := proxies[id := Some(add)];
      return true;
    }

    method Remove(id: Id) returns (entry: Option<nat>)
      modifies this
      ensures entry == if id in old(proxies) then old(proxies)[id] else None
      ensures Value() == if entry.Some? then Removed(old(Value()), id) else old(Value())
    {
      if id !in proxies || proxies[id].None? {
        return None;
      }
      entry := proxies[id];
      proxies := proxies - {id};
    }

    /** Everything a stop must tear down, taken out in one section. */
    method Snapshot() returns (entries: set<nat>, adds: set<nat>)
      modifies this
      ensures Value() == EMPTY
      ensures entries == LiveAdds(old(Value())) && adds == old(pending).Values
    {
      entries := {};
      var ids := proxies.Keys;
      while ids != {}
        invariant ids <= proxies.Keys
        invariant forall a :: a in entries <==> exists id :: id in proxies && id !in ids && proxies[id] == Some(a)
        decreases |ids|
      {
        var id :| id in ids;
        ids := ids - {id};
        if proxies[id].Some? {
          entries := entries + {proxies[id].value};
        }
      }
      adds := pending.Values;
      proxies, pending := map[], map[];
    }
  }
}
