/**
 The sidecar's peer watcher: each status snapshot is compared with the one
 before, and the differences are sent as events.
*/
module PeerWatch {
  import opened Options

  type Id = string

  datatype PeerInfo = PeerInfo(id: Id, hostname: string, dnsName: string, ips: seq<string>, online: bool, os: string,
                               curAddr: string, relay: string, peerRelay: string, active: bool, lastSeen: string,
                               keyExpiry: string, expired: bool, loginName: string, app: string)

  type Peers = map<Id, PeerInfo>

  datatype Change = Joined(id: Id, peer: PeerInfo) | Left(id: Id) | Updated(id: Id, peer: PeerInfo)

  predicate Changed(old_: PeerInfo, new_: PeerInfo) {
    || old_.active != new_.active || old_.peerRelay != new_.peerRelay || old_.online != new_.online
    || old_.curAddr != new_.curAddr || old_.relay != new_.relay || old_.hostname != new_.hostname
    || old_.app != new_.app || old_.dnsName != new_.dnsName || old_.expired != new_.expired
    || old_.loginName != new_.loginName
  }

  // ----- A consumer of the events ------------------------------------------

  function Noted(view: Peers, c: Change): Peers {
    match c
    case Joined(id, peer) => view[id := peer]
    case Left(id) => view - {id}
    case Updated(id, peer) => view[id := peer]
  }

  function NotedAll(view: Peers, changes: seq<Change>): Peers {
    if changes == [] then view
    else Noted(NotedAll(view, changes[..|changes| - 1]), changes[|changes| - 1])
  }

  lemma {:induction false} NotedLast(view: Peers, changes: seq<Change>, c: Change)
    ensures NotedAll(view, changes + [c]) == Noted(NotedAll(view, changes), c)
  {
    assert (changes + [c])[..|changes|] == changes;
  }

  lemma {:induction false} NotedAppend(view: Peers, first: seq<Change>, rest: seq<Change>)
    ensures NotedAll(view, first + rest) == NotedAll(NotedAll(view, first), rest)
    decreases |rest|
  {
    if rest == [] {
      assert first + rest == first;
    } else {
      NotedAppend(view, first, rest[..|rest| - 1]);
      assert (first + rest)[..|first + rest| - 1] == first + rest[..|rest| - 1];
    }
  }

  /** The same peers, alike in every field the watcher compares. */
  ghost predicate Agrees(view: Peers, peers: Peers) {
    view.Keys == peers.Keys && forall id :: id in peers ==> !Changed(view[id], peers[id])
  }

  /** `v` is `view` with the peers `ids` as `src` has them. */
  ghost predicate Overlaid(v: Peers, view: Peers, src: Peers, ids: set<Id>) {
    && ids <= src.Keys
    && (forall id :: id in v <==> id in view || id in ids)
    && (forall id :: id in v ==> v[id] == if id in ids then src[id] else view[id])
  }

  /** One more event overlays one more peer. */
  lemma OverlaidMore(view: Peers, events: seq<Change>, c: Change, src: Peers, ids: set<Id>)
    requires Overlaid(NotedAll(view, events), view, src, ids)
    requires !c.Left? && c.id in src && c.peer == src[c.id]
    ensures Overlaid(NotedAll(view, events + [c]), view, src, ids + {c.id})
  {
    NotedLast(view, events, c);
  }

  /** `v` is `view` without the peers `ids`. */
  ghost predicate Dropped(v: Peers, view: Peers, ids: set<Id>) {
    && (forall id :: id in v <==> id in view && id !in ids)
    && (forall id :: id in v ==> v[id] == view[id])
  }

  lemma DroppedMore(view: Peers, events: seq<Change>, c: Change, ids: set<Id>)
    requires Dropped(NotedAll(view, events), view, ids) && c.Left?
    ensures Dropped(NotedAll(view, events + [c]), view, ids + {c.id})
  {
    NotedLast(view, events, c);
  }

  ghost function NewIds(known: Peers, current: Peers): set<Id> {
    current.Keys - known.Keys
  }

  ghost function GoneIds(known: Peers, current: Peers): set<Id> {
    known.Keys - current.Keys
  }

  ghost function ChangedIds(known: Peers, current: Peers): set<Id> {
    set id | id in current && id in known && Changed(known[id], current[id])
  }

  ghost predicate Unchanged(known: Peers, current: Peers) {
    known.Keys == current.Keys && forall id :: id in current ==> !Changed(known[id], current[id])
  }

  lemma NoDifference(known: Peers, current: Peers)
    ensures NewIds(known, current) == GoneIds(known, current) == ChangedIds(known, current) == {}
            <==> Unchanged(known, current)
  {
    if Unchanged(known, current) {
      assert ChangedIds(known, current) == {};
    } else if known.Keys == current.Keys {
      var id :| id in current && Changed(known[id], current[id]);
      assert id in ChangedIds(known, current);
    } else {
      assert NewIds(known, current) == {} && GoneIds(known, current) == {} ==> known.Keys == current.Keys;
    }
  }

  /** Adding the new, dropping the gone and replacing the changed keeps a consumer in agreement. */
  lemma DiffAgrees(view: Peers, known: Peers, current: Peers, joined: Peers, stayed: Peers, updated: Peers)
    requires Agrees(view, known) && Overlaid(joined, view, current, NewIds(known, current))
    requires Dropped(stayed, joined, GoneIds(known, current))
    requires Overlaid(updated, stayed, current, ChangedIds(known, current))
    ensures Agrees(updated, current)
  {
    forall id | id in current ensures id in updated && !Changed(updated[id], current[id]) {
      if id in known && !Changed(known[id], current[id]) {
        assert updated[id] == view[id];
      }
    }
  }

  // ----- The watcher -------------------------------------------------------

  /** Every new peer, each once. */
  method SendJoined(known: Peers, current: Peers, ghost view: Peers) returns (events: seq<Change>)
    ensures Overlaid(NotedAll(view, events), view, current, NewIds(known, current))
    ensures |events| == |NewIds(known, current)|
  {
    events := [];
    var todo := current.Keys;
    ghost var done: set<Id> := {};
    while todo != {}
      invariant todo <= current.Keys && forall id :: id in done <==> id in current && id !in known && id !in todo
      invariant Overlaid(NotedAll(view, events), view, current, done)
      invariant |events| == |done|
      decreases |todo|
    {
      var id :| id in todo;
      todo := todo - {id};
      if id !in known {
        OverlaidMore(view, events, Joined(id, current[id]), current, done);
        events, done := events + [Joined(id, current[id])], done + {id};
      }
    }
    assert done == NewIds(known, current);
  }

  /** Every peer gone, each once. */
  method SendLeft(known: Peers, current: Peers, ghost view: Peers) returns (events: seq<Change>)
    ensures Dropped(NotedAll(view, events), view, GoneIds(known, current))
    ensures |events| == |GoneIds(known, current)|
  {
    events := [];
    var todo := known.Keys;
    ghost var done: set<Id> := {};
    while todo != {}
      invariant todo <= known.Keys && forall id :: id in done <==> id in known && id !in current && id !in todo
      invariant Dropped(NotedAll(view, events), view, done)
      invariant |events| == |done|
      decreases |todo|
    {
      var id :| id in todo;
      todo := todo - {id};
      if id !in current {
        DroppedMore(view, events, Left(id), done);
        events, done := events + [Left(id)], done + {id};
      }
    }
    assert done == GoneIds(known, current);
  }

  /** Every peer that stayed and changed, each once. */
  method SendUpdated(known: Peers, current: Peers, ghost view: Peers) returns (events: seq<Change>)
    ensures Overlaid(NotedAll(view, events), view, current, ChangedIds(known, current))
    ensures |events| == |ChangedIds(known, current)|
  {
    events := [];
    var todo := current.Keys;
    ghost var done: set<Id> := {};
    while todo != {}
      invariant todo <= current.Keys && forall id :: id in done <==> id in ChangedIds(known, current) && id !in todo
      invariant Overlaid(NotedAll(view, events), view, current, done)
      invariant |events| == |done|
      decreases |todo|
    {
      var id :| id in todo;
      todo := todo - {id};
      if id in known && Changed(known[id], current[id]) {
        OverlaidMore(view, events, Updated(id, current[id]), current, done);
        events, done := events + [Updated(id, current[id])], done + {id};
      }
    }
    assert done == ChangedIds(known, current);
  }

  class Watcher {
    var known: Peers
    var seeded: bool

    constructor ()
      ensures known == map[] && !seeded
    {
      known, seeded := map[], false;
    }

    /**
     One round: `fetched` is the status, or None when fetching failed. Whatever
     a consumer that agreed with the last snapshot holds, the events make it
     agree with this one; a round with no difference sends nothing.
    */
    method Diff(fetched: Option<Peers>, ghost view: Peers) returns (events: seq<Change>)
      modifies this
      ensures fetched.None? ==> events == [] && known == old(known) && seeded == old(seeded)
      ensures fetched.Some? ==> known == fetched.value && seeded
      ensures fetched.Some? && !old(seeded) ==> events == []
      ensures old(seeded) && Agrees(view, old(known)) ==> Agrees(NotedAll(view, events), known)
      ensures fetched.Some? && old(seeded) ==>
                |events| == |NewIds(old(known), known)| + |GoneIds(old(known), known)| + |ChangedIds(old(known), known)|
      ensures fetched.Some? && old(seeded) ==> (events == [] <==> Unchanged(old(known), known))
    {
      events := [];
      if fetched.None? {
        return;
      }
      var current := fetched.value;
      if !seeded {
        known, seeded := current, true;
        return;
      }
      events := SendJoined(known, current, view);
      ghost var joined := NotedAll(view, events);
      var left := SendLeft(known, current, joined);
      ghost var stayed := NotedAll(joined, left);
      var updated := SendUpdated(known, current, stayed);
      NotedAppend(view, events, left);
      NotedAppend(view, events + left, updated);
      if Agrees(view, known) {
        DiffAgrees(view, known, current, joined, stayed, NotedAll(stayed, updated));
      }
      NoDifference(known, current);
      events := events + left + updated;
      known := current;
    }
  }

  // ----- Whole watches -----------------------------------------------------

  function First(fetches: seq<Option<Peers>>): Option<Peers> {
    if fetches == [] then None
    else if First(fetches[..|fetches| - 1]).Some? then First(fetches[..|fetches| - 1])
    else fetches[|fetches| - 1]
  }

  function Latest(fetches: seq<Option<Peers>>): Option<Peers> {
    if fetches == [] then None
    else if fetches[|fetches| - 1].Some? then fetches[|fetches| - 1]
    else Latest(fetches[..|fetches| - 1])
  }

  /**
   Any sequence of snapshots and failed fetches: a consumer that starts from
   the first snapshot and applies all events agrees with the latest.
  */
  method Watch(fetches: seq<Option<Peers>>) returns (events: seq<Change>)
    ensures First(fetches).None? ==> events == []
    ensures First(fetches).Some? ==>
              Latest(fetches).Some? && Agrees(NotedAll(First(fetches).value, events), Latest(fetches).value)
  {
    events := [];
    var w := new Watcher();
    for i := 0 to |fetches|
      invariant fresh(w) && w.seeded == First(fetches[..i]).Some? == Latest(fetches[..i]).Some?
      invariant !w.seeded ==> events == []
      invariant w.seeded ==> w.known == Latest(fetches[..i]).value
                             && Agrees(NotedAll(First(fetches[..i]).value, events), w.known)
    {
      assert fetches[..i + 1][..i] == fetches[..i];
      ghost var view := if w.seeded then NotedAll(First(fetches[..i]).value, events) else map[];
      var more := w.Diff(fetches[i], view);
      if First(fetches[..i]).Some? {
        NotedAppend(First(fetches[..i]).value, events, more);
      }
      events := events + more;
    }
    assert fetches[..|fetches|] == fetches;
  }

  /** The fields that are not compared can go stale: here, a peer's addresses. */
  lemma AddressesCanGoStale(was: PeerInfo, ips: seq<string>)
    requires ips != was.ips
    ensures var now := was.(ips := ips);
            && !Changed(was, now) && Agrees(map[was.id := was], map[was.id := now])
            && map[was.id := was] != map[was.id := now]
  {
    var now := was.(ips := ips);
    assert map[was.id := was][was.id] != map[was.id := now][was.id];
  }
}
