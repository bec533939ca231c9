/**
 The tables of runs that peers prepared on this hub: registered runs, cancel
 tombstones and finish records. Every function is one lock section; the class
 performs the same sections in place.

 A registered run is named by the token it was prepared under, and a finish
 record's channel by the run it reports on.
*/
module RemoteRuns {
  import opened Options

  datatype Key = Key(peer: string, runId: string)

  type RunName = nat

  type Time = nat

  /** How long tombstones and finish records are kept: 5 minutes, in ns. */
  const TOMBSTONE_TTL: Time := 300_000_000_000

  datatype Outcome = Stats(value: string) | WorkloadFailed(error: string) | AlreadyFinished

  /** The watch channel a finish publishes its outcome on, and the handler holding its sender. */
  datatype Channel = Channel(ack: Option<Outcome>, sender: Option<nat>)

  type Channels = map<RunName, Channel>

  datatype Record = Record(id: string, run: RunName, expires: Option<Time>)

  datatype Tables = Tables(
    runs: map<Key, RunName>,
    tombstones: map<Key, Time>,
    finished: map<Key, Record>)

  const NO_RUNS := Tables(map[], map[], map[])

  predicate Live(r: Record, now: Time, channels: Channels) {
    match r.expires
    case Some(t) => t > now
    case None => r.run in channels && (channels[r.run].ack.Some? || channels[r.run].sender.Some?)
  }

  function Prune(t: Tables, now: Time, channels: Channels): Tables {
    t.(tombstones := map k | k in t.tombstones && t.tombstones[k] > now :: t.tombstones[k],
    finished := map k | k in t.finished && Live(t.finished[k], now, channels) :: t.finished[k])
  }

  datatype Verdict = Accepted | Cancelled | AlreadyPrepared | NotRunning

  function CheckKey(t: Tables, key: Key): Verdict {
    if key in t.tombstones then Cancelled
    else if key in t.runs || key in t.finished then AlreadyPrepared
    else Accepted
  }

  function CheckCommit(t: Tables, key: Key, stopping: bool): Verdict {
    if key in t.tombstones then Cancelled else if stopping then NotRunning else Accepted
  }

  function Insert(t: Tables, key: Key, run: RunName): Tables {
    t.(runs := t.runs[key := run])
  }

  function Take(t: Tables, key: Key): Tables {
    t.(runs := t.runs - {key})
  }

  function Bury(t: Tables, key: Key, now: Time): Tables {
    t.(tombstones := t.tombstones[key := now + TOMBSTONE_TTL])
  }

  datatype FinishClaim = First(run: RunName) | Duplicate(sameId: bool, run: RunName) | Unknown

  function ClaimOf(t: Tables, key: Key, id: string): FinishClaim {
    if key in t.runs then First(t.runs[key])
    else if key in t.finished then Duplicate(t.finished[key].id == id, t.finished[key].run)
    else Unknown
  }

  function Claim(t: Tables, key: Key, id: string): Tables {
    if key in t.runs
    then Take(t, key).(finished := t.finished[key := Record(id, t.runs[key], None)])
    else t
  }

  /** Stamps whatever record the key has, as the code does. */
  function Expire(t: Tables, key: Key, now: Time): Tables {
    if key in t.finished
    then t.(finished := t.finished[key := t.finished[key].(expires := Some(now + TOMBSTONE_TTL))])
    else t
  }

  class RemoteRuns {
    var runs: map<Key, RunName>
    var tombstones: map<Key, Time>
    var finished: map<Key, Record>

    constructor ()
      ensures Abs() == NO_RUNS
    {
      runs, tombstones, finished := map[], map[], map[];
    }

    ghost function Abs(): Tables
      reads this
    {
      Tables(runs, tombstones, finished)
    }

    method PruneNow(now: Time, channels: Channels)
      modifies this
      ensures Abs() == Prune(old(Abs()), now, channels)
    {
      tombstones := map k | k in tombstones && tombstones[k] > now :: tombstones[k];
      finished := map k | k in finished && Live(finished[k], now, channels) :: finished[k];
    }

    method Tombstoned(key: Key, now: Time, channels: Channels) returns (yes: bool)
      modifies this
      ensures Abs() == Prune(old(Abs()), now, channels)
      ensures yes <==> key in old(tombstones) && old(tombstones)[key] > now
    {
      PruneNow(now, channels);
      yes := key in tombstones;
    }

    method KeyIsFree(key: Key, now: Time, channels: Channels) returns (v: Verdict)
      modifies this
      ensures Abs() == Prune(old(Abs()), now, channels) && v == CheckKey(Abs(), key)
      ensures v == Cancelled <==> key in old(tombstones) && old(tombstones)[key] > now
      ensures v == Accepted <==> && v != Cancelled && key !in old(runs)
                                 && !(key in old(finished) && Live(old(finished)[key], now, channels))
    {
      var buried := Tombstoned(key, now, channels);
      if buried {
        return Cancelled;
      }
      return if key in runs || key in finished then AlreadyPrepared else Accepted;
    }

    method Commit(key: Key, run: RunName, stopping: bool, now: Time, channels: Channels)
      returns (v: Verdict)
      modifies this
      ensures v == CheckCommit(Prune(old(Abs()), now, channels), key, stopping)
      ensures Abs() == var t := Prune(old(Abs()), now, channels);
                       if v == Accepted then Insert(t, key, run) else t
    {
      var buried := Tombstoned(key, now, channels);
      if buried {
        v := Cancelled;
      } else if stopping {
        v := NotRunning;
      } else {
        runs := runs[key := run];
        v := Accepted;
      }
    }

    method TakeRun(key: Key) returns (run: Option<RunName>)
      modifies this
      ensures Abs() == Take(old(Abs()), key)
      ensures run == if key in old(runs) then Some(old(runs)[key]) else None
    {
      run := if key in runs then Some(runs[key]) else None;
      runs := runs - {key};
    }

    method ClaimFinish(key: Key, id: string, now: Time, channels: Channels) returns (c: FinishClaim)
      modifies this
      ensures c == ClaimOf(Prune(old(Abs()), now, channels), key, id)
      ensures Abs() == Claim(Prune(old(Abs()), now, channels), key, id)
    {
      PruneNow(now, channels);
      var taken := TakeRun(key);
      match taken {
        case Some(run) =>
          finished := finished[key := Record(id, run, None)];
          c := First(run);
        case None =>
          assert key !in old(runs);
          c := if key in finished then Duplicate(finished[key].id == id, finished[key].run) else Unknown;
      }
    }

    method BuryKey(key: Key, now: Time, channels: Channels)
      modifies this
      ensures Abs() == Bury(Prune(old(Abs()), now, channels), key, now)
    {
      PruneNow(now, channels);
      tombstones := tombstones[key := now + TOMBSTONE_TTL];
    }

    method ExpireRecord(key: Key, now: Time)
      modifies this
      ensures Abs() == Expire(old(Abs()), key, now)
    {
      if key in finished {
        finished := finished[key := finished[key].(expires := Some(now + TOMBSTONE_TTL))];
      }
    }
  }
}
