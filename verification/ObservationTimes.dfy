/** The per-member status of a pass, the readings kept in memory between passes, and
    the observation times a status is written with. */
module ObservationTimes {
  import opened Operations
  import opened Replication
  import opened Roles

  datatype InstanceStatus = InstanceStatus(
    name: string, role: Role, ready: bool, version: string, replication: Option<Record>, lastObserved: Option<int>,
    unfinished: Option<string>)

  /** `rest` is everything in the status that is neither an instance nor an observation time. */
  datatype ClusterStatus = ClusterStatus(rest: string, lastObserved: Option<int>, instances: seq<InstanceStatus>)

  // ---- The instances of a pass

  /** The last entry of that name. */
  function Named(instances: seq<InstanceStatus>, name: string): Option<InstanceStatus> {
    if instances == [] then None
    else if instances[|instances| - 1].name == name then Some(instances[|instances| - 1])
    else Named(instances[..|instances| - 1], name)
  }

  function ReplicationBefore(previous: seq<InstanceStatus>, name: string): Option<Record> {
    var p := Named(previous, name);
    if p.Some? then p.value.replication else None
  }

  /** The reading of member m that counts: an authoritative slave's. */
  function CountedReading(obs: Answers, m: string, now: int): Option<Reading> {
    if m in obs && Authoritative(obs[m], now) && obs[m].role == Slave then obs[m].reading else None
  }

  predicate IsSlave(obs: Answers, m: string, now: int) {
    m in obs && Authoritative(obs[m], now) && obs[m].role == Slave
  }

  /** The member gave an answer in this pass that is its own. */
  predicate Answered(obs: Answers, m: string, now: int) {
    m in obs && Fresh(obs[m], now) && !obs[m].conflicting
  }

  /** What the status says of member m after a pass. */
  predicate Tells(i: InstanceStatus, m: string, obs: Answers, logEnds: map<string, Address>, now: int,
                  previous: seq<InstanceStatus>, positions: map<string, Base>)
  {
    && i.name == m
    // A role is stated only on authority, and makes the member ready.
    && (m in obs && Authoritative(obs[m], now) ==> i.role == obs[m].role && i.ready)
    && (!(m in obs && Authoritative(obs[m], now)) ==> i.role == Unknown && !i.ready)
    // Only an authoritative slave has a replication, and its history goes on from the pass before.
    && (i.replication.Some? ==> IsSlave(obs, m, now))
    && (IsSlave(obs, m, now) ==>
          i.replication == NextReplication(ReplicationBefore(previous, m), WithSourceLogEnd(obs[m].reading, obs, logEnds, now),
                                           PositionOf(positions, m), now))
    // The engine version is of any fresh answer, also one whose role is not trusted.
    && i.version == (if m in obs && Fresh(obs[m], now) then obs[m].version else "")
    // An answer of its own states its time and the unfinished database; without one both stay as they were.
    && (Answered(obs, m, now) ==> i.lastObserved == Some(now) && i.unfinished == obs[m].unfinished)
    && (!Answered(obs, m, now) ==>
          var before := Named(previous, m);
          && i.lastObserved == (if before.Some? then before.value.lastObserved else None)
          && i.unfinished == (if before.Some? then before.value.unfinished else None))
  }

  method InstanceStatuses(members: seq<string>, obs: Answers, logEnds: map<string, Address>, now: int,
                          previous: seq<InstanceStatus>, positions: map<string, Base>)
    returns (out: seq<InstanceStatus>)
    ensures |out| == |members|
    ensures forall i :: 0 <= i < |members| ==> Tells(out[i], members[i], obs, logEnds, now, previous, positions)
  {
    var before := ByName(previous);
    out := [];
    var i := 0;
    while i < |members|
      invariant 0 <= i <= |members| && |out| == i
      invariant forall k :: 0 <= k < i ==> Tells(out[k], members[k], obs, logEnds, now, previous, positions)
    {
      var m := members[i];
      var role, ready, version, answered, unfinished, replication := Unknown, false, "", None, None, None;
      if m in before {
        answered, unfinished := before[m].lastObserved, before[m].unfinished;
      }
      if m in obs && Authoritative(obs[m], now) {
        role := obs[m].role;
        ready := role == Master || role == Slave || role == Replica;
      }
      if m in obs && Fresh(obs[m], now) {
        version := obs[m].version;
      }
      if m in obs && Fresh(obs[m], now) && !obs[m].conflicting {
        answered, unfinished := Some(now), obs[m].unfinished;
      }
      if role == Slave {
        var history := if m in before then before[m].replication else None;
        replication := NextReplication(history, WithSourceLogEnd(obs[m].reading, obs, logEnds, now), PositionOf(positions, m), now);
      }
      out := out + [InstanceStatus(m, role, ready, version, replication, answered, unfinished)];
      i := i + 1;
    }
  }

  /** The entries by name; a later one of the same name counts. */
  method ByName(instances: seq<InstanceStatus>) returns (before: map<string, InstanceStatus>)
    ensures forall name :: name in before <==> Named(instances, name).Some?
    ensures forall name :: name in before ==> before[name] == Named(instances, name).value
  {
    before := map[];
    var i := 0;
    while i < |instances|
      invariant 0 <= i <= |instances|
      invariant forall name :: name in before <==> Named(instances[..i], name).Some?
      invariant forall name :: name in before ==> before[name] == Named(instances[..i], name).value
    {
      assert instances[..i + 1][..i] == instances[..i];
      before := before[instances[i].name := instances[i]];
      i := i + 1;
    }
    assert instances[..i] == instances;
  }

  /** A slave's reading with the end of its source's own log, when the source answered as an authoritative master with one. */
  function WithSourceLogEnd(r: Option<Reading>, obs: Answers, logEnds: map<string, Address>, now: int): Option<Reading> {
    if r.Some? && IsMaster(obs, r.value.source, now) && r.value.source in logEnds
    then Some(r.value.(sourceEnd := Some(logEnds[r.value.source]))) else r
  }

  function PositionOf(positions: map<string, Base>, m: string): Option<Base> {
    if m in positions then Some(positions[m]) else None
  }

  // ---- The readings kept in memory

  /** None of a member in another role, the reading of a slave unless the kept one is too close, and otherwise the kept one. */
  function PositionKept(before: Option<Base>, obs: Answers, m: string, now: int): Option<Base> {
    if m in obs && Authoritative(obs[m], now) && obs[m].role != Slave then None
    else NextBase(before, CountedReading(obs, m, now), now)
  }

  method ReadingPositions(members: seq<string>, obs: Answers, before: map<string, Base>, now: int) returns (out: map<string, Base>)
    ensures forall m :: m in out ==> m in members
    ensures forall m :: m in members ==> PositionOf(out, m) == PositionKept(PositionOf(before, m), obs, m, now)
  {
    out := map[];
    var i := 0;
    while i < |members|
      invariant 0 <= i <= |members|
      invariant forall m :: m in out ==> m in members[..i]
      invariant forall m :: m in members[..i] ==> PositionOf(out, m) == PositionKept(PositionOf(before, m), obs, m, now)
    {
      var m := members[i];
      assert members[..i + 1] == members[..i] + [m];
      if m in obs && Authoritative(obs[m], now) && obs[m].role != Slave {
      } else if m in obs && Authoritative(obs[m], now) && obs[m].reading.Some? && (m !in before || !TooClose(before[m].readAt, now)) {
        var r := obs[m].reading.value;
        out := out[m := Base(r.source, r.applier, r.position, r.copied, r.delayed, now)];
      } else if m in before {
        out := out[m := before[m]];
      }
      i := i + 1;
    }
    assert members[..i] == members;
  }

  /** How a pass saw member m. */
  function SightOf(obs: Answers, logEnds: map<string, Address>, m: string, now: int): Sight {
    if m !in obs || !Authoritative(obs[m], now) then Unanswered
    else if obs[m].role != Slave then InAnotherRole
    else AsSlave(WithSourceLogEnd(obs[m].reading, obs, logEnds, now))
  }

  /** The status that a pass gives the member and the reading it keeps are the step of the runs over one member. */
  lemma PassIsStep(i: InstanceStatus, m: string, obs: Answers, logEnds: map<string, Address>,
                   previous: seq<InstanceStatus>, positions: map<string, Base>, s: Replication.State, p: Pass)
    requires p.sight == SightOf(obs, logEnds, m, p.now) && Tells(i, m, obs, logEnds, p.now, previous, positions)
    requires s.record == ReplicationBefore(previous, m) && Compared(s, p) == PositionOf(positions, m)
    ensures Step(s, p) == Replication.State.State(Stamped(i.replication, p), PositionKept(PositionOf(positions, m), obs, m, p.now))
  {
  }

  datatype Kept = Kept(name: string, members: map<string, Base>)

  /** The last reading of each slave's applier, per cluster. */
  class ApplierPositions {
    var clusters: map<string, Kept>

    constructor ()
      ensures clusters == map[]
    {
      clusters := map[];
    }

    method Readings(uid: string, now: int) returns (out: map<string, Base>)
      ensures forall m :: PositionOf(out, m) == Usable(if uid in clusters then PositionOf(clusters[uid].members, m) else None, now)
    {
      if uid !in clusters {
        return map[];
      }
      out := map m | m in clusters[uid].members && -ObservationTTL <= now - clusters[uid].members[m].readAt <= HistoryTTL :: clusters[uid].members[m];
    }

    /** No other cluster of that name is kept, and of this one exactly the readings. */
    method Commit(uid: string, name: string, readings: map<string, Base>)
      modifies this
      ensures uid in clusters <==> readings != map[]
      ensures readings != map[] ==> clusters[uid] == Kept(name, readings)
      ensures forall other :: other != uid ==>
        (other in clusters <==> other in old(clusters) && old(clusters)[other].name != name)
      ensures forall other :: other != uid && other in clusters ==> clusters[other] == old(clusters)[other]
    {
      clusters := map other | other in clusters && other != uid && clusters[other].name != name :: clusters[other];
      if readings != map[] {
        clusters := clusters[uid := Kept(name, readings)];
      }
    }

    /** Nothing of a cluster of that name is kept, and of every other one all that was. */
    method Forget(name: string)
      modifies this
      ensures forall uid :: uid in clusters ==> clusters[uid].name != name
      ensures forall uid :: uid in clusters ==> uid in old(clusters) && clusters[uid] == old(clusters)[uid]
      ensures forall uid :: uid in old(clusters) && old(clusters)[uid].name != name ==> uid in clusters
    {
      clusters := map uid | uid in clusters && clusters[uid].name != name :: clusters[uid];
    }
  }

  // ---- The times a status is written with

  function HeldTime(stored: Option<int>, current: Option<int>, now: int): Option<int> {
    if stored.None? || current.None? || current.value < stored.value then current
    else if now - stored.value < 0 || now - stored.value >= WriteInterval then current
    else stored
  }

  function HeldRecord(prev: Option<Record>, r: Option<Record>, now: int): Option<Record> {
    if prev.Some? && r.Some? then Some(r.value.(observedAt := HeldTime(prev.value.observedAt, r.value.observedAt, now))) else r
  }

  function HeldInstance(prev: Option<InstanceStatus>, i: InstanceStatus, now: int): InstanceStatus {
    if prev.None? then i
    else i.(lastObserved := HeldTime(prev.value.lastObserved, i.lastObserved, now),
            replication := HeldRecord(prev.value.replication, i.replication, now))
  }

  /** A time that is the current one, or an earlier one that lags it by less than the write interval. */
  predicate Behind(t: Option<int>, current: Option<int>, now: int) {
    t == current || (t.Some? && current.Some? && t.value <= current.value && now - t.value < WriteInterval)
  }

  predicate OnlyTimesDiffer(a: InstanceStatus, b: InstanceStatus, now: int) {
    && a == b.(lastObserved := a.lastObserved, replication := a.replication)
    && Behind(a.lastObserved, b.lastObserved, now)
    && (a.replication.Some? <==> b.replication.Some?)
    && (a.replication.Some? ==>
          && a.replication.value == b.replication.value.(observedAt := a.replication.value.observedAt)
          && Behind(a.replication.value.observedAt, b.replication.value.observedAt, now))
  }

  lemma HeldBehind(prev: Option<InstanceStatus>, i: InstanceStatus, now: int)
    ensures OnlyTimesDiffer(HeldInstance(prev, i, now), i, now)
  {
  }

  /** What is written differs from what was observed in times alone, each of which lags by less
      than 30 s, and only when the stored status is then written again as it is. */
  method HoldObservationTimes(stored: Option<ClusterStatus>, status: ClusterStatus, now: int) returns (written: ClusterStatus)
    ensures written == status || stored == Some(written)
    ensures written.rest == status.rest && |written.instances| == |status.instances|
    ensures Behind(written.lastObserved, status.lastObserved, now)
    ensures forall i :: 0 <= i < |status.instances| ==> OnlyTimesDiffer(written.instances[i], status.instances[i], now)
    // Whenever holding the times gives the stored status, it is not written anew.
    ensures stored.Some? && stored.value.rest == status.rest
            && stored.value.lastObserved == HeldTime(stored.value.lastObserved, status.lastObserved, now)
            && |stored.value.instances| == |status.instances|
            && (forall i :: 0 <= i < |status.instances| ==>
                  stored.value.instances[i] == HeldInstance(Named(stored.value.instances, status.instances[i].name), status.instances[i], now))
            ==> written == stored.value
  {
    written := status;
    if stored.None? {
      return;
    }
    var held := status.(lastObserved := HeldTime(stored.value.lastObserved, status.lastObserved, now));
    var before := ByName(stored.value.instances);
    var instances: seq<InstanceStatus> := [];
    var i := 0;
    while i < |status.instances|
      invariant 0 <= i <= |status.instances| && |instances| == i
      invariant forall k :: 0 <= k < i ==>
        instances[k] == HeldInstance(Named(stored.value.instances, status.instances[k].name), status.instances[k], now)
    {
      var s := status.instances[i];
      instances := instances + [HeldInstance(if s.name in before then Some(before[s.name]) else None, s, now)];
      i := i + 1;
    }
    forall k | 0 <= k < |status.instances| ensures OnlyTimesDiffer(instances[k], status.instances[k], now) {
      HeldBehind(Named(stored.value.instances, status.instances[k].name), status.instances[k], now);
    }
    if stored.value == held.(instances := instances) {
      written := stored.value;
    }
  }

  /** So a reading written in a pass carries a time less than 30 s before the pass, as Lags asks. */
  lemma WrittenStampLags(written: InstanceStatus, status: InstanceStatus, pass: int, writtenAt: int)
    requires OnlyTimesDiffer(written, status, writtenAt) && pass <= writtenAt
    requires status.replication.Some? && status.replication.value.observedAt == Some(pass)
    ensures written.replication.value.observedAt.Some?
    ensures pass - WriteInterval < written.replication.value.observedAt.value <= pass
  {
  }
}
