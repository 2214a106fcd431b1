/** The conditions ReplicationHealthy and HAReady of a cluster, pass by pass. */
module HAReady {
  import opened Operations
  import opened Replication
  import opened Roles

  datatype Instance = Instance(name: string, role: Role, replication: Option<Record>, lastObserved: Option<int>)

  datatype Health = Yes | No | Unsure

  datatype Why =
    | AppliersProgressing | ReplicationStalled | ApplyFailures | LogCopyStalled | ReplicationNotObserved
    | HealthyReplication | ReplicasNotObserved | RolesNotObserved | Unresolved(reason: Reason)

  datatype Condition = Condition(status: Health, why: Why)

  // ---- ReplicationHealthy

  predicate WasRead(obs: Answers, name: string) {
    name in obs && obs[name].reading.Some?
  }

  predicate Unread(i: Instance, obs: Answers) {
    i.role == Slave && (i.replication.None? || !WasRead(obs, i.name))
  }

  predicate Judged(i: Instance, obs: Answers) {
    i.role == Slave && i.replication.Some? && WasRead(obs, i.name)
  }

  predicate Failing(i: Instance, obs: Answers) {
    Judged(i, obs) && i.replication.value.fails > 0
  }

  predicate Long(since: Option<int>, now: int) {
    since.Some? && now - since.value >= StallWindow
  }

  predicate Stalled(i: Instance, obs: Answers, now: int) {
    Judged(i, obs) && !Failing(i, obs) && Long(i.replication.value.stalledSince, now)
  }

  predicate Deaf(i: Instance, obs: Answers, now: int) {
    Judged(i, obs) && !Failing(i, obs) && !Stalled(i, obs, now) && Long(i.replication.value.notReceivingSince, now)
  }

  /** Read in this pass, applies every change, advances, and receives the log. */
  predicate Healthy(i: Instance, obs: Answers, now: int) {
    && Judged(i, obs) && i.replication.value.fails <= 0
    && !Long(i.replication.value.stalledSince, now) && !Long(i.replication.value.notReceivingSince, now)
  }

  /** What the loop has found of the first k members. */
  datatype Flags = Flags(failing: bool, stalled: bool, deaf: bool, unread: bool, slaves: bool)

  predicate Found(f: Flags, instances: seq<Instance>, obs: Answers, now: int, k: nat)
    requires k <= |instances|
  {
    && (f.failing <==> exists i :: 0 <= i < k && Failing(instances[i], obs))
    && (f.stalled <==> exists i :: 0 <= i < k && Stalled(instances[i], obs, now))
    && (f.deaf <==> exists i :: 0 <= i < k && Deaf(instances[i], obs, now))
    && (f.unread <==> exists i :: 0 <= i < k && Unread(instances[i], obs))
    && (f.slaves <==> exists i :: 0 <= i < k && instances[i].role == Slave)
  }

  lemma FoundStep(f: Flags, instances: seq<Instance>, obs: Answers, now: int, k: nat)
    requires k < |instances| && Found(f, instances, obs, now, k)
    ensures var i := instances[k];
            Found(Flags(f.failing || Failing(i, obs), f.stalled || Stalled(i, obs, now), f.deaf || Deaf(i, obs, now),
                        f.unread || Unread(i, obs), f.slaves || i.role == Slave), instances, obs, now, k + 1)
  {
    hide Failing, Stalled, Deaf, Unread;
  }

  method ReplicationCondition(instances: seq<Instance>, obs: Answers, now: int) returns (c: Condition)
    ensures c == Replicates(instances, obs, now)
  {
    var f := Flags(false, false, false, false, false);
    var k := 0;
    while k < |instances|
      invariant 0 <= k <= |instances| && Found(f, instances, obs, now, k)
    {
      FoundStep(f, instances, obs, now, k);
      f := Judge(f, instances[k], obs, now);
      k := k + 1;
    }
    if f.failing {
      c := Condition(No, ApplyFailures);
    } else if f.stalled {
      c := Condition(No, ReplicationStalled);
    } else if f.deaf {
      c := Condition(No, LogCopyStalled);
    } else if !f.slaves || f.unread {
      c := Condition(Unsure, ReplicationNotObserved);
    } else {
      c := Condition(Yes, AppliersProgressing);
    }
  }

  /** The body of that loop. */
  function Judge(f: Flags, i: Instance, obs: Answers, now: int): (g: Flags)
    ensures g == Flags(f.failing || Failing(i, obs), f.stalled || Stalled(i, obs, now), f.deaf || Deaf(i, obs, now),
                       f.unread || Unread(i, obs), f.slaves || i.role == Slave)
  {
    if i.role != Slave then f
    else if i.replication.None? || !WasRead(obs, i.name) then f.(slaves := true, unread := true)
    else if i.replication.value.fails > 0 then f.(slaves := true, failing := true)
    else if Long(i.replication.value.stalledSince, now) then f.(slaves := true, stalled := true)
    else if Long(i.replication.value.notReceivingSince, now) then f.(slaves := true, deaf := true)
    else f.(slaves := true)
  }

  function Replicates(instances: seq<Instance>, obs: Answers, now: int): Condition {
    if exists i :: 0 <= i < |instances| && Failing(instances[i], obs) then Condition(No, ApplyFailures)
    else if exists i :: 0 <= i < |instances| && Stalled(instances[i], obs, now) then Condition(No, ReplicationStalled)
    else if exists i :: 0 <= i < |instances| && Deaf(instances[i], obs, now) then Condition(No, LogCopyStalled)
    else if exists i :: 0 <= i < |instances| && instances[i].role == Slave then
      if exists i :: 0 <= i < |instances| && Unread(instances[i], obs) then Condition(Unsure, ReplicationNotObserved)
      else Condition(Yes, AppliersProgressing)
    else Condition(Unsure, ReplicationNotObserved)
  }

  /** It is True exactly when there is a slave and every slave is healthy in this pass, and
      False exactly when one that was read in this pass is not. */
  lemma ReplicatesIff(instances: seq<Instance>, obs: Answers, now: int)
    ensures Replicates(instances, obs, now).status == Yes <==>
            && (exists i :: 0 <= i < |instances| && instances[i].role == Slave)
            && (forall i :: 0 <= i < |instances| && instances[i].role == Slave ==> Healthy(instances[i], obs, now))
    ensures Replicates(instances, obs, now).status == No <==>
            exists i :: 0 <= i < |instances| && Judged(instances[i], obs) && !Healthy(instances[i], obs, now)
  {
    if i :| 0 <= i < |instances| && Judged(instances[i], obs) && !Healthy(instances[i], obs, now) {
      assert Failing(instances[i], obs) || Stalled(instances[i], obs, now) || Deaf(instances[i], obs, now);
    }
    if forall i :: 0 <= i < |instances| && instances[i].role == Slave ==> Healthy(instances[i], obs, now) {
      assert forall i :: 0 <= i < |instances| ==> !Unread(instances[i], obs);
    }
    if Replicates(instances, obs, now).status == Yes {
      forall i | 0 <= i < |instances| && instances[i].role == Slave ensures Healthy(instances[i], obs, now) {
        assert !Unread(instances[i], obs) && !Failing(instances[i], obs) && !Stalled(instances[i], obs, now) && !Deaf(instances[i], obs, now);
      }
    }
  }

  /** In a pass that reads a slave whose applier is stuck, the condition is False if a reading found its copy of the
      log grown a stall window ago and every pass since saw it as a slave or observed no roles; and otherwise nothing
      of the stall speaks against it. */
  lemma StuckIsReported(passes: seq<Replication.Pass>, instances: seq<Instance>, k: nat, obs: Answers)
    requires Stuck(passes) && |passes| > 0 && passes[|passes| - 1].reading.Some?
    requires k < |instances| && instances[k].role == Slave && WasRead(obs, instances[k].name)
    requires instances[k].replication == Replication.After(passes, |passes|).record
    ensures instances[k].replication.Some?
    ensures var now := passes[|passes| - 1].now;
            && (GrewLongAgo(passes, |passes|, now - StallWindow) ==> Replicates(instances, obs, now).status == No)
            && (!GrewLongAgo(passes, |passes|, now - StallWindow) ==>
                  (Healthy(instances[k], obs, now) <==>
                     instances[k].replication.value.fails <= 0 && !Long(instances[k].replication.value.notReceivingSince, now)))
  {
    var now := passes[|passes| - 1].now;
    StuckReported(passes, |passes|);
    if GrewLongAgo(passes, |passes|, now - StallWindow) {
      assert Judged(instances[k], obs) && !Healthy(instances[k], obs, now);
      ReplicatesIff(instances, obs, now);
    }
  }

  /** In a pass that reads a slave, the condition is False if a second reading found the master ahead of its copy a stall
      window ago, and since the first of the two its record lived and the copy stayed where it was; and otherwise nothing of
      the copy speaks against it. */
  lemma DeafIsReported(passes: seq<Replication.Pass>, instances: seq<Instance>, k: nat, obs: Answers)
    requires TimesOrdered(passes) && |passes| > 0 && passes[|passes| - 1].reading.Some?
    requires k < |instances| && instances[k].role == Slave && WasRead(obs, instances[k].name)
    requires instances[k].replication == Replication.After(passes, |passes|).record
    ensures instances[k].replication.Some?
    ensures var now := passes[|passes| - 1].now;
            && (BehindLong(passes, |passes|, now - StallWindow) ==> Replicates(instances, obs, now).status == No)
            && (!BehindLong(passes, |passes|, now - StallWindow) ==>
                  (Healthy(instances[k], obs, now) <==>
                     instances[k].replication.value.fails <= 0 && !Long(instances[k].replication.value.stalledSince, now)))
  {
    var now := passes[|passes| - 1].now;
    NotReceivingReported(passes, |passes|);
    if BehindLong(passes, |passes|, now - StallWindow) {
      assert Judged(instances[k], obs) && !Healthy(instances[k], obs, now);
      ReplicatesIff(instances, obs, now);
    }
  }

  function Read(now: int, copied: int): Observation {
    Observation(true, false, Slave, Some(now), false, false, false, Some(ReadingAt(copied)), "", None)
  }

  /** The members of a status: one slave, with what the first n passes leave. */
  function OneSlave(passes: seq<Replication.Pass>, n: nat): seq<Instance>
    requires n <= |passes|
  {
    [Instance("db-1", Slave, Replication.After(passes, n).record, None)]
  }

  const Before := map["db-1" := Read(70, 12)]
  const Later := map["db-1" := Read(90, 13)]

  lemma FalseBefore()
    ensures Replicates(OneSlave(Lost, 3), Before, 70).status == No
  {
    hide Replicates;
    LostIsReported();
    ReplicatesIff(OneSlave(Lost, 3), Before, 70);
    assert Judged(OneSlave(Lost, 3)[0], Before) && !Healthy(OneSlave(Lost, 3)[0], Before, 70);
  }

  lemma TrueLater()
    ensures Replicates(OneSlave(Lost, 5), Later, 90).status == Yes
  {
    hide Replicates;
    LostIsCleared();
    var s := Replication.After(Lost, 4);
    assert Replication.After(Lost, 5) == Replication.Step(s, Lost[4]);
    hide Replication.After;
    assert Healthy(OneSlave(Lost, 5)[0], Later, 90);
    ReplicatesIff(OneSlave(Lost, 5), Later, 90);
  }

  /** A stuck applier that makes the condition False: after one pass without an answer of its member, the next reading
      makes it True. */
  lemma UnansweredTurnsTrue() returns (passes: seq<Replication.Pass>, before: Answers, later: Answers)
    ensures Stuck(passes) && |passes| == 5 && "db-1" in before && "db-1" in later
    ensures passes[2].reading == before["db-1"].reading && passes[4].reading == later["db-1"].reading
    ensures Replicates(OneSlave(passes, 3), before, passes[2].now).status == No
    ensures Replicates(OneSlave(passes, 5), later, passes[4].now).status == Yes
  {
    hide Replicates, OneSlave;
    passes, before, later := Lost, Before, Later;
    LostStands();
    FalseBefore();
    TrueLater();
  }

  // ---- HAReady

  datatype Pass = Pass(res: Resolution, instances: seq<Instance>, obs: Answers, now: int)

  predicate Resolved(p: Pass) {
    p.res.reason == SinglePrimary
  }

  /** A member that is neither the primary nor observed as a slave. */
  predicate Unobserved(p: Pass, i: Instance) {
    i.name != p.res.primary && i.role != Slave
  }

  predicate Recent(at: Option<int>, now: int) {
    at.Some? && now - at.value < StallWindow
  }

  predicate SomeUnobserved(p: Pass) {
    exists i :: 0 <= i < |p.instances| && Unobserved(p, p.instances[i])
  }

  /** Every missing answer and every missing reading is younger than the stall window. */
  predicate MissingIsRecent(p: Pass) {
    && (forall i :: 0 <= i < |p.instances| && Unobserved(p, p.instances[i]) ==> Recent(p.instances[i].lastObserved, p.now))
    && (forall i :: 0 <= i < |p.instances| && p.instances[i].role == Slave && !WasRead(p.obs, p.instances[i].name) ==>
          p.instances[i].replication.Some? && Recent(p.instances[i].replication.value.observedAt, p.now))
  }

  predicate Decided(c: Option<Condition>) {
    c.Some? && (c.value == Condition(Yes, HealthyReplication)
                || (c.value.status == No && c.value.why in {ReplicationStalled, ApplyFailures, LogCopyStalled}))
  }

  function Ready(p: Pass, previous: Option<Condition>): Condition {
    var repl := Replicates(p.instances, p.obs, p.now);
    var hold := Decided(previous) && MissingIsRecent(p);
    if !Resolved(p) then Condition(No, Unresolved(p.res.reason))
    else if repl.status == No then repl
    else if SomeUnobserved(p) then if hold then previous.value else Condition(Unsure, ReplicasNotObserved)
    else if |p.instances| <= 1 || repl.status == Yes then Condition(Yes, HealthyReplication)
    else if hold then previous.value
    else repl
  }

  method HAReadyCondition(p: Pass, previous: Option<Condition>) returns (c: Condition)
    ensures c == Ready(p, previous)
  {
    if p.res.reason != SinglePrimary {
      return Condition(No, Unresolved(p.res.reason));
    }
    var unobserved, recent, k := false, true, 0;
    while k < |p.instances|
      invariant 0 <= k <= |p.instances|
      invariant unobserved <==> exists i :: 0 <= i < k && Unobserved(p, p.instances[i])
      invariant recent <==> forall i :: 0 <= i < k && Unobserved(p, p.instances[i]) ==> Recent(p.instances[i].lastObserved, p.now)
    {
      var i := p.instances[k];
      if i.name != p.res.primary && i.role != Slave {
        unobserved := true;
        if i.lastObserved.None? || p.now - i.lastObserved.value >= StallWindow {
          recent := false;
        }
      }
      k := k + 1;
    }
    var read := UnreadRecently(p);
    var hold := Decided(previous) && recent && read;
    var repl := ReplicationCondition(p.instances, p.obs, p.now);
    if repl.status == No {
      c := repl;
    } else if unobserved && hold {
      c := previous.value;
    } else if unobserved {
      c := Condition(Unsure, ReplicasNotObserved);
    } else if |p.instances| <= 1 || repl.status == Yes {
      c := Condition(Yes, HealthyReplication);
    } else if hold {
      c := previous.value;
    } else {
      c := repl;
    }
  }

  method UnreadRecently(p: Pass) returns (r: bool)
    ensures r <==> forall i :: 0 <= i < |p.instances| && p.instances[i].role == Slave && !WasRead(p.obs, p.instances[i].name) ==>
      p.instances[i].replication.Some? && Recent(p.instances[i].replication.value.observedAt, p.now)
  {
    var k := 0;
    while k < |p.instances|
      invariant 0 <= k <= |p.instances|
      invariant forall i :: 0 <= i < k && p.instances[i].role == Slave && !WasRead(p.obs, p.instances[i].name) ==>
        p.instances[i].replication.Some? && Recent(p.instances[i].replication.value.observedAt, p.now)
    {
      var i := p.instances[k];
      if i.role == Slave && !WasRead(p.obs, i.name) {
        if i.replication.None? || !Recent(i.replication.value.observedAt, p.now) {
          return false;
        }
      }
      k := k + 1;
    }
    return true;
  }

  // ---- Runs of passes

  /** A reconcile whose status is written: one that observes the roles, or one that ends before. */
  datatype Turn = Observed(pass: Pass) | Ended

  /** The condition after the first n turns; none before the first. */
  function After(turns: seq<Turn>, n: nat): Option<Condition>
    requires n <= |turns|
  {
    if n == 0 then None
    else if turns[n - 1].Ended? then Some(Condition(Unsure, RolesNotObserved))
    else Some(Ready(turns[n - 1].pass, After(turns, n - 1)))
  }

  /** Nothing that was read in this pass speaks against the replication. */
  predicate NoneAgainst(p: Pass) {
    forall i :: 0 <= i < |p.instances| && Judged(p.instances[i], p.obs) ==> Healthy(p.instances[i], p.obs, p.now)
  }

  /** There is a slave, and every slave was read in this pass and applies and receives the log. */
  predicate AllHealthy(p: Pass) {
    && (exists i :: 0 <= i < |p.instances| && p.instances[i].role == Slave)
    && (forall i :: 0 <= i < |p.instances| && p.instances[i].role == Slave ==> Healthy(p.instances[i], p.obs, p.now))
  }

  /** The primary is resolved, every other member is observed as a slave, and all of them are healthy in this pass; a
      cluster of one member needs no slave. */
  predicate FullEvidence(p: Pass) {
    && Resolved(p) && !SomeUnobserved(p) && NoneAgainst(p)
    && (|p.instances| > 1 ==> AllHealthy(p))
  }

  /** What a status is held through: nothing that was read speaks against it, and all that is missing is recent. */
  predicate Holds(p: Pass) {
    Resolved(p) && MissingIsRecent(p) && NoneAgainst(p)
  }

  /** HAReady is True exactly with full evidence, or held from the True before; it is False exactly without a primary,
      with a reading against it, or held from the False before. */
  lemma ReadyIff(p: Pass, previous: Option<Condition>)
    ensures Ready(p, previous).status == Yes <==>
              FullEvidence(p) || (previous == Some(Condition(Yes, HealthyReplication)) && Holds(p))
    ensures Ready(p, previous).status == Yes ==> Ready(p, previous) == Condition(Yes, HealthyReplication)
    ensures Ready(p, previous).status == No <==>
              || !Resolved(p) || !NoneAgainst(p)
              || (!FullEvidence(p) && Holds(p) && Decided(previous) && previous.value.status == No)
    ensures !Resolved(p) ==> Ready(p, previous) == Condition(No, Unresolved(p.res.reason))
    ensures Resolved(p) && !NoneAgainst(p) ==> Ready(p, previous) == Replicates(p.instances, p.obs, p.now)
    ensures Ready(p, previous).status == No && NoneAgainst(p) && Resolved(p) ==> Some(Ready(p, previous)) == previous
  {
    ReplicatesIff(p.instances, p.obs, p.now);
    hide Replicates, Healthy, Judged, MissingIsRecent, SomeUnobserved;
  }

  /** HAReady is True only since a pass with full direct evidence; every reconcile since observed the roles, and the
      status was held through it only while each missing reading was younger than 60 seconds. */
  lemma {:induction false} TrueRestsOnEvidence(turns: seq<Turn>, n: nat) returns (m: nat)
    requires n <= |turns| && After(turns, n).Some? && After(turns, n).value.status == Yes
    ensures m < n && turns[m].Observed? && FullEvidence(turns[m].pass)
    ensures forall i: nat :: m < i < n ==> turns[i].Observed? && Holds(turns[i].pass)
  {
    ReadyIff(turns[n - 1].pass, After(turns, n - 1));
    if FullEvidence(turns[n - 1].pass) {
      m := n - 1;
    } else {
      m := TrueRestsOnEvidence(turns, n - 1);
    }
  }

  /** And so it is: every such run of passes makes it True. */
  lemma {:induction false} EvidenceMakesTrue(turns: seq<Turn>, m: nat, n: nat)
    requires m < n <= |turns| && turns[m].Observed? && FullEvidence(turns[m].pass)
    requires forall i: nat :: m < i < n ==> turns[i].Observed? && Holds(turns[i].pass)
    ensures After(turns, n) == Some(Condition(Yes, HealthyReplication))
  {
    ReadyIff(turns[n - 1].pass, After(turns, n - 1));
    if m < n - 1 {
      EvidenceMakesTrue(turns, m, n - 1);
    }
  }
}
