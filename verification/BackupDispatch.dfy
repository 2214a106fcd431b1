/** The dispatch of one CubridBackup: reconciles that read a stored status, which may
    be stale, ask members, and write the status back with an optimistic lock.

    `Reconciler` is one reconcile, with every answer of the outside left open. What it
    may write is Evolves and when it may send the start is Sendable; the runs at the
    end interleave any number of reconciles that keep to those two. */
module BackupDispatch {
  import opened Operations

  datatype Phase = New | Waiting | Working | Sending | Done | Ended

  predicate Terminal(p: Phase) {
    p.Done? || p.Ended?
  }

  /** The recorded target, the cluster it was recorded for and when, the operation, since when the
      target has answered that it holds no record of it, and the artifact of a completed one. */
  datatype Status = Status(
    phase: Phase, cluster: string, target: string, recordedAt: Option<int>, operation: string, missingSince: Option<int>,
    artifact: Option<string>)

  const Unstarted := Status(New, "", "", None, "", None, None)

  const TargetWait := 1800
  const MissingWait := 1800

  /** A member's operation that it answered to be Completed, with its artifact. */
  datatype Seen = Seen(target: string, operation: string, artifact: Option<string>)

  /** What one reconcile may make of the status it read: `seen` is what it was answered to polls, and `answered`
      the operation that its start was answered with. */
  predicate Evolves(s: Status, t: Status, seen: set<Seen>, answered: Option<string>) {
    && !Terminal(s.phase)
    && (s.target != "" ==> t.target == s.target && t.cluster == s.cluster && (s.recordedAt.Some? ==> t.recordedAt == s.recordedAt))
    && (s.operation != "" ==> t.operation == s.operation)
    && (t.operation != "" && s.operation == "" ==> s.target != "")
    && (t.target != "" ==> s.target != "" || t.recordedAt.Some?)
    && (t.phase == Done ==> t.operation != "" && Seen(t.target, t.operation, t.artifact) in seen)
    && (t.phase != Done ==> t.artifact == s.artifact)
    && (answered.Some? ==> t.operation == answered.value)
  }

  /** A start may be sent on the strength of the stored status b, by a reconcile whose clock said now. */
  predicate Sendable(b: Status, now: int) {
    && !Terminal(b.phase) && b.target != "" && b.operation == ""
    && (b.recordedAt.Some? ==> now - b.recordedAt.value <= TargetWait)
  }

  datatype Answer = Started(id: string) | Conflict | Refused | Errored
  datatype Held = Holds(id: string) | HoldsNone | Unasked
  datatype Polled = IsCompleted(artifact: Option<string>) | IsFailed | IsUploading | IsRunning | IsMissing | Unread

  datatype Cluster = Unknown | Missing(waited: bool) | Found(uid: string)

  /** What a reconcile finds and would be answered; it asks each at most once. A selection is of a member, which may not
      run with the object-storage settings, and then for too long already. */
  datatype Env = Env(
    valid: bool, cluster: Cluster, refused: bool, storage: bool, eligible: bool,
    selected: string, applied: Option<bool>, overdue: bool, answer: Answer, held: Held, polled: Polled)

  /** A member answers no operation without an identity. */
  predicate Identified(e: Env) {
    (e.answer.Started? ==> e.answer.id != "") && (e.held.Holds? ==> e.held.id != "")
  }

  /** What a poll makes of the status: the phase the operation is in, and the bound on a missing record. */
  predicate Follows(s: Status, t: Status, p: Polled, now: int) {
    match p
    case Unread => t == s
    case IsCompleted(a) => t == s.(missingSince := None, phase := Done, artifact := if a.Some? then a else s.artifact)
    case IsFailed => t == s.(missingSince := None, phase := Ended)
    case IsUploading => t == s.(missingSince := None, phase := Sending)
    case IsRunning => t == s.(missingSince := None, phase := Working)
    case IsMissing =>
      var since := if s.missingSince.Some? then s.missingSince.value else now;
      t == s.(missingSince := Some(since), phase := if now - since > MissingWait then Ended else s.phase)
  }

  function Begun(s: Status): Status {
    if s.phase == New then s.(phase := Waiting) else s
  }

  function Over(s: Status): Status {
    s.(phase := Ended)
  }

  /** An operation that the target holds is on record and followed. */
  predicate Adopted(s: Status, t: Status, e: Env, now: int) {
    e.held.Holds? && Follows(s.(phase := Working, operation := e.held.id), t, e.polled, now)
  }

  /** A recorded target that is not sent the start: what it holds is followed; without that the backup ends when the
      bound had passed at `judged`, and waits otherwise. */
  predicate Waits(s: Status, t: Status, e: Env, judged: int, now: int)
    requires s.recordedAt.Some?
  {
    if e.held.Holds? then Adopted(s, t, e, now)
    else t == if judged - s.recordedAt.value > TargetWait then Over(s) else s
  }

  /** The target of s was sent the start. */
  predicate Answered(s: Status, t: Status, e: Env, judged: int, now: int)
    requires s.recordedAt.Some?
  {
    match e.answer
    case Started(id) => t == s.(phase := Working, operation := id)
    case Conflict => Waits(s, t, e, judged, now)
    case Errored => t == s
    case Refused =>
      match e.held
      case Holds(_) => Adopted(s, t, e, now)
      case HoldsNone => t == Over(s)
      case Unasked => t == s
  }

  /** The same with a time for a target that has none on record yet. */
  function Timed(s: Status, at: Option<int>): Status {
    if s.recordedAt.Some? then s else s.(recordedAt := at)
  }

  class Reconciler {
    const env: Env
    var status: Status               // the copy the reconcile works on
    ghost var base: Status           // the stored status it stands for
    ghost var seen: set<Seen>
    ghost var answered: Option<string>
    var clock: int
    ghost var sent: seq<string>
    ghost var looked: bool
    ghost var polled: bool
    ghost var judged: int            // when the bound on the target was judged last
    ghost var lost: nat              // writes that did not succeed

    constructor (stored: Status, clock: int, env: Env)
      ensures status == base == stored && this.clock == clock && this.env == env
      ensures seen == {} && answered.None? && sent == [] && !looked && !polled && lost == 0
    {
      status, base, seen, sent, this.clock, this.env := stored, stored, {}, [], clock, env;
      answered, looked, polled, judged, lost := None, false, false, clock, 0;
    }

    method Now() returns (now: int)
      modifies this`clock
      ensures now == clock >= old(clock)
    {
      now := *;
      now := if now < clock then clock else now;
      clock := now;
    }

    /** The status write: it is refused when the stored status has moved on, and it may
        fail having taken effect; then the reconcile ends and does not know. */
    method Write() returns (ok: bool)
      requires Evolves(base, status, seen, answered)
      modifies this`base, this`lost
      ensures base == if ok then status else old(base)
      ensures lost == if ok then old(lost) else old(lost) + 1
    {
      ok := *;
      if ok {
        base := status;
      } else {
        lost := lost + 1;
      }
    }

    method Start(target: string) returns (a: Answer)
      requires Sendable(base, clock) && target == base.target && sent == []
      modifies this`sent, this`answered
      ensures sent == [target] && a == env.answer
      ensures answered == if a.Started? then Some(a.id) else old(answered)
    {
      sent := [target];
      a := env.answer;
      if a.Started? {
        answered := Some(a.id);
      }
    }

    method Find(target: string) returns (h: Held)
      requires !looked && target == base.target
      modifies this`looked
      ensures looked && h == env.held
    {
      looked := true;
      h := env.held;
    }

    method Ask(target: string, operation: string) returns (p: Polled)
      requires !polled && target == base.target
      modifies this`seen, this`polled
      ensures polled && p == env.polled
      ensures seen == if p.IsCompleted? then old(seen) + {Seen(target, operation, p.artifact)} else old(seen)
    {
      polled := true;
      p := env.polled;
      if p.IsCompleted? {
        seen := seen + {Seen(target, operation, p.artifact)};
      }
    }

    /** The copy stands for the stored status, changed only as it may be. */
    ghost predicate Ready()
      reads this
    {
      Evolves(base, status, seen, answered) && !Terminal(status.phase) && status.artifact.None? && Identified(env)
    }

    /** Nothing was asked yet. */
    ghost predicate Unused()
      reads this
    {
      answered.None? && sent == [] && !looked && !polled && lost == 0
    }

    /** What is stored is the copy when no write was lost. */
    twostate predicate Wrote()
      reads this
    {
      lost >= old(lost) && (base == status || base == old(base)) && (lost == old(lost) ==> base == status)
    }

    /** The steps that come before a member is asked anything. */
    static predicate Stops(s: Status, e: Env) {
      || Terminal(s.phase) || !e.valid || !e.cluster.Found? || (s.cluster != "" && s.cluster != e.cluster.uid)
      || (s.operation == "" && s.target == "" && e.refused)
    }

    method Reconcile()
      requires status == base && Unused() && (base.operation != "" ==> base.target != "") && Identified(env)
      requires base.artifact.Some? ==> Terminal(base.phase)
      modifies this
      ensures lost == 0 ==> base == status
      ensures Terminal(old(status).phase) ==> status == old(status) && base == old(base)
      ensures Stops(old(status), env) || old(status).operation != "" ==> sent == []
      ensures |sent| <= 1
      // An invalid backup, one whose cluster is gone or another, and one that could not be restored end.
      ensures Stops(old(status), env) && !Terminal(old(status).phase) ==>
        status == if !env.valid then Over(old(status))
                  else match env.cluster
                       case Unknown => old(status)
                       case Missing(waited) => if old(status).cluster != "" || waited then Over(old(status)) else Begun(old(status))
                       case Found(_) => Over(old(status))
      // A recorded operation is polled, and the status follows the answer.
      ensures !Stops(old(status), env) && old(status).operation != "" ==> Follows(old(status), status, env.polled, clock)
      // Without object storage nothing is sent.
      ensures !Stops(old(status), env) && old(status).operation == "" && !env.storage ==>
        && sent == [] && (old(status).target == "" ==> status == Begun(old(status)))
        && (old(status).target != "" ==> Waited(old(status)))
      ensures !Stops(old(status), env) && old(status).operation == "" && env.storage ==> WasStarted(old(status))
    {
      if Terminal(status.phase) {
        return;
      }
      if !env.valid {
        End();
        return;
      }
      match env.cluster {
        case Unknown => return;                            // the read of the cluster failed
        case Missing(waited) =>
          ClusterMissing(waited);
          return;
        case Found(uid) =>
          if status.cluster != "" && status.cluster != uid {
            End();
            return;
          }
      }
      if status.operation == "" && status.target == "" && env.refused {
        End();
        return;
      }
      if status.operation != "" {
        Poll();
        return;
      }
      if !env.storage {
        if status.target != "" {
          HoldRecordedTarget();
        } else {
          Hold();
        }
        return;
      }
      StartBackup(env.cluster.uid);
    }

    /** The status s, with a target, came to what Waits says. */
    twostate predicate Waited(s: Status)
      reads this
    {
      && status.recordedAt.Some? && (s.recordedAt.None? ==> old(clock) <= status.recordedAt.value <= clock)
      && old(clock) <= judged <= clock && Waits(Timed(s, status.recordedAt), status, env, judged, clock)
    }

    /** The status s is without an operation, and the start was sent to its target, or to one that was recorded first. */
    twostate predicate WasStarted(s: Status)
      reads this
    {
      if s.target != "" then
        && status.recordedAt.Some? && (s.recordedAt.None? ==> old(clock) <= status.recordedAt.value <= clock)
        && old(clock) <= judged <= clock
        && var timed := Timed(s, status.recordedAt);
           if sent == [s.target] then env.eligible && Answered(timed, status, env, judged, clock)
           else sent == [] && (!env.eligible || judged - timed.recordedAt.value > TargetWait) && Waits(timed, status, env, judged, clock)
      else if env.selected == "" then sent == [] && status == s
      else match env.applied
        case None => sent == [] && status == s && base == old(base)
        case Some(false) => sent == [] && status == if env.overdue then Over(s) else Begun(s)
        case Some(true) =>
          && env.cluster.Found? && status.recordedAt.Some? && old(clock) <= status.recordedAt.value <= clock
          && var recorded := Begun(s).(target := env.selected, cluster := env.cluster.uid, recordedAt := status.recordedAt);
             // The target is on record before the start is sent to it.
             if sent == [] then status == recorded && base == old(base) && lost > old(lost)
             else sent == [env.selected] && Answered(recorded, status, env, judged, clock)
    }

    method ClusterMissing(waited: bool)
      requires Ready()
      modifies this`status, this`base, this`lost
      ensures Wrote() && status == if old(status).cluster != "" || waited then Over(old(status)) else Begun(old(status))
    {
      if status.cluster != "" || waited {
        End();
      } else {
        Hold();
      }
    }

    /** A wait that is not terminal. */
    method Hold()
      requires Ready()
      modifies this`status, this`base, this`lost
      ensures Wrote() && status == Begun(old(status))
    {
      if status.phase == New {
        status := status.(phase := Waiting);
      }
      var _ := Write();
    }

    /** ended, rejected and failedBackup. */
    method End()
      requires Ready()
      modifies this`status, this`base, this`lost
      ensures Wrote() && status == Over(old(status))
    {
      status := status.(phase := Ended);
      var _ := Write();
    }

    method StartBackup(clusterUid: string)
      requires Ready() && status.operation == "" && status == base && Unused() && env.cluster == Found(clusterUid)
      modifies this
      ensures (lost == 0 ==> base == status) && |sent| <= 1
      ensures WasStarted(old(status))
    {
      hide Waits, Answered;
      if status.target != "" {
        StartRecorded();
      } else {
        StartSelected(clusterUid);
      }
    }

    /** On the target on record. */
    method StartRecorded()
      requires Ready() && status.operation == "" && status == base && Unused() && status.target != ""
      modifies this
      ensures (lost == 0 ==> base == status) && |sent| <= 1
      ensures WasStarted(old(status))
    {
      var expired := WaitExpired();
      if expired {
        EndRecordedTargetWait();
        return;
      }
      if !env.eligible {
        HoldRecordedTarget();
        return;
      }
      Dispatch();
    }

    /** On a member that is selected and recorded first. */
    method StartSelected(clusterUid: string)
      requires Ready() && status.operation == "" && status == base && Unused() && status.target == "" && env.cluster == Found(clusterUid)
      modifies this
      ensures (lost == 0 ==> base == status) && |sent| <= 1
      ensures WasStarted(old(status))
    {
      hide Waits, Answered;
      if env.selected == "" {
        var _ := Write();
        return;
      }
      match env.applied {
        case None => return;
        case Some(false) =>
          if env.overdue {
            End();
          } else {
            Hold();
          }
          return;
        case Some(true) =>
      }
      var now := Now();
      status := status.(phase := if status.phase == New then Waiting else status.phase,
                        target := env.selected, cluster := clusterUid, recordedAt := Some(now));
      var ok := Write();
      if ok {
        Dispatch();
      }
    }

    /** The start is sent to the target on record. */
    method Dispatch()
      requires Ready() && status.operation == "" && Unused() && status.recordedAt.Some? && Sendable(base, clock) && status.target == base.target
      modifies this
      ensures Wrote() && sent == [old(status).target] && clock >= old(clock)
      ensures Answered(old(status), status, env, judged, clock) && status.recordedAt == old(status).recordedAt
      ensures judged == old(judged) || old(clock) <= judged <= clock
    {
      var answer := Start(status.target);
      match answer {
        case Conflict => HoldRecordedTarget();
        case Refused =>
          var held := Find(status.target);
          match held {
            case Holds(id) => Adopt(id);
            case HoldsNone => End();
            case Unasked => var _ := Write();
          }
        case Errored => var _ := Write();
        case Started(id) =>
          status := status.(phase := Working, operation := id);
          var _ := Write();
      }
    }

    /** recordedTargetWaitExpired: a target without a time is given the present one. */
    method WaitExpired() returns (expired: bool)
      requires Ready() && status.target != ""
      modifies this`status, this`clock, this`judged
      ensures Ready() && status.recordedAt.Some? && status == Timed(old(status), status.recordedAt)
      ensures old(status).recordedAt.None? ==> old(clock) <= status.recordedAt.value <= clock
      ensures judged == clock >= old(clock) && (expired <==> judged - status.recordedAt.value > TargetWait)
    {
      if status.recordedAt.None? {
        var at := Now();
        status := status.(recordedAt := Some(at));
      }
      var now := Now();
      judged := now;
      expired := now - status.recordedAt.value > TargetWait;
    }

    /** An operation that the target holds is followed; without one the backup waits within the bound, and ends after it. */
    method HoldRecordedTarget()
      requires Ready() && status.operation == "" && status.target != "" && base.target != "" && !looked && !polled && answered.None?
      modifies this`status, this`base, this`clock, this`seen, this`lost, this`looked, this`polled, this`judged
      ensures Wrote() && Waited(old(status))
    {
      var expired := WaitExpired();
      if expired {
        EndRecordedTargetWait();
        return;
      }
      var held := Find(status.target);
      match held {
        case Holds(id) => Adopt(id);
        case _ => var _ := Write();
      }
    }

    method EndRecordedTargetWait()
      requires Ready() && status.operation == "" && base.target != "" && status.target == base.target && !looked && !polled && answered.None?
      modifies this`status, this`base, this`clock, this`seen, this`lost, this`looked, this`polled
      ensures Wrote() && clock >= old(clock)
      ensures if env.held.Holds? then Adopted(old(status), status, env, clock) else status == Over(old(status))
    {
      var held := Find(status.target);
      match held {
        case Holds(id) => Adopt(id);
        case _ => End();
      }
    }

    method Adopt(id: string)
      requires Ready() && status.operation == "" && base.target != "" && id != "" && !polled && answered.None?
      modifies this`status, this`base, this`clock, this`seen, this`lost, this`polled
      ensures Wrote() && clock >= old(clock)
      ensures Follows(old(status).(phase := Working, operation := id), status, env.polled, clock)
    {
      status := status.(phase := Working, operation := id);
      Poll();
    }

    method Poll()
      requires Ready() && status.operation != "" && base.target != "" && !polled
      modifies this`status, this`base, this`clock, this`seen, this`lost, this`polled
      ensures Wrote() && clock >= old(clock) && Follows(old(status), status, env.polled, clock)
    {
      var p := Ask(status.target, status.operation);
      match p {
        case Unread => var _ := Write();
        case IsMissing => OperationMissing();
        case IsCompleted(artifact) =>
          status := status.(missingSince := None, phase := Done);
          if artifact.Some? {
            status := status.(artifact := artifact);
          }
          var _ := Write();
        case IsFailed =>
          status := status.(missingSince := None);
          End();
        case IsUploading =>
          status := status.(missingSince := None, phase := Sending);
          var _ := Write();
        case IsRunning =>
          status := status.(missingSince := None, phase := Working);
          var _ := Write();
      }
    }

    method OperationMissing()
      requires Ready()
      modifies this`status, this`base, this`clock, this`lost
      ensures Wrote() && clock >= old(clock) && Follows(old(status), status, IsMissing, clock)
    {
      var now := Now();
      if status.missingSince.None? {
        status := status.(missingSince := Some(now));
      }
      if now - status.missingSince.value > MissingWait {
        End();
      } else {
        var _ := Write();
      }
    }
  }

  // ---- All reconciles of one backup

  /** A reconcile in progress: the version it read or wrote last, and what it was answered. */
  datatype Pass = Pass(version: nat, seen: set<Seen>, answered: Option<string>)

  datatype Send = Send(target: string, key: string, version: nat, at: int)

  datatype BackupName = BackupName(namespace: string, name: string, uid: string)

  function IdempotencyKey(backup: BackupName): string {
    "cubridbackup:" + (backup.namespace + (":" + (backup.name + (":" + backup.uid))))
  }

  datatype World = World(backup: BackupName, versions: seq<Status>, passes: map<nat, Pass>, sends: seq<Send>, seen: set<Seen>)

  datatype Act =
    | Begin(p: nat, version: nat)                                  // reads any stored version, old or new
    | See(p: nat, operation: string, artifact: Option<string>)     // a poll that answers Completed
    | Store(p: nat, status: Status, told: bool)                    // a write that takes effect
    | Dispatch(p: nat, at: int, answer: Option<string>)            // the start is sent, and answered with an operation or not
    | Stop(p: nat)

  predicate Runs(w: World, p: nat) {
    p in w.passes && w.passes[p].version < |w.versions|
  }

  function Base(w: World, p: nat): Status
    requires Runs(w, p)
  {
    w.versions[w.passes[p].version]
  }

  predicate Can(w: World, act: Act) {
    match act
    case Begin(p, version) => p !in w.passes && version < |w.versions|
    case See(p, _, _) => Runs(w, p)
    case Store(p, status, _) =>
      Runs(w, p) && w.passes[p].version == |w.versions| - 1 && Evolves(Base(w, p), status, w.passes[p].seen, w.passes[p].answered)
    case Dispatch(p, at, _) => Runs(w, p) && Sendable(Base(w, p), at)
    case Stop(p) => p in w.passes
  }

  function Next(w: World, act: Act): World
    requires Can(w, act)
  {
    match act
    case Begin(p, version) => w.(passes := w.passes[p := Pass(version, {}, None)])
    case See(p, operation, artifact) =>
      // A poll asks the recorded target.
      var s := Seen(Base(w, p).target, operation, artifact);
      w.(passes := w.passes[p := w.passes[p].(seen := w.passes[p].seen + {s})], seen := w.seen + {s})
    case Store(p, status, told) =>
      w.(versions := w.versions + [status],
         passes := if told then w.passes[p := w.passes[p].(version := |w.versions|)] else w.passes - {p})
    case Dispatch(p, at, answer) =>
      w.(sends := w.sends + [Send(Base(w, p).target, IdempotencyKey(w.backup), w.passes[p].version, at)],
         passes := if answer.Some? then w.passes[p := w.passes[p].(answered := answer)] else w.passes)
    case Stop(p) => w.(passes := w.passes - {p})
  }

  predicate VersionInv(w: World, i: nat)
    requires i < |w.versions|
  {
    && (w.versions[i].target != "" ==> w.versions[i].recordedAt.Some?)
    && (w.versions[i].operation != "" ==> w.versions[i].target != "")
    && (w.versions[i].phase == Done ==> w.versions[i].operation != "" && Seen(w.versions[i].target, w.versions[i].operation, w.versions[i].artifact) in w.seen)
    && (w.versions[i].artifact.Some? ==> w.versions[i].phase == Done)
    && (Terminal(w.versions[i].phase) ==> i == |w.versions| - 1)
  }

  /** What a later version keeps of an earlier one. */
  predicate Keeps(s: Status, t: Status) {
    && (s.target != "" ==> t.target == s.target && t.cluster == s.cluster && t.recordedAt == s.recordedAt)
    && (s.operation != "" ==> t.operation == s.operation)
  }

  predicate SendInv(w: World, s: Send) {
    s.version < |w.versions| && Sendable(w.versions[s.version], s.at) && s.target == w.versions[s.version].target && s.key == IdempotencyKey(w.backup)
  }

  ghost predicate Inv(w: World) {
    && |w.versions| > 0
    && (forall i: nat {:trigger w.versions[i]} :: i < |w.versions| ==> VersionInv(w, i))
    && (forall i: nat, j: nat {:trigger w.versions[i], w.versions[j]} :: i <= j < |w.versions| ==> Keeps(w.versions[i], w.versions[j]))
    && (forall p :: p in w.passes ==> w.passes[p].version < |w.versions| && w.passes[p].seen <= w.seen)
    && (forall k :: 0 <= k < |w.sends| ==> SendInv(w, w.sends[k]))
  }

  lemma StoreKept(w: World, act: Act)
    requires Inv(w) && act.Store? && Can(w, act)
    ensures Inv(Next(w, act))
  {
    var t := Next(w, act);
    var last := |w.versions| - 1;
    assert VersionInv(w, last);
    forall i: nat | i < |t.versions| ensures VersionInv(t, i) {
      assert i <= last ==> VersionInv(w, i);
    }
    forall i: nat, j: nat | i <= j < |t.versions| ensures Keeps(t.versions[i], t.versions[j]) {
      if j <= last {
        assert Keeps(w.versions[i], w.versions[j]);
      } else if i <= last {
        assert Keeps(w.versions[i], w.versions[last]);
      }
    }
    forall k | 0 <= k < |t.sends| ensures SendInv(t, t.sends[k]) {
      assert SendInv(w, w.sends[k]);
    }
  }

  lemma StepKept(w: World, act: Act)
    requires Inv(w) && Can(w, act)
    ensures Inv(Next(w, act))
  {
    if act.Store? {
      StoreKept(w, act);
    } else {
      var t := Next(w, act);
      forall i: nat | i < |t.versions| ensures VersionInv(t, i) {
        assert VersionInv(w, i);
      }
      forall k | 0 <= k < |t.sends| ensures SendInv(t, t.sends[k]) {
        assert k < |w.sends| ==> SendInv(w, w.sends[k]);
      }
    }
  }

  ghost predicate Takes(w: World, v: World) {
    exists act :: Can(w, act) && v == Next(w, act)
  }

  ghost predicate StepAt(run: seq<World>, i: int) {
    0 < i < |run| ==> Takes(run[i - 1], run[i])
  }

  ghost predicate IsRun(run: seq<World>) {
    && |run| > 0 && run[0] == World(run[0].backup, [Unstarted], map[], [], {})
    && forall i {:trigger StepAt(run, i)} :: StepAt(run, i)
  }

  lemma {:induction false} RunInv(run: seq<World>, n: nat)
    requires IsRun(run) && n < |run|
    ensures Inv(run[n])
  {
    if n == 0 {
      assert VersionInv(run[0], 0) && Keeps(Unstarted, Unstarted);
    } else {
      RunInv(run, n - 1);
      assert StepAt(run, n);
      var act :| Can(run[n - 1], act) && run[n] == Next(run[n - 1], act);
      StepKept(run[n - 1], act);
    }
  }

  lemma NotShorter(a: string, x: string, b: string, y: string)
    requires ':' !in b && a + (":" + x) == b + (":" + y)
    ensures |a| >= |b|
  {
    var k := if |a| < |b| then |a| else 0;
    assert b != "" ==> (b + (":" + y))[k] == b[k];
  }

  lemma ColonSplits(a: string, x: string, b: string, y: string)
    requires ':' !in a && ':' !in b && a + (":" + x) == b + (":" + y)
    ensures a == b && x == y
  {
    assert (a + (":" + x))[|a|] == ':' && (b + (":" + y))[|b|] == ':';
    NotShorter(a, x, b, y);
    NotShorter(b, y, a, x);
    assert a == (a + (":" + x))[..|a|] && b == (b + (":" + y))[..|b|];
    assert x == (a + (":" + x))[|a| + 1..] && y == (b + (":" + y))[|b| + 1..];
  }

  /** The names of Kubernetes objects hold no colon. */
  predicate NamedInKubernetes(b: BackupName) {
    ':' !in b.namespace && ':' !in b.name
  }

  lemma KeyNamesBackup(a: BackupName, b: BackupName)
    requires NamedInKubernetes(a) && NamedInKubernetes(b) && IdempotencyKey(a) == IdempotencyKey(b)
    ensures a == b
  {
    var x := a.namespace + (":" + (a.name + (":" + a.uid)));
    var y := b.namespace + (":" + (b.name + (":" + b.uid)));
    assert x == IdempotencyKey(a)[13..] && y == IdempotencyKey(b)[13..];
    ColonSplits(a.namespace, a.name + (":" + a.uid), b.namespace, b.name + (":" + b.uid));
    ColonSplits(a.name, a.uid, b.name, b.uid);
  }

  lemma {:induction false} BackupStays(run: seq<World>, n: nat)
    requires IsRun(run) && n < |run|
    ensures run[n].backup == run[0].backup
  {
    if n > 0 {
      BackupStays(run, n - 1);
      assert StepAt(run, n);
    }
  }

  /** A start that any reconcile of one backup sends never carries the key of another backup. */
  lemma KeysApart(run: seq<World>, n: nat, j: nat, other: seq<World>, m: nat, k: nat)
    requires IsRun(run) && n < |run| && j < |run[n].sends| && NamedInKubernetes(run[0].backup)
    requires IsRun(other) && m < |other| && k < |other[m].sends| && NamedInKubernetes(other[0].backup)
    ensures run[n].sends[j].key == other[m].sends[k].key <==> run[0].backup == other[0].backup
  {
    RunInv(run, n);
    RunInv(other, m);
    BackupStays(run, n);
    BackupStays(other, m);
    assert SendInv(run[n], run[n].sends[j]) && SendInv(other[m], other[m].sends[k]);
    if run[n].sends[j].key == other[m].sends[k].key {
      KeyNamesBackup(run[0].backup, other[0].backup);
    }
  }

  /** The start was sent on a version whose target was recorded at t, at most TargetWait later. */
  predicate RecordedAt(w: World, s: Send, t: int) {
    s.version < |w.versions| && w.versions[s.version].recordedAt == Some(t) && s.at - t <= TargetWait
  }

  /** All starts of one backup go to one member under one key, each within 30 minutes of the
      one time the target was recorded, by the clock of the reconcile that sent it. */
  lemma OneTargetOneKey(run: seq<World>, n: nat, j: nat, k: nat)
    requires IsRun(run) && n < |run| && j < |run[n].sends| && k < |run[n].sends|
    ensures run[n].sends[j].target == run[n].sends[k].target && run[n].sends[j].key == run[n].sends[k].key
    ensures exists t: int :: RecordedAt(run[n], run[n].sends[j], t) && RecordedAt(run[n], run[n].sends[k], t)
  {
    RunInv(run, n);
    var w := run[n];
    var a, b := w.sends[j], w.sends[k];
    assert SendInv(w, a) && SendInv(w, b);
    assert VersionInv(w, a.version) && VersionInv(w, b.version);
    if a.version <= b.version {
      assert Keeps(w.versions[a.version], w.versions[b.version]);
    } else {
      assert Keeps(w.versions[b.version], w.versions[a.version]);
    }
    var t := w.versions[a.version].recordedAt.value;
    assert RecordedAt(w, a, t) && RecordedAt(w, b, t);
  }

  /** A reconcile that read the version an operation is recorded in, or any later one, sends nothing. */
  lemma NoSendFromRecorded(run: seq<World>, n: nat, j: nat, p: nat, at: int, answer: Option<string>)
    requires IsRun(run) && n < |run| && j < |run[n].versions| && run[n].versions[j].operation != ""
    requires Runs(run[n], p) && run[n].passes[p].version >= j
    ensures !Can(run[n], Dispatch(p, at, answer))
  {
    RunInv(run, n);
    assert Keeps(run[n].versions[j], Base(run[n], p));
  }

  /** A reconcile whose start was answered with an operation stores that operation with whatever it writes next; from
      then on every version has it, and no reconcile that reads one of them sends the start. */
  lemma AnsweredIsRecorded(run: seq<World>, m: nat, n: nat, p: nat, status: Status, told: bool, j: nat)
    requires IsRun(run) && m < n < |run| && Can(run[m], Store(p, status, told)) && run[m + 1] == Next(run[m], Store(p, status, told))
    requires run[m].passes[p].answered.Some? && run[m].passes[p].answered.value != ""
    requires |run[m].versions| <= j < |run[n].versions|
    ensures run[n].versions[j].operation == run[m].passes[p].answered.value
    ensures forall q, at, answer :: Runs(run[n], q) && run[n].passes[q].version >= j ==> !Can(run[n], Dispatch(q, at, answer))
  {
    VersionsStay(run, m + 1, n);
    RunInv(run, n);
    var k := |run[m].versions|;
    assert run[n].versions[k] == run[m + 1].versions[k] == status;
    assert Keeps(run[n].versions[k], run[n].versions[j]);
    forall q, at, answer | Runs(run[n], q) && run[n].passes[q].version >= j ensures !Can(run[n], Dispatch(q, at, answer)) {
      NoSendFromRecorded(run, n, j, q, at, answer);
    }
  }

  lemma {:induction false} VersionsStay(run: seq<World>, m: nat, n: nat)
    requires IsRun(run) && m <= n < |run|
    ensures run[m].versions <= run[n].versions
  {
    if m < n {
      VersionsStay(run, m, n - 1);
      assert StepAt(run, n);
    }
  }

  /** Completed is reached only when the target answered that this operation is Completed. */
  lemma CompletedWasSeen(run: seq<World>, n: nat, j: nat)
    requires IsRun(run) && n < |run| && j < |run[n].versions| && run[n].versions[j].phase == Done
    ensures Seen(run[n].versions[j].target, run[n].versions[j].operation, run[n].versions[j].artifact) in run[n].seen
  {
    RunInv(run, n);
    assert VersionInv(run[n], j);
  }

  /** Nothing is stored after a terminal phase. */
  lemma {:induction false} TerminalIsLast(run: seq<World>, m: nat, n: nat, j: nat)
    requires IsRun(run) && m <= n < |run| && j < |run[m].versions| && Terminal(run[m].versions[j].phase)
    ensures run[n].versions == run[m].versions && j == |run[n].versions| - 1
  {
    RunInv(run, m);
    assert VersionInv(run[m], j);
    if m < n {
      TerminalIsLast(run, m, n - 1, j);
      assert StepAt(run, n);
    }
  }

  predicate Recorded(w: World) {
    |w.versions| > 0 && w.versions[|w.versions| - 1].operation != ""
  }

  const V1 := Status(Waiting, "uid", "db-0", Some(0), "", None, None)
  const V2 := Status(Working, "uid", "db-0", Some(0), "op", None, None)

  const B := BackupName("ns", "bk", "uid")

  const W0 := World(B, [Unstarted], map[], [], {})
  const W1 := W0.(passes := map[1 := Pass(0, {}, None)])
  const W2 := W0.(versions := [Unstarted, V1], passes := map[1 := Pass(1, {}, None)])
  const W3 := W2.(sends := [Send("db-0", IdempotencyKey(B), 1, 0)])
  const W4 := W3.(versions := [Unstarted, V1, V2], passes := map[1 := Pass(2, {}, None)])
  const W5 := W4.(passes := map[1 := Pass(2, {}, None), 2 := Pass(1, {}, None)])
  const W6 := W5.(sends := [Send("db-0", IdempotencyKey(B), 1, 0), Send("db-0", IdempotencyKey(B), 1, 1)])

  lemma FirstReconcile()
    ensures Takes(W0, W1) && Takes(W1, W2) && Takes(W2, W3) && Takes(W3, W4)
  {
    assert W1 == Next(W0, Begin(1, 0));
    assert W2 == Next(W1, Store(1, V1, true));
    assert W3 == Next(W2, Dispatch(1, 0, None));
    assert W4 == Next(W3, Store(1, V2, true));
  }

  lemma StaleReconcile()
    ensures Takes(W4, W5) && Takes(W5, W6)
  {
    assert W5 == Next(W4, Begin(2, 1));
    assert W6 == Next(W5, Dispatch(2, 1, None));
  }

  /** A stale read does send the start once more after the operation is recorded: to
      the same member, under the same key. */
  lemma StaleReadSendsAgain() returns (run: seq<World>)
    ensures IsRun(run) && |run| == 7
    ensures Recorded(run[5]) && |run[5].sends| == 1
    ensures |run[6].sends| == 2 && run[6].sends[0].target == run[6].sends[1].target
  {
    hide Takes;
    FirstReconcile();
    StaleReconcile();
    run := [W0, W1, W2, W3, W4, W5, W6];
  }
}
