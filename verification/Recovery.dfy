/** The restore of a recovery bootstrap: reconciles that read the stored status, which
    may be stale, start the restore once per attempt, poll it, and write the status
    once at the end, which may be lost. */
module Recovery {
  import opened Operations

  datatype Phase = Preparing | Running | SeedingPeers | Complete | GaveUp

  /** `restored` says that the restore on the target is on record as complete. */
  datatype Status = Status(phase: Phase, attempts: nat, operation: string, missingSince: Option<int>, restored: bool)

  const Unstarted := Status(Preparing, 0, "", None, false)

  const MaxAttempts := 3
  const MissingWait := 1800

  predicate Final(s: Status) {
    s.phase == Complete || s.phase == GaveUp
  }

  /** No reconcile that reads s starts the restore of this attempt any more. */
  predicate Spent(s: Status, attempt: nat) {
    Final(s) || s.attempts > attempt || (s.attempts == attempt && (s.operation != "" || s.restored))
  }

  predicate Evolves(s: Status, t: Status) {
    && (Final(s) ==> t == s)
    && s.attempts <= t.attempts < MaxAttempts
    && (s.restored ==> t.restored)
    && (t.attempts == s.attempts && !Final(t) && s.operation != "" ==> t.operation == s.operation)
  }

  /** What the restore does, as the target says: `IsRestoring` once restoredb runs or the database is started. */
  datatype Outcome = IsCompleted | IsFailed | IsDownloading | IsRestoring
  datatype Reply = Got(id: string, outcome: Outcome) | Missing | Refused | Unavailable

  /** What one reconcile finds: the manifest URI is accepted, a client is configured, the cluster is HA, the target waits
      for an engine update; how the seeding of the peers stands; and what the target answers to a start and to a poll. */
  datatype Env = Env(validUri: bool, configured: bool, ha: bool, hold: bool, seeding: Phase, start: Reply, poll: Reply)

  /** A start is not answered with a missing operation, a poll is not refused, and an answer names its operation. */
  predicate Sane(e: Env) {
    && e.seeding in {SeedingPeers, Complete, GaveUp}
    && !e.start.Missing? && (e.start.Got? ==> e.start.id != "") && !e.poll.Refused?
  }

  /** A restore of this attempt is to be asked for: by a start, or by a poll once it is on record. */
  predicate Asks(e: Env, s: Status) {
    s.phase != GaveUp && e.validUri && e.configured && !(e.ha && s.restored)
  }

  function FailedAttempt(s: Status): Status {
    if s.attempts + 1 < MaxAttempts then s.(attempts := s.attempts + 1, operation := "") else s.(phase := GaveUp)
  }

  function Progressed(s: Status, outcome: Outcome): Status {
    s.(phase := if outcome == IsRestoring then Running else Preparing)
  }

  function Lapsed(s: Status, now: int): Status {
    var since := if s.missingSince.Some? then s.missingSince.value else now;
    s.(missingSince := Some(since), phase := if now - since > MissingWait then GaveUp else s.phase)
  }

  /** What a poll makes of the status. */
  function Polled(e: Env, s: Status, now: int): Status {
    match e.poll
    case Missing => Lapsed(s, now)
    case Got(_, outcome) =>
      var t := s.(missingSince := None);
      (match outcome
       case IsCompleted => if e.ha then t.(restored := true, phase := e.seeding) else t.(phase := Complete)
       case IsFailed => FailedAttempt(t)
       case _ => Progressed(t, outcome))
    case _ => s
  }

  class Recoverer {
    const env: Env
    var status: Status
    ghost const base: Status
    ghost var sends: seq<nat>
    var clock: int

    constructor (stored: Status, clock: int, env: Env)
      ensures status == base == stored && sends == [] && this.env == env
    {
      this.status, this.base, sends, this.clock, this.env := stored, stored, [], clock, env;
    }

    method Start(attempt: nat) returns (r: Reply)
      requires !Spent(base, attempt) && attempt == base.attempts
      modifies this`sends
      ensures sends == old(sends) + [attempt] && r == env.start
    {
      sends := sends + [attempt];
      r := env.start;
    }

    /** restoreAttemptFailed */
    method AttemptFailed()
      requires !Final(base) && status.attempts == base.attempts < MaxAttempts && (base.restored ==> status.restored)
      modifies this`status
      ensures Evolves(base, status) && status == FailedAttempt(old(status))
    {
      if status.attempts + 1 < MaxAttempts {
        status := status.(attempts := status.attempts + 1, operation := "");
      } else {
        status := status.(phase := GaveUp);
      }
    }

    /** reconcileRecovery, of a cluster whose recovery is not complete. */
    method Reconcile()
      requires status == base && status.attempts < MaxAttempts && status.phase != Complete && sends == []
      requires Sane(env) && (status.restored ==> env.ha)
      modifies this
      ensures Evolves(base, status)
      ensures sends == if Asks(env, old(status)) && old(status).operation == "" && !env.hold then [old(status).attempts] else []
      ensures sends != [] && env.start.Got? ==>
        Spent(status, old(status).attempts) && status == Progressed(old(status).(operation := env.start.id), env.start.outcome)
      ensures sends != [] && env.start.Refused? ==> status == FailedAttempt(old(status))
      ensures Asks(env, old(status)) && old(status).operation != "" ==> status == Polled(env, old(status), clock)
      ensures Asks(env, old(status)) && old(status).operation == "" && (env.hold || env.start.Unavailable?) ==> status == old(status)
      ensures old(status).phase == GaveUp || (env.validUri && !env.configured) ==> status == old(status)
      ensures !env.validUri ==> status == old(status).(phase := GaveUp)
      ensures env.validUri && env.configured && env.ha && old(status).restored && old(status).phase != GaveUp ==>
        status == old(status).(phase := env.seeding)
    {
      if status.phase == GaveUp {
        return;
      }
      if !env.validUri {
        status := status.(phase := GaveUp);
        return;
      }
      if !env.configured {
        return;
      }
      if env.ha && status.restored {
        status := status.(phase := env.seeding);
        return;
      }
      if status.operation == "" {
        if env.hold {
          return;
        }
        var r := Start(status.attempts);
        match r {
          case Refused => AttemptFailed();
          case Got(id, outcome) =>
            status := status.(operation := id);
            status := status.(phase := if outcome == IsRestoring then Running else Preparing);
          case _ =>
        }
        return;
      }
      FollowRestore();
    }

    /** The poll of the restore on record. */
    method FollowRestore()
      requires status == base && !Final(base) && status.attempts < MaxAttempts && Sane(env) && status.operation != "" && !status.restored
      modifies this`status, this`clock
      ensures Evolves(base, status) && status == Polled(env, old(status), clock)
    {
      var r := env.poll;
      match r {
        case Missing => OperationMissing();
        case Unavailable =>
        case Refused =>
        case Got(_, outcome) =>
          status := status.(missingSince := None);
          match outcome {
            case IsCompleted =>
              if env.ha {
                status := status.(restored := true, phase := env.seeding);
              } else {
                status := status.(phase := Complete);
              }
            case IsFailed => AttemptFailed();
            case _ => status := status.(phase := if outcome == IsRestoring then Running else Preparing);
          }
      }
    }

    /** restoreOperationMissing: a missing record is no failed attempt, and the restore is never started again. */
    method OperationMissing()
      requires status == base && !Final(base) && status.attempts < MaxAttempts
      modifies this`status, this`clock
      ensures Evolves(base, status) && status == Lapsed(old(status), clock)
    {
      var now: int := *;
      clock := if now < clock then clock else now;
      var since := if status.missingSince.Some? then status.missingSince.value else clock;
      status := status.(missingSince := Some(since));
      if clock - since > MissingWait {
        status := status.(phase := GaveUp);
      }
    }
  }

  // ---- All reconciles of one recovery

  /** A reconcile: the version it read, and the attempts whose start was answered to it with an operation. */
  datatype Pass = Pass(version: nat, answered: set<nat>)

  datatype World = World(versions: seq<Status>, passes: map<nat, Pass>)

  datatype Act =
    | Begin(p: nat, version: nat)
    | Issue(p: nat, attempt: nat, answered: bool)
    | Store(p: nat, status: Status)
    | Lose(p: nat)

  predicate Runs(w: World, p: nat) {
    p in w.passes && w.passes[p].version < |w.versions|
  }

  function Base(w: World, p: nat): Status
    requires Runs(w, p)
  {
    w.versions[w.passes[p].version]
  }

  predicate Can(w: World, act: Act) {
    match act
    case Begin(p, version) => p !in w.passes && version < |w.versions|
    case Issue(p, attempt, _) => Runs(w, p) && attempt == Base(w, p).attempts && !Spent(Base(w, p), attempt)
    case Store(p, status) =>
      && Runs(w, p) && w.passes[p].version == |w.versions| - 1 && Evolves(Base(w, p), status)
      && forall attempt :: attempt in w.passes[p].answered ==> Spent(status, attempt)
    case Lose(p) => p in w.passes
  }

  function Next(w: World, act: Act): World
    requires Can(w, act)
  {
    match act
    case Begin(p, version) => w.(passes := w.passes[p := Pass(version, {})])
    case Issue(p, attempt, answered) =>
      if answered then w.(passes := w.passes[p := w.passes[p].(answered := w.passes[p].answered + {attempt})]) else w
    case Store(p, status) => World(w.versions + [status], w.passes - {p})
    case Lose(p) => w.(passes := w.passes - {p})
  }

  ghost predicate Inv(w: World) {
    && |w.versions| > 0
    && (forall i: nat, j: nat {:trigger w.versions[i], w.versions[j]} :: i <= j < |w.versions| ==> Evolves(w.versions[i], w.versions[j]))
  }

  ghost predicate Takes(w: World, v: World) {
    exists act :: Can(w, act) && v == Next(w, act)
  }

  ghost predicate StepAt(run: seq<World>, i: int) {
    0 < i < |run| ==> Takes(run[i - 1], run[i])
  }

  ghost predicate IsRun(run: seq<World>) {
    |run| > 0 && run[0] == World([Unstarted], map[]) && forall i {:trigger StepAt(run, i)} :: StepAt(run, i)
  }

  lemma StepKept(w: World, act: Act)
    requires Inv(w) && Can(w, act)
    ensures Inv(Next(w, act))
  {
    if act.Store? {
      var v, last := Next(w, act), |w.versions| - 1;
      assert Evolves(w.versions[last], w.versions[last]);
      forall i: nat, j: nat | i <= j < |v.versions| ensures Evolves(v.versions[i], v.versions[j]) {
        assert i <= last && j <= last ==> Evolves(w.versions[i], w.versions[j]);
        assert i <= last ==> Evolves(w.versions[i], w.versions[last]);
      }
    }
  }

  lemma {:induction false} RunInv(run: seq<World>, n: nat)
    requires IsRun(run) && n < |run|
    ensures Inv(run[n])
  {
    if n > 0 {
      RunInv(run, n - 1);
      assert StepAt(run, n);
      var act :| Can(run[n - 1], act) && run[n] == Next(run[n - 1], act);
      StepKept(run[n - 1], act);
    }
  }

  /** Once the operation of an attempt is stored, no reconcile that reads that version or a later one sends
      the start of that attempt; attempts stay below three; an end is final. */
  lemma StartedOncePerAttempt(run: seq<World>, n: nat, j: nat, p: nat, attempt: nat, answered: bool)
    requires IsRun(run) && n < |run| && j < |run[n].versions| && Runs(run[n], p) && run[n].passes[p].version >= j
    ensures Spent(run[n].versions[j], attempt) ==> !Can(run[n], Issue(p, attempt, answered))
    ensures run[n].versions[j].attempts < MaxAttempts
    ensures Final(run[n].versions[j]) ==> Base(run[n], p) == run[n].versions[j]
  {
    RunInv(run, n);
    assert Evolves(run[n].versions[j], Base(run[n], p));
  }

  lemma {:induction false} VersionsStay(run: seq<World>, n: nat, m: nat)
    requires IsRun(run) && n <= m < |run|
    ensures run[n].versions <= run[m].versions
  {
    if n < m {
      VersionsStay(run, n, m - 1);
      assert StepAt(run, m);
    }
  }

  /** A reconcile that goes on keeps every answer it had. */
  lemma {:induction false} AnswersStay(run: seq<World>, a: nat, n: nat, p: nat, attempt: nat)
    requires IsRun(run) && a <= n < |run| && (forall i :: a <= i <= n ==> p in run[i].passes) && attempt in run[a].passes[p].answered
    ensures attempt in run[n].passes[p].answered
  {
    if a < n {
      AnswersStay(run, a, n - 1, p, attempt);
      assert StepAt(run, n);
    }
  }

  /** The start of an attempt is answered to a reconcile, at a, and its write takes effect, at n: from then on no reconcile
      that reads what was written, or a later version, starts that attempt. */
  lemma AnsweredIsNotStartedAgain(run: seq<World>, a: nat, n: nat, m: nat, p: nat, attempt: nat, status: Status, q: nat, answered: bool)
    requires IsRun(run) && a < n < m < |run|
    requires Can(run[a], Issue(p, attempt, true)) && run[a + 1] == Next(run[a], Issue(p, attempt, true))
    requires forall i :: a < i <= n ==> p in run[i].passes
    requires Can(run[n], Store(p, status)) && run[n + 1] == Next(run[n], Store(p, status))
    requires Runs(run[m], q) && run[m].passes[q].version >= |run[n].versions|
    ensures !Can(run[m], Issue(q, attempt, answered))
  {
    AnswersStay(run, a + 1, n, p, attempt);
    VersionsStay(run, n + 1, m);
    StartedOncePerAttempt(run, m, |run[n].versions|, q, attempt, answered);
  }

  // ---- What a stale read does

  const Begun := Unstarted.(phase := Running, operation := "op")
  const W0 := World([Unstarted], map[])
  const W1 := World([Unstarted], map[1 := Pass(0, {})])
  const W2 := World([Unstarted, Begun], map[])
  const W3 := World([Unstarted, Begun], map[2 := Pass(0, {})])

  lemma StaleRun()
    ensures Takes(W0, W1) && Takes(W1, W2) && Takes(W2, W3)
  {
    assert W1 == Next(W0, Begin(1, 0));
    assert W2 == Next(W1, Store(1, Begun));
    assert W3 == Next(W2, Begin(2, 0));
  }

  /** A reconcile that reads a version from before the operation was stored can send the start of the attempt again. */
  lemma StaleReadStartsAgain() returns (run: seq<World>)
    ensures IsRun(run) && |run| == 4
    ensures |run[3].versions| == 2 && Spent(run[3].versions[1], 0) && Can(run[3], Issue(2, 0, true))
  {
    StaleRun();
    hide Takes;
    run := [W0, W1, W2, W3];
  }
}
