/** One readiness check shared by the requests that wait for it, interleaved step
    by step: requests arrive, join, leave and are answered; checks run one status
    command each, and end. */
module Readiness {

  datatype Stage = CommandRuns | CommandEnded | Published | Closed

  datatype Check = Check(stage: Stage, waiters: int, abandoned: bool)

  datatype Request =
    | Asking
    | AwaitingEnd(check: nat)      // of an abandoned check
    | Waiting(check: nat)
    | Leaving(check: nat)          // its context ended; it has not said so yet
    | Answered(check: nat)
    | Gone

  datatype Server = Server(checks: seq<Check>, current: int, requests: map<nat, Request>)   // current is -1 for none

  const Idle := Server([], -1, map[])

  datatype Act =
    | Arrive(r: nat) | Join(r: nat) | Retry(r: nat) | GiveUp(r: nat) | TakeAnswer(r: nat) | ContextEnds(r: nat) | Leave(r: nat)
    | EndCommand(k: nat) | Publish(k: nat) | Close(k: nat)

  predicate At(s: Server, k: nat, stage: Stage) {
    k < |s.checks| && s.checks[k].stage == stage
  }

  predicate Can(s: Server, act: Act) {
    match act
    case Arrive(r) => r !in s.requests
    case Join(r) => r in s.requests && s.requests[r] == Asking && s.current < |s.checks|
    case Retry(r) => r in s.requests && s.requests[r].AwaitingEnd? && At(s, s.requests[r].check, Closed)
    case GiveUp(r) => r in s.requests && s.requests[r].AwaitingEnd?
    case TakeAnswer(r) => r in s.requests && s.requests[r].Waiting? && At(s, s.requests[r].check, Closed)
    case ContextEnds(r) => r in s.requests && s.requests[r].Waiting?
    case Leave(r) => r in s.requests && s.requests[r].Leaving? && s.requests[r].check < |s.checks|
    case EndCommand(k) => At(s, k, CommandRuns)
    case Publish(k) => At(s, k, CommandEnded)
    case Close(k) => At(s, k, Published)
  }

  function Put(s: Server, r: nat, q: Request): Server {
    s.(requests := s.requests[r := q])
  }

  function SetCheck(s: Server, k: nat, c: Check): Server
    requires k < |s.checks|
  {
    s.(checks := s.checks[k := c])
  }

  /** The check to join: the one that runs, or a new one. */
  function Open(s: Server): Server {
    if s.current >= 0 then s else s.(checks := s.checks + [Check(CommandRuns, 0, false)], current := |s.checks|)
  }

  function Joined(s: Server, r: nat): Server
    requires 0 <= s.current < |s.checks|
  {
    var c := s.checks[s.current];
    if c.abandoned then Put(s, r, AwaitingEnd(s.current))
    else Put(SetCheck(s, s.current, c.(waiters := c.waiters + 1)), r, Waiting(s.current))
  }

  function Left(s: Server, r: nat, k: nat): Server
    requires k < |s.checks|
  {
    var c := s.checks[k].(waiters := s.checks[k].waiters - 1);
    Put(SetCheck(s, k, if c.waiters == 0 && s.current == k then c.(abandoned := true) else c), r, Gone)
  }

  function Next(s: Server, act: Act): Server
    requires Can(s, act)
  {
    match act
    case Arrive(r) => Put(s, r, Asking)
    case Join(r) => Joined(Open(s), r)
    case Retry(r) => Put(s, r, Asking)
    case GiveUp(r) => Put(s, r, Gone)
    case TakeAnswer(r) => Put(s, r, Answered(s.requests[r].check))
    case ContextEnds(r) => Put(s, r, Leaving(s.requests[r].check))
    case Leave(r) => Left(s, r, s.requests[r].check)
    case EndCommand(k) => SetCheck(s, k, s.checks[k].(stage := CommandEnded))
    case Publish(k) => SetCheck(s, k, s.checks[k].(stage := Published)).(current := if s.current == k then -1 else s.current)
    case Close(k) => SetCheck(s, k, s.checks[k].(stage := Closed))
  }

  // ---- What every step keeps

  predicate On(q: Request, k: nat) {
    (q.Waiting? || q.Leaving? || q.Answered?) && q.check == k
  }

  /** The requests that joined check k and have not left it. */
  function Members(s: Server, k: nat): set<nat> {
    set r | r in s.requests && On(s.requests[r], k)
  }

  predicate CheckInv(s: Server, k: nat)
    requires k < |s.checks|
  {
    && s.checks[k].waiters == |Members(s, k)|
    && (s.checks[k].abandoned ==> Members(s, k) == {})
    && (s.checks[k].stage == CommandRuns || s.checks[k].stage == CommandEnded <==> s.current == k)
  }

  predicate RequestInv(s: Server, q: Request) {
    match q
    case AwaitingEnd(k) => k < |s.checks|
    case Waiting(k) => k < |s.checks|
    case Leaving(k) => k < |s.checks|
    case Answered(k) => k < |s.checks| && s.checks[k].stage == Closed
    case _ => true
  }

  predicate Inv(s: Server) {
    && -1 <= s.current < |s.checks|
    && (forall k: nat {:trigger s.checks[k]} :: k < |s.checks| ==> CheckInv(s, k))
    && (forall r :: r in s.requests ==> RequestInv(s, s.requests[r]))
  }

  /** Checks are only added, and a closed one stays closed. */
  predicate Later(s: Server, t: Server) {
    |s.checks| <= |t.checks| && forall k :: 0 <= k < |s.checks| && s.checks[k].stage == Closed ==> t.checks[k].stage == Closed
  }

  lemma RequestsKept(s: Server, t: Server, r: nat, q: Request)
    requires Inv(s) && Later(s, t) && RequestInv(t, q) && (t.requests == s.requests || t.requests == s.requests[r := q])
    ensures forall x :: x in t.requests ==> RequestInv(t, t.requests[x])
  {
    forall x | x in t.requests ensures RequestInv(t, t.requests[x]) {
      assert x in s.requests ==> RequestInv(s, s.requests[x]);
    }
  }

  /** A request that moves on without joining or leaving a check. */
  lemma PutKept(s: Server, r: nat, q: Request)
    requires Inv(s) && RequestInv(s, q)
    requires r in s.requests ==> forall k: nat :: On(q, k) <==> On(s.requests[r], k)
    requires r !in s.requests ==> forall k: nat :: !On(q, k)
    ensures Inv(Put(s, r, q))
  {
    var t := Put(s, r, q);
    forall k: nat | k < |t.checks| ensures CheckInv(t, k) {
      assert CheckInv(s, k);
      assert Members(t, k) == Members(s, k);
    }
    RequestsKept(s, t, r, q);
  }

  lemma OpenKept(s: Server)
    requires Inv(s)
    ensures Inv(Open(s)) && 0 <= Open(s).current
  {
    var t := Open(s);
    forall k: nat | k < |t.checks| ensures CheckInv(t, k) {
      assert Members(t, k) == Members(s, k);
      if k < |s.checks| {
        assert CheckInv(s, k);
      } else {
        assert forall r :: r in s.requests ==> RequestInv(s, s.requests[r]);
        assert Members(s, k) == {};
      }
    }
    RequestsKept(s, t, 0, Gone);
  }

  lemma JoinedKept(s: Server, r: nat)
    requires Inv(s) && 0 <= s.current && r in s.requests && s.requests[r] == Asking
    ensures Inv(Joined(s, r))
  {
    var k := s.current;
    assert CheckInv(s, k);
    if s.checks[k].abandoned {
      PutKept(s, r, AwaitingEnd(k));
    } else {
      var t := Joined(s, r);
      forall j: nat | j < |t.checks| ensures CheckInv(t, j) {
        assert CheckInv(s, j);
        if j == k {
          assert Members(t, j) == Members(s, j) + {r} && r !in Members(s, j);
        } else {
          assert Members(t, j) == Members(s, j);
        }
      }
      RequestsKept(s, t, r, Waiting(k));
    }
  }

  lemma LeftKept(s: Server, r: nat)
    requires Inv(s) && Can(s, Leave(r))
    ensures Inv(Left(s, r, s.requests[r].check))
  {
    assert RequestInv(s, s.requests[r]);
    var k := s.requests[r].check;
    assert CheckInv(s, k) && r in Members(s, k);
    var t := Left(s, r, k);
    forall j: nat | j < |t.checks| ensures CheckInv(t, j) {
      assert CheckInv(s, j);
      if j == k {
        assert Members(t, j) == Members(s, j) - {r};
      } else {
        assert Members(t, j) == Members(s, j);
      }
    }
    RequestsKept(s, t, r, Gone);
  }

  lemma StageKept(s: Server, act: Act)
    requires Inv(s) && Can(s, act) && (act.EndCommand? || act.Publish? || act.Close?)
    ensures Inv(Next(s, act))
  {
    var t := Next(s, act);
    forall j: nat | j < |t.checks| ensures CheckInv(t, j) {
      assert CheckInv(s, j);
      assert Members(t, j) == Members(s, j);
    }
    RequestsKept(s, t, 0, Gone);
  }

  lemma StepKept(s: Server, act: Act)
    requires Inv(s) && Can(s, act)
    ensures Inv(Next(s, act))
  {
    match act
    case Arrive(r) => PutKept(s, r, Asking);
    case Join(r) =>
      OpenKept(s);
      JoinedKept(Open(s), r);
    case Retry(r) => PutKept(s, r, Asking);
    case GiveUp(r) => PutKept(s, r, Gone);
    case TakeAnswer(r) => PutKept(s, r, Answered(s.requests[r].check));
    case ContextEnds(r) =>
      assert RequestInv(s, s.requests[r]);
      PutKept(s, r, Leaving(s.requests[r].check));
    case Leave(r) => LeftKept(s, r);
    case _ => StageKept(s, act);
  }

  // ---- Runs

  ghost predicate Takes(s: Server, t: Server) {
    exists act :: Can(s, act) && t == Next(s, act)
  }

  ghost predicate StepAt(run: seq<Server>, i: int) {
    0 < i < |run| ==> Takes(run[i - 1], run[i])
  }

  ghost predicate IsRun(run: seq<Server>) {
    |run| > 0 && run[0] == Idle && forall i {:trigger StepAt(run, i)} :: StepAt(run, i)
  }

  lemma {:induction false} RunInv(run: seq<Server>, n: nat)
    requires IsRun(run) && n < |run|
    ensures Inv(run[n])
  {
    if n > 0 {
      RunInv(run, n - 1);
      assert StepAt(run, n);
      var act :| Can(run[n - 1], act) && run[n] == Next(run[n - 1], act);
      StepKept(run[n - 1], act);
    }
  }

  /** At most one status command runs at a time. */
  lemma OneCommand(run: seq<Server>, n: nat, j: nat, k: nat)
    requires IsRun(run) && n < |run| && At(run[n], j, CommandRuns) && At(run[n], k, CommandRuns)
    ensures j == k
  {
    RunInv(run, n);
    assert CheckInv(run[n], j) && CheckInv(run[n], k);
  }

  /** While a check has not ended, its waiter count is the number of requests that wait for it. */
  lemma WaitersCounted(run: seq<Server>, n: nat, k: nat)
    requires IsRun(run) && n < |run| && k < |run[n].checks| && run[n].checks[k].stage != Closed
    ensures run[n].checks[k].waiters ==
            |set r | r in run[n].requests && (run[n].requests[r] == Waiting(k) || run[n].requests[r] == Leaving(k))|
  {
    RunInv(run, n);
    var s := run[n];
    assert CheckInv(s, k);
    assert forall r :: r in s.requests ==> RequestInv(s, s.requests[r]);
    assert Members(s, k) == set r | r in s.requests && (s.requests[r] == Waiting(k) || s.requests[r] == Leaving(k));
  }

  /** A check is cancelled only when nobody waits for it, and never once it has answered a request:
      a request that waits for a check, or got its answer, finds it uncancelled at every moment. */
  lemma {:induction false} NeverCancelledUnder(run: seq<Server>, m: nat, n: nat, r: nat, k: nat)
    requires IsRun(run) && m <= n < |run|
    requires r in run[n].requests && On(run[n].requests[r], k)
    requires k < |run[m].checks|
    ensures !run[m].checks[k].abandoned
  {
    RunInv(run, n);
    assert RequestInv(run[n], run[n].requests[r]);
    assert CheckInv(run[n], k) && r in Members(run[n], k);
    if run[m].checks[k].abandoned {
      AbandonedStays(run, m, n, k);
    }
  }

  lemma {:induction false} AbandonedStays(run: seq<Server>, m: nat, n: nat, k: nat)
    requires IsRun(run) && m <= n < |run| && k < |run[m].checks| && run[m].checks[k].abandoned
    ensures k < |run[n].checks| && run[n].checks[k].abandoned
  {
    if m < n {
      AbandonedStays(run, m, n - 1, k);
      assert StepAt(run, n);
      var act :| Can(run[n - 1], act) && run[n] == Next(run[n - 1], act);
      StepKeepsAbandoned(run[n - 1], act, k);
    }
  }

  lemma StepKeepsAbandoned(s: Server, act: Act, k: nat)
    requires Can(s, act) && k < |s.checks| && s.checks[k].abandoned
    ensures k < |Next(s, act).checks| && Next(s, act).checks[k].abandoned
  {
  }

  // ---- When a check is cancelled, and whom it answers

  /** The check that runs is abandoned exactly when nobody is with it. */
  predicate Exact(s: Server) {
    0 <= s.current < |s.checks| ==> (s.checks[s.current].abandoned <==> Members(s, s.current) == {})
  }

  lemma JoinExact(s: Server, r: nat)
    requires Inv(s) && Exact(s) && Can(s, Join(r))
    ensures Exact(Next(s, Join(r)))
  {
    OpenKept(s);
    var u := Open(s);
    var t := Joined(u, r);
    if u.checks[u.current].abandoned {
      assert Members(t, t.current) == Members(s, t.current);
    } else {
      assert r in Members(t, t.current);
    }
  }

  lemma LeaveExact(s: Server, r: nat)
    requires Inv(s) && Exact(s) && Can(s, Leave(r))
    ensures Exact(Next(s, Leave(r)))
  {
    var k, t := s.requests[r].check, Next(s, Leave(r));
    assert CheckInv(s, k) && r in Members(s, k);
    if s.current == k {
      assert Members(t, k) == Members(s, k) - {r};
      assert |Members(t, k)| == |Members(s, k)| - 1;
    } else if s.current >= 0 {
      assert Members(t, s.current) == Members(s, s.current);
    }
  }

  lemma OtherExact(s: Server, act: Act)
    requires Inv(s) && Exact(s) && Can(s, act) && !act.Join? && !act.Leave?
    ensures Exact(Next(s, act))
  {
    var t := Next(s, act);
    if t.current >= 0 {
      assert Members(t, t.current) == Members(s, t.current);
    }
  }

  lemma {:induction false} RunExact(run: seq<Server>, n: nat)
    requires IsRun(run) && n < |run|
    ensures Exact(run[n])
  {
    if n > 0 {
      RunExact(run, n - 1);
      RunInv(run, n - 1);
      assert StepAt(run, n);
      hide Exact, Inv, Can, Next;
      var act :| Can(run[n - 1], act) && run[n] == Next(run[n - 1], act);
      match act
      case Join(r) => JoinExact(run[n - 1], r);
      case Leave(r) => LeaveExact(run[n - 1], r);
      case _ => OtherExact(run[n - 1], act);
    }
  }

  /** The check that runs is cancelled if and only if no request waits for it any more. */
  lemma CancelledExact(run: seq<Server>, n: nat)
    requires IsRun(run) && n < |run| && run[n].current >= 0
    ensures run[n].current < |run[n].checks|
    ensures run[n].checks[run[n].current].abandoned <==>
            forall r :: r in run[n].requests ==> run[n].requests[r] != Waiting(run[n].current) && run[n].requests[r] != Leaving(run[n].current)
  {
    var s := run[n];
    RunInv(run, n);
    RunExact(run, n);
    assert CheckInv(s, s.current);
    assert forall r :: r in s.requests ==> RequestInv(s, s.requests[r]);
    if Members(s, s.current) != {} {
      var r :| r in Members(s, s.current);
    } else {
      forall r | r in s.requests ensures !On(s.requests[r], s.current) {
        assert r !in Members(s, s.current);
      }
    }
  }

  lemma JoinsRunning(s: Server, act: Act, r: nat, k: nat)
    requires Inv(s) && Can(s, act) && k < |s.checks| && !At(s, k, CommandRuns) && !At(s, k, CommandEnded)
    requires r in Next(s, act).requests && On(Next(s, act).requests[r], k)
    ensures r in s.requests && On(s.requests[r], k)
  {
    assert CheckInv(s, k);
  }

  lemma StageStays(s: Server, act: Act, k: nat)
    requires Can(s, act) && k < |s.checks| && !At(s, k, CommandRuns) && !At(s, k, CommandEnded)
    ensures var t := Next(s, act); k < |t.checks| && !At(t, k, CommandRuns) && !At(t, k, CommandEnded)
  {
  }

  lemma {:induction false} EndedStays(run: seq<Server>, m: nat, n: nat, k: nat)
    requires IsRun(run) && m <= n < |run| && k < |run[m].checks| && !At(run[m], k, CommandRuns) && !At(run[m], k, CommandEnded)
    ensures k < |run[n].checks| && !At(run[n], k, CommandRuns) && !At(run[n], k, CommandEnded)
  {
    if m < n {
      EndedStays(run, m, n - 1, k);
      assert StepAt(run, n);
      var act :| Can(run[n - 1], act) && run[n] == Next(run[n - 1], act);
      StageStays(run[n - 1], act, k);
    }
  }

  /** No result is kept past its check: a request that a check answers was with it before its result was published. */
  lemma {:induction false} NoOldAnswer(run: seq<Server>, m: nat, n: nat, r: nat, k: nat)
    requires IsRun(run) && m <= n < |run| && k < |run[m].checks| && !At(run[m], k, CommandRuns) && !At(run[m], k, CommandEnded)
    requires r in run[n].requests && On(run[n].requests[r], k)
    ensures r in run[m].requests && On(run[m].requests[r], k)
  {
    if m < n {
      RunInv(run, n - 1);
      EndedStays(run, m, n - 1, k);
      assert StepAt(run, n);
      var act :| Can(run[n - 1], act) && run[n] == Next(run[n - 1], act);
      JoinsRunning(run[n - 1], act, r, k);
      NoOldAnswer(run, m, n - 1, r, k);
    }
  }
}
