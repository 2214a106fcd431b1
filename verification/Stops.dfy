/** The stop of one member's container: mutating operations, callers of Stop,
    shutdown commands and the starting manager, interleaved step by step. A step
    is one effect on what they share: the stop file, the flags under the lifecycle
    lock, the running operations, and the lock of Stop. */
module Stops {

  /** NoStopSeen: the manager has looked for a recorded stop and found none. */
  datatype Manager = Down | Listening | NoStopSeen | Resuming(op: nat) | Serving

  /** Where an admitted operation is: at work, or inside activate. */
  datatype Op = AtWork | Looked | Checked | StartRuns

  datatype Caller =
    | Recording                    // a shutdown command, before it records the stop
    | Asking                       // and before it asks the manager
    | OwnShutdown                  // nobody answered it: it runs the shutdown itself
    | Entered                      // in Stop, the member is marked as stopping
    | Waiting                      // with the lock of Stop, for the operations to end
    | Shutdown(waited: bool)       // running the shutdown, with the outcome of the wait
    | Returned(ok: bool)

  datatype Container = Container(
    file: bool, stopping: bool, starting: bool, stopped: bool,
    mgr: Manager, ops: map<nat, Op>, lock: bool, callers: map<nat, Caller>)

  const Fresh := Container(false, false, false, false, Down, map[], false, map[])

  datatype Act =
    | Listen
    | LookForStop(doubt: bool)     // honorRecordedStop of the manager; doubt: the file cannot be examined
    | BeginResume(o: nat)
    | EndResume
    | Admit(o: nat)
    | Look(o: nat, doubt: bool)    // honorRecordedStop inside activate
    | Check(o: nat)
    | Issue(o: nat)                // the start command
    | StartEnds(o: nat)
    | OpEnds(o: nat)
    | CallStop(c: nat)
    | Command(c: nat)
    | Record(c: nat, ok: bool)
    | Answered(c: nat)             // the manager takes the request, and calls Stop
    | Refused(c: nat)
    | Unanswered(c: nat)
    | OwnEnds(c: nat, ok: bool)
    | TakeLock(c: nat)
    | SeeEnded(c: nat)
    | TimeOut(c: nat)
    | ShutdownEnds(c: nat, ok: bool)

  predicate Is(s: Container, c: nat, at: Caller) {
    c in s.callers && s.callers[c] == at
  }

  predicate OpIs(s: Container, o: nat, at: Op) {
    o in s.ops && s.ops[o] == at
  }

  predicate Can(s: Container, act: Act) {
    match act
    case Listen => s.mgr == Down
    case LookForStop(_) => s.mgr == Listening
    case BeginResume(o) => s.mgr == NoStopSeen && o !in s.ops
    case EndResume => s.mgr.Resuming? && s.mgr.op !in s.ops
    case Admit(o) => s.mgr != Down && o !in s.ops && !s.stopping && !s.starting
    case Look(o, _) => OpIs(s, o, AtWork)
    case Check(o) => OpIs(s, o, Looked)
    case Issue(o) => OpIs(s, o, Checked)
    case StartEnds(o) => OpIs(s, o, StartRuns)
    case OpEnds(o) => OpIs(s, o, AtWork)
    case CallStop(c) => c !in s.callers
    case Command(c) => c !in s.callers
    case Record(c, _) => Is(s, c, Recording)
    case Answered(c) => Is(s, c, Asking) && s.mgr != Down
    case Refused(c) => Is(s, c, Asking) && s.mgr != Down
    case Unanswered(c) => Is(s, c, Asking)
    case OwnEnds(c, _) => Is(s, c, OwnShutdown)
    case TakeLock(c) => Is(s, c, Entered) && !s.lock
    case SeeEnded(c) => Is(s, c, Waiting) && s.ops == map[]
    case TimeOut(c) => Is(s, c, Waiting)
    case ShutdownEnds(c, _) => c in s.callers && s.callers[c].Shutdown?
  }

  function At(s: Container, c: nat, at: Caller): Container {
    s.(callers := s.callers[c := at])
  }

  function OpAt(s: Container, o: nat, at: Op): Container {
    s.(ops := s.ops[o := at])
  }

  function Next(s: Container, act: Act): Container
    requires Can(s, act)
  {
    match act
    case Listen => s.(mgr := Listening, starting := true)
    case LookForStop(doubt) =>
      if s.file || doubt then s.(mgr := Serving, stopping := true, starting := false) else s.(mgr := NoStopSeen)
    case BeginResume(o) =>
      if s.stopping then s.(mgr := Serving, starting := false)
      else OpAt(s, o, AtWork).(mgr := Resuming(o))
    case EndResume => s.(mgr := Serving, starting := false)
    case Admit(o) => OpAt(s, o, AtWork)
    case Look(o, doubt) => if s.file || doubt then s.(stopping := true) else OpAt(s, o, Looked)
    case Check(o) => OpAt(s, o, if s.stopping then AtWork else Checked)
    case Issue(o) => OpAt(s, o, StartRuns)
    case StartEnds(o) => OpAt(s, o, AtWork)
    case OpEnds(o) => s.(ops := s.ops - {o})
    case CallStop(c) => At(s, c, Entered).(stopping := true)
    case Command(c) => At(s, c, Recording)
    case Record(c, ok) => At(s, c, Asking).(file := s.file || ok)
    case Answered(c) => At(s, c, Entered).(stopping := true)
    case Refused(c) => At(s, c, Returned(false))
    case Unanswered(c) => At(s, c, OwnShutdown)
    case OwnEnds(c, ok) => At(s, c, Returned(ok))
    case TakeLock(c) => if s.stopped then At(s, c, Returned(true)) else At(s, c, Waiting).(lock := true)
    case SeeEnded(c) => At(s, c, Shutdown(true))
    case TimeOut(c) => At(s, c, Shutdown(false))
    case ShutdownEnds(c, ok) =>
      var done := ok && s.callers[c].waited;
      At(s, c, Returned(done)).(stopped := s.stopped || done, lock := false)
  }

  // ---- What every step keeps

  /** An operation that will not start CUBRID once the stop is on record or the member is stopping. */
  predicate Harmless(s: Container, at: Op) {
    at == AtWork || (at == Looked && s.stopping)
  }

  /** No start can be issued any more, and none runs: the stop is on record or the member is stopping, and no
      operation is between its look for the stop file, or its check, and the end of its start. */
  predicate Safe(s: Container) {
    (s.file || s.stopping) && forall o :: o in s.ops ==> Harmless(s, s.ops[o])
  }

  lemma SafeKept(s: Container, act: Act)
    requires Safe(s) && Can(s, act)
    ensures Safe(Next(s, act))
  {
    var t := Next(s, act);
    forall o | o in t.ops ensures Harmless(t, t.ops[o]) {
      assert o in s.ops ==> Harmless(s, s.ops[o]);
    }
  }

  predicate InStop(s: Container, at: Caller) {
    match at
    case Entered => s.stopping
    case Waiting => s.stopping
    case Shutdown(waited) => s.stopping && (waited ==> s.ops == map[])
    case _ => true
  }

  /** What holds in every run, whatever the commands do. */
  predicate Shape(s: Container) {
    && (s.mgr == Down || s.mgr == Listening || s.mgr == NoStopSeen ==> s.ops == map[])
    && (s.mgr == Listening || s.mgr == NoStopSeen || s.mgr.Resuming? <==> s.starting)
    && (s.stopped ==> s.stopping && s.ops == map[])
    && forall c :: c in s.callers ==> InStop(s, s.callers[c])
  }

  /** A caller that runs the shutdown itself, or that has returned success. */
  predicate Rests(at: Caller) {
    at == OwnShutdown || at == Returned(true)
  }

  predicate Inv(s: Container) {
    Shape(s) && forall c :: c in s.callers && Rests(s.callers[c]) ==> Safe(s)
  }

  /** A command that nobody answers runs the shutdown itself only when no start can follow. */
  predicate Sheltered(s: Container, act: Act) {
    act.Unanswered? ==> Safe(s)
  }

  /** The steps of the manager and of its operations. */
  predicate Managed(act: Act) {
    || act.Listen? || act.LookForStop? || act.BeginResume? || act.EndResume? || act.Admit?
    || act.Look? || act.Check? || act.Issue? || act.StartEnds? || act.OpEnds?
  }

  /** They leave the callers alone. */
  lemma ManagedStep(s: Container, act: Act)
    requires Can(s, act) && Managed(act)
    ensures Next(s, act).callers == s.callers && Next(s, act).stopped == s.stopped
    ensures s.stopping ==> Next(s, act).stopping
  {
    hide Can;
  }

  /** Once the member is stopping no operation begins. */
  lemma NoNewOps(s: Container, act: Act)
    requires Can(s, act) && Managed(act) && s.stopping && s.ops == map[]
    ensures Next(s, act).ops == map[]
  {
  }

  /** A caller leaves the operations, the manager and every other caller alone. */
  lemma CallerStep(s: Container, act: Act)
    requires Can(s, act) && !Managed(act)
    ensures act.c in Next(s, act).callers
    ensures Next(s, act).callers == s.callers[act.c := Next(s, act).callers[act.c]]
    ensures Next(s, act).ops == s.ops && Next(s, act).mgr == s.mgr && Next(s, act).starting == s.starting
    ensures s.stopping ==> Next(s, act).stopping
  {
  }

  lemma ManagedShape(s: Container, act: Act)
    requires Shape(s) && Can(s, act) && Managed(act)
    ensures Shape(Next(s, act))
  {
    ManagedStep(s, act);
    if s.stopping && s.ops == map[] {
      NoNewOps(s, act);
    }
    var t := Next(s, act);
    forall c | c in t.callers ensures InStop(t, t.callers[c]) {
      assert InStop(s, s.callers[c]);
    }
  }

  /** What the caller that takes a step comes to know. */
  lemma MoverShape(s: Container, act: Act)
    requires Shape(s) && Can(s, act) && !Managed(act)
    ensures act.c in Next(s, act).callers && InStop(Next(s, act), Next(s, act).callers[act.c])
    ensures Next(s, act).stopped ==> Next(s, act).stopping && Next(s, act).ops == map[]
  {
    if act.c in s.callers {
      assert InStop(s, s.callers[act.c]);
    }
  }

  lemma CallerShape(s: Container, act: Act)
    requires Shape(s) && Can(s, act) && !Managed(act)
    ensures Shape(Next(s, act))
  {
    hide Can, Next;
    CallerStep(s, act);
    MoverShape(s, act);
    var t := Next(s, act);
    forall c | c in t.callers ensures InStop(t, t.callers[c]) {
      assert c != act.c ==> InStop(s, s.callers[c]);
    }
  }

  lemma ShapeKept(s: Container, act: Act)
    requires Shape(s) && Can(s, act)
    ensures Shape(Next(s, act))
  {
    hide Can, Next, Shape, Managed;
    if Managed(act) {
      ManagedShape(s, act);
    } else {
      CallerShape(s, act);
    }
  }

  /** Nobody comes to rest on the end of CUBRID but a command that nobody answers, unless no start can follow. */
  lemma NewRest(s: Container, act: Act)
    requires Inv(s) && Can(s, act) && Sheltered(s, act) && !Managed(act)
    requires act.c in Next(s, act).callers && Rests(Next(s, act).callers[act.c])
    ensures Safe(s)
  {
    if act.c in s.callers {
      assert InStop(s, s.callers[act.c]);
    }
  }

  lemma StepKept(s: Container, act: Act)
    requires Inv(s) && Can(s, act) && Sheltered(s, act)
    ensures Inv(Next(s, act))
  {
    hide Can, Next, Shape, Sheltered, Safe, Rests;
    ShapeKept(s, act);
    var t := Next(s, act);
    forall c | c in t.callers && Rests(t.callers[c]) ensures Safe(t) {
      if Managed(act) {
        ManagedStep(s, act);
      } else {
        CallerStep(s, act);
        if c == act.c {
          NewRest(s, act);
        }
      }
      SafeKept(s, act);
    }
  }

  // ---- Runs

  ghost predicate Takes(s: Container, t: Container) {
    exists act :: Can(s, act) && Sheltered(s, act) && t == Next(s, act)
  }

  ghost predicate StepAt(run: seq<Container>, i: int) {
    0 < i < |run| ==> Takes(run[i - 1], run[i])
  }

  ghost predicate IsRun(run: seq<Container>) {
    |run| > 0 && run[0] == Fresh && forall i {:trigger StepAt(run, i)} :: StepAt(run, i)
  }

  lemma Taken(run: seq<Container>, n: nat) returns (act: Act)
    requires IsRun(run) && 0 < n < |run|
    ensures Can(run[n - 1], act) && Sheltered(run[n - 1], act) && run[n] == Next(run[n - 1], act)
  {
    assert StepAt(run, n);
    act :| Can(run[n - 1], act) && Sheltered(run[n - 1], act) && run[n] == Next(run[n - 1], act);
  }

  lemma {:induction false} RunInv(run: seq<Container>, n: nat)
    requires IsRun(run) && n < |run|
    ensures Inv(run[n])
  {
    if n > 0 {
      RunInv(run, n - 1);
      var act := Taken(run, n);
      StepKept(run[n - 1], act);
    }
  }

  predicate Succeeded(s: Container) {
    exists c :: c in s.callers && s.callers[c] == Returned(true)
  }

  lemma {:induction false} SuccessStays(run: seq<Container>, m: nat, n: nat)
    requires IsRun(run) && m <= n < |run| && Succeeded(run[m])
    ensures Succeeded(run[n])
  {
    if m < n {
      SuccessStays(run, m, n - 1);
      var act := Taken(run, n);
      StepKeepsSuccess(run[n - 1], act);
    }
  }

  lemma StepKeepsSuccess(s: Container, act: Act)
    requires Can(s, act) && Succeeded(s)
    ensures Succeeded(Next(s, act))
  {
    var c :| c in s.callers && s.callers[c] == Returned(true);
    if Managed(act) {
      ManagedStep(s, act);
    } else {
      assert c != act.c;
      CallerStep(s, act);
    }
    assert c in Next(s, act).callers && Next(s, act).callers[c] == Returned(true);
  }

  predicate StartIsRunning(s: Container) {
    exists o :: o in s.ops && s.ops[o] == StartRuns
  }

  predicate StartMayCome(s: Container) {
    exists o :: o in s.ops && s.ops[o] == Checked
  }

  /** Once a command or Stop has returned success, no start of CUBRID runs and none is issued, ever after. */
  lemma NoStartAfterSuccess(run: seq<Container>, m: nat, n: nat, o: nat)
    requires IsRun(run) && m <= n < |run| && Succeeded(run[m])
    ensures !Can(run[n], Issue(o)) && !StartIsRunning(run[n])
  {
    SuccessStays(run, m, n);
    RunInv(run, n);
    var c :| c in run[n].callers && run[n].callers[c] == Returned(true);
    assert Rests(run[n].callers[c]);
  }

  /** The caller runs the shutdown commands that its success will rest on. */
  predicate RunsShutdown(s: Container, c: nat) {
    Is(s, c, OwnShutdown) || Is(s, c, Shutdown(true))
  }

  /** While such commands run every start has ended, and none can be issued. */
  lemma ShutdownAlone(run: seq<Container>, n: nat, c: nat, o: nat)
    requires IsRun(run) && n < |run| && RunsShutdown(run[n], c)
    ensures !StartIsRunning(run[n]) && !Can(run[n], Issue(o))
  {
    RunInv(run, n);
    assert Rests(run[n].callers[c]) || InStop(run[n], run[n].callers[c]);
  }

  predicate Ended(s: Container) {
    Succeeded(s) || s.stopped
  }

  /** Success comes from nowhere else: from such commands, or from an earlier stop that succeeded so. */
  lemma {:induction false} SuccessRests(run: seq<Container>, n: nat)
    requires IsRun(run) && n < |run| && Ended(run[n])
    ensures exists m, c :: 0 <= m < n && RunsShutdown(run[m], c)
  {
    assert n > 0;
    hide IsRun, Can, Next, Sheltered, Ended, RunsShutdown;
    var s := run[n - 1];
    if Ended(s) {
      SuccessRests(run, n - 1);
    } else {
      var act := Taken(run, n);
      var c := NewSuccess(s, act);
      assert RunsShutdown(run[n - 1], c);
    }
  }

  lemma NewSuccess(s: Container, act: Act) returns (c: nat)
    requires Can(s, act) && !Ended(s) && Ended(Next(s, act))
    ensures RunsShutdown(s, c)
  {
    if Managed(act) {
      ManagedStep(s, act);
      assert false;
    } else {
      CallerStep(s, act);
      c := act.c;
    }
  }

  // ---- What the shelter keeps out

  /** A run of the code from s to t, sheltered or not. */
  ghost predicate Reaches(s: Container, acts: seq<Act>, t: Container)
    decreases |acts|
  {
    if acts == [] then s == t
    else Can(s, acts[0]) && Reaches(Next(s, acts[0]), acts[1..], t)
  }

  lemma Nothing(s: Container)
    ensures Reaches(s, [], s)
  {
  }

  lemma Then(s: Container, act: Act, acts: seq<Act>, t: Container)
    requires Can(s, act) && Reaches(Next(s, act), acts, t)
    ensures Reaches(s, [act] + acts, t)
  {
    assert ([act] + acts)[1..] == acts;
  }

  lemma {:induction false} SafeForGood(s: Container, acts: seq<Act>, t: Container)
    requires Safe(s) && Reaches(s, acts, t)
    ensures Safe(t)
    decreases |acts|
  {
    if acts != [] {
      SafeKept(s, acts[0]);
      SafeForGood(Next(s, acts[0]), acts[1..], t);
    }
  }

  /** What a command must never see: a start that runs beside its shutdown, or that can be issued after its success. */
  predicate Breaks(t: Container, c: nat) {
    (Is(t, c, OwnShutdown) && StartIsRunning(t)) || (Is(t, c, Returned(true)) && StartMayCome(t))
  }

  /** Some run of the code leads there. */
  ghost predicate MayBreak(s: Container, c: nat) {
    exists acts, t :: Reaches(s, acts, t) && Breaks(t, c)
  }

  /** An operation that has passed its check outlives the shutdown of the command. */
  lemma CheckedBreaks(u: Container, c: nat, o: nat) returns (acts: seq<Act>, t: Container)
    requires Is(u, c, OwnShutdown) && OpIs(u, o, Checked)
    ensures Reaches(u, acts, t) && Breaks(t, c)
  {
    t := Next(u, OwnEnds(c, true));
    acts := [OwnEnds(c, true)] + [];
    Nothing(t);
    Then(u, OwnEnds(c, true), [], t);
    assert OpIs(t, o, Checked);
  }

  lemma LookedBreaks(u: Container, c: nat, o: nat) returns (acts: seq<Act>, t: Container)
    requires Is(u, c, OwnShutdown) && OpIs(u, o, Looked) && !u.stopping
    ensures Reaches(u, acts, t) && Breaks(t, c)
  {
    hide Breaks, Reaches;
    var more;
    more, t := CheckedBreaks(Next(u, Check(o)), c, o);
    Then(u, Check(o), more, t);
    acts := [Check(o)] + more;
  }

  lemma WorkBreaks(u: Container, c: nat, o: nat) returns (acts: seq<Act>, t: Container)
    requires Is(u, c, OwnShutdown) && OpIs(u, o, AtWork) && !u.stopping && !u.file
    ensures Reaches(u, acts, t) && Breaks(t, c)
  {
    hide Breaks, Reaches;
    var more;
    more, t := LookedBreaks(Next(u, Look(o, false)), c, o);
    Then(u, Look(o, false), more, t);
    acts := [Look(o, false)] + more;
  }

  /** A manager that nothing tells of the stop comes up, or serves, and admits an operation. */
  lemma ManagerBreaks(u: Container, c: nat) returns (acts: seq<Act>, t: Container)
    requires Shape(u) && Is(u, c, OwnShutdown) && u.ops == map[] && !u.stopping && !u.file
    ensures Reaches(u, acts, t) && Breaks(t, c)
    decreases match u.mgr case Down => 4 case Listening => 3 case NoStopSeen => 2 case Resuming(_) => 1 case Serving => 0
  {
    hide Breaks, Reaches;
    var act := match u.mgr
      case Down => Listen
      case Listening => LookForStop(false)
      case NoStopSeen => BeginResume(0)
      case Resuming(_) => EndResume
      case Serving => Admit(0);
    var more;
    if u.mgr == NoStopSeen || u.mgr == Serving {
      more, t := WorkBreaks(Next(u, act), c, 0);
    } else {
      more, t := ManagerBreaks(Next(u, act), c);
    }
    Then(u, act, more, t);
    acts := [act] + more;
  }

  lemma UnsafeBreaks(u: Container, c: nat) returns (acts: seq<Act>, t: Container)
    requires Shape(u) && Is(u, c, OwnShutdown) && !Safe(u)
    ensures Reaches(u, acts, t) && Breaks(t, c)
  {
    if o :| o in u.ops && !Harmless(u, u.ops[o]) {
      if u.ops[o] == StartRuns {
        acts, t := [], u;
      } else if u.ops[o] == Checked {
        acts, t := CheckedBreaks(u, c, o);
      } else {
        acts, t := LookedBreaks(u, c, o);
      }
    } else if o :| o in u.ops {
      assert Harmless(u, u.ops[o]);
      acts, t := WorkBreaks(u, c, o);
    } else {
      acts, t := ManagerBreaks(u, c);
    }
  }

  lemma {:induction false} ShapeForGood(s: Container, acts: seq<Act>, t: Container)
    requires Shape(s) && Reaches(s, acts, t)
    ensures Shape(t)
    decreases |acts|
  {
    hide Shape, Can, Next;
    if acts != [] {
      ShapeKept(s, acts[0]);
      ShapeForGood(Next(s, acts[0]), acts[1..], t);
    }
  }

  /** In every run, sheltered or not, and whatever follows: a command that nobody answers sees no start beside its
      shutdown and none after its success if and only if, at that moment, the stop is on record or the member is
      stopping, and no operation is between its look for the stop file and the end of its start. */
  lemma UnansweredExact(before: seq<Act>, s: Container, c: nat)
    requires Reaches(Fresh, before, s) && Can(s, Unanswered(c))
    ensures Safe(s) <==> !MayBreak(Next(s, Unanswered(c)), c)
  {
    hide Reaches, Breaks;
    ShapeForGood(Fresh, before, s);
    CallerShape(s, Unanswered(c));
    var u := Next(s, Unanswered(c));
    assert Safe(u) <==> Safe(s);
    if Safe(s) {
      forall acts, t | Reaches(u, acts, t) ensures !Breaks(t, c) {
        SafeForGood(u, acts, t);
        SafeBreaksNothing(t, c);
      }
    } else {
      var acts, t := UnsafeBreaks(u, c);
    }
  }

  /** The condition holds, in every run, when the stop is recorded and nobody listens, as the command supposes. */
  lemma NobodyListens(before: seq<Act>, s: Container)
    requires Reaches(Fresh, before, s) && s.file && s.mgr == Down
    ensures Safe(s)
  {
    hide Reaches;
    ShapeForGood(Fresh, before, s);
  }

  lemma SafeBreaksNothing(t: Container, c: nat)
    requires Safe(t)
    ensures !Breaks(t, c)
  {
  }

  // ---- What Stop promises besides

  /** The caller has the lock of Stop. */
  predicate HasLock(at: Caller) {
    at == Waiting || at.Shutdown?
  }

  predicate OneHolder(s: Container) {
    && (s.lock <==> exists c :: c in s.callers && HasLock(s.callers[c]))
    && (forall c, d :: c in s.callers && d in s.callers && HasLock(s.callers[c]) && HasLock(s.callers[d]) ==> c == d)
    && (s.stopped ==> !s.lock)
  }

  lemma HolderMoves(s: Container, act: Act)
    requires Can(s, act) && !Managed(act)
    ensures var t := Next(s, act);
            && act.c in t.callers
            && var had, has := act.c in s.callers && HasLock(s.callers[act.c]), HasLock(t.callers[act.c]);
            && (had == has ==> t.lock == s.lock) && (!had && has ==> !s.lock && !s.stopped && t.lock) && (had && !has ==> !t.lock)
            && (t.stopped ==> s.stopped || !t.lock) && (has ==> t.stopped == s.stopped) && (s.stopped ==> t.stopped)
  {
  }

  lemma CallerHolder(s: Container, act: Act)
    requires OneHolder(s) && Can(s, act) && !Managed(act)
    ensures OneHolder(Next(s, act)) && (s.stopped ==> Next(s, act).stopped)
  {
    HolderMoves(s, act);
    CallerStep(s, act);
    hide Can, Next, HasLock, Managed;
    var t := Next(s, act);
    assert forall d :: d in t.callers && d != act.c ==> d in s.callers && t.callers[d] == s.callers[d];
    if d :| d in s.callers && HasLock(s.callers[d]) {
      assert d != act.c ==> d in t.callers && HasLock(t.callers[d]);
    }
  }

  lemma ManagedLeaves(s: Container, act: Act)
    requires Can(s, act) && Managed(act)
    ensures Next(s, act).lock == s.lock
  {
    hide Can;
  }

  lemma OneHolderKept(s: Container, act: Act)
    requires OneHolder(s) && Can(s, act)
    ensures OneHolder(Next(s, act)) && (s.stopped ==> Next(s, act).stopped)
  {
    hide Can, Next, HasLock, Managed;
    if Managed(act) {
      ManagedStep(s, act);
      ManagedLeaves(s, act);
    } else {
      CallerHolder(s, act);
    }
  }

  lemma {:induction false} OneHolderForGood(s: Container, acts: seq<Act>, t: Container)
    requires OneHolder(s) && Reaches(s, acts, t)
    ensures OneHolder(t) && (s.stopped ==> t.stopped)
    decreases |acts|
  {
    hide OneHolder, Can, Next;
    if acts != [] {
      OneHolderKept(s, acts[0]);
      OneHolderForGood(Next(s, acts[0]), acts[1..], t);
    }
  }

  /** A stop that succeeded is not run a second time: in every run from then on nobody holds the lock of Stop, and a caller
      that comes for it returns success at once. */
  lemma StoppedOnce(before: seq<Act>, s: Container, acts: seq<Act>, t: Container, c: nat)
    requires Reaches(Fresh, before, s) && s.stopped && Reaches(s, acts, t)
    ensures c in t.callers ==> !HasLock(t.callers[c])
    ensures Is(t, c, Entered) ==> Can(t, TakeLock(c)) && Is(Next(t, TakeLock(c)), c, Returned(true))
  {
    hide Reaches;
    OneHolderForGood(Fresh, before, s);
    OneHolderForGood(s, acts, t);
  }

  lemma StoppingStep(s: Container, act: Act)
    requires s.stopping && Can(s, act)
    ensures Next(s, act).stopping && Next(s, act).ops.Keys <= s.ops.Keys
  {
    if Managed(act) {
      ManagedStep(s, act);
    } else {
      CallerStep(s, act);
    }
  }

  /** Once the member is stopping no operation is admitted any more. */
  lemma {:induction false} StoppingAdmitsNothing(s: Container, acts: seq<Act>, t: Container)
    requires s.stopping && Reaches(s, acts, t)
    ensures t.stopping && t.ops.Keys <= s.ops.Keys
    decreases |acts|
  {
    if acts != [] {
      hide Can, Next;
      StoppingStep(s, acts[0]);
      StoppingAdmitsNothing(Next(s, acts[0]), acts[1..], t);
    }
  }

  /** A stop that is on record when the manager looks for it: no operation is admitted in any run from then on. */
  lemma RecordedAdmitsNothing(before: seq<Act>, s: Container, acts: seq<Act>, t: Container)
    requires Reaches(Fresh, before, s) && s.file && (s.mgr == Down || s.mgr == Listening) && Reaches(s, acts, t)
    ensures t.ops == map[]
  {
    hide Reaches;
    ShapeForGood(Fresh, before, s);
    HeldBack(s, acts, t);
  }

  /** Nothing is at work, and the member is stopping or its manager will find that a stop is on record. */
  predicate WillHold(s: Container) {
    s.ops == map[] && (s.stopping || (s.file && (s.mgr == Down || s.mgr == Listening)))
  }

  lemma WillHoldStep(s: Container, act: Act)
    requires Shape(s) && WillHold(s) && Can(s, act)
    ensures WillHold(Next(s, act))
  {
    if s.stopping {
      StoppingStep(s, act);
      assert Next(s, act).ops.Keys == {};
    }
  }

  lemma {:induction false} HeldBack(s: Container, acts: seq<Act>, t: Container)
    requires Shape(s) && WillHold(s) && Reaches(s, acts, t)
    ensures t.ops == map[]
    decreases |acts|
  {
    if acts != [] {
      hide Can, Next, Shape;
      ShapeKept(s, acts[0]);
      WillHoldStep(s, acts[0]);
      HeldBack(Next(s, acts[0]), acts[1..], t);
    }
  }

  // ---- Stop can always succeed

  function Rank(at: Op): nat {
    match at
    case AtWork => 0
    case StartRuns => 1
    case Looked => 1
    case Checked => 2
  }

  /** While the member is stopping an operation comes to its end. */
  lemma {:induction false} OpEnded(s: Container, o: nat) returns (acts: seq<Act>)
    requires s.stopping && o in s.ops
    ensures Reaches(s, acts, s.(ops := s.ops - {o}))
    decreases Rank(s.ops[o])
  {
    hide Reaches;
    var act := match s.ops[o]
      case AtWork => OpEnds(o)
      case Looked => Check(o)
      case Checked => Issue(o)
      case StartRuns => StartEnds(o);
    var more: seq<Act> := [];
    var end := s.(ops := s.ops - {o});
    if act.OpEnds? {
      Nothing(end);
    } else {
      more := OpEnded(Next(s, act), o);
      assert Next(s, act).ops - {o} == s.ops - {o};
    }
    Then(s, act, more, end);
    acts := [act] + more;
  }

  lemma {:induction false} AllEnded(s: Container) returns (acts: seq<Act>)
    requires s.stopping
    ensures Reaches(s, acts, s.(ops := map[]))
    decreases |s.ops|
  {
    hide Reaches;
    if s.ops == map[] {
      Nothing(s);
      acts := [];
    } else {
      var o :| o in s.ops;
      var first := OpEnded(s, o);
      var t := s.(ops := s.ops - {o});
      assert |t.ops| < |s.ops| by {
        assert t.ops.Keys == s.ops.Keys - {o};
      }
      var more := AllEnded(t);
      Joined(s, first, t, more, s.(ops := map[]));
      acts := first + more;
    }
  }

  /** Whoever has the lock gives it back, and is the only one to move. */
  lemma Unlocked(s: Container, c: nat) returns (acts: seq<Act>, t: Container)
    requires OneHolder(s) && s.stopping && Is(s, c, Entered)
    ensures Reaches(s, acts, t) && !t.lock && t.stopping && Is(t, c, Entered)
  {
    hide Reaches;
    t := s;
    acts := [];
    if s.lock {
      var d :| d in s.callers && HasLock(s.callers[d]);
      var u := if s.callers[d] == Waiting then Next(s, TimeOut(d)) else s;
      t := Next(u, ShutdownEnds(d, false));
      Nothing(t);
      Then(u, ShutdownEnds(d, false), [], t);
      acts := [ShutdownEnds(d, false)] + [];
      if s.callers[d] == Waiting {
        Then(s, TimeOut(d), acts, t);
        acts := [TimeOut(d)] + acts;
      }
    } else {
      Nothing(s);
    }
  }

  lemma LockedSucceeds(s: Container, c: nat) returns (acts: seq<Act>, t: Container)
    requires Is(s, c, Waiting) && s.stopping
    ensures Reaches(s, acts, t) && Is(t, c, Returned(true))
  {
    hide Reaches;
    var first := AllEnded(s);
    var u := s.(ops := map[]);
    var v := Next(u, SeeEnded(c));
    t := Next(v, ShutdownEnds(c, true));
    Nothing(t);
    Then(v, ShutdownEnds(c, true), [], t);
    Then(u, SeeEnded(c), [ShutdownEnds(c, true)] + [], t);
    acts := first + ([SeeEnded(c)] + ([ShutdownEnds(c, true)] + []));
    Joined(s, first, u, [SeeEnded(c)] + ([ShutdownEnds(c, true)] + []), t);
  }

  /** From wherever a run has come, a call of Stop can return success. */
  lemma StopCanSucceed(before: seq<Act>, s: Container, c: nat) returns (acts: seq<Act>, t: Container)
    requires Reaches(Fresh, before, s) && c !in s.callers
    ensures acts != [] && acts[0] == CallStop(c) && Reaches(s, acts, t) && Is(t, c, Returned(true))
  {
    hide Reaches;
    OneHolderForGood(Fresh, before, s);
    OneHolderKept(s, CallStop(c));
    var s1 := Next(s, CallStop(c));
    var free, s2 := Unlocked(s1, c);
    var s3 := Next(s2, TakeLock(c));
    var more: seq<Act> := [];
    t := s3;
    if s2.stopped {
      Nothing(s3);
    } else {
      more, t := LockedSucceeds(s3, c);
    }
    Then(s2, TakeLock(c), more, t);
    Joined(s1, free, s2, [TakeLock(c)] + more, t);
    Then(s, CallStop(c), free + ([TakeLock(c)] + more), t);
    acts := [CallStop(c)] + (free + ([TakeLock(c)] + more));
  }

  const ComesUp: seq<Act> := [Listen] + ([LookForStop(false)] + ([BeginResume(0)] + ([Look(0, false)] + ([Check(0)] + []))))

  function StopsItself(recorded: bool): seq<Act> {
    [Command(1)] + ([Record(1, recorded)] + ([Unanswered(1)] + ([OwnEnds(1, true)] + [])))
  }

  /** The manager comes up, and its resume is past its check. */
  lemma ResumeChecked(s: Container)
    requires !s.file && !s.stopping && s.mgr == Down && s.ops == map[]
    ensures Reaches(s, ComesUp,
                    s.(starting := true, mgr := Resuming(0), ops := map[0 := Checked]))
  {
    hide Reaches;
    var s1 := Next(s, Listen);
    var s2 := Next(s1, LookForStop(false));
    var s3 := Next(s2, BeginResume(0));
    var s4 := Next(s3, Look(0, false));
    var s5 := Next(s4, Check(0));
    assert s5.ops == map[0 := Checked];
    Nothing(s5);
    Then(s4, Check(0), [], s5);
    Then(s3, Look(0, false), [Check(0)] + [], s5);
    Then(s2, BeginResume(0), [Look(0, false)] + ([Check(0)] + []), s5);
    Then(s1, LookForStop(false), [BeginResume(0)] + ([Look(0, false)] + ([Check(0)] + [])), s5);
    Then(s, Listen, [LookForStop(false)] + ([BeginResume(0)] + ([Look(0, false)] + ([Check(0)] + []))), s5);
  }

  function Commanding(s: Container, at: Caller, file: bool): Container {
    s.(callers := map[1 := at], file := file)
  }

  lemma CommandBegins(s: Container, recorded: bool)
    requires s.callers == map[] && !s.file
    ensures Can(s, Command(1)) && Next(s, Command(1)) == Commanding(s, Recording, false)
    ensures Can(Commanding(s, Recording, false), Record(1, recorded))
    ensures Next(Commanding(s, Recording, false), Record(1, recorded)) == Commanding(s, Asking, recorded)
  {
  }

  lemma CommandEnds(s: Container, recorded: bool)
    ensures Can(Commanding(s, Asking, recorded), Unanswered(1))
    ensures Next(Commanding(s, Asking, recorded), Unanswered(1)) == Commanding(s, OwnShutdown, recorded)
    ensures Can(Commanding(s, OwnShutdown, recorded), OwnEnds(1, true))
    ensures Next(Commanding(s, OwnShutdown, recorded), OwnEnds(1, true)) == Commanding(s, Returned(true), recorded)
  {
    assert map[1 := Asking][1 := OwnShutdown] == map[1 := OwnShutdown];
    assert map[1 := OwnShutdown][1 := Returned(true)] == map[1 := Returned(true)];
  }

  /** A command that nobody answers stops CUBRID itself, with success. */
  lemma CommandSucceeds(s: Container, recorded: bool)
    requires s.callers == map[] && !s.file
    ensures Reaches(s, StopsItself(recorded), Commanding(s, Returned(true), recorded))
  {
    hide Reaches, Can, Next, Commanding;
    CommandBegins(s, recorded);
    CommandEnds(s, recorded);
    var t := Commanding(s, Returned(true), recorded);
    Nothing(t);
    Then(Commanding(s, OwnShutdown, recorded), OwnEnds(1, true), [], t);
    Then(Commanding(s, Asking, recorded), Unanswered(1), [OwnEnds(1, true)] + [], t);
    Then(Commanding(s, Recording, false), Record(1, recorded), [Unanswered(1)] + ([OwnEnds(1, true)] + []), t);
    Then(s, Command(1), [Record(1, recorded)] + ([Unanswered(1)] + ([OwnEnds(1, true)] + [])), t);
  }

  lemma {:induction false} Joined(s: Container, acts: seq<Act>, t: Container, more: seq<Act>, u: Container)
    requires Reaches(s, acts, t) && Reaches(t, more, u)
    ensures Reaches(s, acts + more, u)
    decreases |acts|
  {
    if acts == [] {
      assert acts + more == more;
    } else {
      Joined(Next(s, acts[0]), acts[1..], t, more, u);
      assert (acts + more)[1..] == acts[1..] + more;
    }
  }

  /** A request that is lost while the manager listens: the command stops CUBRID itself
      and succeeds, and an operation that was past its check can start it again. */
  lemma LostRequestStartsAgain() returns (acts: seq<Act>, s: Container)
    ensures Reaches(Fresh, acts, s) && Succeeded(s) && Can(s, Issue(0)) && s.file
  {
    ResumeChecked(Fresh);
    var t := Fresh.(starting := true, mgr := Resuming(0), ops := map[0 := Checked]);
    CommandSucceeds(t, true);
    s := Commanding(t, Returned(true), true);
    assert s.callers[1] == Returned(true);
    Joined(Fresh, ComesUp, t, StopsItself(true), s);
    acts := ComesUp + StopsItself(true);
  }

  /** A stop that could not be recorded, asked for before the manager listens. */
  lemma UnrecordedStopStartsAgain() returns (acts: seq<Act>, s: Container)
    ensures Reaches(Fresh, acts, s) && Succeeded(s) && Can(s, Issue(0))
  {
    CommandSucceeds(Fresh, false);
    var t := Commanding(Fresh, Returned(true), false);
    ResumeChecked(t);
    s := t.(starting := true, mgr := Resuming(0), ops := map[0 := Checked]);
    assert s.callers[1] == Returned(true);
    Joined(Fresh, StopsItself(false), t, ComesUp, s);
    acts := StopsItself(false) + ComesUp;
  }
}
