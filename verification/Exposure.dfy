/** What a start over an unsynced removal of a marker can cost. From every reachable
    state, a start can be followed by the removal of the data it started exactly when
    such a removal covers the marker of an operation that is not on record as restored. */
module Exposure {
  import opened Operations
  import opened StoreRuns
  import opened Ownership

  // ---- Whom a marker names

  predicate Known(s: Member, x: string) {
    s.dir.Some? && Names(s.dir.value, x) && x in s.st.cells
  }

  /** An operation of this database, other than a backup, that says it completed only if its data is on record as restored. */
  ghost predicate Mine(s: Member, x: string)
    requires x in s.st.cells
  {
    && s.st.cells[x].born.database == s.db && !s.st.cells[x].born.kind.Backup?
    && (SaysCompleted(s.st.cells[x]) ==> Restored(s.st, x))
  }

  /** A bootstrap has its own marker in place at these points alone. */
  predicate MayBeNamed(pc: Pc) {
    pc.Createdb? || pc.ClearMark? || pc.Undo? || pc.Fail?
  }

  ghost predicate WorkerNames(s: Member) {
    s.at.Some? && s.at.value.id in s.st.cells ==>
      && !SaysCompleted(s.st.cells[s.at.value.id])
      && (Ownership.Kind(s, s.at.value.id).HABootstrap? && !MayBeNamed(s.at.value.pc) ==> !Known(s, s.at.value.id))
  }

  ghost predicate NameInv(s: Member) {
    (forall x :: Known(s, x) ==> Mine(s, x)) && WorkerNames(s)
  }

  lemma MineCarried(s: Member, t: Member, x: string)
    requires x in s.st.cells && Mine(s, x) && Carries(s.st, t.st) && t.db == s.db
    requires SaysCompleted(t.st.cells[x]) ==> SaysCompleted(s.st.cells[x])
    ensures Mine(t, x)
  {
  }

  /** A change of the record of x by itself or by the store, none of which completes it. */
  lemma LocalSays(up: bool, id: string, c: Cell, step: Step)
    requires CellInv(up, id, c) && Local(step) && CellEnabled(up, c, step)
    requires step.Keep? ==> step.end.EndFailed?
    ensures SaysCompleted(CellNext(up, c, step)) ==> SaysCompleted(c)
  {
    if !step.Alter? && !step.Keep? {
      EndStep(up, id, c, step);
    }
  }

  /** A step of the store completes no operation of this database. */
  lemma OtherSays(s: Member, step: Step, x: string)
    requires Ownership.Inv(s) && Can(s, Other(step)) && x in s.st.cells && Mine(s, x)
    ensures x in StoreRuns.Next(s.st, step).cells
    ensures SaysCompleted(StoreRuns.Next(s.st, step).cells[x]) ==> SaysCompleted(s.st.cells[x])
  {
    hide DirInv, TombInv, EndsInv, TailsInv, PhaseInv, PcInv, Restored, SaysCompleted, Admissible;
    if Local(step) && step.id == x {
      OtherLocal(s, step);
      assert CellInv(s.st.up, x, s.st.cells[x]);
      LocalSays(s.st.up, x, s.st.cells[x], step);
    }
  }

  lemma OtherNames(s: Member, step: Step)
    requires Ownership.Inv(s) && NameInv(s) && Can(s, Other(step))
    ensures NameInv(Ownership.Next(s, Other(step)))
  {
    hide DirInv, TombInv, EndsInv, TailsInv, PhaseInv, PcInv, Restored, SaysCompleted, Admissible, Mine, CellInv;
    var t := Ownership.Next(s, Other(step));
    StepCarries(s.st, step);
    forall x | Known(t, x) ensures Mine(t, x) {
      assert Known(s, x);
      OtherSays(s, step, x);
      MineCarried(s, t, x);
    }
    if Local(step) {
      OtherLocal(s, step);
    }
  }

  lemma AdmitNames(s: Member, op: Operation)
    requires Ownership.Inv(s) && NameInv(s) && Can(s, Admit(op))
    ensures NameInv(Ownership.Next(s, Admit(op)))
  {
    hide DirInv, TombInv, EndsInv, TailsInv, PhaseInv, PcInv, Restored, SaysCompleted;
    var t := Ownership.Next(s, Admit(op));
    StepCarries(s.st, Create(op, Done, false));
    NotCompletedYet(op, Done, false);
    forall x | Known(t, x) ensures Mine(t, x) {
      assert Known(s, x) && Mine(s, x);
      MineCarried(s, t, x);
    }
  }

  /** A step that leaves the store as it is names nothing new but the worker's own operation. */
  lemma SameStoreNames(s: Member, t: Member)
    requires WorkerInv(s) && NameInv(s) && t.st == s.st && t.db == s.db
    requires forall x :: Known(t, x) ==> Known(s, x) || (s.at.Some? && x == s.at.value.id)
    requires t.at.None? || (s.at.Some? && t.at.value.id == s.at.value.id && WorkerNames(t))
    ensures NameInv(t)
  {
    hide PcInv, Restored, SaysCompleted;
    forall x | Known(t, x) ensures Mine(t, x) {
      if Known(s, x) {
        assert Mine(s, x);
      } else {
        assert WorksHere(s, x);
      }
    }
  }

  /** What a step of the worker on the directory may name. */
  ghost predicate NamesOwn(s: Member, t: Member) {
    && t.st == s.st && t.db == s.db && s.at.Some? && t.at.Some? && t.at.value.id == s.at.value.id
    && (forall x :: Known(t, x) ==> Known(s, x) || x == s.at.value.id)
    && WorkerNames(t)
  }

  lemma DirWorkNames(s: Member, w: Write, flag: bool, artifact: Artifact)
    requires Ownership.Inv(s) && NameInv(s) && CanWork(s) && !WritesRecord(s.at.value.pc)
    ensures NameInv(Worked(s, w, flag, artifact))
  {
    hide Worked, PcInv, WorkerNames, Known;
    if At(s, Reclaim) {
      ReclaimNames(s, w, flag, artifact);
    } else if At(s, ClearMark) || At(s, Undo) {
      ClearedNames(s, w, flag, artifact);
    } else if At(s, Mark) || At(s, TakeOver) || At(s, MakeDir) {
      MarkedNames(s, w, flag, artifact);
    } else {
      PassedNames(s, w, flag, artifact);
    }
    SameStoreNames(s, Worked(s, w, flag, artifact));
  }

  lemma ClearedNames(s: Member, w: Write, flag: bool, artifact: Artifact)
    requires WorkerNames(s) && CanWork(s) && (At(s, ClearMark) || At(s, Undo))
    ensures NamesOwn(s, Worked(s, w, flag, artifact))
  {
    hide SaysCompleted;
  }

  lemma ReclaimNames(s: Member, w: Write, flag: bool, artifact: Artifact)
    requires WorkerNames(s) && CanWork(s) && At(s, Reclaim)
    ensures NamesOwn(s, Worked(s, w, flag, artifact))
  {
    hide SaysCompleted, LeftComplete, Condemned;
  }

  lemma MarkedNames(s: Member, w: Write, flag: bool, artifact: Artifact)
    requires WorkerNames(s) && CanWork(s) && (At(s, Mark) || At(s, TakeOver) || At(s, MakeDir))
    requires PcInv(s, s.at.value.id, s.at.value.pc)
    ensures NamesOwn(s, Worked(s, w, flag, artifact))
  {
    hide SaysCompleted, Restored;
  }

  lemma PassedNames(s: Member, w: Write, flag: bool, artifact: Artifact)
    requires WorkerNames(s) && CanWork(s) && !WritesRecord(s.at.value.pc)
    requires !At(s, Reclaim) && !At(s, ClearMark) && !At(s, Undo) && !At(s, Mark) && !At(s, TakeOver) && !At(s, MakeDir)
    ensures NamesOwn(s, Worked(s, w, flag, artifact))
  {
    hide SaysCompleted, Adoptable;
  }

  /** The worker's own record is changed, and nothing else. */
  lemma RecordedNames(s: Member, change: Change, w: Write, next: Pc)
    requires Ownership.Inv(s) && NameInv(s) && AtWork(s) && Progress(change) && !MayBeNamed(s.at.value.pc)
    ensures NameInv(Recorded(s, change, w, next))
  {
    hide DirInv, TombInv, EndsInv, TailsInv, PhaseInv, PcInv, Restored;
    var t, id := Recorded(s, change, w, next), s.at.value.id;
    StepCarries(s.st, Alter(id, change, w));
    assert CellInv(s.st.up, id, s.st.cells[id]);
    LocalSays(s.st.up, id, s.st.cells[id], Alter(id, change, w));
    forall x | Known(t, x) ensures Mine(t, x) {
      assert Known(s, x) && Mine(s, x);
      MineCarried(s, t, x);
    }
  }

  lemma RecordWorkNames(s: Member, w: Write, flag: bool, artifact: Artifact)
    requires Ownership.Inv(s) && NameInv(s) && CanWork(s) && WritesRecord(s.at.value.pc) && !At(s, Complete) && !At(s, Fail)
    ensures NameInv(Worked(s, w, flag, artifact))
  {
    hide NameInv, Recorded, DirInv, TombInv, EndsInv, TailsInv, PhaseInv, PcInv;
    match s.at.value.pc
    case Begin =>
      if Ownership.Kind(s, s.at.value.id).Restore? {
        RecordedNames(s, SetState(Downloading), w, Adopt);
      } else {
        SteppedNames(s, Reclaim);
      }
    case RecordAdopted(a) => RecordedNames(s, SetRestored(a), w, TakeOver);
    case Prepare => RecordedNames(s, SetState(Restoring), w, MakeDir);
    case RecordRestored => RecordedNames(s, SetRestored(artifact), w, RecordStarting);
    case RecordCreating => RecordedNames(s, SetState(Creating), w, MakeDir);
    case RecordStarting =>
      if flag {
        SteppedNames(s, Complete);
      } else {
        RecordedNames(s, SetState(Starting), w, Start);
      }
    case _ =>
  }

  lemma SteppedNames(s: Member, pc: Pc)
    requires WorkerInv(s) && NameInv(s) && s.at.Some? && (MayBeNamed(s.at.value.pc) ==> MayBeNamed(pc))
    ensures NameInv(WorkAt(s, pc))
  {
    SameStoreNames(s, WorkAt(s, pc));
  }

  /** The worker hands over its end, which is a success only of an operation that is restored or that no marker names. */
  lemma SettlingNames(s: Member, end: End)
    requires Ownership.Inv(s) && NameInv(s) && AtWork(s)
    requires end.EndCompleted? && Known(s, s.at.value.id) ==> Restored(s.st, s.at.value.id)
    ensures NameInv(Settling(s, end))
  {
    hide DirInv, TombInv, EndsInv, TailsInv, PhaseInv, PcInv, Restored;
    var t, id := Settling(s, end), s.at.value.id;
    StepCarries(s.st, Keep(id, end));
    assert CellInv(s.st.up, id, s.st.cells[id]);
    forall x | Known(t, x) ensures Mine(t, x) {
      assert Known(s, x) && Mine(s, x);
      if x != id {
        MineCarried(s, t, x);
      }
    }
  }

  lemma EndNames(s: Member, w: Write, flag: bool, artifact: Artifact)
    requires Ownership.Inv(s) && NameInv(s) && CanWork(s) && (At(s, Complete) || At(s, Fail))
    ensures NameInv(Worked(s, w, flag, artifact))
  {
    hide NameInv, Ownership.Inv, Worked;
    InSight(s);
    if At(s, Fail) {
      SettlingNames(s, EndFailed("failed"));
      FailWorked(s, w, flag, artifact);
    } else {
      CompleteNames(s, w, flag, artifact);
    }
  }

  lemma FailWorked(s: Member, w: Write, flag: bool, artifact: Artifact)
    requires CanWork(s) && At(s, Fail)
    ensures Worked(s, w, flag, artifact) == Settling(s, EndFailed("failed"))
  {
  }

  lemma CompletesUnnamed(s: Member)
    requires Sight(s) && NameInv(s) && At(s, Complete) && WorksHere(s, s.at.value.id)
    ensures Known(s, s.at.value.id) ==> Restored(s.st, s.at.value.id)
  {
    CompletesRestored(s);
  }

  function Finished(s: Member, artifact: Artifact): End
    requires AtWork(s)
  {
    EndCompleted(if Ownership.Kind(s, s.at.value.id).Restore? then Some(artifact) else None)
  }

  lemma CompleteWorked(s: Member, w: Write, flag: bool, artifact: Artifact)
    requires CanWork(s) && At(s, Complete)
    ensures var t := Settling(s, Finished(s, artifact));
            && Can(t, Other(WriteEnd(s.at.value.id, w)))
            && var u := if flag then Ownership.Next(t, Other(WriteEnd(s.at.value.id, w))) else t;
               Worked(s, w, flag, artifact) == u.(tails := Worked(s, w, flag, artifact).tails)
  {
  }

  lemma CompleteNames(s: Member, w: Write, flag: bool, artifact: Artifact)
    requires Ownership.Inv(s) && NameInv(s) && CanWork(s) && At(s, Complete)
    ensures NameInv(Worked(s, w, flag, artifact))
  {
    InSight(s);
    CompletesUnnamed(s);
    CompletesRestored(s);
    hide Ownership.Inv, NameInv, Restored, Worked, Sight, Settling, Ownership.Next, Can;
    var end := Finished(s, artifact);
    SettlingKept(s, end);
    SettlingNames(s, end);
    CompleteWorked(s, w, flag, artifact);
    var t := Settling(s, end);
    if flag {
      OtherNames(t, WriteEnd(s.at.value.id, w));
      TailsAside(Ownership.Next(t, Other(WriteEnd(s.at.value.id, w))), Worked(s, w, flag, artifact));
    } else {
      TailsAside(t, Worked(s, w, flag, artifact));
    }
  }

  /** The tails name nothing. */
  lemma TailsAside(s: Member, t: Member)
    requires NameInv(s) && t == s.(tails := t.tails)
    ensures NameInv(t)
  {
    forall x | Known(t, x) ensures Mine(t, x) {
      assert Known(s, x) && Mine(s, x);
    }
  }

  lemma CrashSays(c: Cell, left: Option<Operation>, power: bool)
    requires left == c.now || (power && left in c.behind)
    ensures SaysCompleted(Crashed(c, left, power)) ==> SaysCompleted(c)
  {
  }

  lemma RestartNames(s: Member, left: map<string, Option<Operation>>, power: bool, marker: Option<string>)
    requires Ownership.Inv(s) && NameInv(s) && Can(s, Restart(left, power, marker))
    ensures NameInv(Ownership.Next(s, Restart(left, power, marker)))
  {
    hide DirInv, TombInv, EndsInv, TailsInv, PhaseInv, PcInv, Restored, SaysCompleted, Mine;
    var t := Ownership.Next(s, Restart(left, power, marker));
    StepCarries(s.st, Crash(left, power));
    forall x | Known(t, x) ensures Mine(t, x) {
      assert Known(s, x);
      CrashSays(s.st.cells[x], left[x], power);
      MineCarried(s, t, x);
    }
  }

  lemma ReadyNames(s: Member)
    requires Ownership.Inv(s) && NameInv(s) && Can(s, Ready)
    ensures NameInv(Ownership.Next(s, Ready))
  {
    hide DirInv, TombInv, EndsInv, TailsInv, PhaseInv, PcInv, Restored, SaysCompleted;
    var t := Ownership.Next(s, Ready);
    StepCarries(s.st, Up);
    forall x | Known(t, x) ensures Mine(t, x) {
      assert Known(s, x) && Mine(s, x);
      MineCarried(s, t, x);
    }
  }

  lemma DirNames(s: Member, act: Act)
    requires WorkerInv(s) && NameInv(s) && Can(s, act)
    requires act.Tail? || act.Entrypoint? || act.ResumeStart? || act.ResumeClear?
    ensures NameInv(Ownership.Next(s, act))
  {
    hide PcInv, Restored, SaysCompleted, Settled;
    SameStoreNames(s, Ownership.Next(s, act));
  }

  lemma QuietNames(s: Member, act: Act)
    requires WorkerInv(s) && NameInv(s) && Can(s, act) && (act.GiveUp? || act.Outsider? || act.Serve?)
    ensures NameInv(Ownership.Next(s, act))
  {
    hide PcInv, Restored, SaysCompleted;
    SameStoreNames(s, Ownership.Next(s, act));
  }

  lemma WorkNames(s: Member, w: Write, flag: bool, artifact: Artifact)
    requires Ownership.Inv(s) && NameInv(s) && CanWork(s)
    ensures NameInv(Worked(s, w, flag, artifact))
  {
    hide Ownership.Inv, NameInv, Worked;
    if !WritesRecord(s.at.value.pc) {
      DirWorkNames(s, w, flag, artifact);
    } else if At(s, Complete) || At(s, Fail) {
      EndNames(s, w, flag, artifact);
    } else {
      RecordWorkNames(s, w, flag, artifact);
    }
  }

  lemma StepNames(s: Member, act: Act)
    requires Ownership.Inv(s) && NameInv(s) && Can(s, act)
    ensures NameInv(Ownership.Next(s, act))
  {
    assert WorkerInv(s);
    hide Ownership.Inv, WorkerInv, NameInv, Worked, Sight, Enabled, StoreRuns.Next;
    match act
    case Other(step) => OtherNames(s, step);
    case Admit(op) => AdmitNames(s, op);
    case Work(w, flag, artifact) => WorkNames(s, w, flag, artifact);
    case Restart(left, power, marker) => RestartNames(s, left, power, marker);
    case Ready => ReadyNames(s);
    case Tail(_, _) => DirNames(s, act);
    case Entrypoint => DirNames(s, act);
    case ResumeStart => DirNames(s, act);
    case ResumeClear(_) => DirNames(s, act);
    case _ => QuietNames(s, act);
  }

  lemma {:induction false} RunNames(run: seq<Member>, n: nat)
    requires Ownership.IsRun(run) && n < |run|
    ensures NameInv(run[n])
  {
    if n > 0 {
      hide Ownership.Inv, NameInv, Sheltered, Can, Ownership.Next;
      RunNames(run, n - 1);
      Ownership.RunInv(run, n - 1);
      StepNames(run[n - 1], ActOf(run, n));
    }
  }

  // ---- What may follow a start

  /** Steps that start nothing over an exposed directory lead from s to t. */
  ghost predicate Leads(s: Member, acts: seq<Act>, t: Member)
    decreases |acts|
  {
    if acts == [] then s == t
    else Can(s, acts[0]) && Sheltered(s, acts[0]) && Leads(Ownership.Next(s, acts[0]), acts[1..], t)
  }

  /** The next step of the worker removes a directory whose data was started. */
  predicate Loses(s: Member) {
    CanWork(s) && (At(s, Undo) || At(s, MoveAside)) && s.dir.Some? && s.dir.value.started
  }

  ghost predicate MayLose(s: Member) {
    exists acts, t :: Leads(s, acts, t) && Loses(t)
  }

  lemma Now(s: Member)
    requires Loses(s)
    ensures MayLose(s)
  {
    assert Leads(s, [], s);
  }

  lemma Then(s: Member, act: Act)
    requires Can(s, act) && Sheltered(s, act) && MayLose(Ownership.Next(s, act))
    ensures MayLose(s)
  {
    hide Can, Sheltered, Ownership.Next, Loses;
    var acts, t :| Leads(Ownership.Next(s, act), acts, t) && Loses(t);
    assert ([act] + acts)[1..] == acts;
    assert Leads(s, [act] + acts, t);
  }

  lemma {:induction false} LedInv(s: Member, acts: seq<Act>, t: Member)
    requires Ownership.Inv(s) && Leads(s, acts, t)
    ensures Ownership.Inv(t)
    decreases |acts|
  {
    hide Ownership.Inv, Can, Sheltered, Ownership.Next;
    if acts != [] {
      StepKept(s, acts[0]);
      LedInv(Ownership.Next(s, acts[0]), acts[1..], t);
    }
  }

  /** What the invariant excludes for good. */
  lemma NothingLost(s: Member)
    requires Ownership.Inv(s)
    ensures !MayLose(s)
  {
    hide Ownership.Inv, Leads;
    forall acts, t | Leads(s, acts, t) ensures !Loses(t) {
      LedInv(s, acts, t);
      if Loses(t) {
        VictimsDisposable(t, Work(Done, true, Artifact("", "", "")));
      }
    }
  }

  // ---- How the data is lost

  const NoArtifact := Artifact("", "", "")

  /** The directory holds started data and the marker of an operation that failed and is not on record as restored. */
  predicate Doomed(s: Member) {
    s.dir.Some? && s.dir.value.started && Condemned(s)
  }

  /** A step of the worker that changes its point alone. */
  lemma Passes(s: Member, w: Write, flag: bool)
    requires CanWork(s) && !At(s, Start) && MayLose(Worked(s, w, flag, NoArtifact))
    ensures MayLose(s)
  {
    hide MayLose, Worked, Exposed;
    Then(s, Work(w, flag, NoArtifact));
  }

  lemma MovesAside(s: Member)
    requires AtWork(s) && At(s, Reclaim) && s.tomb.None? && Doomed(s)
    ensures MayLose(s)
  {
    hide MayLose;
    var unregister := WorkAt(s, Unregister);
    var move := WorkAt(s, MoveAside);
    Now(move);
    assert move == Worked(unregister, Done, true, NoArtifact);
    Passes(unregister, Done, true);
    assert unregister == Worked(s, Done, true, NoArtifact);
    Passes(s, Done, true);
  }

  lemma Reclaims(s: Member)
    requires AtWork(s) && At(s, Reclaim) && Doomed(s)
    ensures MayLose(s)
  {
    hide MayLose;
    if s.tomb.Some? {
      var t := s.(tomb := None);
      MovesAside(t);
      assert t == Worked(s, Done, true, NoArtifact);
      Passes(s, Done, true);
    } else {
      MovesAside(s);
    }
  }

  /** A bootstrap of this database under an identity and a key of its own. */
  ghost predicate NewBootstrap(s: Member, op: Operation) {
    && op.kind.HABootstrap? && op.database == s.db && op.state == Pending && op.restored.None?
    && IsValidId(op.id) && Fresh(s, op) && forall id :: id in s.st.cells ==> !SameKey(s.st.cells[id].born, op)
  }

  lemma NewCarried(s: Member, t: Member, op: Operation)
    requires NewBootstrap(s, op) && t.db == s.db && t.tomb == s.tomb && t.st.cells.Keys == s.st.cells.Keys
    requires forall id :: id in t.st.cells ==> t.st.cells[id].born == s.st.cells[id].born
    requires t.dir.Some? ==> s.dir.Some? && forall x :: Names(t.dir.value, x) ==> Names(s.dir.value, x)
    ensures NewBootstrap(t, op)
  {
    hide IsValidId;
  }

  lemma NewIsAdmissible(s: Member, op: Operation)
    requires StoreRuns.Inv(s.st) && s.st.up && NewBootstrap(s, op)
    requires s.phase.Serving? && forall id :: id in s.st.cells ==> !Runs(s.st.cells[id].now)
    ensures Can(s, Admit(op)) && op.kind.HABootstrap?
  {
    forall id | id in s.st.cells && s.st.cells[id].now.Some? ensures !SameKey(s.st.cells[id].now.value, op) {
      assert CellInv(s.st.up, id, s.st.cells[id]);
    }
  }

  /** The bootstrap is admitted and has come to its reclaim. */
  lemma Admitted(s: Member, op: Operation)
    requires Can(s, Admit(op)) && op.kind.HABootstrap? && Doomed(s)
    ensures var t := Ownership.Next(s, Admit(op));
            CanWork(t) && At(t, Begin) && Worked(t, Done, true, NoArtifact) == WorkAt(t, Reclaim) && Doomed(WorkAt(t, Reclaim))
  {
    hide Admissible, IsValidId;
    assert Names(s.dir.value, Owner(s));
  }

  lemma Admits(s: Member, op: Operation)
    requires StoreRuns.Inv(s.st) && s.st.up && s.phase.Serving? && Doomed(s) && NewBootstrap(s, op)
    requires forall id :: id in s.st.cells ==> !Runs(s.st.cells[id].now)
    ensures MayLose(s)
  {
    hide MayLose, StoreRuns.Inv, Can, Ownership.Next, NewBootstrap, Worked, Doomed;
    NewIsAdmissible(s, op);
    Admitted(s, op);
    var t := Ownership.Next(s, Admit(op));
    Reclaims(WorkAt(t, Reclaim));
    Passes(t, Done, true);
    Then(s, Admit(op));
  }

  lemma Boots(s: Member, op: Operation)
    requires StoreRuns.Inv(s.st) && !s.st.up && s.phase.Booting? && Doomed(s) && NewBootstrap(s, op)
    requires forall id :: id in s.st.cells ==> !Runs(s.st.cells[id].now)
    ensures MayLose(s)
  {
    hide MayLose;
    var resuming := Ownership.Next(s, Ready);
    var serving := Ownership.Next(resuming, Serve);
    InvKept(s.st, Up);
    Admits(serving, op);
    Then(resuming, Serve);
    Then(s, Ready);
  }

  /** The directory holds started data and the marker of x, whose record says neither completed nor restored. */
  predicate Marks(s: Member, x: string) {
    && s.dir.Some? && s.dir.value.started && s.dir.value.marker == Some(x)
    && x in s.st.cells && s.st.cells[x].now.Some? && s.st.cells[x].hold.Free?
    && s.st.cells[x].now.value.state != Completed && s.st.cells[x].now.value.restored.None?
  }

  predicate OthersRun(s: Member, ids: set<string>) {
    forall id :: id in s.st.cells && Runs(s.st.cells[id].now) ==> id in ids
  }

  /** A booting member on whose volume the data is doomed once the operations of `ids` are failed. */
  ghost predicate Returned(s: Member, ids: set<string>, x: string, op: Operation) {
    StoreRuns.Inv(s.st) && !s.st.up && s.phase.Booting? && Marks(s, x) && NewBootstrap(s, op) && OthersRun(s, ids)
  }

  lemma FailsOne(s: Member, ids: set<string>, x: string, op: Operation, id: string)
    requires Returned(s, ids, x, op) && id in s.st.cells && Runs(s.st.cells[id].now)
    ensures Can(s, Other(FailAtStart(id, Done))) && Returned(Ownership.Next(s, Other(FailAtStart(id, Done))), ids - {id}, x, op)
  {
    hide StoreRuns.Inv, NewBootstrap, Can, Ownership.Next;
    var fail := FailAtStart(id, Done);
    InvKept(s.st, fail);
    OtherEffect(s, fail);
    var t := Ownership.Next(s, Other(fail));
    assert t.st.cells == s.st.cells[id := CellNext(false, s.st.cells[id], fail)];
    NewCarried(s, t, op);
  }

  lemma OtherEffect(s: Member, step: Step)
    requires Enabled(s.st, step) && step.FailAtStart?
    ensures Can(s, Other(step)) && Ownership.Next(s, Other(step)) == s.(st := StoreRuns.Next(s.st, step))
  {
    hide StoreRuns.Next;
  }

  /** The start fails every operation that was running, one record after the other. */
  lemma {:induction false} FailsRunning(s: Member, ids: set<string>, x: string, op: Operation)
    requires Returned(s, ids, x, op)
    ensures MayLose(s)
    decreases ids
  {
    if ids == {} {
      hide MayLose;
      Boots(s, op);
    } else {
      hide MayLose, Can, Ownership.Next, NewBootstrap, Marks, StoreRuns.Inv;
      var id :| id in ids;
      if id in s.st.cells && Runs(s.st.cells[id].now) {
        FailsOne(s, ids, x, op, id);
        FailsRunning(Ownership.Next(s, Other(FailAtStart(id, Done))), ids - {id}, x, op);
        Then(s, Other(FailAtStart(id, Done)));
      } else {
        FailsRunning(s, ids - {id}, x, op);
      }
    }
  }

  /** An image of the record of x that a power loss may leave and that is not restored. */
  lemma UnrestoredImage(st: Store, x: string) returns (o: Option<Operation>)
    requires StoreRuns.Inv(st) && x in st.cells && st.cells[x].begun && !Restored(st, x) && !SaysCompleted(st.cells[x])
    ensures (o == st.cells[x].now || o in st.cells[x].behind) && o.Some? && o.value.restored.None? && o.value.state != Completed
  {
    var c := st.cells[x];
    assert CellInv(st.up, x, c);
    if c.now.value.restored.None? {
      o := c.now;
    } else {
      o :| o in c.behind && o.Some? && o.value.restored.None?;
    }
  }

  function LeftWith(st: Store, x: string, o: Option<Operation>): map<string, Option<Operation>> {
    map id | id in st.cells :: if id == x then o else st.cells[id].now
  }

  lemma CrashWith(st: Store, x: string, o: Option<Operation>)
    requires StoreRuns.Inv(st) && x in st.cells && (o == st.cells[x].now || o in st.cells[x].behind)
    ensures Enabled(st, Crash(LeftWith(st, x, o), true))
    ensures var t := StoreRuns.Next(st, Crash(LeftWith(st, x, o), true));
            && StoreRuns.Inv(t) && !t.up && t.cells.Keys == st.cells.Keys && t.cells[x] == Crashed(st.cells[x], o, true)
            && (forall id :: id in t.cells ==> t.cells[id].born == st.cells[id].born)
  {
    assert LeftWith(st, x, o).Keys == st.cells.Keys;
    CrashKept(st, LeftWith(st, x, o), true);
  }

  lemma CrashEffect(s: Member, left: map<string, Option<Operation>>, x: string)
    requires Enabled(s.st, Crash(left, true)) && s.dir.Some? && Some(x) in s.dir.value.behind
    ensures Can(s, Restart(left, true, Some(x)))
    ensures Ownership.Next(s, Restart(left, true, Some(x))) ==
            Member(s.db, StoreRuns.Next(s.st, Crash(left, true)), Some(s.dir.value.(marker := Some(x), behind := {})), s.tomb, None, {}, Booting, false)
  {
    hide Enabled, StoreRuns.Next;
  }

  /** A power loss leaves o of the record of x, and puts its marker back. */
  lemma PowerReturns(s: Member, x: string, o: Option<Operation>, op: Operation)
    requires StoreRuns.Inv(s.st) && s.dir.Some? && s.dir.value.started && Some(x) in s.dir.value.behind && x in s.st.cells
    requires (o == s.st.cells[x].now || o in s.st.cells[x].behind) && o.Some? && o.value.restored.None? && o.value.state != Completed
    requires NewBootstrap(s, op)
    ensures var crash := Restart(LeftWith(s.st, x, o), true, Some(x));
            Can(s, crash) && Returned(Ownership.Next(s, crash), s.st.cells.Keys, x, op)
  {
    hide StoreRuns.Inv, StoreRuns.Next, Enabled, NewBootstrap, LeftWith, Can, Ownership.Next;
    CrashWith(s.st, x, o);
    CrashEffect(s, LeftWith(s.st, x, o), x);
    var t := Ownership.Next(s, Restart(LeftWith(s.st, x, o), true, Some(x)));
    assert forall i :: Names(t.dir.value, i) ==> Names(s.dir.value, i);
    NewCarried(s, t, op);
  }

  lemma PowerLost(s: Member, x: string, op: Operation)
    requires StoreRuns.Inv(s.st) && s.dir.Some? && s.dir.value.started && Some(x) in s.dir.value.behind && x in s.st.cells
    requires s.st.cells[x].begun && !Restored(s.st, x) && !SaysCompleted(s.st.cells[x]) && NewBootstrap(s, op)
    ensures MayLose(s)
  {
    hide MayLose, Can, Ownership.Next, NewBootstrap, StoreRuns.Inv, Restored, SaysCompleted, Returned, LeftWith;
    var o := UnrestoredImage(s.st, x);
    PowerReturns(s, x, o, op);
    var crash := Restart(LeftWith(s.st, x, o), true, Some(x));
    FailsRunning(Ownership.Next(s, crash), s.st.cells.Keys, x, op);
    Then(s, crash);
  }

  /** A start changes nothing but that the data was started. */
  lemma StartEffect(s: Member, act: Act)
    requires Can(s, act) && Starts(s, act) && s.dir.Some?
    ensures var t := Ownership.Next(s, act); t.st == s.st && t.db == s.db && t.tomb == s.tomb && t.dir == Some(s.dir.value.(started := true))
  {
  }

  lemma ExposedLoses(s: Member, act: Act, op: Operation)
    requires Ownership.Inv(s) && NameInv(s) && Can(s, act) && Starts(s, act) && Exposed(s) && NewBootstrap(s, op)
    ensures MayLose(Ownership.Next(s, act))
  {
    hide MayLose, PcInv, TombInv, EndsInv, TailsInv, PhaseInv, WorkerInv, WorkerNames, Can, Ownership.Next, Starts, StoreRuns.Inv, Restored, SaysCompleted;
    var x :| Some(x) in s.dir.value.behind && x in s.st.cells && !Restored(s.st, x);
    assert Names(s.dir.value, x);
    assert Known(s, x) && Mine(s, x);
    StartEffect(s, act);
    hide NewBootstrap;
    var t := Ownership.Next(s, act);
    NewCarried(s, t, op);
    PowerLost(t, x, op);
  }

  /** In every run: some run goes on from a start to the removal of the data it started if and only if the start came
      over an unsynced removal of the marker of an operation that is not on record as restored. The operation op is
      any bootstrap that may be asked for afterwards. */
  lemma StartLosesDataIff(run: seq<Member>, n: nat, act: Act, op: Operation)
    requires Ownership.IsRun(run) && n < |run| && Can(run[n], act) && Starts(run[n], act) && NewBootstrap(run[n], op)
    ensures MayLose(Ownership.Next(run[n], act)) <==> Exposed(run[n])
  {
    hide Ownership.Inv, NameInv, Can, Ownership.Next, MayLose, Exposed, NewBootstrap, Starts;
    Ownership.RunInv(run, n);
    RunNames(run, n);
    if Exposed(run[n]) {
      ExposedLoses(run[n], act, op);
    } else {
      StepKept(run[n], act);
      NothingLost(Ownership.Next(run[n], act));
    }
  }
}
