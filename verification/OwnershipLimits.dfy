/** Why a start must not come over an unsynced removal of a marker: a run of the
    code, with one failed directory sync and one power loss, after which the next
    HA bootstrap moves started data aside to remove it. */
module OwnershipLimits {
  import opened Operations
  import opened StoreRuns
  import opened Ownership

  const A := Operation("op-00000000000000000000000000000000", HABootstrap, "a1", "h", "db", Pending, "", None, None, "")
  const B := Operation("op-00000000000000000000000000000001", HABootstrap, "a2", "h", "db", Pending, "", None, None, "")
  const NoArtifact := Artifact("", "", "")

  ghost predicate Leads(s: Member, t: Member) {
    exists act :: Can(s, act) && t == Ownership.Next(s, act)
  }

  function Cells(state: State, hold: Hold): map<string, Cell> {
    map[A.id := Cell(A, true, Some(A.(state := state, reason := if state.Failed? then "failed" else "")), {}, hold)]
  }

  /** The member while A works: at pc, with its directory and record as they are then. */
  function Working(pc: Pc, state: State, dir: Option<Dir>): Member {
    Member("db", Store(true, Cells(state, Owned)), dir, None, Some(Worker(A.id, pc)), {}, Serving, false)
  }

  function Idle(up: bool, hold: Hold, state: State, dir: Dir, phase: Phase): Member {
    Member("db", Store(up, Cells(state, hold)), Some(dir), None, None, {}, phase, false)
  }

  const Made := Dir(None, {}, By(A.id), false)
  const Marked := Dir(Some(A.id), {}, By(A.id), false)
  const Cleared := Dir(None, {Some(A.id)}, By(A.id), false)      // unlinked, the sync failed
  const Started := Dir(None, {Some(A.id)}, By(A.id), true)
  const Returned := Dir(Some(A.id), {}, By(A.id), true)          // after the power loss

  function Second(pc: Pc): Member {
    Member("db", Store(true, Cells(Failed, Free)[B.id := Cell(B, true, Some(B), {}, Owned)]), Some(Returned), None,
           Some(Worker(B.id, pc)), {}, Serving, false)
  }

  lemma Works(s: Member, w: Write, flag: bool, t: Member)
    requires CanWork(s) && t == Worked(s, w, flag, NoArtifact)
    ensures Leads(s, t)
  {
    assert Can(s, Work(w, flag, NoArtifact));
  }

  function Fresh(up: bool, phase: Phase): Member {
    Init("db").(st := Store(up, map[]), phase := phase)
  }

  lemma Boots()
    ensures Leads(Init("db"), Fresh(true, Resuming)) && Leads(Fresh(true, Resuming), Fresh(true, Serving))
  {
    assert Can(Init("db"), Ready);
    assert Can(Fresh(true, Resuming), Serve);
  }

  lemma AdmitsA()
    ensures Leads(Fresh(true, Serving), Working(Begin, Pending, None))
  {
    assert Can(Fresh(true, Serving), Admit(A));
  }

  lemma Creates()
    ensures Leads(Working(Begin, Pending, None), Working(Reclaim, Pending, None))
    ensures Leads(Working(Reclaim, Pending, None), Working(LookUp, Pending, None))
    ensures Leads(Working(LookUp, Pending, None), Working(RecordCreating, Pending, None))
    ensures Leads(Working(RecordCreating, Pending, None), Working(MakeDir, Creating, None))
    ensures Leads(Working(MakeDir, Creating, None), Working(Mark, Creating, Some(Made)))
  {
    Works(Working(Begin, Pending, None), Done, true, Working(Reclaim, Pending, None));
    Works(Working(Reclaim, Pending, None), Done, true, Working(LookUp, Pending, None));
    Works(Working(LookUp, Pending, None), Done, false, Working(RecordCreating, Pending, None));
    Works(Working(RecordCreating, Pending, None), Done, true, Working(MakeDir, Creating, None));
    Works(Working(MakeDir, Creating, None), Done, true, Working(Mark, Creating, Some(Made)));
  }

  lemma FailsToClear()
    ensures Leads(Working(Mark, Creating, Some(Made)), Working(Createdb, Creating, Some(Marked)))
    ensures Leads(Working(Createdb, Creating, Some(Marked)), Working(ClearMark, Creating, Some(Marked)))
    ensures Leads(Working(ClearMark, Creating, Some(Marked)), Working(Fail, Creating, Some(Cleared)))
  {
    Works(Working(Mark, Creating, Some(Made)), Done, true, Working(Createdb, Creating, Some(Marked)));
    Works(Working(Createdb, Creating, Some(Marked)), Done, true, Working(ClearMark, Creating, Some(Marked)));
    assert {} + {Some(A.id)} == {Some(A.id)};
    assert MarkerWritten(Marked, None, InPlace) == Cleared;
    Works(Working(ClearMark, Creating, Some(Marked)), InPlace, true, Working(Fail, Creating, Some(Cleared)));
  }

  const Ending := Idle(true, EndKept(EndFailed("failed")), Creating, Cleared, Serving)
  const Ended := Idle(true, Free, Failed, Cleared, Serving)

  lemma RecordsFailure()
    ensures Leads(Working(Fail, Creating, Some(Cleared)), Ending) && Leads(Ending, Ended)
  {
    Works(Working(Fail, Creating, Some(Cleared)), Done, true, Ending);
    assert Can(Ending, Other(WriteEnd(A.id, Done)));
  }

  const Left := map[A.id := Some(A.(state := Failed, reason := "failed"))]

  lemma Restarts()
    ensures Leads(Ended, Idle(false, Free, Failed, Cleared, Booting))
  {
    assert Can(Ended, Restart(Left, false, None));
    assert Ownership.Next(Ended, Restart(Left, false, None)).st.cells == Cells(Failed, Free);
  }

  lemma StartsData()
    ensures Leads(Idle(false, Free, Failed, Cleared, Booting), Idle(false, Free, Failed, Started, Booting))
  {
    assert Can(Idle(false, Free, Failed, Cleared, Booting), Entrypoint);
  }

  lemma LosesPower()
    ensures Leads(Idle(false, Free, Failed, Started, Booting), Idle(false, Free, Failed, Returned, Booting))
  {
    var s := Idle(false, Free, Failed, Started, Booting);
    assert Can(s, Restart(Left, true, Some(A.id)));
    assert Ownership.Next(s, Restart(Left, true, Some(A.id))).st.cells == Cells(Failed, Free);
  }

  lemma BootsAgain()
    ensures Leads(Idle(false, Free, Failed, Returned, Booting), Idle(true, Free, Failed, Returned, Resuming))
    ensures Leads(Idle(true, Free, Failed, Returned, Resuming), Idle(true, Free, Failed, Returned, Serving))
  {
    assert Can(Idle(false, Free, Failed, Returned, Booting), Ready);
    assert Can(Idle(true, Free, Failed, Returned, Resuming), Serve);
  }

  lemma AdmitsB()
    ensures Leads(Idle(true, Free, Failed, Returned, Serving), Second(Begin))
  {
    assert A.id[34] != B.id[34];
    assert Can(Idle(true, Free, Failed, Returned, Serving), Admit(B));
  }

  lemma Condemns()
    ensures Leads(Second(Begin), Second(Reclaim))
    ensures Leads(Second(Reclaim), Second(Unregister))
    ensures Leads(Second(Unregister), Second(MoveAside))
  {
    assert A.id[34] != B.id[34];
    Works(Second(Begin), Done, true, Second(Reclaim));
    Works(Second(Reclaim), Done, true, Second(Unregister));
    Works(Second(Unregister), Done, true, Second(MoveAside));
  }

  ghost predicate StepAt(run: seq<Member>, i: int) {
    0 < i < |run| ==> Leads(run[i - 1], run[i])
  }

  /** A run of the code leads from s to t. */
  ghost predicate Reaches(s: Member, t: Member) {
    exists run: seq<Member> :: |run| > 0 && run[0] == s && run[|run| - 1] == t && forall i {:trigger StepAt(run, i)} :: StepAt(run, i)
  }

  lemma Then(s: Member, t: Member, u: Member)
    requires Reaches(s, t) && Leads(t, u)
    ensures Reaches(s, u)
  {
    hide Leads;
    var run :| |run| > 0 && run[0] == s && run[|run| - 1] == t && forall i {:trigger StepAt(run, i)} :: StepAt(run, i);
    var longer := run + [u];
    forall i: int ensures StepAt(longer, i) {
      assert StepAt(run, i);
    }
    assert longer[0] == s && longer[|longer| - 1] == u;
  }

  lemma Chain(s: Member, t0: Member, t1: Member, t2: Member, t3: Member)
    requires Reaches(s, t0) && Leads(t0, t1) && Leads(t1, t2) && Leads(t2, t3)
    ensures Reaches(s, t3)
  {
    hide Reaches, Leads;
    Then(s, t0, t1);
    Then(s, t1, t2);
    Then(s, t2, t3);
  }

  lemma FirstAttempt()
    ensures Reaches(Init("db"), Ended)
  {
    hide Leads, Reaches, Working, Fresh;
    var s := Init("db");
    assert Reaches(s, s) by { Still(s); }
    Boots();
    AdmitsA();
    Chain(s, s, Fresh(true, Resuming), Fresh(true, Serving), Working(Begin, Pending, None));
    Creates();
    Chain(s, Working(Begin, Pending, None), Working(Reclaim, Pending, None), Working(LookUp, Pending, None), Working(RecordCreating, Pending, None));
    Then(s, Working(RecordCreating, Pending, None), Working(MakeDir, Creating, None));
    Then(s, Working(MakeDir, Creating, None), Working(Mark, Creating, Some(Made)));
    FailsToClear();
    Chain(s, Working(Mark, Creating, Some(Made)), Working(Createdb, Creating, Some(Marked)), Working(ClearMark, Creating, Some(Marked)), Working(Fail, Creating, Some(Cleared)));
    RecordsFailure();
    Then(s, Working(Fail, Creating, Some(Cleared)), Ending);
    Then(s, Ending, Ended);
  }

  lemma Still(s: Member)
    ensures Reaches(s, s)
  {
    var run := [s];
    assert forall i {:trigger StepAt(run, i)} :: StepAt(run, i);
  }

  /** From the first start of a member a run leads to where the next step moves started data aside. */
  lemma StartedDataCondemned()
    ensures Reaches(Init("db"), Second(MoveAside))
    ensures CanWork(Second(MoveAside)) && Second(MoveAside).dir.value.started
    ensures RemovesDir(Second(MoveAside), Work(Done, true, NoArtifact))
  {
    hide Leads, Reaches, Idle, Cells;
    var s := Init("db");
    FirstAttempt();
    Restarts();
    StartsData();
    LosesPower();
    Chain(s, Ended, Idle(false, Free, Failed, Cleared, Booting), Idle(false, Free, Failed, Started, Booting), Idle(false, Free, Failed, Returned, Booting));
    BootsAgain();
    AdmitsB();
    Chain(s, Idle(false, Free, Failed, Returned, Booting), Idle(true, Free, Failed, Returned, Resuming), Idle(true, Free, Failed, Returned, Serving), Second(Begin));
    Condemns();
    Chain(s, Second(Begin), Second(Reclaim), Second(Unregister), Second(MoveAside));
  }
}
