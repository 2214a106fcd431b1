/** The database root under power losses that undo directories: one that was made, renamed
    or removed since the root was synced may be there or not.

    The member is that of Ownership, and every step is one of its steps. Beside it stands what
    a power loss may leave under the two names instead: of the database, and of what a reclaim
    moves aside. A directory that somebody else makes is synced, and a database is registered
    only after a sync of the root, so that nothing starts a directory before it. */
module Roots {
  import opened Operations
  import opened StoreRuns
  import opened Ownership
  import opened Exposure

  datatype Root = Root(m: Member, ago: set<Option<Dir>>, aside: set<Option<Dir>>)

  datatype Move =
    | Do(act: Act)
    | PowerLoss(left: map<string, Option<Operation>>, marker: Option<string>, dir: Option<Dir>, tomb: Option<Dir>)

  /** What a step leaves unsynced under the database's name. */
  function AgoAfter(r: Root, act: Act): set<Option<Dir>> {
    var d := r.m.dir;
    if act.Outsider? then {}
    else if !act.Work? || r.m.at.None? then r.ago
    else match r.m.at.value.pc
      case MakeDir => r.ago + {None}
      case MoveAside => r.ago + {d}
      case SyncAside => {}
      case Mark => if act.w.Done? && d.Some? then {} else r.ago
      case TakeOver => if act.w.Done? && d.Some? then {} else r.ago
      case Undo =>
        // The tree goes piece by piece, its marker first or last.
        if act.w.Done? && d.Some? then r.ago + {d, Some(d.value.(marker := None))} else r.ago
      case _ => r.ago
  }

  /** And where a reclaim moves directories. */
  function AsideAfter(r: Root, act: Act): set<Option<Dir>> {
    var d := r.m.tomb;
    if act.Outsider? then {}
    else if !act.Work? || r.m.at.None? then r.aside
    else match r.m.at.value.pc
      case MoveAside => r.aside + {d}
      case SyncAside => {}
      case Mark => if act.w.Done? && r.m.dir.Some? then {} else r.aside
      case TakeOver => if act.w.Done? && r.m.dir.Some? then {} else r.aside
      case DropTomb => if act.flag && d.Some? then r.aside + {d, Some(d.value.(marker := None))} else r.aside
      case Reclaim => if act.flag && d.Some? then r.aside + {d, Some(d.value.(marker := None))} else r.aside
      case _ => r.aside
  }

  /** The directory that a power loss leaves of one that was there. */
  predicate LeftOf(was: Option<Dir>, dir: Option<Dir>) {
    if was.None? then dir.None?
    else
      && dir.Some? && dir.value == Left(was.value, true, dir.value.marker)
      && (dir.value.marker == was.value.marker || dir.value.marker in was.value.behind)
  }

  predicate ImageNames(r: Root, x: string) {
    exists o :: o in r.ago && o.Some? && Names(o.value, x)
  }

  ghost predicate Can(r: Root, mv: Move) {
    match mv
    case Do(act) =>
      && Ownership.Can(r.m, act) && !(act.Restart? && act.power)
      && (act.Entrypoint? ==> r.ago == {})
      && (act.Work? && act.flag && At(r.m, LookUp) && r.m.dir.Some? ==> r.ago == {})
      && (act.Admit? ==> !ImageNames(r, act.op.id))
      && (act.Other? && act.step.Create? ==> !ImageNames(r, act.step.op.id))
    case PowerLoss(left, marker, dir, tomb) =>
      && Ownership.Can(r.m, Restart(left, true, marker))
      && (dir == Ownership.Next(r.m, Restart(left, true, marker)).dir || exists was :: was in r.ago && LeftOf(was, dir))
      && (tomb == r.m.tomb || tomb in r.aside)
  }

  ghost function Next(r: Root, mv: Move): Root
    requires Can(r, mv)
  {
    match mv
    case Do(act) => Root(Ownership.Next(r.m, act), AgoAfter(r, act), AsideAfter(r, act))
    case PowerLoss(left, marker, dir, tomb) =>
      Root(Ownership.Next(r.m, Restart(left, true, marker)).(dir := dir, tomb := tomb), {}, {})
  }

  ghost predicate Sheltered(r: Root, mv: Move) {
    mv.Do? ==> Ownership.Sheltered(r.m, mv.act)
  }

  // ---- What every step keeps

  /** A directory that was there: never started, and made and named by operations of this manager. */
  ghost predicate ImageOk(m: Member, d: Dir) {
    && d.maker.By? && !d.started
    && forall x :: Names(d, x) && x in m.st.cells ==> m.st.cells[x].begun && Mine(m, x)
  }

  /** A directory that is there before the root is synced: never started, and not marked by an operation on record as restored. */
  predicate Recent(m: Member) {
    m.dir.Some? ==>
      var d := m.dir.value;
      && d.maker.By? && !d.started
      && (d.marker.Some? && d.marker.value in m.st.cells ==>
            m.st.cells[d.marker.value].now.Some? && m.st.cells[d.marker.value].now.value.restored.None?)
  }

  /** Points at which a worker relies on a directory that survives a power loss. */
  predicate Steady(pc: Pc) {
    || pc.RecordAdopted? || pc.TakeOver? || pc.Fill? || pc.RunRestore? || pc.RecordRestored? || pc.Createdb? || pc.ClearMark?
    || pc.Observe? || pc.RecordStarting? || pc.Start? || pc.Complete?
  }

  predicate WorkerRoot(r: Root) {
    r.m.at.Some? && r.m.at.value.id in r.m.st.cells ==>
      && (Steady(r.m.at.value.pc) && r.m.dir.Some? ==> r.ago == {})
      && (Ownership.Kind(r.m, r.m.at.value.id).HABootstrap? && !MayBeNamed(r.m.at.value.pc) ==> !ImageNames(r, r.m.at.value.id))
  }

  ghost predicate ImagesInv(r: Root) {
    forall o :: o in r.ago && o.Some? ==> ImageOk(r.m, o.value)
  }

  ghost predicate AsideInv(r: Root) {
    forall o :: o in r.aside && o.Some? ==> Aside(r.m.st, o.value)
  }

  ghost predicate Inv(r: Root) {
    && Ownership.Inv(r.m) && NameInv(r.m)
    && ImagesInv(r) && AsideInv(r) && (r.ago != {} ==> Recent(r.m)) && WorkerRoot(r)
  }

  // ---- The store

  /** No step completes an operation of this database that is not on record as restored, unless its worker does. */
  lemma MineStays(m: Member, act: Act, x: string)
    requires Ownership.Inv(m) && Ownership.Can(m, act) && x in m.st.cells && Mine(m, x)
    requires act.Work? && At(m, Complete) && x == m.at.value.id ==> Restored(m.st, x)
    ensures var t := Ownership.Next(m, act);
            x in t.st.cells && t.st.cells[x].begun == m.st.cells[x].begun && Mine(t, x)
  {
    hide Ownership.Inv, Mine;
    match act
    case Other(step) => OtherMine(m, step, x);
    case Admit(op) => AdmitMine(m, op, x);
    case Work(w, flag, artifact) => WorkMine(m, w, flag, artifact, x);
    case Restart(left, power, marker) => RestartMine(m, left, power, marker, x);
    case Ready => ReadyMine(m, x);
    case _ => SameMine(m, act, x);
  }

  lemma SameMine(m: Member, act: Act, x: string)
    requires Ownership.Can(m, act) && x in m.st.cells && Mine(m, x)
    requires !act.Other? && !act.Admit? && !act.Work? && !act.Restart? && !act.Ready?
    ensures Ownership.Next(m, act).st == m.st && Mine(Ownership.Next(m, act), x)
  {
    hide Restored, SaysCompleted;
  }

  lemma OtherMine(m: Member, step: Step, x: string)
    requires Ownership.Inv(m) && Ownership.Can(m, Other(step)) && x in m.st.cells && Mine(m, x)
    ensures var t := Ownership.Next(m, Other(step));
            x in t.st.cells && t.st.cells[x].begun == m.st.cells[x].begun && Mine(t, x)
  {
    hide DirInv, TombInv, EndsInv, TailsInv, PhaseInv, WorkerInv, Mine, Restored, SaysCompleted, Enabled, StoreRuns.Next;
    StepCarries(m.st, step);
    OtherSays(m, step, x);
    MineCarried(m, Ownership.Next(m, Other(step)), x);
  }

  lemma AdmitMine(m: Member, op: Operation, x: string)
    requires Ownership.Inv(m) && Ownership.Can(m, Admit(op)) && x in m.st.cells && Mine(m, x)
    ensures var t := Ownership.Next(m, Admit(op));
            x in t.st.cells && t.st.cells[x].begun == m.st.cells[x].begun && Mine(t, x)
  {
    hide DirInv, TombInv, EndsInv, TailsInv, PhaseInv, WorkerInv, Mine, Restored, SaysCompleted;
    StepCarries(m.st, Create(op, Done, false));
    MineCarried(m, Ownership.Next(m, Admit(op)), x);
  }

  lemma RestartMine(m: Member, left: map<string, Option<Operation>>, power: bool, marker: Option<string>, x: string)
    requires Ownership.Inv(m) && Ownership.Can(m, Restart(left, power, marker)) && x in m.st.cells && Mine(m, x)
    ensures var t := Ownership.Next(m, Restart(left, power, marker));
            x in t.st.cells && t.st.cells[x].begun == m.st.cells[x].begun && Mine(t, x)
  {
    hide DirInv, TombInv, EndsInv, TailsInv, PhaseInv, WorkerInv, Mine, Restored, SaysCompleted;
    StepCarries(m.st, Crash(left, power));
    CrashSays(m.st.cells[x], left[x], power);
    MineCarried(m, Ownership.Next(m, Restart(left, power, marker)), x);
  }

  lemma ReadyMine(m: Member, x: string)
    requires Ownership.Inv(m) && Ownership.Can(m, Ready) && x in m.st.cells && Mine(m, x)
    ensures var t := Ownership.Next(m, Ready);
            x in t.st.cells && t.st.cells[x].begun == m.st.cells[x].begun && Mine(t, x)
  {
    hide DirInv, TombInv, EndsInv, TailsInv, PhaseInv, WorkerInv, Mine, Restored, SaysCompleted;
    StepCarries(m.st, Up);
    MineCarried(m, Ownership.Next(m, Ready), x);
  }

  /** The worker's record is altered. */
  lemma RecordedMine(m: Member, change: Change, w: Write, next: Pc, x: string)
    requires Ownership.Inv(m) && AtWork(m) && Progress(change) && x in m.st.cells && Mine(m, x)
    ensures var t := Recorded(m, change, w, next);
            x in t.st.cells && t.st.cells[x].begun == m.st.cells[x].begun && Mine(t, x)
  {
    hide DirInv, TombInv, EndsInv, TailsInv, PhaseInv, WorkerInv, Mine, Restored, SaysCompleted;
    var t, id := Recorded(m, change, w, next), m.at.value.id;
    StepCarries(m.st, Alter(id, change, w));
    assert CellInv(m.st.up, id, m.st.cells[id]);
    LocalSays(m.st.up, id, m.st.cells[id], Alter(id, change, w));
    MineCarried(m, t, x);
  }

  lemma SettlingMine(m: Member, end: End, x: string)
    requires Ownership.Inv(m) && AtWork(m) && x in m.st.cells && Mine(m, x)
    requires end.EndCompleted? && x == m.at.value.id ==> Restored(m.st, x)
    ensures var t := Settling(m, end);
            x in t.st.cells && t.st.cells[x].begun == m.st.cells[x].begun && Mine(t, x) && t.db == m.db
  {
    hide DirInv, TombInv, EndsInv, TailsInv, PhaseInv, WorkerInv;
    var t, id := Settling(m, end), m.at.value.id;
    StepCarries(m.st, Keep(id, end));
    assert CellInv(m.st.up, id, m.st.cells[id]);
    if x != id || end.EndFailed? {
      if x == id {
        LocalSays(m.st.up, id, m.st.cells[id], Keep(id, end));
      }
      MineCarried(m, t, x);
    }
  }

  lemma WorkMine(m: Member, w: Write, flag: bool, artifact: Artifact, x: string)
    requires Ownership.Inv(m) && CanWork(m) && x in m.st.cells && Mine(m, x)
    requires At(m, Complete) && x == m.at.value.id ==> Restored(m.st, x)
    ensures var t := Worked(m, w, flag, artifact);
            x in t.st.cells && t.st.cells[x].begun == m.st.cells[x].begun && Mine(t, x)
  {
    if !WritesRecord(m.at.value.pc) {
      DirWorkMine(m, w, flag, artifact, x);
    } else if At(m, Complete) {
      CompleteMine(m, w, flag, artifact, x);
    } else if At(m, Fail) {
      SettlingMine(m, EndFailed("failed"), x);
      FailWorked(m, w, flag, artifact);
    } else {
      RecordWorkMine(m, w, flag, artifact, x);
    }
  }

  lemma DirWorkMine(m: Member, w: Write, flag: bool, artifact: Artifact, x: string)
    requires CanWork(m) && !WritesRecord(m.at.value.pc) && x in m.st.cells && Mine(m, x)
    ensures Worked(m, w, flag, artifact).st == m.st && Mine(Worked(m, w, flag, artifact), x)
  {
    hide Restored, SaysCompleted, Adoptable, LeftComplete, Condemned;
  }

  lemma RecordWorkMine(m: Member, w: Write, flag: bool, artifact: Artifact, x: string)
    requires Ownership.Inv(m) && CanWork(m) && WritesRecord(m.at.value.pc) && !At(m, Complete) && !At(m, Fail)
    requires x in m.st.cells && Mine(m, x)
    ensures var t := Worked(m, w, flag, artifact);
            x in t.st.cells && t.st.cells[x].begun == m.st.cells[x].begun && Mine(t, x)
  {
    hide Ownership.Inv, Mine, Recorded;
    if At(m, Begin) || At(m, RecordStarting) {
      BeginMine(m, w, flag, artifact, x);
    } else {
      var (change, next) := match m.at.value.pc
        case Prepare => (SetState(Restoring), MakeDir)
        case RecordCreating => (SetState(Creating), MakeDir)
        case RecordAdopted(a) => (SetRestored(a), TakeOver)
        case _ => (SetRestored(artifact), RecordStarting);
      RecordedMine(m, change, w, next, x);
    }
  }

  lemma BeginMine(m: Member, w: Write, flag: bool, artifact: Artifact, x: string)
    requires Ownership.Inv(m) && CanWork(m) && (At(m, Begin) || At(m, RecordStarting)) && x in m.st.cells && Mine(m, x)
    ensures var t := Worked(m, w, flag, artifact);
            x in t.st.cells && t.st.cells[x].begun == m.st.cells[x].begun && Mine(t, x)
  {
    hide Ownership.Inv, Recorded, Restored, SaysCompleted;
    if At(m, Begin) && Ownership.Kind(m, m.at.value.id).Restore? {
      RecordedMine(m, SetState(Downloading), w, Adopt, x);
    } else if At(m, RecordStarting) && !flag {
      RecordedMine(m, SetState(Starting), w, Start, x);
    }
  }

  lemma CompleteMine(m: Member, w: Write, flag: bool, artifact: Artifact, x: string)
    requires Ownership.Inv(m) && CanWork(m) && At(m, Complete) && x in m.st.cells && Mine(m, x)
    requires x == m.at.value.id ==> Restored(m.st, x)
    ensures var t := Worked(m, w, flag, artifact);
            x in t.st.cells && t.st.cells[x].begun == m.st.cells[x].begun && Mine(t, x)
  {
    InSight(m);
    CompletesRestored(m);
    hide Ownership.Inv, Restored, Worked, Sight, Settling, Ownership.Next, Ownership.Can, SaysCompleted, TailInv;
    var end := Finished(m, artifact);
    SettlingKept(m, end);
    SettlingMine(m, end, x);
    CompleteWorked(m, w, flag, artifact);
    if flag {
      OtherMine(Settling(m, end), WriteEnd(m.at.value.id, w), x);
    }
  }

  // ---- The images

  /** The images of a step that adds none stay what they are. */
  lemma ImageStays(r: Root, act: Act, d: Dir)
    requires Inv(r) && Can(r, Do(act)) && Some(d) in r.ago
    ensures ImageOk(Ownership.Next(r.m, act), d)
  {
    hide Mine, NameInv, AsideInv, Recent, WorkerRoot;
    var t := Ownership.Next(r.m, act);
    assert ImageOk(r.m, d);
    forall x | Names(d, x) && x in t.st.cells ensures t.st.cells[x].begun && Mine(t, x) {
      assert ImageNames(r, x);
      NoNewNames(r, act, x);
      CompletesUnimaged(r, act, x);
      hide Ownership.Inv, Ownership.Can, Ownership.Next;
      MineStays(r.m, act, x);
    }
  }

  /** A record that an image names is not new. */
  lemma NoNewNames(r: Root, act: Act, x: string)
    requires Ownership.Inv(r.m) && Can(r, Do(act)) && ImageNames(r, x) && x in Ownership.Next(r.m, act).st.cells
    ensures x in r.m.st.cells
  {
    hide ImageNames, DirInv, TombInv, EndsInv, TailsInv, PhaseInv, WorkerInv, StoreRuns.Inv, Dead, Worked;
    if act.Work? {
      WorkFollows(r.m, act.w, act.flag, act.artifact);
    }
  }

  /** The store after a step on a known operation: the same operations, and what was dead still is. */
  ghost predicate Follows(a: Store, b: Store) {
    && b.cells.Keys == a.cells.Keys && StoreRuns.Inv(b) && (forall x :: Dead(a, x) ==> Dead(b, x))
    && forall x :: x in a.cells ==> b.cells[x].born == a.cells[x].born
  }

  lemma LocalFollows(st: Store, step: Step)
    requires StoreRuns.Inv(st) && Enabled(st, step) && Local(step)
    ensures Follows(st, StoreRuns.Next(st, step))
  {
    hide Dead, StoreRuns.Inv;
    StepCarries(st, step);
    assert StoreRuns.Next(st, step).cells.Keys == st.cells.Keys;
  }

  lemma WorkFollows(m: Member, w: Write, flag: bool, artifact: Artifact)
    requires StoreRuns.Inv(m.st) && CanWork(m)
    ensures Follows(m.st, Worked(m, w, flag, artifact).st)
  {
    hide Dead, StoreRuns.Inv;
    if !WritesRecord(m.at.value.pc) {
      DirWorkStore(m, w, flag, artifact);
    } else if At(m, Complete) || At(m, Fail) {
      EndFollows(m, w, flag, artifact);
    } else {
      RecordFollows(m, w, flag, artifact);
    }
  }

  lemma DirWorkStore(m: Member, w: Write, flag: bool, artifact: Artifact)
    requires CanWork(m) && !WritesRecord(m.at.value.pc)
    ensures Worked(m, w, flag, artifact).st == m.st && Worked(m, w, flag, artifact).db == m.db
  {
    hide Adoptable, LeftComplete, Condemned;
  }

  lemma RecordFollows(m: Member, w: Write, flag: bool, artifact: Artifact)
    requires StoreRuns.Inv(m.st) && CanWork(m) && WritesRecord(m.at.value.pc) && !At(m, Complete) && !At(m, Fail)
    ensures Follows(m.st, Worked(m, w, flag, artifact).st)
  {
    hide Follows, StoreRuns.Inv, StoreRuns.Next;
    StoreStays(m.st);
    match m.at.value.pc
    case Begin => LocalFollows(m.st, Alter(m.at.value.id, SetState(Downloading), w));
    case RecordAdopted(a) => LocalFollows(m.st, Alter(m.at.value.id, SetRestored(a), w));
    case Prepare => LocalFollows(m.st, Alter(m.at.value.id, SetState(Restoring), w));
    case RecordRestored => LocalFollows(m.st, Alter(m.at.value.id, SetRestored(artifact), w));
    case RecordCreating => LocalFollows(m.st, Alter(m.at.value.id, SetState(Creating), w));
    case RecordStarting => LocalFollows(m.st, Alter(m.at.value.id, SetState(Starting), w));
    case _ =>
  }

  lemma StoreStays(st: Store)
    requires StoreRuns.Inv(st)
    ensures Follows(st, st)
  {
  }

  lemma FollowsOn(a: Store, b: Store, c: Store)
    requires Follows(a, b) && Follows(b, c)
    ensures Follows(a, c)
  {
    hide Dead, StoreRuns.Inv;
  }

  lemma EndFollows(m: Member, w: Write, flag: bool, artifact: Artifact)
    requires StoreRuns.Inv(m.st) && CanWork(m) && (At(m, Complete) || At(m, Fail))
    ensures Follows(m.st, Worked(m, w, flag, artifact).st)
  {
    hide Follows, StoreRuns.Inv;
    var id, end := m.at.value.id, if At(m, Complete) then Finished(m, artifact) else EndFailed("failed");
    LocalFollows(m.st, Keep(id, end));
    if At(m, Complete) && flag {
      var kept := StoreRuns.Next(m.st, Keep(id, end));
      assert StoreRuns.Inv(kept) by {
        InvKept(m.st, Keep(id, end));
      }
      LocalFollows(kept, WriteEnd(id, w));
      FollowsOn(m.st, kept, StoreRuns.Next(kept, WriteEnd(id, w)));
    }
  }

  /** A worker that completes is on record as restored, or no image names it. */
  lemma CompletesUnimaged(r: Root, act: Act, x: string)
    requires Inv(r) && Can(r, Do(act)) && ImageNames(r, x)
    ensures act.Work? && At(r.m, Complete) && x == r.m.at.value.id ==> Restored(r.m.st, x)
  {
    if act.Work? && At(r.m, Complete) {
      InSight(r.m);
      CompletesRestored(r.m);
    }
  }

  /** What a step adds to the images was never started, and is named by operations of this manager. */
  lemma ImageAdded(r: Root, act: Act, d: Dir)
    requires Inv(r) && Can(r, Do(act)) && Some(d) in AgoAfter(r, act) && Some(d) !in r.ago
    ensures ImageOk(Ownership.Next(r.m, act), d)
  {
    hide Mine, ImagesInv, AsideInv, Recent, WorkerRoot, Worked, Ownership.Inv, NameInv;
    UnsyncedDir(r, act, d);
    DirIsImage(r.m);
    var t := Ownership.Next(r.m, act);
    DirWorkStore(r.m, act.w, act.flag, act.artifact);
    forall x | Names(d, x) && x in t.st.cells ensures t.st.cells[x].begun && Mine(t, x) {
      assert Names(r.m.dir.value, x);
      SameStoreMine(r.m, t, x);
    }
  }

  /** It is the directory that was there, whole or with its marker gone. */
  lemma UnsyncedDir(r: Root, act: Act, d: Dir)
    requires Ownership.Inv(r.m) && Can(r, Do(act)) && Some(d) in AgoAfter(r, act) && Some(d) !in r.ago
    ensures act.Work? && CanWork(r.m) && !WritesRecord(r.m.at.value.pc)
    ensures r.m.dir.Some? && d == r.m.dir.value.(marker := d.marker) && (d.marker.None? || d == r.m.dir.value)
    ensures d.maker.By? && !d.started
  {
    hide StoreRuns.Inv, DirInv, TombInv, EndsInv, TailsInv, PhaseInv;
    InSight(r.m);
  }

  lemma SameStoreMine(m: Member, t: Member, x: string)
    requires x in m.st.cells && Mine(m, x) && t.st == m.st && t.db == m.db
    ensures Mine(t, x)
  {
  }

  /** What the directory names is known as images ask. */
  lemma DirIsImage(m: Member)
    requires Ownership.Inv(m) && NameInv(m)
    ensures m.dir.Some? ==> forall x :: Names(m.dir.value, x) && x in m.st.cells ==> m.st.cells[x].begun && Mine(m, x)
  {
    hide Mine, StoreRuns.Inv, PcInv, TailInv;
    assert m.dir.Some? ==> forall x :: Names(m.dir.value, x) && x in m.st.cells ==> Known(m, x);
  }

  lemma ImagesKept(r: Root, act: Act)
    requires Inv(r) && Can(r, Do(act))
    ensures ImagesInv(Next(r, Do(act)))
  {
    hide Inv, Can, ImageOk, Ownership.Next, AgoAfter, AsideAfter;
    var t := Next(r, Do(act));
    forall o | o in t.ago && o.Some? ensures ImageOk(t.m, o.value) {
      if o in r.ago {
        ImageStays(r, act, o.value);
      } else {
        ImageAdded(r, act, o.value);
      }
    }
  }

  /** Every step of the member carries its store on. */
  lemma StoreCarried(m: Member, act: Act)
    requires Ownership.Inv(m) && Ownership.Can(m, act)
    ensures forall x :: Dead(m.st, x) ==> Dead(Ownership.Next(m, act).st, x)
  {
    hide Dead, Worked, DirInv, TombInv, EndsInv, TailsInv, PhaseInv, WorkerInv, StoreRuns.Inv;
    match act
    case Other(step) => StepCarries(m.st, step);
    case Admit(op) => StepCarries(m.st, Create(op, Done, false));
    case Work(w, flag, artifact) => WorkFollows(m, w, flag, artifact);
    case Restart(left, power, marker) => StepCarries(m.st, Crash(left, power));
    case Ready => StepCarries(m.st, Up);
    case _ =>
  }

  /** What a step adds there was there. */
  lemma AsideAdded(r: Root, act: Act, o: Option<Dir>)
    requires o in AsideAfter(r, act) && o !in r.aside && o.Some? && TombInv(r.m)
    ensures Aside(r.m.st, o.value)
  {
    hide Dead;
  }

  lemma AsideKept(r: Root, act: Act)
    requires Inv(r) && Can(r, Do(act))
    ensures AsideInv(Next(r, Do(act)))
  {
    assert TombInv(r.m);
    hide Ownership.Inv, NameInv, ImagesInv, Recent, WorkerRoot, Dead, TombInv, Ownership.Can, Ownership.Next, AgoAfter, AsideAfter;
    var t := Next(r, Do(act));
    StoreCarried(r.m, act);
    forall o | o in t.aside && o.Some? ensures Aside(t.m.st, o.value) {
      if o !in r.aside {
        AsideAdded(r, act, o);
      }
    }
  }

  // ---- The directory that is there before the root is synced

  /** The record of x is there, and does not say restored. */
  predicate Unrestored(st: Store, x: string) {
    x in st.cells && st.cells[x].now.Some? && st.cells[x].now.value.restored.None?
  }

  lemma LocalUnrestored(up: bool, c: Cell, step: Step)
    requires Local(step) && CellEnabled(up, c, step) && c.now.Some? && c.now.value.restored.None?
    requires step.Alter? ==> !step.change.SetRestored?
    ensures CellNext(up, c, step).now.Some? && CellNext(up, c, step).now.value.restored.None?
  {
  }

  /** Only its own worker records an operation of this database as restored. */
  lemma OtherUnrestored(m: Member, step: Step, x: string)
    requires Ownership.Inv(m) && Ownership.Can(m, Other(step)) && Unrestored(m.st, x) && Mine(m, x)
    ensures Unrestored(StoreRuns.Next(m.st, step), x)
  {
    hide DirInv, TombInv, EndsInv, TailsInv, PhaseInv, PcInv, Restored, SaysCompleted, Admissible;
    if Local(step) && step.id == x {
      OtherLocal(m, step);
      LocalUnrestored(m.st.up, m.st.cells[x], step);
    }
  }

  /** Points at which a worker records data as restored. */
  predicate RecordsData(pc: Pc) {
    pc.RecordAdopted? || pc.RecordRestored?
  }

  lemma WorkUnrestored(m: Member, w: Write, flag: bool, artifact: Artifact, x: string)
    requires CanWork(m) && !RecordsData(m.at.value.pc) && Unrestored(m.st, x)
    ensures Unrestored(Worked(m, w, flag, artifact).st, x)
  {
    if !WritesRecord(m.at.value.pc) {
      hide Worked;
      DirWorkStore(m, w, flag, artifact);
    } else {
      RecordUnrestored(m, w, flag, artifact, x);
    }
  }

  lemma StoreUnrestored(st: Store, step: Step, x: string)
    requires Enabled(st, step) && Local(step) && Unrestored(st, x) && (step.Alter? ==> !step.change.SetRestored?)
    ensures Unrestored(StoreRuns.Next(st, step), x)
  {
    if step.id == x {
      LocalUnrestored(st.up, st.cells[x], step);
    }
  }

  lemma RecordUnrestored(m: Member, w: Write, flag: bool, artifact: Artifact, x: string)
    requires CanWork(m) && WritesRecord(m.at.value.pc) && !RecordsData(m.at.value.pc) && Unrestored(m.st, x)
    ensures Unrestored(Worked(m, w, flag, artifact).st, x)
  {
    if At(m, Complete) || At(m, Fail) {
      EndUnrestored(m, w, flag, artifact, x);
    } else {
      hide Unrestored, StoreRuns.Next;
      var state := match m.at.value.pc
        case Begin => Downloading
        case Prepare => Restoring
        case RecordCreating => Creating
        case _ => Starting;
      StoreUnrestored(m.st, Alter(m.at.value.id, SetState(state), w), x);
    }
  }

  lemma EndUnrestored(m: Member, w: Write, flag: bool, artifact: Artifact, x: string)
    requires CanWork(m) && (At(m, Complete) || At(m, Fail)) && Unrestored(m.st, x)
    ensures Unrestored(Worked(m, w, flag, artifact).st, x)
  {
    hide Unrestored;
    var id, end := m.at.value.id, if At(m, Complete) then Finished(m, artifact) else EndFailed("failed");
    StoreUnrestored(m.st, Keep(id, end), x);
    if At(m, Complete) && flag {
      StoreUnrestored(StoreRuns.Next(m.st, Keep(id, end)), WriteEnd(id, w), x);
    }
  }

  lemma StillUnrestored(m: Member, act: Act, x: string)
    requires Ownership.Inv(m) && Ownership.Can(m, act) && !(act.Restart? && act.power) && Unrestored(m.st, x) && Mine(m, x)
    requires act.Work? ==> !RecordsData(m.at.value.pc)
    ensures Unrestored(Ownership.Next(m, act).st, x)
  {
    hide Ownership.Inv, Mine, Worked;
    match act
    case Other(step) => OtherUnrestored(m, step, x);
    case Work(w, flag, artifact) => WorkUnrestored(m, w, flag, artifact, x);
    case _ =>
  }

  /** What a step may make of a directory before the root is synced: its marker stays or goes, or becomes that of a
      worker that has nothing on record as restored. */
  ghost predicate Unstarted(m: Member, t: Member) {
    t.dir.Some? ==>
      && t.dir.value.maker.By? && !t.dir.value.started
      && var mk := t.dir.value.marker;
         mk.None? || (m.dir.Some? && mk == m.dir.value.marker) || (m.at.Some? && mk == Some(m.at.value.id) && Unrestored(m.st, mk.value))
  }

  lemma WorkUnstarted(r: Root, w: Write, flag: bool, artifact: Artifact)
    requires Sight(r.m) && CanWork(r.m) && WorkerRoot(r) && (r.ago != {} ==> Recent(r.m))
    requires AgoAfter(r, Work(w, flag, artifact)) != {}
    ensures Unstarted(r.m, Worked(r.m, w, flag, artifact))
  {
    hide Adoptable, LeftComplete, Condemned, StoreRuns.Next, DirInv, TombInv, TailsInv, ImageNames;
  }

  lemma QuietUnstarted(r: Root, act: Act)
    requires Can(r, Do(act)) && !act.Work? && r.ago != {} && Recent(r.m) && AgoAfter(r, act) != {}
    ensures Unstarted(r.m, Ownership.Next(r.m, act))
  {
    hide Enabled, StoreRuns.Next, Ownership.Fresh, ImageNames;
  }

  /** A marker that is there names an operation of this database, and no worker that records data. */
  lemma MarkerOf(r: Root, act: Act)
    requires Inv(r) && Can(r, Do(act)) && r.ago != {} && r.m.dir.Some?
    ensures act.Work? ==> !RecordsData(r.m.at.value.pc)
    ensures r.m.dir.value.marker.Some? && r.m.dir.value.marker.value in r.m.st.cells ==>
              Unrestored(r.m.st, r.m.dir.value.marker.value) && Mine(r.m, r.m.dir.value.marker.value)
  {
    hide StoreRuns.Inv, DirInv, TombInv, EndsInv, TailsInv, PhaseInv, PcInv, Mine, ImagesInv, AsideInv;
    assert r.m.dir.value.marker.Some? && r.m.dir.value.marker.value in r.m.st.cells ==> Known(r.m, r.m.dir.value.marker.value);
  }

  lemma WorkerIsMine(m: Member)
    requires Ownership.Inv(m) && NameInv(m) && m.at.Some?
    ensures m.at.value.id in m.st.cells && Mine(m, m.at.value.id)
  {
    hide StoreRuns.Inv, DirInv, TombInv, EndsInv, TailsInv, PhaseInv, PcInv;
  }

  /** A marker that names nobody names nobody after the step. */
  lemma MarkerNotNew(r: Root, act: Act, x: string)
    requires Ownership.Inv(r.m) && Can(r, Do(act)) && r.m.dir.Some? && Names(r.m.dir.value, x) && x in Ownership.Next(r.m, act).st.cells
    ensures x in r.m.st.cells
  {
    hide ImageNames, DirInv, TombInv, EndsInv, TailsInv, PhaseInv, WorkerInv, StoreRuns.Inv, Dead, Worked;
    if act.Work? {
      WorkFollows(r.m, act.w, act.flag, act.artifact);
    }
  }

  lemma RecentKept(r: Root, act: Act)
    requires Inv(r) && Can(r, Do(act)) && AgoAfter(r, act) != {}
    ensures Recent(Ownership.Next(r.m, act))
  {
    var t := Ownership.Next(r.m, act);
    UnstartedStep(r, act);
    if t.dir.Some? && t.dir.value.marker.Some? && t.dir.value.marker.value in t.st.cells {
      MarkerUnrestored(r, act);
    }
  }

  lemma UnstartedStep(r: Root, act: Act)
    requires Inv(r) && Can(r, Do(act)) && AgoAfter(r, act) != {}
    ensures Unstarted(r.m, Ownership.Next(r.m, act))
  {
    hide Ownership.Inv, NameInv, ImagesInv, AsideInv, Worked, Sight, Recent, WorkerRoot, Unstarted;
    if act.Work? {
      InSight(r.m);
      WorkUnstarted(r, act.w, act.flag, act.artifact);
    } else {
      QuietUnstarted(r, act);
    }
  }

  lemma MarkerUnrestored(r: Root, act: Act)
    requires Inv(r) && Can(r, Do(act)) && AgoAfter(r, act) != {}
    requires var t := Ownership.Next(r.m, act);
             Unstarted(r.m, t) && t.dir.Some? && t.dir.value.marker.Some? && t.dir.value.marker.value in t.st.cells
    ensures Unrestored(Ownership.Next(r.m, act).st, Ownership.Next(r.m, act).dir.value.marker.value)
  {
    var x := Ownership.Next(r.m, act).dir.value.marker.value;
    hide Mine, ImagesInv, AsideInv, Ownership.Next;
    if r.m.dir.Some? && r.m.dir.value.marker == Some(x) {
      assert Names(r.m.dir.value, x);
      hide Ownership.Inv, NameInv, Ownership.Can;
      MarkerNotNew(r, act, x);
      MarkedBefore(r, act);
      MarkerOf(r, act);
      StillUnrestored(r.m, act, x);
    } else {
      WorkerIsMine(r.m);
      MarksUnrestored(r, act, x);
      hide Ownership.Inv, NameInv, Ownership.Can;
      StillUnrestored(r.m, act, x);
    }
  }

  /** A directory that stays marked through an unsynced root was there before it was. */
  lemma MarkedBefore(r: Root, act: Act)
    requires Ownership.Can(r.m, act) && AgoAfter(r, act) != {} && r.m.dir.Some? && Ownership.Next(r.m, act).dir.Some?
    ensures r.ago != {}
  {
  }

  /** A marker that a step sets is the worker's, at Mark or TakeOver. */
  lemma MarksUnrestored(r: Root, act: Act, x: string)
    requires Ownership.Can(r.m, act) && Ownership.Next(r.m, act).dir.Some? && Ownership.Next(r.m, act).dir.value.marker == Some(x)
    requires !(r.m.dir.Some? && r.m.dir.value.marker == Some(x)) && r.m.at.Some? && x == r.m.at.value.id
    requires !(act.Restart? && act.power)
    ensures act.Work? ==> !RecordsData(r.m.at.value.pc)
  {
  }

  // ---- The worker

  ghost predicate SteadyAfter(r: Root, w: Write, flag: bool, artifact: Artifact)
    requires CanWork(r.m)
  {
    var t := Worked(r.m, w, flag, artifact);
    t.at.Some? && Steady(t.at.value.pc) && t.dir.Some? ==> AgoAfter(r, Work(w, flag, artifact)) == {}
  }

  lemma WorkerSteady(r: Root, w: Write, flag: bool, artifact: Artifact)
    requires Sight(r.m) && CanWork(r.m) && WorkerRoot(r) && (r.ago != {} ==> Recent(r.m))
    requires At(r.m, LookUp) && flag && r.m.dir.Some? ==> r.ago == {}
    ensures SteadyAfter(r, w, flag, artifact)
  {
    hide Sight, SteadyAfter, WorkerRoot, Recent, Worked;
    if WritesRecord(r.m.at.value.pc) {
      RecordSteady(r, w, flag, artifact);
    } else if At(r.m, Adopt) {
      AdoptSteady(r, w, flag, artifact);
    } else {
      DirSteady(r, w, flag, artifact);
    }
  }

  lemma RecordSteady(r: Root, w: Write, flag: bool, artifact: Artifact)
    requires CanWork(r.m) && WorkerRoot(r) && WritesRecord(r.m.at.value.pc)
    ensures SteadyAfter(r, w, flag, artifact)
  {
    hide StoreRuns.Next, ImageNames;
  }

  lemma AdoptSteady(r: Root, w: Write, flag: bool, artifact: Artifact)
    requires CanWork(r.m) && (r.ago != {} ==> Recent(r.m)) && At(r.m, Adopt)
    ensures SteadyAfter(r, w, flag, artifact)
  {
    hide StoreRuns.Next, ImageNames;
  }

  lemma DirSteady(r: Root, w: Write, flag: bool, artifact: Artifact)
    requires Sight(r.m) && CanWork(r.m) && WorkerRoot(r) && !WritesRecord(r.m.at.value.pc) && !At(r.m, Adopt)
    requires At(r.m, LookUp) && flag && r.m.dir.Some? ==> r.ago == {}
    ensures SteadyAfter(r, w, flag, artifact)
  {
    hide Sight, SteadyAfter, WorkerRoot, Worked;
    if At(r.m, Mark) || At(r.m, TakeOver) {
      MarkSteady(r, w, flag, artifact);
    } else {
      PassSteady(r, w, flag, artifact);
    }
  }

  lemma MarkSteady(r: Root, w: Write, flag: bool, artifact: Artifact)
    requires CanWork(r.m) && WorkerRoot(r) && (At(r.m, Mark) || At(r.m, TakeOver))
    ensures SteadyAfter(r, w, flag, artifact)
  {
    hide StoreRuns.Next, ImageNames;
  }

  lemma PassSteady(r: Root, w: Write, flag: bool, artifact: Artifact)
    requires CanWork(r.m) && WorkerRoot(r) && !WritesRecord(r.m.at.value.pc) && !At(r.m, Adopt) && !At(r.m, Mark) && !At(r.m, TakeOver)
    requires At(r.m, LookUp) && flag && r.m.dir.Some? ==> r.ago == {}
    ensures SteadyAfter(r, w, flag, artifact)
  {
    hide Sight, SteadyAfter, WorkerRoot, Worked;
    if Steady(r.m.at.value.pc) {
      StaysSteady(r, w, flag, artifact);
    } else {
      NotSteadyYet(r, w, flag, artifact);
    }
  }

  lemma StaysSteady(r: Root, w: Write, flag: bool, artifact: Artifact)
    requires CanWork(r.m) && WorkerRoot(r) && !WritesRecord(r.m.at.value.pc) && Steady(r.m.at.value.pc) && !At(r.m, TakeOver)
    ensures SteadyAfter(r, w, flag, artifact)
  {
    hide StoreRuns.Next, ImageNames, MarkerWritten;
  }

  lemma NotSteadyYet(r: Root, w: Write, flag: bool, artifact: Artifact)
    requires CanWork(r.m) && !WritesRecord(r.m.at.value.pc) && !Steady(r.m.at.value.pc) && !At(r.m, Adopt) && !At(r.m, Mark)
    requires At(r.m, LookUp) && flag && r.m.dir.Some? ==> r.ago == {}
    ensures SteadyAfter(r, w, flag, artifact)
  {
    hide LeftComplete, Condemned, StoreRuns.Next, MarkerWritten;
  }

  /** No image names a bootstrap that has no marker of its own in place. */
  lemma WorkerUnimaged(r: Root, w: Write, flag: bool, artifact: Artifact)
    requires Sight(r.m) && WorkerNames(r.m) && CanWork(r.m) && WorkerRoot(r) && Ownership.Kind(r.m, r.m.at.value.id).HABootstrap?
    requires Can(r, Do(Work(w, flag, artifact)))
    ensures var t := Next(r, Do(Work(w, flag, artifact))).m;
            t.at.Some? && !MayBeNamed(t.at.value.pc) ==> forall o :: o in AgoAfter(r, Work(w, flag, artifact)) && o.Some? ==> !Names(o.value, r.m.at.value.id)
  {
    hide Adoptable, LeftComplete, Condemned, StoreRuns.Next, DirInv, TombInv, TailsInv, SaysCompleted;
    assert !ImageNames(r, r.m.at.value.id) ==> forall o :: o in r.ago && o.Some? ==> !Names(o.value, r.m.at.value.id);
  }

  lemma WorkerWork(r: Root, w: Write, flag: bool, artifact: Artifact)
    requires Inv(r) && Can(r, Do(Work(w, flag, artifact)))
    ensures WorkerRoot(Next(r, Do(Work(w, flag, artifact))))
  {
    InSight(r.m);
    SameWorker(r.m, w, flag, artifact);
    hide Ownership.Inv, Sight, ImagesInv, AsideInv, Recent, Worked;
    WorkerSteady(r, w, flag, artifact);
    if Ownership.Kind(r.m, r.m.at.value.id).HABootstrap? {
      WorkerUnimaged(r, w, flag, artifact);
    }
  }

  lemma SameWorker(m: Member, w: Write, flag: bool, artifact: Artifact)
    requires StoreRuns.Inv(m.st) && CanWork(m)
    ensures var t := Worked(m, w, flag, artifact);
            t.at.Some? ==> t.at.value.id == m.at.value.id && t.at.value.id in t.st.cells && Ownership.Kind(t, t.at.value.id) == Ownership.Kind(m, t.at.value.id)
  {
    hide StoreRuns.Inv, Dead;
    WorkFollows(m, w, flag, artifact);
    WorkerStays(m, w, flag, artifact);
    hide Worked;
  }

  lemma WorkerStays(m: Member, w: Write, flag: bool, artifact: Artifact)
    requires CanWork(m)
    ensures var t := Worked(m, w, flag, artifact); t.at.Some? ==> t.at.value.id == m.at.value.id
  {
    hide Adoptable, LeftComplete, Condemned, StoreRuns.Next, MarkerWritten;
    if WritesRecord(m.at.value.pc) {
      RecordWorkerStays(m, w, flag, artifact);
    }
  }

  lemma RecordWorkerStays(m: Member, w: Write, flag: bool, artifact: Artifact)
    requires CanWork(m) && WritesRecord(m.at.value.pc)
    ensures var t := Worked(m, w, flag, artifact); t.at.Some? ==> t.at.value.id == m.at.value.id
  {
    hide StoreRuns.Next;
  }

  lemma WorkerQuiet(r: Root, act: Act)
    requires Inv(r) && Can(r, Do(act)) && !act.Work?
    ensures WorkerRoot(Next(r, Do(act)))
  {
    hide DirInv, TombInv, EndsInv, TailsInv, PcInv, NameInv, ImagesInv, AsideInv, Recent;
    if act.Other? {
      StepGrows(r.m.st, StoreRuns.Next(r.m.st, act.step));
    }
  }

  lemma DoKept(r: Root, act: Act)
    requires Inv(r) && Can(r, Do(act)) && Ownership.Sheltered(r.m, act)
    ensures Inv(Next(r, Do(act)))
  {
    hide Ownership.Inv, NameInv, ImagesInv, AsideInv, Recent, WorkerRoot, Ownership.Can, Ownership.Next, Ownership.Sheltered;
    StepKept(r.m, act);
    StepNames(r.m, act);
    ImagesKept(r, act);
    AsideKept(r, act);
    if AgoAfter(r, act) != {} {
      RecentKept(r, act);
    }
    if act.Work? {
      WorkerWork(r, act.w, act.flag, act.artifact);
    } else {
      WorkerQuiet(r, act);
    }
  }

  // ---- The power loss

  /** An image survives the loss of the store's unsynced records. */
  lemma ImageThroughCrash(r: Root, left: map<string, Option<Operation>>, marker: Option<string>, d: Dir)
    requires Ownership.Inv(r.m) && Ownership.Can(r.m, Restart(left, true, marker)) && ImageOk(r.m, d)
    ensures ImageOk(Ownership.Next(r.m, Restart(left, true, marker)), d)
  {
    hide Mine, Ownership.Inv;
    var t := Ownership.Next(r.m, Restart(left, true, marker));
    forall x | Names(d, x) && x in t.st.cells ensures t.st.cells[x].begun && Mine(t, x) {
      RestartMine(r.m, left, true, marker, x);
    }
  }

  /** A booting member is sound with any sound directory in place of its own. */
  lemma Swapped(m: Member, dir: Option<Dir>, tomb: Option<Dir>)
    requires Ownership.Inv(m) && m.at.None? && m.tails == {}
    requires dir == m.dir || dir.None? || ImageOk(m, dir.value)
    requires tomb == m.tomb || tomb.None? || Aside(m.st, tomb.value)
    requires dir == m.dir ==> NameInv(m)
    ensures Ownership.Inv(m.(dir := dir, tomb := tomb)) && NameInv(m.(dir := dir, tomb := tomb))
  {
    hide StoreRuns.Inv, Restored, SaysCompleted, Aside;
    var t := m.(dir := dir, tomb := tomb);
    forall id ensures !WorksHere(t, id) {
      assert !WorksHere(m, id);
    }
    forall x | x in t.st.cells ensures EndInv(t, x) {
      assert EndInv(m, x);
    }
    forall x | Known(t, x) ensures Mine(t, x) {
      assert dir == m.dir ==> Known(m, x);
      SameStoreMine(m, t, x);
    }
  }

  /** What is left of a sound image is sound. */
  lemma LeftOk(m: Member, was: Option<Dir>, dir: Option<Dir>)
    requires LeftOf(was, dir) && (was.Some? ==> ImageOk(m, was.value))
    ensures dir.Some? ==> ImageOk(m, dir.value)
  {
    hide Mine;
    if dir.Some? {
      assert forall x :: Names(dir.value, x) ==> Names(was.value, x);
    }
  }

  lemma AsideThroughCrash(r: Root, left: map<string, Option<Operation>>, marker: Option<string>, d: Dir)
    requires Ownership.Inv(r.m) && Ownership.Can(r.m, Restart(left, true, marker)) && Aside(r.m.st, d)
    ensures Aside(Ownership.Next(r.m, Restart(left, true, marker)).st, d)
  {
    hide Ownership.Inv, Ownership.Can, Ownership.Next, Dead;
    StoreCarried(r.m, Restart(left, true, marker));
  }

  lemma CrashRests(m: Member, left: map<string, Option<Operation>>, marker: Option<string>)
    requires Ownership.Can(m, Restart(left, true, marker))
    ensures var t := Ownership.Next(m, Restart(left, true, marker)); t.at.None? && t.tails == {} && t.tomb == m.tomb
  {
    hide Enabled, StoreRuns.Next;
  }

  lemma PowerLossKept(r: Root, mv: Move)
    requires Inv(r) && mv.PowerLoss? && Can(r, mv)
    ensures Inv(Next(r, mv))
  {
    hide Ownership.Inv, NameInv, ImageOk, Aside, Ownership.Can, Ownership.Next, Recent, LeftOf;
    var crash := Restart(mv.left, true, mv.marker);
    StepKept(r.m, crash);
    StepNames(r.m, crash);
    CrashRests(r.m, mv.left, mv.marker);
    var m := Ownership.Next(r.m, crash);
    if mv.dir != m.dir {
      var was :| was in r.ago && LeftOf(was, mv.dir);
      if was.Some? {
        ImageThroughCrash(r, mv.left, mv.marker, was.value);
      }
      LeftOk(m, was, mv.dir);
    }
    if mv.tomb != r.m.tomb && mv.tomb.Some? {
      AsideThroughCrash(r, mv.left, mv.marker, mv.tomb.value);
    }
    Swapped(m, mv.dir, mv.tomb);
  }

  lemma MoveKept(r: Root, mv: Move)
    requires Inv(r) && Can(r, mv) && Sheltered(r, mv)
    ensures Inv(Next(r, mv))
  {
    hide Inv;
    match mv
    case Do(act) => DoKept(r, act);
    case PowerLoss(_, _, _, _) => PowerLossKept(r, mv);
  }

  // ---- Runs

  ghost predicate Takes(r: Root, t: Root) {
    exists mv :: Can(r, mv) && Sheltered(r, mv) && t == Next(r, mv)
  }

  ghost predicate StepAt(run: seq<Root>, i: int) {
    0 < i < |run| ==> Takes(run[i - 1], run[i])
  }

  ghost predicate IsRun(run: seq<Root>) {
    |run| > 0 && run[0] == Root(Init(run[0].m.db), {}, {}) && forall i {:trigger StepAt(run, i)} :: StepAt(run, i)
  }

  lemma Taken(run: seq<Root>, n: nat) returns (mv: Move)
    requires IsRun(run) && 0 < n < |run|
    ensures Can(run[n - 1], mv) && Sheltered(run[n - 1], mv) && run[n] == Next(run[n - 1], mv)
  {
    hide Can, Next, Sheltered;
    assert StepAt(run, n);
    mv :| Can(run[n - 1], mv) && Sheltered(run[n - 1], mv) && run[n] == Next(run[n - 1], mv);
  }

  lemma {:induction false} RunInv(run: seq<Root>, n: nat)
    requires IsRun(run) && n < |run|
    ensures Inv(run[n])
  {
    if n > 0 {
      hide Inv, Can, Next, Sheltered;
      RunInv(run, n - 1);
      var mv := Taken(run, n);
      MoveKept(run[n - 1], mv);
    }
  }

  /** In every run, with a crash or a power loss between any two steps that may undo every directory made, renamed or
      removed since the root was synced: what a step removes was never started, is not on record as restored, and was
      made by an operation of this manager. */
  lemma RemovesOnlyDisposable(run: seq<Root>, n: nat, act: Act)
    requires IsRun(run) && n < |run| && Can(run[n], Do(act))
    ensures RemovesDir(run[n].m, act) ==> Disposable(run[n].m.st, run[n].m.dir.value)
    ensures RemovesTomb(run[n].m, act) ==> Disposable(run[n].m.st, run[n].m.tomb.value)
  {
    RunInv(run, n);
    hide Ownership.Inv, Ownership.Can, Disposable, NameInv;
    VictimsDisposable(run[n].m, act);
  }

  /** A power loss leaves the directory of started data, or of somebody else, where it is. */
  lemma PowerLossSpares(r: Root, mv: Move)
    requires Inv(r) && mv.PowerLoss? && Can(r, mv) && r.m.dir.Some? && (r.m.dir.value.started || r.m.dir.value.maker.Foreign?)
    ensures DirStays(r.m, Next(r, mv).m)
  {
    hide Ownership.Inv, NameInv, ImagesInv, AsideInv, WorkerRoot, Enabled, StoreRuns.Next;
    assert r.ago == {};
  }

  lemma MoveSpares(r: Root, mv: Move)
    requires Inv(r) && Can(r, mv) && r.m.dir.Some? && (r.m.dir.value.started || r.m.dir.value.maker.Foreign?)
    ensures DirStays(r.m, Next(r, mv).m)
  {
    if mv.Do? {
      hide Ownership.Inv, NameInv, ImagesInv, AsideInv, WorkerRoot, Ownership.Can, Ownership.Next, Recent;
      OnlyTheseRemove(r.m, mv.act);
      VictimsDisposable(r.m, mv.act);
    } else {
      hide Inv, Can, Next, DirStays;
      PowerLossSpares(r, mv);
    }
  }

  /** A directory whose data was started, or that somebody else made, stays for good through all of that. */
  lemma {:induction false} StartedDataStays(run: seq<Root>, m: nat, n: nat)
    requires IsRun(run) && m <= n < |run|
    requires run[m].m.dir.Some? && (run[m].m.dir.value.started || run[m].m.dir.value.maker.Foreign?)
    ensures DirStays(run[m].m, run[n].m)
  {
    if m < n {
      hide Inv, Can, Next, Sheltered, IsRun;
      StartedDataStays(run, m, n - 1);
      RunInv(run, n - 1);
      var mv := Taken(run, n);
      MoveSpares(run[n - 1], mv);
    }
  }

  // ---- A removal that a power loss undoes

  predicate MayCome(op: Operation) {
    op.kind.HABootstrap? && IsValidId(op.id) && op.state == Pending && op.restored.None?
  }

  const NoArtifact := Artifact("", "", "")

  function Idle(db: string, up: bool, phase: Phase): Root {
    Root(Init(db).(st := Store(up, map[]), phase := phase), {}, {})
  }

  function CellOf(op: Operation, state: State, hold: Hold): map<string, Cell> {
    map[op.id := Cell(op, true, Some(op.(state := state)), {}, hold)]
  }

  /** The bootstrap op works on its database. */
  function Bootstraps(op: Operation, pc: Pc, state: State, dir: Option<Dir>, ago: set<Option<Dir>>): Root {
    Root(Member(op.database, Store(true, CellOf(op, state, Owned)), dir, None, Some(Worker(op.id, pc)), {}, Serving, false), ago, {})
  }

  function Bare(op: Operation): Option<Dir> {
    Some(Dir(None, {}, By(op.id), false))
  }

  function PoweredOff(op: Operation): Root {
    Root(Member(op.database, Store(false, CellOf(op, Creating, Free)), Bare(op), None, None, {}, Booting, false), {}, {})
  }

  lemma Does(r: Root, act: Act, t: Root)
    requires Can(r, Do(act)) && Sheltered(r, Do(act)) && t == Next(r, Do(act))
    ensures Takes(r, t)
  {
    hide Can, Sheltered, Next;
  }

  lemma WorksOn(r: Root, w: Write, flag: bool, t: Root)
    requires CanWork(r.m) && !At(r.m, Start) && (flag && At(r.m, LookUp) && r.m.dir.Some? ==> r.ago == {})
    requires t == Root(Worked(r.m, w, flag, NoArtifact), AgoAfter(r, Work(w, flag, NoArtifact)), AsideAfter(r, Work(w, flag, NoArtifact)))
    ensures Takes(r, t)
  {
    hide Worked, AgoAfter, AsideAfter, CanWork, Exposed;
    Does(r, Work(w, flag, NoArtifact), t);
  }

  lemma Boots(op: Operation)
    requires MayCome(op)
    ensures Takes(Idle(op.database, false, Booting), Idle(op.database, true, Resuming))
    ensures Takes(Idle(op.database, true, Resuming), Idle(op.database, true, Serving))
    ensures Takes(Idle(op.database, true, Serving), Bootstraps(op, Begin, Pending, None, {}))
  {
    hide IsValidId;
    Does(Idle(op.database, false, Booting), Ready, Idle(op.database, true, Resuming));
    Does(Idle(op.database, true, Resuming), Serve, Idle(op.database, true, Serving));
    assert op.(state := Pending) == op;
    Does(Idle(op.database, true, Serving), Admit(op), Bootstraps(op, Begin, Pending, None, {}));
  }

  lemma LooksUp(op: Operation)
    requires MayCome(op)
    ensures Takes(Bootstraps(op, Begin, Pending, None, {}), Bootstraps(op, Reclaim, Pending, None, {}))
    ensures Takes(Bootstraps(op, Reclaim, Pending, None, {}), Bootstraps(op, LookUp, Pending, None, {}))
    ensures Takes(Bootstraps(op, LookUp, Pending, None, {}), Bootstraps(op, RecordCreating, Pending, None, {}))
  {
    hide IsValidId, Takes;
    WorksOn(Bootstraps(op, Begin, Pending, None, {}), Done, false, Bootstraps(op, Reclaim, Pending, None, {}));
    WorksOn(Bootstraps(op, Reclaim, Pending, None, {}), Done, false, Bootstraps(op, LookUp, Pending, None, {}));
    WorksOn(Bootstraps(op, LookUp, Pending, None, {}), Done, false, Bootstraps(op, RecordCreating, Pending, None, {}));
  }

  lemma Makes(op: Operation)
    requires MayCome(op)
    ensures Takes(Bootstraps(op, RecordCreating, Pending, None, {}), Bootstraps(op, MakeDir, Creating, None, {}))
    ensures Takes(Bootstraps(op, MakeDir, Creating, None, {}), Bootstraps(op, Mark, Creating, Bare(op), {None}))
  {
    hide IsValidId, Takes;
    WorksOn(Bootstraps(op, RecordCreating, Pending, None, {}), Done, false, Bootstraps(op, MakeDir, Creating, None, {}));
    WorksOn(Bootstraps(op, MakeDir, Creating, None, {}), Done, false, Bootstraps(op, Mark, Creating, Bare(op), {None}));
  }

  lemma Undoes(op: Operation)
    requires MayCome(op)
    ensures Takes(Bootstraps(op, Mark, Creating, Bare(op), {None}), Bootstraps(op, Undo, Creating, Bare(op), {None}))
    ensures Takes(Bootstraps(op, Undo, Creating, Bare(op), {None}), Bootstraps(op, Fail, Creating, None, {None, Bare(op)}))
  {
    hide IsValidId, Takes;
    WorksOn(Bootstraps(op, Mark, Creating, Bare(op), {None}), NoEffect, false, Bootstraps(op, Undo, Creating, Bare(op), {None}));
    assert {None} + {Bare(op), Some(Bare(op).value.(marker := None))} == {None, Bare(op)};
    WorksOn(Bootstraps(op, Undo, Creating, Bare(op), {None}), Done, false, Bootstraps(op, Fail, Creating, None, {None, Bare(op)}));
  }

  lemma Returns(op: Operation)
    requires MayCome(op)
    ensures Takes(Bootstraps(op, Fail, Creating, None, {None, Bare(op)}), PoweredOff(op))
  {
    hide IsValidId;
    var r := Bootstraps(op, Fail, Creating, None, {None, Bare(op)});
    var left := map[op.id := Some(op.(state := Creating))];
    var mv := PowerLoss(left, None, Bare(op), None);
    assert Enabled(r.m.st, Crash(left, true));
    assert Bare(op) in r.ago && LeftOf(Bare(op), Bare(op));
    assert Can(r, mv) && Sheltered(r, mv);
    assert Next(r, mv).m.st.cells == PoweredOff(op).m.st.cells;
  }

  lemma Extends(run: seq<Root>, t: Root)
    requires IsRun(run) && Takes(run[|run| - 1], t)
    ensures IsRun(run + [t])
  {
    hide Takes;
    var longer := run + [t];
    forall i: int ensures StepAt(longer, i) {
      assert StepAt(run, i);
    }
  }

  lemma Extends3(run: seq<Root>, r: Root, s: Root, t: Root)
    requires IsRun(run) && Takes(run[|run| - 1], r) && Takes(r, s) && Takes(s, t)
    ensures IsRun(run + [r] + [s] + [t])
  {
    hide IsRun, Takes;
    Extends(run, r);
    Extends(run + [r], s);
    Extends(run + [r] + [s], t);
  }

  lemma ComesToLookUp(op: Operation) returns (run: seq<Root>)
    requires MayCome(op)
    ensures IsRun(run) && |run| == 7 && run[6] == Bootstraps(op, RecordCreating, Pending, None, {})
  {
    var init := Idle(op.database, false, Booting);
    assert IsRun([init]);
    hide IsRun, Takes, MayCome, Bootstraps, Idle;
    Boots(op);
    LooksUp(op);
    Extends3([init], Idle(op.database, true, Resuming), Idle(op.database, true, Serving), Bootstraps(op, Begin, Pending, None, {}));
    run := [init] + [Idle(op.database, true, Resuming)] + [Idle(op.database, true, Serving)] + [Bootstraps(op, Begin, Pending, None, {})];
    Extends3(run, Bootstraps(op, Reclaim, Pending, None, {}), Bootstraps(op, LookUp, Pending, None, {}),
             Bootstraps(op, RecordCreating, Pending, None, {}));
    run := run + [Bootstraps(op, Reclaim, Pending, None, {})] + [Bootstraps(op, LookUp, Pending, None, {})]
               + [Bootstraps(op, RecordCreating, Pending, None, {})];
  }

  lemma ComesToUndo(op: Operation) returns (run: seq<Root>)
    requires MayCome(op)
    ensures IsRun(run) && |run| == 10 && run[7] == Bootstraps(op, MakeDir, Creating, None, {})
    ensures run[8] == Bootstraps(op, Mark, Creating, Bare(op), {None}) && run[9] == Bootstraps(op, Undo, Creating, Bare(op), {None})
  {
    hide IsRun, Takes, MayCome, Bootstraps, Bare;
    Makes(op);
    Undoes(op);
    run := ComesToLookUp(op);
    Extends3(run, Bootstraps(op, MakeDir, Creating, None, {}), Bootstraps(op, Mark, Creating, Bare(op), {None}),
             Bootstraps(op, Undo, Creating, Bare(op), {None}));
    run := run + [Bootstraps(op, MakeDir, Creating, None, {})] + [Bootstraps(op, Mark, Creating, Bare(op), {None})]
               + [Bootstraps(op, Undo, Creating, Bare(op), {None})];
  }

  /** For any bootstrap, a run in which it makes a directory, cannot mark it and removes it again, and a power loss
      brings it back. */
  lemma RemovedComesBack(op: Operation) returns (run: seq<Root>)
    requires MayCome(op)
    ensures IsRun(run) && |run| == 12
    ensures run[7].m.dir.None? && run[8].m.dir == Bare(op) && run[10].m.dir.None? && run[11].m.dir == Bare(op)
  {
    hide IsRun, Takes, MayCome;
    Undoes(op);
    Returns(op);
    run := ComesToUndo(op);
    Extends(run, Bootstraps(op, Fail, Creating, None, {None, Bare(op)}));
    run := run + [Bootstraps(op, Fail, Creating, None, {None, Bare(op)})];
    Extends(run, PoweredOff(op));
    run := run + [PoweredOff(op)];
  }
}
