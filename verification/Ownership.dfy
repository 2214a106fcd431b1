/** Who may remove, adopt or start a half-made database directory.

    The state is one database of one member: its directory, the operation store,
    and the workers of that database, each at one point of its code. A crash may
    come between any two steps. What databases.txt registers is left open: every
    answer of a lookup in it is covered. */
module Ownership {
  import opened Operations
  import opened StoreRuns

  datatype Maker = Foreign | By(id: string)

  /** `behind` holds what a power loss may put in place of the marker: the values
      an unsynced write or removal of it covers. `maker` and `started` are history:
      who made the directory, and whether its data was ever started. */
  datatype Dir = Dir(marker: Option<string>, behind: set<Option<string>>, maker: Maker, started: bool)

  /** What a worker does next. */
  datatype Pc =
    | Begin
    | Adopt | RecordAdopted(artifact: Artifact) | TakeOver
    | Reclaim | Unregister | MoveAside | SyncAside | DropTomb
    | Prepare | MakeDir | Mark | Fill | RunRestore | RecordRestored
    | RecordStarting | Start | Complete
    | LookUp | RecordCreating | Createdb | ClearMark | Observe
    | Undo | Fail

  datatype Phase = Booting | Resuming | Serving

  datatype Worker = Worker(id: string, pc: Pc)

  datatype Member = Member(
    db: string, st: Store, dir: Option<Dir>, tomb: Option<Dir>,
    at: Option<Worker>,        // the restore or HA bootstrap that works on the database
    tails: set<string>,        // completed restores that are still to clear the marker
    phase: Phase, resumed: bool)

  datatype Act =
    | Other(step: Step)                                    // the store, for others and by itself
    | Admit(op: Operation)                                 // a worker of this database begins
    | Work(w: Write, flag: bool, artifact: Artifact)
    | GiveUp
    | Tail(id: string, w: Write)
    | Restart(left: map<string, Option<Operation>>, power: bool, marker: Option<string>)  // a crash, and the next container
    | Entrypoint                                           // the image starts an unmarked database
    | Outsider(dir: Dir)                                   // somebody else makes the directory
    | Ready | ResumeStart | ResumeClear(w: Write) | Serve

  function Kind(s: Member, id: string): Operations.Kind
    requires id in s.st.cells
  {
    s.st.cells[id].born.kind
  }

  /** The record of operation x as Get answers it: read, its end written, none outstanding. */
  predicate Settled(st: Store, x: string) {
    x in st.cells && st.cells[x].now.Some? && (st.cells[x].hold.Free? || st.cells[x].hold.Owned?)
  }

  /** The marker names x, or may name it after a power loss. */
  predicate Names(d: Dir, x: string) {
    d.marker == Some(x) || Some(x) in d.behind
  }

  predicate MarkedBy(s: Member, x: string) {
    s.dir.Some? && s.dir.value.marker == Some(x)
  }

  function Owner(s: Member): string {
    if s.dir.Some? && s.dir.value.marker.Some? then s.dir.value.marker.value else ""
  }

  /** The condition of adoptRestored. */
  predicate Adoptable(s: Member, id: string)
    requires id in s.st.cells && s.st.cells[id].now.Some?
  {
    var x := Owner(s);
    && MarkedBy(s, x) && Settled(s.st, x)
    && var op := s.st.cells[x].now.value;
       op.kind == Restore && op.state == Failed && op.restored.Some? && op.hash == s.st.cells[id].now.value.hash
  }

  /** reclaimIncomplete removes only this. */
  predicate Condemned(s: Member) {
    var x := Owner(s);
    && MarkedBy(s, x) && Settled(s.st, x)
    && s.st.cells[x].now.value.state == Failed && s.st.cells[x].now.value.restored.None?
  }

  predicate LeftComplete(s: Member) {
    var x := Owner(s);
    MarkedBy(s, x) && Settled(s.st, x) && s.st.cells[x].now.value.state == Completed
  }

  /** Where a worker that is at pc goes on when the step succeeds. */
  function Onward(kind: Operations.Kind, pc: Pc): Pc {
    match pc
    case Begin => if kind.Restore? then Adopt else Reclaim
    case Adopt => Reclaim
    case RecordAdopted(_) => TakeOver
    case TakeOver => RecordStarting
    case Reclaim => if kind.Restore? then Prepare else LookUp
    case Unregister => MoveAside
    case MoveAside => SyncAside
    case SyncAside => DropTomb
    case DropTomb => if kind.Restore? then Prepare else LookUp
    case Prepare => MakeDir
    case MakeDir => Mark
    case Mark => if kind.Restore? then Fill else Createdb
    case Fill => RunRestore
    case RunRestore => RecordRestored
    case RecordRestored => RecordStarting
    case RecordStarting => Start
    case Start => Complete
    case LookUp => Observe
    case RecordCreating => MakeDir
    case Createdb => ClearMark
    case ClearMark => Observe
    case Observe => RecordStarting
    case Complete => Complete
    case Undo => Fail
    case Fail => Fail
  }

  /** Steps that end in failure without an effect of their own. */
  predicate MayGiveUp(pc: Pc) {
    !pc.Mark? && !pc.Fill? && !pc.RunRestore? && !pc.Undo? && !pc.Complete?
  }

  predicate AtWork(s: Member) {
    s.st.up && s.at.Some? && s.at.value.id in s.st.cells && s.st.cells[s.at.value.id].hold.Owned? && s.st.cells[s.at.value.id].now.Some?
  }

  predicate CanWork(s: Member) {
    && AtWork(s)
    && match s.at.value.pc
       case Adopt => true
       case Reclaim => s.tomb.Some? || s.dir.None? || s.dir.value.marker.None? || Condemned(s) || LeftComplete(s)
       case MoveAside => s.dir.Some?
       case DropTomb => s.tomb.Some?
       case Prepare => s.dir.None?
       case MakeDir => s.dir.None?
       case _ => true
  }

  function WorkAt(s: Member, pc: Pc): Member
    requires s.at.Some?
  {
    s.(at := Some(s.at.value.(pc := pc)))
  }

  /** The worker's record is written, and the worker goes on or fails. */
  function Recorded(s: Member, change: Change, w: Write, next: Pc): Member
    requires AtWork(s) && Progress(change)
  {
    WorkAt(s, if w.Done? then next else Fail).(st := StoreRuns.Next(s.st, Alter(s.at.value.id, change, w)))
  }

  /** A marker written or removed, whole or not at all; a failed sync leaves the change in place. */
  function Remarked(s: Member, marker: Option<string>, w: Write, done: Pc, failed: Pc): Member
    requires s.at.Some? && s.dir.Some?
  {
    WorkAt(s, if w.Done? then done else failed).(
      dir := Some(MarkerWritten(s.dir.value, marker, w)))
  }

  /** clearOwned; a marker that is not there is not synced away either. */
  function Cleared(d: Dir, w: Write): Dir {
    if d.marker.None? then d else MarkerWritten(d, None, w)
  }

  function MarkerWritten(d: Dir, marker: Option<string>, w: Write): Dir {
    match w
    case Done => d.(marker := marker, behind := {})
    case NoEffect => d
    case InPlace => d.(marker := marker, behind := d.behind + {d.marker})
  }

  function Worked(s: Member, w: Write, flag: bool, artifact: Artifact): Member
    requires CanWork(s)
  {
    var id, pc := s.at.value.id, s.at.value.pc;
    var kind := Kind(s, id);
    var next := Onward(kind, pc);
    match pc
    case Begin =>
      if kind.Restore? then Recorded(s, SetState(Downloading), w, next) else WorkAt(s, next)
    case Adopt =>
      if Adoptable(s, id) then WorkAt(s, RecordAdopted(s.st.cells[Owner(s)].now.value.restored.value))
      else WorkAt(s, next)
    case TakeOver =>
      if s.dir.Some? then Remarked(s, Some(id), w, next, Fail) else WorkAt(s, Fail)
    case Reclaim =>
      if s.tomb.Some? then
        // What an earlier reclaim moved aside goes first.
        if flag then WorkAt(s, Reclaim).(tomb := None) else WorkAt(s, Fail)
      else if s.dir.None? || s.dir.value.marker.None? then WorkAt(s, next)
      else if LeftComplete(s) then Remarked(s, None, w, next, Fail)
      else WorkAt(s, Unregister)
    case MoveAside => WorkAt(s, next).(tomb := s.dir, dir := None)
    case DropTomb =>
      if flag then WorkAt(s, next).(tomb := None) else WorkAt(s, Fail)
    case MakeDir => WorkAt(s, next).(dir := Some(Dir(None, {}, By(id), false)))
    case Mark => if s.dir.Some? then Remarked(s, Some(id), w, next, Undo) else WorkAt(s, Fail)
    case Fill => WorkAt(s, if flag then next else Undo)
    case RunRestore => WorkAt(s, if flag then next else Undo)
    case Createdb => WorkAt(s, if flag then next else if w.Done? then Undo else Fail)
    case ClearMark => if s.dir.Some? then Remarked(s, None, w, next, Fail) else WorkAt(s, Fail)
    case Undo =>
      // The tree is removed piece by piece: it may end before the marker is gone, or after.
      WorkAt(s, Fail).(dir :=
        if w.Done? || s.dir.None? then None else Some(MarkerWritten(s.dir.value, None, w)))
    case Start =>
      WorkAt(s, if flag then next else Fail).(dir := if s.dir.Some? then Some(s.dir.value.(started := true)) else None)
    case RecordStarting =>
      // A member whose heartbeat runs already is not started again.
      if flag then WorkAt(s, Complete) else Recorded(s, SetState(Starting), w, next)
    case LookUp => WorkAt(s, if flag then next else RecordCreating)
    case Complete =>
      var kept := StoreRuns.Next(s.st, Keep(id, EndCompleted(if kind.Restore? then Some(artifact) else None)));
      var st := if flag then StoreRuns.Next(kept, WriteEnd(id, w)) else kept;
      s.(st := st, at := None, tails := if kind.Restore? && flag && w.Done? then s.tails + {id} else s.tails)
    case Fail => s.(st := StoreRuns.Next(s.st, Keep(id, EndFailed("failed"))), at := None)
    case RecordAdopted(a) => Recorded(s, SetRestored(a), w, next)
    case Prepare => Recorded(s, SetState(Restoring), w, next)
    case RecordRestored => Recorded(s, SetRestored(artifact), w, next)
    case RecordCreating => Recorded(s, SetState(Creating), w, next)
    case Unregister => WorkAt(s, next)
    case SyncAside => WorkAt(s, next)
    case Observe => WorkAt(s, next)
  }

  ghost predicate Can(s: Member, act: Act) {
    match act
    case Other(step) =>
      && Enabled(s.st, step) && !step.Crash? && !step.Up?
      && (step.Create? ==> Fresh(s, step.op) && (step.op.database == s.db ==> step.op.kind.Backup? || !step.w.Done?))
      && (step.Alter? || step.Keep? ==> s.at.None? || step.id != s.at.value.id)
    case Admit(op) =>
      && s.phase.Serving? && Enabled(s.st, Create(op, Done, false)) && Fresh(s, op)
      && op.database == s.db && !op.kind.Backup?
    case Work(w, flag, artifact) => CanWork(s)
    case GiveUp => AtWork(s) && MayGiveUp(s.at.value.pc)
    case Tail(id, w) => id in s.tails
    case Restart(left, power, marker) =>
      && Enabled(s.st, Crash(left, power))
      && (s.dir.Some? ==> marker == s.dir.value.marker || (power && marker in s.dir.value.behind))
    case Entrypoint => s.phase.Booting? && s.dir.Some? && s.dir.value.marker.None?
    case Outsider(dir) =>
      && s.dir.None? && dir.maker.Foreign? && dir.behind == {}
      && (dir.marker.Some? ==> s.phase.Booting? && dir.marker.value !in s.st.cells)
    case Ready => s.phase.Booting? && Enabled(s.st, Up)
    case ResumeStart =>
      && s.phase.Resuming?
      && var x := Owner(s);
         && MarkedBy(s, x) && Settled(s.st, x)
         && var op := s.st.cells[x].now.value;
            op.kind == Restore && op.state == Completed && op.restored.Some? && op.database == s.db
    case ResumeClear(w) => s.phase.Resuming? && s.resumed && s.dir.Some?
    case Serve => s.phase.Resuming?
  }

  /** A generated identity is one that no record and no marker names. */
  predicate Fresh(s: Member, op: Operation) {
    && op.id !in s.st.cells
    && (s.dir.Some? ==> !Names(s.dir.value, op.id))
    && (s.tomb.Some? ==> !Names(s.tomb.value, op.id))
  }

  /** The directory a crash leaves. */
  function Left(d: Dir, power: bool, marker: Option<string>): Dir {
    d.(marker := marker, behind := if power then {} else d.behind)
  }

  function Started(dir: Dir): Dir {
    dir.(started := true)
  }

  ghost function Next(s: Member, act: Act): Member
    requires Can(s, act)
  {
    match act
    case Other(step) => s.(st := StoreRuns.Next(s.st, step))
    case Admit(op) =>
      s.(st := StoreRuns.Next(s.st, Create(op, Done, false)), at := Some(Worker(op.id, Begin)))
    case Work(w, flag, artifact) => Worked(s, w, flag, artifact)
    case GiveUp => WorkAt(s, Fail)
    case Tail(id, w) =>
      s.(tails := s.tails - {id},
         dir := if s.dir.None? then None else Some(Cleared(s.dir.value, w)))
    case Restart(left, power, marker) =>
      s.(st := StoreRuns.Next(s.st, Crash(left, power)), at := None, tails := {}, phase := Booting, resumed := false,
         dir := if s.dir.None? then None else Some(Left(s.dir.value, power, marker)))
    case Entrypoint => s.(dir := Some(Started(s.dir.value)))
    case Outsider(dir) => s.(dir := Some(dir))
    case Ready => s.(st := StoreRuns.Next(s.st, Up), phase := Resuming)
    case ResumeStart => s.(dir := Some(Started(s.dir.value)), resumed := true)
    case ResumeClear(w) =>
      s.(resumed := false, dir := Some(Cleared(s.dir.value, w)))
    case Serve => s.(phase := Serving, resumed := false)
  }

  // ---- What every step keeps

  /** What the record says, and what any power loss may make of it, has Restored set. */
  ghost predicate Restored(st: Store, x: string) {
    x in st.cells && RestoredCell(st.cells[x])
  }

  /** The worker of x is gone for good, and it never recorded its data as restored. */
  ghost predicate Dead(st: Store, x: string) {
    x in st.cells && DeadCell(st.cells[x])
  }

  ghost predicate RestoredCell(c: Cell) {
    && c.begun && c.now.Some? && c.now.value.restored.Some?
    && forall o :: o in c.behind && o.Some? ==> o.value.restored.Some?
  }

  predicate DeadCell(c: Cell) {
    c.begun && c.now.Some? && c.now.value.restored.None? && (c.hold.Free? || c.hold.Unread?)
  }

  lemma CellStep(up: bool, id: string, c: Cell, step: Step)
    requires CellInv(up, id, c) && Local(step) && CellEnabled(up, c, step)
    ensures RestoredCell(c) ==> RestoredCell(CellNext(up, c, step))
    ensures DeadCell(c) ==> DeadCell(CellNext(up, c, step))
  {
  }

  lemma CellCrash(up: bool, id: string, c: Cell, left: Option<Operation>, power: bool)
    requires CellInv(up, id, c) && (left == c.now || (power && left in c.behind))
    ensures RestoredCell(c) ==> RestoredCell(Crashed(c, left, power))
    ensures DeadCell(c) ==> DeadCell(Crashed(c, left, power))
  {
  }

  /** No step of the store takes back what was restored, or brings a dead operation to life. */
  lemma RecordStays(st: Store, step: Step, x: string)
    requires StoreRuns.Inv(st) && Enabled(st, step) && x in st.cells
    ensures Restored(st, x) ==> Restored(StoreRuns.Next(st, step), x)
    ensures Dead(st, x) ==> Dead(StoreRuns.Next(st, step), x)
  {
    hide RestoredCell, DeadCell, CellInv, Apart;
    if Local(step) && step.id == x {
      CellStep(st.up, x, st.cells[x], step);
    } else if step.Crash? {
      CellCrash(st.up, x, st.cells[x], step.left[x], step.power);
    }
  }

  /** What the directory relies on in the store only grows. */
  ghost predicate Carries(a: Store, b: Store) {
    && StoreRuns.Inv(b)
    && (forall x :: Restored(a, x) ==> Restored(b, x))
    && (forall x :: Dead(a, x) ==> Dead(b, x))
    && Grows(a, b)
  }

  lemma StepCarries(st: Store, step: Step)
    requires StoreRuns.Inv(st) && Enabled(st, step)
    ensures Carries(st, StoreRuns.Next(st, step))
  {
    InvKept(st, step);
    StepGrows(st, StoreRuns.Next(st, step));
    forall x | Restored(st, x) ensures Restored(StoreRuns.Next(st, step), x) {
      RecordStays(st, step, x);
    }
    forall x | Dead(st, x) ensures Dead(StoreRuns.Next(st, step), x) {
      RecordStays(st, step, x);
    }
  }

  predicate WorksHere(s: Member, id: string) {
    id in s.st.cells && s.st.cells[id].hold.Owned? && s.st.cells[id].born.database == s.db && !s.st.cells[id].born.kind.Backup?
  }

  /** Data started in a directory that names an operation is on record as restored by it. */
  ghost predicate Backed(st: Store, d: Dir) {
    forall x :: Names(d, x) && x in st.cells ==>
      d.maker.By? && st.cells[x].begun && (d.started ==> Restored(st, x))
  }

  ghost predicate DirInv(s: Member) {
    s.dir.Some? ==> Backed(s.st, s.dir.value)
  }

  ghost predicate Discarded(st: Store, d: Dir) {
    d.marker.Some? && Aside(st, d)
  }

  /** What may lie where a reclaim moves directories. */
  ghost predicate Aside(st: Store, d: Dir) {
    d.maker.By? && !d.started && (d.marker.Some? ==> Dead(st, d.marker.value))
  }

  ghost predicate TombInv(s: Member) {
    s.tomb.Some? ==> Aside(s.st, s.tomb.value)
  }

  predicate MadeBy(s: Member, id: string) {
    s.dir.Some? && s.dir.value.maker == By(id) && !s.dir.value.started
  }

  predicate Unmarked(s: Member) {
    s.dir.Some? ==> s.dir.value.marker.None?
  }

  predicate Own(s: Member, id: string) {
    s.dir.Some? && s.dir.value.marker == Some(id) && s.dir.value.behind == {} && s.dir.value.maker.By?
  }

  /** What is known of the directory while the worker of id is at pc. */
  ghost predicate PcInv(s: Member, id: string, pc: Pc)
    requires id in s.st.cells && s.st.cells[id].now.Some?
  {
    var unrestored := s.st.cells[id].now.value.restored.None?;
    var restores := Kind(s, id).Restore?;
    match pc
    case Begin => unrestored
    case Adopt => unrestored && restores
    case RecordAdopted(_) => s.dir.Some? && s.dir.value.maker.By? && restores && s.tails == {}
    case TakeOver => s.dir.Some? && s.dir.value.maker.By? && restores && Restored(s.st, id) && s.tails == {}
    case Reclaim => unrestored
    case Unregister => unrestored && s.dir.Some? && Discarded(s.st, s.dir.value) && s.tomb.None?
    case MoveAside => unrestored && s.dir.Some? && Discarded(s.st, s.dir.value) && s.tomb.None?
    case SyncAside => unrestored && s.tomb.Some? && Unmarked(s)
    case DropTomb => unrestored && s.tomb.Some? && Unmarked(s)
    case Prepare => unrestored && restores
    case MakeDir => unrestored
    case Mark => unrestored && s.dir == Some(Dir(None, {}, By(id), false)) && s.tails == {}
    case Fill => unrestored && MadeBy(s, id) && Own(s, id) && restores
    case RunRestore => unrestored && MadeBy(s, id) && Own(s, id) && restores
    case RecordRestored => unrestored && MadeBy(s, id) && Own(s, id) && restores
    case RecordStarting => if restores then Restored(s.st, id) && Own(s, id) else Unmarked(s)
    case Start => if restores then Restored(s.st, id) && Own(s, id) else Unmarked(s)
    case Complete => restores ==> Restored(s.st, id) && Own(s, id)
    case LookUp => Unmarked(s) && unrestored && !restores
    case RecordCreating => Unmarked(s) && unrestored && !restores
    case Createdb => unrestored && MadeBy(s, id) && Own(s, id) && !restores
    case ClearMark => unrestored && MadeBy(s, id) && Own(s, id) && !restores
    case Observe => Unmarked(s) && !restores
    case Undo => unrestored && MadeBy(s, id) && (forall x :: Names(s.dir.value, x) ==> x == id) && s.tails == {}
    case Fail => true
  }

  ghost predicate TailInv(s: Member, id: string) {
    && Restored(s.st, id) && s.st.cells[id].hold.Free? && s.st.cells[id].now.value.state == Completed
    && s.dir.Some? && (s.dir.value.marker.None? || MarkedBy(s, id))
  }

  ghost predicate SaysCompleted(c: Cell) {
    || (c.now.Some? && c.now.value.state == Completed)
    || (exists o :: o in c.behind && o.Some? && o.value.state == Completed)
    || (c.hold.EndKept? && c.hold.end.EndCompleted?)
  }

  /** A restore says it completed only when its data is on record as restored. */
  ghost predicate EndsInv(s: Member) {
    forall x :: x in s.st.cells ==> EndInv(s, x)
  }

  ghost predicate EndInv(s: Member, x: string)
    requires x in s.st.cells
  {
    s.st.cells[x].born.database == s.db && s.st.cells[x].born.kind.Restore? && SaysCompleted(s.st.cells[x]) ==> Restored(s.st, x)
  }

  ghost predicate WorkerInv(s: Member) {
    && (forall id :: WorksHere(s, id) ==> s.at.Some? && s.at.value.id == id)
    && (s.at.Some? ==> WorksHere(s, s.at.value.id) && s.st.cells[s.at.value.id].now.Some? && PcInv(s, s.at.value.id, s.at.value.pc))
  }

  ghost predicate TailsInv(s: Member) {
    forall id :: id in s.tails ==> TailInv(s, id)
  }

  ghost predicate PhaseInv(s: Member) {
    && (s.phase.Booting? <==> !s.st.up)
    && (!s.phase.Serving? ==> s.at.None? && s.tails == {})
  }

  ghost predicate Inv(s: Member) {
    StoreRuns.Inv(s.st) && PhaseInv(s) && DirInv(s) && TombInv(s) && EndsInv(s) && WorkerInv(s) && TailsInv(s)
  }

  lemma BackedKept(a: Store, b: Store, d: Dir)
    requires Backed(a, d) && Carries(a, b)
    requires forall x :: Names(d, x) && x in b.cells ==> x in a.cells
    ensures Backed(b, d)
  {
    forall x | Names(d, x) && x in b.cells
      ensures d.maker.By? && b.cells[x].begun && (d.started ==> Restored(b, x))
    {
      assert x in a.cells;
    }
  }

  lemma EndStep(up: bool, id: string, c: Cell, step: Step)
    requires CellInv(up, id, c) && Local(step) && CellEnabled(up, c, step) && !step.Alter? && !step.Keep?
    ensures !c.hold.Owned? && (up ==> !c.hold.Free?)
    ensures SaysCompleted(CellNext(up, c, step)) ==> SaysCompleted(c)
  {
  }

  /** A local step of the store on an operation that does not work on this database. */
  lemma OtherLocal(s: Member, step: Step)
    requires Inv(s) && Can(s, Other(step)) && Local(step)
    ensures s.at.Some? ==> step.id != s.at.value.id
    ensures step.id !in s.tails
    ensures !WorksHere(s, step.id)
    ensures s.st.cells[step.id].born.database == s.db && s.st.cells[step.id].born.kind.Restore? ==>
              (SaysCompleted(StoreRuns.Next(s.st, step).cells[step.id]) ==> SaysCompleted(s.st.cells[step.id]))
  {
    var c := s.st.cells[step.id];
    assert CellInv(s.st.up, step.id, c);
    if step.Alter? || step.Keep? {
      assert c.hold.Owned?;
    } else {
      EndStep(s.st.up, step.id, c, step);
    }
    assert step.id in s.tails ==> TailInv(s, step.id);
  }

  lemma PcCarried(s: Member, t: Member, id: string, pc: Pc)
    requires id in s.st.cells && s.st.cells[id].now.Some? && PcInv(s, id, pc)
    requires Carries(s.st, t.st) && t == s.(st := t.st) && t.st.cells[id] == s.st.cells[id]
    ensures PcInv(t, id, pc)
  {
  }

  lemma EndCarried(s: Member, t: Member, x: string)
    requires x in s.st.cells && EndInv(s, x) && Carries(s.st, t.st) && t.db == s.db
    requires x in t.st.cells && t.st.cells[x].born == s.st.cells[x].born
    requires SaysCompleted(t.st.cells[x]) ==> SaysCompleted(s.st.cells[x])
    ensures EndInv(t, x)
  {
  }

  /** A change of one cell, which no tail is waiting for, keeps all that is not about the worker. */
  lemma OthersCarried(s: Member, t: Member, i: string, c: Cell)
    requires Inv(s) && Carries(s.st, t.st) && t.dir == s.dir && t.tomb == s.tomb && t.tails == s.tails && t.db == s.db
    requires t.st.cells == s.st.cells[i := c]
    requires s.dir.Some? && i !in s.st.cells ==> !Names(s.dir.value, i)
    requires i !in s.tails && EndInv(t, i)
    ensures DirInv(t) && TombInv(t) && TailsInv(t) && EndsInv(t)
  {
    hide StoreRuns.Inv;
    if s.dir.Some? {
      BackedKept(s.st, t.st, s.dir.value);
    }
    forall id | id in t.tails ensures TailInv(t, id) {
      assert TailInv(s, id);
    }
    forall x | x in t.st.cells ensures EndInv(t, x) {
      if x != i {
        assert EndInv(s, x);
      }
    }
  }

  lemma WorkerCarried(s: Member, t: Member, i: string, c: Cell)
    requires WorkerInv(s) && Carries(s.st, t.st) && t == s.(st := t.st)
    requires t.st.cells == s.st.cells[i := c]
    requires !WorksHere(s, i) && !WorksHere(t, i)
    ensures WorkerInv(t)
  {
    forall id | WorksHere(t, id) ensures s.at.Some? && s.at.value.id == id {
      assert WorksHere(s, id);
    }
    if s.at.Some? {
      PcCarried(s, t, s.at.value.id, s.at.value.pc);
    }
  }

  lemma OtherLocalKept(s: Member, step: Step)
    requires Inv(s) && Can(s, Other(step)) && Local(step)
    ensures Inv(Next(s, Other(step)))
  {
    var t := Next(s, Other(step));
    StepCarries(s.st, step);
    OtherLocal(s, step);
    if s.st.cells[step.id].born.database == s.db && s.st.cells[step.id].born.kind.Restore? {
      EndCarried(s, t, step.id);
    }
    OthersCarried(s, t, step.id, t.st.cells[step.id]);
    WorkerCarried(s, t, step.id, t.st.cells[step.id]);
  }

  lemma CellAdded(s: Member, t: Member, i: string, c: Cell)
    requires Inv(s) && Carries(s.st, t.st) && t == s.(st := t.st) && t.st.up == s.st.up
    requires i !in s.st.cells && t.st.cells == s.st.cells[i := c] && !WorksHere(t, i)
    requires s.dir.Some? ==> !Names(s.dir.value, i)
    requires !SaysCompleted(c)
    ensures Inv(t)
  {
    hide StoreRuns.Inv;
    assert i in s.tails ==> TailInv(s, i);
    OthersCarried(s, t, i, c);
    WorkerCarried(s, t, i, c);
  }

  lemma NotCompletedYet(op: Operation, w: Write, removed: bool)
    requires op.state == Pending
    ensures !SaysCompleted(Created(op, w, removed))
  {
  }

  lemma OtherCreateKept(s: Member, step: Step)
    requires Inv(s) && Can(s, Other(step)) && step.Create?
    ensures Inv(Next(s, Other(step)))
  {
    var t := Next(s, Other(step));
    StepCarries(s.st, step);
    NotCompletedYet(step.op, step.w, step.removed);
    CellAdded(s, t, step.op.id, Created(step.op, step.w, step.removed));
  }

  // ---- The worker

  /** What a worker knows of the member when it takes a step. */
  ghost predicate Sight(s: Member) {
    && AtWork(s) && s.phase.Serving? && s.st.cells[s.at.value.id].begun
    && DirInv(s) && TombInv(s) && TailsInv(s)
    && PcInv(s, s.at.value.id, s.at.value.pc)
    && (MarkedBy(s, Owner(s)) && Settled(s.st, Owner(s)) && s.st.cells[Owner(s)].hold.Owned? ==> Runs(s.st.cells[Owner(s)].now))
  }

  /** A step of the worker that leaves the store as it is, and what it must show. */
  ghost predicate DirStep(s: Member, t: Member) {
    && t.st == s.st && t.db == s.db && t.phase == s.phase && t.tails == s.tails
    && s.at.Some? && t.at.Some? && t.at.value.id == s.at.value.id
    && DirInv(t) && TombInv(t)
    && t.at.value.id in t.st.cells && t.st.cells[t.at.value.id].now.Some? && PcInv(t, t.at.value.id, t.at.value.pc)
    && (t.tails != {} ==> t.dir.Some? && s.dir.Some? && (t.dir.value.marker == s.dir.value.marker || t.dir.value.marker.None?))
  }

  lemma InSight(s: Member)
    requires Inv(s) && AtWork(s)
    ensures Sight(s)
  {
    assert CellInv(s.st.up, s.at.value.id, s.st.cells[s.at.value.id]);
    if MarkedBy(s, Owner(s)) && Settled(s.st, Owner(s)) {
      assert CellInv(s.st.up, Owner(s), s.st.cells[Owner(s)]);
    }
  }

  lemma DirStepKept(s: Member, t: Member)
    requires Inv(s) && DirStep(s, t)
    ensures Inv(t)
  {
    hide StoreRuns.Inv;
    forall id | WorksHere(t, id) ensures t.at.value.id == id {
      assert WorksHere(s, id);
    }
    forall x | x in t.st.cells ensures EndInv(t, x) {
      assert EndInv(s, x);
    }
    forall id | id in t.tails ensures TailInv(t, id) {
      assert TailInv(s, id);
    }
  }

  lemma SomeTail(s: Member)
    requires TailsInv(s) && s.tails != {}
    ensures exists id :: TailInv(s, id)
  {
    var id :| id in s.tails;
    assert TailInv(s, id);
  }

  /** A step of the worker that writes its own record and leaves the directory as it is. */
  lemma RecordStepKept(s: Member, change: Change, w: Write, next: Pc)
    requires Inv(s) && AtWork(s) && Progress(change)
    requires w.Done? ==> PcInv(Recorded(s, change, w, next), s.at.value.id, next)
    ensures Inv(Recorded(s, change, w, next))
  {
    var id := s.at.value.id;
    assert id in s.tails ==> TailInv(s, id);
    StepCarries(s.st, Alter(id, change, w));
    RecordedEnd(s, change, w, next);
    RecordedWorker(s, change, w, next);
    hide StoreRuns.Inv, DirInv, TombInv, TailsInv, EndsInv, WorkerInv, EndInv, TailInv;
    OthersCarried(s, Recorded(s, change, w, next), id, CellNext(s.st.up, s.st.cells[id], Alter(id, change, w)));
  }

  lemma RecordedWorker(s: Member, change: Change, w: Write, next: Pc)
    requires WorkerInv(s) && AtWork(s) && Progress(change)
    requires w.Done? ==> PcInv(Recorded(s, change, w, next), s.at.value.id, next)
    ensures WorkerInv(Recorded(s, change, w, next))
  {
    var t := Recorded(s, change, w, next);
    forall x | WorksHere(t, x) ensures t.at.value.id == x {
      assert x in s.st.cells && WorksHere(s, x);
    }
  }

  lemma RecordedEnd(s: Member, change: Change, w: Write, next: Pc)
    requires Inv(s) && AtWork(s) && Progress(change)
    ensures EndInv(Recorded(s, change, w, next), s.at.value.id)
  {
    hide DirInv, TombInv, WorkerInv, TailsInv, PhaseInv;
    var t, id := Recorded(s, change, w, next), s.at.value.id;
    StepCarries(s.st, Alter(id, change, w));
    assert CellInv(s.st.up, id, s.st.cells[id]);
    assert EndInv(s, id);
    if Kind(s, id).Restore? {
      EndCarried(s, t, id);
    }
  }

  predicate At(s: Member, pc: Pc) {
    s.at.Some? && s.at.value.pc == pc
  }

  /** Steps that change nothing, or what is not part of the model. */
  lemma PlainStep(s: Member, w: Write, flag: bool, artifact: Artifact)
    requires Sight(s) && CanWork(s)
    requires At(s, LookUp) || At(s, Unregister) || At(s, SyncAside) || At(s, Observe)
    ensures DirStep(s, Worked(s, w, flag, artifact))
  {
  }

  lemma FillStep(s: Member, w: Write, flag: bool, artifact: Artifact)
    requires Sight(s) && CanWork(s) && (At(s, Fill) || At(s, RunRestore) || At(s, Createdb))
    ensures DirStep(s, Worked(s, w, flag, artifact))
  {
    if s.tails != {} {
      SomeTail(s);
    }
  }

  lemma AdoptStep(s: Member, w: Write, flag: bool, artifact: Artifact)
    requires Sight(s) && CanWork(s) && At(s, Adopt)
    ensures DirStep(s, Worked(s, w, flag, artifact))
  {
    if s.tails != {} {
      SomeTail(s);
    }
  }

  lemma TakeOverStep(s: Member, w: Write, flag: bool, artifact: Artifact)
    requires Sight(s) && CanWork(s) && At(s, TakeOver)
    ensures DirStep(s, Worked(s, w, flag, artifact))
  {
  }

  lemma ReclaimStep(s: Member, w: Write, flag: bool, artifact: Artifact)
    requires Sight(s) && CanWork(s) && At(s, Reclaim) && s.tomb.None?
    ensures DirStep(s, Worked(s, w, flag, artifact))
  {
    hide Sight, DirStep;
    if LeftComplete(s) || Owner(s) == "" {
      ReclaimClears(s, w, flag, artifact);
    } else {
      ReclaimCondemns(s, w, flag, artifact);
    }
  }

  /** What an operation that completed left is only unmarked, and what is unmarked is left alone. */
  lemma ReclaimClears(s: Member, w: Write, flag: bool, artifact: Artifact)
    requires Sight(s) && CanWork(s) && At(s, Reclaim) && s.tomb.None? && (LeftComplete(s) || Owner(s) == "")
    ensures DirStep(s, Worked(s, w, flag, artifact))
  {
  }

  lemma ReclaimCondemns(s: Member, w: Write, flag: bool, artifact: Artifact)
    requires Sight(s) && CanWork(s) && At(s, Reclaim) && s.tomb.None? && !LeftComplete(s) && Owner(s) != ""
    ensures DirStep(s, Worked(s, w, flag, artifact))
  {
  }

  lemma LeftoverStep(s: Member, w: Write, flag: bool, artifact: Artifact)
    requires Sight(s) && CanWork(s) && At(s, Reclaim) && s.tomb.Some?
    ensures DirStep(s, Worked(s, w, flag, artifact))
  {
  }

  lemma AsideStep(s: Member, w: Write, flag: bool, artifact: Artifact)
    requires Sight(s) && CanWork(s) && (At(s, MoveAside) || At(s, DropTomb))
    ensures DirStep(s, Worked(s, w, flag, artifact))
  {
    if s.tails != {} {
      SomeTail(s);
    }
  }

  lemma MakeDirStep(s: Member, w: Write, flag: bool, artifact: Artifact)
    requires Sight(s) && CanWork(s) && (At(s, MakeDir) || At(s, Mark))
    ensures DirStep(s, Worked(s, w, flag, artifact))
  {
    if s.tails != {} {
      SomeTail(s);
    }
  }

  lemma ClearMarkStep(s: Member, w: Write, flag: bool, artifact: Artifact)
    requires Sight(s) && CanWork(s) && (At(s, ClearMark) || At(s, Undo))
    ensures DirStep(s, Worked(s, w, flag, artifact))
  {
  }

  /** An unsynced removal covers a marker of an operation that is not on record as
      restored: a power loss would put that marker back. */
  ghost predicate Exposed(s: Member) {
    s.dir.Some? && exists x :: Some(x) in s.dir.value.behind && x in s.st.cells && !Restored(s.st, x)
  }

  lemma StartStep(s: Member, w: Write, flag: bool, artifact: Artifact)
    requires Sight(s) && CanWork(s) && At(s, Start) && !Exposed(s)
    ensures DirStep(s, Worked(s, w, flag, artifact))
  {
  }

  /** What each write of its own record gives the worker. */
  lemma RecordStep(s: Member, change: Change, next: Pc)
    requires Sight(s) && Progress(change)
    requires || (change.SetState? && (
                 || (At(s, Begin) && next == Adopt && Kind(s, s.at.value.id).Restore?)
                 || (At(s, Prepare) && next == MakeDir)
                 || (At(s, RecordCreating) && next == MakeDir)
                 || (At(s, RecordStarting) && next == Start)))
             || (change.SetRestored? && (
                 || (s.at.value.pc.RecordAdopted? && next == TakeOver)
                 || (At(s, RecordRestored) && next == RecordStarting)))
    ensures PcInv(Recorded(s, change, Done, next), s.at.value.id, next)
  {
  }

  lemma RecordsKept(s: Member, w: Write, flag: bool, artifact: Artifact)
    requires Inv(s) && CanWork(s)
    requires At(s, Prepare) || At(s, RecordCreating) || At(s, RecordRestored) || s.at.value.pc.RecordAdopted?
    ensures Inv(Worked(s, w, flag, artifact))
  {
    hide Inv, Sight;
    InSight(s);
    var (change, next) := match s.at.value.pc
      case Prepare => (SetState(Restoring), MakeDir)
      case RecordCreating => (SetState(Creating), MakeDir)
      case RecordAdopted(a) => (SetRestored(a), TakeOver)
      case _ => (SetRestored(artifact), RecordStarting);
    RecordStep(s, change, next);
    RecordStepKept(s, change, w, next);
  }

  lemma BeginKept(s: Member, w: Write, flag: bool, artifact: Artifact)
    requires Inv(s) && CanWork(s) && At(s, Begin)
    ensures Inv(Worked(s, w, flag, artifact))
  {
    InSight(s);
    if Kind(s, s.at.value.id).Restore? {
      RecordStep(s, SetState(Downloading), Adopt);
      RecordStepKept(s, SetState(Downloading), w, Adopt);
    } else {
      DirStepKept(s, Worked(s, w, flag, artifact));
    }
  }

  lemma SkipStart(s: Member, w: Write, artifact: Artifact)
    requires Sight(s) && CanWork(s) && At(s, RecordStarting)
    ensures DirStep(s, Worked(s, w, true, artifact))
  {
  }

  lemma StartingKept(s: Member, w: Write, flag: bool, artifact: Artifact)
    requires Inv(s) && CanWork(s) && At(s, RecordStarting)
    ensures Inv(Worked(s, w, flag, artifact))
  {
    hide Inv, Sight, DirStep;
    InSight(s);
    if flag {
      SkipStart(s, w, artifact);
      DirStepKept(s, Worked(s, w, flag, artifact));
    } else {
      RecordStep(s, SetState(Starting), Start);
      RecordStepKept(s, SetState(Starting), w, Start);
    }
  }

  /** The worker hands its end to Settle, and is gone. */
  function Settling(s: Member, end: End): Member
    requires AtWork(s)
  {
    s.(st := StoreRuns.Next(s.st, Keep(s.at.value.id, end)), at := None)
  }

  lemma SettlingKept(s: Member, end: End)
    requires Inv(s) && AtWork(s)
    requires end.EndCompleted? && Kind(s, s.at.value.id).Restore? ==> Restored(s.st, s.at.value.id)
    ensures Inv(Settling(s, end))
  {
    var t, id := Settling(s, end), s.at.value.id;
    StepCarries(s.st, Keep(id, end));
    assert CellInv(s.st.up, id, s.st.cells[id]);
    assert id in s.tails ==> TailInv(s, id);
    assert EndInv(s, id);
    OthersCarried(s, t, id, CellNext(s.st.up, s.st.cells[id], Keep(id, end)));
    forall x ensures !WorksHere(t, x) {
      assert x in s.st.cells && x != id ==> !WorksHere(s, x);
    }
  }

  lemma TailAdded(s: Member, id: string)
    requires Inv(s) && s.phase.Serving? && s.at.None?
    requires TailInv(s, id)
    ensures Inv(s.(tails := s.tails + {id}))
  {
    hide StoreRuns.Inv;
    var t := s.(tails := s.tails + {id});
    forall x ensures !WorksHere(t, x) {
      assert !WorksHere(s, x);
    }
    forall x | x in t.tails ensures TailInv(t, x) {
      assert x in s.tails ==> TailInv(s, x);
    }
    forall x | x in t.st.cells ensures EndInv(t, x) {
      assert EndInv(s, x);
    }
  }

  lemma CompletesRestored(s: Member)
    requires Sight(s) && At(s, Complete)
    ensures s.phase.Serving? && (Kind(s, s.at.value.id).Restore? ==> Restored(s.st, s.at.value.id))
  {
  }

  /** A completed restore: its end is on record, and its marker is still to be cleared. */
  lemma CompletedTail(s: Member, artifact: Artifact)
    requires Sight(s) && At(s, Complete) && Kind(s, s.at.value.id).Restore?
    ensures TailInv(Next(Settling(s, EndCompleted(Some(artifact))), Other(WriteEnd(s.at.value.id, Done))), s.at.value.id)
  {
  }

  lemma WrittenKept(s: Member, end: End, w: Write)
    requires Inv(s) && AtWork(s) && Inv(Settling(s, end))
    ensures Inv(Next(Settling(s, end), Other(WriteEnd(s.at.value.id, w))))
  {
    OtherLocalKept(Settling(s, end), WriteEnd(s.at.value.id, w));
  }

  lemma CompleteKept(s: Member, w: Write, flag: bool, artifact: Artifact)
    requires Inv(s) && CanWork(s) && At(s, Complete)
    ensures Inv(Worked(s, w, flag, artifact))
  {
    hide Inv, Restored, Sight, TailInv;
    var id := s.at.value.id;
    var end := EndCompleted(if Kind(s, id).Restore? then Some(artifact) else None);
    InSight(s);
    CompletesRestored(s);
    SettlingKept(s, end);
    if flag {
      WrittenKept(s, end, w);
      if w.Done? && Kind(s, id).Restore? {
        CompletedTail(s, artifact);
        TailAdded(Next(Settling(s, end), Other(WriteEnd(id, w))), id);
      }
    }
  }

  lemma FailKept(s: Member, w: Write, flag: bool, artifact: Artifact)
    requires Inv(s) && CanWork(s) && At(s, Fail)
    ensures Inv(Worked(s, w, flag, artifact))
  {
    hide Inv;
    SettlingKept(s, EndFailed("failed"));
  }

  lemma WorkKept(s: Member, w: Write, flag: bool, artifact: Artifact)
    requires Inv(s) && CanWork(s) && (At(s, Start) ==> !Exposed(s))
    ensures Inv(Worked(s, w, flag, artifact))
  {
    hide Inv, Exposed, Worked;
    match s.at.value.pc
    case Begin => BeginKept(s, w, flag, artifact);
    case RecordAdopted(_) => RecordsKept(s, w, flag, artifact);
    case Prepare => RecordsKept(s, w, flag, artifact);
    case RecordRestored => RecordsKept(s, w, flag, artifact);
    case RecordCreating => RecordsKept(s, w, flag, artifact);
    case RecordStarting => StartingKept(s, w, flag, artifact);
    case Complete => CompleteKept(s, w, flag, artifact);
    case Fail => FailKept(s, w, flag, artifact);
    case _ => DirWorkKept(s, w, flag, artifact);
  }

  lemma DirWorkKept(s: Member, w: Write, flag: bool, artifact: Artifact)
    requires Inv(s) && CanWork(s) && (At(s, Start) ==> !Exposed(s)) && !WritesRecord(s.at.value.pc)
    ensures Inv(Worked(s, w, flag, artifact))
  {
    hide Inv, Sight, DirStep, Worked, Exposed;
    InSight(s);
    DirWork(s, w, flag, artifact);
    DirStepKept(s, Worked(s, w, flag, artifact));
  }

  predicate WritesRecord(pc: Pc) {
    || pc.Begin? || pc.RecordAdopted? || pc.Prepare? || pc.RecordRestored?
    || pc.RecordCreating? || pc.RecordStarting? || pc.Complete? || pc.Fail?
  }

  lemma DirWork(s: Member, w: Write, flag: bool, artifact: Artifact)
    requires Sight(s) && CanWork(s) && (At(s, Start) ==> !Exposed(s)) && !WritesRecord(s.at.value.pc)
    ensures DirStep(s, Worked(s, w, flag, artifact))
  {
    hide Sight, DirStep, Worked, Exposed;
    match s.at.value.pc
    case MakeDir => MakeDirStep(s, w, flag, artifact);
    case Mark => MakeDirStep(s, w, flag, artifact);
    case Fill => FillStep(s, w, flag, artifact);
    case RunRestore => FillStep(s, w, flag, artifact);
    case Createdb => FillStep(s, w, flag, artifact);
    case ClearMark => ClearMarkStep(s, w, flag, artifact);
    case Undo => ClearMarkStep(s, w, flag, artifact);
    case Start => StartStep(s, w, flag, artifact);
    case LookUp => PlainStep(s, w, flag, artifact);
    case Unregister => PlainStep(s, w, flag, artifact);
    case SyncAside => PlainStep(s, w, flag, artifact);
    case Observe => PlainStep(s, w, flag, artifact);
    case _ => FoundWork(s, w, flag, artifact);
  }

  /** The steps that deal with what an earlier operation left. */
  lemma FoundWork(s: Member, w: Write, flag: bool, artifact: Artifact)
    requires Sight(s) && CanWork(s) && (At(s, Adopt) || At(s, TakeOver) || At(s, Reclaim) || At(s, MoveAside) || At(s, DropTomb))
    ensures DirStep(s, Worked(s, w, flag, artifact))
  {
    hide Sight, DirStep, Worked, CanWork;
    if At(s, Adopt) {
      AdoptStep(s, w, flag, artifact);
    } else if At(s, TakeOver) {
      TakeOverStep(s, w, flag, artifact);
    } else if !At(s, Reclaim) {
      AsideStep(s, w, flag, artifact);
    } else if s.tomb.None? {
      ReclaimStep(s, w, flag, artifact);
    } else {
      LeftoverStep(s, w, flag, artifact);
    }
  }

  // ---- The member around its worker

  lemma AdmitKept(s: Member, op: Operation)
    requires Inv(s) && Can(s, Admit(op))
    ensures s.at.None? && Inv(Next(s, Admit(op)))
  {
    var t := Next(s, Admit(op));
    StepCarries(s.st, Create(op, Done, false));
    assert s.at.Some? ==> CellInv(s.st.up, s.at.value.id, s.st.cells[s.at.value.id]);
    assert op.id in s.tails ==> TailInv(s, op.id);
    NotCompletedYet(op, Done, false);
    OthersCarried(s, t, op.id, Created(op, Done, false));
    forall x | WorksHere(t, x) ensures x == op.id {
      assert x != op.id ==> !WorksHere(s, x);
    }
  }

  lemma CrashedEnd(s: Member, t: Member, left: map<string, Option<Operation>>, power: bool, x: string)
    requires EndsInv(s) && Enabled(s.st, Crash(left, power)) && t.st == StoreRuns.Next(s.st, Crash(left, power))
    requires Carries(s.st, t.st) && t.db == s.db && x in t.st.cells
    ensures EndInv(t, x)
  {
    assert EndInv(s, x);
  }

  lemma RestartKept(s: Member, left: map<string, Option<Operation>>, power: bool, marker: Option<string>)
    requires Inv(s) && Can(s, Restart(left, power, marker))
    ensures Inv(Next(s, Restart(left, power, marker)))
  {
    var t := Next(s, Restart(left, power, marker));
    StepCarries(s.st, Crash(left, power));
    if s.dir.Some? {
      BackedKept(s.st, t.st, s.dir.value);
    }
    forall x | x in t.st.cells ensures EndInv(t, x) {
      CrashedEnd(s, t, left, power, x);
    }
  }

  /** A step that leaves the store, the tails and what is moved aside as they are. */
  lemma QuietKept(s: Member, t: Member)
    requires Inv(s) && t.st == s.st && t.db == s.db && t.tomb == s.tomb && t.tails <= s.tails && t.at == s.at
    requires DirInv(t) && PhaseInv(t) && TailsInv(t)
    requires t.at.Some? ==> PcInv(t, t.at.value.id, t.at.value.pc)
    ensures Inv(t)
  {
    hide StoreRuns.Inv;
    forall id | WorksHere(t, id) ensures s.at.Some? && s.at.value.id == id {
      assert WorksHere(s, id);
    }
    forall x | x in t.st.cells ensures EndInv(t, x) {
      assert EndInv(s, x);
    }
  }

  lemma TailKept(s: Member, id: string, w: Write)
    requires Inv(s) && id in s.tails
    ensures Inv(Next(s, Tail(id, w)))
  {
    hide StoreRuns.Inv;
    var t := Next(s, Tail(id, w));
    assert TailInv(s, id);
    forall x | x in t.tails ensures TailInv(t, x) {
      assert TailInv(s, x);
    }
    if s.at.Some? {
      TailAside(s, t, id);
    }
    QuietKept(s, t);
  }

  /** A worker never relies on a marker that is about to be cleared. */
  lemma TailAside(s: Member, t: Member, id: string)
    requires WorkerInv(s) && s.at.Some? && TailInv(s, id) && id in s.tails
    requires t == s.(dir := t.dir, tails := t.tails) && t.tails <= s.tails
    requires t.dir.Some? && t.dir.value.maker == s.dir.value.maker && t.dir.value.marker in {None, s.dir.value.marker}
    ensures PcInv(t, t.at.value.id, t.at.value.pc)
  {
  }

  lemma OutsiderKept(s: Member, dir: Dir)
    requires Inv(s) && Can(s, Outsider(dir))
    ensures Inv(Next(s, Outsider(dir)))
  {
    hide StoreRuns.Inv;
    if s.tails != {} {
      SomeTail(s);
    }
    QuietKept(s, Next(s, Outsider(dir)));
  }

  lemma StartsKept(s: Member, act: Act)
    requires Inv(s) && Can(s, act) && (act.Entrypoint? || act.ResumeStart?) && !Exposed(s)
    ensures Inv(Next(s, act))
  {
    if act.ResumeStart? {
      var x := Owner(s);
      assert CellInv(s.st.up, x, s.st.cells[x]) && EndInv(s, x);
    }
    QuietKept(s, Next(s, act));
  }

  lemma ResumingKept(s: Member, act: Act)
    requires Inv(s) && Can(s, act) && (act.ResumeClear? || act.Serve?)
    ensures Inv(Next(s, act))
  {
    hide StoreRuns.Inv;
    QuietKept(s, Next(s, act));
  }

  lemma ReadyKept(s: Member)
    requires Inv(s) && Can(s, Ready)
    ensures Inv(Next(s, Ready))
  {
    var t := Next(s, Ready);
    StepCarries(s.st, Up);
    if s.dir.Some? {
      BackedKept(s.st, t.st, s.dir.value);
    }
    forall id ensures !WorksHere(t, id) {
      assert !WorksHere(s, id);
    }
    forall x | x in t.st.cells ensures EndInv(t, x) {
      assert EndInv(s, x);
    }
  }

  lemma GiveUpKept(s: Member)
    requires Inv(s) && Can(s, GiveUp)
    ensures Inv(Next(s, GiveUp))
  {
    hide Inv;
    InSight(s);
    DirStepKept(s, Next(s, GiveUp));
  }

  // ---- Runs

  predicate Starts(s: Member, act: Act) {
    act.Entrypoint? || act.ResumeStart? || (act.Work? && At(s, Start))
  }

  /** Nothing is started over an unsynced removal of a marker that could condemn it. */
  ghost predicate Sheltered(s: Member, act: Act) {
    Starts(s, act) ==> !Exposed(s)
  }

  lemma StepKept(s: Member, act: Act)
    requires Inv(s) && Can(s, act) && Sheltered(s, act)
    ensures Inv(Next(s, act))
  {
    hide Inv, Exposed;
    match act
    case Other(step) => OtherStepKept(s, step);
    case Admit(op) => AdmitKept(s, op);
    case Work(w, flag, artifact) => WorkKept(s, w, flag, artifact);
    case GiveUp => GiveUpKept(s);
    case Tail(id, w) => TailKept(s, id, w);
    case Restart(left, power, marker) => RestartKept(s, left, power, marker);
    case Entrypoint => StartsKept(s, act);
    case Outsider(dir) => OutsiderKept(s, dir);
    case Ready => ReadyKept(s);
    case ResumeStart => StartsKept(s, act);
    case ResumeClear(_) => ResumingKept(s, act);
    case Serve => ResumingKept(s, act);
  }

  lemma OtherStepKept(s: Member, step: Step)
    requires Inv(s) && Can(s, Other(step))
    ensures Inv(Next(s, Other(step)))
  {
    hide Inv;
    if Local(step) {
      OtherLocalKept(s, step);
    } else {
      OtherCreateKept(s, step);
    }
  }

  ghost predicate Takes(s: Member, t: Member) {
    exists act :: Can(s, act) && Sheltered(s, act) && t == Next(s, act)
  }

  ghost predicate StepAt(run: seq<Member>, i: int) {
    0 < i < |run| ==> Takes(run[i - 1], run[i])
  }

  function Init(db: string): Member {
    Member(db, Empty, None, None, None, {}, Booting, false)
  }

  ghost predicate IsRun(run: seq<Member>) {
    |run| > 0 && run[0] == Init(run[0].db) && forall i {:trigger StepAt(run, i)} :: StepAt(run, i)
  }

  ghost function ActOf(run: seq<Member>, n: nat): (act: Act)
    requires IsRun(run) && 0 < n < |run|
    ensures Can(run[n - 1], act) && Sheltered(run[n - 1], act) && run[n] == Next(run[n - 1], act)
  {
    hide Can, Next, Sheltered;
    assert StepAt(run, n);
    var act :| Can(run[n - 1], act) && Sheltered(run[n - 1], act) && run[n] == Next(run[n - 1], act);
    act
  }

  lemma {:induction false} RunInv(run: seq<Member>, n: nat)
    requires IsRun(run) && n < |run|
    ensures Inv(run[n])
  {
    if n > 0 {
      hide Inv, Sheltered, Can, Next;
      RunInv(run, n - 1);
      StepKept(run[n - 1], ActOf(run, n));
    }
  }

  /** The resume starts only data of this manager that is on record as restored, whatever a power loss makes of the record. */
  lemma ResumeStartsRestored(run: seq<Member>, n: nat)
    requires IsRun(run) && n < |run| && Can(run[n], ResumeStart)
    ensures MarkedBy(run[n], Owner(run[n])) && Restored(run[n].st, Owner(run[n])) && run[n].dir.value.maker.By?
  {
    RunInv(run, n);
    var s, x := run[n], Owner(run[n]);
    assert CellInv(s.st.up, x, s.st.cells[x]) && EndInv(s, x) && Names(s.dir.value, x);
  }

  /** A step that takes the directory out of its place, or destroys it in whole or in part. */
  predicate RemovesDir(s: Member, act: Act) {
    act.Work? && (At(s, Undo) || At(s, MoveAside)) && s.dir.Some?
  }

  /** A step that destroys what an earlier one moved aside. */
  predicate RemovesTomb(s: Member, act: Act) {
    act.Work? && (At(s, DropTomb) || At(s, Reclaim)) && s.tomb.Some?
  }

  /** Never started, made by an operation of this manager, and, when a marker still
      names its operation, not on record as restored. */
  predicate Disposable(st: Store, d: Dir) {
    && !d.started && d.maker.By?
    && (d.marker.Some? ==>
          var x := d.marker.value;
          x in st.cells && st.cells[x].now.Some? && st.cells[x].now.value.restored.None?)
  }

  lemma VictimsDisposable(s: Member, act: Act)
    requires Inv(s) && Can(s, act)
    ensures RemovesDir(s, act) ==> Disposable(s.st, s.dir.value)
    ensures RemovesTomb(s, act) ==> Disposable(s.st, s.tomb.value)
  {
    if act.Work? {
      InSight(s);
      assert At(s, Undo) && s.dir.value.marker.Some? ==> Names(s.dir.value, s.dir.value.marker.value);
    }
  }

  /** The directory is there after as before: the same one, and started if it was. */
  predicate DirStays(s: Member, t: Member) {
    s.dir.Some? ==> t.dir.Some? && t.dir.value.maker == s.dir.value.maker && (s.dir.value.started ==> t.dir.value.started)
  }

  lemma WorkRemovesDir(s: Member, w: Write, flag: bool, artifact: Artifact)
    requires CanWork(s)
    ensures DirStays(s, Worked(s, w, flag, artifact)) || At(s, Undo) || At(s, MoveAside)
  {
    hide StoreRuns.Next;
  }

  lemma WorkRemovesTomb(s: Member, w: Write, flag: bool, artifact: Artifact)
    requires CanWork(s)
    ensures Worked(s, w, flag, artifact).tomb == s.tomb || At(s, DropTomb) || At(s, Reclaim) || (At(s, MoveAside) && s.dir.Some?)
  {
    hide StoreRuns.Next;
  }

  /** No other step removes anything. */
  lemma OnlyTheseRemove(s: Member, act: Act)
    requires Can(s, act)
    ensures DirStays(s, Next(s, act)) || RemovesDir(s, act)
    ensures Next(s, act).tomb == s.tomb || RemovesTomb(s, act) || (RemovesDir(s, act) && Next(s, act).tomb == s.dir)
  {
    hide StoreRuns.Next, Enabled;
    if act.Work? {
      WorkRemovesDir(s, act.w, act.flag, act.artifact);
      WorkRemovesTomb(s, act.w, act.flag, act.artifact);
    }
  }

  /** In every run, with a crash between any two steps, what a step removes was never
      started, is not on record as restored, and was made by an operation of this manager. */
  lemma RemovesOnlyDisposable(run: seq<Member>, n: nat, act: Act)
    requires IsRun(run) && n < |run| && Can(run[n], act)
    ensures RemovesDir(run[n], act) ==> Disposable(run[n].st, run[n].dir.value)
    ensures RemovesTomb(run[n], act) ==> Disposable(run[n].st, run[n].tomb.value)
  {
    hide Inv, Can, Disposable;
    RunInv(run, n);
    VictimsDisposable(run[n], act);
  }

  /** A directory whose data was started, or that somebody else made, stays for good. */
  lemma {:induction false} StartedDataStays(run: seq<Member>, m: nat, n: nat)
    requires IsRun(run) && m <= n < |run|
    requires run[m].dir.Some? && (run[m].dir.value.started || run[m].dir.value.maker.Foreign?)
    ensures DirStays(run[m], run[n])
  {
    if m < n {
      hide Inv, Can, Next, Sheltered, IsRun;
      StartedDataStays(run, m, n - 1);
      RunInv(run, n - 1);
      var act := ActOf(run, n);
      OnlyTheseRemove(run[n - 1], act);
      VictimsDisposable(run[n - 1], act);
    }
  }
}
