/** The operation store as a transition system. One step is one effect on the
    volume or on the memory of the manager; a crash may come between any two.

    A record write ends in one of three ways, since a failed directory sync
    leaves the renamed record in place. `behind` holds what a power loss may
    put in place of the visible record: the values that an unsynced rename or
    removal covers. */
module StoreRuns {
  import opened Operations

  datatype Write = Done | NoEffect | InPlace

  /** What the memory of the running manager holds about an operation. */
  datatype Hold =
    | Free
    | Owned                // its worker has not ended
    | EndKept(end: End)    // it ended, and the end is not on record yet
    | Unread               // the start could not read its record
    | Stranded             // its create failed, and the record could not be removed again

  /** One operation identity: the record as it was created, whether a worker
      was started for it, and its record file. */
  datatype Cell = Cell(
    born: Operation, begun: bool,
    now: Option<Operation>, behind: set<Option<Operation>>, hold: Hold)

  datatype Store = Store(up: bool, cells: map<string, Cell>)

  const Empty := Store(false, map[])

  predicate Runs(o: Option<Operation>) {
    o.Some? && !o.value.state.IsTerminal()
  }

  function Written(c: Cell, op: Operation, w: Write): Cell {
    match w
    case Done => c.(now := Some(op), behind := {})
    case NoEffect => c
    case InPlace => c.(now := Some(op), behind := c.behind + {c.now})
  }

  datatype Step =
    | Create(op: Operation, w: Write, removed: bool)
    | Alter(id: string, change: Change, w: Write)
    | Keep(id: string, end: End)
    | WriteEnd(id: string, w: Write)
    | FailUnread(id: string, w: Write)
    | SeeEnded(id: string)
    | Remember(id: string)
    | FailAtStart(id: string, w: Write)
    | Crash(left: map<string, Option<Operation>>, power: bool)   // of the manager alone, or of the power with it
    | Up

  /** A step that concerns one operation that is known already. */
  predicate Local(step: Step) {
    !step.Create? && !step.Crash? && !step.Up?
  }

  predicate SameKey(a: Operation, b: Operation) {
    a.kind == b.kind && a.key == b.key
  }

  /** Nothing on record holds op's key, and nothing that has not ended its database. */
  ghost predicate Admissible(s: Store, op: Operation) {
    forall id :: id in s.cells && s.cells[id].now.Some? ==>
      && !SameKey(s.cells[id].now.value, op)
      && (s.cells[id].now.value.database == op.database ==> !Runs(s.cells[id].now))
  }

  ghost predicate CellEnabled(up: bool, c: Cell, step: Step)
    requires Local(step)
  {
    match step
    case Alter(_, change, _) => up && c.hold.Owned? && c.now.Some? && Progress(change)
    case Keep(_, _) => up && c.hold.Owned?
    case WriteEnd(_, _) => up && c.hold.EndKept? && c.now.Some?
    case FailUnread(_, _) => up && c.hold.Unread? && Runs(c.now)
    case SeeEnded(_) => up && c.hold.Unread? && c.now.Some? && !Runs(c.now)
    case Remember(_) => !up && c.now.Some?
    case FailAtStart(_, _) => !up && Runs(c.now)
  }

  ghost predicate Enabled(s: Store, step: Step) {
    if Local(step) then
      step.id in s.cells && CellEnabled(s.up, s.cells[step.id], step)
    else match step
    case Create(op, _, _) =>
      s.up && op.state == Pending && op.restored.None? && IsValidId(op.id) && op.id !in s.cells && Admissible(s, op)
    case Crash(left, power) =>
      && left.Keys == s.cells.Keys
      && forall id :: id in left ==> left[id] == s.cells[id].now || (power && left[id] in s.cells[id].behind)
    case Up => !s.up && forall id :: id in s.cells && Runs(s.cells[id].now) ==> s.cells[id].hold.Unread?
  }

  function Created(op: Operation, w: Write, removed: bool): Cell {
    match w
    case Done => Cell(op, true, Some(op), {}, Owned)
    case NoEffect => Cell(op, false, None, {}, Free)
    case InPlace =>
      if removed then Cell(op, false, None, {None, Some(op)}, Free)
      else Cell(op, false, Some(op), {None}, Stranded)
  }

  function CellNext(up: bool, c: Cell, step: Step): Cell
    requires Local(step) && CellEnabled(up, c, step)
  {
    match step
    case Alter(_, change, w) => Written(c, Changed(c.now.value, change), w)
    case Keep(_, end) => c.(hold := EndKept(end))
    case WriteEnd(_, w) =>
      Written(c, Ended(c.now.value, c.hold.end), w).(hold := if w.Done? then Free else c.hold)
    case FailUnread(_, w) =>
      Written(c, Interrupted(c.now.value), w).(hold := if w.Done? then Free else c.hold)
    case SeeEnded(_) => c.(hold := Free)
    case Remember(_) => c.(hold := Unread)
    case FailAtStart(_, w) => Written(c, Interrupted(c.now.value), w)
  }

  function Crashed(c: Cell, left: Option<Operation>, power: bool): Cell {
    c.(now := left, behind := if power then {} else c.behind, hold := Free)
  }

  function Next(s: Store, step: Step): Store
    requires Enabled(s, step)
  {
    if Local(step) then
      s.(cells := s.cells[step.id := CellNext(s.up, s.cells[step.id], step)])
    else match step
    case Create(op, w, removed) => s.(cells := s.cells[op.id := Created(op, w, removed)])
    case Crash(left, power) => Store(false, map id | id in s.cells :: Crashed(s.cells[id], left[id], power))
    case Up => s.(up := true)
  }

  // ---- What every step keeps

  ghost predicate ImageInv(c: Cell, o: Option<Operation>) {
    && (o.Some? ==> SameIdentity(o.value, c.born))
    && (c.begun ==> o.Some?)
  }

  ghost predicate CellInv(up: bool, id: string, c: Cell) {
    && c.born.id == id
    && ImageInv(c, c.now)
    && (forall o :: o in c.behind ==> ImageInv(c, o))
    && (c.hold.Owned? ==> up && c.begun && Runs(c.now))
    && (c.hold.EndKept? ==> up && c.begun)
    && (c.hold.Unread? ==> c.now.Some?)
    // What was restored is never taken back.
    && (forall o :: o in c.behind && o.Some? && o.value.restored.Some? ==> c.now.Some? && c.now.value.restored.Some?)
    // A record that says "running" is run by a worker, or its end is known to be unwritten.
    && (up && Runs(c.now) ==> !c.hold.Free?)
  }

  ghost predicate Inv(s: Store) {
    && (forall id :: id in s.cells ==> CellInv(s.up, id, s.cells[id]))
    && (forall id :: id in s.cells ==> IsValidId(id))
    && (forall a, b :: a in s.cells && b in s.cells ==> Apart(a, s.cells[a], b, s.cells[b]))
  }

  /** Two operations share no key that both got a worker for, and no database both hold. */
  ghost predicate Apart(a: string, ca: Cell, b: string, cb: Cell) {
    a != b ==>
      && !(ca.begun && cb.begun && SameKey(ca.born, cb.born))
      && !(ca.hold.Owned? && cb.hold.Owned? && ca.born.database == cb.born.database)
  }

  lemma CellKept(up: bool, id: string, c: Cell, step: Step)
    requires CellInv(up, id, c) && Local(step) && CellEnabled(up, c, step)
    ensures CellInv(up, id, CellNext(up, c, step))
    ensures CellNext(up, c, step).born == c.born && CellNext(up, c, step).begun == c.begun
    ensures CellNext(up, c, step).hold.Owned? ==> c.hold.Owned?
  {
  }

  lemma CreateKept(s: Store, op: Operation, w: Write, removed: bool)
    requires Inv(s) && Enabled(s, Create(op, w, removed))
    ensures Inv(Next(s, Create(op, w, removed)))
  {
    var c := Created(op, w, removed);
    assert CellInv(s.up, op.id, c);
    forall id | id in s.cells
      ensures Apart(id, s.cells[id], op.id, c)
    {
      assert CellInv(s.up, id, s.cells[id]);
    }
  }

  lemma LocalKept(s: Store, step: Step)
    requires Inv(s) && Local(step) && Enabled(s, step)
    ensures Inv(Next(s, step))
  {
    hide CellInv;
    var c := s.cells[step.id];
    CellKept(s.up, step.id, c, step);
    var d := CellNext(s.up, c, step);
    forall id | id in s.cells
      ensures Apart(id, s.cells[id], step.id, d) && Apart(step.id, d, id, s.cells[id])
    {
      assert Apart(id, s.cells[id], step.id, c);
    }
  }

  lemma CrashKept(s: Store, left: map<string, Option<Operation>>, power: bool)
    requires Inv(s) && Enabled(s, Crash(left, power))
    ensures Inv(Next(s, Crash(left, power)))
  {
    var t := Next(s, Crash(left, power));
    forall id | id in s.cells ensures CellInv(false, id, t.cells[id]) {
      assert CellInv(s.up, id, s.cells[id]);
    }
    forall a, b | a in s.cells && b in s.cells
      ensures Apart(a, t.cells[a], b, t.cells[b])
    {
      assert Apart(a, s.cells[a], b, s.cells[b]);
    }
  }

  lemma InvKept(s: Store, step: Step)
    requires Inv(s) && Enabled(s, step)
    ensures Inv(Next(s, step))
  {
    if Local(step) {
      LocalKept(s, step);
    } else if step.Create? {
      CreateKept(s, step.op, step.w, step.removed);
    } else if step.Crash? {
      CrashKept(s, step.left, step.power);
    }
  }

  // ---- Runs

  ghost predicate Takes(s: Store, t: Store) {
    exists step :: Enabled(s, step) && t == Next(s, step)
  }

  ghost predicate StepAt(run: seq<Store>, i: int) {
    0 < i < |run| ==> Takes(run[i - 1], run[i])
  }

  ghost predicate Legal(run: seq<Store>) {
    |run| > 0 && forall i {:trigger StepAt(run, i)} :: StepAt(run, i)
  }

  ghost predicate IsRun(run: seq<Store>) {
    Legal(run) && run[0] == Empty
  }

  lemma {:induction false} RunInv(run: seq<Store>, n: nat)
    requires Legal(run) && Inv(run[0]) && n < |run|
    ensures Inv(run[n])
  {
    if n > 0 {
      RunInv(run, n - 1);
      assert StepAt(run, n);
      var step :| Enabled(run[n - 1], step) && run[n] == Next(run[n - 1], step);
      InvKept(run[n - 1], step);
    }
  }

  /** An operation keeps its birth record, and never gets a second worker. */
  ghost predicate Grows(s: Store, t: Store) {
    forall id :: id in s.cells ==>
      && id in t.cells
      && t.cells[id].born == s.cells[id].born
      && t.cells[id].begun == s.cells[id].begun
      && (t.cells[id].hold.Owned? ==> s.cells[id].hold.Owned?)
  }

  lemma {:induction false} RunGrows(run: seq<Store>, m: nat, n: nat)
    requires Legal(run) && Inv(run[0]) && m <= n < |run|
    ensures Grows(run[m], run[n])
  {
    if m < n {
      RunGrows(run, m, n - 1);
      RunInv(run, n - 1);
      assert StepAt(run, n);
      StepGrows(run[n - 1], run[n]);
    }
  }

  lemma StepGrows(s: Store, t: Store)
    requires Inv(s) && Takes(s, t)
    ensures Grows(s, t)
  {
    var step :| Enabled(s, step) && t == Next(s, step);
    if Local(step) {
      LocalGrows(s, step);
    } else {
      OtherGrows(s, step);
    }
  }

  lemma LocalGrows(s: Store, step: Step)
    requires Inv(s) && Local(step) && Enabled(s, step)
    ensures Grows(s, Next(s, step))
  {
    hide CellInv, Apart;
    CellKept(s.up, step.id, s.cells[step.id], step);
  }

  lemma OtherGrows(s: Store, step: Step)
    requires !Local(step) && Enabled(s, step)
    ensures Grows(s, Next(s, step))
  {
    hide Admissible;
  }

  ghost predicate HasWorker(s: Store, id: string) {
    id in s.cells && s.cells[id].hold.Owned? && s.cells[id].now.Some?
  }

  /** At every moment at most one operation of a database has a running worker. */
  lemma OneWorkerPerDatabase(run: seq<Store>, n: nat, a: string, b: string)
    requires IsRun(run) && n < |run| && HasWorker(run[n], a) && HasWorker(run[n], b)
    requires run[n].cells[a].now.value.database == run[n].cells[b].now.value.database
    ensures a == b
  {
    RunInv(run, n);
    var s := run[n];
    assert CellInv(s.up, a, s.cells[a]) && CellInv(s.up, b, s.cells[b]);
    assert Apart(a, s.cells[a], b, s.cells[b]);
  }

  lemma KeyHolders(s: Store, t: Store, a: string, b: string)
    requires Inv(s) && Inv(t) && Grows(s, t) && HasWorker(s, a) && HasWorker(t, b)
    requires SameKey(s.cells[a].now.value, t.cells[b].now.value)
    ensures a == b
  {
    assert CellInv(s.up, a, s.cells[a]) && CellInv(t.up, b, t.cells[b]);
    assert a in t.cells;
    assert Apart(a, t.cells[a], b, t.cells[b]);
  }

  /** Over a whole run, with any crashes in it, one key of a kind gets one worker:
      two workers seen under it are the same operation, and it ran all the time in between. */
  lemma OneWorkerPerKey(run: seq<Store>, m: nat, k: nat, n: nat, a: string, b: string)
    requires IsRun(run) && m <= k <= n < |run| && HasWorker(run[m], a) && HasWorker(run[n], b)
    requires SameKey(run[m].cells[a].now.value, run[n].cells[b].now.value)
    ensures a == b && HasWorker(run[k], a)
  {
    RunInv(run, m);
    RunInv(run, k);
    RunInv(run, n);
    RunGrows(run, m, n);
    KeyHolders(run[m], run[n], a, b);
    RunGrows(run, m, k);
    RunGrows(run, k, n);
    assert CellInv(run[k].up, a, run[k].cells[a]);
  }
}
