/** Backup staging: which operation's directory below a staging destination may be
    claimed, uploaded and removed, over all interleavings of backup requests, backup
    workers, the start of the manager and crashes. */
module Staging {
  import opened Operations
  import opened StoreRuns
  import opened OperationStores

  datatype Path = Path(destination: string, name: string)

  /** What is staged under one name: who wrote the files in it, and whether a process
      still holds one of them open. */
  datatype Entry = Entry(writers: set<string>, held: bool)

  /** Who holds the staging lock: a backup request after it created its operation, or
      the starting manager; and the entries it judged abandoned. */
  datatype Claim = NoClaim | Claiming(id: string, destination: string, abandoned: set<string>) | Reclaiming(destination: string, abandoned: set<string>)

  /** A backup worker: its directory, and where it is. */
  datatype Stage = Owns | Uploads | Removes
  datatype Worker = Worker(path: Path, stage: Stage)

  datatype Tree = Tree(st: Store, entries: map<Path, Entry>, claim: Claim, workers: map<string, Worker>)

  datatype Act =
    | Other(step: Step)
    | Request(op: Operation, destination: string)
    | BeginReclaim(destination: string)
    | Judge
    | RemoveAbandoned(name: string)
    | MakeOwn
    | EndClaim(end: End)                     // of a request whose claim failed
    | EndReclaim
    | Write(path: Path)                      // backupdb, or a server that still holds a file of it
    | Release(path: Path)
    | Upload(id: string)
    | BeginRemove(id: string)
    | RemoveOwn(id: string)
    | Finish(id: string, end: End)
    | Restart(left: map<string, Option<Operation>>, power: bool)

  /** The record of the entry's operation, as Get answers it, has ended or is unknown. */
  predicate Over(st: Store, name: string) {
    var r := Peeked(st, name);
    r.NotFound? || (r.Found? && r.op.state.IsTerminal())
  }

  /** The opposite of stagingOwnerLive. */
  predicate Abandoned(s: Tree, p: Path)
    requires p in s.entries
  {
    Over(s.st, p.name) && !s.entries[p].held
  }

  function Named(s: Tree, destination: string): set<string> {
    set p | p in s.entries && p.destination == destination :: p.name
  }

  predicate NoneLive(s: Tree, destination: string) {
    forall p :: p in s.entries && p.destination == destination ==> Abandoned(s, p)
  }

  /** A generated identity names no entry, there or judged. */
  predicate Fresh(s: Tree, id: string) {
    (forall p :: p in s.entries ==> p.name != id) && (!s.claim.NoClaim? ==> id !in s.claim.abandoned)
  }

  function Destination(c: Claim): string {
    if c.NoClaim? then "" else c.destination
  }

  ghost predicate Can(s: Tree, act: Act) {
    match act
    case Other(step) =>
      && Enabled(s.st, step) && !step.Crash? && (step.Create? ==> Fresh(s, step.op.id))
      && (step.Keep? ==> step.id !in s.workers && (s.claim.Claiming? ==> step.id != s.claim.id))
    case Request(op, _) => s.claim.NoClaim? && Fresh(s, op.id) && Enabled(s.st, Create(op, Done, false))
    case BeginReclaim(_) => s.claim.NoClaim? && s.st.up
    case Judge => !s.claim.NoClaim? && NoneLive(s, Destination(s.claim))
    case RemoveAbandoned(name) => !s.claim.NoClaim? && name in s.claim.abandoned
    case MakeOwn => s.claim.Claiming? && Path(s.claim.destination, s.claim.id) !in s.entries
    case EndClaim(end) => s.claim.Claiming? && Enabled(s.st, Keep(s.claim.id, end))
    case EndReclaim => s.claim.Reclaiming?
    case Write(path) =>
      && path in s.entries
      && (s.entries[path].held || (path.name in s.workers && s.workers[path.name] == Worker(path, Owns)))
    case Release(path) => path in s.entries
    case Upload(id) => id in s.workers && s.workers[id].stage == Owns && s.workers[id].path in s.entries
    case BeginRemove(id) => id in s.workers
    case RemoveOwn(id) => s.claim.NoClaim? && id in s.workers && s.workers[id].stage == Removes
    case Finish(id, end) => id in s.workers && Enabled(s.st, Keep(id, end))
    case Restart(left, power) => Enabled(s.st, Crash(left, power))
  }

  function Drop(s: Tree, p: Path): Tree {
    s.(entries := s.entries - {p})
  }

  ghost function Next(s: Tree, act: Act): Tree
    requires Can(s, act)
  {
    match act
    case Other(step) => s.(st := StoreRuns.Next(s.st, step))
    case Request(op, destination) =>
      s.(st := StoreRuns.Next(s.st, Create(op, Done, false)), claim := Claiming(op.id, destination, {}))
    case BeginReclaim(destination) => s.(claim := Reclaiming(destination, {}))
    case Judge => s.(claim := s.claim.(abandoned := Named(s, s.claim.destination)))
    case RemoveAbandoned(name) => Drop(s, Path(s.claim.destination, name))
    case MakeOwn =>
      var p := Path(s.claim.destination, s.claim.id);
      s.(entries := s.entries[p := Entry({}, false)], workers := s.workers[s.claim.id := Worker(p, Owns)], claim := NoClaim)
    case EndClaim(end) => s.(st := StoreRuns.Next(s.st, Keep(s.claim.id, end)), claim := NoClaim)
    case EndReclaim => s.(claim := NoClaim)
    case Write(path) => s.(entries := s.entries[path := Entry(s.entries[path].writers + {path.name}, true)])
    case Release(path) => s.(entries := s.entries[path := s.entries[path].(held := false)])
    case Upload(id) => s.(workers := s.workers[id := s.workers[id].(stage := Uploads)])
    case BeginRemove(id) => s.(workers := s.workers[id := s.workers[id].(stage := Removes)])
    case RemoveOwn(id) => Drop(s, s.workers[id].path)
    case Finish(id, end) => s.(st := StoreRuns.Next(s.st, Keep(id, end)), workers := s.workers - {id})
    case Restart(left, power) => s.(st := StoreRuns.Next(s.st, Crash(left, power)), claim := NoClaim, workers := map[])
  }

  // ---- What every step keeps

  ghost predicate WorkerInv(s: Tree, id: string, w: Worker) {
    && id in s.st.cells && s.st.cells[id].hold.Owned?
    && w.path.name == id
    && (w.path in s.entries ==> s.entries[w.path].writers <= {id})
    && (!w.stage.Removes? ==> w.path in s.entries)
  }

  ghost predicate Judged(s: Tree, destination: string, name: string) {
    var p := Path(destination, name);
    Over(s.st, name) && (p in s.entries ==> !s.entries[p].held)
  }

  ghost predicate ClaimInv(s: Tree) {
    && (s.claim.Claiming? ==> s.claim.id in s.st.cells && s.st.cells[s.claim.id].hold.Owned? && s.claim.id !in s.workers)
    && (!s.claim.NoClaim? ==> s.st.up && forall name :: name in s.claim.abandoned ==> Judged(s, s.claim.destination, name))
  }

  ghost predicate Inv(s: Tree) {
    && StoreRuns.Inv(s.st) && ClaimInv(s)
    && forall id :: id in s.workers ==> WorkerInv(s, id, s.workers[id])
  }

  lemma OverNotOwned(st: Store, name: string)
    requires StoreRuns.Inv(st) && Over(st, name)
    ensures name in st.cells ==> !st.cells[name].hold.Owned?
  {
    assert name in st.cells ==> CellInv(st.up, name, st.cells[name]);
  }

  predicate OverCell(c: Cell) {
    || c.now.None?
    || (c.now.value.key != "" && (c.hold.EndKept? || c.hold.Unread? || c.now.value.state.IsTerminal()))
  }

  lemma OverByCell(st: Store, name: string)
    ensures Over(st, name) <==> !IsValidId(name) || name !in st.cells || OverCell(st.cells[name])
  {
  }

  lemma OverCellKept(up: bool, id: string, c: Cell, step: Step)
    requires CellInv(up, id, c) && Local(step) && CellEnabled(up, c, step) && up && OverCell(c)
    ensures OverCell(CellNext(up, c, step))
  {
  }

  /** What has ended, as Get answers it, stays ended while the manager runs. */
  lemma OverKept(st: Store, step: Step, name: string)
    requires StoreRuns.Inv(st) && Enabled(st, step) && st.up && !step.Crash? && Over(st, name)
    requires step.Create? ==> step.op.id != name
    ensures Over(StoreRuns.Next(st, step), name)
  {
    hide Over;
    OverByCell(st, name);
    OverByCell(StoreRuns.Next(st, step), name);
    if Local(step) && step.id == name && IsValidId(name) {
      OverCellKept(st.up, name, st.cells[name], step);
    }
  }

  /** A step of the store, by others or by a worker that ends, leaves what was judged as it was. */
  lemma ClaimCarried(s: Tree, t: Tree, step: Step)
    requires Inv(s) && Enabled(s.st, step) && !step.Crash? && t.st == StoreRuns.Next(s.st, step)
    requires t.entries == s.entries && t.claim == s.claim && t.workers.Keys <= s.workers.Keys
    requires step.Create? ==> Fresh(s, step.op.id)
    requires s.claim.Claiming? && step.Keep? ==> step.id != s.claim.id
    ensures ClaimInv(t)
  {
    hide Over;
    if !s.claim.NoClaim? {
      forall name | name in s.claim.abandoned ensures Judged(t, t.claim.destination, name) {
        OverKept(s.st, step, name);
      }
    }
    if s.claim.Claiming? {
      assert CellInv(s.st.up, s.claim.id, s.st.cells[s.claim.id]);
    }
  }

  lemma OwnedKept(st: Store, step: Step, id: string)
    requires StoreRuns.Inv(st) && Enabled(st, step) && !step.Crash? && id in st.cells && st.cells[id].hold.Owned?
    requires !(step.Keep? && step.id == id)
    ensures id in StoreRuns.Next(st, step).cells && StoreRuns.Next(st, step).cells[id].hold.Owned?
  {
    assert CellInv(st.up, id, st.cells[id]);
  }

  lemma WorkersCarried(s: Tree, t: Tree, step: Step)
    requires Inv(s) && Enabled(s.st, step) && !step.Crash? && t.st == StoreRuns.Next(s.st, step)
    requires t.entries == s.entries && t.workers.Keys <= s.workers.Keys && forall id :: id in t.workers ==> t.workers[id] == s.workers[id]
    requires step.Keep? ==> step.id !in t.workers
    ensures forall id :: id in t.workers ==> WorkerInv(t, id, t.workers[id])
  {
    hide Over, Enabled, StoreRuns.Next;
    forall id | id in t.workers ensures WorkerInv(t, id, t.workers[id]) {
      assert WorkerInv(s, id, s.workers[id]);
      OwnedKept(s.st, step, id);
    }
  }

  /** Steps of the store: by others, or by a request or worker that ends. */
  lemma StoreKept(s: Tree, act: Act)
    requires Inv(s) && Can(s, act) && (act.Other? || act.EndClaim? || act.Finish?)
    ensures Inv(Next(s, act))
  {
    hide Over;
    var step := if act.Other? then act.step else if act.EndClaim? then Keep(s.claim.id, act.end) else Keep(act.id, act.end);
    InvKept(s.st, step);
    WorkersCarried(s, Next(s, act), step);
    if !act.EndClaim? {
      ClaimCarried(s, Next(s, act), step);
    }
  }

  lemma RequestKept(s: Tree, op: Operation, destination: string)
    requires Inv(s) && Can(s, Request(op, destination))
    ensures Inv(Next(s, Request(op, destination)))
  {
    InvKept(s.st, Create(op, Done, false));
    WorkersCarried(s, Next(s, Request(op, destination)), Create(op, Done, false));
    assert op.id in s.workers ==> WorkerInv(s, op.id, s.workers[op.id]);
  }

  lemma ClaimsKept(s: Tree, act: Act)
    requires Inv(s) && Can(s, act) && (act.BeginReclaim? || act.Judge? || act.EndReclaim? || act.MakeOwn?)
    ensures Inv(Next(s, act))
  {
    hide Over;
    var t := Next(s, act);
    forall id | id in t.workers ensures WorkerInv(t, id, t.workers[id]) {
      assert id in s.workers ==> WorkerInv(s, id, s.workers[id]);
    }
  }

  lemma RemovedKept(s: Tree, act: Act)
    requires Inv(s) && Can(s, act) && (act.RemoveAbandoned? || act.RemoveOwn?)
    ensures Inv(Next(s, act))
  {
    hide Over;
    var t := Next(s, act);
    if act.RemoveAbandoned? {
      assert Judged(s, s.claim.destination, act.name);
      OverNotOwned(s.st, act.name);
    }
    forall id | id in t.workers ensures WorkerInv(t, id, t.workers[id]) {
      assert WorkerInv(s, id, s.workers[id]);
      if act.RemoveOwn? {
        assert WorkerInv(s, act.id, s.workers[act.id]);
      }
    }
    if !t.claim.NoClaim? {
      forall name | name in t.claim.abandoned ensures Judged(t, t.claim.destination, name) {
        assert Judged(s, s.claim.destination, name);
      }
    }
  }

  lemma FilesKept(s: Tree, act: Act)
    requires Inv(s) && Can(s, act) && (act.Write? || act.Release? || act.Upload? || act.BeginRemove?)
    ensures Inv(Next(s, act))
  {
    hide Over;
    var t := Next(s, act);
    forall id | id in t.workers ensures WorkerInv(t, id, t.workers[id]) {
      assert WorkerInv(s, id, s.workers[id]);
    }
    if !t.claim.NoClaim? {
      forall name | name in t.claim.abandoned ensures Judged(t, t.claim.destination, name) {
        assert Judged(s, s.claim.destination, name);
        OverNotOwned(s.st, name);
        assert name in s.workers ==> WorkerInv(s, name, s.workers[name]);
      }
    }
  }

  lemma StepKept(s: Tree, act: Act)
    requires Inv(s) && Can(s, act)
    ensures Inv(Next(s, act))
  {
    hide Inv, Over, NoneLive;
    match act
    case Other(_) => StoreKept(s, act);
    case EndClaim(_) => StoreKept(s, act);
    case Finish(_, _) => StoreKept(s, act);
    case Request(op, destination) => RequestKept(s, op, destination);
    case RemoveAbandoned(_) => RemovedKept(s, act);
    case RemoveOwn(_) => RemovedKept(s, act);
    case Write(_) => FilesKept(s, act);
    case Release(_) => FilesKept(s, act);
    case Upload(_) => FilesKept(s, act);
    case BeginRemove(_) => FilesKept(s, act);
    case Restart(left, power) => RestartKept(s, left, power);
    case _ => ClaimsKept(s, act);
  }

  lemma RestartKept(s: Tree, left: map<string, Option<Operation>>, power: bool)
    requires Inv(s) && Can(s, Restart(left, power))
    ensures Inv(Next(s, Restart(left, power)))
  {
    InvKept(s.st, Crash(left, power));
  }

  // ---- Runs

  ghost predicate Takes(s: Tree, t: Tree) {
    exists act :: Can(s, act) && t == Next(s, act)
  }

  ghost predicate StepAt(run: seq<Tree>, i: int) {
    0 < i < |run| ==> Takes(run[i - 1], run[i])
  }

  /** A run begins with no operation known, whatever is staged. */
  ghost predicate IsRun(run: seq<Tree>) {
    && |run| > 0 && run[0].st == Empty && run[0].claim.NoClaim? && run[0].workers == map[]
    && forall i {:trigger StepAt(run, i)} :: StepAt(run, i)
  }

  lemma {:induction false} RunInv(run: seq<Tree>, n: nat)
    requires IsRun(run) && n < |run|
    ensures Inv(run[n])
  {
    if n > 0 {
      hide Inv, Can;
      RunInv(run, n - 1);
      assert StepAt(run, n);
      var act :| Can(run[n - 1], act) && run[n] == Next(run[n - 1], act);
      StepKept(run[n - 1], act);
    }
  }

  /** An upload reads the operation's own directory, and every file in it is its own. */
  lemma UploadsOnlyOwn(run: seq<Tree>, n: nat, id: string)
    requires IsRun(run) && n < |run| && Can(run[n], Upload(id))
    ensures run[n].workers[id].path.name == id
    ensures run[n].entries[run[n].workers[id].path].writers <= {id}
  {
    RunInv(run, n);
    assert WorkerInv(run[n], id, run[n].workers[id]);
  }

  /** Until an operation itself removes it, its directory is there, whatever the others do. */
  lemma DirectoryStays(run: seq<Tree>, n: nat, id: string)
    requires IsRun(run) && n < |run| && id in run[n].workers && !run[n].workers[id].stage.Removes?
    ensures run[n].workers[id].path in run[n].entries
  {
    RunInv(run, n);
    assert WorkerInv(run[n], id, run[n].workers[id]);
  }

  /** What goes is the remover's own, or abandoned: its operation has ended or is not
      known, it runs no more, and no process holds a file in it. */
  lemma RemovesOwnOrAbandoned(run: seq<Tree>, n: nat, act: Act, p: Path)
    requires IsRun(run) && n < |run| && Can(run[n], act) && p in run[n].entries && p !in Next(run[n], act).entries
    ensures || (act.RemoveOwn? && p.name == act.id)
            || (act.RemoveAbandoned? && Abandoned(run[n], p) && p.name !in run[n].workers && !HasWorker(run[n].st, p.name))
  {
    hide Over;
    RunInv(run, n);
    var s := run[n];
    if act.RemoveOwn? {
      assert WorkerInv(s, act.id, s.workers[act.id]);
    } else {
      assert Judged(s, s.claim.destination, act.name);
      OverNotOwned(s.st, act.name);
      assert p.name in s.workers ==> WorkerInv(s, p.name, s.workers[p.name]);
    }
  }

  // ---- A claim that removes what another operation staged

  /** Two backups that may be asked for one after the other. */
  predicate Asked(a: Operation, b: Operation) {
    && IsValidId(a.id) && IsValidId(b.id) && a.id != b.id && !SameKey(a, b) && a.key != ""
    && a.state == b.state == Pending && a.restored.None? && b.restored.None?
  }

  function Cells(a: Operation, failed: bool, hold: Hold): map<string, Cell> {
    map[a.id := Cell(a, true, Some(if failed then Ended(a, EndFailed("failed")) else a), {}, hold)]
  }

  /** The backup a works, and its directory is as given. */
  function Works(a: Operation, d: string, entry: Entry): Tree {
    Tree(Store(true, Cells(a, false, Owned)), map[Path(d, a.id) := entry], NoClaim, map[a.id := Worker(Path(d, a.id), Owns)])
  }

  /** It has ended. */
  function Rests(a: Operation, d: string, failed: bool, hold: Hold): Tree {
    Tree(Store(true, Cells(a, failed, hold)), map[Path(d, a.id) := Entry({a.id}, false)], NoClaim, map[])
  }

  /** b claims the same destination. */
  function Claims(a: Operation, b: Operation, d: string, abandoned: set<string>, entries: map<Path, Entry>): Tree {
    Tree(Store(true, Cells(a, true, Free)[b.id := Cell(b, true, Some(b), {}, Owned)]), entries, Claiming(b.id, d, abandoned), map[])
  }

  const T0 := Tree(Empty, map[], NoClaim, map[])
  const T1 := Tree(Store(true, map[]), map[], NoClaim, map[])

  function Asks(a: Operation, d: string): Tree {
    Tree(Store(true, Cells(a, false, Owned)), map[], Claiming(a.id, d, {}), map[])
  }

  lemma Requested(a: Operation, b: Operation, d: string)
    requires Asked(a, b)
    ensures Takes(T0, T1) && Takes(T1, Asks(a, d)) && Takes(Asks(a, d), Works(a, d, Entry({}, false)))
  {
    hide IsValidId;
    assert T1 == Next(T0, Other(Up));
    assert Can(T1, Request(a, d));
    assert Asks(a, d) == Next(T1, Request(a, d));
    assert Works(a, d, Entry({}, false)) == Next(Asks(a, d), MakeOwn);
  }

  lemma Writes(a: Operation, d: string)
    ensures Takes(Works(a, d, Entry({}, false)), Works(a, d, Entry({a.id}, true)))
    ensures Takes(Works(a, d, Entry({a.id}, true)), Works(a, d, Entry({a.id}, false)))
  {
    hide Cells;
    var p := Path(d, a.id);
    assert {} + {a.id} == {a.id};
    assert Works(a, d, Entry({a.id}, true)) == Next(Works(a, d, Entry({}, false)), Act.Write(p));
    assert Works(a, d, Entry({a.id}, false)) == Next(Works(a, d, Entry({a.id}, true)), Release(p));
  }

  lemma Ends(a: Operation, d: string)
    ensures Takes(Works(a, d, Entry({a.id}, false)), Rests(a, d, false, EndKept(EndFailed("failed"))))
    ensures Takes(Rests(a, d, false, EndKept(EndFailed("failed"))), Rests(a, d, true, Free))
  {
    var s := Works(a, d, Entry({a.id}, false));
    var t := Rests(a, d, false, EndKept(EndFailed("failed")));
    assert t == Next(s, Finish(a.id, EndFailed("failed")));
    assert Can(t, Other(WriteEnd(a.id, Done)));
    assert Rests(a, d, true, Free) == Next(t, Other(WriteEnd(a.id, Done)));
  }

  lemma Claimed(a: Operation, b: Operation, d: string)
    requires Asked(a, b)
    ensures Takes(Rests(a, d, true, Free), Claims(a, b, d, {}, map[Path(d, a.id) := Entry({a.id}, false)]))
  {
    hide IsValidId;
    var s := Rests(a, d, true, Free);
    assert Can(s, Request(b, d));
    assert Claims(a, b, d, {}, s.entries) == Next(s, Request(b, d));
  }

  lemma Removed(a: Operation, b: Operation, d: string, entries: map<Path, Entry>)
    requires Asked(a, b) && entries == map[Path(d, a.id) := Entry({a.id}, false)]
    ensures Takes(Claims(a, b, d, {}, entries), Claims(a, b, d, {a.id}, entries))
    ensures Takes(Claims(a, b, d, {a.id}, entries), Claims(a, b, d, {a.id}, map[]))
  {
    hide IsValidId, Over;
    var s := Claims(a, b, d, {}, entries);
    OverByCell(s.st, a.id);
    assert Path(d, a.id) in s.entries && Named(s, d) == {a.id};
    assert Can(s, Judge);
    assert Claims(a, b, d, {a.id}, entries) == Next(s, Judge);
    assert Claims(a, b, d, {a.id}, map[]) == Next(Claims(a, b, d, {a.id}, entries), RemoveAbandoned(a.id));
  }

  /** Of any two backups, a run in which the first writes into its directory p and ends, and the claim of the other
      removes what it wrote. */
  lemma RemovesAnothers(a: Operation, b: Operation, d: string) returns (run: seq<Tree>, p: Path)
    requires Asked(a, b)
    ensures IsRun(run) && |run| == 11
    ensures a.id in run[5].workers && run[5].workers[a.id].path == p && p in run[5].entries && run[5].entries[p].writers == {a.id}
    ensures p in run[9].entries && run[9].entries[p] == run[5].entries[p] && run[9].claim.Claiming? && run[9].claim.id == b.id
    ensures run[10].claim == run[9].claim && p !in run[10].entries
  {
    p := Path(d, a.id);
    var written := map[p := Entry({a.id}, false)];
    Requested(a, b, d);
    Writes(a, d);
    Ends(a, d);
    Claimed(a, b, d);
    Removed(a, b, d, written);
    hide Takes, Cells, Asked;
    run := [T0, T1, Asks(a, d), Works(a, d, Entry({}, false)), Works(a, d, Entry({a.id}, true)), Works(a, d, Entry({a.id}, false)),
            Rests(a, d, false, EndKept(EndFailed("failed"))), Rests(a, d, true, Free),
            Claims(a, b, d, {}, written), Claims(a, b, d, {a.id}, written), Claims(a, b, d, {a.id}, map[])];
  }

  // ---- The code that judges and removes, entry by entry

  /** Every entry of the destination is abandoned. */
  predicate AllOver(st: Store, entries: map<Path, Entry>, destination: string) {
    forall p :: p in entries && p.destination == destination ==> Over(st, p.name) && !entries[p].held
  }

  function Cleared(entries: map<Path, Entry>, destination: string): map<Path, Entry> {
    map p | p in entries && p.destination != destination :: entries[p]
  }

  /** Reading and retried ends change nothing of what is over. */
  lemma TidiedOver(s: Store, t: Store, id: string, name: string)
    requires StoreRuns.Inv(s) && StoreRuns.Inv(t) && s.up && t.up && Only(s, t, id)
    requires id in t.cells ==> id in s.cells && TidiedCell(s.cells[id], t.cells[id])
    ensures Over(t, name) <==> Over(s, name)
  {
    hide Over, Peeked;
    OverByCell(s, name);
    OverByCell(t, name);
    if name == id && id in t.cells {
      assert CellInv(s.up, id, s.cells[id]) && CellInv(t.up, id, t.cells[id]);
    }
  }

  class StagingRoot {
    const store: OperationStore
    var entries: map<Path, Entry>
    ghost var faults: nat

    constructor (store: OperationStore, entries: map<Path, Entry>)
      ensures this.store == store && this.entries == entries
    {
      this.store, this.entries := store, entries;
    }

    lemma StoreInv()
      requires store.Valid()
      ensures StoreRuns.Inv(store.st)
    {
      StoreRuns.RunInv(store.trace, |store.trace| - 1);
    }

    method Attempt() returns (ok: bool)
      modifies this`faults
      ensures faults == if ok then old(faults) else old(faults) + 1
    {
      ok := *;
      if !ok {
        faults := faults + 1;
      }
    }

    /** stagingOwnerLive: an entry that cannot be judged counts as live. */
    method OwnerLive(p: Path) returns (live: bool)
      requires store.Valid() && store.st.up && p in entries
      modifies this`faults, store`st, store`trace, store`faults
      ensures store.Valid() && store.st.up && Only(old(store.st), store.st, p.name)
      ensures p.name in store.st.cells ==> p.name in old(store.st).cells && TidiedCell(old(store.st).cells[p.name], store.st.cells[p.name])
      ensures !live ==> Over(old(store.st), p.name) && Over(store.st, p.name) && !entries[p].held
      ensures faults >= old(faults) && store.faults >= old(store.faults)
      ensures faults == old(faults) && store.faults == old(store.faults) ==>
        (live <==> !(Over(old(store.st), p.name) && !entries[p].held))
    {
      if IsValidId(p.name) {
        var r := store.Get(p.name);
        if r.Failure? || (r.Found? && !r.op.state.IsTerminal()) {
          return true;
        }
        OverByCell(store.st, p.name);
      }
      var told := Attempt();
      live := !told || entries[p].held;
    }

    /** liveStagingOwners: whether any entry of the destination is live. */
    method SomeLive(destination: string) returns (live: bool)
      requires store.Valid() && store.st.up
      modifies this`faults, store`st, store`trace, store`faults
      ensures store.Valid() && store.st.up
      ensures forall name :: Over(store.st, name) <==> Over(old(store.st), name)
      ensures faults >= old(faults) && store.faults >= old(store.faults)
      ensures !live ==> AllOver(store.st, entries, destination)
      ensures faults == old(faults) && store.faults == old(store.faults) ==> (live <==> !AllOver(store.st, entries, destination))
    {
      hide Over, IsValidId, TidiedCell, StoreRuns.Inv, Legal;
      var todo := set p | p in entries && p.destination == destination;
      live := false;
      while todo != {}
        invariant store.Valid() && store.st.up && todo <= entries.Keys && (forall p :: p in todo ==> p.destination == destination)
        invariant forall name :: Over(store.st, name) <==> Over(old(store.st), name)
        invariant faults >= old(faults) && store.faults >= old(store.faults)
        invariant !live ==> forall p :: p in entries && p.destination == destination && p !in todo ==>
          Over(store.st, p.name) && !entries[p].held
        invariant live && faults == old(faults) && store.faults == old(store.faults) ==> !AllOver(store.st, entries, destination)
      {
        var p :| p in todo;
        ghost var before := store.st;
        StoreInv();
        var l := OwnerLive(p);
        live := live || l;
        StoreInv();
        forall name ensures Over(store.st, name) <==> Over(before, name) {
          TidiedOver(before, store.st, p.name, name);
        }
        todo := todo - {p};
      }
    }

    /** reclaimDestination: nothing goes unless everything in the destination is abandoned. */
    method ReclaimDestination(destination: string) returns (ok: bool, free: bool)
      requires store.Valid() && store.st.up
      modifies this, store`st, store`trace, store`faults
      ensures store.Valid() && store.st.up && (free ==> ok)
      ensures entries.Keys <= old(entries).Keys && forall p :: p in entries ==> entries[p] == old(entries)[p]
      ensures forall p :: p in old(entries) && p !in entries ==>
        free && p.destination == destination && Over(store.st, p.name) && !old(entries)[p].held
      ensures faults >= old(faults) && store.faults >= old(store.faults)
      ensures faults == old(faults) && store.faults == old(store.faults) ==>
        ok && (free <==> AllOver(old(store.st), old(entries), destination)) && (free ==> entries == Cleared(old(entries), destination))
    {
      hide Over, StoreRuns.Inv;
      ok := Attempt();
      if !ok {
        return false, false;
      }
      var live := SomeLive(destination);
      if live {
        return true, false;
      }
      free := true;
      var todo := set p | p in entries && p.destination == destination;
      while todo != {}
        invariant store.Valid() && store.st.up && ok && free
        invariant todo <= entries.Keys && entries.Keys <= old(entries).Keys
        invariant forall p :: p in entries ==> entries[p] == old(entries)[p]
        invariant forall p :: p in todo ==> p.destination == destination
        invariant forall p :: p in old(entries) && (p !in entries || p in todo) ==>
          p.destination == destination && Over(store.st, p.name) && !old(entries)[p].held
        invariant faults >= old(faults) && store.faults >= old(store.faults)
        invariant faults == old(faults) ==> forall p :: p in entries && p.destination == destination ==> p in todo
      {
        var p :| p in todo;
        todo := todo - {p};
        var removed := Attempt();
        if removed {
          entries := entries - {p};
        }
      }
    }

    /** claimBackupStaging: the operation's own directory is made anew, in a destination nobody else lives in. */
    method Claim(destination: string, id: string) returns (ok: bool)
      requires store.Valid() && store.st.up
      modifies this, store`st, store`trace, store`faults
      ensures store.Valid() && store.st.up
      ensures ok ==> Path(destination, id) in entries && entries[Path(destination, id)] == Entry({}, false)
      ensures ok ==> Path(destination, id) in old(entries) ==> Over(store.st, id) && !old(entries)[Path(destination, id)].held
      ensures forall p :: p in old(entries) && p.destination != destination ==> p in entries && entries[p] == old(entries)[p]
      ensures faults == old(faults) && store.faults == old(store.faults) ==>
        && (ok <==> AllOver(old(store.st), old(entries), destination))
        && entries == if ok then Cleared(old(entries), destination)[Path(destination, id) := Entry({}, false)] else old(entries)
    {
      hide Over, AllOver, StoreRuns.Inv;
      var free;
      ok, free := ReclaimDestination(destination);
      if !ok || !free {
        return false;
      }
      var made := Attempt();
      if !made || Path(destination, id) in entries {
        return false;
      }
      entries := entries[Path(destination, id) := Entry({}, false)];
      return true;
    }
  }
}
