/** The operation store of the Instance Manager. Its methods act on the store
    by steps of StoreRuns only and keep the ghost `trace` of the states they
    pass through, so what holds over all runs holds of this code, with a crash
    between any two of its effects. Reads and writes may fail at any moment;
    `faults` counts those that did. */
module OperationStores {
  import opened Operations
  import opened StoreRuns

  datatype Lookup = Found(op: Operation) | NotFound | Failure

  datatype Admission =
    | Admitted(op: Operation)
    | Existing(op: Operation)
    | IdempotencyConflict
    | InProgress
    | RecordUnreadable
    | EndUnwritten
    | StoreFailure

  /** Nothing stands against a new operation, or `answer`, because of the record `id`. */
  datatype Verdict = Admit | Answer(id: string, answer: Admission)

  predicate OnRecord(s: Store, id: string) {
    id in s.cells && s.cells[id].now.Some?
  }

  function Record(s: Store, id: string): Operation
    requires OnRecord(s, id)
  {
    s.cells[id].now.value
  }

  /** What a read of operation id answers when nothing it touches fails. */
  function Peeked(s: Store, id: string): Lookup {
    if !IsValidId(id) || !OnRecord(s, id) then NotFound
    else if Record(s, id).key == "" then Failure
    else match s.cells[id].hold
      case EndKept(end) => Found(Ended(Record(s, id), end))
      case Unread => Found(if Runs(s.cells[id].now) then Interrupted(Record(s, id)) else Record(s, id))
      case _ => Found(Record(s, id))
  }

  /** The cell of id is the only one that changed. */
  predicate Only(s: Store, t: Store, id: string) {
    t == s || (id in s.cells && id in t.cells && t == s.(cells := s.cells[id := t.cells[id]]))
  }

  function Asked(kind: Kind, key: string, hash: string, database: string, id: string): Operation {
    Operation(id, kind, key, hash, database, Pending, "", None, None, "")
  }

  /** `answer` to the request that asks for `op` rests on the record id of s. */
  ghost predicate Answers(s: Store, op: Operation, id: string, answer: Admission, clean: bool) {
    OnRecord(s, id) &&
    match answer
    case Existing(found) =>
      && found == Record(s, id) && SameKey(found, op) && found.hash == op.hash
      && (!found.state.IsTerminal() ==> TrulyRuns(s, id))
    case IdempotencyConflict => SameKey(Record(s, id), op) && Record(s, id).hash != op.hash
    case EndUnwritten => SameKey(Record(s, id), op) && Record(s, id).hash == op.hash && s.cells[id].hold.EndKept? && !clean
    case RecordUnreadable => clean ==> Record(s, id).key == ""
    case InProgress => Record(s, id).database == op.database && Runs(s.cells[id].now)
    case _ => false
  }

  /** Operation x was admitted for this request, and no other record holds its key. */
  ghost predicate HoldsAlone(s: Store, op: Operation, x: string) {
    && x in s.cells && s.cells[x].begun && SameKey(s.cells[x].born, op) && s.cells[x].born.hash == op.hash
    && forall y :: OnRecord(s, y) && SameKey(Record(s, y), op) ==> y == x
  }

  predicate NoneUnder(ops: map<string, Operation>, kind: Kind, key: string) {
    forall id :: id in ops ==> !(ops[id].kind == kind && ops[id].key == key)
  }

  predicate NoneBusy(ops: map<string, Operation>, database: string) {
    forall id :: id in ops ==> ops[id].database == database ==> ops[id].state.IsTerminal()
  }

  /** What reading, listing and retried ends may do: records end, remembered holds are dropped. */
  ghost predicate Tidied(s: Store, t: Store) {
    && t.up == s.up && t.cells.Keys == s.cells.Keys
    && forall id :: id in s.cells ==> TidiedCell(s.cells[id], t.cells[id])
  }

  /** The end that was kept is on record, or the interruption. */
  predicate EndedSince(c: Cell, now: Option<Operation>) {
    c.now.Some? && now.Some? &&
    match c.hold
    case EndKept(end) => now.value == Ended(c.now.value, end)
    case Unread => Runs(c.now) && now.value == Interrupted(c.now.value)
    case _ => false
  }

  /** The end of op is on record for good. */
  predicate Settled(c: Cell, op: Operation, end: End) {
    c.now == Some(Ended(op, end)) && c.behind == {} && (c.hold.Free? || c.hold.Unread?)
  }

  /** The running manager keeps the end of op, whether or not the record has it. */
  predicate KnownEnded(c: Cell, op: Operation, end: End) {
    c.hold == EndKept(end) && (c.now == Some(op) || c.now == Some(Ended(op, end)))
  }

  ghost predicate TidiedCell(c: Cell, d: Cell) {
    && d.born == c.born && d.begun == c.begun
    && (d.now == c.now || EndedSince(c, d.now))
    && (d.hold == c.hold || d.hold.Free?)
    && (c.hold.Owned? || c.hold.Stranded? || c.hold.Free? ==> d == c)
  }

  lemma TidiedTransitive(s: Store, t: Store, u: Store, id: string)
    requires Tidied(s, t) && Only(t, u, id) && (id in u.cells ==> id in t.cells && TidiedCell(t.cells[id], u.cells[id]))
    ensures Tidied(s, u)
  {
    assert id in t.cells ==> TidiedCell(s.cells[id], t.cells[id]);
    assert id in t.cells ==> TidiedCell(s.cells[id], u.cells[id]);
  }

  /** The listing that began at s has come to t: `entries` are still to be read,
      `found` could not be, and `ops` were; `clean` says that nothing failed on the way. */
  ghost predicate Listed(s: Store, t: Store, entries: set<string>, found: set<string>, ops: map<string, Operation>,
                         clean: bool)
  {
    && t.up == s.up && t.cells.Keys == s.cells.Keys && entries + found + ops.Keys <= s.cells.Keys
    && forall id :: id in s.cells ==>
         && ListedCell(s.cells[id], t.cells[id], id in entries, id in found, OpOf(ops, id), clean)
  }

  function OpOf(ops: map<string, Operation>, id: string): Option<Operation> {
    if id in ops then Some(ops[id]) else None
  }

  ghost predicate ListedCell(c: Cell, d: Cell, toRead: bool, failed: bool, op: Option<Operation>, clean: bool) {
    && TidiedCell(c, d)
    && (c.hold.EndKept? ==> d == c)
    && (toRead ==> d == c && d.now.Some? && !failed && op.None?)
    && (failed ==> d.now.Some? && (clean ==> d.now.value.key == ""))
    && (op.Some? ==> d.now == op && !d.hold.Unread? && op.value.key != "")
    && (d.now.Some? ==> toRead || failed || op.Some?) && !(failed && op.Some?)
  }

  function Entries(s: Store): set<string> {
    set id | id in s.cells && s.cells[id].now.Some?
  }

  /** A listing begins with every record still to be read. */
  lemma ListedBegins(s: Store)
    ensures Listed(s, s, Entries(s), {}, map[], true)
  {
  }

  /** The entry that is read. */
  lemma ListedHere(c: Cell, d: Cell, e: Cell, before: bool, clean: bool, r: Lookup)
    requires ListedCell(c, d, true, false, None, before) && (clean ==> before)
    requires TidiedCell(d, e) && (d.hold.EndKept? ==> e == d) && e.now.Some?
    requires r.Found? ==> r.op == e.now.value && !e.hold.Unread? && r.op.key != ""
    requires clean && !r.Found? ==> e.now.value.key == ""
    ensures ListedCell(c, e, false, !r.Found?, if r.Found? then Some(r.op) else None, clean)
  {
  }

  lemma ListedElsewhere(c: Cell, d: Cell, toRead: bool, failed: bool, op: Option<Operation>, before: bool, clean: bool)
    requires ListedCell(c, d, toRead, failed, op, before) && (clean ==> before)
    ensures ListedCell(c, d, toRead, failed, op, clean)
  {
  }

  lemma ListedWeaker(s: Store, t: Store, found: set<string>, ops: map<string, Operation>, before: bool, clean: bool)
    requires Listed(s, t, {}, found, ops, before) && (clean ==> before)
    ensures Listed(s, t, {}, found, ops, clean)
  {
    forall id | id in s.cells ensures ListedCell(s.cells[id], t.cells[id], false, id in found, OpOf(ops, id), clean) {
      ListedElsewhere(s.cells[id], t.cells[id], false, id in found, OpOf(ops, id), before, clean);
    }
  }

  lemma ListedStep(s: Store, t: Store, u: Store, entries: set<string>, found: set<string>, ops: map<string, Operation>,
                   before: bool, clean: bool, id: string, r: Lookup)
    requires Listed(s, t, entries, found, ops, before) && id in entries && (clean ==> before)
    requires Only(t, u, id) && id in u.cells && TidiedCell(t.cells[id], u.cells[id])
    requires t.cells[id].hold.EndKept? ==> u == t
    requires OnRecord(u, id) && (r.Found? ==> r.op == Record(u, id) && !u.cells[id].hold.Unread? && r.op.key != "")
    requires clean && !r.Found? ==> Record(u, id).key == ""
    ensures Listed(s, u, entries - {id}, if r.Found? then found else found + {id},
                   if r.Found? then ops[id := r.op] else ops, clean)
  {
    var found' := if r.Found? then found else found + {id};
    var ops' := if r.Found? then ops[id := r.op] else ops;
    assert id !in found && id !in ops by {
      assert ListedCell(s.cells[id], t.cells[id], id in entries, id in found, OpOf(ops, id), before);
    }
    hide ListedCell, TidiedCell;
    forall x | x in s.cells
      ensures ListedCell(s.cells[x], u.cells[x], x in entries - {id}, x in found', OpOf(ops', x), clean)
    {
      if x == id {
        ListedHere(s.cells[x], t.cells[x], u.cells[x], before, clean, r);
      } else {
        ListedElsewhere(s.cells[x], t.cells[x], x in entries, x in found, OpOf(ops, x), before, clean);
      }
    }
  }

  /** A listing that has come to its end. */
  lemma ListedTidied(r: Store, s: Store, t: Store, found: set<string>, ops: map<string, Operation>, clean: bool)
    requires Tidied(r, s) && Listed(s, t, {}, found, ops, clean)
    ensures Tidied(r, t)
    ensures forall id :: OnRecord(t, id) ==> id in found || (id in ops && ops[id] == Record(t, id))
    ensures forall id :: id in ops ==> OnRecord(t, id) && ops[id] == Record(t, id) && !t.cells[id].hold.Unread? && ops[id].key != ""
    ensures forall id :: id in found ==> OnRecord(t, id) && (clean ==> Record(t, id).key == "")
    ensures forall id :: id in s.cells && s.cells[id].hold.EndKept? ==> t.cells[id] == s.cells[id]
    ensures found !! ops.Keys
  {
    forall id | id in s.cells
      ensures TidiedCell(r.cells[id], t.cells[id])
    {
      assert TidiedCell(r.cells[id], s.cells[id]);
      assert ListedCell(s.cells[id], t.cells[id], false, id in found, OpOf(ops, id), clean);
    }
  }

  lemma ListedFound(s: Store, t: Store, entries: set<string>, found: set<string>, ops: map<string, Operation>, clean: bool, id: string)
    requires Listed(s, t, entries, found, ops, clean) && (id in ops || id in found)
    ensures id in ops ==> OnRecord(t, id) && ops[id] == Record(t, id) && !t.cells[id].hold.Unread? && ops[id].key != ""
    ensures id in found ==> OnRecord(t, id) && (clean ==> Record(t, id).key == "")
    ensures t.cells[id].hold.EndKept? ==> s.cells[id].hold.EndKept? && t.cells[id] == s.cells[id]
  {
    assert ListedCell(s.cells[id], t.cells[id], id in entries, id in found, OpOf(ops, id), clean);
  }

  /** What the start of the manager makes of an operation: it fails it, remembers it as unread, or leaves it. */
  ghost predicate Restarted(c: Cell, d: Cell, clean: bool) {
    || (c.now.None? && d == c)
    || (c.now.Some? && d == c.(hold := Unread) && (clean ==> c.now.value.key == ""))
    || (c.now.Some? && c.now.value.key != "" && d == if Runs(c.now) then Failing(c) else c)
  }

  function Failing(c: Cell): Cell
    requires c.now.Some?
  {
    Written(c, Interrupted(c.now.value), Done)
  }

  /** What is not accounted for otherwise is run by its worker, or was stranded by a failed create. */
  ghost predicate TrulyRuns(s: Store, id: string) {
    id in s.cells && (s.cells[id].hold.Owned? || s.cells[id].hold.Stranded?)
  }

  lemma LegalExtends(run: seq<Store>, step: Step)
    requires Legal(run) && Enabled(run[|run| - 1], step)
    ensures Legal(run + [Next(run[|run| - 1], step)])
  {
    var longer := run + [Next(run[|run| - 1], step)];
    forall i: int
      ensures StepAt(longer, i)
    {
      assert StepAt(run, i);
      if 0 < i < |run| {
        assert longer[i - 1] == run[i - 1] && longer[i] == run[i];
      }
    }
  }

  class OperationStore {
    var st: Store
    var unreadable: set<string>
    ghost var trace: seq<Store>
    ghost var faults: nat

    ghost predicate Valid()
      reads this
    {
      Legal(trace) && Inv(trace[0]) && st == trace[|trace| - 1]
    }

    lemma Cell(id: string)
      requires Valid() && id in st.cells
      ensures CellInv(st.up, id, st.cells[id]) && IsValidId(id)
    {
      RunInv(trace, |trace| - 1);
    }

    /** A process that starts on what an earlier one left, after a crash. */
    constructor (before: Store, left: map<string, Option<Operation>>, power: bool)
      requires Inv(before) && Enabled(before, Crash(left, power))
      ensures Valid() && trace == [before, st] && st == Next(before, Crash(left, power))
    {
      st, unreadable, faults := Next(before, Crash(left, power)), {}, 0;
      trace := [before, Next(before, Crash(left, power))];
      new;
      forall i: int
        ensures StepAt(trace, i)
      {
      }
    }

    method Take(step: Step)
      requires Valid() && Enabled(st, step)
      modifies this`st, this`trace
      ensures Valid() && old(trace) <= trace && trace[0] == old(trace[0]) && st == Next(old(st), step)
    {
      LegalExtends(trace, step);
      st := Next(st, step);
      trace := trace + [st];
    }

    method Attempt() returns (w: Write)
      modifies this`faults
      ensures faults >= old(faults) && (w.Done? <==> faults == old(faults))
    {
      w := *;
      if !w.Done? {
        faults := faults + 1;
      }
    }

    /** decodeLocked: a record that cannot be read, or lacks what admission matches on, is a failure. */
    method Decode(id: string) returns (r: Lookup)
      modifies this`faults
      ensures faults >= old(faults)
      ensures r.NotFound? <==> !IsValidId(id) || !OnRecord(st, id)
      ensures r.Found? ==> OnRecord(st, id) && r.op == Record(st, id) && r.op.key != ""
      ensures faults == old(faults) && r.Failure? ==> OnRecord(st, id) && Record(st, id).key == ""
    {
      if !IsValidId(id) || !OnRecord(st, id) {
        return NotFound;
      }
      var fails: bool := *;
      if fails {
        faults := faults + 1;
        return Failure;
      }
      r := if Record(st, id).key == "" then Failure else Found(Record(st, id));
    }

    /** Peek: reads only. */
    method Peek(id: string) returns (r: Lookup)
      modifies this`faults
      ensures faults >= old(faults)
      ensures !r.Failure? || faults == old(faults) ==> r == Peeked(st, id)
    {
      r := Decode(id);
      if r.Found? {
        match st.cells[id].hold {
          case EndKept(end) => r := Found(Ended(r.op, end));
          case Unread => if !r.op.state.IsTerminal() { r := Found(Interrupted(r.op)); }
          case _ =>
        }
      }
    }

    /** readLocked, with failInterruptedLocked. */
    method Read(id: string) returns (r: Lookup)
      requires Valid() && (st.up || (id in st.cells ==> st.cells[id].hold.Free?))
      modifies this`st, this`trace, this`faults
      ensures Valid() && old(trace) <= trace && faults >= old(faults) && Only(old(st), st, id)
      ensures id in st.cells ==> TidiedCell(old(st).cells[id], st.cells[id])
      ensures r.Found? ==> OnRecord(st, id) && r.op == Record(st, id) && !st.cells[id].hold.Unread? && r.op.key != ""
      ensures r.NotFound? <==> !IsValidId(id) || !OnRecord(old(st), id)
      ensures r.NotFound? ==> st == old(st)
      ensures faults == old(faults) && r.Failure? ==> st == old(st) && OnRecord(st, id) && Record(st, id).key == ""
      ensures id in st.cells && old(st.cells[id].hold.EndKept?) ==> st == old(st)
      ensures (!r.Failure? || faults == old(faults)) && !(id in st.cells && st.cells[id].hold.EndKept?) ==>
        r == Peeked(old(st), id)
    {
      r := Decode(id);
      if r.Found? && st.cells[id].hold.Unread? {
        if r.op.state.IsTerminal() {
          Take(SeeEnded(id));
        } else {
          var w := Attempt();
          Take(FailUnread(id, w));
          r := if w.Done? then Found(Interrupted(r.op)) else Failure;
        }
      }
    }

    /** Update of an operation that runs, by its worker. */
    method Update(id: string, change: Change) returns (ok: bool)
      requires Valid() && HasWorker(st, id) && Progress(change)
      modifies this`st, this`trace, this`faults
      ensures Valid() && old(trace) <= trace && HasWorker(st, id) && Only(old(st), st, id)
      ensures Record(st, id) == Record(old(st), id) || Record(st, id) == Changed(Record(old(st), id), change)
      ensures ok ==> Record(st, id) == Changed(Record(old(st), id), change) && st.cells[id].behind == {}
      ensures faults >= old(faults) && (!ok && faults == old(faults) ==> st == old(st) && Record(st, id).key == "")
    {
      Cell(id);
      var r := Read(id);
      if !r.Found? {
        return false;
      }
      var w := Attempt();
      Take(Alter(id, change, w));
      ok := w.Done?;
    }

    /** settleLocked: writes the kept end of id, if there is one. */
    method WriteKeptEnd(id: string) returns (ok: bool)
      requires Valid() && st.up
      modifies this`st, this`trace, this`faults
      ensures Valid() && st.up && old(trace) <= trace && faults >= old(faults) && Only(old(st), st, id)
      ensures id in st.cells ==> TidiedCell(old(st).cells[id], st.cells[id])
      ensures !(id in old(st).cells && old(st).cells[id].hold.EndKept?) ==> ok && st == old(st) && faults == old(faults)
      ensures id in old(st).cells && old(st).cells[id].hold.EndKept? && ok ==>
        OnRecord(old(st), id) && st.cells[id].hold.Free? && Settled(st.cells[id], Record(old(st), id), old(st).cells[id].hold.end)
      ensures !ok ==> id in st.cells && st.cells[id].hold == old(st).cells[id].hold
      ensures !ok && faults == old(faults) ==> OnRecord(st, id) && Record(st, id).key == "" && st == old(st)
    {
      if id !in st.cells || !st.cells[id].hold.EndKept? {
        return true;
      }
      Cell(id);
      var r := Read(id);
      if !r.Found? {
        return false;
      }
      var w := Attempt();
      Take(WriteEnd(id, w));
      ok := w.Done?;
    }

    /** Settle: the worker of id ended. An end that cannot be written is kept. */
    method Settle(id: string, end: End) returns (ok: bool)
      requires Valid() && HasWorker(st, id)
      modifies this`st, this`trace, this`faults
      ensures Valid() && st.up && old(trace) <= trace && Only(old(st), st, id)
      ensures !HasWorker(st, id)
      ensures ok ==> Settled(st.cells[id], Record(old(st), id), end) && st.cells[id].hold.Free?
      ensures !ok ==> KnownEnded(st.cells[id], Record(old(st), id), end)
      ensures faults >= old(faults) && (!ok && faults == old(faults) ==> Record(old(st), id).key == "")
    {
      Cell(id);
      Take(Keep(id, end));
      ok := WriteKeptEnd(id);
    }

    method Get(id: string) returns (r: Lookup)
      requires Valid() && st.up
      modifies this`st, this`trace, this`faults
      ensures Valid() && st.up && old(trace) <= trace && faults >= old(faults) && Only(old(st), st, id)
      ensures !r.Failure? || faults == old(faults) ==> r == Peeked(old(st), id)
      ensures r.Found? && !r.op.state.IsTerminal() ==> TrulyRuns(st, id)
      ensures id in st.cells ==> id in old(st).cells && TidiedCell(old(st).cells[id], st.cells[id])
      ensures r.Found? ==> OnRecord(st, id) && r.op == Record(st, id) && r.op.key != ""
      ensures r.NotFound? ==> !IsValidId(id) || !OnRecord(st, id)
    {
      if !IsValidId(id) {
        return NotFound;
      }
      var ok := WriteKeptEnd(id);
      if !ok {
        return Failure;
      }
      r := Read(id);
      if id in st.cells {
        Cell(id);
      }
    }

    /** Every end kept in memory is tried again. */
    method WriteKeptEnds()
      requires Valid() && st.up
      modifies this`st, this`trace, this`faults
      ensures Valid() && st.up && old(trace) <= trace && faults >= old(faults) && Tidied(old(st), st)
      ensures faults == old(faults) ==> forall id :: OnRecord(st, id) && st.cells[id].hold.EndKept? ==> Record(st, id).key == ""
    {
      var todo := set id | id in st.cells && st.cells[id].hold.EndKept?;
      while todo != {}
        invariant Valid() && st.up && old(trace) <= trace && faults >= old(faults) && Tidied(old(st), st)
        invariant faults == old(faults) ==>
          forall id :: OnRecord(st, id) && st.cells[id].hold.EndKept? && id !in todo ==> Record(st, id).key == ""
      {
        var id :| id in todo;
        todo := todo - {id};
        ghost var before := st;
        var _ := WriteKeptEnd(id);
        TidiedTransitive(old(st), before, st, id);
      }
    }

    method ReadEntry(id: string, ghost s: Store, ghost entries: set<string>, ghost found: set<string>,
                     ghost ops: map<string, Operation>, ghost clean: bool) returns (r: Lookup)
      requires Valid() && id in entries && Listed(s, st, entries, found, ops, clean)
      requires s.up || forall id :: id in s.cells ==> s.cells[id].hold.Free?
      modifies this`st, this`trace, this`faults
      ensures Valid() && old(trace) <= trace && faults >= old(faults)
      ensures Listed(s, st, entries - {id}, if r.Found? then found else found + {id},
                     if r.Found? then ops[id := r.op] else ops, clean && faults == old(faults))
    {
      Cell(id);
      assert ListedCell(s.cells[id], st.cells[id], true, id in found, OpOf(ops, id), clean);
      r := Read(id);
      ListedStep(s, old(st), st, entries, found, ops, clean, clean && faults == old(faults), id, r);
    }

    /** listLocked: the records it can read; those it cannot are in `unreadable`. */
    method List() returns (ok: bool, ops: map<string, Operation>)
      requires Valid() && (st.up || forall id :: id in st.cells ==> st.cells[id].hold.Free?)
      modifies this`st, this`unreadable, this`trace, this`faults
      ensures Valid() && old(trace) <= trace && faults >= old(faults)
      ensures !ok ==> faults > old(faults) && st == old(st)
      ensures ok ==> Listed(old(st), st, {}, unreadable, ops, faults == old(faults))
    {
      ops := map[];
      var fails: bool := *;
      if fails {
        faults := faults + 1;
        return false, ops;
      }
      hide Legal, Inv, Listed, Entries;
      var entries := Entries(st);
      var found := {};
      ListedBegins(st);
      while entries != {}
        invariant Valid() && old(trace) <= trace && faults >= old(faults)
        invariant Listed(old(st), st, entries, found, ops, faults == old(faults))
      {
        var id :| id in entries;
        var r := ReadEntry(id, old(st), entries, found, ops, faults == old(faults));
        entries := entries - {id};
        if r.Found? {
          ops := ops[id := r.op];
        } else {
          found := found + {id};
        }
      }
      unreadable := found;
      ok := true;
    }

    /** FindOrCreate. `newId` is the identity a new operation gets. `mid` is the
        store as it was judged: after the kept ends were tried and the records
        listed, before anything is created, and `read` are the records that could
        be read. A refusal, and the answer by an existing operation, rest on the
        record `why`. */
    method FindOrCreate(kind: Kind, key: string, hash: string, database: string, newId: string)
      returns (r: Admission, ghost mid: Store, ghost why: string, ghost read: set<string>)
      requires Valid() && st.up && IsValidId(newId) && newId !in st.cells
      modifies this`st, this`unreadable, this`trace, this`faults
      ensures Valid() && st.up && old(trace) <= trace && faults >= old(faults) && Tidied(old(st), mid)
      ensures match r
        case Admitted(op) =>
          && op == Asked(kind, key, hash, database, newId)
          && Admissible(mid, op) && st == mid.(cells := mid.cells[newId := Created(op, Done, false)])
        case StoreFailure =>
          && faults > old(faults)
          && (st == mid || (newId in st.cells && !st.cells[newId].begun && st == mid.(cells := mid.cells[newId := st.cells[newId]])))
        case _ => st == mid && Answers(st, Asked(kind, key, hash, database, newId), why, r, faults == old(faults))
      // Without a fault every record that has a key was read.
      ensures faults == old(faults) ==> forall id :: id in read <==> OnRecord(mid, id) && Record(mid, id).key != ""
      // A record under the key is answered before anything is refused for another.
      ensures (exists id :: id in read && OnRecord(mid, id) && SameKey(Record(mid, id), Asked(kind, key, hash, database, newId))) ==>
        r.Existing? || r.IdempotencyConflict? || r.EndUnwritten?
      ensures r.InProgress? ==> forall id :: OnRecord(mid, id) ==> id in read
      // So a retry of an admitted request is answered by its operation.
      ensures faults == old(faults) && key != "" ==>
        forall x :: HoldsAlone(old(st), Asked(kind, key, hash, database, newId), x) ==>
          why == x && OnRecord(mid, x) && r == Existing(Record(mid, x))
    {
      hide Legal, Inv, TidiedCell;
      why, read := "", {};
      var op := Asked(kind, key, hash, database, newId);
      var ok, v;
      ok, v, read := Survey(op);
      mid := st;
      if faults == old(faults) && key != "" {
        forall x | HoldsAlone(old(st), op, x) ensures v.Answer? && v.id == x && v.answer.Existing? {
          AloneAnswered(old(st), st, op, x, read, v);
        }
      }
      if !ok {
        return StoreFailure, mid, why, read;
      }
      if v.Answer? {
        return v.answer, mid, v.id, read;
      }
      ok := CreateRecord(op);
      r := if ok then Admitted(op) else StoreFailure;
    }

    lemma AloneAnswered(s: Store, t: Store, op: Operation, x: string, read: set<string>, v: Verdict)
      requires Valid() && st == t && Tidied(s, t) && HoldsAlone(s, op, x) && op.key != ""
      requires forall id :: id in read <==> OnRecord(t, id) && Record(t, id).key != ""
      requires v.Answer? ==> Answers(t, op, v.id, v.answer, true)
      requires (exists id :: id in read && SameKey(Record(t, id), op)) ==>
        v.Answer? && (v.answer.Existing? || v.answer.IdempotencyConflict? || v.answer.EndUnwritten?)
      ensures v.Answer? && v.id == x && OnRecord(t, x) && v.answer == Existing(Record(t, x))
    {
      Cell(x);
      assert TidiedCell(s.cells[x], t.cells[x]);
      assert x in read && SameKey(Record(t, x), op);
      assert v.Answer? && Answers(t, op, v.id, v.answer, true);
      var y := v.id;
      assert TidiedCell(s.cells[y], t.cells[y]);
      assert OnRecord(s, y) && SameKey(Record(s, y), op);
    }

    method Survey(op: Operation) returns (ok: bool, v: Verdict, ghost read: set<string>)
      requires Valid() && st.up
      modifies this`st, this`unreadable, this`trace, this`faults
      ensures Valid() && old(trace) <= trace && faults >= old(faults) && Tidied(old(st), st)
      ensures !ok ==> faults > old(faults)
      ensures ok && v.Admit? ==> Admissible(st, op)
      ensures ok && v.Answer? ==> Answers(st, op, v.id, v.answer, faults == old(faults))
      ensures !ok ==> read == {} && v.Admit?
      ensures ok ==> forall id :: id in read ==> OnRecord(st, id)
      ensures faults == old(faults) ==> forall id :: id in read <==> OnRecord(st, id) && Record(st, id).key != ""
      ensures (exists id :: id in read && SameKey(Record(st, id), op)) ==>
        v.Answer? && (v.answer.Existing? || v.answer.IdempotencyConflict? || v.answer.EndUnwritten?)
      ensures v.Answer? && v.answer.InProgress? ==> forall id :: OnRecord(st, id) ==> id in read
    {
      hide Legal, Inv, ListedCell, TidiedCell;
      v, read := Admit, {};
      WriteKeptEnds();
      ghost var settled, before := st, faults;
      var ops;
      ok, ops := List();
      if ok {
        ListedWeaker(settled, st, unreadable, ops, faults == before, faults == old(faults));
        ListedTidied(old(st), settled, st, unreadable, ops, faults == old(faults));
        v := Judge(op.kind, op.key, op.hash, op.database, ops);
        read := ops.Keys;
        if v.Answer? {
          ListedFound(settled, st, {}, unreadable, ops, faults == old(faults), v.id);
          Cell(v.id);
        }
      }
    }

    /** A record whose write failed may be in place; it is removed again, if it can be. */
    method CreateRecord(op: Operation) returns (ok: bool)
      requires Valid() && Enabled(st, Create(op, Done, false))
      modifies this`st, this`trace, this`faults
      ensures Valid() && old(trace) <= trace && faults >= old(faults) && (ok <==> faults == old(faults))
      ensures op.id in st.cells && st == old(st).(cells := old(st).cells[op.id := st.cells[op.id]])
      ensures ok ==> st.cells[op.id] == Created(op, Done, false)
      ensures !ok ==> !st.cells[op.id].begun
    {
      var w := Attempt();
      var removed: bool := *;
      Take(Create(op, w, removed));
      ok := w.Done?;
    }

    /** The decision of FindOrCreate over the records that could be read. */
    method Judge(kind: Kind, key: string, hash: string, database: string, ops: map<string, Operation>) returns (v: Verdict)
      requires ops.Keys <= st.cells.Keys
      // Under the key first, then what could not be read, then the database.
      ensures !NoneUnder(ops, kind, key) <==> v.Answer? && (v.answer.Existing? || v.answer.IdempotencyConflict? || v.answer.EndUnwritten?)
      ensures NoneUnder(ops, kind, key) && unreadable != {} <==> v.Answer? && v.answer.RecordUnreadable?
      ensures NoneUnder(ops, kind, key) && unreadable == {} && !NoneBusy(ops, database) <==> v.Answer? && v.answer.InProgress?
      ensures NoneUnder(ops, kind, key) && unreadable == {} && NoneBusy(ops, database) <==> v.Admit?
      ensures v.Answer? ==> match v.answer
        case Existing(op) => v.id in ops && ops[v.id] == op && op.kind == kind && op.key == key && op.hash == hash && !st.cells[v.id].hold.EndKept?
        case IdempotencyConflict => v.id in ops && ops[v.id].kind == kind && ops[v.id].key == key && ops[v.id].hash != hash
        case EndUnwritten => v.id in ops && ops[v.id].kind == kind && ops[v.id].key == key && ops[v.id].hash == hash && st.cells[v.id].hold.EndKept?
        case RecordUnreadable => v.id in unreadable
        case InProgress => v.id in ops && ops[v.id].database == database && !ops[v.id].state.IsTerminal()
        case _ => false
    {
      var todo := ops.Keys;
      while todo != {}
        invariant todo <= ops.Keys
        invariant forall id :: id in ops && id !in todo ==> !(ops[id].kind == kind && ops[id].key == key)
      {
        var id :| id in todo;
        todo := todo - {id};
        var op := ops[id];
        if op.key == key && op.kind == kind {
          if op.hash != hash {
            return Answer(id, IdempotencyConflict);
          }
          if st.cells[id].hold.EndKept? {
            return Answer(id, EndUnwritten);
          }
          return Answer(id, Existing(op));
        }
      }
      if unreadable != {} {
        var id :| id in unreadable;
        return Answer(id, RecordUnreadable);
      }
      todo := ops.Keys;
      while todo != {}
        invariant todo <= ops.Keys
        invariant forall id :: id in ops && id !in todo ==> ops[id].database == database ==> ops[id].state.IsTerminal()
      {
        var id :| id in todo;
        todo := todo - {id};
        if ops[id].database == database && !ops[id].state.IsTerminal() {
          return Answer(id, InProgress);
        }
      }
      v := Admit;
    }

    /** The records, read one by one, up to the first that cannot be read. */
    method ReadAll() returns (ok: bool, ops: map<string, Operation>, ghost bad: string)
      requires Valid() && st.up
      modifies this`st, this`trace, this`faults
      ensures Valid() && st.up && old(trace) <= trace && faults >= old(faults)
      ensures ok ==> Listed(old(st), st, {}, {}, ops, faults == old(faults))
      ensures !ok && faults == old(faults) ==> OnRecord(st, bad) && Record(st, bad).key == ""
    {
      ops, bad, ok := map[], "", true;
      var fails: bool := *;
      if fails {
        faults := faults + 1;
        return false, ops, bad;
      }
      hide Legal, Inv, Listed, Entries;
      var entries := Entries(st);
      ListedBegins(st);
      while entries != {}
        invariant Valid() && old(trace) <= trace && faults >= old(faults)
        invariant Listed(old(st), st, entries, {}, ops, faults == old(faults))
      {
        var id :| id in entries;
        var r := ReadEntry(id, old(st), entries, {}, ops, faults == old(faults));
        entries := entries - {id};
        if !r.Found? {
          assert {} + {id} == {id};
          ListedFound(old(st), st, entries, {id}, ops, faults == old(faults), id);
          return false, ops, id;
        }
        ops := ops[id := r.op];
      }
    }

    /** FindByKey: every operation under the key, or a failure while one record cannot be read. */
    method FindByKey(key: string) returns (ok: bool, found: map<string, Operation>, ghost bad: string)
      requires Valid() && st.up
      modifies this`st, this`trace, this`faults
      ensures Valid() && st.up && old(trace) <= trace && faults >= old(faults)
      ensures ok ==> forall id :: id in found <==> OnRecord(st, id) && Record(st, id).key == key
      ensures ok ==> forall id :: id in found ==>
        found[id] == Record(st, id) && (!found[id].state.IsTerminal() ==> TrulyRuns(st, id))
      ensures !ok && faults == old(faults) ==> OnRecord(st, bad) && Record(st, bad).key == ""
    {
      hide Legal, Inv, Listed, Tidied;
      WriteKeptEnds();
      ghost var settled, before := st, faults;
      var ops;
      ok, ops, bad := ReadAll();
      found := map[];
      if !ok {
        return;
      }
      ListedWeaker(settled, st, {}, ops, faults == before, faults == old(faults));
      ListedTidied(old(st), settled, st, {}, ops, faults == old(faults));
      found := map id | id in ops && ops[id].key == key :: ops[id];
      if id :| id in found && st.cells[id].hold.EndKept? {
        ListedFound(settled, st, {}, {}, ops, faults == old(faults), id);
        return false, found, id;
      }
      forall id | id in found
        ensures !found[id].state.IsTerminal() ==> TrulyRuns(st, id)
      {
        Cell(id);
      }
    }

    /** reconcileOnStart: what was running when the manager stopped is failed. */
    method ReconcileOnStart() returns (ok: bool)
      requires Valid() && !st.up && forall id :: id in st.cells ==> st.cells[id].hold.Free?
      modifies this`st, this`unreadable, this`trace, this`faults
      ensures Valid() && old(trace) <= trace && faults >= old(faults)
      ensures ok <==> st.up
      ensures !ok ==> faults > old(faults)
      ensures ok ==> forall id :: id in st.cells && Runs(st.cells[id].now) ==> st.cells[id].hold.Unread?
      // What ran is failed, and what could not be read is remembered; nothing else changes.
      ensures ok ==> st.cells.Keys == old(st).cells.Keys && forall id :: id in st.cells ==>
        Restarted(old(st).cells[id], st.cells[id], faults == old(faults))
    {
      ghost var settled := st;
      var ops;
      ok, ops := List();
      if ok {
        ListedTidied(settled, settled, st, unreadable, ops, faults == old(faults));
        ghost var known := forall id :: id in unreadable ==> Record(settled, id).key == "";
        assert st == settled by {
          forall id | id in settled.cells ensures st.cells[id] == settled.cells[id] {
            assert TidiedCell(settled.cells[id], st.cells[id]);
          }
        }
        RememberUnread(ops);
        ghost var remembered := st;
        ok := FailRunning(ops);
        if ok {
          forall id | id in st.cells ensures Restarted(settled.cells[id], st.cells[id], faults == old(faults)) {
            assert OnRecord(settled, id) ==> id in unreadable || id in ops;
          }
        }
      }
    }

    method RememberUnread(ops: map<string, Operation>)
      requires Valid() && !st.up && unreadable !! ops.Keys
      requires forall id :: id in unreadable ==> OnRecord(st, id)
      requires forall id :: OnRecord(st, id) ==> id in unreadable || id in ops
      requires forall id :: id in ops ==> OnRecord(st, id) && ops[id] == Record(st, id)
      modifies this`st, this`trace
      ensures Valid() && !st.up && old(trace) <= trace && st.cells.Keys == old(st).cells.Keys
      ensures forall id :: id in st.cells ==>
        st.cells[id] == if id in unreadable then old(st).cells[id].(hold := Unread) else old(st).cells[id]
    {
      var todo := unreadable;
      while todo != {}
        invariant Valid() && !st.up && old(trace) <= trace && st.cells.Keys == old(st).cells.Keys && todo <= unreadable
        invariant forall id :: id in st.cells ==>
          st.cells[id] == if id in unreadable && id !in todo then old(st).cells[id].(hold := Unread) else old(st).cells[id]
      {
        var id :| id in todo;
        todo := todo - {id};
        Take(Remember(id));
      }
    }

    method FailRunning(ops: map<string, Operation>) returns (ok: bool)
      requires Valid() && !st.up
      requires forall id :: OnRecord(st, id) ==> st.cells[id].hold.Unread? || id in ops
      requires forall id :: id in ops ==> OnRecord(st, id) && ops[id] == Record(st, id)
      modifies this`st, this`trace, this`faults
      ensures Valid() && old(trace) <= trace && faults >= old(faults) && (ok <==> st.up) && (ok <==> faults == old(faults))
      ensures ok ==> forall id :: id in st.cells && Runs(st.cells[id].now) ==> st.cells[id].hold.Unread?
      ensures ok ==> FailedBut(old(st), st, ops.Keys, {})
    {
      hide Legal, Inv, CellInv, FailedBut;
      FailedNone(st, ops.Keys);
      var todo := ops.Keys;
      while todo != {}
        invariant Valid() && !st.up && old(trace) <= trace && faults == old(faults)
        invariant todo <= ops.Keys && FailedBut(old(st), st, ops.Keys, todo)
      {
        var id :| id in todo;
        FailsNext(old(st), st, ops.Keys, todo, id);
        todo := todo - {id};
        if !ops[id].state.IsTerminal() {
          var w := Attempt();
          Take(FailAtStart(id, w));
          if !w.Done? {
            return false;
          }
        }
      }
      FailedAll(old(st), st, ops);
      Take(Up);
      ok := true;
    }
  }

  /** Of these operations every one that ran is failed, but those still to do; nothing else is changed. */
  ghost predicate FailedBut(s: Store, t: Store, ids: set<string>, todo: set<string>) {
    t.cells.Keys == s.cells.Keys && forall id :: id in s.cells ==>
      t.cells[id] == if id in ids && id !in todo && Runs(s.cells[id].now) then Failing(s.cells[id]) else s.cells[id]
  }

  lemma FailedNone(s: Store, ids: set<string>)
    ensures FailedBut(s, s, ids, ids)
  {
  }

  lemma FailsNext(s: Store, t: Store, ids: set<string>, todo: set<string>, id: string)
    requires FailedBut(s, t, ids, todo) && id in todo && todo <= ids && OnRecord(s, id)
    ensures id in t.cells && t.cells[id] == s.cells[id]
    ensures !Runs(s.cells[id].now) ==> FailedBut(s, t, ids, todo - {id})
    ensures Runs(s.cells[id].now) ==> FailedBut(s, t.(cells := t.cells[id := Failing(s.cells[id])]), ids, todo - {id})
  {
    hide Written;
  }

  lemma FailedAll(s: Store, t: Store, ops: map<string, Operation>)
    requires FailedBut(s, t, ops.Keys, {})
    requires forall id :: OnRecord(s, id) ==> s.cells[id].hold.Unread? || id in ops
    ensures forall id :: id in t.cells && Runs(t.cells[id].now) ==> t.cells[id].hold.Unread?
    ensures FailedBut(s, t.(up := true), ops.Keys, {})
  {
  }

  // ---- What a retry finds

  /** In every run, from the moment a request is admitted as x: x is on record under it for good, and holds its key
      alone but for records that no worker was ever started for. */
  lemma AdmittedStays(run: seq<Store>, m: nat, n: nat, x: string, op: Operation)
    requires Legal(run) && Inv(run[0]) && m <= n < |run| && x in run[m].cells && run[m].cells[x] == Created(op, Done, false)
    ensures OnRecord(run[n], x) && SameIdentity(Record(run[n], x), op)
    ensures forall y :: OnRecord(run[n], y) && SameKey(Record(run[n], y), op) && y != x ==> !run[n].cells[y].begun
    ensures HoldsAlone(run[n], op, x) <==> forall y :: OnRecord(run[n], y) && SameKey(Record(run[n], y), op) ==> y == x
  {
    RunInv(run, n);
    RunGrows(run, m, n);
    assert CellInv(run[n].up, x, run[n].cells[x]);
    forall y | OnRecord(run[n], y) && SameKey(Record(run[n], y), op) && y != x ensures !run[n].cells[y].begun {
      assert CellInv(run[n].up, y, run[n].cells[y]) && Apart(x, run[n].cells[x], y, run[n].cells[y]);
    }
  }

  function Dropped(a: Operation): Store {
    Store(true, map[a.id := Created(a, InPlace, true)])
  }

  function Both(a: Operation, b: Operation): Store {
    Store(true, map[a.id := Created(a, InPlace, true), b.id := Created(b, Done, false)])
  }

  predicate AskedTwice(a: Operation, b: Operation) {
    && IsValidId(a.id) && IsValidId(b.id) && a.id != b.id && SameKey(a, b)
    && a.state == b.state == Pending && a.restored.None? && b.restored.None?
  }

  /** What a power loss leaves of both. */
  function Returned(a: Operation, b: Operation): Store {
    Store(false, map[a.id := Cell(a, false, Some(a), {}, Free), b.id := Cell(b, true, Some(b), {}, Free)])
  }

  lemma AdmitsSecond(a: Operation, b: Operation)
    requires AskedTwice(a, b)
    ensures Takes(Empty, Store(true, map[])) && Takes(Store(true, map[]), Dropped(a)) && Takes(Dropped(a), Both(a, b))
  {
    hide IsValidId;
    var up := Store(true, map[]);
    assert up == Next(Empty, Up);
    assert Dropped(a) == Next(up, Create(a, InPlace, true));
    assert Enabled(Dropped(a), Create(b, Done, false)) && Both(a, b) == Next(Dropped(a), Create(b, Done, false));
  }

  lemma BringsBack(a: Operation, b: Operation)
    requires AskedTwice(a, b)
    ensures Takes(Both(a, b), Returned(a, b))
  {
    var crash := Crash(map[a.id := Some(a), b.id := Some(b)], true);
    assert Enabled(Both(a, b), crash);
    assert Returned(a, b) == Next(Both(a, b), crash);
  }

  /** A request whose create fails in place is asked again and admitted, and a power loss brings the first record back
      under the same key. */
  lemma FailedCreateComesBack(a: Operation, b: Operation) returns (run: seq<Store>)
    requires AskedTwice(a, b)
    ensures IsRun(run) && |run| == 5 && b.id in run[3].cells && run[3].cells[b.id] == Created(b, Done, false)
    ensures HoldsAlone(run[3], b, b.id)
    ensures OnRecord(run[4], a.id) && SameKey(Record(run[4], a.id), b) && !HoldsAlone(run[4], b, b.id)
  {
    AdmitsSecond(a, b);
    BringsBack(a, b);
    hide Takes, IsValidId;
    run := [Empty, Store(true, map[]), Dropped(a), Both(a, b), Returned(a, b)];
  }

  // ---- What a read answers

  /** The record tells how the operation ended: a completed one with its artifact, a failed one with its reason. */
  predicate Tells(op: Operation, before: Operation, end: End) {
    && SameIdentity(op, before) && op.restored == before.restored && op.stagingDir == before.stagingDir
    && match end
       case EndFailed(reason) => op.state == Failed && op.reason == reason && op.artifact == before.artifact
       case EndCompleted(artifact) =>
         op.state == Completed && op.reason == before.reason && op.artifact == if artifact.Some? then artifact else before.artifact
  }

  lemma {:induction false} SettledAt(run: seq<Store>, m: nat, n: nat, id: string, op: Operation, end: End)
    requires Legal(run) && m <= n < |run| && id in run[m].cells && Settled(run[m].cells[id], op, end)
    ensures id in run[n].cells && Settled(run[n].cells[id], op, end)
  {
    if m < n {
      SettledAt(run, m, n - 1, id, op, end);
      assert StepAt(run, n);
    }
  }

  /** In every run, once Settle has written an end every read tells that end, across restarts and power losses. */
  lemma SettledIsAnswered(run: seq<Store>, m: nat, n: nat, id: string, op: Operation, end: End)
    requires Legal(run) && m <= n < |run| && id in run[m].cells && Settled(run[m].cells[id], op, end)
    requires IsValidId(id) && op.key != ""
    ensures Peeked(run[n], id).Found? && Tells(Peeked(run[n], id).op, op, end)
  {
    hide IsValidId;
    SettledAt(run, m, n, id, op, end);
  }

  lemma {:induction false} KnownAt(run: seq<Store>, m: nat, n: nat, id: string, op: Operation, end: End)
    requires Legal(run) && m <= n < |run| && id in run[m].cells && KnownEnded(run[m].cells[id], op, end)
    requires forall i :: m <= i <= n ==> run[i].up
    ensures id in run[n].cells && (Settled(run[n].cells[id], op, end) || KnownEnded(run[n].cells[id], op, end))
  {
    if m < n {
      KnownAt(run, m, n - 1, id, op, end);
      assert StepAt(run, n);
    }
  }

  /** And when Settle could not write the end, every read tells it until the manager restarts. */
  lemma KnownIsAnswered(run: seq<Store>, m: nat, n: nat, id: string, op: Operation, end: End)
    requires Legal(run) && m <= n < |run| && id in run[m].cells && KnownEnded(run[m].cells[id], op, end)
    requires forall i :: m <= i <= n ==> run[i].up
    requires IsValidId(id) && op.key != ""
    ensures Peeked(run[n], id).Found? && Tells(Peeked(run[n], id).op, op, end)
  {
    hide IsValidId;
    KnownAt(run, m, n, id, op, end);
  }

  /** In every run a read answers an operation as running exactly when its worker runs,
      or when its create failed and its record could not be removed again. */
  lemma AnsweredRunning(run: seq<Store>, n: nat, id: string)
    requires IsRun(run) && n < |run| && run[n].up && OnRecord(run[n], id) && Record(run[n], id).key != ""
    ensures Peeked(run[n], id).Found?
    ensures !Peeked(run[n], id).op.state.IsTerminal() <==>
              HasWorker(run[n], id) || (run[n].cells[id].hold.Stranded? && Runs(run[n].cells[id].now))
  {
    RunInv(run, n);
    assert CellInv(run[n].up, id, run[n].cells[id]);
  }

  /** The exception happens: a create that fails in place, whose removal fails too,
      is answered as Pending although nothing ever runs it. */
  lemma StrandedCreate(op: Operation) returns (run: seq<Store>)
    requires IsValidId(op.id) && op.key != "" && op.state == Pending && op.restored.None?
    ensures IsRun(run) && |run| == 3 && Peeked(run[2], op.id) == Found(op) && !HasWorker(run[2], op.id)
  {
    var up := Next(Empty, Up);
    var s := Next(up, Create(op, InPlace, false));
    run := [Empty, up, s];
    assert Takes(run[0], run[1]) by { assert Enabled(Empty, Up); }
    assert Takes(run[1], run[2]) by { assert Enabled(up, Create(op, InPlace, false)); }
    forall i: int
      ensures StepAt(run, i)
    {
    }
  }
}
