/** The database root of a member: databases.txt, line by line, and what becomes
    of a database directory that carries an ownership marker: the read-only report
    of it, and the reclaim that acts on it. */
module DatabaseRoots {
  import opened Operations
  import opened StoreRuns
  import opened OperationStores
  import Ownership

  // ---- databases.txt

  predicate IsSpace(c: char) {
    c == ' ' || c == '\t' || c == '\r' || c == '\n'
  }

  function Word(line: string): string {
    if line == "" || IsSpace(line[0]) then "" else [line[0]] + Word(line[1..])
  }

  /** The first field of a line; empty for a blank one. */
  function FirstField(line: string): string {
    if line != "" && IsSpace(line[0]) then FirstField(line[1..]) else Word(line)
  }

  predicate Registers(line: string, database: string) {
    FirstField(line) != "" && FirstField(line)[0] != '#' && FirstField(line) == database
  }

  predicate IsRegistered(lines: seq<string>, database: string) {
    exists i :: 0 <= i < |lines| && Registers(lines[i], database)
  }

  /** The lines that do not begin with database, in their order. */
  function Kept(lines: seq<string>, database: string): seq<string> {
    if lines == [] then []
    else (if database != "" && FirstField(lines[0]) == database then [] else [lines[0]]) + Kept(lines[1..], database)
  }

  lemma {:induction false} KeptExtends(lines: seq<string>, line: string, database: string)
    ensures Kept(lines + [line], database) == Kept(lines, database) + (if database != "" && FirstField(line) == database then [] else [line])
  {
    if lines != [] {
      assert (lines + [line])[1..] == lines[1..] + [line];
      KeptExtends(lines[1..], line, database);
    }
  }

  /** Exactly the lines of the database go, each of the others as often as it was there. */
  lemma {:induction false} KeptCounts(lines: seq<string>, database: string, line: string)
    ensures multiset(Kept(lines, database))[line] ==
            if database != "" && FirstField(line) == database then 0 else multiset(lines)[line]
  {
    if lines != [] {
      assert lines == [lines[0]] + lines[1..];
      KeptCounts(lines[1..], database, line);
    }
  }

  lemma KeptUnregistered(lines: seq<string>, database: string)
    ensures !IsRegistered(Kept(lines, database), database)
  {
    forall i | 0 <= i < |Kept(lines, database)|
      ensures !Registers(Kept(lines, database)[i], database)
    {
      KeptCounts(lines, database, Kept(lines, database)[i]);
      assert Kept(lines, database)[i] in multiset(Kept(lines, database));
    }
  }

  lemma {:induction false} KeptWhole(lines: seq<string>, database: string)
    requires forall i :: 0 <= i < |lines| ==> FirstField(lines[i]) != database
    ensures Kept(lines, database) == lines
  {
    if lines != [] {
      KeptWhole(lines[1..], database);
    }
  }

  predicate AllBlank(lines: seq<string>) {
    forall i :: 0 <= i < |lines| ==> FirstField(lines[i]) == ""
  }

  lemma BlankExtends(lines: seq<string>, line: string)
    ensures AllBlank(lines + [line]) <==> AllBlank(lines) && FirstField(line) == ""
  {
    var longer := lines + [line];
    assert forall i :: 0 <= i < |lines| ==> longer[i] == lines[i];
    assert longer[|lines|] == line;
  }

  /** The undo of a registration gives back the file as it was. */
  lemma UndoRegistration(lines: seq<string>, line: string, database: string)
    requires database != "" && FirstField(line) == database
    requires forall i :: 0 <= i < |lines| ==> FirstField(lines[i]) != database
    ensures Kept(lines + [line], database) == lines
  {
    KeptExtends(lines, line, database);
    KeptWhole(lines, database);
  }

  // ---- The marked database

  const EntrypointMarker := "entrypoint-createdb"

  datatype Report = NoReport | Waiting | Refused

  datatype Decision = Nothing | Clear | Remove | Refuse

  /** What the report says when nothing it reads fails. */
  function Reported(st: Store, marker: Option<string>): Report {
    match marker
    case None => NoReport
    case Some(id) =>
      if id == EntrypointMarker || !IsValidId(id) then Refused
      else match Peeked(st, id)
        case NotFound => Refused
        case Failure => Refused
        case Found(op) =>
          if !op.state.IsTerminal() then NoReport
          else if op.state == Completed then Waiting
          else if op.restored.Some? then Refused
          else Waiting
  }

  /** What a reclaim does when nothing it touches fails. */
  function Decided(st: Store, marker: Option<string>): Decision {
    match marker
    case None => Nothing
    case Some(id) =>
      if !IsValidId(id) then Refuse
      else match Peeked(st, id)
        case NotFound => Refuse
        case Failure => Refuse
        case Found(op) =>
          match op.state
          case Completed => Clear
          case Failed => if op.restored.Some? then Refuse else Remove
          case _ => Refuse
  }

  /** The report says Waiting exactly when a reclaim would clear or remove, Refused
      only when it would refuse, and nothing for no marker or a running operation. */
  lemma ReportMatchesReclaim(st: Store, marker: Option<string>)
    ensures Reported(st, marker) == Waiting <==> Decided(st, marker) in {Clear, Remove}
    ensures Reported(st, marker) == Refused ==> Decided(st, marker) == Refuse
    ensures Reported(st, marker) == NoReport <==>
            marker.None? || (Peeked(st, marker.value).Found? && !Peeked(st, marker.value).op.state.IsTerminal())
    ensures Decided(st, marker) == Nothing <==> marker.None?
  {
    assert EntrypointMarker[0] != "op-"[0];
  }

  /** The guards of the ownership machine are this decision, once ends are written. */
  lemma GuardsAreDecisions(s: Ownership.Member)
    requires StoreRuns.Inv(s.st) && s.dir.Some? && s.dir.value.marker.Some?
    requires Ownership.Settled(s.st, s.dir.value.marker.value) && s.st.cells[s.dir.value.marker.value].now.value.key != ""
    ensures Ownership.Condemned(s) <==> Decided(s.st, s.dir.value.marker) == Remove
    ensures Ownership.LeftComplete(s) <==> Decided(s.st, s.dir.value.marker) == Clear
  {
    var x := s.dir.value.marker.value;
    assert CellInv(s.st.up, x, s.st.cells[x]);
    assert Ownership.Owner(s) == x;
    assert OnRecord(s.st, x);
  }

  /** The failed restore of the same request that an adoption takes over. */
  predicate Adoptable(previous: Lookup, current: Operation, artifact: Artifact) {
    && previous.Found? && previous.op.kind == Restore && previous.op.state == Failed
    && previous.op.restored == Some(artifact) && previous.op.hash == current.hash
  }

  class DatabaseRoot {
    const store: OperationStore
    const database: string
    var lines: Option<seq<string>>     // databases.txt
    var marker: Option<string>         // of the directory of the database
    var present: bool                  // the directory is under its name
    var tomb: bool                     // something is moved aside
    ghost var faults: nat

    constructor (store: OperationStore, database: string, lines: Option<seq<string>>,
                 present: bool, marker: Option<string>, tomb: bool)
      requires marker.Some? ==> present
      ensures this.store == store && this.database == database && this.lines == lines && this.marker == marker
      ensures this.present == present && this.tomb == tomb
    {
      this.store, this.database, this.lines, this.marker, this.tomb := store, database, lines, marker, tomb;
      this.present := present;
    }

    method Attempt() returns (ok: bool)
      modifies this`faults
      ensures faults == if ok then old(faults) else old(faults) + 1
    {
      ok := *;
      if !ok {
        faults := faults + 1;
      }
    }

    /** A write that, when it fails, may have taken effect all the same. */
    method AttemptWrite() returns (ok: bool, effect: bool)
      modifies this`faults
      ensures faults == if ok then old(faults) else old(faults) + 1
      ensures ok ==> effect
    {
      ok := Attempt();
      effect := *;
      effect := effect || ok;
    }

    /** registeredInDatabasesTxt */
    method IsListed() returns (r: bool)
      ensures r <==> lines.Some? && IsRegistered(lines.value, database)
    {
      if lines.None? {
        return false;
      }
      var i := 0;
      while i < |lines.value|
        invariant 0 <= i <= |lines.value|
        invariant forall k :: 0 <= k < i ==> !Registers(lines.value[k], database)
      {
        var field := FirstField(lines.value[i]);
        if field != "" && field[0] != '#' && field == database {
          return true;
        }
        i := i + 1;
      }
      return false;
    }

    /** unregisterDatabaseLocked */
    method Unregister(removeEmpty: bool) returns (ok: bool)
      requires database != ""
      modifies this`lines, this`faults
      ensures faults >= old(faults) && (ok <==> faults == old(faults))
      ensures lines == old(lines) || lines == Unregistered(old(lines), removeEmpty)
      ensures ok ==> lines == Unregistered(old(lines), removeEmpty)
      ensures ok && lines.Some? ==> !IsRegistered(lines.value, database)
    {
      if lines.None? {
        return true;
      }
      var text, kept, removed, blank, i := lines.value, [], false, true, 0;
      while i < |text|
        invariant 0 <= i <= |text| && lines == old(lines) && faults == old(faults)
        invariant kept == Kept(text[..i], database)
        invariant !removed ==> kept == text[..i]
        invariant blank <==> AllBlank(kept)
      {
        var line := text[i];
        KeptExtends(text[..i], line, database);
        assert text[..i + 1] == text[..i] + [line];
        if FirstField(line) == database {
          removed := true;
        } else {
          BlankExtends(kept, line);
          blank := blank && FirstField(line) == "";
          kept := kept + [line];
        }
        i := i + 1;
      }
      assert text[..i] == text;
      KeptUnregistered(text, database);
      if (removeEmpty && blank) || removed {
        var effect;
        ok, effect := AttemptWrite();
        if effect {
          lines := if removeEmpty && blank then None else Some(kept);
        }
      } else {
        ok := true;
      }
    }

    /** databases.txt without the lines of the database. */
    function Unregistered(lines: Option<seq<string>>, removeEmpty: bool): Option<seq<string>> {
      if lines.None? then None
      else if removeEmpty && AllBlank(Kept(lines.value, database)) then None
      else Some(Kept(lines.value, database))
    }

    /** unfinishedDatabase: only reads. */
    method Unfinished() returns (r: Report)
      modifies this`faults, store`faults
      ensures faults >= old(faults) && store.faults >= old(store.faults)
      ensures faults == old(faults) && store.faults == old(store.faults) ==> r == Reported(store.st, marker)
      ensures r == Waiting ==> Reported(store.st, marker) == Waiting
      ensures r == NoReport ==> Reported(store.st, marker) == NoReport
    {
      var ok := Attempt();
      if !ok {
        return Refused;
      }
      if marker.None? {
        return NoReport;
      }
      var id := marker.value;
      if id == EntrypointMarker || !IsValidId(id) {
        return Refused;
      }
      var looked := store.Peek(id);
      match looked {
        case NotFound => r := Refused;
        case Failure => r := Refused;
        case Found(op) =>
          if !op.state.IsTerminal() {
            r := NoReport;
          } else if op.state == Completed {
            r := Waiting;
          } else if op.state == Failed && op.restored.Some? {
            r := Refused;
          } else {
            r := Waiting;
          }
      }
    }

    /** What this root decides now. */
    ghost function Decision(): Decision
      reads this, store
    {
      Decided(store.st, marker)
    }

    /** reclaimIncomplete: `ok` is a nil error. */
    method Reclaim() returns (ok: bool)
      requires store.Valid() && store.st.up && database != "" && (marker.Some? ==> present)
      modifies this`lines, this`marker, this`present, this`tomb, this`faults, store`st, store`trace, store`faults
      ensures store.Valid() && store.st.up
      // The directory leaves its name, the marker goes, and the registration goes, only as decided.
      ensures present != old(present) ==> old(Decision()) == Remove && !present && marker.None?
      ensures marker != old(marker) ==> marker.None? && old(Decision()) in {Clear, Remove}
      ensures lines != old(lines) ==> old(Decision()) == Remove && lines == Unregistered(old(lines), false)
      // With a nil error the decision is carried out.
      ensures ok ==> !tomb && marker.None? && old(Decision()) != Refuse
      ensures ok && old(Decision()) == Remove ==>
        !present && lines == Unregistered(old(lines), false) && (lines.Some? ==> !IsRegistered(lines.value, database))
      // Without a fault, the error is the refusal.
      ensures faults >= old(faults) && store.faults >= old(store.faults)
      ensures faults == old(faults) && store.faults == old(store.faults) ==> (ok <==> old(Decision()) != Refuse)
    {
      hide Legal, StoreRuns.Inv;
      if tomb {
        ok := Attempt();
        if !ok {
          return false;
        }
        tomb := false;
      }
      ok := Attempt();
      if !ok || marker.None? {
        return ok;
      }
      var id := marker.value;
      if !IsValidId(id) {
        return false;
      }
      var looked := store.Get(id);
      if !looked.Found? {
        return false;
      }
      match looked.op.state {
        case Completed =>
          var effect;
          ok, effect := AttemptWrite();
          if effect {
            marker := None;
          }
          return ok;
        case Failed =>
          if looked.op.restored.Some? {
            return false;
          }
        case _ =>
          return false;
      }
      ok := Unregister(false);
      if ok {
        ok := MoveAside();
      }
    }

    /** adoptRestored, for the running restore id: its record says restored, durably, before the directory
        is marked as its own, so that the data is never without an owner on record. */
    method AdoptRestored(id: string) returns (ok: bool, taken: Option<Artifact>)
      requires store.Valid() && store.st.up && HasWorker(store.st, id)
      modifies this`marker, this`faults, store`st, store`trace, store`faults
      ensures store.Valid() && store.st.up && HasWorker(store.st, id)
      ensures marker != old(marker) ==> marker == Some(id) && Record(store.st, id).restored.Some? && store.st.cells[id].behind == {}
      ensures taken.Some? ==> ok && marker == Some(id) && Record(store.st, id).restored == taken
      ensures taken.Some? ==> old(marker).Some? && Adoptable(Peeked(old(store.st), old(marker).value), Record(old(store.st), id), taken.value)
      ensures ok && taken.None? ==> marker == old(marker) && store.st.cells[id] == old(store.st.cells[id])
      ensures taken.Some? ==> store.st.cells[id].behind == {}
      ensures faults >= old(faults) && store.faults >= old(store.faults)
      // When nothing fails, data is taken over exactly when it is a failed restore's of the same request.
      ensures faults == old(faults) && store.faults == old(store.faults) && Record(old(store.st), id).key != "" ==>
        && (ok <==> !(old(marker).Some? && Peeked(old(store.st), old(marker).value).Failure?))
        && forall a :: taken == Some(a) <==>
             old(marker).Some? && Adoptable(Peeked(old(store.st), old(marker).value), Record(old(store.st), id), a)
    {
      hide Legal, StoreRuns.Inv;
      var read := Attempt();
      if !read {
        return false, None;
      }
      if marker.None? {
        return true, None;
      }
      store.Cell(id);
      var found := store.Get(marker.value);
      if found.NotFound? {
        return true, None;
      }
      if found.Failure? {
        return false, None;
      }
      store.Cell(id);
      var current := store.Get(id);
      if !current.Found? {
        return false, None;
      }
      if found.op.kind != Restore || found.op.state != Failed || found.op.restored.None? || found.op.hash != current.op.hash {
        return true, None;
      }
      ok := store.Update(id, SetRestored(found.op.restored.value));
      if !ok {
        return false, None;
      }
      var effect;
      ok, effect := AttemptWrite();
      if effect {
        marker := Some(id);
      }
      taken := if ok then found.op.restored else None;
    }

    /** The directory leaves its name in one step, and is then removed. */
    method MoveAside() returns (ok: bool)
      requires present && !tomb
      modifies this`marker, this`present, this`tomb, this`faults
      ensures faults >= old(faults) && (ok <==> faults == old(faults))
      ensures present ==> marker == old(marker) && !tomb && !ok
      ensures !present ==> marker.None? && (ok <==> !tomb)
    {
      ok := Attempt();
      if !ok {
        return false;
      }
      present, tomb, marker := false, true, None;
      ok := Attempt();                       // the sync of the root
      if ok {
        ok := Attempt();
        if ok {
          tomb := false;
        }
      }
    }
  }
}
