/** Durable metadata files: a directory whose entries and files are volatile until they
    are synced, and the write and the removal that a power loss at any moment leaves
    done or not done, never in between. */
module Durable {
  import opened Operations
  import opened StoreRuns

  type Entries = map<string, nat>

  /** `entries` and `content` are what is seen now. A power loss may leave any of `images` instead of
      the entries, and anything in the files that are not synced. */
  datatype Disk = Disk(entries: Entries, images: set<Entries>, content: map<nat, string>, unsynced: set<nat>, next: nat)

  function Look(d: Disk, e: Entries, name: string): Option<string> {
    if name in e && e[name] in d.content then Some(d.content[e[name]]) else None
  }

  function Visible(d: Disk, name: string): Option<string> {
    Look(d, d.entries, name)
  }

  /** What a power loss may leave under the name, when all of it is synced. */
  ghost predicate MayLeave(d: Disk, name: string, o: Option<string>) {
    o == Visible(d, name) || exists e :: e in d.images && o == Look(d, e, name)
  }

  function PutEntries(d: Disk, entries: Entries): Disk {
    d.(entries := entries, images := d.images + {d.entries})
  }

  function PutFile(d: Disk, file: nat, data: string, synced: bool): Disk {
    d.(content := d.content[file := data], unsynced := if synced then d.unsynced - {file} else d.unsynced + {file})
  }

  /** Whatever a power loss leaves under the name is a synced file, and not the temporary one. */
  ghost predicate Whole(d: Disk, name: string, tmp: string) {
    && name != tmp
    && (forall n :: n in d.entries ==> d.entries[n] in d.content)
    && (forall i :: i in d.content ==> i < d.next)
    && WholeIn(d, d.entries, name, tmp)
    && (forall e :: e in d.images ==> WholeIn(d, e, name, tmp))
  }

  ghost predicate WholeIn(d: Disk, e: Entries, name: string, tmp: string) {
    name in e ==> e[name] in d.content && e[name] !in d.unsynced && (tmp in d.entries ==> d.entries[tmp] != e[name])
  }

  /** The disk a power loss leaves. */
  ghost predicate LeftBy(d: Disk, left: Disk) {
    && (left.entries == d.entries || left.entries in d.images) && left.images == {} && left.unsynced == {}
    && left.content.Keys == d.content.Keys && forall i :: i in d.content && i !in d.unsynced ==> left.content[i] == d.content[i]
  }

  /** After a power loss the file is one that could have been left, and never torn. */
  lemma PowerLossLeaves(d: Disk, left: Disk, name: string, tmp: string)
    requires Whole(d, name, tmp) && LeftBy(d, left)
    ensures MayLeave(d, name, Visible(left, name))
  {
    assert left.entries in d.images ==> WholeIn(d, left.entries, name, tmp);
    assert Visible(left, name) == Look(d, left.entries, name);
  }

  /** A step after which a power loss may leave of the file what it could before. */
  ghost predicate Untouched(d: Disk, t: Disk, name: string) {
    Visible(t, name) == Visible(d, name) && forall o :: MayLeave(t, name, o) <==> MayLeave(d, name, o)
  }

  /** Writing the temporary file, or a new one. */
  lemma FileStep(d: Disk, file: nat, data: string, synced: bool, name: string, tmp: string)
    requires Whole(d, name, tmp) && file < d.next
    requires (tmp in d.entries && d.entries[tmp] == file) || file !in d.content
    ensures Whole(PutFile(d, file, data, synced), name, tmp) && Untouched(d, PutFile(d, file, data, synced), name)
  {
    var t := PutFile(d, file, data, synced);
    forall e | e == d.entries || e in d.images ensures Look(t, e, name) == Look(d, e, name) && WholeIn(t, e, name, tmp) {
      assert WholeIn(d, e, name, tmp);
    }
    forall o ensures MayLeave(t, name, o) <==> MayLeave(d, name, o) {
      if MayLeave(d, name, o) {
        SameLooks(d, t, name, o);
      } else if MayLeave(t, name, o) {
        SameLooks(t, d, name, o);
      }
    }
  }

  lemma SameLooks(d: Disk, t: Disk, name: string, o: Option<string>)
    requires forall e :: e == d.entries || e in d.images ==> Look(t, e, name) == Look(d, e, name)
    requires t.entries == d.entries && t.images == d.images && MayLeave(d, name, o)
    ensures MayLeave(t, name, o)
  {
    if o != Visible(d, name) {
      var e :| e in d.images && o == Look(d, e, name);
      assert Look(t, e, name) == o;
    }
  }

  /** Adding or removing the temporary entry. */
  lemma EntryStep(d: Disk, entries: Entries, name: string, tmp: string)
    requires Whole(d, name, tmp) && (forall n :: n in entries ==> entries[n] in d.content)
    requires (name in entries <==> name in d.entries) && (name in entries ==> entries[name] == d.entries[name])
    requires tmp in entries ==> forall e :: (e == d.entries || e in d.images) && name in e ==> e[name] != entries[tmp]
    ensures Whole(PutEntries(d, entries), name, tmp) && Untouched(d, PutEntries(d, entries), name)
  {
    var t := PutEntries(d, entries);
    forall e | e == entries || e in t.images ensures WholeIn(t, e, name, tmp) {
      assert e in d.images ==> WholeIn(d, e, name, tmp);
      assert WholeIn(d, d.entries, name, tmp);
    }
    assert forall e :: Look(t, e, name) == Look(d, e, name);
    forall o | MayLeave(d, name, o) ensures MayLeave(t, name, o) {
      if o != Visible(d, name) {
        var e :| e in d.images && o == Look(d, e, name);
        assert e in t.images && o == Look(t, e, name);
      }
    }
    forall o | MayLeave(t, name, o) ensures MayLeave(d, name, o) {
    }
  }

  /** The rename of the synced temporary file over the file. */
  lemma RenameStep(d: Disk, name: string, tmp: string)
    requires Whole(d, name, tmp) && tmp in d.entries && d.entries[tmp] !in d.unsynced
    ensures var t := PutEntries(d, (d.entries - {tmp})[name := d.entries[tmp]]);
            && Whole(t, name, tmp) && Visible(t, name) == Some(d.content[d.entries[tmp]])
            && forall o :: MayLeave(t, name, o) <==> MayLeave(d, name, o) || o == Some(d.content[d.entries[tmp]])
  {
    var t := PutEntries(d, (d.entries - {tmp})[name := d.entries[tmp]]);
    forall e | e == t.entries || e in t.images ensures WholeIn(t, e, name, tmp) {
      assert e in d.images ==> WholeIn(d, e, name, tmp);
      assert WholeIn(d, d.entries, name, tmp);
    }
    assert forall e :: Look(t, e, name) == Look(d, e, name);
    forall o | MayLeave(d, name, o) ensures MayLeave(t, name, o) {
      if o == Visible(d, name) {
        assert d.entries in t.images && o == Look(t, d.entries, name);
      } else {
        var e :| e in d.images && o == Look(d, e, name);
        assert e in t.images && o == Look(t, e, name);
      }
    }
    forall o | MayLeave(t, name, o) ensures MayLeave(d, name, o) || o == Visible(t, name) {
    }
  }

  /** What each outcome of a write means for the file, and for what a power loss may leave of it. */
  ghost predicate Replaced(d: Disk, t: Disk, name: string, data: string, w: Write) {
    match w
    case Done => forall o :: MayLeave(t, name, o) <==> o == Some(data)
    case NoEffect => Untouched(d, t, name)
    case InPlace => Visible(t, name) == Some(data) && forall o :: MayLeave(t, name, o) <==> MayLeave(d, name, o) || o == Some(data)
  }

  type Decoder = string -> Operation

  function Decoded(o: Option<string>, decode: Decoder): Option<Operation> {
    if o.Some? then Some(decode(o.value)) else None
  }

  /** The record file of an operation, as the store keeps account of it. */
  ghost predicate Pictures(c: Cell, d: Disk, name: string, decode: Decoder) {
    && c.now == Decoded(Visible(d, name), decode)
    && forall o :: MayLeave(d, name, o) ==> Decoded(o, decode) == c.now || Decoded(o, decode) in c.behind
  }

  /** A record write of the store is a replacement of its file, outcome by outcome. */
  lemma WrittenIsReplaced(c: Cell, d: Disk, t: Disk, name: string, decode: Decoder, data: string, w: Write)
    requires Pictures(c, d, name, decode) && Replaced(d, t, name, data, w)
    ensures Pictures(Written(c, decode(data), w), t, name, decode)
  {
    assert MayLeave(t, name, Visible(t, name));
  }

  /** No power loss leaves the file. */
  ghost predicate GoneForGood(d: Disk, name: string) {
    forall o :: MayLeave(d, name, o) <==> o == None
  }

  /** An unsynced change of the directory covers an entry of that name. */
  predicate BehindHolds(d: Disk, name: string) {
    exists e :: e in d.images && name in e
  }

  lemma AbsentForGood(d: Disk, name: string, tmp: string)
    requires Whole(d, name, tmp) && name !in d.entries
    ensures GoneForGood(d, name) <==> !BehindHolds(d, name)
  {
    if BehindHolds(d, name) {
      var e :| e in d.images && name in e;
      assert WholeIn(d, e, name, tmp);
      assert MayLeave(d, name, Look(d, e, name)) && Look(d, e, name).Some?;
    } else {
      assert forall e :: e in d.images ==> Look(d, e, name) == None;
      assert MayLeave(d, name, None);
    }
  }

  /** The calls of a write or a removal that may fail: to open the temporary file, to write it, to sync it, to rename it,
      to remove a file, and to sync the directory. */
  datatype Call = Open | Fill | SyncFile | Rename | Unlink | SyncDirectory

  /** How a write ends, by the calls that fail in it. */
  function WriteEnds(failing: set<Call>): Write {
    if failing !! {Open, Fill, SyncFile, Rename} then if SyncDirectory in failing then InPlace else Done
    else NoEffect
  }

  /** Nothing but these two names is touched. */
  predicate OnlyThese(d: Disk, t: Disk, name: string, tmp: string) {
    t.entries - {name, tmp} == d.entries - {name, tmp}
  }

  /** A directory of metadata files; `trace` holds every state it went through. */
  class Directory {
    var disk: Disk
    ghost var trace: seq<Disk>

    constructor (disk: Disk)
      ensures this.disk == disk && trace == [disk]
    {
      this.disk, trace := disk, [disk];
    }

    method Put(d: Disk)
      modifies this
      ensures disk == d && trace == old(trace) + [d]
    {
      disk := d;
      trace := trace + [d];
    }

    /** All states since the first n leave of the file what d could, or else the whole data. */
    ghost predicate Safe(n: nat, d: Disk, name: string, data: Option<string>)
      reads this
    {
      n <= |trace| && forall i, o :: n <= i < |trace| && MayLeave(trace[i], name, o) ==> MayLeave(d, name, o) || o == data
    }

    /** The file is as it was at d, also for a power loss. */
    ghost predicate Same(n: nat, d: Disk, name: string, tmp: string)
      reads this
    {
      Whole(disk, name, tmp) && Untouched(d, disk, name) && Safe(n, d, name, Visible(d, name))
    }

    /** The temporary file is created, or truncated when one was left. */
    method OpenTemporary(name: string, tmp: string, ghost n: nat, ghost d: Disk) returns (file: nat)
      requires Same(n, d, name, tmp)
      modifies this
      ensures Same(n, d, name, tmp) && tmp in disk.entries && disk.entries[tmp] == file && old(trace) <= trace
      ensures OnlyThese(old(disk), disk, name, tmp)
    {
      if tmp in disk.entries {
        file := disk.entries[tmp];
        FileStep(disk, file, "", false, name, tmp);
        Put(PutFile(disk, file, "", false));
      } else {
        file := disk.next;
        ghost var made := disk.(next := disk.next + 1);
        assert Whole(made, name, tmp) by {
          assert forall e :: e in disk.images ==> WholeIn(disk, e, name, tmp);
        }
        assert Untouched(disk, made, name);
        FileStep(made, file, "", false, name, tmp);
        Put(PutFile(disk.(next := disk.next + 1), file, "", false));
        assert forall e :: e in disk.images ==> WholeIn(disk, e, name, tmp);
        EntryStep(disk, disk.entries[tmp := file], name, tmp);
        Put(PutEntries(disk, disk.entries[tmp := file]));
      }
    }

    /** What failed before the rename leaves the file as it was, and no temporary file unless that cannot be removed. */
    method RemoveTemporary(name: string, tmp: string, failing: set<Call>, ghost n: nat, ghost d: Disk)
      requires Same(n, d, name, tmp)
      modifies this
      ensures Same(n, d, name, tmp) && old(trace) <= trace
      ensures OnlyThese(old(disk), disk, name, tmp) && (tmp in disk.entries ==> Unlink in failing)
    {
      if Unlink !in failing {
        EntryStep(disk, disk.entries - {tmp}, name, tmp);
        Put(PutEntries(disk, disk.entries - {tmp}));
      }
    }

    /** The temporary file holds the data and is synced, or it is gone again. */
    method WriteTemporary(name: string, tmp: string, data: string, failing: set<Call>, ghost n: nat, ghost d: Disk) returns (ok: bool)
      requires Same(n, d, name, tmp)
      modifies this
      ensures Same(n, d, name, tmp) && old(trace) <= trace && OnlyThese(old(disk), disk, name, tmp)
      ensures ok <==> Fill !in failing && SyncFile !in failing
      ensures ok ==> tmp in disk.entries && disk.entries[tmp] !in disk.unsynced && disk.content[disk.entries[tmp]] == data
      ensures !ok && tmp in disk.entries ==> Unlink in failing
    {
      var file := OpenTemporary(name, tmp, n, d);
      var part: string := *;
      var written := if Fill in failing then part else data;
      FileStep(disk, file, written, false, name, tmp);
      Put(PutFile(disk, file, written, false));
      ok := Fill !in failing && SyncFile !in failing;
      if ok {
        FileStep(disk, file, data, true, name, tmp);
        Put(PutFile(disk, file, data, true));
      } else {
        RemoveTemporary(name, tmp, failing, n, d);
      }
    }

    /** replaceFile, by way of the temporary file tmp. */
    method ReplaceFile(name: string, tmp: string, data: string, failing: set<Call>) returns (w: Write)
      requires Whole(disk, name, tmp)
      modifies this
      ensures Whole(disk, name, tmp) && old(trace) <= trace
      // At no moment could a power loss leave anything but what it could before, or the whole data.
      ensures Safe(|old(trace)|, old(disk), name, Some(data))
      ensures Replaced(old(disk), disk, name, data, w) && w == WriteEnds(failing)
      ensures OnlyThese(old(disk), disk, name, tmp)
      ensures tmp in disk.entries ==> w == NoEffect && (Open in failing || Unlink in failing)
    {
      ghost var d, n := disk, |trace|;
      if Open in failing {
        return NoEffect;
      }
      var ok := WriteTemporary(name, tmp, data, failing, n, d);
      if !ok {
        return NoEffect;
      }
      if Rename in failing {
        RemoveTemporary(name, tmp, failing, n, d);
        return NoEffect;
      }
      RenameStep(disk, name, tmp);
      Put(PutEntries(disk, (disk.entries - {tmp})[name := disk.entries[tmp]]));
      if SyncDirectory !in failing {
        SyncStep(disk, name, tmp);
        Put(disk.(images := {}));
        w := Done;
      } else {
        w := InPlace;
      }
    }

    /** removeFile */
    method RemoveFile(name: string, tmp: string, failing: set<Call>) returns (w: Write)
      requires Whole(disk, name, tmp)
      modifies this
      ensures Whole(disk, name, tmp) && old(trace) <= trace
      ensures Safe(|old(trace)|, old(disk), name, None)
      // Success is durable if and only if the file was there, or nothing unsynced holds it.
      ensures w == Done ==> (GoneForGood(disk, name) <==> name in old(disk).entries || !BehindHolds(old(disk), name))
      ensures w != NoEffect ==> disk.entries == old(disk).entries - {name}
      ensures name in old(disk).entries ==>
                w == if Unlink in failing then NoEffect else if SyncDirectory in failing then InPlace else Done
      // A file that is not there is not synced away either.
      ensures name !in old(disk).entries ==> w == Done && disk == old(disk)
      ensures w == NoEffect ==> disk == old(disk)
      ensures w == InPlace ==> forall o :: MayLeave(disk, name, o) <==> MayLeave(old(disk), name, o) || o == None
    {
      if name !in disk.entries {
        AbsentForGood(disk, name, tmp);
        return Done;
      }
      if Unlink in failing {
        return NoEffect;
      }
      RemoveStep(disk, name, tmp);
      Put(PutEntries(disk, disk.entries - {name}));
      if SyncDirectory !in failing {
        SyncStep(disk, name, tmp);
        Put(disk.(images := {}));
        w := Done;
      } else {
        w := InPlace;
      }
    }
  }

  /** A removal that was not synced, of whatever file: the next removal reports success, and the file may come back. */
  method AbsentMayComeBack(dir: Directory, name: string, tmp: string) returns (first: Write, second: Write)
    requires Whole(dir.disk, name, tmp) && name in dir.disk.entries
    modifies dir
    ensures first == InPlace && second == Done && name !in dir.disk.entries
    ensures old(Visible(dir.disk, name)).Some? && MayLeave(dir.disk, name, old(Visible(dir.disk, name)))
  {
    first := dir.RemoveFile(name, tmp, {SyncDirectory});
    second := dir.RemoveFile(name, tmp, {});
  }

  lemma SyncStep(d: Disk, name: string, tmp: string)
    requires Whole(d, name, tmp)
    ensures Whole(d.(images := {}), name, tmp) && forall o :: MayLeave(d.(images := {}), name, o) <==> o == Visible(d, name)
  {
  }

  lemma RemoveStep(d: Disk, name: string, tmp: string)
    requires Whole(d, name, tmp) && name in d.entries
    ensures var t := PutEntries(d, d.entries - {name});
            && Whole(t, name, tmp) && Visible(t, name).None?
            && forall o :: MayLeave(t, name, o) <==> MayLeave(d, name, o) || o == None
  {
    var t := PutEntries(d, d.entries - {name});
    forall e | e == t.entries || e in t.images ensures WholeIn(t, e, name, tmp) {
      assert e in d.images ==> WholeIn(d, e, name, tmp);
      assert WholeIn(d, d.entries, name, tmp);
    }
    assert forall e :: Look(t, e, name) == Look(d, e, name);
    forall o | MayLeave(d, name, o) ensures MayLeave(t, name, o) {
      if o == Visible(d, name) {
        assert d.entries in t.images && o == Look(t, d.entries, name);
      } else {
        var e :| e in d.images && o == Look(d, e, name);
        assert e in t.images && o == Look(t, e, name);
      }
    }
    forall o | MayLeave(t, name, o) ensures MayLeave(d, name, o) || o == None {
    }
  }
}
