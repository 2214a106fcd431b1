/** Backup artifacts in object storage: uploads that write their manifest last, any
    number of them at once and any of them cut off at any point, and the staging of
    an artifact that verifies every object against its manifest.

    A checksum is any injective function of the contents. An object's key is its
    prefix and its name below it. */
module Artifacts {
  import opened Operations

  type Hash = string -> string

  ghost predicate Injective(h: Hash) {
    forall x, y :: h(x) == h(y) ==> x == y
  }

  datatype Entry = Entry(key: string, size: nat, sum: string)

  datatype Manifest = Manifest(database: string, source: string, role: string, cluster: string, version: string, level: int, objects: seq<Entry>)

  const ManifestName := "manifest.json"

  // ---- The manifest

  function Total(objects: seq<Entry>): nat {
    if objects == [] then 0 else objects[0].size + Total(objects[1..])
  }

  lemma {:induction false} TotalExtends(objects: seq<Entry>, e: Entry)
    ensures Total(objects + [e]) == Total(objects) + e.size
  {
    if objects != [] {
      assert (objects + [e])[1..] == objects[1..] + [e];
      TotalExtends(objects[1..], e);
    }
  }

  method TotalSize(m: Manifest) returns (n: nat)
    ensures n == Total(m.objects)
  {
    n := 0;
    var i := 0;
    while i < |m.objects|
      invariant 0 <= i <= |m.objects| && n == Total(m.objects[..i])
    {
      TotalExtends(m.objects[..i], m.objects[i]);
      assert m.objects[..i + 1] == m.objects[..i] + [m.objects[i]];
      n := n + m.objects[i].size;
      i := i + 1;
    }
    assert m.objects[..i] == m.objects;
  }

  /** The segments between slashes. */
  function Segments(s: string): seq<string> {
    if s == "" then [""]
    else if s[0] == '/' then [""] + Segments(s[1..])
    else
      var rest := Segments(s[1..]);
      [[s[0]] + rest[0]] + rest[1..]
  }

  predicate NoSlash(s: string) {
    '/' !in s
  }

  predicate AllPlain(parts: seq<string>) {
    forall i :: 0 <= i < |parts| ==> NoSlash(parts[i])
  }

  lemma {:induction false} SegmentsOfPlain(s: string)
    requires NoSlash(s)
    ensures Segments(s) == [s]
  {
    if s != "" {
      assert forall c :: c in s[1..] ==> c in s;
      SegmentsOfPlain(s[1..]);
      assert s[0] in s && [s[0]] + s[1..] == s;
    }
  }

  lemma {:induction false} SegmentsPlain(s: string)
    ensures |Segments(s)| > 0 && AllPlain(Segments(s))
  {
    if s != "" {
      SegmentsPlain(s[1..]);
    }
  }

  lemma {:induction false} SegmentsJoin(a: string, b: string)
    ensures Segments(a + "/" + b) == Segments(a) + Segments(b)
  {
    if a == "" {
      assert (a + "/" + b)[1..] == b;
    } else {
      assert (a + "/" + b)[1..] == a[1..] + "/" + b;
      SegmentsJoin(a[1..], b);
      SegmentsPlain(a[1..]);
    }
  }

  /** A clean relative path strictly below backup/. */
  predicate ValidKey(key: string) {
    && '\0' !in key && '\\' !in key
    && var parts := Segments(key);
       |parts| >= 2 && parts[0] == "backup" && forall i :: 0 <= i < |parts| ==> parts[i] != "" && parts[i] != "." && parts[i] != ".."
  }

  predicate ValidKeys(objects: seq<Entry>) {
    && (forall i :: 0 <= i < |objects| ==> ValidKey(objects[i].key))
    && (forall i, j :: 0 <= i < j < |objects| ==> objects[i].key != objects[j].key)
  }

  method ValidateObjectKeys(m: Manifest) returns (ok: bool)
    ensures ok <==> ValidKeys(m.objects)
  {
    var seen: set<string> := {};
    var i := 0;
    while i < |m.objects|
      invariant 0 <= i <= |m.objects|
      invariant forall k :: 0 <= k < i ==> ValidKey(m.objects[k].key)
      invariant forall k, l :: 0 <= k < l < i ==> m.objects[k].key != m.objects[l].key
      invariant forall k :: 0 <= k < i ==> m.objects[k].key in seen
      invariant forall key :: key in seen ==> exists k :: 0 <= k < i && m.objects[k].key == key
    {
      var key := m.objects[i].key;
      if !ValidKey(key) || key in seen {
        return false;
      }
      seen := seen + {key};
      i := i + 1;
    }
    return true;
  }

  datatype Expectation = Expectation(database: string, version: string, level: Option<int>, role: string, source: string, cluster: string)

  function Series(version: string): string {
    // The first two numbers of a version; empty when there are not two.
    var parts := Dotted(version);
    if |parts| >= 2 && IsDecimal(parts[0]) && IsDecimal(parts[1]) then parts[0] + "." + parts[1] else ""
  }

  predicate IsDecimal(s: string) {
    s != "" && forall i :: 0 <= i < |s| ==> '0' <= s[i] <= '9'
  }

  function Dotted(s: string): seq<string> {
    if s == "" then [""]
    else if s[0] == '.' then [""] + Dotted(s[1..])
    else
      var rest := Dotted(s[1..]);
      [[s[0]] + rest[0]] + rest[1..]
  }

  predicate Verifies(m: Manifest, exp: Expectation) {
    && (exp.database != "" ==> m.database == exp.database)
    && (exp.version != "" ==> Series(m.version) != "" && Series(m.version) == Series(exp.version))
    && (exp.level.Some? ==> m.level == exp.level.value)
    && (exp.role != "" ==> m.role == exp.role)
    && (exp.source != "" ==> m.source == exp.source)
    && (exp.cluster != "" ==> m.cluster == exp.cluster)
    && m.objects != []
  }

  datatype RestoreRequest = RestoreRequest(database: string, seedFromMaster: string, expectedCluster: string)

  function RestoreExpectation(req: RestoreRequest, engine: string): Expectation {
    if req.seedFromMaster == "" then Expectation(req.database, engine, Some(0), "", "", "")
    else Expectation(req.database, engine, Some(0), "master", req.seedFromMaster, req.expectedCluster)
  }

  /** The backup that a restore may take: a full one of this database and engine series and, for a seed, one that
      the named master took, as master and in this cluster. */
  predicate Trusted(m: Manifest, req: RestoreRequest, engine: string) {
    && m.level == 0
    && (req.database != "" ==> m.database == req.database)
    && (engine != "" ==> Series(m.version) == Series(engine))
    && (req.seedFromMaster != "" ==>
          && m.role == "master" && m.source == req.seedFromMaster
          && (req.expectedCluster != "" ==> m.cluster == req.expectedCluster))
  }

  // ---- Uploads

  /** An upload: its prefix, whether that is a fresh attempt's or the stable one of a seed, what its manifest
      says of the backup, the files it stages, and those that are put and found there with their size. */
  datatype Upload = Upload(prefix: string, isFresh: bool, meta: Manifest, files: map<string, string>, put: set<string>)

  datatype Object = File(content: string) | ManifestFile(m: Manifest)

  datatype Key = Key(prefix: string, name: string)

  /** `authors` is history: the upload that wrote the manifest under a prefix last. */
  datatype Bucket = Bucket(objects: map<Key, Object>, uploads: map<nat, Upload>, authors: map<string, nat>)

  function ObjectName(file: string): string {
    "backup/" + file
  }

  lemma NamesDiffer(f: string, g: string)
    ensures ObjectName(f) == ObjectName(g) ==> f == g
    ensures ObjectName(f) != ManifestName
  {
    assert f == ObjectName(f)[7..] && g == ObjectName(g)[7..];
    assert ObjectName(f)[0] == 'b';
  }

  ghost predicate IsEntry(e: Entry, files: map<string, string>, h: Hash) {
    exists f :: f in files && e == Entry(ObjectName(f), |files[f]|, h(files[f]))
  }

  predicate Lists(objects: seq<Entry>, name: string) {
    exists i :: 0 <= i < |objects| && objects[i].key == name
  }

  /** The manifest lists exactly the files, each with its size and checksum. */
  ghost predicate Describes(objects: seq<Entry>, files: map<string, string>, h: Hash) {
    && (forall i :: 0 <= i < |objects| ==> IsEntry(objects[i], files, h))
    && (forall f :: f in files ==> Lists(objects, ObjectName(f)))
  }

  datatype Act =
    | Begin(u: nat, upload: Upload)
    | PutFile(u: nat, file: string)
    | PutManifest(u: nat, m: Manifest)

  ghost predicate Can(b: Bucket, act: Act, h: Hash) {
    match act
    case Begin(u, upload) =>
      && u !in b.uploads && upload.put == {}
      // A fresh attempt's identity is nobody else's.
      && (forall v :: v in b.uploads && b.uploads[v].prefix == upload.prefix ==> !upload.isFresh && !b.uploads[v].isFresh)
    case PutFile(u, file) => u in b.uploads && file in b.uploads[u].files
    case PutManifest(u, m) =>
      && u in b.uploads && b.uploads[u].put == b.uploads[u].files.Keys
      && m == b.uploads[u].meta.(objects := m.objects) && Describes(m.objects, b.uploads[u].files, h)
  }

  function Next(b: Bucket, act: Act): Bucket
    requires !act.Begin? ==> act.u in b.uploads && (act.PutFile? ==> act.file in b.uploads[act.u].files)
  {
    match act
    case Begin(u, upload) => b.(uploads := b.uploads[u := upload])
    case PutFile(u, file) =>
      var up := b.uploads[u];
      b.(objects := b.objects[Key(up.prefix, ObjectName(file)) := File(up.files[file])],
         uploads := b.uploads[u := up.(put := up.put + {file})])
    case PutManifest(u, m) =>
      var prefix := b.uploads[u].prefix;
      b.(objects := b.objects[Key(prefix, ManifestName) := ManifestFile(m)], authors := b.authors[prefix := u])
  }

  /** What is found under the name of the manifest. */
  function ManifestAt(b: Bucket, prefix: string): Option<Object> {
    if Key(prefix, ManifestName) in b.objects then Some(b.objects[Key(prefix, ManifestName)]) else None
  }

  /** It says what the upload says of the backup, and lists exactly its files, each with its size and checksum. */
  ghost predicate IsManifestOf(o: Option<Object>, up: Upload, h: Hash) {
    o.Some? && o.value.ManifestFile? && o.value.m == up.meta.(objects := o.value.m.objects) && Describes(o.value.m.objects, up.files, h)
  }

  predicate Landed(b: Bucket, up: Upload, file: string)
    requires file in up.files
  {
    Key(up.prefix, ObjectName(file)) in b.objects && b.objects[Key(up.prefix, ObjectName(file))] == File(up.files[file])
  }

  /** A manifest is the one its author wrote, of the files of that upload. */
  ghost predicate ManifestInv(b: Bucket, prefix: string, h: Hash) {
    Key(prefix, ManifestName) in b.objects ==>
      && prefix in b.authors && b.authors[prefix] in b.uploads
      && var up, o := b.uploads[b.authors[prefix]], b.objects[Key(prefix, ManifestName)];
         && up.prefix == prefix && up.put == up.files.Keys
         && o.ManifestFile? && o.m == up.meta.(objects := o.m.objects) && Describes(o.m.objects, up.files, h)
  }

  /** Under a fresh prefix only its own upload writes. */
  ghost predicate FreshInv(b: Bucket, u: nat)
    requires u in b.uploads
  {
    var up := b.uploads[u];
    up.isFresh ==>
      && (forall v :: v in b.uploads && b.uploads[v].prefix == up.prefix ==> v == u)
      && (forall f :: f in up.put && f in up.files ==> Landed(b, up, f))
  }

  ghost predicate Inv(b: Bucket, h: Hash) {
    && (forall prefix :: ManifestInv(b, prefix, h))
    && (forall u :: u in b.uploads ==> FreshInv(b, u))
  }

  lemma BeginKept(b: Bucket, act: Act, h: Hash)
    requires Inv(b, h) && Can(b, act, h) && act.Begin?
    ensures Inv(Next(b, act), h)
  {
    var t := Next(b, act);
    forall prefix ensures ManifestInv(t, prefix, h) {
      assert ManifestInv(b, prefix, h);
    }
    forall u | u in t.uploads ensures FreshInv(t, u) {
      assert u in b.uploads ==> FreshInv(b, u);
    }
  }

  lemma PutFileKept(b: Bucket, act: Act, h: Hash)
    requires Inv(b, h) && Can(b, act, h) && act.PutFile?
    ensures Inv(Next(b, act), h)
  {
    var t := Next(b, act);
    NamesDiffer(act.file, act.file);
    forall prefix ensures ManifestInv(t, prefix, h) {
      assert ManifestInv(b, prefix, h);
    }
    forall u | u in t.uploads ensures FreshInv(t, u) {
      assert FreshInv(b, u);
      var up := t.uploads[u];
      forall f | f in up.put && f in up.files && up.isFresh ensures Landed(t, up, f) {
        NamesDiffer(f, act.file);
        assert f in b.uploads[u].put ==> Landed(b, b.uploads[u], f);
      }
    }
  }

  lemma PutManifestKept(b: Bucket, act: Act, h: Hash)
    requires Inv(b, h) && Can(b, act, h) && act.PutManifest?
    ensures Inv(Next(b, act), h)
  {
    var t := Next(b, act);
    forall prefix ensures ManifestInv(t, prefix, h) {
      assert ManifestInv(b, prefix, h);
    }
    forall u | u in t.uploads ensures FreshInv(t, u) {
      assert FreshInv(b, u);
      var up := t.uploads[u];
      forall f | f in up.put && f in up.files && up.isFresh ensures Landed(t, up, f) {
        NamesDiffer(f, f);
        assert Landed(b, up, f);
      }
    }
  }

  ghost predicate Takes(b: Bucket, t: Bucket, h: Hash) {
    exists act :: Can(b, act, h) && t == Next(b, act)
  }

  ghost predicate StepAt(run: seq<Bucket>, i: int, h: Hash) {
    0 < i < |run| ==> Takes(run[i - 1], run[i], h)
  }

  ghost predicate IsRun(run: seq<Bucket>, h: Hash) {
    |run| > 0 && run[0] == Bucket(map[], map[], map[]) && forall i {:trigger StepAt(run, i, h)} :: StepAt(run, i, h)
  }

  lemma {:induction false} RunInv(run: seq<Bucket>, n: nat, h: Hash)
    requires IsRun(run, h) && n < |run|
    ensures Inv(run[n], h)
  {
    if n > 0 {
      RunInv(run, n - 1, h);
      assert StepAt(run, n, h);
      var b := run[n - 1];
      var act :| Can(b, act, h) && run[n] == Next(b, act);
      match act
      case Begin(_, _) => BeginKept(b, act, h);
      case PutFile(_, _) => PutFileKept(b, act, h);
      case PutManifest(_, _) => PutManifestKept(b, act, h);
    }
  }

  /** Whatever uploads were cut off, a fresh attempt's prefix holds a manifest only if every object it lists is there. */
  lemma FreshIsComplete(run: seq<Bucket>, n: nat, h: Hash, u: nat, e: Entry)
    requires IsRun(run, h) && n < |run| && u in run[n].uploads && run[n].uploads[u].isFresh
    requires Key(run[n].uploads[u].prefix, ManifestName) in run[n].objects
    requires run[n].objects[Key(run[n].uploads[u].prefix, ManifestName)].ManifestFile?
    requires e in run[n].objects[Key(run[n].uploads[u].prefix, ManifestName)].m.objects
    ensures var k := Key(run[n].uploads[u].prefix, e.key);
            k in run[n].objects && run[n].objects[k].File? && |run[n].objects[k].content| == e.size && h(run[n].objects[k].content) == e.sum
  {
    RunInv(run, n, h);
    var b, up := run[n], run[n].uploads[u];
    assert ManifestInv(b, up.prefix, h) && FreshInv(b, u);
    assert IsEntry(e, up.files, h);
    var f :| f in up.files && e == Entry(ObjectName(f), |up.files[f]|, h(up.files[f]));
    assert Landed(b, up, f);
  }

  /** One upload, file by file. The steps it takes are steps of the runs above. */
  class Uploader {
    const h: Hash
    const upload: nat
    const prefix: string
    var bucket: Bucket
    ghost var faults: nat      // calls of the object store that failed, or found an object that is not the one put

    constructor (h: Hash, upload: nat, bucket: Bucket)
      requires upload in bucket.uploads
      ensures this.h == h && this.upload == upload && this.bucket == bucket && prefix == bucket.uploads[upload].prefix
    {
      this.h, this.upload, this.bucket, this.prefix, faults := h, upload, bucket, bucket.uploads[upload].prefix, 0;
    }

    method Do(act: Act) returns (ok: bool)
      requires Can(bucket, act, h)
      modifies this`bucket, this`faults
      ensures bucket == old(bucket) || bucket == Next(old(bucket), act)
      ensures ok ==> bucket == Next(old(bucket), act)
      ensures faults == if ok then old(faults) else old(faults) + 1
    {
      ok := *;
      var effect: bool := *;
      if ok || effect {
        bucket := Next(bucket, act);
      }
      if !ok {
        faults := faults + 1;
      }
    }

    /** StatSize: the object is there, with the size that was put. */
    method Stat() returns (ok: bool)
      modifies this`faults
      ensures faults == if ok then old(faults) else old(faults) + 1
    {
      ok := *;
      if !ok {
        faults := faults + 1;
      }
    }

    /** Nothing is listed that is not put and verified, and the manifest goes last. */
    method UploadBackup(files: seq<string>) returns (ok: bool)
      requires upload in bucket.uploads && bucket.uploads[upload].put == {} && prefix == bucket.uploads[upload].prefix
      requires forall f :: f in files <==> f in bucket.uploads[upload].files
      modifies this`bucket, this`faults
      ensures upload in bucket.uploads && bucket.uploads[upload] == old(bucket).uploads[upload].(put := bucket.uploads[upload].put)
      // Whatever fails, the manifest is untouched, or it is the one of this upload, all of whose files were put.
      ensures || (ManifestAt(bucket, prefix) == ManifestAt(old(bucket), prefix) && bucket.authors == old(bucket).authors)
              || (&& IsManifestOf(ManifestAt(bucket, prefix), bucket.uploads[upload], h)
                  && bucket.uploads[upload].put == bucket.uploads[upload].files.Keys
                  && bucket.authors == old(bucket).authors[prefix := upload])
      ensures ok ==> files != [] && IsManifestOf(ManifestAt(bucket, prefix), bucket.uploads[upload], h)
      ensures ok ==> prefix in bucket.authors && bucket.authors[prefix] == upload
      ensures ok <==> files != [] && faults == old(faults)
    {
      if files == [] {
        return false;
      }
      hide Uploaded, Describes;
      ghost var was := bucket.uploads[upload];
      var objects: seq<Entry> := [];
      var i := 0;
      UploadedNone(was, files, h);
      while i < |files|
        invariant 0 <= i <= |files| && upload in bucket.uploads && bucket.authors == old(bucket).authors
        invariant bucket.uploads[upload] == was.(put := bucket.uploads[upload].put)
        invariant ManifestAt(bucket, prefix) == ManifestAt(old(bucket), prefix)
        invariant Uploaded(was, bucket.uploads[upload], files, i, objects, h) && faults == old(faults)
      {
        var f := files[i];
        assert f in files;
        var content := bucket.uploads[upload].files[f];
        UploadedStep(was, bucket.uploads[upload], files, i, objects, h);
        NamesDiffer(f, f);
        var put := Do(PutFile(upload, f));
        if !put {
          return false;
        }
        var found := Stat();
        if !found {
          return false;
        }
        objects := objects + [Entry(ObjectName(f), |content|, h(content))];
        i := i + 1;
      }
      UploadedAll(was, bucket.uploads[upload], files, objects, h);
      ok := Do(PutManifest(upload, bucket.uploads[upload].meta.(objects := objects)));
    }
  }

  /** The first i files are put, found and listed, and nothing else is. */
  ghost predicate Uploaded(was: Upload, up: Upload, files: seq<string>, i: nat, objects: seq<Entry>, h: Hash)
    requires i <= |files|
  {
    && up == was.(put := up.put) && up.put <= was.files.Keys
    && (forall k :: 0 <= k < i ==> files[k] in up.put && Lists(objects, ObjectName(files[k])))
    && (forall k :: 0 <= k < |objects| ==> IsEntry(objects[k], was.files, h))
  }

  lemma UploadedNone(was: Upload, files: seq<string>, h: Hash)
    requires was.put == {}
    ensures Uploaded(was, was, files, 0, [], h)
  {
  }

  lemma UploadedStep(was: Upload, up: Upload, files: seq<string>, i: nat, objects: seq<Entry>, h: Hash)
    requires i < |files| && files[i] in was.files && Uploaded(was, up, files, i, objects, h)
    ensures Uploaded(was, up.(put := up.put + {files[i]}), files, i + 1,
                     objects + [Entry(ObjectName(files[i]), |was.files[files[i]]|, h(was.files[files[i]]))], h)
  {
    var e := Entry(ObjectName(files[i]), |was.files[files[i]]|, h(was.files[files[i]]));
    assert IsEntry(e, was.files, h);
    ListsMore(objects, e);
  }

  lemma UploadedAll(was: Upload, up: Upload, files: seq<string>, objects: seq<Entry>, h: Hash)
    requires Uploaded(was, up, files, |files|, objects, h)
    requires forall f :: f in files <==> f in was.files
    ensures up == was.(put := was.files.Keys) && Describes(objects, was.files, h)
  {
    forall f | f in was.files ensures f in up.put && Lists(objects, ObjectName(f)) {
      assert f in files;
    }
    assert up.put == was.files.Keys;
  }

  lemma ListsMore(objects: seq<Entry>, e: Entry)
    ensures Lists(objects + [e], e.key)
    ensures forall name :: Lists(objects, name) ==> Lists(objects + [e], name)
  {
    assert (objects + [e])[|objects|] == e;
    forall name | Lists(objects, name) ensures Lists(objects + [e], name) {
      var i :| 0 <= i < |objects| && objects[i].key == name;
      assert (objects + [e])[i].key == name;
    }
  }

  // ---- Staging an artifact

  /** What the store answers for one object: any content, for it may be overwritten meanwhile. */
  datatype Download = Refused | Cut | Whole(content: string)

  predicate Fits(d: Download, e: Entry, h: Hash) {
    d.Whole? && |d.content| == e.size && h(d.content) == e.sum
  }

  predicate AllFit(answers: seq<Download>, objects: seq<Entry>, h: Hash)
    requires |answers| == |objects|
  {
    forall i :: 0 <= i < |objects| ==> Fits(answers[i], objects[i], h)
  }

  function Keys(objects: seq<Entry>): set<string> {
    set i | 0 <= i < |objects| :: objects[i].key
  }

  /** The staged files of an upload, under the names they are restored from. */
  function Named(files: map<string, string>): map<string, string> {
    map name | name in (set f | f in files :: ObjectName(f)) :: files[name[7..]]
  }

  lemma NamedIs(files: map<string, string>, f: string)
    ensures f in files ==> ObjectName(f) in Named(files) && Named(files)[ObjectName(f)] == files[f]
  {
    assert ObjectName(f)[7..] == f;
  }

  predicate Matches(staged: map<string, string>, e: Entry, h: Hash) {
    e.key in staged && |staged[e.key]| == e.size && h(staged[e.key]) == e.sum
  }

  predicate AllMatch(staged: map<string, string>, objects: seq<Entry>, h: Hash) {
    forall i :: 0 <= i < |objects| ==> Matches(staged, objects[i], h)
  }

  /** Of the files a manifest describes, each is staged as it is. */
  lemma FileStaged(staged: map<string, string>, objects: seq<Entry>, files: map<string, string>, h: Hash, f: string)
    requires Injective(h) && Describes(objects, files, h) && AllMatch(staged, objects, h) && f in files
    ensures ObjectName(f) in staged && staged[ObjectName(f)] == files[f] && ObjectName(f) in Keys(objects)
  {
    assert Lists(objects, ObjectName(f));
    var i :| 0 <= i < |objects| && objects[i].key == ObjectName(f);
    assert IsEntry(objects[i], files, h) && Matches(staged, objects[i], h);
    var g :| g in files && objects[i] == Entry(ObjectName(g), |files[g]|, h(files[g]));
    NamesDiffer(f, g);
  }

  /** A manifest lists the names of the files it describes, and no other. */
  lemma ListedNames(objects: seq<Entry>, files: map<string, string>, h: Hash)
    requires Describes(objects, files, h)
    ensures Named(files).Keys == Keys(objects)
  {
    forall key | key in Keys(objects) ensures key in Named(files) {
      var i :| 0 <= i < |objects| && objects[i].key == key;
      assert IsEntry(objects[i], files, h);
    }
    forall f | f in files ensures ObjectName(f) in Keys(objects) {
      assert Lists(objects, ObjectName(f));
    }
  }

  /** If every listed object matches, the listed files are exactly those of the upload the manifest describes;
      the directory holds exactly them if and only if it held nothing else before. */
  lemma StagedExactly(before: map<string, string>, staged: map<string, string>, objects: seq<Entry>, files: map<string, string>, h: Hash)
    requires Injective(h) && Describes(objects, files, h)
    requires AllMatch(staged, objects, h) && staged.Keys == before.Keys + Keys(objects)
    ensures forall f :: f in files ==> ObjectName(f) in staged && staged[ObjectName(f)] == files[f]
    ensures staged == Named(files) <==> before.Keys <= Keys(objects)
  {
    hide Injective, Describes, AllMatch, Keys;
    ListedNames(objects, files, h);
    forall f | f in files ensures ObjectName(f) in staged && staged[ObjectName(f)] == files[f] && Named(files)[ObjectName(f)] == files[f] {
      FileStaged(staged, objects, files, h, f);
      NamedIs(files, f);
    }
    assert before.Keys <= Keys(objects) <==> staged.Keys == Named(files).Keys;
  }

  /** The first i objects are staged beside what was there. */
  ghost predicate UpTo(was: map<string, string>, staged: map<string, string>, objects: seq<Entry>, i: nat, h: Hash)
    requires i <= |objects|
  {
    && (forall k :: 0 <= k < i ==> Matches(staged, objects[k], h))
    && staged.Keys == was.Keys + Keys(objects[..i])
  }

  lemma UpToNone(was: map<string, string>, objects: seq<Entry>, h: Hash)
    ensures UpTo(was, was, objects, 0, h)
  {
  }

  lemma UpToStep(was: map<string, string>, staged: map<string, string>, objects: seq<Entry>, i: nat, content: string, h: Hash)
    requires ValidKeys(objects) && i < |objects| && UpTo(was, staged, objects, i, h) && Fits(Whole(content), objects[i], h)
    ensures UpTo(was, staged[objects[i].key := content], objects, i + 1, h)
  {
    hide ValidKey;
    KeysMore(objects, i);
    var now := staged[objects[i].key := content];
    forall k | 0 <= k <= i ensures Matches(now, objects[k], h) {
      assert k < i ==> Matches(staged, objects[k], h);
    }
  }

  lemma UpToAll(was: map<string, string>, staged: map<string, string>, objects: seq<Entry>, h: Hash)
    requires UpTo(was, staged, objects, |objects|, h)
    ensures AllMatch(staged, objects, h) && staged.Keys == was.Keys + Keys(objects)
  {
    assert objects[..|objects|] == objects;
  }

  lemma IsListed(objects: seq<Entry>, i: nat)
    requires i < |objects|
    ensures objects[i].key in Keys(objects)
  {
  }

  class StagingDir {
    const h: Hash
    var files: map<string, string>      // by their key below the artifact's prefix

    constructor (h: Hash, files: map<string, string>)
      ensures this.h == h && this.files == files
    {
      this.h, this.files := h, files;
    }

    /** An object is staged only when it matches its entry; anything else that was written is removed. */
    method StageObject(e: Entry, answer: Download) returns (ok: bool)
      modifies this`files
      ensures ok <==> Fits(answer, e, h)
      ensures ok ==> files == old(files)[e.key := answer.content]
      ensures !ok ==> files == if answer.Refused? then old(files) else old(files) - {e.key}
    {
      if answer.Refused? {
        return false;
      }
      files := files[e.key := if answer.Whole? then answer.content else ""];
      ok := answer.Whole? && |answer.content| == e.size && h(answer.content) == e.sum;
      if !ok {
        files := files - {e.key};
      }
    }

    /** Nothing that is not listed changes. */
    twostate predicate OthersStay(listed: set<string>)
      reads this
    {
      forall key :: key !in listed ==> (key in files <==> key in old(files)) && (key in files ==> files[key] == old(files)[key])
    }

    method StageObjects(objects: seq<Entry>, answers: seq<Download>) returns (ok: bool)
      requires |answers| == |objects| && ValidKeys(objects)
      modifies this`files
      ensures ok <==> AllFit(answers, objects, h)
      ensures ok ==> AllMatch(files, objects, h) && files.Keys == old(files).Keys + Keys(objects)
      ensures OthersStay(Keys(objects))
    {
      hide ValidKeys, Keys, UpTo;
      var i := 0;
      UpToNone(files, objects, h);
      while i < |objects|
        invariant 0 <= i <= |objects|
        invariant forall k :: 0 <= k < i ==> Fits(answers[k], objects[k], h)
        invariant UpTo(old(files), files, objects, i, h)
        invariant OthersStay(Keys(objects))
      {
        IsListed(objects, i);
        if Fits(answers[i], objects[i], h) {
          UpToStep(old(files), files, objects, i, answers[i].content, h);
        }
        ok := StageObject(objects[i], answers[i]);
        if !ok {
          return false;
        }
        i := i + 1;
      }
      UpToAll(old(files), files, objects, h);
      return true;
    }

    /** stageArtifact: `found` is what was read under the name of the manifest, `answers` what the store
        answers for each object it lists, and `artifact` any files that the manifest describes. */
    method StageArtifact(found: Option<Manifest>, exp: Expectation, answers: seq<Download>, ghost artifact: map<string, string>)
      returns (ok: bool)
      requires found.Some? ==> |answers| == |found.value.objects|
      modifies this`files
      ensures ok <==> found.Some? && Verifies(found.value, exp) && ValidKeys(found.value.objects) && AllFit(answers, found.value.objects, h)
      ensures ok ==> AllMatch(files, found.value.objects, h) && files.Keys == old(files).Keys + Keys(found.value.objects)
      ensures OthersStay(if found.Some? then Keys(found.value.objects) else {})
      // The directory is the artifact if and only if it held nothing else before.
      ensures ok && Injective(h) && Describes(found.value.objects, artifact, h) ==>
        (files == Named(artifact) <==> old(files).Keys <= Keys(found.value.objects))
    {
      hide ValidKeys, AllFit, AllMatch, Injective, Describes, Keys;
      if found.None? || !Verifies(found.value, exp) {
        return false;
      }
      var valid := ValidateObjectKeys(found.value);
      if !valid {
        return false;
      }
      ok := StageObjects(found.value.objects, answers);
      if ok && Injective(h) && Describes(found.value.objects, artifact, h) {
        StagedExactly(old(files), files, found.value.objects, artifact, h);
      }
    }
  }

  lemma KeysMore(objects: seq<Entry>, i: nat)
    requires i < |objects|
    ensures Keys(objects[..i + 1]) == Keys(objects[..i]) + {objects[i].key}
  {
    forall key | key in Keys(objects[..i]) + {objects[i].key} ensures key in Keys(objects[..i + 1]) {
      var k :| 0 <= k <= i && objects[k].key == key;
      assert objects[..i + 1][k].key == key;
    }
  }

  /** A restore that stages the artifact of any prefix of any run of uploads has exactly the files of the one upload
      that wrote the manifest that was read, whatever the objects were overwritten with since; and a seed's was taken
      by the named master, as master, in this cluster. */
  lemma StagedIsOneUpload(run: seq<Bucket>, n: nat, h: Hash, prefix: string, staged: map<string, string>, req: RestoreRequest, engine: string)
    requires IsRun(run, h) && Injective(h) && n < |run| && Key(prefix, ManifestName) in run[n].objects
    requires run[n].objects[Key(prefix, ManifestName)].ManifestFile?
    requires AllMatch(staged, run[n].objects[Key(prefix, ManifestName)].m.objects, h)
    requires Verifies(run[n].objects[Key(prefix, ManifestName)].m, RestoreExpectation(req, engine))
    ensures prefix in run[n].authors && run[n].authors[prefix] in run[n].uploads
    ensures var up := run[n].uploads[run[n].authors[prefix]];
            && (forall f :: f in up.files ==> ObjectName(f) in staged && staged[ObjectName(f)] == up.files[f])
            && Trusted(up.meta, req, engine)
  {
    RunInv(run, n, h);
    assert ManifestInv(run[n], prefix, h);
    var objects := run[n].objects[Key(prefix, ManifestName)].m.objects;
    forall key | key in Keys(objects) ensures key in staged {
      var i :| 0 <= i < |objects| && objects[i].key == key;
      assert Matches(staged, objects[i], h);
    }
    StagedExactly(staged, staged, objects, run[n].uploads[run[n].authors[prefix]].files, h);
  }

  function Itself(x: string): string {
    x
  }

  /** The name that an uploaded file is listed under is one that staging takes, when it is a plain name. */
  lemma UploadedKeyValid(file: string)
    requires '/' !in file && '\\' !in file && '\0' !in file && file != "" && file != "." && file != ".."
    ensures ValidKey(ObjectName(file))
  {
    hide Segments;
    assert ObjectName(file) == "backup" + "/" + file;
    SegmentsJoin("backup", file);
    SegmentsOfPlain("backup");
    SegmentsOfPlain(file);
  }

  const Example := Manifest("db", "db-0", "master", "uid", "11.4", 0, [Entry(ObjectName("v"), 4, "data")])

  lemma ExampleArtifact()
    ensures ValidKeys(Example.objects) && AllFit([Whole("data")], Example.objects, Itself)
    ensures Describes(Example.objects, map["v" := "data"], Itself)
    ensures "backup/old" !in Keys(Example.objects)
  {
    UploadedKeyValid("v");
    var files := map["v" := "data"];
    assert IsEntry(Example.objects[0], files, Itself) && Lists(Example.objects, ObjectName("v"));
    assert |ObjectName("v")| == 8 && |"backup/old"| == 10;
  }

  /** A file left in the staging directory by an earlier restore that was cut off stays beside the artifact. */
  method LeftoverStays() returns (dir: StagingDir, ok: bool)
    ensures fresh(dir) && ok && "backup/old" in dir.files && dir.files != Named(map["v" := "data"])
  {
    hide ValidKeys, AllFit, Describes, Keys, AllMatch;
    dir := new StagingDir(Itself, map["backup/old" := "stale"]);
    ExampleArtifact();
    ok := dir.StageArtifact(Some(Example), Expectation("db", "", Some(0), "", "", ""), [Whole("data")], map["v" := "data"]);
  }
}
