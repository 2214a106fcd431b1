/** The URI of a backup's manifest: how an upload prints it, and how a recovery reads it. */
module ManifestUri {
  import opened Operations
  import opened Artifacts

  // ---- Paths, by their segments

  function Slashed(parts: seq<string>): string
    requires parts != []
  {
    if |parts| == 1 then parts[0] else parts[0] + "/" + Slashed(parts[1..])
  }

  lemma {:induction false} SegmentsSlashed(parts: seq<string>)
    requires parts != [] && AllPlain(parts)
    ensures Segments(Slashed(parts)) == parts
  {
    SegmentsOfPlain(parts[0]);
    if |parts| > 1 {
      SegmentsSlashed(parts[1..]);
      SegmentsJoin(parts[0], Slashed(parts[1..]));
    }
  }

  lemma {:induction false} SlashedJoin(a: seq<string>, b: string)
    requires a != []
    ensures Slashed(a + [b]) == Slashed(a) + "/" + b
  {
    if |a| > 1 {
      SlashedJoin(a[1..], b);
      assert (a + [b])[1..] == a[1..] + [b];
    }
  }

  // ---- path.Clean and path.Join

  function Push(rooted: bool, stack: seq<string>, part: string): seq<string> {
    if part == "" || part == "." then stack
    else if part == ".." then
      if stack != [] && stack[|stack| - 1] != ".." then stack[..|stack| - 1]
      else if rooted then stack
      else stack + [".."]
    else stack + [part]
  }

  function Stack(rooted: bool, parts: seq<string>): seq<string> {
    if parts == [] then [] else Push(rooted, Stack(rooted, parts[..|parts| - 1]), parts[|parts| - 1])
  }

  predicate Rooted(s: string) {
    s != "" && s[0] == '/'
  }

  function Print(rooted: bool, stack: seq<string>): string {
    if stack == [] then (if rooted then "/" else ".") else (if rooted then "/" else "") + Slashed(stack)
  }

  function Clean(s: string): string {
    Print(Rooted(s), Stack(Rooted(s), Segments(s)))
  }

  function Join(a: string, b: string): string {
    if a == "" then (if b == "" then "" else Clean(b)) else if b == "" then Clean(a) else Clean(a + "/" + b)
  }

  /** What Clean leaves: no empty or "." part, and ".." only at the front of a relative path. */
  predicate IsClean(rooted: bool, stack: seq<string>) {
    && AllPlain(stack)
    && (forall i :: 0 <= i < |stack| ==> stack[i] != "" && stack[i] != ".")
    && (forall i :: 0 <= i < |stack| && stack[i] == ".." ==> !rooted && forall k :: 0 <= k < i ==> stack[k] == "..")
  }

  lemma {:induction false} StackIsClean(rooted: bool, parts: seq<string>)
    requires AllPlain(parts)
    ensures IsClean(rooted, Stack(rooted, parts))
  {
    if parts != [] {
      StackIsClean(rooted, parts[..|parts| - 1]);
      PushIsClean(rooted, Stack(rooted, parts[..|parts| - 1]), parts[|parts| - 1]);
    }
  }

  lemma PushIsClean(rooted: bool, stack: seq<string>, part: string)
    requires IsClean(rooted, stack) && NoSlash(part)
    ensures IsClean(rooted, Push(rooted, stack, part))
  {
    if part == ".." && !(stack != [] && stack[|stack| - 1] != "..") && !rooted {
      assert forall k :: 0 <= k < |stack| ==> stack[k] == "..";
    }
  }

  lemma {:induction false} CleanStays(rooted: bool, stack: seq<string>)
    requires IsClean(rooted, stack)
    ensures Stack(rooted, stack) == stack
  {
    if stack != [] {
      var before, part := stack[..|stack| - 1], stack[|stack| - 1];
      assert stack == before + [part];
      PushStays(rooted, before, part);
      hide IsClean, Push;
      CleanStays(rooted, before);
    }
  }

  lemma PushStays(rooted: bool, stack: seq<string>, part: string)
    requires IsClean(rooted, stack + [part])
    ensures IsClean(rooted, stack) && Push(rooted, stack, part) == stack + [part]
  {
    var longer := stack + [part];
    assert longer[|stack|] == part && forall k :: 0 <= k < |stack| ==> longer[k] == stack[k];
  }

  lemma StackEnds(rooted: bool, parts: seq<string>, part: string)
    requires part != "" && part != "." && part != ".."
    ensures Stack(rooted, parts + [part]) == Stack(rooted, parts) + [part]
  {
    assert (parts + [part])[..|parts|] == parts;
  }

  /** The parts of a path that was cleaned, with a leading empty one for a rooted path. */
  lemma PrintedParts(rooted: bool, stack: seq<string>)
    requires stack != [] && IsClean(rooted, stack)
    ensures Segments(Print(rooted, stack)) == (if rooted then [""] else []) + stack
    ensures Rooted(Print(rooted, stack)) <==> rooted
  {
    SegmentsSlashed(stack);
    if rooted {
      SegmentsJoin("", Slashed(stack));
      assert "" + "/" + Slashed(stack) == "/" + Slashed(stack);
    } else {
      assert "" + Slashed(stack) == Slashed(stack) && [] + stack == stack;
      assert stack[0] != "" && NoSlash(stack[0]) && stack[0][0] in stack[0];
    }
  }

  /** Appending one plain name to a path. */
  lemma JoinName(a: string, name: string)
    requires NoSlash(name) && name != "" && name != "." && name != ".."
    ensures Join(a, name) == Print(Rooted(a), Stack(Rooted(a), Segments(a)) + [name])
  {
    SegmentsOfPlain(name);
    if a == "" {
      assert name[0] in name;
      assert Stack(false, [""]) == Push(false, Stack(false, []), "");
      assert Stack(false, [name]) == Push(false, Stack(false, []), name);
    } else {
      SegmentsJoin(a, name);
      StackEnds(Rooted(a), Segments(a), name);
      assert (a + "/" + name)[0] == a[0];
    }
  }

  /** Appending one to a path that is clean already. */
  lemma JoinCleanName(rooted: bool, stack: seq<string>, name: string)
    requires stack != [] && IsClean(rooted, stack) && NoSlash(name) && name != "" && name != "." && name != ".."
    ensures Join(Print(rooted, stack), name) == Print(rooted, stack + [name]) && IsClean(rooted, stack + [name])
  {
    PushIsClean(rooted, stack, name);
    PrintedParts(rooted, stack);
    JoinName(Print(rooted, stack), name);
    CleanStays(rooted, stack);
    if rooted {
      RootSkipped(stack);
    } else {
      assert [] + stack == stack;
    }
  }

  lemma {:induction false} RootSkipped(parts: seq<string>)
    ensures Stack(true, [""] + parts) == Stack(true, parts)
  {
    if parts == [] {
      assert [""] + parts == [""];
      assert Stack(true, [""]) == Push(true, Stack(true, []), "");
    } else {
      RootSkipped(parts[..|parts| - 1]);
      assert ([""] + parts)[..|parts|] == [""] + parts[..|parts| - 1];
    }
  }

  // ---- The URI

  const MaxUri := 1093
  const MaxKey := 1024
  const Scheme := "s3://"

  predicate Allowed(c: char) {
    // No slash, '?', '#', '%', whitespace or control character.
    c != '/' && c != '?' && c != '#' && c != '%' && c > ' ' && c as int != 127
  }

  predicate SegmentOk(s: string) {
    s != "" && s != "." && s != ".." && forall i :: 0 <= i < |s| ==> Allowed(s[i])
  }

  predicate IsAlnum(c: char) {
    'a' <= c <= 'z' || '0' <= c <= '9'
  }

  predicate BucketOk(b: string) {
    && 3 <= |b| <= 63 && IsAlnum(b[0]) && IsAlnum(b[|b| - 1])
    && (forall i :: 0 <= i < |b| ==> IsAlnum(b[i]) || b[i] == '.' || b[i] == '-')
    && (forall i :: 0 < i < |b| ==> !(b[i - 1] == '.' && b[i] == '.'))
  }

  /** What the recovery accepts after the scheme: a bucket, one or more segments, and the manifest's name. */
  predicate PartsOk(parts: seq<string>) {
    && |parts| >= 3 && BucketOk(parts[0]) && parts[|parts| - 1] == ManifestName
    && forall i :: 0 < i < |parts| - 1 ==> SegmentOk(parts[i])
  }

  datatype Location = Location(bucket: string, prefix: string)

  predicate Accepts(uri: string) {
    |uri| <= MaxUri && Scheme <= uri && PartsOk(Segments(uri[|Scheme|..]))
  }

  function Parse(uri: string): Option<Location> {
    if !Accepts(uri) then None
    else
      var parts := Segments(uri[|Scheme|..]);
      Some(Location(parts[0], Slashed(parts[1..|parts| - 1])))
  }

  function Uri(bucket: string, key: string): string {
    Scheme + (bucket + "/" + key)
  }

  /** The length of a string in bytes of UTF-8. */
  function Bytes(s: string): nat {
    if s == "" then 0 else Bytes(s[..|s| - 1]) + CharBytes(s[|s| - 1])
  }

  function CharBytes(c: char): nat {
    if c as int < 0x80 then 1 else if c as int < 0x800 then 2 else if c as int < 0x10000 then 3 else 4
  }

  lemma {:induction false} BytesJoin(a: string, b: string)
    ensures Bytes(a + b) == Bytes(a) + Bytes(b)
  {
    if b == "" {
      assert a + b == a;
    } else {
      BytesJoin(a, b[..|b| - 1]);
      assert (a + b)[..|a + b| - 1] == a + b[..|b| - 1];
    }
  }

  lemma {:induction false} BytesAscii(s: string)
    requires forall i :: 0 <= i < |s| ==> s[i] as int < 0x80
    ensures Bytes(s) == |s|
  {
    if s != "" {
      BytesAscii(s[..|s| - 1]);
    }
  }

  // ---- What an upload writes and what the controller admits

  predicate IsAttemptId(id: string) {
    |id| == 32 && forall i :: 0 <= i < |id| ==> IsHexDigit(id[i])
  }

  const Zeros := "00000000000000000000000000000000"

  function AttemptName(id: string): string {
    "attempt-" + id
  }

  /** BackupAttemptPrefix */
  function AttemptPrefix(parent: string, id: string): string {
    Join(parent, AttemptName(id))
  }

  function ManifestKey(parent: string, id: string): string {
    Join(AttemptPrefix(parent, id), ManifestName)
  }

  /** backupDestinationRefusal finds nothing to refuse, with a placeholder of the same width. */
  predicate Admitted(bucket: string, parent: string) {
    Accepts(Uri(bucket, ManifestKey(parent, Zeros))) && Bytes(ManifestKey(parent, Zeros)) <= MaxKey
  }

  function Parent(parent: string): seq<string> {
    Stack(Rooted(parent), Segments(parent))
  }

  lemma AttemptIsPlain(id: string)
    requires IsAttemptId(id)
    ensures SegmentOk(AttemptName(id)) && NoSlash(AttemptName(id)) && |AttemptName(id)| == 40
    ensures Bytes(AttemptName(id)) == 40
  {
    var a := AttemptName(id);
    assert forall i :: 0 <= i < |a| ==> (i < 8 ==> a[i] == "attempt-"[i]) && (i >= 8 ==> a[i] == id[i - 8]);
    BytesAscii(a);
  }

  lemma ManifestNamePlain()
    ensures NoSlash(ManifestName) && ManifestName != "" && ManifestName != "." && ManifestName != ".." && |ManifestName| == 13
  {
    assert ManifestName[0] == 'm';
  }

  /** The key is the parent's parts, the attempt and the manifest's name. */
  lemma KeyParts(parent: string, id: string)
    requires IsAttemptId(id)
    ensures var s := Parent(parent) + [AttemptName(id)];
            && IsClean(Rooted(parent), s)
            && AttemptPrefix(parent, id) == Print(Rooted(parent), s)
            && ManifestKey(parent, id) == Print(Rooted(parent), s + [ManifestName])
            && Segments(ManifestKey(parent, id)) == (if Rooted(parent) then [""] else []) + s + [ManifestName]
  {
    AttemptIsPlain(id);
    ManifestNamePlain();
    SegmentsPlain(parent);
    StackIsClean(Rooted(parent), Segments(parent));
    PushIsClean(Rooted(parent), Parent(parent), AttemptName(id));
    JoinName(parent, AttemptName(id));
    JoinCleanName(Rooted(parent), Parent(parent) + [AttemptName(id)], ManifestName);
    PrintedParts(Rooted(parent), Parent(parent) + [AttemptName(id)] + [ManifestName]);
  }

  lemma UriParts(bucket: string, key: string)
    ensures Scheme <= Uri(bucket, key) && Segments(Uri(bucket, key)[|Scheme|..]) == Segments(bucket) + Segments(key)
    ensures |Uri(bucket, key)| == 6 + |bucket| + |key|
  {
    assert Uri(bucket, key)[|Scheme|..] == bucket + "/" + key;
    SegmentsJoin(bucket, key);
  }

  /** Two keys of one parent differ in the attempt's name alone, and so not in length. */
  lemma KeyLengths(parent: string, a: string, b: string)
    requires IsAttemptId(a) && IsAttemptId(b)
    ensures |ManifestKey(parent, a)| == |ManifestKey(parent, b)| && Bytes(ManifestKey(parent, a)) == Bytes(ManifestKey(parent, b))
  {
    KeyParts(parent, a);
    KeyParts(parent, b);
    PrintLengths(parent, a);
    PrintLengths(parent, b);
  }

  function Front(parent: string): string {
    (if Rooted(parent) then "/" else "") + (if Parent(parent) == [] then "" else Slashed(Parent(parent)) + "/")
  }

  lemma Regrouped(root: string, x: string, a: string, m: string)
    ensures root + (x + a + "/" + m) == (root + x) + (a + ("/" + m))
  {
  }

  lemma KeyText(parent: string, id: string)
    requires IsAttemptId(id)
    ensures ManifestKey(parent, id) == Front(parent) + (AttemptName(id) + ("/" + ManifestName))
  {
    hide IsClean, Stack, Segments;
    KeyParts(parent, id);
    var s, a, root := Parent(parent), AttemptName(id), if Rooted(parent) then "/" else "";
    SlashedJoin(s + [a], ManifestName);
    if s != [] {
      SlashedJoin(s, a);
      Regrouped(root, Slashed(s) + "/", a, ManifestName);
    } else {
      assert s + [a] == [a];
      Regrouped(root, "", a, ManifestName);
      assert "" + a == a;
    }
  }

  lemma PrintLengths(parent: string, id: string)
    requires IsAttemptId(id)
    ensures |ManifestKey(parent, id)| == |Front(parent)| + 54
    ensures Bytes(ManifestKey(parent, id)) == Bytes(Front(parent)) + 40 + Bytes("/" + ManifestName)
  {
    hide Bytes, ManifestKey, Front;
    KeyText(parent, id);
    AttemptIsPlain(id);
    ManifestNamePlain();
    BytesJoin(Front(parent), AttemptName(id) + ("/" + ManifestName));
    BytesJoin(AttemptName(id), "/" + ManifestName);
  }

  lemma ZerosAreAnId()
    ensures IsAttemptId(Zeros)
  {
  }

  predicate SegmentsOk(parts: seq<string>) {
    forall i :: 0 <= i < |parts| ==> SegmentOk(parts[i])
  }

  /** The parts of a URI are accepted exactly when those of the bucket and of the key are. */
  lemma PartsOkIff(b: seq<string>, s: seq<string>)
    requires b != [] && s != []
    ensures PartsOk(b + (s + [ManifestName])) <==> BucketOk(b[0]) && SegmentsOk(b[1..]) && SegmentsOk(s)
  {
    var parts := b + (s + [ManifestName]);
    assert forall i :: 0 < i < |b| ==> parts[i] == b[i] == b[1..][i - 1];
    assert forall i :: 0 <= i < |s| ==> parts[|b| + i] == s[i];
    if PartsOk(parts) {
      forall i | 0 <= i < |b[1..]| ensures SegmentOk(b[1..][i]) {
        assert SegmentOk(parts[i + 1]);
      }
      forall i | 0 <= i < |s| ensures SegmentOk(s[i]) {
        assert SegmentOk(parts[|b| + i]);
      }
    }
  }

  /** The segments of a key below its bucket, for a rooted parent with the empty one that comes first. */
  function KeySegments(parent: string, id: string): seq<string> {
    (if Rooted(parent) then [""] else []) + (Parent(parent) + [AttemptName(id)])
  }

  lemma AcceptsIff(bucket: string, parent: string, id: string)
    requires IsAttemptId(id)
    ensures Segments(bucket) != []
    ensures Accepts(Uri(bucket, ManifestKey(parent, id))) <==>
            && 60 + |bucket| + |Front(parent)| <= MaxUri
            && BucketOk(Segments(bucket)[0]) && SegmentsOk(Segments(bucket)[1..]) && SegmentsOk(KeySegments(parent, id))
  {
    hide SegmentsOk, BucketOk, Segments, Stack, IsClean, Front;
    SegmentsPlain(bucket);
    KeyParts(parent, id);
    PrintLengths(parent, id);
    UriParts(bucket, ManifestKey(parent, id));
    PartsOkIff(Segments(bucket), KeySegments(parent, id));
    assert Segments(ManifestKey(parent, id)) == KeySegments(parent, id) + [ManifestName];
  }

  lemma KeySegmentsOkIff(parent: string, id: string)
    requires IsAttemptId(id)
    ensures SegmentsOk(KeySegments(parent, id)) <==> !Rooted(parent) && SegmentsOk(Parent(parent))
  {
    AttemptIsPlain(id);
    var k, s := KeySegments(parent, id), Parent(parent);
    assert Rooted(parent) ==> k[0] == "";
    assert !Rooted(parent) ==> k == s + [AttemptName(id)];
    assert forall i :: 0 <= i < |s| ==> (s + [AttemptName(id)])[i] == s[i];
  }

  /** For every destination that is admitted and every attempt, the URI of the upload is one a recovery accepts. */
  lemma UploadIsAccepted(bucket: string, parent: string, id: string)
    requires IsAttemptId(id)
    ensures Admitted(bucket, parent) ==> Accepts(Uri(bucket, ManifestKey(parent, id))) && Bytes(ManifestKey(parent, id)) <= MaxKey
  {
    hide SegmentsOk, BucketOk, Accepts, ManifestKey, Bytes, Segments, Front;
    ZerosAreAnId();
    AcceptsIff(bucket, parent, id);
    AcceptsIff(bucket, parent, Zeros);
    KeySegmentsOkIff(parent, id);
    KeySegmentsOkIff(parent, Zeros);
    KeyLengths(parent, id, Zeros);
  }

  lemma ReadParts(bucket: string, parent: string, id: string)
    requires Admitted(bucket, parent) && IsAttemptId(id)
    ensures !Rooted(parent)
    ensures Segments(Uri(bucket, ManifestKey(parent, id))[|Scheme|..]) == Segments(bucket) + (Parent(parent) + [AttemptName(id)] + [ManifestName])
  {
    hide SegmentsOk, BucketOk, Bytes, Segments, Stack, IsClean, Front;
    ZerosAreAnId();
    AcceptsIff(bucket, parent, Zeros);
    KeySegmentsOkIff(parent, Zeros);
    KeyParts(parent, id);
    UriParts(bucket, ManifestKey(parent, id));
    var s := Parent(parent) + [AttemptName(id)];
    assert [] + s + [ManifestName] == s + [ManifestName];
  }

  lemma ReadsItsOwn(bucket: string, parent: string, id: string)
    requires Admitted(bucket, parent) && IsAttemptId(id) && NoSlash(bucket)
    ensures Parse(Uri(bucket, ManifestKey(parent, id))) == Some(Location(bucket, AttemptPrefix(parent, id)))
  {
    hide Segments, Stack, IsClean, Accepts, Clean, Bytes, Admitted, IsAttemptId, ManifestKey, AttemptPrefix, Uri, Parent, Slashed;
    UploadIsAccepted(bucket, parent, id);
    ReadParts(bucket, parent, id);
    KeyParts(parent, id);
    SegmentsOfPlain(bucket);
    var s := Parent(parent) + [AttemptName(id)];
    Middle(bucket, s, ManifestName);
    assert "" + Slashed(s) == Slashed(s);
  }

  lemma Middle(x: string, s: seq<string>, y: string)
    ensures ([x] + (s + [y]))[1..1 + |s|] == s && |[x] + (s + [y])| == |s| + 2
  {
  }

  lemma ReadsAnother(bucket: string, parent: string, id: string)
    requires Admitted(bucket, parent) && IsAttemptId(id) && !NoSlash(bucket)
    ensures Parse(Uri(bucket, ManifestKey(parent, id))).Some? && Parse(Uri(bucket, ManifestKey(parent, id))).value.bucket != bucket
  {
    UploadIsAccepted(bucket, parent, id);
    ReadParts(bucket, parent, id);
    SegmentsPlain(bucket);
    hide Segments, Stack, IsClean, Accepts, Clean, Bytes;
    assert NoSlash(Segments(bucket)[0]);
  }

  lemma JoinsBack(parent: string, id: string)
    ensures Join(AttemptPrefix(parent, id), ManifestName) == ManifestKey(parent, id)
  {
  }

  /** And the recovery reads the manifest from the bucket and under the key it was uploaded to exactly
      when the bucket is a single segment. */
  lemma RoundTrip(bucket: string, parent: string, id: string)
    requires IsAttemptId(id)
    ensures var read := Parse(Uri(bucket, ManifestKey(parent, id)));
            Admitted(bucket, parent) ==>
              && read.Some?
              && (NoSlash(bucket) <==> read.value.bucket == bucket && Join(read.value.prefix, ManifestName) == ManifestKey(parent, id))
  {
    hide Admitted, Parse, ManifestKey, Uri, Join;
    if Admitted(bucket, parent) {
      if NoSlash(bucket) {
        ReadsItsOwn(bucket, parent, id);
        JoinsBack(parent, id);
      } else {
        ReadsAnother(bucket, parent, id);
      }
    }
  }

  lemma TailBytes()
    ensures Bytes("/" + ManifestName) == 14
  {
    ManifestNamePlain();
    var s := "/" + ManifestName;
    assert forall i :: 0 <= i < |s| ==> s[i] == "/manifest.json"[i] && "/manifest.json"[i] as int < 0x80;
    BytesAscii(s);
  }

  /** A parent of one part. */
  lemma OnePart(name: string)
    requires SegmentOk(name) && NoSlash(name)
    ensures !Rooted(name) && Parent(name) == [name] && Front(name) == name + "/"
  {
    SegmentsOfPlain(name);
    assert name[0] in name;
    assert Stack(false, []) == [] && [name][..0] == [];
    assert Stack(false, [name]) == Push(false, [], name);
    assert "" + (name + "/") == name + "/";
  }

  lemma ExampleParts()
    ensures Segments("abc/def") == ["abc", "def"] && !Rooted("p") && Parent("p") == ["p"]
    ensures |Front("p")| == 2 && Bytes(Front("p")) == 2
  {
    hide Segments, Bytes, Stack, Parent, Front;
    assert "abc" + "/" + "def" == "abc/def";
    SegmentsJoin("abc", "def");
    SegmentsOfPlain("abc");
    SegmentsOfPlain("def");
    OnePart("p");
    BytesAscii("p" + "/");
  }

  /** A bucket with a slash can be admitted; what is read for it is another object. */
  lemma SlashInBucketAdmitted()
    ensures Admitted("abc/def", "p") && !NoSlash("abc/def")
  {
    hide Bytes, ManifestKey, Accepts, Segments, Stack, Parent, Front, Rooted, Uri;
    ZerosAreAnId();
    ExampleParts();
    KeySegmentsOkIff("p", Zeros);
    AcceptsIff("abc/def", "p", Zeros);
    PrintLengths("p", Zeros);
    TailBytes();
    assert "abc/def"[3] == '/';
  }
}
