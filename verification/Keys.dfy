/** The idempotency keys of the bootstrap steps and of the recovery, and the place of a
    seed backup, as strings. */
module Keys {
  import opened Operations
  import opened Seeding

  function Digit(d: nat): char
    requires d < 10
  {
    ('0' as int + d) as char
  }

  predicate IsDigit(c: char) {
    '0' <= c <= '9'
  }

  function Dec(n: nat): string {
    if n < 10 then [Digit(n)] else Dec(n / 10) + [Digit(n % 10)]
  }

  lemma {:induction false} DecDigits(n: nat)
    ensures |Dec(n)| > 0 && forall i :: 0 <= i < |Dec(n)| ==> IsDigit(Dec(n)[i])
  {
    if n >= 10 {
      DecDigits(n / 10);
    }
  }

  lemma {:induction false} DecInjective(a: nat, b: nat)
    requires Dec(a) == Dec(b)
    ensures a == b
  {
    DecDigits(a / 10);
    DecDigits(b / 10);
    assert Dec(a)[|Dec(a)| - 1] == Digit(a % 10) && Dec(b)[|Dec(b)| - 1] == Digit(b % 10);
    if a >= 10 && b >= 10 {
      assert Dec(a / 10) == Dec(a)[..|Dec(a)| - 1] == Dec(b)[..|Dec(b)| - 1] == Dec(b / 10);
      DecInjective(a / 10, b / 10);
    }
  }

  /** What may follow a number: nothing, or something that does not begin with a digit. */
  predicate Ends(s: string) {
    s == "" || !IsDigit(s[0])
  }

  lemma NoLonger(d: string, x: string, e: string, y: string)
    requires d + x == e + y && Ends(y) && forall i :: 0 <= i < |d| ==> IsDigit(d[i])
    ensures |d| <= |e|
  {
    if d != "" {
      var k := if |e| < |d| then |e| else 0;
      assert (d + x)[k] == d[k];
    }
  }

  lemma DecThen(a: nat, x: string, b: nat, y: string)
    requires Dec(a) + x == Dec(b) + y && Ends(x) && Ends(y)
    ensures a == b && x == y
  {
    DecDigits(a);
    DecDigits(b);
    NoLonger(Dec(a), x, Dec(b), y);
    NoLonger(Dec(b), y, Dec(a), x);
    var s := Dec(a) + x;
    assert Dec(a) == s[..|Dec(a)|] && Dec(b) == s[..|Dec(b)|];
    DecInjective(a, b);
    Cancel(Dec(a), x, y);
  }

  lemma Cancel(p: string, x: string, y: string)
    requires p + x == p + y
    ensures x == y
  {
    assert x == (p + x)[|p|..] && y == (p + y)[|p|..];
  }

  function MemberName(cluster: string, i: nat): string {
    cluster + ("-" + Dec(i))
  }

  // ---- The keys

  /** The name of a seed backup of a later member: the member, its source and the round. */
  function Artifact(peer: string, source: string, round: nat): string {
    peer + ("-from-" + (source + (if round > 0 then "-r" + Dec(round) else "")))
  }

  function StepKey(step: string, uid: string, database: string, attempt: nat, member: string): string {
    (step + "-" + uid + "-" + database + "-a") + (Dec(attempt) + MemberPart(member))
  }

  function MemberPart(member: string): string {
    if member != "" then "-" + member else ""
  }

  function KeyMember(key: Key): string {
    match key
    case BootstrapKey(_) => ""
    case BackupKey(_, First) => ""
    case BackupKey(_, Of(p, s, r)) => Artifact(p, s, r)
    case RestoreKey(_, p, First) => p
    case RestoreKey(_, _, Of(p, s, r)) => Artifact(p, s, r)
  }

  function StepName(key: Key): string {
    match key
    case BootstrapKey(_) => "ha-bootstrap"
    case BackupKey(_, _) => "seed-backup"
    case RestoreKey(_, _, _) => "seed-restore"
  }

  function KeyString(uid: string, database: string, key: Key): string {
    StepKey(StepName(key), uid, database, key.attempt, KeyMember(key))
  }

  ghost predicate IsMember(cluster: string, m: string) {
    exists i: nat :: m == MemberName(cluster, i)
  }

  ghost predicate SeedNames(cluster: string, s: Seed) {
    s.Of? ==> IsMember(cluster, s.peer) && IsMember(cluster, s.source)
  }

  /** The keys of a cluster name its members, and a restore key of a later member its own seed. */
  ghost predicate KeyNames(cluster: string, key: Key) {
    match key
    case BootstrapKey(_) => true
    case BackupKey(_, s) => SeedNames(cluster, s)
    case RestoreKey(_, p, s) => IsMember(cluster, p) && SeedNames(cluster, s) && (s.Of? ==> s.peer == p)
  }

  lemma MemberThen(cluster: string, i: nat, x: string, j: nat, y: string)
    requires MemberName(cluster, i) + x == MemberName(cluster, j) + y && Ends(x) && Ends(y)
    ensures i == j && x == y
  {
    assert MemberName(cluster, i) + x == (cluster + "-") + (Dec(i) + x);
    assert MemberName(cluster, j) + y == (cluster + "-") + (Dec(j) + y);
    Cancel(cluster + "-", Dec(i) + x, Dec(j) + y);
    DecThen(i, x, j, y);
  }

  function RoundPart(round: nat): string {
    if round > 0 then "-r" + Dec(round) else ""
  }

  lemma RoundsDiffer(r: nat, q: nat)
    requires RoundPart(r) == RoundPart(q)
    ensures r == q
  {
    DecDigits(r);
    DecDigits(q);
    if r > 0 && q > 0 {
      Cancel("-r", Dec(r), Dec(q));
      DecInjective(r, q);
    }
  }

  lemma ArtifactsDiffer(cluster: string, p: string, s: string, r: nat, p': string, s': string, r': nat)
    requires IsMember(cluster, p) && IsMember(cluster, s) && IsMember(cluster, p') && IsMember(cluster, s')
    requires Artifact(p, s, r) == Artifact(p', s', r')
    ensures p == p' && s == s' && r == r'
  {
    var i: nat :| p == MemberName(cluster, i);
    var i': nat :| p' == MemberName(cluster, i');
    var j: nat :| s == MemberName(cluster, j);
    var j': nat :| s' == MemberName(cluster, j');
    var x, x' := "-from-" + (s + RoundPart(r)), "-from-" + (s' + RoundPart(r'));
    MemberThen(cluster, i, x, i', x');
    Cancel("-from-", s + RoundPart(r), s' + RoundPart(r'));
    MemberThen(cluster, j, RoundPart(r), j', RoundPart(r'));
    RoundsDiffer(r, r');
  }

  /** A member's own name is no artifact's. */
  lemma MemberNoArtifact(cluster: string, m: string, p: string, s: string, r: nat)
    requires IsMember(cluster, m) && IsMember(cluster, p)
    ensures m != Artifact(p, s, r)
  {
    var i: nat :| m == MemberName(cluster, i);
    var j: nat :| p == MemberName(cluster, j);
    if m == Artifact(p, s, r) {
      assert m == MemberName(cluster, i) + "";
      MemberThen(cluster, i, "", j, "-from-" + (s + RoundPart(r)));
    }
  }

  lemma NamesNotEmpty(cluster: string, key: Key)
    requires KeyNames(cluster, key)
    ensures KeyMember(key) == "" <==> key.BootstrapKey? || (key.BackupKey? && key.seed.First?)
  {
    if key.RestoreKey? && key.seed.First? {
      var i: nat :| key.peer == MemberName(cluster, i);
      DecDigits(i);
    }
  }

  lemma StepsDiffer(uid: string, database: string, a: Key, b: Key)
    requires KeyString(uid, database, a) == KeyString(uid, database, b)
    ensures StepName(a) == StepName(b)
  {
    var s := KeyString(uid, database, a);
    assert s[0] == StepName(a)[0] && s[5] == StepName(a)[5];
    assert s[0] == StepName(b)[0] && s[5] == StepName(b)[5];
  }

  /** Equal step keys have equal attempts and equal member parts. */
  lemma StepKeyParts(step: string, uid: string, database: string, a: nat, m: string, b: nat, n: string)
    requires StepKey(step, uid, database, a, m) == StepKey(step, uid, database, b, n)
    ensures a == b && m == n
  {
    Cancel(step + "-" + uid + "-" + database + "-a", Dec(a) + MemberPart(m), Dec(b) + MemberPart(n));
    DecThen(a, MemberPart(m), b, MemberPart(n));
    if m != "" && n != "" {
      Cancel("-", m, n);
    }
  }

  /** Keys are injective in the step, the attempt, the peer, the source and the round. */
  lemma KeysInjective(cluster: string, uid: string, database: string, a: Key, b: Key)
    requires KeyNames(cluster, a) && KeyNames(cluster, b)
    requires KeyString(uid, database, a) == KeyString(uid, database, b)
    ensures a == b
  {
    StepsDiffer(uid, database, a, b);
    StepKeyParts(StepName(a), uid, database, a.attempt, KeyMember(a), b.attempt, KeyMember(b));
    NamesNotEmpty(cluster, a);
    NamesNotEmpty(cluster, b);
    if !a.BootstrapKey? && a.seed.Of? && b.seed.Of? {
      ArtifactsDiffer(cluster, a.seed.peer, a.seed.source, a.seed.round, b.seed.peer, b.seed.source, b.seed.round);
    } else if a.RestoreKey? && a.seed.First? && b.seed.Of? {
      MemberNoArtifact(cluster, a.peer, b.seed.peer, b.seed.source, b.seed.round);
    } else if a.RestoreKey? && a.seed.Of? && b.seed.First? {
      MemberNoArtifact(cluster, b.peer, a.seed.peer, a.seed.source, a.seed.round);
    }
  }

  function RecoveryKey(uid: string, uri: string, member: string, attempt: nat): string {
    ("restore:" + uid + ":" + uri + ":" + member) + (if attempt > 0 then ":a" + Dec(attempt) else "")
  }

  lemma RecoveryKeysInjective(uid: string, uri: string, member: string, a: nat, b: nat)
    requires RecoveryKey(uid, uri, member, a) == RecoveryKey(uid, uri, member, b)
    ensures a == b
  {
    Cancel("restore:" + uid + ":" + uri + ":" + member, if a > 0 then ":a" + Dec(a) else "", if b > 0 then ":a" + Dec(b) else "");
    if a > 0 && b > 0 {
      Cancel(":a", Dec(a), Dec(b));
      DecInjective(a, b);
    }
  }

  // ---- The place of a seed backup

  function SeedDir(seed: Seed): string {
    match seed
    case First => "seed"
    case Of(p, s, r) => "seed-" + Artifact(p, s, r)
  }

  /** The end of the URI of the seed backup's manifest, from the cluster's identity on. */
  function SeedSuffix(uid: string, seed: Seed, database: string): string {
    ("/" + uid + "/") + SeedDir(seed) + ("/" + database + "/manifest.json")
  }

  predicate EndsWith(s: string, suffix: string) {
    |suffix| <= |s| && s[|s| - |suffix|..] == suffix
  }

  predicate NoSlash(s: string) {
    '/' !in s
  }

  /** Of one string, two ends that agree after their middle part, which has no slash and follows one, are the same. */
  lemma SameMiddle(s: string, p: string, x: string, y: string, tail: string)
    requires p != "" && p[|p| - 1] == '/' && NoSlash(x) && NoSlash(y)
    requires EndsWith(s, p + x + tail) && EndsWith(s, p + y + tail)
    ensures x == y
  {
    var n := |s| - |tail|;
    var px, py := p + x + tail, p + y + tail;
    assert s[n - |x| - 1] == px[|p| - 1] == '/';
    assert s[n - |y| - 1] == py[|p| - 1] == '/';
    assert forall k :: 0 <= k < |x| ==> s[n - |x| + k] == px[|p| + k] == x[k];
    assert forall k :: 0 <= k < |y| ==> s[n - |y| + k] == py[|p| + k] == y[k];
    assert |x| == |y|;
  }

  /** What restoredSeed accepts names one seed backup: this step's peer, source and round. */
  lemma RestoredSeedIdentifies(cluster: string, uid: string, database: string, uri: string, a: Seed, b: Seed)
    requires SeedNames(cluster, a) && SeedNames(cluster, b) && NoSlash(SeedDir(a)) && NoSlash(SeedDir(b))
    requires EndsWith(uri, SeedSuffix(uid, a, database)) && EndsWith(uri, SeedSuffix(uid, b, database))
    ensures a == b
  {
    SameMiddle(uri, "/" + uid + "/", SeedDir(a), SeedDir(b), "/" + database + "/manifest.json");
    if a.Of? && b.Of? {
      Cancel("seed-", Artifact(a.peer, a.source, a.round), Artifact(b.peer, b.source, b.round));
      ArtifactsDiffer(cluster, a.peer, a.source, a.round, b.peer, b.source, b.round);
    }
  }
}
