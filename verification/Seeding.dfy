/** The HA bootstrap of one database, and the seeding of the other members: reconciles
    that read the stored status, which may be stale, start and poll operations on
    members, and write the status once at the end, which may be lost.

    `Bootstrapper` is one reconcile, with every answer of the outside left open. What
    it may send is MaySend and what it may write is Evolves; the runs at the end
    interleave any number of reconciles that keep to those two. */
module Seeding {
  import opened Operations
  import Roles

  datatype Phase = Waiting | Making | Made | Stopped

  /** A seed backup: the one of the first peer, or the one taken for a later member on its source, by round. */
  datatype Seed = First | Of(peer: string, source: string, round: nat)

  datatype Copy = Copy(member: string, source: string, round: nat, backup: string, restore: string, missingSince: Option<int>)

  datatype Status = Status(
    phase: Phase, attempts: nat, operation: string, missingSince: Option<int>, created: bool,
    seeded: seq<string>, copy: Option<Copy>, configured: bool)

  const Unstarted := Status(Waiting, 0, "", None, false, [], None, false)

  const MaxAttempts := 3
  const MissingWait := 1800

  datatype Key = BootstrapKey(attempt: nat) | BackupKey(attempt: nat, seed: Seed) | RestoreKey(attempt: nat, peer: string, seed: Seed)

  predicate Final(s: Status) {
    s.phase == Stopped || s.configured
  }

  /** The copy in progress goes to the first peer that is not seeded; the first peer's is of round 0. */
  ghost predicate WellFormed(s: Status, holder: string, peers: seq<string>) {
    && s.attempts < MaxAttempts
    && (s.copy.Some? ==> s.created && Due(s.seeded, holder, peers, s.copy.value.member) && (s.seeded == [] ==> s.copy.value.round == 0))
  }

  ghost predicate Due(seeded: seq<string>, holder: string, peers: seq<string>, member: string) {
    exists i :: IsDue(seeded, holder, peers, i) && peers[i] == member
  }

  predicate IsDue(seeded: seq<string>, holder: string, peers: seq<string>, i: int) {
    0 <= i < |peers| && peers[i] != holder && peers[i] !in seeded && forall k :: 0 <= k < i ==> peers[k] == holder || peers[k] in seeded
  }

  // ---- Keys that are spent

  /** The copy to peer in s has an operation of round r, or has gone past that round. */
  predicate Past(s: Status, peer: string, r: nat, restoring: bool) {
    || peer in s.seeded
    || (s.copy.Some? && s.copy.value.member == peer &&
        (s.copy.value.round > r || (s.copy.value.round == r && (if restoring then s.copy.value.restore else s.copy.value.backup) != "")))
  }

  /** No reconcile that reads s starts an operation under the key any more. */
  predicate Spent(s: Status, key: Key) {
    || Final(s) || s.attempts > key.attempt
    || (s.attempts == key.attempt &&
        match key
        case BootstrapKey(_) => s.created || s.operation != ""
        case BackupKey(_, First) => s.seeded != [] || (s.copy.Some? && s.copy.value.backup != "")
        case BackupKey(_, Of(p, _, r)) => Past(s, p, r, false)
        case RestoreKey(_, _, First) => s.seeded != [] || (s.copy.Some? && s.copy.value.restore != "")
        case RestoreKey(_, p, Of(_, _, r)) => Past(s, p, r, true))
  }

  /** Within an attempt a copy keeps what it has started; its source changes only before its restore is started. */
  predicate CopyGrows(a: Copy, b: Copy) {
    && b.member == a.member
    && ((b.round == a.round && b.source == a.source && (a.backup != "" ==> b.backup != "") && (a.restore != "" ==> b.restore == a.restore))
        || (b.round > a.round && a.restore == ""))
  }

  /** What a reconcile, and so every later version, keeps of the status it read. */
  predicate Grows(s: Status, t: Status) {
    && s.attempts <= t.attempts
    && (Final(s) ==> t == s)
    && (s.created ==> t.created)
    && s.seeded <= t.seeded
    && (t.attempts == s.attempts && !Final(t) ==>
          && (s.operation != "" ==> t.created || t.operation != "")
          && (s.copy.Some? ==>
                s.copy.value.member in t.seeded || (t.copy.Some? && CopyGrows(s.copy.value, t.copy.value))))
  }

  lemma SpentStays(s: Status, t: Status, key: Key, holder: string, peers: seq<string>)
    requires Grows(s, t) && Spent(s, key) && WellFormed(s, holder, peers) && WellFormed(t, holder, peers)
    ensures Spent(t, key)
  {
  }

  lemma GrowsTransitive(s: Status, t: Status, u: Status)
    requires Grows(s, t) && Grows(t, u)
    ensures Grows(s, u)
  {
  }

  // ---- What a reconcile may send and write

  /** A restore on peer, answered as Completed, that restored this seed backup. */
  datatype Proof = Proof(peer: string, seed: Seed)

  /** The start is sent by a reconcile that read b and observed `master` as the only master among the
      holders of the database. A restore of a later member needs its source on record in b. */
  predicate MaySend(b: Status, key: Key, member: string, holder: string, master: Option<string>) {
    && !Spent(b, key) && key.attempt == b.attempts
    && match key
       case BootstrapKey(_) => member == holder
       case BackupKey(_, First) => member == holder
       case BackupKey(_, Of(_, source, _)) => member == source && master == Some(source)
       case RestoreKey(_, peer, First) => member == peer && (b.copy.Some? ==> b.copy.value.source == holder)
       case RestoreKey(_, peer, Of(p, source, round)) =>
         && member == peer == p && master == Some(source)
         && b.copy.Some? && b.copy.value.member == peer && b.copy.value.source == source && b.copy.value.round == round
  }

  /** A member enters `seeded` alone, by a completed restore of the seed backup of the copy on record. */
  predicate SeedsOnProof(s: Status, t: Status, proofs: set<Proof>) {
    || t.seeded == s.seeded
    || (&& |t.seeded| == |s.seeded| + 1
        && var p := t.seeded[|s.seeded|];
           if s.seeded == [] then Proof(p, First) in proofs
           else
             && s.copy.Some? && s.copy.value.member == p
             && Proof(p, Of(p, s.copy.value.source, s.copy.value.round)) in proofs)
  }

  ghost predicate Evolves(s: Status, t: Status, proofs: set<Proof>, holder: string, peers: seq<string>) {
    && Grows(s, t) && WellFormed(t, holder, peers) && SeedsOnProof(s, t, proofs)
    && (t.configured && !s.configured ==> forall i :: 0 <= i < |peers| ==> peers[i] == holder || peers[i] in t.seeded)
  }

  datatype Outcome = IsCompleted | IsFailed | IsRunning

  /** An operation as a member answers it; `matches` says it is of the kind and database of the step,
      and `restored` is the seed backup of this cluster and database its restored artifact names. */
  datatype Op = Op(id: string, matches: bool, outcome: Outcome, restored: Option<Seed>)

  datatype Reply = Got(op: Op) | Followed(op: Op) | Missing | Refused | Unavailable

  /** What the members answer in one reconcile: to polls and to starts, what is observed for a seed source with so many
      members seeded, which members wait for an engine update, and whether an earlier attempt's backup is used again
      (None: that could not be looked up). */
  datatype Env = Env(
    storage: bool, polls: string -> Reply, starts: Key -> Reply, looks: nat -> Roles.Answers,
    held: string -> bool, reuse: Key -> Option<bool>)

  /** An answer names its operation, and an operation started with this very request restores the seed it names. */
  ghost predicate Sane(e: Env) {
    && (forall id :: var r := e.polls(id); (r.Got? && r.op.id == id) || r.Missing? || r.Unavailable?)
    && (forall key :: var r := e.starts(key);
          && !r.Missing? && ((r.Got? || r.Followed?) ==> r.op.id != "")
          && (key.RestoreKey? && r.Got? && r.op.outcome == IsCompleted ==> r.op.restored == Some(key.seed)))
  }

  predicate Answers(r: Reply) {
    r.Got? || r.Followed?
  }

  /** A restore under the key that somebody else's request started, and that restored another seed backup. */
  predicate Foreign(e: Env, key: Key) {
    && key.RestoreKey? && e.starts(key).Followed?
    && e.starts(key).op.outcome == IsCompleted && e.starts(key).op.restored != Some(key.seed)
  }

  // ---- What each step makes of the status

  /** A failed step: the next attempt, or the end. */
  function FailedStep(s: Status): Status {
    if s.attempts + 1 < MaxAttempts then s.(attempts := s.attempts + 1) else s.(phase := Stopped)
  }

  function Since(since: Option<int>, now: int): int {
    if since.Some? then since.value else now
  }

  /** The member holds no record of the operation. */
  function Lapsed(s: Status, since: int, now: int): Status {
    if now - since > MissingWait then s.(phase := Stopped) else s
  }

  function WithCopy(s: Status, c: Copy): Status {
    s.(copy := Some(c))
  }

  function CopyLapsed(s: Status, now: int): Status
    requires s.copy.Some?
  {
    var since := Since(s.copy.value.missingSince, now);
    Lapsed(WithCopy(s, s.copy.value.(missingSince := Some(since))), since, now)
  }

  /** The operation polled is of another kind or database. */
  function CopyContradicted(s: Status): Status
    requires s.copy.Some?
  {
    WithCopy(s, s.copy.value.(missingSince := None)).(phase := Stopped)
  }

  /** The seed backup of the copy, and whether it has completed. */
  function BackupStep(e: Env, s: Status, seed: Seed, now: int): (Status, bool)
    requires s.copy.Some?
  {
    var c := s.copy.value;
    if c.backup == "" && e.held(c.source) then (s, false)
    else
      var r := if c.backup != "" then e.polls(c.backup) else e.starts(BackupKey(s.attempts, seed));
      match r
      case Missing => (CopyLapsed(s, now), false)
      case Refused => (FailedStep(s.(copy := None)), false)
      case Unavailable => (s, false)
      case _ =>
        if c.backup != "" && !r.op.matches then (CopyContradicted(s), false)
        else if r.op.outcome == IsFailed then (FailedStep(s.(copy := None)), false)
        else (WithCopy(s, c.(backup := r.op.id, missingSince := None)), r.op.outcome == IsCompleted)
  }

  /** The restore of the copy was answered, and whether the member holds the database now. */
  function Restored(s: Status, peer: string, seed: Seed, r: Reply, polled: bool): (Status, bool)
    requires s.copy.Some?
  {
    var c := s.copy.value.(missingSince := None);
    match r
    case Missing => (s, false)
    case Refused => (FailedStep(s.(copy := None)), false)
    case Unavailable => (s, false)
    case _ =>
      match r.op.outcome
      case IsCompleted =>
        if (polled || r.Followed?) && r.op.restored != Some(seed) then (WithCopy(s, c), false)
        else (s.(seeded := s.seeded + [peer], copy := None), true)
      case IsFailed => (FailedStep(s.(copy := None)), false)
      case IsRunning => (WithCopy(s, c.(restore := r.op.id)), false)
  }

  /** The copy to peer, whose source is in s, one step further. */
  function CopyStep(e: Env, s: Status, peer: string, seed: Seed, recorded: bool, now: int): (Status, bool)
    requires s.copy.Some?
  {
    var c, key := s.copy.value, RestoreKey(s.attempts, peer, seed);
    if c.restore != "" then
      match e.polls(c.restore)
      case Missing => (CopyLapsed(s, now), false)
      case Got(op) => if !op.matches then (CopyContradicted(s), false) else Restored(s, peer, seed, Got(op), true)
      case _ => (s, false)
    else if e.reuse(key).None? then (s, false)
    else
      var (t, backed) := if e.reuse(key).value then (s, true) else BackupStep(e, s, seed, now);
      if !backed || !recorded || e.held(peer) || t.copy.None? then (t, false)
      else Restored(t, peer, seed, e.starts(key), false)
  }

  function SeedOf(copy: Copy, first: bool): Seed {
    if first then First else Of(copy.member, copy.source, copy.round)
  }

  /** The copy that s has for peer. */
  function CopyTo(s: Status, peer: string): Option<Copy> {
    if s.copy.Some? && s.copy.value.member == peer then s.copy else None
  }

  /** The copy to go on with, and whether its source was on record: of the first peer from the holder; of a later one
      from the master observed, in a new round when that has changed, until its restore is started. */
  function Chosen(s: Status, holder: string, peer: string, observed: Option<string>): Option<(Copy, bool)> {
    var c := CopyTo(s, peer);
    if s.seeded == [] then
      if c.None? then Some((Copy(peer, holder, 0, "", "", None), true))
      else if c.value.source == holder then Some((c.value, true)) else None
    else if c.Some? && c.value.restore != "" then Some((c.value, true))
    else if observed.None? then None
    else if c.None? then Some((Copy(peer, observed.value, 0, "", "", None), false))
    else if c.value.source != observed.value then Some((Copy(peer, observed.value, c.value.round + 1, "", "", None), false))
    else Some((c.value, true))
  }

  function MemberStep(e: Env, s: Status, holder: string, peer: string, observed: Option<string>, now: int): (Status, bool) {
    match Chosen(s, holder, peer, observed)
    case None => (if s.seeded == [] then s.(phase := Stopped) else s, false)
    case Some((c, recorded)) => CopyStep(e, WithCopy(s, c), peer, SeedOf(c, s.seeded == []), recorded, now)
  }

  /** The bootstrap operation was answered. */
  function BootstrapStep(s: Status, r: Reply, polled: bool, now: int): Status {
    match r
    case Missing => var since := Since(s.missingSince, now); Lapsed(s.(missingSince := Some(since)), since, now)
    case Refused => FailedStep(s)
    case Unavailable => s
    case _ =>
      var t := s.(operation := r.op.id, missingSince := None);
      if polled && !r.op.matches then s.(missingSince := None, phase := Stopped)
      else match r.op.outcome
        case IsCompleted => t.(phase := Made, created := true)
        case IsFailed => FailedStep(t.(operation := ""))
        case IsRunning => t.(phase := Making)
  }

  ghost predicate AllSpent(e: Env, sends: seq<Key>, s: Status) {
    forall key :: key in sends && Answers(e.starts(key)) && !Foreign(e, key) ==> Spent(s, key)
  }

  lemma SpentOn(e: Env, sends: seq<Key>, s: Status, t: Status, holder: string, peers: seq<string>)
    requires AllSpent(e, sends, s) && Grows(s, t) && WellFormed(s, holder, peers) && WellFormed(t, holder, peers)
    ensures AllSpent(e, sends, t)
  {
    forall key | key in sends && Answers(e.starts(key)) && !Foreign(e, key) ensures Spent(t, key) {
      SpentStays(s, t, key, holder, peers);
    }
  }

  lemma AllSpentMore(e: Env, sends: seq<Key>, key: Key, s: Status)
    requires AllSpent(e, sends, s) && (Answers(e.starts(key)) && !Foreign(e, key) ==> Spent(s, key))
    ensures AllSpent(e, sends + [key], s)
  {
    hide Spent;
  }

  /** A backup or a restore that the copy of s has on record spends its key. */
  lemma CopySpends(s: Status)
    requires s.copy.Some?
    ensures var c, seed := s.copy.value, SeedOf(s.copy.value, s.seeded == []);
            && (c.backup != "" ==> Spent(s, BackupKey(s.attempts, seed)))
            && (c.restore != "" ==> Spent(s, RestoreKey(s.attempts, c.member, seed)))
  {
  }

  class Bootstrapper {
    const env: Env
    const holder: string
    const peers: seq<string>
    var status: Status
    ghost const base: Status
    ghost var proofs: set<Proof>
    ghost var master: Option<string>
    ghost var asked: seq<string>
    ghost var answers: Roles.Answers
    ghost var askedAt: int
    ghost var sends: seq<Key>
    var clock: int

    constructor (stored: Status, holder: string, peers: seq<string>, clock: int, env: Env)
      requires WellFormed(stored, holder, peers) && Sane(env)
      ensures status == base == stored && this.holder == holder && this.peers == peers && sends == [] && proofs == {} && master.None?
      ensures Valid() && Witnessed() && Recorded()
    {
      this.status, this.base, this.holder, this.peers, this.clock := stored, stored, holder, peers, clock;
      this.env := env;
      proofs, master, sends, asked, answers, askedAt := {}, None, [], [], map[], 0;
    }

    /** The copy the reconcile works on stands where a write of it would be right. */
    ghost predicate Valid()
      reads this
    {
      Evolves(base, status, proofs, holder, peers) && WellFormed(base, holder, peers) && Sane(env)
    }

    /** Every start that was answered with an operation is on record, but for a restore of another seed backup. */
    ghost predicate Recorded()
      reads this
    {
      AllSpent(env, sends, status)
    }

    method Now() returns (now: int)
      modifies this`clock
      ensures now == clock >= old(clock)
    {
      now := *;
      now := if now < clock then clock else now;
      clock := now;
    }

    method Start(key: Key, member: string) returns (r: Reply)
      requires MaySend(base, key, member, holder, master)
      modifies this`sends
      ensures sends == old(sends) + [key] && r == env.starts(key)
    {
      sends := sends + [key];
      r := env.starts(key);
    }

    method Poll(id: string) returns (r: Reply)
      requires id != ""
      ensures r == env.polls(id)
    {
      r := env.polls(id);
    }

    /** A step of this reconcile is still to come: nothing has ended or failed in it. */
    ghost predicate Open()
      reads this
    {
      Valid() && !Final(status) && !Final(base) && status.attempts == base.attempts
    }

    /** A failed step: the copy and the operation of the attempt are forgotten with it. */
    ghost predicate Closing()
      reads this
    {
      && WellFormed(base, holder, peers) && Sane(env) && !Final(base) && !Final(status) && status.attempts == base.attempts
      && base.seeded <= status.seeded && SeedsOnProof(base, status, proofs)
      && (base.created ==> status.created) && status.copy.None?
    }

    /** Only starts of this attempt are sent. */
    ghost predicate OfAttempt()
      reads this`sends
    {
      forall key :: key in sends ==> key.attempt == base.attempts
    }

    /** bootstrapStepFailed: the next attempt, or the end. */
    method StepFailed()
      requires Closing() && OfAttempt()
      modifies this`status
      ensures Valid() && status == FailedStep(old(status)) && Recorded()
    {
      if status.attempts + 1 < MaxAttempts {
        status := status.(attempts := status.attempts + 1);
      } else {
        status := status.(phase := Stopped);
      }
    }

    /** bootstrapStopped: the end, for a person to look at. */
    method Stop()
      requires Valid() && !Final(base)
      modifies this`status
      ensures Valid() && status == old(status).(phase := Stopped) && Recorded()
    {
      status := status.(phase := Stopped);
    }

    /** The status after one reconcile. When peers were seeded, `mid` is the one from which the last of them, or none,
        was taken a step further. */
    method Reconcile() returns (ghost mid: Status)
      requires status == base && Valid() && Witnessed() && sends == []
      modifies this
      ensures Valid() && Recorded() && OfAttempt()
      ensures Final(old(status)) ==> status == old(status) && sends == []
      ensures !Final(old(status)) && !old(status).created ==>
        var r := if old(status).operation != "" then env.polls(old(status).operation) else env.starts(BootstrapKey(old(status).attempts));
        var s := BootstrapStep(old(status), r, old(status).operation != "", clock);
        && (!s.created ==> status == s)
        && (s.created ==> SeededFrom(s, mid))
        && (old(status).operation == "" ==> [BootstrapKey(old(status).attempts)] <= sends)
      ensures !Final(old(status)) && old(status).created ==> SeededFrom(old(status), mid)
    {
      hide Sane, WellFormed;
      mid := status;
      if Final(status) {
        return;
      }
      if !status.created {
        Bootstrap();
        if !status.created {
          return;
        }
      }
      mid := SeedPeers();
    }

    /** The bootstrap operation is polled once it is on record, and started otherwise. */
    method Bootstrap()
      requires status == base && Open() && sends == [] && !status.created
      modifies this`status, this`sends, this`clock
      ensures Valid() && Recorded() && OfAttempt() && (status.created ==> Open())
      ensures var s := old(status);
              var r := if s.operation != "" then env.polls(s.operation) else env.starts(BootstrapKey(s.attempts));
              status == BootstrapStep(s, r, s.operation != "", clock)
      ensures sends == if old(status).operation != "" then [] else [BootstrapKey(old(status).attempts)]
    {
      hide Sane;
      var r, polled := Unavailable, status.operation != "";
      if polled {
        r := Poll(status.operation);
        PollIsSane(status.operation);
        if r.Missing? {
          BootstrapMissing();
          return;
        }
        if r.Got? && !r.op.matches {
          status := status.(missingSince := None);
          Stop();
          return;
        }
      } else {
        r := Start(BootstrapKey(status.attempts), holder);
        StartIsSane(BootstrapKey(status.attempts));
      }
      BootstrapAnswered(r, polled);
    }

    method BootstrapMissing()
      requires status == base && Open() && sends == []
      modifies this`status, this`clock
      ensures Valid() && status == BootstrapStep(old(status), Missing, true, clock)
    {
      var now := Now();
      var since := if status.missingSince.Some? then status.missingSince.value else now;
      status := status.(missingSince := Some(since));
      if now - since > MissingWait {
        Stop();
      }
    }

    method BootstrapAnswered(r: Reply, polled: bool)
      requires status == base && Open() && !status.created && !r.Missing? && (Answers(r) ==> r.op.id != "")
      requires polled ==> sends == [] && !r.Refused? && (Answers(r) ==> r.op.matches)
      requires !polled ==> sends == [BootstrapKey(status.attempts)] && r == env.starts(BootstrapKey(status.attempts))
      modifies this`status
      ensures Valid() && Recorded() && (status.created ==> Open())
      ensures status == BootstrapStep(old(status), r, polled, clock)
    {
      hide Sane;
      if r.Refused? {
        StepFailed();
        return;
      }
      if !r.Got? && !r.Followed? {
        return;
      }
      status := status.(operation := r.op.id, missingSince := None);
      match r.op.outcome {
        case IsCompleted =>
          status := status.(phase := Made, created := true);
        case IsFailed =>
          status := status.(operation := "");
          StepFailed();
        case IsRunning =>
          status := status.(phase := Making);
      }
    }

    /** The copy goes on as c. `ks` are the keys that are on record before. */
    method PutCopy(c: Copy, ghost ks: seq<Key>)
      requires Open() && status.copy.Some? && CopyGrows(status.copy.value, c) && c.round == status.copy.value.round && AllSpent(env, ks, status)
      modifies this`status
      ensures Open() && status == WithCopy(old(status), c) && AllSpent(env, ks, status)
    {
      SpentOn(env, ks, status, WithCopy(status, c), holder, peers);
      GrowsTransitive(base, status, WithCopy(status, c));
      status := status.(copy := Some(c));
    }

    /** A step of the copy failed. */
    method FailCopy()
      requires Open() && OfAttempt()
      modifies this`status
      ensures Valid() && Recorded() && status == FailedStep(old(status).(copy := None))
    {
      status := status.(copy := None);
      StepFailed();
    }

    /** An operation of the copy is not what it should be. */
    method Contradict()
      requires Open() && status.copy.Some? && Recorded()
      modifies this`status
      ensures Valid() && Recorded() && status == CopyContradicted(old(status))
    {
      PutCopy(status.copy.value.(missingSince := None), sends);
      Stop();
    }

    /** What was observed names the master it says. */
    ghost predicate Witnessed()
      reads this
    {
      master.Some? ==> Roles.SoleMaster(asked, answers, askedAt, master.value) && [holder] + base.seeded <= asked
    }

    /** The peers were gone through from s: those that completed came to mid, and all of them are there now, or the next
        one was taken a step further. */
    ghost predicate SeededFrom(s: Status, mid: Status)
      reads this
    {
      if !env.storage then status == s
      else
        && s.seeded <= mid.seeded && mid == s.(seeded := mid.seeded, copy := if mid.seeded == s.seeded then s.copy else None)
        && if forall k :: 0 <= k < |peers| ==> peers[k] == holder || peers[k] in mid.seeded then
             status == mid.(copy := None, configured := true)
           else
             exists i :: IsDue(mid.seeded, holder, peers, i) && Stepped(mid, peers[i])
    }

    /** The copy to peer was taken a step further from s, and peer does not hold the database yet. */
    ghost predicate Stepped(s: Status, peer: string)
      reads this
    {
      Observes(s, peer) && (status, false) == MemberStep(env, s, holder, peer, master, clock)
    }

    /** Once a peer has joined and the restore is not started, the master is what was observed. */
    ghost predicate Observes(s: Status, peer: string)
      reads this
    {
      s.seeded == [] || (CopyTo(s, peer).Some? && CopyTo(s, peer).value.restore != "") || ObservedOf(s.seeded)
    }

    ghost predicate ObservedOf(seeded: seq<string>)
      reads this
    {
      && asked == [holder] + seeded && answers == env.looks(|seeded|)
      && (master.None? ==> forall m :: !Roles.SoleMaster(asked, answers, askedAt, m))
      && (master.Some? ==> Roles.SoleMaster(asked, answers, askedAt, master.value))
    }

    /** selectSeedSource, once a peer has joined. */
    method SelectSource() returns (source: Option<string>)
      requires Open() && status.seeded != []
      modifies this`master, this`asked, this`answers, this`askedAt, this`clock
      ensures Witnessed() && master == source && ObservedOf(status.seeded)
    {
      var now := Now();
      source := Roles.SeedSourceAmong([holder] + status.seeded, env.looks(|status.seeded|), now);
      master, asked, answers, askedAt := source, [holder] + status.seeded, env.looks(|status.seeded|), now;
    }

    /** reconcileSeeding */
    method SeedPeers() returns (ghost mid: Status)
      requires Open() && status.created && status.seeded == base.seeded && status.copy == base.copy && Witnessed()
      requires Recorded() && OfAttempt()
      modifies this
      ensures Valid() && Recorded() && OfAttempt() && old(sends) <= sends
      ensures SeededFrom(old(status), mid)
    {
      mid := status;
      if !env.storage {
        return;
      }
      var i := 0;
      while i < |peers|
        invariant 0 <= i <= |peers|
        invariant Open() && status.created && Witnessed() && Recorded() && OfAttempt() && old(sends) <= sends
        invariant (status.seeded == base.seeded && status.copy == base.copy) || status.copy.None?
        invariant forall k :: 0 <= k < i ==> peers[k] == holder || peers[k] in status.seeded
        invariant status == mid && old(status).seeded <= mid.seeded
        invariant mid == old(status).(seeded := mid.seeded, copy := if mid.seeded == old(status).seeded then old(status).copy else None)
      {
        if peers[i] != holder && peers[i] !in status.seeded {
          var seeded := SeedMember(i);
          if !seeded {
            assert IsDue(mid.seeded, holder, peers, i) && Stepped(mid, peers[i]);
            return;
          }
          mid := status;
        }
        i := i + 1;
      }
      SpentOn(env, sends, status, status.(copy := None, configured := true), holder, peers);
      status := status.(copy := None, configured := true);
    }

    /** The copy on record for peer, or a new one, and whether its source was on record already. */
    method ChooseCopy(peer: string) returns (copy: Option<Copy>, recorded: bool)
      requires Open() && status.created && Witnessed() && Due(status.seeded, holder, peers, peer) && Recorded()
      requires (status.seeded == base.seeded && status.copy == base.copy) || status.copy.None?
      modifies this`status, this`master, this`asked, this`answers, this`askedAt, this`clock
      ensures Witnessed() && Recorded() && Observes(old(status), peer)
      ensures var chosen := Chosen(old(status), holder, peer, master);
              if chosen.Some? then copy == Some(chosen.value.0) && recorded == chosen.value.1 && status == old(status)
              else copy.None? && status == if old(status).seeded == [] then old(status).(phase := Stopped) else old(status)
      ensures copy.None? ==> Valid()
      ensures copy.Some? ==> Open() && CopyFor(copy.value, peer, recorded)
    {
      recorded := true;
      if status.copy.Some? && status.copy.value.member == peer {
        copy := status.copy;
      } else {
        copy := None;
      }
      if status.seeded == [] {
        if copy.None? {
          copy := Some(Copy(peer, holder, 0, "", "", None));
        } else if copy.value.source != holder {
          Stop();
          return None, false;
        }
      } else if copy.None? || copy.value.restore == "" {
        var observed := SelectSource();
        if observed.None? {
          return None, false;
        }
        if copy.None? {
          copy, recorded := Some(Copy(peer, observed.value, 0, "", "", None)), false;
        } else if copy.value.source != observed.value {
          copy, recorded := Some(Copy(peer, observed.value, copy.value.round + 1, "", "", None)), false;
        }
      }
    }

    /** What ChooseCopy gives: a copy that goes on from the one on record. */
    ghost predicate CopyFor(copy: Copy, peer: string, recorded: bool)
      reads this
    {
      && copy.member == peer
      && (base.copy.Some? && base.copy.value.member == peer ==> CopyGrows(base.copy.value, copy))
      && (base.copy.Some? && base.copy.value.member != peer ==> base.copy.value.member in status.seeded)
      && (status.seeded == [] ==> recorded && copy.round == 0 && copy.source == holder && (base.copy.Some? ==> copy == base.copy.value))
      && (status.seeded == [] && base.copy.None? ==> copy.backup == copy.restore == "")
      && (status.seeded != [] && recorded ==> base.copy == Some(copy) && status.seeded == base.seeded)
      && (status.seeded != [] && !recorded ==>
            copy.backup == copy.restore == "" && (base.copy.Some? && base.copy.value.member == peer ==> copy.round > base.copy.value.round))
      && (status.seeded != [] && copy.restore == "" ==> master == Some(copy.source))
    }

    /** seedBackup: the seed backup of the copy, taken on its source. */
    method SeedBackup(seed: Seed) returns (ok: bool)
      requires Open() && status.copy.Some? && Recorded() && OfAttempt() && seed == SeedOf(status.copy.value, status.seeded == [])
      requires status.copy.value.backup == "" ==> MaySend(base, BackupKey(status.attempts, seed), status.copy.value.source, holder, master)
      modifies this`status, this`sends, this`clock
      ensures Valid() && Recorded() && OfAttempt() && (status, ok) == BackupStep(env, old(status), seed, clock)
      ensures old(sends) <= sends
      ensures ok ==> Open()
    {
      hide Evolves, WellFormed, Sane, Spent, AllSpent, FailedStep, CopyLapsed, CopyContradicted;
      var copy := status.copy.value;
      var r;
      if copy.backup != "" {
        r := Poll(copy.backup);
        PollIsSane(copy.backup);
        if r.Missing? {
          CopyMissing();
          return false;
        }
        if r.Got? && !r.op.matches {
          Contradict();
          return false;
        }
      } else {
        if env.held(copy.source) {
          return false;
        }
        r := Start(BackupKey(status.attempts, seed), copy.source);
        StartIsSane(BackupKey(status.attempts, seed));
        if r.Refused? {
          FailCopy();
          return false;
        }
      }
      if !r.Got? && !r.Followed? {
        AllSpentIf(copy.backup == "", old(sends), BackupKey(status.attempts, seed));
        return false;
      }
      if r.op.outcome == IsFailed {
        FailCopy();
        return false;
      }
      PutCopy(copy.(backup := r.op.id, missingSince := None), old(sends));
      CopySpends(status);
      AllSpentIf(copy.backup == "", old(sends), BackupKey(status.attempts, seed));
      ok := r.op.outcome == IsCompleted;
    }

    lemma PollIsSane(id: string)
      requires Sane(env)
      ensures var r := env.polls(id); (r.Got? && r.op.id == id) || r.Missing? || r.Unavailable?
    {
    }

    lemma StartIsSane(key: Key)
      requires Sane(env)
      ensures var r := env.starts(key); !r.Missing? && (Answers(r) ==> r.op.id != "")
    {
    }

    lemma AllSpentIf(sent: bool, before: seq<Key>, key: Key)
      requires AllSpent(env, before, status) && (sent && Answers(env.starts(key)) ==> Spent(status, key))
      ensures AllSpent(env, if sent then before + [key] else before, status)
    {
      hide AllSpent;
      if sent {
        AllSpentMore(env, before, key, status);
      }
    }

    /** stepOperationMissing, for an operation of the copy. */
    method CopyMissing()
      requires Open() && status.copy.Some? && Recorded()
      modifies this`status, this`clock
      ensures Valid() && Recorded() && status == CopyLapsed(old(status), clock)
    {
      var now := Now();
      var copy := status.copy.value;
      var since := if copy.missingSince.Some? then copy.missingSince.value else now;
      PutCopy(copy.(missingSince := Some(since)), sends);
      if now - since > MissingWait {
        Stop();
      }
    }

    /** What the copy may start is not on record in the status that was read. */
    lemma MaySendNext(peer: string, seed: Seed, recorded: bool)
      requires Open() && status.copy.Some? && CopyFor(status.copy.value, peer, recorded) && peer !in status.seeded
      requires seed == SeedOf(status.copy.value, status.seeded == [])
      ensures status.copy.value.backup == "" && status.copy.value.restore == "" ==>
                MaySend(base, BackupKey(status.attempts, seed), status.copy.value.source, holder, master)
      ensures status.copy.value.restore == "" && recorded ==> MaySend(base, RestoreKey(status.attempts, peer, seed), peer, holder, master)
    {
    }

    /** A copy whose source was on record goes on from the status that was read. */
    lemma OnRecord(copy: Copy, recorded: bool)
      requires Valid() && CopyFor(copy, copy.member, recorded) && (recorded || copy.restore != "")
      ensures status.seeded == base.seeded
      ensures status.seeded != [] ==>
                base.copy.Some? && SeedOf(base.copy.value, false) == SeedOf(copy, false) && base.copy.value.member == copy.member
    {
    }

    /** The restore of the copy: polled once it is on record, started otherwise, after its backup and only
        when its source was on record. When it was not asked for, the step has ended. */
    method AskRestore(peer: string, seed: Seed, recorded: bool) returns (r: Reply, wasAsked: bool, polled: bool)
      requires Open() && status.copy.Some? && CopyFor(status.copy.value, peer, recorded) && seed == SeedOf(status.copy.value, status.seeded == [])
      requires peer !in status.seeded && Recorded() && OfAttempt()
      modifies this`status, this`sends, this`clock
      ensures Valid() && OfAttempt() && old(sends) <= sends
      ensures !wasAsked ==> Recorded() && (status, false) == CopyStep(env, old(status), peer, seed, recorded, clock)
      ensures wasAsked ==>
        && Open() && status == old(status).(copy := status.copy) && status.copy.Some?
        && CopyStep(env, old(status), peer, seed, recorded, clock) == Restored(status, peer, seed, r, polled)
        && status.copy.value == old(status).copy.value.(backup := status.copy.value.backup, missingSince := status.copy.value.missingSince)
        && (polled <==> old(status).copy.value.restore != "")
        && (polled ==> Recorded() && (r.Got? || r.Unavailable?) && (r.Got? ==> r.op.id == old(status).copy.value.restore))
        && (!polled ==> recorded && r == env.starts(RestoreKey(status.attempts, peer, seed))
                        && sends != [] && sends[|sends| - 1] == RestoreKey(status.attempts, peer, seed) && AllSpent(env, sends[..|sends| - 1], status))
    {
      hide Sane, Spent, AllSpent, FailedStep, CopyLapsed, CopyContradicted, CopyFor, Evolves, WellFormed, MaySend;
      MaySendNext(peer, seed, recorded);
      var copy := status.copy.value;
      if copy.restore != "" {
        r := Poll(copy.restore);
        PollIsSane(copy.restore);
        if r.Missing? {
          CopyMissing();
          return r, false, true;
        }
        if r.Got? && !r.op.matches {
          Contradict();
          return r, false, true;
        }
        return r, true, true;
      }
      var key := RestoreKey(status.attempts, peer, seed);
      r := Unavailable;
      if env.reuse(key).None? {
        return r, false, false;
      }
      if !env.reuse(key).value {
        var backedUp := SeedBackup(seed);
        if !backedUp {
          return r, false, false;
        }
      }
      if !recorded || env.held(peer) {
        return r, false, false;
      }
      ghost var before := sends;
      r := Start(key, peer);
      assert sends[..|sends| - 1] == before;
      return r, true, false;
    }

    /** seedMember: takes the copy to peers[i] one step further, and says whether that member holds it now. */
    method SeedMember(i: nat) returns (done: bool)
      requires Open() && status.created && Witnessed() && IsDue(status.seeded, holder, peers, i) && Recorded() && OfAttempt()
      requires (status.seeded == base.seeded && status.copy == base.copy) || status.copy.None?
      modifies this
      ensures Valid() && Recorded() && OfAttempt() && old(sends) <= sends
      ensures Observes(old(status), peers[i]) && (status, done) == MemberStep(env, old(status), holder, peers[i], master, clock)
      ensures done ==> Open() && Witnessed() && status == old(status).(seeded := old(status.seeded) + [peers[i]], copy := None)
    {
      hide Evolves, WellFormed, Sane, Spent, AllSpent, FailedStep, CopyStep, Restored, Chosen, CopyFor;
      var peer := peers[i];
      var copy, recorded := ChooseCopy(peer);
      if copy.None? {
        return false;
      }
      assert Due(status.seeded, holder, peers, peer);
      TakeUp(copy.value, recorded);
      if recorded || copy.value.restore != "" {
        OnRecord(copy.value, recorded);
      }
      var seed := SeedOf(copy.value, status.seeded == []);
      var r, wasAsked, polled := AskRestore(peer, seed, recorded);
      if !wasAsked {
        return false;
      }
      done := FinishRestore(peer, seed, r, polled);
    }

    /** The copy that was chosen is the one in hand. */
    method TakeUp(copy: Copy, recorded: bool)
      requires Open() && Recorded() && CopyFor(copy, copy.member, recorded) && Due(status.seeded, holder, peers, copy.member) && status.created
      requires Chosen(status, holder, copy.member, master) == Some((copy, recorded))
      modifies this`status
      ensures Open() && Recorded() && status == WithCopy(old(status), copy) && CopyFor(copy, copy.member, recorded)
    {
      var t := status.(copy := Some(copy));
      assert Grows(status, t);
      SpentOn(env, sends, status, t, holder, peers);
      status := t;
    }

    /** The answer of the restore is put on record. */
    method FinishRestore(peer: string, seed: Seed, r: Reply, polled: bool) returns (done: bool)
      requires Open() && status.created && Witnessed() && status.copy.Some? && status.copy.value.member == peer && peer !in status.seeded
      requires OfAttempt() && seed == SeedOf(status.copy.value, status.seeded == [])
      requires status.seeded == base.seeded && (status.seeded != [] ==> base.copy.Some? && SeedOf(base.copy.value, false) == seed && base.copy.value.member == peer)
      requires polled ==> Recorded() && (r.Got? || r.Unavailable?) && (r.Got? ==> r.op.id == status.copy.value.restore != "")
      requires !polled ==>
        && status.copy.value.restore == "" && r == env.starts(RestoreKey(status.attempts, peer, seed))
        && sends != [] && sends[|sends| - 1] == RestoreKey(status.attempts, peer, seed) && AllSpent(env, sends[..|sends| - 1], status)
      modifies this`status, this`proofs
      ensures Valid() && Recorded() && (status, done) == Restored(old(status), peer, seed, r, polled)
      ensures done ==> Open() && status == old(status).(seeded := old(status).seeded + [peer], copy := None)
    {
      hide WellFormed, Sane, Spent, AllSpent, FailedStep;
      ghost var before, key := if polled then sends else sends[..|sends| - 1], RestoreKey(status.attempts, peer, seed);
      assert sends == if !polled then before + [key] else before;
      StartIsSane(key);
      if r.Refused? {
        FailCopy();
        return false;
      }
      if !r.Got? && !r.Followed? {
        AllSpentIf(!polled, before, key);
        return false;
      }
      if r.op.outcome == IsFailed {
        FailCopy();
        return false;
      }
      if r.op.outcome == IsRunning {
        RunningGrows(r, polled, key);
        PutCopy(status.copy.value.(restore := r.op.id, missingSince := None), before);
        CopySpends(status);
        AllSpentIf(!polled, before, key);
        return false;
      }
      if (polled || r.Followed?) && r.op.restored != Some(seed) {
        PutCopy(status.copy.value.(missingSince := None), before);
        if !polled {
          AllSpentMore(env, before, key, status);
        }
        return false;
      }
      Enters(peer, seed, before);
      AllSpentIf(!polled, before, key);
      done := true;
    }

    lemma RunningGrows(r: Reply, polled: bool, key: Key)
      requires Sane(env) && status.copy.Some? && Answers(r)
      requires if polled then r.op.id == status.copy.value.restore else status.copy.value.restore == "" && r == env.starts(key)
      ensures CopyGrows(status.copy.value, status.copy.value.(restore := r.op.id, missingSince := None))
    {
    }

    /** The member holds the database. */
    method Enters(peer: string, seed: Seed, ghost ks: seq<Key>)
      requires Open() && status.copy.Some? && status.copy.value.member == peer && AllSpent(env, ks, status)
      requires status.seeded == base.seeded && seed == SeedOf(status.copy.value, status.seeded == [])
      requires status.seeded != [] ==> base.copy.Some? && SeedOf(base.copy.value, false) == seed && base.copy.value.member == peer
      modifies this`status, this`proofs
      ensures Open() && status == old(status).(seeded := old(status).seeded + [peer], copy := None) && AllSpent(env, ks, status)
      ensures Spent(status, RestoreKey(status.attempts, peer, seed))
    {
      var t := status.(seeded := status.seeded + [peer], copy := None);
      SpentOn(env, ks, status, t, holder, peers);
      GrowsTransitive(base, status, t);
      proofs := proofs + {Proof(peer, seed)};
      status := t;
    }
  }

  // ---- All reconciles of one database

  /** What a reconcile observed: the members it asked, their answers and when. */
  datatype Look = Look(asked: seq<string>, answers: Roles.Answers, at: int, source: string)

  datatype Pass = Pass(version: nat, proofs: set<Proof>, look: Option<Look>, answered: set<Key>)

  datatype Send = Send(key: Key, member: string, version: nat, look: Option<Look>)

  datatype World = World(
    holder: string, peers: seq<string>, versions: seq<Status>, passes: map<nat, Pass>, sends: seq<Send>, proofs: set<Proof>)

  /** A start is `answered` when an operation that has to be on record came back: any but a restore of another seed backup. */
  datatype Act =
    | Begin(p: nat, version: nat)                              // reads any stored version, old or new
    | Observe(p: nat, look: Look)
    | See(p: nat, proof: Proof)                                // a restore that was sent is answered as Completed
    | Issue(p: nat, key: Key, member: string, answered: bool)  // a start is sent
    | Store(p: nat, status: Status)                            // the write takes effect; every operation answered is in it
    | Lose(p: nat)                                             // the write is refused or lost, or there is none

  predicate Runs(w: World, p: nat) {
    p in w.passes && w.passes[p].version < |w.versions|
  }

  function Base(w: World, p: nat): Status
    requires Runs(w, p)
  {
    w.versions[w.passes[p].version]
  }

  function Observed(look: Option<Look>): Option<string> {
    if look.Some? then Some(look.value.source) else None
  }

  /** The source is the only master among members that include every holder on record. */
  predicate Credible(w: World, s: Status, look: Look) {
    Roles.SoleMaster(look.asked, look.answers, look.at, look.source) && [w.holder] + s.seeded <= look.asked
  }

  /** The m-th send is a restore of this seed backup on this member. */
  predicate Restores(w: World, m: nat, peer: string, seed: Seed) {
    m < |w.sends| && w.sends[m].key.RestoreKey? && w.sends[m].key.peer == peer && w.sends[m].key.seed == seed
  }

  /** A member runs no restore that no reconcile sent. */
  ghost predicate WasSent(w: World, proof: Proof) {
    exists m: nat :: Restores(w, m, proof.peer, proof.seed)
  }

  ghost predicate Can(w: World, act: Act) {
    match act
    case Begin(p, version) => p !in w.passes && version < |w.versions|
    case Observe(p, look) => Runs(w, p) && Credible(w, Base(w, p), look)
    case See(p, proof) => Runs(w, p) && WasSent(w, proof)
    case Issue(p, key, member, _) => Runs(w, p) && MaySend(Base(w, p), key, member, w.holder, Observed(w.passes[p].look))
    case Store(p, status) =>
      && Runs(w, p) && w.passes[p].version == |w.versions| - 1
      && Evolves(Base(w, p), status, w.passes[p].proofs, w.holder, w.peers)
      && forall key :: key in w.passes[p].answered ==> Spent(status, key)
    case Lose(p) => p in w.passes
  }

  ghost function Next(w: World, act: Act): World
    requires Can(w, act)
  {
    match act
    case Begin(p, version) => w.(passes := w.passes[p := Pass(version, {}, None, {})])
    case Observe(p, look) => w.(passes := w.passes[p := w.passes[p].(look := Some(look))])
    case See(p, proof) =>
      w.(passes := w.passes[p := w.passes[p].(proofs := w.passes[p].proofs + {proof})], proofs := w.proofs + {proof})
    case Issue(p, key, member, answered) =>
      w.(passes := if answered then w.passes[p := w.passes[p].(answered := w.passes[p].answered + {key})] else w.passes,
         sends := w.sends + [Send(key, member, w.passes[p].version, w.passes[p].look)])
    case Store(p, status) => w.(versions := w.versions + [status], passes := w.passes - {p})
    case Lose(p) => w.(passes := w.passes - {p})
  }

  /** The i-th seeded member of version j entered by a proof, on the strength of version k, of the restore that
      the m-th send started from an earlier version. */
  predicate SeededAt(w: World, k: nat, j: nat, i: nat, m: nat)
    requires k < |w.versions| && j < |w.versions| && i < |w.versions[j].seeded|
  {
    && w.versions[k].seeded == w.versions[j].seeded[..i]
    && var p, copy := w.versions[j].seeded[i], w.versions[k].copy;
    && (i > 0 ==> copy.Some? && copy.value.member == p)
    && var seed := if i == 0 then First else Of(p, copy.value.source, copy.value.round);
    && Proof(p, seed) in w.proofs
    && Restores(w, m, p, seed) && w.sends[m].version < j
  }

  ghost predicate SeededInv(w: World, j: nat)
    requires j < |w.versions|
  {
    forall i: nat :: i < |w.versions[j].seeded| ==> Entered(w, j, i)
  }

  ghost predicate Entered(w: World, j: nat, i: nat)
    requires j < |w.versions| && i < |w.versions[j].seeded|
  {
    exists k: nat, m: nat :: k < j && SeededAt(w, k, j, i, m)
  }

  ghost predicate SendInv(w: World, s: Send) {
    && s.version < |w.versions| && MaySend(w.versions[s.version], s.key, s.member, w.holder, Observed(s.look))
    && (s.look.Some? ==> Credible(w, w.versions[s.version], s.look.value))
  }

  ghost predicate VersionsInv(w: World) {
    && |w.versions| > 0
    && (forall j: nat {:trigger w.versions[j]} :: j < |w.versions| ==> WellFormed(w.versions[j], w.holder, w.peers) && SeededInv(w, j))
    && (forall i: nat, j: nat {:trigger w.versions[i], w.versions[j]} :: i <= j < |w.versions| ==> Grows(w.versions[i], w.versions[j]))
  }

  ghost predicate PassesInv(w: World) {
    forall p :: p in w.passes ==>
      && w.passes[p].version < |w.versions| && w.passes[p].proofs <= w.proofs
      && (w.passes[p].look.Some? ==> Credible(w, w.versions[w.passes[p].version], w.passes[p].look.value))
  }

  ghost predicate SendsInv(w: World) {
    forall k :: 0 <= k < |w.sends| ==> SendInv(w, w.sends[k])
  }

  ghost predicate ProofsInv(w: World) {
    forall proof :: proof in w.proofs ==> WasSent(w, proof)
  }

  ghost predicate Inv(w: World) {
    VersionsInv(w) && PassesInv(w) && SendsInv(w) && ProofsInv(w)
  }

  lemma SeededStays(w: World, v: World, j: nat)
    requires j < |w.versions| && w.versions <= v.versions && w.sends <= v.sends && w.proofs <= v.proofs && SeededInv(w, j)
    ensures SeededInv(v, j)
  {
    forall i: nat | i < |v.versions[j].seeded| ensures Entered(v, j, i) {
      assert Entered(w, j, i);
      var k: nat, m: nat :| k < j && SeededAt(w, k, j, i, m);
      assert SeededAt(v, k, j, i, m);
    }
  }

  /** The restore that lets a member enter was sent, from a version that was stored. */
  lemma SentBefore(w: World, p: nat, status: Status) returns (m: nat)
    requires Inv(w) && Can(w, Store(p, status)) && |status.seeded| == |Base(w, p).seeded| + 1
    ensures var s, member := Base(w, p), status.seeded[|Base(w, p).seeded|];
            && (s.seeded != [] ==> s.copy.Some?)
            && Restores(w, m, member, if s.seeded == [] then First else Of(member, s.copy.value.source, s.copy.value.round))
            && w.sends[m].version < |w.versions|
  {
    var s, member := Base(w, p), status.seeded[|Base(w, p).seeded|];
    var proof := Proof(member, if s.seeded == [] then First else Of(member, s.copy.value.source, s.copy.value.round));
    assert proof in w.proofs;
    assert WasSent(w, proof);
    m :| 0 <= m && Restores(w, m, proof.peer, proof.seed);
    assert SendInv(w, w.sends[m]);
  }

  lemma ProofsKept(w: World, act: Act)
    requires Inv(w) && Can(w, act)
    ensures ProofsInv(Next(w, act))
  {
    var v := Next(w, act);
    forall proof | proof in v.proofs ensures WasSent(v, proof) {
      assert WasSent(w, proof);
      var m: nat :| Restores(w, m, proof.peer, proof.seed);
      assert Restores(v, m, proof.peer, proof.seed);
    }
  }

  /** A member that was on record before entered as it did then. */
  lemma EnteredBefore(w: World, v: World, i: nat)
    requires Inv(w) && |v.versions| == |w.versions| + 1 && w.versions <= v.versions && w.sends <= v.sends && w.proofs <= v.proofs
    requires w.versions[|w.versions| - 1].seeded <= v.versions[|w.versions|].seeded && i < |w.versions[|w.versions| - 1].seeded|
    ensures Entered(v, |w.versions|, i)
  {
    var last := |w.versions| - 1;
    assert SeededInv(w, last);
    assert Entered(w, last, i);
    var k: nat, m: nat :| k < last && SeededAt(w, k, last, i, m);
    assert w.versions[last].seeded[..i] == v.versions[|w.versions|].seeded[..i];
    assert SeededAt(v, k, |w.versions|, i, m);
  }

  lemma EnteredNow(w: World, v: World, p: nat, status: Status)
    requires Inv(w) && Can(w, Store(p, status)) && v == Next(w, Store(p, status))
    requires |status.seeded| == |Base(w, p).seeded| + 1
    ensures Entered(v, |w.versions|, |Base(w, p).seeded|)
  {
    var m := SentBefore(w, p, status);
    assert Base(w, p).seeded == status.seeded[..|Base(w, p).seeded|];
    assert SeededAt(v, |w.versions| - 1, |w.versions|, |Base(w, p).seeded|, m);
  }

  lemma SeededNew(w: World, v: World, p: nat, status: Status)
    requires Inv(w) && Can(w, Store(p, status)) && v == Next(w, Store(p, status))
    ensures SeededInv(v, |w.versions|)
  {
    hide Entered, VersionsInv, SendsInv, ProofsInv, Inv, WellFormed;
    forall i: nat | i < |status.seeded| ensures Entered(v, |w.versions|, i) {
      if i < |Base(w, p).seeded| {
        EnteredBefore(w, v, i);
      } else {
        EnteredNow(w, v, p, status);
      }
    }
  }

  lemma StoreKept(w: World, p: nat, status: Status)
    requires Inv(w) && Can(w, Store(p, status))
    ensures Inv(Next(w, Store(p, status)))
  {
    var v := Next(w, Store(p, status));
    var last := |w.versions| - 1;
    forall j: nat | j < |v.versions| ensures WellFormed(v.versions[j], v.holder, v.peers) && SeededInv(v, j) {
      if j <= last {
        assert v.versions[j] == w.versions[j] && SeededInv(w, j);
        SeededStays(w, v, j);
      } else {
        SeededNew(w, v, p, status);
      }
    }
    forall i: nat, j: nat | i <= j < |v.versions| ensures Grows(v.versions[i], v.versions[j]) {
      if j <= last {
        assert v.versions[i] == w.versions[i] && v.versions[j] == w.versions[j];
      } else if i <= last {
        assert v.versions[i] == w.versions[i] && Grows(w.versions[i], w.versions[last]);
        GrowsTransitive(w.versions[i], w.versions[last], status);
      }
    }
    forall k | 0 <= k < |v.sends| ensures SendInv(v, v.sends[k]) {
      assert SendInv(w, w.sends[k]);
    }
    ProofsKept(w, Store(p, status));
  }

  lemma StepKept(w: World, act: Act)
    requires Inv(w) && Can(w, act)
    ensures Inv(Next(w, act))
  {
    if act.Store? {
      StoreKept(w, act.p, act.status);
    } else {
      var v := Next(w, act);
      forall j: nat | j < |v.versions| ensures SeededInv(v, j) {
        assert SeededInv(w, j);
        SeededStays(w, v, j);
      }
      forall k | 0 <= k < |v.sends| ensures SendInv(v, v.sends[k]) {
        assert k < |w.sends| ==> SendInv(w, w.sends[k]);
      }
      ProofsKept(w, act);
    }
  }

  ghost predicate Takes(w: World, v: World) {
    exists act :: Can(w, act) && v == Next(w, act)
  }

  ghost predicate StepAt(run: seq<World>, i: int) {
    0 < i < |run| ==> Takes(run[i - 1], run[i])
  }

  ghost predicate IsRun(run: seq<World>) {
    && |run| > 0 && run[0] == World(run[0].holder, run[0].peers, [Unstarted], map[], [], {})
    && forall i {:trigger StepAt(run, i)} :: StepAt(run, i)
  }

  lemma {:induction false} RunInv(run: seq<World>, n: nat)
    requires IsRun(run) && n < |run|
    ensures Inv(run[n])
  {
    if n == 0 {
      assert SeededInv(run[0], 0) && Grows(Unstarted, Unstarted);
    } else {
      RunInv(run, n - 1);
      assert StepAt(run, n);
      var act :| Can(run[n - 1], act) && run[n] == Next(run[n - 1], act);
      StepKept(run[n - 1], act);
    }
  }

  /** Once a version is stored in which a key is spent, no reconcile that reads it or a later one sends a start under that key. */
  lemma NoStartOnceSpent(run: seq<World>, n: nat, j: nat, p: nat, key: Key, member: string, answered: bool)
    requires IsRun(run) && n < |run| && j < |run[n].versions| && Spent(run[n].versions[j], key)
    requires Runs(run[n], p) && run[n].passes[p].version >= j
    ensures !Can(run[n], Issue(p, key, member, answered))
  {
    RunInv(run, n);
    var w := run[n];
    var k := w.passes[p].version;
    assert Grows(w.versions[j], w.versions[k]);
    SpentStays(w.versions[j], w.versions[k], key, w.holder, w.peers);
  }

  lemma {:induction false} VersionsStay(run: seq<World>, n: nat, m: nat)
    requires IsRun(run) && n <= m < |run|
    ensures run[n].versions <= run[m].versions
  {
    if n < m {
      VersionsStay(run, n, m - 1);
      assert StepAt(run, m);
    }
  }

  /** A reconcile that goes on keeps every answer it had. */
  lemma {:induction false} AnswersStay(run: seq<World>, a: nat, n: nat, p: nat, key: Key)
    requires IsRun(run) && a <= n < |run| && (forall i :: a <= i <= n ==> p in run[i].passes) && key in run[a].passes[p].answered
    ensures key in run[n].passes[p].answered
  {
    if a < n {
      AnswersStay(run, a, n - 1, p, key);
      assert StepAt(run, n);
    }
  }

  /** A start of a reconcile is answered with an operation, at a, and the write of that reconcile takes effect, at n: from
      then on no reconcile that reads what was written, or a later version, sends a start under that key. */
  lemma AnsweredIsNotStartedAgain(
    run: seq<World>, a: nat, n: nat, m: nat, p: nat, key: Key, member: string, status: Status, q: nat, other: string, answered: bool)
    requires IsRun(run) && a < n < m < |run|
    requires Can(run[a], Issue(p, key, member, true)) && run[a + 1] == Next(run[a], Issue(p, key, member, true))
    requires forall i :: a < i <= n ==> p in run[i].passes
    requires Can(run[n], Store(p, status)) && run[n + 1] == Next(run[n], Store(p, status))
    requires Runs(run[m], q) && run[m].passes[q].version >= |run[n].versions|
    ensures !Can(run[m], Issue(q, key, other, answered))
  {
    AnswersStay(run, a + 1, n, p, key);
    VersionsStay(run, n + 1, m);
    assert Spent(run[m].versions[|run[n].versions|], key);
    NoStartOnceSpent(run, m, |run[n].versions|, q, key, other, answered);
  }

  /** A stored operation spends its key: of the bootstrap, of a seed backup, of a seed restore. */
  lemma StoredIsSpent(s: Status, holder: string, peers: seq<string>)
    requires WellFormed(s, holder, peers)
    ensures s.operation != "" ==> Spent(s, BootstrapKey(s.attempts))
    ensures s.copy.Some? && s.copy.value.backup != "" ==>
              Spent(s, BackupKey(s.attempts, if s.seeded == [] then First else Of(s.copy.value.member, s.copy.value.source, s.copy.value.round)))
    ensures s.copy.Some? && s.copy.value.restore != "" ==>
              Spent(s, RestoreKey(s.attempts, s.copy.value.member, if s.seeded == [] then First else Of(s.copy.value.member, s.copy.value.source, s.copy.value.round)))
  {
  }

  /** Attempts stay below the bound, and a stopped or configured database never changes again. */
  lemma FinalStays(run: seq<World>, n: nat, i: nat, j: nat)
    requires IsRun(run) && n < |run| && i <= j < |run[n].versions|
    ensures run[n].versions[i].attempts <= run[n].versions[j].attempts < MaxAttempts
    ensures Final(run[n].versions[i]) ==> run[n].versions[j] == run[n].versions[i]
  {
    RunInv(run, n);
    assert Grows(run[n].versions[i], run[n].versions[j]);
  }

  /** A member is recorded as seeded only after a completed restore of exactly the seed backup of its copy, of the
      first peer's or of the source and round that the version before had on record; and that restore was sent. */
  lemma SeededByProof(run: seq<World>, n: nat, j: nat, i: nat) returns (k: nat, m: nat)
    requires IsRun(run) && n < |run| && j < |run[n].versions| && i < |run[n].versions[j].seeded|
    ensures k < j && SeededAt(run[n], k, j, i, m)
  {
    RunInv(run, n);
    assert SeededInv(run[n], j) && Entered(run[n], j, i);
    k, m :| 0 <= k < j && 0 <= m && SeededAt(run[n], k, j, i, m);
  }

  /** The send was of a restore on p, by a reconcile that found the copy to p from this source and of this round on
      record, and observed that source as the only master among all the members that held the database then. */
  ghost predicate FromMaster(w: World, s: Send, p: string, source: string, round: nat) {
    && s.key.RestoreKey? && s.key.seed == Of(p, source, round) && s.member == p
    && s.version < |w.versions| && s.look.Some? && s.look.value.source == source
    && Credible(w, w.versions[s.version], s.look.value)
    && w.versions[s.version].copy.Some?
    && var copy := w.versions[s.version].copy.value;
       copy.member == p && copy.source == source && copy.round == round && copy.restore == ""
  }

  /** A restore of a later member was started only so. */
  lemma RestoreSourceOnRecord(run: seq<World>, n: nat, k: nat)
    requires IsRun(run) && n < |run| && k < |run[n].sends| && run[n].sends[k].key.RestoreKey? && run[n].sends[k].key.seed.Of?
    ensures var s := run[n].sends[k]; FromMaster(run[n], s, s.member, s.key.seed.source, s.key.seed.round)
  {
    RunInv(run, n);
    assert SendInv(run[n], run[n].sends[k]);
  }

  /** Every member after the first that is recorded as seeded was: its restore was sent, from a version before the
      one that records it, for the copy that the record rests on, from a source observed as the only master. */
  lemma SeededFromMaster(run: seq<World>, n: nat, j: nat, i: nat) returns (k: nat, m: nat)
    requires IsRun(run) && n < |run| && j < |run[n].versions| && 0 < i < |run[n].versions[j].seeded|
    ensures k < j && run[n].versions[k].seeded == run[n].versions[j].seeded[..i] && run[n].versions[k].copy.Some?
    ensures m < |run[n].sends| && run[n].sends[m].version < j
    ensures var copy := run[n].versions[k].copy.value;
            && copy.member == run[n].versions[j].seeded[i]
            && FromMaster(run[n], run[n].sends[m], copy.member, copy.source, copy.round)
  {
    k, m := SeededByProof(run, n, j, i);
    RestoreSourceOnRecord(run, n, m);
    assert SendInv(run[n], run[n].sends[m]) by {
      RunInv(run, n);
    }
  }

  // ---- What a stale read does

  const S1 := Unstarted.(phase := Making, operation := "op")
  const W0 := World("db-0", ["db-0", "db-1"], [Unstarted], map[], [], {})
  const W1 := W0.(passes := map[1 := Pass(0, {}, None, {})])
  const W2 := W1.(passes := map[1 := Pass(0, {}, None, {BootstrapKey(0)})], sends := [Send(BootstrapKey(0), "db-0", 0, None)])
  const W3 := W2.(versions := [Unstarted, S1], passes := map[])
  const W4 := W3.(passes := map[2 := Pass(0, {}, None, {})])

  lemma StaleRun()
    ensures Takes(W0, W1) && Takes(W1, W2) && Takes(W2, W3) && Takes(W3, W4)
  {
    assert W1 == Next(W0, Begin(1, 0));
    assert W1.passes[1].answered + {BootstrapKey(0)} == {BootstrapKey(0)};
    assert W2 == Next(W1, Issue(1, BootstrapKey(0), "db-0", true));
    assert Can(W2, Store(1, S1));
    assert W3 == Next(W2, Store(1, S1));
    assert W4 == Next(W3, Begin(2, 0));
  }

  /** A reconcile that reads a version from before the operation was stored can send its start again. */
  lemma StaleReadStartsAgain() returns (run: seq<World>)
    ensures IsRun(run) && |run| == 5
    ensures |run[4].versions| == 2 && Spent(run[4].versions[1], BootstrapKey(0)) && Can(run[4], Issue(2, BootstrapKey(0), "db-0", true))
  {
    StaleRun();
    hide Takes;
    run := [W0, W1, W2, W3, W4];
  }
}
