/** What the operator makes of the readings of one slave's log applier: whether the
    applier is stalled, and whether the slave's copy of the master's log still grows.
    Times are whole seconds. */
module Replication {
  import opened Operations

  datatype Address = Address(page: int, offset: int)

  predicate LogBefore(a: Address, b: Address) {
    a.page < b.page || (a.page == b.page && a.offset < b.offset)
  }

  /** A reading of the applier, with the source's own log end when it was read too. */
  datatype Reading = Reading(
    source: string, applied: int, fails: int, delayed: int, applier: string,
    position: Option<Address>, copied: Option<Address>, sourceEnd: Option<Address>)

  /** The reading kept in memory to compare the next one with. */
  datatype Base = Base(
    source: string, applier: string, position: Option<Address>, copied: Option<Address>, delayed: int, readAt: int)

  /** The replication of a slave in the status. */
  datatype Record = Record(
    source: string, applied: int, fails: int, delayed: int, applier: string, stalledSince: Option<int>,
    copyDelayed: int, copied: Option<Address>, notReceivingSince: Option<int>, observedAt: Option<int>)

  const StallWindow := 60
  const HistoryTTL := 120
  const WriteInterval := 30
  const ObservationTTL := 15
  const CompareInterval := 5

  predicate SameApplier(a: string, b: string) {
    a == "" || b == "" || a == b
  }

  predicate TooClose(before: int, now: int) {
    0 <= now - before < CompareInterval
  }

  function Continued(reported: Option<int>, same: bool, now: int): Option<int> {
    if reported.None? || same then reported else Some(now)
  }

  predicate Positioned(r: Reading) {
    r.position.Some? && r.copied.Some?
  }

  function PositionStall(reported: Option<int>, base: Base, r: Reading, now: int): Option<int>
    requires base.position.Some? && base.copied.Some? && Positioned(r)
  {
    if TooClose(base.readAt, now) then reported
    else if base.source != r.source || base.position != r.position || r.delayed == 0 then None
    else if !SameApplier(base.applier, r.applier) then Continued(reported, false, now)
    else if reported.None? && base.delayed > 0 && LogBefore(base.copied.value, r.copied.value) then Some(now)
    else reported
  }

  /** The status before, unless it is too old to be a history. */
  function History(prev: Option<Record>, now: int): Option<Record> {
    if prev.None? || prev.value.observedAt.None? then None
    else
      var age := now - prev.value.observedAt.value;
      if age > HistoryTTL + WriteInterval || age < -ObservationTTL then None else prev
  }

  datatype CopyState = CopyState(delayed: int, copied: Option<Address>, since: Option<int>)

  const NoCopy := CopyState(0, None, None)

  function NextLogCopy(prev: Option<Record>, r: Reading, now: int): CopyState {
    if r.copied.None? then NoCopy
    else
      var grew := prev.None? || prev.value.source != r.source || prev.value.copied.None? || prev.value.copied != r.copied;
      if r.sourceEnd.None? then
        if grew then NoCopy else CopyState(prev.value.copyDelayed, prev.value.copied, prev.value.notReceivingSince)
      else
        var delayed := r.sourceEnd.value.page - r.copied.value.page;
        if delayed <= 0 then NoCopy
        else CopyState(delayed, r.copied,
          if grew then None else if prev.value.notReceivingSince.Some? then prev.value.notReceivingSince else Some(now))
  }

  function NextStall(prev: Option<Record>, base: Option<Base>, r: Reading, now: int): Option<int> {
    var reported := if prev.Some? && prev.value.source == r.source then prev.value.stalledSince else None;
    if Positioned(r) && base.None? then
      if r.delayed > 0 then Continued(reported, prev.Some? && SameApplier(prev.value.applier, r.applier), now) else None
    else if Positioned(r) && base.value.position.Some? && base.value.copied.Some? then PositionStall(reported, base.value, r, now)
    else if prev.Some? && prev.value.source == r.source && prev.value.delayed > 0 && r.delayed > 0 && prev.value.applied == r.applied then
      var same := SameApplier(prev.value.applier, r.applier);
      if reported.None? && same then Some(now) else Continued(reported, same, now)
    else None
  }

  function NextReplication(prev: Option<Record>, reading: Option<Reading>, base: Option<Base>, now: int): Option<Record> {
    var prev := History(prev, now);
    if reading.None? then prev
    else
      var r := reading.value;
      var copy := NextLogCopy(prev, r, now);
      Some(Record(r.source, r.applied, r.fails, r.delayed, r.applier, NextStall(prev, base, r, now),
                  copy.delayed, copy.copied, copy.since, Some(now)))
  }

  /** The reading to keep for the next pass, for a slave (readingPositions). */
  function NextBase(base: Option<Base>, reading: Option<Reading>, now: int): Option<Base> {
    if reading.Some? && (base.None? || !TooClose(base.value.readAt, now)) then
      var r := reading.value;
      Some(Base(r.source, r.applier, r.position, r.copied, r.delayed, now))
    else base
  }

  /** The kept reading, unless it is too old or from the future (readings). */
  function Usable(base: Option<Base>, now: int): Option<Base> {
    if base.Some? && -ObservationTTL <= now - base.value.readAt <= HistoryTTL then base else None
  }

  // ---- Runs of passes over one member

  /** How a written pass saw the member: as a slave, with a reading of its applier or without; in another role;
      with no answer that counts; or the pass ended before the roles were observed. */
  datatype Sight = AsSlave(answer: Option<Reading>) | InAnotherRole | Unanswered | NotObserved

  /** One written pass: its time, how it saw the member, whether the operator lost its
      memory before it, and the observation time the status was written with. */
  datatype Pass = Pass(now: int, sight: Sight, restarted: bool, stamp: int) {
    const reading: Option<Reading> := if sight.AsSlave? then sight.answer else None
  }

  datatype State = State(record: Option<Record>, base: Option<Base>)

  const Start := State(None, None)

  function Stamped(rec: Option<Record>, p: Pass): Option<Record> {
    if rec.Some? && p.reading.Some? then Some(rec.value.(observedAt := Some(p.stamp))) else rec
  }

  function Compared(s: State, p: Pass): Option<Base> {
    if p.restarted then None else Usable(s.base, p.now)
  }

  function Step(s: State, p: Pass): State {
    match p.sight
    case AsSlave(reading) =>
      State(Stamped(NextReplication(s.record, reading, Compared(s, p), p.now), p), NextBase(Compared(s, p), reading, p.now))
    case InAnotherRole => Start
    case Unanswered => State(None, Compared(s, p))
    case NotObserved => if p.restarted then s.(base := None) else s
  }

  /** The state after the first n passes. */
  function After(passes: seq<Pass>, n: nat): State
    requires n <= |passes|
  {
    if n == 0 then Start else Step(After(passes, n - 1), passes[n - 1])
  }

  function Stall(passes: seq<Pass>, n: nat): Option<int>
    requires n <= |passes|
  {
    var s := After(passes, n);
    if s.record.Some? then s.record.value.stalledSince else None
  }

  predicate AllPositioned(passes: seq<Pass>) {
    forall i :: 0 <= i < |passes| && passes[i].reading.Some? ==> Positioned(passes[i].reading.value)
  }

  /** Pass i compared its reading with the one kept before. */
  predicate Compares(passes: seq<Pass>, i: nat)
    requires i < |passes|
  {
    && passes[i].reading.Some?
    && var base := Compared(After(passes, i), passes[i]);
       base.Some? && !TooClose(base.value.readAt, passes[i].now)
  }

  /** The two readings compared at pass i have the same source and the same position, and pages wait. */
  predicate Agrees(passes: seq<Pass>, i: nat)
    requires i < |passes| && Compares(passes, i)
  {
    var base, r := Compared(After(passes, i), passes[i]).value, passes[i].reading.value;
    base.source == r.source && base.position == r.position && r.delayed != 0
  }

  lemma {:induction false} BasePositioned(passes: seq<Pass>, n: nat)
    requires AllPositioned(passes) && n <= |passes|
    ensures After(passes, n).base.Some? ==> After(passes, n).base.value.position.Some? && After(passes, n).base.value.copied.Some?
  {
    if n > 0 {
      BasePositioned(passes, n - 1);
    }
  }

  /** A stall that is reported after a pass was reported before it with the same time, or started in it. */
  lemma StallStep(passes: seq<Pass>, i: nat)
    requires AllPositioned(passes) && i < |passes| && Stall(passes, i + 1).Some?
    ensures Stall(passes, i + 1) == Stall(passes, i) || (Stall(passes, i + 1) == Some(passes[i].now) && passes[i].reading.Some?)
    ensures Compares(passes, i) ==> Agrees(passes, i)
  {
    BasePositioned(passes, i);
  }

  /** A stall time t is the time of a pass, the stall stands since that pass, and every pair of
      readings compared in that pass or since has the same source and the same position. */
  lemma {:induction false} StallSound(passes: seq<Pass>, n: nat, t: int) returns (m: nat)
    requires AllPositioned(passes) && n <= |passes| && Stall(passes, n) == Some(t)
    ensures m < n && passes[m].now == t && passes[m].reading.Some?
    ensures forall i: nat :: m < i <= n ==> Stall(passes, i) == Some(t)
    ensures forall i: nat :: m <= i < n && Compares(passes, i) ==> Agrees(passes, i)
  {
    StallStep(passes, n - 1);
    if Stall(passes, n - 1) == Some(t) {
      m := StallSound(passes, n - 1, t);
    } else {
      m := n - 1;
    }
  }

  predicate AlwaysMoves(passes: seq<Pass>) {
    forall i, j :: 0 <= i < j < |passes| && passes[i].reading.Some? && passes[j].reading.Some? ==>
      passes[i].reading.value.position != passes[j].reading.value.position
  }

  /** The reading kept is one of the readings. */
  lemma {:induction false} BaseIsRead(passes: seq<Pass>, n: nat)
    requires n <= |passes| && After(passes, n).base.Some?
    ensures exists i :: 0 <= i < n && passes[i].reading.Some? && passes[i].reading.value.position == After(passes, n).base.value.position
  {
    if After(passes, n).base == After(passes, n - 1).base {
      BaseIsRead(passes, n - 1);
    } else {
      assert passes[n - 1].reading.Some?;
    }
  }

  /** An applier whose position always moves is never marked, however the passes see its member. */
  lemma {:induction false} MovingNeverMarked(passes: seq<Pass>, n: nat)
    requires AllPositioned(passes) && AlwaysMoves(passes) && n <= |passes|
    ensures Stall(passes, n).None?
  {
    if n > 0 {
      MovingNeverMarked(passes, n - 1);
      BasePositioned(passes, n - 1);
      if After(passes, n - 1).base.Some? {
        BaseIsRead(passes, n - 1);
      }
    }
  }

  /** The pass of the last real reading in the first n passes, or -1. */
  function Last(passes: seq<Pass>, n: nat): (l: int)
    requires n <= |passes|
    ensures -1 <= l < n && (l >= 0 ==> passes[l].reading.Some?)
    ensures forall i :: l < i < n ==> passes[i].reading.None?
  {
    if n == 0 then -1 else if passes[n - 1].reading.Some? then n - 1 else Last(passes, n - 1)
  }

  /** The record of the member does not outlive this pass. */
  predicate Drops(p: Pass) {
    p.sight.InAnotherRole? || p.sight.Unanswered?
  }

  /** What pass i says of a stuck applier: a pass that observes the roles comes within 120 seconds of the last real
      reading, and a reading of its own at least 5 seconds after that one, with the position where it was and pages
      that wait. The member may be seen in any way, and the operator may restart. */
  predicate StandsAt(passes: seq<Pass>, i: nat)
    requires i < |passes|
  {
    var p, l := passes[i], Last(passes, i);
    && p.now - WriteInterval < p.stamp <= p.now
    && (p.reading.Some? ==> Positioned(p.reading.value) && p.reading.value.delayed > 0)
    && (l >= 0 ==>
          && passes[l].now <= p.now && (p.sight.NotObserved? || p.now - passes[l].now <= HistoryTTL)
          && (p.reading.Some? ==>
                var before, r := passes[l].reading.value, p.reading.value;
                && p.now - passes[l].now >= CompareInterval
                && r.source == before.source && r.position == before.position && SameApplier(before.applier, r.applier)))
  }

  predicate Stuck(passes: seq<Pass>) {
    forall i :: 0 <= i < |passes| ==> StandsAt(passes, i)
  }

  /** Since the reading of pass l the operator has not restarted and has not seen the member in another role. */
  predicate BaseKept(passes: seq<Pass>, l: nat, n: nat)
    requires n <= |passes|
  {
    forall i :: l < i < n ==> !passes[i].restarted && !passes[i].sight.InAnotherRole?
  }

  /** No pass since g dropped the record. */
  predicate Undropped(passes: seq<Pass>, g: nat, n: nat)
    requires n <= |passes|
  {
    forall i :: g < i < n ==> !Drops(passes[i])
  }

  /** The reading of pass g finds the copy of the log grown since the reading before it, which is still kept. */
  predicate Grew(passes: seq<Pass>, g: nat)
    requires g < |passes|
  {
    && Last(passes, g) >= 0 && passes[g].reading.Some? && BaseKept(passes, Last(passes, g), g) && !passes[g].restarted
    && var before, r := passes[Last(passes, g)].reading.value, passes[g].reading.value;
       before.copied.Some? && r.copied.Some? && LogBefore(before.copied.value, r.copied.value)
  }

  /** The time of the first reading that found the copy grown since the record was dropped last. */
  function Mark(passes: seq<Pass>, n: nat): Option<int>
    requires n <= |passes|
  {
    if n == 0 || Drops(passes[n - 1]) then None
    else if Mark(passes, n - 1).Some? then Mark(passes, n - 1)
    else if Grew(passes, n - 1) then Some(passes[n - 1].now)
    else None
  }

  /** The base is the last real reading, or none. */
  predicate KeepsBase(base: Option<Base>, p: Pass, kept: bool)
    requires p.reading.Some?
  {
    var r := p.reading.value;
    base == if kept then Some(Base(r.source, r.applier, r.position, r.copied, r.delayed, p.now)) else None
  }

  predicate KeepsRecord(rec: Option<Record>, p: Pass)
    requires p.reading.Some?
  {
    var r := p.reading.value;
    rec.Some? && rec.value.source == r.source && rec.value.applier == r.applier && rec.value.observedAt == Some(p.stamp)
  }

  /** What is kept of a stuck applier is the last real reading, through any number of passes without one. */
  predicate StuckKept(passes: seq<Pass>, n: nat)
    requires n <= |passes|
  {
    var s, l := After(passes, n), Last(passes, n);
    if l < 0 then s == Start
    else
      && KeepsBase(s.base, passes[l], BaseKept(passes, l, n))
      && (Undropped(passes, l, n) ==> KeepsRecord(s.record, passes[l]))
      && (!Undropped(passes, l, n) ==> s.record.None?)
  }

  lemma {:induction false} StuckState(passes: seq<Pass>, n: nat)
    requires Stuck(passes) && n <= |passes|
    ensures StuckKept(passes, n)
  {
    if n > 0 {
      StuckState(passes, n - 1);
      assert StandsAt(passes, n - 1);
      if Last(passes, n - 1) >= 0 {
        assert StandsAt(passes, Last(passes, n - 1));
      }
    }
  }

  lemma {:induction false} StuckStall(passes: seq<Pass>, n: nat)
    requires Stuck(passes) && n <= |passes|
    ensures Stall(passes, n) == Mark(passes, n)
  {
    if n > 0 {
      StuckStall(passes, n - 1);
      StuckState(passes, n - 1);
      StuckMark(passes, n);
    }
  }

  lemma StuckMark(passes: seq<Pass>, n: nat)
    requires Stuck(passes) && 0 < n <= |passes| && StuckKept(passes, n - 1) && Stall(passes, n - 1) == Mark(passes, n - 1)
    ensures Stall(passes, n) == Mark(passes, n)
  {
    assert StandsAt(passes, n - 1);
    if Last(passes, n - 1) >= 0 {
      assert StandsAt(passes, Last(passes, n - 1));
    }
  }

  /** A reading at g found the copy grown, at most at time t, and the record was not dropped since. */
  predicate GrewBy(passes: seq<Pass>, g: nat, n: nat, t: int)
    requires n <= |passes|
  {
    g < n && Grew(passes, g) && passes[g].now <= t && Undropped(passes, g, n)
  }

  predicate GrewLongAgo(passes: seq<Pass>, n: nat, t: int)
    requires n <= |passes|
  {
    exists g :: 0 <= g < n && GrewBy(passes, g, n, t)
  }

  lemma {:induction false} TimesInOrder(passes: seq<Pass>, i: nat, j: nat)
    requires Stuck(passes) && i <= j < |passes| && passes[i].reading.Some?
    ensures passes[i].now <= passes[j].now
  {
    if i < j {
      assert StandsAt(passes, j);
      TimesInOrder(passes, i, Last(passes, j));
    }
  }

  lemma {:induction false} MarkIff(passes: seq<Pass>, n: nat, t: int)
    requires Stuck(passes) && n <= |passes|
    ensures Mark(passes, n).Some? && Mark(passes, n).value <= t <==> GrewLongAgo(passes, n, t)
  {
    if n > 0 {
      MarkIff(passes, n - 1, t);
      MarkFound(passes, n, t);
      forall g: nat | GrewBy(passes, g, n, t) ensures Mark(passes, n).Some? && Mark(passes, n).value <= t {
        MarkReached(passes, n, g, t);
      }
    }
  }

  lemma MarkFound(passes: seq<Pass>, n: nat, t: int)
    requires Stuck(passes) && 0 < n <= |passes|
    requires Mark(passes, n - 1).Some? && Mark(passes, n - 1).value <= t ==> GrewLongAgo(passes, n - 1, t)
    ensures Mark(passes, n).Some? && Mark(passes, n).value <= t ==> GrewLongAgo(passes, n, t)
  {
    if Mark(passes, n).Some? && Mark(passes, n).value <= t {
      if Mark(passes, n - 1).Some? {
        var g :| 0 <= g < n - 1 && GrewBy(passes, g, n - 1, t);
        assert GrewBy(passes, g, n, t);
      } else {
        assert GrewBy(passes, n - 1, n, t);
      }
    }
  }

  lemma {:induction false} MarkReached(passes: seq<Pass>, n: nat, g: nat, t: int)
    requires Stuck(passes) && n <= |passes| && GrewBy(passes, g, n, t)
    ensures Mark(passes, n).Some? && Mark(passes, n).value <= t
  {
    if g < n - 1 {
      assert GrewBy(passes, g, n - 1, t);
      MarkReached(passes, n - 1, g, t);
    } else if Mark(passes, g).Some? {
      MarkIsPast(passes, g);
    }
  }

  /** A mark is the time of a reading, and so no later than any reading since. */
  lemma {:induction false} MarkIsPast(passes: seq<Pass>, n: nat)
    requires Stuck(passes) && n < |passes| && Mark(passes, n).Some?
    ensures Mark(passes, n).value <= passes[n].now
  {
    var m := MarkedAt(passes, n);
    TimesInOrder(passes, m, n);
  }

  lemma {:induction false} MarkedAt(passes: seq<Pass>, n: nat) returns (m: nat)
    requires n <= |passes| && Mark(passes, n).Some?
    ensures m < n && passes[m].reading.Some? && Mark(passes, n) == Some(passes[m].now)
  {
    if Mark(passes, n - 1).Some? {
      m := MarkedAt(passes, n - 1);
    } else {
      m := n - 1;
    }
  }

  /** The stall of the record is a stall window old at pass n - 1. */
  predicate Reported(passes: seq<Pass>, n: nat)
    requires 0 < n <= |passes|
  {
    Stall(passes, n).Some? && passes[n - 1].now - Stall(passes, n).value >= StallWindow
  }

  /** A stuck applier is on record as stalled for a stall window if and only if a reading found its copy grown so long
      ago, and every pass since saw the member as a slave or did not observe the roles at all. */
  lemma StuckReported(passes: seq<Pass>, n: nat)
    requires Stuck(passes) && 0 < n <= |passes|
    ensures Reported(passes, n) <==> GrewLongAgo(passes, n, passes[n - 1].now - StallWindow)
  {
    StuckStall(passes, n);
    MarkIff(passes, n, passes[n - 1].now - StallWindow);
  }

  // ---- The copy of the master's log

  function NotReceiving(passes: seq<Pass>, n: nat): Option<int>
    requires n <= |passes|
  {
    var s := After(passes, n);
    if s.record.Some? then s.record.value.notReceivingSince else None
  }

  /** The reading of pass i, if there was one, is of this source and this end of the copy. */
  predicate EndsAt(passes: seq<Pass>, i: nat, source: string, end: Address)
    requires i < |passes|
  {
    passes[i].reading.Some? ==> passes[i].reading.value.source == source && passes[i].reading.value.copied == Some(end)
  }

  lemma CopyStep(passes: seq<Pass>, i: nat)
    requires i < |passes| && NotReceiving(passes, i + 1).Some?
    ensures var s, t := After(passes, i), After(passes, i + 1);
            && (t.record.value.copied.Some? ==> EndsAt(passes, i, t.record.value.source, t.record.value.copied.value))
            && (passes[i].reading.None? ==> t.record == s.record)
            && (NotReceiving(passes, i + 1) == NotReceiving(passes, i) ==>
                  s.record.value.source == t.record.value.source && s.record.value.copied == t.record.value.copied)
            && (NotReceiving(passes, i + 1) != NotReceiving(passes, i) ==> NotReceiving(passes, i + 1) == Some(passes[i].now) && passes[i].reading.Some?)
  {
  }

  lemma {:induction false} CopyKept(passes: seq<Pass>, n: nat)
    requires n <= |passes| && NotReceiving(passes, n).Some?
    ensures After(passes, n).record.value.copied.Some?
  {
    if passes[n - 1].reading.None? {
      CopyKept(passes, n - 1);
    } else if NotReceiving(passes, n - 1).Some? {
      CopyKept(passes, n - 1);
    }
  }

  /** If NotReceivingSince is t, every reading since the pass at t had the same source and the same
      end of the copy, whatever readings were missed or came without the master's log end. */
  lemma {:induction false} NotReceivingSound(passes: seq<Pass>, n: nat, t: int) returns (m: nat, source: string, end: Address)
    requires n <= |passes| && NotReceiving(passes, n) == Some(t)
    ensures m < n && passes[m].now == t && passes[m].reading.Some?
    ensures After(passes, n).record.value.source == source && After(passes, n).record.value.copied == Some(end)
    ensures forall i: nat :: m <= i < n ==> EndsAt(passes, i, source, end)
  {
    CopyStep(passes, n - 1);
    CopyKept(passes, n);
    source, end := After(passes, n).record.value.source, After(passes, n).record.value.copied.value;
    if NotReceiving(passes, n - 1) == Some(t) {
      var s, e;
      m, s, e := NotReceivingSound(passes, n - 1, t);
    } else {
      m := n - 1;
    }
  }

  /** Growth, a change of source, or a copy that caught up ends the series at once. */
  lemma GrowthClears(prev: Option<Record>, r: Reading, base: Option<Base>, now: int)
    requires || prev.None? || prev.value.source != r.source || prev.value.copied != r.copied
             || (r.sourceEnd.Some? && r.copied.Some? && r.sourceEnd.value.page <= r.copied.value.page)
    ensures NextReplication(prev, Some(r), base, now).value.notReceivingSince.None?
  {
  }

  // ---- How long a history lives

  /** A record written with this time outlives the pass: the roles are not observed, or the member is seen as a slave
      while the time is not too old. */
  predicate Outlives(stamp: int, p: Pass) {
    p.sight.NotObserved? || (p.sight.AsSlave? && -ObservationTTL <= p.now - stamp <= HistoryTTL + WriteInterval)
  }

  predicate AllOutlived(passes: seq<Pass>, l: nat, n: nat)
    requires l < |passes| && n <= |passes|
  {
    forall i :: l < i < n ==> Outlives(passes[l].stamp, passes[i])
  }

  /** What the status shows of the applier is what the reading said. */
  predicate Mirrors(rec: Record, r: Reading) {
    rec.source == r.source && rec.applied == r.applied && rec.fails == r.fails && rec.delayed == r.delayed && rec.applier == r.applier
  }

  /** Whatever the passes, there is a record if and only if there was a reading and every pass since let it live; and
      then it is what the last reading left, and shows that reading. */
  lemma {:induction false} HistoryExact(passes: seq<Pass>, n: nat)
    requires n <= |passes|
    ensures var rec, l := After(passes, n).record, Last(passes, n);
            && (rec.Some? <==> l >= 0 && AllOutlived(passes, l, n))
            && (rec.Some? ==>
                  && rec == After(passes, l + 1).record && rec.value.observedAt == Some(passes[l].stamp)
                  && Mirrors(rec.value, passes[l].reading.value))
  {
    if n > 0 && passes[n - 1].reading.None? {
      HistoryExact(passes, n - 1);
      var l := Last(passes, n);
      assert l >= 0 ==> (AllOutlived(passes, l, n) <==> AllOutlived(passes, l, n - 1) && Outlives(passes[l].stamp, passes[n - 1]));
    }
  }

  /** Each reading is written with a time that lags it by less than the write interval, and time does not run back. */
  predicate Lags(passes: seq<Pass>) {
    && (forall i :: 0 <= i < |passes| ==> passes[i].now - WriteInterval < passes[i].stamp <= passes[i].now)
    && (forall i, j :: 0 <= i <= j < |passes| ==> passes[i].now <= passes[j].now)
  }

  /** Some pass since the reading of l saw the member as a slave more than 150 s after the time that was written. */
  predicate Expired(passes: seq<Pass>, l: nat, n: nat)
    requires l < |passes| && n <= |passes|
  {
    exists i :: l < i < n && passes[i].sight.AsSlave? && passes[i].now - passes[l].stamp > HistoryTTL + WriteInterval
  }

  /** Within 120 s of the last real reading the record it left is there if and only if no pass since saw the member
      unanswered or in another role. Later it is gone if and only if such a pass came, or one that saw the member as a
      slave more than 150 s after the time that was written. */
  lemma HistoryLives(passes: seq<Pass>, n: nat)
    requires Lags(passes) && 0 < n <= |passes| && Last(passes, n) >= 0
    ensures var l := Last(passes, n);
            var age, rec := passes[n - 1].now - passes[l].now, After(passes, n).record;
            && (rec.Some? <==> Undropped(passes, l, n) && !Expired(passes, l, n))
            && (age <= HistoryTTL ==> !Expired(passes, l, n))
            && (age > HistoryTTL + WriteInterval && passes[n - 1].sight.AsSlave? ==> Expired(passes, l, n))
            && (rec.Some? ==> rec == After(passes, l + 1).record)
  {
    HistoryExact(passes, n);
    var l := Last(passes, n);
    if Undropped(passes, l, n) && !Expired(passes, l, n) {
      forall i | l < i < n ensures Outlives(passes[l].stamp, passes[i]) {
        assert !Drops(passes[i]);
      }
    }
    if AllOutlived(passes, l, n) {
      assert forall i :: l < i < n ==> Outlives(passes[l].stamp, passes[i]) && !Drops(passes[i]);
    }
  }

  // ---- When an applier without a position is reported

  predicate TimesOrdered(passes: seq<Pass>) {
    forall i :: 0 < i < |passes| ==> passes[i - 1].now <= passes[i].now
  }

  lemma {:induction false} NoLater(passes: seq<Pass>, i: nat, j: nat)
    requires TimesOrdered(passes) && i <= j < |passes|
    ensures passes[i].now <= passes[j].now
  {
    if i < j {
      NoLater(passes, i, j - 1);
    }
  }

  /** No reading has positions to compare. */
  predicate Counts(passes: seq<Pass>) {
    forall i :: 0 <= i < |passes| && passes[i].reading.Some? ==> !Positioned(passes[i].reading.value)
  }

  /** A reading of pass i may be of the same applier process as the one before. */
  predicate SameProcess(passes: seq<Pass>, i: nat)
    requires i < |passes|
  {
    passes[i].reading.Some? && Last(passes, i) >= 0 ==>
      SameApplier(passes[Last(passes, i)].reading.value.applier, passes[i].reading.value.applier)
  }

  /** The record of the last reading lives through pass i, and a reading of its own finds the same source, the same number
      of applied changes, and pages that waited then and wait now. */
  predicate Idles(passes: seq<Pass>, i: nat)
    requires i < |passes|
  {
    var p, l := passes[i], Last(passes, i);
    && l >= 0 && AllOutlived(passes, l, i + 1)
    && (p.reading.Some? ==>
          var before, r := passes[l].reading.value, p.reading.value;
          r.source == before.source && r.applied == before.applied && before.delayed > 0 && r.delayed > 0)
  }

  /** From the reading of a on the applier is found where it was, and since the reading of b its process has not changed. */
  predicate IdleSince(passes: seq<Pass>, a: nat, b: nat, n: nat)
    requires n <= |passes|
  {
    && a <= b < n && passes[a].reading.Some? && SameProcess(passes, a) && passes[b].reading.Some?
    && (forall i :: a <= i < n ==> Idles(passes, i))
    && (forall i :: b < i < n ==> SameProcess(passes, i))
  }

  function IdleMark(passes: seq<Pass>, n: nat): Option<int>
    requires n <= |passes|
  {
    if n == 0 || !Idles(passes, n - 1) then None
    else if passes[n - 1].reading.None? || (IdleMark(passes, n - 1).Some? <==> SameProcess(passes, n - 1)) then IdleMark(passes, n - 1)
    else Some(passes[n - 1].now)
  }

  lemma OutlivedStep(passes: seq<Pass>, n: nat)
    requires 0 < n <= |passes| && Last(passes, n - 1) >= 0
    ensures var l := Last(passes, n - 1);
            AllOutlived(passes, l, n) <==> AllOutlived(passes, l, n - 1) && Outlives(passes[l].stamp, passes[n - 1])
  {
  }

  lemma IdleStep(passes: seq<Pass>, n: nat)
    requires 0 < n <= |passes| && Stall(passes, n - 1) == IdleMark(passes, n - 1)
    requires passes[n - 1].reading.Some? ==> !Positioned(passes[n - 1].reading.value)
    ensures Stall(passes, n) == IdleMark(passes, n)
  {
    HistoryExact(passes, n - 1);
    if Last(passes, n - 1) >= 0 {
      OutlivedStep(passes, n);
    }
    hide AllOutlived, NextLogCopy, NextBase, Usable;
  }

  lemma {:induction false} IdleExact(passes: seq<Pass>, n: nat)
    requires Counts(passes) && n <= |passes|
    ensures Stall(passes, n) == IdleMark(passes, n)
  {
    if n > 0 {
      IdleExact(passes, n - 1);
      IdleStep(passes, n);
    }
  }

  lemma {:induction false} IdleFound(passes: seq<Pass>, n: nat) returns (a: nat, b: nat)
    requires n <= |passes| && IdleMark(passes, n).Some?
    ensures IdleSince(passes, a, b, n) && IdleMark(passes, n) == Some(passes[b].now)
  {
    hide Idles;
    a, b := n - 1, n - 1;
    if IdleMark(passes, n - 1).Some? {
      a, b := IdleFound(passes, n - 1);
      if passes[n - 1].reading.Some? && !SameProcess(passes, n - 1) {
        b := n - 1;
      }
    }
  }

  lemma {:induction false} IdleBegun(passes: seq<Pass>, a: nat, n: nat)
    requires a < n <= |passes| && passes[a].reading.Some? && SameProcess(passes, a) && forall i :: a <= i < n ==> Idles(passes, i)
    ensures IdleMark(passes, n).Some?
  {
    if a < n - 1 {
      IdleBegun(passes, a, n - 1);
    }
  }

  lemma {:induction false} IdleReached(passes: seq<Pass>, a: nat, b: nat, n: nat)
    requires TimesOrdered(passes) && n <= |passes| && IdleSince(passes, a, b, n)
    ensures IdleMark(passes, n).Some? && IdleMark(passes, n).value <= passes[b].now
  {
    hide Idles;
    if b < n - 1 {
      IdleReached(passes, a, b, n - 1);
    } else {
      IdleBegun(passes, a, n);
      if IdleMark(passes, n - 1).Some? {
        var _, d := IdleFound(passes, n - 1);
        NoLater(passes, d, b);
      }
    }
  }

  /** An applier without a position is on record as stalled for a stall window if and only if, of a series of readings that
      all find it where the one before did, the first of an unchanged process, one came so long ago, and since that one its
      process has not changed. */
  lemma IdleReported(passes: seq<Pass>, n: nat)
    requires Counts(passes) && TimesOrdered(passes) && 0 < n <= |passes|
    ensures Reported(passes, n) <==>
              exists a: nat, b: nat :: IdleSince(passes, a, b, n) && passes[n - 1].now - passes[b].now >= StallWindow
  {
    IdleExact(passes, n);
    if Reported(passes, n) {
      var a, b := IdleFound(passes, n);
    }
    if a: nat, b: nat :| IdleSince(passes, a, b, n) && passes[n - 1].now - passes[b].now >= StallWindow {
      IdleReached(passes, a, b, n);
    }
  }

  // ---- When the copy is reported

  /** The reading finds the master's log on a later page than the copy. */
  predicate Behind(p: Pass) {
    && p.reading.Some? && p.reading.value.copied.Some? && p.reading.value.sourceEnd.Some?
    && p.reading.value.sourceEnd.value.page > p.reading.value.copied.value.page
  }

  /** Pass i lets the record of the reading before it live, and its own reading, if any, finds the same source and the same
      end of the copy as that one, and no master's log end that the copy has reached. */
  predicate StaysPut(passes: seq<Pass>, i: nat)
    requires i < |passes|
  {
    var p, l := passes[i], Last(passes, i);
    && l >= 0 && Outlives(passes[l].stamp, p)
    && (p.reading.Some? ==>
          var before, r := passes[l].reading.value, p.reading.value;
          r.source == before.source && r.copied.Some? && r.copied == before.copied && (r.sourceEnd.Some? ==> Behind(p)))
  }

  predicate PutSince(passes: seq<Pass>, a: nat, n: nat)
    requires n <= |passes|
  {
    forall i :: a < i < n ==> StaysPut(passes, i)
  }

  /** The reading of a found the master ahead, and the copy has stayed where it was ever since. */
  predicate BehindSince(passes: seq<Pass>, a: nat, n: nat)
    requires n <= |passes|
  {
    a < n && Behind(passes[a]) && PutSince(passes, a, n)
  }

  predicate WasBehind(passes: seq<Pass>, n: nat)
    requires n <= |passes|
  {
    exists a :: 0 <= a < n && BehindSince(passes, a, n)
  }

  /** The time of the second reading that found the master ahead of a copy that has stayed where it was. */
  function Second(passes: seq<Pass>, n: nat): Option<int>
    requires n <= |passes|
  {
    if n == 0 || !StaysPut(passes, n - 1) then None
    else if Second(passes, n - 1).Some? then Second(passes, n - 1)
    else if Behind(passes[n - 1]) && WasBehind(passes, n - 1) then Some(passes[n - 1].now)
    else None
  }

  lemma WasBehindStep(passes: seq<Pass>, n: nat)
    requires 0 < n <= |passes|
    ensures WasBehind(passes, n) <==> Behind(passes[n - 1]) || (WasBehind(passes, n - 1) && StaysPut(passes, n - 1))
  {
    if a :| 0 <= a < n && BehindSince(passes, a, n) {
      assert a < n - 1 ==> BehindSince(passes, a, n - 1);
    }
    if Behind(passes[n - 1]) {
      assert BehindSince(passes, n - 1, n);
    } else if WasBehind(passes, n - 1) && StaysPut(passes, n - 1) {
      var a :| 0 <= a < n - 1 && BehindSince(passes, a, n - 1);
      assert BehindSince(passes, a, n);
    }
  }

  /** What the record has of the copy, whatever the passes. */
  predicate CopyKnown(passes: seq<Pass>, n: nat)
    requires n <= |passes|
  {
    var rec, l := After(passes, n).record, Last(passes, n);
    && (Second(passes, n).Some? ==> WasBehind(passes, n)) && (WasBehind(passes, n) ==> rec.Some?)
    && (rec.Some? ==>
          && l >= 0 && rec.value.source == passes[l].reading.value.source && rec.value.observedAt == Some(passes[l].stamp)
          && rec.value.copied == (if WasBehind(passes, n) then passes[l].reading.value.copied else None)
          && rec.value.notReceivingSince == Second(passes, n))
  }

  lemma CopyKnownStep(passes: seq<Pass>, n: nat)
    requires 0 < n <= |passes| && CopyKnown(passes, n - 1)
    ensures CopyKnown(passes, n)
  {
    WasBehindStep(passes, n);
    hide WasBehind;
  }

  /** Whatever the passes, NotReceivingSince is the time of the second reading that found the master ahead, of a copy that
      has stayed where it was since the first, in a record that was neither dropped nor expired since. */
  lemma {:induction false} NotReceivingExact(passes: seq<Pass>, n: nat)
    requires n <= |passes|
    ensures CopyKnown(passes, n) && NotReceiving(passes, n) == Second(passes, n)
  {
    if n > 0 {
      NotReceivingExact(passes, n - 1);
      CopyKnownStep(passes, n);
    }
  }

  /** Two readings found the master ahead, the second at most at time t, of a copy that has stayed where it was. */
  predicate BehindTwice(passes: seq<Pass>, a: nat, b: nat, n: nat, t: int)
    requires n <= |passes|
  {
    a < b < n && BehindSince(passes, a, n) && Behind(passes[b]) && passes[b].now <= t
  }

  predicate BehindLong(passes: seq<Pass>, n: nat, t: int)
    requires n <= |passes|
  {
    exists a, b :: 0 <= a < b < n && BehindTwice(passes, a, b, n, t)
  }

  lemma {:induction false} SecondFound(passes: seq<Pass>, n: nat) returns (a: nat, b: nat)
    requires n <= |passes| && Second(passes, n).Some?
    ensures BehindTwice(passes, a, b, n, Second(passes, n).value) && passes[b].now == Second(passes, n).value
  {
    if Second(passes, n - 1).Some? {
      a, b := SecondFound(passes, n - 1);
    } else {
      a :| 0 <= a < n - 1 && BehindSince(passes, a, n - 1);
      b := n - 1;
    }
  }

  lemma {:induction false} SecondReached(passes: seq<Pass>, a: nat, b: nat, n: nat, t: int)
    requires TimesOrdered(passes) && n <= |passes| && BehindTwice(passes, a, b, n, t)
    ensures Second(passes, n).Some? && Second(passes, n).value <= t
  {
    assert StaysPut(passes, n - 1) && BehindSince(passes, a, n - 1);
    if b < n - 1 {
      SecondReached(passes, a, b, n - 1, t);
    } else if Second(passes, n - 1).Some? {
      var _, d := SecondFound(passes, n - 1);
      NoLater(passes, d, b);
    }
  }

  /** The copy is on record as not receiving for a stall window if and only if a second reading found the master ahead so
      long ago, and since the first of the two the record lived and the copy stayed where it was. */
  lemma NotReceivingReported(passes: seq<Pass>, n: nat)
    requires TimesOrdered(passes) && 0 < n <= |passes|
    ensures NotReceiving(passes, n).Some? && passes[n - 1].now - NotReceiving(passes, n).value >= StallWindow <==>
            BehindLong(passes, n, passes[n - 1].now - StallWindow)
  {
    NotReceivingExact(passes, n);
    var t := passes[n - 1].now - StallWindow;
    if Second(passes, n).Some? && Second(passes, n).value <= t {
      var a, b := SecondFound(passes, n);
      assert BehindTwice(passes, a, b, n, t);
    }
    if a, b :| 0 <= a < b < n && BehindTwice(passes, a, b, n, t) {
      SecondReached(passes, a, b, n, t);
    }
  }

  // ---- What an unanswered pass costs

  function ReadingAt(copied: int): Reading {
    Reading("db-0", 7, 0, 3, "a", Some(Address(1, 0)), Some(Address(copied, 0)), None)
  }

  function ReadPass(now: int, copied: int): Pass {
    Pass(now, AsSlave(Some(ReadingAt(copied))), false, now)
  }

  const Lost := [ReadPass(0, 10), ReadPass(10, 11), ReadPass(70, 12), Pass(80, Unanswered, false, 80), ReadPass(90, 13)]

  lemma LostStands()
    ensures Stuck(Lost) && Grew(Lost, 1) && !Grew(Lost, 3)
  {
    assert Last(Lost, 0) == -1 && Last(Lost, 1) == 0 && Last(Lost, 2) == 1 && Last(Lost, 3) == 2 && Last(Lost, 4) == 2;
    assert StandsAt(Lost, 0) && StandsAt(Lost, 1) && StandsAt(Lost, 2) && StandsAt(Lost, 3) && StandsAt(Lost, 4);
  }

  lemma LostIsReported()
    ensures Reported(Lost, 3)
  {
    LostStands();
    assert GrewBy(Lost, 1, 3, 10);
    StuckReported(Lost, 3);
  }

  lemma LostIsCleared()
    ensures After(Lost, 4).record.None? && !Reported(Lost, 5)
  {
    LostStands();
    hide Grew, Stuck, Reported;
    StuckReported(Lost, 5);
    forall g | 0 <= g < 5 ensures !GrewBy(Lost, g, 5, 30) {
      assert g < 3 ==> !Undropped(Lost, g, 5) by {
        assert Drops(Lost[3]);
      }
    }
  }

  /** A stuck applier that is reported, one pass without an answer of its member, and the next reading does not
      report it, although nothing has moved. */
  lemma UnansweredClears() returns (passes: seq<Pass>)
    ensures Stuck(passes) && |passes| == 5 && passes[2].reading.Some? && passes[4].reading.Some?
    ensures Reported(passes, 3) && After(passes, 4).record.None? && !Reported(passes, 5)
  {
    passes := Lost;
    hide Reported;
    LostStands();
    LostIsReported();
    LostIsCleared();
  }
}
