/** What the operator concludes from one answer per member: which member is the
    primary, whether replication is healthy, and whether the cluster is HAReady. */
module Roles {
  import opened Operations
  import opened Replication

  datatype Role = Unknown | Master | Slave | Replica

  datatype Observation = Observation(
    reachable: bool, tokenRefused: bool, role: Role, observedAt: Option<int>, conflicting: bool,
    activeClaim: bool, notYetActive: bool, reading: Option<Reading>, version: string, unfinished: Option<string>)

  predicate Fresh(o: Observation, now: int) {
    o.reachable && o.observedAt.Some? && -ObservationTTL <= now - o.observedAt.value <= ObservationTTL
  }

  predicate Authoritative(o: Observation, now: int) {
    o.role != Unknown && !o.conflicting && Fresh(o, now)
  }

  type Answers = map<string, Observation>

  // ---- The primary

  datatype Reason =
    | MultiplePrimaries | Ambiguous | TokenRefused | Incomplete | NoPrimary | SinglePrimary

  datatype Resolution = Resolution(reason: Reason, primary: string, multiple: bool)

  predicate IsMaster(obs: Answers, m: string, now: int) {
    m in obs && Authoritative(obs[m], now) && obs[m].role == Master
  }

  predicate Claims(obs: Answers, m: string, now: int) {
    m in obs && Fresh(obs[m], now) && obs[m].role == Master && obs[m].activeClaim
  }

  predicate IsAmbiguous(obs: Answers, m: string) {
    m in obs && obs[m].reachable && obs[m].conflicting
  }

  predicate IsMissing(obs: Answers, m: string, now: int) {
    !IsAmbiguous(obs, m) && (m !in obs || !Authoritative(obs[m], now))
  }

  predicate IsRefused(obs: Answers, m: string, now: int) {
    IsMissing(obs, m, now) && m in obs && obs[m].tokenRefused
  }

  function Masters(members: seq<string>, obs: Answers, now: int): seq<string> {
    if members == [] then []
    else (if IsMaster(obs, members[0], now) then [members[0]] else []) + Masters(members[1..], obs, now)
  }

  function Claimants(members: seq<string>, obs: Answers, now: int): seq<string> {
    if members == [] then []
    else (if Claims(obs, members[0], now) then [members[0]] else []) + Claimants(members[1..], obs, now)
  }

  predicate SomeAmbiguous(members: seq<string>, obs: Answers) {
    exists i :: 0 <= i < |members| && IsAmbiguous(obs, members[i])
  }

  predicate SomeRefused(members: seq<string>, obs: Answers, now: int) {
    exists i :: 0 <= i < |members| && IsRefused(obs, members[i], now)
  }

  predicate SomeMissing(members: seq<string>, obs: Answers, now: int) {
    exists i :: 0 <= i < |members| && IsMissing(obs, members[i], now)
  }

  /** The verdict, most severe first. */
  function Verdict(members: seq<string>, obs: Answers, now: int): Resolution {
    var masters := Masters(members, obs, now);
    var multiple := |masters| > 1 || |Claimants(members, obs, now)| > 1;
    if |masters| > 1 then Resolution(MultiplePrimaries, "", multiple)
    else if SomeAmbiguous(members, obs) then Resolution(Ambiguous, "", multiple)
    else if SomeRefused(members, obs, now) then Resolution(TokenRefused, "", multiple)
    else if SomeMissing(members, obs, now) then Resolution(Incomplete, "", multiple)
    else if masters == [] then Resolution(NoPrimary, "", multiple)
    else Resolution(SinglePrimary, masters[0], multiple)
  }

  lemma {:induction false} MastersExtend(members: seq<string>, m: string, obs: Answers, now: int)
    ensures Masters(members + [m], obs, now) == Masters(members, obs, now) + (if IsMaster(obs, m, now) then [m] else [])
    ensures Claimants(members + [m], obs, now) == Claimants(members, obs, now) + (if Claims(obs, m, now) then [m] else [])
  {
    if members != [] {
      assert (members + [m])[1..] == members[1..] + [m];
      MastersExtend(members[1..], m, obs, now);
    }
  }

  method ResolvePrimary(members: seq<string>, obs: Answers, now: int) returns (res: Resolution)
    ensures res == Verdict(members, obs, now)
  {
    var masters, claims, primary := 0, 0, "";
    var incomplete, ambiguous, refused := false, false, false;
    var i := 0;
    while i < |members|
      invariant 0 <= i <= |members|
      invariant masters == |Masters(members[..i], obs, now)| && claims == |Claimants(members[..i], obs, now)|
      invariant masters > 0 ==> primary == Masters(members[..i], obs, now)[masters - 1]
      invariant ambiguous <==> exists k :: 0 <= k < i && IsAmbiguous(obs, members[k])
      invariant refused <==> exists k :: 0 <= k < i && IsRefused(obs, members[k], now)
      invariant incomplete <==> exists k :: 0 <= k < i && IsMissing(obs, members[k], now)
    {
      var m := members[i];
      MastersExtend(members[..i], m, obs, now);
      assert members[..i + 1] == members[..i] + [m];
      if Claims(obs, m, now) {
        claims := claims + 1;
      }
      if m in obs && obs[m].reachable && obs[m].conflicting {
        ambiguous := true;
      } else if m !in obs || !Authoritative(obs[m], now) {
        incomplete := true;
        if m in obs && obs[m].tokenRefused {
          refused := true;
        }
      } else if obs[m].role == Master {
        masters := masters + 1;
        primary := m;
      }
      i := i + 1;
    }
    assert members[..i] == members;
    var multiple := masters > 1 || claims > 1;
    if masters > 1 {
      res := Resolution(MultiplePrimaries, "", multiple);
    } else if ambiguous {
      res := Resolution(Ambiguous, "", multiple);
    } else if refused {
      res := Resolution(TokenRefused, "", multiple);
    } else if incomplete {
      res := Resolution(Incomplete, "", multiple);
    } else if masters == 0 {
      res := Resolution(NoPrimary, "", multiple);
    } else {
      res := Resolution(SinglePrimary, primary, multiple);
    }
  }

  lemma {:induction false} MastersCount(members: seq<string>, obs: Answers, now: int, m: string)
    ensures multiset(Masters(members, obs, now))[m] == if IsMaster(obs, m, now) then multiset(members)[m] else 0
    ensures multiset(Claimants(members, obs, now))[m] == if Claims(obs, m, now) then multiset(members)[m] else 0
  {
    if members != [] {
      assert members == [members[0]] + members[1..];
      MastersCount(members[1..], obs, now, m);
    }
  }

  predicate Distinct(s: seq<string>) {
    forall i, j :: 0 <= i < j < |s| ==> s[i] != s[j]
  }

  /** Every member answers with authority, and p is the only master. */
  predicate OnlyMaster(members: seq<string>, obs: Answers, now: int, p: string) {
    && (forall m :: m in members ==> m in obs && Authoritative(obs[m], now))
    && p in members && obs[p].role == Master
    && (forall m :: m in members && obs[m].role == Master ==> m == p)
  }

  lemma MastersAre(members: seq<string>, obs: Answers, now: int, m: string)
    ensures m in Masters(members, obs, now) <==> m in members && IsMaster(obs, m, now)
  {
    MastersCount(members, obs, now, m);
    assert m in multiset(Masters(members, obs, now)) <==> m in Masters(members, obs, now);
    assert m in multiset(members) <==> m in members;
  }

  lemma MastersDistinct(members: seq<string>, obs: Answers, now: int)
    requires Distinct(members) && |Masters(members, obs, now)| > 1
    ensures Masters(members, obs, now)[0] != Masters(members, obs, now)[1]
  {
    var masters := Masters(members, obs, now);
    if masters[0] == masters[1] {
      TwiceOccurs(masters, masters[0]);
      MastersCount(members, obs, now, masters[0]);
      OnceOccurs(members, masters[0]);
    }
  }

  /** A primary is named exactly when every member answers with authority and exactly one
      of them is master; it is that one. */
  lemma ResolvedIff(members: seq<string>, obs: Answers, now: int, p: string)
    requires Distinct(members)
    ensures (Verdict(members, obs, now).reason == SinglePrimary && Verdict(members, obs, now).primary == p) <==>
            OnlyMaster(members, obs, now, p)
  {
    if OnlyMaster(members, obs, now, p) {
      OnlyMasterResolves(members, obs, now, p);
    }
    if Verdict(members, obs, now).reason == SinglePrimary && Verdict(members, obs, now).primary == p {
      ResolvedIsOnly(members, obs, now, p);
    }
  }

  lemma OnlyMasterResolves(members: seq<string>, obs: Answers, now: int, p: string)
    requires Distinct(members) && OnlyMaster(members, obs, now, p)
    ensures Verdict(members, obs, now).reason == SinglePrimary && Verdict(members, obs, now).primary == p
  {
    var masters := Masters(members, obs, now);
    MastersAre(members, obs, now, p);
    if |masters| > 1 {
      MastersDistinct(members, obs, now);
      MastersAre(members, obs, now, masters[0]);
      MastersAre(members, obs, now, masters[1]);
    }
    assert forall i :: 0 <= i < |members| ==> members[i] in members;
  }

  lemma ResolvedIsOnly(members: seq<string>, obs: Answers, now: int, p: string)
    requires Verdict(members, obs, now).reason == SinglePrimary && Verdict(members, obs, now).primary == p
    ensures OnlyMaster(members, obs, now, p)
  {
    MastersAre(members, obs, now, p);
    forall m | m in members ensures m in obs && Authoritative(obs[m], now) && (obs[m].role == Master ==> m == p) {
      var i :| 0 <= i < |members| && members[i] == m;
      assert !IsAmbiguous(obs, members[i]) && !IsMissing(obs, members[i], now);
      MastersAre(members, obs, now, m);
    }
  }

  predicate TwoMasters(members: seq<string>, obs: Answers, now: int) {
    exists i, j :: 0 <= i < j < |members| && IsMaster(obs, members[i], now) && IsMaster(obs, members[j], now)
  }

  predicate TwoClaims(members: seq<string>, obs: Answers, now: int) {
    exists i, j :: 0 <= i < j < |members| && Claims(obs, members[i], now) && Claims(obs, members[j], now)
  }

  lemma {:induction false} SomeListed(members: seq<string>, obs: Answers, now: int)
    ensures Masters(members, obs, now) != [] <==> exists i :: 0 <= i < |members| && IsMaster(obs, members[i], now)
    ensures Claimants(members, obs, now) != [] <==> exists i :: 0 <= i < |members| && Claims(obs, members[i], now)
  {
    hide IsMaster, Claims;
    if members != [] {
      SomeListed(members[1..], obs, now);
      assert forall i :: 0 < i < |members| ==> members[i] == members[1..][i - 1];
    }
  }

  lemma {:induction false} TwoListed(members: seq<string>, obs: Answers, now: int)
    ensures |Masters(members, obs, now)| > 1 <==> TwoMasters(members, obs, now)
    ensures |Claimants(members, obs, now)| > 1 <==> TwoClaims(members, obs, now)
  {
    hide IsMaster, Claims;
    if members != [] {
      SomeListed(members[1..], obs, now);
      TwoListed(members[1..], obs, now);
      assert forall i :: 0 < i < |members| ==> members[i] == members[1..][i - 1];
    }
  }

  predicate AllAnswer(members: seq<string>, obs: Answers, now: int) {
    forall i :: 0 <= i < |members| ==> members[i] in obs && Authoritative(obs[members[i]], now)
  }

  /** When each reason is given, and that several members act as master, by what the members answered. No other reason
      names a primary. */
  lemma ReasonsIff(members: seq<string>, obs: Answers, now: int)
    ensures var v, two := Verdict(members, obs, now), TwoMasters(members, obs, now);
            && (v.multiple <==> two || TwoClaims(members, obs, now))
            && (v.reason == MultiplePrimaries <==> two)
            && (v.reason == Ambiguous <==> !two && SomeAmbiguous(members, obs))
            && (v.reason == TokenRefused <==> !two && !SomeAmbiguous(members, obs) && SomeRefused(members, obs, now))
            && (v.reason == Incomplete <==>
                  !two && !SomeAmbiguous(members, obs) && !SomeRefused(members, obs, now) && !AllAnswer(members, obs, now))
            && (v.reason == NoPrimary <==>
                  AllAnswer(members, obs, now) && forall i :: 0 <= i < |members| ==> obs[members[i]].role != Master)
            && (v.reason != SinglePrimary ==> v.primary == "")
  {
    SomeListed(members, obs, now);
    TwoListed(members, obs, now);
    hide Masters, Claimants, TwoClaims, Fresh;
    if SomeMissing(members, obs, now) {
      var i :| 0 <= i < |members| && IsMissing(obs, members[i], now);
    } else if !SomeAmbiguous(members, obs) {
      forall i | 0 <= i < |members| ensures members[i] in obs && Authoritative(obs[members[i]], now) {
        assert !IsAmbiguous(obs, members[i]) && !IsMissing(obs, members[i], now);
      }
    }
  }

  lemma TwiceOccurs(s: seq<string>, x: string)
    requires |s| > 1 && s[0] == x && s[1] == x
    ensures multiset(s)[x] >= 2
  {
    assert s == [x, x] + s[2..];
  }

  lemma {:induction false} OnceOccurs(s: seq<string>, x: string)
    requires Distinct(s)
    ensures multiset(s)[x] <= 1
  {
    if s != [] {
      var rest := s[1..];
      assert s == [s[0]] + rest;
      OnceOccurs(rest, x);
      assert forall j :: 0 <= j < |rest| ==> rest[j] == s[j + 1];
      assert s[0] in multiset(rest) <==> s[0] in rest;
    }
  }

  /** The verdict does not depend on the order of the members. */
  lemma OrderIndependent(a: seq<string>, b: seq<string>, obs: Answers, now: int)
    requires multiset(a) == multiset(b)
    ensures Verdict(a, obs, now) == Verdict(b, obs, now)
  {
    hide Masters, Claimants, SomeAmbiguous, SomeRefused, SomeMissing;
    SameMasters(a, b, obs, now);
    SameElements(a, b);
    if |Masters(a, obs, now)| == 1 {
      assert Masters(a, obs, now)[0] in multiset(Masters(b, obs, now));
    }
    SomeMoves(a, b, obs, now);
    SomeMoves(b, a, obs, now);
  }

  lemma SameMasters(a: seq<string>, b: seq<string>, obs: Answers, now: int)
    requires multiset(a) == multiset(b)
    ensures multiset(Masters(a, obs, now)) == multiset(Masters(b, obs, now)) && |Masters(a, obs, now)| == |Masters(b, obs, now)|
    ensures |Claimants(a, obs, now)| == |Claimants(b, obs, now)|
  {
    forall m ensures multiset(Masters(a, obs, now))[m] == multiset(Masters(b, obs, now))[m] {
      MastersCount(a, obs, now, m);
      MastersCount(b, obs, now, m);
    }
    forall m ensures multiset(Claimants(a, obs, now))[m] == multiset(Claimants(b, obs, now))[m] {
      MastersCount(a, obs, now, m);
      MastersCount(b, obs, now, m);
    }
    SameSize(Masters(a, obs, now), Masters(b, obs, now));
    SameSize(Claimants(a, obs, now), Claimants(b, obs, now));
  }

  lemma SameElements(a: seq<string>, b: seq<string>)
    requires multiset(a) == multiset(b)
    ensures forall i :: 0 <= i < |a| ==> a[i] in b
    ensures forall i :: 0 <= i < |b| ==> b[i] in a
  {
    assert forall i :: 0 <= i < |a| ==> a[i] in multiset(b);
    assert forall i :: 0 <= i < |b| ==> b[i] in multiset(a);
  }

  lemma SomeMoves(a: seq<string>, b: seq<string>, obs: Answers, now: int)
    requires forall i :: 0 <= i < |a| ==> a[i] in b
    ensures SomeAmbiguous(a, obs) ==> SomeAmbiguous(b, obs)
    ensures SomeRefused(a, obs, now) ==> SomeRefused(b, obs, now)
    ensures SomeMissing(a, obs, now) ==> SomeMissing(b, obs, now)
  {
  }

  lemma SameSize(a: seq<string>, b: seq<string>)
    requires forall m :: multiset(a)[m] == multiset(b)[m]
    ensures |a| == |b| && multiset(a) == multiset(b)
  {
    assert multiset(a) == multiset(b);
    assert |multiset(a)| == |a| && |multiset(b)| == |b|;
  }

  // ---- The source of a seed

  /** The member is master for the choice of a seed source. */
  predicate IsSeedMaster(o: Observation) {
    o.role == Master && (!o.conflicting || o.notYetActive)
  }

  predicate IsSeedSlave(o: Observation) {
    o.role == Slave && !o.conflicting
  }

  /** Every holder answers freshly and with a role, source as the only master. */
  predicate SoleMaster(holders: seq<string>, obs: Answers, now: int, source: string) {
    && (forall i :: 0 <= i < |holders| ==>
          holders[i] in obs && Fresh(obs[holders[i]], now) && (IsSeedMaster(obs[holders[i]]) || IsSeedSlave(obs[holders[i]])))
    && exists i :: 0 <= i < |holders| && holders[i] == source && IsSeedMaster(obs[source]) &&
         forall j :: 0 <= j < |holders| && IsSeedMaster(obs[holders[j]]) ==> j == i
  }

  method SeedSourceAmong(holders: seq<string>, obs: Answers, now: int) returns (source: Option<string>)
    ensures source.Some? ==> SoleMaster(holders, obs, now, source.value)
    ensures source.None? ==> forall m :: !SoleMaster(holders, obs, now, m)
  {
    var masters: seq<nat> := [];
    var i := 0;
    while i < |holders|
      invariant 0 <= i <= |holders|
      invariant forall k :: 0 <= k < i ==>
        holders[k] in obs && Fresh(obs[holders[k]], now) && (IsSeedMaster(obs[holders[k]]) || IsSeedSlave(obs[holders[k]]))
      invariant forall k :: 0 <= k < |masters| ==> 0 <= masters[k] < i && IsSeedMaster(obs[holders[masters[k]]])
      invariant forall k :: 0 <= k < i && IsSeedMaster(obs[holders[k]]) ==> k in masters
      invariant forall k :: 0 < k < |masters| ==> masters[0] < masters[k]
    {
      var m := holders[i];
      if m !in obs || !Fresh(obs[m], now) {
        return None;
      } else if IsSeedMaster(obs[m]) {
        masters := masters + [i];
      } else if !IsSeedSlave(obs[m]) {
        return None;
      }
      i := i + 1;
    }
    if |masters| == 1 {
      source := Some(holders[masters[0]]);
    } else {
      source := None;
      if |masters| > 1 {
        assert masters[0] < masters[1];
      }
    }
  }
}
