/** The token of a cluster's Instance Managers: its rotation with an overlap, and calls
    that try the tokens a member may hold. */
module Tokens {
  import opened Operations

  datatype Stamp = Never | Unreadable | At(time: int)

  datatype Secret = Secret(current: string, previous: string, rotatedAt: Stamp, request: string)

  /** White space alone is no token. */
  predicate Blank(token: string) {
    forall i :: 0 <= i < |token| ==> token[i] == ' ' || token[i] == '\t' || token[i] == '\n' || token[i] == '\r'
  }

  /** What one write may make of the Secret; `allHold` says that every member was found to accept the current token. */
  predicate Evolves(s: Secret, t: Secret, allHold: bool) {
    || Blank(s.current)
    || (t.current == s.current && t.previous == s.previous)
    || (s.previous == "" && t.previous == s.current && !Blank(t.current))
    || (t.current == s.current && t.previous == "" && allHold)
  }

  /** A member's container, as the operator sees it. */
  datatype Pod = Missing | NotRunning | RunningSince(time: int)

  /** A new token is due: there is none, or no previous one is kept and either none was ever rotated or it is asked for. */
  predicate Rotates(s: Secret, request: string) {
    Blank(s.current) || (s.previous == "" && (s.rotatedAt.Never? || (request != "" && request != s.request)))
  }

  /** What a reconcile writes first; `held` says that every member holds the current token. */
  function Wanted(s: Secret, request: string, newToken: string, held: bool, now: int): Secret {
    if Rotates(s, request) then
      s.(current := newToken, previous := if Blank(s.current) then s.previous else s.current,
         request := if request != "" then request else s.request)
    else if s.previous == "" then s
    else if !s.rotatedAt.At? then s.(rotatedAt := At(now))
    else if held then s.(previous := "")
    else s
  }

  class TokenKeeper {
    const members: seq<string>
    const pods: map<string, Pod>
    const accepts: string -> bool      // whether a member that is asked accepts the current token
    var secret: Secret                 // the copy the reconcile works on
    ghost var base: Secret             // the stored Secret it stands for
    ghost var asked: set<string>       // the members that accepted the current token of base
    ghost var lost: nat                // writes that were refused
    var clock: int

    constructor (stored: Secret, members: seq<string>, pods: map<string, Pod>, accepts: string -> bool, clock: int)
      ensures secret == base == stored && asked == {} && this.members == members && this.pods == pods && this.accepts == accepts
    {
      secret, base, asked, lost, this.members, this.clock := stored, stored, {}, 0, members, clock;
      this.pods, this.accepts := pods, accepts;
    }

    ghost predicate AllAsked()
      reads this
    {
      forall m :: m in members ==> m in asked
    }

    /** Every member runs since later than that, and accepts the current token. */
    predicate AllHold(since: int) {
      forall m :: m in members ==> m in pods && pods[m].RunningSince? && pods[m].time > since && accepts(m)
    }

    predicate Held(s: Secret) {
      s.rotatedAt.At? && AllHold(s.rotatedAt.time)
    }

    /** The write is refused when the stored Secret has changed since it was read. A reconcile goes on only from a
        write that succeeded; one that failed with effect is a step of the runs below. */
    method Write() returns (ok: bool)
      requires Evolves(base, secret, AllAsked())
      modifies this`base, this`lost
      ensures base == (if ok then secret else old(base)) && lost == if ok then old(lost) else old(lost) + 1
    {
      ok := *;
      if ok {
        base := secret;
      } else {
        lost := lost + 1;
      }
    }

    method Accepts(member: string, token: string) returns (accepted: bool)
      requires token == base.current
      modifies this`asked
      ensures accepted == accepts(member) && asked == if accepted then old(asked) + {member} else old(asked)
    {
      accepted := accepts(member);
      if accepted {
        asked := asked + {member};
      }
    }

    method MembersHoldToken(since: int) returns (hold: bool)
      requires base.current == secret.current
      modifies this`asked
      ensures old(asked) <= asked
      ensures (hold <==> AllHold(since)) && (hold ==> AllAsked())
    {
      var i := 0;
      while i < |members|
        invariant 0 <= i <= |members| && asked == old(asked)
        invariant forall k :: 0 <= k < i ==> members[k] in pods && pods[members[k]].RunningSince? && pods[members[k]].time > since
      {
        var m := members[i];
        assert m in members;
        if m !in pods || !pods[m].RunningSince? || pods[m].time <= since {
          return false;
        }
        i := i + 1;
      }
      i := 0;
      while i < |members|
        invariant 0 <= i <= |members| && old(asked) <= asked
        invariant forall k :: 0 <= k < i ==> members[k] in asked && accepts(members[k])
      {
        assert members[i] in members;
        var accepted := Accepts(members[i], secret.current);
        if !accepted {
          return false;
        }
        i := i + 1;
      }
      return true;
    }

    /** reconcileIMTokenSecret. `newToken` is the one it would generate. */
    method Reconcile(request: string, newToken: string)
      requires secret == base && asked == {} && !Blank(newToken)
      modifies this
      // A rotation keeps the token that running members hold as the previous one, and none starts before that is dropped.
      ensures !Blank(old(base).current) && base.current != old(base).current ==> old(base).previous == "" && base.previous == old(base).current
      ensures !Blank(old(base).current) && old(base).previous != "" && base.previous == "" ==> AllAsked() && base.current == old(base).current
      // The writes that are not refused are of what is wanted, and of the time of a new token after it is stored.
      ensures lost == old(lost) ==>
        base == var s := Wanted(old(base), request, newToken, Held(old(base)), old(clock));
                if Rotates(old(base), request) then s.(rotatedAt := At(clock)) else s
      ensures lost > old(lost) ==> base == old(base) || (Rotates(old(base), request) && base == Wanted(old(base), request, newToken, false, old(clock)))
      ensures clock >= old(clock) && lost >= old(lost)
    {
      var generated, rotated := false, false;
      if Blank(secret.current) {
        generated := true;
      } else if secret.previous != "" {
        match secret.rotatedAt {
          case At(since) =>
            var hold := MembersHoldToken(since);
            if hold {
              secret := secret.(previous := "");
            }
          case _ =>
            secret := secret.(rotatedAt := At(clock));
        }
      } else if secret.rotatedAt.Never? || (request != "" && request != secret.request) {
        rotated := true;
      }
      if generated || rotated {
        if rotated {
          secret := secret.(previous := secret.current);
        }
        secret := secret.(current := newToken);
        if request != "" {
          secret := secret.(request := request);
        }
      }
      var ok := Write();
      if ok && (generated || rotated) {
        var later: int := *;
        clock := if later < clock then clock else later;
        secret := secret.(rotatedAt := At(clock));
        var _ := Write();
      }
    }
  }

  // ---- All reconciles, with members that restart at any point

  /** A reconcile in progress: the version of the Secret it stands for, and the members that accepted its token. */
  datatype Pass = Pass(version: nat, asked: set<string>)

  /** `past` holds every token that was the current one, which a kubelet may still hand out. */
  datatype World = World(
    secret: Secret, version: nat, past: set<string>, holds: map<string, string>, members: set<string>, passes: map<nat, Pass>)

  datatype Act =
    | Begin(p: nat)
    | Ask(p: nat, member: string)
    | Store(p: nat, secret: Secret, told: bool)
    | End(p: nat)
    | StartMember(member: string, token: string)
    | StopMember(member: string)

  predicate Current(w: World, p: nat) {
    p in w.passes && w.passes[p].version == w.version
  }

  predicate Can(w: World, act: Act) {
    match act
    case Begin(p) => p !in w.passes
    case Ask(p, m) => p in w.passes && m in w.holds && (Current(w, p) ==> w.holds[m] == w.secret.current)
    case Store(p, secret, _) => Current(w, p) && Evolves(w.secret, secret, w.members <= w.passes[p].asked)
    case End(p) => p in w.passes
    case StartMember(m, token) => m in w.members && token in w.past
    case StopMember(m) => m in w.holds
  }

  function Next(w: World, act: Act): World
    requires Can(w, act)
  {
    match act
    case Begin(p) => w.(passes := w.passes[p := Pass(w.version, {})])
    case Ask(p, m) => w.(passes := w.passes[p := w.passes[p].(asked := w.passes[p].asked + {m})])
    case Store(p, secret, told) =>
      w.(secret := secret, version := w.version + 1, past := w.past + {secret.current},
         passes := if told then w.passes[p := Pass(w.version + 1, if secret.current == w.secret.current then w.passes[p].asked else {})] else w.passes - {p})
    case End(p) => w.(passes := w.passes - {p})
    case StartMember(m, token) => w.(holds := w.holds[m := token])
    case StopMember(m) => w.(holds := w.holds - {m})
  }

  /** The tokens a call tries, the current one first (ClusterTokens). */
  function Tokens(s: Secret): seq<string> {
    if s.current == "" then [] else if s.previous != "" && s.previous != s.current then [s.current, s.previous] else [s.current]
  }

  predicate HoldsOne(w: World, m: string)
    requires m in w.holds
  {
    w.holds[m] == w.secret.current || (w.secret.previous != "" && w.holds[m] == w.secret.previous)
  }

  ghost predicate Inv(w: World) {
    && w.holds.Keys <= w.members && !Blank(w.secret.current) && w.secret.current in w.past
    && (forall m :: m in w.holds ==> HoldsOne(w, m))
    && (forall p :: p in w.passes ==> w.passes[p].version <= w.version)
    && (forall p, m :: Current(w, p) && m in w.passes[p].asked && m in w.holds ==> w.holds[m] == w.secret.current)
  }

  /** A member starts with the current token, or with the previous one while no reconcile that may drop it has asked
      this member. */
  ghost predicate Timely(w: World, m: string, token: string) {
    || token == w.secret.current
    || (token != "" && token == w.secret.previous && forall p :: Current(w, p) ==> m !in w.passes[p].asked)
  }

  /** What the runs below are about: members start in time, and a Secret is written with a token. */
  ghost predicate Sheltered(w: World, act: Act) {
    && (act.StartMember? ==> Timely(w, act.member, act.token))
    && (act.Store? ==> !Blank(act.secret.current))
  }

  lemma StepKept(w: World, act: Act)
    requires Inv(w) && Can(w, act) && Sheltered(w, act)
    ensures Inv(Next(w, act))
  {
    var t := Next(w, act);
    forall m | m in t.holds ensures HoldsOne(t, m) {
      assert m in w.holds ==> HoldsOne(w, m);
    }
    forall p, m | Current(t, p) && m in t.passes[p].asked && m in t.holds ensures t.holds[m] == t.secret.current {
      assert Current(w, p) && m in w.passes[p].asked && m in w.holds ==> w.holds[m] == w.secret.current;
    }
  }

  ghost predicate Takes(w: World, v: World) {
    exists act :: Can(w, act) && Sheltered(w, act) && v == Next(w, act)
  }

  ghost predicate StepAt(run: seq<World>, i: int) {
    0 < i < |run| ==> Takes(run[i - 1], run[i])
  }

  /** A run begins with a token and no running member. */
  ghost predicate IsRun(run: seq<World>) {
    && |run| > 0 && !Blank(run[0].secret.current) && run[0].secret.current in run[0].past
    && run[0].holds == map[] && run[0].passes == map[]
    && forall i {:trigger StepAt(run, i)} :: StepAt(run, i)
  }

  lemma {:induction false} RunInv(run: seq<World>, n: nat)
    requires IsRun(run) && n < |run|
    ensures Inv(run[n])
  {
    if n > 0 {
      RunInv(run, n - 1);
      assert StepAt(run, n);
      var act :| Can(run[n - 1], act) && Sheltered(run[n - 1], act) && run[n] == Next(run[n - 1], act);
      StepKept(run[n - 1], act);
    }
  }

  lemma BlankEmpty(token: string)
    requires !Blank(token)
    ensures token != ""
  {
  }

  /** Every running member holds the current or the previous token, and so one that a call tries;
      without a previous one they all hold the current. */
  lemma MembersAreReached(run: seq<World>, n: nat, m: string)
    requires IsRun(run) && n < |run| && m in run[n].holds
    ensures run[n].holds[m] in Tokens(run[n].secret)
    ensures run[n].secret.previous == "" ==> run[n].holds[m] == run[n].secret.current
  {
    RunInv(run, n);
    assert HoldsOne(run[n], m);
    BlankEmpty(run[n].secret.current);
  }

  /** The previous token is dropped only when every member that runs holds the current one. */
  lemma DroppedWhenAllHold(run: seq<World>, n: nat, act: Act, m: string)
    requires IsRun(run) && n < |run| && Can(run[n], act) && act.Store? && run[n].secret.previous != "" && act.secret.previous == ""
    requires m in run[n].holds
    ensures act.secret.current == run[n].secret.current == run[n].holds[m]
  {
    RunInv(run, n);
    assert m in run[n].passes[act.p].asked;
  }

  // ---- Members that start with a token too old

  predicate Stranded(w: World, m: string) {
    m in w.holds && w.holds[m] !in Tokens(w.secret)
  }

  /** Steps after which the members start in time lead from w to t. */
  ghost predicate Leads(w: World, acts: seq<Act>, t: World)
    decreases |acts|
  {
    if acts == [] then w == t
    else Can(w, acts[0]) && Sheltered(w, acts[0]) && Leads(Next(w, acts[0]), acts[1..], t)
  }

  /** Somewhere on such a way the member refuses every token that a call tries. */
  ghost predicate MayStrand(w: World, m: string) {
    exists acts, t :: Leads(w, acts, t) && Stranded(t, m)
  }

  lemma Now(w: World, m: string)
    requires Stranded(w, m)
    ensures MayStrand(w, m)
  {
    assert Leads(w, [], w);
  }

  lemma Then(w: World, act: Act, m: string)
    requires Can(w, act) && Sheltered(w, act) && MayStrand(Next(w, act), m)
    ensures MayStrand(w, m)
  {
    var acts, t :| Leads(Next(w, act), acts, t) && Stranded(t, m);
    assert ([act] + acts)[1..] == acts;
    assert Leads(w, [act] + acts, t);
  }

  lemma {:induction false} LedInv(w: World, acts: seq<Act>, t: World)
    requires Inv(w) && Leads(w, acts, t)
    ensures Inv(t)
    decreases |acts|
  {
    if acts != [] {
      StepKept(w, acts[0]);
      LedInv(Next(w, acts[0]), acts[1..], t);
    }
  }

  /** The reconcile that has asked m asks every other member, each restarted with the current token, and drops the
      previous token, which m holds. */
  lemma {:induction false} DropStrands(w: World, p: nat, m: string)
    requires !Blank(w.secret.current) && w.secret.current in w.past && Current(w, p) && m in w.passes[p].asked
    requires m in w.holds && w.holds[m] != w.secret.current
    ensures MayStrand(w, m)
    decreases w.members - w.passes[p].asked
  {
    hide MayStrand, Blank;
    if !(w.members <= w.passes[p].asked) {
      var x :| x in w.members && x !in w.passes[p].asked;
      var start := StartMember(x, w.secret.current);
      var v := Next(w, start);
      var u := Next(v, Ask(p, x));
      assert x !in w.passes[p].asked && u.passes[p].asked == w.passes[p].asked + {x};
      DropStrands(u, p, m);
      Then(v, Ask(p, x), m);
      Then(w, start, m);
    } else {
      var drop := Store(p, w.secret.(previous := ""), false);
      assert Can(w, drop);
      Now(Next(w, drop), m);
      Then(w, drop, m);
    }
  }

  /** From every reachable state: a member that starts with a token is reached by the calls for good, whatever
      follows, if and only if it starts in time. */
  lemma StartExact(w: World, m: string, token: string)
    requires Inv(w) && Can(w, StartMember(m, token))
    ensures Timely(w, m, token) <==> !MayStrand(Next(w, StartMember(m, token)), m)
  {
    var start := StartMember(m, token);
    var u := Next(w, start);
    if Timely(w, m, token) {
      StepKept(w, start);
      forall acts, t | Leads(u, acts, t) ensures !Stranded(t, m) {
        LedInv(u, acts, t);
        BlankEmpty(t.secret.current);
        assert m in t.holds ==> HoldsOne(t, m);
      }
    } else if p :| Current(w, p) && m in w.passes[p].asked {
      DropStrands(u, p, m);
    } else {
      Now(u, m);
    }
  }

  const Rotated := Secret("new", "old", At(0), "")
  const W0 := World(Secret("old", "", Never, ""), 0, {"old"}, map[], {"db-0"}, map[])
  const W1 := W0.(passes := map[1 := Pass(0, {})])
  const W2 := W0.(secret := Rotated, version := 1, past := {"old", "new"})
  const W3 := W2.(holds := map["db-0" := "new"])
  const W4 := W3.(passes := map[2 := Pass(1, {})])
  const W5 := W3.(passes := map[2 := Pass(1, {"db-0"})])

  lemma RotationRun()
    ensures !Blank("old") && Takes(W0, W1) && Takes(W1, W2) && Takes(W2, W3) && Takes(W3, W4) && Takes(W4, W5)
  {
    assert "old"[0] == 'o' && "new"[0] == 'n';
    assert W1 == Next(W0, Begin(1)) && Sheltered(W0, Begin(1));
    assert W2 == Next(W1, Store(1, Rotated, false)) && Sheltered(W1, Store(1, Rotated, false));
    assert W3 == Next(W2, StartMember("db-0", "new")) && Sheltered(W2, StartMember("db-0", "new"));
    assert W4 == Next(W3, Begin(2)) && Sheltered(W3, Begin(2));
    assert W4.passes[2].asked + {"db-0"} == {"db-0"};
    assert W5 == Next(W4, Ask(2, "db-0")) && Sheltered(W4, Ask(2, "db-0"));
  }

  /** A member that was asked, and then restarts with the previous token before that is dropped, refuses every call. */
  lemma StaleStartStrands() returns (run: seq<World>)
    ensures IsRun(run) && |run| == 6 && Can(run[5], StartMember("db-0", "old")) && run[5].secret.previous == "old"
    ensures MayStrand(Next(run[5], StartMember("db-0", "old")), "db-0")
  {
    RotationRun();
    hide Takes;
    run := [W0, W1, W2, W3, W4, W5];
    RunInv(run, 5);
    assert Current(W5, 2) && "db-0" in W5.passes[2].asked;
    StartExact(W5, "db-0", "old");
  }

  // ---- Calls

  /** A member's Instance Manager: it refuses a token it does not hold before it acts. */
  class Member {
    const token: string
    ghost var effects: nat
    ghost var lost: nat        // answers that did not come back

    constructor (token: string)
      ensures this.token == token && effects == 0
    {
      this.token, effects, lost := token, 0, 0;
    }

    method Do(token: string) returns (answer: Answer)
      modifies this
      ensures effects <= old(effects) + 1
      ensures answer == Unauthorized ==> token != this.token && effects == old(effects)
      ensures answer == Answered ==> token == this.token && effects == old(effects) + 1
      ensures token != this.token ==> effects == old(effects)
      ensures lost == if answer == NoAnswer then old(lost) + 1 else old(lost)
    {
      var silent: bool := *;
      if silent {
        lost := lost + 1;
      }
      if token == this.token {
        var reached: bool := *;
        if reached || !silent {
          effects := effects + 1;
        }
        answer := if silent then NoAnswer else Answered;
      } else {
        answer := if silent then NoAnswer else Unauthorized;
      }
    }
  }

  datatype Answer = Answered | Unauthorized | NoAnswer

  class AcceptedTokens {
    var byMember: map<string, string>

    constructor ()
      ensures byMember == map[]
    {
      byMember := map[];
    }

    /** The token accepted last time goes first. */
    method Order(name: string, tokens: seq<string>) returns (order: seq<string>)
      ensures multiset(order) == multiset(tokens)
      ensures name in byMember && byMember[name] in tokens ==> order[0] == byMember[name]
    {
      order := tokens;
      if name in byMember {
        var i := 0;
        while i < |tokens| && tokens[i] != byMember[name]
          invariant 0 <= i <= |tokens|
          invariant forall k :: 0 <= k < i ==> tokens[k] != byMember[name]
        {
          i := i + 1;
        }
        if 0 < i < |tokens| {
          order := [tokens[i]] + tokens[..i] + tokens[i + 1..];
          assert tokens == tokens[..i] + [tokens[i]] + tokens[i + 1..];
        }
      }
    }

    /** The request takes effect at most once, and it is accepted whenever the member holds one of the tokens and answers. */
    method Send(name: string, member: Member, tokens: seq<string>) returns (answer: Answer)
      modifies this, member
      ensures member.effects <= old(member.effects) + 1
      ensures answer != NoAnswer ==> (answer == Answered <==> member.token in tokens)
      ensures answer == NoAnswer <==> member.lost > old(member.lost)
      ensures answer == Answered ==> member.effects == old(member.effects) + 1 && byMember == old(byMember)[name := member.token]
      ensures member.token !in tokens ==> member.effects == old(member.effects)
      ensures answer != Answered ==> byMember == old(byMember)
    {
      var order := Order(name, tokens);
      assert forall t :: t in order <==> t in multiset(order);
      assert forall t :: t in tokens <==> t in multiset(tokens);
      answer := Unauthorized;
      var i := 0;
      while i < |order|
        invariant 0 <= i <= |order| && answer == Unauthorized && byMember == old(byMember)
        invariant member.effects == old(member.effects) && member.lost == old(member.lost)
        invariant forall k :: 0 <= k < i ==> order[k] != member.token
      {
        answer := member.Do(order[i]);
        if answer == NoAnswer {
          return;
        }
        if answer == Answered {
          byMember := byMember[name := order[i]];
          return;
        }
        i := i + 1;
      }
    }
  }
}
