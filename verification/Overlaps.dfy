/** Overlapping runs of one scope: when two runs that decide on one store both claim, whatever
    the interleaving of their steps, and how many active commands they leave. */
module Overlaps {
  import opened Wrappers

  import BrokerFacts
  import opened LiveCommands
  import opened LiveProtocol
  import ProtocolSafety
  import opened ProtocolRuns

  // ----- atomic claims, interleaved

  /** The store claims a queued command only, once. */
  function ApplyAtomic(w: World, a: Action): World
  {
    if a.Claim? && LoggedState(w.log, a.command) != QUEUED then w else Apply(w, a)
  }

  function ApplyAllAtomic(w: World, actions: seq<Action>): World
    decreases |actions|
  {
    if actions == [] then w else ApplyAllAtomic(ApplyAtomic(w, actions[0]), actions[1..])
  }

  /** The steps are those of both runs, each in its own order. */
  ghost predicate Interleaves(a: seq<Action>, b: seq<Action>, t: seq<Action>)
    decreases |t|
  {
    if t == [] then a == [] && b == []
    else
      || (a != [] && a[0] == t[0] && Interleaves(a[1..], b, t[1..]))
      || (b != [] && b[0] == t[0] && Interleaves(a, b[1..], t[1..]))
  }

  /** What a run has still to do to claim this command: mint a command first, or not. */
  predicate Claiming(steps: seq<Action>, c: Command, log: map<Command, seq<Event>>)
  {
    || steps == []
    || (steps == [Claim(c)] && c in log)
    || (|steps| == 2 && steps[0].Enqueue? && steps[1] == Claim(c) && (steps[0].command == c || c in log))
  }

  /** How the store has grown: a command is as it was, or newly queued, or, if one of the two
      runs claims it, just claimed. */
  ghost predicate Grown(before: map<Command, seq<Event>>, log: map<Command, seq<Event>>, c: Command, d: Command)
  {
    && (forall x :: x in before ==> x in log)
    && (forall x :: x in log ==>
          || log[x] == (if x in before then before[x] else [])
          || ((x == c || x == d) && log[x] == [Event(CLAIMED, [])]))
  }

  /** A command to be claimed has no event but its claim. */
  predicate Claimable(log: map<Command, seq<Event>>, c: Command)
  {
    c in log ==> log[c] == [] || log[c] == [Event(CLAIMED, [])]
  }

  predicate IsClaimed(log: map<Command, seq<Event>>, c: Command)
  {
    c in log && log[c] == [Event(CLAIMED, [])]
  }

  ghost predicate Underway(before: map<Command, seq<Event>>, log: map<Command, seq<Event>>,
                           a: seq<Action>, c: Command, b: seq<Action>, d: Command)
  {
    && Grown(before, log, c, d) && Claimable(log, c) && Claimable(log, d)
    && Claiming(a, c, log) && (a == [] ==> IsClaimed(log, c))
    && Claiming(b, d, log) && (b == [] ==> IsClaimed(log, d))
  }

  lemma UnderwayStep(before: map<Command, seq<Event>>, w: World, a: seq<Action>, c: Command, b: seq<Action>, d: Command)
    requires a != [] && Underway(before, w.log, a, c, b, d)
    ensures Underway(before, ApplyAtomic(w, a[0]).log, a[1..], c, b, d)
  {
  }

  lemma UnderwaySwaps(before: map<Command, seq<Event>>, log: map<Command, seq<Event>>,
                      a: seq<Action>, c: Command, b: seq<Action>, d: Command)
    requires Underway(before, log, a, c, b, d)
    ensures Underway(before, log, b, d, a, c)
  {
  }

  lemma {:induction false} InterleavedClaims(before: map<Command, seq<Event>>, w: World, a: seq<Action>, c: Command,
                                             b: seq<Action>, d: Command, t: seq<Action>)
    requires Underway(before, w.log, a, c, b, d) && Interleaves(a, b, t)
    ensures Underway(before, ApplyAllAtomic(w, t).log, [], c, [], d)
    decreases |t|
  {
    if t != [] {
      if a != [] && a[0] == t[0] && Interleaves(a[1..], b, t[1..]) {
        UnderwayStep(before, w, a, c, b, d);
        InterleavedClaims(before, ApplyAtomic(w, t[0]), a[1..], c, b, d, t[1..]);
      } else {
        UnderwaySwaps(before, w.log, a, c, b, d);
        UnderwayStep(before, w, b, d, a, c);
        UnderwaySwaps(before, ApplyAtomic(w, t[0]).log, b[1..], d, a, c);
        InterleavedClaims(before, ApplyAtomic(w, t[0]), a, c, b[1..], d, t[1..]);
      }
    }
  }

  /** No command of the scope is active. */
  ghost predicate NoneActive(log: map<Command, seq<Event>>, scope: Scope)
  {
    forall x :: x in log && x.scope == scope ==> !IsActive(StateOf(log[x]))
  }

  /** At the end two commands are active exactly when two were claimed. */
  lemma ActiveAtEnd(before: map<Command, seq<Event>>, log: map<Command, seq<Event>>, c: Command, d: Command)
    requires Underway(before, log, [], c, [], d) && c.scope == d.scope
    requires ProtocolSafety.OneActive(before) && NoneActive(before, c.scope)
    ensures ProtocolSafety.OneActive(log) <==> c == d
  {
    assert IsActive(StateOf(log[c])) && IsActive(StateOf(log[d]));
    if c == d {
      forall x, y | x in log && y in log && x.scope == y.scope && IsActive(StateOf(log[x])) && IsActive(StateOf(log[y]))
        ensures x == y
      {
        WasActive(before, log, c, d, x);
        WasActive(before, log, c, d, y);
      }
    }
  }

  lemma WasActive(before: map<Command, seq<Event>>, log: map<Command, seq<Event>>, c: Command, d: Command, x: Command)
    requires Grown(before, log, c, d) && x in log && IsActive(StateOf(log[x]))
    ensures x == c || x == d || (x in before && IsActive(StateOf(before[x])))
  {
  }

  // ----- two decisions on one store

  /** The one due command of the scope is the one that is claimed. */
  lemma DueAlone(log: map<Command, seq<Event>>, env: RunEnv, c: Command, x: Command)
    requires Decide(log, env).claim == Some(c)
    requires x in Considered(env, Chosen(log, env)) && env.due(x) && !IsTerminal(LoggedState(log, x))
    ensures x == c
  {
    IsDue(log, Considered(env, Chosen(log, env)), env, x);
    OneDue(log, env);
    ClaimShape(log, env);
    OnlyMember(Due(Unresolved(log, Considered(env, Chosen(log, env))), env), c, x);
  }

  lemma IsDue(log: map<Command, seq<Event>>, commands: seq<Command>, env: RunEnv, x: Command)
    requires x in commands && env.due(x) && !IsTerminal(LoggedState(log, x))
    ensures x in Due(Unresolved(log, commands), env)
  {
    UnresolvedMember(log, commands, x);
    SelectMember(Unresolved(log, commands), (c: Command) => env.due(c), x);
  }

  lemma OnlyMember(commands: seq<Command>, c: Command, x: Command)
    requires |commands| <= 1 && First(commands) == Some(c) && x in commands
    ensures x == c
  {
  }

  lemma OneDue(log: map<Command, seq<Event>>, env: RunEnv)
    requires Decide(log, env).claim.Some?
    ensures |Due(Unresolved(log, Considered(env, Chosen(log, env))), env)| <= 1
  {
  }

  lemma ClaimIsDue(log: map<Command, seq<Event>>, env: RunEnv, c: Command)
    requires Decide(log, env).claim == Some(c)
    ensures env.due(c)
  {
    ClaimShape(log, env);
    SelectMember(Unresolved(log, Considered(env, Chosen(log, env))), (c: Command) => env.due(c), c);
  }

  /** Two runs of one scope and session that are told alike which stored commands are due. */
  ghost predicate Alike(log: map<Command, seq<Event>>, a: RunEnv, b: RunEnv)
  {
    && a.config.scope == b.config.scope && a.session == b.session
    && forall x :: x in log ==> (a.due(x) <==> b.due(x))
  }

  /** A stored command that one of them claims is the one that the other claims, if any. */
  lemma StoredClaimIsShared(w: World, a: RunEnv, b: RunEnv, c: Command, d: Command)
    requires WellFormed(w.log, a) && WellFormed(w.log, b) && Alike(w.log, a, b)
    requires Decide(w.log, a).claim == Some(c) && Decide(w.log, b).claim == Some(d) && c in w.log
    ensures c == d
  {
    QueuedClaim(w.log, a, c);
    DueForBoth(w.log, a, b, c);
    StoredDueIsClaimed(w.log, b, d, c);
  }

  lemma DueForBoth(log: map<Command, seq<Event>>, a: RunEnv, b: RunEnv, c: Command)
    requires Alike(log, a, b) && c in log && a.due(c) && c.scope == a.config.scope && LoggedState(log, c) == QUEUED
    ensures b.due(c) && c.scope == b.config.scope && !IsTerminal(LoggedState(log, c))
  {
  }

  lemma StoredDueIsClaimed(log: map<Command, seq<Event>>, env: RunEnv, d: Command, c: Command)
    requires Lists(env.listing, log) && Decide(log, env).claim == Some(d)
    requires c in log && c.scope == env.config.scope && env.due(c) && !IsTerminal(LoggedState(log, c))
    ensures c == d
  {
    ConsideredMember(log, env, c);
    DueAlone(log, env, d, c);
  }

  lemma QueuedClaim(log: map<Command, seq<Event>>, env: RunEnv, c: Command)
    requires WellFormed(log, env) && Decide(log, env).claim == Some(c)
    ensures LoggedState(log, c) == QUEUED && env.due(c) && c.scope == env.config.scope
  {
    ClaimIsAlone(log, env);
    ClaimIsDue(log, env, c);
    ClaimInScope(log, env, c);
  }

  /** What a run mints if it mints. */
  function Minted(env: RunEnv): Command
    requires env.plan.Some?
  {
    BuildLiveCommand(env.config, env.plan.value.execution, env.plan.value.allocation)
  }

  lemma MintedIsPlanned(log: map<Command, seq<Event>>, env: RunEnv)
    requires Chosen(log, env).minted.Some?
    ensures env.plan.Some? && Chosen(log, env).minted == Some(Minted(env))
  {
    MintShape(env, (e: ExecutionIntent) => IsCompletedSessionPlan(e, env.session));
    MintShape(env, (e: ExecutionIntent) => e.signalDate == env.session && e.effectiveDate > env.session);
  }

  /** No command of the scope is stored for this session. */
  ghost predicate NoneForToday(log: map<Command, seq<Event>>, scope: Scope, session: Date)
  {
    forall x :: x in log && x.scope == scope ==> x.effectiveDate != session
  }

  /** A claim of a command that is not stored: the profile is the completed-session one, nothing
      is stored for the session, and the command is the one just minted. */
  lemma NewClaim(w: World, env: RunEnv, c: Command)
    requires WellFormed(w.log, env) && Decide(w.log, env).claim == Some(c) && c !in w.log
    ensures env.config.scope.CompletedSession() && NoneForToday(w.log, env.config.scope, env.session)
    ensures env.plan.Some? && c == Minted(env)
  {
    ClaimIsAlone(w.log, env);
    ClaimIsDue(w.log, env, c);
    MintedShape(w.log, env);
    MintedIsPlanned(w.log, env);
    forall x | x in w.log && x.scope == env.config.scope ensures x.effectiveDate != env.session {
      NoneForSession(w.log, env, x);
    }
  }

  /** Two claims from one store differ exactly when both runs had to mint, and minted differently. */
  lemma ClaimsDiffer(w: World, a: RunEnv, b: RunEnv, c: Command, d: Command)
    requires WellFormed(w.log, a) && WellFormed(w.log, b) && Alike(w.log, a, b)
    requires Decide(w.log, a).claim == Some(c) && Decide(w.log, b).claim == Some(d)
    ensures c != d <==>
            && a.config.scope.CompletedSession() && NoneForToday(w.log, a.config.scope, a.session)
            && a.plan.Some? && b.plan.Some? && Minted(a) != Minted(b)
  {
    ClaimIsAlone(w.log, a);
    ClaimIsAlone(w.log, b);
    ClaimInScope(w.log, a, c);
    ClaimInScope(w.log, b, d);
    if c in w.log {
      StoredClaimIsShared(w, a, b, c, d);
    } else if d in w.log {
      StoredClaimIsShared(w, b, a, d, c);
    } else {
      NewClaim(w, a, c);
      NewClaim(w, b, d);
    }
  }

  lemma ClaimInScope(log: map<Command, seq<Event>>, env: RunEnv, c: Command)
    requires Lists(env.listing, log) && (forall x: Command :: env.due(x) ==> x.effectiveDate <= env.session)
    requires Decide(log, env).claim == Some(c)
    ensures c.scope == env.config.scope
  {
    ClaimIsAlone(log, env);
    if Chosen(log, env).minted == Some(c) {
      MintedShape(log, env);
    }
  }

  lemma QueuedIsClaimable(w: World, now: Date, c: Command)
    requires ProtocolSafety.Inv(w, now) && LoggedState(w.log, c) == QUEUED
    ensures Claimable(w.log, c)
  {
    if c in w.log {
      assert ProtocolSafety.CommandInv(c, w.log[c], w.sent[c], w.closed, now);
      QueuedLog(w.log[c], BrokerFacts.PendingOf(w.sent[c]));
    }
  }

  lemma ClaimingSteps(log: map<Command, seq<Event>>, env: RunEnv, c: Command)
    requires Decide(log, env).claim == Some(c) && (c in log || Chosen(log, env).minted == Some(c))
    ensures Claiming(DecisionTrace(Decide(log, env)), c, log) && DecisionTrace(Decide(log, env)) != []
  {
    MintedIsChosen(log, env);
  }

  /** The steps of a claiming run after its decision. */
  lemma DecisionClaims(w: World, env: RunEnv, c: Command)
    requires ProtocolSafety.Inv(w, env.session) && WellFormed(w.log, env) && Decide(w.log, env).claim == Some(c)
    ensures Claiming(DecisionTrace(Decide(w.log, env)), c, w.log) && DecisionTrace(Decide(w.log, env)) != []
    ensures Claimable(w.log, c) && NoneActive(w.log, env.config.scope) && c.scope == env.config.scope
  {
    ClaimIsAlone(w.log, env);
    ClaimInScope(w.log, env, c);
    ClaimingSteps(w.log, env, c);
    QueuedIsClaimable(w, env.session, c);
  }

  // ----- main results

  /** Overlap breaks the single-active claim in one way only. Two runs of one scope and session
      decide on the same store, and both claim. In every interleaving of what they write, with
      atomic claims, at most one command is active afterwards unless the profile is the
      completed-session one, nothing was stored for the session, and the runs minted different
      commands. Next-session runs therefore always claim the same command. */
  lemma OverlappingRunsBothClaim(w: World, a: RunEnv, b: RunEnv, c: Command, d: Command, t: seq<Action>)
    requires ProtocolSafety.Inv(w, a.session) && WellFormed(w.log, a) && WellFormed(w.log, b) && Alike(w.log, a, b)
    requires Decide(w.log, a).claim == Some(c) && Decide(w.log, b).claim == Some(d)
    requires Interleaves(DecisionTrace(Decide(w.log, a)), DecisionTrace(Decide(w.log, b)), t)
    ensures ProtocolSafety.OneActive(ApplyAllAtomic(w, t).log) <==> c == d
    ensures c != d <==>
            && a.config.scope.CompletedSession() && NoneForToday(w.log, a.config.scope, a.session)
            && a.plan.Some? && b.plan.Some? && Minted(a) != Minted(b)
    ensures IsClaimed(ApplyAllAtomic(w, t).log, c) && IsClaimed(ApplyAllAtomic(w, t).log, d)
  {
    DecisionClaims(w, a, c);
    DecisionClaims(w, b, d);
    InterleavedClaims(w.log, w, DecisionTrace(Decide(w.log, a)), c, DecisionTrace(Decide(w.log, b)), d, t);
    ActiveAtEnd(w.log, ApplyAllAtomic(w, t).log, c, d);
    ClaimsDiffer(w, a, b, c, d);
  }

  // ----- such runs exist

  /** The run can decide: its plan is for this completed session, approved, and due. */
  ghost predicate PlansToday(env: RunEnv)
  {
    && env.config.scope.CompletedSession()
    && env.plan.Some? && !env.plan.value.blocked
    && IsCompletedSessionPlan(env.plan.value.execution, env.session)
    && env.plan.value.allocation.targetMode == "value"
    && env.frozenPlan == Some(false) && env.claimWins
    && env.due(Minted(env))
  }

  /** The stored commands of the scope are finished, or wait unclaimed for a later session; none
      is for this session. */
  ghost predicate LeavesToday(log: map<Command, seq<Event>>, env: RunEnv)
  {
    forall x :: x in log && x.scope == env.config.scope ==>
      && x.effectiveDate != env.session
      && (IsTerminal(StateOf(log[x])) || (log[x] == [] && ValidBinding(x, env.config) && x.effectiveDate > env.session))
  }

  lemma {:induction false} SelectNone(commands: seq<Command>, keep: Command -> bool)
    requires forall c :: c in commands ==> !keep(c)
    ensures Select(commands, keep) == []
  {
    if commands != [] {
      SelectNone(commands[1..], keep);
    }
  }

  lemma ChoosesToMint(log: map<Command, seq<Event>>, env: RunEnv)
    requires Lists(env.listing, log) && PlansToday(env) && LeavesToday(log, env)
    ensures Chosen(log, env) == Selection(None, false, [Minted(env)], Some(Minted(env)), true, false)
  {
    var matching := Matching(env.listing, env.config.scope);
    forall x | x in matching ensures x.effectiveDate != env.session {
      MatchingMember(env.listing, env.config.scope, x);
    }
    SelectNone(matching, (c: Command) => c.effectiveDate == env.session);
  }

  lemma OpenCommands(log: map<Command, seq<Event>>, env: RunEnv)
    requires Lists(env.listing, log) && PlansToday(env) && LeavesToday(log, env)
    ensures var open := Unresolved(log, Matching(env.listing, env.config.scope));
            forall x :: x in open ==>
              x in log && log[x] == [] && ValidBinding(x, env.config) && x.effectiveDate > env.session
    ensures Minted(env) !in log
    ensures Unresolved(log, Matching(env.listing, env.config.scope) + [Minted(env)])
            == Unresolved(log, Matching(env.listing, env.config.scope)) + [Minted(env)]
  {
    var matching := Matching(env.listing, env.config.scope);
    forall x | x in Unresolved(log, matching)
      ensures x in log && log[x] == [] && ValidBinding(x, env.config) && x.effectiveDate > env.session
    {
      UnresolvedMember(log, matching, x);
      MatchingMember(env.listing, env.config.scope, x);
    }
    SelectSnoc(matching, (c: Command) => !IsTerminal(LoggedState(log, c)), Minted(env));
  }

  /** One command is due, and nothing stands in its way. */
  lemma ChoosesDue(log: map<Command, seq<Event>>, chosen: Selection, env: RunEnv, open: seq<Command>, c: Command)
    requires chosen.live.None? && !chosen.blocked && |chosen.today| <= 1
    requires open == Unresolved(log, Considered(env, chosen)) && Due(open, env) == [c]
             && Prior(log, open, env.session) == []
    ensures Choose(log, chosen, env) == Choice(Some(c), false)
  {
  }

  lemma OnlyMintedIsDue(log: map<Command, seq<Event>>, env: RunEnv, waiting: seq<Command>, c: Command)
    requires forall x :: x in waiting ==> x in log && log[x] == [] && x.effectiveDate > env.session
    requires forall x: Command :: env.due(x) ==> x.effectiveDate <= env.session
    requires env.due(c) && LoggedState(log, c) == QUEUED && c.effectiveDate == env.session
    ensures Due(waiting + [c], env) == [c] && Prior(log, waiting + [c], env.session) == []
  {
    SelectNone(waiting, (x: Command) => env.due(x));
    SelectSnoc(waiting, (x: Command) => env.due(x), c);
    SelectNone(waiting, (x: Command) => LoggedState(log, x) != QUEUED || x.effectiveDate < env.session);
    SelectSnoc(waiting, (x: Command) => LoggedState(log, x) != QUEUED || x.effectiveDate < env.session, c);
  }

  lemma SettlesOnClaim(minted: Option<Command>, c: Command, env: RunEnv)
    requires ValidBinding(c, env.config) && env.frozenPlan == Some(false) && env.claimWins
    ensures Settle(minted, Choice(Some(c), false), true, env) == Decision(minted, Some(c), false, false)
  {
  }

  lemma DecidesToClaim(log: map<Command, seq<Event>>, env: RunEnv)
    requires Lists(env.listing, log) && PlansToday(env) && LeavesToday(log, env)
    requires forall x: Command :: env.due(x) ==> x.effectiveDate <= env.session
    ensures Decide(log, env) == Decision(Some(Minted(env)), Some(Minted(env)), false, false)
  {
    var c := Minted(env);
    var waiting := Unresolved(log, Matching(env.listing, env.config.scope));
    ChoosesToMint(log, env);
    OpenCommands(log, env);
    OnlyMintedIsDue(log, env, waiting, c);
    ChoosesDue(log, Chosen(log, env), env, waiting + [c], c);
    SettlesOnClaim(Some(c), c, env);
  }

  lemma {:induction false} NothingToReconcile(log: map<Command, seq<Event>>, commands: seq<Command>, env: RunEnv)
    requires forall c :: c in commands ==> c in log ==> log[c] == []
    ensures ReconcileAll(log, commands, env) == []
  {
    if commands != [] {
      NothingToReconcile(log, commands[1..], env);
    }
  }

  /** From such a store a run reconciles nothing; it mints and claims first. */
  lemma MintsAndClaimsFirst(w: World, env: RunEnv)
    requires Lists(env.listing, w.log) && PlansToday(env) && LeavesToday(w.log, env)
    requires forall x: Command :: env.due(x) ==> x.effectiveDate <= env.session
    ensures [Enqueue(Minted(env)), Claim(Minted(env))] <= RunTrace(w, env)
  {
    OpenCommands(w.log, env);
    NothingToReconcile(w.log, Unresolved(w.log, Matching(env.listing, env.config.scope)), env);
    DecidesToClaim(w.log, env);
    assert Settled(w, env) == w;
  }

  /** Whole runs: two of them overlap from any such store. Their first steps, in any
      interleaving with atomic claims, leave at most one command active if and only if both
      minted the same command. */
  lemma OverlappingMints(w: World, a: RunEnv, b: RunEnv, t: seq<Action>)
    requires ProtocolSafety.OneActive(w.log) && a.config.scope == b.config.scope
    requires Lists(a.listing, w.log) && PlansToday(a) && LeavesToday(w.log, a)
    requires Lists(b.listing, w.log) && PlansToday(b) && LeavesToday(w.log, b)
    requires forall x: Command :: a.due(x) ==> x.effectiveDate <= a.session
    requires forall x: Command :: b.due(x) ==> x.effectiveDate <= b.session
    requires Interleaves([Enqueue(Minted(a)), Claim(Minted(a))], [Enqueue(Minted(b)), Claim(Minted(b))], t)
    ensures [Enqueue(Minted(a)), Claim(Minted(a))] <= RunTrace(w, a)
    ensures [Enqueue(Minted(b)), Claim(Minted(b))] <= RunTrace(w, b)
    ensures ProtocolSafety.OneActive(ApplyAllAtomic(w, t).log) <==> Minted(a) == Minted(b)
  {
    var c, d := Minted(a), Minted(b);
    MintsAndClaimsFirst(w, a);
    MintsAndClaimsFirst(w, b);
    OpenCommands(w.log, a);
    OpenCommands(w.log, b);
    InterleavedClaims(w.log, w, [Enqueue(c), Claim(c)], c, [Enqueue(d), Claim(d)], d, t);
    ActiveAtEnd(w.log, ApplyAllAtomic(w, t).log, c, d);
  }
}
