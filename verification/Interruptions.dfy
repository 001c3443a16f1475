/** Interrupted runs: what a lost outcome blocks for ever, and what a cancelled command opens. */
module Interruptions {
  import BrokerFacts
  import opened LiveCommands
  import opened LiveProtocol
  import ProtocolSafety
  import ProtocolRuns
  import Histories

  // ----- a claimed command whose outcome is lost

  /** Reconciliation can never move this command: its run died after the claim, or one of its
      orders has no broker id. */
  ghost predicate Stuck(events: seq<Event>)
  {
    && IsActive(StateOf(events))
    && (StateOf(events) == CLAIMED || !Traceable(OrdersOf(events)))
  }

  /** A step that leaves the command alone and claims or sends nothing for its scope. */
  ghost predicate Spares(a: Action, c: Command)
  {
    match a
    case Observe(_, _) => true
    case Enqueue(_) => true
    case Append(d, _) => d != c
    case Claim(d) => d.scope != c.scope
    case Send(sender, _) => sender.Some? && sender.value.scope != c.scope
  }

  function SentFor(w: World, d: Command): seq<BrokerFacts.Call>
  {
    if d in w.sent then w.sent[d] else []
  }

  lemma {:induction false} SparedStays(w: World, actions: seq<Action>, c: Command)
    requires w.sent.Keys == w.log.Keys
    requires c in w.log && forall a :: a in actions ==> Spares(a, c)
    ensures var w' := ApplyAll(w, actions);
            && c in w'.log && w'.log[c] == w.log[c]
            && forall d: Command :: d.scope == c.scope ==> SentFor(w', d) == SentFor(w, d)
    decreases |actions|
  {
    if actions != [] {
      assert actions[0] in actions;
      var w1 := Apply(w, actions[0]);
      forall a | a in actions[1..] ensures a in actions {}
      SparedStays(w1, actions[1..], c);
      forall d: Command | d.scope == c.scope ensures SentFor(w1, d) == SentFor(w, d) {}
    }
  }

  lemma ReconciliationSpares(w: World, env: RunEnv, c: Command, a: Action)
    requires c in w.log && Stuck(w.log[c])
    requires a in Reconciliation(w, env)
    ensures Spares(a, c)
  {
    Histories.ReconcileSteps(w.log, Unresolved(w.log, Matching(env.listing, env.config.scope)), env, a);
  }

  /** A stuck command blocks every run of its scope. */
  lemma StuckBlocks(log: map<Command, seq<Event>>, env: RunEnv, c: Command)
    requires ProtocolRuns.Lists(env.listing, log) && c in log && c.scope == env.config.scope
             && IsActive(StateOf(log[c]))
    ensures Decide(log, env).claim.None?
    ensures Decide(log, env).raises || Decide(log, env).blocked
  {
    var chosen := Chosen(log, env);
    var matching := Considered(env, chosen);
    ProtocolRuns.ConsideredMember(log, env, c);
    ProtocolRuns.UnresolvedMember(log, matching, c);
    ProtocolRuns.SelectMember(Unresolved(log, matching),
                 (c: Command) => LoggedState(log, c) != QUEUED || c.effectiveDate < env.session, c);
    assert Prior(log, Unresolved(log, matching), env.session) != [];
  }

  lemma OwnScopeSpares(log: map<Command, seq<Event>>, env: RunEnv, c: Command, a: Action)
    requires ProtocolRuns.Lists(env.listing, log) && c in log && c.scope == env.config.scope
             && IsActive(StateOf(log[c]))
    requires a in Continuation(log, env)
    ensures Spares(a, c)
  {
    var d := Decide(log, env);
    StuckBlocks(log, env, c);
    assert TailOf(d, env) == [];
    assert ClaimTrace(d) == [];
  }

  lemma OtherScopeSpares(w: World, env: RunEnv, c: Command, a: Action)
    requires ProtocolSafety.Inv(w, env.session) && ProtocolRuns.WellFormed(w.log, env) && c.scope != env.config.scope
    requires a in Continuation(w.log, env)
    ensures Spares(a, c)
  {
    var d := Decide(w.log, env);
    ProtocolRuns.SendsUnclaimedIffGap(w.log, env);
    ProtocolRuns.GapIsUnreachable(w, env);
    if d.claim.Some? {
      ProtocolRuns.ClaimedIsStored(w, env);
    }
    if !d.raises && a in Tail(d, env) {
      TailSpares(d, env, c, a);
    }
  }

  lemma TailSpares(d: Decision, env: RunEnv, c: Command, a: Action)
    requires RouteOf(d, env).Execute? ==> d.claim.Some?
    requires d.claim.Some? ==> d.claim.value.scope != c.scope
    requires a in Tail(d, env)
    ensures Spares(a, c)
  {
  }

  lemma RunSparesStuck(w: World, env: RunEnv, c: Command)
    requires ProtocolSafety.Inv(w, env.session) && ProtocolRuns.WellFormed(w.log, env)
    requires c in w.log && Stuck(w.log[c])
    ensures forall a :: a in RunTrace(w, env) ==> Spares(a, c)
  {
    forall a | a in RunTrace(w, env) ensures Spares(a, c) {
      var recon := Reconciliation(w, env);
      forall b | b in recon ensures Spares(b, c) {
        ReconciliationSpares(w, env, c, b);
      }
      SparedStays(w, recon, c);
      ProtocolRuns.ReconciliationLegal(w, env);
      if a in Continuation(Settled(w, env).log, env) {
        if c.scope == env.config.scope {
          OwnScopeSpares(Settled(w, env).log, env, c, a);
        } else {
          OtherScopeSpares(Settled(w, env), env, c, a);
        }
      }
    }
  }

  /** Once a run died after claiming, or left an order without a broker id, no later run of any
      history moves that command or sends another order for its scope. */
  lemma {:induction false} StuckForEver(w: World, now: Date, h: seq<Histories.Episode>, c: Command)
    requires ProtocolSafety.Inv(w, now) && Histories.ValidHistory(w, now, h)
    requires c in w.log && Stuck(w.log[c])
    ensures var w' := Histories.Reach(w, h);
            && c in w'.log && w'.log[c] == w.log[c]
            && forall d: Command :: d.scope == c.scope ==> SentFor(w', d) == SentFor(w, d)
    decreases |h|
  {
    if h != [] {
      var e := h[0];
      Histories.InvLater(w, now, e.env.session);
      RunSparesStuck(w, e.env, c);
      forall a | a in Histories.Prefix(RunTrace(w, e.env), e.steps) ensures Spares(a, c) {
        assert a in RunTrace(w, e.env);
      }
      SparedStays(w, Histories.Prefix(RunTrace(w, e.env), e.steps), c);
      Histories.EpisodeKeepsInv(w, now, e);
      StuckForEver(Histories.After(w, e), e.env.session, h[1..], c);
    }
  }

  /** An account identity that blocks broker writes is checked after the claim: a run that is
      blocked by it leaves its claimed command stuck, without an outcome. */
  lemma IdentityBlockStrandsClaim(w: World, env: RunEnv)
    requires ProtocolSafety.Inv(w, env.session) && ProtocolRuns.WellFormed(w.log, env)
    requires env.identityBlocked && Decide(w.log, env).claim.Some?
    ensures Continuation(w.log, env) == DecisionTrace(Decide(w.log, env))
    ensures var w' := ApplyAll(w, Continuation(w.log, env));
            var c := Decide(w.log, env).claim.value;
            c in w'.log && Stuck(w'.log[c])
  {
    var d := Decide(w.log, env);
    IdentityBlocksTail(d, env);
    ClaimedAfterDecision(w, env);
    ClaimedIsStuck();
  }

  lemma ClaimedIsStuck()
    ensures Stuck([Event(CLAIMED, [])])
  {
  }

  lemma ClaimedAfterDecision(w: World, env: RunEnv)
    requires ProtocolSafety.Inv(w, env.session) && ProtocolRuns.WellFormed(w.log, env) && Decide(w.log, env).claim.Some?
    ensures var w' := ApplyAll(w, DecisionTrace(Decide(w.log, env)));
            var c := Decide(w.log, env).claim.value;
            c in w'.log && w'.log[c] == [Event(CLAIMED, [])]
  {
    ProtocolRuns.DecisionLegal(w, env);
  }

  lemma IdentityBlocksTail(d: Decision, env: RunEnv)
    requires env.identityBlocked
    ensures TailOf(d, env) == []
    ensures DecisionTrace(d) + TailOf(d, env) == DecisionTrace(d)
  {
  }

  // ----- a world no history reaches

  /** The gap to the broker without a claim is real in a store that no run leaves behind. Nothing
      in the repository cancels a queued command; if somebody with access to the store, such as an
      operator, cancels one in its signal session, the next run sends a fresh decision that takes
      effect the same day, without a claim. */
  lemma OperatorCancelOpensGap(c: Command, env: RunEnv)
    requires !c.scope.CompletedSession() && env.config.scope == c.scope
    requires c.signalDate == env.session < c.effectiveDate
    requires env.listing == [c]
    requires env.plan.Some?
    requires env.plan.value.execution.signalDate == env.plan.value.execution.effectiveDate == env.session
    requires env.session != NO_DATE && !env.identityBlocked && env.marker == Absent && env.priorReport == Absent
    ensures ProtocolRuns.Lists(env.listing, map[c := [Event(CANCELLED, [])]])
    ensures ProtocolRuns.SendsUnclaimed(map[c := [Event(CANCELLED, [])]], env)
  {
    var log := map[c := [Event(CANCELLED, [])]];
    assert Matching([c], c.scope) == [c] by {
      assert [c][1..] == [];
    }
    SelectOne(c, (c: Command) => c.signalDate == env.session);
    ProtocolRuns.SendsUnclaimedIffGap(log, env);
  }

  lemma SelectOne(c: Command, keep: Command -> bool)
    ensures Select([c], keep) == if keep(c) then [c] else []
  {
    assert [c][1..] == [];
    assert Select([], keep) == [];
  }
}
