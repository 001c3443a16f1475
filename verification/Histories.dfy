/** Histories of live runs that do not overlap. Each run may crash between any two of its
    steps; session dates never go back. */
module Histories {
  import opened Wrappers

  import BrokerFacts
  import opened LiveCommands
  import opened LiveProtocol
  import ProtocolSafety
  import ProtocolRuns

  /** A run and the number of steps it takes before it crashes (or finishes). */
  datatype Episode = Episode(env: RunEnv, steps: nat)

  function Prefix(actions: seq<Action>, steps: nat): seq<Action>
  {
    if steps < |actions| then actions[..steps] else actions
  }

  function After(w: World, e: Episode): World
  {
    ApplyAll(w, Prefix(RunTrace(w, e.env), e.steps))
  }

  function Reach(w: World, h: seq<Episode>): World
    decreases |h|
  {
    if h == [] then w else Reach(After(w, h[0]), h[1..])
  }

  function LastSession(now: Date, h: seq<Episode>): Date
  {
    if h == [] then now else h[|h| - 1].env.session
  }

  ghost predicate ValidHistory(w: World, now: Date, h: seq<Episode>)
    decreases |h|
  {
    h == [] ||
    (&& now <= h[0].env.session
     && ProtocolRuns.WellFormed(w.log, h[0].env)
     && ValidHistory(After(w, h[0]), h[0].env.session, h[1..]))
  }

  lemma InvLater(w: World, now: Date, later: Date)
    requires ProtocolSafety.Inv(w, now) && now <= later
    ensures ProtocolSafety.Inv(w, later)
  {
    forall c | c in w.log ensures ProtocolSafety.CommandInv(c, w.log[c], w.sent[c], w.closed, later) {
      assert ProtocolSafety.CommandInv(c, w.log[c], w.sent[c], w.closed, now);
    }
  }

  lemma PrefixLegal(w: World, session: Date, actions: seq<Action>, steps: nat)
    requires ProtocolSafety.AllLegal(w, session, actions)
    ensures ProtocolSafety.AllLegal(w, session, Prefix(actions, steps))
  {
    if steps < |actions| {
      assert actions == actions[..steps] + actions[steps..];
      ProtocolSafety.AllLegalConcat(w, session, actions[..steps], actions[steps..]);
    }
  }

  lemma EpisodeKeepsInv(w: World, now: Date, e: Episode)
    requires ProtocolSafety.Inv(w, now) && now <= e.env.session && ProtocolRuns.WellFormed(w.log, e.env)
    ensures ProtocolSafety.Inv(After(w, e), e.env.session)
  {
    InvLater(w, now, e.env.session);
    ProtocolRuns.RunIsLegal(w, e.env);
    PrefixLegal(w, e.env.session, RunTrace(w, e.env), e.steps);
    ProtocolSafety.LegalRunKeepsInv(w, e.env.session, Prefix(RunTrace(w, e.env), e.steps));
  }

  lemma LastSessionLater(now: Date, h: seq<Episode>)
    requires h != []
    ensures LastSession(h[0].env.session, h[1..]) == LastSession(now, h)
  {
  }

  lemma {:induction false} HistoryKeepsInv(w: World, now: Date, h: seq<Episode>)
    requires ProtocolSafety.Inv(w, now) && ValidHistory(w, now, h)
    ensures ProtocolSafety.Inv(Reach(w, h), LastSession(now, h))
    decreases |h|
  {
    if h != [] {
      EpisodeKeepsInv(w, now, h[0]);
      LastSessionLater(now, h);
      HistoryKeepsInv(After(w, h[0]), h[0].env.session, h[1..]);
    }
  }

  lemma EmptyInv()
    ensures ProtocolSafety.Inv(EMPTY_WORLD, NO_DATE)
  {
  }

  /** All histories of complete or crashed runs, from the empty store. */
  lemma ReachableInv(h: seq<Episode>)
    requires ValidHistory(EMPTY_WORLD, NO_DATE, h)
    ensures ProtocolSafety.Inv(Reach(EMPTY_WORLD, h), LastSession(NO_DATE, h))
  {
    EmptyInv();
    HistoryKeepsInv(EMPTY_WORLD, NO_DATE, h);
  }

  // ----- which steps a run takes

  /** A reconciliation only reads statuses, and appends to commands it can reconcile. */
  ghost predicate ReconcilingStep(log: map<Command, seq<Event>>, commands: seq<Command>, a: Action)
  {
    || a.Observe?
    || (&& a.Append? && a.command in commands && a.command in log
        && IsReconcilable(StateOf(log[a.command])) && Traceable(OrdersOf(log[a.command])))
  }

  lemma {:induction false} ReconcileSteps(log: map<Command, seq<Event>>, commands: seq<Command>, env: RunEnv, a: Action)
    requires a in ReconcileAll(log, commands, env)
    ensures ReconcilingStep(log, commands, a)
  {
    if a in ReconcileAll(log, commands[1..], env) {
      ReconcileSteps(log, commands[1..], env, a);
    }
  }

  lemma TailSends(d: Decision, env: RunEnv, i: nat)
    requires i < |Tail(d, env)| && Tail(d, env)[i].Send?
    ensures RouteOf(d, env).Execute? && Tail(d, env)[i].sender == d.claim
  {
  }

  lemma ContinuationSends(log: map<Command, seq<Event>>, env: RunEnv, i: nat)
    requires i < |Continuation(log, env)| && Continuation(log, env)[i].Send?
    ensures var d := Decide(log, env);
            && Continuation(log, env)[i].sender == d.claim
            && !d.raises && RouteOf(d, env).Execute?
            && (d.claim.Some? ==> |MintTrace(d)| < i && Continuation(log, env)[|MintTrace(d)|] == Claim(d.claim.value))
  {
    var d := Decide(log, env);
    var front := DecisionTrace(d);
    assert forall a :: a in front ==> !a.Send?;
    if |front| <= i {
      TailSends(d, env, i - |front|);
    }
  }

  /** The place of the claim among the steps of a run that claims. */
  function ClaimIndex(w: World, env: RunEnv): nat
  {
    |Reconciliation(w, env)| + |MintTrace(Decide(Settled(w, env).log, env))|
  }

  lemma ReconciliationSendsNothing(w: World, env: RunEnv, i: nat)
    requires i < |Reconciliation(w, env)|
    ensures !Reconciliation(w, env)[i].Send?
  {
    ReconcileSteps(w.log, Unresolved(w.log, Matching(env.listing, env.config.scope)), env, Reconciliation(w, env)[i]);
  }

  lemma ConcatAt(a: seq<Action>, b: seq<Action>, k: nat)
    requires k < |a + b|
    ensures (a + b)[k] == (if k < |a| then a[k] else b[k - |a|])
  {
  }

  lemma TraceIsConcat(w: World, env: RunEnv)
    requires RunTrace(w, env) != []
    ensures RunTrace(w, env) == Reconciliation(w, env) + Continuation(Settled(w, env).log, env)
  {
  }

  /** The steps of a run that gets past its first check: reconciliation, and then the rest. */
  lemma TraceParts(w: World, env: RunEnv, k: nat)
    requires k < |RunTrace(w, env)|
    ensures var recon, rest := Reconciliation(w, env), Continuation(Settled(w, env).log, env);
            && |RunTrace(w, env)| == |recon| + |rest|
            && RunTrace(w, env)[k] == (if k < |recon| then recon[k] else rest[k - |recon|])
  {
    TraceIsConcat(w, env);
    ConcatAt(Reconciliation(w, env), Continuation(Settled(w, env).log, env), k);
  }

  /** Where a run hands orders to the broker: only after its own claim, and for that claim. */
  lemma SendFollowsClaim(w: World, env: RunEnv, k: nat)
    requires k < |RunTrace(w, env)| && RunTrace(w, env)[k].Send?
    ensures var d := Decide(Settled(w, env).log, env);
            && RunTrace(w, env)[k].sender == d.claim
            && !d.raises && RouteOf(d, env).Execute?
            && (d.claim.Some? ==>
                  ClaimIndex(w, env) < k && RunTrace(w, env)[ClaimIndex(w, env)] == Claim(d.claim.value))
  {
    var recon := |Reconciliation(w, env)|;
    TraceParts(w, env, k);
    if k < recon {
      ReconciliationSendsNothing(w, env, k);
    } else {
      ContinuationSends(Settled(w, env).log, env, k - recon);
      if ClaimIndex(w, env) < k {
        TraceParts(w, env, ClaimIndex(w, env));
      }
    }
  }

  // ----- main results

  /** After every history: at most one command of a scope is claimed and unfinished; no
      command was claimed twice, or before its session came; every later event repeats the
      orders the broker really got; no call was made without a claim; and all calls of a
      finished command are closed. */
  lemma HistorySafety(h: seq<Episode>, c: Command)
    requires ValidHistory(EMPTY_WORLD, NO_DATE, h)
    requires c in Reach(EMPTY_WORLD, h).log
    ensures var w := Reach(EMPTY_WORLD, h);
            var events := w.log[c];
            && c in w.sent
            && (forall d :: d in w.log && d.scope == c.scope && IsActive(StateOf(w.log[d])) && IsActive(StateOf(events))
                  ==> d == c)
            && (forall i :: 0 <= i < |events| ==> (events[i].state == CLAIMED <==> i == 0))
            && (events != [] ==> c.effectiveDate <= LastSession(NO_DATE, h))
            && (forall i :: 1 <= i < |events| ==> events[i].orders == BrokerFacts.PendingOf(w.sent[c]))
            && w.unclaimed == []
            && (events == [] ==> w.sent[c] == [])
            && (IsTerminal(StateOf(events)) ==> ProtocolSafety.AllClosed(w.sent[c], w.closed))
  {
    ReachableInv(h);
    var w := Reach(EMPTY_WORLD, h);
    assert ProtocolSafety.CommandInv(c, w.log[c], w.sent[c], w.closed, LastSession(NO_DATE, h));
  }

  /** One command per session: the completed-session profile has one per effective date,
      every other profile one per signal date. */
  lemma OneCommandPerSession(h: seq<Episode>, c: Command, d: Command)
    requires ValidHistory(EMPTY_WORLD, NO_DATE, h)
    requires c in Reach(EMPTY_WORLD, h).log && d in Reach(EMPTY_WORLD, h).log && c.scope == d.scope
    requires if c.scope.CompletedSession() then c.effectiveDate == d.effectiveDate else c.signalDate == d.signalDate
    ensures c == d
  {
    ReachableInv(h);
    assert ProtocolSafety.SameSession(c, d);
  }

  /** The step a run is about to take. */
  predicate IsStep(w: World, e: Episode, k: nat, a: Action)
  {
    var t := Prefix(RunTrace(w, e.env), e.steps);
    k < |t| && t[k] == a
  }

  function Before(w: World, e: Episode, k: nat): World
  {
    ApplyAll(w, Prefix(Prefix(RunTrace(w, e.env), e.steps), k))
  }

  /** In a run of legal steps, each step is legal in the world it is taken in. */
  lemma StepInTrace(w: World, session: Date, t: seq<Action>, k: nat)
    requires ProtocolSafety.Inv(w, session) && ProtocolSafety.AllLegal(w, session, t) && k < |t|
    ensures ProtocolSafety.Inv(ApplyAll(w, t[..k]), session) && ProtocolSafety.Legal(ApplyAll(w, t[..k]), session, t[k])
  {
    assert t == t[..k] + t[k..];
    ProtocolSafety.AllLegalConcat(w, session, t[..k], t[k..]);
    ProtocolSafety.LegalRunKeepsInv(w, session, t[..k]);
    assert t[k..][0] == t[k];
  }

  lemma RunPrefixLegal(w: World, now: Date, e: Episode)
    requires ProtocolSafety.Inv(w, now) && now <= e.env.session && ProtocolRuns.WellFormed(w.log, e.env)
    ensures ProtocolSafety.Inv(w, e.env.session)
    ensures ProtocolSafety.AllLegal(w, e.env.session, Prefix(RunTrace(w, e.env), e.steps))
  {
    InvLater(w, now, e.env.session);
    ProtocolRuns.RunIsLegal(w, e.env);
    PrefixLegal(w, e.env.session, RunTrace(w, e.env), e.steps);
  }

  lemma StepIsLegal(w: World, now: Date, e: Episode, k: nat, a: Action)
    requires ProtocolSafety.Inv(w, now) && now <= e.env.session && ProtocolRuns.WellFormed(w.log, e.env)
    requires IsStep(w, e, k, a)
    ensures ProtocolSafety.Inv(Before(w, e, k), e.env.session)
            && ProtocolSafety.Legal(Before(w, e, k), e.env.session, a)
  {
    RunPrefixLegal(w, now, e);
    StepInTrace(w, e.env.session, Prefix(RunTrace(w, e.env), e.steps), k);
  }

  /** Whenever a command is claimed, in any run of any history: it was queued, its effective
      date is the session of the run, and every order that any command of the scope ever sent
      is already known to be closed at the broker. */
  lemma ClaimOnlyAfterAllClosed(h: seq<Episode>, e: Episode, k: nat, c: Command, d: Command, i: nat)
    requires ValidHistory(EMPTY_WORLD, NO_DATE, h)
    requires LastSession(NO_DATE, h) <= e.env.session && ProtocolRuns.WellFormed(Reach(EMPTY_WORLD, h).log, e.env)
    requires IsStep(Reach(EMPTY_WORLD, h), e, k, Claim(c))
    ensures var v := Before(Reach(EMPTY_WORLD, h), e, k);
            && c in v.log && v.log[c] == []
            && c.effectiveDate == e.env.session
            && (d in v.sent && d.scope == c.scope && i < |v.sent[d]| ==>
                  ProtocolSafety.CallClosed(v.sent[d][i], v.closed))
  {
    ReachableInv(h);
    var w := Reach(EMPTY_WORLD, h);
    StepIsLegal(w, LastSession(NO_DATE, h), e, k, Claim(c));
    var v := Before(w, e, k);
    if d in v.sent && d.scope == c.scope && i < |v.sent[d]| {
      assert ProtocolSafety.CommandInv(d, v.log[d], v.sent[d], v.closed, e.env.session);
      assert !IsActive(StateOf(v.log[d]));
      if v.log[d] != [] {
        NotQueued(v.log[d], BrokerFacts.PendingOf(v.sent[d]));
      }
    }
  }

  lemma TailClaimsNothing(d: Decision, env: RunEnv, a: Action)
    requires a in TailOf(d, env)
    ensures !a.Claim?
  {
  }

  lemma ContinuationClaims(log: map<Command, seq<Event>>, env: RunEnv, a: Action)
    requires a in Continuation(log, env) && a.Claim?
    ensures Decide(log, env).claim == Some(a.command)
  {
    var d := Decide(log, env);
    if a in TailOf(d, env) {
      TailClaimsNothing(d, env, a);
    }
  }

  lemma ReconciliationClaimsNothing(w: World, env: RunEnv, i: nat)
    requires i < |Reconciliation(w, env)|
    ensures !Reconciliation(w, env)[i].Claim?
  {
    ReconcileSteps(w.log, Unresolved(w.log, Matching(env.listing, env.config.scope)), env, Reconciliation(w, env)[i]);
  }

  lemma ClaimInTrace(w: World, env: RunEnv, k: nat, c: Command)
    requires k < |RunTrace(w, env)| && RunTrace(w, env)[k] == Claim(c)
    ensures Decide(Settled(w, env).log, env).claim == Some(c)
  {
    TraceParts(w, env, k);
    if k < |Reconciliation(w, env)| {
      ReconciliationClaimsNothing(w, env, k);
    } else {
      ContinuationClaims(Settled(w, env).log, env, Claim(c));
    }
  }

  /** A run claims only a command bound to its own configuration: same account and runtime, the
      expected release if one is expected, dates and timing as frozen in the command; and while
      any unresolved command of its scope is not so bound, it takes no step at all. */
  lemma ClaimIsBound(w: World, e: Episode, k: nat, c: Command)
    requires IsStep(w, e, k, Claim(c))
    ensures ValidBinding(c, e.env.config)
    ensures forall x :: x in Unresolved(w.log, Matching(e.env.listing, e.env.config.scope)) ==>
            ValidBinding(x, e.env.config)
  {
    PrefixAt(RunTrace(w, e.env), e.steps, k);
    ClaimInTrace(w, e.env, k, c);
    ProtocolRuns.ClaimShape(Settled(w, e.env).log, e.env);
  }

  lemma NotQueued(events: seq<Event>, orders: seq<BrokerFacts.Order>)
    requires ProtocolSafety.WellLogged(events, orders) && events != []
    ensures StateOf(events) != QUEUED
  {
  }

  lemma ClaimBeforeSend(w: World, e: Episode, k: nat, sender: Option<Command>, call: BrokerFacts.Call)
    requires IsStep(w, e, k, Send(sender, call)) && sender.Some?
    ensures ClaimIndex(w, e.env) < k && IsStep(w, e, ClaimIndex(w, e.env), Claim(sender.value))
  {
    var trace := RunTrace(w, e.env);
    PrefixAt(trace, e.steps, k);
    SendFollowsClaim(w, e.env, k);
    PrefixAt(trace, e.steps, ClaimIndex(w, e.env));
  }

  lemma PrefixAt(actions: seq<Action>, steps: nat, k: nat)
    ensures k < |Prefix(actions, steps)| <==> k < |actions| && k < steps
    ensures k < |Prefix(actions, steps)| ==> Prefix(actions, steps)[k] == actions[k]
  {
  }

  lemma SendInRun(w: World, now: Date, e: Episode, k: nat, sender: Option<Command>, call: BrokerFacts.Call)
    requires ProtocolSafety.Inv(w, now) && now <= e.env.session && ProtocolRuns.WellFormed(w.log, e.env)
    requires IsStep(w, e, k, Send(sender, call))
    ensures sender.Some?
    ensures sender.value in Before(w, e, k).log && Before(w, e, k).log[sender.value] == [Event(CLAIMED, [])]
  {
    StepIsLegal(w, now, e, k, Send(sender, call));
    ClaimIsLast(Before(w, e, k), e.env.session, sender.value);
  }

  /** Every order handed to the broker belongs to a command that was claimed earlier in this
      very run and has no recorded outcome yet. */
  lemma SendOnlyWhileClaimed(h: seq<Episode>, e: Episode, k: nat, sender: Option<Command>, call: BrokerFacts.Call)
    requires ValidHistory(EMPTY_WORLD, NO_DATE, h)
    requires LastSession(NO_DATE, h) <= e.env.session && ProtocolRuns.WellFormed(Reach(EMPTY_WORLD, h).log, e.env)
    requires IsStep(Reach(EMPTY_WORLD, h), e, k, Send(sender, call))
    ensures sender.Some?
    ensures var v := Before(Reach(EMPTY_WORLD, h), e, k);
            sender.value in v.log && v.log[sender.value] == [Event(CLAIMED, [])]
    ensures var w := Reach(EMPTY_WORLD, h);
            ClaimIndex(w, e.env) < k && IsStep(w, e, ClaimIndex(w, e.env), Claim(sender.value))
  {
    ReachableInv(h);
    SendInRun(Reach(EMPTY_WORLD, h), LastSession(NO_DATE, h), e, k, sender, call);
    ClaimBeforeSend(Reach(EMPTY_WORLD, h), e, k, sender, call);
  }

  lemma ClaimIsLast(w: World, now: Date, c: Command)
    requires ProtocolSafety.Inv(w, now) && c in w.log && StateOf(w.log[c]) == CLAIMED
    ensures w.log[c] == [Event(CLAIMED, [])]
  {
    assert ProtocolSafety.CommandInv(c, w.log[c], w.sent[c], w.closed, now);
    ProtocolSafety.ClaimedLog(w.log[c], BrokerFacts.PendingOf(w.sent[c]));
  }
}
