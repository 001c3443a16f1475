/** The live command protocol over real rebalance cycles: what a run records of its cycle, and
    the histories in which every cycle is one of `RebalanceCycle`. */
module LiveCycle {
  import opened Wrappers

  import opened BrokerFacts
  import opened LiveCommands
  import opened LiveProtocol
  import ProtocolSafety
  import ProtocolRuns
  import opened Histories
  import Interruptions
  import R = RebalanceCycle
  import CycleFacts

  /** What the recorder reads of a cycle. */
  function ReportOf(c: R.Cycle, noExecute: bool): CycleReport
  {
    CycleReport(c.book.pending, c.actionDone, noExecute)
  }

  /** The inputs of one live rebalance cycle. */
  datatype Inputs = Inputs(blocked: bool, p: R.Params, v: R.PlanView, gate: Option<R.Gate>, m: R.Outside)
  {
    ghost predicate Live() { !p.dryRun && v.Covers() && R.RefreshesCover(m) }

    ghost function Result(): R.Cycle
      requires Live()
    {
      R.Execute(blocked, p, v, gate, m)
    }
  }

  /** The executor keeps the contract that the protocol relies on. */
  lemma CycleIsFaithful(x: Inputs, noExecute: bool)
    requires x.Live()
    ensures ProtocolRuns.FaithfulReport(x.Result().book.calls, ReportOf(x.Result(), noExecute))
  {
    CycleFacts.CycleReportsFacts(x.blocked, x.p, x.v, x.gate, x.m);
  }

  /** What a claimed command becomes after its cycle: filled exactly when some call was not
      rejected and every such call was reported filled; ended without a fill exactly when every
      call was rejected. */
  lemma RecordedAsTheCallsWent(x: Inputs, noExecute: bool)
    requires x.Live()
    ensures var calls := x.Result().book.calls; var states := OutcomeStates(ReportOf(x.Result(), noExecute));
            var rejected := (forall i :: 0 <= i < |calls| ==> calls[i].IsRejected());
            && (CANCELLED in states || REJECTED in states <==> rejected)
            && (FILLED in states <==>
                  && !rejected
                  && forall i :: 0 <= i < |calls| && !calls[i].IsRejected() ==> StatusOf(calls[i].reply) == Filled)
  {
    var c := x.Result();
    var calls := c.book.calls;
    CycleIsFaithful(x, noExecute);
    OutcomeEndsCommand(ReportOf(c, noExecute));
    NothingPending(calls);
    if forall o :: o in c.book.pending ==> o.submission == Filled {
      forall i | 0 <= i < |calls| && !calls[i].IsRejected() ensures StatusOf(calls[i].reply) == Filled {
        PendingOfMembers(calls, OrderOf(calls[i]));
      }
    }
    forall o | o in c.book.pending
      ensures exists i :: 0 <= i < |calls| && !calls[i].IsRejected() && o == OrderOf(calls[i])
    {
      PendingOfMembers(calls, o);
    }
  }

  /** The events that `Outcome` appends. */
  function RecordedEvents(report: CycleReport, accepted: nat): seq<Event>
  {
    var states := OutcomeStates(report);
    var n := if accepted < |states| then accepted else |states|;
    seq(n, i requires 0 <= i < n => Event(states[i], report.pending))
  }

  /** Some order has no broker id, and some order is not filled. */
  ghost predicate Unresolvable(report: CycleReport)
  {
    && (exists o :: o in report.pending && o.brokerId == "")
    && (exists o :: o in report.pending && o.submission != Filled)
  }

  /** The same of the calls: the broker took an order without giving it an id, and took an order
      that it did not report filled. A last call of unknown outcome without an id is both. */
  ghost predicate LosesOrder(calls: seq<Call>)
  {
    && (exists i :: 0 <= i < |calls| && !calls[i].IsRejected() && BrokerIdOf(calls[i].reply) == "")
    && (exists i :: 0 <= i < |calls| && !calls[i].IsRejected() && StatusOf(calls[i].reply) != Filled)
  }

  lemma UnresolvableCalls(x: Inputs, noExecute: bool)
    requires x.Live()
    ensures Unresolvable(ReportOf(x.Result(), noExecute)) <==> LosesOrder(x.Result().book.calls)
  {
    var calls := x.Result().book.calls;
    CycleIsFaithful(x, noExecute);
    forall i | 0 <= i < |calls| && !calls[i].IsRejected() ensures OrderOf(calls[i]) in PendingOf(calls) {
      PendingOfMembers(calls, OrderOf(calls[i]));
    }
    forall o | o in PendingOf(calls)
      ensures exists i :: 0 <= i < |calls| && !calls[i].IsRejected() && o == OrderOf(calls[i])
    {
      PendingOfMembers(calls, o);
    }
  }

  lemma UnresolvableOutcome(report: CycleReport)
    requires Unresolvable(report)
    ensures OutcomeStates(report) == [RECONCILIATION_REQUIRED] && !Traceable(report.pending)
  {
  }

  lemma UnresolvableStrands(report: CycleReport, accepted: nat)
    requires Unresolvable(report)
    ensures Interruptions.Stuck([Event(CLAIMED, [])] + RecordedEvents(report, accepted))
  {
    UnresolvableOutcome(report);
  }

  /** A whole outcome leaves nothing stuck but this, when an action implies an order. */
  lemma ResolvableMoves(report: CycleReport)
    requires !Unresolvable(report) && (report.actionDone ==> report.pending != [])
    ensures !Interruptions.Stuck([Event(CLAIMED, [])] + RecordedEvents(report, |OutcomeStates(report)|))
  {
    var events := [Event(CLAIMED, [])] + RecordedEvents(report, |OutcomeStates(report)|);
    assert OutcomeStates(report) != [];
    assert events[|events| - 1] == Event(OutcomeStates(report)[|OutcomeStates(report)| - 1], report.pending);
  }

  /** A cycle with such calls leaves its command stuck, however much of the outcome the store
      accepts; and when the store accepts all of it, no other cycle does. */
  lemma LostOrderStrandsCommand(x: Inputs, noExecute: bool, accepted: nat)
    requires x.Live()
    ensures var report := ReportOf(x.Result(), noExecute);
            LosesOrder(x.Result().book.calls) ==>
              Interruptions.Stuck([Event(CLAIMED, [])] + RecordedEvents(report, accepted))
    ensures var report := ReportOf(x.Result(), noExecute);
            Interruptions.Stuck([Event(CLAIMED, [])] + RecordedEvents(report, |OutcomeStates(report)|))
            <==> LosesOrder(x.Result().book.calls)
  {
    var report := ReportOf(x.Result(), noExecute);
    CycleIsFaithful(x, noExecute);
    UnresolvableCalls(x, noExecute);
    if Unresolvable(report) {
      UnresolvableStrands(report, accepted);
      UnresolvableStrands(report, |OutcomeStates(report)|);
    } else {
      ResolvableMoves(report);
    }
  }

  // ----- ... and its scope, for ever

  /** Sends, and records of this command that no broker id can resolve. */
  predicate Strands(a: Action, c: Command)
  {
    a.Send? || (a.Append? && a.command == c && IsActive(a.event.state) && !Traceable(a.event.orders))
  }

  lemma {:induction false} StaysStuck(w: World, actions: seq<Action>, c: Command)
    requires c in w.log && Interruptions.Stuck(w.log[c]) && forall a :: a in actions ==> Strands(a, c)
    ensures c in ApplyAll(w, actions).log && Interruptions.Stuck(ApplyAll(w, actions).log[c])
    decreases |actions|
  {
    if actions != [] {
      assert Strands(actions[0], c);
      forall a | a in actions[1..] ensures Strands(a, c) {}
      StaysStuck(Apply(w, actions[0]), actions[1..], c);
    }
  }

  lemma TailStrands(d: Decision, env: RunEnv, c: Command, a: Action)
    requires d.claim == Some(c) && RouteOf(d, env).Execute? && Unresolvable(env.report) && a in Tail(d, env)
    ensures Strands(a, c)
  {
    UnresolvableOutcome(env.report);
  }

  /** The run claims this command and executes a cycle for it. */
  predicate ExecutesFor(w: World, env: RunEnv, c: Command)
  {
    var d := Decide(Settled(w, env).log, env);
    d.claim == Some(c) && !d.raises && RouteOf(d, env).Execute?
  }

  /** What is taken of such a run once its claim is taken. */
  lemma ClaimedPrefix(w: World, e: Episode, c: Command)
    requires ExecutesFor(w, e.env, c) && !BindingInvalid(w.log, e.env) && ClaimIndex(w, e.env) < e.steps
    ensures var d := Decide(Settled(w, e.env).log, e.env); var n := ClaimIndex(w, e.env) + 1;
            var tail := Tail(d, e.env); var k := if e.steps - n < |tail| then e.steps - n else |tail|;
            Prefix(RunTrace(w, e.env), e.steps) == Reconciliation(w, e.env) + (DecisionTrace(d) + tail[..k])
  {
    var d := Decide(Settled(w, e.env).log, e.env);
    var recon, front, tail := Reconciliation(w, e.env), DecisionTrace(d), Tail(d, e.env);
    assert RunTrace(w, e.env) == recon + (front + tail);
    assert |front| == |MintTrace(d)| + 1;
    PrefixOfConcat(recon, front, tail, e.steps);
  }

  lemma PrefixOfConcat(a: seq<Action>, b: seq<Action>, c: seq<Action>, steps: nat)
    requires |a| + |b| <= steps
    ensures var k := if steps - |a| - |b| < |c| then steps - |a| - |b| else |c|;
            Prefix(a + (b + c), steps) == a + (b + c[..k])
  {
  }

  lemma StuckAfterRun(w: World, now: Date, e: Episode, c: Command)
    requires ProtocolSafety.Inv(w, now) && now <= e.env.session && ProtocolRuns.WellFormed(w.log, e.env)
    requires ExecutesFor(w, e.env, c) && !BindingInvalid(w.log, e.env) && ClaimIndex(w, e.env) < e.steps
    requires Unresolvable(e.env.report)
    ensures c in After(w, e).log && Interruptions.Stuck(After(w, e).log[c])
  {
    var env := e.env;
    var w1 := Settled(w, env);
    var d := Decide(w1.log, env);
    var n := ClaimIndex(w, env) + 1;
    var tail := Tail(d, env);
    var rest := tail[..if e.steps - n < |tail| then e.steps - n else |tail|];
    ClaimedPrefix(w, e, c);
    InvLater(w, now, env.session);
    ProtocolRuns.ReconciliationLegal(w, env);
    Interruptions.ClaimedAfterDecision(w1, env);
    ProtocolSafety.ApplyAllConcat(w, Reconciliation(w, env), DecisionTrace(d) + rest);
    ProtocolSafety.ApplyAllConcat(w1, DecisionTrace(d), rest);
    forall a | a in rest ensures Strands(a, c) {
      assert a in tail;
      TailStrands(d, env, c, a);
    }
    Interruptions.ClaimedIsStuck();
    StaysStuck(ApplyAll(w1, DecisionTrace(d)), rest, c);
  }

  /** After a run whose cycle lost an order in this way, wherever after its claim it crashed, its
      command is never moved again and no order is ever sent again for its scope, over every
      later history. */
  lemma LostOrderEndsScope(w: World, now: Date, e: Episode, x: Inputs, c: Command, h: seq<Episode>)
    requires ProtocolSafety.Inv(w, now) && now <= e.env.session && ProtocolRuns.WellFormed(w.log, e.env)
    requires ExecutesFor(w, e.env, c) && !BindingInvalid(w.log, e.env) && ClaimIndex(w, e.env) < e.steps
    requires x.Live() && e.env.report == ReportOf(x.Result(), e.env.report.noExecute)
    requires LosesOrder(x.Result().book.calls)
    requires ValidHistory(After(w, e), e.env.session, h)
    ensures var v, end := After(w, e), Reach(After(w, e), h);
            && c in v.log && c in end.log && end.log[c] == v.log[c]
            && forall d: Command :: d.scope == c.scope ==> Interruptions.SentFor(end, d) == Interruptions.SentFor(v, d)
  {
    UnresolvableCalls(x, e.env.report.noExecute);
    StuckAfterRun(w, now, e, c);
    EpisodeKeepsInv(w, now, e);
    Interruptions.StuckForEver(After(w, e), e.env.session, h, c);
  }

  // ----- histories of real cycles

  /** The run's broker calls and report are those of a live cycle. */
  ghost predicate RunsCycle(env: RunEnv)
  {
    exists x: Inputs ::
      x.Live() && env.calls == x.Result().book.calls && env.report == ReportOf(x.Result(), env.report.noExecute)
  }

  ghost predicate LiveHistory(w: World, now: Date, h: seq<Episode>)
    decreases |h|
  {
    h == [] || (LiveRun(w, now, h[0]) && LiveHistory(After(w, h[0]), h[0].env.session, h[1..]))
  }

  /** A run that does not go back in time, lists the store, is told commands due only from their
      effective date on, and executes a real cycle. */
  ghost predicate LiveRun(w: World, now: Date, e: Episode)
  {
    && now <= e.env.session
    && ProtocolRuns.Lists(e.env.listing, w.log)
    && (forall c: Command :: e.env.due(c) ==> c.effectiveDate <= e.env.session)
    && RunsCycle(e.env)
  }

  lemma LiveRunIsWellFormed(w: World, now: Date, e: Episode)
    requires LiveRun(w, now, e)
    ensures ProtocolRuns.WellFormed(w.log, e.env)
  {
    var x: Inputs :| x.Live() && e.env.calls == x.Result().book.calls
                     && e.env.report == ReportOf(x.Result(), e.env.report.noExecute);
    CycleIsFaithful(x, e.env.report.noExecute);
  }

  lemma {:induction false} LiveHistoryIsValid(w: World, now: Date, h: seq<Episode>)
    requires LiveHistory(w, now, h)
    ensures ValidHistory(w, now, h)
    decreases |h|
  {
    if h != [] {
      LiveRunIsWellFormed(w, now, h[0]);
      LiveHistoryIsValid(After(w, h[0]), h[0].env.session, h[1..]);
    }
  }

  /** At this claim, the i-th order ever sent for a command of the scope is known to be closed. */
  ghost predicate ClaimsAfterClosing(v: World, session: Date, c: Command, d: Command, i: nat)
  {
    && c in v.log && v.log[c] == [] && c.effectiveDate == session
    && (d in v.sent && d.scope == c.scope && i < |v.sent[d]| ==> ProtocolSafety.CallClosed(v.sent[d][i], v.closed))
  }

  lemma ClaimStep(h: seq<Episode>, e: Episode, n: nat, c: Command, d: Command, i: nat)
    requires ValidHistory(EMPTY_WORLD, NO_DATE, h)
    requires LastSession(NO_DATE, h) <= e.env.session && ProtocolRuns.WellFormed(Reach(EMPTY_WORLD, h).log, e.env)
    requires IsStep(Reach(EMPTY_WORLD, h), e, n, Claim(c))
    ensures ClaimsAfterClosing(Before(Reach(EMPTY_WORLD, h), e, n), e.env.session, c, d, i)
  {
    ClaimOnlyAfterAllClosed(h, e, n, c, d, i);
  }

  lemma SendStep(h: seq<Episode>, e: Episode, k: nat, sender: Option<Command>, call: Call)
    requires ValidHistory(EMPTY_WORLD, NO_DATE, h)
    requires LastSession(NO_DATE, h) <= e.env.session && ProtocolRuns.WellFormed(Reach(EMPTY_WORLD, h).log, e.env)
    requires IsStep(Reach(EMPTY_WORLD, h), e, k, Send(sender, call))
    ensures sender.Some?
    ensures var w := Reach(EMPTY_WORLD, h);
            ClaimIndex(w, e.env) < k && IsStep(w, e, ClaimIndex(w, e.env), Claim(sender.value))
  {
    SendOnlyWhileClaimed(h, e, k, sender, call);
  }

  /** The whole system: over every history of non-overlapping, possibly crashing runs that
      execute real rebalance cycles, a step that sends an order belongs to a command claimed
      before in the same run, on its effective date; and at that claim every order that any
      command of the scope had ever sent was known to be closed. */
  lemma OrdersFollowClosedCommands(h: seq<Episode>, e: Episode, k: nat, sender: Option<Command>, call: Call,
                                   d: Command, i: nat)
    requires LiveHistory(EMPTY_WORLD, NO_DATE, h)
    requires LiveRun(Reach(EMPTY_WORLD, h), LastSession(NO_DATE, h), e)
    requires IsStep(Reach(EMPTY_WORLD, h), e, k, Send(sender, call))
    ensures sender.Some?
    ensures var w := Reach(EMPTY_WORLD, h); var n := ClaimIndex(w, e.env);
            && n < k && IsStep(w, e, n, Claim(sender.value))
            && ClaimsAfterClosing(Before(w, e, n), e.env.session, sender.value, d, i)
  {
    var w := Reach(EMPTY_WORLD, h);
    LiveHistoryIsValid(EMPTY_WORLD, NO_DATE, h);
    LiveRunIsWellFormed(w, LastSession(NO_DATE, h), e);
    SendStep(h, e, k, sender, call);
    ClaimStep(h, e, ClaimIndex(w, e.env), sender.value, d, i);
  }
}
