/** Every run of the live path takes only legal steps. */
module ProtocolRuns {
  import opened Wrappers

  import opened BrokerFacts
  import opened LiveCommands
  import opened LiveProtocol
  import opened ProtocolSafety

  // ----- what a run may assume about its environment

  ghost predicate Distinct(commands: seq<Command>)
  {
    forall i, j :: 0 <= i < j < |commands| ==> commands[i] != commands[j]
  }

  /** The listing shows every stored command once, in any order. */
  ghost predicate Lists(listing: seq<Command>, log: map<Command, seq<Event>>)
  {
    && Distinct(listing)
    && (forall c :: c in listing <==> c in log)
  }

  /** The executor's contract: pending orders are the calls not rejected, and an action was
      done only if some order is pending. */
  ghost predicate FaithfulReport(calls: seq<Call>, report: CycleReport)
  {
    && report.pending == PendingOf(calls)
    && (report.actionDone ==> report.pending != [])
  }

  ghost predicate WellFormed(log: map<Command, seq<Event>>, env: RunEnv)
  {
    && Lists(env.listing, log)
    && (forall c: Command :: env.due(c) ==> c.effectiveDate <= env.session)
    && FaithfulReport(env.calls, env.report)
  }

  // ----- filters

  lemma {:induction false} SelectMember(commands: seq<Command>, keep: Command -> bool, c: Command)
    ensures c in Select(commands, keep) <==> c in commands && keep(c)
  {
    if commands != [] { SelectMember(commands[1..], keep, c); }
  }

  lemma {:induction false} SelectDistinct(commands: seq<Command>, keep: Command -> bool)
    requires Distinct(commands)
    ensures Distinct(Select(commands, keep))
  {
    if commands != [] {
      SelectDistinct(commands[1..], keep);
      SelectMember(commands[1..], keep, commands[0]);
    }
  }

  lemma {:induction false} MatchingMember(listing: seq<Command>, scope: Scope, c: Command)
    ensures c in Matching(listing, scope) <==> c in listing && c.scope == scope
  {
    if listing != [] { MatchingMember(listing[1..], scope, c); }
  }

  lemma {:induction false} MatchingDistinct(listing: seq<Command>, scope: Scope)
    requires Distinct(listing)
    ensures Distinct(Matching(listing, scope))
  {
    if listing != [] {
      MatchingDistinct(listing[1..], scope);
      MatchingMember(listing[1..], scope, listing[0]);
    }
  }

  lemma {:induction false} SelectSnoc(commands: seq<Command>, keep: Command -> bool, c: Command)
    ensures Select(commands + [c], keep) == Select(commands, keep) + if keep(c) then [c] else []
  {
    if commands == [] {
      assert commands + [c] == [c] && [c][1..] == [];
    } else {
      assert (commands + [c])[1..] == commands[1..] + [c];
      SelectSnoc(commands[1..], keep, c);
      Regroup(if keep(commands[0]) then [commands[0]] else [], Select(commands[1..], keep),
              if keep(c) then [c] else []);
    }
  }

  lemma Regroup<T>(a: seq<T>, b: seq<T>, c: seq<T>)
    ensures a + (b + c) == a + b + c
  {
  }

  lemma UnresolvedMember(log: map<Command, seq<Event>>, commands: seq<Command>, c: Command)
    ensures c in Unresolved(log, commands) <==> c in commands && !IsTerminal(LoggedState(log, c))
  {
    SelectMember(commands, (c: Command) => !IsTerminal(LoggedState(log, c)), c);
  }

  // ----- reconciliation

  lemma {:induction false} ObservationsEffect(w: World, session: Date, orders: seq<Order>, statuses: seq<BrokerStatus>)
    requires |statuses| <= |orders|
    ensures AllLegal(w, session, Observations(orders, statuses))
    ensures var w' := ApplyAll(w, Observations(orders, statuses));
            && w' == w.(closed := w'.closed)
            && w.closed <= w'.closed
            && forall i :: 0 <= i < |statuses| && IsClosed(statuses[i]) ==> orders[i].brokerId in w'.closed
    decreases |statuses|
  {
    var seen := Observations(orders, statuses);
    if statuses != [] {
      assert seen[1..] == Observations(orders[1..], statuses[1..]);
      var w1 := Apply(w, seen[0]);
      ObservationsEffect(w1, session, orders[1..], statuses[1..]);
      var w' := ApplyAll(w, seen);
      forall i | 0 <= i < |statuses| && IsClosed(statuses[i])
        ensures orders[i].brokerId in w'.closed
      {
        if i > 0 {
          assert statuses[1..][i - 1] == statuses[i] && orders[1..][i - 1] == orders[i];
        }
      }
    }
  }

  /** Orders that were all read as closed belong to calls that are all closed. */
  lemma {:induction false} ClosedOrdersCloseCalls(calls: seq<Call>, closed: set<string>)
    requires forall o :: o in PendingOf(calls) ==> o.brokerId != "" && o.brokerId in closed
    ensures AllClosed(calls, closed)
  {
    forall i | 0 <= i < |calls| ensures CallClosed(calls[i], closed) {
      if !calls[i].IsRejected() {
        PendingOfMembers(calls, OrderOf(calls[i]));
      }
    }
  }

  /** What reconciling one command leaves as it was. */
  ghost predicate OnlyTouches(w: World, w': World, c: Command)
  {
    && w'.sent == w.sent
    && w'.unclaimed == w.unclaimed
    && w.closed <= w'.closed
    && w'.log.Keys == w.log.Keys
    && forall d :: d in w.log && d != c ==> w'.log[d] == w.log[d]
  }

  lemma ReadAsClosed(orders: seq<Order>, statuses: seq<BrokerStatus>, closed: set<string>)
    requires |statuses| == |orders| && Traceable(orders)
    requires forall i :: 0 <= i < |statuses| && IsClosed(statuses[i]) ==> orders[i].brokerId in closed
    requires forall s :: s in statuses ==> IsClosed(s)
    ensures forall o :: o in orders ==> o.brokerId != "" && o.brokerId in closed
  {
    forall o | o in orders ensures o.brokerId in closed {
      var i :| 0 <= i < |orders| && orders[i] == o;
      assert statuses[i] in statuses;
    }
  }

  lemma EndedWhenClosed(calls: seq<Call>, statuses: seq<BrokerStatus>, closed: set<string>)
    requires |statuses| == |PendingOf(calls)| && Traceable(PendingOf(calls))
    requires forall i :: 0 <= i < |statuses| && IsClosed(statuses[i]) ==> PendingOf(calls)[i].brokerId in closed
    requires ReconciledState(statuses).Some?
    ensures var state := ReconciledState(statuses).value;
            state != QUEUED && state != CLAIMED && (IsTerminal(state) ==> AllClosed(calls, closed))
  {
    ReconciliationEndsCommand(statuses);
    if forall s :: s in statuses ==> IsClosed(s) {
      ReadAsClosed(PendingOf(calls), statuses, closed);
      ClosedOrdersCloseCalls(calls, closed);
    }
  }

  /** The event a reconciliation appends is legal: it repeats the orders of the last event,
      and it is terminal only if every one of them was read as closed. */
  lemma ReconciledEventLegal(w: World, session: Date, c: Command, statuses: seq<BrokerStatus>)
    requires Inv(w, session) && c in w.log
    requires IsReconcilable(StateOf(w.log[c])) && Traceable(OrdersOf(w.log[c]))
    requires |statuses| == |OrdersOf(w.log[c])|
    requires forall i :: 0 <= i < |statuses| && IsClosed(statuses[i]) ==> OrdersOf(w.log[c])[i].brokerId in w.closed
    requires ReconciledState(statuses).Some?
    ensures Legal(w, session, Append(c, Event(ReconciledState(statuses).value, OrdersOf(w.log[c]))))
  {
    assert CommandInv(c, w.log[c], w.sent[c], w.closed, session);
    assert OrdersOf(w.log[c]) == PendingOf(w.sent[c]);
    EndedWhenClosed(w.sent[c], statuses, w.closed);
  }

  lemma ReconcileOneLegal(w: World, session: Date, c: Command, env: RunEnv)
    requires Inv(w, session) && c in w.log
    ensures AllLegal(w, session, ReconcileTrace(w.log[c], c, env))
    ensures OnlyTouches(w, ApplyAll(w, ReconcileTrace(w.log[c], c, env)), c)
  {
    var orders := OrdersOf(w.log[c]);
    if IsReconcilable(StateOf(w.log[c])) && env.fetchable && Traceable(orders) {
      var statuses := ReadStatuses(c, |orders|, env);
      ReadStatusesLength(c, |orders|, env);
      ObservationsEffect(w, session, orders, statuses);
      if |statuses| == |orders| && ReconciledState(statuses).Some? {
        ReconciledLegal(w, session, c, statuses);
      }
    }
  }

  /** All orders of a command are read, and the event they justify is appended. */
  lemma ReconciledLegal(w: World, session: Date, c: Command, statuses: seq<BrokerStatus>)
    requires Inv(w, session) && c in w.log
    requires IsReconcilable(StateOf(w.log[c])) && Traceable(OrdersOf(w.log[c]))
    requires |statuses| == |OrdersOf(w.log[c])| && ReconciledState(statuses).Some?
    ensures var orders := OrdersOf(w.log[c]);
            var t := Observations(orders, statuses) + [Append(c, Event(ReconciledState(statuses).value, orders))];
            AllLegal(w, session, t) && OnlyTouches(w, ApplyAll(w, t), c)
  {
    var orders := OrdersOf(w.log[c]);
    var seen := Observations(orders, statuses);
    ObservationsEffect(w, session, orders, statuses);
    LegalRunKeepsInv(w, session, seen);
    ReconciledEventLegal(ApplyAll(w, seen), session, c, statuses);
    AppendAfter(w, session, seen, c, Event(ReconciledState(statuses).value, orders));
  }

  /** Observations that only add to what is known, and then one event of a command. */
  lemma AppendAfter(w: World, session: Date, seen: seq<Action>, c: Command, e: Event)
    requires AllLegal(w, session, seen) && c in w.log
    requires var w1 := ApplyAll(w, seen);
             w1 == w.(closed := w1.closed) && w.closed <= w1.closed && Legal(w1, session, Append(c, e))
    ensures AllLegal(w, session, seen + [Append(c, e)])
    ensures OnlyTouches(w, ApplyAll(w, seen + [Append(c, e)]), c)
  {
    AllLegalConcat(w, session, seen, [Append(c, e)]);
    ApplyAllConcat(w, seen, [Append(c, e)]);
    SingleStep(ApplyAll(w, seen), session, Append(c, e));
  }

  lemma SingleStep(w: World, session: Date, a: Action)
    ensures AllLegal(w, session, [a]) <==> Legal(w, session, a)
    ensures ApplyAll(w, [a]) == Apply(w, a)
  {
    assert [a][1..] == [];
    assert ApplyAll(Apply(w, a), []) == Apply(w, a);
  }

  /** What reconciling some commands leaves as it was. */
  ghost predicate OnlyTouchesAny(w: World, w': World, commands: seq<Command>)
  {
    && w'.sent == w.sent && w'.unclaimed == w.unclaimed && w.closed <= w'.closed
    && w'.log.Keys == w.log.Keys
    && forall d :: d in w.log && d !in commands ==> w'.log[d] == w.log[d]
  }

  lemma TouchesInTurn(w: World, w1: World, w2: World, commands: seq<Command>)
    requires commands != [] && OnlyTouches(w, w1, commands[0]) && OnlyTouchesAny(w1, w2, commands[1..])
    ensures OnlyTouchesAny(w, w2, commands)
  {
    forall d | d in w.log && d !in commands ensures w2.log[d] == w.log[d] {
      assert commands == [commands[0]] + commands[1..];
    }
  }

  lemma {:induction false} ReconcileAllLegal(w: World, session: Date, log: map<Command, seq<Event>>,
                                             commands: seq<Command>, env: RunEnv)
    requires Inv(w, session) && Distinct(commands)
    requires forall c :: c in commands ==> c in log && c in w.log && log[c] == w.log[c]
    ensures AllLegal(w, session, ReconcileAll(log, commands, env))
    ensures OnlyTouchesAny(w, ApplyAll(w, ReconcileAll(log, commands, env)), commands)
    decreases |commands|
  {
    if commands != [] {
      var c, rest := commands[0], commands[1..];
      var t, later := ReconcileTrace(log[c], c, env), ReconcileAll(log, rest, env);
      ReconcileOneLegal(w, session, c, env);
      LegalRunKeepsInv(w, session, t);
      var w1 := ApplyAll(w, t);
      RestUntouched(w, w1, commands);
      ReconcileAllLegal(w1, session, log, rest, env);
      AllLegalConcat(w, session, t, later);
      ApplyAllConcat(w, t, later);
      TouchesInTurn(w, w1, ApplyAll(w1, later), commands);
    }
  }

  lemma RestUntouched(w: World, w1: World, commands: seq<Command>)
    requires commands != [] && Distinct(commands) && (forall c :: c in commands ==> c in w.log)
    requires OnlyTouches(w, w1, commands[0])
    ensures Distinct(commands[1..])
    ensures forall c :: c in commands[1..] ==> c in commands && c in w1.log && w1.log[c] == w.log[c]
  {
    assert commands[0] !in commands[1..];
  }

  /** The reconciliation of a run takes legal steps and leaves the calls as they were. */
  lemma ReconciliationLegal(w: World, env: RunEnv)
    requires Inv(w, env.session) && WellFormed(w.log, env)
    ensures AllLegal(w, env.session, Reconciliation(w, env))
    ensures Inv(Settled(w, env), env.session)
    ensures Settled(w, env).sent == w.sent && Settled(w, env).log.Keys == w.log.Keys
  {
    var matching := Matching(env.listing, env.config.scope);
    var commands := Unresolved(w.log, matching);
    MatchingDistinct(env.listing, env.config.scope);
    SelectDistinct(matching, (c: Command) => !IsTerminal(LoggedState(w.log, c)));
    forall c | c in commands ensures c in w.log {
      UnresolvedMember(w.log, matching, c);
      MatchingMember(env.listing, env.config.scope, c);
    }
    ReconcileAllLegal(w, env.session, w.log, commands, env);
    LegalRunKeepsInv(w, env.session, Reconciliation(w, env));
  }

  // ----- the decision

  lemma MintShape(env: RunEnv, admissible: ExecutionIntent -> bool)
    ensures var m := Mint(env, admissible);
            m.minted.Some? ==>
              && env.plan.Some? && admissible(env.plan.value.execution)
              && m.minted == Some(BuildLiveCommand(env.config, env.plan.value.execution, env.plan.value.allocation))
  {
  }

  /** What a run mints is a command of its scope, decided before it takes effect, and for
      this session. */
  lemma MintedShape(log: map<Command, seq<Event>>, env: RunEnv)
    requires Chosen(log, env).minted.Some?
    ensures var c := Chosen(log, env).minted.value;
            && c.scope == env.config.scope
            && c.signalDate < c.effectiveDate
            && (if env.config.scope.CompletedSession() then c.effectiveDate == env.session
                else c.signalDate == env.session)
  {
    MintShape(env, (e: ExecutionIntent) => IsCompletedSessionPlan(e, env.session));
    MintShape(env, (e: ExecutionIntent) => e.signalDate == env.session && e.effectiveDate > env.session);
  }

  lemma NoneForSession(log: map<Command, seq<Event>>, env: RunEnv, d: Command)
    requires Chosen(log, env).minted.Some?
    requires d in env.listing && d.scope == env.config.scope
    ensures if env.config.scope.CompletedSession() then d.effectiveDate != env.session else d.signalDate != env.session
  {
    var matching := Matching(env.listing, env.config.scope);
    MatchingMember(env.listing, env.config.scope, d);
    if env.config.scope.CompletedSession() {
      CurrentIsEmpty(log, matching, env, d);
    } else {
      SelectMember(matching, (c: Command) => c.signalDate == env.session, d);
    }
  }

  lemma MintedIsChosen(log: map<Command, seq<Event>>, env: RunEnv)
    ensures Decide(log, env).minted.Some? ==> Decide(log, env).minted == Chosen(log, env).minted
    ensures Decide(log, env).claim.Some? ==> Decide(log, env).minted == Chosen(log, env).minted
  {
  }

  /** ... and the log has no command for this session yet. */
  lemma MintedIsNew(w: World, env: RunEnv)
    requires Lists(env.listing, w.log)
    requires Decide(w.log, env).minted.Some?
    ensures Legal(w, env.session, Enqueue(Decide(w.log, env).minted.value))
  {
    MintedIsChosen(w.log, env);
    var c := Chosen(w.log, env).minted.value;
    MintedShape(w.log, env);
    forall d | d in w.log ensures !SameSession(c, d) {
      if d.scope == env.config.scope {
        NoneForSession(w.log, env, d);
      }
    }
    assert SameSession(c, c);
  }

  lemma CurrentIsEmpty(log: map<Command, seq<Event>>, matching: seq<Command>, env: RunEnv, d: Command)
    requires SelectCompletedSession(log, matching, env).minted.Some?
    requires d in matching
    ensures d.effectiveDate != env.session
  {
    var current := Select(matching, (c: Command) => c.effectiveDate == env.session);
    var open := Unresolved(log, current);
    SelectMember(matching, (c: Command) => c.effectiveDate == env.session, d);
    SelectMember(current, (c: Command) => IsTerminal(LoggedState(log, c)), d);
    UnresolvedMember(log, current, d);
    SelectMember(open, (c: Command) => !IsCompletedSessionCommand(c, env.calendar), d);
    SelectMember(open, (c: Command) => IsCompletedSessionCommand(c, env.calendar), d);
  }

  lemma ConsideredMember(log: map<Command, seq<Event>>, env: RunEnv, c: Command)
    requires Lists(env.listing, log)
    ensures c in Considered(env, Chosen(log, env)) <==>
              (c in log && c.scope == env.config.scope) || Chosen(log, env).minted == Some(c)
  {
    MatchingMember(env.listing, env.config.scope, c);
  }

  lemma ClaimShape(log: map<Command, seq<Event>>, env: RunEnv)
    requires Decide(log, env).claim.Some?
    ensures var open := Unresolved(log, Considered(env, Chosen(log, env)));
            && Decide(log, env).claim == First(Due(open, env))
            && Prior(log, open, env.session) == []
            && ValidBinding(Decide(log, env).claim.value, env.config)
  {
  }

  /** A run claims only a queued command whose effective date is its own session, and only
      when every other command of the scope is queued or finished. */
  lemma ClaimIsAlone(log: map<Command, seq<Event>>, env: RunEnv)
    requires Lists(env.listing, log)
    requires forall c: Command :: env.due(c) ==> c.effectiveDate <= env.session
    requires Decide(log, env).claim.Some?
    ensures var c := Decide(log, env).claim.value;
            && ((c in log && c.scope == env.config.scope) || Chosen(log, env).minted == Some(c))
            && LoggedState(log, c) == QUEUED
            && c.effectiveDate == env.session
            && ValidBinding(c, env.config)
            && forall d :: d in log && d.scope == env.config.scope ==> !IsActive(LoggedState(log, d))
  {
    ClaimShape(log, env);
    var matching := Considered(env, Chosen(log, env));
    var open := Unresolved(log, matching);
    var c := Decide(log, env).claim.value;
    ConsideredMember(log, env, c);
    SelectMember(open, (c: Command) => env.due(c), c);
    UnresolvedMember(log, matching, c);
    PriorEmpty(log, env, c);
    forall d | d in log && d.scope == env.config.scope ensures !IsActive(LoggedState(log, d)) {
      ConsideredMember(log, env, d);
      PriorEmpty(log, env, d);
    }
  }

  lemma PriorEmpty(log: map<Command, seq<Event>>, env: RunEnv, c: Command)
    requires c in Considered(env, Chosen(log, env))
    requires Prior(log, Unresolved(log, Considered(env, Chosen(log, env))), env.session) == []
    ensures IsTerminal(LoggedState(log, c)) || (LoggedState(log, c) == QUEUED && env.session <= c.effectiveDate)
  {
    var matching := Considered(env, Chosen(log, env));
    UnresolvedMember(log, matching, c);
    SelectMember(Unresolved(log, matching),
                 (c: Command) => LoggedState(log, c) != QUEUED || c.effectiveDate < env.session, c);
  }

  lemma MintLegal(w: World, env: RunEnv)
    requires Inv(w, env.session) && WellFormed(w.log, env)
    ensures AllLegal(w, env.session, MintTrace(Decide(w.log, env)))
    ensures var w1 := ApplyAll(w, MintTrace(Decide(w.log, env)));
            && Inv(w1, env.session)
            && forall c :: c in w1.log ==> (c in w.log && w1.log[c] == w.log[c]) || (c !in w.log && w1.log[c] == [])
  {
    var d := Decide(w.log, env);
    if d.minted.Some? {
      MintedIsNew(w, env);
      SingleStep(w, env.session, Enqueue(d.minted.value));
      StepKeepsInv(w, env.session, Enqueue(d.minted.value));
    }
  }

  lemma ClaimLegal(w: World, env: RunEnv)
    requires Inv(w, env.session) && WellFormed(w.log, env)
    requires Decide(w.log, env).claim.Some?
    ensures Legal(ApplyAll(w, MintTrace(Decide(w.log, env))), env.session, Claim(Decide(w.log, env).claim.value))
  {
    var d := Decide(w.log, env);
    var c := d.claim.value;
    var w1 := ApplyAll(w, MintTrace(d));
    MintLegal(w, env);
    ClaimIsAlone(w.log, env);
    ClaimedIsStored(w, env);
    assert CommandInv(c, w1.log[c], w1.sent[c], w1.closed, env.session);
    QueuedLog(w1.log[c], PendingOf(w1.sent[c]));
    forall e | e in w1.log && e.scope == c.scope ensures !IsActive(StateOf(w1.log[e])) {
      assert LoggedState(w1.log, e) == LoggedState(w.log, e);
    }
  }

  lemma ClaimedIsStored(w: World, env: RunEnv)
    requires Inv(w, env.session) && WellFormed(w.log, env)
    requires Decide(w.log, env).claim.Some?
    ensures Decide(w.log, env).claim.value in ApplyAll(w, MintTrace(Decide(w.log, env))).log
    ensures Decide(w.log, env).claim.value.scope == env.config.scope
  {
    var d := Decide(w.log, env);
    ClaimIsAlone(w.log, env);
    MintedIsChosen(w.log, env);
    if d.minted.Some? {
      MintedShape(w.log, env);
    }
    MintStores(w, env.session, d);
  }

  lemma MintStores(w: World, session: Date, d: Decision)
    ensures var log := ApplyAll(w, MintTrace(d)).log;
            (forall c :: c in w.log ==> c in log) && (d.minted.Some? ==> d.minted.value in log)
  {
    if d.minted.Some? {
      SingleStep(w, session, Enqueue(d.minted.value));
    }
  }

  /** The world in which the cycle starts: the claimed command has exactly its claim logged
      and no call made for it yet. */
  ghost predicate FreshlyClaimed(w: World, c: Command)
  {
    c in w.log && c in w.sent && w.log[c] == [Event(CLAIMED, [])] && w.sent[c] == []
  }

  lemma DecisionLegal(w: World, env: RunEnv)
    requires Inv(w, env.session) && WellFormed(w.log, env)
    ensures AllLegal(w, env.session, DecisionTrace(Decide(w.log, env)))
    ensures Decide(w.log, env).claim.Some? ==>
              FreshlyClaimed(ApplyAll(w, DecisionTrace(Decide(w.log, env))), Decide(w.log, env).claim.value)
  {
    var d := Decide(w.log, env);
    var mint, claim := MintTrace(d), ClaimTrace(d);
    MintLegal(w, env);
    AllLegalConcat(w, env.session, mint, claim);
    ApplyAllConcat(w, mint, claim);
    if d.claim.Some? {
      var w1, c := ApplyAll(w, mint), d.claim.value;
      ClaimLegal(w, env);
      SingleStep(w1, env.session, Claim(c));
      assert CommandInv(c, w1.log[c], w1.sent[c], w1.closed, env.session);
    }
  }

  lemma QueuedLog(events: seq<Event>, orders: seq<Order>)
    requires WellLogged(events, orders) && StateOf(events) == QUEUED
    ensures events == []
  {
  }

  // ----- the cycle and its outcome

  lemma {:induction false} SendsLegal(w: World, session: Date, c: Command, calls: seq<Call>)
    requires c in w.log && c in w.sent && StateOf(w.log[c]) == CLAIMED
    ensures AllLegal(w, session, Sends(Some(c), calls))
    ensures ApplyAll(w, Sends(Some(c), calls)) == w.(sent := w.sent[c := w.sent[c] + calls])
    decreases |calls|
  {
    var t := Sends(Some(c), calls);
    if calls == [] {
      assert w.sent[c] + calls == w.sent[c];
      assert w.sent[c := w.sent[c]] == w.sent;
    } else {
      assert t[1..] == Sends(Some(c), calls[1..]);
      var w1 := Apply(w, t[0]);
      SendsLegal(w1, session, c, calls[1..]);
      assert w1.sent[c] + calls[1..] == w.sent[c] + calls;
    }
  }

  /** What the recorder may append for a command whose calls are these. */
  ghost predicate Recordable(states: seq<CommandState>, calls: seq<Call>, closed: set<string>)
  {
    && (forall s :: s in states ==> s != QUEUED && s != CLAIMED)
    && (forall i :: 0 <= i < |states| - 1 ==> !IsTerminal(states[i]))
    && (forall s :: s in states && IsTerminal(s) ==> AllClosed(calls, closed))
  }

  lemma RecordableTail(states: seq<CommandState>, calls: seq<Call>, closed: set<string>)
    requires Recordable(states, calls, closed) && states != []
    ensures Recordable(states[1..], calls, closed)
  {
    forall s | s in states[1..] ensures s in states {}
  }

  lemma RecordablePrefix(states: seq<CommandState>, calls: seq<Call>, closed: set<string>, n: nat)
    requires Recordable(states, calls, closed) && n <= |states|
    ensures Recordable(states[..n], calls, closed)
  {
    forall s | s in states[..n] ensures s in states {}
  }

  lemma OutcomeRecordable(calls: seq<Call>, report: CycleReport, closed: set<string>)
    requires FaithfulReport(calls, report)
    ensures Recordable(OutcomeStates(report), calls, closed)
  {
    var states := OutcomeStates(report);
    OutcomeEndsCommand(report);
    NothingPending(calls);
    if FILLED in states {
      forall i | 0 <= i < |calls| ensures CallClosed(calls[i], closed) {
        PendingOfMembers(calls, OrderOf(calls[i]));
      }
    }
  }

  function Appends(c: Command, states: seq<CommandState>, orders: seq<Order>): seq<Action>
  {
    seq(|states|, i requires 0 <= i < |states| => Append(c, Event(states[i], orders)))
  }

  lemma {:induction false} AppendsLegal(w: World, session: Date, c: Command, states: seq<CommandState>)
    requires Inv(w, session) && c in w.log && IsActive(StateOf(w.log[c]))
    requires Recordable(states, w.sent[c], w.closed)
    ensures AllLegal(w, session, Appends(c, states, PendingOf(w.sent[c])))
    decreases |states|
  {
    var orders := PendingOf(w.sent[c]);
    var t := Appends(c, states, orders);
    if states != [] {
      assert t[1..] == Appends(c, states[1..], orders);
      assert states[0] in states;
      StepKeepsInv(w, session, t[0]);
      var w1 := Apply(w, t[0]);
      assert StateOf(w1.log[c]) == states[0];
      if |states| > 1 {
        RecordableTail(states, w.sent[c], w.closed);
        AppendsLegal(w1, session, c, states[1..]);
      }
    }
  }

  lemma OutcomeLegal(w: World, session: Date, c: Command, report: CycleReport, accepted: nat)
    requires Inv(w, session) && c in w.log && StateOf(w.log[c]) == CLAIMED
    requires FaithfulReport(w.sent[c], report)
    ensures AllLegal(w, session, Outcome(c, report, accepted))
  {
    var states := OutcomeStates(report);
    var kept := states[..if accepted < |states| then accepted else |states|];
    OutcomeRecordable(w.sent[c], report, w.closed);
    RecordablePrefix(states, w.sent[c], w.closed, |kept|);
    AppendsLegal(w, session, c, kept);
    OutcomeIsAppends(c, report, accepted);
  }

  lemma OutcomeIsAppends(c: Command, report: CycleReport, accepted: nat)
    ensures var states := OutcomeStates(report);
            Outcome(c, report, accepted)
            == Appends(c, states[..if accepted < |states| then accepted else |states|], report.pending)
  {
  }

  lemma TailLegal(w: World, env: RunEnv, d: Decision)
    requires Inv(w, env.session) && FaithfulReport(env.calls, env.report)
    requires RouteOf(d, env).Execute? ==> d.claim.Some?
    requires d.claim.Some? ==>
               && d.claim.value in w.log && w.log[d.claim.value] == [Event(CLAIMED, [])]
               && w.sent[d.claim.value] == []
    ensures AllLegal(w, env.session, Tail(d, env))
  {
    if d.claim.Some? {
      var c := d.claim.value;
      match RouteOf(d, env)
      case Skip(record) =>
        if record { OutcomeLegal(w, env.session, c, NothingDone(env), env.outcomeAppends); }
      case Execute =>
        var sends := Sends(d.claim, env.calls);
        SendsLegal(w, env.session, c, env.calls);
        LegalRunKeepsInv(w, env.session, sends);
        var w1 := ApplyAll(w, sends);
        assert w1.sent[c] == env.calls;
        OutcomeLegal(w1, env.session, c, env.report, env.outcomeAppends);
        AllLegalConcat(w, env.session, sends, Outcome(c, env.report, env.outcomeAppends));
    }
  }

  // ----- who reaches the broker

  /** A run that reaches the broker port without a claim of its own. */
  predicate SendsUnclaimed(log: map<Command, seq<Event>>, env: RunEnv)
  {
    var d := Decide(log, env);
    !d.raises && d.claim.None? && RouteOf(d, env).Execute?
  }

  /** The decision has no effective date, or one that is its signal date. */
  predicate TakesEffectAtOnce(e: ExecutionIntent)
  {
    e.effectiveDate == NO_DATE || (e.signalDate != NO_DATE && e.effectiveDate == e.signalDate)
  }

  /** The one way there: outside the completed-session profile, exactly one command was
      signalled today, every command of the scope is finished, and a fresh decision does not
      ask for a durable command. */
  ghost predicate UnclaimedGap(log: map<Command, seq<Event>>, env: RunEnv)
  {
    var matching := Matching(env.listing, env.config.scope);
    && !env.config.scope.CompletedSession()
    && |Select(matching, (c: Command) => c.signalDate == env.session)| == 1
    && (forall c :: c in matching ==> IsTerminal(LoggedState(log, c)))
    && env.plan.Some?
    && TakesEffectAtOnce(env.plan.value.execution)
    && !env.identityBlocked
    && env.marker != Present && env.priorReport != Present
  }

  lemma AllFinished(log: map<Command, seq<Event>>, commands: seq<Command>)
    ensures Unresolved(log, commands) == [] <==> forall c :: c in commands ==> IsTerminal(LoggedState(log, c))
  {
    var open := Unresolved(log, commands);
    forall c | c in commands ensures c in open <==> !IsTerminal(LoggedState(log, c)) {
      UnresolvedMember(log, commands, c);
    }
    if open != [] {
      UnresolvedMember(log, commands, open[0]);
    }
  }

  lemma OpenTodayBlocksGap(log: map<Command, seq<Event>>, env: RunEnv)
    requires env.config.scope.CompletedSession()
    requires Chosen(log, env).minted.None? && !Chosen(log, env).blocked && !Chosen(log, env).raises
    ensures Unresolved(log, Considered(env, Chosen(log, env))) != []
  {
    var matching := Matching(env.listing, env.config.scope);
    var current := Select(matching, (c: Command) => c.effectiveDate == env.session);
    var open := Unresolved(log, current);
    var c := Chosen(log, env).today[0];
    SelectMember(open, (c: Command) => IsCompletedSessionCommand(c, env.calendar), c);
    UnresolvedMember(log, current, c);
    SelectMember(matching, (c: Command) => c.effectiveDate == env.session, c);
    UnresolvedMember(log, matching, c);
  }

  lemma MintedIsOpen(log: map<Command, seq<Event>>, env: RunEnv)
    requires Lists(env.listing, log) && Chosen(log, env).minted.Some?
    ensures Unresolved(log, Considered(env, Chosen(log, env))) != []
  {
    var c := Chosen(log, env).minted.value;
    MintedShape(log, env);
    if c in log { NoneForSession(log, env, c); }
    UnresolvedMember(log, Considered(env, Chosen(log, env)), c);
  }

  lemma OpenSendsNothing(log: map<Command, seq<Event>>, env: RunEnv)
    requires var chosen := Chosen(log, env);
             chosen.blocked || chosen.raises || Unresolved(log, Considered(env, chosen)) != []
    ensures !SendsUnclaimed(log, env)
  {
  }

  lemma MintedHasNoGap(log: map<Command, seq<Event>>, env: RunEnv)
    requires Chosen(log, env).minted.Some?
    ensures !UnclaimedGap(log, env)
  {
  }

  /** A run reaches the broker without a claim exactly through that gap. */
  lemma SendsUnclaimedIffGap(log: map<Command, seq<Event>>, env: RunEnv)
    requires Lists(env.listing, log)
    ensures SendsUnclaimed(log, env) <==> UnclaimedGap(log, env)
  {
    if Chosen(log, env).minted.Some? {
      MintedIsOpen(log, env);
      OpenSendsNothing(log, env);
      MintedHasNoGap(log, env);
    } else if env.config.scope.CompletedSession() {
      CompletedSessionSendsNothing(log, env);
    } else {
      NextSessionGap(log, env);
    }
  }

  lemma CompletedSessionSendsNothing(log: map<Command, seq<Event>>, env: RunEnv)
    requires env.config.scope.CompletedSession() && Chosen(log, env).minted.None?
    ensures !SendsUnclaimed(log, env)
  {
    if !Chosen(log, env).blocked && !Chosen(log, env).raises {
      OpenTodayBlocksGap(log, env);
    }
    OpenSendsNothing(log, env);
  }

  lemma NextSessionGap(log: map<Command, seq<Event>>, env: RunEnv)
    requires Lists(env.listing, log) && Chosen(log, env).minted.None? && !env.config.scope.CompletedSession()
    ensures SendsUnclaimed(log, env) <==> UnclaimedGap(log, env)
  {
    var matching := Matching(env.listing, env.config.scope);
    var open := Unresolved(log, matching);
    AllFinished(log, matching);
    assert Considered(env, Chosen(log, env)) == matching;
    if open == [] {
      assert Due(open, env) == [] && Prior(log, open, env.session) == [];
    }
  }

  /** In a world that histories can reach the gap is closed: a command signalled today takes
      effect later, so it cannot be finished yet. */
  lemma GapIsUnreachable(w: World, env: RunEnv)
    requires Inv(w, env.session) && Lists(env.listing, w.log)
    ensures !UnclaimedGap(w.log, env)
  {
    var matching := Matching(env.listing, env.config.scope);
    var today := Select(matching, (c: Command) => c.signalDate == env.session);
    if |today| == 1 {
      var c := today[0];
      SelectMember(matching, (c: Command) => c.signalDate == env.session, c);
      MatchingMember(env.listing, env.config.scope, c);
      assert CommandInv(c, w.log[c], w.sent[c], w.closed, env.session);
    }
  }

  // ----- a whole run

  lemma ContinuationLegal(w: World, env: RunEnv)
    requires Inv(w, env.session) && WellFormed(w.log, env)
    ensures AllLegal(w, env.session, Continuation(w.log, env))
  {
    var d := Decide(w.log, env);
    var tail := TailOf(d, env);
    DecisionLegal(w, env);
    LegalRunKeepsInv(w, env.session, DecisionTrace(d));
    var w1 := ApplyAll(w, DecisionTrace(d));
    if !d.raises {
      SendsUnclaimedIffGap(w.log, env);
      GapIsUnreachable(w, env);
      TailLegal(w1, env, d);
    }
    AllLegalConcat(w, env.session, DecisionTrace(d), tail);
  }

  /** Every step of a run from a reachable world is legal. */
  lemma RunIsLegal(w: World, env: RunEnv)
    requires Inv(w, env.session) && WellFormed(w.log, env)
    ensures AllLegal(w, env.session, RunTrace(w, env))
  {
    if !BindingInvalid(w.log, env) {
      ReconciliationLegal(w, env);
      var s := Settled(w, env);
      ContinuationLegal(s, env);
      AllLegalConcat(w, env.session, Reconciliation(w, env), Continuation(s.log, env));
    }
  }
}
