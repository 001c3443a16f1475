/** Exactly what one live run writes: the states it reconciles to, the command it mints, the
    command it claims, and what follows the claim; read off the store and the answers of the
    outside. */
module RunEffects {
  import opened Wrappers

  import BrokerFacts
  import opened LiveCommands
  import opened LiveProtocol
  import Histories
  import ProtocolSafety
  import opened ProtocolRuns

  /** The command is finished. */
  predicate HasEnded(log: map<Command, seq<Event>>, c: Command)
  {
    var state := LoggedState(log, c);
    state == FILLED || state == CANCELLED || state == REJECTED
  }

  // ----- the command of this session

  /** The stored command is the scope's command for this session: by its effective date in the
      completed-session profile, by its signal date otherwise. */
  predicate IsToday(log: map<Command, seq<Event>>, env: RunEnv, x: Command)
  {
    && x in log && x.scope == env.config.scope
    && if env.config.scope.CompletedSession() then x.effectiveDate == env.session else x.signalDate == env.session
  }

  ghost predicate NoneToday(log: map<Command, seq<Event>>, env: RunEnv)
  {
    forall x :: !IsToday(log, env, x)
  }

  /** The evaluated plan is for this session and passes the risk gate. */
  predicate Admissible(env: RunEnv)
  {
    && env.plan.Some? && !env.plan.value.blocked
    && var e := env.plan.value.execution;
       if env.config.scope.CompletedSession()
       then e.completedSession == e.signalDate && e.signalDate < env.session == e.effectiveDate
       else e.signalDate == env.session < e.effectiveDate
  }

  /** The command carries the evaluated plan, under the configuration of the run. */
  predicate Carries(c: Command, env: RunEnv)
  {
    && env.plan.Some? && c.scope == env.config.scope
    && c.signalDate == env.plan.value.execution.signalDate
    && c.effectiveDate == env.plan.value.execution.effectiveDate
    && c.timing == env.plan.value.execution.timing
    && c.intent.kind == LIVE_KIND && c.intent.account == env.config.account
    && c.intent.runtime == env.config.runtime && c.intent.release == env.config.release
    && c.intent.execution == Some(env.plan.value.execution)
    && c.intent.allocation == Some(env.plan.value.allocation)
  }

  /** The session's selection neither raises nor blocks: what is stored for today can be used, or
      nothing is and the plan can be minted. */
  ghost predicate GoesOn(log: map<Command, seq<Event>>, env: RunEnv)
  {
    && (NoneToday(log, env) ==> Admissible(env))
    && (env.config.scope.CompletedSession() ==>
          forall x :: IsToday(log, env, x) ==> !HasEnded(log, x) && IsProven(x, env))
  }

  /** The command was minted for a completed session, and takes effect in the next one. */
  predicate IsProven(x: Command, env: RunEnv)
  {
    && x.intent.execution.Some? && x.intent.execution.value.completedSession == x.signalDate
    && env.calendar(x.signalDate) == Some(x.effectiveDate)
  }

  lemma TodayMember(log: map<Command, seq<Event>>, env: RunEnv, x: Command)
    requires Lists(env.listing, log)
    ensures var matching := Matching(env.listing, env.config.scope);
            IsToday(log, env, x) <==>
            x in (if env.config.scope.CompletedSession()
                  then Select(matching, (c: Command) => c.effectiveDate == env.session)
                  else Select(matching, (c: Command) => c.signalDate == env.session))
  {
    var matching := Matching(env.listing, env.config.scope);
    MatchingMember(env.listing, env.config.scope, x);
    SelectMember(matching, (c: Command) => c.effectiveDate == env.session, x);
    SelectMember(matching, (c: Command) => c.signalDate == env.session, x);
  }

  /** What a minting selection looks like. */
  ghost predicate Mints(chosen: Selection, env: RunEnv)
  {
    chosen.minted.Some? && Carries(chosen.minted.value, env) && chosen.today == [chosen.minted.value]
  }

  lemma MintExactly(env: RunEnv, admissible: ExecutionIntent -> bool)
    ensures var m := Mint(env, admissible);
            && (m.raises <==> env.plan.None? || !admissible(env.plan.value.execution))
            && (m.blocked <==> !m.raises && env.plan.value.blocked)
            && (m.minted.Some? <==> !m.raises && !m.blocked)
            && (m.minted.Some? ==> Mints(m, env))
            && m.live.None?
  {
  }

  lemma NextSessionSelection(log: map<Command, seq<Event>>, env: RunEnv)
    requires Lists(env.listing, log) && !env.config.scope.CompletedSession()
    ensures SelectsExactly(log, env)
  {
    var matching := Matching(env.listing, env.config.scope);
    var today := Select(matching, (c: Command) => c.signalDate == env.session);
    MintExactly(env, (e: ExecutionIntent) => e.signalDate == env.session && e.effectiveDate > env.session);
    MatchingDistinct(env.listing, env.config.scope);
    SelectDistinct(matching, (c: Command) => c.signalDate == env.session);
    forall x ensures IsToday(log, env, x) <==> x in today {
      TodayMember(log, env, x);
    }
    if today != [] {
      assert today[0] in today;
    }
  }

  /** The first pass in full. */
  ghost predicate SelectsExactly(log: map<Command, seq<Event>>, env: RunEnv)
  {
    var chosen := Chosen(log, env);
    && (!chosen.raises && !chosen.blocked <==> GoesOn(log, env))
    && (chosen.minted.Some? <==> NoneToday(log, env) && Admissible(env))
    && (chosen.minted.Some? ==> Mints(chosen, env))
    && (GoesOn(log, env) && chosen.minted.None? ==>
          Distinct(chosen.today) && forall x :: x in chosen.today <==> IsToday(log, env, x))
    && (GoesOn(log, env) ==> chosen.live.None?)
  }

  lemma CompletedSessionSelection(log: map<Command, seq<Event>>, env: RunEnv)
    requires Lists(env.listing, log) && env.config.scope.CompletedSession()
    ensures SelectsExactly(log, env)
  {
    var matching := Matching(env.listing, env.config.scope);
    var current := Select(matching, (c: Command) => c.effectiveDate == env.session);
    MintExactly(env, (e: ExecutionIntent) => IsCompletedSessionPlan(e, env.session));
    MatchingDistinct(env.listing, env.config.scope);
    SelectDistinct(matching, (c: Command) => c.effectiveDate == env.session);
    forall x ensures IsToday(log, env, x) <==> x in current {
      TodayMember(log, env, x);
    }
    var ended := Select(current, (c: Command) => IsTerminal(LoggedState(log, c)));
    var open := Unresolved(log, current);
    var unsafeDue := Select(open, (c: Command) => !IsCompletedSessionCommand(c, env.calendar));
    var today := Select(open, (c: Command) => IsCompletedSessionCommand(c, env.calendar));
    CurrentParts(log, current, env);
    TodayParts(log, env, current, today, ended == [] && unsafeDue == []);
    var minted := Mint(env, (e: ExecutionIntent) => IsCompletedSessionPlan(e, env.session));
    assert Chosen(log, env).blocked <==> ended != [] || unsafeDue != [] || (today == [] && minted.blocked);
  }

  /** What is stored for today, and the part of it that can be used. */
  lemma TodayParts(log: map<Command, seq<Event>>, env: RunEnv, current: seq<Command>, today: seq<Command>, usable: bool)
    requires env.config.scope.CompletedSession()
    requires forall x :: IsToday(log, env, x) <==> x in current
    requires usable <==> forall x :: x in current ==>
                           !IsTerminal(LoggedState(log, x)) && IsCompletedSessionCommand(x, env.calendar)
    requires usable ==> forall x :: x in current <==> x in today
    ensures NoneToday(log, env) <==> current == []
    ensures usable ==> (today == [] <==> NoneToday(log, env))
    ensures GoesOn(log, env) <==> usable && (NoneToday(log, env) ==> Admissible(env))
    ensures usable ==> forall x :: x in today <==> IsToday(log, env, x)
  {
    if current != [] { assert current[0] in current; }
    if today != [] { assert today[0] in today; }
  }

  lemma CurrentParts(log: map<Command, seq<Event>>, current: seq<Command>, env: RunEnv)
    requires Distinct(current)
    ensures var ended := Select(current, (c: Command) => IsTerminal(LoggedState(log, c)));
            var open := Unresolved(log, current);
            var unsafeDue := Select(open, (c: Command) => !IsCompletedSessionCommand(c, env.calendar));
            var today := Select(open, (c: Command) => IsCompletedSessionCommand(c, env.calendar));
            && Distinct(today)
            && (ended == [] <==> forall x :: x in current ==> !IsTerminal(LoggedState(log, x)))
            && (ended == [] && unsafeDue == [] <==>
                  forall x :: x in current ==>
                    !IsTerminal(LoggedState(log, x)) && IsCompletedSessionCommand(x, env.calendar))
            && (ended == [] && unsafeDue == [] ==> forall x :: x in current <==> x in today)
            && (current == [] ==> ended == [] && unsafeDue == [] && today == [])
  {
    var ended := Select(current, (c: Command) => IsTerminal(LoggedState(log, c)));
    var open := Unresolved(log, current);
    var unsafeDue := Select(open, (c: Command) => !IsCompletedSessionCommand(c, env.calendar));
    var today := Select(open, (c: Command) => IsCompletedSessionCommand(c, env.calendar));
    SelectDistinct(current, (c: Command) => !IsTerminal(LoggedState(log, c)));
    SelectDistinct(open, (c: Command) => IsCompletedSessionCommand(c, env.calendar));
    forall x
      ensures x in ended <==> x in current && IsTerminal(LoggedState(log, x))
      ensures x in open <==> x in current && !IsTerminal(LoggedState(log, x))
      ensures x in unsafeDue <==> x in open && !IsCompletedSessionCommand(x, env.calendar)
      ensures x in today <==> x in open && IsCompletedSessionCommand(x, env.calendar)
    {
      SelectMember(current, (c: Command) => IsTerminal(LoggedState(log, c)), x);
      UnresolvedMember(log, current, x);
      SelectMember(open, (c: Command) => !IsCompletedSessionCommand(c, env.calendar), x);
      SelectMember(open, (c: Command) => IsCompletedSessionCommand(c, env.calendar), x);
    }
    if ended != [] { assert ended[0] in ended; }
    if unsafeDue != [] { assert unsafeDue[0] in unsafeDue; }
  }

  lemma SelectionExactly(log: map<Command, seq<Event>>, env: RunEnv)
    requires Lists(env.listing, log)
    ensures SelectsExactly(log, env)
  {
    if env.config.scope.CompletedSession() {
      CompletedSessionSelection(log, env);
    } else {
      NextSessionSelection(log, env);
    }
  }

  // ----- the claim

  /** The commands in hand: the stored ones of the scope, and the one that is minted. */
  ghost predicate InHand(log: map<Command, seq<Event>>, env: RunEnv, x: Command)
  {
    || (x in log && x.scope == env.config.scope)
    || (NoneToday(log, env) && Admissible(env) && Carries(x, env))
  }

  ghost predicate IsOpen(log: map<Command, seq<Event>>, env: RunEnv, x: Command)
  {
    InHand(log, env, x) && !HasEnded(log, x)
  }

  /** The command is open and due, and no other is. */
  ghost predicate IsSoleDue(log: map<Command, seq<Event>>, env: RunEnv, c: Command)
  {
    IsOpen(log, env, c) && env.due(c) && forall x :: IsOpen(log, env, x) && env.due(x) ==> x == c
  }

  /** No open command was claimed before, or is overdue. */
  ghost predicate NonePrior(log: map<Command, seq<Event>>, env: RunEnv)
  {
    forall x :: IsOpen(log, env, x) ==> LoggedState(log, x) == QUEUED && env.session <= x.effectiveDate
  }

  ghost predicate AtMostOneToday(log: map<Command, seq<Event>>, env: RunEnv)
  {
    forall x, y :: IsToday(log, env, x) && IsToday(log, env, y) ==> x == y
  }

  /** The frozen plan of the command was resolved and may be executed, and the store grants the
      claim. */
  predicate Granted(env: RunEnv, c: Command)
  {
    ValidBinding(c, env.config) && env.frozenPlan == Some(false) && env.claimWins
  }

  lemma AtMostOne(commands: seq<Command>)
    requires Distinct(commands)
    ensures |commands| <= 1 <==> forall x, y :: x in commands && y in commands ==> x == y
  {
    if |commands| > 1 {
      assert commands[0] in commands && commands[1] in commands && commands[0] != commands[1];
    }
  }

  lemma ConsideredExactly(log: map<Command, seq<Event>>, env: RunEnv)
    requires Lists(env.listing, log)
    ensures var considered := Considered(env, Chosen(log, env));
            Distinct(considered) && forall x :: x in considered <==> InHand(log, env, x)
  {
    var chosen := Chosen(log, env);
    var matching := Matching(env.listing, env.config.scope);
    SelectionExactly(log, env);
    MatchingDistinct(env.listing, env.config.scope);
    forall x ensures x in matching <==> x in log && x.scope == env.config.scope {
      MatchingMember(env.listing, env.config.scope, x);
    }
    if chosen.minted.Some? {
      var c := chosen.minted.value;
      assert c in matching ==> IsToday(log, env, c);
      forall x ensures Carries(x, env) <==> x == c {}
    }
  }

  /** What the second pass sees. */
  lemma OpenExactly(log: map<Command, seq<Event>>, env: RunEnv)
    requires Lists(env.listing, log)
    ensures var open := Unresolved(log, Considered(env, Chosen(log, env)));
            && Distinct(open) && Distinct(Due(open, env))
            && (forall x :: x in open <==> IsOpen(log, env, x))
            && (forall x :: x in Due(open, env) <==> IsOpen(log, env, x) && env.due(x))
            && (Prior(log, open, env.session) == [] <==> NonePrior(log, env))
  {
    var considered := Considered(env, Chosen(log, env));
    var open := Unresolved(log, considered);
    ConsideredExactly(log, env);
    SelectDistinct(considered, (c: Command) => !IsTerminal(LoggedState(log, c)));
    SelectDistinct(open, (c: Command) => env.due(c));
    var prior := Prior(log, open, env.session);
    forall x
      ensures x in open <==> IsOpen(log, env, x)
      ensures x in Due(open, env) <==> x in open && env.due(x)
      ensures x in prior <==> x in open && (LoggedState(log, x) != QUEUED || x.effectiveDate < env.session)
    {
      UnresolvedMember(log, considered, x);
      SelectMember(open, (c: Command) => env.due(c), x);
      SelectMember(open, (c: Command) => LoggedState(log, c) != QUEUED || c.effectiveDate < env.session, x);
    }
    if prior != [] { assert prior[0] in prior; }
  }

  lemma TodayExactly(log: map<Command, seq<Event>>, env: RunEnv)
    requires Lists(env.listing, log) && GoesOn(log, env)
    ensures |Chosen(log, env).today| <= 1 <==> AtMostOneToday(log, env)
  {
    SelectionExactly(log, env);
    var chosen := Chosen(log, env);
    if chosen.minted.None? {
      AtMostOne(chosen.today);
    }
  }

  lemma DueExactly(due: seq<Command>, c: Command)
    requires Distinct(due)
    ensures |due| <= 1 && First(due) == Some(c) <==> c in due && forall x :: x in due ==> x == c
  {
    AtMostOne(due);
    if due != [] { assert due[0] in due; }
  }

  lemma ChoiceExactly(log: map<Command, seq<Event>>, env: RunEnv, c: Command)
    requires Lists(env.listing, log) && GoesOn(log, env)
    ensures Choose(log, Chosen(log, env), env) == Choice(Some(c), false) <==>
            IsSoleDue(log, env, c) && NonePrior(log, env) && AtMostOneToday(log, env)
  {
    var open := Unresolved(log, Considered(env, Chosen(log, env)));
    SelectionExactly(log, env);
    OpenExactly(log, env);
    TodayExactly(log, env);
    DueExactly(Due(open, env), c);
  }

  /** Exactly when a run claims a command: the selection for the session goes on; the command is
      the only one that is open and due; no open command of the scope was claimed before or is
      overdue, and at most one is for today; the command is bound, its frozen plan was resolved and
      is not blocked, and the store grants the claim. */
  lemma ClaimsExactly(log: map<Command, seq<Event>>, env: RunEnv, c: Command)
    requires Lists(env.listing, log)
    ensures Decide(log, env).claim == Some(c) <==>
            && GoesOn(log, env) && IsSoleDue(log, env, c)
            && NonePrior(log, env) && AtMostOneToday(log, env) && Granted(env, c)
  {
    SelectionExactly(log, env);
    if GoesOn(log, env) {
      ChoiceExactly(log, env, c);
      SettlesExactly(Chosen(log, env).minted, Choose(log, Chosen(log, env), env), Chosen(log, env).planUsed, env, c);
    } else if !Chosen(log, env).raises {
      BlockedStaysBlocked(log, env);
    }
  }

  lemma SettlesExactly(minted: Option<Command>, choice: Choice, planUsed: bool, env: RunEnv, c: Command)
    ensures Settle(minted, choice, planUsed, env).claim == Some(c) <==>
            choice == Choice(Some(c), false) && Granted(env, c)
    ensures Settle(minted, choice, planUsed, env).minted == minted
  {
  }

  lemma BlockedStaysBlocked(log: map<Command, seq<Event>>, env: RunEnv)
    requires Chosen(log, env).blocked
    ensures Decide(log, env).claim.None?
  {
  }

  /** A run mints exactly the plan of its evaluation, when nothing is stored for the session and
      the plan is for it and passes the risk gate; whether the run goes on afterwards or not. */
  lemma MintsExactly(log: map<Command, seq<Event>>, env: RunEnv, c: Command)
    requires Lists(env.listing, log)
    ensures Decide(log, env).minted == Some(c) <==> NoneToday(log, env) && Admissible(env) && Carries(c, env)
  {
    SelectionExactly(log, env);
    var chosen := Chosen(log, env);
    if !chosen.raises {
      SettlesExactly(chosen.minted, Choose(log, chosen, env), chosen.planUsed, env, c);
    }
    if chosen.minted.Some? {
      assert Carries(c, env) <==> c == chosen.minted.value;
    }
  }

  // ----- reconciliation

  /** The status of every order could be read. */
  ghost predicate AllRead(c: Command, count: nat, env: RunEnv)
  {
    forall i: nat :: i < count ==> env.fetch(c, i).Some?
  }

  lemma {:induction false} ReadExactly(c: Command, count: nat, env: RunEnv)
    ensures |ReadStatuses(c, count, env)| <= count
    ensures |ReadStatuses(c, count, env)| == count <==> AllRead(c, count, env)
    ensures forall i :: 0 <= i < |ReadStatuses(c, count, env)| ==>
              env.fetch(c, i) == Some(ReadStatuses(c, count, env)[i])
  {
    if count > 0 {
      ReadExactly(c, count - 1, env);
    }
  }

  /** The order is over; it is filled in part; or it still works. */
  predicate IsOver(s: BrokerStatus)
  {
    s == StatusFilled || s == StatusCancelled || s == StatusCanceled || s == StatusRejected || s == StatusExpired
  }

  predicate IsPartly(s: BrokerStatus) { s == StatusPartiallyFilled || s == StatusPartial }

  predicate IsAtWork(s: BrokerStatus) { s == StatusAccepted || s == StatusNew || s == StatusSubmitted }

  /** The command's orders were sent, and it is not finished. */
  predicate IsSubmitted(state: CommandState)
  {
    state != QUEUED && state != CLAIMED && state != FILLED && state != CANCELLED && state != REJECTED
  }

  /** The state that the statuses of some orders call for, if any. */
  ghost predicate CallFor(c: Command, count: nat, env: RunEnv, state: CommandState)
  {
    match state
    case FILLED => forall i: nat :: i < count ==> env.fetch(c, i) == Some(StatusFilled)
    case CANCELLED =>
      && (forall i: nat :: i < count ==> env.fetch(c, i).Some? && IsOver(env.fetch(c, i).value))
      && exists i: nat :: i < count && env.fetch(c, i) != Some(StatusFilled)
    case PARTIALLY_FILLED =>
      AllRead(c, count, env) && exists i: nat :: i < count && env.fetch(c, i).Some? && IsPartly(env.fetch(c, i).value)
    case ACCEPTED => forall i: nat :: i < count ==> env.fetch(c, i).Some? && IsAtWork(env.fetch(c, i).value)
    case _ => false
  }

  /** What holds of the statuses read holds of the answers, order by order. */
  lemma StatusesByOrder(c: Command, count: nat, env: RunEnv)
    requires AllRead(c, count, env)
    ensures var statuses := ReadStatuses(c, count, env);
            && ((forall s :: s in statuses ==> s == StatusFilled) <==>
                  forall i: nat :: i < count ==> env.fetch(c, i) == Some(StatusFilled))
            && ((forall s :: s in statuses ==> IsClosed(s)) <==>
                  forall i: nat :: i < count ==> env.fetch(c, i).Some? && IsOver(env.fetch(c, i).value))
            && ((exists s :: s in statuses && IsPartial(s)) <==>
                  exists i: nat :: i < count && env.fetch(c, i).Some? && IsPartly(env.fetch(c, i).value))
            && ((forall s :: s in statuses ==> IsWorking(s)) <==>
                  forall i: nat :: i < count ==> env.fetch(c, i).Some? && IsAtWork(env.fetch(c, i).value))
  {
    var statuses := ReadStatuses(c, count, env);
    ReadExactly(c, count, env);
    forall i: nat | i < count ensures statuses[i] in statuses && env.fetch(c, i) == Some(statuses[i]) {}
  }

  lemma CallForExactly(c: Command, count: nat, env: RunEnv, state: CommandState)
    requires 0 < count && AllRead(c, count, env)
    ensures ReconciledState(ReadStatuses(c, count, env)) == Some(state) <==> CallFor(c, count, env, state)
  {
    ReadExactly(c, count, env);
    StatusesByOrder(c, count, env);
    CalledFor(ReadStatuses(c, count, env), state);
  }

  lemma CalledFor(statuses: seq<BrokerStatus>, state: CommandState)
    requires statuses != []
    ensures ReconciledState(statuses) == Some(state) <==>
            match state
            case FILLED => forall s :: s in statuses ==> s == StatusFilled
            case CANCELLED =>
              (forall s :: s in statuses ==> IsClosed(s)) && !(forall s :: s in statuses ==> s == StatusFilled)
            case PARTIALLY_FILLED => exists s :: s in statuses && IsPartial(s)
            case ACCEPTED => forall s :: s in statuses ==> IsWorking(s)
            case _ => false
  {
    ReconciliationEndsCommand(statuses);
  }

  /** Reconciliation moves the command to this state: it was submitted and is not finished, each
      of its orders has an id and a status that can be read, these call for another state than
      it has, and the store does not refuse the event. */
  ghost predicate ReconcilesTo(events: seq<Event>, c: Command, env: RunEnv, state: CommandState)
  {
    && IsSubmitted(StateOf(events)) && env.fetchable
    && Traceable(OrdersOf(events)) && AllRead(c, |OrdersOf(events)|, env)
    && CallFor(c, |OrdersOf(events)|, env, state) && state != StateOf(events) && !env.refused(c)
  }

  /** A command's log after reconciliation: one event more, with the same orders, if there is a
      state to move to. */
  ghost predicate ReconciledLog(before: seq<Event>, after: seq<Event>, c: Command, env: RunEnv)
  {
    && (forall state :: ReconcilesTo(before, c, env, state) ==> after == before + [Event(state, OrdersOf(before))])
    && ((forall state :: !ReconcilesTo(before, c, env, state)) ==> after == before)
  }

  lemma {:induction false} ObservationsKeepLog(w: World, orders: seq<BrokerFacts.Order>, statuses: seq<BrokerStatus>)
    requires |statuses| <= |orders|
    ensures ApplyAll(w, Observations(orders, statuses)).log == w.log
    decreases |statuses|
  {
    if statuses != [] {
      var seen := Observations(orders, statuses);
      assert seen[1..] == Observations(orders[1..], statuses[1..]);
      ObservationsKeepLog(Apply(w, seen[0]), orders[1..], statuses[1..]);
    }
  }

  /** The statuses that are read of a command's orders. */
  function TraceStatuses(events: seq<Event>, c: Command, env: RunEnv): (statuses: seq<BrokerStatus>)
    ensures |statuses| <= |OrdersOf(events)|
  {
    ReadStatusesLength(c, |OrdersOf(events)|, env);
    ReadStatuses(c, |OrdersOf(events)|, env)
  }

  /** The trace of one command: observations, and at most one event. */
  lemma TraceExactly(events: seq<Event>, c: Command, env: RunEnv)
    ensures var t, orders := ReconcileTrace(events, c, env), OrdersOf(events);
            var seen := Observations(orders, TraceStatuses(events, c, env));
            && ((forall state :: !ReconcilesTo(events, c, env, state)) ==> t == [] || t == seen)
            && (forall state :: ReconcilesTo(events, c, env, state) ==>
                  t == seen + [Append(c, Event(state, orders))])
  {
    var orders := OrdersOf(events);
    ReadExactly(c, |orders|, env);
    if Traceable(orders) && AllRead(c, |orders|, env) {
      forall state
        ensures ReconciledState(ReadStatuses(c, |orders|, env)) == Some(state) <==> CallFor(c, |orders|, env, state)
      {
        CallForExactly(c, |orders|, env, state);
      }
      var next := ReconciledState(ReadStatuses(c, |orders|, env));
      var moves := next.Some? && next.value != StateOf(events) && !env.refused(c);
      if moves && IsReconcilable(StateOf(events)) && env.fetchable {
        assert ReconcilesTo(events, c, env, next.value);
      }
    }
  }

  lemma TraceMoves(w: World, c: Command, env: RunEnv, state: CommandState)
    requires c in w.log && ReconcilesTo(w.log[c], c, env, state)
    ensures ApplyAll(w, ReconcileTrace(w.log[c], c, env)).log
            == w.log[c := w.log[c] + [Event(state, OrdersOf(w.log[c]))]]
  {
    var orders := OrdersOf(w.log[c]);
    var seen := Observations(orders, TraceStatuses(w.log[c], c, env));
    TraceExactly(w.log[c], c, env);
    ObservationsKeepLog(w, orders, TraceStatuses(w.log[c], c, env));
    ProtocolSafety.ApplyAllConcat(w, seen, [Append(c, Event(state, orders))]);
    SingleStep(ApplyAll(w, seen), env.session, Append(c, Event(state, orders)));
  }

  lemma TraceStays(w: World, c: Command, env: RunEnv)
    requires c in w.log && forall state :: !ReconcilesTo(w.log[c], c, env, state)
    ensures ApplyAll(w, ReconcileTrace(w.log[c], c, env)).log == w.log
  {
    TraceExactly(w.log[c], c, env);
    ObservationsKeepLog(w, OrdersOf(w.log[c]), TraceStatuses(w.log[c], c, env));
  }

  lemma TraceApplied(w: World, c: Command, env: RunEnv)
    requires c in w.log
    ensures var log := ApplyAll(w, ReconcileTrace(w.log[c], c, env)).log;
            c in log && log == w.log[c := log[c]] && ReconciledLog(w.log[c], log[c], c, env)
  {
    forall state | ReconcilesTo(w.log[c], c, env, state)
      ensures ApplyAll(w, ReconcileTrace(w.log[c], c, env)).log
              == w.log[c := w.log[c] + [Event(state, OrdersOf(w.log[c]))]]
    {
      TraceMoves(w, c, env, state);
    }
    if forall state :: !ReconcilesTo(w.log[c], c, env, state) {
      TraceStays(w, c, env);
    }
  }

  /** Every one of these commands is reconciled, and no other log moves. */
  ghost predicate Reconciled(before: map<Command, seq<Event>>, after: map<Command, seq<Event>>, commands: seq<Command>,
                             env: RunEnv)
  {
    && after.Keys == before.Keys
    && forall c :: c in before ==>
         if c in commands then ReconciledLog(before[c], after[c], c, env) else after[c] == before[c]
  }

  lemma ReconciledInTurn(before: map<Command, seq<Event>>, one: map<Command, seq<Event>>,
                         after: map<Command, seq<Event>>, commands: seq<Command>, env: RunEnv)
    requires commands != [] && Distinct(commands) && commands[0] in before && commands[0] in one
    requires one == before[commands[0] := one[commands[0]]]
    requires ReconciledLog(before[commands[0]], one[commands[0]], commands[0], env)
    requires Reconciled(one, after, commands[1..], env)
    ensures Reconciled(before, after, commands, env)
  {
    assert commands == [commands[0]] + commands[1..];
    assert commands[0] !in commands[1..];
  }

  lemma {:induction false} AllReconciled(w: World, log: map<Command, seq<Event>>, commands: seq<Command>, env: RunEnv)
    requires Distinct(commands) && forall c :: c in commands ==> c in log && c in w.log && log[c] == w.log[c]
    ensures Reconciled(w.log, ApplyAll(w, ReconcileAll(log, commands, env)).log, commands, env)
    decreases |commands|
  {
    if commands != [] {
      var c, rest := commands[0], commands[1..];
      var w1 := ApplyAll(w, ReconcileTrace(log[c], c, env));
      TraceApplied(w, c, env);
      RestStays(w.log, w1.log, commands);
      AllReconciled(w1, log, rest, env);
      ProtocolSafety.ApplyAllConcat(w, ReconcileTrace(log[c], c, env), ReconcileAll(log, rest, env));
      ReconciledInTurn(w.log, w1.log, ApplyAll(w1, ReconcileAll(log, rest, env)).log, commands, env);
    }
  }

  lemma RestStays(before: map<Command, seq<Event>>, one: map<Command, seq<Event>>, commands: seq<Command>)
    requires commands != [] && Distinct(commands) && (forall c :: c in commands ==> c in before)
    requires commands[0] in one && one == before[commands[0] := one[commands[0]]]
    ensures Distinct(commands[1..])
    ensures forall c :: c in commands[1..] ==> c in commands && c in one && one[c] == before[c]
  {
    assert commands[0] !in commands[1..];
  }

  /** Exactly what reconciliation does to the store: every command of the scope gets the state that
      its orders call for, with the orders unchanged, and no other log moves. */
  lemma ReconcilesExactly(w: World, env: RunEnv, c: Command)
    requires Lists(env.listing, w.log) && c in w.log
    ensures Settled(w, env).log.Keys == w.log.Keys
    ensures if c.scope == env.config.scope then ReconciledLog(w.log[c], Settled(w, env).log[c], c, env)
            else Settled(w, env).log[c] == w.log[c]
  {
    var matching := Matching(env.listing, env.config.scope);
    var commands := Unresolved(w.log, matching);
    MatchingDistinct(env.listing, env.config.scope);
    SelectDistinct(matching, (c: Command) => !IsTerminal(LoggedState(w.log, c)));
    forall d ensures d in commands <==> d in w.log && d.scope == env.config.scope && !IsTerminal(StateOf(w.log[d])) {
      UnresolvedMember(w.log, matching, d);
      MatchingMember(env.listing, env.config.scope, d);
    }
    AllReconciled(w, w.log, commands, env);
  }

  // ----- the whole run

  /** An unfinished command of the scope does not pass the binding checks. */
  ghost predicate Misbound(log: map<Command, seq<Event>>, env: RunEnv)
  {
    exists c :: c in log && c.scope == env.config.scope && !HasEnded(log, c) && !ValidBinding(c, env.config)
  }

  /** Nothing says that the execution was made before. */
  predicate IsFirst(env: RunEnv) { env.marker == Absent && env.priorReport == Absent }

  /** A marker or a report was found, before anything could not be read. */
  predicate IsKnown(env: RunEnv)
  {
    env.marker == Present || (env.marker == Absent && env.priorReport == Present)
  }

  /** What follows the claim of a command: with a sound identity, all orders of the cycle and its
      outcome if the execution is the first; an outcome of nothing done if it is known; and nothing
      at all if neither can be told. */
  function AfterClaim(c: Command, env: RunEnv): seq<Action>
  {
    if env.identityBlocked then []
    else if IsFirst(env) then Sends(Some(c), env.calls) + Outcome(c, env.report, env.outcomeAppends)
    else if IsKnown(env) then Outcome(c, CycleReport([], false, env.report.noExecute), env.outcomeAppends)
    else []
  }

  lemma TailAfterClaim(log: map<Command, seq<Event>>, env: RunEnv)
    requires Decide(log, env).claim.Some?
    ensures TailOf(Decide(log, env), env) == AfterClaim(Decide(log, env).claim.value, env)
  {
    ClaimStops(log, env);
    RouteAfterClaim(Decide(log, env), env);
  }

  lemma RouteAfterClaim(d: Decision, env: RunEnv)
    requires d.claim.Some? && !d.raises && !d.blocked
    ensures TailOf(d, env) == AfterClaim(d.claim.value, env)
  {
  }

  lemma ClaimStops(log: map<Command, seq<Event>>, env: RunEnv)
    requires Decide(log, env).claim.Some?
    ensures !Decide(log, env).raises && !Decide(log, env).blocked
  {
  }

  lemma TailWithoutClaim(w: World, env: RunEnv)
    requires ProtocolSafety.Inv(w, env.session) && WellFormed(w.log, env) && Decide(w.log, env).claim.None?
    ensures TailOf(Decide(w.log, env), env) == []
  {
    SendsUnclaimedIffGap(w.log, env);
    GapIsUnreachable(w, env);
  }

  /** Exactly what a run writes, from any reachable store. With an unfinished command of its scope
      that is not bound it writes nothing. Otherwise it reconciles, mints and claims as
      `ReconcilesExactly`, `MintsExactly` and `ClaimsExactly` say; and only a claim is followed by
      anything. */
  lemma RunsExactly(w: World, env: RunEnv)
    requires ProtocolSafety.Inv(w, env.session) && WellFormed(w.log, env)
    ensures Misbound(w.log, env) ==> RunTrace(w, env) == []
    ensures !Misbound(w.log, env) ==>
              var d := Decide(Settled(w, env).log, env);
              RunTrace(w, env)
              == Reconciliation(w, env)
                 + ((if d.minted.Some? then [Enqueue(d.minted.value)] else [])
                    + (if d.claim.Some? then [Claim(d.claim.value)] else [])
                    + if d.claim.Some? then AfterClaim(d.claim.value, env) else [])
  {
    MisboundExactly(w.log, env);
    if !Misbound(w.log, env) {
      var s := Settled(w, env);
      ReconciliationLegal(w, env);
      if Decide(s.log, env).claim.Some? {
        TailAfterClaim(s.log, env);
      } else {
        TailWithoutClaim(s, env);
      }
    }
  }

  lemma MisboundExactly(log: map<Command, seq<Event>>, env: RunEnv)
    requires Lists(env.listing, log)
    ensures BindingInvalid(log, env) <==> Misbound(log, env)
  {
    var matching := Matching(env.listing, env.config.scope);
    forall c
      ensures c in Unresolved(log, matching) <==> c in log && c.scope == env.config.scope && !HasEnded(log, c)
    {
      UnresolvedMember(log, matching, c);
      MatchingMember(env.listing, env.config.scope, c);
    }
  }

  /** No claim of a command whose frozen plan is blocked or cannot be resolved, and no order after
      such an answer. */
  lemma BlockedPlanSendsNothing(w: World, env: RunEnv, a: Action)
    requires ProtocolSafety.Inv(w, env.session) && WellFormed(w.log, env)
    requires env.frozenPlan != Some(false) && a in RunTrace(w, env)
    ensures !a.Claim? && !a.Send?
  {
    RunsExactly(w, env);
    var log := Settled(w, env).log;
    ReconciliationLegal(w, env);
    if d :| Decide(log, env).claim == Some(d) {
      ClaimsExactly(log, env, d);
    }
    if a in Reconciliation(w, env) {
      Histories.ReconcileSteps(w.log, Unresolved(w.log, Matching(env.listing, env.config.scope)), env, a);
    }
  }
}
