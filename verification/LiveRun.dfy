/** The live path of `run_strategy` in its own imperative form: mutable flags, loops over the
    commands and orders, and events appended to the store. */
module LiveRun {
  import opened Wrappers

  import BrokerFacts
  import opened LiveCommands
  import opened LiveProtocol
  import ProtocolSafety
  import opened ProtocolRuns

  /** The durable command store and the broker, as one run uses them. The journal lists every
      step taken since the store was empty. */
  class LiveDesk {
    var log: map<Command, seq<Event>>
    ghost var journal: seq<Action>

    ghost function World(): World
      reads this
    {
      ApplyAll(EMPTY_WORLD, journal)
    }

    ghost predicate Valid()
      reads this
    {
      log == World().log
    }

    constructor ()
      ensures Valid() && journal == []
    {
      log := map[];
      journal := [];
    }

    ghost method Note(a: Action)
      modifies this`journal
      ensures journal == old(journal) + [a]
      ensures World() == Apply(old(World()), a)
    {
      ProtocolSafety.ApplyAllConcat(EMPTY_WORLD, journal, [a]);
      SingleStep(World(), 0, a);
      journal := journal + [a];
    }

    /** `append_event`: the store either refuses, or adds one event at the end. */
    method AppendEvent(c: Command, e: Event, accepted: bool) returns (ok: bool)
      requires Valid() && c in log
      modifies this
      ensures Valid() && ok == accepted
      ensures log == if accepted then old(log)[c := old(log)[c] + [e]] else old(log)
      ensures journal == if accepted then old(journal) + [Append(c, e)] else old(journal)
    {
      ok := accepted;
      if accepted {
        log := log[c := log[c] + [e]];
        Note(Append(c, e));
      }
    }

    /** `enqueue`: created once; a command that is already stored keeps its log. */
    method EnqueueCommand(c: Command) returns (created: bool)
      requires Valid()
      modifies this
      ensures Valid() && created == (c !in old(log))
      ensures log == if created then old(log)[c := []] else old(log)
      ensures journal == old(journal) + [Enqueue(c)]
    {
      created := c !in log;
      if created {
        log := log[c := []];
      }
      Note(Enqueue(c));
    }

    /** `claim_due`: when it returns a claim, the command was queued and is claimed in one step. */
    method ClaimDue(c: Command, wins: bool) returns (claimed: bool)
      requires Valid() && c in log
      requires wins ==> log[c] == []
      modifies this
      ensures Valid() && claimed == wins
      ensures log == if wins then old(log)[c := [Event(CLAIMED, [])]] else old(log)
      ensures journal == if wins then old(journal) + [Claim(c)] else old(journal)
    {
      claimed := wins;
      if wins {
        assert log[c] + [Event(CLAIMED, [])] == [Event(CLAIMED, [])];
        log := log[c := log[c] + [Event(CLAIMED, [])]];
        Note(Claim(c));
      }
    }

    /** The states that an outcome calls for. */
    method OutcomeTargets(report: CycleReport) returns (targets: seq<CommandState>)
      ensures targets == OutcomeStates(report)
    {
      var pending := report.pending;
      if pending != [] && forall o :: o in pending ==> o.submission == BrokerFacts.Filled {
        targets := [SUBMITTED, ACCEPTED, FILLED];
      } else if
        && pending != []
        && (forall o :: o in pending ==> o.submission == BrokerFacts.Submitted || o.submission == BrokerFacts.Accepted)
        && (forall o :: o in pending ==> o.brokerId != "")
      {
        targets := [SUBMITTED];
        if forall o :: o in pending ==> o.submission == BrokerFacts.Accepted {
          targets := targets + [ACCEPTED];
        }
      } else if pending != [] || report.actionDone {
        targets := [RECONCILIATION_REQUIRED];
      } else {
        targets := [if report.noExecute then REJECTED else CANCELLED];
      }
    }

    /** Append events of these states until the store refuses one. */
    method AppendStates(c: Command, targets: seq<CommandState>, orders: seq<BrokerFacts.Order>, accepted: nat)
      requires Valid() && c in log
      modifies this
      ensures Valid() && log.Keys == old(log).Keys
      ensures var n := if accepted < |targets| then accepted else |targets|;
              journal == old(journal) + Appends(c, targets[..n], orders)
    {
      var n := 0;
      ghost var all := Appends(c, targets, orders);
      while n < |targets|
        invariant n <= |targets| && n <= accepted
        invariant Valid() && c in log && log.Keys == old(log).Keys
        invariant journal == old(journal) + all[..n]
      {
        var ok := AppendEvent(c, Event(targets[n], orders), n < accepted);
        if !ok { break; }
        assert all[..n + 1] == all[..n] + [all[n]];
        n := n + 1;
      }
      assert all[..n] == Appends(c, targets[..n], orders);
    }

    /** `_record_live_command_outcome`. The store accepts the given number of events. */
    method RecordOutcome(c: Command, report: CycleReport, accepted: nat)
      requires Valid() && c in log
      modifies this
      ensures Valid() && log.Keys == old(log).Keys
      ensures journal == old(journal) + Outcome(c, report, accepted)
    {
      var targets := OutcomeTargets(report);
      AppendStates(c, targets, report.pending, accepted);
      OutcomeIsAppends(c, report, accepted);
    }

    /** The status read of each order, up to the first that cannot be read. */
    method ReadOrders(c: Command, orders: seq<BrokerFacts.Order>, env: RunEnv) returns (statuses: seq<BrokerStatus>)
      requires Valid()
      modifies this`journal
      ensures Valid()
      ensures statuses == ReadStatuses(c, |orders|, env) && |statuses| <= |orders|
      ensures journal == old(journal) + Observations(orders, statuses)
    {
      statuses := [];
      while |statuses| < |orders|
        invariant |statuses| <= |orders|
        invariant statuses == ReadStatuses(c, |statuses|, env)
        invariant Valid()
        invariant journal == old(journal) + Observations(orders, statuses)
      {
        var i := |statuses|;
        var reply := env.fetch(c, i);
        if reply.None? {
          ReadStops(c, i, |orders|, env);
          return;
        }
        ghost var seen := Observations(orders, statuses);
        Note(Observe(orders[i].brokerId, reply.value));
        statuses := statuses + [reply.value];
        assert Observations(orders, statuses) == seen + [Observe(orders[i].brokerId, reply.value)];
      }
    }

    /** `_reconcile_live_command`. */
    method ReconcileCommand(c: Command, env: RunEnv)
      requires Valid() && c in log
      modifies this
      ensures Valid() && c in log && log == old(log)[c := log[c]]
      ensures journal == old(journal) + ReconcileTrace(old(log)[c], c, env)
    {
      var state, orders := StateOf(log[c]), OrdersOf(log[c]);
      if !IsReconcilable(state) || !env.fetchable || !Traceable(orders) {
        return;
      }
      var statuses := ReadOrders(c, orders, env);
      if |statuses| < |orders| {
        return;
      }
      var next := ReconciledState(statuses);
      if next.Some? && next.value != state {
        var ok := AppendEvent(c, Event(next.value, orders), !env.refused(c));
      }
    }

    /** The reconciliation loop of `run_strategy`. */
    method ReconcileCommands(commands: seq<Command>, env: RunEnv)
      requires Valid() && Distinct(commands) && forall c :: c in commands ==> c in log
      modifies this
      ensures Valid()
      ensures journal == old(journal) + ReconcileAll(old(log), commands, env)
    {
      var rest := commands;
      while rest != []
        invariant Valid() && Distinct(rest) && forall c :: c in rest ==> c in log
        invariant journal + ReconcileAll(log, rest, env) == old(journal) + ReconcileAll(old(log), commands, env)
        decreases |rest|
      {
        ghost var log0, journal0 := log, journal;
        ReconcileCommand(rest[0], env);
        ReconcileStep(log0, log, rest, env);
        Regroup(journal0, ReconcileTrace(log0[rest[0]], rest[0], env), ReconcileAll(log, rest[1..], env));
        rest := rest[1..];
      }
    }

    /** The first loop of the live path: unresolved commands must validate, or the run stops
        before it reconciles anything. */
    method CheckBindings(matching: seq<Command>, env: RunEnv) returns (valid: bool, unresolved: seq<Command>)
      ensures valid <==> forall c :: c in Unresolved(log, matching) ==> ValidBinding(c, env.config)
      ensures valid ==> unresolved == Unresolved(log, matching)
    {
      valid, unresolved := true, [];
      var n := 0;
      while n < |matching|
        invariant n <= |matching|
        invariant unresolved == Unresolved(log, matching[..n])
        invariant forall c :: c in unresolved ==> ValidBinding(c, env.config)
      {
        var c := matching[n];
        UnresolvedSnoc(log, matching, n);
        if !IsTerminal(LoggedState(log, c)) {
          if !ValidBinding(c, env.config) {
            UnresolvedMember(log, matching, c);
            return false, unresolved;
          }
          unresolved := unresolved + [c];
        }
        n := n + 1;
      }
      assert matching[..n] == matching;
    }

    /** Evaluate the strategy, check that its decision is for this session, and enqueue it
        unless the risk gate blocks it. */
    method MintCommand(env: RunEnv) returns (chosen: Selection)
      requires Valid()
      modifies this
      ensures Valid()
      ensures chosen == if env.config.scope.CompletedSession()
                        then Mint(env, (e: ExecutionIntent) => IsCompletedSessionPlan(e, env.session))
                        else Mint(env, (e: ExecutionIntent) =>
                                         e.signalDate == env.session && e.effectiveDate > env.session)
      ensures journal == old(journal) + MintOf(chosen)
    {
      if env.plan.None? {
        return NoSelection();
      }
      var plan := env.plan.value;
      if env.config.scope.CompletedSession() {
        if !IsCompletedSessionPlan(plan.execution, env.session) {
          return NoSelection();
        }
      } else if plan.execution.signalDate != env.session || plan.execution.effectiveDate <= env.session {
        return NoSelection();
      }
      if plan.blocked {
        return Selection(None, true, [], None, true, false);
      }
      var c := BuildLiveCommand(env.config, plan.execution, plan.allocation);
      var created := EnqueueCommand(c);
      chosen := Selection(None, false, [c], Some(c), true, false);
    }

    /** What this session already has, and what is minted for it. */
    method SelectCommands(matching: seq<Command>, env: RunEnv) returns (chosen: Selection)
      requires Valid()
      modifies this
      ensures Valid()
      ensures chosen == SelectToday(old(log), matching, env)
      ensures journal == old(journal) + MintOf(chosen)
    {
      var states := log;
      if env.config.scope.CompletedSession() {
        var current := Select(matching, (c: Command) => c.effectiveDate == env.session);
        var ended := Select(current, (c: Command) => IsTerminal(LoggedState(states, c)));
        var open := Unresolved(states, current);
        var unsafeDue := Select(open, (c: Command) => !IsCompletedSessionCommand(c, env.calendar));
        var today := Select(open, (c: Command) => IsCompletedSessionCommand(c, env.calendar));
        chosen := Selection(None, false, today, None, false, false);
        if ended != [] {
          chosen := chosen.(live := Some(ended[0]), blocked := true);
        } else if unsafeDue != [] {
          chosen := chosen.(live := Some(unsafeDue[0]), blocked := true);
        } else if today == [] {
          chosen := MintCommand(env);
        }
      } else {
        var today := Select(matching, (c: Command) => c.signalDate == env.session);
        if today == [] {
          chosen := MintCommand(env);
        } else {
          chosen := Selection(None, false, today, None, false, false);
        }
      }
    }

    /** Blocked, waiting, or due: which command is in hand. */
    method ChooseCommand(matching: seq<Command>, chosen: Selection, env: RunEnv)
      returns (live: Option<Command>, blocked: bool)
      requires matching == Considered(env, chosen)
      ensures Choice(live, blocked) == Choose(log, chosen, env)
    {
      var states := log;
      var open := Unresolved(states, matching);
      var due := Select(open, (c: Command) => env.due(c));
      var prior := Select(open, (c: Command) => LoggedState(states, c) != QUEUED || c.effectiveDate < env.session);
      live, blocked := chosen.live, chosen.blocked;
      if blocked || prior != [] || |due| > 1 || |chosen.today| > 1 {
        var candidates := if prior != [] then prior else if due != [] then due else chosen.today;
        if live.None? && candidates != [] {
          live := Some(candidates[0]);
        }
        blocked := true;
      } else if due != [] {
        live := Some(due[0]);
      } else if open != [] {
        live := Some(open[0]);
        blocked := true;
      } else {
        live := None;
      }
    }

    /** The cycle behind the run's gates, and the outcome of a claimed command. */
    method ExecuteCycle(d: Decision, env: RunEnv)
      requires Valid() && (d.claim.Some? ==> d.claim.value in log)
      modifies this
      ensures Valid()
      ensures journal == old(journal) + Tail(d, env)
    {
      var claimed := d.claim.Some?;
      var recorded := (env.plan.Some? && RequiresDurableCommand(env.plan.value.execution) && !claimed)
                      || env.identityBlocked || d.blocked;
      var deduplicated := false;
      if !recorded {
        match env.marker {
          case Present => recorded, deduplicated := true, true;
          case ReadError => recorded := claimed;
          case Absent =>
        }
        if !recorded {
          match env.priorReport {
            case Present => recorded, deduplicated := true, true;
            case ReadError => recorded := claimed;
            case Absent =>
          }
        }
      }
      if recorded {
        if claimed && deduplicated {
          RecordOutcome(d.claim.value, NothingDone(env), env.outcomeAppends);
        }
        return;
      }
      SendCalls(d, env);
      if claimed {
        RecordOutcome(d.claim.value, env.report, env.outcomeAppends);
      }
    }

    /** The broker calls of the cycle. */
    method SendCalls(d: Decision, env: RunEnv)
      requires Valid()
      modifies this`journal
      ensures Valid() && journal == old(journal) + Sends(d.claim, env.calls)
    {
      var n := 0;
      ghost var sends := Sends(d.claim, env.calls);
      while n < |env.calls|
        invariant n <= |env.calls| && Valid()
        invariant journal == old(journal) + sends[..n]
      {
        Note(Send(d.claim, env.calls[n]));
        assert sends[..n + 1] == sends[..n] + [sends[n]];
        n := n + 1;
      }
      assert sends[..n] == sends;
    }

    /** Choose the command in hand and claim it, if this run may. */
    method ClaimCommand(chosen: Selection, env: RunEnv, ghost w: World) returns (d: Decision)
      requires Valid() && ProtocolSafety.Inv(w, env.session) && WellFormed(w.log, env)
      requires chosen == Chosen(w.log, env) && !chosen.raises
      requires World() == ApplyAll(w, MintOf(chosen))
      modifies this
      ensures Valid()
      ensures d == Decide(w.log, env)
      ensures journal == old(journal) + ClaimTrace(d)
      ensures d.claim.Some? ==> d.claim.value in log
    {
      QueuedWhileMinted(w, log, env);
      DecideIsSettle(w.log, env);
      ghost var choice := Choose(w.log, chosen, env);
      var matching := Matching(env.listing, env.config.scope);
      if chosen.minted.Some? {
        matching := matching + [chosen.minted.value];
      }
      var live, blocked := ChooseCommand(matching, chosen, env);
      assert Choice(live, blocked) == choice;
      if live.None? {
        return Decision(chosen.minted, None, blocked, !chosen.planUsed && env.plan.None?);
      }
      if !ValidBinding(live.value, env.config) || env.frozenPlan.None? {
        return Decision(chosen.minted, None, blocked, true);
      }
      if blocked || env.frozenPlan.value || !env.claimWins {
        return Decision(chosen.minted, None, true, false);
      }
      d := Decision(chosen.minted, live, false, false);
      ClaimableNow(w, env);
      var claimed := ClaimDue(live.value, true);
    }

    /** Validate and reconcile what is unresolved. */
    method SettleCommands(env: RunEnv) returns (valid: bool)
      requires Valid() && Lists(env.listing, log)
      modifies this
      ensures Valid() && valid == !BindingInvalid(old(log), env)
      ensures journal == old(journal) + if valid then Reconciliation(old(World()), env) else []
      ensures World() == if valid then Settled(old(World()), env) else old(World())
    {
      var unresolved;
      MatchingUnresolved(log, env);
      valid, unresolved := CheckBindings(Matching(env.listing, env.config.scope), env);
      if valid {
        ProtocolSafety.ApplyAllConcat(EMPTY_WORLD, journal, Reconciliation(World(), env));
        ReconcileCommands(unresolved, env);
      }
    }

    /** Select, claim and execute. */
    method SelectAndExecute(env: RunEnv)
      requires Valid() && ProtocolSafety.Inv(World(), env.session) && WellFormed(log, env)
      modifies this
      ensures Valid()
      ensures journal == old(journal) + Continuation(old(log), env)
    {
      ghost var w := World();
      var chosen := SelectCommands(Matching(env.listing, env.config.scope), env);
      ProtocolSafety.ApplyAllConcat(EMPTY_WORLD, old(journal), MintOf(chosen));
      ContinuationInOrder(old(journal), w.log, env);
      if !chosen.raises {
        var d := ClaimCommand(chosen, env, w);
        if !d.raises {
          ExecuteCycle(d, env);
        }
      }
    }

    /** `run_strategy` with the durable live commands enabled. */
    method RunStrategy(env: RunEnv)
      requires Valid() && ProtocolSafety.Inv(World(), env.session) && WellFormed(log, env)
      modifies this
      ensures Valid() && ProtocolSafety.Inv(World(), env.session)
      ensures journal == old(journal) + RunTrace(old(World()), env)
    {
      RunCompletes(World(), env);
      ProtocolSafety.ApplyAllConcat(EMPTY_WORLD, journal, RunTrace(World(), env));
      ReconciliationLegal(World(), env);
      RunInOrder(journal, World(), env);
      var valid := SettleCommands(env);
      if valid {
        SelectAndExecute(env);
      }
    }
  }

  function MintOf(chosen: Selection): seq<Action>
  {
    if chosen.minted.Some? then [Enqueue(chosen.minted.value)] else []
  }

  /** The steps of a continuation, in the order in which a run adds them to its journal. */
  lemma ContinuationInOrder(journal: seq<Action>, log: map<Command, seq<Event>>, env: RunEnv)
    ensures var chosen, d := Chosen(log, env), Decide(log, env);
            journal + Continuation(log, env) ==
              if chosen.raises then journal + MintOf(chosen)
              else journal + MintOf(chosen) + ClaimTrace(d) + TailOf(d, env)
  {
    DecideIsSettle(log, env);
    var d := Decide(log, env);
    ConcatInOrder(journal, MintTrace(d), ClaimTrace(d), TailOf(d, env));
  }

  lemma ConcatInOrder<T>(a: seq<T>, b: seq<T>, c: seq<T>, d: seq<T>)
    ensures a + ((b + c) + d) == a + b + c + d
    ensures a + [] == a
  {
  }

  lemma RunInOrder(journal: seq<Action>, w: World, env: RunEnv)
    ensures journal + RunTrace(w, env) ==
              if BindingInvalid(w.log, env) then journal
              else journal + Reconciliation(w, env) + Continuation(Settled(w, env).log, env)
  {
    ConcatInOrder(journal, [], Reconciliation(w, env), Continuation(Settled(w, env).log, env));
    assert [] + Reconciliation(w, env) == Reconciliation(w, env);
  }

  lemma DecideIsSettle(log: map<Command, seq<Event>>, env: RunEnv)
    ensures var chosen := Chosen(log, env);
            && (chosen.raises ==> MintOf(chosen) == [] && Continuation(log, env) == [])
            && (!chosen.raises ==>
                  && Decide(log, env) == Settle(chosen.minted, Choose(log, chosen, env), chosen.planUsed, env)
                  && MintTrace(Decide(log, env)) == MintOf(chosen))
  {
  }

  /** Reconciling other commands does not depend on this one's log. */
  lemma {:induction false} ReconcileAllFrame(log: map<Command, seq<Event>>, commands: seq<Command>, c: Command,
                                             events: seq<Event>, env: RunEnv)
    requires c in log && c !in commands
    ensures ReconcileAll(log[c := events], commands, env) == ReconcileAll(log, commands, env)
  {
    if commands != [] {
      ReconcileAllFrame(log, commands[1..], c, events, env);
    }
  }

  /** The first command is reconciled as its log says; the others are where it leaves them. */
  lemma ReconcileStep(before: map<Command, seq<Event>>, after: map<Command, seq<Event>>, commands: seq<Command>,
                      env: RunEnv)
    requires commands != [] && Distinct(commands) && commands[0] in before && commands[0] in after
    requires after == before[commands[0] := after[commands[0]]]
    ensures ReconcileAll(before, commands, env)
            == ReconcileTrace(before[commands[0]], commands[0], env) + ReconcileAll(after, commands[1..], env)
  {
    ReconcileAllFrame(before, commands[1..], commands[0], after[commands[0]], env);
  }

  /** Reading stops for good at the first unreadable order. */
  lemma {:induction false} ReadStops(c: Command, i: nat, count: nat, env: RunEnv)
    requires i < count && env.fetch(c, i).None?
    requires |ReadStatuses(c, i, env)| == i
    ensures ReadStatuses(c, count, env) == ReadStatuses(c, i, env)
  {
    if i < count - 1 {
      ReadStops(c, i, count - 1, env);
    }
  }

  lemma UnresolvedSnoc(log: map<Command, seq<Event>>, commands: seq<Command>, n: nat)
    requires n < |commands|
    ensures Unresolved(log, commands[..n + 1]) ==
            Unresolved(log, commands[..n]) + if IsTerminal(LoggedState(log, commands[n])) then [] else [commands[n]]
  {
    SelectSnoc(commands[..n], (c: Command) => !IsTerminal(LoggedState(log, c)), commands[n]);
    assert commands[..n + 1] == commands[..n] + [commands[n]];
  }

  lemma MatchingUnresolved(log: map<Command, seq<Event>>, env: RunEnv)
    requires Lists(env.listing, log)
    ensures var unresolved := Unresolved(log, Matching(env.listing, env.config.scope));
            Distinct(unresolved) && forall c :: c in unresolved ==> c in log
  {
    var matching := Matching(env.listing, env.config.scope);
    MatchingDistinct(env.listing, env.config.scope);
    SelectDistinct(matching, (c: Command) => !IsTerminal(LoggedState(log, c)));
    forall c | c in Unresolved(log, matching) ensures c in log {
      UnresolvedMember(log, matching, c);
      MatchingMember(env.listing, env.config.scope, c);
    }
  }

  lemma RunCompletes(w: World, env: RunEnv)
    requires ProtocolSafety.Inv(w, env.session) && WellFormed(w.log, env)
    ensures ProtocolSafety.Inv(ApplyAll(w, RunTrace(w, env)), env.session)
  {
    RunIsLegal(w, env);
    ProtocolSafety.LegalRunKeepsInv(w, env.session, RunTrace(w, env));
  }

  /** Enqueueing does not change how the second pass sees the commands. */
  lemma QueuedWhileMinted(w: World, after: map<Command, seq<Event>>, env: RunEnv)
    requires var chosen := Chosen(w.log, env);
             after == ApplyAll(w, MintOf(chosen)).log
    ensures Choose(after, Chosen(w.log, env), env) == Choose(w.log, Chosen(w.log, env), env)
  {
    var chosen := Chosen(w.log, env);
    if chosen.minted.Some? {
      SingleStep(w, 0, Enqueue(chosen.minted.value));
    }
    var commands := Considered(env, chosen);
    assert forall c: Command :: LoggedState(after, c) == LoggedState(w.log, c);
    UnresolvedSame(w.log, after, commands);
    PriorSame(w.log, after, Unresolved(w.log, commands), env.session);
  }

  lemma UnresolvedSame(before: map<Command, seq<Event>>, after: map<Command, seq<Event>>, commands: seq<Command>)
    requires forall c: Command :: LoggedState(after, c) == LoggedState(before, c)
    ensures Unresolved(after, commands) == Unresolved(before, commands)
  {
    SelectSame(commands, (c: Command) => !IsTerminal(LoggedState(before, c)),
               (c: Command) => !IsTerminal(LoggedState(after, c)));
  }

  lemma PriorSame(before: map<Command, seq<Event>>, after: map<Command, seq<Event>>, commands: seq<Command>,
                  session: Date)
    requires forall c: Command :: LoggedState(after, c) == LoggedState(before, c)
    ensures Prior(after, commands, session) == Prior(before, commands, session)
  {
    SelectSame(commands, (c: Command) => LoggedState(before, c) != QUEUED || c.effectiveDate < session,
               (c: Command) => LoggedState(after, c) != QUEUED || c.effectiveDate < session);
  }

  lemma {:induction false} SelectSame(commands: seq<Command>, keep: Command -> bool, same: Command -> bool)
    requires forall c :: keep(c) == same(c)
    ensures Select(commands, keep) == Select(commands, same)
  {
    if commands != [] { SelectSame(commands[1..], keep, same); }
  }

  /** A command that the decision claims is stored and has an empty log. */
  lemma ClaimableNow(w: World, env: RunEnv)
    requires ProtocolSafety.Inv(w, env.session) && WellFormed(w.log, env)
    ensures Decide(w.log, env).claim.Some? ==>
              var c := Decide(w.log, env).claim.value;
              && c in ApplyAll(w, MintTrace(Decide(w.log, env))).log
              && ApplyAll(w, MintTrace(Decide(w.log, env))).log[c] == []
  {
    if Decide(w.log, env).claim.Some? { ClaimLegal(w, env); }
  }
}
