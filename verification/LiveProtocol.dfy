/** One live run over the durable command store, as the sequence of atomic steps it takes.
    A crash between two steps leaves a prefix of that sequence. */
module LiveProtocol {
  import opened Wrappers

  import BrokerFacts
  import opened LiveCommands

  /** The atomic steps of a run that other runs, or the broker, can see. */
  datatype Action =
    | Observe(id: string, status: BrokerStatus)
    | Append(command: Command, event: Event)
    | Enqueue(command: Command)
    | Claim(command: Command)
    | Send(sender: Option<Command>, call: BrokerFacts.Call)

  /** The event log of the store, and what really happened beside it: the calls made for each
      command, the calls made for none, and the broker ids that were once seen closed. */
  datatype World = World(log: map<Command, seq<Event>>, sent: map<Command, seq<BrokerFacts.Call>>,
                         unclaimed: seq<BrokerFacts.Call>, closed: set<string>)

  const EMPTY_WORLD := World(map[], map[], [], {})

  function Apply(w: World, a: Action): World
  {
    match a
    case Observe(id, status) => if IsClosed(status) then w.(closed := w.closed + {id}) else w
    case Append(c, e) => if c in w.log then w.(log := w.log[c := w.log[c] + [e]]) else w
    case Enqueue(c) => if c in w.log then w else w.(log := w.log[c := []], sent := w.sent[c := []])
    case Claim(c) => if c in w.log then w.(log := w.log[c := w.log[c] + [Event(CLAIMED, [])]]) else w
    case Send(None, call) => w.(unclaimed := w.unclaimed + [call])
    case Send(Some(c), call) => if c in w.sent then w.(sent := w.sent[c := w.sent[c] + [call]]) else w
  }

  function ApplyAll(w: World, actions: seq<Action>): World
    decreases |actions|
  {
    if actions == [] then w else ApplyAll(Apply(w, actions[0]), actions[1..])
  }

  // ----- what the environment answers during one run

  datatype FreshPlan = FreshPlan(execution: ExecutionIntent, allocation: AllocationIntent, blocked: bool)

  datatype Probe = Absent | Present | ReadError

  datatype RunEnv = RunEnv(
    config: Config,
    session: Date,
    listing: seq<Command>,                            // the store, listed in digest order
    calendar: Date -> Option<Date>,                   // next exchange session
    fetchable: bool,                                  // an order-status reader is configured
    fetch: (Command, nat) -> Option<BrokerStatus>,    // status read for the n-th order of a command
    refused: Command -> bool,                         // the store refuses a reconciliation event
    plan: Option<FreshPlan>,                          // the strategy evaluation; none when it raises
    due: Command -> bool,                             // `is_due_on`
    frozenPlan: Option<bool>,                         // frozen plan: blocked or not; none when it raises
    claimWins: bool,                                  // `claim_due` returns a claim
    identityBlocked: bool,
    marker: Probe,
    priorReport: Probe,
    calls: seq<BrokerFacts.Call>,                                 // broker port calls of the cycle
    report: CycleReport,                              // what the cycle returned
    outcomeAppends: nat)                              // outcome events accepted before a refusal

  // ----- reconciliation of the unresolved commands

  /** The readable statuses of the first orders; reading stops at the first failure. */
  function ReadStatuses(c: Command, count: nat, env: RunEnv): seq<BrokerStatus>
  {
    if count == 0 then []
    else
      var read := ReadStatuses(c, count - 1, env);
      if |read| < count - 1 || env.fetch(c, count - 1).None? then read
      else read + [env.fetch(c, count - 1).value]
  }

  lemma {:induction false} ReadStatusesLength(c: Command, count: nat, env: RunEnv)
    ensures |ReadStatuses(c, count, env)| <= count
  {
    if count > 0 { ReadStatusesLength(c, count - 1, env); }
  }

  function Observations(orders: seq<BrokerFacts.Order>, statuses: seq<BrokerStatus>): seq<Action>
    requires |statuses| <= |orders|
  {
    seq(|statuses|, i requires 0 <= i < |statuses| => Observe(orders[i].brokerId, statuses[i]))
  }

  function ReconcileTrace(events: seq<Event>, c: Command, env: RunEnv): seq<Action>
  {
    var state, orders := StateOf(events), OrdersOf(events);
    if !IsReconcilable(state) || !env.fetchable || !Traceable(orders) then []
    else
      var statuses := ReadStatuses(c, |orders|, env);
      ReadStatusesLength(c, |orders|, env);
      var seen := Observations(orders, statuses);
      if |statuses| < |orders| then seen
      else
        match ReconciledState(statuses)
        case None => seen
        case Some(next) =>
          if next == state || env.refused(c) then seen else seen + [Append(c, Event(next, orders))]
  }

  function ReconcileAll(log: map<Command, seq<Event>>, commands: seq<Command>, env: RunEnv): seq<Action>
  {
    if commands == [] then []
    else
      var c := commands[0];
      (if c in log then ReconcileTrace(log[c], c, env) else []) + ReconcileAll(log, commands[1..], env)
  }

  // ----- which command this run may claim

  function Matching(listing: seq<Command>, scope: Scope): seq<Command>
  {
    if listing == [] then []
    else (if listing[0].scope == scope then [listing[0]] else []) + Matching(listing[1..], scope)
  }

  function Select(commands: seq<Command>, keep: Command -> bool): seq<Command>
  {
    if commands == [] then []
    else (if keep(commands[0]) then [commands[0]] else []) + Select(commands[1..], keep)
  }

  function LoggedState(log: map<Command, seq<Event>>, c: Command): CommandState
  {
    if c in log then StateOf(log[c]) else QUEUED
  }

  function Unresolved(log: map<Command, seq<Event>>, commands: seq<Command>): seq<Command>
  {
    Select(commands, (c: Command) => !IsTerminal(LoggedState(log, c)))
  }

  /** The first pass: what is already chosen for this session, and what is minted. */
  datatype Selection = Selection(live: Option<Command>, blocked: bool, today: seq<Command>,
                                 minted: Option<Command>, planUsed: bool, raises: bool)

  function NoSelection(): Selection
  {
    Selection(None, false, [], None, true, true)
  }

  /** Evaluate the strategy; enqueue its decision unless the risk gate blocks it. */
  function Mint(env: RunEnv, admissible: ExecutionIntent -> bool): Selection
  {
    match env.plan
    case None => NoSelection()
    case Some(plan) =>
      if !admissible(plan.execution) then NoSelection()
      else if plan.blocked then Selection(None, true, [], None, true, false)
      else
        var c := BuildLiveCommand(env.config, plan.execution, plan.allocation);
        Selection(None, false, [c], Some(c), true, false)
  }

  function SelectCompletedSession(log: map<Command, seq<Event>>, matching: seq<Command>, env: RunEnv): Selection
  {
    var current := Select(matching, (c: Command) => c.effectiveDate == env.session);
    var ended := Select(current, (c: Command) => IsTerminal(LoggedState(log, c)));
    var open := Unresolved(log, current);
    var unsafeDue := Select(open, (c: Command) => !IsCompletedSessionCommand(c, env.calendar));
    var today := Select(open, (c: Command) => IsCompletedSessionCommand(c, env.calendar));
    if ended != [] then Selection(Some(ended[0]), true, today, None, false, false)
    else if unsafeDue != [] then Selection(Some(unsafeDue[0]), true, today, None, false, false)
    else if today == [] then Mint(env, (e: ExecutionIntent) => IsCompletedSessionPlan(e, env.session))
    else Selection(None, false, today, None, false, false)
  }

  function SelectNextSession(matching: seq<Command>, env: RunEnv): Selection
  {
    var today := Select(matching, (c: Command) => c.signalDate == env.session);
    if today == [] then Mint(env, (e: ExecutionIntent) => e.signalDate == env.session && e.effectiveDate > env.session)
    else Selection(None, false, today, None, false, false)
  }

  function SelectToday(log: map<Command, seq<Event>>, matching: seq<Command>, env: RunEnv): Selection
  {
    if env.config.scope.CompletedSession() then SelectCompletedSession(log, matching, env)
    else SelectNextSession(matching, env)
  }

  /** The commands the second pass looks at: those of the scope, and the one just minted. */
  function Considered(env: RunEnv, chosen: Selection): seq<Command>
  {
    var before := Matching(env.listing, env.config.scope);
    if chosen.minted.Some? then before + [chosen.minted.value] else before
  }

  function Due(open: seq<Command>, env: RunEnv): seq<Command>
  {
    Select(open, (c: Command) => env.due(c))
  }

  /** Unresolved commands that stop the run: claimed before, or queued for a past session. */
  function Prior(log: map<Command, seq<Event>>, open: seq<Command>, session: Date): seq<Command>
  {
    Select(open, (c: Command) => LoggedState(log, c) != QUEUED || c.effectiveDate < session)
  }

  /** The second pass: the command in hand, and whether the run is blocked (or waiting). */
  datatype Choice = Choice(live: Option<Command>, blocked: bool)

  function First(commands: seq<Command>): Option<Command>
  {
    if commands == [] then None else Some(commands[0])
  }

  function Choose(log: map<Command, seq<Event>>, chosen: Selection, env: RunEnv): Choice
  {
    var open := Unresolved(log, Considered(env, chosen));
    var due, prior := Due(open, env), Prior(log, open, env.session);
    if chosen.blocked || prior != [] || |due| > 1 || |chosen.today| > 1 then
      var candidates := if prior != [] then prior else if due != [] then due else chosen.today;
      Choice(if chosen.live.Some? then chosen.live else First(candidates), true)
    else if due != [] then Choice(First(due), false)
    else Choice(First(open), open != [])
  }

  /** What the run will write before any cycle: a minted command, and a claim. */
  datatype Decision = Decision(minted: Option<Command>, claim: Option<Command>, blocked: bool, raises: bool)

  function Settle(minted: Option<Command>, choice: Choice, planUsed: bool, env: RunEnv): Decision
  {
    if choice.live.None? then
      Decision(minted, None, choice.blocked, !planUsed && env.plan.None?)
    else if !ValidBinding(choice.live.value, env.config) || env.frozenPlan.None? then
      Decision(minted, None, choice.blocked, true)
    else if choice.blocked || env.frozenPlan.value || !env.claimWins then
      Decision(minted, None, true, false)
    else
      Decision(minted, choice.live, false, false)
  }

  function Chosen(log: map<Command, seq<Event>>, env: RunEnv): Selection
  {
    SelectToday(log, Matching(env.listing, env.config.scope), env)
  }

  function Decide(log: map<Command, seq<Event>>, env: RunEnv): Decision
  {
    var chosen := Chosen(log, env);
    if chosen.raises then Decision(None, None, false, true)
    else Settle(chosen.minted, Choose(log, chosen, env), chosen.planUsed, env)
  }

  // ----- from the decision to the broker port

  /** What follows the decision: no cycle (its outcome recorded or not), or a cycle. */
  datatype Route = Skip(record: bool) | Execute

  function RouteOf(d: Decision, env: RunEnv): Route
  {
    var claimed := d.claim.Some?;
    var direct := env.plan.Some? && RequiresDurableCommand(env.plan.value.execution) && !claimed;
    if direct || env.identityBlocked || d.blocked then Skip(false)
    else if env.marker == Present then Skip(claimed)
    else if env.marker == ReadError && claimed then Skip(false)
    else if env.priorReport == Present then Skip(claimed)
    else if env.priorReport == ReadError && claimed then Skip(false)
    else Execute
  }

  function Sends(claim: Option<Command>, calls: seq<BrokerFacts.Call>): seq<Action>
  {
    seq(|calls|, i requires 0 <= i < |calls| => Send(claim, calls[i]))
  }

  function Outcome(c: Command, report: CycleReport, accepted: nat): seq<Action>
  {
    var states := OutcomeStates(report);
    var n := if accepted < |states| then accepted else |states|;
    seq(n, i requires 0 <= i < n => Append(c, Event(states[i], report.pending)))
  }

  /** The report of a claimed run that found its execution already recorded. */
  function NothingDone(env: RunEnv): CycleReport
  {
    CycleReport([], false, env.report.noExecute)
  }

  function Tail(d: Decision, env: RunEnv): seq<Action>
  {
    match RouteOf(d, env)
    case Skip(record) =>
      if record && d.claim.Some? then Outcome(d.claim.value, NothingDone(env), env.outcomeAppends) else []
    case Execute =>
      Sends(d.claim, env.calls)
      + if d.claim.Some? then Outcome(d.claim.value, env.report, env.outcomeAppends) else []
  }

  /** Some unresolved command of this scope does not validate: the run stops before it
      reconciles anything. */
  predicate BindingInvalid(log: map<Command, seq<Event>>, env: RunEnv)
  {
    exists c :: c in Unresolved(log, Matching(env.listing, env.config.scope)) && !ValidBinding(c, env.config)
  }

  function Reconciliation(w: World, env: RunEnv): seq<Action>
  {
    ReconcileAll(w.log, Unresolved(w.log, Matching(env.listing, env.config.scope)), env)
  }

  function Settled(w: World, env: RunEnv): World
  {
    ApplyAll(w, Reconciliation(w, env))
  }

  function MintTrace(d: Decision): seq<Action>
  {
    if d.minted.Some? then [Enqueue(d.minted.value)] else []
  }

  function ClaimTrace(d: Decision): seq<Action>
  {
    if d.claim.Some? then [Claim(d.claim.value)] else []
  }

  function DecisionTrace(d: Decision): seq<Action>
  {
    MintTrace(d) + ClaimTrace(d)
  }

  function TailOf(d: Decision, env: RunEnv): seq<Action>
  {
    if d.raises then [] else Tail(d, env)
  }

  /** The steps after reconciliation. */
  function Continuation(log: map<Command, seq<Event>>, env: RunEnv): seq<Action>
  {
    var d := Decide(log, env);
    DecisionTrace(d) + TailOf(d, env)
  }

  /** All atomic steps of `run_strategy` with the durable live commands enabled. */
  function RunTrace(w: World, env: RunEnv): seq<Action>
  {
    if BindingInvalid(w.log, env) then []
    else Reconciliation(w, env) + Continuation(Settled(w, env).log, env)
  }
}
