/** Durable live execution commands: the immutable command, its append-only event log, and
    the pure rules that validate, reconcile and close one command. */
module LiveCommands {
  import opened Wrappers

  import BrokerFacts

  /** An ISO date, represented by its order among dates. The empty text comes first. */
  type Date = nat

  const NO_DATE: Date := 0
  const LIVE_KIND := "longbridge_next_session_live"
  const SOXL_PROFILE := "soxl_soxx_trend_income"

  datatype CommandState =
    | QUEUED
    | CLAIMED
    | SUBMITTED
    | ACCEPTED
    | PARTIALLY_FILLED
    | FILLED
    | RECONCILIATION_REQUIRED
    | CANCELLED
    | REJECTED

  predicate IsTerminal(state: CommandState)
  {
    state == FILLED || state == CANCELLED || state == REJECTED
  }

  /** Claimed at some time and not finished. */
  predicate IsActive(state: CommandState)
  {
    state != QUEUED && !IsTerminal(state)
  }

  predicate IsReconcilable(state: CommandState)
  {
    state == SUBMITTED || state == ACCEPTED || state == PARTIALLY_FILLED || state == RECONCILIATION_REQUIRED
  }

  datatype Event = Event(state: CommandState, orders: seq<BrokerFacts.Order>)

  /** `current_state`: a command without events is queued. */
  function StateOf(events: seq<Event>): CommandState
  {
    if events == [] then QUEUED else events[|events| - 1].state
  }

  function OrdersOf(events: seq<Event>): seq<BrokerFacts.Order>
  {
    if events == [] then [] else events[|events| - 1].orders
  }

  datatype ExecutionIntent =
    ExecutionIntent(signalDate: Date, effectiveDate: Date, timing: string, completedSession: Date)

  datatype AllocationIntent = AllocationIntent(targetMode: string, targets: map<string, real>)

  datatype LiveIntent = LiveIntent(kind: string, account: string, runtime: string,
                                   execution: Option<ExecutionIntent>, allocation: Option<AllocationIntent>,
                                   release: Option<string>)

  /** The platform account scope and strategy profile a command belongs to. */
  datatype Scope = Scope(account: string, profile: string)
  {
    predicate CompletedSession() { profile == SOXL_PROFILE }
  }

  datatype Command = Command(scope: Scope, signalDate: Date, effectiveDate: Date, timing: string, intent: LiveIntent)

  datatype Config = Config(scope: Scope, account: string, runtime: string, release: Option<string>)

  /** `build_live_execution_command`. */
  function BuildLiveCommand(config: Config, execution: ExecutionIntent, allocation: AllocationIntent): Command
  {
    Command(config.scope, execution.signalDate, execution.effectiveDate, execution.timing,
            LiveIntent(LIVE_KIND, config.account, config.runtime, Some(execution), Some(allocation), config.release))
  }

  /** `_validate_live_command_binding` does not raise. */
  predicate ValidBinding(command: Command, config: Config)
  {
    var intent := command.intent;
    && intent.kind == LIVE_KIND
    && intent.account == config.account
    && intent.runtime == config.runtime
    && intent.execution.Some?
    && intent.allocation.Some?
    && (config.release.Some? ==> intent.release == config.release)
    && intent.execution.value.signalDate == command.signalDate
    && intent.execution.value.effectiveDate == command.effectiveDate
    && intent.execution.value.timing == command.timing
    && intent.allocation.value.targetMode == "value"
  }

  /** A command is bound exactly when enqueueing some value targets, under this account and runtime
      and any expected release, would have built it. */
  lemma BoundAsBuilt(command: Command, config: Config)
    ensures ValidBinding(command, config) <==>
            exists execution: ExecutionIntent, allocation: AllocationIntent, release: Option<string> ::
              && command == BuildLiveCommand(Config(command.scope, config.account, config.runtime, release),
                                             execution, allocation)
              && allocation.targetMode == "value" && (config.release.Some? ==> release == config.release)
  {
    var i := command.intent;
    if ValidBinding(command, config) {
      assert command == BuildLiveCommand(Config(command.scope, config.account, config.runtime, i.release),
                                         i.execution.value, i.allocation.value);
    }
  }

  /** `_is_completed_session_soxl_command`. */
  predicate IsCompletedSessionCommand(command: Command, calendar: Date -> Option<Date>)
  {
    && command.intent.execution.Some?
    && command.intent.execution.value.completedSession == command.signalDate
    && calendar(command.signalDate) == Some(command.effectiveDate)
  }

  /** `_is_completed_session_soxl_plan`. */
  predicate IsCompletedSessionPlan(execution: ExecutionIntent, session: Date)
  {
    && execution.completedSession == execution.signalDate
    && execution.signalDate < session
    && execution.effectiveDate == session
  }

  /** `_direct_live_routing_requires_durable_command`, for a live run. */
  predicate RequiresDurableCommand(execution: ExecutionIntent)
  {
    && execution.effectiveDate != NO_DATE
    && (execution.signalDate == NO_DATE || execution.effectiveDate != execution.signalDate)
  }

  // ----- recording the outcome of a cycle

  /** What the recorder reads of an `ExecutionCycleResult`. */
  datatype CycleReport = CycleReport(pending: seq<BrokerFacts.Order>, actionDone: bool, noExecute: bool)

  /** `_record_live_command_outcome`: the states it appends, in order. */
  function OutcomeStates(report: CycleReport): seq<CommandState>
  {
    var pending := report.pending;
    if pending != [] && (forall o :: o in pending ==> o.submission == BrokerFacts.Filled) then
      [SUBMITTED, ACCEPTED, FILLED]
    else if
      && pending != []
      && (forall o :: o in pending ==> o.submission == BrokerFacts.Submitted || o.submission == BrokerFacts.Accepted)
      && (forall o :: o in pending ==> o.brokerId != "")
    then
      if forall o :: o in pending ==> o.submission == BrokerFacts.Accepted then [SUBMITTED, ACCEPTED] else [SUBMITTED]
    else if pending != [] || report.actionDone then [RECONCILIATION_REQUIRED]
    else if report.noExecute then [REJECTED]
    else [CANCELLED]
  }

  /** Some order is pending, and each has one of two statuses. */
  predicate AllPending(pending: seq<BrokerFacts.Order>, a: BrokerFacts.SubmissionStatus,
                       b: BrokerFacts.SubmissionStatus)
  {
    pending != [] && forall o :: o in pending ==> o.submission == a || o.submission == b
  }

  predicate AllHaveIds(pending: seq<BrokerFacts.Order>)
  {
    forall o :: o in pending ==> o.brokerId != ""
  }

  /** A recorded outcome ends a command in exactly two ways: it is filled when there are pending
      orders and all are filled; it is rejected or cancelled when nothing was done, rejected if and
      only if the cycle must not execute. It stays open as submitted or accepted when all orders
      were taken with an id, as accepted if and only if all are accepted; anything else is left to
      reconciliation. The states before the last only lead up to it. */
  lemma OutcomeEndsCommand(report: CycleReport)
    ensures var states, pending := OutcomeStates(report), report.pending;
            var taken := AllPending(pending, BrokerFacts.Submitted, BrokerFacts.Accepted) && AllHaveIds(pending);
            && (FILLED in states <==> AllPending(pending, BrokerFacts.Filled, BrokerFacts.Filled))
            && (CANCELLED in states || REJECTED in states <==> pending == [] && !report.actionDone)
            && (REJECTED in states <==> pending == [] && !report.actionDone && report.noExecute)
            && (SUBMITTED in states <==> taken || FILLED in states)
            && (ACCEPTED in states <==>
                  FILLED in states || (taken && AllPending(pending, BrokerFacts.Accepted, BrokerFacts.Accepted)))
            && (RECONCILIATION_REQUIRED in states <==> (pending != [] || report.actionDone) && SUBMITTED !in states)
    ensures OutcomeStates(report) <= [SUBMITTED, ACCEPTED, FILLED] || |OutcomeStates(report)| == 1
    ensures forall i :: 0 <= i < |OutcomeStates(report)| - 1 ==> !IsTerminal(OutcomeStates(report)[i])
    ensures QUEUED !in OutcomeStates(report) && CLAIMED !in OutcomeStates(report)
  {
  }

  // ----- reconciling with the broker

  datatype BrokerStatus =
    | StatusFilled
    | StatusCancelled
    | StatusCanceled
    | StatusRejected
    | StatusExpired
    | StatusPartiallyFilled
    | StatusPartial
    | StatusAccepted
    | StatusNew
    | StatusSubmitted
    | StatusOther

  /** The broker will not trade the order any more. */
  predicate IsClosed(status: BrokerStatus)
  {
    || status == StatusFilled || status == StatusCancelled || status == StatusCanceled
    || status == StatusRejected || status == StatusExpired
  }

  predicate IsPartial(status: BrokerStatus)
  {
    status == StatusPartiallyFilled || status == StatusPartial
  }

  predicate IsWorking(status: BrokerStatus)
  {
    status == StatusAccepted || status == StatusNew || status == StatusSubmitted
  }

  /** `_reconcile_live_command`: the state that the statuses of all orders call for. */
  function ReconciledState(statuses: seq<BrokerStatus>): Option<CommandState>
  {
    if forall s :: s in statuses ==> s == StatusFilled then Some(FILLED)
    else if forall s :: s in statuses ==> IsClosed(s) then Some(CANCELLED)
    else if exists s :: s in statuses && IsPartial(s) then Some(PARTIALLY_FILLED)
    else if forall s :: s in statuses ==> IsWorking(s) then Some(ACCEPTED)
    else None
  }

  /** Reconciliation ends a command exactly when every order is closed, as filled exactly when
      every order is filled; a partial fill outweighs all else; working orders must be all. */
  lemma ReconciliationEndsCommand(statuses: seq<BrokerStatus>)
    requires statuses != []
    ensures var next := ReconciledState(statuses);
            && (next.Some? && IsTerminal(next.value) <==> forall s :: s in statuses ==> IsClosed(s))
            && (next == Some(FILLED) <==> forall s :: s in statuses ==> s == StatusFilled)
            && (next == Some(ACCEPTED) <==> forall s :: s in statuses ==> IsWorking(s))
            && (next == Some(PARTIALLY_FILLED) <==> exists s :: s in statuses && IsPartial(s))
  {
    assert statuses[0] in statuses;
  }

  /** Orders that can be reconciled: there are some, and each has a broker id. */
  predicate Traceable(orders: seq<BrokerFacts.Order>)
  {
    orders != [] && forall o :: o in orders ==> o.brokerId != ""
  }
}
