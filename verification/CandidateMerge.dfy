/** The notification candidate of one target and business day: private facts merged run by
    run, and the rows they are projected to. */
module CandidateMerge {
  import opened Wrappers

  datatype Result<+T> = Ok(value: T) | Err(error: Error)

  datatype Error =
    | IdentityUnknown
    | HistoryUnknown
    | ScopeConflict
    | NonExecutionConflict
    | ObservationsInvalid
    | ObservationsConflict
    | ConcurrentUpdate
    | StoreUnavailable

  datatype Scope = Scope(platform: string, profile: string, target: string, account: string)

  /** A notification event; its remaining fields are carried along. */
  datatype Fact = Fact(scope: Scope, known: bool, kind: string, at: nat, run: string, dedupe: string,
                       orders: Option<nat>, fills: Option<nat>, details: string)

  /** The key of a fact: its dedupe digest, or that digest with the digest of the whole fact. */
  datatype FactKey = Plain(dedupe: string) | Suffixed(dedupe: string, fact: Fact)

  datatype Source =
    | NotRun(at: nat, skipReason: string)
    | Ran(orders: Option<nat>, fills: Option<nat>, preview: Option<nat>, at: nat, kind: string, dryRun: bool,
          observations: Option<map<string, int>>)

  datatype Field = Orders | Fills | Preview

  datatype Conflict = Conflict(run: string, field: Field, previous: nat, observed: nat)

  datatype RunStatus = ExecutionAlert | Executed | NoOrder | ExecutionUnknown

  datatype Row =
    | IdleRow(at: nat, skipReason: string)
    | RunRow(at: nat, status: RunStatus, orders: Option<nat>, fills: Option<nat>, preview: Option<nat>, dryRun: bool,
             observations: Option<map<string, int>>, facts: seq<Fact>)

  /** The private state. The store keeps an object's members in the order of their keys. */
  datatype State = State(scope: Scope, events: map<FactKey, Fact>, keys: seq<FactKey>, sources: map<string, Source>,
                         conflicts: seq<Conflict>, runs: map<string, Row>)

  /** The target a producer is bound to, and the order of keys as texts. */
  datatype Target = Target(scope: Scope, dryRun: bool, rank: FactKey -> nat)
  {
    ghost predicate Ranks() { forall a, b :: rank(a) == rank(b) ==> a == b }
  }

  /** One call of `persist_candidate`. */
  datatype Request = Request(fact: Fact, ran: bool, notRun: bool, skipReason: string, preview: Option<nat>,
                             observations: Option<map<string, int>>)

  const PLUGINS := {"watch", "opportunity_watch", "panic_reversal", "taco_rebound"}
  const ROUTINE_KINDS := {"routine_cycle", "healthy_heartbeat", "order_submitted", "fill"}

  // ----- facts

  function KeyFor(events: map<FactKey, Fact>, fact: Fact): FactKey
  {
    if Plain(fact.dedupe) in events && events[Plain(fact.dedupe)] != fact then Suffixed(fact.dedupe, fact)
    else Plain(fact.dedupe)
  }

  /** Where the store puts a new key. */
  function Insert(keys: seq<FactKey>, k: FactKey, t: Target): seq<FactKey>
  {
    if keys == [] then [k]
    else if t.rank(k) < t.rank(keys[0]) then [k] + keys
    else [keys[0]] + Insert(keys[1..], k, t)
  }

  /** The order in which one call goes through the facts: those read, then a new one. */
  function Listing(s: State, k: FactKey): seq<FactKey>
  {
    if k in s.events then s.keys else s.keys + [k]
  }

  function FactsOf(order: seq<FactKey>, events: map<FactKey, Fact>, run: string): seq<Fact>
  {
    if order == [] then []
    else
      (if order[0] in events && events[order[0]].run == run then [events[order[0]]] else [])
      + FactsOf(order[1..], events, run)
  }

  // ----- sources and conflicts

  function Count(s: Source, field: Field): Option<nat>
    requires s.Ran?
  {
    match field
    case Orders => s.orders
    case Fills => s.fills
    case Preview => s.preview
  }

  /** The value that a call reports for a field. */
  function Reported(rq: Request, field: Field): Option<nat>
  {
    match field
    case Orders => rq.fact.orders
    case Fills => rq.fact.fills
    case Preview => rq.preview
  }

  function OldCount(prior: Option<Source>, field: Field): Option<nat>
  {
    if prior.Some? && prior.value.Ran? then Count(prior.value, field) else None
  }

  function Keep(prior: Option<nat>, observed: Option<nat>): Option<nat>
  {
    if prior.Some? then prior else observed
  }

  function OldObservations(prior: Option<Source>): Option<map<string, int>>
  {
    if prior.Some? && prior.value.Ran? then prior.value.observations else None
  }

  predicate ValidObservations(o: map<string, int>)
  {
    forall k :: k in o ==> k in PLUGINS && o[k] >= 0
  }

  function RanSource(prior: Option<Source>, rq: Request, t: Target): Result<Source>
  {
    var seen := OldObservations(prior);
    if rq.observations.Some? && !ValidObservations(rq.observations.value) then Err(ObservationsInvalid)
    else if rq.observations.Some? && seen.Some? && seen != rq.observations then Err(ObservationsConflict)
    else if prior.Some? && prior.value.NotRun? then Err(NonExecutionConflict)
    else Ok(Ran(Keep(OldCount(prior, Orders), rq.fact.orders), Keep(OldCount(prior, Fills), rq.fact.fills),
                Keep(OldCount(prior, Preview), rq.preview), rq.fact.at, rq.fact.kind, t.dryRun,
                if rq.observations.Some? then rq.observations else seen))
  }

  function IdleSource(prior: Option<Source>, rq: Request): Result<Source>
  {
    var source := NotRun(rq.fact.at, rq.skipReason);
    if rq.ran || rq.fact.orders.Some? || rq.fact.fills.Some? || (prior.Some? && prior.value != source)
    then Err(NonExecutionConflict) else Ok(source)
  }

  function Disagreement(prior: Option<Source>, rq: Request, field: Field): seq<Conflict>
  {
    var was, now := OldCount(prior, field), Reported(rq, field);
    if was.Some? && now.Some? && was != now then [Conflict(rq.fact.run, field, was.value, now.value)] else []
  }

  function AddNew(conflicts: seq<Conflict>, more: seq<Conflict>): seq<Conflict>
    decreases |more|
  {
    if more == [] then conflicts
    else AddNew(if more[0] in conflicts then conflicts else conflicts + [more[0]], more[1..])
  }

  function Disagreements(prior: Option<Source>, rq: Request): seq<Conflict>
  {
    Disagreement(prior, rq, Orders) + Disagreement(prior, rq, Fills) + Disagreement(prior, rq, Preview)
  }

  // ----- rows

  predicate Disputed(conflicts: seq<Conflict>, run: string, field: Field)
  {
    exists c :: c in conflicts && c.run == run && c.field == field
  }

  function Projected(s: Source, conflicts: seq<Conflict>, run: string, field: Field): Option<nat>
    requires s.Ran?
  {
    if Disputed(conflicts, run, field) then None else Count(s, field)
  }

  predicate Urgent(conflicts: seq<Conflict>, run: string, facts: seq<Fact>)
  {
    (exists c :: c in conflicts && c.run == run) || (exists f :: f in facts && f.kind !in ROUTINE_KINDS)
  }

  function StatusFor(urgent: bool, orders: Option<nat>, dryRun: bool): RunStatus
  {
    if urgent then ExecutionAlert
    else if orders.None? && !dryRun then ExecutionUnknown
    else if orders.Some? && orders.value != 0 then Executed
    else NoOrder
  }

  function RowFor(s: Source, conflicts: seq<Conflict>, run: string, facts: seq<Fact>, dryRun: bool): Row
  {
    match s
    case NotRun(at, reason) => IdleRow(at, reason)
    case Ran(_, _, _, at, _, _, observations) =>
      var orders := Projected(s, conflicts, run, Orders);
      RunRow(at, StatusFor(Urgent(conflicts, run, facts), orders, dryRun), orders, Projected(s, conflicts, run, Fills),
             Projected(s, conflicts, run, Preview), dryRun, observations, facts)
  }

  function Rows(order: seq<FactKey>, events: map<FactKey, Fact>, sources: map<string, Source>, conflicts: seq<Conflict>,
                dryRun: bool): map<string, Row>
  {
    map run | run in sources :: RowFor(sources[run], conflicts, run, FactsOf(order, events, run), dryRun)
  }

  // ----- one merge

  function Blank(t: Target): State
  {
    State(t.scope, map[], [], map[], [], map[])
  }

  /** Every fact is filed under its own dedupe digest, and under the longer key only when the
      short one holds another fact. */
  ghost predicate WellKeyed(events: map<FactKey, Fact>)
  {
    forall k :: k in events ==>
      match k
      case Plain(d) => events[k].dedupe == d
      case Suffixed(d, f) => events[k] == f && f.dedupe == d && Plain(d) in events && events[Plain(d)] != f
  }

  predicate Lists(keys: seq<FactKey>, events: map<FactKey, Fact>)
  {
    && (forall k :: k in keys ==> k in events)
    && (forall k :: k in events ==> k in keys)
  }

  ghost predicate Ordered(keys: seq<FactKey>, t: Target)
  {
    forall i, j :: 0 <= i < j < |keys| ==> t.rank(keys[i]) < t.rank(keys[j])
  }

  /** The keys of a stored state are those of its facts, in key order. */
  ghost predicate Stored(s: State, t: Target)
  {
    Lists(s.keys, s.events) && Ordered(s.keys, t) && WellKeyed(s.events)
  }

  function SourceFor(prior: Option<Source>, rq: Request, t: Target): Result<Option<Source>>
  {
    if rq.notRun then
      match IdleSource(prior, rq)
      case Err(e) => Err(e)
      case Ok(source) => Ok(Some(source))
    else if rq.ran then
      match RanSource(prior, rq, t)
      case Err(e) => Err(e)
      case Ok(source) => Ok(Some(source))
    else Ok(None)
  }

  function OldSource(s: State, run: string): Option<Source>
  {
    if run in s.sources then Some(s.sources[run]) else None
  }

  /** The state that a call makes of a stored one. */
  function Merged(s: State, rq: Request, t: Target): Result<State>
  {
    var run := rq.fact.run;
    var prior := OldSource(s, run);
    match SourceFor(prior, rq, t)
    case Err(e) => Err(e)
    case Ok(source) =>
      var k := KeyFor(s.events, rq.fact);
      var events := s.events[k := rq.fact];
      var sources := if source.Some? then s.sources[run := source.value] else s.sources;
      var conflicts := if source.Some? && source.value.Ran? then AddNew(s.conflicts, Disagreements(prior, rq))
                       else s.conflicts;
      Ok(State(s.scope, events, if k in s.events then s.keys else Insert(s.keys, k, t), sources, conflicts,
               Rows(Listing(s, k), events, sources, conflicts, t.dryRun)))
  }

  /** The private half of `persist_candidate`, up to its write. */
  function Merge(previous: Option<State>, published: bool, rq: Request, t: Target): Result<State>
  {
    if rq.fact.scope != t.scope || !rq.fact.known then Err(IdentityUnknown)
    else if previous.None? && published then Err(HistoryUnknown)
    else if previous.Some? && previous.value.scope != t.scope then Err(ScopeConflict)
    else Merged(if previous.Some? then previous.value else Blank(t), rq, t)
  }

  // ----- what every merge keeps

  lemma {:induction false} InsertMembers(keys: seq<FactKey>, k: FactKey, t: Target, x: FactKey)
    ensures x in Insert(keys, k, t) <==> x == k || x in keys
  {
    if keys != [] { InsertMembers(keys[1..], k, t, x); }
  }

  lemma {:induction false} InsertOrdered(keys: seq<FactKey>, k: FactKey, t: Target)
    requires t.Ranks() && Ordered(keys, t) && k !in keys
    ensures Ordered(Insert(keys, k, t), t)
  {
    if keys != [] && t.rank(k) >= t.rank(keys[0]) {
      InsertOrdered(keys[1..], k, t);
      var rest := Insert(keys[1..], k, t);
      forall j | 0 <= j < |rest| ensures t.rank(keys[0]) < t.rank(rest[j]) {
        InsertMembers(keys[1..], k, t, rest[j]);
      }
    }
  }

  lemma KeyForWellKeyed(events: map<FactKey, Fact>, fact: Fact)
    requires WellKeyed(events)
    ensures WellKeyed(events[KeyFor(events, fact) := fact])
    ensures KeyFor(events, fact) in events ==> events[KeyFor(events, fact)] == fact
  {
  }

  lemma InsertLists(keys: seq<FactKey>, events: map<FactKey, Fact>, k: FactKey, fact: Fact, t: Target)
    requires Lists(keys, events)
    ensures Lists(if k in events then keys else Insert(keys, k, t), events[k := fact])
  {
    forall x ensures x in Insert(keys, k, t) <==> x == k || x in keys {
      InsertMembers(keys, k, t, x);
    }
  }

  lemma MergeStored(s: State, rq: Request, t: Target)
    requires t.Ranks() && Stored(s, t) && Merged(s, rq, t).Ok?
    ensures Stored(Merged(s, rq, t).value, t)
  {
    var k := KeyFor(s.events, rq.fact);
    KeyForWellKeyed(s.events, rq.fact);
    InsertLists(s.keys, s.events, k, rq.fact, t);
    if k !in s.events {
      InsertOrdered(s.keys, k, t);
    }
  }

  /** The facts that the rows show: those of the runs that executed. */
  ghost predicate Shows(s: State, f: Fact)
  {
    (exists k :: k in s.events && s.events[k] == f) && f.run in s.sources && s.sources[f.run].Ran?
  }

  /** No fact, conflict or executed run of the one state is missing in the other. */
  ghost predicate Extends(s: State, after: State)
  {
    && after.scope == s.scope
    && (forall k :: k in s.events ==> k in after.events && after.events[k] == s.events[k])
    && (forall c :: c in s.conflicts ==> c in after.conflicts)
    && (forall run :: run in s.sources ==> run in after.sources && (s.sources[run].Ran? <==> after.sources[run].Ran?))
  }

  lemma SourcesKept(s: State, rq: Request, t: Target)
    requires Merged(s, rq, t).Ok?
    ensures var after := Merged(s, rq, t).value;
            && (forall run :: run in s.sources ==>
                  run in after.sources && (s.sources[run].Ran? <==> after.sources[run].Ran?))
            && (rq.ran ==> rq.fact.run in after.sources && after.sources[rq.fact.run].Ran?)
  {
  }

  /** No merge loses a fact, changes the value at a key, forgets a conflict, or turns a run
      that executed into one that did not; and it takes in the new fact. */
  lemma MergeKeepsEvidence(s: State, rq: Request, t: Target)
    requires Stored(s, t) && Merged(s, rq, t).Ok?
    ensures var after := Merged(s, rq, t).value;
            && Extends(s, after)
            && KeyFor(s.events, rq.fact) in after.events && after.events[KeyFor(s.events, rq.fact)] == rq.fact
            && (rq.ran ==> Shows(after, rq.fact))
  {
    KeyForWellKeyed(s.events, rq.fact);
    SourcesKept(s, rq, t);
    forall c | c in s.conflicts ensures c in Merged(s, rq, t).value.conflicts {
      AddNewMembers(s.conflicts, Disagreements(OldSource(s, rq.fact.run), rq), c);
    }
  }

  lemma ExtensionShows(s: State, after: State, f: Fact)
    requires Extends(s, after) && Shows(s, f)
    ensures Shows(after, f)
  {
    var k :| k in s.events && s.events[k] == f;
    assert after.events[k] == f;
  }

  lemma {:induction false} AddNewMembers(conflicts: seq<Conflict>, more: seq<Conflict>, c: Conflict)
    ensures c in AddNew(conflicts, more) <==> c in conflicts || c in more
    decreases |more|
  {
    if more != [] {
      AddNewMembers(if more[0] in conflicts then conflicts else conflicts + [more[0]], more[1..], c);
    }
  }
}
