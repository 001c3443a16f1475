/** The claim in front of the broker: `submit_claimed_order` of any number of runs, interleaved
    in any order. A run claims the account owner and the execution marker once, when its first
    order is ready, and hands orders over only if both claims succeeded. */
module OrderFence {
  import opened Wrappers

  import LiveCommands

  /** `build_execution_marker_key`, an injective text of its parts. */
  datatype MarkerKey = MarkerKey(scope: LiveCommands.Scope, signalDate: LiveCommands.Date,
                                 effectiveDate: LiveCommands.Date, timing: string)

  /** What a run's fence is configured with. The fence is off without deduplication, a marker
      key or a store; the account id is missing when the configuration is unusable. */
  datatype FenceConfig = FenceConfig(enabled: bool, key: MarkerKey, account: Option<string>, owner: string)

  /** Where a run stands inside one `submit_order` call. */
  datatype Stage = Idle | AtOwner | AtMarker | AtDelegate

  datatype FenceRun = FenceRun(config: FenceConfig, attempted: bool, acquired: bool, stage: Stage)

  datatype Mark =
    | OwnerAllowed(run: nat)
    | MarkerTried(run: nat)
    | MarkerClaimed(run: nat)
    | Delegated(run: nat)
    | Refused(run: nat)
    | Failed(run: nat)

  /** The shared stores are create-if-absent maps. */
  datatype Fence = Fence(markers: set<MarkerKey>, owners: map<string, string>, runs: seq<FenceRun>, marks: seq<Mark>)

  /** How a store call ends. It may raise after its write took effect. */
  datatype StoreReply = Answers | RaisesBefore | RaisesAfter

  function Mine(f: Fence, i: nat, run: FenceRun, mark: Mark): Fence
    requires i < |f.runs|
  {
    f.(runs := f.runs[i := run], marks := f.marks + [mark])
  }

  /** An order is ready. */
  function Begin(f: Fence, i: nat): Fence
    requires i < |f.runs|
  {
    var run := f.runs[i];
    if !run.attempted && run.config.enabled then
      if run.config.account.None? then Mine(f, i, run.(attempted := true), Failed(i))
      else f.(runs := f.runs[i := run.(attempted := true, stage := AtOwner)])
    else if run.acquired then f.(runs := f.runs[i := run.(attempted := true, stage := AtDelegate)])
    else Mine(f, i, run.(attempted := true), Refused(i))
  }

  function WithOwner(owners: map<string, string>, account: string, owner: string): map<string, string>
  {
    if account in owners then owners else owners[account := owner]
  }

  /** `claim_account_owner`: allowed for the first owner of an account, and for that owner again. */
  function ClaimOwner(f: Fence, i: nat, reply: StoreReply): Fence
    requires i < |f.runs| && f.runs[i].config.account.Some?
  {
    var run := f.runs[i];
    var account, owner := run.config.account.value, run.config.owner;
    var claimed := f.(owners := WithOwner(f.owners, account, owner));
    match reply
    case RaisesBefore => Mine(f, i, run.(stage := Idle), Refused(i))
    case RaisesAfter => Mine(claimed, i, run.(stage := Idle), Refused(i))
    case Answers =>
      if claimed.owners[account] == owner then Mine(claimed, i, run.(stage := AtMarker), OwnerAllowed(i))
      else Mine(claimed, i, run.(stage := Idle), Refused(i))
  }

  /** `claim_marker`: true only for the call that creates the marker. */
  function ClaimMarker(f: Fence, i: nat, reply: StoreReply): Fence
    requires i < |f.runs|
  {
    var run := f.runs[i];
    var key := run.config.key;
    var tried := f.(marks := f.marks + [MarkerTried(i)]);
    var written := tried.(markers := f.markers + {key});
    match reply
    case RaisesBefore => Mine(tried, i, run.(stage := Idle), Refused(i))
    case RaisesAfter => Mine(written, i, run.(stage := Idle), Refused(i))
    case Answers =>
      if key in f.markers then Mine(tried, i, run.(stage := Idle), Refused(i))
      else Mine(written, i, run.(acquired := true, stage := AtDelegate), MarkerClaimed(i))
  }

  function Delegate(f: Fence, i: nat): Fence
    requires i < |f.runs|
  {
    Mine(f, i, f.runs[i].(stage := Idle), Delegated(i))
  }

  /** One step of one run; a run that stands before the owner claim has an account. */
  function Step(f: Fence, i: nat, reply: StoreReply): Fence
  {
    if i >= |f.runs| then f
    else
      match f.runs[i].stage
      case Idle => Begin(f, i)
      case AtOwner => if f.runs[i].config.account.Some? then ClaimOwner(f, i, reply) else f
      case AtMarker => ClaimMarker(f, i, reply)
      case AtDelegate => Delegate(f, i)
  }

  /** A scheduler picks runs in any order; a run it stops picking has crashed. */
  type Schedule = seq<(nat, StoreReply)>

  function RunSchedule(f: Fence, schedule: Schedule): Fence
    decreases |schedule|
  {
    if schedule == [] then f
    else RunSchedule(Step(f, schedule[0].0, schedule[0].1), schedule[1..])
  }

  // ----- invariant

  /** Every delegated order follows the run's own successful claims, in order. */
  ghost predicate DelegatedAfterClaims(marks: seq<Mark>)
  {
    forall p :: 0 <= p < |marks| && marks[p].Delegated? ==>
      exists o, m :: 0 <= o < m < p && marks[o] == OwnerAllowed(marks[p].run) && marks[m] == MarkerClaimed(marks[p].run)
  }

  /** A claimed marker follows the run's allowed owner claim. */
  ghost predicate ClaimedAfterOwner(marks: seq<Mark>)
  {
    forall m :: 0 <= m < |marks| && marks[m].MarkerClaimed? ==>
      exists o :: 0 <= o < m && marks[o] == OwnerAllowed(marks[m].run)
  }

  ghost predicate RunInv(f: Fence, i: nat)
    requires i < |f.runs|
  {
    var run := f.runs[i];
    && (run.stage != Idle ==> run.attempted && run.config.enabled)
    && (run.acquired ==>
          run.attempted && run.config.enabled && run.config.key in f.markers && MarkerClaimed(i) in f.marks)
    && (run.stage == AtDelegate ==> run.acquired)
    && (run.stage == AtOwner || run.stage == AtMarker ==> !run.acquired && MarkerTried(i) !in f.marks)
    && (!run.attempted ==> MarkerTried(i) !in f.marks)
    && (run.stage == AtMarker ==> OwnerAllowed(i) in f.marks)
    && (OwnerAllowed(i) in f.marks ==>
          && run.config.account.Some? && run.config.account.value in f.owners
          && f.owners[run.config.account.value] == run.config.owner)
    && (MarkerClaimed(i) in f.marks ==> run.acquired)
    && (Delegated(i) in f.marks ==> run.acquired)
  }

  /** Two runs never hold the same marker. */
  ghost predicate OneHolder(f: Fence)
  {
    forall i, j :: 0 <= i < |f.runs| && 0 <= j < |f.runs| ==>
      (f.runs[i].acquired && f.runs[j].acquired && f.runs[i].config.key == f.runs[j].config.key ==> i == j)
  }

  /** A run tries its marker at most once. */
  ghost predicate TriedOnce(marks: seq<Mark>)
  {
    forall p, q :: 0 <= p < |marks| && 0 <= q < |marks| && marks[p].MarkerTried? && marks[p] == marks[q] ==> p == q
  }

  /** What the marks say about their own order. */
  ghost predicate Ordered(marks: seq<Mark>)
  {
    ClaimedAfterOwner(marks) && DelegatedAfterClaims(marks) && TriedOnce(marks)
  }

  ghost predicate RunsInv(f: Fence)
  {
    forall i :: 0 <= i < |f.runs| ==> RunInv(f, i)
  }

  ghost predicate Inv(f: Fence)
  {
    RunsInv(f) && OneHolder(f) && Ordered(f.marks)
  }

  /** Runs that have not submitted anything yet, over stores with any content. */
  ghost predicate Fresh(f: Fence)
  {
    && f.marks == []
    && forall i :: 0 <= i < |f.runs| ==> f.runs[i] == FenceRun(f.runs[i].config, false, false, Idle)
  }

  // ----- appending marks

  lemma OrderedAppend(marks: seq<Mark>, mark: Mark)
    requires Ordered(marks)
    requires mark.MarkerClaimed? ==> OwnerAllowed(mark.run) in marks
    requires mark.Delegated? ==> MarkerClaimed(mark.run) in marks
    requires mark.MarkerTried? ==> mark !in marks
    ensures Ordered(marks + [mark])
  {
    var after := marks + [mark];
    forall m | 0 <= m < |after| && after[m].MarkerClaimed?
      ensures exists o :: 0 <= o < m && after[o] == OwnerAllowed(after[m].run)
    {
      var o :| 0 <= o < |marks| && o < m && marks[o] == OwnerAllowed(after[m].run);
      assert after[o] == marks[o];
    }
    forall p | 0 <= p < |after| && after[p].Delegated?
      ensures exists o, m ::
                0 <= o < m < p && after[o] == OwnerAllowed(after[p].run) && after[m] == MarkerClaimed(after[p].run)
    {
      var m :| 0 <= m < |marks| && m < p && marks[m] == MarkerClaimed(after[p].run);
      var o :| 0 <= o < m && marks[o] == OwnerAllowed(marks[m].run);
      assert after[o] == marks[o] && after[m] == marks[m];
    }
  }

  /** The other runs do not notice a step that only adds to the stores and adds this run's marks. */
  lemma OthersKeepInv(f: Fence, f': Fence, i: nat, k: nat)
    requires i < |f.runs| && k < |f.runs| && k != i && RunInv(f, k)
    requires |f'.runs| == |f.runs| && f'.runs[k] == f.runs[k]
    requires f.markers <= f'.markers
    requires forall a :: a in f.owners ==> a in f'.owners && f'.owners[a] == f.owners[a]
    requires |f.marks| <= |f'.marks| && f'.marks[..|f.marks|] == f.marks
    requires forall p :: |f.marks| <= p < |f'.marks| ==> f'.marks[p].run == i
    ensures RunInv(f', k)
  {
    forall mark: Mark | mark.run == k ensures mark in f'.marks <==> mark in f.marks {
      if mark in f.marks {
        var p :| 0 <= p < |f.marks| && f.marks[p] == mark;
        assert f'.marks[p] == mark;
      }
    }
  }

  /** What one step must keep for the rest to follow. */
  lemma AssembleInv(f: Fence, f': Fence, i: nat)
    requires Inv(f) && i < |f.runs|
    requires |f'.runs| == |f.runs| && forall k :: 0 <= k < |f.runs| && k != i ==> f'.runs[k] == f.runs[k]
    requires f'.runs[i].config == f.runs[i].config
    requires f.markers <= f'.markers
    requires forall a :: a in f.owners ==> a in f'.owners && f'.owners[a] == f.owners[a]
    requires |f.marks| <= |f'.marks| && f'.marks[..|f.marks|] == f.marks
    requires forall p :: |f.marks| <= p < |f'.marks| ==> f'.marks[p].run == i
    requires RunInv(f', i) && Ordered(f'.marks)
    requires f'.runs[i].acquired && !f.runs[i].acquired ==> f.runs[i].config.key !in f.markers
    ensures Inv(f')
  {
    forall k | 0 <= k < |f'.runs| ensures RunInv(f', k) {
      assert RunInv(f, k);
      if k != i { OthersKeepInv(f, f', i, k); }
    }
    forall k | 0 <= k < |f'.runs| && k != i && f'.runs[k].acquired
      ensures f'.runs[k].config.key in f.markers
      ensures f'.runs[i].acquired ==> f'.runs[k].config.key != f'.runs[i].config.key
    {
      assert RunInv(f, k);
    }
  }

  lemma BeginKeepsInv(f: Fence, i: nat)
    requires Inv(f) && i < |f.runs| && f.runs[i].stage == Idle
    ensures Inv(Begin(f, i))
  {
    var f' := Begin(f, i);
    assert RunInv(f, i);
    if |f'.marks| > |f.marks| {
      OrderedAppend(f.marks, f'.marks[|f.marks|]);
    }
    AssembleInv(f, f', i);
  }

  lemma OwnerClaimKeepsRun(f: Fence, i: nat, reply: StoreReply)
    requires i < |f.runs| && RunInv(f, i) && f.runs[i].stage == AtOwner && f.runs[i].config.account.Some?
    ensures RunInv(ClaimOwner(f, i, reply), i)
  {
  }

  lemma ClaimOwnerKeepsInv(f: Fence, i: nat, reply: StoreReply)
    requires Inv(f) && i < |f.runs| && f.runs[i].stage == AtOwner && f.runs[i].config.account.Some?
    ensures Inv(ClaimOwner(f, i, reply))
  {
    var f' := ClaimOwner(f, i, reply);
    assert RunInv(f, i);
    OwnerClaimKeepsRun(f, i, reply);
    OrderedAppend(f.marks, f'.marks[|f.marks|]);
    AssembleInv(f, f', i);
  }

  lemma ClaimMarkerKeepsInv(f: Fence, i: nat, reply: StoreReply)
    requires Inv(f) && i < |f.runs| && f.runs[i].stage == AtMarker
    ensures Inv(ClaimMarker(f, i, reply))
  {
    var f' := ClaimMarker(f, i, reply);
    assert RunInv(f, i);
    OrderedAppend(f.marks, MarkerTried(i));
    OrderedAppend(f.marks + [MarkerTried(i)], f'.marks[|f.marks| + 1]);
    AssembleInv(f, f', i);
  }

  lemma DelegateKeepsInv(f: Fence, i: nat)
    requires Inv(f) && i < |f.runs| && f.runs[i].stage == AtDelegate
    ensures Inv(Delegate(f, i))
  {
    var f' := Delegate(f, i);
    assert RunInv(f, i);
    OrderedAppend(f.marks, Delegated(i));
    AssembleInv(f, f', i);
  }

  /** Every step of every run keeps the invariant. */
  lemma StepKeepsInv(f: Fence, i: nat, reply: StoreReply)
    requires Inv(f)
    ensures Inv(Step(f, i, reply))
  {
    if i < |f.runs| {
      match f.runs[i].stage
      case Idle => BeginKeepsInv(f, i);
      case AtOwner => if f.runs[i].config.account.Some? { ClaimOwnerKeepsInv(f, i, reply); }
      case AtMarker => ClaimMarkerKeepsInv(f, i, reply);
      case AtDelegate => DelegateKeepsInv(f, i);
    }
  }

  lemma StepKeepsConfigs(f: Fence, i: nat, reply: StoreReply)
    ensures |Step(f, i, reply).runs| == |f.runs|
    ensures forall k :: 0 <= k < |f.runs| ==> Step(f, i, reply).runs[k].config == f.runs[k].config
    ensures forall a :: a in f.owners ==> a in Step(f, i, reply).owners && Step(f, i, reply).owners[a] == f.owners[a]
  {
  }

  lemma {:induction false} ScheduleKeepsInv(f: Fence, schedule: Schedule)
    requires Inv(f)
    ensures Inv(RunSchedule(f, schedule))
    ensures |RunSchedule(f, schedule).runs| == |f.runs|
    ensures forall k :: 0 <= k < |f.runs| ==> RunSchedule(f, schedule).runs[k].config == f.runs[k].config
    decreases |schedule|
  {
    if schedule != [] {
      StepKeepsInv(f, schedule[0].0, schedule[0].1);
      StepKeepsConfigs(f, schedule[0].0, schedule[0].1);
      ScheduleKeepsInv(Step(f, schedule[0].0, schedule[0].1), schedule[1..]);
    }
  }

  lemma FreshInv(f: Fence)
    requires Fresh(f)
    ensures Inv(f)
  {
  }

  // ----- main results

  /** Whatever the interleaving and wherever runs crash, at most one run per execution marker
      ever hands an order to the broker. */
  lemma OneRunPerMarkerDelegates(f: Fence, schedule: Schedule, i: nat, j: nat)
    requires Fresh(f) && i < |f.runs| && j < |f.runs|
    requires f.runs[i].config.key == f.runs[j].config.key
    requires Delegated(i) in RunSchedule(f, schedule).marks && Delegated(j) in RunSchedule(f, schedule).marks
    ensures i == j
  {
    FreshInv(f);
    ScheduleKeepsInv(f, schedule);
    var f' := RunSchedule(f, schedule);
    assert RunInv(f', i) && RunInv(f', j);
  }

  /** Runs that hand over orders for one account all have the same owner. */
  lemma OneOwnerPerAccountDelegates(f: Fence, schedule: Schedule, i: nat, j: nat)
    requires Fresh(f) && i < |f.runs| && j < |f.runs|
    requires f.runs[i].config.account == f.runs[j].config.account
    requires Delegated(i) in RunSchedule(f, schedule).marks && Delegated(j) in RunSchedule(f, schedule).marks
    ensures f.runs[i].config.account.Some? && f.runs[i].config.owner == f.runs[j].config.owner
  {
    FreshInv(f);
    ScheduleKeepsInv(f, schedule);
    var f' := RunSchedule(f, schedule);
    DelegatedWasAllowed(f', i);
    DelegatedWasAllowed(f', j);
    assert RunInv(f', i) && RunInv(f', j);
  }

  lemma DelegatedWasAllowed(f: Fence, i: nat)
    requires Inv(f) && Delegated(i) in f.marks
    ensures OwnerAllowed(i) in f.marks
  {
    var p :| 0 <= p < |f.marks| && f.marks[p] == Delegated(i);
    assert f.marks[p].Delegated?;
  }

  /** A delegated order comes after an allowed owner claim and a successful marker claim of its
      own run, in that order; and the marker was tried only once. */
  lemma DelegationFollowsClaims(f: Fence, schedule: Schedule, p: nat)
    requires Fresh(f) && p < |RunSchedule(f, schedule).marks| && RunSchedule(f, schedule).marks[p].Delegated?
    ensures var marks := RunSchedule(f, schedule).marks;
            var i := marks[p].run;
            && (exists o, m :: 0 <= o < m < p && marks[o] == OwnerAllowed(i) && marks[m] == MarkerClaimed(i))
            && forall a, b :: 0 <= a < |marks| && 0 <= b < |marks| && marks[a] == MarkerTried(i) == marks[b] ==> a == b
  {
    FreshInv(f);
    ScheduleKeepsInv(f, schedule);
  }

  /** A run whose claim failed, or cannot be made, and that stands outside any call. */
  ghost predicate Shut(f: Fence, i: nat)
    requires i < |f.runs|
  {
    f.runs[i].stage == Idle && f.runs[i].attempted && !f.runs[i].acquired
  }

  /** After a failed claim the run is never claimed for again: every later order of the run is
      refused, whatever the other runs do. */
  lemma {:induction false} FailedClaimIsFinal(f: Fence, schedule: Schedule, i: nat)
    requires Inv(f) && i < |f.runs| && Shut(f, i)
    ensures var f' := RunSchedule(f, schedule);
            && |f'.runs| == |f.runs| && Shut(f', i)
            && |f.marks| <= |f'.marks| && f'.marks[..|f.marks|] == f.marks
            && forall p :: |f.marks| <= p < |f'.marks| && f'.marks[p].run == i ==> f'.marks[p] == Refused(i)
    decreases |schedule|
  {
    if schedule != [] {
      var k, reply := schedule[0].0, schedule[0].1;
      var f1 := Step(f, k, reply);
      StepKeepsInv(f, k, reply);
      ShutStep(f, k, reply, i);
      FailedClaimIsFinal(f1, schedule[1..], i);
      var f' := RunSchedule(f1, schedule[1..]);
      forall p | |f.marks| <= p < |f'.marks| && f'.marks[p].run == i ensures f'.marks[p] == Refused(i) {
        if p < |f1.marks| {
          assert f'.marks[p] == f'.marks[..|f1.marks|][p] == f1.marks[p];
        }
      }
      assert f'.marks[..|f.marks|] == f'.marks[..|f1.marks|][..|f.marks|];
    }
  }

  lemma ShutStep(f: Fence, k: nat, reply: StoreReply, i: nat)
    requires Inv(f) && i < |f.runs| && Shut(f, i)
    ensures var f1 := Step(f, k, reply);
            && |f1.runs| == |f.runs| && Shut(f1, i)
            && |f.marks| <= |f1.marks| && f1.marks[..|f.marks|] == f.marks
            && forall p :: |f.marks| <= p < |f1.marks| && f1.marks[p].run == i ==> f1.marks[p] == Refused(i)
  {
  }

  // ----- after a won claim

  /** How often a run is scheduled. */
  function TurnsOf(schedule: Schedule, i: nat): nat
  {
    if schedule == [] then 0 else (if schedule[0].0 == i then 1 else 0) + TurnsOf(schedule[1..], i)
  }

  /** How often a run handed over an order. */
  function DeliveriesOf(marks: seq<Mark>, i: nat): nat
  {
    if marks == [] then 0
    else (if marks[|marks| - 1] == Delegated(i) then 1 else 0) + DeliveriesOf(marks[..|marks| - 1], i)
  }

  /** The step that a run with a won claim has done of its order. */
  function Begun(f: Fence, i: nat): nat
    requires i < |f.runs|
  {
    if f.runs[i].stage == AtDelegate then 1 else 0
  }

  /** A step of a run leaves marks of that run only. */
  lemma StepMarks(f: Fence, k: nat, reply: StoreReply)
    ensures f.marks <= Step(f, k, reply).marks
    ensures forall p :: |f.marks| <= p < |Step(f, k, reply).marks| ==> Step(f, k, reply).marks[p].run == k
    ensures |Step(f, k, reply).runs| == |f.runs|
    ensures forall i :: 0 <= i < |f.runs| && i != k ==> Step(f, k, reply).runs[i] == f.runs[i]
  {
  }

  lemma {:induction false} OthersDeliver(marks: seq<Mark>, more: seq<Mark>, i: nat)
    requires marks <= more && forall p :: |marks| <= p < |more| ==> more[p].run != i
    ensures DeliveriesOf(more, i) == DeliveriesOf(marks, i)
    decreases |more|
  {
    if |more| == |marks| {
      assert more == marks;
    } else {
      assert marks <= more[..|more| - 1];
      OthersDeliver(marks, more[..|more| - 1], i);
    }
  }

  lemma OwnWonStep(f: Fence, i: nat, reply: StoreReply)
    requires i < |f.runs| && f.runs[i].acquired && f.runs[i].attempted
    requires f.runs[i].stage == Idle || f.runs[i].stage == AtDelegate
    ensures var f1 := Step(f, i, reply);
            && f1.runs[i].acquired && Begun(f1, i) == 1 - Begun(f, i)
            && f1.marks == f.marks + if f.runs[i].stage == AtDelegate then [Delegated(i)] else []
  {
  }

  /** A run with a won claim goes from one order to the next, whatever the stores answer and the
      other runs do. */
  lemma WonStep(f: Fence, k: nat, reply: StoreReply, i: nat)
    requires Inv(f) && i < |f.runs| && f.runs[i].acquired
    ensures var f1 := Step(f, k, reply);
            && |f1.runs| == |f.runs| && f1.runs[i].acquired
            && 2 * DeliveriesOf(f1.marks, i) + Begun(f1, i)
               == 2 * DeliveriesOf(f.marks, i) + Begun(f, i) + (if k == i then 1 else 0)
            && (forall mark :: mark in f1.marks && mark.run == i && mark !in f.marks ==> mark == Delegated(i))
  {
    var f1 := Step(f, k, reply);
    StepMarks(f, k, reply);
    if k == i {
      assert RunInv(f, i);
      OwnWonStep(f, i, reply);
      assert f.runs[i].stage == AtDelegate ==> f1.marks[..|f1.marks| - 1] == f.marks;
    } else {
      OthersDeliver(f.marks, f1.marks, i);
    }
  }

  /** A won claim is final too: from then on the run leaves no mark but delivered orders, and two
      turns of the run deliver one, whatever happens in between. */
  lemma {:induction false} WonClaimIsFinal(f: Fence, schedule: Schedule, i: nat)
    requires Inv(f) && i < |f.runs| && f.runs[i].acquired
    ensures var f' := RunSchedule(f, schedule);
            && |f'.runs| == |f.runs| && f'.runs[i].acquired
            && 2 * DeliveriesOf(f'.marks, i) + Begun(f', i)
               == 2 * DeliveriesOf(f.marks, i) + Begun(f, i) + TurnsOf(schedule, i)
            && (forall mark :: mark in f'.marks && mark.run == i && mark !in f.marks ==> mark == Delegated(i))
    decreases |schedule|
  {
    if schedule != [] {
      StepKeepsInv(f, schedule[0].0, schedule[0].1);
      WonStep(f, schedule[0].0, schedule[0].1, i);
      WonClaimIsFinal(Step(f, schedule[0].0, schedule[0].1), schedule[1..], i);
    }
  }

  /** A run that was refused or failed never held its marker, and one that holds it was never
      refused. */
  ghost predicate NeverBoth(f: Fence, i: nat)
    requires i < |f.runs|
  {
    && (f.runs[i].acquired || f.runs[i].stage != Idle || !f.runs[i].attempted ==>
          Refused(i) !in f.marks && Failed(i) !in f.marks)
    && (MarkerClaimed(i) in f.marks ==> f.runs[i].acquired)
  }

  /** A step of another run adds no mark of this one. */
  lemma OtherMarksStay(f: Fence, k: nat, reply: StoreReply, mark: Mark)
    requires mark.run != k
    ensures mark in Step(f, k, reply).marks <==> mark in f.marks
  {
    StepMarks(f, k, reply);
    var marks := Step(f, k, reply).marks;
    if mark in marks {
      var p :| 0 <= p < |marks| && marks[p] == mark;
      assert p < |f.marks| && f.marks[p] == mark;
    }
    if mark in f.marks {
      var p :| 0 <= p < |f.marks| && f.marks[p] == mark;
      assert marks[p] == mark;
    }
  }

  lemma NeverBothOwnStep(f: Fence, i: nat, reply: StoreReply)
    requires i < |f.runs| && RunInv(f, i) && NeverBoth(f, i)
    ensures i < |Step(f, i, reply).runs| && NeverBoth(Step(f, i, reply), i)
  {
  }

  lemma NeverBothStep(f: Fence, k: nat, reply: StoreReply, i: nat)
    requires Inv(f) && i < |f.runs| && NeverBoth(f, i)
    ensures i < |Step(f, k, reply).runs| && NeverBoth(Step(f, k, reply), i)
  {
    if k == i {
      assert RunInv(f, i);
      NeverBothOwnStep(f, i, reply);
    } else {
      StepMarks(f, k, reply);
      OtherMarksStay(f, k, reply, Refused(i));
      OtherMarksStay(f, k, reply, Failed(i));
      OtherMarksStay(f, k, reply, MarkerClaimed(i));
    }
  }

  lemma {:induction false} NeverBothAlways(f: Fence, schedule: Schedule, i: nat)
    requires Inv(f) && i < |f.runs| && NeverBoth(f, i)
    ensures i < |RunSchedule(f, schedule).runs| && NeverBoth(RunSchedule(f, schedule), i)
    decreases |schedule|
  {
    if schedule != [] {
      StepKeepsInv(f, schedule[0].0, schedule[0].1);
      NeverBothStep(f, schedule[0].0, schedule[0].1, i);
      NeverBothAlways(Step(f, schedule[0].0, schedule[0].1), schedule[1..], i);
    }
  }

  /** Whatever the schedule, a run that won its claim is never refused an order, before or after;
      and it has delivered one order for every two turns since. */
  lemma ClaimedRunIsNeverRefused(f: Fence, before: Schedule, after: Schedule, i: nat)
    requires Fresh(f) && i < |f.runs| && MarkerClaimed(i) in RunSchedule(f, before).marks
    ensures var won, f' := RunSchedule(f, before), RunSchedule(f, before + after);
            && Refused(i) !in f'.marks && Failed(i) !in f'.marks
            && i < |won.runs| == |f'.runs|
            && 2 * DeliveriesOf(f'.marks, i) + Begun(f', i)
               == 2 * DeliveriesOf(won.marks, i) + Begun(won, i) + TurnsOf(after, i)
  {
    var won := RunSchedule(f, before);
    FreshInv(f);
    ScheduleKeepsInv(f, before);
    NeverBothAlways(f, before, i);
    ScheduleConcat(f, before, after);
    NeverBothAlways(won, after, i);
    WonClaimIsFinal(won, after, i);
  }

  // ----- writes whose answer is lost

  /** Exactly what a step writes: the account's first owner and the marker, whenever the store is
      reached, even if the call then raises. */
  lemma StepWrites(f: Fence, i: nat, reply: StoreReply)
    requires i < |f.runs|
    ensures var f', run := Step(f, i, reply), f.runs[i];
            && f'.markers == (if run.stage == AtMarker && reply != RaisesBefore then f.markers + {run.config.key}
                              else f.markers)
            && f'.owners == (if run.stage == AtOwner && run.config.account.Some? && reply != RaisesBefore
                             then WithOwner(f.owners, run.config.account.value, run.config.owner) else f.owners)
  {
  }

  /** A marker that was written by a call that raised shuts out every run of its key that does not
      hold it yet, the writer included: none of them ever hands over an order. */
  lemma LostMarkerShutsOut(f: Fence, i: nat, schedule: Schedule, j: nat)
    requires Inv(f) && i < |f.runs| && f.runs[i].stage == AtMarker
    requires j < |f.runs| && f.runs[j].config.key == f.runs[i].config.key && !f.runs[j].acquired
    ensures Delegated(j) !in RunSchedule(Step(f, i, RaisesAfter), schedule).marks
  {
    var f1 := Step(f, i, RaisesAfter);
    StepKeepsInv(f, i, RaisesAfter);
    StepKeepsConfigs(f, i, RaisesAfter);
    StepWrites(f, i, RaisesAfter);
    assert !f1.runs[j].acquired && f1.runs[j].config.key in f1.markers;
    ScheduleKeepsInv(f1, schedule);
    AcquiredWasFree(f1, schedule, j);
    assert RunInv(RunSchedule(f1, schedule), j);
  }

  // ----- which two runs can both reach the broker

  /** The stores, as they are, let the run claim. */
  predicate Admits(f: Fence, i: nat)
    requires i < |f.runs|
  {
    var c := f.runs[i].config;
    && c.enabled && c.account.Some?
    && (c.account.value in f.owners ==> f.owners[c.account.value] == c.owner)
    && c.key !in f.markers
  }

  /** Both runs are admitted, and neither claim shuts the other out. */
  predicate AdmitsBoth(f: Fence, i: nat, j: nat)
    requires i < |f.runs| && j < |f.runs|
  {
    var c, d := f.runs[i].config, f.runs[j].config;
    && Admits(f, i) && Admits(f, j)
    && (c.account == d.account ==> c.owner == d.owner)
    && c.key != d.key
  }

  ghost predicate BothDelegate(f: Fence, schedule: Schedule, i: nat, j: nat)
  {
    Delegated(i) in RunSchedule(f, schedule).marks && Delegated(j) in RunSchedule(f, schedule).marks
  }

  /** A run that comes to hold its marker found it free, whatever happened in between. */
  lemma {:induction false} AcquiredWasFree(f: Fence, schedule: Schedule, i: nat)
    requires Inv(f) && i < |f.runs| && !f.runs[i].acquired
    ensures |RunSchedule(f, schedule).runs| == |f.runs|
    ensures RunSchedule(f, schedule).runs[i].acquired ==> f.runs[i].config.key !in f.markers
    decreases |schedule|
  {
    if schedule != [] {
      var f1 := Step(f, schedule[0].0, schedule[0].1);
      StepKeepsInv(f, schedule[0].0, schedule[0].1);
      StepKeepsConfigs(f, schedule[0].0, schedule[0].1);
      StepTakesFree(f, schedule[0].0, schedule[0].1, i);
      if f1.runs[i].acquired {
        ScheduleKeepsInv(f1, schedule[1..]);
      } else {
        AcquiredWasFree(f1, schedule[1..], i);
      }
    }
  }

  lemma StepTakesFree(f: Fence, k: nat, reply: StoreReply, i: nat)
    requires i < |f.runs| && !f.runs[i].acquired
    ensures var f1 := Step(f, k, reply);
            |f1.runs| == |f.runs| && (f1.runs[i].acquired ==> f.runs[i].config.key !in f.markers)
    ensures f.markers <= Step(f, k, reply).markers
  {
  }

  lemma {:induction false} OwnersStay(f: Fence, schedule: Schedule, account: string)
    requires account in f.owners
    ensures var f' := RunSchedule(f, schedule); account in f'.owners && f'.owners[account] == f.owners[account]
    decreases |schedule|
  {
    if schedule != [] {
      StepKeepsConfigs(f, schedule[0].0, schedule[0].1);
      OwnersStay(Step(f, schedule[0].0, schedule[0].1), schedule[1..], account);
    }
  }

  /** A run that delegated was admitted from the start. */
  lemma DelegatedWasAdmitted(f: Fence, schedule: Schedule, i: nat)
    requires Fresh(f) && i < |f.runs| && Delegated(i) in RunSchedule(f, schedule).marks
    ensures Admits(f, i)
  {
    var f' := RunSchedule(f, schedule);
    FreshInv(f);
    ScheduleKeepsInv(f, schedule);
    AcquiredWasFree(f, schedule, i);
    DelegatedWasAllowed(f', i);
    assert RunInv(f', i);
    var account := f.runs[i].config.account.value;
    if account in f.owners {
      OwnersStay(f, schedule, account);
    }
  }

  lemma {:induction false} ScheduleConcat(f: Fence, a: Schedule, b: Schedule)
    ensures RunSchedule(f, a + b) == RunSchedule(RunSchedule(f, a), b)
    decreases |a|
  {
    if a == [] {
      assert a + b == b;
    } else {
      assert (a + b)[1..] == a[1..] + b;
      ScheduleConcat(Step(f, a[0].0, a[0].1), a[1..], b);
    }
  }

  /** The four steps of an undisturbed first order. */
  function Alone(i: nat): Schedule
  {
    [(i, Answers), (i, Answers), (i, Answers), (i, Answers)]
  }

  lemma OneStep(f: Fence, i: nat, rest: Schedule)
    ensures RunSchedule(f, [(i, Answers)] + rest) == RunSchedule(Step(f, i, Answers), rest)
  {
    assert ([(i, Answers)] + rest)[1..] == rest;
  }

  lemma AloneSteps(f: Fence, i: nat)
    ensures RunSchedule(f, Alone(i)) == Step(Step(Step(Step(f, i, Answers), i, Answers), i, Answers), i, Answers)
  {
    var one: Schedule := [(i, Answers)];
    assert Alone(i) == one + (one + (one + (one + [])));
    OneStep(f, i, one + (one + (one + [])));
    OneStep(Step(f, i, Answers), i, one + (one + []));
    OneStep(Step(Step(f, i, Answers), i, Answers), i, one + []);
    OneStep(Step(Step(Step(f, i, Answers), i, Answers), i, Answers), i, []);
  }

  /** An admitted run that is not disturbed delegates, and takes its marker and its account. */
  lemma AloneDelegates(f: Fence, i: nat)
    requires i < |f.runs| && f.runs[i] == FenceRun(f.runs[i].config, false, false, Idle) && Admits(f, i)
    ensures var f' := RunSchedule(f, Alone(i)); var c := f.runs[i].config;
            && Delegated(i) in f'.marks && (forall mark :: mark in f.marks ==> mark in f'.marks)
            && f'.markers == f.markers + {c.key} && f'.owners == WithOwner(f.owners, c.account.value, c.owner)
            && |f'.runs| == |f.runs| && forall k :: 0 <= k < |f.runs| && k != i ==> f'.runs[k] == f.runs[k]
  {
    AloneSteps(f, i);
    var f1 := Step(f, i, Answers);
    var f2 := Step(f1, i, Answers);
    var f3 := Step(f2, i, Answers);
    assert f1.runs[i].stage == AtOwner && f1.marks == f.marks;
    assert f2.runs[i].stage == AtMarker && f2.marks == f.marks + [OwnerAllowed(i)];
    assert f3.runs[i].stage == AtDelegate && f3.marks == f2.marks + [MarkerTried(i), MarkerClaimed(i)];
    assert Step(f3, i, Answers).marks == f3.marks + [Delegated(i)];
  }

  lemma {:induction false} MarksStay(f: Fence, schedule: Schedule, mark: Mark)
    requires mark in f.marks
    ensures mark in RunSchedule(f, schedule).marks
    decreases |schedule|
  {
    if schedule != [] {
      MarksStay(Step(f, schedule[0].0, schedule[0].1), schedule[1..], mark);
    }
  }

  /** Exactly when two runs can both reach the broker: some schedule lets both delegate if and
      only if the stores admit each, they do not contend for an account, and their markers
      differ. */
  lemma BothDelegateWhenAdmitted(f: Fence, i: nat, j: nat)
    requires Fresh(f) && i < |f.runs| && j < |f.runs| && i != j
    ensures (exists schedule: Schedule :: BothDelegate(f, schedule, i, j)) <==> AdmitsBoth(f, i, j)
  {
    if schedule: Schedule :| BothDelegate(f, schedule, i, j) {
      DelegatedWasAdmitted(f, schedule, i);
      DelegatedWasAdmitted(f, schedule, j);
      if f.runs[i].config.account == f.runs[j].config.account {
        OneOwnerPerAccountDelegates(f, schedule, i, j);
      }
      if f.runs[i].config.key == f.runs[j].config.key {
        OneRunPerMarkerDelegates(f, schedule, i, j);
      }
    }
    if AdmitsBoth(f, i, j) {
      var f1 := RunSchedule(f, Alone(i));
      AloneDelegates(f, i);
      AloneDelegates(f1, j);
      ScheduleConcat(f, Alone(i), Alone(j));
      assert BothDelegate(f, Alone(i) + Alone(j), i, j);
    }
  }
}
