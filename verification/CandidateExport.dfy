/** Concurrent producers of one candidate: each call merges into the private object and then
    publishes its projection, both by compare-and-set. The calls interleave freely. */
module CandidateExport {
  import opened Wrappers

  import opened CandidateMerge
  import CandidateLaws

  // ----- the projection

  datatype DigestRow =
    | IdleDigest(at: nat, skipReason: string)
    | RunDigest(at: nat, status: RunStatus, orders: Option<nat>, fills: Option<nat>, dryRun: bool,
                observations: Option<map<string, int>>, facts: seq<Fact>)

  type Digest = map<string, DigestRow>

  function ProjectRow(row: Row): DigestRow
  {
    match row
    case IdleRow(at, reason) => IdleDigest(at, reason)
    case RunRow(at, status, orders, fills, _, dryRun, observations, facts) =>
      RunDigest(at, status, orders, fills, dryRun, observations, facts)
  }

  /** `_export_projection`: the rows, without what is private. */
  function Project(s: State): Digest
  {
    map run | run in s.runs :: ProjectRow(s.runs[run])
  }

  predicate Carries(d: Digest, f: Fact)
  {
    f.run in d && d[f.run].RunDigest? && f in d[f.run].facts
  }

  /** A published projection carries exactly the facts that its state shows. */
  lemma ProjectionCarries(s: State, t: Target, f: Fact)
    requires CandidateLaws.RowsMatch(s, t)
    ensures Carries(Project(s), f) <==> Shows(s, f)
  {
    var order :| Lists(order, s.events) && s.runs == Rows(order, s.events, s.sources, s.conflicts, t.dryRun);
    CandidateLaws.FactsOfMembers(order, s.events, f.run, f);
  }

  /** The projection of the state carries exactly the facts that the state shows. */
  ghost predicate Displays(s: State)
  {
    forall f :: Carries(Project(s), f) <==> Shows(s, f)
  }

  // ----- one call, step by step

  datatype Stage =
    | Start
    | HasPrivate(version: nat, previous: Option<State>)
    | Computed(version: nat, previous: Option<State>, next: State)
    | Committed(state: State)
    | HasPublic(state: State, version: nat, digest: Option<Digest>)
    | Checked(state: State, version: nat, digest: Option<Digest>, commit: nat)
    | Done(publication: nat)
    | Failed(error: Error)

  datatype Producer = Producer(rq: Request, stage: Stage)

  /** The two objects with all their values so far: every private state committed, and for
      every publication the number of the commit it projects. An object's version is the number
      of its writes; no write gives version zero. */
  datatype World = World(commits: seq<State>, published: seq<nat>, producers: seq<Producer>)

  /** How the store answers: it raises without or after the effect of a write, or it answers. */
  datatype Reply = Answers | RaisesBefore | RaisesAfter

  function PrivateAt(w: World, version: nat): Option<State>
    requires version <= |w.commits|
  {
    if version == 0 then None else Some(w.commits[version - 1])
  }

  function PublicAt(w: World, version: nat): Option<Digest>
    requires version <= |w.published|
  {
    if version == 0 || w.published[version - 1] == 0 || w.published[version - 1] > |w.commits| then None
    else Some(Project(w.commits[w.published[version - 1] - 1]))
  }

  /** The public object as it is now. */
  function Public(w: World): Option<Digest>
  {
    PublicAt(w, |w.published|)
  }

  function Moved(w: World, i: nat, stage: Stage): World
    requires i < |w.producers|
  {
    w.(producers := w.producers[i := w.producers[i].(stage := stage)])
  }

  function Compute(w: World, i: nat, t: Target): Stage
    requires i < |w.producers| && w.producers[i].stage.HasPrivate?
  {
    var p := w.producers[i];
    match Merge(p.stage.previous, Public(w).Some?, p.rq, t)
    case Err(e) => Failed(e)
    case Ok(next) => Computed(p.stage.version, p.stage.previous, next)
  }

  function Commit(w: World, i: nat, reply: Reply): World
    requires i < |w.producers| && w.producers[i].stage.Computed?
  {
    var stage := w.producers[i].stage;
    if stage.previous == Some(stage.next) then Moved(w, i, Committed(stage.next))
    else if reply == RaisesBefore then Moved(w, i, Failed(StoreUnavailable))
    else if stage.version != |w.commits| then
      Moved(w, i, Failed(if reply == RaisesAfter then StoreUnavailable else ConcurrentUpdate))
    else
      Moved(w, i, if reply == RaisesAfter then Failed(StoreUnavailable) else Committed(stage.next))
      .(commits := w.commits + [stage.next])
  }

  function Check(w: World, i: nat): Stage
    requires i < |w.producers| && w.producers[i].stage.HasPublic?
  {
    var stage := w.producers[i].stage;
    if w.commits == [] || w.commits[|w.commits| - 1] != stage.state then Failed(ConcurrentUpdate)
    else Checked(stage.state, stage.version, stage.digest, |w.commits|)
  }

  function Publish(w: World, i: nat, reply: Reply): World
    requires i < |w.producers| && w.producers[i].stage.Checked?
  {
    var stage := w.producers[i].stage;
    if stage.digest == Some(Project(stage.state)) then Moved(w, i, Done(stage.version))
    else if reply == RaisesBefore then Moved(w, i, Failed(StoreUnavailable))
    else if stage.version != |w.published| then
      Moved(w, i, Failed(if reply == RaisesAfter then StoreUnavailable else ConcurrentUpdate))
    else
      Moved(w, i, if reply == RaisesAfter then Failed(StoreUnavailable) else Done(|w.published| + 1))
      .(published := w.published + [stage.commit])
  }

  /** One step of one call. A read that raises ends the call. */
  function Step(w: World, i: nat, reply: Reply, t: Target): World
  {
    if i >= |w.producers| then w
    else
      match w.producers[i].stage
      case Start =>
        Moved(w, i, if reply == Answers then HasPrivate(|w.commits|, PrivateAt(w, |w.commits|))
                    else Failed(StoreUnavailable))
      case HasPrivate(_, _) => Moved(w, i, if reply == Answers then Compute(w, i, t) else Failed(StoreUnavailable))
      case Computed(_, _, _) => Commit(w, i, reply)
      case Committed(state) =>
        Moved(w, i, if reply == Answers then HasPublic(state, |w.published|, Public(w)) else Failed(StoreUnavailable))
      case HasPublic(_, _, _) => Moved(w, i, if reply == Answers then Check(w, i) else Failed(StoreUnavailable))
      case Checked(_, _, _, _) => Publish(w, i, reply)
      case Done(_) => w
      case Failed(_) => w
  }

  type Schedule = seq<(nat, Reply)>

  function Run(w: World, schedule: Schedule, t: Target): World
    decreases |schedule|
  {
    if schedule == [] then w else Run(Step(w, schedule[0].0, schedule[0].1, t), schedule[1..], t)
  }

  // ----- the invariant

  /** The state comes from a call's merge into a stored state. */
  ghost predicate MadeBy(s: State, rq: Request, t: Target)
  {
    Stored(s, t) && Displays(s) && (rq.ran ==> Shows(s, rq.fact))
  }

  function Base(previous: Option<State>, t: Target): State
  {
    if previous.Some? then previous.value else Blank(t)
  }

  ghost predicate StageInv(w: World, p: Producer, t: Target)
  {
    match p.stage
    case Start => true
    case HasPrivate(version, previous) => version <= |w.commits| && previous == PrivateAt(w, version)
    case Computed(version, previous, next) =>
      && version <= |w.commits| && previous == PrivateAt(w, version)
      && MadeBy(next, p.rq, t) && Extends(Base(previous, t), next)
    case Committed(state) => MadeBy(state, p.rq, t)
    case HasPublic(state, version, digest) =>
      MadeBy(state, p.rq, t) && version <= |w.published| && digest == PublicAt(w, version)
    case Checked(state, version, digest, commit) =>
      && MadeBy(state, p.rq, t) && version <= |w.published| && digest == PublicAt(w, version)
      && 1 <= commit <= |w.commits| && w.commits[commit - 1] == state
      && (version > 0 ==> w.published[version - 1] <= commit)
    case Done(publication) =>
      && 1 <= publication <= |w.published| && PublicAt(w, publication).Some?
      && (p.rq.ran ==> Carries(PublicAt(w, publication).value, p.rq.fact))
    case Failed(_) => true
  }

  /** Every commit displays what it shows, and extends the one before. */
  ghost predicate Chain(commits: seq<State>)
  {
    && (forall i :: 0 <= i < |commits| ==> Displays(commits[i]))
    && (forall i, j :: 0 <= i && j == i + 1 < |commits| ==> Extends(commits[i], commits[j]))
  }

  ghost predicate AllStored(commits: seq<State>, t: Target)
  {
    forall i :: 0 <= i < |commits| ==> Stored(commits[i], t)
  }

  ghost predicate CommitsGrow(commits: seq<State>, t: Target)
  {
    AllStored(commits, t) && Chain(commits)
  }

  /** Publications go through the commits strictly forward. */
  ghost predicate InCommitOrder(w: World)
  {
    && (forall i :: 0 <= i < |w.published| ==> 1 <= w.published[i] <= |w.commits|)
    && (forall i, j :: 0 <= i < j < |w.published| ==> w.published[i] < w.published[j])
  }

  ghost predicate Inv(w: World, t: Target)
  {
    && CommitsGrow(w.commits, t)
    && InCommitOrder(w)
    && (forall i :: 0 <= i < |w.producers| ==> StageInv(w, w.producers[i], t))
  }

  /** What later writes cannot change. */
  lemma StageInvStays(w: World, later: World, p: Producer, t: Target)
    requires StageInv(w, p, t)
    requires w.commits <= later.commits && w.published <= later.published && InCommitOrder(w)
    ensures StageInv(later, p, t)
  {
    forall v: nat | v <= |w.published| ensures PublicAt(later, v) == PublicAt(w, v) {
      if v > 0 {
        assert later.published[v - 1] == w.published[v - 1];
      }
    }
  }

  lemma MovedKeepsInv(w: World, i: nat, stage: Stage, t: Target)
    requires Inv(w, t) && i < |w.producers| && StageInv(w, w.producers[i].(stage := stage), t)
    ensures Inv(Moved(w, i, stage), t)
  {
    var after := Moved(w, i, stage);
    forall k | 0 <= k < |after.producers| ensures StageInv(after, after.producers[k], t) {
      StageInvStays(w, after, after.producers[k], t);
    }
  }

  /** A write and the writer's next stage. */
  lemma WriteKeepsInv(w: World, grown: World, i: nat, stage: Stage, t: Target)
    requires Inv(w, t) && i < |w.producers| && grown.producers == w.producers
    requires w.commits <= grown.commits && w.published <= grown.published
    requires CommitsGrow(grown.commits, t) && InCommitOrder(grown)
    requires StageInv(grown, w.producers[i].(stage := stage), t)
    ensures Inv(Moved(grown, i, stage), t)
  {
    forall k | 0 <= k < |w.producers| ensures StageInv(grown, w.producers[k], t) {
      StageInvStays(w, grown, w.producers[k], t);
    }
    MovedKeepsInv(grown, i, stage, t);
  }

  lemma MergeMakes(previous: Option<State>, published: bool, rq: Request, t: Target)
    requires t.Ranks() && (previous.Some? ==> Stored(previous.value, t)) && Merge(previous, published, rq, t).Ok?
    ensures var next := Merge(previous, published, rq, t).value;
            MadeBy(next, rq, t) && Extends(Base(previous, t), next)
  {
    var base := Base(previous, t);
    MergeStored(base, rq, t);
    CandidateLaws.MergeRows(base, rq, t);
    MergeKeepsEvidence(base, rq, t);
    MatchDisplays(Merged(base, rq, t).value, t);
  }

  lemma MatchDisplays(s: State, t: Target)
    requires CandidateLaws.RowsMatch(s, t)
    ensures Displays(s)
  {
    forall f ensures Carries(Project(s), f) <==> Shows(s, f) {
      ProjectionCarries(s, t, f);
    }
  }

  lemma ComputeKeepsInv(w: World, i: nat, t: Target)
    requires t.Ranks() && Inv(w, t) && i < |w.producers| && w.producers[i].stage.HasPrivate?
    ensures Inv(Moved(w, i, Compute(w, i, t)), t)
  {
    var p := w.producers[i];
    assert StageInv(w, p, t);
    if Merge(p.stage.previous, Public(w).Some?, p.rq, t).Ok? {
      MergeMakes(p.stage.previous, Public(w).Some?, p.rq, t);
    }
    MovedKeepsInv(w, i, Compute(w, i, t), t);
  }

  lemma CommitKeepsInv(w: World, i: nat, reply: Reply, t: Target)
    requires Inv(w, t) && i < |w.producers| && w.producers[i].stage.Computed?
    ensures Inv(Commit(w, i, reply), t)
  {
    var stage := w.producers[i].stage;
    assert StageInv(w, w.producers[i], t);
    if stage.previous == Some(stage.next) {
      MovedKeepsInv(w, i, Committed(stage.next), t);
    } else if reply == RaisesBefore || stage.version != |w.commits| {
      MovedKeepsInv(w, i, Commit(w, i, reply).producers[i].stage, t);
    } else {
      WriteKeepsInv(w, w.(commits := w.commits + [stage.next]), i, Commit(w, i, reply).producers[i].stage, t);
    }
  }

  lemma CheckKeepsInv(w: World, i: nat, t: Target)
    requires Inv(w, t) && i < |w.producers| && w.producers[i].stage.HasPublic?
    ensures Inv(Moved(w, i, Check(w, i)), t)
  {
    assert StageInv(w, w.producers[i], t);
    MovedKeepsInv(w, i, Check(w, i), t);
  }

  /** The write succeeds only if nothing was published since the public read, and that came
      before the private state was checked: so its commit is later than the last published. */
  lemma WrittenInOrder(w: World, p: Producer, t: Target)
    requires Inv(w, t) && p.stage.Checked? && StageInv(w, p, t)
    requires p.stage.version == |w.published| && p.stage.digest != Some(Project(p.stage.state))
    ensures var grown := w.(published := w.published + [p.stage.commit]);
            InCommitOrder(grown) && PublicAt(grown, |grown.published|) == Some(Project(p.stage.state))
  {
    if w.published != [] {
      var last := w.published[|w.published| - 1];
      assert PublicAt(w, |w.published|) == Some(Project(w.commits[last - 1]));
      assert last != p.stage.commit;
    }
  }

  /** A call is done with the publication of its own state. */
  lemma DoneInv(w: World, p: Producer, publication: nat, t: Target)
    requires p.stage.Checked? && MadeBy(p.stage.state, p.rq, t)
    requires publication <= |w.published| && PublicAt(w, publication) == Some(Project(p.stage.state))
    ensures StageInv(w, p.(stage := Done(publication)), t)
  {
    assert Displays(p.stage.state);
  }

  lemma WriteStageInv(w: World, p: Producer, reply: Reply, t: Target)
    requires Inv(w, t) && p.stage.Checked? && StageInv(w, p, t)
    requires p.stage.version == |w.published| && p.stage.digest != Some(Project(p.stage.state))
    ensures var grown := w.(published := w.published + [p.stage.commit]);
            && InCommitOrder(grown)
            && StageInv(grown, p.(stage := if reply == RaisesAfter then Failed(StoreUnavailable)
                                        else Done(|w.published| + 1)), t)
  {
    var grown := w.(published := w.published + [p.stage.commit]);
    WrittenInOrder(w, p, t);
    DoneInv(grown, p, |w.published| + 1, t);
  }

  lemma PublishKeepsInv(w: World, i: nat, reply: Reply, t: Target)
    requires Inv(w, t) && i < |w.producers| && w.producers[i].stage.Checked?
    ensures Inv(Publish(w, i, reply), t)
  {
    var p := w.producers[i];
    assert StageInv(w, p, t);
    if p.stage.digest == Some(Project(p.stage.state)) {
      DoneInv(w, p, p.stage.version, t);
      MovedKeepsInv(w, i, Done(p.stage.version), t);
    } else if reply == RaisesBefore || p.stage.version != |w.published| {
      MovedKeepsInv(w, i, Publish(w, i, reply).producers[i].stage, t);
    } else {
      WriteStageInv(w, p, reply, t);
      var grown := w.(published := w.published + [p.stage.commit]);
      WriteKeepsInv(w, grown, i, if reply == RaisesAfter then Failed(StoreUnavailable) else Done(|w.published| + 1), t);
    }
  }

  lemma StepKeepsInv(w: World, i: nat, reply: Reply, t: Target)
    requires t.Ranks() && Inv(w, t)
    ensures Inv(Step(w, i, reply, t), t)
  {
    if i < |w.producers| {
      var p := w.producers[i];
      match p.stage
      case Start => MovedKeepsInv(w, i, Step(w, i, reply, t).producers[i].stage, t);
      case HasPrivate(_, _) =>
        if reply == Answers { ComputeKeepsInv(w, i, t); } else { MovedKeepsInv(w, i, Failed(StoreUnavailable), t); }
      case Computed(_, _, _) => CommitKeepsInv(w, i, reply, t);
      case Committed(state) =>
        assert StageInv(w, p, t);
        MovedKeepsInv(w, i, Step(w, i, reply, t).producers[i].stage, t);
      case HasPublic(_, _, _) =>
        if reply == Answers { CheckKeepsInv(w, i, t); } else { MovedKeepsInv(w, i, Failed(StoreUnavailable), t); }
      case Checked(_, _, _, _) => PublishKeepsInv(w, i, reply, t);
      case Done(_) =>
      case Failed(_) =>
    }
  }

  lemma {:induction false} RunKeepsInv(w: World, schedule: Schedule, t: Target)
    requires t.Ranks() && Inv(w, t)
    ensures Inv(Run(w, schedule, t), t)
    decreases |schedule|
  {
    if schedule != [] {
      StepKeepsInv(w, schedule[0].0, schedule[0].1, t);
      RunKeepsInv(Step(w, schedule[0].0, schedule[0].1, t), schedule[1..], t);
    }
  }

  // ----- main results

  /** Empty stores, and calls that have not begun. */
  predicate Fresh(w: World)
  {
    w.commits == [] && w.published == [] && forall i :: 0 <= i < |w.producers| ==> w.producers[i].stage == Start
  }

  /** A later commit still shows the fact. */
  ghost predicate ShownFrom(commits: seq<State>, i: nat, j: nat, f: Fact)
    requires i < |commits| && j < |commits|
  {
    Shows(commits[i], f) ==> Shows(commits[j], f)
  }

  lemma NextShows(commits: seq<State>, j: nat, f: Fact)
    requires Chain(commits) && 0 < j < |commits|
    ensures ShownFrom(commits, j - 1, j, f)
  {
    if Shows(commits[j - 1], f) {
      ExtensionShows(commits[j - 1], commits[j], f);
    }
  }

  lemma {:induction false} CommitsShow(commits: seq<State>, i: nat, j: nat, f: Fact)
    requires Chain(commits) && i <= j < |commits|
    ensures ShownFrom(commits, i, j, f)
    decreases j - i
  {
    if i < j {
      CommitsShow(commits, i, j - 1, f);
      NextShows(commits, j, f);
    }
  }

  /** Whatever the interleaving, publications are projections of committed states, in strict
      commit order; and what one publication carries, every later one carries. */
  lemma PublishedInCommitOrder(w: World, schedule: Schedule, t: Target, end: World, n: nat, m: nat, f: Fact)
    requires t.Ranks() && Fresh(w) && end == Run(w, schedule, t) && 1 <= n < m <= |end.published|
    ensures 1 <= end.published[n - 1] < end.published[m - 1] <= |end.commits|
    ensures PublicAt(end, n) == Some(Project(end.commits[end.published[n - 1] - 1]))
    ensures PublicAt(end, m) == Some(Project(end.commits[end.published[m - 1] - 1]))
    ensures Carries(PublicAt(end, n).value, f) ==> Carries(PublicAt(end, m).value, f)
  {
    RunKeepsInv(w, schedule, t);
    LaterCarries(end, n, m, f);
  }

  lemma PublicationShows(w: World, n: nat, f: Fact)
    requires Chain(w.commits) && InCommitOrder(w) && 1 <= n <= |w.published|
    ensures PublicAt(w, n).Some?
    ensures Carries(PublicAt(w, n).value, f) <==> Shows(w.commits[w.published[n - 1] - 1], f)
  {
    assert Displays(w.commits[w.published[n - 1] - 1]);
  }

  lemma LaterCarries(w: World, n: nat, m: nat, f: Fact)
    requires Chain(w.commits) && InCommitOrder(w) && 1 <= n <= m <= |w.published|
    ensures PublicAt(w, n).Some? && PublicAt(w, m).Some?
    ensures Carries(PublicAt(w, n).value, f) ==> Carries(PublicAt(w, m).value, f)
  {
    PublicationShows(w, n, f);
    PublicationShows(w, m, f);
    PublishedLater(w, n - 1, m - 1);
    CommitsShow(w.commits, w.published[n - 1] - 1, w.published[m - 1] - 1, f);
  }

  lemma PublishedLater(w: World, i: nat, j: nat)
    requires InCommitOrder(w) && i <= j < |w.published|
    ensures 1 <= w.published[i] <= w.published[j] <= |w.commits|
  {
  }

  lemma DoneIsPublic(w: World, t: Target, i: nat)
    requires Inv(w, t) && i < |w.producers| && w.producers[i].stage.Done? && w.producers[i].rq.ran
    ensures Public(w).Some? && Carries(Public(w).value, w.producers[i].rq.fact)
  {
    var p := w.producers[i];
    assert StageInv(w, p, t);
    LaterCarries(w, p.stage.publication, |w.published|, p.rq.fact);
  }

  /** A call that returned for an executed run: the public digest carries its fact, whatever
      any other calls did before or after. */
  lemma ReturnedFactIsPublic(w: World, schedule: Schedule, t: Target, end: World, i: nat)
    requires t.Ranks() && Fresh(w) && end == Run(w, schedule, t) && i < |end.producers|
    requires end.producers[i].stage.Done? && end.producers[i].rq.ran
    ensures Public(end).Some? && Carries(Public(end).value, end.producers[i].rq.fact)
  {
    RunKeepsInv(w, schedule, t);
    DoneIsPublic(end, t, i);
  }
}
