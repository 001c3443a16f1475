/** What the published digest says of a run, told from the calls about it. */
module CandidateDigest {
  import opened Wrappers

  import opened CandidateMerge
  import opened CandidateLaws
  import opened CandidateExport

  // ----- what the calls say

  /** The call tells whether a run executed. */
  predicate Tells(rq: Request, run: string)
  {
    rq.fact.run == run && (rq.ran || rq.notRun)
  }

  /** The last accepted call that tells whether the run executed. */
  function LastCall(rqs: seq<Request>, run: string, t: Target): Option<Request>
  {
    if rqs == [] then None
    else if LastAccepted(rqs, t) && Tells(rqs[|rqs| - 1], run) then Some(rqs[|rqs| - 1])
    else LastCall(rqs[..|rqs| - 1], run, t)
  }

  /** The call reports plugin observations of the executed run. */
  predicate Reports(rq: Request, run: string)
  {
    rq.ran && !rq.notRun && rq.fact.run == run && rq.observations.Some?
  }

  /** The plugin observations that accepted calls reported of the run, the last ones first. */
  function Plugins(rqs: seq<Request>, run: string, t: Target): Option<map<string, int>>
  {
    if rqs == [] then None
    else if LastAccepted(rqs, t) && Reports(rqs[|rqs| - 1], run) then rqs[|rqs| - 1].observations
    else Plugins(rqs[..|rqs| - 1], run, t)
  }

  /** A source says what the last call about its run said. */
  predicate SourceSays(source: Option<Source>, last: Option<Request>, plugins: Option<map<string, int>>, dryRun: bool)
  {
    match last
    case None => source.None?
    case Some(rq) =>
      && source.Some?
      && if rq.notRun then source.value == NotRun(rq.fact.at, rq.skipReason)
         else source.value.Ran? && source.value.at == rq.fact.at && source.value.kind == rq.fact.kind
              && source.value.dryRun == dryRun && source.value.observations == plugins
  }

  /** An idle run never has plugin observations. */
  predicate IdleHasNone(last: Option<Request>, plugins: Option<map<string, int>>)
  {
    last.None? || last.value.notRun ==> plugins.None?
  }

  lemma MergeSays(s: State, rq: Request, t: Target, run: string, last: Option<Request>,
                  plugins: Option<map<string, int>>)
    requires Merged(s, rq, t).Ok?
    requires SourceSays(OldSource(s, run), last, plugins, t.dryRun) && IdleHasNone(last, plugins)
    ensures var after := Merged(s, rq, t).value;
            var told := if Tells(rq, run) then Some(rq) else last;
            var reported := if Reports(rq, run) then rq.observations else plugins;
            SourceSays(OldSource(after, run), told, reported, t.dryRun) && IdleHasNone(told, reported)
  {
  }

  lemma {:induction false} SourcesSay(rqs: seq<Request>, t: Target, run: string)
    ensures SourceSays(OldSource(Replay(rqs, t), run), LastCall(rqs, run, t), Plugins(rqs, run, t), t.dryRun)
    ensures IdleHasNone(LastCall(rqs, run, t), Plugins(rqs, run, t))
  {
    if rqs != [] {
      var front, rq := rqs[..|rqs| - 1], rqs[|rqs| - 1];
      SourcesSay(front, t, run);
      if LastAccepted(rqs, t) {
        MergeSays(Replay(front, t), rq, t, run, LastCall(front, run, t), Plugins(front, run, t));
      }
    }
  }

  // ----- what the digest says

  /** A count is shown exactly when one value was observed, and it is that value. */
  predicate ShowsOnly(count: Option<nat>, seen: set<nat>)
  {
    (count.Some? <==> |seen| == 1) && (count.Some? ==> seen == {count.value})
  }

  /** A run needs attention: some field was contradicted, or some fact of it is not routine. */
  ghost predicate Alarms(rqs: seq<Request>, run: string, t: Target)
  {
    Contradicted(rqs, run, t) || exists f :: f in Accumulated(rqs, t) && f.run == run && f.kind !in ROUTINE_KINDS
  }

  /** The status of an executed run, from the order counts that were observed. */
  ghost predicate StatusSays(status: RunStatus, orders: set<nat>, alarms: bool, dryRun: bool)
  {
    && (status == ExecutionAlert <==> alarms)
    && (status == Executed <==> !alarms && exists n :: n in orders && n != 0)
    && (status == ExecutionUnknown <==> !alarms && orders == {} && !dryRun)
    && (status == NoOrder <==> !alarms && (orders == {0} || (orders == {} && dryRun)))
  }

  lemma StatusOfRow(rqs: seq<Request>, t: Target, run: string)
    requires t.Ranks() && run in Replay(rqs, t).runs && Replay(rqs, t).runs[run].RunRow?
    ensures var row := Replay(rqs, t).runs[run];
            && StatusSays(row.status, Observed(rqs, run, Orders, t), Alarms(rqs, run, t), t.dryRun)
            && row.dryRun == t.dryRun
            && forall f :: f in row.facts <==> f.run == run && f in Accumulated(rqs, t)
  {
    var facts := RowShape(rqs, t, run);
    var seen := Observed(rqs, run, Orders, t);
    RowByObservations(rqs, t, run, Orders);
    DisputedByObservations(rqs, t, run, Orders);
    if |seen| <= 1 {
      NotContradicted(seen);
    }
  }

  lemma NotContradicted(seen: set<nat>)
    requires |seen| <= 1
    ensures seen == {} || exists v :: seen == {v}
  {
    if v :| v in seen {
      TwoMembers(seen, v);
    }
  }

  /** The row of an executed run in the digest: counts, status, facts, and what the last call said. */
  ghost predicate RunSays(d: DigestRow, rqs: seq<Request>, run: string, t: Target, last: Request)
  {
    && d.RunDigest?
    && ShowsOnly(d.orders, Observed(rqs, run, Orders, t)) && ShowsOnly(d.fills, Observed(rqs, run, Fills, t))
    && StatusSays(d.status, Observed(rqs, run, Orders, t), Alarms(rqs, run, t), t.dryRun)
    && d.at == last.fact.at && d.dryRun == t.dryRun && d.observations == Plugins(rqs, run, t)
    && forall f :: f in d.facts <==> f.run == run && f in Accumulated(rqs, t)
  }

  /** The digest in full. A run is in it exactly when some accepted call told whether it executed.
      An idle run shows the time and the reason of the last such call. An executed run shows the
      orders, and the fills, exactly when one value was observed for them; its status by the alarms
      and the order counts observed; the time of the last call, the plugin observations reported,
      and all facts of the run. */
  ghost predicate DigestSays(digest: Digest, rqs: seq<Request>, run: string, t: Target)
  {
    match LastCall(rqs, run, t)
    case None => run !in digest
    case Some(last) =>
      && run in digest
      && if last.notRun then digest[run] == IdleDigest(last.fact.at, last.skipReason)
         else RunSays(digest[run], rqs, run, t, last)
  }

  lemma RowSource(rqs: seq<Request>, t: Target, run: string)
    requires t.Ranks()
    ensures var s := Replay(rqs, t);
            && s.runs.Keys == s.sources.Keys
            && (run in s.runs ==>
                  && (s.sources[run].NotRun? ==> s.runs[run] == IdleRow(s.sources[run].at, s.sources[run].skipReason))
                  && (s.sources[run].Ran? ==>
                        && s.runs[run].RunRow? && s.runs[run].at == s.sources[run].at
                        && s.runs[run].observations == s.sources[run].observations))
  {
    ReplayInv(rqs, t);
  }

  lemma DigestByCalls(rqs: seq<Request>, t: Target, run: string)
    requires t.Ranks()
    ensures DigestSays(Project(Replay(rqs, t)), rqs, run, t)
  {
    var s := Replay(rqs, t);
    SourcesSay(rqs, t, run);
    RowSource(rqs, t, run);
    if run in s.runs && s.runs[run].RunRow? {
      ExecutedByCalls(rqs, t, run);
    }
  }

  lemma ExecutedByCalls(rqs: seq<Request>, t: Target, run: string)
    requires t.Ranks() && run in Replay(rqs, t).runs && Replay(rqs, t).runs[run].RunRow?
    ensures var d := Project(Replay(rqs, t))[run];
            && d.RunDigest? && d.dryRun == t.dryRun
            && ShowsOnly(d.orders, Observed(rqs, run, Orders, t)) && ShowsOnly(d.fills, Observed(rqs, run, Fills, t))
            && StatusSays(d.status, Observed(rqs, run, Orders, t), Alarms(rqs, run, t), t.dryRun)
            && forall f :: f in d.facts <==> f.run == run && f in Accumulated(rqs, t)
  {
    RowByObservations(rqs, t, run, Orders);
    RowByObservations(rqs, t, run, Fills);
    StatusOfRow(rqs, t, run);
  }

  // ----- concurrent calls

  /** The private states committed so far are those of calls made one after the other. */
  ghost predicate Serial(commits: seq<State>, rqs: seq<Request>, t: Target)
  {
    && |rqs| == |commits|
    && forall k :: 0 < k <= |rqs| ==> LastAccepted(rqs[..k], t) && commits[k - 1] == Replay(rqs[..k], t)
  }

  /** What a call has computed is the merge into what it read. */
  ghost predicate ComputedMerge(w: World, t: Target)
  {
    forall i :: 0 <= i < |w.producers| && w.producers[i].stage.Computed? ==>
      var p := w.producers[i];
      var base := Base(p.stage.previous, t);
      Accepts(base, p.rq, t) && Merged(base, p.rq, t) == Ok(p.stage.next)
  }

  lemma StepComputes(w: World, i: nat, reply: Reply, t: Target)
    requires ComputedMerge(w, t)
    ensures ComputedMerge(Step(w, i, reply, t), t)
  {
    StepLeavesOthers(w, i, reply, t);
    if i < |w.producers| && Step(w, i, reply, t).producers[i].stage.Computed? {
      StepIsCompute(w, i, reply, t);
    }
  }

  lemma StepLeavesOthers(w: World, i: nat, reply: Reply, t: Target)
    ensures var w1 := Step(w, i, reply, t);
            && |w1.producers| == |w.producers|
            && forall k :: 0 <= k < |w.producers| ==>
                 w1.producers[k].rq == w.producers[k].rq && (k != i ==> w1.producers[k] == w.producers[k])
  {
  }

  lemma StepIsCompute(w: World, i: nat, reply: Reply, t: Target)
    requires i < |w.producers| && Step(w, i, reply, t).producers[i].stage.Computed?
    ensures var p := Step(w, i, reply, t).producers[i];
            var base := Base(p.stage.previous, t);
            Accepts(base, p.rq, t) && Merged(base, p.rq, t) == Ok(p.stage.next)
  {
    assert w.producers[i].stage.HasPrivate?;
    ComputeMerges(w, i, t);
  }

  lemma ComputeMerges(w: World, i: nat, t: Target)
    requires i < |w.producers| && w.producers[i].stage.HasPrivate? && Compute(w, i, t).Computed?
    ensures var p, stage := w.producers[i], Compute(w, i, t);
            var base := Base(stage.previous, t);
            Accepts(base, p.rq, t) && Merged(base, p.rq, t) == Ok(stage.next)
  {
  }

  /** A step commits nothing, or the merge of its call into the last commit. */
  lemma StepCommits(w: World, i: nat, reply: Reply, t: Target)
    requires CandidateExport.Inv(w, t) && ComputedMerge(w, t)
    ensures var w1 := Step(w, i, reply, t);
            || w1.commits == w.commits
            || (i < |w.producers| && var base := Base(PrivateAt(w, |w.commits|), t);
                && Accepts(base, w.producers[i].rq, t)
                && w1.commits == w.commits + [Merged(base, w.producers[i].rq, t).value])
  {
    if i < |w.producers| && w.producers[i].stage.Computed? {
      assert StageInv(w, w.producers[i], t);
      CommitCommits(w, i, reply);
    }
  }

  lemma CommitCommits(w: World, i: nat, reply: Reply)
    requires i < |w.producers| && w.producers[i].stage.Computed?
    ensures var stage, w1 := w.producers[i].stage, Commit(w, i, reply);
            w1.commits == w.commits || (stage.version == |w.commits| && w1.commits == w.commits + [stage.next])
  {
  }

  lemma SerialLast(commits: seq<State>, rqs: seq<Request>, w: World, t: Target)
    requires Serial(commits, rqs, t) && commits == w.commits
    ensures Base(PrivateAt(w, |w.commits|), t) == Replay(rqs, t)
  {
    assert rqs[..|rqs|] == rqs;
  }

  lemma SerialAppend(commits: seq<State>, rqs: seq<Request>, rq: Request, t: Target)
    requires Serial(commits, rqs, t) && Accepts(Replay(rqs, t), rq, t)
    ensures Serial(commits + [Merged(Replay(rqs, t), rq, t).value], rqs + [rq], t)
  {
    var more := rqs + [rq];
    var after := commits + [Merged(Replay(rqs, t), rq, t).value];
    forall k | 0 < k <= |more| ensures LastAccepted(more[..k], t) && after[k - 1] == Replay(more[..k], t)
    {
      if k <= |rqs| {
        assert more[..k] == rqs[..k];
      } else {
        assert more[..k] == more && more[..|more| - 1] == rqs;
      }
    }
  }

  /** The call is one of these producers'. */
  ghost predicate MadeIn(w: World, rq: Request)
  {
    exists i :: 0 <= i < |w.producers| && w.producers[i].rq == rq
  }

  lemma {:induction false} RunIsSerial(w: World, schedule: Schedule, t: Target, rqs: seq<Request>)
    returns (more: seq<Request>)
    requires t.Ranks() && CandidateExport.Inv(w, t) && ComputedMerge(w, t) && Serial(w.commits, rqs, t)
    ensures Serial(Run(w, schedule, t).commits, more, t)
    ensures forall rq :: rq in more ==> rq in rqs || MadeIn(w, rq)
    ensures CandidateExport.Inv(Run(w, schedule, t), t)
    decreases |schedule|
  {
    if schedule == [] {
      more := rqs;
    } else {
      var i, reply := schedule[0].0, schedule[0].1;
      var w1 := Step(w, i, reply, t);
      StepKeepsInv(w, i, reply, t);
      StepComputes(w, i, reply, t);
      StepCommits(w, i, reply, t);
      StepLeavesOthers(w, i, reply, t);
      SerialLast(w.commits, rqs, w, t);
      var next := rqs;
      if w1.commits != w.commits {
        SerialAppend(w.commits, rqs, w.producers[i].rq, t);
        next := rqs + [w.producers[i].rq];
      }
      more := RunIsSerial(w1, schedule[1..], t, next);
      forall rq | MadeIn(w1, rq) ensures MadeIn(w, rq) {
        var k :| 0 <= k < |w1.producers| && w1.producers[k].rq == rq;
        assert w.producers[k].rq == rq;
      }
    }
  }

  /** The digest says this of the calls, run by run. */
  ghost predicate TellsOf(digest: Digest, rqs: seq<Request>, t: Target)
  {
    forall run :: DigestSays(digest, rqs, run, t)
  }

  /** Whatever the interleaving, the calls that committed can be put in one order, in which each
      merges into the state left by the one before; and every publication tells of the calls up to
      its commit what `DigestSays` says, for every run. */
  lemma PublishedTells(w: World, schedule: Schedule, t: Target, end: World) returns (rqs: seq<Request>)
    requires t.Ranks() && Fresh(w) && end == Run(w, schedule, t)
    ensures Serial(end.commits, rqs, t) && forall rq :: rq in rqs ==> MadeIn(w, rq)
    ensures forall n: nat :: 1 <= n <= |end.published| ==>
              && 1 <= end.published[n - 1] <= |rqs| && PublicAt(end, n).Some?
              && TellsOf(PublicAt(end, n).value, rqs[..end.published[n - 1]], t)
  {
    rqs := RunIsSerial(w, schedule, t, []);
    forall n: nat | 1 <= n <= |end.published|
      ensures 1 <= end.published[n - 1] <= |rqs| && PublicAt(end, n).Some?
      ensures TellsOf(PublicAt(end, n).value, rqs[..end.published[n - 1]], t)
    {
      var committed := rqs[..end.published[n - 1]];
      forall run ensures DigestSays(PublicAt(end, n).value, committed, run, t) {
        DigestByCalls(committed, t, run);
      }
    }
  }
}
