/** What the merge of candidates means: counts by the set of observations, in any order of
    arrival; and what repeating a call does to the stored state. */
module CandidateLaws {
  import opened Wrappers

  import opened CandidateMerge

  // ----- histories of calls

  /** The call goes through: it names the bound target and raises nothing. */
  predicate Accepts(s: State, rq: Request, t: Target)
  {
    rq.fact.scope == t.scope && rq.fact.known && Merged(s, rq, t).Ok?
  }

  /** The state after some calls; a call that raises changes nothing. */
  function Replay(rqs: seq<Request>, t: Target): State
  {
    if rqs == [] then Blank(t)
    else
      var before, rq := Replay(rqs[..|rqs| - 1], t), rqs[|rqs| - 1];
      if Accepts(before, rq, t) then Merged(before, rq, t).value else before
  }

  predicate LastAccepted(rqs: seq<Request>, t: Target)
    requires rqs != []
  {
    Accepts(Replay(rqs[..|rqs| - 1], t), rqs[|rqs| - 1], t)
  }

  /** The values that accepted calls of a run reported for a field, leaving out nulls. */
  function Observed(rqs: seq<Request>, run: string, field: Field, t: Target): set<nat>
  {
    if rqs == [] then {}
    else
      var seen, rq := Observed(rqs[..|rqs| - 1], run, field, t), rqs[|rqs| - 1];
      if LastAccepted(rqs, t) && rq.ran && rq.fact.run == run && Reported(rq, field).Some?
      then seen + {Reported(rq, field).value} else seen
  }

  /** The facts of accepted calls. */
  function Accumulated(rqs: seq<Request>, t: Target): set<Fact>
  {
    if rqs == [] then {}
    else
      var seen := Accumulated(rqs[..|rqs| - 1], t);
      if LastAccepted(rqs, t) then seen + {rqs[|rqs| - 1].fact} else seen
  }

  // ----- the count of a field follows the set of its observations

  /** A source holds one of the observed values; every other one has left a conflict. */
  ghost predicate Tracks(value: Option<nat>, conflicts: seq<Conflict>, run: string, field: Field, seen: set<nat>)
  {
    && (value.None? <==> seen == {})
    && (value.Some? ==> value.value in seen)
    && (forall c :: c in conflicts && c.run == run && c.field == field ==>
          value == Some(c.previous) && c.observed in seen && c.observed != c.previous)
    && (forall v :: v in seen && Some(v) != value ==>
          value.Some? && Conflict(run, field, value.value, v) in conflicts)
  }

  /** One more observation, with the conflict it may leave. */
  lemma TracksStep(value: Option<nat>, conflicts: seq<Conflict>, after: seq<Conflict>, run: string, field: Field,
                   seen: set<nat>, reported: Option<nat>)
    requires Tracks(value, conflicts, run, field, seen)
    requires forall c: Conflict :: c.run == run && c.field == field ==>
               (c in after <==> c in conflicts
                                || (value.Some? && reported.Some? && value != reported
                                    && c == Conflict(run, field, value.value, reported.value)))
    ensures Tracks(Keep(value, reported), after, run, field, if reported.Some? then seen + {reported.value} else seen)
  {
  }

  lemma ConflictsAfter(s: State, rq: Request, t: Target, c: Conflict)
    requires Merged(s, rq, t).Ok?
    ensures var prior := OldSource(s, rq.fact.run);
            c in Merged(s, rq, t).value.conflicts <==>
            c in s.conflicts || (rq.ran && c in Disagreement(prior, rq, c.field))
  {
    var prior := OldSource(s, rq.fact.run);
    AddNewMembers(s.conflicts, Disagreements(prior, rq), c);
  }

  /** What a call reports for a field of a run. */
  function ReportedFor(rq: Request, run: string, field: Field): Option<nat>
  {
    if rq.ran && rq.fact.run == run then Reported(rq, field) else None
  }

  lemma ValueAfter(s: State, rq: Request, t: Target, run: string, field: Field)
    requires Merged(s, rq, t).Ok?
    ensures OldCount(OldSource(Merged(s, rq, t).value, run), field)
            == Keep(OldCount(OldSource(s, run), field), ReportedFor(rq, run, field))
  {
  }

  lemma MergeTracks(s: State, rq: Request, t: Target, run: string, field: Field, seen: set<nat>)
    requires Merged(s, rq, t).Ok?
    requires Tracks(OldCount(OldSource(s, run), field), s.conflicts, run, field, seen)
    ensures var after := Merged(s, rq, t).value; var reported := ReportedFor(rq, run, field);
            Tracks(OldCount(OldSource(after, run), field), after.conflicts, run, field,
                   if reported.Some? then seen + {reported.value} else seen)
  {
    var value := OldCount(OldSource(s, run), field);
    var after := Merged(s, rq, t).value.conflicts;
    var reported := ReportedFor(rq, run, field);
    forall c: Conflict | c.run == run && c.field == field
      ensures c in after <==> c in s.conflicts || (value.Some? && reported.Some? && value != reported
                                                  && c == Conflict(run, field, value.value, reported.value))
    {
      ConflictsAfter(s, rq, t, c);
    }
    TracksStep(value, s.conflicts, after, run, field, seen, reported);
    ValueAfter(s, rq, t, run, field);
  }

  lemma {:induction false} ReplayTracks(rqs: seq<Request>, t: Target, run: string, field: Field)
    ensures var s := Replay(rqs, t);
            Tracks(OldCount(OldSource(s, run), field), s.conflicts, run, field, Observed(rqs, run, field, t))
  {
    if rqs != [] {
      var front := rqs[..|rqs| - 1];
      ReplayTracks(front, t, run, field);
      if LastAccepted(rqs, t) {
        MergeTracks(Replay(front, t), rqs[|rqs| - 1], t, run, field, Observed(front, run, field, t));
      }
    }
  }

  // ----- the rows are those of the last merge

  ghost predicate RowsMatch(s: State, t: Target)
  {
    exists order :: Lists(order, s.events) && s.runs == Rows(order, s.events, s.sources, s.conflicts, t.dryRun)
  }

  lemma MergeRows(s: State, rq: Request, t: Target)
    requires Lists(s.keys, s.events) && Merged(s, rq, t).Ok?
    ensures RowsMatch(Merged(s, rq, t).value, t)
  {
    var after := Merged(s, rq, t).value;
    assert Lists(Listing(s, KeyFor(s.events, rq.fact)), after.events);
  }

  lemma {:induction false} FactsOfMembers(order: seq<FactKey>, events: map<FactKey, Fact>, run: string, f: Fact)
    ensures f in FactsOf(order, events, run) <==>
              f.run == run && exists k :: k in order && k in events && events[k] == f
  {
    if order != [] {
      FactsOfMembers(order[1..], events, run, f);
    }
  }

  ghost predicate Gathers(s: State, facts: set<Fact>)
  {
    && (forall k :: k in s.events ==> s.events[k] in facts)
    && (forall f :: f in facts ==> exists k :: k in s.events && s.events[k] == f)
  }

  lemma MergeGathers(s: State, rq: Request, t: Target, facts: set<Fact>)
    requires Stored(s, t) && Merged(s, rq, t).Ok? && Gathers(s, facts)
    ensures Gathers(Merged(s, rq, t).value, facts + {rq.fact})
  {
    var after := Merged(s, rq, t).value;
    MergeKeepsEvidence(s, rq, t);
    forall f | f in facts ensures exists k :: k in after.events && after.events[k] == f {
      var k :| k in s.events && s.events[k] == f;
      assert after.events[k] == f;
    }
  }

  lemma {:induction false} ReplayInv(rqs: seq<Request>, t: Target)
    requires t.Ranks()
    ensures var s := Replay(rqs, t); Stored(s, t) && RowsMatch(s, t) && Gathers(s, Accumulated(rqs, t))
  {
    if rqs == [] {
      assert Rows([], map[], map[], [], t.dryRun) == map[];
      assert Lists([], Blank(t).events);
    } else {
      var front, rq := rqs[..|rqs| - 1], rqs[|rqs| - 1];
      ReplayInv(front, t);
      if LastAccepted(rqs, t) {
        MergeStored(Replay(front, t), rq, t);
        MergeRows(Replay(front, t), rq, t);
        MergeGathers(Replay(front, t), rq, t, Accumulated(front, t));
      }
    }
  }

  // ----- main results on rows

  function RowCount(row: Row, field: Field): Option<nat>
    requires row.RunRow?
  {
    match field
    case Orders => row.orders
    case Fills => row.fills
    case Preview => row.preview
  }

  /** The run reported two different values for some field. */
  predicate Contradicted(rqs: seq<Request>, run: string, t: Target)
  {
    |Observed(rqs, run, Orders, t)| > 1 || |Observed(rqs, run, Fills, t)| > 1 || |Observed(rqs, run, Preview, t)| > 1
  }

  lemma TwoMembers(seen: set<nat>, v: nat)
    requires v in seen
    ensures seen == {v} <==> !exists w :: w in seen && w != v
    ensures |seen| > 1 <==> exists w :: w in seen && w != v
  {
    if w: nat :| w in seen && w != v {
      assert {v, w} <= seen;
      SubsetSize({v, w}, seen);
    } else {
      assert seen == {v};
    }
  }

  lemma SubsetSize(a: set<nat>, b: set<nat>)
    requires a <= b
    ensures |a| <= |b|
  {
    assert b == a + (b - a);
  }

  lemma DisputedByObservations(rqs: seq<Request>, t: Target, run: string, field: Field)
    ensures var s := Replay(rqs, t); var seen := Observed(rqs, run, field, t);
            && (Disputed(s.conflicts, run, field) <==> |seen| > 1)
            && (|seen| == 1 ==>
                  OldCount(OldSource(s, run), field).Some? && seen == {OldCount(OldSource(s, run), field).value})
            && (seen == {} <==> OldCount(OldSource(s, run), field).None?)
  {
    var s, seen := Replay(rqs, t), Observed(rqs, run, field, t);
    ReplayTracks(rqs, t, run, field);
    var value := OldCount(OldSource(s, run), field);
    if value.Some? {
      TwoMembers(seen, value.value);
    }
  }

  /** A row is made of its source, the conflicts, and all facts of the run. */
  lemma RowShape(rqs: seq<Request>, t: Target, run: string) returns (facts: seq<Fact>)
    requires t.Ranks() && run in Replay(rqs, t).runs
    ensures var s := Replay(rqs, t);
            run in s.sources && s.runs[run] == RowFor(s.sources[run], s.conflicts, run, facts, t.dryRun)
    ensures forall f :: f in facts <==> f.run == run && f in Accumulated(rqs, t)
  {
    var s := Replay(rqs, t);
    ReplayInv(rqs, t);
    var order :| Lists(order, s.events) && s.runs == Rows(order, s.events, s.sources, s.conflicts, t.dryRun);
    facts := FactsOf(order, s.events, run);
    forall f ensures f in facts <==> f.run == run && f in Accumulated(rqs, t) {
      FactsOfMembers(order, s.events, run, f);
    }
  }

  lemma RowReads(source: Source, conflicts: seq<Conflict>, run: string, facts: seq<Fact>, dryRun: bool, field: Field)
    requires source.Ran?
    ensures var row := RowFor(source, conflicts, run, facts, dryRun);
            && RowCount(row, field) == (if Disputed(conflicts, run, field) then None else Count(source, field))
            && (row.status == ExecutionAlert <==>
                  || Disputed(conflicts, run, Orders) || Disputed(conflicts, run, Fills)
                  || Disputed(conflicts, run, Preview)
                  || exists f :: f in facts && f.kind !in ROUTINE_KINDS)
  {
    SomeConflict(conflicts, run);
  }

  /** For each executed run and field the row shows a value exactly when one value only was
      ever observed, and then that value; none and two or more both give null. The row is an
      alert exactly when some field was contradicted or some fact of the run is not routine. */
  lemma RowByObservations(rqs: seq<Request>, t: Target, run: string, field: Field)
    requires t.Ranks() && run in Replay(rqs, t).runs && Replay(rqs, t).runs[run].RunRow?
    ensures var row := Replay(rqs, t).runs[run]; var seen := Observed(rqs, run, field, t);
            && (RowCount(row, field).Some? <==> |seen| == 1)
            && (RowCount(row, field).Some? ==> seen == {RowCount(row, field).value})
            && (row.status == ExecutionAlert <==>
                  Contradicted(rqs, run, t)
                  || exists f :: f in Accumulated(rqs, t) && f.run == run && f.kind !in ROUTINE_KINDS)
  {
    var s := Replay(rqs, t);
    var facts := RowShape(rqs, t, run);
    RowReads(s.sources[run], s.conflicts, run, facts, t.dryRun, field);
    DisputedByObservations(rqs, t, run, field);
    DisputedByObservations(rqs, t, run, Orders);
    DisputedByObservations(rqs, t, run, Fills);
    DisputedByObservations(rqs, t, run, Preview);
  }

  lemma SomeConflict(conflicts: seq<Conflict>, run: string)
    ensures (exists c :: c in conflicts && c.run == run) <==>
            Disputed(conflicts, run, Orders) || Disputed(conflicts, run, Fills) || Disputed(conflicts, run, Preview)
  {
  }

  // ----- histories in which every call is accepted

  ghost predicate AllAccepted(rqs: seq<Request>, t: Target)
  {
    forall n :: 0 < n <= |rqs| ==> LastAccepted(rqs[..n], t)
  }

  lemma FrontAccepted(rqs: seq<Request>, t: Target)
    requires rqs != [] && AllAccepted(rqs, t)
    ensures AllAccepted(rqs[..|rqs| - 1], t) && LastAccepted(rqs, t)
  {
    var front := rqs[..|rqs| - 1];
    forall n | 0 < n <= |front| ensures LastAccepted(front[..n], t) {
      assert front[..n] == rqs[..n];
    }
    assert rqs[..|rqs|] == rqs;
  }

  /** The call reports this value for the field of the run. */
  predicate Reports(rq: Request, run: string, field: Field, v: nat)
  {
    rq.ran && rq.fact.run == run && Reported(rq, field) == Some(v)
  }

  ghost predicate SomeReports(rqs: seq<Request>, run: string, field: Field, v: nat)
  {
    exists rq :: rq in rqs && Reports(rq, run, field, v)
  }

  lemma SomeReportsLast(rqs: seq<Request>, run: string, field: Field, v: nat)
    requires rqs != []
    ensures SomeReports(rqs, run, field, v) <==>
            SomeReports(rqs[..|rqs| - 1], run, field, v) || Reports(rqs[|rqs| - 1], run, field, v)
  {
    var front, last := rqs[..|rqs| - 1], rqs[|rqs| - 1];
    assert rqs == front + [last];
    assert last in rqs;
    if SomeReports(front, run, field, v) {
      var rq :| rq in front && Reports(rq, run, field, v);
      assert rq in rqs;
    }
  }

  lemma ObservedLast(rqs: seq<Request>, run: string, field: Field, t: Target, v: nat)
    requires rqs != [] && LastAccepted(rqs, t)
    ensures v in Observed(rqs, run, field, t) <==>
            v in Observed(rqs[..|rqs| - 1], run, field, t) || Reports(rqs[|rqs| - 1], run, field, v)
  {
  }

  lemma {:induction false} ObservedByMembers(rqs: seq<Request>, run: string, field: Field, t: Target, v: nat)
    requires AllAccepted(rqs, t)
    ensures v in Observed(rqs, run, field, t) <==> SomeReports(rqs, run, field, v)
  {
    if rqs != [] {
      FrontAccepted(rqs, t);
      ObservedByMembers(rqs[..|rqs| - 1], run, field, t, v);
      ObservedLast(rqs, run, field, t, v);
      SomeReportsLast(rqs, run, field, v);
    }
  }
}
