/** `persist_candidate` in the form of the source, over the two stored objects, for a call that
    no other call interrupts. */
module CandidateStore {
  import opened Wrappers

  import opened CandidateMerge
  import CandidateRepeat
  import CandidateExport

  datatype Answer = Persisted | Refused(error: Error)

  class Candidate {
    var state: Option<State>
    var stateVersion: nat
    var digest: Option<CandidateExport.Digest>
    var digestVersion: nat

    constructor ()
      ensures state == None && digest == None && stateVersion == 0 && digestVersion == 0
    {
      state, stateVersion, digest, digestVersion := None, 0, None, 0;
    }

    method CompareAndSetState(version: nat, next: State) returns (won: bool)
      modifies `state, `stateVersion
      ensures won == (version == old(stateVersion))
      ensures if won then state == Some(next) && stateVersion == old(stateVersion) + 1
              else state == old(state) && stateVersion == old(stateVersion)
    {
      won := version == stateVersion;
      if won { state, stateVersion := Some(next), stateVersion + 1; }
    }

    method CompareAndSetDigest(version: nat, next: CandidateExport.Digest) returns (won: bool)
      modifies `digest, `digestVersion
      ensures won == (version == old(digestVersion))
      ensures if won then digest == Some(next) && digestVersion == old(digestVersion) + 1
              else digest == old(digest) && digestVersion == old(digestVersion)
    {
      won := version == digestVersion;
      if won { digest, digestVersion := Some(next), digestVersion + 1; }
    }

    method ExportProjection(s: State) returns (answer: Answer)
      modifies `digest, `digestVersion
      ensures state != Some(s) ==>
                answer == Refused(ConcurrentUpdate) && digest == old(digest) && digestVersion == old(digestVersion)
      ensures state == Some(s) ==>
                answer == Persisted && digest == Some(CandidateExport.Project(s))
                && digestVersion == old(digestVersion) + (if old(digest) == digest then 0 else 1)
    {
      var version, previous := digestVersion, digest;
      if state != Some(s) { return Refused(ConcurrentUpdate); }
      var payload := CandidateExport.Project(s);
      if previous == Some(payload) { return Persisted; }
      var won := CompareAndSetDigest(version, payload);
      return if won then Persisted else Refused(ConcurrentUpdate);
    }

    /** The call raises exactly when the merge does, and then nothing is written. Otherwise the
        merged state and its projection are stored, and an object that is already right is not
        written again. */
    method PersistCandidate(rq: Request, t: Target) returns (answer: Answer)
      modifies this
      ensures var merged := Merge(old(state), old(digest).Some?, rq, t);
              match merged
              case Err(e) =>
                answer == Refused(e) && state == old(state) && digest == old(digest)
                && stateVersion == old(stateVersion) && digestVersion == old(digestVersion)
              case Ok(next) =>
                && answer == Persisted && state == Some(next) && digest == Some(CandidateExport.Project(next))
                && stateVersion == old(stateVersion) + (if old(state) == state then 0 else 1)
                && digestVersion == old(digestVersion) + (if old(digest) == digest then 0 else 1)
      ensures answer == Refused(IdentityUnknown) <==> rq.fact.scope != t.scope || !rq.fact.known
      ensures answer == Refused(HistoryUnknown) <==>
              rq.fact.scope == t.scope && rq.fact.known && old(state).None? && old(digest).Some?
      ensures answer == Refused(ScopeConflict) <==>
              rq.fact.scope == t.scope && rq.fact.known && old(state).Some? && old(state).value.scope != t.scope
    {
      var version, previous := stateVersion, state;
      if rq.fact.scope != t.scope || !rq.fact.known { return Refused(IdentityUnknown); }
      if previous.None? && digest.Some? { return Refused(HistoryUnknown); }
      if previous.Some? && previous.value.scope != t.scope { return Refused(ScopeConflict); }
      var s := if previous.Some? then previous.value else Blank(t);
      var next := MergeInto(s, rq, t);
      if next.Err? { return Refused(next.error); }
      if previous != Some(next.value) {
        var won := CompareAndSetState(version, next.value);
        if !won { return Refused(ConcurrentUpdate); }
      }
      answer := ExportProjection(next.value);
    }
  }

  method MergeInto(s: State, rq: Request, t: Target) returns (r: Result<State>)
    ensures r == Merged(s, rq, t)
  {
    var run := rq.fact.run;
    var prior := OldSource(s, run);
    var k := Plain(rq.fact.dedupe);
    if k in s.events && s.events[k] != rq.fact { k := Suffixed(rq.fact.dedupe, rq.fact); }
    var events, sources, conflicts := s.events[k := rq.fact], s.sources, s.conflicts;
    if rq.notRun {
      var source := IdleSource(prior, rq);
      if source.Err? { return Err(source.error); }
      sources := sources[run := source.value];
    } else if rq.ran {
      var source := RanSource(prior, rq, t);
      if source.Err? { return Err(source.error); }
      conflicts := NoteDisagreements(conflicts, prior, rq);
      sources := sources[run := source.value];
    }
    var rows := BuildRows(Listing(s, k), events, sources, conflicts, t.dryRun);
    r := Ok(State(s.scope, events, if k in s.events then s.keys else Insert(s.keys, k, t), sources, conflicts, rows));
  }

  /** The loop over the count fields. */
  method NoteDisagreements(conflicts: seq<Conflict>, prior: Option<Source>, rq: Request) returns (r: seq<Conflict>)
    ensures r == AddNew(conflicts, Disagreements(prior, rq))
  {
    var fields := [Orders, Fills, Preview];
    r := conflicts;
    var i := 0;
    while i < |fields|
      invariant i <= |fields|
      invariant AddNew(r, From(fields[i..], prior, rq)) == AddNew(conflicts, From(fields, prior, rq))
    {
      var was, now := OldCount(prior, fields[i]), Reported(rq, fields[i]);
      ghost var before := r;
      if was.Some? && now.Some? && was != now {
        var conflict := Conflict(rq.fact.run, fields[i], was.value, now.value);
        if conflict !in r { r := r + [conflict]; }
      }
      assert fields[i..][0] == fields[i] && fields[i..][1..] == fields[i + 1..];
      AddFirst(before, Disagreement(prior, rq, fields[i]), From(fields[i + 1..], prior, rq));
      i := i + 1;
    }
    FromAll(prior, rq);
  }

  ghost function From(fields: seq<Field>, prior: Option<Source>, rq: Request): seq<Conflict>
  {
    if fields == [] then [] else Disagreement(prior, rq, fields[0]) + From(fields[1..], prior, rq)
  }

  lemma FromAll(prior: Option<Source>, rq: Request)
    ensures From([Orders, Fills, Preview], prior, rq) == Disagreements(prior, rq)
  {
    var preview := Disagreement(prior, rq, Preview);
    assert [Orders, Fills, Preview][1..] == [Fills, Preview];
    assert [Fills, Preview][1..] == [Preview];
    assert [Preview][1..] == [];
    assert From([Preview], prior, rq) == preview + [] == preview;
  }

  lemma AddFirst(conflicts: seq<Conflict>, first: seq<Conflict>, rest: seq<Conflict>)
    requires |first| <= 1
    ensures AddNew(conflicts, first + rest)
            == AddNew(if first == [] || first[0] in conflicts then conflicts else conflicts + first, rest)
  {
    if first == [] {
      assert first + rest == rest;
    } else {
      assert (first + rest)[0] == first[0] && (first + rest)[1..] == rest && first == [first[0]];
    }
  }

  /** The loop over the source runs. */
  method BuildRows(order: seq<FactKey>, events: map<FactKey, Fact>, sources: map<string, Source>,
                   conflicts: seq<Conflict>,
                   dryRun: bool) returns (rows: map<string, Row>)
    ensures rows == Rows(order, events, sources, conflicts, dryRun)
  {
    rows := map[];
    var todo := sources.Keys;
    while todo != {}
      invariant todo <= sources.Keys && rows.Keys == sources.Keys - todo
      invariant forall run :: run in rows ==> rows[run] == Rows(order, events, sources, conflicts, dryRun)[run]
      decreases |todo|
    {
      var run :| run in todo;
      var facts := CollectFacts(order, events, run);
      rows := rows[run := RowFor(sources[run], conflicts, run, facts, dryRun)];
      todo := todo - {run};
    }
  }

  method CollectFacts(order: seq<FactKey>, events: map<FactKey, Fact>, run: string) returns (facts: seq<Fact>)
    ensures facts == FactsOf(order, events, run)
  {
    facts := [];
    var i := 0;
    while i < |order|
      invariant i <= |order|
      invariant facts == FactsOf(order[..i], events, run)
    {
      NextFact(order, i, events, run);
      if order[i] in events && events[order[i]].run == run { facts := facts + [events[order[i]]]; }
      i := i + 1;
    }
    assert order[..i] == order;
  }

  lemma NextFact(order: seq<FactKey>, i: nat, events: map<FactKey, Fact>, run: string)
    requires i < |order|
    ensures FactsOf(order[..i + 1], events, run) == FactsOf(order[..i], events, run)
            + if order[i] in events && events[order[i]].run == run then [events[order[i]]] else []
  {
    assert order[..i + 1] == order[..i] + [order[i]];
    CandidateRepeat.FactsOfConcat(order[..i], [order[i]], events, run);
    assert [order[i]][1..] == [];
  }
}
