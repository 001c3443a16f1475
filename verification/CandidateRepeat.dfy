/** Persisting the same event again: nothing is learned twice, but the private object is
    written again in one case, because the store lists facts in key order. */
module CandidateRepeat {
  import opened Wrappers

  import opened CandidateMerge
  import CandidateLaws

  // ----- listing facts in two orders

  /** How many keys come before this one. */
  function Place(keys: seq<FactKey>, k: FactKey, t: Target): (n: nat)
    ensures n <= |keys|
  {
    if keys == [] || t.rank(k) < t.rank(keys[0]) then 0 else 1 + Place(keys[1..], k, t)
  }

  lemma {:induction false} InsertSplits(keys: seq<FactKey>, k: FactKey, t: Target)
    ensures var n := Place(keys, k, t); Insert(keys, k, t) == keys[..n] + [k] + keys[n..]
  {
    if keys != [] && t.rank(k) >= t.rank(keys[0]) {
      InsertSplits(keys[1..], k, t);
      var n := Place(keys[1..], k, t);
      assert keys[..n + 1] == [keys[0]] + keys[1..][..n];
      assert keys[n + 1..] == keys[1..][n..];
    }
  }

  lemma {:induction false} PlaceDivides(keys: seq<FactKey>, k: FactKey, t: Target, i: nat)
    requires Ordered(keys, t) && i < |keys|
    ensures Place(keys, k, t) <= i <==> t.rank(k) < t.rank(keys[i])
  {
    if t.rank(k) >= t.rank(keys[0]) && i > 0 {
      PlaceDivides(keys[1..], k, t, i - 1);
    }
  }

  lemma {:induction false} FactsOfConcat(a: seq<FactKey>, b: seq<FactKey>, events: map<FactKey, Fact>, run: string)
    ensures FactsOf(a + b, events, run) == FactsOf(a, events, run) + FactsOf(b, events, run)
  {
    if a == [] {
      assert a + b == b;
    } else {
      assert (a + b)[0] == a[0] && (a + b)[1..] == a[1..] + b;
      FactsOfConcat(a[1..], b, events, run);
    }
  }

  lemma {:induction false} NoFacts(order: seq<FactKey>, events: map<FactKey, Fact>, run: string)
    requires forall k :: k in order ==> k in events
    ensures FactsOf(order, events, run) == [] <==> forall k :: k in order ==> events[k].run != run
  {
    if order != [] {
      NoFacts(order[1..], events, run);
    }
  }

  lemma RotationMoves<T>(a: seq<T>, x: T, b: seq<T>)
    requires x !in b
    ensures a + [x] + b == a + b + [x] <==> b == []
  {
    if b != [] {
      assert (a + [x] + b)[|a|] == x && (a + b + [x])[|a|] == b[0];
    }
  }

  /** Some fact of the run is filed behind the key. */
  ghost predicate Overtaken(keys: seq<FactKey>, events: map<FactKey, Fact>, k: FactKey, run: string, t: Target)
    requires Lists(keys, events)
  {
    exists q :: q in keys && t.rank(k) < t.rank(q) && events[q].run == run
  }

  lemma FactsOfThree(a: seq<FactKey>, b: seq<FactKey>, c: seq<FactKey>, events: map<FactKey, Fact>, run: string)
    ensures FactsOf(a + b + c, events, run)
            == FactsOf(a, events, run) + FactsOf(b, events, run) + FactsOf(c, events, run)
  {
    FactsOfConcat(a + b, c, events, run);
    FactsOfConcat(a, b, events, run);
  }

  /** The two listings of a run's facts: the new one in its place, and the new one last. */
  lemma TwoListings(keys: seq<FactKey>, events: map<FactKey, Fact>, k: FactKey, t: Target, run: string)
    ensures var n := Place(keys, k, t); var one := FactsOf([k], events, run);
            var front, back := FactsOf(keys[..n], events, run), FactsOf(keys[n..], events, run);
            && FactsOf(Insert(keys, k, t), events, run) == front + one + back
            && FactsOf(keys + [k], events, run) == front + back + one
  {
    var n := Place(keys, k, t);
    InsertSplits(keys, k, t);
    assert keys == keys[..n] + keys[n..];
    FactsOfThree(keys[..n], [k], keys[n..], events, run);
    FactsOfThree(keys[..n], keys[n..], [k], events, run);
  }

  lemma OneFact(events: map<FactKey, Fact>, k: FactKey)
    requires k in events
    ensures FactsOf([k], events, events[k].run) == [events[k]]
  {
    assert [k][1..] == [];
  }

  /** The facts of the run itself agree unless another of them stands behind the new one. */
  lemma OwnListings(keys: seq<FactKey>, events: map<FactKey, Fact>, k: FactKey, t: Target)
    requires k in events
    ensures var run := events[k].run; var back := FactsOf(keys[Place(keys, k, t)..], events, run);
            events[k] !in back ==>
              (FactsOf(Insert(keys, k, t), events, run) == FactsOf(keys + [k], events, run) <==> back == [])
  {
    var n, run := Place(keys, k, t), events[k].run;
    TwoListings(keys, events, k, t, run);
    OneFact(events, k);
    var front, back := FactsOf(keys[..n], events, run), FactsOf(keys[n..], events, run);
    if events[k] !in back {
      RotationMoves(front, events[k], back);
    }
  }

  lemma OtherListings(keys: seq<FactKey>, events: map<FactKey, Fact>, k: FactKey, t: Target, run: string)
    requires k in events && events[k].run != run
    ensures FactsOf(Insert(keys, k, t), events, run) == FactsOf(keys + [k], events, run)
  {
    var n := Place(keys, k, t);
    TwoListings(keys, events, k, t, run);
    NothingMoves(FactsOf(keys[..n], events, run), FactsOf(keys[n..], events, run));
  }

  /** Facts read back from the store are listed as before the write, unless the new one was
      overtaken by another of its run. */
  lemma ListingsAgree(s: State, fact: Fact, t: Target, run: string)
    requires Stored(s, t) && KeyFor(s.events, fact) !in s.events
    ensures var k := KeyFor(s.events, fact); var events := s.events[k := fact]; var stored := Insert(s.keys, k, t);
            && Lists(stored, events)
            && (FactsOf(stored, events, run) == FactsOf(s.keys + [k], events, run)
                <==> !(run == fact.run && Overtaken(s.keys, s.events, k, run, t)))
  {
    var k := KeyFor(s.events, fact);
    var events := s.events[k := fact];
    InsertLists(s.keys, s.events, k, fact, t);
    if fact.run == run {
      OwnListings(s.keys, events, k, t);
      BackIsOvertaken(s, fact, t);
    } else {
      OtherListings(s.keys, events, k, t, run);
    }
  }

  lemma NothingMoves<T>(a: seq<T>, b: seq<T>)
    ensures a + [] + b == a + b + []
  {
  }

  lemma BackIsOvertaken(s: State, fact: Fact, t: Target)
    requires Stored(s, t) && KeyFor(s.events, fact) !in s.events
    ensures var k := KeyFor(s.events, fact);
            var back := s.keys[Place(s.keys, k, t)..]; var events := s.events[k := fact];
            && fact !in FactsOf(back, events, fact.run)
            && (FactsOf(back, events, fact.run) == [] <==> !Overtaken(s.keys, s.events, k, fact.run, t))
  {
    var k := KeyFor(s.events, fact);
    var back := s.keys[Place(s.keys, k, t)..];
    NotElsewhere(s, fact, t, back, fact.run);
    NoFacts(back, s.events[k := fact], fact.run);
    BehindIsOvertaken(s, k, t, fact.run);
  }

  lemma BehindIsOvertaken(s: State, k: FactKey, t: Target, run: string)
    requires Stored(s, t)
    ensures Overtaken(s.keys, s.events, k, run, t) <==>
            exists q :: q in s.keys[Place(s.keys, k, t)..] && s.events[q].run == run
  {
    forall q ensures q in s.keys[Place(s.keys, k, t)..] <==> q in s.keys && t.rank(k) < t.rank(q) {
      Behind(s.keys, k, t, q);
    }
  }

  lemma StandsBehind(keys: seq<FactKey>, k: FactKey, t: Target, i: nat)
    requires Ordered(keys, t) && i < |keys| && t.rank(k) < t.rank(keys[i])
    ensures keys[i] in keys[Place(keys, k, t)..]
  {
    PlaceDivides(keys, k, t, i);
    assert keys[Place(keys, k, t)..][i - Place(keys, k, t)] == keys[i];
  }

  lemma BehindRanks(keys: seq<FactKey>, k: FactKey, t: Target, i: nat)
    requires Ordered(keys, t) && i < |keys| - Place(keys, k, t)
    ensures t.rank(k) < t.rank(keys[Place(keys, k, t)..][i])
  {
    PlaceDivides(keys, k, t, Place(keys, k, t) + i);
  }

  lemma Behind(keys: seq<FactKey>, k: FactKey, t: Target, q: FactKey)
    requires Ordered(keys, t)
    ensures q in keys[Place(keys, k, t)..] <==> q in keys && t.rank(k) < t.rank(q)
  {
    var back := keys[Place(keys, k, t)..];
    if q in back {
      var i :| 0 <= i < |back| && back[i] == q;
      BehindRanks(keys, k, t, i);
    } else if q in keys && t.rank(k) < t.rank(q) {
      var i :| 0 <= i < |keys| && keys[i] == q;
      StandsBehind(keys, k, t, i);
    }
  }

  /** A fact whose key is new is filed under no other key. */
  lemma NotElsewhere(s: State, fact: Fact, t: Target, keys: seq<FactKey>, run: string)
    requires Stored(s, t) && KeyFor(s.events, fact) !in s.events && forall k :: k in keys ==> k in s.keys
    ensures forall k :: k in keys ==> k in s.events[KeyFor(s.events, fact) := fact]
    ensures fact !in FactsOf(keys, s.events[KeyFor(s.events, fact) := fact], run)
  {
    var events := s.events[KeyFor(s.events, fact) := fact];
    forall k | k in keys ensures events[k] == s.events[k] && s.events[k] != fact {
      match k
      case Plain(d) =>
      case Suffixed(d, f) =>
    }
    CandidateLaws.FactsOfMembers(keys, events, run, fact);
  }

  // ----- main result

  lemma SameSource(s: State, rq: Request, t: Target)
    requires Stored(s, t) && Merged(s, rq, t).Ok?
    ensures var after := Merged(s, rq, t).value;
            SourceFor(OldSource(after, rq.fact.run), rq, t)
            == if rq.notRun || rq.ran then Ok(OldSource(after, rq.fact.run)) else Ok(None)
  {
  }

  lemma {:induction false} AddKnown(conflicts: seq<Conflict>, more: seq<Conflict>)
    requires forall c :: c in more ==> c in conflicts
    ensures AddNew(conflicts, more) == conflicts
    decreases |more|
  {
    if more != [] {
      AddKnown(conflicts, more[1..]);
    }
  }

  lemma SameConflicts(s: State, rq: Request, t: Target)
    requires Stored(s, t) && Merged(s, rq, t).Ok? && rq.ran
    ensures var after := Merged(s, rq, t).value;
            AddNew(after.conflicts, Disagreements(OldSource(after, rq.fact.run), rq)) == after.conflicts
  {
    var after := Merged(s, rq, t).value;
    var prior, now := OldSource(s, rq.fact.run), OldSource(after, rq.fact.run);
    forall c | c in Disagreements(now, rq) ensures c in after.conflicts {
      assert c in Disagreement(prior, rq, c.field) by {
        CandidateLaws.ValueAfter(s, rq, t, rq.fact.run, c.field);
        DisagreementField(now, rq, c);
      }
      CandidateLaws.ConflictsAfter(s, rq, t, c);
    }
    AddKnown(after.conflicts, Disagreements(now, rq));
  }

  lemma DisagreementField(prior: Option<Source>, rq: Request, c: Conflict)
    ensures c in Disagreements(prior, rq) <==> c in Disagreement(prior, rq, c.field)
  {
  }

  /** A call that brings a known fact and a known source. */
  lemma MergedKnown(s: State, rq: Request, t: Target, source: Option<Source>)
    requires SourceFor(OldSource(s, rq.fact.run), rq, t) == Ok(source)
    requires KeyFor(s.events, rq.fact) in s.events && s.events[KeyFor(s.events, rq.fact)] == rq.fact
    requires source.Some? ==> OldSource(s, rq.fact.run) == source
    requires source.Some? && source.value.Ran? ==> AddNew(s.conflicts, Disagreements(source, rq)) == s.conflicts
    ensures Merged(s, rq, t) == Ok(s.(runs := Rows(s.keys, s.events, s.sources, s.conflicts, t.dryRun)))
  {
    assert s.events[KeyFor(s.events, rq.fact) := rq.fact] == s.events;
    if source.Some? {
      assert s.sources[rq.fact.run := source.value] == s.sources;
    }
  }

  lemma KeyIsStable(events: map<FactKey, Fact>, fact: Fact)
    requires WellKeyed(events)
    ensures var after := events[KeyFor(events, fact) := fact]; KeyFor(after, fact) == KeyFor(events, fact)
  {
  }

  /** The second call of two equal ones succeeds; it changes nothing but the rows, which it
      lists from the stored order. */
  lemma RepeatKeepsFacts(s: State, rq: Request, t: Target)
    requires t.Ranks() && Stored(s, t) && Merged(s, rq, t).Ok?
    ensures var after := Merged(s, rq, t).value;
            && Stored(after, t)
            && Merged(after, rq, t)
               == Ok(after.(runs := Rows(after.keys, after.events, after.sources, after.conflicts, t.dryRun)))
  {
    var after := Merged(s, rq, t).value;
    MergeStored(s, rq, t);
    KeyIsStable(s.events, rq.fact);
    SameSource(s, rq, t);
    if rq.ran {
      SameConflicts(s, rq, t);
    }
    MergedKnown(after, rq, t, if rq.notRun || rq.ran then OldSource(after, rq.fact.run) else None);
  }

  /** The call's fact is new, its run executed or is said to, and the fact will be filed before
      another one of that run. */
  ghost predicate Displaces(s: State, rq: Request, t: Target)
    requires Stored(s, t)
  {
    var k, run := KeyFor(s.events, rq.fact), rq.fact.run;
    && k !in s.events
    && (rq.ran || (!rq.notRun && run in s.sources && s.sources[run].Ran?))
    && Overtaken(s.keys, s.events, k, run, t)
  }

  lemma RanAfter(s: State, rq: Request, t: Target)
    requires Merged(s, rq, t).Ok?
    ensures var after, run := Merged(s, rq, t).value, rq.fact.run;
            run in after.sources && after.sources[run].Ran? <==>
            rq.ran || (!rq.notRun && run in s.sources && s.sources[run].Ran?)
  {
  }

  /** Persisting the last event again leaves the private object as it is, and so writes
      nothing, if and only if that event was not filed before another fact of its run. When it
      was, the object is written once more with the same facts in another order; a third call
      writes nothing. */
  lemma RepeatWritesOnlyWhenDisplaced(s: State, rq: Request, t: Target)
    requires t.Ranks() && Stored(s, t) && Merged(s, rq, t).Ok?
    ensures var after := Merged(s, rq, t).value; Stored(after, t)
    ensures var after := Merged(s, rq, t).value; var again := Merged(after, rq, t);
            && again.Ok? && Stored(again.value, t)
            && again.value.(runs := after.runs) == after
            && (again.value == after <==> !Displaces(s, rq, t))
            && Merged(again.value, rq, t) == again
  {
    var after := Merged(s, rq, t).value;
    RepeatKeepsFacts(s, rq, t);
    RepeatKeepsFacts(after, rq, t);
    RowsAgree(s, rq, t);
  }

  /** The row of a run agrees in both listings unless it lists facts and the new one was overtaken. */
  lemma RowAgrees(s: State, fact: Fact, t: Target, source: Source, conflicts: seq<Conflict>, run: string)
    requires Stored(s, t) && KeyFor(s.events, fact) !in s.events
    ensures var k := KeyFor(s.events, fact); var events := s.events[k := fact];
            RowFor(source, conflicts, run, FactsOf(Insert(s.keys, k, t), events, run), t.dryRun)
            == RowFor(source, conflicts, run, FactsOf(s.keys + [k], events, run), t.dryRun)
            <==> source.NotRun? || !(run == fact.run && Overtaken(s.keys, s.events, k, run, t))
  {
    var k := KeyFor(s.events, fact);
    var events := s.events[k := fact];
    var a, b := FactsOf(Insert(s.keys, k, t), events, run), FactsOf(s.keys + [k], events, run);
    ListingsAgree(s, fact, t, run);
    forall f ensures f in a <==> f in b {
      CandidateLaws.FactsOfMembers(Insert(s.keys, k, t), events, run, f);
      CandidateLaws.FactsOfMembers(s.keys + [k], events, run, f);
      forall q ensures q in Insert(s.keys, k, t) <==> q == k || q in s.keys {
        InsertMembers(s.keys, k, t, q);
      }
    }
    RowsByFacts(source, conflicts, run, a, b, t.dryRun);
  }

  lemma RowsByRow(a: seq<FactKey>, b: seq<FactKey>, events: map<FactKey, Fact>, sources: map<string, Source>,
                  conflicts: seq<Conflict>, dryRun: bool)
    ensures Rows(a, events, sources, conflicts, dryRun) == Rows(b, events, sources, conflicts, dryRun) <==>
            forall run :: run in sources ==>
              RowFor(sources[run], conflicts, run, FactsOf(a, events, run), dryRun)
              == RowFor(sources[run], conflicts, run, FactsOf(b, events, run), dryRun)
  {
    var x, y := Rows(a, events, sources, conflicts, dryRun), Rows(b, events, sources, conflicts, dryRun);
    if x == y {
      forall run | run in sources ensures x[run] == y[run] {}
    }
  }

  lemma RowsAgree(s: State, rq: Request, t: Target)
    requires t.Ranks() && Stored(s, t) && Merged(s, rq, t).Ok? && Stored(Merged(s, rq, t).value, t)
    ensures var after := Merged(s, rq, t).value;
            Rows(after.keys, after.events, after.sources, after.conflicts, t.dryRun) == after.runs
            <==> !Displaces(s, rq, t)
  {
    var after := Merged(s, rq, t).value;
    var k := KeyFor(s.events, rq.fact);
    RanAfter(s, rq, t);
    if k !in s.events {
      RowsByRow(Insert(s.keys, k, t), s.keys + [k], after.events, after.sources, after.conflicts, t.dryRun);
      forall run | run in after.sources
        ensures RowFor(after.sources[run], after.conflicts, run,
                       FactsOf(Insert(s.keys, k, t), after.events, run), t.dryRun)
                == RowFor(after.sources[run], after.conflicts, run, FactsOf(s.keys + [k], after.events, run), t.dryRun)
                <==> after.sources[run].NotRun? || !(run == rq.fact.run && Overtaken(s.keys, s.events, k, run, t))
      {
        RowAgrees(s, rq.fact, t, after.sources[run], after.conflicts, run);
      }
    }
  }

  /** Two lists of the same facts make the same row exactly when they are one list. */
  lemma RowsByFacts(source: Source, conflicts: seq<Conflict>, run: string, a: seq<Fact>, b: seq<Fact>, dryRun: bool)
    ensures source.NotRun? ==> RowFor(source, conflicts, run, a, dryRun) == RowFor(source, conflicts, run, b, dryRun)
    ensures source.Ran? && (forall f :: f in a <==> f in b) ==>
              (RowFor(source, conflicts, run, a, dryRun) == RowFor(source, conflicts, run, b, dryRun) <==> a == b)
  {
  }

  // ----- a repeated call that writes

  /** A call about an executed run with a routine fact. */
  predicate RoutineCall(rq: Request, t: Target)
  {
    && rq.ran && !rq.notRun && rq.fact.scope == t.scope && rq.fact.known
    && rq.fact.kind in ROUTINE_KINDS && rq.observations.None?
  }

  lemma OneCall(rq: Request, t: Target)
    requires RoutineCall(rq, t)
    ensures var s := CandidateLaws.Replay([rq], t);
            && s.events == map[Plain(rq.fact.dedupe) := rq.fact] && s.keys == [Plain(rq.fact.dedupe)]
            && CandidateLaws.Accepts(Blank(t), rq, t) && s.sources.Keys == {rq.fact.run} && s.sources[rq.fact.run].Ran?
            && OldObservations(OldSource(s, rq.fact.run)) == None
  {
    assert [rq][..0] == [];
    assert CandidateLaws.Replay([rq], t) == Merged(Blank(t), rq, t).value;
  }

  /** After that call, another one about the run, whose fact is filed before, is accepted and
      displaces it. */
  lemma SecondDisplaces(s: State, first: Request, second: Request, t: Target)
    requires RoutineCall(second, t) && first.fact.run == second.fact.run
    requires t.rank(Plain(second.fact.dedupe)) < t.rank(Plain(first.fact.dedupe))
    requires s.events == map[Plain(first.fact.dedupe) := first.fact] && s.keys == [Plain(first.fact.dedupe)]
    requires second.fact.run in s.sources && s.sources[second.fact.run].Ran?
    requires OldObservations(OldSource(s, second.fact.run)) == None
    ensures CandidateLaws.Accepts(s, second, t) && Displaces(s, second, t)
  {
    var k := Plain(second.fact.dedupe);
    assert KeyFor(s.events, second.fact) == k;
    assert s.keys[0] in s.keys && s.events[s.keys[0]].run == second.fact.run;
    assert Overtaken(s.keys, s.events, k, second.fact.run, t);
  }

  /** Two routine facts of one executed run, under different digests. The one that is filed
      first displaces the other when it comes second: the object is then written again when the
      call is repeated, although nothing new was said. */
  lemma SomeRepeatWrites(first: Request, second: Request, t: Target)
    requires t.Ranks() && RoutineCall(first, t) && RoutineCall(second, t) && first.fact.run == second.fact.run
    requires t.rank(Plain(second.fact.dedupe)) < t.rank(Plain(first.fact.dedupe))
    ensures var s := CandidateLaws.Replay([first], t);
            && CandidateLaws.Accepts(s, second, t) && Stored(s, t) && Displaces(s, second, t)
            && var after := Merged(s, second, t).value;
               Merged(after, second, t).Ok? && Merged(after, second, t).value != after
  {
    var s := CandidateLaws.Replay([first], t);
    OneCall(first, t);
    CandidateLaws.ReplayInv([first], t);
    SecondDisplaces(s, first, second, t);
    RepeatWritesOnlyWhenDisplaced(s, second, t);
  }
}
