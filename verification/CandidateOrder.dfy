/** Arrival order: which calls are accepted, and what the rows show, depends only on which calls
    there are. */
module CandidateOrder {
  import opened CandidateMerge
  import opened CandidateLaws

  // ----- when calls go together

  /** The call says something about its run. */
  predicate Touches(rq: Request)
  {
    rq.ran || rq.notRun
  }

  /** The observations count how often known plugins spoke. */
  predicate IsTally(o: map<string, int>)
  {
    forall plugin :: plugin in o ==>
      && (plugin == "watch" || plugin == "opportunity_watch" || plugin == "panic_reversal" || plugin == "taco_rebound")
      && 0 <= o[plugin]
  }

  /** Nothing in the call itself makes it raise. */
  predicate Alone(rq: Request, t: Target)
  {
    && rq.fact.scope == t.scope && rq.fact.known
    && (rq.notRun ==> !rq.ran && rq.fact.orders.None? && rq.fact.fills.None?)
    && (rq.ran && rq.observations.Some? ==> IsTally(rq.observations.value))
  }

  /** Two calls do not contradict each other: about one run both say that it executed, without
      different plugin observations, or both the same about why it did not. */
  predicate Compatible(x: Request, y: Request)
  {
    x.fact.run == y.fact.run && Touches(x) && Touches(y) ==>
      && x.notRun == y.notRun
      && (x.notRun ==> x.fact.at == y.fact.at && x.skipReason == y.skipReason)
      && (x.ran && y.ran && x.observations.Some? && y.observations.Some? ==> x.observations == y.observations)
  }

  ghost predicate Agree(rqs: seq<Request>, t: Target)
  {
    && (forall x :: x in rqs ==> Alone(x, t))
    && (forall x, y :: x in rqs && y in rqs ==> Compatible(x, y))
  }

  /** The call goes with all calls before it. */
  ghost predicate Fits(rqs: seq<Request>, rq: Request, t: Target)
  {
    Alone(rq, t) && forall x :: x in rqs ==> Compatible(x, rq)
  }

  // ----- what the sources remember of the calls

  /** The source of the call's run follows the call. */
  predicate Follows(s: State, x: Request)
  {
    Touches(x) ==>
      && x.fact.run in s.sources
      && var source := s.sources[x.fact.run];
         if x.notRun then source == NotRun(x.fact.at, x.skipReason)
         else source.Ran? && (x.observations.Some? ==> source.observations == x.observations)
  }

  /** The call is behind the source: of its kind, and of its observations if it has any. */
  predicate Behind(source: Source, run: string, x: Request)
  {
    && Touches(x) && x.fact.run == run && x.notRun == source.NotRun?
    && (source.Ran? && source.observations.Some? ==> x.observations == source.observations)
  }

  ghost predicate Backed(source: Source, run: string, rqs: seq<Request>)
  {
    exists x :: x in rqs && Behind(source, run, x)
  }

  ghost predicate Remembers(s: State, rqs: seq<Request>)
  {
    && (forall x :: x in rqs ==> Follows(s, x))
    && (forall run :: run in s.sources ==> Backed(s.sources[run], run, rqs))
  }

  /** A call is accepted exactly when it stands alone and contradicts none before it. */
  lemma AcceptedWhenCompatible(s: State, rqs: seq<Request>, rq: Request, t: Target)
    requires Remembers(s, rqs) && Agree(rqs, t)
    ensures Accepts(s, rq, t) <==> Fits(rqs, rq, t)
  {
    var run := rq.fact.run;
    if run in s.sources {
      assert Backed(s.sources[run], run, rqs);
      var x :| x in rqs && Behind(s.sources[run], run, x);
      assert Follows(s, x);
    }
  }

  lemma FollowsMore(s: State, rq: Request, t: Target, x: Request)
    requires Merged(s, rq, t).Ok? && Follows(s, x) && Compatible(x, rq)
    ensures Follows(Merged(s, rq, t).value, x)
  {
  }

  lemma RemembersMore(s: State, rqs: seq<Request>, rq: Request, t: Target)
    requires Remembers(s, rqs) && Accepts(s, rq, t) && Fits(rqs, rq, t)
    ensures Remembers(Merged(s, rq, t).value, rqs + [rq])
  {
    var after, more := Merged(s, rq, t).value, rqs + [rq];
    assert rq in more;
    forall x | x in more ensures Follows(after, x) {
      if x in rqs {
        FollowsMore(s, rq, t, x);
      }
    }
    forall run | run in after.sources ensures Backed(after.sources[run], run, more) {
      if run == rq.fact.run && Touches(rq) {
        if run in s.sources {
          assert Backed(s.sources[run], run, rqs);
          var x :| x in rqs && Behind(s.sources[run], run, x);
          assert x in more;
          assert Behind(after.sources[run], run, x) || Behind(after.sources[run], run, rq);
        } else {
          assert Behind(after.sources[run], run, rq);
        }
      } else {
        assert Backed(s.sources[run], run, rqs);
        var x :| x in rqs && Behind(s.sources[run], run, x);
        assert x in more;
      }
    }
  }

  lemma AgreeFront(rqs: seq<Request>, t: Target)
    requires rqs != []
    ensures Agree(rqs, t) <==> Agree(rqs[..|rqs| - 1], t) && Fits(rqs[..|rqs| - 1], rqs[|rqs| - 1], t)
  {
    var front, last := rqs[..|rqs| - 1], rqs[|rqs| - 1];
    forall x ensures x in rqs <==> x in front || x == last {
      assert rqs == front + [last];
    }
  }

  lemma RemembersLast(rqs: seq<Request>, t: Target)
    requires rqs != [] && LastAccepted(rqs, t)
    requires var front := rqs[..|rqs| - 1]; Remembers(Replay(front, t), front) && Fits(front, rqs[|rqs| - 1], t)
    ensures Remembers(Replay(rqs, t), rqs)
  {
    var front, last := rqs[..|rqs| - 1], rqs[|rqs| - 1];
    RemembersMore(Replay(front, t), front, last, t);
    assert rqs == front + [last];
  }

  /** All calls are accepted exactly when they agree, which does not depend on their order. */
  lemma {:induction false} AcceptedWhenAgree(rqs: seq<Request>, t: Target)
    ensures AllAccepted(rqs, t) <==> Agree(rqs, t)
    ensures Agree(rqs, t) ==> Remembers(Replay(rqs, t), rqs)
  {
    if rqs != [] {
      var front := rqs[..|rqs| - 1];
      AcceptedWhenAgree(front, t);
      AgreeFront(rqs, t);
      AcceptedFront(rqs, t);
      if Agree(front, t) {
        AcceptedWhenCompatible(Replay(front, t), front, rqs[|rqs| - 1], t);
        if Agree(rqs, t) {
          RemembersLast(rqs, t);
        }
      }
    }
  }

  lemma AcceptedFront(rqs: seq<Request>, t: Target)
    requires rqs != []
    ensures AllAccepted(rqs, t) <==> AllAccepted(rqs[..|rqs| - 1], t) && LastAccepted(rqs, t)
  {
    var front := rqs[..|rqs| - 1];
    if AllAccepted(rqs, t) {
      FrontAccepted(rqs, t);
    }
    if AllAccepted(front, t) && LastAccepted(rqs, t) {
      forall n | 0 < n <= |rqs| ensures LastAccepted(rqs[..n], t) {
        if n < |rqs| {
          assert rqs[..n] == front[..n];
        } else {
          assert rqs[..n] == rqs;
        }
      }
    }
  }

  // ----- the same calls in another order

  /** The same calls, in any order, each any number of times. */
  ghost predicate SameCalls(a: seq<Request>, b: seq<Request>)
  {
    forall rq :: rq in a <==> rq in b
  }

  /** Two rows differ at most in the time of the last call and in the order of their facts. */
  ghost predicate SameRow(x: Row, y: Row)
  {
    match x
    case IdleRow(_, _) => x == y
    case RunRow(_, status, orders, fills, preview, dryRun, observations, facts) =>
      && y.RunRow? && status == y.status && orders == y.orders && fills == y.fills && preview == y.preview
      && dryRun == y.dryRun && observations == y.observations && forall f :: f in facts <==> f in y.facts
  }

  lemma SourcesAgree(a: seq<Request>, b: seq<Request>, x: State, y: State, run: string)
    requires SameCalls(a, b) && Remembers(x, a) && Remembers(y, b) && run in x.sources
    ensures run in y.sources
    ensures var p, q := x.sources[run], y.sources[run];
            (p.NotRun? <==> q.NotRun?) && (p.NotRun? ==> p == q) && (p.Ran? ==> p.observations == q.observations)
  {
    assert Backed(x.sources[run], run, a);
    var m :| m in a && Behind(x.sources[run], run, m);
    assert Follows(y, m) && Follows(x, m);
    assert Backed(y.sources[run], run, b);
    var n :| n in b && Behind(y.sources[run], run, n);
    assert Follows(x, n) && Follows(y, n);
  }

  /** Some call brings the fact. */
  ghost predicate Brought(rqs: seq<Request>, f: Fact)
  {
    exists rq :: rq in rqs && rq.fact == f
  }

  lemma BroughtLast(rqs: seq<Request>, f: Fact)
    requires rqs != []
    ensures Brought(rqs, f) <==> Brought(rqs[..|rqs| - 1], f) || rqs[|rqs| - 1].fact == f
  {
    var front, last := rqs[..|rqs| - 1], rqs[|rqs| - 1];
    assert rqs == front + [last];
    assert last in rqs;
    if Brought(front, f) {
      var rq :| rq in front && rq.fact == f;
      assert rq in rqs;
    }
  }

  lemma {:induction false} AccumulatedMembers(rqs: seq<Request>, t: Target, f: Fact)
    requires AllAccepted(rqs, t)
    ensures f in Accumulated(rqs, t) <==> Brought(rqs, f)
  {
    if rqs != [] {
      FrontAccepted(rqs, t);
      AccumulatedMembers(rqs[..|rqs| - 1], t, f);
      BroughtLast(rqs, f);
    }
  }

  lemma SameBrought(a: seq<Request>, b: seq<Request>, f: Fact)
    requires SameCalls(a, b)
    ensures Brought(a, f) <==> Brought(b, f)
  {
  }

  lemma SameAccumulated(a: seq<Request>, b: seq<Request>, t: Target)
    requires SameCalls(a, b) && AllAccepted(a, t) && AllAccepted(b, t)
    ensures Accumulated(a, t) == Accumulated(b, t)
  {
    forall f ensures f in Accumulated(a, t) <==> f in Accumulated(b, t) {
      AccumulatedMembers(a, t, f);
      AccumulatedMembers(b, t, f);
      SameBrought(a, b, f);
    }
  }

  lemma SameObserved(a: seq<Request>, b: seq<Request>, t: Target, run: string, field: Field)
    requires SameCalls(a, b) && AllAccepted(a, t) && AllAccepted(b, t)
    ensures Observed(a, run, field, t) == Observed(b, run, field, t)
  {
    forall v: nat ensures v in Observed(a, run, field, t) <==> v in Observed(b, run, field, t) {
      ObservedByMembers(a, run, field, t, v);
      ObservedByMembers(b, run, field, t, v);
    }
  }

  /** The counts and the status of a row, read off the set of calls. */
  lemma SameCounts(a: seq<Request>, b: seq<Request>, t: Target, run: string, field: Field)
    requires t.Ranks() && SameCalls(a, b) && AllAccepted(a, t) && AllAccepted(b, t)
    requires run in Replay(a, t).runs && run in Replay(b, t).runs
    requires Replay(a, t).runs[run].RunRow? && Replay(b, t).runs[run].RunRow?
    ensures RowCount(Replay(a, t).runs[run], field) == RowCount(Replay(b, t).runs[run], field)
    ensures Replay(a, t).runs[run].status == ExecutionAlert <==> Replay(b, t).runs[run].status == ExecutionAlert
  {
    RowByObservations(a, t, run, field);
    RowByObservations(b, t, run, field);
    SameObserved(a, b, t, run, field);
    SameObserved(a, b, t, run, Orders);
    SameObserved(a, b, t, run, Fills);
    SameObserved(a, b, t, run, Preview);
    SameAccumulated(a, b, t);
  }

  lemma SameRowFor(p: Source, q: Source, cp: seq<Conflict>, cq: seq<Conflict>, run: string, fp: seq<Fact>,
                   fq: seq<Fact>, dryRun: bool)
    requires (p.NotRun? <==> q.NotRun?) && (p.NotRun? ==> p == q) && (p.Ran? ==> p.observations == q.observations)
    requires forall f :: f in fp <==> f in fq
    requires var x, y := RowFor(p, cp, run, fp, dryRun), RowFor(q, cq, run, fq, dryRun);
             p.Ran? ==> && x.orders == y.orders && x.fills == y.fills && x.preview == y.preview
                        && (x.status == ExecutionAlert <==> y.status == ExecutionAlert)
    ensures SameRow(RowFor(p, cp, run, fp, dryRun), RowFor(q, cq, run, fq, dryRun))
  {
  }

  lemma RowsKept(rqs: seq<Request>, t: Target)
    requires t.Ranks()
    ensures Replay(rqs, t).runs.Keys == Replay(rqs, t).sources.Keys
  {
    ReplayInv(rqs, t);
  }

  /** The counts and the status of an executed row agree in all fields. */
  lemma SameNumbers(a: seq<Request>, b: seq<Request>, t: Target, run: string, p: Row, q: Row)
    requires t.Ranks() && SameCalls(a, b) && AllAccepted(a, t) && AllAccepted(b, t)
    requires run in Replay(a, t).runs && run in Replay(b, t).runs
    requires p == Replay(a, t).runs[run] && q == Replay(b, t).runs[run] && p.RunRow? && q.RunRow?
    ensures p.orders == q.orders && p.fills == q.fills && p.preview == q.preview
    ensures p.status == ExecutionAlert <==> q.status == ExecutionAlert
  {
    SameCounts(a, b, t, run, Orders);
    SameCounts(a, b, t, run, Fills);
    SameCounts(a, b, t, run, Preview);
  }

  lemma SameSources(a: seq<Request>, b: seq<Request>, t: Target, run: string)
    requires t.Ranks() && SameCalls(a, b) && AllAccepted(a, t) && AllAccepted(b, t) && run in Replay(a, t).runs
    ensures run in Replay(b, t).runs && run in Replay(a, t).sources && run in Replay(b, t).sources
    ensures var p, q := Replay(a, t).sources[run], Replay(b, t).sources[run];
            (p.NotRun? <==> q.NotRun?) && (p.NotRun? ==> p == q) && (p.Ran? ==> p.observations == q.observations)
  {
    AcceptedWhenAgree(a, t);
    AcceptedWhenAgree(b, t);
    RowsKept(a, t);
    RowsKept(b, t);
    SourcesAgree(a, b, Replay(a, t), Replay(b, t), run);
  }

  lemma SameRowOf(a: seq<Request>, b: seq<Request>, t: Target, run: string)
    requires t.Ranks() && SameCalls(a, b) && AllAccepted(a, t) && AllAccepted(b, t) && run in Replay(a, t).runs
    ensures run in Replay(b, t).runs && SameRow(Replay(a, t).runs[run], Replay(b, t).runs[run])
  {
    var x, y := Replay(a, t), Replay(b, t);
    SameSources(a, b, t, run);
    var fx := RowShape(a, t, run);
    var fy := RowShape(b, t, run);
    SameAccumulated(a, b, t);
    if x.sources[run].Ran? {
      SameNumbers(a, b, t, run, x.runs[run], y.runs[run]);
    }
    SameRowFor(x.sources[run], y.sources[run], x.conflicts, y.conflicts, run, fx, fy, t.dryRun);
  }

  // ----- main result

  /** Arrival order does not matter. When some calls are all accepted, the same calls in any
      other order are all accepted too, and lead to rows for the same runs, with the same kind,
      counts, status, plugin observations and facts. */
  lemma ArrivalOrderIsIrrelevant(a: seq<Request>, b: seq<Request>, t: Target)
    requires t.Ranks() && AllAccepted(a, t) && SameCalls(a, b)
    ensures AllAccepted(b, t)
    ensures Replay(a, t).runs.Keys == Replay(b, t).runs.Keys
    ensures forall run :: run in Replay(a, t).runs ==> SameRow(Replay(a, t).runs[run], Replay(b, t).runs[run])
  {
    AcceptedWhenAgree(a, t);
    AgreeFollowsCalls(a, b, t);
    AcceptedWhenAgree(b, t);
    forall run | run in Replay(a, t).runs
      ensures run in Replay(b, t).runs && SameRow(Replay(a, t).runs[run], Replay(b, t).runs[run])
    {
      SameRowOf(a, b, t, run);
    }
    forall run | run in Replay(b, t).runs ensures run in Replay(a, t).runs {
      SameRowOf(b, a, t, run);
    }
  }

  lemma AgreeFollowsCalls(a: seq<Request>, b: seq<Request>, t: Target)
    requires SameCalls(a, b) && Agree(a, t)
    ensures Agree(b, t)
  {
  }

  /** A permutation of the calls is one such other order. */
  lemma PermutedCalls(a: seq<Request>, b: seq<Request>)
    requires multiset(a) == multiset(b)
    ensures SameCalls(a, b)
  {
    forall rq ensures rq in a <==> rq in b {
      assert rq in multiset(a) <==> rq in multiset(b);
    }
  }

  /** A permutation of the calls is accepted when the calls are, and leads to the same rows. */
  lemma PermutationIsIrrelevant(a: seq<Request>, b: seq<Request>, t: Target)
    requires t.Ranks() && multiset(a) == multiset(b)
    ensures AllAccepted(a, t) <==> AllAccepted(b, t)
    ensures AllAccepted(a, t) ==>
              && Replay(a, t).runs.Keys == Replay(b, t).runs.Keys
              && forall run :: run in Replay(a, t).runs ==> SameRow(Replay(a, t).runs[run], Replay(b, t).runs[run])
  {
    PermutedCalls(a, b);
    if AllAccepted(a, t) {
      ArrivalOrderIsIrrelevant(a, b, t);
    } else if AllAccepted(b, t) {
      ArrivalOrderIsIrrelevant(b, a, t);
    }
  }
}
