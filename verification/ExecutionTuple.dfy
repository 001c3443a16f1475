/** The tuple of executions that a read returns: the merged records in a canonical order. */
module ExecutionTuple {
  import opened Wrappers

  import opened Executions

  // ----- canonical order

  /** A record as it is returned: in forward mode with its time texts. */
  datatype Output = Undated(record: Record) | Dated(record: Record, first: string, natives: set<string>)

  function OutputOf(w: Window, e: Entry): Output
  {
    if w.Forward? then Dated(e.record, e.first, e.natives) else Undated(e.record)
  }

  /** `_canonical_records`: sorted by the text of the record, given by its rank among texts. */
  function InsertOutput(r: Output, outputs: seq<Output>, rank: Output -> nat): seq<Output>
  {
    if outputs == [] || rank(r) <= rank(outputs[0]) then [r] + outputs
    else [outputs[0]] + InsertOutput(r, outputs[1..], rank)
  }

  ghost predicate Injective(rank: Output -> nat)
  {
    forall a, b :: rank(a) == rank(b) ==> a == b
  }

  ghost predicate Ascending(outputs: seq<Output>, rank: Output -> nat)
  {
    forall i, j :: 0 <= i < j < |outputs| ==> rank(outputs[i]) < rank(outputs[j])
  }

  lemma {:induction false} InsertOutputMembers(r: Output, outputs: seq<Output>, rank: Output -> nat, x: Output)
    ensures x in InsertOutput(r, outputs, rank) <==> x == r || x in outputs
  {
    if outputs != [] && rank(r) > rank(outputs[0]) {
      InsertOutputMembers(r, outputs[1..], rank, x);
    }
  }

  lemma {:induction false} InsertOutputAscending(r: Output, outputs: seq<Output>, rank: Output -> nat)
    requires Injective(rank) && Ascending(outputs, rank) && r !in outputs
    ensures Ascending(InsertOutput(r, outputs, rank), rank)
  {
    if outputs != [] && rank(r) > rank(outputs[0]) {
      InsertOutputAscending(r, outputs[1..], rank);
      var rest := InsertOutput(r, outputs[1..], rank);
      forall j | 0 <= j < |rest| ensures rank(outputs[0]) < rank(rest[j]) {
        InsertOutputMembers(r, outputs[1..], rank, rest[j]);
      }
    }
  }

  lemma EmptyOrMember(a: seq<Output>)
    ensures a == [] || exists x :: x in a
  {
    if a != [] {
      assert a[0] in a;
    }
  }

  lemma {:induction false} AscendingIsUnique(a: seq<Output>, b: seq<Output>, rank: Output -> nat)
    requires Ascending(a, rank) && Ascending(b, rank) && forall x :: x in a <==> x in b
    ensures a == b
  {
    if a == [] {
      EmptyOrMember(b);
    } else {
      assert a[0] in b;
      FirstIsLeast(a, b, rank);
      FirstIsLeast(b, a, rank);
      TailMembers(a, rank);
      TailMembers(b, rank);
      AscendingIsUnique(a[1..], b[1..], rank);
    }
  }

  lemma FirstIsLeast(a: seq<Output>, b: seq<Output>, rank: Output -> nat)
    requires a != [] && b != [] && Ascending(a, rank) && Ascending(b, rank) && forall x :: x in a <==> x in b
    ensures rank(a[0]) <= rank(b[0])
    ensures rank(a[0]) == rank(b[0]) ==> a[0] == b[0]
  {
    assert b[0] in a;
    assert a[0] in b;
  }

  lemma TailMembers(a: seq<Output>, rank: Output -> nat)
    requires a != [] && Ascending(a, rank)
    ensures forall x :: x in a[1..] <==> x in a && x != a[0]
  {
    forall x ensures x in a[1..] <==> x in a && x != a[0] {
      assert a == [a[0]] + a[1..];
      if x in a[1..] {
        var i :| 0 <= i < |a| - 1 && a[1..][i] == x;
        assert a[i + 1] == x;
      }
    }
  }

  // ----- the tuple that is returned

  /** The record, with its time texts, of some trade. */
  ghost predicate IsOutput(w: Window, entries: map<string, Entry>, o: Output)
  {
    exists trade :: trade in entries && OutputOf(w, entries[trade]) == o
  }

  /** The returned tuple: the outputs of all trades, each once, in canonical order. */
  ghost predicate IsTuple(w: Window, outputs: seq<Output>, entries: map<string, Entry>, rank: Output -> nat)
  {
    Ascending(outputs, rank) && forall o :: o in outputs <==> IsOutput(w, entries, o)
  }

  /** Every entry is filed under the trade id of its record. */
  ghost predicate Filed(entries: map<string, Entry>)
  {
    forall trade :: trade in entries ==> entries[trade].record.trade == trade
  }

  lemma HeldIsFiled(w: Window, rows: seq<Row>, entries: map<string, Entry>)
    requires Holds(w, rows, entries)
    ensures Filed(entries)
  {
    forall trade | trade in entries ensures entries[trade].record.trade == trade {
      assert Grounded(w, rows, trade, entries[trade]);
      FirstIsTold(w, rows, trade);
      var row :| row in rows && Tells(w, row, trade) && row.native == entries[trade].first;
      assert Held(w, row, entries);
    }
  }

  /** Sort the outputs of all entries. */
  method SortEntries(w: Window, entries: map<string, Entry>, rank: Output -> nat) returns (outputs: seq<Output>)
    requires Filed(entries) && Injective(rank)
    ensures IsTuple(w, outputs, entries, rank)
  {
    outputs := [];
    var todo := entries.Keys;
    while todo != {}
      invariant todo <= entries.Keys && Ascending(outputs, rank)
      invariant forall o :: o in outputs <==>
                  exists trade :: trade in entries.Keys - todo && OutputOf(w, entries[trade]) == o
      decreases todo
    {
      var trade :| trade in todo;
      var output := OutputOf(w, entries[trade]);
      assert output !in outputs;
      InsertOutputAscending(output, outputs, rank);
      forall o ensures o in InsertOutput(output, outputs, rank) <==> o == output || o in outputs {
        InsertOutputMembers(output, outputs, rank, o);
      }
      outputs := InsertOutput(output, outputs, rank);
      assert entries.Keys - (todo - {trade}) == (entries.Keys - todo) + {trade};
      todo := todo - {trade};
    }
  }

  lemma TupleExists(w: Window, entries: map<string, Entry>, rank: Output -> nat, done: set<string>)
    returns (outputs: seq<Output>)
    requires Filed(entries) && Injective(rank) && done <= entries.Keys
    ensures Ascending(outputs, rank)
    ensures forall o :: o in outputs <==> exists trade :: trade in done && OutputOf(w, entries[trade]) == o
    decreases done
  {
    outputs := [];
    if done != {} {
      var trade :| trade in done;
      var rest := TupleExists(w, entries, rank, done - {trade});
      var output := OutputOf(w, entries[trade]);
      assert output !in rest;
      InsertOutputAscending(output, rest, rank);
      forall o ensures o in InsertOutput(output, rest, rank) <==> o == output || o in rest {
        InsertOutputMembers(output, rest, rank, o);
      }
      outputs := InsertOutput(output, rest, rank);
    }
  }

  /** The read of executions: the merged rows, sorted. */
  method ReadExecutions(w: Window, history: seq<Row>, today: seq<Row>, rank: Output -> nat)
      returns (r: Collection, outputs: seq<Output>)
    requires Injective(rank)
    ensures r.ReadError? <==> Fails(w, history + today)
    ensures r.Collected? ==> Holds(w, history + today, r.entries) && IsTuple(w, outputs, r.entries, rank)
  {
    outputs := [];
    r := CollectExecutions(w, history, today);
    if r.Collected? {
      HeldIsFiled(w, history + today, r.entries);
      outputs := SortEntries(w, r.entries, rank);
    }
  }

  /** Two arrangements of the same rows return the same tuple exactly when they met every trade
      with the same time text first, which only forward mode returns. */
  lemma SameTuple(w: Window, a: seq<Row>, b: seq<Row>, x: map<string, Entry>, y: map<string, Entry>,
                  xs: seq<Output>, ys: seq<Output>, rank: Output -> nat)
    requires Injective(rank) && SameRows(a, b) && Holds(w, a, x) && Holds(w, b, y)
    requires IsTuple(w, xs, x, rank) && IsTuple(w, ys, y, rank)
    ensures xs == ys <==> w.Legacy? || forall trade :: trade in x && trade in y ==> x[trade].first == y[trade].first
  {
    MergeIgnoresArrangement(w, a, b, x, y);
    if w.Legacy? || forall trade :: trade in x && trade in y ==> x[trade].first == y[trade].first {
      forall o ensures IsOutput(w, x, o) <==> IsOutput(w, y, o) {
        SameOutputs(w, x, y, o);
        SameOutputs(w, y, x, o);
      }
      AscendingIsUnique(xs, ys, rank);
    }
    if xs == ys && w.Forward? {
      HeldIsFiled(w, a, x);
      HeldIsFiled(w, b, y);
      forall trade | trade in x && trade in y ensures x[trade].first == y[trade].first {
        var o := OutputOf(w, x[trade]);
        assert IsOutput(w, x, o) && o in xs && IsOutput(w, y, o);
      }
    }
  }

  lemma SameOutputs(w: Window, x: map<string, Entry>, y: map<string, Entry>, o: Output)
    requires SameEntries(x, y)
    requires w.Legacy? || forall trade :: trade in x && trade in y ==> x[trade].first == y[trade].first
    ensures IsOutput(w, x, o) ==> IsOutput(w, y, o)
  {
    if IsOutput(w, x, o) {
      var trade :| trade in x && OutputOf(w, x[trade]) == o;
      assert OutputOf(w, y[trade]) == o;
    }
  }

  /** All rows that tell of one trade do so with one time text. */
  ghost predicate OneText(w: Window, rows: seq<Row>)
  {
    forall r, q :: r in rows && q in rows && Counts(w, r) && Tells(w, q, r.body.value.trade) ==> r.native == q.native
  }

  /** In legacy mode, or with one time text for each trade, the returned tuple does not depend on
      how the rows were arranged: order, repeats, and the split between history and today. */
  lemma TupleIgnoresArrangement(w: Window, a: seq<Row>, b: seq<Row>, x: map<string, Entry>, y: map<string, Entry>,
                                xs: seq<Output>, ys: seq<Output>, rank: Output -> nat)
    requires Injective(rank) && SameRows(a, b) && Holds(w, a, x) && Holds(w, b, y)
    requires IsTuple(w, xs, x, rank) && IsTuple(w, ys, y, rank)
    requires w.Legacy? || OneText(w, a)
    ensures xs == ys
  {
    if w.Forward? {
      forall trade | trade in x && trade in y ensures x[trade].first == y[trade].first {
        assert Grounded(w, a, trade, x[trade]) && Grounded(w, b, trade, y[trade]);
        FirstIsTold(w, a, trade);
        FirstIsTold(w, b, trade);
        var r :| r in a && Tells(w, r, trade) && r.native == x[trade].first;
        var q :| q in b && Tells(w, q, trade) && q.native == y[trade].first;
        assert q in a;
      }
    }
    SameTuple(w, a, b, x, y, xs, ys, rank);
  }

  /** Bring one row to the front. */
  function ToFront(rows: seq<Row>, i: nat): seq<Row>
    requires i < |rows|
  {
    [rows[i]] + rows[..i] + rows[i + 1..]
  }

  lemma ToFrontPermutes(rows: seq<Row>, i: nat)
    requires i < |rows|
    ensures multiset(ToFront(rows, i)) == multiset(rows)
  {
    assert rows == rows[..i] + [rows[i]] + rows[i + 1..];
  }

  lemma PermutedRows(a: seq<Row>, b: seq<Row>)
    requires multiset(a) == multiset(b)
    ensures SameRows(a, b)
  {
    forall row ensures row in a <==> row in b {
      assert row in multiset(a) <==> row in multiset(b);
    }
  }

  /** In forward mode, a row whose time text is not the first of its trade changes the tuple when
      it is read first. */
  lemma OtherFirstChangesTuple(w: Window, a: seq<Row>, x: map<string, Entry>, xs: seq<Output>, rank: Output -> nat,
                               i: nat)
      returns (b: seq<Row>, y: map<string, Entry>, ys: seq<Output>)
    requires w.Forward? && Injective(rank) && !Fails(w, a) && Holds(w, a, x) && IsTuple(w, xs, x, rank)
    requires i < |a| && Counts(w, a[i]) && a[i].body.value.trade in x && a[i].native != x[a[i].body.value.trade].first
    ensures multiset(b) == multiset(a) && Holds(w, b, y) && IsTuple(w, ys, y, rank) && ys != xs
  {
    var trade := a[i].body.value.trade;
    b := ToFront(a, i);
    ToFrontPermutes(a, i);
    PermutedRows(a, b);
    MergeIgnoresArrangement(w, a, b, x, x);
    y := EntriesExist(w, b);
    HeldIsFiled(w, b, y);
    ys := TupleExists(w, y, rank, y.Keys);
    TupleOfAll(w, ys, y, rank);
    MergeIgnoresArrangement(w, a, b, x, y);
    assert Grounded(w, b, trade, y[trade]);
    assert b[0] == a[i];
    SameTuple(w, a, b, x, y, xs, ys, rank);
  }

  lemma TupleOfAll(w: Window, outputs: seq<Output>, entries: map<string, Entry>, rank: Output -> nat)
    requires Ascending(outputs, rank)
    requires forall o :: o in outputs <==> exists trade :: trade in entries.Keys && OutputOf(w, entries[trade]) == o
    ensures IsTuple(w, outputs, entries, rank)
  {
  }

  /** Every permutation of the rows returns this tuple. */
  ghost predicate ArrangementFree(w: Window, a: seq<Row>, xs: seq<Output>, rank: Output -> nat)
  {
    forall b: seq<Row>, y: map<string, Entry>, ys: seq<Output> ::
      multiset(b) == multiset(a) && Holds(w, b, y) && IsTuple(w, ys, y, rank) ==> ys == xs
  }

  /** The returned tuple is free of the order of the rows exactly in legacy mode, or when the rows
      of each trade share one time text: forward mode returns the text it met first. */
  lemma TupleIsArrangementFree(w: Window, a: seq<Row>, x: map<string, Entry>, xs: seq<Output>, rank: Output -> nat)
    requires Injective(rank) && !Fails(w, a) && Holds(w, a, x) && IsTuple(w, xs, x, rank)
    ensures ArrangementFree(w, a, xs, rank) <==> w.Legacy? || OneText(w, a)
  {
    if w.Legacy? || OneText(w, a) {
      forall b: seq<Row>, y: map<string, Entry>, ys: seq<Output> |
        multiset(b) == multiset(a) && Holds(w, b, y) && IsTuple(w, ys, y, rank)
        ensures ys == xs
      {
        PermutedRows(a, b);
        TupleIgnoresArrangement(w, a, b, x, y, xs, ys, rank);
      }
    } else {
      var r, q :| r in a && q in a && Counts(w, r) && Tells(w, q, r.body.value.trade) && r.native != q.native;
      assert Held(w, r, x) && Held(w, q, x);
      var other := if r.native == x[r.body.value.trade].first then q else r;
      var i :| 0 <= i < |a| && a[i] == other;
      var b, y, ys := OtherFirstChangesTuple(w, a, x, xs, rank, i);
    }
  }

  // ----- a forward read that depends on the order

  const FILL := Body("o1", "t1", "AAA.US", "1", "10", "BUY", "USD")
  const UTC_ROW := Row(Some(5), true, "05:00+00:00", Some(FILL))
  const HK_ROW := Row(Some(5), true, "13:00+08:00", Some(FILL))

  lemma FirstOfTwo(w: Window, r: Row, q: Row, x: map<string, Entry>, trade: string)
    requires Tells(w, r, trade) && Holds(w, [r, q], x)
    ensures trade in x && x[trade].first == r.native
  {
    assert [r, q][0] == r && r in [r, q];
    assert Held(w, r, x);
    assert Grounded(w, [r, q], trade, x[trade]);
  }

  lemma FillReads()
    ensures !Fails(Forward(0, 10), [UTC_ROW, HK_ROW]) && SameRows([UTC_ROW, HK_ROW], [HK_ROW, UTC_ROW])
    ensures Tells(Forward(0, 10), UTC_ROW, "t1") && Tells(Forward(0, 10), HK_ROW, "t1")
            && UTC_ROW.native != HK_ROW.native
  {
    assert UTC_ROW.native[0] != HK_ROW.native[0];
  }

  /** One execution, reported with two time texts: whatever the ranking of records, the two orders
      of its rows are read without failure and return different tuples. */
  lemma ForwardReadDependsOnOrder(x: map<string, Entry>, y: map<string, Entry>, xs: seq<Output>, ys: seq<Output>,
                                  rank: Output -> nat)
    requires Injective(rank)
    requires Holds(Forward(0, 10), [UTC_ROW, HK_ROW], x) && IsTuple(Forward(0, 10), xs, x, rank)
    requires Holds(Forward(0, 10), [HK_ROW, UTC_ROW], y) && IsTuple(Forward(0, 10), ys, y, rank)
    ensures !Fails(Forward(0, 10), [UTC_ROW, HK_ROW]) && xs != ys
  {
    FillReads();
    FirstOfTwo(Forward(0, 10), UTC_ROW, HK_ROW, x, "t1");
    FirstOfTwo(Forward(0, 10), HK_ROW, UTC_ROW, y, "t1");
    SameTuple(Forward(0, 10), [UTC_ROW, HK_ROW], [HK_ROW, UTC_ROW], x, y, xs, ys, rank);
  }
}
