/** Chained forward windows: reading window by window and reading the whole span at once. */
module ExecutionWindows {
  import opened Executions

  // ----- the windows of a chain of cutoffs

  /** Cutoffs do not go back. */
  predicate Increasing(cutoffs: seq<int>)
  {
    forall i, j :: 0 <= i < j < |cutoffs| ==> cutoffs[i] <= cutoffs[j]
  }

  /** The i-th window goes from one cutoff to the next. */
  function WindowAt(cutoffs: seq<int>, i: nat): Window
    requires i + 1 < |cutoffs|
  {
    Forward(cutoffs[i], cutoffs[i + 1])
  }

  function Spanning(cutoffs: seq<int>): Window
    requires cutoffs != []
  {
    Forward(cutoffs[0], cutoffs[|cutoffs| - 1])
  }

  /** The window that a time of the span falls into. */
  function WindowOf(cutoffs: seq<int>, at: int): (i: nat)
    requires |cutoffs| > 1 && Within(Spanning(cutoffs), at)
    ensures i + 1 < |cutoffs| && Within(WindowAt(cutoffs, i), at)
    decreases |cutoffs|
  {
    var front := cutoffs[..|cutoffs| - 1];
    if at > front[|front| - 1] then |front| - 1
    else WindowOf(front, at)
  }

  lemma OneWindow(cutoffs: seq<int>, i: nat, k: nat, at: int)
    requires Increasing(cutoffs) && i <= k && k + 1 < |cutoffs|
    requires Within(WindowAt(cutoffs, i), at) && Within(WindowAt(cutoffs, k), at)
    ensures i == k
  {
    var next := if i < k then i + 1 else i;
    assert cutoffs[next] <= cutoffs[k];
  }

  /** Chained windows put every time of the span in exactly one window, and no other time in any. */
  lemma WindowsPartition(cutoffs: seq<int>, at: int, i: nat)
    requires Increasing(cutoffs) && i + 1 < |cutoffs|
    ensures Within(WindowAt(cutoffs, i), at) <==> Within(Spanning(cutoffs), at) && WindowOf(cutoffs, at) == i
  {
    if Within(WindowAt(cutoffs, i), at) {
      assert cutoffs[0] <= cutoffs[i] && cutoffs[i + 1] <= cutoffs[|cutoffs| - 1];
      var k := WindowOf(cutoffs, at);
      if k < i { OneWindow(cutoffs, k, i, at); } else { OneWindow(cutoffs, i, k, at); }
    }
  }

  /** Rows of one trade count in these windows. */
  predicate SameTradeIn(v: Window, a: Row, w: Window, b: Row)
  {
    Counts(v, a) && Counts(w, b) && a.body.value.trade == b.body.value.trade
  }

  /** No trade has rows in two of the windows. */
  ghost predicate OneWindowEach(cutoffs: seq<int>, rows: seq<Row>)
  {
    forall i: nat, j: nat, a, b | i + 1 < |cutoffs| && j + 1 < |cutoffs| && a in rows && b in rows ::
      SameTradeIn(WindowAt(cutoffs, i), a, WindowAt(cutoffs, j), b) ==> i == j
  }

  lemma CountsInSpan(cutoffs: seq<int>, row: Row, i: nat)
    requires Increasing(cutoffs) && i + 1 < |cutoffs|
    ensures Counts(WindowAt(cutoffs, i), row) <==>
            Counts(Spanning(cutoffs), row) && WindowOf(cutoffs, row.at.value) == i
    ensures Unreadable(WindowAt(cutoffs, i), row) ==> Unreadable(Spanning(cutoffs), row)
  {
    if row.at.Some? {
      WindowsPartition(cutoffs, row.at.value, i);
    }
  }

  lemma UnreadableInSpan(cutoffs: seq<int>, row: Row)
    requires Increasing(cutoffs) && |cutoffs| > 1 && Unreadable(Spanning(cutoffs), row)
    ensures exists i: nat :: i + 1 < |cutoffs| && Unreadable(WindowAt(cutoffs, i), row)
  {
    if row.at.Some? && row.aware {
      assert Unreadable(WindowAt(cutoffs, WindowOf(cutoffs, row.at.value)), row);
    } else {
      assert Unreadable(WindowAt(cutoffs, 0), row);
    }
  }

  /** Reading window by window and reading the whole span at once: the one read fails exactly
      when some window's read fails or a trade has rows in two windows. */
  lemma SpanFailsAsWindows(cutoffs: seq<int>, rows: seq<Row>)
    requires Increasing(cutoffs) && |cutoffs| > 1
    ensures Fails(Spanning(cutoffs), rows) <==>
            (exists i: nat :: i + 1 < |cutoffs| && Fails(WindowAt(cutoffs, i), rows)) || !OneWindowEach(cutoffs, rows)
  {
    if i: nat :| i + 1 < |cutoffs| && Fails(WindowAt(cutoffs, i), rows) {
      WindowFailsSpan(cutoffs, rows, i);
    }
    if !OneWindowEach(cutoffs, rows) {
      TwoWindowsFail(cutoffs, rows);
    }
    if Fails(Spanning(cutoffs), rows) && OneWindowEach(cutoffs, rows) {
      SpanFailsWindow(cutoffs, rows);
    }
  }

  lemma WindowFailsSpan(cutoffs: seq<int>, rows: seq<Row>, i: nat)
    requires Increasing(cutoffs) && i + 1 < |cutoffs| && Fails(WindowAt(cutoffs, i), rows)
    ensures Fails(Spanning(cutoffs), rows)
  {
    var w := WindowAt(cutoffs, i);
    if row :| row in rows && Unreadable(w, row) {
      CountsInSpan(cutoffs, row, i);
    } else {
      var a, b :| a in rows && b in rows && Disagree(w, a, b);
      CountsInSpan(cutoffs, a, i);
      CountsInSpan(cutoffs, b, i);
      assert Disagree(Spanning(cutoffs), a, b);
    }
  }

  lemma TwoWindowsFail(cutoffs: seq<int>, rows: seq<Row>)
    requires Increasing(cutoffs) && |cutoffs| > 1 && !OneWindowEach(cutoffs, rows)
    ensures Fails(Spanning(cutoffs), rows)
  {
    var i: nat, j: nat, a, b :|
      i + 1 < |cutoffs| && j + 1 < |cutoffs| && a in rows && b in rows
      && SameTradeIn(WindowAt(cutoffs, i), a, WindowAt(cutoffs, j), b) && i != j;
    CountsInSpan(cutoffs, a, i);
    CountsInSpan(cutoffs, b, j);
    assert Disagree(Spanning(cutoffs), a, b);
  }

  lemma SpanFailsWindow(cutoffs: seq<int>, rows: seq<Row>)
    requires Increasing(cutoffs) && |cutoffs| > 1 && Fails(Spanning(cutoffs), rows) && OneWindowEach(cutoffs, rows)
    ensures exists i: nat :: i + 1 < |cutoffs| && Fails(WindowAt(cutoffs, i), rows)
  {
    var span := Spanning(cutoffs);
    if row :| row in rows && Unreadable(span, row) {
      UnreadableInSpan(cutoffs, row);
      var i: nat :| i + 1 < |cutoffs| && Unreadable(WindowAt(cutoffs, i), row);
      assert Fails(WindowAt(cutoffs, i), rows);
    } else {
      var a, b :| a in rows && b in rows && Disagree(span, a, b);
      var i, j := WindowOf(cutoffs, a.at.value), WindowOf(cutoffs, b.at.value);
      CountsInSpan(cutoffs, a, i);
      CountsInSpan(cutoffs, b, j);
      assert Disagree(WindowAt(cutoffs, i), a, b);
      assert Fails(WindowAt(cutoffs, i), rows);
    }
  }

  lemma {:induction false} FirstNativeInWindow(v: Window, w: Window, rows: seq<Row>, trade: string)
    requires forall row :: row in rows ==> (Tells(v, row, trade) <==> Tells(w, row, trade))
    ensures FirstNative(v, rows, trade) == FirstNative(w, rows, trade)
  {
    if rows != [] {
      FirstNativeInWindow(v, w, rows[1..], trade);
    }
  }

  /** When the one read succeeds, each window holds its share of what the span holds: the
      trades whose time lies in it, with the same records and time texts. */
  lemma SpanIsUnionOfWindows(cutoffs: seq<int>, rows: seq<Row>, whole: map<string, Entry>, part: map<string, Entry>,
                             i: nat, trade: string)
    requires Increasing(cutoffs) && i + 1 < |cutoffs|
    requires Holds(Spanning(cutoffs), rows, whole) && Holds(WindowAt(cutoffs, i), rows, part)
    ensures trade in whole ==> Within(Spanning(cutoffs), whole[trade].record.at)
    ensures trade in part <==> trade in whole && WindowOf(cutoffs, whole[trade].record.at) == i
    ensures trade in part ==> part[trade] == whole[trade]
  {
    if trade in part {
      PartInWhole(cutoffs, rows, whole, part, i, trade);
      WindowsPartition(cutoffs, whole[trade].record.at, i);
    }
    if trade in whole {
      WholeInPart(cutoffs, rows, whole, part, i, trade);
    }
    if trade in part {
      SameFirst(cutoffs, rows, whole, part, i, trade);
    }
  }

  lemma SameFirst(cutoffs: seq<int>, rows: seq<Row>, whole: map<string, Entry>, part: map<string, Entry>, i: nat,
                  trade: string)
    requires Increasing(cutoffs) && i + 1 < |cutoffs|
    requires Holds(Spanning(cutoffs), rows, whole) && Holds(WindowAt(cutoffs, i), rows, part)
    requires trade in part && trade in whole && Within(WindowAt(cutoffs, i), whole[trade].record.at)
    ensures part[trade].first == whole[trade].first
  {
    var span, w := Spanning(cutoffs), WindowAt(cutoffs, i);
    assert Grounded(span, rows, trade, whole[trade]) && Grounded(w, rows, trade, part[trade]);
    forall row | row in rows ensures Tells(span, row, trade) <==> Tells(w, row, trade) {
      CountsInSpan(cutoffs, row, i);
      assert Held(span, row, whole);
    }
    FirstNativeInWindow(span, w, rows, trade);
  }

  lemma PartInWhole(cutoffs: seq<int>, rows: seq<Row>, whole: map<string, Entry>, part: map<string, Entry>, i: nat,
                    trade: string)
    requires Increasing(cutoffs) && i + 1 < |cutoffs|
    requires Holds(Spanning(cutoffs), rows, whole) && Holds(WindowAt(cutoffs, i), rows, part) && trade in part
    ensures trade in whole && part[trade].record == whole[trade].record && part[trade].natives <= whole[trade].natives
    ensures Within(WindowAt(cutoffs, i), whole[trade].record.at)
  {
    var span, w := Spanning(cutoffs), WindowAt(cutoffs, i);
    assert Grounded(w, rows, trade, part[trade]);
    forall n | n in part[trade].natives
      ensures trade in whole && part[trade].record == whole[trade].record && n in whole[trade].natives
      ensures Within(w, whole[trade].record.at)
    {
      assert Told(w, rows, trade, n);
      var row :| row in rows && Tells(w, row, trade) && row.native == n;
      CountsInSpan(cutoffs, row, i);
      assert Held(w, row, part) && Held(span, row, whole);
    }
  }

  lemma WholeInPart(cutoffs: seq<int>, rows: seq<Row>, whole: map<string, Entry>, part: map<string, Entry>, i: nat,
                    trade: string)
    requires Increasing(cutoffs) && i + 1 < |cutoffs|
    requires Holds(Spanning(cutoffs), rows, whole) && Holds(WindowAt(cutoffs, i), rows, part) && trade in whole
    ensures Within(Spanning(cutoffs), whole[trade].record.at)
    ensures WindowOf(cutoffs, whole[trade].record.at) == i ==>
            trade in part && whole[trade].natives <= part[trade].natives
  {
    var span, w := Spanning(cutoffs), WindowAt(cutoffs, i);
    assert Grounded(span, rows, trade, whole[trade]);
    forall n | n in whole[trade].natives
      ensures Within(span, whole[trade].record.at)
      ensures WindowOf(cutoffs, whole[trade].record.at) == i ==> trade in part && n in part[trade].natives
    {
      assert Told(span, rows, trade, n);
      var row :| row in rows && Tells(span, row, trade) && row.native == n;
      CountsInSpan(cutoffs, row, i);
      assert Held(span, row, whole) && Held(w, row, part);
    }
  }
}
