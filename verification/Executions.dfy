/** Reading broker executions: merging history and today's rows by trade id within a query
    window. */
module Executions {
  import opened Wrappers

  /** The facts of a complete row. Side and currency are compared in forward mode only. */
  datatype Body = Body(order: string, trade: string, symbol: string, quantity: string, price: string,
                       side: string, currency: string)

  /** A row of the broker: its time, none when it is not a time; whether that time carries its
      zone; its text; and its facts, none when some are missing. */
  datatype Row = Row(at: Option<int>, aware: bool, native: string, body: Option<Body>)

  datatype Window = Legacy(start: int, end: int) | Forward(after: int, upTo: int)

  predicate Within(w: Window, at: int)
  {
    match w
    case Legacy(start, end) => start <= at <= end
    case Forward(after, upTo) => after < at <= upTo
  }

  predicate InWindow(w: Window, row: Row)
  {
    row.at.Some? && Within(w, row.at.value)
  }

  /** A canonical record. */
  datatype Record = Record(order: string, trade: string, symbol: string, at: int, quantity: string, price: string,
                           side: string, currency: string)

  function RecordOf(w: Window, row: Row): Record
    requires row.at.Some? && row.body.Some?
  {
    var b, forward := row.body.value, w.Forward?;
    Record(b.order, b.trade, b.symbol, row.at.value, b.quantity, b.price,
           if forward then b.side else "", if forward then b.currency else "")
  }

  /** What is kept of a trade: its record, and for forward mode the time text it was first seen
      with, and all its time texts. */
  datatype Entry = Entry(record: Record, first: string, natives: set<string>)

  // ----- the merge, row by row

  /** The row alone makes the read fail. */
  predicate Unreadable(w: Window, row: Row)
  {
    row.at.None? || (w.Forward? && !row.aware) || (InWindow(w, row) && row.body.None?)
  }

  predicate Counts(w: Window, row: Row)
  {
    InWindow(w, row) && row.body.Some?
  }

  /** Two rows in the window tell different facts of one trade. */
  predicate Disagree(w: Window, a: Row, b: Row)
  {
    && Counts(w, a) && Counts(w, b)
    && a.body.value.trade == b.body.value.trade && RecordOf(w, a) != RecordOf(w, b)
  }

  /** The row is complete and its time is in the window: both ends belong to a legacy window, only
      the later one to a forward window. */
  lemma CountsByEnds(w: Window, row: Row)
    ensures Counts(w, row) <==>
            && row.body.Some? && row.at.Some?
            && (w.Legacy? ==> w.start <= row.at.value <= w.end)
            && (w.Forward? ==> w.after < row.at.value <= w.upTo)
  {
  }

  /** A row at the time where two windows meet is counted by both in legacy mode, and by the
      earlier one only in forward mode. */
  lemma MeetingWindows(row: Row, from: int, at: int, to: int)
    requires row.at == Some(at) && row.body.Some? && from < at < to
    ensures Counts(Legacy(from, at), row) && Counts(Legacy(at, to), row)
    ensures Counts(Forward(from, at), row) && !Counts(Forward(at, to), row)
  {
  }

  /** Counted rows of one trade disagree exactly when they differ in order, symbol, time, quantity
      or price, or in forward mode in side or currency; time texts and zones are not compared. */
  lemma DisagreeOnFacts(w: Window, a: Row, b: Row)
    requires Counts(w, a) && Counts(w, b)
    ensures Disagree(w, a, b) <==>
            var x, y := a.body.value, b.body.value;
            x.trade == y.trade
            && (|| x.order != y.order || x.symbol != y.symbol || a.at != b.at
                || x.quantity != y.quantity || x.price != y.price
                || (w.Forward? && (x.side != y.side || x.currency != y.currency)))
  {
  }

  ghost predicate Fails(w: Window, rows: seq<Row>)
  {
    || (exists row :: row in rows && Unreadable(w, row))
    || (exists a, b :: a in rows && b in rows && Disagree(w, a, b))
  }

  /** The row is one of those that make up the entry of its trade. */
  predicate Tells(w: Window, row: Row, trade: string)
  {
    Counts(w, row) && row.body.value.trade == trade
  }

  /** Some row tells of the trade, with this time text. */
  ghost predicate Told(w: Window, rows: seq<Row>, trade: string, native: string)
  {
    exists row :: row in rows && Tells(w, row, trade) && row.native == native
  }

  /** The row's facts and time text are in the entry of its trade. */
  predicate Held(w: Window, row: Row, entries: map<string, Entry>)
  {
    Counts(w, row) ==>
      var trade := row.body.value.trade;
      trade in entries && entries[trade].record == RecordOf(w, row) && row.native in entries[trade].natives
  }

  /** The time text of the first row that tells of the trade. */
  function FirstNative(w: Window, rows: seq<Row>, trade: string): Option<string>
  {
    if rows == [] then None
    else if Tells(w, rows[0], trade) then Some(rows[0].native)
    else FirstNative(w, rows[1..], trade)
  }

  lemma {:induction false} FirstNativeAppend(w: Window, rows: seq<Row>, row: Row, trade: string)
    ensures FirstNative(w, rows + [row], trade)
            == if FirstNative(w, rows, trade).Some? then FirstNative(w, rows, trade)
               else if Tells(w, row, trade) then Some(row.native) else None
  {
    if rows == [] {
      assert rows + [row] == [row] && [row][1..] == [];
    } else {
      assert (rows + [row])[1..] == rows[1..] + [row];
      FirstNativeAppend(w, rows[1..], row, trade);
    }
  }

  /** There is a first row exactly when some row tells of the trade, and it is one of them. */
  lemma {:induction false} FirstIsTold(w: Window, rows: seq<Row>, trade: string)
    ensures FirstNative(w, rows, trade).Some? ==> Told(w, rows, trade, FirstNative(w, rows, trade).value)
    ensures FirstNative(w, rows, trade).None? ==> forall row :: row in rows ==> !Tells(w, row, trade)
  {
    if rows != [] && !Tells(w, rows[0], trade) {
      FirstIsTold(w, rows[1..], trade);
      if FirstNative(w, rows, trade).Some? {
        var row :| row in rows[1..] && Tells(w, row, trade) && row.native == FirstNative(w, rows, trade).value;
        assert row in rows;
      } else {
        assert rows == [rows[0]] + rows[1..];
      }
    }
  }

  /** The entry has nothing but what rows told, and its first time text from the first of them. */
  ghost predicate Grounded(w: Window, rows: seq<Row>, trade: string, e: Entry)
  {
    && FirstNative(w, rows, trade) == Some(e.first)
    && e.first in e.natives && forall n :: n in e.natives ==> Told(w, rows, trade, n)
  }

  /** The entries hold exactly the trades told by some row, with their facts and time texts. */
  ghost predicate Holds(w: Window, rows: seq<Row>, entries: map<string, Entry>)
  {
    && (forall row :: row in rows ==> Held(w, row, entries))
    && (forall trade :: trade in entries ==> Grounded(w, rows, trade, entries[trade]))
  }

  function Noted(w: Window, row: Row, entries: map<string, Entry>): map<string, Entry>
    requires Counts(w, row)
  {
    var trade := row.body.value.trade;
    entries[trade := if trade in entries then entries[trade].(natives := entries[trade].natives + {row.native})
                     else Entry(RecordOf(w, row), row.native, {row.native})]
  }

  lemma GroundedMore(w: Window, rows: seq<Row>, row: Row, trade: string, e: Entry)
    requires Grounded(w, rows, trade, e)
    ensures Grounded(w, rows + [row], trade, e)
  {
    FirstNativeAppend(w, rows, row, trade);
    forall n | n in e.natives ensures Told(w, rows + [row], trade, n) {
      var x :| x in rows && Tells(w, x, trade) && x.native == n;
      assert x in rows + [row];
    }
  }

  lemma NothingToldYet(w: Window, rows: seq<Row>, trade: string, entries: map<string, Entry>)
    requires Holds(w, rows, entries) && trade !in entries
    ensures FirstNative(w, rows, trade) == None
  {
    FirstIsTold(w, rows, trade);
    forall row | row in rows ensures !Tells(w, row, trade) {
      assert Held(w, row, entries);
    }
  }

  lemma HoldsMore(w: Window, rows: seq<Row>, row: Row, entries: map<string, Entry>)
    requires Holds(w, rows, entries) && Counts(w, row)
    requires var trade := row.body.value.trade; trade in entries ==> entries[trade].record == RecordOf(w, row)
    ensures Holds(w, rows + [row], Noted(w, row, entries))
  {
    var after := Noted(w, row, entries);
    forall trade | trade in after ensures Grounded(w, rows + [row], trade, after[trade]) {
      if trade in entries {
        GroundedMore(w, rows, row, trade, entries[trade]);
      } else {
        NothingToldYet(w, rows, trade, entries);
        FirstNativeAppend(w, rows, row, trade);
      }
      if trade == row.body.value.trade {
        assert row in rows + [row] && Tells(w, row, trade);
        assert Told(w, rows + [row], trade, row.native);
      }
    }
    forall x | x in rows + [row] ensures Held(w, x, after) {
      if x in rows {
        assert Held(w, x, entries);
      }
    }
  }

  lemma HoldsSame(w: Window, rows: seq<Row>, row: Row, entries: map<string, Entry>)
    requires Holds(w, rows, entries) && !Counts(w, row)
    ensures Holds(w, rows + [row], entries)
  {
    forall trade | trade in entries ensures Grounded(w, rows + [row], trade, entries[trade]) {
      GroundedMore(w, rows, row, trade, entries[trade]);
    }
  }

  datatype Collection = Collected(entries: map<string, Entry>) | ReadError

  /** The row tells facts of a trade that the entries have otherwise. */
  predicate Conflicts(w: Window, row: Row, entries: map<string, Entry>)
  {
    Counts(w, row) && row.body.value.trade in entries && entries[row.body.value.trade].record != RecordOf(w, row)
  }

  predicate AllReadable(w: Window, rows: seq<Row>)
  {
    forall row :: row in rows ==> !Unreadable(w, row)
  }

  /** The loop body for one row. */
  method TakeRow(w: Window, row: Row, entries: map<string, Entry>, ghost seen: seq<Row>) returns (next: Collection)
    requires Holds(w, seen, entries)
    ensures next.ReadError? <==> Unreadable(w, row) || Conflicts(w, row, entries)
    ensures next.Collected? ==> Holds(w, seen + [row], next.entries)
  {
    if Unreadable(w, row) { return ReadError; }
    if !Counts(w, row) {
      HoldsSame(w, seen, row, entries);
      return Collected(entries);
    }
    var record := RecordOf(w, row);
    if record.trade in entries && entries[record.trade].record != record { return ReadError; }
    HoldsMore(w, seen, row, entries);
    next := Collected(Noted(w, row, entries));
  }

  /** The merge loop of `collect_read_only_reconciliation_observations`: it fails exactly when
      some row is unreadable or two rows in the window disagree, and else keeps every trade. */
  method CollectExecutions(w: Window, history: seq<Row>, today: seq<Row>) returns (r: Collection)
    ensures r.ReadError? <==> Fails(w, history + today)
    ensures r.Collected? ==> Holds(w, history + today, r.entries)
  {
    var rows := history + today;
    r := Collected(map[]);
    var i := 0;
    while i < |rows|
      invariant i <= |rows| && r.Collected? && Holds(w, rows[..i], r.entries) && AllReadable(w, rows[..i])
    {
      var next := TakeRow(w, rows[i], r.entries, rows[..i]);
      if next.ReadError? {
        RowFails(w, rows, i, r.entries);
        return ReadError;
      }
      assert rows[..i + 1] == rows[..i] + [rows[i]];
      r := next;
      i := i + 1;
    }
    assert rows[..i] == rows;
    HeldRowsAgree(w, rows, r.entries);
  }

  lemma RowFails(w: Window, rows: seq<Row>, i: nat, entries: map<string, Entry>)
    requires i < |rows| && Holds(w, rows[..i], entries)
    requires Unreadable(w, rows[i]) || Conflicts(w, rows[i], entries)
    ensures Fails(w, rows)
  {
    assert rows[i] in rows;
    if Conflicts(w, rows[i], entries) {
      ConflictFails(w, rows, rows[..i], rows[i], entries);
    }
  }

  lemma ConflictFails(w: Window, rows: seq<Row>, seen: seq<Row>, row: Row, entries: map<string, Entry>)
    requires seen <= rows && row in rows && Holds(w, seen, entries) && Conflicts(w, row, entries)
    ensures Fails(w, rows)
  {
    var trade := row.body.value.trade;
    assert Grounded(w, seen, trade, entries[trade]);
    FirstIsTold(w, seen, trade);
    var x :| x in seen && Tells(w, x, trade) && x.native == entries[trade].first;
    assert Held(w, x, entries);
    assert x in rows && Disagree(w, x, row);
  }

  lemma HeldRowsAgree(w: Window, rows: seq<Row>, entries: map<string, Entry>)
    requires Holds(w, rows, entries) && AllReadable(w, rows)
    ensures !Fails(w, rows)
  {
    forall a, b | a in rows && b in rows ensures !Disagree(w, a, b) {
      assert Held(w, a, entries) && Held(w, b, entries);
    }
  }

  // ----- the outcome depends only on which rows there are

  ghost predicate SameRows(a: seq<Row>, b: seq<Row>)
  {
    forall row :: row in a <==> row in b
  }

  lemma EntryFollowsRows(w: Window, a: seq<Row>, b: seq<Row>, x: map<string, Entry>, y: map<string, Entry>,
                         trade: string)
    requires SameRows(a, b) && Holds(w, a, x) && Holds(w, b, y) && trade in x
    ensures trade in y && x[trade].record == y[trade].record && x[trade].natives <= y[trade].natives
  {
    assert Grounded(w, a, trade, x[trade]);
    FirstIsTold(w, a, trade);
    forall n | n in x[trade].natives || n == x[trade].first
      ensures trade in y && x[trade].record == y[trade].record && n in y[trade].natives
    {
      assert Told(w, a, trade, n);
      var row :| row in a && Tells(w, row, trade) && row.native == n;
      assert Held(w, row, x) && Held(w, row, y);
    }
    assert x[trade].first == x[trade].first;
  }

  /** Two merges agree but for the time text they met first. */
  ghost predicate SameEntries(x: map<string, Entry>, y: map<string, Entry>)
  {
    && x.Keys == y.Keys
    && forall trade :: trade in x ==> x[trade].record == y[trade].record && x[trade].natives == y[trade].natives
  }

  /** Row order, repeated rows, and the split between history and today are irrelevant: the
      same set of rows fails or not, and is kept with the same records and time texts. */
  lemma MergeIgnoresArrangement(w: Window, a: seq<Row>, b: seq<Row>, x: map<string, Entry>, y: map<string, Entry>)
    requires SameRows(a, b)
    ensures Fails(w, a) <==> Fails(w, b)
    ensures Holds(w, a, x) && Holds(w, b, y) ==> SameEntries(x, y)
  {
    if Holds(w, a, x) && Holds(w, b, y) {
      forall trade | trade in x
        ensures trade in y && x[trade].record == y[trade].record && x[trade].natives == y[trade].natives
      {
        EntryFollowsRows(w, a, b, x, y, trade);
        EntryFollowsRows(w, b, a, y, x, trade);
      }
      forall trade | trade in y ensures trade in x {
        EntryFollowsRows(w, b, a, y, x, trade);
      }
    }
  }

  /** Rows that do not fail have entries. */
  lemma {:induction false} EntriesExist(w: Window, rows: seq<Row>) returns (entries: map<string, Entry>)
    requires !Fails(w, rows)
    ensures Holds(w, rows, entries)
  {
    entries := map[];
    if rows != [] {
      var front, row := rows[..|rows| - 1], rows[|rows| - 1];
      assert rows == front + [row];
      assert row in rows && forall x :: x in front ==> x in rows;
      entries := EntriesExist(w, front);
      if Counts(w, row) {
        if Conflicts(w, row, entries) {
          ConflictFails(w, rows, front, row, entries);
        }
        HoldsMore(w, front, row, entries);
        entries := Noted(w, row, entries);
      } else {
        HoldsSame(w, front, row, entries);
      }
    }
  }
}
