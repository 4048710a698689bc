/** `database_fixes/fix_future_dates.py`: transactions dated in the future
    that carry the year 2025 are moved to 2024, keeping month, day and time,
    after a "y" or "yes" confirmation. The dates are written back in one
    batch, which is committed as a whole or rolled back. */
module FixFutureDates {
  import opened Wrappers
  import opened Text
  import opened Dates

  /** A row of `get_future_transactions`. */
  datatype FutureRow = FutureRow(id: nat, date: Timestamp, merchant: string, amount: real,
                                 personId: Option<nat>, categoryId: Option<nat>, accountTypeId: Option<nat>)

  /** Every valid day of 2025 exists in 2024, a leap year, so
      `replace(year=2024)` never raises and stays within pandas' range. */
  lemma DayExistsIn2024(d: Date)
    requires ValidDate(d) && d.year == 2025
    ensures ValidDate(d.(year := 2024))
  {
  }

  /** Lines 71-75 on one row: the year becomes 2024; month, day, time and all
      other columns are kept. */
  function Moved(u: FutureRow): (t: FutureRow)
    requires u.date.date.year == 2025
    ensures t.date.date == Date(2024, u.date.date.month, u.date.date.day)
    ensures t.date.hour == u.date.hour && t.date.minute == u.date.minute && t.date.second == u.date.second
    ensures t.(date := u.date) == u
  {
    DayExistsIn2024(u.date.date);
    u.(date := u.date.(date := u.date.date.(year := 2024)))
  }

  /** `fix_transaction_dates`: the rows of year 2025, in order, each moved to
      2024; nothing when there are none. The input itself cannot change: the
      source works on a copy. */
  function FixTransactionDates(rows: seq<FutureRow>): (r: seq<FutureRow>)
    ensures |r| <= |rows|
    ensures forall t :: t in r ==> t.date.date.year == 2024
    ensures forall u :: u in rows && u.date.date.year == 2025 ==> Moved(u) in r
    ensures forall t :: t in r ==> exists u :: u in rows && u.date.date.year == 2025 && t == Moved(u)
    ensures (forall u :: u in rows ==> u.date.date.year != 2025) ==> r == []
  {
    if rows == [] then []
    else
      var rest := FixTransactionDates(rows[1..]);
      assert forall u :: u in rows[1..] ==> u in rows;
      if rows[0].date.date.year == 2025 then [Moved(rows[0])] + rest else rest
  }

  /** What the fix makes of one row: its moved row when it is of 2025,
      nothing otherwise. */
  function FixOne(u: FutureRow): seq<FutureRow> {
    if u.date.date.year == 2025 then [Moved(u)] else []
  }

  /** On a single row the fix is `FixOne`. */
  lemma FixOfOne(u: FutureRow)
    ensures FixTransactionDates([u]) == FixOne(u)
  {
    assert [u][1..] == [];
  }

  /** The result over two runs of rows is the two results in order. With
      `FixOfOne`, the fix is a filter and a map row by row: the moved rows
      keep the input order, one per row of 2025. */
  lemma FixConcat(a: seq<FutureRow>, b: seq<FutureRow>)
    ensures FixTransactionDates(a + b) == FixTransactionDates(a) + FixTransactionDates(b)
  {
    forall s | s != []
      ensures FixTransactionDates(s) == FixOne(s[0]) + FixTransactionDates(s[1..])
    {
    }
    RowByRowConcat(FixTransactionDates, FixOne, a, b);
  }

  /** Any map on rows that handles the first row by `one` and then the rest
      sends a concatenation to the concatenation of the results. */
  lemma {:induction false} RowByRowConcat(f: seq<FutureRow> -> seq<FutureRow>, one: FutureRow -> seq<FutureRow>, a: seq<FutureRow>, b: seq<FutureRow>)
    requires f([]) == []
    requires forall s :: s != [] ==> f(s) == one(s[0]) + f(s[1..])
    ensures f(a + b) == f(a) + f(b)
  {
    if a == [] {
      assert a + b == b;
    } else {
      RowByRowConcat(f, one, a[1..], b);
      assert (a + b)[0] == a[0] && (a + b)[1..] == a[1..] + b;
    }
  }

  /** Moved rows are no longer of 2025: a second run finds nothing to correct. */
  lemma FixIsFinal(rows: seq<FutureRow>)
    ensures FixTransactionDates(FixTransactionDates(rows)) == []
  {
  }

  /** The transactions' dates by id. */
  class DateTable {
    var dates: map<nat, Timestamp>

    constructor (dates: map<nat, Timestamp>)
      ensures this.dates == dates
    {
      this.dates := dates;
    }
  }

  /** The table after one `UPDATE ... WHERE id = %s` per row, in order: the id,
      when it is in the table, gets the row's date. */
  function Overlay(dates: map<nat, Timestamp>, rows: seq<FutureRow>): (r: map<nat, Timestamp>)
    ensures r.Keys == dates.Keys
    decreases |rows|
  {
    if rows == [] then dates
    else
      var before := Overlay(dates, rows[..|rows| - 1]);
      var t := rows[|rows| - 1];
      if t.id in before then before[t.id := t.date] else before
  }

  predicate UniqueIds(rows: seq<FutureRow>) {
    forall i, j :: 0 <= i < j < |rows| ==> rows[i].id != rows[j].id
  }

  /** With distinct ids the batch gives each row's id its new date, leaves
      every other id as it was, and adds no id. */
  lemma OverlayPointwise(dates: map<nat, Timestamp>, rows: seq<FutureRow>)
    requires UniqueIds(rows)
    ensures Overlay(dates, rows).Keys == dates.Keys
    ensures forall i :: 0 <= i < |rows| && rows[i].id in dates ==> Overlay(dates, rows)[rows[i].id] == rows[i].date
    ensures forall id :: id in dates && (forall i :: 0 <= i < |rows| ==> rows[i].id != id) ==> Overlay(dates, rows)[id] == dates[id]
  {
    OverlayWrites(dates, rows);
    OverlayKeeps(dates, rows);
  }

  lemma {:induction false} OverlayWrites(dates: map<nat, Timestamp>, rows: seq<FutureRow>)
    requires UniqueIds(rows)
    ensures forall i :: 0 <= i < |rows| && rows[i].id in dates ==> Overlay(dates, rows)[rows[i].id] == rows[i].date
    decreases |rows|
  {
    if rows != [] {
      var init, t := rows[..|rows| - 1], rows[|rows| - 1];
      assert forall i :: 0 <= i < |init| ==> init[i] == rows[i];
      OverlayWrites(dates, init);
      forall i | 0 <= i < |init| && rows[i].id in dates
        ensures Overlay(dates, rows)[rows[i].id] == rows[i].date
      {
        assert rows[i].id != t.id;
      }
    }
  }

  lemma {:induction false} OverlayKeeps(dates: map<nat, Timestamp>, rows: seq<FutureRow>)
    ensures forall id :: id in dates && (forall i :: 0 <= i < |rows| ==> rows[i].id != id) ==> Overlay(dates, rows)[id] == dates[id]
    decreases |rows|
  {
    if rows != [] {
      var init := rows[..|rows| - 1];
      assert forall i :: 0 <= i < |init| ==> init[i] == rows[i];
      OverlayKeeps(dates, init);
    }
  }

  /** One more UPDATE on top of the first `i`. */
  lemma OverlayStep(dates: map<nat, Timestamp>, rows: seq<FutureRow>, i: nat)
    requires i < |rows|
    ensures var before := Overlay(dates, rows[..i]);
            Overlay(dates, rows[..i + 1]) == if rows[i].id in before then before[rows[i].id := rows[i].date] else before
  {
    assert rows[..i + 1][..i] == rows[..i];
  }

  predicate SomeUpdateFails(rows: seq<FutureRow>, rejects: nat -> bool) {
    exists i :: 0 <= i < |rows| && rejects(rows[i].id)
  }

  /** `update_transactions_in_db`: nothing for no rows; otherwise the batch
      UPDATE on a new connection, committed, or rolled back and re-raised
      when a row's UPDATE fails. A failed connection raises before anything
      is sent. */
  method UpdateTransactionsInDb(table: DateTable, corrected: seq<FutureRow>, reachable: bool, rejects: nat -> bool)
    returns (r: Result<(), Exception>)
    modifies table
    ensures corrected == [] ==> r.Ok?
    ensures corrected != [] && !reachable ==> r == Err(DatabaseError)
    ensures corrected != [] && reachable ==> (r.Err? <==> SomeUpdateFails(corrected, rejects))
    ensures r.Err? ==> r.error == DatabaseError
    ensures r.Err? || corrected == [] ==> table.dates == old(table.dates)
    ensures r.Ok? ==> table.dates == Overlay(old(table.dates), corrected)
  {
    if corrected == [] {
      return Ok(());
    }
    if !reachable {
      return Err(DatabaseError);
    }
    var dates := table.dates;
    var pending := dates;
    for i := 0 to |corrected|
      invariant table.dates == dates
      invariant pending == Overlay(dates, corrected[..i])
      invariant forall k :: 0 <= k < i ==> !rejects(corrected[k].id)
    {
      var t := corrected[i];
      OverlayStep(dates, corrected, i);
      if rejects(t.id) {
        assert 0 <= i < |corrected| && rejects(corrected[i].id);
        return Err(DatabaseError);
      }
      if t.id in pending {
        pending := pending[t.id := t.date];
      }
    }
    assert corrected[..|corrected|] == corrected;
    table.dates := pending;
    r := Ok(());
  }

  /** Line 161: "y" or "yes", in any case. */
  predicate Confirmed(answer: string) {
    Lower(answer) == "y" || Lower(answer) == "yes"
  }

  /** How `main` ends. */
  datatype Outcome = NoFutureRows | NothingToCorrect | Cancelled | Updated | Failed(error: Exception)

  /** `main` on the rows `get_future_transactions` returned: nothing without
      future rows or without 2025 rows among them, nor without confirmation;
      otherwise the corrected rows are written back. */
  method Run(table: DateTable, future: seq<FutureRow>, answer: string, reachable: bool, rejects: nat -> bool)
    returns (out: Outcome)
    modifies table
    ensures out != Updated ==> table.dates == old(table.dates)
    ensures future == [] ==> out == NoFutureRows
    ensures future != [] && FixTransactionDates(future) == [] ==> out == NothingToCorrect
    ensures FixTransactionDates(future) != [] && !Confirmed(answer) ==> out == Cancelled
    ensures FixTransactionDates(future) != [] && Confirmed(answer) ==>
              (out == Updated <==> reachable && !SomeUpdateFails(FixTransactionDates(future), rejects))
    ensures out == Updated ==> Confirmed(answer) && table.dates == Overlay(old(table.dates), FixTransactionDates(future))
  {
    if future == [] {
      return NoFutureRows;
    }
    var corrected := FixTransactionDates(future);
    if corrected == [] {
      return NothingToCorrect;
    }
    if !Confirmed(answer) {
      return Cancelled;
    }
    var r := UpdateTransactionsInDb(table, corrected, reachable, rejects);
    if r.Err? {
      return Failed(r.error);
    }
    out := Updated;
  }
}
