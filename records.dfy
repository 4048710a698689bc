/** The shapes the card-export processors pass along, and the two loops they
    share: `read_files`, which reads every export and drops the failed ones
    from the list of files to delete later, and `prepare_data_for_db`, which
    turns each cleaned row into one record for the database.

    A pandas DataFrame is a sequence of typed rows here; each issuer's column
    names are mapped onto the fields when its cleaner is modelled. */
module Records {
  import opened Wrappers
  import opened Text
  import opened Numbers
  import opened Dates
  import opened NameCache

  /** A cell of an amount column as `read_csv` produced it. */
  datatype Cell = Numeric(n: real) | Textual(s: string)

  /** A row of an export as read: date text, merchant, amount cell, the
      category if the export has one (None for a missing value), and the
      person if a column carries it. */
  datatype RawRow = RawRow(date: string, merchant: string, amount: Cell, category: Option<string>, person: Option<string>)

  /** A cleaned row: transaction_date, amount, merchant_name, category, person
      (None where the cleaner drops the person column). */
  datatype Row = Row(date: Timestamp, amount: real, merchant: string, category: Option<string>, person: Option<string>)

  /** How a record carries its date: the Timestamp itself, or the text
      `strftime` made of it. */
  datatype RecordDate = AsTimestamp(t: Timestamp) | AsText(s: string)

  /** One record of `prepare_data_for_db`, the dictionary handed to the database. */
  datatype TransactionRecord = TransactionRecord(
    date: RecordDate, amount: real, merchant: string, category: Option<string>, person: Option<string>, accountType: string)

  /** `pd.to_datetime` without a format string: pandas' own inference, left
      abstract. None stands for the ValueError it raises. */
  type DateInference = string -> Option<Timestamp>

  /** `AIHelper.add_category(df, cache)`, which the Apple and Amex processors
      call but `AIHelper` does not define: any function of the rows and the
      category cache, which may raise. */
  type CategoryAdder = (seq<Row>, Cache) -> Result<seq<Row>, Exception>

  /** `read_csv` of one path: the rows, or None when reading raises. */
  type CsvReader = string -> Option<seq<RawRow>>

  /** `pd.to_numeric` on one cell: a number stays, text must be a decimal. */
  function ToNumeric(c: Cell): Option<real> {
    match c
    case Numeric(n) => Some(n)
    case Textual(s) => ParseFloat(s)
  }

  /** A money cell read as text: every `$` and `,` removed before `pd.to_numeric`;
      a cell that is already a number is kept. */
  function CurrencyValue(c: Cell): Option<real> {
    match c
    case Numeric(n) => Some(n)
    case Textual(s) => ParseFloat(RemoveAll(RemoveAll(s, '$'), ','))
  }

  /** Text without `$` or `,` reads the same with or without the clean-up, so
      the currency reading only ever accepts more than `pd.to_numeric`. */
  lemma CurrencyExtendsNumeric(c: Cell)
    ensures ToNumeric(c).Some? ==> CurrencyValue(c) == ToNumeric(c) || (c.Textual? && ('$' in c.s || ',' in c.s))
    ensures c.Textual? && '$' !in c.s && ',' !in c.s ==> CurrencyValue(c) == ToNumeric(c)
  {
    if c.Textual? && '$' !in c.s && ',' !in c.s {
      RemoveAbsent(c.s, '$');
      RemoveAbsent(c.s, ',');
    }
  }

  /** "$1,234.56" is read as exactly 1234.56, where `pd.to_numeric` alone fails. */
  lemma CurrencyValueExample()
    ensures CurrencyValue(Textual("$1,234.56")) == Some(1234.56)
    ensures ToNumeric(Textual("$1,234.56")).None?
  {
    CurrencyOfExample("$1,234.56");
  }

  lemma CurrencyOfExample(s: string)
    requires s == "$1,234.56"
    ensures CurrencyValue(Textual(s)) == Some(1234.56)
    ensures ToNumeric(Textual(s)).None?
  {
    StrictAmountExample();
    assert s[0] == '$' && s[|s| - 1] == '6';
    DollarLedNotNumeric(s);
  }

  /** Text that starts with `$` is not a number to `pd.to_numeric`. */
  lemma DollarLedNotNumeric(s: string)
    requires s != [] && s[0] == '$' && !IsSpace(s[|s| - 1])
    ensures ParseFloat(s).None?
  {
    StripUnchanged(s);
    var k := IndexOf(s, '.');
    if k < |s| {
      assert k > 0 && s[..k][0] == '$';
    }
  }

  /** `f` applied to every element; None as soon as one application fails,
      as a column conversion raises on its first bad cell. */
  function MapAll<A, B>(xs: seq<A>, f: A -> Option<B>): (r: Option<seq<B>>)
    ensures r.Some? <==> forall i :: 0 <= i < |xs| ==> f(xs[i]).Some?
    ensures r.Some? ==> |r.value| == |xs| && forall i :: 0 <= i < |xs| ==> f(xs[i]) == Some(r.value[i])
  {
    if xs == [] then Some([])
    else
      match f(xs[0])
      case None => None
      case Some(y) =>
        match MapAll(xs[1..], f)
        case None =>
          assert forall i :: 1 <= i < |xs| ==> xs[i] == xs[1..][i - 1];
          None
        case Some(ys) =>
          assert forall i :: 1 <= i < |xs| ==> xs[i] == xs[1..][i - 1];
          Some([y] + ys)
  }

  // ---------------------------------------------------------------------
  // The list of processed files
  // ---------------------------------------------------------------------

  /** A Python list of file paths, shared by reference. */
  class FileList {
    var items: seq<string>

    constructor (items: seq<string>)
      ensures this.items == items
    {
      this.items := items;
    }

    /** `list.remove(x)`: drops the first `x`; `ok` is false (a ValueError)
        when there is none. */
    method Remove(x: string) returns (ok: bool)
      modifies this
      ensures ok <==> x in old(items)
      ensures items == RemoveFirst(old(items), x)
    {
      ok := x in items;
      items := RemoveFirst(items, x);
    }
  }

  /** The list without its first `x`; unchanged when there is none. */
  function RemoveFirst(s: seq<string>, x: string): (r: seq<string>)
    ensures x in s ==> |r| == |s| - 1
    ensures x !in s ==> r == s
    ensures forall y :: y in r ==> y in s
  {
    if s == [] then []
    else if s[0] == x then s[1..]
    else [s[0]] + RemoveFirst(s[1..], x)
  }

  /** Removing `x` when it first occurs right after `done`. */
  lemma {:induction false} RemoveFirstAfter(done: seq<string>, x: string, rest: seq<string>)
    requires x !in done
    ensures RemoveFirst(done + [x] + rest, x) == done + rest
  {
    var whole := done + [x] + rest;
    if done != [] {
      var d, tail := done[0], done[1..];
      assert whole[0] == d && whole[1..] == tail + [x] + rest;
      RemoveFirstAfter(tail, x, rest);
      calc {
        RemoveFirst(whole, x);
        [d] + RemoveFirst(tail + [x] + rest, x);
        [d] + (tail + rest);
        { assert done == [d] + tail; }
        done + rest;
      }
    } else {
      assert whole[0] == x && whole[1..] == rest;
    }
  }

  // ---------------------------------------------------------------------
  // read_files
  // ---------------------------------------------------------------------

  /** What a failed read does to `processed_files`: the Chase, Citi and Amex
      readers remove the path only when it is listed, the Apple reader removes
      it unconditionally, and `list.remove` raises when it is absent. */
  datatype Removal = IfPresent | Always

  /** Where the loop over the paths ends: the paths read, the list iterated
      and `processed_files` as they are afterwards, and whether the loop raised. */
  datatype ReadRun = ReadRun(read: seq<string>, iterated: seq<string>, processed: seq<string>, raised: bool)

  /** The loop `for file_path in file_paths` from position `i` on. A Python
      list iterator re-reads the list at every step, so when `processed_files`
      is the very list being iterated (`aliased`), removing a failed path
      shifts the rest left and the path after it is never visited. */
  function Run(iter: seq<string>, processed: seq<string>, aliased: bool, i: nat, readCsv: CsvReader, removal: Removal): (o: ReadRun)
    requires aliased ==> iter == processed
    ensures aliased ==> o.iterated == o.processed
    ensures !aliased ==> o.iterated == iter
    decreases |iter| - i
  {
    if i >= |iter| then ReadRun([], iter, processed, false)
    else
      var p := iter[i];
      if readCsv(p).Some? then
        var o := Run(iter, processed, aliased, i + 1, readCsv, removal);
        o.(read := [p] + o.read)
      else if p !in processed && removal == Always then
        ReadRun([], iter, processed, true)
      else
        var rest := RemoveFirst(processed, p);
        Run(if aliased then rest else iter, rest, aliased, i + 1, readCsv, removal)
  }

  /** The rows of the paths read, in order, with `person` stamped when the
      reader adds a person column (a path that does not read adds none). */
  function RowsOf(paths: seq<string>, readCsv: CsvReader, stamp: Option<string>): seq<RawRow>
  {
    if paths == [] then []
    else
      RowsOf(paths[..|paths| - 1], readCsv, stamp)
      + match readCsv(paths[|paths| - 1]) case Some(rows) => Stamp(rows, stamp) case None => []
  }

  /** `df["person"] = self.person` when the reader does it. */
  function Stamp(rows: seq<RawRow>, stamp: Option<string>): (r: seq<RawRow>)
    ensures |r| == |rows|
    ensures forall i :: 0 <= i < |rows| ==> r[i] == if stamp.Some? then rows[i].(person := stamp) else rows[i]
  {
    if stamp.None? then rows else seq(|rows|, i requires 0 <= i < |rows| => rows[i].(person := stamp))
  }

  lemma RowsOfSnoc(read: seq<string>, p: string, readCsv: CsvReader, stamp: Option<string>)
    requires readCsv(p).Some?
    ensures RowsOf(read + [p], readCsv, stamp) == RowsOf(read, readCsv, stamp) + Stamp(readCsv(p).value, stamp)
  {
    assert (read + [p])[..|read|] == read;
  }

  /** Every path the run reports as read was readable. */
  lemma {:induction false} RunReadsReadable(iter: seq<string>, processed: seq<string>, aliased: bool, i: nat, readCsv: CsvReader, removal: Removal)
    requires aliased ==> iter == processed
    ensures forall k :: 0 <= k < |Run(iter, processed, aliased, i, readCsv, removal).read| ==>
              readCsv(Run(iter, processed, aliased, i, readCsv, removal).read[k]).Some?
    decreases |iter| - i
  {
    if i < |iter| {
      var p := iter[i];
      if readCsv(p).Some? {
        RunReadsReadable(iter, processed, aliased, i + 1, readCsv, removal);
      } else if !(p !in processed && removal == Always) {
        var rest := RemoveFirst(processed, p);
        RunReadsReadable(if aliased then rest else iter, rest, aliased, i + 1, readCsv, removal);
      }
    }
  }

  /** `read_files`: read every path of `filePaths`, stamp the person when the
      reader does, and on a failure take the path out of `processed`, which
      may be the very same list. No readable file is a ValueError; so is an
      unconditional removal of a path that is not listed. */
  method ReadFiles(filePaths: FileList, processed: FileList, readCsv: CsvReader, stamp: Option<string>, removal: Removal)
    returns (r: Result<seq<RawRow>, Exception>)
    modifies processed
    ensures var o := Run(old(filePaths.items), old(processed.items), filePaths == processed, 0, readCsv, removal);
            processed.items == o.processed && filePaths.items == o.iterated
            && (r.Ok? <==> !o.raised && o.read != [])
            && (r.Err? ==> r.error == ValueError)
            && (r.Ok? ==> (forall k :: 0 <= k < |o.read| ==> readCsv(o.read[k]).Some?)
                          && r.value == RowsOf(o.read, readCsv, stamp))
  {
    var raised, read, rows := ReadLoop(filePaths, processed, readCsv, stamp, removal);
    if raised || read == [] {
      return Err(ValueError);
    }
    r := Ok(rows);
  }

  /** The loop of `read_files`: the paths read and their rows, and whether
      a removal raised. */
  method ReadLoop(filePaths: FileList, processed: FileList, readCsv: CsvReader, stamp: Option<string>, removal: Removal)
    returns (raised: bool, read: seq<string>, rows: seq<RawRow>)
    modifies processed
    ensures var o := Run(old(filePaths.items), old(processed.items), filePaths == processed, 0, readCsv, removal);
            processed.items == o.processed && filePaths.items == o.iterated
            && raised == o.raised && read == o.read
    ensures forall k :: 0 <= k < |read| ==> readCsv(read[k]).Some?
    ensures rows == RowsOf(read, readCsv, stamp)
  {
    ghost var aliased := filePaths == processed;
    ghost var whole := Run(filePaths.items, processed.items, aliased, 0, readCsv, removal);
    RunReadsReadable(filePaths.items, processed.items, aliased, 0, readCsv, removal);
    read, rows, raised := [], [], false;
    var i := 0;
    while i < |filePaths.items|
      invariant aliased ==> filePaths.items == processed.items
      invariant !aliased ==> filePaths.items == old(filePaths.items)
      invariant rows == RowsOf(read, readCsv, stamp)
      invariant Continues(whole, read, Run(filePaths.items, processed.items, aliased, i, readCsv, removal))
      decreases |filePaths.items| - i
    {
      var p := filePaths.items[i];
      var csv, failed := ReadAt(filePaths, processed, readCsv, removal, i, aliased, whole, read);
      if failed {
        raised := true;
        return;
      }
      if csv.Some? {
        RowsOfSnoc(read, p, readCsv, stamp);
        rows := rows + Stamp(csv.value, stamp);
        read := read + [p];
      }
      i := i + 1;
    }
    assert read + [] == read;
  }

  /** One turn of the loop on the path at `i`: it is read, or on a failure
      taken out of `processed` (which may be the list iterated), or the
      removal raises because it is not listed. Either way the turn is the
      next step of the whole run. */
  method ReadAt(filePaths: FileList, processed: FileList, readCsv: CsvReader, removal: Removal, i: nat,
                ghost aliased: bool, ghost whole: ReadRun, ghost read: seq<string>)
    returns (csv: Option<seq<RawRow>>, raised: bool)
    requires aliased == (filePaths == processed)
    requires aliased ==> filePaths.items == processed.items
    requires i < |filePaths.items|
    requires Continues(whole, read, Run(filePaths.items, processed.items, aliased, i, readCsv, removal))
    modifies processed
    ensures csv == readCsv(old(filePaths.items)[i])
    ensures aliased ==> filePaths.items == processed.items
    ensures !aliased ==> filePaths.items == old(filePaths.items)
    ensures |filePaths.items| <= |old(filePaths.items)|
    ensures raised ==> whole.raised && whole.read == read
                       && whole.iterated == filePaths.items && whole.processed == processed.items
    ensures !raised ==> Continues(whole, if csv.Some? then read + [old(filePaths.items)[i]] else read,
                                  Run(filePaths.items, processed.items, aliased, i + 1, readCsv, removal))
  {
    var p := filePaths.items[i];
    ghost var iter, listed := filePaths.items, processed.items;
    csv := readCsv(p);
    raised := false;
    if csv.Some? {
      RunReadStep(iter, listed, aliased, i, readCsv, removal);
      ContinuesAfterRead(whole, read, p, Run(iter, listed, aliased, i + 1, readCsv, removal));
    } else if p in processed.items {
      RemoveStep(whole, read, iter, listed, aliased, i, readCsv, removal);
      var _ := processed.Remove(p);
    } else if removal == Always {
      raised := true;
    } else {
      RemoveStep(whole, read, iter, listed, aliased, i, readCsv, removal);
    }
  }

  /** The loop's invariant after dropping the unreadable path at `i`. */
  lemma RemoveStep(whole: ReadRun, read: seq<string>, iter: seq<string>, listed: seq<string>, aliased: bool,
                   i: nat, readCsv: CsvReader, removal: Removal)
    requires aliased ==> iter == listed
    requires i < |iter| && readCsv(iter[i]).None? && !(removal == Always && iter[i] !in listed)
    requires Continues(whole, read, Run(iter, listed, aliased, i, readCsv, removal))
    ensures var rest := RemoveFirst(listed, iter[i]);
            Continues(whole, read, Run(if aliased then rest else iter, rest, aliased, i + 1, readCsv, removal))
  {
    RunRemoveStep(iter, listed, aliased, i, readCsv, removal);
  }

  /** The whole run is what was read so far followed by the rest of the run. */
  predicate Continues(whole: ReadRun, read: seq<string>, rest: ReadRun) {
    whole == rest.(read := read + rest.read)
  }

  lemma ContinuesAfterRead(whole: ReadRun, read: seq<string>, p: string, rest: ReadRun)
    requires Continues(whole, read, rest.(read := [p] + rest.read))
    ensures Continues(whole, read + [p], rest)
  {
    assert read + ([p] + rest.read) == (read + [p]) + rest.read;
  }

  lemma RunReadStep(iter: seq<string>, processed: seq<string>, aliased: bool, i: nat, readCsv: CsvReader, removal: Removal)
    requires aliased ==> iter == processed
    requires i < |iter| && readCsv(iter[i]).Some?
    ensures var rest := Run(iter, processed, aliased, i + 1, readCsv, removal);
            Run(iter, processed, aliased, i, readCsv, removal) == rest.(read := [iter[i]] + rest.read)
  {
  }

  lemma RunRemoveStep(iter: seq<string>, processed: seq<string>, aliased: bool, i: nat, readCsv: CsvReader, removal: Removal)
    requires aliased ==> iter == processed
    requires i < |iter| && readCsv(iter[i]).None? && !(iter[i] !in processed && removal == Always)
    ensures var rest := RemoveFirst(processed, iter[i]);
            Run(iter, processed, aliased, i, readCsv, removal)
            == Run(if aliased then rest else iter, rest, aliased, i + 1, readCsv, removal)
  {
  }

  /** The paths `read_csv` accepts, in list order. */
  function Readable(paths: seq<string>, readCsv: CsvReader): seq<string> {
    if paths == [] then []
    else (if readCsv(paths[0]).Some? then [paths[0]] else []) + Readable(paths[1..], readCsv)
  }

  /** With `processed_files` a copy of the paths, the loop never raises, it
      reads every readable path in list order, and the files left to delete
      after reading are exactly the files that were read. */
  lemma CopiedRunKeepsReadFiles(items: seq<string>, readCsv: CsvReader, removal: Removal)
    ensures var o := Run(items, items, false, 0, readCsv, removal);
            !o.raised && o.read == Readable(items, readCsv) && o.processed == o.read && o.iterated == items
  {
    RunOnCopy(items, [], 0, readCsv, removal);
    assert [] + items[0..] == items;
    CopyReadsReadable(items, items, 0, readCsv, removal);
    assert items[0..] == items;
  }

  /** Over a fixed list, a run that does not raise reads exactly the readable
      paths from position `i` on: a removal from the copy never moves the
      iterator. */
  lemma {:induction false} CopyReadsReadable(items: seq<string>, processed: seq<string>, i: nat, readCsv: CsvReader, removal: Removal)
    requires i <= |items|
    requires !Run(items, processed, false, i, readCsv, removal).raised
    ensures Run(items, processed, false, i, readCsv, removal).read == Readable(items[i..], readCsv)
    decreases |items| - i
  {
    if i < |items| {
      var p := items[i];
      assert items[i..][0] == p && items[i..][1..] == items[i + 1..];
      if readCsv(p).Some? {
        RunReadStep(items, processed, false, i, readCsv, removal);
        CopyReadsReadable(items, processed, i + 1, readCsv, removal);
      } else {
        var rest := RemoveFirst(processed, p);
        RunRemoveStep(items, processed, false, i, readCsv, removal);
        CopyReadsReadable(items, rest, i + 1, readCsv, removal);
      }
    } else {
      assert items[i..] == [];
    }
  }

  lemma {:induction false} RunOnCopy(items: seq<string>, done: seq<string>, i: nat, readCsv: CsvReader, removal: Removal)
    requires i <= |items|
    requires forall p :: p in done ==> readCsv(p).Some?
    ensures var o := Run(items, done + items[i..], false, i, readCsv, removal);
            !o.raised && o.processed == done + o.read
    decreases |items| - i
  {
    if i < |items| {
      var p := items[i];
      if readCsv(p).Some? {
        RunOnCopy(items, done + [p], i + 1, readCsv, removal);
        CopyReadStep(items, done, i, readCsv, removal);
      } else {
        RunOnCopy(items, done, i + 1, readCsv, removal);
        CopyRemoveStep(items, done, i, readCsv, removal);
      }
    } else {
      assert items[i..] == [];
    }
  }

  /** A readable path moves from the list's remainder to what was read. */
  lemma CopyReadStep(items: seq<string>, done: seq<string>, i: nat, readCsv: CsvReader, removal: Removal)
    requires i < |items| && readCsv(items[i]).Some?
    requires var o := Run(items, (done + [items[i]]) + items[i + 1..], false, i + 1, readCsv, removal);
             !o.raised && o.processed == (done + [items[i]]) + o.read
    ensures var o := Run(items, done + items[i..], false, i, readCsv, removal);
            !o.raised && o.processed == done + o.read
  {
    var p, later := items[i], items[i + 1..];
    var listed := done + items[i..];
    assert items[i..] == [p] + later;
    assert listed == (done + [p]) + later;
    RunReadStep(items, listed, false, i, readCsv, removal);
    var rest := Run(items, listed, false, i + 1, readCsv, removal);
    assert (done + [p]) + rest.read == done + ([p] + rest.read);
  }

  /** A failed path is the first of its kind after the paths read, so
      removing it leaves exactly those and the paths still to come. */
  lemma CopyRemoveStep(items: seq<string>, done: seq<string>, i: nat, readCsv: CsvReader, removal: Removal)
    requires i < |items| && readCsv(items[i]).None?
    requires forall p :: p in done ==> readCsv(p).Some?
    requires var o := Run(items, done + items[i + 1..], false, i + 1, readCsv, removal);
             !o.raised && o.processed == done + o.read
    ensures var o := Run(items, done + items[i..], false, i, readCsv, removal);
            !o.raised && o.processed == done + o.read
  {
    var p, later := items[i], items[i + 1..];
    var listed := done + items[i..];
    assert items[i..] == [p] + later;
    assert listed == done + [p] + later;
    assert p in listed;
    RemoveFirstAfter(done, p, later);
    RunRemoveStep(items, listed, false, i, readCsv, removal);
  }

  /** When `processed_files` is the list being iterated and the first of three
      exports fails, the second is never read, yet stays listed for deletion. */
  lemma AliasedRunSkipsNext(a: string, b: string, c: string, readCsv: CsvReader, removal: Removal)
    requires a != b && a != c && b != c
    requires readCsv(a).None? && readCsv(b).Some? && readCsv(c).Some?
    ensures Run([a, b, c], [a, b, c], true, 0, readCsv, removal) == ReadRun([c], [b, c], [b, c], false)
  {
    assert [a, b, c][0] == a && RemoveFirst([a, b, c], a) == [b, c];
    assert [b, c][1] == c;
    var last := Run([b, c], [b, c], true, 2, readCsv, removal);
    assert last == ReadRun([], [b, c], [b, c], false);
    assert Run([b, c], [b, c], true, 1, readCsv, removal) == last.(read := [c]);
  }

  /** The same three exports read from a copy: both readable files are read. */
  lemma CopiedRunReadsBoth(a: string, b: string, c: string, readCsv: CsvReader, removal: Removal)
    requires a != b && a != c && b != c
    requires readCsv(a).None? && readCsv(b).Some? && readCsv(c).Some?
    ensures Run([a, b, c], [a, b, c], false, 0, readCsv, removal) == ReadRun([b, c], [a, b, c], [b, c], false)
  {
    assert [a, b, c][0] == a && RemoveFirst([a, b, c], a) == [b, c];
    assert [a, b, c][1] == b && [a, b, c][2] == c;
    var last := Run([a, b, c], [b, c], false, 3, readCsv, removal);
    assert last == ReadRun([], [a, b, c], [b, c], false);
    assert Run([a, b, c], [b, c], false, 2, readCsv, removal) == last.(read := [c]);
    assert Run([a, b, c], [b, c], false, 1, readCsv, removal) == last.(read := [b, c]);
  }

  // ---------------------------------------------------------------------
  // prepare_data_for_db
  // ---------------------------------------------------------------------

  /** `prepare_data_for_db`: a ValueError without data; otherwise one record
      per row, in row order, built by the issuer's `build`. */
  method PrepareRecords(df: Option<seq<Row>>, build: Row -> TransactionRecord) returns (r: Result<seq<TransactionRecord>, Exception>)
    ensures df.None? <==> r.Err?
    ensures r.Err? ==> r.error == ValueError
    ensures r.Ok? ==> |r.value| == |df.value| && forall i :: 0 <= i < |df.value| ==> r.value[i] == build(df.value[i])
  {
    if df.None? {
      return Err(ValueError);
    }
    var rows := df.value;
    var transactions: seq<TransactionRecord> := [];
    for i := 0 to |rows|
      invariant |transactions| == i
      invariant forall k :: 0 <= k < i ==> transactions[k] == build(rows[k])
    {
      transactions := transactions + [build(rows[i])];
    }
    r := Ok(transactions);
  }
}
