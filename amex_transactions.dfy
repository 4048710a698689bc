/** The Amex card processor: amounts parsed with no change of sign,
    categories from `add_category`, and the person column dropped by the final
    selection (records take the processor's person). Its `read_files` is
    `Records.ReadFiles` with the person stamped and a failed file dropped only
    when listed. */
module AmexTransactions {
  import opened Wrappers
  import opened NameCache
  import opened Records

  const AccountType := "Amex Card"

  /** One row after the renames and conversions of lines 60-72; the export's
      own "Category" column is not renamed, so no `category` exists yet. */
  function ParseRow(toDatetime: DateInference, raw: RawRow): Option<Row> {
    var d, a := toDatetime(raw.date), ToNumeric(raw.amount);
    if d.Some? && a.Some? then Some(Row(d.value, a.value, raw.merchant, None, raw.person))
    else None
  }

  /** Lines 56-72 of `clean_data`: a ValueError without data or when a date or
      an amount does not convert; otherwise every row in order. */
  function ParseRows(df: Option<seq<RawRow>>, toDatetime: DateInference): (r: Result<seq<Row>, Exception>)
    ensures r.Err? ==> r.error == ValueError
    ensures df.None? ==> r.Err?
    ensures df.Some? ==> (r.Ok? <==> forall i :: 0 <= i < |df.value| ==>
                                       toDatetime(df.value[i].date).Some? && ToNumeric(df.value[i].amount).Some?)
    ensures r.Ok? ==> |r.value| == |df.value|
    ensures r.Ok? ==> forall i :: 0 <= i < |df.value| ==> ParseRow(toDatetime, df.value[i]) == Some(r.value[i])
  {
    if df.None? then Err(ValueError)
    else
      match MapAll(df.value, raw => ParseRow(toDatetime, raw))
      case None => Err(ValueError)
      case Some(rows) => Ok(rows)
  }

  /** A parsed row carries the exported amount unchanged. */
  lemma ParseRowFields(toDatetime: DateInference, raw: RawRow, row: Row)
    requires ParseRow(toDatetime, raw) == Some(row)
    ensures Some(row.date) == toDatetime(raw.date) && Some(row.amount) == ToNumeric(raw.amount)
    ensures row.merchant == raw.merchant
  {
  }

  /** The selection of lines 78-83: transaction_date, amount, merchant_name and
      category, without the person. */
  function Select(rows: seq<Row>): (r: seq<Row>)
    ensures |r| == |rows|
    ensures forall i :: 0 <= i < |rows| ==> r[i].person.None? && r[i].(person := rows[i].person) == rows[i]
  {
    seq(|rows|, i requires 0 <= i < |rows| => rows[i].(person := None))
  }

  /** `clean_data`: the parse, then `add_category`, then the selection; the
      first error is the result. */
  function CleanData(df: Option<seq<RawRow>>, toDatetime: DateInference, addCategory: CategoryAdder, cache: Cache)
    : (r: Result<seq<Row>, Exception>)
    ensures ParseRows(df, toDatetime).Err? ==> r == ParseRows(df, toDatetime)
    ensures r.Ok? ==> ParseRows(df, toDatetime).Ok? && addCategory(ParseRows(df, toDatetime).value, cache).Ok?
    ensures ParseRows(df, toDatetime).Ok? ==>
              var added := addCategory(ParseRows(df, toDatetime).value, cache);
              (added.Err? ==> r == added) && (added.Ok? ==> r == Ok(Select(added.value)))
  {
    var parsed :- ParseRows(df, toDatetime);
    var added :- addCategory(parsed, cache);
    Ok(Select(added))
  }

  function Record(person: string, row: Row): TransactionRecord {
    TransactionRecord(AsTimestamp(row.date), row.amount, row.merchant, row.category, Some(person), AccountType)
  }

  /** `prepare_data_for_db`: a ValueError without data; otherwise one record per
      row, in order, with the row's own values, the processor's person and
      "Amex Card". */
  method PrepareDataForDb(df: Option<seq<Row>>, person: string) returns (r: Result<seq<TransactionRecord>, Exception>)
    ensures df.None? <==> r.Err?
    ensures r.Err? ==> r.error == ValueError
    ensures r.Ok? ==> |r.value| == |df.value|
    ensures r.Ok? ==> forall i :: 0 <= i < |df.value| ==>
                        r.value[i].date == AsTimestamp(df.value[i].date) && r.value[i].amount == df.value[i].amount
                        && r.value[i].merchant == df.value[i].merchant && r.value[i].category == df.value[i].category
                        && r.value[i].person == Some(person) && r.value[i].accountType == AccountType
  {
    r := PrepareRecords(df, row => Record(person, row));
  }

  /** No Amex row leaves cleaning with a person: the stamped column is dropped. */
  lemma CleanedRowsHaveNoPerson(df: Option<seq<RawRow>>, toDatetime: DateInference, addCategory: CategoryAdder, cache: Cache)
    requires CleanData(df, toDatetime, addCategory, cache).Ok?
    ensures forall row :: row in CleanData(df, toDatetime, addCategory, cache).value ==> row.person.None?
  {
    var added := addCategory(ParseRows(df, toDatetime).value, cache).value;
    assert CleanData(df, toDatetime, addCategory, cache).value == Select(added);
  }
}
