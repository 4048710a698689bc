/** The Citi card processor: dates in the fixed format month/day/year, amounts
    freed of `$` and `,` and negated, the person stamped during cleaning and
    missing categories filled with "Uncategorized". Its `read_files` is
    `Records.ReadFiles` with no stamp and a failed file dropped only when
    listed. */
module CitiTransactions {
  import opened Wrappers
  import opened Dates
  import opened NameCache
  import opened Records

  const AccountType := "Citi Card"
  const Uncategorized := "Uncategorized"

  /** `pd.to_datetime(..., format='%m/%d/%Y')` on one cell. */
  function ParseDate(s: string): Option<Timestamp> {
    match Strptime(s, MonthDayYear)
    case None => None
    case Some(d) => ToTimestamp(d)
  }

  /** The category after lines 78-81: "Uncategorized" for every row when the
      export has no category column, and for a missing value otherwise. */
  function Category(hasCategoryColumn: bool, c: Option<string>): string {
    if hasCategoryColumn then c.GetOr(Uncategorized) else Uncategorized
  }

  function CleanRow(person: string, hasCategoryColumn: bool, raw: RawRow): Option<Row> {
    var d, a := ParseDate(raw.date), CurrencyValue(raw.amount);
    if d.Some? && a.Some? then Some(Row(d.value, -a.value, raw.merchant, Some(Category(hasCategoryColumn, raw.category)), Some(person)))
    else None
  }

  /** `clean_data` with line 69 removing `$` and `,` as intended (as shipped,
      that line does not parse): a ValueError without data or when a date or
      an amount does not convert; otherwise every row cleaned, in order. */
  function CleanData(df: Option<seq<RawRow>>, person: string, hasCategoryColumn: bool): (r: Result<seq<Row>, Exception>)
    ensures r.Err? ==> r.error == ValueError
    ensures df.None? ==> r.Err?
    ensures df.Some? ==> (r.Ok? <==> forall i :: 0 <= i < |df.value| ==>
                                       ParseDate(df.value[i].date).Some? && CurrencyValue(df.value[i].amount).Some?)
    ensures r.Ok? ==> |r.value| == |df.value|
    ensures r.Ok? ==> forall i :: 0 <= i < |df.value| ==> CleanRow(person, hasCategoryColumn, df.value[i]) == Some(r.value[i])
  {
    if df.None? then Err(ValueError)
    else
      match MapAll(df.value, raw => CleanRow(person, hasCategoryColumn, raw))
      case None => Err(ValueError)
      case Some(rows) => Ok(rows)
  }

  /** How a cleaned row relates to the exported row: the parsed date, the
      amount freed of `$` and `,` and negated, the merchant, the processor's
      person, and the exported category when there is one and
      "Uncategorized" otherwise. */
  predicate CleanedFrom(person: string, hasCategoryColumn: bool, raw: RawRow, row: Row) {
    Some(row.date) == ParseDate(raw.date) && Some(-row.amount) == CurrencyValue(raw.amount)
    && row.merchant == raw.merchant && row.person == Some(person)
    && row.category.Some?
    && (hasCategoryColumn && raw.category.Some? ==> row.category == raw.category)
    && (!hasCategoryColumn || raw.category.None? ==> row.category == Some(Uncategorized))
  }

  /** Every cleaned row is cleaned from the exported row at its position. */
  lemma CleanDataRows(df: Option<seq<RawRow>>, person: string, hasCategoryColumn: bool)
    requires CleanData(df, person, hasCategoryColumn).Ok?
    ensures var rows := CleanData(df, person, hasCategoryColumn).value;
            |rows| == |df.value| && forall i :: 0 <= i < |df.value| ==> CleanedFrom(person, hasCategoryColumn, df.value[i], rows[i])
  {
    var rows := CleanData(df, person, hasCategoryColumn).value;
    forall i | 0 <= i < |df.value|
      ensures CleanedFrom(person, hasCategoryColumn, df.value[i], rows[i])
    {
      CleanRowFields(person, hasCategoryColumn, df.value[i], rows[i]);
    }
  }

  lemma CleanRowFields(person: string, hasCategoryColumn: bool, raw: RawRow, row: Row)
    requires CleanRow(person, hasCategoryColumn, raw) == Some(row)
    ensures CleanedFrom(person, hasCategoryColumn, raw, row)
  {
    var d, a := ParseDate(raw.date), CurrencyValue(raw.amount);
    assert d.Some? && a.Some?;
    assert row == Row(d.value, -a.value, raw.merchant, Some(Category(hasCategoryColumn, raw.category)), Some(person));
  }

  /** A parsed date is midnight of the date `strptime` reads. */
  lemma ParseDateMidnight(s: string)
    requires ParseDate(s).Some?
    ensures Strptime(s, MonthDayYear).Some? && ParseDate(s).value == Midnight(Strptime(s, MonthDayYear).value)
  {
  }

  function Record(row: Row): TransactionRecord {
    TransactionRecord(AsText(Strftime(row.date)), row.amount, row.merchant, row.category, row.person, AccountType)
  }

  /** `prepare_data_for_db`: a ValueError without data; otherwise one record per
      row, in order, with the date written `%Y-%m-%d %H:%M:%S`, the row's own
      values and person, and "Citi Card". */
  method PrepareDataForDb(df: Option<seq<Row>>) returns (r: Result<seq<TransactionRecord>, Exception>)
    ensures df.None? <==> r.Err?
    ensures r.Err? ==> r.error == ValueError
    ensures r.Ok? ==> |r.value| == |df.value|
    ensures r.Ok? ==> forall i :: 0 <= i < |df.value| ==>
                        r.value[i].date == AsText(Strftime(df.value[i].date)) && r.value[i].amount == df.value[i].amount
                        && r.value[i].merchant == df.value[i].merchant && r.value[i].category == df.value[i].category
                        && r.value[i].person == df.value[i].person && r.value[i].accountType == AccountType
  {
    r := PrepareRecords(df, Record);
  }

  /** A cleaned Citi record never lacks a category or a person, so storing it
      cannot fail for want of either. */
  lemma RecordsComplete(df: Option<seq<RawRow>>, person: string, hasCategoryColumn: bool)
    requires CleanData(df, person, hasCategoryColumn).Ok?
    ensures forall row :: row in CleanData(df, person, hasCategoryColumn).value ==>
              Record(row).category.Some? && Record(row).person == Some(person)
  {
    var rows := CleanData(df, person, hasCategoryColumn).value;
    forall row | row in rows
      ensures Record(row).category.Some? && Record(row).person == Some(person)
    {
      var i :| 0 <= i < |rows| && rows[i] == row;
      CleanRowFields(person, hasCategoryColumn, df.value[i], row);
    }
  }
}
