/** The Chase card processor: `clean_data` negates the amounts and rewrites
    two categories, and `prepare_data_for_db` stamps "Chase Card". Its
    `read_files` is `Records.ReadFiles` with the person stamped and a failed
    file dropped only when listed. */
module ChaseTransactions {
  import opened Wrappers
  import opened Records

  const AccountType := "Chase Card"

  /** `replace({"Food & Drink": "Restaurants", "": "Payment"})` on one category. */
  function Category(c: Option<string>): Option<string> {
    if c == Some("Food & Drink") then Some("Restaurants")
    else if c == Some("") then Some("Payment")
    else c
  }

  /** The rewrite changes exactly its two keys, and since neither replacement
      is itself a key, no cleaned category is "Food & Drink" or empty. */
  lemma CategoryRewrite(c: Option<string>)
    ensures c == Some("Food & Drink") ==> Category(c) == Some("Restaurants")
    ensures c == Some("") ==> Category(c) == Some("Payment")
    ensures c != Some("Food & Drink") && c != Some("") ==> Category(c) == c
    ensures Category(c) != Some("Food & Drink") && Category(c) != Some("")
  {
    assert "Restaurants" != "Food & Drink" by {
      assert "Restaurants"[0] != "Food & Drink"[0];
    }
  }

  /** One row through lines 72-76: the date inferred, the amount negated, the
      category rewritten; None when a conversion raises. */
  function CleanRow(toDatetime: DateInference, raw: RawRow): Option<Row> {
    var d, a := toDatetime(raw.date), ToNumeric(raw.amount);
    if d.Some? && a.Some? then Some(Row(d.value, -a.value, raw.merchant, Category(raw.category), raw.person))
    else None
  }

  /** `clean_data`: a ValueError without data or when a date or an amount does
      not convert; otherwise every row kept in order, with its amount negated,
      its category rewritten and its merchant and person as read. */
  function CleanData(df: Option<seq<RawRow>>, toDatetime: DateInference): (r: Result<seq<Row>, Exception>)
    ensures r.Err? ==> r.error == ValueError
    ensures df.None? ==> r.Err?
    ensures df.Some? ==> (r.Ok? <==> forall i :: 0 <= i < |df.value| ==>
                                       toDatetime(df.value[i].date).Some? && ToNumeric(df.value[i].amount).Some?)
    ensures r.Ok? ==> |r.value| == |df.value|
    ensures r.Ok? ==> forall i :: 0 <= i < |df.value| ==>
                        Some(r.value[i].date) == toDatetime(df.value[i].date)
                        && Some(-r.value[i].amount) == ToNumeric(df.value[i].amount)
                        && r.value[i].merchant == df.value[i].merchant
                        && r.value[i].category == Category(df.value[i].category)
                        && r.value[i].person == df.value[i].person
  {
    if df.None? then Err(ValueError)
    else
      match MapAll(df.value, raw => CleanRow(toDatetime, raw))
      case None => Err(ValueError)
      case Some(rows) =>
        CleanRowsFields(toDatetime, df.value, rows);
        Ok(rows)
  }

  /** Rows that each clean to the matching row carry its fields. */
  lemma CleanRowsFields(toDatetime: DateInference, raws: seq<RawRow>, rows: seq<Row>)
    requires |rows| == |raws| && forall i :: 0 <= i < |raws| ==> (raw => CleanRow(toDatetime, raw))(raws[i]) == Some(rows[i])
    ensures forall i :: 0 <= i < |raws| ==>
              Some(rows[i].date) == toDatetime(raws[i].date)
              && Some(-rows[i].amount) == ToNumeric(raws[i].amount)
              && rows[i].merchant == raws[i].merchant
              && rows[i].category == Category(raws[i].category)
              && rows[i].person == raws[i].person
  {
    forall i | 0 <= i < |raws|
      ensures Some(rows[i].date) == toDatetime(raws[i].date) && Some(-rows[i].amount) == ToNumeric(raws[i].amount)
    {
      assert CleanRow(toDatetime, raws[i]) == Some(rows[i]);
    }
  }

  function Record(row: Row): TransactionRecord {
    TransactionRecord(AsTimestamp(row.date), row.amount, row.merchant, row.category, row.person, AccountType)
  }

  /** `prepare_data_for_db`: a ValueError without data; otherwise one record per
      row, in order, with the row's own values and person and "Chase Card". */
  method PrepareDataForDb(df: Option<seq<Row>>) returns (r: Result<seq<TransactionRecord>, Exception>)
    ensures df.None? <==> r.Err?
    ensures r.Err? ==> r.error == ValueError
    ensures r.Ok? ==> |r.value| == |df.value|
    ensures r.Ok? ==> forall i :: 0 <= i < |df.value| ==>
                        r.value[i].date == AsTimestamp(df.value[i].date) && r.value[i].amount == df.value[i].amount
                        && r.value[i].merchant == df.value[i].merchant && r.value[i].category == df.value[i].category
                        && r.value[i].person == df.value[i].person && r.value[i].accountType == AccountType
  {
    r := PrepareRecords(df, Record);
  }

  /** Read with the person stamped, cleaned and prepared, every record carries
      the processor's person and the amount the export shows, negated. */
  lemma RecordsCarryPersonAndNegatedAmount(raw: seq<RawRow>, person: string, toDatetime: DateInference)
    requires CleanData(Some(Stamp(raw, Some(person))), toDatetime).Ok?
    ensures var rows := CleanData(Some(Stamp(raw, Some(person))), toDatetime).value;
            |rows| == |raw| && forall i :: 0 <= i < |raw| ==>
              Record(rows[i]).person == Some(person) && Some(-Record(rows[i]).amount) == ToNumeric(raw[i].amount)
              && Record(rows[i]).accountType == AccountType
  {
    var stamped := Stamp(raw, Some(person));
    var rows := CleanData(Some(stamped), toDatetime).value;
    forall i | 0 <= i < |raw|
      ensures Record(rows[i]).person == Some(person) && Some(-Record(rows[i]).amount) == ToNumeric(raw[i].amount)
    {
      assert stamped[i] == raw[i].(person := Some(person));
    }
  }
}
