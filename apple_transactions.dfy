/** The Apple card processor: amounts kept as exported (text freed of `$` and
    `,`), categories added by `add_category` and then re-asked of the chat
    model for every row whose category is not a cached name. Its `read_files`
    is `Records.ReadFiles` with no stamp and a failed file removed
    unconditionally. */
module AppleTransactions {
  import opened Wrappers
  import opened NameCache
  import opened Records
  import opened AiHelper

  const AccountType := "Apple Card"

  function ParseRow(toDatetime: DateInference, raw: RawRow): Option<Row> {
    var d, a := toDatetime(raw.date), CurrencyValue(raw.amount);
    if d.Some? && a.Some? then Some(Row(d.value, a.value, raw.merchant, raw.category, raw.person))
    else None
  }

  /** Lines 61-82 of `clean_data`: a ValueError without data or when a date or
      an amount does not convert; otherwise every row in order, the amount
      read as exported with no change of sign, and the "Purchased By" column
      as the person. */
  function ParseRows(df: Option<seq<RawRow>>, toDatetime: DateInference): (r: Result<seq<Row>, Exception>)
    ensures r.Err? ==> r.error == ValueError
    ensures df.None? ==> r.Err?
    ensures df.Some? ==> (r.Ok? <==> forall i :: 0 <= i < |df.value| ==>
                                       toDatetime(df.value[i].date).Some? && CurrencyValue(df.value[i].amount).Some?)
    ensures r.Ok? ==> |r.value| == |df.value|
    ensures r.Ok? ==> forall i :: 0 <= i < |df.value| ==> ParseRow(toDatetime, df.value[i]) == Some(r.value[i])
  {
    if df.None? then Err(ValueError)
    else
      match MapAll(df.value, raw => ParseRow(toDatetime, raw))
      case None => Err(ValueError)
      case Some(rows) => Ok(rows)
  }

  /** A parsed row keeps the exported amount, merchant, category and buyer. */
  lemma ParseRowFields(toDatetime: DateInference, raw: RawRow, row: Row)
    requires ParseRow(toDatetime, raw) == Some(row)
    ensures Some(row.date) == toDatetime(raw.date) && Some(row.amount) == CurrencyValue(raw.amount)
    ensures row.merchant == raw.merchant && row.category == raw.category && row.person == raw.person
  {
  }

  /** Whether a category is one of the cache's keys (`isin`; a missing value never is). */
  predicate Known(category: Option<string>, keys: seq<string>) {
    category.Some? && category.value in keys
  }

  /** One row after lines 88-97: a row with an unknown category takes the
      guess (the model's, over the cache keys), unless the guess is "Other". */
  function Reclassified(guess: string -> string, keys: seq<string>, row: Row): Row {
    if Known(row.category, keys) then row
    else if guess(row.merchant) != Other then row.(category := Some(guess(row.merchant)))
    else row
  }

  /** After re-classification by the model a row's category is a cache key or
      what it was, nothing else about the row changes, and a row with a known
      category is left alone. */
  lemma ReclassifiedCategory(llm: Model, keys: seq<string>, row: Row)
    ensures var out := Reclassified(Guesser(llm, keys), keys, row);
            (Known(out.category, keys) || out.category == row.category)
            && out.(category := row.category) == row
            && (Known(row.category, keys) ==> out == row)
  {
  }

  /** The loop of lines 88-97 over the rows with unknown categories, writing a
      guess other than "Other" back into the row. */
  method Reclassify(rows: seq<Row>, guess: string -> string, keys: seq<string>) returns (out: seq<Row>)
    ensures |out| == |rows|
    ensures forall i :: 0 <= i < |rows| ==> out[i] == Reclassified(guess, keys, rows[i])
  {
    out := rows;
    for i := 0 to |rows|
      invariant |out| == |rows|
      invariant forall k :: 0 <= k < i ==> out[k] == Reclassified(guess, keys, rows[k])
      invariant forall k :: i <= k < |rows| ==> out[k] == rows[k]
    {
      if !Known(rows[i].category, keys) {
        var category := guess(rows[i].merchant);
        if category != Other {
          out := out[i := rows[i].(category := Some(category))];
        }
      }
    }
  }

  /** `clean_data`: the parse of lines 61-82, then `add_category`, then the
      re-classification; the first error is the result. */
  method CleanData(df: Option<seq<RawRow>>, toDatetime: DateInference, addCategory: CategoryAdder, llm: Model, cache: Cache)
    returns (r: Result<seq<Row>, Exception>)
    ensures ParseRows(df, toDatetime).Err? ==> r == ParseRows(df, toDatetime)
    ensures ParseRows(df, toDatetime).Ok? && addCategory(ParseRows(df, toDatetime).value, cache).Err? ==>
              r == addCategory(ParseRows(df, toDatetime).value, cache)
    ensures r.Ok? <==> ParseRows(df, toDatetime).Ok? && addCategory(ParseRows(df, toDatetime).value, cache).Ok?
    ensures r.Ok? ==> var added := addCategory(ParseRows(df, toDatetime).value, cache).value;
                      |r.value| == |added|
                      && forall i :: 0 <= i < |added| ==> r.value[i] == Reclassified(Guesser(llm, cache.keys), cache.keys, added[i])
  {
    var parsed := ParseRows(df, toDatetime);
    if parsed.Err? {
      return parsed;
    }
    var added := addCategory(parsed.value, cache);
    if added.Err? {
      return added;
    }
    var rows := Reclassify(added.value, Guesser(llm, cache.keys), cache.keys);
    r := Ok(rows);
  }

  /** After cleaning, every category is a cached name or the one
      `add_category` gave. */
  lemma CleanedCategories(added: seq<Row>, cleaned: seq<Row>, llm: Model, cache: Cache)
    requires |cleaned| == |added|
    requires forall i :: 0 <= i < |added| ==> cleaned[i] == Reclassified(Guesser(llm, cache.keys), cache.keys, added[i])
    ensures forall i :: 0 <= i < |added| ==>
              Known(cleaned[i].category, cache.keys) || cleaned[i].category == added[i].category
  {
    forall i | 0 <= i < |added| {
      ReclassifiedCategory(llm, cache.keys, added[i]);
    }
  }

  function Record(person: string, row: Row): TransactionRecord {
    TransactionRecord(AsText(Dates.Strftime(row.date)), row.amount, row.merchant, row.category, Some(person), AccountType)
  }

  /** `prepare_data_for_db`: a ValueError without data; otherwise one record per
      row, in order, with the date written `%Y-%m-%d %H:%M:%S`, the row's own
      values, the processor's person rather than the buyer, and "Apple Card". */
  method PrepareDataForDb(df: Option<seq<Row>>, person: string) returns (r: Result<seq<TransactionRecord>, Exception>)
    ensures df.None? <==> r.Err?
    ensures r.Err? ==> r.error == ValueError
    ensures r.Ok? ==> |r.value| == |df.value|
    ensures r.Ok? ==> forall i :: 0 <= i < |df.value| ==>
                        r.value[i].date == AsText(Dates.Strftime(df.value[i].date)) && r.value[i].amount == df.value[i].amount
                        && r.value[i].merchant == df.value[i].merchant && r.value[i].category == df.value[i].category
                        && r.value[i].person == Some(person) && r.value[i].accountType == AccountType
  {
    r := PrepareRecords(df, row => Record(person, row));
  }
}
