# PersonalFinanceHub, modelled in Dafny

PersonalFinanceHub loads credit-card exports into a PostgreSQL budget
database (schema `budget_app`). This model covers the following parts:

- **The card processors.** There is one per issuer: Chase, Citi, Apple and
  Amex. Each reads its CSV exports, cleans the rows and turns them into
  transaction records.
- **The shared `AddTransactions` base class.** It keeps caches of category,
  person and account-type ids. It inserts a batch of records in one database
  transaction, committed or rolled back as a whole. It deletes the processed
  files once the batch is committed.
- **The PDF statement readers.** These cover the Chase statement's year and
  transaction lines and the generic date and amount standardisers.
- **The vendor-to-category table** and the chat-model category guesser.
- **Three maintenance scripts:**
  - `fix_missing_categories` asks the model for a category for every
    transaction that has none;
  - `update_categories` does the same with the vendor table first, or
    re-categorises one named category;
  - `fix_future_dates` moves 2025 dates to 2024.

The model has one module per source file:

- **Pure functions** (cleaning, lookups, parsing) are functions with lemmas.
- **The stateful parts** are classes with `modifies` clauses:
  - `AddTransactions.Processor` holds the processor's fields (its caches and
    `processed_files`);
  - `Records.FileList` is the Python list that `read_files` mutates;
  - `AddTransactions.Database`, `AddTransactions.FileSystem`,
    `RepairDb.Database` and `FixFutureDates.DateTable` are the tables and
    the disk.
- **Each script's loop** is a method. It is proved against a recursive
  specification function: `Batch`, `Repaired` or `Overlay`.

The database is the set of tables the code touches. A connection works on
an uncommitted copy, and only a commit publishes it. Id sequences never roll
back.

A few things outside the code are parameters rather than modelled:

- **Functions:** pandas' own date inference, `read_csv`, the undefined
  `add_category`, and the chat model.
- **Booleans:** whether the database can be reached.
- **A predicate:** which statements the database rejects.

Supporting modules:

- `Text`: ASCII lower-casing, strip, split and words.
- `Numbers`: Python's `float()` on plain decimals.
- `Dates`: dates, pandas timestamps, `strptime` and `strftime`.
- `NameCache`: the lowercase name-to-id dictionaries.
- `Records`: row types and the `read_files` loop, shared by the processors.
- `Wrappers`: Option, Result and the exception kinds.

## Model

| member | source | states |
|---|---|---|
| VendorMapping.GetCategoryFromVendor | vendor_mapping.py:123-145 | None exactly when no pattern of the table occurs in the lower-cased merchant; a found category is one of the table's categories |
| VendorMapping.LookupIgnoresCase | vendor_mapping.py:134 | the lookup gives the same answer for a merchant and its lower-cased form |
| VendorMapping.ExactKeyFirst | vendor_mapping.py:136-138 | a key equal to the lower-cased merchant wins over every substring match |
| VendorMapping.UppercaseKeyNeverExact | vendor_mapping.py:136-138 | a key holding an upper-case letter is never an exact match, because the merchant is lower-cased |
| VendorMapping.UppercaseKeysOfTable | vendor_mapping.py:14 | "MBO" and "COSTCO WHSE" are keys that can never match exactly |
| VendorMapping.FirstPatternWins | vendor_mapping.py:140-143 | without an exact key, the first pattern in table order that occurs in the merchant decides |
| VendorMapping.AmazonPaymentIsPayments | vendor_mapping.py:19 | "AMAZON PAYMENT" is filed under Payments, the pattern "payment" coming before "amazon" |
| VendorMapping.AmazonRefundIsShopping | vendor_mapping.py:81 | "AMAZON REFUND" is filed under Shopping although "refund" also occurs in it: the earlier pattern wins |
| VendorMapping.PutGet | vendor_mapping.py:148-156 | after adding a mapping its key gives the new category and every other key keeps its own |
| VendorMapping.PutKeepsOrder | vendor_mapping.py:156 | adding a mapping keeps the existing keys in place, in order, and keeps keys unique |
| VendorMapping.PutThenLookup | vendor_mapping.py:148-156 | after adding a vendor, looking that vendor up finds the new category |
| VendorMapping.VendorRegistry.AddVendorMapping | vendor_mapping.py:148-156 | the table gains or overwrites the lower-cased vendor key, and a lookup of that vendor then returns the category |
| AiHelper.GuessCategory | ai_helper.py:19-40 | the guess is one of the categories or "Other"; "Other" without a model or categories; any other answer is the model's stripped reply |
| AiHelper.RaisedGivesOther | ai_helper.py:38-40 | a model call that raises gives "Other" |
| AiHelper.AnswerAcceptedIffListed | ai_helper.py:34-37 | the stripped reply is returned exactly when it is one of the categories, and "Other" otherwise |
| AiHelper.PaddedAnswerAccepted | ai_helper.py:34 | surrounding whitespace in the reply is stripped before the membership check |
| AiHelper.NoCaseFolding | ai_helper.py:35 | a reply differing from a category only in case is rejected |
| PdfStatementReader.FirstParse | pdf_statement_reader.py:30-34 | the result comes from the first format that parses, and is None exactly when none does |
| PdfStatementReader.StandardizeDate | pdf_statement_reader.py:24-38 | None for a non-string or "nan"; otherwise the first of the five formats that parses the stripped text, and always a valid date |
| PdfStatementReader.MonthFirstExample | pdf_statement_reader.py:30 | "05/06/2024" is read month first, as May 6 |
| PdfStatementReader.StandardizeAmount | pdf_statement_reader.py:40-53 | None for a non-string or "nan"; otherwise `float` of the text with `$` and `,` removed and parentheses turned into a minus sign |
| PdfStatementReader.ParenthesesNegate | pdf_statement_reader.py:48-49 | an amount in parentheses reads as the negation of the bare amount |
| PdfStatementReader.ReadStatement | pdf_statement_reader.py:55-74 | the extracted rows when the bank is recognised and extraction succeeds; an empty table otherwise |
| ChaseStatementReader.SearchLeftmost | chase_statement_reader.py:25-26 | `re.search` semantics: no result exactly when the pattern matches nowhere, otherwise the match at the leftmost position where it matches |
| ChaseStatementReader.SearchRange | chase_statement_reader.py:23-26 | a found date range leaves at least two digits for the closing year |
| Text.WordsAreWords | chase_statement_reader.py:69 | every part of `split()` is non-empty and free of blanks |
| ChaseStatementReader.PeriodAtStart | chase_statement_reader.py:25-26 | a text that starts with a date range is matched at its start and yields the closing date's year field |
| ChaseStatementReader.ClosingYearTextAsWritten | chase_statement_reader.py:25 | group 4, the alternation of two or four digits, always captures exactly two digits |
| ChaseStatementReader.StatementYearAsWritten | chase_statement_reader.py:17-45 | the year as coded: the current year without a match, otherwise 2000 plus a two-digit number |
| ChaseStatementReader.AsWrittenTruncatesYear | chase_statement_reader.py:31-35 | as coded, the year is always 2000 plus the first two digits of the closing year |
| ChaseStatementReader.FourDigitPeriodExample | chase_statement_reader.py:24-37 | "11/16/2025 - 12/15/2025" gives 2020 as coded and 2025 as intended |
| ChaseStatementReader.StatementYear | chase_statement_reader.py:17-45 | the current year when the first page has no text or no date range |
| ChaseStatementReader.StatementYearReadsClosingYear | chase_statement_reader.py:28-39 | a four-digit closing year is taken as is, and a two-digit one is 2000 plus its value |
| ChaseStatementReader.ParseLine | chase_statement_reader.py:62-89 | a record is produced only for a line without the header texts, starting with MM/DD, with at least three words and a strict amount, and its amount is that amount's value |
| ChaseStatementReader.ParseLineAccepts | chase_statement_reader.py:63-89 | every such line is accepted, with the date completed by the statement year, the middle words as description and the last word as amount |
| ChaseStatementReader.CoffeeLineExample | chase_statement_reader.py:67-89 | "12/15 STARBUCKS COFFEE 4.75" in 2024 becomes a Chase row of 4.75 on 2024-12-15 |
| ChaseStatementReader.TotalLineExample | chase_statement_reader.py:67 | a line not starting with a date gives no row |
| ChaseStatementReader.ScanLines | chase_statement_reader.py:60-92 | at most one row per line |
| ChaseStatementReader.ScanPagesBound | chase_statement_reader.py:56-92 | all pages together give at most one row per line |
| ChaseStatementReader.SortByDate | chase_statement_reader.py:94-99 | the rows sorted by date and a permutation of the input |
| ChaseStatementReader.PageTexts | chase_statement_reader.py:56-57 | every page's text in order, or nothing when a page has none |
| ChaseStatementReader.ScanPage | chase_statement_reader.py:57-92 | the loop over one page's lines gives exactly the rows of its lines, in order |
| ChaseStatementReader.ScanStatement | chase_statement_reader.py:56-101 | for a given year, fails exactly when a page has no text (AttributeError) or a row's date lies outside pandas' timestamp range 1677-09-22..2262-04-11 (line 97, ValueError); otherwise all pages' rows for that year, sorted by date |
| ChaseStatementReader.ExtractTransactionsAsWritten | chase_statement_reader.py:47-101 | as coded: fails exactly when a page has no text (AttributeError) or a row's date lies outside pandas' timestamp range (line 97, ValueError); otherwise all pages' rows for the year of the year extraction as coded, sorted by date |
| ChaseStatementReader.ExtractTransactions | chase_statement_reader.py:47-101 | with the closing year read in full: fails exactly when a page has no text (AttributeError) or a row's date lies outside pandas' timestamp range (line 97, ValueError); otherwise all pages' rows for that year, sorted by date |
| ChaseStatementReader.ExtractedRows | chase_statement_reader.py:94-99 | the extracted table is sorted, loses and adds no row, and has at most one row per line |
| Numbers.StrictAmountParses | chase_statement_reader.py:80-87 | an amount matching `^-?\d+\.\d{2}$` converts with `float` to its decimal value |
| Dates.StrptimeFields | pdf_statement_reader.py:32 | `strptime` reads the three fields of a well-formed text by the format's directives, and gives a date exactly when that date exists |
| Dates.MonthDayYearOf | pdf_statement_reader.py:30-32 | `%m/%d/%Y` on a month, an unpadded day and a four-digit year reads the date they spell when it exists |
| Dates.StrftimeFields | citi_transactions.py:107 | `%Y-%m-%d %H:%M:%S` writes a 19-character text whose fields read back as the timestamp's |
| Dates.StrftimeInjective | citi_transactions.py:107 | two timestamps written as the same text are equal |
| Dates.ToTimestamp | citi_transactions.py:66 | a date converts to a midnight timestamp exactly when it lies within pandas' timestamp range |
| Records.CurrencyExtendsNumeric | apple_transactions.py:76-82 | removing `$` and `,` before `pd.to_numeric` only accepts more cells and never changes a value that converted already |
| Records.CurrencyValueExample | apple_transactions.py:81-82 | "$1,234.56" converts to 1234.56 after the clean-up and not without it |
| Records.MapAll | chase_transactions.py:72-74 | a column converts exactly when every cell converts, and then cell by cell in order |
| Records.Stamp | chase_transactions.py:33 | every row of a file gets the processor's person, or stays as read when nothing is stamped |
| Records.FileList.Remove | chase_transactions.py:37-38 | `list.remove`: the first occurrence goes and the result says whether there was one |
| Records.RemoveFirst | chase_transactions.py:38 | removing drops one element when present and nothing otherwise, and adds nothing |
| Records.RemoveFirstAfter | chase_transactions.py:38 | the first occurrence is the one removed |
| Records.Run | chase_transactions.py:30-38 | over an aliased list the loop iterates the list it shrinks; over a copy it iterates the paths given |
| Records.RunReadsReadable | chase_transactions.py:30-34 | every file the loop reads is readable |
| Records.ReadLoop | chase_transactions.py:29-38 | the loop reads the files the run reads, shrinks `processed_files` as the run does, and concatenates their stamped rows |
| Records.ReadAt | chase_transactions.py:30-38 | one turn of the loop: the path is read, or on a failure taken out of `processed_files` (the list iterated when both are one list), or the removal raises; each outcome is the next step of the whole run |
| Records.ReadFiles | chase_transactions.py:21-42 | a ValueError when no file could be read; otherwise the stamped rows of the files read, in order |
| Records.CopiedRunKeepsReadFiles | add_transactions.py:194 | with the paths copied, the loop never raises, visits every path, reads exactly the readable paths in list order (`Readable`), and `processed_files` ends as exactly those files |
| Records.CopyReadsReadable | chase_transactions.py:29-38 | on a copied list, from any position on, the run reads exactly the readable paths that remain, in order |
| Records.AliasedRunSkipsNext | add_transactions.py:194 | as coded, an unreadable first file makes the loop skip the second, which stays listed and is never read |
| Records.CopiedRunReadsBoth | add_transactions.py:194 | with a copy, both readable files are read and only the unreadable one is dropped |
| Records.PrepareRecords | chase_transactions.py:79-98 | a ValueError without data; otherwise one record per row, in order |
| NameCache.Cache.Put | add_transactions.py:79 | caching a key keeps the cache well formed |
| NameCache.CacheOf | add_transactions.py:41 | the keys are exactly the lower-cased names of the table |
| NameCache.CacheOfLastWins | add_transactions.py:41 | a lower-cased name maps to the id of its last row |
| NameCache.CacheOfSnoc | add_transactions.py:41 | one more row is one more put |
| ChaseTransactions.CategoryRewrite | chase_transactions.py:76 | "Food & Drink" becomes "Restaurants", the empty category becomes "Payment", everything else is kept, and neither old value survives |
| ChaseTransactions.CleanData | chase_transactions.py:44-77 | a ValueError without data or when a date or amount does not convert; otherwise each row with its date, its negated amount, its rewritten category, and its merchant and person as read |
| ChaseTransactions.PrepareDataForDb | chase_transactions.py:79-98 | a ValueError without data; otherwise one record per row with its values, person and "Chase Card" |
| ChaseTransactions.RecordsCarryPersonAndNegatedAmount | chase_transactions.py:33-98 | every record read, cleaned and prepared carries the processor's person, the negated amount and "Chase Card" |
| CitiTransactions.CleanData | citi_transactions.py:43-92 | as intended: a ValueError without data or when a date or amount does not convert; otherwise every row converted, in order |
| CitiTransactions.CleanDataRows | citi_transactions.py:66-81 | each cleaned row has the parsed date, the negated currency amount, the merchant, the processor's person, and the category or "Uncategorized" |
| CitiTransactions.CleanRowFields | citi_transactions.py:66-81 | a converted row has exactly the fields above |
| CitiTransactions.ParseDateMidnight | citi_transactions.py:66 | `%m/%d/%Y` gives a timestamp at midnight of the parsed date |
| CitiTransactions.PrepareDataForDb | citi_transactions.py:94-116 | a ValueError without data; otherwise one record per row with the date written `%Y-%m-%d %H:%M:%S`, its values and "Citi Card" |
| CitiTransactions.RecordsComplete | citi_transactions.py:75-81 | every Citi record has a category and the processor's person |
| AppleTransactions.ParseRows | apple_transactions.py:61-82 | a ValueError without data or when a date or amount does not convert; otherwise every row, amount unchanged in sign |
| AppleTransactions.ParseRowFields | apple_transactions.py:65-82 | a parsed row keeps the merchant, category and buyer as read |
| AppleTransactions.ReclassifiedCategory | apple_transactions.py:88-97 | a row's category ends as a cache key or as it was; nothing else changes; a known category is left alone |
| AppleTransactions.Reclassify | apple_transactions.py:88-97 | the loop re-classifies every row exactly as the single-row rule says |
| AppleTransactions.CleanData | apple_transactions.py:50-108 | the parse error or the `add_category` error is the result; otherwise every categorised row re-classified |
| AppleTransactions.CleanedCategories | apple_transactions.py:88-97 | after cleaning, a category unknown to the cache is one `add_category` gave |
| AppleTransactions.PrepareDataForDb | apple_transactions.py:110-132 | a ValueError without data; otherwise one record per row with the formatted date, the processor's person rather than the buyer, and "Apple Card" |
| AmexTransactions.ParseRows | amex_transactions.py:56-72 | a ValueError without data or when a date or amount does not convert; otherwise every row, amount unchanged |
| AmexTransactions.ParseRowFields | amex_transactions.py:69-72 | a parsed row keeps the date, amount and merchant as read |
| AmexTransactions.Select | amex_transactions.py:78-83 | the column selection drops the person and nothing else |
| AmexTransactions.CleanData | amex_transactions.py:46-85 | the parse error or the `add_category` error is the result; otherwise the categorised rows without person |
| AmexTransactions.CleanedRowsHaveNoPerson | amex_transactions.py:78-83 | no cleaned Amex row carries a person |
| AmexTransactions.PrepareDataForDb | amex_transactions.py:87-106 | a ValueError without data; otherwise one record per row with the processor's person and "Amex Card" |
| AddTransactions.Load | add_transactions.py:33-49 | every cache is rebuilt from its table |
| AddTransactions.LoadSameTables | add_transactions.py:33-49 | loading depends only on the three reference tables |
| AddTransactions.GetOrCreate | add_transactions.py:70-104 | afterwards the lower-cased name is cached with the id returned |
| AddTransactions.GetOrCreateHit | add_transactions.py:73 | a cached name returns its id and changes nothing |
| AddTransactions.GetOrCreateMiss | add_transactions.py:73-79 | an unknown name gets the next id, one new row holding the name as given, and one new cache entry; nothing else changes |
| AddTransactions.GetOrCreateIdempotent | add_transactions.py:72-80 | asking again for the name, in any case, returns the same id and changes nothing |
| AddTransactions.GetOrCreateCoherent | add_transactions.py:70-104 | caches that match their tables still match them afterwards |
| AddTransactions.BatchError | add_transactions.py:147-171 | the batch succeeds exactly when every record has a category and a person and no insert is rejected; the only errors are AttributeError and the database error |
| AddTransactions.InsertStores | add_transactions.py:149-171 | a successful insert keeps every cached id and every stored row, and stores the record |
| AddTransactions.InsertPresent | add_transactions.py:163 | inserting a record already stored changes nothing (ON CONFLICT DO NOTHING) |
| AddTransactions.InsertCoherent | add_transactions.py:149-171 | an insert keeps the caches matching the tables |
| AddTransactions.BatchStores | add_transactions.py:147-171 | a successful batch keeps everything stored before and stores every record |
| AddTransactions.BatchCoherent | add_transactions.py:147-171 | the caches stay equal to what loading the tables gives, through every insert of a batch, including one that stops at an error |
| AddTransactions.BatchPresent | add_transactions.py:147-171 | a batch of records all stored already changes nothing |
| AddTransactions.AddTwiceSameAsOnce | add_transactions.py:129-179 | adding the same batch again after a commit stores nothing new and hands out no id |
| AddTransactions.BatchUnion | add_transactions.py:129-179 | a committed batch keeps every earlier transaction and holds every record of the batch |
| AddTransactions.FileSystem.Remove | add_transactions.py:185-188 | `os.remove` deletes the path; it fails with OSError exactly when the path is absent |
| AddTransactions.Processor.constructor | add_transactions.py:14-31 | the category cache is loaded from the database when it can be reached and empty otherwise; the other caches and `processed_files` are empty |
| AddTransactions.Processor.LoadReferenceData | add_transactions.py:33-49 | the three caches become those of the given tables |
| AddTransactions.Processor.SetCache | add_transactions.py:79 | one cache is replaced and the others kept |
| AddTransactions.Processor.GetOrCreateId | add_transactions.py:70-104 | the fields and the id sequence move exactly as the get-or-create specification says |
| AddTransactions.Processor.InsertTransaction | add_transactions.py:147-171 | one loop pass changes the caches, the id sequence and the pending tables exactly as the insert specification says |
| AddTransactions.Processor.AddToDatabase | add_transactions.py:129-179 | unreachable gives a database error; otherwise the caches and ids follow the batch; the tables are committed exactly when the batch succeeds and untouched otherwise |
| AddTransactions.Processor.DeleteProcessedFiles | add_transactions.py:181-188 | exactly the listed files are removed from the disk, and a failed removal stops nothing |
| AddTransactions.Processor.StartRunAsWritten | add_transactions.py:194 | as coded, `processed_files` becomes the caller's list itself |
| AddTransactions.Processor.StartRun | add_transactions.py:194 | `processed_files` becomes a fresh copy of the paths |
| AddTransactions.Processor.CleanAndPrepare | add_transactions.py:197-201 | per issuer, the cleaner's error or exactly that issuer's record for every cleaned row, which is `Prepared` of the rows and the current category cache |
| AddTransactions.Processor.ReadAndPrepare | add_transactions.py:194-201 | a ValueError when no file can be read; otherwise the records cleaning and preparing make of the stamped rows of exactly the files read, in order; afterwards `processed_files` lists exactly the files read and the caller's list is untouched |
| AddTransactions.Processor.Store | add_transactions.py:203-208 | the run stores exactly when the database is reachable and accepts the whole batch, and then commits it and deletes the files; otherwise the connection's or the failed statement's error, with tables and disk as they were |
| AddTransactions.Processor.ProcessTransactions | add_transactions.py:190-215 | with the paths copied: an error or nothing to add leaves tables and disk unchanged; a cleaning error is the result; non-empty prepared records are stored exactly when the database is reachable and accepts the batch, which commits them and deletes exactly the files read; otherwise the connection's or statement's error |
| AddTransactions.Processor.ProcessTransactionsAsWritten | add_transactions.py:190-215 | as coded, with the caller's list aliased: a cleaning error is the result, empty records are nothing to add, and non-empty records are stored exactly when the database is reachable and accepts the batch; a stored run commits the records prepared from the files read and deletes every file still listed, read or not |
| AddTransactions.AsWrittenDeletesSkippedFile | add_transactions.py:194 | as coded, for [a, b, c] with a unreadable: only c's rows are read, yet both b and c are deleted after a commit |
| AddTransactions.Processor.GetCategoriesFromDb | add_transactions.py:217-233 | the category names in table order, or none when the database cannot be reached |
| RepairDb.CategoryMap | fix_missing_categories.py:23-30 | the keys are exactly the category names, and a repeated name maps to the id of its last row |
| RepairDb.NamesAreKeys | fix_missing_categories.py:28-29 | a name is in the list exactly when it is a key of the map |
| RepairDb.WithCategory | fix_missing_categories.py:32-40 | exactly the rows with the given category id, or with none |
| RepairDb.UpdateCount | fix_missing_categories.py:92-97 | the count of updates is at most the number of rows worked on |
| RepairDb.RepairedPointwise | fix_missing_categories.py:85-100 | the pass changes exactly the rows it works on, each to its resolved category, and keeps every other row |
| RepairDb.RepairPass | fix_missing_categories.py:85-100 | a row changes exactly when it had the selected category and its merchant resolves to a known name, and then to that name's id |
| RepairDb.StillMissing | fix_missing_categories.py:85-100 | afterwards the rows without category are exactly those that had none and resolved to no known name |
| FixMissingCategories.RepairLoop | fix_missing_categories.py:83-100 | the loop stops exactly when an UPDATE fails; otherwise the table is the repaired one and the count is the number of updates |
| FixMissingCategories.Run | fix_missing_categories.py:51-111 | nothing without a model, a connection or rows lacking a category; otherwise the repaired table is committed exactly when no UPDATE fails, and it is rolled back otherwise |
| FixMissingCategories.CommittedLeavesUnguessed | fix_missing_categories.py:85-103 | after a committed run a row lacks a category exactly when it lacked one and its guess is not a category |
| FixMissingCategories.SetCategoriesAreGuessed | fix_missing_categories.py:89-97 | every category set is the id of a name the model chose among the database's categories |
| UpdateCategories.Resolve | database_fixes/update_categories.py:140-152 | the vendor table's category when it gives a non-empty one, otherwise the model's guess, which is a category or "Other" |
| UpdateCategories.VendorFirst | database_fixes/update_categories.py:141-146 | where the vendor table decides, the model is not consulted |
| UpdateCategories.VendorCount | database_fixes/update_categories.py:143-146 | the vendor counter counts at most one per row |
| UpdateCategories.AiCount | database_fixes/update_categories.py:151-152 | the model counter counts at most one per row |
| UpdateCategories.SourceCountsBounded | database_fixes/update_categories.py:135-152 | vendor and model counts together never exceed the rows processed |
| UpdateCategories.SkippedVendorHitCounted | database_fixes/update_categories.py:143-163 | a vendor hit whose category is not in the database is counted but updates nothing |
| UpdateCategories.FirstNamed | database_fixes/update_categories.py:54-55 | `fetchone` takes the first category with the target name |
| UpdateCategories.Selected | database_fixes/update_categories.py:42-75 | with a target, exactly the rows in the first category of that name, or none if there is no such category; otherwise exactly the rows without category |
| UpdateCategories.ConfirmationExamples | database_fixes/update_categories.py:129 | "Y" confirms and "yes" does not |
| UpdateCategories.RepairLoop | database_fixes/update_categories.py:137-163 | the loop stops exactly when an UPDATE fails; otherwise the table is the repaired one and the three counters have their specified values |
| UpdateCategories.RepairAndCommit | database_fixes/update_categories.py:135-173 | rolled back, with the table unchanged, exactly when an UPDATE fails; otherwise committed with the repaired table and the three counters |
| UpdateCategories.Run | database_fixes/update_categories.py:86-176 | nothing without a model, a connection, selected rows or a needed confirmation; otherwise committed exactly when no UPDATE fails, with the repaired table and the counters |
| UpdateCategories.TargetRunChangesOnlyTarget | database_fixes/update_categories.py:52-65 | a target run changes only rows of the target category, each to its merchant's resolved category |
| FixFutureDates.DayExistsIn2024 | database_fixes/fix_future_dates.py:73 | every day of 2025 exists in 2024, so `replace(year=2024)` cannot fail |
| FixFutureDates.Moved | database_fixes/fix_future_dates.py:71-75 | the year becomes 2024; month, day, time and all other columns are kept |
| FixFutureDates.FixTransactionDates | database_fixes/fix_future_dates.py:49-84 | exactly the 2025 rows, each moved to 2024; nothing when there are none |
| FixFutureDates.FixOfOne | database_fixes/fix_future_dates.py:65-84 | a single row gives its moved row when it is of 2025, and nothing otherwise |
| FixFutureDates.FixConcat | database_fixes/fix_future_dates.py:65-84 | the boolean mask keeps row order: the result over two runs of rows is the two results in order, so there is one moved row per 2025 row, in input order |
| FixFutureDates.FixIsFinal | database_fixes/fix_future_dates.py:65-84 | a second run over the corrected rows finds nothing to correct |
| FixFutureDates.OverlayPointwise | database_fixes/fix_future_dates.py:102-115 | with distinct ids, each row's id gets its new date, every other id keeps its own, and no id is added |
| FixFutureDates.Overlay | database_fixes/fix_future_dates.py:102-115 | the UPDATEs change dates only: no id is added or dropped |
| FixFutureDates.UpdateTransactionsInDb | database_fixes/fix_future_dates.py:86-127 | nothing for no rows; a database error without a connection or when an UPDATE fails, with the table unchanged; otherwise every corrected date is written |
| FixFutureDates.Run | database_fixes/fix_future_dates.py:129-166 | nothing without future rows, without 2025 rows or without a "y"/"yes" answer; otherwise the corrected dates are written exactly when no UPDATE fails |

## Left out

- Text: lower-casing, stripping and digits cover ASCII, plus the separators Python treats as whitespace; there is no Unicode case mapping.
- Numbers: `float()` and `pd.to_numeric` accept only plain decimals (an optional sign, digits and an optional fraction); exponents, `inf`, `nan` and underscores are not accepted. Amounts are exact reals, not binary floating point.
- pandas' date inference in `pd.to_datetime` without a format is a function parameter. So is `read_csv`, which gives the typed rows of a file or fails.
- `add_category` is not defined anywhere in the AI helper. It is a function parameter that gives the categorised rows or an error.
- The chat model, which is the network, is a function parameter from messages to a reply or an exception.
- VendorMapping.ExactKeyFirst: holds for any table whose keys are distinct (`UniqueKeys`), as every Python dict's are. That the 84 literal keys of `VENDOR_CATEGORY_MAP` are pairwise distinct is not proved: it comes to about 3,500 string inequalities.
- psycopg2: a failed connection is a boolean. A failed INSERT or UPDATE is a caller-given predicate over the records or ids it rejects. That predicate applies only to the transaction INSERT; the reference-row INSERTs of `get_or_create_id` (add_transactions.py:70-104) always succeed in the model. SQL text, cursors and `conn.close()` are not modelled.
- SELECT results are taken in table order.
- The server-side conversion of inserted dates is not modelled: a stored row keeps the date as the record carries it, a timestamp or its `%Y-%m-%d %H:%M:%S` text.
- A missing column (KeyError), mixed-type columns and NaN amounts are not modelled: each issuer's rows are typed.
- Printing and the messages are not modelled.
- The exception handler around each statement line is not modelled.
- `process_transactions` wraps every error in a generic Exception. The model keeps the original error kind.
- AddTransactions.FileSystem.Remove: `os.remove` fails only for a missing file. Permission errors are not modelled.
- `get_future_transactions` is not modelled: its clock and ORDER BY are outside the model, and its rows are a parameter.
- `cursor.rowcount` after `executemany` is not modelled.
- FixFutureDates.Run: returns the error that `update_transactions_in_db` re-raises, where the script lets it escape.
- ChaseStatementReader.SortByDate: the rows are sorted by date, but the model does not claim pandas' tie order among rows with the same date. The final `strftime('%Y-%m-%d')` of the date column is the date itself.
- pdfplumber's page text is a parameter (an optional string per page). `identify_bank` is a parameter of `ReadStatement`.
- Dates.ToTimestamp: pandas' timestamp bounds are taken at whole days.
- main.py (file discovery and dispatch to the processors) is not part of this model.
- ChaseStatementReader.ExtractTransactions: composes the corrected year reading (`StatementYear`); the code as written, with line 53's two-digit truncation, is `ExtractTransactionsAsWritten`.
- AddTransactions.Processor.ProcessTransactions: composes the corrected line 194, a copy of the paths (`StartRun`), as does `ReadAndPrepare`; the code as written, with the caller's list aliased, is `ProcessTransactionsAsWritten`.
- AddTransactions.Database: one id counter stands in for the three serial sequences of the categories, persons and account-types tables. Ids stay unique within each table and are never reused after a rollback, but the model does not claim the exact id values PostgreSQL would hand out.
- CitiTransactions: `citi_transactions.py` as shipped does not compile. Line 69 ends inside an unterminated string literal, so importing the module (main.py:4 does) raises SyntaxError. CitiTransactions.CleanData models the evidently intended cleaner, which removes `$` and `,` before `pd.to_numeric`; the failed import itself is not modelled.

## Findings

| source | as written | input that shows it | evidently intended | confidence | as-written member | corrected member |
|---|---|---|---|---|---|---|
| chase_statement_reader.py:25-37 | group 4, the alternation of two or four digits, tries two digits first and nothing after it forces more, so a four-digit closing year is cut to its first two digits | first page "11/16/2025 - 12/15/2025" gives the year 2020 | take the four-digit year, 2025 | not executed | ChaseStatementReader.StatementYearAsWritten | ChaseStatementReader.StatementYear |
| add_transactions.py:194 | `processed_files` aliases the caller's `file_paths`, so `read_files` removes from the list it is iterating | files [a, b, c] with a unreadable: b is skipped, never read, stays listed and is deleted after the commit | iterate a copy: read b and c, delete only them | not executed | AddTransactions.AsWrittenDeletesSkippedFile | Records.CopiedRunKeepsReadFiles |
