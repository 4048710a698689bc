/** `AddTransactions`, the base of every card processor: the reference caches
    and their get-or-create, the batch insert with commit or rollback, the
    deletion of processed files, and `process_transactions`, which chains
    reading, cleaning, preparing and storing.

    The database is the tables of the budget_app schema this code touches.
    A connection works on its own uncommitted copy of them, which a commit
    makes the database's and a rollback or a close without commit throws
    away; the id sequences are outside transactions and never go back. */
module AddTransactions {
  import opened Wrappers
  import opened Text
  import opened NameCache
  import opened Records
  import opened AiHelper
  import ChaseTransactions
  import CitiTransactions
  import AppleTransactions
  import AmexTransactions

  // ---------------------------------------------------------------------
  // The database and the caches
  // ---------------------------------------------------------------------

  /** The three reference tables: spending_categories, persons, account_type. */
  datatype Kind = CategoryKind | PersonKind | AccountTypeKind

  /** A row of budget_app.transactions, by the six columns the insert sets. */
  datatype StoredRow = StoredRow(amount: real, merchant: string, categoryId: nat, personId: nat, date: RecordDate, accountTypeId: nat)

  /** The tables, reference tables in the order their rows were added. The
      transactions are a set: ON CONFLICT ... DO NOTHING under the
      `unique_transaction` constraint, taken here over the six inserted
      columns, never stores the same row twice. */
  datatype DbState = DbState(categories: seq<Named>, persons: seq<Named>, accountTypes: seq<Named>, transactions: set<StoredRow>) {
    function Table(kind: Kind): seq<Named> {
      match kind
      case CategoryKind => categories
      case PersonKind => persons
      case AccountTypeKind => accountTypes
    }

    /** `INSERT INTO <table> (<name column>) VALUES (name)`. */
    function Append(kind: Kind, row: Named): DbState {
      match kind
      case CategoryKind => this.(categories := categories + [row])
      case PersonKind => this.(persons := persons + [row])
      case AccountTypeKind => this.(accountTypes := accountTypes + [row])
    }
  }

  /** `_category_cache`, `_person_cache` and `_account_type_cache`. */
  datatype Caches = Caches(categories: Cache, persons: Cache, accountTypes: Cache) {
    function Get(kind: Kind): Cache {
      match kind
      case CategoryKind => categories
      case PersonKind => persons
      case AccountTypeKind => accountTypes
    }

    function With(kind: Kind, c: Cache): Caches {
      match kind
      case CategoryKind => this.(categories := c)
      case PersonKind => this.(persons := c)
      case AccountTypeKind => this.(accountTypes := c)
    }
  }

  /** `_load_reference_data`: every cache rebuilt from its table. */
  function Load(s: DbState): (c: Caches)
    ensures forall kind :: c.Get(kind) == CacheOf(s.Table(kind))
  {
    Caches(CacheOf(s.categories), CacheOf(s.persons), CacheOf(s.accountTypes))
  }

  /** What `add_to_database` works with: the connection's uncommitted tables,
      the processor's caches, and the next id the sequences hand out. */
  datatype Session = Session(state: DbState, caches: Caches, nextId: nat)

  /** The caches say exactly what the tables they were loaded from say. */
  ghost predicate Coherent(s: Session) {
    s.caches == Load(s.state)
  }

  // ---------------------------------------------------------------------
  // get-or-create
  // ---------------------------------------------------------------------

  /** `_get_or_create_category`, `_get_or_create_person` and
      `_get_or_create_account_type`: the cached id of the lowercased name, or
      else a new row holding the name as given, whose id is then cached under
      the lowercased name. Afterwards the name's key maps to the id returned. */
  function GetOrCreate(s: Session, kind: Kind, name: string): (r: (Session, nat))
    ensures Lower(name) in r.0.caches.Get(kind).ids && r.0.caches.Get(kind).ids[Lower(name)] == r.1
  {
    var key, c := Lower(name), s.caches.Get(kind);
    if key in c.ids then (s, c.ids[key])
    else
      var id := s.nextId;
      (Session(s.state.Append(kind, Named(id, name)), s.caches.With(kind, c.Put(key, id)), id + 1), id)
  }

  /** A cache hit returns the cached id and inserts nothing. */
  lemma GetOrCreateHit(s: Session, kind: Kind, name: string)
    requires Lower(name) in s.caches.Get(kind).ids
    ensures GetOrCreate(s, kind, name) == (s, s.caches.Get(kind).ids[Lower(name)])
  {
  }

  /** A miss inserts the name as given exactly once, with a fresh id, caches
      that id under the lowercased name, and changes no other table, cache
      or key. */
  lemma GetOrCreateMiss(s: Session, kind: Kind, name: string)
    requires Lower(name) !in s.caches.Get(kind).ids
    ensures var (s1, id) := GetOrCreate(s, kind, name);
            id == s.nextId && s1.nextId == s.nextId + 1
            && s1.state.Table(kind) == s.state.Table(kind) + [Named(id, name)]
            && s1.caches.Get(kind).ids == s.caches.Get(kind).ids[Lower(name) := id]
            && s1.state.transactions == s.state.transactions
            && forall other :: other != kind ==>
                 s1.state.Table(other) == s.state.Table(other) && s1.caches.Get(other) == s.caches.Get(other)
  {
  }

  /** A second call with the name in any case returns the same id and
      changes nothing. */
  lemma GetOrCreateIdempotent(s: Session, kind: Kind, name: string, variant: string)
    requires Lower(variant) == Lower(name)
    ensures var (s1, id) := GetOrCreate(s, kind, name);
            GetOrCreate(s1, kind, variant) == (s1, id)
  {
  }

  /** Loaded caches stay true to the tables through get-or-create. */
  lemma GetOrCreateCoherent(s: Session, kind: Kind, name: string)
    requires Coherent(s)
    ensures Coherent(GetOrCreate(s, kind, name).0)
  {
    var key, c := Lower(name), s.caches.Get(kind);
    if key !in c.ids {
      var id := s.nextId;
      var s1 := GetOrCreate(s, kind, name).0;
      assert s1.caches == s.caches.With(kind, c.Put(key, id));
      assert s1.state == s.state.Append(kind, Named(id, name));
      CacheOfSnoc(s.state.Table(kind), Named(id, name));
      match kind
      case CategoryKind =>
        assert s1.state.categories == s.state.categories + [Named(id, name)];
      case PersonKind =>
        assert s1.state.persons == s.state.persons + [Named(id, name)];
      case AccountTypeKind =>
        assert s1.state.accountTypes == s.state.accountTypes + [Named(id, name)];
    }
  }

  // ---------------------------------------------------------------------
  // add_to_database
  // ---------------------------------------------------------------------

  /** Whether the database raises a psycopg2.Error on inserting this record. */
  type Rejects = TransactionRecord -> bool

  /** The row a record is stored as, once its names have ids. */
  function RowOf(t: TransactionRecord, categoryId: nat, personId: nat, accountTypeId: nat): StoredRow {
    StoredRow(t.amount, t.merchant, categoryId, personId, t.date, accountTypeId)
  }

  /** One pass of the loop of lines 147-171. A missing category or person is a
      None whose `.lower()` raises AttributeError; a rejected insert raises a
      psycopg2.Error. The session is returned as it stands when the error is
      raised: ids handed out and cache entries made stay. */
  function Insert(s: Session, t: TransactionRecord, rejects: Rejects): (Session, Option<Exception>) {
    if t.category.None? then (s, Some(AttributeError))
    else
      var (s1, categoryId) := GetOrCreate(s, CategoryKind, t.category.value);
      if t.person.None? then (s1, Some(AttributeError))
      else
        var (s2, personId) := GetOrCreate(s1, PersonKind, t.person.value);
        var (s3, accountTypeId) := GetOrCreate(s2, AccountTypeKind, t.accountType);
        if rejects(t) then (s3, Some(DatabaseError))
        else
          var row := RowOf(t, categoryId, personId, accountTypeId);
          (s3.(state := s3.state.(transactions := s3.state.transactions + {row})), None)
  }

  /** The loop of lines 147-171 from its first record on, stopping at the first error. */
  function Batch(s: Session, ts: seq<TransactionRecord>, rejects: Rejects): (Session, Option<Exception>)
    decreases |ts|
  {
    if ts == [] then (s, None)
    else
      var (s1, e) := Insert(s, ts[0], rejects);
      if e.Some? then (s1, e) else Batch(s1, ts[1..], rejects)
  }

  /** The loop stops only at a record without a category or person, or at a
      rejected one, and otherwise runs through every record. */
  lemma {:induction false} BatchError(s: Session, ts: seq<TransactionRecord>, rejects: Rejects)
    ensures var e := Batch(s, ts, rejects).1;
            e.None? <==> forall i :: 0 <= i < |ts| ==> ts[i].category.Some? && ts[i].person.Some? && !rejects(ts[i])
    ensures Batch(s, ts, rejects).1 in {None, Some(AttributeError), Some(DatabaseError)}
    decreases |ts|
  {
    if ts != [] {
      var (s1, e) := Insert(s, ts[0], rejects);
      if e.None? {
        BatchError(s1, ts[1..], rejects);
        assert forall i :: 1 <= i < |ts| ==> ts[i] == ts[1..][i - 1];
      }
    }
  }

  /** A record is already stored: its names are cached and its row is in the table. */
  ghost predicate Present(s: Session, t: TransactionRecord, rejects: Rejects) {
    t.category.Some? && t.person.Some? && !rejects(t)
    && Lower(t.category.value) in s.caches.categories.ids
    && Lower(t.person.value) in s.caches.persons.ids
    && Lower(t.accountType) in s.caches.accountTypes.ids
    && RowOf(t, s.caches.categories.ids[Lower(t.category.value)], s.caches.persons.ids[Lower(t.person.value)],
             s.caches.accountTypes.ids[Lower(t.accountType)]) in s.state.transactions
  }

  /** `s1` extends `s`: every cached key keeps its id and no stored row goes away. */
  ghost predicate Extends(s: Session, s1: Session) {
    (forall kind, k :: k in s.caches.Get(kind).ids ==>
       k in s1.caches.Get(kind).ids && s1.caches.Get(kind).ids[k] == s.caches.Get(kind).ids[k])
    && s.state.transactions <= s1.state.transactions
  }

  lemma ExtendsPresent(s: Session, s1: Session, t: TransactionRecord, rejects: Rejects)
    requires Extends(s, s1) && Present(s, t, rejects)
    ensures Present(s1, t, rejects)
  {
    assert s.caches.categories == s.caches.Get(CategoryKind) && s1.caches.categories == s1.caches.Get(CategoryKind);
    assert s.caches.persons == s.caches.Get(PersonKind) && s1.caches.persons == s1.caches.Get(PersonKind);
    assert s.caches.accountTypes == s.caches.Get(AccountTypeKind) && s1.caches.accountTypes == s1.caches.Get(AccountTypeKind);
  }

  lemma GetOrCreateExtends(s: Session, kind: Kind, name: string)
    ensures Extends(s, GetOrCreate(s, kind, name).0)
  {
  }

  lemma ExtendsTrans(s: Session, s1: Session, s2: Session)
    requires Extends(s, s1) && Extends(s1, s2)
    ensures Extends(s, s2)
  {
  }

  /** A successful insert stores the record and loses nothing. */
  lemma InsertStores(s: Session, t: TransactionRecord, rejects: Rejects)
    requires Insert(s, t, rejects).1.None?
    ensures Extends(s, Insert(s, t, rejects).0)
    ensures Present(Insert(s, t, rejects).0, t, rejects)
  {
    var (s1, categoryId) := GetOrCreate(s, CategoryKind, t.category.value);
    var (s2, personId) := GetOrCreate(s1, PersonKind, t.person.value);
    var (s3, accountTypeId) := GetOrCreate(s2, AccountTypeKind, t.accountType);
    GetOrCreateExtends(s, CategoryKind, t.category.value);
    GetOrCreateExtends(s1, PersonKind, t.person.value);
    GetOrCreateExtends(s2, AccountTypeKind, t.accountType);
    var s4 := Insert(s, t, rejects).0;
    assert s4.caches == s3.caches;
    assert s3.caches.Get(CategoryKind).ids[Lower(t.category.value)] == categoryId;
    assert s3.caches.Get(PersonKind).ids[Lower(t.person.value)] == personId;
  }

  /** Inserting a record that is already present changes nothing. */
  lemma InsertPresent(s: Session, t: TransactionRecord, rejects: Rejects)
    requires Present(s, t, rejects)
    ensures Insert(s, t, rejects) == (s, None)
  {
    assert s.caches.categories == s.caches.Get(CategoryKind);
    assert s.caches.persons == s.caches.Get(PersonKind);
    assert s.caches.accountTypes == s.caches.Get(AccountTypeKind);
    GetOrCreateHit(s, CategoryKind, t.category.value);
    GetOrCreateHit(s, PersonKind, t.person.value);
    GetOrCreateHit(s, AccountTypeKind, t.accountType);
    var row := RowOf(t, s.caches.categories.ids[Lower(t.category.value)], s.caches.persons.ids[Lower(t.person.value)],
                     s.caches.accountTypes.ids[Lower(t.accountType)]);
    assert s.state.transactions + {row} == s.state.transactions;
    assert s.state.(transactions := s.state.transactions) == s.state;
  }

  /** Tables decide the loaded caches. */
  lemma LoadSameTables(a: DbState, b: DbState)
    requires a.categories == b.categories && a.persons == b.persons && a.accountTypes == b.accountTypes
    ensures Load(a) == Load(b)
  {
  }

  lemma InsertCoherent(s: Session, t: TransactionRecord, rejects: Rejects)
    requires Coherent(s)
    ensures Coherent(Insert(s, t, rejects).0)
  {
    if t.category.Some? {
      var s1 := GetOrCreate(s, CategoryKind, t.category.value).0;
      GetOrCreateCoherent(s, CategoryKind, t.category.value);
      if t.person.Some? {
        var s2 := GetOrCreate(s1, PersonKind, t.person.value).0;
        GetOrCreateCoherent(s1, PersonKind, t.person.value);
        var s3 := GetOrCreate(s2, AccountTypeKind, t.accountType).0;
        GetOrCreateCoherent(s2, AccountTypeKind, t.accountType);
        InsertShape(s, t, rejects);
        var s4 := Insert(s, t, rejects).0;
        LoadSameTables(s4.state, s3.state);
      }
    }
  }

  /** Past both name checks, an insert is the three get-or-creates and at
      most a new stored row. */
  lemma InsertShape(s: Session, t: TransactionRecord, rejects: Rejects)
    requires t.category.Some? && t.person.Some?
    ensures var s1 := GetOrCreate(s, CategoryKind, t.category.value).0;
            var s2 := GetOrCreate(s1, PersonKind, t.person.value).0;
            var s3 := GetOrCreate(s2, AccountTypeKind, t.accountType).0;
            var s4 := Insert(s, t, rejects).0;
            s4 == s3.(state := s3.state.(transactions := s4.state.transactions))
  {
  }

  /** After a successful batch every record is present and nothing stored
      before is lost. */
  lemma {:induction false} BatchStores(s: Session, ts: seq<TransactionRecord>, rejects: Rejects)
    requires Batch(s, ts, rejects).1.None?
    ensures Extends(s, Batch(s, ts, rejects).0)
    ensures forall i :: 0 <= i < |ts| ==> Present(Batch(s, ts, rejects).0, ts[i], rejects)
    decreases |ts|
  {
    if ts != [] {
      var s1 := Insert(s, ts[0], rejects).0;
      var s2 := Batch(s1, ts[1..], rejects).0;
      assert Batch(s, ts, rejects).0 == s2;
      InsertStores(s, ts[0], rejects);
      BatchStores(s1, ts[1..], rejects);
      ExtendsTrans(s, s1, s2);
      ExtendsPresent(s1, s2, ts[0], rejects);
      forall i | 1 <= i < |ts| ensures Present(s2, ts[i], rejects) {
        assert ts[i] == ts[1..][i - 1];
      }
    }
  }

  /** Caches loaded from the tables stay so through a batch, whether it
      succeeds or stops at an error. */
  lemma {:induction false} BatchCoherent(s: Session, ts: seq<TransactionRecord>, rejects: Rejects)
    requires Coherent(s)
    ensures Coherent(Batch(s, ts, rejects).0)
    decreases |ts|
  {
    if ts != [] {
      InsertCoherent(s, ts[0], rejects);
      var s1 := Insert(s, ts[0], rejects).0;
      BatchCoherent(s1, ts[1..], rejects);
    }
  }

  /** A batch whose records are all present changes nothing. */
  lemma {:induction false} BatchPresent(s: Session, ts: seq<TransactionRecord>, rejects: Rejects)
    requires forall i :: 0 <= i < |ts| ==> Present(s, ts[i], rejects)
    ensures Batch(s, ts, rejects) == (s, None)
    decreases |ts|
  {
    if ts != [] {
      InsertPresent(s, ts[0], rejects);
      assert forall i :: 0 <= i < |ts[1..]| ==> ts[1..][i] == ts[i + 1];
      BatchPresent(s, ts[1..], rejects);
    }
  }

  /** The session `add_to_database` starts from: the committed tables and
      caches loaded from them. */
  function Start(committed: DbState, nextId: nat): Session {
    Session(committed, Load(committed), nextId)
  }

  /** Adding the same batch twice stores what adding it once stores: the
      second run starts from caches that already know every name and finds
      every row in place, so it inserts nothing and hands out no id. */
  lemma AddTwiceSameAsOnce(committed: DbState, nextId: nat, ts: seq<TransactionRecord>, rejects: Rejects)
    requires Batch(Start(committed, nextId), ts, rejects).1.None?
    ensures var once := Batch(Start(committed, nextId), ts, rejects).0;
            Batch(Start(once.state, once.nextId), ts, rejects) == (once, None)
  {
    var s := Start(committed, nextId);
    var once := Batch(s, ts, rejects).0;
    BatchStores(s, ts, rejects);
    BatchCoherent(s, ts, rejects);
    assert Start(once.state, once.nextId) == once;
    BatchPresent(once, ts, rejects);
  }

  /** On success the stored rows are the old ones plus one row per record,
      each under the ids its names have afterwards. */
  lemma BatchUnion(committed: DbState, nextId: nat, ts: seq<TransactionRecord>, rejects: Rejects)
    requires Batch(Start(committed, nextId), ts, rejects).1.None?
    ensures var once := Batch(Start(committed, nextId), ts, rejects).0;
            committed.transactions <= once.state.transactions
            && forall i :: 0 <= i < |ts| ==> Present(once, ts[i], rejects)
  {
    BatchStores(Start(committed, nextId), ts, rejects);
  }

  // ---------------------------------------------------------------------
  // The database, the disk and the processor
  // ---------------------------------------------------------------------

  /** The database server: the committed tables and the id sequences. */
  class Database {
    var committed: DbState
    var nextId: nat

    constructor (committed: DbState, nextId: nat)
      ensures this.committed == committed && this.nextId == nextId
    {
      this.committed := committed;
      this.nextId := nextId;
    }
  }

  /** The files on disk. */
  class FileSystem {
    var files: set<string>

    constructor (files: set<string>)
      ensures this.files == files
    {
      this.files := files;
    }

    /** `os.remove`: the file is gone afterwards; an OSError when it was not there. */
    method Remove(path: string) returns (r: Result<(), Exception>)
      modifies this
      ensures files == old(files) - {path}
      ensures r.Ok? <==> path in old(files)
      ensures r.Err? ==> r.error == OSError
    {
      r := if path in files then Ok(()) else Err(OSError);
      files := files - {path};
    }
  }

  /** The four subclasses of `AddTransactions`. */
  datatype Issuer = Chase | Citi | Apple | Amex

  /** `self.account_type` of each processor. */
  function AccountTypeOf(issuer: Issuer): string {
    match issuer
    case Chase => ChaseTransactions.AccountType
    case Citi => CitiTransactions.AccountType
    case Apple => AppleTransactions.AccountType
    case Amex => AmexTransactions.AccountType
  }

  /** The person column `read_files` adds: the Chase and Amex readers add one. */
  function StampOf(issuer: Issuer, person: string): Option<string> {
    if issuer == Chase || issuer == Amex then Some(person) else None
  }

  /** How `read_files` drops a failed file: the Apple reader without checking. */
  function RemovalOf(issuer: Issuer): Removal {
    if issuer == Apple then Always else IfPresent
  }

  /** What a processor gets from outside: `read_csv`, pandas' own date
      inference, `add_category`, the chat model, and whether a Citi export has
      a category column. */
  datatype Inputs = Inputs(readCsv: CsvReader, toDatetime: DateInference, addCategory: CategoryAdder, llm: Model, hasCategoryColumn: bool)

  /** How `process_transactions` ends when it does not raise: the records
      stored (and the files deleted), or nothing to add after cleaning. */
  datatype Outcome = Stored(transactions: seq<TransactionRecord>) | NothingToAdd

  /** What `clean_data` of an issuer's processor makes of the rows
      `read_files` returned, given the category cache the Apple and Amex
      cleaners hand to `add_category`: the cleaner's error or the cleaned
      rows. */
  function Cleaned(issuer: Issuer, person: string, cache: Cache, rows: seq<RawRow>, inputs: Inputs): Result<seq<Row>, Exception> {
    match issuer
    case Chase => ChaseTransactions.CleanData(Some(rows), inputs.toDatetime)
    case Citi => CitiTransactions.CleanData(Some(rows), person, inputs.hasCategoryColumn)
    case Apple =>
      var parsed := AppleTransactions.ParseRows(Some(rows), inputs.toDatetime);
      if parsed.Err? then Err(parsed.error)
      else
        var added := inputs.addCategory(parsed.value, cache);
        if added.Err? then Err(added.error)
        else
          Ok(ReclassifiedAll(Guesser(inputs.llm, cache.keys), cache.keys, added.value))
    case Amex => AmexTransactions.CleanData(Some(rows), inputs.toDatetime, inputs.addCategory, cache)
  }

  /** The Apple cleaner's re-classification of every row, in order. */
  function ReclassifiedAll(guess: string -> string, keys: seq<string>, rows: seq<Row>): seq<Row> {
    seq(|rows|, i requires 0 <= i < |rows| => AppleTransactions.Reclassified(guess, keys, rows[i]))
  }

  lemma ReclassifiedFrom(cleaned: seq<Row>, rows: seq<Row>, guess: string -> string, keys: seq<string>)
    requires |cleaned| == |rows| && forall i :: 0 <= i < |rows| ==> cleaned[i] == AppleTransactions.Reclassified(guess, keys, rows[i])
    ensures cleaned == ReclassifiedAll(guess, keys, rows)
  {
  }

  /** The record `prepare_data_for_db` of an issuer's processor makes of one
      cleaned row. */
  function RecordOf(issuer: Issuer, person: string, row: Row): TransactionRecord {
    match issuer
    case Chase => ChaseTransactions.Record(row)
    case Citi => CitiTransactions.Record(row)
    case Apple => AppleTransactions.Record(person, row)
    case Amex => AmexTransactions.Record(person, row)
  }

  /** One record per cleaned row, in order. */
  function Built(issuer: Issuer, person: string, rows: seq<Row>): seq<TransactionRecord> {
    seq(|rows|, i requires 0 <= i < |rows| => RecordOf(issuer, person, rows[i]))
  }

  /** `clean_data` and then `prepare_data_for_db`: the cleaner's error, or one
      record per cleaned row. */
  function Prepared(issuer: Issuer, person: string, cache: Cache, rows: seq<RawRow>, inputs: Inputs): Result<seq<TransactionRecord>, Exception> {
    match Cleaned(issuer, person, cache, rows, inputs)
    case Err(e) => Err(e)
    case Ok(c) => Ok(Built(issuer, person, c))
  }

  lemma BuiltFrom(issuer: Issuer, person: string, records: seq<TransactionRecord>, rows: seq<Row>)
    requires |records| == |rows| && forall i :: 0 <= i < |rows| ==> records[i] == RecordOf(issuer, person, rows[i])
    ensures records == Built(issuer, person, rows)
  {
  }

  /** Line 194 as written, for the exports [a, b, c] with a unreadable: the
      run reads only c, so the records stored are c's alone, yet b is still
      listed, and a committed run deletes b from the disk with c. */
  lemma AsWrittenDeletesSkippedFile(a: string, b: string, c: string, readCsv: CsvReader, removal: Removal, stamp: Option<string>, files: set<string>)
    requires a != b && a != c && b != c
    requires readCsv(a).None? && readCsv(b).Some? && readCsv(c).Some?
    ensures var o := Run([a, b, c], [a, b, c], true, 0, readCsv, removal);
            !o.raised && o.read == [c]
            && RowsOf(o.read, readCsv, stamp) == Stamp(readCsv(c).value, stamp)
            && files - (set p | p in o.processed) == files - {b, c}
  {
    AliasedRunSkipsNext(a, b, c, readCsv, removal);
    assert [c][..0] == [];
    assert (set p | p in [b, c]) == {b, c};
  }

  class Processor {
    const issuer: Issuer
    const person: string
    var processedFiles: FileList
    var categoryCache: Cache
    var personCache: Cache
    var accountTypeCache: Cache

    function Cached(): Caches
      reads this
    {
      Caches(categoryCache, personCache, accountTypeCache)
    }

    /** `__init__`: no files yet, and `_load_categories_only` fills the
        category cache from the database, or leaves it empty when the
        database cannot be reached. */
    constructor (issuer: Issuer, person: string, db: Database, reachable: bool)
      ensures this.issuer == issuer && this.person == person
      ensures categoryCache == (if reachable then CacheOf(db.committed.categories) else Empty)
      ensures personCache == Empty && accountTypeCache == Empty
      ensures fresh(processedFiles) && processedFiles.items == []
    {
      this.issuer := issuer;
      this.person := person;
      processedFiles := new FileList([]);
      categoryCache := if reachable then CacheOf(db.committed.categories) else Empty;
      personCache := Empty;
      accountTypeCache := Empty;
    }

    /** `_load_reference_data`: all three caches rebuilt from the tables the
        connection sees. */
    method LoadReferenceData(pending: DbState)
      modifies this
      ensures Cached() == Load(pending)
      ensures processedFiles == old(processedFiles)
    {
      categoryCache := CacheOf(pending.categories);
      personCache := CacheOf(pending.persons);
      accountTypeCache := CacheOf(pending.accountTypes);
    }

    method SetCache(kind: Kind, c: Cache)
      modifies this
      ensures Cached() == old(Cached()).With(kind, c)
      ensures processedFiles == old(processedFiles)
    {
      match kind
      case CategoryKind => categoryCache := c;
      case PersonKind => personCache := c;
      case AccountTypeKind => accountTypeCache := c;
    }

    /** `_get_or_create_*` on the connection's tables `pending`. */
    method GetOrCreateId(kind: Kind, name: string, pending: DbState, db: Database) returns (id: nat, after: DbState)
      modifies this, db
      ensures (Session(after, Cached(), db.nextId), id) == GetOrCreate(Session(pending, old(Cached()), old(db.nextId)), kind, name)
      ensures db.committed == old(db.committed) && processedFiles == old(processedFiles)
    {
      var key := Lower(name);
      var c := Cached().Get(kind);
      if key in c.ids {
        id, after := c.ids[key], pending;
      } else {
        id := db.nextId;
        db.nextId := db.nextId + 1;
        after := pending.Append(kind, Named(id, name));
        SetCache(kind, c.Put(key, id));
      }
    }

    /** One pass of the loop of lines 147-171. */
    method InsertTransaction(t: TransactionRecord, rejects: Rejects, pending: DbState, db: Database)
      returns (after: DbState, e: Option<Exception>)
      modifies this, db
      ensures (Session(after, Cached(), db.nextId), e) == Insert(Session(pending, old(Cached()), old(db.nextId)), t, rejects)
      ensures db.committed == old(db.committed) && processedFiles == old(processedFiles)
    {
      if t.category.None? {
        return pending, Some(AttributeError);
      }
      var categoryId, s1 := GetOrCreateId(CategoryKind, t.category.value, pending, db);
      if t.person.None? {
        return s1, Some(AttributeError);
      }
      var personId, s2 := GetOrCreateId(PersonKind, t.person.value, s1, db);
      var accountTypeId, s3 := GetOrCreateId(AccountTypeKind, t.accountType, s2, db);
      if rejects(t) {
        return s3, Some(DatabaseError);
      }
      after := s3.(transactions := s3.transactions + {RowOf(t, categoryId, personId, accountTypeId)});
      e := None;
    }

    /** `add_to_database`: without a connection a database error and no
        change; otherwise the caches are reloaded and the records inserted one
        by one on the connection. The first error ends the loop and nothing
        is committed, though the caches keep what they learnt and the
        sequences stay advanced; without an error everything is committed and
        the result is True. */
    method AddToDatabase(transactions: seq<TransactionRecord>, db: Database, reachable: bool, rejects: Rejects)
      returns (r: Result<bool, Exception>)
      modifies this, db
      ensures !reachable ==> r == Err(DatabaseError) && Cached() == old(Cached())
                             && db.committed == old(db.committed) && db.nextId == old(db.nextId)
      ensures reachable ==>
                var (s, e) := Batch(Start(old(db.committed), old(db.nextId)), transactions, rejects);
                Cached() == s.caches && db.nextId == s.nextId
                && (e.None? ==> r == Ok(true) && db.committed == s.state)
                && (e.Some? ==> r == Err(e.value) && db.committed == old(db.committed))
      ensures processedFiles == old(processedFiles)
    {
      if !reachable {
        return Err(DatabaseError);
      }
      var pending := db.committed;
      LoadReferenceData(pending);
      ghost var whole := Batch(Start(old(db.committed), old(db.nextId)), transactions, rejects);
      var i := 0;
      while i < |transactions|
        invariant i <= |transactions|
        invariant db.committed == old(db.committed) && processedFiles == old(processedFiles)
        invariant Batch(Session(pending, Cached(), db.nextId), transactions[i..], rejects) == whole
      {
        BatchStep(Session(pending, Cached(), db.nextId), transactions, i, rejects);
        var e;
        pending, e := InsertTransaction(transactions[i], rejects, pending, db);
        if e.Some? {
          // rolled back, or closed without a commit
          return Err(e.value);
        }
        i := i + 1;
      }
      assert transactions[i..] == [];
      db.committed := pending;
      r := Ok(true);
    }

    /** `delete_processed_files`: every listed file is attempted, and a failed
        removal does not stop the others. */
    method DeleteProcessedFiles(fs: FileSystem)
      modifies fs
      ensures fs.files == old(fs.files) - (set p | p in processedFiles.items)
    {
      var items := processedFiles.items;
      for i := 0 to |items|
        invariant fs.files == old(fs.files) - (set p | p in items[..i])
      {
        var _ := fs.Remove(items[i]);
        assert items[..i + 1] == items[..i] + [items[i]];
      }
      assert items[..|items|] == items;
    }

    /** Line 194 as written: `processed_files` becomes the very list that
        `read_files` iterates and shrinks. */
    method StartRunAsWritten(filePaths: FileList)
      modifies this
      ensures processedFiles == filePaths
      ensures Cached() == old(Cached())
    {
      processedFiles := filePaths;
    }

    /** Line 194 as intended: `processed_files` starts as a copy of the paths. */
    method StartRun(filePaths: FileList)
      modifies this
      ensures fresh(processedFiles) && processedFiles.items == filePaths.items
      ensures Cached() == old(Cached())
    {
      processedFiles := new FileList(filePaths.items);
    }

    /** `clean_data` and then `prepare_data_for_db` of the processor's issuer
        on the rows `read_files` returned: each cleaner's error is the result,
        and otherwise every cleaned row becomes that issuer's record. The
        Apple and Amex cleaners hand the current category cache to
        `add_category`. */
    method CleanAndPrepare(rows: seq<RawRow>, inputs: Inputs) returns (r: Result<seq<TransactionRecord>, Exception>)
      ensures issuer == Chase ==>
                var c := ChaseTransactions.CleanData(Some(rows), inputs.toDatetime);
                (c.Err? ==> r == Err(c.error))
                && (c.Ok? ==> r.Ok? && |r.value| == |c.value|
                              && forall i :: 0 <= i < |c.value| ==> r.value[i] == ChaseTransactions.Record(c.value[i]))
      ensures issuer == Citi ==>
                var c := CitiTransactions.CleanData(Some(rows), person, inputs.hasCategoryColumn);
                (c.Err? ==> r == Err(c.error))
                && (c.Ok? ==> r.Ok? && |r.value| == |c.value|
                              && forall i :: 0 <= i < |c.value| ==> r.value[i] == CitiTransactions.Record(c.value[i]))
      ensures issuer == Apple ==>
                var parsed := AppleTransactions.ParseRows(Some(rows), inputs.toDatetime);
                (parsed.Err? ==> r == Err(parsed.error))
                && (parsed.Ok? ==>
                      var added := inputs.addCategory(parsed.value, categoryCache);
                      (added.Err? ==> r == Err(added.error))
                      && (added.Ok? ==> r.Ok? && |r.value| == |added.value|
                                        && forall i :: 0 <= i < |added.value| ==>
                                             r.value[i] == AppleTransactions.Record(person, AppleTransactions.Reclassified(Guesser(inputs.llm, categoryCache.keys), categoryCache.keys, added.value[i]))))
      ensures issuer == Amex ==>
                var c := AmexTransactions.CleanData(Some(rows), inputs.toDatetime, inputs.addCategory, categoryCache);
                (c.Err? ==> r == Err(c.error))
                && (c.Ok? ==> r.Ok? && |r.value| == |c.value|
                              && forall i :: 0 <= i < |c.value| ==> r.value[i] == AmexTransactions.Record(person, c.value[i]))
      ensures r == Prepared(issuer, person, categoryCache, rows, inputs)
    {
      match issuer
      case Chase =>
        var c := ChaseTransactions.CleanData(Some(rows), inputs.toDatetime);
        assert c == Cleaned(issuer, person, categoryCache, rows, inputs);
        if c.Err? {
          return Err(c.error);
        }
        r := ChaseTransactions.PrepareDataForDb(Some(c.value));
        BuiltFrom(issuer, person, r.value, c.value);
      case Citi =>
        var c := CitiTransactions.CleanData(Some(rows), person, inputs.hasCategoryColumn);
        assert c == Cleaned(issuer, person, categoryCache, rows, inputs);
        if c.Err? {
          return Err(c.error);
        }
        r := CitiTransactions.PrepareDataForDb(Some(c.value));
        BuiltFrom(issuer, person, r.value, c.value);
      case Apple =>
        var c := AppleTransactions.CleanData(Some(rows), inputs.toDatetime, inputs.addCategory, inputs.llm, categoryCache);
        if c.Ok? {
          ghost var parsed := AppleTransactions.ParseRows(Some(rows), inputs.toDatetime);
          ReclassifiedFrom(c.value, inputs.addCategory(parsed.value, categoryCache).value, Guesser(inputs.llm, categoryCache.keys), categoryCache.keys);
        }
        assert c == Cleaned(issuer, person, categoryCache, rows, inputs);
        if c.Err? {
          return Err(c.error);
        }
        r := AppleTransactions.PrepareDataForDb(Some(c.value), person);
        BuiltFrom(issuer, person, r.value, c.value);
      case Amex =>
        var c := AmexTransactions.CleanData(Some(rows), inputs.toDatetime, inputs.addCategory, categoryCache);
        assert c == Cleaned(issuer, person, categoryCache, rows, inputs);
        if c.Err? {
          return Err(c.error);
        }
        r := AmexTransactions.PrepareDataForDb(Some(c.value), person);
        BuiltFrom(issuer, person, r.value, c.value);
    }

    /** Lines 194-201 of `process_transactions` with the paths copied: read,
        then clean and prepare. No records come out when no file can be read;
        otherwise the result is what cleaning and preparing make of the
        stamped rows of exactly the files read, in order. Afterwards
        `processed_files` lists exactly those files. */
    method ReadAndPrepare(filePaths: FileList, inputs: Inputs) returns (r: Result<seq<TransactionRecord>, Exception>)
      modifies this
      ensures fresh(processedFiles) && Cached() == old(Cached())
      ensures filePaths.items == old(filePaths.items)
      ensures var o := Run(old(filePaths.items), old(filePaths.items), false, 0, inputs.readCsv, RemovalOf(issuer));
              (o.read == [] ==> r == Err(ValueError))
              && (o.read != [] ==> r == Prepared(issuer, person, categoryCache, RowsOf(o.read, inputs.readCsv, StampOf(issuer, person)), inputs))
              && processedFiles.items == o.read
    {
      StartRun(filePaths);
      CopiedRunKeepsReadFiles(filePaths.items, inputs.readCsv, RemovalOf(issuer));
      var raw := Records.ReadFiles(filePaths, processedFiles, inputs.readCsv, StampOf(issuer, person), RemovalOf(issuer));
      if raw.Err? {
        return Err(raw.error);
      }
      r := CleanAndPrepare(raw.value, inputs);
    }

    /** `process_transactions` with line 194 copying the paths: read, clean and
        prepare; with no records nothing happens; otherwise the records are
        added and, once they are committed, exactly the files that were read
        are deleted. The records are those cleaning and preparing make of the
        stamped rows of the files read. Any error leaves the committed tables
        and the disk as they were. */
    method ProcessTransactions(filePaths: FileList, inputs: Inputs, db: Database, fs: FileSystem, reachable: bool, rejects: Rejects)
      returns (r: Result<Outcome, Exception>)
      modifies this, db, fs
      ensures filePaths.items == old(filePaths.items)
      ensures r.Err? || r == Ok(NothingToAdd) ==> db.committed == old(db.committed) && fs.files == old(fs.files)
      ensures Run(old(filePaths.items), old(filePaths.items), false, 0, inputs.readCsv, RemovalOf(issuer)).read == [] ==>
                r == Err(ValueError)
      ensures r.Ok? && r.value.Stored? ==>
                var o := Run(old(filePaths.items), old(filePaths.items), false, 0, inputs.readCsv, RemovalOf(issuer));
                var (s, e) := Batch(Start(old(db.committed), old(db.nextId)), r.value.transactions, rejects);
                reachable && e.None? && r.value.transactions != []
                && db.committed == s.state && Cached() == s.caches && db.nextId == s.nextId
                && fs.files == old(fs.files) - (set p | p in o.read)
      ensures var o := Run(old(filePaths.items), old(filePaths.items), false, 0, inputs.readCsv, RemovalOf(issuer));
              var p := Prepared(issuer, person, old(categoryCache), RowsOf(o.read, inputs.readCsv, StampOf(issuer, person)), inputs);
              o.read != [] ==>
                (p.Err? ==> r == Err(p.error))
                && (p == Ok([]) ==> r == Ok(NothingToAdd))
                && (r.Ok? && r.value.Stored? ==> p == Ok(r.value.transactions))
                && (p.Ok? && p.value != [] ==>
                      var e := Batch(Start(old(db.committed), old(db.nextId)), p.value, rejects).1;
                      (r == Ok(Stored(p.value)) <==> reachable && e.None?)
                      && (!reachable ==> r == Err(DatabaseError))
                      && (reachable && e.Some? ==> r == Err(e.value)))
    {
      var transactions := ReadAndPrepare(filePaths, inputs);
      if transactions.Err? {
        return Err(transactions.error);
      }
      if transactions.value == [] {
        return Ok(NothingToAdd);
      }
      r := Store(transactions.value, db, fs, reachable, rejects);
    }

    /** `process_transactions` as written: line 194 makes `processed_files` the
        caller's list itself, which `read_files` iterates while removing the
        failed files from it. After a committed run the files deleted are
        those still listed, which can include a file the iteration skipped
        and never read. */
    method ProcessTransactionsAsWritten(filePaths: FileList, inputs: Inputs, db: Database, fs: FileSystem, reachable: bool, rejects: Rejects)
      returns (r: Result<Outcome, Exception>)
      modifies this, filePaths, db, fs
      ensures var o := Run(old(filePaths.items), old(filePaths.items), true, 0, inputs.readCsv, RemovalOf(issuer));
              processedFiles == filePaths && filePaths.items == o.processed
              && (r.Err? || r == Ok(NothingToAdd) ==> db.committed == old(db.committed) && fs.files == old(fs.files))
              && (o.raised || o.read == [] ==> r == Err(ValueError))
              && (r.Ok? && r.value.Stored? ==>
                    var (s, e) := Batch(Start(old(db.committed), old(db.nextId)), r.value.transactions, rejects);
                    Prepared(issuer, person, old(categoryCache), RowsOf(o.read, inputs.readCsv, StampOf(issuer, person)), inputs) == Ok(r.value.transactions)
                    && reachable && e.None? && db.committed == s.state
                    && fs.files == old(fs.files) - (set p | p in o.processed))
      ensures var o := Run(old(filePaths.items), old(filePaths.items), true, 0, inputs.readCsv, RemovalOf(issuer));
              var p := Prepared(issuer, person, old(categoryCache), RowsOf(o.read, inputs.readCsv, StampOf(issuer, person)), inputs);
              !o.raised && o.read != [] ==>
                (p.Err? ==> r == Err(p.error))
                && (p == Ok([]) ==> r == Ok(NothingToAdd))
                && (p.Ok? && p.value != [] ==>
                      var e := Batch(Start(old(db.committed), old(db.nextId)), p.value, rejects).1;
                      (r == Ok(Stored(p.value)) <==> reachable && e.None?)
                      && (!reachable ==> r == Err(DatabaseError))
                      && (reachable && e.Some? ==> r == Err(e.value)))
    {
      StartRunAsWritten(filePaths);
      var raw := Records.ReadFiles(filePaths, processedFiles, inputs.readCsv, StampOf(issuer, person), RemovalOf(issuer));
      if raw.Err? {
        return Err(raw.error);
      }
      var transactions := CleanAndPrepare(raw.value, inputs);
      if transactions.Err? {
        return Err(transactions.error);
      }
      if transactions.value == [] {
        return Ok(NothingToAdd);
      }
      r := Store(transactions.value, db, fs, reachable, rejects);
    }

    /** Lines 204-208: add the records and, once they are committed, delete the
        processed files. The run stores exactly when the database is reachable
        and accepts the whole batch; otherwise the error of the failed
        connection or statement is the result. */
    method Store(transactions: seq<TransactionRecord>, db: Database, fs: FileSystem, reachable: bool, rejects: Rejects)
      returns (r: Result<Outcome, Exception>)
      requires transactions != []
      modifies this, db, fs
      ensures processedFiles == old(processedFiles)
      ensures r.Err? ==> db.committed == old(db.committed) && fs.files == old(fs.files)
      ensures r.Ok? ==>
                var (s, e) := Batch(Start(old(db.committed), old(db.nextId)), transactions, rejects);
                r == Ok(Stored(transactions)) && reachable && e.None?
                && db.committed == s.state && Cached() == s.caches && db.nextId == s.nextId
                && fs.files == old(fs.files) - (set p | p in processedFiles.items)
      ensures var e := Batch(Start(old(db.committed), old(db.nextId)), transactions, rejects).1;
              (r.Ok? <==> reachable && e.None?)
              && (!reachable ==> r == Err(DatabaseError))
              && (reachable && e.Some? ==> r == Err(e.value))
    {
      ghost var b := Batch(Start(db.committed, db.nextId), transactions, rejects);
      ghost var committed, files := db.committed, fs.files;
      var added := AddToDatabase(transactions, db, reachable, rejects);
      assert fs.files == files;
      if added.Err? {
        assert db.committed == committed;
        return Err(added.error);
      }
      assert reachable && b.1.None?;
      assert db.committed == b.0.state;
      DeleteProcessedFiles(fs);
      r := Ok(Stored(transactions));
    }

    /** `get_categories_from_db`: the category names in table order, or none
        when the database cannot be reached. */
    method GetCategoriesFromDb(db: Database, reachable: bool) returns (names: seq<string>)
      ensures !reachable ==> names == []
      ensures reachable ==> |names| == |db.committed.categories|
                            && forall i :: 0 <= i < |names| ==> names[i] == db.committed.categories[i].name
    {
      if !reachable {
        return [];
      }
      var rows := db.committed.categories;
      names := [];
      for i := 0 to |rows|
        invariant |names| == i
        invariant forall k :: 0 <= k < i ==> names[k] == rows[k].name
      {
        names := names + [rows[i].name];
      }
    }
  }

  lemma BatchStep(s: Session, ts: seq<TransactionRecord>, i: nat, rejects: Rejects)
    requires i < |ts|
    ensures var (s1, e) := Insert(s, ts[i], rejects);
            Batch(s, ts[i..], rejects) == if e.Some? then (s1, e) else Batch(s1, ts[i + 1..], rejects)
  {
    assert ts[i..][0] == ts[i] && ts[i..][1..] == ts[i + 1..];
  }
}
