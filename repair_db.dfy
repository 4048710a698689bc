/** What the two category-repair scripts share: the rows of
    `budget_app.transactions` and `budget_app.spending_categories` they read,
    `get_categories_from_db`, the single-row `update_transaction_category`,
    and the table a repair pass leaves behind. */
module RepairDb {
  import opened Wrappers

  /** A transaction as the repair scripts see it: its id, its merchant and its
      category id (NULL as None). */
  datatype Txn = Txn(id: nat, merchant: string, categoryId: Option<nat>)

  datatype Category = Category(id: nat, name: string)

  /** The database: the categories and the transactions, in table order. */
  class Database {
    var categories: seq<Category>
    var rows: seq<Txn>

    constructor (categories: seq<Category>, rows: seq<Txn>)
      ensures this.categories == categories && this.rows == rows
    {
      this.categories := categories;
      this.rows := rows;
    }
  }

  /** Transaction ids are a primary key. */
  predicate UniqueIds(rows: seq<Txn>) {
    forall i, j :: 0 <= i < j < |rows| ==> rows[i].id != rows[j].id
  }

  /** The names half of `get_categories_from_db`: every name, in table order. */
  function Names(cats: seq<Category>): seq<string> {
    seq(|cats|, i requires 0 <= i < |cats| => cats[i].name)
  }

  /** No later category carries the name of the one at `i`. */
  predicate LastNamed(cats: seq<Category>, i: int)
    requires 0 <= i < |cats|
  {
    forall j :: i < j < |cats| ==> cats[j].name != cats[i].name
  }

  /** The map half of `get_categories_from_db`: `{name: id for id, name in
      categories}`. Its keys are exactly the names, and a name that occurs
      twice maps to the id of its last occurrence. */
  function CategoryMap(cats: seq<Category>): (m: map<string, nat>)
    ensures m.Keys == set i | 0 <= i < |cats| :: cats[i].name
    ensures forall i :: 0 <= i < |cats| && LastNamed(cats, i) ==> m[cats[i].name] == cats[i].id
    decreases |cats|
  {
    if cats == [] then map[]
    else
      var init, last := cats[..|cats| - 1], cats[|cats| - 1];
      var m := CategoryMap(init)[last.name := last.id];
      assert forall i :: 0 <= i < |init| ==> init[i] == cats[i];
      assert forall i :: 0 <= i < |cats| && LastNamed(cats, i) && i < |init| ==> LastNamed(init, i);
      m
  }

  /** Every name is a key of the map. */
  lemma NamesAreKeys(cats: seq<Category>)
    ensures forall name :: name in Names(cats) <==> name in CategoryMap(cats)
  {
    forall name | name in CategoryMap(cats)
      ensures name in Names(cats)
    {
      var i :| 0 <= i < |cats| && cats[i].name == name;
      assert Names(cats)[i] == name;
    }
  }

  /** `update_transaction_category`: every row with id `id` gets category `c`. */
  function SetCategory(rows: seq<Txn>, id: nat, c: nat): seq<Txn> {
    seq(|rows|, i requires 0 <= i < |rows| => if rows[i].id == id then rows[i].(categoryId := Some(c)) else rows[i])
  }

  /** The rows whose category is `c` (`IS NULL` when `c` is None), in table order. */
  function WithCategory(rows: seq<Txn>, c: Option<nat>): (r: seq<Txn>)
    ensures forall t :: t in r <==> t in rows && t.categoryId == c
    ensures |r| <= |rows|
  {
    if rows == [] then []
    else if rows[0].categoryId == c then [rows[0]] + WithCategory(rows[1..], c)
    else WithCategory(rows[1..], c)
  }

  /** One row after a repair: set to the id of the name its merchant resolves
      to, when that name is a key of the map. */
  function Resolved(t: Txn, resolve: string -> string, m: map<string, nat>): Txn {
    var name := resolve(t.merchant);
    if name in m then t.(categoryId := Some(m[name])) else t
  }

  /** Whether the loop issues an UPDATE for this work row. */
  predicate Updates(t: Txn, resolve: string -> string, m: map<string, nat>) {
    resolve(t.merchant) in m
  }

  /** The table after a repair loop has run over `work` in order: each work row
      whose merchant resolves to a name in `m` is set to that name's id, and
      the others are skipped. */
  function Repaired(rows: seq<Txn>, work: seq<Txn>, resolve: string -> string, m: map<string, nat>): seq<Txn>
    decreases |work|
  {
    if work == [] then rows
    else
      var before := Repaired(rows, work[..|work| - 1], resolve, m);
      var w := work[|work| - 1];
      if Updates(w, resolve, m) then SetCategory(before, w.id, m[resolve(w.merchant)]) else before
  }

  /** The number of work rows that get an UPDATE. */
  function UpdateCount(work: seq<Txn>, resolve: string -> string, m: map<string, nat>): (n: nat)
    ensures n <= |work|
  {
    if work == [] then 0
    else UpdateCount(work[..|work| - 1], resolve, m) + (if Updates(work[|work| - 1], resolve, m) then 1 else 0)
  }

  /** A repair over rows of the table changes exactly the rows it works on,
      each to its resolved category, and leaves every other row, and every
      id and merchant, as it was. */
  lemma {:induction false} RepairedPointwise(rows: seq<Txn>, work: seq<Txn>, resolve: string -> string, m: map<string, nat>)
    requires UniqueIds(rows)
    requires forall w :: w in work ==> w in rows
    ensures var r := Repaired(rows, work, resolve, m);
            |r| == |rows|
            && forall i :: 0 <= i < |rows| ==>
                 r[i] == if rows[i] in work then Resolved(rows[i], resolve, m) else rows[i]
    decreases |work|
  {
    if work != [] {
      var init, w := work[..|work| - 1], work[|work| - 1];
      assert forall x :: x in init ==> x in work;
      RepairedPointwise(rows, init, resolve, m);
      var before := Repaired(rows, init, resolve, m);
      var r := Repaired(rows, work, resolve, m);
      assert work == init + [w];
      forall i | 0 <= i < |rows|
        ensures r[i] == if rows[i] in work then Resolved(rows[i], resolve, m) else rows[i]
      {
        if rows[i].id == w.id {
          assert w in work;
          var k :| 0 <= k < |rows| && rows[k] == w;
          assert k == i;
        }
      }
    }
  }

  /** A repair pass over the rows with category `c`: a row is changed exactly
      when it had category `c` and its merchant resolves to a known name, and
      then to that name's id. */
  lemma RepairPass(rows: seq<Txn>, c: Option<nat>, resolve: string -> string, m: map<string, nat>)
    requires UniqueIds(rows)
    ensures var r := Repaired(rows, WithCategory(rows, c), resolve, m);
            |r| == |rows|
            && forall i :: 0 <= i < |rows| ==>
                 r[i] == if rows[i].categoryId == c && Updates(rows[i], resolve, m)
                         then rows[i].(categoryId := Some(m[resolve(rows[i].merchant)]))
                         else rows[i]
  {
    RepairedPointwise(rows, WithCategory(rows, c), resolve, m);
  }

  /** After a pass over the rows without a category, the rows still without
      one are exactly those whose merchant resolved to no known name: running
      the pass again works only on them. */
  lemma StillMissing(rows: seq<Txn>, resolve: string -> string, m: map<string, nat>)
    requires UniqueIds(rows)
    ensures var r := Repaired(rows, WithCategory(rows, None), resolve, m);
            |r| == |rows|
            && forall i :: 0 <= i < |rows| ==>
              (r[i].categoryId.None? <==> rows[i].categoryId.None? && !Updates(rows[i], resolve, m))
  {
    RepairPass(rows, None, resolve, m);
  }
}
