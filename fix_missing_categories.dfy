/** `fix_missing_categories.py`: every transaction without a category is
    offered to the chat model and set to the category it names, when that
    name is a category of the database. All updates are committed once at the
    end, and an error rolls all of them back. */
module FixMissingCategories {
  import opened Wrappers
  import opened AiHelper
  import opened RepairDb

  /** How `main` ends. */
  datatype Outcome = NoModel | Unreachable | NothingToUpdate | Committed(updated: nat) | RolledBack

  /** Whether some UPDATE of the loop raises (`rejects` names the ids whose
      UPDATE fails). */
  predicate SomeUpdateFails(work: seq<Txn>, resolve: string -> string, m: map<string, nat>, rejects: nat -> bool) {
    exists i :: 0 <= i < |work| && Updates(work[i], resolve, m) && rejects(work[i].id)
  }

  /** The loop of lines 85-100 on the connection's view `rows` of the table:
      an UPDATE for each work row whose guess is a category, counted in
      `updated`. It stops at the first UPDATE that raises. */
  method RepairLoop(rows: seq<Txn>, work: seq<Txn>, resolve: string -> string, m: map<string, nat>, rejects: nat -> bool)
    returns (pending: seq<Txn>, raised: bool, updated: nat)
    ensures raised <==> SomeUpdateFails(work, resolve, m, rejects)
    ensures !raised ==> pending == Repaired(rows, work, resolve, m) && updated == UpdateCount(work, resolve, m)
  {
    pending, updated := rows, 0;
    for i := 0 to |work|
      invariant pending == Repaired(rows, work[..i], resolve, m)
      invariant updated == UpdateCount(work[..i], resolve, m)
      invariant forall k :: 0 <= k < i ==> !(Updates(work[k], resolve, m) && rejects(work[k].id))
    {
      var t := work[i];
      assert work[..i + 1][..i] == work[..i] && work[..i + 1][i] == t;
      var name := resolve(t.merchant);
      if name in m {
        if rejects(t.id) {
          return pending, true, updated;
        }
        pending := SetCategory(pending, t.id, m[name]);
        updated := updated + 1;
      }
    }
    assert work[..|work|] == work;
    raised := false;
  }

  /** `main`: nothing without a model or a connection, or when no transaction
      lacks a category; otherwise the loop over the transactions without a
      category, committed when no UPDATE raised and rolled back otherwise. */
  method Run(db: Database, llm: Model, reachable: bool, rejects: nat -> bool) returns (out: Outcome)
    modifies db
    ensures db.categories == old(db.categories)
    ensures !out.Committed? ==> db.rows == old(db.rows)
    ensures llm.None? ==> out == NoModel
    ensures llm.Some? && !reachable ==> out == Unreachable
    ensures var work := WithCategory(old(db.rows), None);
            var resolve, m := Guesser(llm, Names(old(db.categories))), CategoryMap(old(db.categories));
            (llm.Some? && reachable && work == [] ==> out == NothingToUpdate)
            && (llm.Some? && reachable && work != [] ==>
                  (out == RolledBack <==> SomeUpdateFails(work, resolve, m, rejects))
                  && (out.Committed? <==> !SomeUpdateFails(work, resolve, m, rejects)))
            && (out.Committed? ==> db.rows == Repaired(old(db.rows), work, resolve, m)
                                   && out.updated == UpdateCount(work, resolve, m))
  {
    if llm.None? {
      return NoModel;
    }
    if !reachable {
      return Unreachable;
    }
    var names, m := Names(db.categories), CategoryMap(db.categories);
    var work := WithCategory(db.rows, None);
    if work == [] {
      return NothingToUpdate;
    }
    var pending, raised, updated := RepairLoop(db.rows, work, Guesser(llm, names), m, rejects);
    if raised {
      return RolledBack;
    }
    db.rows := pending;
    out := Committed(updated);
  }

  /** A committed run leaves without a category exactly the transactions that
      had none and whose guess is not a category. */
  lemma CommittedLeavesUnguessed(rows: seq<Txn>, cats: seq<Category>, llm: Model)
    requires UniqueIds(rows)
    ensures var r := Repaired(rows, WithCategory(rows, None), Guesser(llm, Names(cats)), CategoryMap(cats));
            |r| == |rows|
            && forall i :: 0 <= i < |rows| ==>
                 (r[i].categoryId.None? <==> rows[i].categoryId.None? && GuessCategory(llm, rows[i].merchant, Names(cats)) !in CategoryMap(cats))
  {
    StillMissing(rows, Guesser(llm, Names(cats)), CategoryMap(cats));
  }

  /** Every category the loop sets is the id of a name the model chose among
      the database's categories. */
  lemma SetCategoriesAreGuessed(rows: seq<Txn>, cats: seq<Category>, llm: Model)
    requires UniqueIds(rows)
    ensures var m := CategoryMap(cats);
            var r := Repaired(rows, WithCategory(rows, None), Guesser(llm, Names(cats)), m);
            |r| == |rows|
            && forall i :: 0 <= i < |rows| && r[i] != rows[i] ==>
              var guess := GuessCategory(llm, rows[i].merchant, Names(cats));
              guess in m && r[i].categoryId == Some(m[guess]) && guess in Names(cats)
  {
    RepairPass(rows, None, Guesser(llm, Names(cats)), CategoryMap(cats));
    NamesAreKeys(cats);
  }
}
