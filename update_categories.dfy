/** `database_fixes/update_categories.py`: re-categorise the transactions
    without a category, or, given a category name, those in that category
    after a "y" confirmation. Each merchant goes to the vendor table first and
    to the chat model only when the table has no category for it. A
    transaction is updated only when the resulting name is a category of the
    database. All updates are committed once at the end, and an error rolls
    all of them back. */
module UpdateCategories {
  import opened Wrappers
  import opened Text
  import opened VendorMapping
  import opened AiHelper
  import opened RepairDb

  /** Where a category name came from. */
  datatype Source = FromVendor | FromAi

  /** Lines 141-152: the vendor table's category when it gives a non-empty
      one, otherwise the model's guess among the category names. */
  function Resolve(llm: Model, names: seq<string>, merchant: string): (r: (string, Source))
    ensures r.1 == FromVendor <==> GetCategoryFromVendor(VendorCategoryMap, merchant).Some?
                                   && GetCategoryFromVendor(VendorCategoryMap, merchant).value != ""
    ensures r.1 == FromVendor ==> GetCategoryFromVendor(VendorCategoryMap, merchant) == Some(r.0)
    ensures r.1 == FromAi ==> r.0 == GuessCategory(llm, merchant, names) && (r.0 in names || r.0 == Other)
  {
    match GetCategoryFromVendor(VendorCategoryMap, merchant)
    case Some(c) => if c != "" then (c, FromVendor) else (GuessCategory(llm, merchant, names), FromAi)
    case None => (GuessCategory(llm, merchant, names), FromAi)
  }

  /** Each merchant's category name and its source. */
  type Classifier = string -> (string, Source)

  function Classify(llm: Model, names: seq<string>): Classifier {
    merchant => Resolve(llm, names, merchant)
  }

  function NameOf(classify: Classifier): string -> string {
    merchant => classify(merchant).0
  }

  /** The vendor table takes precedence: where it knows the merchant, the
      model is not consulted, so any two models give the same category. */
  lemma VendorFirst(llm1: Model, llm2: Model, names: seq<string>, merchant: string)
    requires Resolve(llm1, names, merchant).1 == FromVendor
    ensures Resolve(llm2, names, merchant) == Resolve(llm1, names, merchant)
  {
  }

  /** `vendor_map_count`: every vendor hit, whether or not it is then applied. */
  function VendorCount(classify: Classifier, work: seq<Txn>): (n: nat)
    ensures n <= |work|
  {
    if work == [] then 0
    else VendorCount(classify, work[..|work| - 1]) + (if classify(work[|work| - 1].merchant).1 == FromVendor then 1 else 0)
  }

  /** `ai_count`: every model answer other than "Other", whether or not it is
      then applied. */
  function AiCount(classify: Classifier, work: seq<Txn>): (n: nat)
    ensures n <= |work|
  {
    if work == [] then 0
    else
      var r := classify(work[|work| - 1].merchant);
      AiCount(classify, work[..|work| - 1]) + (if r.1 == FromAi && r.0 != Other then 1 else 0)
  }

  /** A row is counted at most once by the two source counters. */
  lemma {:induction false} SourceCountsBounded(classify: Classifier, work: seq<Txn>)
    ensures VendorCount(classify, work) + AiCount(classify, work) <= |work|
    decreases |work|
  {
    if work != [] {
      SourceCountsBounded(classify, work[..|work| - 1]);
    }
  }

  lemma NameHalf(classify: Classifier)
    ensures forall merchant :: NameOf(classify)(merchant) == classify(merchant).0
  {
  }

  /** A vendor hit whose category is not in the database is counted as a
      vendor hit and skipped: `vendor_map_count` can exceed the updates made
      from the table. */
  lemma SkippedVendorHitCounted(classify: Classifier, m: map<string, nat>, w: Txn)
    requires classify(w.merchant).1 == FromVendor && classify(w.merchant).0 !in m
    ensures VendorCount(classify, [w]) == 1 && UpdateCount([w], NameOf(classify), m) == 0
  {
    assert [w][..0] == [];
  }

  /** Whether a category name was given: an empty argument counts as none. */
  predicate TargetMode(target: Option<string>) {
    target.Some? && target.value != ""
  }

  /** The position of the first category named `name`, or `|cats|`. */
  function FirstNamed(cats: seq<Category>, name: string): (i: nat)
    ensures i <= |cats|
    ensures forall j :: 0 <= j < i ==> cats[j].name != name
    ensures i < |cats| ==> cats[i].name == name
  {
    if cats == [] || cats[0].name == name then 0 else 1 + FirstNamed(cats[1..], name)
  }

  /** `get_transactions_to_update`: with a target name, the rows in the first
      category so named, or none when no category has that name; otherwise
      the rows without a category. */
  function Selected(cats: seq<Category>, rows: seq<Txn>, target: Option<string>): (r: seq<Txn>)
    ensures forall t :: t in r ==> t in rows
    ensures !TargetMode(target) ==> forall t :: t in r <==> t in rows && t.categoryId.None?
    ensures TargetMode(target) && (forall j :: 0 <= j < |cats| ==> cats[j].name != target.value) ==> r == []
    ensures TargetMode(target) && 0 <= FirstNamed(cats, target.value) < |cats| ==>
              forall t :: t in r <==> t in rows && t.categoryId == Some(cats[FirstNamed(cats, target.value)].id)
  {
    if !TargetMode(target) then WithCategory(rows, None)
    else
      var i := FirstNamed(cats, target.value);
      if i == |cats| then [] else WithCategory(rows, Some(cats[i].id))
  }

  /** Line 129: only an answer that lower-cases to exactly "y" confirms. */
  predicate Confirmed(answer: string) {
    Lower(answer) == "y"
  }

  /** "Y" confirms, "yes" does not. */
  lemma ConfirmationExamples()
    ensures Confirmed("Y") && !Confirmed("yes")
  {
    assert Lower("Y") == "y";
  }

  predicate SomeUpdateFails(work: seq<Txn>, resolve: string -> string, m: map<string, nat>, rejects: nat -> bool) {
    exists i :: 0 <= i < |work| && Updates(work[i], resolve, m) && rejects(work[i].id)
  }

  /** Counters of the loop as it ends. */
  datatype Counts = Counts(updated: nat, fromVendor: nat, fromAi: nat)

  /** The loop of lines 137-163 on the connection's view `rows` of the table:
      each work row is classified and counted by its source, and updated when
      its name is a category. It stops at the first UPDATE that raises.
      `resolve` is the name half of `classify`. */
  method RepairLoop(rows: seq<Txn>, work: seq<Txn>, classify: Classifier, resolve: string -> string,
                    m: map<string, nat>, rejects: nat -> bool)
    returns (pending: seq<Txn>, raised: bool, counts: Counts)
    requires forall merchant :: resolve(merchant) == classify(merchant).0
    ensures raised <==> SomeUpdateFails(work, resolve, m, rejects)
    ensures !raised ==> pending == Repaired(rows, work, resolve, m)
                        && counts == Counts(UpdateCount(work, resolve, m), VendorCount(classify, work), AiCount(classify, work))
  {
    var updated: nat, fromVendor: nat, fromAi: nat := 0, 0, 0;
    pending := rows;
    for i := 0 to |work|
      invariant pending == Repaired(rows, work[..i], resolve, m)
      invariant updated == UpdateCount(work[..i], resolve, m)
      invariant fromVendor == VendorCount(classify, work[..i]) && fromAi == AiCount(classify, work[..i])
      invariant forall k :: 0 <= k < i ==> !(Updates(work[k], resolve, m) && rejects(work[k].id))
    {
      var t := work[i];
      var r := classify(t.merchant);
      var name, source := r.0, r.1;
      CountsStep(classify, resolve, m, work, i, rows);
      if source == FromVendor {
        fromVendor := fromVendor + 1;
      } else if name != Other {
        fromAi := fromAi + 1;
      }
      if name in m {
        if rejects(t.id) {
          return pending, true, Counts(updated, fromVendor, fromAi);
        }
        pending := SetCategory(pending, t.id, m[name]);
        updated := updated + 1;
      }
    }
    assert work[..|work|] == work;
    raised, counts := false, Counts(updated, fromVendor, fromAi);
  }

  lemma CountsStep(classify: Classifier, resolve: string -> string, m: map<string, nat>, work: seq<Txn>, i: nat, rows: seq<Txn>)
    requires i < |work|
    requires forall merchant :: resolve(merchant) == classify(merchant).0
    ensures var r := classify(work[i].merchant);
            VendorCount(classify, work[..i + 1]) == VendorCount(classify, work[..i]) + (if r.1 == FromVendor then 1 else 0)
            && AiCount(classify, work[..i + 1]) == AiCount(classify, work[..i]) + (if r.1 == FromAi && r.0 != Other then 1 else 0)
            && UpdateCount(work[..i + 1], resolve, m) == UpdateCount(work[..i], resolve, m) + (if r.0 in m then 1 else 0)
            && (Updates(work[i], resolve, m) <==> r.0 in m)
            && Repaired(rows, work[..i + 1], resolve, m)
               == if r.0 in m then SetCategory(Repaired(rows, work[..i], resolve, m), work[i].id, m[r.0])
                  else Repaired(rows, work[..i], resolve, m)
  {
    assert work[..i + 1][..i] == work[..i] && work[..i + 1][i] == work[i];
  }

  /** How `main` ends. */
  datatype Outcome = NoModel | Unreachable | NothingToUpdate | Cancelled | Committed(counts: Counts) | RolledBack

  /** `main`: nothing without a model or a connection or when nothing is
      selected, nor in target mode without confirmation; otherwise the loop
      over the selected rows, committed when no UPDATE raised and rolled back
      otherwise. */
  method Run(db: Database, target: Option<string>, answer: string, llm: Model, reachable: bool, rejects: nat -> bool)
    returns (out: Outcome)
    modifies db
    ensures db.categories == old(db.categories)
    ensures !out.Committed? ==> db.rows == old(db.rows)
    ensures llm.None? ==> out == NoModel
    ensures llm.Some? && !reachable ==> out == Unreachable
    ensures TargetMode(target) && !Confirmed(answer) ==> !out.Committed?
    ensures var work := Selected(old(db.categories), old(db.rows), target);
            var classify, m := Classify(llm, Names(old(db.categories))), CategoryMap(old(db.categories));
            var resolve := NameOf(classify);
            (llm.Some? && reachable && work == [] ==> out == NothingToUpdate)
            && (llm.Some? && reachable && work != [] && (!TargetMode(target) || Confirmed(answer)) ==>
                  (out == RolledBack <==> SomeUpdateFails(work, resolve, m, rejects))
                  && (out.Committed? <==> !SomeUpdateFails(work, resolve, m, rejects)))
            && (out.Committed? ==>
                  db.rows == Repaired(old(db.rows), work, resolve, m)
                  && out.counts == Counts(UpdateCount(work, resolve, m),
                                          VendorCount(classify, work), AiCount(classify, work)))
  {
    if llm.None? {
      return NoModel;
    }
    if !reachable {
      return Unreachable;
    }
    var names, m := Names(db.categories), CategoryMap(db.categories);
    var work := Selected(db.categories, db.rows, target);
    if work == [] {
      return NothingToUpdate;
    }
    if TargetMode(target) && !Confirmed(answer) {
      return Cancelled;
    }
    out := RepairAndCommit(db, work, Classify(llm, names), m, rejects);
  }

  /** Lines 135-173 once the work rows are known: the loop, then the commit,
      or the rollback when an UPDATE raised. */
  method RepairAndCommit(db: Database, work: seq<Txn>, classify: Classifier, m: map<string, nat>, rejects: nat -> bool)
    returns (out: Outcome)
    modifies db
    ensures db.categories == old(db.categories)
    ensures out == RolledBack || out.Committed?
    ensures out == RolledBack <==> SomeUpdateFails(work, NameOf(classify), m, rejects)
    ensures out == RolledBack ==> db.rows == old(db.rows)
    ensures out.Committed? ==>
              db.rows == Repaired(old(db.rows), work, NameOf(classify), m)
              && out.counts == Counts(UpdateCount(work, NameOf(classify), m),
                                      VendorCount(classify, work), AiCount(classify, work))
  {
    NameHalf(classify);
    var pending, raised, counts := RepairLoop(db.rows, work, classify, NameOf(classify), m, rejects);
    if raised {
      return RolledBack;
    }
    db.rows := pending;
    out := Committed(counts);
  }

  /** In target mode a committed run changes only rows of the target
      category, each to the category its merchant resolves to. */
  lemma TargetRunChangesOnlyTarget(cats: seq<Category>, rows: seq<Txn>, target: string, llm: Model)
    requires UniqueIds(rows) && target != ""
    ensures var work := Selected(cats, rows, Some(target));
            var r := Repaired(rows, work, NameOf(Classify(llm, Names(cats))), CategoryMap(cats));
            |r| == |rows|
            && forall i :: 0 <= i < |rows| && r[i] != rows[i] ==>
                 FirstNamed(cats, target) < |cats| && rows[i].categoryId == Some(cats[FirstNamed(cats, target)].id)
                 && r[i] == Resolved(rows[i], NameOf(Classify(llm, Names(cats))), CategoryMap(cats))
  {
    var work := Selected(cats, rows, Some(target));
    RepairedPointwise(rows, work, NameOf(Classify(llm, Names(cats))), CategoryMap(cats));
  }
}
