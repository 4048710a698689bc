/** The processors' reference caches: Python dicts from a lowercased name to
    the id of its database row, filled from a table and by get-or-create. */
module NameCache {
  import opened Text

  /** A row of a reference table: its id and its name as stored. */
  datatype Named = Named(id: nat, name: string)

  /** A dict from lowercased name to id: its keys in insertion order, and the
      mapping itself. */
  datatype Cache = Cache(keys: seq<string>, ids: map<string, nat>) {
    /** The keys are exactly the mapped names, each listed once. */
    ghost predicate Valid() {
      (forall k :: k in ids <==> k in keys)
      && (forall i, j :: 0 <= i < j < |keys| ==> keys[i] != keys[j])
    }

    /** `d[k] = id`: a new key goes last, an existing key keeps its place. */
    function Put(k: string, id: nat): (c: Cache)
      ensures Valid() ==> c.Valid()
    {
      if k in ids then Cache(keys, ids[k := id]) else Cache(keys + [k], ids[k := id])
    }
  }

  const Empty := Cache([], map[])

  /** `{name.lower(): id for id, name in rows}`: every lowercased name is a key,
      and a later row wins over an earlier one with the same key. */
  function CacheOf(rows: seq<Named>): (c: Cache)
    ensures c.Valid()
    ensures forall k :: k in c.ids <==> exists i :: 0 <= i < |rows| && Lower(rows[i].name) == k
  {
    if rows == [] then Empty
    else
      var init, last := rows[..|rows| - 1], rows[|rows| - 1];
      assert forall i :: 0 <= i < |init| ==> init[i] == rows[i];
      CacheOf(init).Put(Lower(last.name), last.id)
  }

  /** The id cached for a key is that of the last row with that lowercased name. */
  lemma {:induction false} CacheOfLastWins(rows: seq<Named>, i: int)
    requires 0 <= i < |rows|
    requires forall j :: i < j < |rows| ==> Lower(rows[j].name) != Lower(rows[i].name)
    ensures Lower(rows[i].name) in CacheOf(rows).ids
    ensures CacheOf(rows).ids[Lower(rows[i].name)] == rows[i].id
  {
    if i < |rows| - 1 {
      CacheOfLastWins(rows[..|rows| - 1], i);
    }
  }

  /** Appending a row to the table is the same as putting it into the cache. */
  lemma CacheOfSnoc(rows: seq<Named>, x: Named)
    ensures CacheOf(rows + [x]) == CacheOf(rows).Put(Lower(x.name), x.id)
  {
    assert (rows + [x])[..|rows|] == rows;
  }
}
