/** The id-to-name tables `get_ign_dict`, `get_weapon_dict`, `get_agent_dict`
    and `get_region_dict` fold out of lists of `{id, name}` entries. */
module LookupTables {
  import opened Json
  import opened Outcome

  /** One listed entity: `{id, name}` in the content tables, `{player: {id, ign}}`
      in a match's player list. */
  datatype Entry = Entry(id: int, name: string)

  /** The table the fold leaves: each entry in turn assigns its name to its id,
      so a later entry overwrites an earlier one with the same id. */
  function TableOf(entries: seq<Entry>): map<int, string> {
    if entries == [] then map[]
    else
      var last := entries[|entries| - 1];
      TableOf(entries[..|entries| - 1])[last.id := last.name]
  }

  /** The `for` loop that fills the dictionary. */
  method BuildTable(entries: seq<Entry>) returns (table: map<int, string>)
    ensures table == TableOf(entries)
    ensures table.Keys == set e | e in entries :: e.id
  {
    table := map[];
    var i := 0;
    while i < |entries|
      invariant 0 <= i <= |entries|
      invariant table == TableOf(entries[..i])
    {
      assert entries[..i + 1][..i] == entries[..i];
      table := table[entries[i].id := entries[i].name];
      i := i + 1;
    }
    assert entries[..i] == entries;
    TableOfDomain(entries);
  }

  /** The table's ids are exactly the listed ids. */
  lemma {:induction false} TableOfDomain(entries: seq<Entry>)
    ensures TableOf(entries).Keys == set e | e in entries :: e.id
  {
    if entries != [] {
      var init := entries[..|entries| - 1];
      TableOfDomain(init);
      assert entries == init + [entries[|entries| - 1]];
    }
  }

  /** An id maps to the name of the last entry listing it. */
  lemma {:induction false} TableOfLastWins(entries: seq<Entry>, k: nat)
    requires k < |entries|
    requires forall k' :: k < k' < |entries| ==> entries[k'].id != entries[k].id
    ensures entries[k].id in TableOf(entries)
    ensures TableOf(entries)[entries[k].id] == entries[k].name
  {
    if k < |entries| - 1 {
      var init := entries[..|entries| - 1];
      TableOfLastWins(init, k);
    }
  }

  /** The number of distinct listed ids never exceeds the number of entries. */
  lemma {:induction false} TableOfSize(entries: seq<Entry>)
    ensures |TableOf(entries)| <= |entries|
  {
    if entries != [] {
      TableOfSize(entries[..|entries| - 1]);
    }
  }

  /** `table[v]` for an id read out of a record: it succeeds exactly when the
      id is an integer the table holds. */
  function LookupId(table: map<int, string>, which: Table, v: Value): (r: Result<string>)
    ensures r.Ok? <==> v.Int? && v.i in table
    ensures r.Ok? ==> r.value == table[v.i]
    ensures r.Err? ==> r.error == LookupMiss(which, v)
  {
    if v.Int? && v.i in table then Ok(table[v.i]) else Err(LookupMiss(which, v))
  }

  /** Entry `k` is the last entry listing `id`. */
  ghost predicate LastListing(entries: seq<Entry>, id: int, k: int) {
    0 <= k < |entries| && entries[k].id == id
    && forall k' :: k < k' < |entries| ==> entries[k'].id != id
  }

  /** Every id of the table comes from a last entry listing it, whose name it holds. */
  lemma {:induction false} TableOfFrom(entries: seq<Entry>, id: int)
    requires id in TableOf(entries)
    ensures exists k :: LastListing(entries, id, k) && TableOf(entries)[id] == entries[k].name
  {
    var last := |entries| - 1;
    if entries[last].id == id {
      assert LastListing(entries, id, last);
    } else {
      var init := entries[..last];
      TableOfFrom(init, id);
      var k :| LastListing(init, id, k) && TableOf(init)[id] == init[k].name;
      assert LastListing(entries, id, k);
    }
  }

  /** Looking an id up in a table folded from `entries` succeeds exactly when
      the id is an integer some entry lists, and then yields the name of the
      last entry listing it; otherwise it raises a miss on that table. */
  lemma LookupListed(entries: seq<Entry>, which: Table, v: Value)
    ensures var r := LookupId(TableOf(entries), which, v);
      && (r.Ok? <==> v.Int? && exists e :: e in entries && e.id == v.i)
      && (r.Ok? ==> exists k :: LastListing(entries, v.i, k) && r.value == entries[k].name)
      && (r.Err? ==> r.error == LookupMiss(which, v))
  {
    TableOfDomain(entries);
    if v.Int? && v.i in TableOf(entries) {
      TableOfFrom(entries, v.i);
    }
  }
}
