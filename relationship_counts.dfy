/** The count map both list views build from one relationship query per
    entity: `counts.reduce((acc, {id, count}) => { acc[id] = count; return acc }, {})`. */
module RelationshipCounts {
  import opened Wrappers

  /** One settled query: the entity's id and how many related records it returned. */
  datatype CountEntry = CountEntry(id: int, count: nat)

  /** The per-entity `try { (await query(id)).length } catch { 0 }`: a query that
      fails counts as zero related records, one that succeeds counts what it returned. */
  function QueryCount<T>(result: Outcome<seq<T>>): (count: nat)
    ensures result.Failure? ==> count == 0
    ensures result.Success? ==> count == |result.value|
  {
    match result
    case Success(related) => |related|
    case Failure(_) => 0
  }

  /** The ids of `entries`. */
  ghost function EntryIds(entries: seq<CountEntry>): set<int>
  {
    set e | e in entries :: e.id
  }

  /** The accumulator after folding `entries` in order from the empty map: its keys
      are exactly the ids folded in. */
  function CountsMap(entries: seq<CountEntry>): (counts: map<int, nat>)
    ensures counts.Keys == EntryIds(entries)
  {
    if entries == [] then map[]
    else
      var init := entries[..|entries| - 1];
      var last := entries[|entries| - 1];
      assert entries == init + [last];
      assert EntryIds(entries) == EntryIds(init) + {last.id};
      CountsMap(init)[last.id := last.count]
  }

  /** The value stored for an id is the count of its last entry: later entries overwrite earlier ones. */
  lemma {:induction false} CountsMapLastWins(entries: seq<CountEntry>, k: nat)
    requires k < |entries|
    requires forall j :: k < j < |entries| ==> entries[j].id != entries[k].id
    ensures entries[k].id in CountsMap(entries)
    ensures CountsMap(entries)[entries[k].id] == entries[k].count
  {
    if k < |entries| - 1 {
      CountsMapLastWins(entries[..|entries| - 1], k);
    }
  }

  /** The `reduce` itself: an accumulator map updated entry by entry. */
  method BuildCountsMap(entries: seq<CountEntry>) returns (acc: map<int, nat>)
    ensures acc == CountsMap(entries)
  {
    acc := map[];
    var i := 0;
    while i < |entries|
      invariant 0 <= i <= |entries|
      invariant acc == CountsMap(entries[..i])
    {
      assert entries[..i + 1][..i] == entries[..i];
      acc := acc[entries[i].id := entries[i].count];
      i := i + 1;
    }
    assert entries[..|entries|] == entries;
  }
}
