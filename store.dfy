/** The entity store the repository talks to, reduced to what the repository
    relies on: rows by primary key, the set of soft-deleted (trashed) keys,
    lookup by key with and without the trashed scope, and the row writes
    behind `save()`, `delete()` and `restore()`. A key is the id's string
    form, so the integer 7 and the string "7" name the same row, as they do
    in a `where key = ?` comparison against an integer key column. */
module Store {
  import opened Domain

  datatype Table = Table(rows: map<string, Entity>, trashed: set<string>)

  /** Every row is stored under its own key; trashed keys are stored rows. */
  predicate Valid(t: Table)
  {
    && t.trashed <= t.rows.Keys
    && forall k :: k in t.rows ==> IdString(t.rows[k].id) == k
  }

  /** `find($id)` under the default scope: a stored row that is not trashed. */
  function FindLive(t: Table, id: Id): (r: Option<Entity>)
    ensures r.Some? <==> IdString(id) in t.rows && IdString(id) !in t.trashed
    ensures r.Some? ==> r.value == t.rows[IdString(id)]
    ensures Valid(t) && r.Some? ==> IdString(r.value.id) == IdString(id)
  {
    var k := IdString(id);
    if k in t.rows && k !in t.trashed then Some(t.rows[k]) else None
  }

  /** `onlyTrashed()->find($id)`: a stored row that is trashed. */
  function FindTrashed(t: Table, id: Id): (r: Option<Entity>)
    ensures r.Some? <==> IdString(id) in t.trashed && IdString(id) in t.rows
    ensures r.Some? ==> r.value == t.rows[IdString(id)]
    ensures Valid(t) && r.Some? ==> IdString(r.value.id) == IdString(id)
  {
    var k := IdString(id);
    if k in t.trashed && k in t.rows then Some(t.rows[k]) else None
  }

  /** `save()` of a model with key `id` whose dirty attributes are `changes`:
      an update of the stored row that writes those attributes and leaves
      its other attributes as stored. An id that is not stored changes
      nothing (the update matches no row); no other row and no trashed mark
      changes. */
  function WithUpdated(t: Table, id: Id, changes: map<string, Value>): (r: Table)
    ensures Valid(t) ==> Valid(r)
    ensures r.rows.Keys == t.rows.Keys && r.trashed == t.trashed
    ensures IdString(id) in t.rows ==> r.rows[IdString(id)] == Fill(t.rows[IdString(id)], changes)
    ensures forall k :: k in t.rows && k != IdString(id) ==> r.rows[k] == t.rows[k]
    ensures changes == map[] ==> r == t
  {
    var k := IdString(id);
    if k in t.rows then Table(t.rows[k := Fill(t.rows[k], changes)], t.trashed) else t
  }

  /** `delete()` of a stored row: a soft delete marks it trashed and keeps it,
      a hard delete removes it. An id that is not stored changes nothing. */
  function WithDeleted(t: Table, id: Id, soft: bool): (r: Table)
    ensures Valid(t) ==> Valid(r)
    ensures IdString(id) !in t.rows ==> r == t
    ensures soft ==> r.rows == t.rows
    ensures soft && IdString(id) in t.rows ==> r.trashed == t.trashed + {IdString(id)}
    ensures !soft && IdString(id) in t.rows ==>
      r.rows.Keys == t.rows.Keys - {IdString(id)} && r.trashed == t.trashed - {IdString(id)}
    ensures forall k :: k in r.rows ==> k in t.rows && r.rows[k] == t.rows[k]
    ensures FindLive(r, id) == None
  {
    var k := IdString(id);
    if k !in t.rows then t
    else if soft then Table(t.rows, t.trashed + {k})
    else Table(t.rows - {k}, t.trashed - {k})
  }

  /** `restore()`: the trashed mark goes; the row itself is unchanged. */
  function WithRestored(t: Table, id: Id): (r: Table)
    ensures Valid(t) ==> Valid(r)
    ensures r.rows == t.rows
    ensures r.trashed == t.trashed - {IdString(id)}
    ensures FindTrashed(r, id) == None
    ensures IdString(id) in t.rows ==> FindLive(r, id) == Some(t.rows[IdString(id)])
  {
    Table(t.rows, t.trashed - {IdString(id)})
  }

  /** Two saves through the same key, even from models loaded before either
      save, keep both change sets: the later one wins only on the attributes
      it changes itself. */
  lemma UpdatesAccumulate(t: Table, id: Id, first: map<string, Value>, second: map<string, Value>)
    ensures WithUpdated(WithUpdated(t, id, first), id, second) == WithUpdated(t, id, first + second)
  {
    var k := IdString(id);
    if k in t.rows {
      var a := t.rows[k].attributes;
      assert a + first + second == a + (first + second);
    }
  }

  /** A model loaded from the row it updates writes exactly the filled model:
      for a fresh model, saving only the changes is saving the whole model. */
  lemma FreshModelUpdate(t: Table, m: Entity, properties: map<string, Value>)
    requires IdString(m.id) in t.rows && t.rows[IdString(m.id)] == m
    ensures WithUpdated(t, m.id, Changes(m, properties)).rows[IdString(m.id)] == Fill(m, properties)
  {
    FillByChanges(m, properties);
  }

  /** A soft delete followed by a restore gives back the table as it was,
      when the row was stored and not trashed before. */
  lemma SoftDeleteThenRestore(t: Table, id: Id)
    requires IdString(id) in t.rows && IdString(id) !in t.trashed
    ensures WithRestored(WithDeleted(t, id, true), id) == t
  {
  }
}
