/** The query builder as a value. A query records what the repository asked
    of the ORM's builder (projection, conditions, ordering, window, eager
    loads); how the ORM turns it into SQL and rows is not part of this
    model. */
module Queries {
  import opened Domain
  import opened Flattening

  /** One `where` or `whereIn` call. */
  datatype Condition =
    | WhereAll(pairs: seq<(string, Value)>)      // where([$column => $value, ...])
    | WhereEquals(column: string, value: Value)  // where($column, $value)
    | WhereIn(column: string, values: seq<Value>) // whereIn($column, $values)

  /** The first argument of `getWhere`/`getWhereFirst`: an array of
      column => value pairs, or a single column name. */
  datatype ColumnArg = Pairs(pairs: seq<(string, Value)>) | Column(name: string)

  /** A `$column => $direction` entry of a sort array, in iteration order. */
  type Sort = (string, string)

  datatype Query = Query(
    columns: seq<string>,
    conditions: seq<Condition>,
    orders: seq<Sort>,
    skip: Option<int>,
    take: Option<int>,
    with: seq<string>)

  /** `$this->model`: a builder with nothing applied yet. */
  const Base: Query := Query(["*"], [], [], None, None, [])

  function Select(q: Query, columns: seq<string>): Query { q.(columns := columns) }
  function Where(q: Query, c: Condition): Query { q.(conditions := q.conditions + [c]) }
  function OrderBy(q: Query, column: string, direction: string): Query { q.(orders := q.orders + [(column, direction)]) }
  function Skip(q: Query, offset: Option<int>): Query { q.(skip := offset) }
  function Take(q: Query, limit: Option<int>): Query { q.(take := limit) }
  function With(q: Query, relations: seq<string>): Query { q.(with := q.with + relations) }

  /** The columns `get(...$columns)` asks for: the flattened arguments, or
      `['*']` when flattening leaves nothing. */
  function Projection(columns: seq<Arg>): (r: seq<string>)
    ensures |r| > 0
    ensures Flatten(columns) == [] ==> r == ["*"]
    ensures Flatten(columns) != [] ==> r == Flatten(columns)
  {
    var flat := Flatten(columns);
    if |flat| == 0 then ["*"] else flat
  }

  /** The query `get(...$columns)` runs: the base query projected on the
      flattened columns, nothing else applied. */
  function GetQuery(columns: seq<Arg>): (q: Query)
    ensures q.columns == Projection(columns)
    ensures q.(columns := Base.columns) == Base
  {
    Select(Base, Projection(columns))
  }

  /** The condition `getWhere`/`getWhereFirst` apply: the array form ignores
      `value`; the column form compares the column with `value`. */
  function WhereCondition(column: ColumnArg, value: Value): (c: Condition)
    ensures column.Pairs? ==> c == WhereAll(column.pairs)
    ensures column.Column? ==> c == WhereEquals(column.name, value)
  {
    match column
    case Pairs(pairs) => WhereAll(pairs)
    case Column(name) => WhereEquals(name, value)
  }

  /** The sort actually applied: `sortedBy` when it is a non-empty array,
      otherwise the primary key descending (`empty()` holds for null and for
      the empty array alike). */
  function EffectiveSort(sortedBy: Option<seq<Sort>>, keyName: string): (r: seq<Sort>)
    ensures |r| > 0
    ensures sortedBy.Some? && sortedBy.value != [] ==> r == sortedBy.value
    ensures sortedBy == None || sortedBy == Some([]) ==> r == [(keyName, "desc")]
  {
    if sortedBy.None? || sortedBy.value == [] then [(keyName, "desc")] else sortedBy.value
  }

  /** `buildGetWhereDelegatorWithOrderBy`: one `where` with the whole
      condition array, then one `orderBy` per sort entry, in iteration order.
      The result is `model` with exactly that condition and those orders
      appended, and nothing else changed. */
  method OrderedWhere(model: Query, conditions: seq<(string, Value)>, sortedBy: Option<seq<Sort>>, keyName: string)
    returns (q: Query)
    ensures q.conditions == model.conditions + [WhereAll(conditions)]
    ensures q.orders == model.orders + EffectiveSort(sortedBy, keyName)
    ensures q.(conditions := model.conditions, orders := model.orders) == model
  {
    var sort := EffectiveSort(sortedBy, keyName);
    q := Where(model, WhereAll(conditions));
    for i := 0 to |sort|
      invariant q.conditions == model.conditions + [WhereAll(conditions)]
      invariant q.orders == model.orders + sort[..i]
      invariant q.(conditions := model.conditions, orders := model.orders) == model
    {
      q := OrderBy(q, sort[i].0, sort[i].1);
      assert sort[..i + 1] == sort[..i] + [sort[i]];
    }
    assert sort[..|sort|] == sort;
  }
}
