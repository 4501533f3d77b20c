/** Criteria: reusable query modifiers, and the EagerLoad criterion, which
    asks the ORM to load the named relations along with the queried rows. */
module Criteria {
  import opened Queries
  import opened Flattening

  /** A criterion's `apply($model)`: a builder in, a builder out. */
  type Criterion = Query -> Query

  /** EagerLoad holds the relation names computed once by its constructor. */
  datatype EagerLoad = EagerLoad(relations: seq<string>) {

    /** `apply($model)`: `$model->with($this->relations)`. The query gains
        exactly the stored relations, after those already requested, and is
        otherwise unchanged. */
    function Apply(q: Query): (r: Query)
      ensures r.with == q.with + relations
      ensures r.(with := q.with) == q
    {
      With(q, relations)
    }

    /** The criterion as a query-to-query function: every query it is given
        gains the stored relations after its own and keeps everything else. */
    function AsCriterion(): (c: Criterion)
      ensures forall q :: c(q).with == q.with + relations && c(q).(with := q.with) == q
    {
      q => Apply(q)
    }
  }

  /** `new EagerLoad(...$relations)`: the arguments flattened, left to right,
      keeping duplicates. */
  function NewEagerLoad(relations: seq<Arg>): (c: EagerLoad)
    ensures forall x :: Count(c.relations, x) == Occurrences(relations, x)
  {
    var c := EagerLoad(Flatten(relations));
    forall x ensures Count(c.relations, x) == Occurrences(relations, x) {
      FlattenKeepsDuplicates(relations, x);
    }
    c
  }

  /** `apply` applied n times. */
  function ApplyTimes(c: EagerLoad, q: Query, n: nat): Query
  {
    if n == 0 then q else c.Apply(ApplyTimes(c, q, n - 1))
  }

  function Repeat(s: seq<string>, n: nat): seq<string>
  {
    if n == 0 then [] else Repeat(s, n - 1) + s
  }

  /** Applying never changes the criterion, so every application adds the
      same list: after n applications the query requests the stored list n
      times over, and nothing else in it has changed. */
  lemma {:induction false} ApplyRepeatedly(c: EagerLoad, q: Query, n: nat)
    ensures ApplyTimes(c, q, n).with == q.with + Repeat(c.relations, n)
    ensures ApplyTimes(c, q, n).(with := q.with) == q
  {
    if n > 0 {
      ApplyRepeatedly(c, q, n - 1);
      assert q.with + Repeat(c.relations, n - 1) + c.relations == q.with + Repeat(c.relations, n);
    }
  }

  /** Two EagerLoad criteria applied one after the other request the
      relations of the first, then those of the second, as one criterion built
      from both argument lists would. */
  lemma ApplyInSequence(a: seq<Arg>, b: seq<Arg>, q: Query)
    ensures NewEagerLoad(b).Apply(NewEagerLoad(a).Apply(q)) == NewEagerLoad(a + b).Apply(q)
  {
    FlattenAppend(a, b);
  }

  /** The same at the level of criteria: pushing the criterion built from `a`
      and then the one built from `b` onto any query has the effect of the
      single criterion built from `a + b`. */
  lemma CriteriaInSequence(a: seq<Arg>, b: seq<Arg>, q: Query)
    ensures NewEagerLoad(b).AsCriterion()(NewEagerLoad(a).AsCriterion()(q)) == NewEagerLoad(a + b).AsCriterion()(q)
  {
    ApplyInSequence(a, b, q);
  }

  /** Constructed with no arguments, or with only empty arrays, the criterion
      holds no relation and applying it leaves the query as it was. */
  lemma {:induction false} EmptyEagerLoad(relations: seq<Arg>, q: Query)
    requires forall x :: Occurrences(relations, x) == 0
    ensures NewEagerLoad(relations).relations == []
    ensures NewEagerLoad(relations).Apply(q) == q
  {
    FlattenEmpty(relations);
  }
}
