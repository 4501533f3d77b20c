/** The two cache keys the repository builds by string concatenation: the
    list-all key `cacheKey() . '.*'` and the per-id key
    `cacheKey() . '.' . $id`. `prefix` stands for `cacheKey()`. */
module CacheKeys {
  import opened Domain

  /** The list-all key: the prefix, the separator, then "*". */
  function ListKey(prefix: string): (k: string)
    ensures |k| == |prefix| + 2
    ensures k[..|prefix|] == prefix && k[|prefix|] == '.' && k[|prefix| + 1] == '*'
  {
    prefix + ".*"
  }

  function ItemKey(prefix: string, id: Id): string { prefix + "." + IdString(id) }

  /** The per-id key is the prefix, the separator, then exactly the id's
      string form. */
  lemma ItemKeyParts(prefix: string, id: Id)
    ensures |ItemKey(prefix, id)| == |prefix| + 1 + |IdString(id)|
    ensures ItemKey(prefix, id)[..|prefix|] == prefix && ItemKey(prefix, id)[|prefix|] == '.'
    ensures ItemKey(prefix, id)[|prefix| + 1..] == IdString(id)
  {
  }

  /** A per-id key equals the list-all key exactly when the id's string form
      is "*", that is, only for the string id "*". */
  lemma ListAndItemKeys(prefix: string, id: Id)
    ensures ItemKey(prefix, id) == ListKey(prefix) <==> IdString(id) == "*"
    ensures ItemKey(prefix, id) == ListKey(prefix) <==> id == StrId("*")
  {
    ItemKeyParts(prefix, id);
    assert ListKey(prefix)[|prefix| + 1..] == "*";
  }

  /** Per-id keys under one prefix coincide exactly when the ids render to
      the same string (so the integer 7 and the string "7" share a key). */
  lemma ItemKeysCoincide(prefix: string, a: Id, b: Id)
    ensures ItemKey(prefix, a) == ItemKey(prefix, b) <==> IdString(a) == IdString(b)
  {
    ItemKeyParts(prefix, a);
    ItemKeyParts(prefix, b);
  }

  /** Different integer ids never share a per-id key, so invalidating one
      model's key cannot drop another integer-keyed model's entry. */
  lemma IntIdKeysDistinct(prefix: string, a: int, b: int)
    ensures a != b ==> ItemKey(prefix, IntId(a)) != ItemKey(prefix, IntId(b))
  {
    ItemKeysCoincide(prefix, IntId(a), IntId(b));
    IntToStringInjective(a, b);
  }

  /** No integer id ever reaches the list-all key. */
  lemma IntIdsMissListKey(prefix: string, n: int)
    ensures ItemKey(prefix, IntId(n)) != ListKey(prefix)
  {
    ListAndItemKeys(prefix, IntId(n));
  }
}
