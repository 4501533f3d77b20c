/** Values shared by the whole model: identifiers, attribute values, entities,
    and how an identifier is turned into the string that goes into a cache key. */
module Domain {

  datatype Option<+T> = None | Some(value: T)

  /** A primary-key value. PHP callers pass either an integer or a string. */
  datatype Id = IntId(n: int) | StrId(s: string)

  /** An attribute or condition value; the repository never inspects it. */
  datatype Value = Null | Int(i: int) | Str(s: string) | Bool(b: bool)

  /** A stored row: its key and its attributes. */
  datatype Entity = Entity(id: Id, attributes: map<string, Value>)

  /** `fill($properties)`: the given properties overwrite or extend the attributes. */
  function Fill(e: Entity, properties: map<string, Value>): (r: Entity)
    ensures r.id == e.id
    ensures r.attributes.Keys == e.attributes.Keys + properties.Keys
    ensures forall k :: k in properties ==> r.attributes[k] == properties[k]
    ensures forall k :: k in e.attributes && k !in properties ==> r.attributes[k] == e.attributes[k]
    ensures properties == map[] ==> r == e
  {
    assert e.attributes + map[] == e.attributes;
    e.(attributes := e.attributes + properties)
  }

  predicate IsDigit(c: char) { '0' <= c <= '9' }

  function DigitChar(d: nat): (c: char)
    requires d < 10
    ensures IsDigit(c)
    ensures c as int - '0' as int == d
  {
    ('0' as int + d) as char
  }

  /** Decimal rendering of a natural number, most significant digit first. */
  function NatToString(n: nat): (s: string)
    ensures |s| > 0
    ensures forall i :: 0 <= i < |s| ==> IsDigit(s[i])
    ensures n < 10 <==> |s| == 1
  {
    if n < 10 then [DigitChar(n)] else NatToString(n / 10) + [DigitChar(n % 10)]
  }

  /** PHP's conversion of an int to a string: optional minus sign, then digits. */
  function IntToString(n: int): (s: string)
    ensures |s| > 0
    ensures s[0] == '-' <==> n < 0
    ensures n >= 0 ==> IsDigit(s[0])
    ensures forall i :: 0 < i < |s| ==> IsDigit(s[i])
  {
    if n < 0 then "-" + NatToString(-n) else NatToString(n)
  }

  /** Different natural numbers are written differently: the last digit
      tells the remainders apart and the rest of the string the quotients. */
  lemma {:induction false} NatToStringInjective(a: nat, b: nat)
    ensures NatToString(a) == NatToString(b) ==> a == b
  {
    var s, t := NatToString(a), NatToString(b);
    if s == t {
      if a < 10 || b < 10 {
        assert a < 10 && b < 10;
        assert s[0] == DigitChar(a) && t[0] == DigitChar(b);
      } else {
        var n := |s| - 1;
        assert s[n] == DigitChar(a % 10) && t[n] == DigitChar(b % 10);
        assert s[..n] == NatToString(a / 10) && t[..n] == NatToString(b / 10);
        NatToStringInjective(a / 10, b / 10);
      }
    }
  }

  /** Different integers are written differently: the sign is the first
      character, and the digits after it are injective. */
  lemma IntToStringInjective(a: int, b: int)
    ensures IntToString(a) == IntToString(b) ==> a == b
  {
    if IntToString(a) == IntToString(b) {
      if a < 0 {
        assert b < 0;
        assert IntToString(a)[1..] == NatToString(-a) && IntToString(b)[1..] == NatToString(-b);
        NatToStringInjective(-a, -b);
      } else {
        NatToStringInjective(a, b);
      }
    }
  }

  /** The string an id becomes when concatenated with `.`: an integer id is
      written in decimal, a string id is used as it is. Only the string id "*"
      renders as "*". */
  function IdString(id: Id): (s: string)
    ensures id.StrId? ==> s == id.s
    ensures s == "*" <==> id == StrId("*")
  {
    match id
    case IntId(n) => IntToString(n)
    case StrId(s) => s
  }

  /** The attributes `save()` writes after `fill($properties)` on a model
      loaded as `m`: the given properties that are new or differ from the
      loaded value (the model's dirty attributes). */
  function Changes(m: Entity, properties: map<string, Value>): (r: map<string, Value>)
    ensures forall k :: k in r <==> k in properties && (k !in m.attributes || m.attributes[k] != properties[k])
    ensures forall k :: k in r ==> r[k] == properties[k]
  {
    map k | k in properties && (k !in m.attributes || m.attributes[k] != properties[k]) :: properties[k]
  }

  /** Writing only the changes onto the attributes the model was loaded with
      gives exactly the filled model. */
  lemma FillByChanges(m: Entity, properties: map<string, Value>)
    ensures Fill(m, Changes(m, properties)) == Fill(m, properties)
  {
    var c := Changes(m, properties);
    assert (m.attributes + c).Keys == (m.attributes + properties).Keys;
    assert forall k :: k in m.attributes + c ==> (m.attributes + c)[k] == (m.attributes + properties)[k];
  }

  /** A filled model has no changes left for the same properties: filling and
      saving twice writes nothing the second time. */
  lemma RefillChangesNothing(m: Entity, properties: map<string, Value>)
    ensures Changes(Fill(m, properties), properties) == map[]
  {
    var c := Changes(Fill(m, properties), properties);
    assert c.Keys == {};
  }
}
