/**
 * The first step of the submit handler: whatever `JSON.parse` returned becomes
 * the ordered list of (key, value) entries that `Object.entries` walks.
 */
module Normalise {
  import opened JsonValue

  function DigitChar(d: nat): (c: char)
    requires d < 10
    ensures '0' <= c <= '9'
  {
    ('0' as int + d) as char
  }

  /**
   * `String(i)` for a non-negative integer `i`: canonical decimal text (no
   * leading zero) that reads back as `i`.
   */
  function IndexKey(n: nat): (k: string)
    ensures IsCanonicalDecimal(k) && DecimalValue(k) == n
    decreases n
  {
    if n < 10 then [DigitChar(n)]
    else
      var p := IndexKey(n / 10);
      var k := p + [DigitChar(n % 10)];
      assert k[..|k| - 1] == p;
      k
  }

  predicate IsDigits(k: string) {
    forall i :: 0 <= i < |k| ==> '0' <= k[i] <= '9'
  }

  /** The number a string of decimal digits denotes. */
  function DecimalValue(k: string): nat
    requires IsDigits(k)
  {
    if k == [] then 0 else DecimalValue(k[..|k| - 1]) * 10 + (k[|k| - 1] as int - '0' as int)
  }

  /** Decimal digits with no leading zero, except for "0" itself. */
  predicate IsCanonicalDecimal(k: string) {
    |k| > 0 && IsDigits(k) && (k[0] == '0' ==> k == "0")
  }

  /** The largest length a JavaScript array can have, 2^32 - 1. */
  const MaxArrayLength: nat := 0xFFFF_FFFF

  /** A key JavaScript treats as an array index: the canonical text of an integer below 2^32 - 1. */
  predicate IsArrayIndexKey(k: string) {
    IsCanonicalDecimal(k) && DecimalValue(k) < MaxArrayLength
  }

  /**
   * The order in which `Object.entries` lists an object's own properties: no
   * key twice, and the array-index keys before every other key, in ascending
   * numeric order. The other keys keep their insertion order, which a list of
   * members cannot show and this predicate does not constrain.
   */
  predicate InPropertyOrder(ms: seq<Member>) {
    && (forall i, j :: 0 <= i < j < |ms| ==> ms[i].key != ms[j].key)
    && (forall i, j :: 0 <= i < j < |ms| && IsArrayIndexKey(ms[j].key) ==>
          IsArrayIndexKey(ms[i].key) && DecimalValue(ms[i].key) < DecimalValue(ms[j].key))
  }

  /**
   * The entries the submit handler iterates over. An array becomes an object
   * keyed by the stringified indices, a scalar or null is wrapped as
   * `{ value: v }`, and an object is taken as it is.
   */
  function Entries(j: Json): (es: seq<Member>)
    ensures j.JObject? ==> es == j.members
    ensures !IsStructured(j) ==> es == [Member("value", j)]
    ensures j.JArray? ==> |es| == |j.elems|
    ensures j.JArray? ==> forall i :: 0 <= i < |es| ==> es[i].key == IndexKey(i) && es[i].value == j.elems[i]
  {
    match j
    case JArray(xs) => seq(|xs|, i requires 0 <= i < |xs| => Member(IndexKey(i), xs[i]))
    case JObject(ms) => ms
    case _ => [Member("value", j)]
  }

  /** Different indices get different keys. */
  lemma IndexKeyInjective(m: nat, n: nat)
    requires IndexKey(m) == IndexKey(n)
    ensures m == n
  {
    assert DecimalValue(IndexKey(m)) == m;
  }

  /**
   * The entries built for an array are already in the order `Object.entries`
   * would list them, so rebuilding the array as an object
   * (`Object.fromEntries`) and enumerating it keeps element order.
   */
  lemma ArrayEntriesInPropertyOrder(xs: seq<Json>)
    requires |xs| <= MaxArrayLength
    ensures InPropertyOrder(Entries(JArray(xs)))
  {
    var es := Entries(JArray(xs));
    forall i | 0 <= i < |es|
      ensures IsArrayIndexKey(es[i].key) && DecimalValue(es[i].key) == i
    {
      assert DecimalValue(IndexKey(i)) == i;
    }
  }
}
