/**
 * JSON-like values as the Python code sees them after `json.loads` / `yaml.safe_load`:
 * None, bool, int, float, str, list and dict.
 *
 * Dictionaries are kept as ordered sequences of (key, value) pairs, because Python
 * dictionaries iterate in insertion order, an assignment to an existing key keeps
 * that key's position, and an assignment to a new key appends it.
 *
 * A Python float is represented by the decimal that `Decimal(str(x))` produces for it,
 * i.e. its shortest round-tripping decimal expansion: a sign, a coefficient written in
 * decimal digits and a power-of-ten exponent. NaN and the two infinities are kept apart.
 */
module JsonValues {
  import opened Wrappers

  predicate IsDigit(c: char) { '0' <= c <= '9' }

  predicate AllDigits(s: string) { forall i :: 0 <= i < |s| ==> IsDigit(s[i]) }

  /** The coefficient of a Python `Decimal`: decimal digits without leading zeros, "0" for zero. */
  predicate IsCoefficient(s: string) {
    |s| > 0 && AllDigits(s) && (s[0] == '0' ==> s == "0")
  }

  type Coefficient = s: string | IsCoefficient(s) witness "0"

  /** The value (-1)^negative * coeff * 10^exp, as Python's `Decimal` stores it. */
  datatype Decimal = Decimal(negative: bool, coeff: Coefficient, exp: int)

  /** A Python float; `Finite` carries `Decimal(str(x))`. */
  datatype FloatVal = NaN | Infinity(negative: bool) | Finite(repr: Decimal)

  datatype Json =
    | Null
    | Bool(b: bool)
    | Int(i: int)
    | Float(f: FloatVal)
    | Str(s: string)
    | Arr(items: seq<Json>)
    | Obj(fields: seq<(string, Json)>)

  /** The entries of a dictionary, in iteration order. */
  type Object = seq<(string, Json)>

  /** Python's `bool(v)`: empty containers, empty strings, zeros and None are false. */
  predicate Truthy(v: Json) {
    match v
    case Null => false
    case Bool(b) => b
    case Int(i) => i != 0
    case Float(f) => !(f.Finite? && f.repr.coeff == "0")
    case Str(s) => s != ""
    case Arr(a) => a != []
    case Obj(o) => o != []
  }

  function KeySet(o: Object): set<string> {
    if o == [] then {} else {o[0].0} + KeySet(o[1..])
  }

  /** Keys are pairwise distinct, as in every Python dictionary. */
  predicate DistinctKeys(o: Object) {
    o == [] || (o[0].0 !in KeySet(o[1..]) && DistinctKeys(o[1..]))
  }

  /** `d.get(k)`: the value stored under `k`, if any. */
  function Lookup(o: Object, k: string): (r: Option<Json>)
    ensures r.Some? <==> k in KeySet(o)
    ensures r.Some? ==> (k, r.value) in o
  {
    if o == [] then None
    else if o[0].0 == k then Some(o[0].1)
    else Lookup(o[1..], k)
  }

  predicate OccursAt(k: string, s: string, i: int) {
    0 <= i && i + |k| <= |s| && s[i..i + |k|] == k
  }

  predicate IsSubstring(k: string, s: string) {
    exists i :: 0 <= i <= |s| - |k| && OccursAt(k, s, i)
  }

  /**
   * Python's `key in v` for a string key: a key of a dict, an element of a list, a
   * substring of a str; None for the TypeError any other value raises.
   */
  function PyIn(v: Json, key: string): (r: Option<bool>)
    ensures v.Obj? ==> r == Some(key in KeySet(v.fields))
    ensures r.None? <==> !(v.Obj? || v.Arr? || v.Str?)
  {
    match v
    case Obj(o) => Some(key in KeySet(o))
    case Arr(items) => Some(Str(key) in items)
    case Str(s) => Some(IsSubstring(key, s))
    case _ => None
  }

  /** `d.get(key, default)`. */
  function GetOr(o: Object, key: string, default: Json): (r: Json)
    ensures key in KeySet(o) ==> (key, r) in o
    ensures key !in KeySet(o) ==> r == default
  {
    match Lookup(o, key)
    case Some(x) => x
    case None => default
  }

  /** `d[k] = v`: replaces the value of an existing key in place, or appends a new entry. */
  function SetKey(o: Object, k: string, v: Json): Object {
    if o == [] then [(k, v)]
    else if o[0].0 == k then [(k, v)] + o[1..]
    else [o[0]] + SetKey(o[1..], k, v)
  }

  lemma {:induction false} SetKeySame(o: Object, k: string, v: Json)
    ensures Lookup(SetKey(o, k, v), k) == Some(v)
  {
    if o != [] && o[0].0 != k {
      SetKeySame(o[1..], k, v);
    }
  }

  lemma {:induction false} SetKeyOther(o: Object, k: string, v: Json, k': string)
    requires k' != k
    ensures Lookup(SetKey(o, k, v), k') == Lookup(o, k')
  {
    if o != [] && o[0].0 != k {
      SetKeyOther(o[1..], k, v, k');
    }
  }

  lemma {:induction false} SetKeyKeys(o: Object, k: string, v: Json)
    ensures KeySet(SetKey(o, k, v)) == KeySet(o) + {k}
  {
    if o != [] && o[0].0 != k {
      SetKeyKeys(o[1..], k, v);
    }
  }

  lemma {:induction false} SetKeyLength(o: Object, k: string, v: Json)
    ensures |SetKey(o, k, v)| == if k in KeySet(o) then |o| else |o| + 1
  {
    if o != [] && o[0].0 != k {
      SetKeyLength(o[1..], k, v);
    }
  }

  lemma {:induction false} SetKeyDistinct(o: Object, k: string, v: Json)
    requires DistinctKeys(o)
    ensures DistinctKeys(SetKey(o, k, v))
  {
    if o != [] && o[0].0 != k {
      SetKeyDistinct(o[1..], k, v);
      SetKeyKeys(o[1..], k, v);
    }
  }

  /** Assigning a new key appends it. */
  lemma {:induction false} SetKeyFresh(o: Object, k: string, v: Json)
    requires k !in KeySet(o)
    ensures SetKey(o, k, v) == o + [(k, v)]
  {
    if o != [] {
      SetKeyFresh(o[1..], k, v);
      assert [o[0]] + (o[1..] + [(k, v)]) == o + [(k, v)];
    }
  }

  /** After an assignment, every entry is the one assigned or an entry that was there. */
  lemma {:induction false} SetKeyEntries(o: Object, k: string, v: Json, e: (string, Json))
    requires e in SetKey(o, k, v)
    ensures e == (k, v) || e in o
  {
    if o != [] && o[0].0 != k {
      if e != o[0] {
        assert e in SetKey(o[1..], k, v);
        SetKeyEntries(o[1..], k, v, e);
      }
    } else if o != [] && e != (k, v) {
      assert e in o[1..];
    }
  }
}
