/** Python values as they reach `json.dumps` (arguments, the chain name) and as
    `json.loads` produces them (response bodies), with the few Python operations
    the client applies to them: truthiness, `== <int>` and `value[key]`. */
module Json {
  import opened Wrappers

  /** A Python value. Objects keep their key order (insertion order of a dict,
      `OrderedDict` of a parsed response). `Callable` is anything `callable()`
      accepts; `Opaque` is any other value the JSON encoder refuses (a set, bytes,
      a date, ...), with the truth value Python gives it. */
  datatype Value =
    | Null
    | Bool(b: bool)
    | Num(n: int)
    | Str(s: string)
    | Arr(items: seq<Value>)
    | Obj(fields: seq<(string, Value)>)
    | Callable(typeName: string)
    | Opaque(typeName: string, truthy: bool)

  /** Python's truth value of `v` (as used by `if v:`). */
  predicate Truthy(v: Value)
    ensures !Truthy(v) <==>
              v in {Null, Bool(false), Num(0), Str(""), Arr([]), Obj([])} || (v.Opaque? && !v.truthy)
  {
    match v
    case Null => false
    case Bool(b) => b
    case Num(n) => n != 0
    case Str(s) => s != ""
    case Arr(items) => items != []
    case Obj(fields) => fields != []
    case Callable(_) => true
    case Opaque(_, t) => t
  }

  /** Python's `v == k` for an integer `k`: numbers compare by value and
      `False`/`True` compare as 0/1; every other value differs from an integer. */
  predicate PyEqualsInt(v: Value, k: int)
    ensures PyEqualsInt(v, k) <==> v == Num(k) || (k == 0 && v == Bool(false)) || (k == 1 && v == Bool(true))
  {
    match v
    case Num(n) => n == k
    case Bool(b) => (if b then 1 else 0) == k
    case _ => false
  }

  /** The value stored under `key` in a dict built from `fields`: a later pair
      replaces an earlier one with the same key, as `json.loads` does. */
  function LookupField(fields: seq<(string, Value)>, key: string): (r: Option<Value>)
    ensures r.Some? <==> exists i :: 0 <= i < |fields| && fields[i].0 == key
    ensures r.Some? ==> exists i :: 0 <= i < |fields| && fields[i] == (key, r.value) &&
                          forall j :: i < j < |fields| ==> fields[j].0 != key
    decreases |fields|
  {
    if |fields| == 0 then None
    else if fields[|fields| - 1].0 == key then Some(fields[|fields| - 1].1)
    else LookupField(fields[..|fields| - 1], key)
  }

  /** Appending a pair makes its key map to its value and leaves other keys alone. */
  lemma LookupAppended(fields: seq<(string, Value)>, k: string, v: Value, key: string)
    ensures LookupField(fields + [(k, v)], key) == if k == key then Some(v) else LookupField(fields, key)
  {
    assert (fields + [(k, v)])[..|fields|] == fields;
  }

  /** Python's `v[key]` for a string key: `None` stands for the exception it
      raises (`KeyError` on a dict without the key, `TypeError` on anything else). */
  function Index(v: Value, key: string): (r: Option<Value>)
    ensures r.Some? ==> v.Obj?
  {
    if v.Obj? then LookupField(v.fields, key) else None
  }

  /** Every part of `v` is something the JSON encoder can write. */
  predicate IsJson(v: Value)
    decreases v
  {
    match v
    case Callable(_) => false
    case Opaque(_, _) => false
    case Arr(items) => forall i | 0 <= i < |items| :: IsJson(items[i])
    case Obj(fields) => forall i | 0 <= i < |fields| :: IsJson(fields[i].1)
    case _ => true
  }

  /** Some part of `v` is a function or object of type `t` that the encoder refuses. */
  ghost predicate HasUnencodable(v: Value, t: string)
    decreases v
  {
    match v
    case Callable(u) => u == t
    case Opaque(u, _) => u == t
    case Arr(items) => exists i | 0 <= i < |items| :: HasUnencodable(items[i], t)
    case Obj(fields) => exists i | 0 <= i < |fields| :: HasUnencodable(fields[i].1, t)
    case _ => false
  }

  /** The type name of the first value `json.dumps` meets, in the order it
      writes them, that it cannot encode; `None` when it encodes all of `v`. */
  function Offender(v: Value): (r: Option<string>)
    ensures r.Some? ==> HasUnencodable(v, r.value)
    decreases v, 1
  {
    match v
    case Callable(t) => Some(t)
    case Opaque(t, _) => Some(t)
    case Arr(items) => ItemsOffender(items)
    case Obj(fields) => FieldsOffender(fields)
    case _ => None
  }

  function ItemsOffender(items: seq<Value>): (r: Option<string>)
    ensures r.Some? ==> exists i | 0 <= i < |items| :: HasUnencodable(items[i], r.value)
    decreases items, 0
  {
    if |items| == 0 then None
    else match Offender(items[0])
      case Some(t) => Some(t)
      case None =>
        var r := ItemsOffender(items[1..]);
        assert r.Some? ==> exists i | 1 <= i < |items| :: items[i] == items[1..][i - 1] && HasUnencodable(items[i], r.value);
        r
  }

  function FieldsOffender(fields: seq<(string, Value)>): (r: Option<string>)
    ensures r.Some? ==> exists i | 0 <= i < |fields| :: HasUnencodable(fields[i].1, r.value)
    decreases fields, 0
  {
    if |fields| == 0 then None
    else
      assert fields[0] in fields && fields[0].1 < fields[0];
      match Offender(fields[0].1)
      case Some(t) => Some(t)
      case None =>
        var r := FieldsOffender(fields[1..]);
        assert r.Some? ==> exists i | 1 <= i < |fields| :: fields[i] == fields[1..][i - 1] && HasUnencodable(fields[i].1, r.value);
        r
  }

  /** The text of the `TypeError` the JSON encoder raises for a value of type `t`. */
  function TypeErrorText(t: string): (r: string)
    ensures |r| == 15 + |t| + 25
    ensures r[..15] == "Object of type " && r[15..15 + |t|] == t
    ensures r[15 + |t|..] == " is not JSON serializable"
  {
    "Object of type " + t + " is not JSON serializable"
  }

  /** The encoder fails exactly on values that are not JSON. */
  lemma {:induction false} OffenderIffNotJson(v: Value)
    ensures Offender(v).None? <==> IsJson(v)
    decreases v, 1
  {
    match v
    case Arr(items) => ItemsOffenderIffNotJson(items);
    case Obj(fields) => FieldsOffenderIffNotJson(fields);
    case _ =>
  }

  lemma {:induction false} ItemsOffenderIffNotJson(items: seq<Value>)
    ensures ItemsOffender(items).None? <==> forall i | 0 <= i < |items| :: IsJson(items[i])
    decreases items, 0
  {
    if |items| > 0 {
      OffenderIffNotJson(items[0]);
      ItemsOffenderIffNotJson(items[1..]);
      assert forall i | 1 <= i < |items| :: items[i] == items[1..][i - 1];
    }
  }

  lemma {:induction false} FieldsOffenderIffNotJson(fields: seq<(string, Value)>)
    ensures FieldsOffender(fields).None? <==> forall i | 0 <= i < |fields| :: IsJson(fields[i].1)
    decreases fields, 0
  {
    if |fields| > 0 {
      assert fields[0] in fields && fields[0].1 < fields[0];
      OffenderIffNotJson(fields[0].1);
      FieldsOffenderIffNotJson(fields[1..]);
      assert forall i | 1 <= i < |fields| :: fields[i] == fields[1..][i - 1];
    }
  }
}
