/**
 * The JSON values the scrapers read and write, with the few Python dict/list
 * operations the scripts apply to them (`d.get(k)`, `d[k]`, `len(x)`,
 * `for x in v`, truthiness, `d.pop(k, None)`).
 *
 * Objects keep their members in insertion order, as Python dicts do.
 * A `JObj` may list a key twice, but the dicts `json.loads` builds never
 * do (a repeated key in the text keeps only its last value): those satisfy
 * `DistinctKeys`, and for them `Iter` and `Len` see each key once.
 * Numbers are exact rationals.
 */
module JsonModel {
  import opened Wrappers

  datatype Json =
    | JNull
    | JBool(b: bool)
    | JNum(n: real)
    | JStr(s: string)
    | JArr(items: seq<Json>)
    | JObj(fields: seq<(string, Json)>)

  /** The value bound to `key` in a list of members; a later binding shadows an earlier one. */
  function Lookup(fields: seq<(string, Json)>, key: string): (r: Option<Json>)
    decreases |fields|
  {
    if fields == [] then None
    else if fields[|fields| - 1].0 == key then Some(fields[|fields| - 1].1)
    else
      Lookup(fields[..|fields| - 1], key)
  }

  /** `Lookup` finds a value exactly when some member has the key, and what it finds is bound to the key. */
  lemma {:induction false} LookupSpec(fields: seq<(string, Json)>, key: string)
    ensures Lookup(fields, key).Some? <==> exists k :: 0 <= k < |fields| && fields[k].0 == key
    ensures Lookup(fields, key).Some? ==> exists k :: 0 <= k < |fields| && fields[k] == (key, Lookup(fields, key).value)
    decreases |fields|
  {
    if fields != [] && fields[|fields| - 1].0 != key {
      var front := fields[..|fields| - 1];
      LookupSpec(front, key);
      assert forall k :: 0 <= k < |front| ==> front[k] == fields[k];
    }
  }

  /** `d.get(key)` on a dict; `None` also when `j` is not an object. */
  function Get(j: Json, key: string): Option<Json> {
    if j.JObj? then Lookup(j.fields, key) else None
  }

  /** `d.get(key)` where Python's `None` is the JSON `null`. */
  function GetOrNull(j: Json, key: string): Json {
    Get(j, key).GetOr(JNull)
  }

  /** The member names of an object, in order. */
  function Keys(fields: seq<(string, Json)>): (r: seq<string>)
    ensures |r| == |fields| && forall k :: 0 <= k < |fields| ==> r[k] == fields[k].0
  {
    seq(|fields|, k requires 0 <= k < |fields| => fields[k].0)
  }

  /** A name is among the keys exactly when looking it up finds a value. */
  lemma KeysLookup(fields: seq<(string, Json)>, key: string)
    ensures key in Keys(fields) <==> Lookup(fields, key).Some?
  {
    LookupSpec(fields, key);
    if key in Keys(fields) {
      var k :| 0 <= k < |Keys(fields)| && Keys(fields)[k] == key;
      assert fields[k].0 == key;
    }
  }

  /** No key appears twice among the members, as in every dict `json.loads` builds. */
  predicate DistinctKeys(fields: seq<(string, Json)>) {
    forall i, j :: 0 <= i < j < |fields| ==> fields[i].0 != fields[j].0
  }

  /** Iterating a dict without repeated keys yields each of its keys exactly once. */
  lemma IterDistinctKeys(fields: seq<(string, Json)>)
    requires DistinctKeys(fields)
    ensures var keys := Iter(JObj(fields)).value;
      && (forall i, j :: 0 <= i < j < |keys| ==> keys[i] != keys[j])
      && (forall key :: JStr(key) in keys <==> Lookup(fields, key).Some?)
  {
    var keys := Iter(JObj(fields)).value;
    forall key
      ensures JStr(key) in keys <==> Lookup(fields, key).Some?
    {
      KeysLookup(fields, key);
      if JStr(key) in keys {
        var k :| 0 <= k < |keys| && keys[k] == JStr(key);
        assert Keys(fields)[k] == key;
      }
      if key in Keys(fields) {
        var k :| 0 <= k < |fields| && Keys(fields)[k] == key;
        assert keys[k] == JStr(key);
      }
    }
  }

  /** Python truthiness of a JSON value. */
  predicate Truthy(j: Json) {
    match j
    case JNull => false
    case JBool(b) => b
    case JNum(n) => n != 0.0
    case JStr(s) => s != ""
    case JArr(items) => items != []
    case JObj(fields) => fields != []
  }

  /** `x == 0` in Python: true for the number zero and for `False`. */
  predicate EqualsZero(j: Json) {
    j == JNum(0.0) || j == JBool(false)
  }

  /**
   * What `for x in j` (or `list.extend(j)`) yields: the items of a list, the
   * keys of a dict, the one-character strings of a string; `None` where
   * Python raises `TypeError` (null, booleans, numbers).
   */
  function Iter(j: Json): (r: Option<seq<Json>>)
    ensures r.Some? <==> (j.JArr? || j.JObj? || j.JStr?)
    ensures j.JArr? ==> r == Some(j.items)
  {
    match j
    case JArr(items) => Some(items)
    case JObj(fields) => Some(seq(|fields|, k requires 0 <= k < |fields| => JStr(fields[k].0)))
    case JStr(s) => Some(seq(|s|, k requires 0 <= k < |s| => JStr([s[k]])))
    case _ => None
  }

  /** `len(j)`; `None` where Python raises `TypeError`. */
  function Len(j: Json): (r: Option<nat>)
    ensures r.Some? <==> Iter(j).Some?
    ensures r.Some? ==> r.value == |Iter(j).value|
  {
    match j
    case JArr(items) => Some(|items|)
    case JObj(fields) => Some(|fields|)
    case JStr(s) => Some(|s|)
    case _ => None
  }

  /** `d.pop(key, None)` on a dict: every binding of `key` is dropped, the rest keep their order. */
  function RemoveKey(fields: seq<(string, Json)>, key: string): (r: seq<(string, Json)>)
    ensures Lookup(r, key) == None
    ensures forall m :: m in r <==> m in fields && m.0 != key
    decreases |fields|
  {
    if fields == [] then []
    else
      var rest := RemoveKey(fields[1..], key);
      assert forall m :: m in fields <==> m == fields[0] || m in fields[1..];
      var r := if fields[0].0 == key then rest else [fields[0]] + rest;
      LookupSpec(r, key);
      r
  }

  /** `d[key] = v` on a dict: an existing binding is overwritten where it stands, a new one goes last. */
  function SetKey(fields: seq<(string, Json)>, key: string, v: Json): (r: seq<(string, Json)>)
    ensures Lookup(r, key) == Some(v)
    ensures forall m {:trigger m in r} :: m in r <==> (m in fields && m.0 != key) || m == (key, v)
    ensures forall other {:trigger Lookup(r, other)} :: other != key ==> Lookup(r, other) == Lookup(fields, other)
  {
    LookupSpec(fields, key);
    if Lookup(fields, key).None? then
      var r := fields + [(key, v)];
      assert r[..|fields|] == fields;
      r
    else
      var r := seq(|fields|, k requires 0 <= k < |fields| => if fields[k].0 == key then (key, v) else fields[k]);
      var i :| 0 <= i < |fields| && fields[i].0 == key;
      assert r[i] == (key, v);
      assert forall k :: 0 <= k < |fields| && fields[k].0 != key ==> r[k] == fields[k];
      LookupSpec(r, key);
      OverwriteOthers(fields, r, key, v);
      r
  }

  /** Overwriting the bindings of `key` in place leaves every other key's lookup as it was. */
  lemma OverwriteOthers(fields: seq<(string, Json)>, r: seq<(string, Json)>, key: string, v: Json)
    requires |r| == |fields|
    requires forall k :: 0 <= k < |fields| ==> r[k] == if fields[k].0 == key then (key, v) else fields[k]
    ensures forall other :: other != key ==> Lookup(r, other) == Lookup(fields, other)
  {
    forall other | other != key
      ensures Lookup(r, other) == Lookup(fields, other)
    {
      OverwriteOther(fields, r, key, v, other);
    }
  }

  /** One key other than the overwritten one reads the same before and after. */
  lemma {:induction false} OverwriteOther(fields: seq<(string, Json)>, r: seq<(string, Json)>, key: string, v: Json,
                                          other: string)
    requires |r| == |fields|
    requires forall k :: 0 <= k < |fields| ==> r[k] == if fields[k].0 == key then (key, v) else fields[k]
    requires other != key
    ensures Lookup(r, other) == Lookup(fields, other)
    decreases |fields|
  {
    if fields != [] {
      var n := |fields| - 1;
      OverwriteOther(fields[..n], r[..n], key, v, other);
    }
  }

  /** The number a value stands for in arithmetic and comparisons: booleans count as 0 and 1; `None` where Python raises `TypeError`. */
  function NumberValue(j: Json): (r: Option<real>)
    ensures r.Some? <==> j.JNum? || j.JBool?
    ensures j.JNum? ==> r == Some(j.n)
  {
    match j
    case JNum(n) => Some(n)
    case JBool(b) => Some(if b then 1.0 else 0.0)
    case _ => None
  }

  /** `j.get(key, default)`: only dicts have `get` (`AttributeError` otherwise). */
  function DictGet(j: Json, key: string, default: Json): Result<Json, Crash> {
    if j.JObj? then Success(Lookup(j.fields, key).GetOr(default))
    else Failure(Crash("AttributeError: object has no attribute 'get'"))
  }

  /** `j[key]`: a dict without the key raises `KeyError`, anything but a dict `TypeError`. */
  datatype SubscriptError = KeyMissing | NotSubscriptable

  function Subscript(j: Json, key: string): (r: Result<Json, SubscriptError>)
    ensures r.Success? <==> j.JObj? && Lookup(j.fields, key).Some?
    ensures r == Failure(KeyMissing) <==> j.JObj? && Lookup(j.fields, key).None?
  {
    if !j.JObj? then Failure(NotSubscriptable)
    else match Lookup(j.fields, key)
      case None => Failure(KeyMissing)
      case Some(v) => Success(v)
  }

  /** `j[key]` where neither error is caught. */
  function Index(j: Json, key: string): Result<Json, Crash> {
    match Subscript(j, key)
    case Success(v) => Success(v)
    case Failure(KeyMissing) => Failure(Crash("KeyError"))
    case Failure(NotSubscriptable) => Failure(Crash("TypeError: not subscriptable by a string"))
  }

  /** `j[0]`. */
  function First(j: Json): Result<Json, Crash> {
    match j
    case JArr(items) => if items == [] then Failure(Crash("IndexError: list index out of range")) else Success(items[0])
    case JStr(s) => if s == [] then Failure(Crash("IndexError: string index out of range")) else Success(JStr([s[0]]))
    case JObj(_) => Failure(Crash("KeyError: 0"))
    case _ => Failure(Crash("TypeError: not subscriptable"))
  }
}
