/**
 * JSON values as Python's `json.loads` hands them to the server: `None`, `bool`,
 * `int`, `float`, `str`, `list` and `dict`. A dict is kept as its list of
 * (key, value) members in insertion order, because several results of the
 * ingestion (keyword-argument order, error messages, `model_to_dict`) depend on
 * that order.
 */
module JsonData {
  import opened Wrappers

  datatype Json =
    | JNull
    | JBool(b: bool)
    | JInt(i: int)
    | JFloat(f: real)
    | JStr(s: string)
    | JArray(items: seq<Json>)
    | JObject(members: seq<(string, Json)>)

  /**
   * What `json.loads` does with a text: returns a value, raises
   * `JSONDecodeError` on text that is not JSON, or raises another exception:
   * `UnicodeDecodeError` on bytes that are not UTF-8, UTF-16 or UTF-32, and
   * `RecursionError` on arrays or objects nested past the interpreter's limit.
   */
  datatype Loaded = Parsed(value: Json) | DecodeError | OtherError

  /**
   * The value stored under `key`, like `dict.get(key)` on the dict `json.loads`
   * builds from these members: when a key is repeated, the last value wins.
   */
  function Lookup<V>(members: seq<(string, V)>, key: string): (r: Option<V>)
    ensures r.Some? <==> exists i :: 0 <= i < |members| && members[i].0 == key
    ensures r.Some? ==> exists i :: 0 <= i < |members| && members[i] == (key, r.value)
                          && forall j :: i < j < |members| ==> members[j].0 != key
  {
    if members == [] then None
    else if members[|members| - 1].0 == key then Some(members[|members| - 1].1)
    else
      var r := Lookup(members[..|members| - 1], key);
      assert forall i :: 0 <= i < |members| - 1 ==> members[i] == members[..|members| - 1][i];
      r
  }

  /** `dict.get(key, default)`. */
  function GetOr<V>(members: seq<(string, V)>, key: string, default: V): V
  {
    match Lookup(members, key)
    case Some(v) => v
    case None => default
  }

  /** With no repeated keys, the value under the key of member `i` is that member's. */
  lemma LookupDistinct<V>(members: seq<(string, V)>, i: nat)
    requires forall a, b :: 0 <= a < b < |members| ==> members[a].0 != members[b].0
    requires i < |members|
    ensures Lookup(members, members[i].0) == Some(members[i].1)
  {
  }

  /** `d[key] = v`: the value of an existing key is replaced where it stands; a new key is appended. */
  function SetItem<V>(members: seq<(string, V)>, key: string, v: V): seq<(string, V)>
  {
    if exists i :: 0 <= i < |members| && members[i].0 == key then
      seq(|members|, i requires 0 <= i < |members| => if members[i].0 == key then (key, v) else members[i])
    else members + [(key, v)]
  }

  /** The keys of a dict in iteration order: each key once, where it first appeared. */
  function Keys<V>(members: seq<(string, V)>): (ks: seq<string>)
    ensures forall k :: k in ks <==> exists i :: 0 <= i < |members| && members[i].0 == k
    ensures forall i, j :: 0 <= i < j < |ks| ==> ks[i] != ks[j]
  {
    if members == [] then []
    else
      var ks := Keys(members[..|members| - 1]);
      assert forall i :: 0 <= i < |members| - 1 ==> members[i] == members[..|members| - 1][i];
      var k := members[|members| - 1].0;
      if k in ks then ks else ks + [k]
  }

  /** Without repeated keys, the dict's keys are the members' keys in order. */
  lemma {:induction false} KeysOfDistinct<V>(members: seq<(string, V)>)
    requires forall i, j :: 0 <= i < j < |members| ==> members[i].0 != members[j].0
    ensures |Keys(members)| == |members|
    ensures forall i :: 0 <= i < |members| ==> Keys(members)[i] == members[i].0
  {
    if members != [] {
      var init := members[..|members| - 1];
      KeysOfDistinct(init);
      assert forall i :: 0 <= i < |init| ==> init[i] == members[i];
    }
  }

  /** `p` is the position where key `k` first occurs among the members. */
  predicate FirstAt<V>(members: seq<(string, V)>, k: string, p: int)
  {
    0 <= p < |members| && members[p].0 == k && forall q :: 0 <= q < p ==> members[q].0 != k
  }

  /** A key that already occurs in a prefix first occurs inside that prefix. */
  lemma FirstAtInPrefix<V>(members: seq<(string, V)>, n: nat, k: string, p: int)
    requires n <= |members| && FirstAt(members, k, p)
    requires exists i :: 0 <= i < n && members[i].0 == k
    ensures p < n && FirstAt(members[..n], k, p)
  {
  }

  /**
   * A dict keeps each key at the position of its first insertion: the keys
   * come in the order in which they first occur among the members, whatever
   * repetitions follow.
   */
  lemma {:induction false} KeysFirstAppearanceOrder<V>(members: seq<(string, V)>)
    ensures forall i, j, p, q ::
              0 <= i < j < |Keys(members)| && FirstAt(members, Keys(members)[i], p) && FirstAt(members, Keys(members)[j], q)
              ==> p < q
  {
    if members != [] {
      var n := |members| - 1;
      var init := members[..n];
      KeysFirstAppearanceOrder(init);
      var ks := Keys(members);
      var ki := Keys(init);
      forall i, j, p, q | 0 <= i < j < |ks| && FirstAt(members, ks[i], p) && FirstAt(members, ks[j], q)
        ensures p < q
      {
        assert ks[i] == ki[i] && ks[i] in ki;
        assert exists a :: 0 <= a < |init| && init[a].0 == ks[i];
        FirstAtInPrefix(members, n, ks[i], p);
        if j < |ki| {
          assert ks[j] == ki[j] && ks[j] in ki;
          assert exists a :: 0 <= a < |init| && init[a].0 == ks[j];
          FirstAtInPrefix(members, n, ks[j], q);
        } else {
          assert ks[j] == members[n].0 && ks[j] !in ki;
          assert forall a :: 0 <= a < n ==> members[a].0 == init[a].0;
        }
      }
    }
  }

  /** No key occurs twice, as in any dict. */
  predicate DistinctKeys<V>(members: seq<(string, V)>)
  {
    forall a, b :: 0 <= a < b < |members| ==> members[a].0 != members[b].0
  }

  /**
   * `d[key] = v` on a dict: the keys stay distinct, a new key goes last, and
   * afterwards `key` holds `v` while every other key keeps its value.
   */
  lemma SetItemEffect<V>(members: seq<(string, V)>, key: string, v: V)
    requires DistinctKeys(members)
    ensures DistinctKeys(SetItem(members, key, v))
    ensures Keys(SetItem(members, key, v)) == if key in Keys(members) then Keys(members) else Keys(members) + [key]
    ensures forall n :: Lookup(SetItem(members, key, v), n) == if n == key then Some(v) else Lookup(members, n)
  {
    if exists i :: 0 <= i < |members| && members[i].0 == key {
      var i :| 0 <= i < |members| && members[i].0 == key;
      SetExistingItem(members, key, v, i);
    } else {
      SetNewItem(members, key, v);
    }
  }

  lemma SetExistingItem<V>(members: seq<(string, V)>, key: string, v: V, i: nat)
    requires DistinctKeys(members) && i < |members| && members[i].0 == key
    ensures DistinctKeys(SetItem(members, key, v))
    ensures key in Keys(members) && Keys(SetItem(members, key, v)) == Keys(members)
    ensures forall n :: Lookup(SetItem(members, key, v), n) == if n == key then Some(v) else Lookup(members, n)
  {
    var m' := SetItem(members, key, v);
    ReplacedShape(members, key, v, i);
    SameKeys(members, m');
    forall n ensures Lookup(m', n) == if n == key then Some(v) else Lookup(members, n) {
      ReplacedLookup(members, m', key, v, i, n);
    }
  }

  lemma ReplacedShape<V>(members: seq<(string, V)>, key: string, v: V, i: nat)
    requires DistinctKeys(members) && i < |members| && members[i].0 == key
    ensures var m' := SetItem(members, key, v);
      |m'| == |members| && DistinctKeys(m')
      && forall a :: 0 <= a < |members| ==> m'[a] == if members[a].0 == key then (key, v) else members[a]
  {
    assert members[i].0 == key;
  }

  /** Assigning to a key a dict already holds, once, rewrites that member in place. */
  lemma SetItemAt<V>(members: seq<(string, V)>, i: nat, v: V)
    requires DistinctKeys(members) && i < |members|
    ensures SetItem(members, members[i].0, v) == members[i := (members[i].0, v)]
  {
    var key := members[i].0;
    ReplacedShape(members, key, v, i);
    var m' := SetItem(members, key, v);
    forall a | 0 <= a < |members| ensures m'[a] == members[i := (key, v)][a] {
      if a != i {
        assert members[a].0 != key;
      }
    }
  }

  /** Two dicts without repeated keys whose members carry the same keys in the same order have the same keys. */
  lemma SameKeys<V>(members: seq<(string, V)>, m': seq<(string, V)>)
    requires DistinctKeys(members) && DistinctKeys(m') && |m'| == |members|
    requires forall a :: 0 <= a < |members| ==> m'[a].0 == members[a].0
    ensures Keys(m') == Keys(members)
  {
    KeysOfDistinct(members);
    KeysOfDistinct(m');
  }

  lemma ReplacedLookup<V>(members: seq<(string, V)>, m': seq<(string, V)>, key: string, v: V, i: nat, n: string)
    requires DistinctKeys(members) && |m'| == |members| && i < |members| && members[i].0 == key
    requires forall a :: 0 <= a < |members| ==> m'[a] == if members[a].0 == key then (key, v) else members[a]
    ensures Lookup(m', n) == if n == key then Some(v) else Lookup(members, n)
  {
    assert DistinctKeys(m');
    if j :| 0 <= j < |members| && members[j].0 == n {
      LookupDistinct(members, j);
      LookupDistinct(m', j);
    } else {
      assert forall a :: 0 <= a < |m'| ==> m'[a].0 != n;
      if n == key {
        assert false;
      }
    }
  }

  lemma SetNewItem<V>(members: seq<(string, V)>, key: string, v: V)
    requires DistinctKeys(members) && forall i :: 0 <= i < |members| ==> members[i].0 != key
    ensures DistinctKeys(SetItem(members, key, v))
    ensures key !in Keys(members) && Keys(SetItem(members, key, v)) == Keys(members) + [key]
    ensures forall n :: Lookup(SetItem(members, key, v), n) == if n == key then Some(v) else Lookup(members, n)
  {
    var m' := SetItem(members, key, v);
    assert m' == members + [(key, v)];
    assert m'[..|m'| - 1] == members;
  }

  /** Python's `type(v).__name__`, as it appears in AttributeError messages. */
  function TypeName(v: Json): string
  {
    match v
    case JNull => "NoneType"
    case JBool(_) => "bool"
    case JInt(_) => "int"
    case JFloat(_) => "float"
    case JStr(_) => "str"
    case JArray(_) => "list"
    case JObject(_) => "dict"
  }

  /** Django's `empty_values`: `None`, `''`, `[]`, `()` and `{}`. */
  predicate IsEmptyValue(v: Json)
  {
    v == JNull || v == JStr("") || v == JArray([]) || v == JObject([])
  }
}
