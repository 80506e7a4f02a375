/**
  The PHP values the client inspects, and PHP's ordered arrays with string keys.
  An array is the sequence of its entries in insertion order; the operations
  below are the PHP built-ins the client uses on them.
 */
module PhpArrays {

  datatype Value =
    | Null
    | Bool(b: bool)
    | Int(i: int)
    | Str(s: string)
    | Arr(entries: seq<Entry>)

  datatype Entry = Entry(key: string, val: Value)

  /** The values PHP's (bool) cast turns into false. */
  const FalsyValues: set<Value> := {Null, Bool(false), Int(0), Str(""), Str("0"), Arr([])}

  /** PHP's (bool) cast. */
  predicate Truthy(v: Value)
    ensures Truthy(v) <==> v !in FalsyValues
  {
    match v
    case Null => false
    case Bool(b) => b
    case Int(i) => i != 0
    case Str(s) => s != "" && s != "0"
    case Arr(e) => e != []
  }

  /** No key occurs twice: what every PHP array satisfies. */
  ghost predicate DistinctKeys(a: seq<Entry>) {
    forall i, j | 0 <= i < j < |a| :: a[i].key != a[j].key
  }

  /** array_keys: the keys of the array, in order. */
  function Keys(a: seq<Entry>): (ks: seq<string>)
    ensures |ks| == |a|
    ensures forall i | 0 <= i < |a| :: ks[i] == a[i].key
  {
    if a == [] then [] else [a[0].key] + Keys(a[1..])
  }

  /** array_key_exists. */
  predicate HasKey(a: seq<Entry>, k: string)
    ensures HasKey(a, k) <==> exists i | 0 <= i < |a| :: a[i].key == k
  {
    k in Keys(a)
  }

  /** `$a[k]` for a key that exists: the value of its (first and only) entry. */
  function Get(a: seq<Entry>, k: string): (v: Value)
    requires HasKey(a, k)
    ensures exists i | 0 <= i < |a| :: a[i].key == k && a[i].val == v
    ensures DistinctKeys(a) ==> forall i | 0 <= i < |a| && a[i].key == k :: a[i].val == v
  {
    if a[0].key == k then a[0].val else Get(a[1..], k)
  }

  /** `$a[k] = v`: the entry of k gets the new value in place, or a new entry is appended. */
  function Set(a: seq<Entry>, k: string, v: Value): (r: seq<Entry>)
    ensures Keys(r) == if HasKey(a, k) then Keys(a) else Keys(a) + [k]
  {
    if a == [] then [Entry(k, v)]
    else if a[0].key == k then [Entry(k, v)] + a[1..]
    else
      var r := [a[0]] + Set(a[1..], k, v);
      assert Keys(r) == [a[0].key] + Keys(Set(a[1..], k, v));
      assert Keys(a) == [a[0].key] + Keys(a[1..]);
      r
  }

  /** After `$a[k] = v`, the key exists and holds v. */
  lemma {:induction false} SetStores(a: seq<Entry>, k: string, v: Value)
    ensures HasKey(Set(a, k, v), k) && Get(Set(a, k, v), k) == v
  {
    if a != [] && a[0].key != k {
      SetStores(a[1..], k, v);
    }
  }

  /** Assigning one key leaves the value of every other key as it was. */
  lemma {:induction false} SetKeepsOthers(a: seq<Entry>, k: string, v: Value, k': string)
    requires k' != k && HasKey(a, k')
    ensures HasKey(Set(a, k, v), k') && Get(Set(a, k, v), k') == Get(a, k')
  {
    if a[0].key != k' && a[0].key != k {
      SetKeepsOthers(a[1..], k, v, k');
    }
  }

  /** Assigning a key keeps the keys of an array distinct. */
  lemma SetKeepsDistinct(a: seq<Entry>, k: string, v: Value)
    requires DistinctKeys(a)
    ensures DistinctKeys(Set(a, k, v))
  {
    var r := Set(a, k, v);
    forall i, j | 0 <= i < j < |r| ensures r[i].key != r[j].key {
      assert Keys(r)[i] == r[i].key && Keys(r)[j] == r[j].key;
    }
  }

  /** unset($a[k]): the entry of k is removed, the others keep their order. */
  function Unset(a: seq<Entry>, k: string): (r: seq<Entry>)
    ensures Keys(r) == Diff(Keys(a), [k])
    ensures !HasKey(r, k)
  {
    if a == [] then []
    else
      assert Keys(a) == [a[0].key] + Keys(a[1..]);
      if a[0].key == k then Unset(a[1..], k)
      else [a[0]] + Unset(a[1..], k)
  }

  /** Unsetting one key leaves the value of every other key as it was. */
  lemma {:induction false} UnsetKeepsOthers(a: seq<Entry>, k: string, k': string)
    requires k' != k && HasKey(a, k')
    ensures HasKey(Unset(a, k), k') && Get(Unset(a, k), k') == Get(a, k')
  {
    if a[0].key != k' {
      UnsetKeepsOthers(a[1..], k, k');
    }
  }

  /** Unsetting a key that is absent changes nothing. */
  lemma {:induction false} UnsetAbsent(a: seq<Entry>, k: string)
    requires !HasKey(a, k)
    ensures Unset(a, k) == a
  {
    if a != [] {
      UnsetAbsent(a[1..], k);
    }
  }

  /** Unsetting a key keeps the keys of an array distinct. */
  lemma {:induction false} UnsetKeepsDistinct(a: seq<Entry>, k: string)
    requires DistinctKeys(a)
    ensures DistinctKeys(Unset(a, k))
  {
    if a != [] {
      UnsetKeepsDistinct(a[1..], k);
      var r := Unset(a, k);
      forall i, j | 0 <= i < j < |r| ensures r[i].key != r[j].key {
        assert Keys(r)[i] == r[i].key && Keys(r)[j] == r[j].key;
      }
    }
  }

  /** array_diff on lists of strings: the elements of xs that do not occur in ys, in order. */
  function Diff(xs: seq<string>, ys: seq<string>): (r: seq<string>)
    ensures forall x :: x in r <==> x in xs && x !in ys
    ensures |r| <= |xs|
    ensures r == [] <==> forall i | 0 <= i < |xs| :: xs[i] in ys
  {
    if xs == [] then []
    else if xs[0] in ys then Diff(xs[1..], ys)
    else [xs[0]] + Diff(xs[1..], ys)
  }
}
