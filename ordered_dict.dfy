/**
 * The `OrderedDict` that `check_input` builds from `zip(names, args)`: keys in
 * first-insertion order, assignment to a present key replacing its value in
 * place, assignment to a new key appending it.
 */
module OrderedDicts {
  import opened Results
  import opened Calls

  datatype OrderedDict = OrderedDict(keys: seq<string>, values: seq<Value>)

  const Empty := OrderedDict([], [])

  predicate Distinct(s: seq<string>)
  {
    forall i, j | 0 <= i < j < |s| :: s[i] != s[j]
  }

  /** One value per key, and no key twice. */
  predicate Valid(d: OrderedDict)
  {
    |d.keys| == |d.values| && Distinct(d.keys)
  }

  function Min(a: nat, b: nat): (m: nat)
    ensures m <= a && m <= b && (m == a || m == b)
  {
    if a < b then a else b
  }

  /** The position of the first occurrence of `k` in `keys`. */
  function Find(keys: seq<string>, k: string): (r: Option<nat>)
    ensures r.Some? <==> k in keys
    ensures r.Some? ==> r.value < |keys| && keys[r.value] == k && k !in keys[..r.value]
  {
    if |keys| == 0 then None
    else if keys[0] == k then Some(0)
    else match Find(keys[1..], k)
      case None => None
      case Some(i) =>
        assert keys[..i + 1] == [keys[0]] + keys[1..][..i];
        Some(i + 1)
  }

  /** `d[k]`: the value stored under `k`, or KeyError when `k` is absent. */
  function Get(d: OrderedDict, k: string): (r: Result<Value, Error>)
    requires Valid(d)
    ensures r.Failure? <==> k !in d.keys
    ensures r.Failure? ==> r.error == KeyError(k)
  {
    match Find(d.keys, k)
    case None => Failure(KeyError(k))
    case Some(i) => Success(d.values[i])
  }

  /** `d[k] = v`: a present key keeps its place, a new one goes last. */
  function Put(d: OrderedDict, k: string, v: Value): (r: OrderedDict)
    requires Valid(d)
    ensures Valid(r)
    ensures k in d.keys ==> r.keys == d.keys && |r.values| == |d.values|
    ensures k !in d.keys ==> r.keys == d.keys + [k] && r.values == d.values + [v]
  {
    match Find(d.keys, k)
    case None => OrderedDict(d.keys + [k], d.values + [v])
    case Some(i) => OrderedDict(d.keys, d.values[i := v])
  }

  /** The value stored at a key's position is what looking the key up gives. */
  lemma GetAt(d: OrderedDict, i: nat)
    requires Valid(d) && i < |d.keys|
    ensures Get(d, d.keys[i]) == Success(d.values[i])
  {
    var j := Find(d.keys, d.keys[i]).value;
    assert j == i;
  }

  /** Assigning to a present key replaces the value at its position and nothing else. */
  lemma PutAt(d: OrderedDict, i: nat, v: Value)
    requires Valid(d) && i < |d.keys|
    ensures Put(d, d.keys[i], v).values == d.values[i := v]
  {
    var j := Find(d.keys, d.keys[i]).value;
    assert j == i;
  }

  /** Reading after writing: the written key gives the new value, every other key what it gave before. */
  lemma {:induction false} GetPut(d: OrderedDict, k: string, v: Value, k': string)
    requires Valid(d)
    ensures Get(Put(d, k, v), k') == if k' == k then Success(v) else Get(d, k')
  {
    var r := Put(d, k, v);
    match Find(d.keys, k)
    case None =>
      assert r.keys[|d.keys|] == k;
      GetAt(r, |d.keys|);
      if k' != k && k' in d.keys {
        var i := Find(d.keys, k').value;
        GetAt(d, i);
        assert r.keys[i] == k';
        GetAt(r, i);
      }
    case Some(i) =>
      GetAt(r, i);
      if k' != k && k' in d.keys {
        var i' := Find(d.keys, k').value;
        GetAt(d, i');
        GetAt(r, i');
      }
  }

  /** `OrderedDict(zip(names, vals))`: the pairs of `zip` assigned one after the other. */
  function FromZip(names: seq<string>, vals: seq<Value>): (d: OrderedDict)
    ensures Valid(d)
    ensures |d.keys| <= Min(|names|, |vals|)
    decreases |names|
  {
    var m := Min(|names|, |vals|);
    if m == 0 then Empty
    else Put(FromZip(names[..m - 1], vals[..m - 1]), names[m - 1], vals[m - 1])
  }

  /** Only names that were paired with a value become keys. */
  lemma {:induction false} FromZipKeys(names: seq<string>, vals: seq<Value>, k: string)
    requires k in FromZip(names, vals).keys
    ensures k in names[..Min(|names|, |vals|)]
    decreases |names|
  {
    var m := Min(|names|, |vals|);
    var pre, prev := names[..m - 1], vals[..m - 1];
    if k != names[m - 1] {
      FromZipKeys(pre, prev, k);
      assert pre[..Min(|pre|, |prev|)] == names[..m - 1];
    }
  }

  lemma PrefixSnoc<T>(s: seq<T>, m: nat)
    requires 0 < m <= |s|
    ensures s[..m - 1] + [s[m - 1]] == s[..m]
  {
  }

  /** With distinct names, the dictionary holds exactly the zipped pairs, in order. */
  lemma {:induction false} FromZipDistinct(names: seq<string>, vals: seq<Value>)
    requires Distinct(names)
    ensures var m := Min(|names|, |vals|);
      FromZip(names, vals) == OrderedDict(names[..m], vals[..m])
    decreases |names|
  {
    var m := Min(|names|, |vals|);
    if m > 0 {
      var pre, prev := names[..m - 1], vals[..m - 1];
      assert Distinct(pre) by {
        forall i, j | 0 <= i < j < |pre| ensures pre[i] != pre[j] {
          assert pre[i] == names[i] && pre[j] == names[j];
        }
      }
      FromZipDistinct(pre, prev);
      assert pre[..m - 1] == pre && prev[..m - 1] == prev;
      assert names[m - 1] !in pre by {
        forall i | 0 <= i < |pre| ensures pre[i] != names[m - 1] {
          assert pre[i] == names[i];
        }
      }
      PrefixSnoc(names, m);
      PrefixSnoc(vals, m);
    }
  }

  /**
   * Looking a declared name up in the pairing of distinct names with
   * positional values finds the value at that name's position.
   */
  lemma FromZipGet(names: seq<string>, vals: seq<Value>, j: nat)
    requires Distinct(names) && j < |names| && j < |vals|
    ensures Get(FromZip(names, vals), names[j]) == Success(vals[j])
  {
    FromZipDistinct(names, vals);
    GetAt(FromZip(names, vals), j);
  }

  /** Assigning to a declared name in that pairing replaces its position only. */
  lemma FromZipPut(names: seq<string>, vals: seq<Value>, j: nat, v: Value)
    requires Distinct(names) && j < |names| && j < |vals|
    ensures Put(FromZip(names, vals), names[j], v).values == vals[..Min(|names|, |vals|)][j := v]
  {
    FromZipDistinct(names, vals);
    PutAt(FromZip(names, vals), j, v);
  }
}
