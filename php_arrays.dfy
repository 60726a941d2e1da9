/** PHP arrays with string keys: ordered lists of key/value entries in which no key appears
    twice, with the `array_keys`, `array_values`, `array_key_exists`, `$a[$k]`,
    `$a[$k] = $v` and `array_merge` operations the client uses. */
module PhpArrays {

  datatype Entry<V> = Entry(key: string, val: V)

  /** No key appears twice: what makes a list of entries a PHP array. */
  predicate Keyed<V>(a: seq<Entry<V>>)
  {
    forall i, j :: 0 <= i < j < |a| ==> a[i].key != a[j].key
  }

  type PhpArray<V> = a: seq<Entry<V>> | Keyed(a) witness []

  /** `array_keys($a)`, in order. */
  function Keys<V>(a: seq<Entry<V>>): (ks: seq<string>)
    ensures |ks| == |a|
    ensures forall i :: 0 <= i < |a| ==> ks[i] == a[i].key
  {
    seq(|a|, i requires 0 <= i < |a| => a[i].key)
  }

  /** `array_values($a)`, in order. */
  function Values<V>(a: seq<Entry<V>>): (vs: seq<V>)
    ensures |vs| == |a|
    ensures forall i :: 0 <= i < |a| ==> vs[i] == a[i].val
  {
    seq(|a|, i requires 0 <= i < |a| => a[i].val)
  }

  /** `array_key_exists($k, $a)`. */
  predicate HasKey<V>(a: seq<Entry<V>>, k: string)
  {
    k in Keys(a)
  }

  /** The position of key `k`. */
  function IndexOf<V>(a: seq<Entry<V>>, k: string): (i: nat)
    requires HasKey(a, k)
    ensures i < |a| && a[i].key == k
    ensures forall j :: 0 <= j < i ==> a[j].key != k
  {
    if a[0].key == k then 0
    else
      assert k in Keys(a[1..]) by {
        var j :| 0 <= j < |a| && a[j].key == k;
        assert Keys(a[1..])[j - 1] == k;
      }
      1 + IndexOf(a[1..], k)
  }

  /** `$a[$k]` for a key that is present. */
  function Get<V>(a: PhpArray<V>, k: string): (v: V)
    requires HasKey(a, k)
    ensures forall i :: 0 <= i < |a| && a[i].key == k ==> v == a[i].val
  {
    a[IndexOf(a, k)].val
  }

  /** `$a[$k] = $v`: a present key keeps its position and takes the new value; a new key is
      appended at the end. */
  function Put<V>(a: PhpArray<V>, k: string, v: V): (r: PhpArray<V>)
    ensures HasKey(a, k) ==> Keys(r) == Keys(a)
    ensures !HasKey(a, k) ==> Keys(r) == Keys(a) + [k]
    ensures HasKey(r, k) && Get(r, k) == v
    ensures forall k' :: k' != k && HasKey(a, k') ==> Get(r, k') == Get(a, k')
  {
    if HasKey(a, k) then
      var r := a[IndexOf(a, k) := Entry(k, v)];
      assert Keys(r) == Keys(a);
      r
    else
      var r := a + [Entry(k, v)];
      assert Keys(r) == Keys(a) + [k];
      assert r[|a|].key == k;
      r
  }

  /** `array_merge($a, $b)` for string keys: each entry of `b` is put into `a` in turn. */
  function Merge<V>(a: PhpArray<V>, b: PhpArray<V>): PhpArray<V>
    decreases |b|
  {
    if b == [] then a
    else Merge(Put(a, b[0].key, b[0].val), b[1..])
  }

  /** After a merge exactly the keys of both arrays are present. */
  lemma {:induction false} MergeKeys<V>(a: PhpArray<V>, b: PhpArray<V>, k: string)
    ensures HasKey(Merge(a, b), k) <==> HasKey(a, k) || HasKey(b, k)
    decreases |b|
  {
    if b != [] {
      var a' := Put(a, b[0].key, b[0].val);
      var b': PhpArray<V> := b[1..];
      MergeKeys(a', b', k);
      HasKeyCons(b, k);
      PutHasKey(a, b[0].key, b[0].val, k);
    }
  }

  /** A key is in a non-empty array when it is the first key or a key of the tail. */
  lemma HasKeyCons<V>(b: PhpArray<V>, k: string)
    requires b != []
    ensures HasKey(b, k) <==> k == b[0].key || HasKey(b[1..], k)
  {
    assert Keys(b) == [b[0].key] + Keys(b[1..]);
  }

  /** After `$a[$k] = $v` exactly the old keys and `k` are present. */
  lemma PutHasKey<V>(a: PhpArray<V>, k: string, v: V, k': string)
    ensures HasKey(Put(a, k, v), k') <==> HasKey(a, k') || k' == k
  {
  }

  /** A key only in the first array keeps its value from it. */
  lemma {:induction false} MergeFirstKept<V>(a: PhpArray<V>, b: PhpArray<V>, k: string)
    requires HasKey(a, k) && !HasKey(b, k)
    ensures HasKey(Merge(a, b), k) && Get(Merge(a, b), k) == Get(a, k)
    decreases |b|
  {
    if b != [] {
      var a' := Put(a, b[0].key, b[0].val);
      var b': PhpArray<V> := b[1..];
      assert k != b[0].key && !HasKey(b', k) by {
        assert Keys(b) == [b[0].key] + Keys(b');
      }
      assert HasKey(a', k) && Get(a', k) == Get(a, k);
      MergeFirstKept(a', b', k);
    }
  }

  /** The first key of an array does not appear again in its tail. */
  lemma HeadNotInTail<V>(b: PhpArray<V>)
    requires b != []
    ensures !HasKey(b[1..], b[0].key)
  {
  }

  /** Any other key of an array is found, with the same value, in its tail. */
  lemma GetFromTail<V>(b: PhpArray<V>, k: string)
    requires HasKey(b, k) && k != b[0].key
    ensures HasKey(b[1..], k) && Get(b[1..], k) == Get(b, k)
  {
    var i := IndexOf(b, k);
    assert b[1..][i - 1] == b[i];
    assert Keys(b[1..])[i - 1] == k;
  }

  /** A key of the second array has its value from it. */
  lemma {:induction false} MergeSecondWins<V>(a: PhpArray<V>, b: PhpArray<V>, k: string)
    requires HasKey(b, k)
    ensures HasKey(Merge(a, b), k) && Get(Merge(a, b), k) == Get(b, k)
    decreases |b|
  {
    var a' := Put(a, b[0].key, b[0].val);
    var b': PhpArray<V> := b[1..];
    if k == b[0].key {
      HeadNotInTail(b);
      MergeFirstKept(a', b', k);
    } else {
      GetFromTail(b, k);
      MergeSecondWins(a', b', k);
    }
  }

  /** `array_merge` for string keys: exactly the keys of both arrays are present; a key of
      `b` has its value from `b` and a key only in `a` keeps its value from `a`. */
  lemma MergeLookup<V>(a: PhpArray<V>, b: PhpArray<V>, k: string)
    ensures HasKey(Merge(a, b), k) <==> HasKey(a, k) || HasKey(b, k)
    ensures HasKey(b, k) ==> Get(Merge(a, b), k) == Get(b, k)
    ensures !HasKey(b, k) && HasKey(a, k) ==> Get(Merge(a, b), k) == Get(a, k)
  {
    MergeKeys(a, b, k);
    if HasKey(b, k) {
      MergeSecondWins(a, b, k);
    } else if HasKey(a, k) {
      MergeFirstKept(a, b, k);
    }
  }

  /** A merge keeps the keys of `a` in front, in their original order. */
  lemma {:induction false} MergeKeepsOrder<V>(a: PhpArray<V>, b: PhpArray<V>)
    ensures |Merge(a, b)| >= |a|
    ensures Keys(Merge(a, b))[..|a|] == Keys(a)
    decreases |b|
  {
    if b != [] {
      var a' := Put(a, b[0].key, b[0].val);
      MergeKeepsOrder(a', b[1..]);
      assert Keys(a')[..|a|] == Keys(a);
      assert Keys(Merge(a', b[1..]))[..|a|] == Keys(Merge(a', b[1..]))[..|a'|][..|a|];
    }
  }
}
