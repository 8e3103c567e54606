/** JavaScript objects used as dictionaries (`Record<string, V>`): a sequence of
    entries in `for…in` iteration order, in which no key occurs twice. */
module Records {

  datatype Option<+T> = None | Some(value: T)

  datatype Entry<+V> = Entry(key: string, value: V)

  /** No two entries share a key, as in any JavaScript object. */
  predicate DistinctKeys<V>(r: seq<Entry<V>>) {
    forall i, j :: 0 <= i < j < |r| ==> r[i].key != r[j].key
  }

  type Record<V> = r: seq<Entry<V>> | DistinctKeys(r) witness []

  /** The keys in iteration order (`Object.keys`). */
  function Keys<V>(r: seq<Entry<V>>): seq<string> {
    seq(|r|, i requires 0 <= i < |r| => r[i].key)
  }

  /** Property read `r[k]`; `None` stands for `undefined`. */
  function Get<V>(r: seq<Entry<V>>, k: string): (v: Option<V>)
    ensures v.Some? <==> k in Keys(r)
    ensures v.Some? ==> exists i :: 0 <= i < |r| && r[i] == Entry(k, v.value)
  {
    if |r| == 0 then None
    else if r[0].key == k then assert Keys(r)[0] == k; Some(r[0].value)
    else
      assert Keys(r) == [r[0].key] + Keys(r[1..]);
      var v := Get(r[1..], k);
      assert v.Some? ==> exists i :: 0 <= i < |r[1..]| && r[1..][i] == Entry(k, v.value);
      v
  }

  /** Appending an entry under a fresh key keeps the keys distinct. */
  lemma DistinctAppend<V>(r: seq<Entry<V>>, e: Entry<V>)
    requires DistinctKeys(r) && e.key !in Keys(r)
    ensures DistinctKeys(r + [e])
  {
    forall i, j | 0 <= i < j < |r| + 1
      ensures (r + [e])[i].key != (r + [e])[j].key
    {
      if j == |r| {
        assert Keys(r)[i] == r[i].key;
      }
    }
  }

  /** In a record, the entry at position `i` is what a read of its key finds. */
  lemma {:induction false} GetAt<V>(r: seq<Entry<V>>, i: nat)
    requires DistinctKeys(r)
    requires i < |r|
    ensures Get(r, r[i].key) == Some(r[i].value)
  {
    if i > 0 {
      assert r[0].key != r[i].key;
      assert r[1..][i - 1] == r[i];
      GetAt(r[1..], i - 1);
    }
  }

  /** The first position whose element satisfies `p`, scanning front to back
      as a `for…in` or index loop with an early exit does. */
  function FirstWhere<T>(s: seq<T>, p: T -> bool): (k: Option<nat>)
    ensures k.Some? ==> k.value < |s| && p(s[k.value])
    ensures k.Some? ==> forall j :: 0 <= j < k.value ==> !p(s[j])
    ensures k.None? ==> forall j :: 0 <= j < |s| ==> !p(s[j])
  {
    if |s| == 0 then None
    else if p(s[0]) then Some(0)
    else
      match FirstWhere(s[1..], p)
      case None => None
      case Some(k) => Some(k + 1)
  }

  /** The scan stops at `i` exactly when `i` is the first match. */
  lemma FirstWhereAt<T>(s: seq<T>, p: T -> bool, i: nat)
    requires i < |s| && p(s[i])
    requires forall j :: 0 <= j < i ==> !p(s[j])
    ensures FirstWhere(s, p) == Some(i)
  {
  }
}
