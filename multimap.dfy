/**
 The global indexes `SNIPPETS_BY_KEYWORD` and `SNIPPETS_BY_NAME` are
 `defaultdict(list)` values that only ever grow by `d[key].append(value)`.
 This module models such a multimap, the dict comprehension that keeps
 the keys with more than one entry, and what both mean for the sequence of
 appends that built the multimap.
 */
module Multimap {

  /** One append: the key and the value appended under it. */
  type Entry<V> = (string, V)

  /** `d[key]` on a `defaultdict(list)`: the stored list, or the empty list. */
  function Get<V>(m: map<string, seq<V>>, k: string): seq<V>
  {
    if k in m then m[k] else []
  }

  /** `d[key].append(v)`: the key's list gains `v` at its end and no other key changes. */
  function Append<V>(m: map<string, seq<V>>, k: string, v: V): (r: map<string, seq<V>>)
    ensures r.Keys == m.Keys + {k}
    ensures r[k] == Get(m, k) + [v]
    ensures forall k' :: k' in m && k' != k ==> r[k'] == m[k']
  {
    m[k := Get(m, k) + [v]]
  }

  /** The multimap obtained from an empty one by appending the entries in order. */
  function Build<V>(entries: seq<Entry<V>>): map<string, seq<V>>
  {
    if |entries| == 0 then map[]
    else
      var last := entries[|entries| - 1];
      Append(Build(entries[..|entries| - 1]), last.0, last.1)
  }

  /** The keys of the entries, in order. */
  function Keys<V>(entries: seq<Entry<V>>): (ks: seq<string>)
    ensures |ks| == |entries|
    ensures forall i :: 0 <= i < |entries| ==> ks[i] == entries[i].0
  {
    if |entries| == 0 then []
    else Keys(entries[..|entries| - 1]) + [entries[|entries| - 1].0]
  }

  /** One more append adds its key at the end. */
  lemma KeysAppend<V>(entries: seq<Entry<V>>, e: Entry<V>)
    ensures Keys(entries + [e]) == Keys(entries) + [e.0]
  {
    assert (entries + [e])[..|entries|] == entries;
  }

  /** The values appended under `k`, in the order they were appended. */
  function ValuesFor<V>(entries: seq<Entry<V>>, k: string): (vs: seq<V>)
    ensures |vs| == multiset(Keys(entries))[k]
  {
    if |entries| == 0 then []
    else
      var init := entries[..|entries| - 1];
      var last := entries[|entries| - 1];
      assert Keys(entries) == Keys(init) + [last.0];
      ValuesFor(init, k) + (if last.0 == k then [last.1] else [])
  }

  /** Each key's list in a built multimap is exactly the values appended under it, and only appended keys are present. */
  lemma {:induction false} BuildLists<V>(entries: seq<Entry<V>>, k: string)
    ensures k in Build(entries) <==> k in Keys(entries)
    ensures Get(Build(entries), k) == ValuesFor(entries, k)
  {
    if |entries| > 0 {
      var init := entries[..|entries| - 1];
      BuildLists(init, k);
      assert Keys(entries) == Keys(init) + [entries[|entries| - 1].0];
    }
  }

  /** The dict comprehension `{k: v for k, v in d.items() if len(v) > 1}`. */
  function Clashes<V>(m: map<string, seq<V>>): (c: map<string, seq<V>>)
    ensures forall k :: k in c <==> k in m && |m[k]| > 1
    ensures forall k :: k in c ==> c[k] == m[k]
  {
    map k | k in m && |m[k]| > 1 :: m[k]
  }

  /** `not clashes`: the report says there are none exactly when no list holds two entries. */
  function NoClashes<V>(m: map<string, seq<V>>): (b: bool)
    ensures b <==> forall k :: k in m ==> |m[k]| <= 1
  {
    var c := Clashes(m);
    assert (exists k :: k in m && |m[k]| > 1) ==> c != map[] by {
      if k :| k in m && |m[k]| > 1 { assert k in c; }
    }
    c == map[]
  }

  /**
   A key is reported as clashing exactly when it was appended to more
   than once, and the report lists every value appended under it.
   */
  lemma ClashesOfBuild<V>(entries: seq<Entry<V>>, k: string)
    ensures k in Clashes(Build(entries)) <==> multiset(Keys(entries))[k] > 1
    ensures k in Clashes(Build(entries)) ==> Clashes(Build(entries))[k] == ValuesFor(entries, k)
  {
    BuildLists(entries, k);
  }

  /** "No clashes" is reported exactly when no key was appended to twice. */
  lemma NoClashesOfBuild<V>(entries: seq<Entry<V>>)
    ensures NoClashes(Build(entries)) <==> forall k :: multiset(Keys(entries))[k] <= 1
  {
    forall k ensures k in Build(entries) ==> (|Build(entries)[k]| <= 1 <==> multiset(Keys(entries))[k] <= 1) {
      BuildLists(entries, k);
    }
    forall k | multiset(Keys(entries))[k] > 1 ensures k in Build(entries) {
      BuildLists(entries, k);
    }
  }

  /** Every list in a built multimap is non-empty: `defaultdict` only creates a key by appending to it. */
  lemma BuildListsNonEmpty<V>(entries: seq<Entry<V>>, k: string)
    requires k in Build(entries)
    ensures |Build(entries)[k]| >= 1
  {
    BuildLists(entries, k);
  }
}
