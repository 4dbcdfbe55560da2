/**
 * A JavaScript object literal used as a lookup table: its own keys in
 * declaration order (the order `Object.entries` reports), each with a value.
 * Lookup by a string key finds the entry of that key or nothing.
 */
module Table {

  datatype Option<+T> = None | Some(value: T)

  /** The keys, in declaration order (`Object.keys`). */
  function Keys<V>(entries: seq<(string, V)>): seq<string>
  {
    seq(|entries|, i requires 0 <= i < |entries| => entries[i].0)
  }

  /** No string occurs twice. */
  predicate NoDuplicates(s: seq<string>)
  {
    forall i, j :: 0 <= i < j < |s| ==> s[i] != s[j]
  }

  /** Position of the first `x` in `s`. */
  function IndexOf(s: seq<string>, x: string): (i: nat)
    requires x in s
    ensures i < |s| && s[i] == x && x !in s[..i]
  {
    if s[0] == x then 0
    else
      var k := IndexOf(s[1..], x);
      assert s[..k + 1] == [s[0]] + s[1..][..k];
      k + 1
  }

  /** With no duplicates, the position of `s[i]` is `i`. */
  lemma IndexOfDistinct(s: seq<string>, i: nat)
    requires NoDuplicates(s) && i < |s|
    ensures IndexOf(s, s[i]) == i
  {
  }

  /**
   * Every key is declared once, as in each table of the source. A literal
   * that repeated a key would keep its first position but take its last
   * value, so `Find` agrees with JavaScript lookup only under this condition.
   */
  predicate DistinctKeys<V>(entries: seq<(string, V)>)
  {
    NoDuplicates(Keys(entries))
  }

  /** `obj[key]` restricted to own keys: the value of the first entry named `key`. */
  function Find<V>(entries: seq<(string, V)>, key: string): (r: Option<V>)
    ensures r.None? <==> key !in Keys(entries)
    ensures r.Some? ==> exists i :: 0 <= i < |entries| && entries[i] == (key, r.value)
  {
    if entries == [] then None
    else
      assert Keys(entries) == [entries[0].0] + Keys(entries[1..]);
      if entries[0].0 == key then Some(entries[0].1)
      else Find(entries[1..], key)
  }

  /** With distinct keys, looking up the key of entry `i` yields entry `i`'s value. */
  lemma {:induction false} FindEntry<V>(entries: seq<(string, V)>, i: nat)
    requires DistinctKeys(entries)
    requires i < |entries|
    ensures Find(entries, entries[i].0) == Some(entries[i].1)
  {
    if i > 0 {
      assert Keys(entries)[0] != Keys(entries)[i];
      assert Keys(entries[1..]) == Keys(entries)[1..];
      FindEntry(entries[1..], i - 1);
    }
  }

  /** Position of the entry declaring `key`. */
  function Position<V>(entries: seq<(string, V)>, key: string): (i: nat)
    requires key in Keys(entries)
    ensures i < |entries| && entries[i].0 == key
  {
    IndexOf(Keys(entries), key)
  }

  /** With distinct keys, looking a declared key up yields the value declared under it. */
  lemma FindAt<V>(entries: seq<(string, V)>, key: string)
    requires DistinctKeys(entries) && key in Keys(entries)
    ensures Find(entries, key) == Some(entries[Position(entries, key)].1)
  {
    FindEntry(entries, Position(entries, key));
  }

  /** With distinct keys, the entry at `i` is the one declaring its key. */
  lemma PositionOfEntry<V>(entries: seq<(string, V)>, i: nat)
    requires DistinctKeys(entries) && i < |entries|
    ensures entries[i].0 in Keys(entries) && Position(entries, entries[i].0) == i
  {
    assert Keys(entries)[i] == entries[i].0;
    IndexOfDistinct(Keys(entries), i);
  }
}
