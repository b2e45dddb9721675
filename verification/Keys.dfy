/** Ascending key order: how an ordered map is walked and how a sorted snapshot lists its entries. */
module Keys {
  import opened Types

  lemma {:induction false} LeastExists(keys: set<u64>, x: u64)
    requires x in keys
    ensures exists k :: k in keys && forall j :: j in keys ==> k <= j
    decreases x
  {
    if y :| y in keys && y < x {
      LeastExists(keys, y);
    } else {
      assert x in keys && forall j :: j in keys ==> x <= j;
    }
  }

  function Least(keys: set<u64>): (k: u64)
    requires keys != {}
    ensures k in keys && forall j :: j in keys ==> k <= j
  {
    assert exists k :: k in keys && forall j :: j in keys ==> k <= j by {
      var x :| x in keys;
      LeastExists(keys, x);
    }
    var k :| k in keys && forall j :: j in keys ==> k <= j;
    k
  }

  predicate Ascending(s: seq<u64>) {
    forall i, j :: 0 <= i < j < |s| ==> s[i] < s[j]
  }

  /** The keys in ascending order. */
  function SortedKeys(keys: set<u64>): (s: seq<u64>)
    ensures Ascending(s)
    ensures forall k :: k in s <==> k in keys
    decreases |keys|
  {
    if keys == {} then [] else [Least(keys)] + SortedKeys(keys - {Least(keys)})
  }

  /** An ascending listing of a set is the only one. */
  lemma {:induction false} AscendingUnique(s: seq<u64>, t: seq<u64>)
    requires Ascending(s) && Ascending(t)
    requires forall k :: k in s <==> k in t
    ensures s == t
  {
    assert |s| > 0 ==> s[0] in s;
    assert |t| > 0 ==> t[0] in t;
    if |s| > 0 && |t| > 0 {
      assert s[0] in t && t[0] in s;
      assert s[0] == t[0];
      forall k ensures k in s[1..] <==> k in t[1..] {
        if k in s[1..] { assert k in s && k != s[0]; assert k in t; }
        if k in t[1..] { assert k in t && k != t[0]; assert k in s; }
      }
      AscendingUnique(s[1..], t[1..]);
    }
  }

  /** The values of a map in ascending key order. */
  function ValuesAt<V>(m: map<u64, V>, keys: seq<u64>): (vs: seq<V>)
    requires forall i :: 0 <= i < |keys| ==> keys[i] in m
    ensures |vs| == |keys|
    ensures forall i :: 0 <= i < |keys| ==> vs[i] == m[keys[i]]
  {
    seq(|keys|, i requires 0 <= i < |keys| => m[keys[i]])
  }

  function SortedValues<V>(m: map<u64, V>): (vs: seq<V>) {
    ValuesAt(m, SortedKeys(m.Keys))
  }

  /** Walks a map in key order. */
  method WalkInOrder<V>(m: map<u64, V>) returns (vs: seq<V>)
    ensures vs == SortedValues(m)
  {
    var keys := SortedKeys(m.Keys);
    vs := [];
    for i := 0 to |keys|
      invariant |vs| == i && forall j :: 0 <= j < i ==> vs[j] == m[keys[j]]
    {
      vs := vs + [m[keys[i]]];
    }
  }
}
