/** The state key of the smartcab agents: the sensed dictionary plus the
    entry 'next_waypoint', turned into a tuple of (key, value) pairs sorted
    by key (smartcab/agent2.py, agent_qlearning.py and agent.py alike). */
module StateEncoding {
  import opened Domain

  /** One dictionary entry. */
  type Item = (string, Value)

  /** A state: the sorted tuple of items the agents use as a table key. */
  type State = seq<Item>

  /** The items of a dictionary never repeat a key. */
  predicate DistinctKeys(items: seq<Item>)
  {
    forall i, j :: 0 <= i < j < |items| ==> items[i].0 != items[j].0
  }

  predicate HasKey(items: seq<Item>, k: string)
  {
    exists i :: 0 <= i < |items| && items[i].0 == k
  }

  /** d[k] for a key that is present (a missing key raises KeyError). */
  function Get(items: seq<Item>, k: string): (v: Value)
    requires HasKey(items, k)
    ensures (k, v) in items
  {
    if items[0].0 == k then items[0].1 else Get(items[1..], k)
  }

  /** Python's `<` on strings: lexicographic order of the characters, in
      which a proper prefix sorts first. */
  predicate KeyLess(a: string, b: string)
    ensures |a| < |b| && a == b[..|a|] ==> KeyLess(a, b)
    ensures KeyLess(a, b) ==> a != b
  {
    if a == [] then b != []
    else if b == [] then false
    else if a[0] != b[0] then a[0] < b[0]
    else KeyLess(a[1..], b[1..])
  }

  lemma {:induction false} KeyLessIrreflexive(a: string)
    ensures !KeyLess(a, a)
  {
    if a != [] {
      KeyLessIrreflexive(a[1..]);
    }
  }

  lemma {:induction false} KeyLessTransitive(a: string, b: string, c: string)
    requires KeyLess(a, b) && KeyLess(b, c)
    ensures KeyLess(a, c)
  {
    if a != [] && a[0] == b[0] && b[0] == c[0] {
      KeyLessTransitive(a[1..], b[1..], c[1..]);
    }
  }

  lemma {:induction false} KeyLessTotal(a: string, b: string)
    requires a != b
    ensures KeyLess(a, b) || KeyLess(b, a)
  {
    if a != [] && b != [] && a[0] == b[0] {
      assert a == [a[0]] + a[1..] && b == [b[0]] + b[1..];
      KeyLessTotal(a[1..], b[1..]);
    }
  }

  /** Strictly increasing keys: the order of `tuple(sorted(d.items()))`. */
  predicate SortedByKey(s: seq<Item>)
  {
    forall i, j :: 0 <= i < j < |s| ==> KeyLess(s[i].0, s[j].0)
  }

  /** `d[k] = v`: replaces the value of a present key where it stands,
      otherwise adds the entry. */
  function SetItem(items: seq<Item>, k: string, v: Value): (r: seq<Item>)
    requires DistinctKeys(items)
    ensures DistinctKeys(r)
    ensures forall p :: p in r <==> (p in items && p.0 != k) || p == (k, v)
  {
    if items == [] then [(k, v)]
    else if items[0].0 == k then
      assert forall p :: p in items[1..] ==> p.0 != k;
      [(k, v)] + items[1..]
    else
      [items[0]] + SetItem(items[1..], k, v)
  }

  /** One step of sorting: puts `p` among the sorted items by its key. */
  function Insert(p: Item, s: seq<Item>): (r: seq<Item>)
    ensures |r| == |s| + 1
  {
    if s == [] then [p]
    else if KeyLess(p.0, s[0].0) then [p] + s
    else [s[0]] + Insert(p, s[1..])
  }

  lemma {:induction false} InsertSorted(p: Item, s: seq<Item>)
    requires SortedByKey(s)
    requires forall q :: q in s ==> q.0 != p.0
    ensures SortedByKey(Insert(p, s))
    ensures multiset(Insert(p, s)) == multiset(s) + multiset{p}
  {
    if s == [] {
    } else if KeyLess(p.0, s[0].0) {
      forall j | 0 < j < |s|
        ensures KeyLess(p.0, s[j].0)
      {
        KeyLessTransitive(p.0, s[0].0, s[j].0);
      }
    } else {
      assert s[0] in s;
      KeyLessTotal(p.0, s[0].0);
      var t := Insert(p, s[1..]);
      InsertSorted(p, s[1..]);
      forall q | q in t
        ensures KeyLess(s[0].0, q.0)
      {
        assert q in multiset(t);
        if q != p {
          var k :| 0 <= k < |s[1..]| && s[1..][k] == q;
          assert s[k + 1] == q;
        }
      }
      assert s == [s[0]] + s[1..];
    }
  }

  /** `sorted(items)`; the keys are distinct, so only they decide the order.
      It keeps every item (`SortByKeySorted` shows the result is a
      permutation in key order). */
  function SortByKey(items: seq<Item>): (r: seq<Item>)
    ensures |r| == |items|
  {
    if items == [] then [] else Insert(items[0], SortByKey(items[1..]))
  }

  lemma {:induction false} SortByKeySorted(items: seq<Item>)
    requires DistinctKeys(items)
    ensures SortedByKey(SortByKey(items))
    ensures multiset(SortByKey(items)) == multiset(items)
  {
    if items != [] {
      var rest := SortByKey(items[1..]);
      SortByKeySorted(items[1..]);
      forall q | q in rest
        ensures q.0 != items[0].0
      {
        assert q in multiset(items[1..]);
        var k :| 0 <= k < |items[1..]| && items[1..][k] == q;
        assert items[k + 1] == q;
      }
      InsertSorted(items[0], rest);
      assert items == [items[0]] + items[1..];
    }
  }

  /** The state an agent builds from the sensed items and its waypoint:
      add 'next_waypoint', then sort the pairs by key. */
  function Encode(inputs: seq<Item>, waypoint: Value): (s: State)
    requires DistinctKeys(inputs)
    ensures SortedByKey(s)
    ensures forall p :: p in s <==> (p in inputs && p.0 != "next_waypoint") || p == ("next_waypoint", waypoint)
  {
    var items := SetItem(inputs, "next_waypoint", waypoint);
    SortByKeySorted(items);
    var s := SortByKey(items);
    assert forall p :: p in s <==> p in multiset(s);
    assert forall p :: p in items <==> p in multiset(items);
    s
  }

  /** A sorted item list is determined by its elements. */
  lemma {:induction false} SortedUnique(s1: seq<Item>, s2: seq<Item>)
    requires SortedByKey(s1) && SortedByKey(s2)
    requires forall p :: p in s1 <==> p in s2
    ensures s1 == s2
  {
    if s1 != [] {
      assert s1[0] in s2;
    }
    if s2 != [] {
      assert s2[0] in s1;
    }
    if s1 != [] {
      var i :| 0 <= i < |s1| && s1[i] == s2[0];
      var j :| 0 <= j < |s2| && s2[j] == s1[0];
      if i != 0 && j != 0 {
        assert KeyLess(s1[0].0, s2[0].0);
        assert KeyLess(s2[0].0, s1[0].0);
        KeyLessTransitive(s1[0].0, s2[0].0, s1[0].0);
        KeyLessIrreflexive(s1[0].0);
        assert false;
      }
      assert s1[0] == s2[0];
      forall p
        ensures p in s1[1..] <==> p in s2[1..]
      {
        KeyLessIrreflexive(s1[0].0);
        if p in s1[1..] {
          var k :| 0 <= k < |s1[1..]| && s1[1..][k] == p;
          assert KeyLess(s1[0].0, s1[k + 1].0);
          assert p in s2;
        }
        if p in s2[1..] {
          var k :| 0 <= k < |s2[1..]| && s2[1..][k] == p;
          assert KeyLess(s2[0].0, s2[k + 1].0);
          assert p in s1;
        }
      }
      SortedUnique(s1[1..], s2[1..]);
      assert s1 == [s1[0]] + s1[1..] && s2 == [s2[0]] + s2[1..];
    }
  }

  /** Two dictionaries holding the same pairs, however they were built,
      encode to the same state. */
  lemma EncodeOrderIndependent(in1: seq<Item>, in2: seq<Item>, waypoint: Value)
    requires DistinctKeys(in1) && DistinctKeys(in2)
    requires forall p :: p in in1 <==> p in in2
    ensures Encode(in1, waypoint) == Encode(in2, waypoint)
  {
    SortedUnique(Encode(in1, waypoint), Encode(in2, waypoint));
  }

  /** The waypoint is part of the key: the same percept with another
      waypoint is another state. */
  lemma EncodeSeparatesWaypoints(inputs: seq<Item>, w1: Value, w2: Value)
    requires DistinctKeys(inputs)
    requires w1 != w2
    ensures Encode(inputs, w1) != Encode(inputs, w2)
  {
    assert ("next_waypoint", w1) in Encode(inputs, w1);
  }
}
