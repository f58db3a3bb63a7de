/**
 * The measurement histogram's frequency table: the measured values of the
 * history, each once, in the order a `Map` keeps them (first insertion),
 * with the number of times each occurs.
 */
module MeasurementChart {

  /** The values of a, each once, in order of first occurrence. */
  function Distinct<T(==)>(a: seq<T>): seq<T>
    decreases |a|
  {
    if a == [] then []
    else
      var d := Distinct(a[..|a| - 1]);
      if a[|a| - 1] in d then d else d + [a[|a| - 1]]
  }

  predicate NoDuplicates<T(==)>(s: seq<T>)
  {
    forall i, j :: 0 <= i < j < |s| ==> s[i] != s[j]
  }

  /** The table: one row per distinct value, holding its number of occurrences in m. */
  function Rows<T(==)>(keys: seq<T>, m: multiset<T>): (rows: seq<(T, nat)>)
    ensures |rows| == |keys|
  {
    seq(|keys|, k requires 0 <= k < |keys| => (keys[k], m[keys[k]]))
  }

  /** The rows `array_to_freq_table(a)` returns. */
  function FreqTable<T(==)>(a: seq<T>): seq<(T, nat)>
  {
    Rows(Distinct(a), multiset(a))
  }

  /** The sum of the frequencies of a table. */
  function SumFreq<T>(rows: seq<(T, nat)>): nat
  {
    if rows == [] then 0 else SumFreq(rows[..|rows| - 1]) + rows[|rows| - 1].1
  }

  /** The index of the first occurrence of v in a. */
  function FirstIndex<T(==)>(a: seq<T>, v: T): (k: nat)
    requires v in a
    ensures k < |a| && a[k] == v && forall i :: 0 <= i < k ==> a[i] != v
  {
    if a[0] == v then 0 else 1 + FirstIndex(a[1..], v)
  }

  /** `array_to_freq_table`: counts the values in a `Map`, then lists its entries. */
  method ArrayToFreqTable<T(==)>(a: seq<T>) returns (table: seq<(T, nat)>)
    ensures table == FreqTable(a)
  {
    var keys: seq<T> := [];
    var data: map<T, nat> := map[];
    for i := 0 to |a|
      invariant keys == Distinct(a[..i])
      invariant forall v :: v in data <==> v in a[..i]
      invariant forall v :: v in data ==> data[v] == multiset(a[..i])[v]
    {
      var x := a[i];
      assert a[..i + 1] == a[..i] + [x];
      assert a[..i + 1][..i] == a[..i];
      DistinctElements(a[..i]);
      CountStep(data, a[..i], x);
      var count := if x in data then data[x] else 0;
      if x !in data {
        keys := keys + [x];
      }
      data := data[x := count + 1];
    }
    assert a[..|a|] == a;
    DistinctElements(a);
    table := seq(|keys|, k requires 0 <= k < |keys| => (keys[k], data[keys[k]]));
  }

  /** Counting one more value keeps the map's keys and counts those of the values seen. */
  lemma CountStep<T>(data: map<T, nat>, s: seq<T>, x: T)
    requires forall v :: v in data <==> v in s
    requires forall v :: v in data ==> data[v] == multiset(s)[v]
    ensures var d := data[x := (if x in data then data[x] else 0) + 1];
      (forall v :: v in d <==> v in s + [x]) && forall v :: v in d ==> d[v] == multiset(s + [x])[v]
  {
    var d := data[x := (if x in data then data[x] else 0) + 1];
    assert multiset(s + [x]) == multiset(s) + multiset{x};
    forall v | v in d ensures d[v] == multiset(s + [x])[v] {
      if v == x && x !in data {
        assert x !in multiset(s);
      }
    }
  }

  /** Each value appears once in the table, and exactly the values of a appear. */
  lemma {:induction false} DistinctElements<T>(a: seq<T>)
    ensures NoDuplicates(Distinct(a))
    ensures forall v :: v in Distinct(a) ==> v in a
    ensures forall v :: v in a ==> v in Distinct(a)
  {
    if a != [] {
      var init, x := a[..|a| - 1], a[|a| - 1];
      DistinctElements(init);
      assert a == init + [x];
      assert forall v :: v in a <==> v in init || v == x;
    }
  }

  /** Rows are in first-occurrence order: row k's value occurs first before row l's. */
  lemma {:induction false} FirstOccurrenceOrder<T>(a: seq<T>, k: nat, l: nat)
    requires k < l < |Distinct(a)|
    ensures Distinct(a)[k] in a && Distinct(a)[l] in a
    ensures FirstIndex(a, Distinct(a)[k]) < FirstIndex(a, Distinct(a)[l])
  {
    DistinctElements(a);
    var init, x := a[..|a| - 1], a[|a| - 1];
    var d := Distinct(init);
    DistinctElements(init);
    assert a == init + [x];
    assert Distinct(a) == if x in d then d else d + [x];
    var u, w := Distinct(a)[k], Distinct(a)[l];
    assert k < |d| && u == d[k];
    assert u in d;
    assert u in init;
    FirstIndexPrefix(init, x, u);
    if l < |d| {
      assert Distinct(a)[l] == d[l];
      FirstOccurrenceOrder(init, k, l);
      FirstIndexPrefix(init, x, w);
    } else {
      assert w == x && x !in init;
      assert FirstIndex(a, w) == |init| by {
        forall i | 0 <= i < |init| ensures a[i] != w {
          assert a[i] == init[i];
        }
        FirstIndexIs(a, w, |init|);
      }
    }
  }

  /** Appending leaves the first occurrence of a value already present where it was. */
  lemma {:induction false} FirstIndexPrefix<T>(a: seq<T>, x: T, v: T)
    requires v in a
    ensures v in a + [x] && FirstIndex(a + [x], v) == FirstIndex(a, v)
  {
    if a[0] != v {
      assert (a + [x])[1..] == a[1..] + [x];
      FirstIndexPrefix(a[1..], x, v);
    }
  }

  /** An occurrence preceded by none is the first. */
  lemma FirstIndexIs<T>(a: seq<T>, v: T, k: nat)
    requires k < |a| && a[k] == v && forall i :: 0 <= i < k ==> a[i] != v
    ensures FirstIndex(a, v) == k
  {
    assert a[FirstIndex(a, v)] == v;
  }

  lemma RowsSnoc<T>(keys: seq<T>, x: T, m: multiset<T>)
    ensures Rows(keys + [x], m) == Rows(keys, m) + [(x, m[x])]
  {
    var a, b := Rows(keys + [x], m), Rows(keys, m) + [(x, m[x])];
    forall k | 0 <= k < |a| ensures a[k] == b[k] {
      assert (keys + [x])[k] == if k < |keys| then keys[k] else x;
    }
  }

  /** One more occurrence of x adds one to the total exactly when x has a row. */
  lemma {:induction false} RowsAddOne<T>(keys: seq<T>, m: multiset<T>, x: T)
    requires NoDuplicates(keys)
    ensures SumFreq(Rows(keys, m + multiset{x})) == SumFreq(Rows(keys, m)) + (if x in keys then 1 else 0)
  {
    if keys != [] {
      var ks, k := keys[..|keys| - 1], keys[|keys| - 1];
      assert keys == ks + [k];
      assert NoDuplicates(ks);
      RowsAddOne(ks, m, x);
      RowsSnoc(ks, k, m + multiset{x});
      RowsSnoc(ks, k, m);
      assert Rows(ks, m + multiset{x}) + [(k, (m + multiset{x})[k])] == Rows(keys, m + multiset{x});
      assert Rows(ks, m) + [(k, m[k])] == Rows(keys, m);
      assert x in keys <==> x in ks || x == k;
      assert !(x in ks && x == k);
    }
  }

  /** The frequencies add up to the number of values, and [] gives the empty table. */
  lemma {:induction false} FreqSum<T>(a: seq<T>)
    ensures SumFreq(FreqTable(a)) == |a|
    ensures a == [] ==> FreqTable(a) == []
  {
    if a != [] {
      var init, x := a[..|a| - 1], a[|a| - 1];
      assert a == init + [x];
      var d := Distinct(init);
      FreqSum(init);
      DistinctElements(init);
      assert multiset(a) == multiset(init) + multiset{x};
      RowsAddOne(d, multiset(init), x);
      if x !in d {
        RowsSnoc(d, x, multiset(a));
        assert multiset(init)[x] == 0;
      }
    }
  }

  /** Every row's frequency is the number of occurrences of its value. */
  lemma FreqCounts<T>(a: seq<T>, k: nat)
    requires k < |FreqTable(a)|
    ensures FreqTable(a)[k].1 == |set i | 0 <= i < |a| && a[i] == FreqTable(a)[k].0|
    ensures FreqTable(a)[k].1 >= 1
  {
    var v := FreqTable(a)[k].0;
    DistinctElements(a);
    assert v == Distinct(a)[k];
    assert v in Distinct(a);
    assert v in a;
    CountIsOccurrences(a, v);
    assert v in multiset(a);
  }

  /** The multiplicity of v is the number of indices holding v. */
  lemma {:induction false} CountIsOccurrences<T>(a: seq<T>, v: T)
    ensures multiset(a)[v] == |set i | 0 <= i < |a| && a[i] == v|
  {
    if a != [] {
      var init, x := a[..|a| - 1], a[|a| - 1];
      assert a == init + [x];
      CountIsOccurrences(init, v);
      var s0 := set i | 0 <= i < |init| && init[i] == v;
      var s1 := set i | 0 <= i < |a| && a[i] == v;
      if x == v {
        assert s1 == s0 + {|init|};
      } else {
        assert s1 == s0;
      }
    }
  }
}
