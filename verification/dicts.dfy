/** Python dictionaries with string keys, as association lists that keep
    insertion order, and the group-by-sum every spending path performs
    (`df.groupby("category")["amount"].sum()` and the sector-weight loop
    `sector_weights[s] = sector_weights.get(s, 0) + w`). */
module Dicts {
  import opened Common

  /** A dictionary `{key: value}` in insertion order; keys are distinct (see `IsDict`). */
  type Dict<V> = seq<(string, V)>

  function Keys<V>(d: Dict<V>): (ks: seq<string>)
    ensures |ks| == |d|
  {
    seq(|d|, i requires 0 <= i < |d| => d[i].0)
  }

  function Values<V>(d: Dict<V>): (vs: seq<V>)
    ensures |vs| == |d|
  {
    seq(|d|, i requires 0 <= i < |d| => d[i].1)
  }

  predicate Distinct(ks: seq<string>)
  {
    forall i, j :: 0 <= i < j < |ks| ==> ks[i] != ks[j]
  }

  /** What every Python dict satisfies: no key occurs twice. */
  predicate IsDict<V>(d: Dict<V>)
  {
    Distinct(Keys(d))
  }

  /** `d.get(k)`: the value stored under `k`, if any. */
  function Get<V>(d: Dict<V>, k: string): (r: Option<V>)
    ensures r.Some? <==> k in Keys(d)
    ensures r.Some? ==> (k, r.value) in d
  {
    if d == [] then None
    else if d[0].0 == k then
      assert Keys(d)[0] == k;
      Some(d[0].1)
    else
      assert Keys(d) == [d[0].0] + Keys(d[1..]);
      Get(d[1..], k)
  }

  /** `d.get(k, default)` */
  function GetOr<V>(d: Dict<V>, k: string, default: V): V
  {
    match Get(d, k)
    case Some(v) => v
    case None => default
  }

  /** `d[k] = v`: replaces the value of an existing key in place, otherwise appends the key. */
  function Put<V>(d: Dict<V>, k: string, v: V): (r: Dict<V>)
    ensures k in Keys(d) ==> Keys(r) == Keys(d)
    ensures k !in Keys(d) ==> r == d + [(k, v)]
    ensures Get(r, k) == Some(v)
    ensures forall j :: j != k ==> Get(r, j) == Get(d, j)
  {
    if d == [] then [(k, v)]
    else if d[0].0 == k then
      assert Keys(d)[0] == k;
      assert Keys([(k, v)] + d[1..]) == Keys(d);
      [(k, v)] + d[1..]
    else
      var rest := Put(d[1..], k, v);
      assert Keys(d) == [d[0].0] + Keys(d[1..]);
      assert Keys([d[0]] + rest) == [d[0].0] + Keys(rest);
      [d[0]] + rest
  }

  /** Assigning a key keeps a dict a dict. */
  lemma PutIsDict<V>(d: Dict<V>, k: string, v: V)
    requires IsDict(d)
    ensures IsDict(Put(d, k, v))
  {
    if k !in Keys(d) {
      assert Keys(d + [(k, v)]) == Keys(d) + [k];
    }
  }

  /** In a dict, the value found under the key of entry `i` is the value of entry `i`. */
  lemma {:induction false} GetEntry<V>(d: Dict<V>, i: nat)
    requires IsDict(d) && i < |d|
    ensures Get(d, d[i].0) == Some(d[i].1)
  {
    if i > 0 {
      assert Keys(d)[0] != Keys(d)[i];
      assert IsDict(d[1..]) by {
        forall a, b | 0 <= a < b < |d[1..]|
          ensures Keys(d[1..])[a] != Keys(d[1..])[b]
        {
          assert Keys(d)[a + 1] != Keys(d)[b + 1];
        }
      }
      GetEntry(d[1..], i - 1);
    }
  }

  /** Walking a dict in order, each key is new: it is not among the keys before it. */
  lemma KeyNotInPrefix<V>(d: Dict<V>, i: nat)
    requires IsDict(d) && i < |d|
    ensures d[i].0 !in Keys(d[..i])
  {
    forall j | 0 <= j < i
      ensures Keys(d[..i])[j] != d[i].0
    {
      assert Keys(d)[j] != Keys(d)[i];
    }
  }

  /** Appending an entry appends its key. */
  lemma KeysAppend<V>(d: Dict<V>, k: string, v: V)
    ensures Keys(d + [(k, v)]) == Keys(d) + [k]
  {
  }

  /** The sum of a sequence of reals. */
  function Sum(xs: seq<real>): real
  {
    if xs == [] then 0.0 else xs[0] + Sum(xs[1..])
  }

  lemma {:induction false} SumAppend(xs: seq<real>, ys: seq<real>)
    ensures Sum(xs + ys) == Sum(xs) + Sum(ys)
  {
    if xs == [] {
      assert xs + ys == ys;
    } else {
      assert (xs + ys)[1..] == xs[1..] + ys;
      SumAppend(xs[1..], ys);
    }
  }

  /** Python's `sum(d.values())`. */
  function SumValues(d: Dict<real>): real
  {
    Sum(Values(d))
  }

  /** The sum of a non-empty dict's values is its first value plus the sum of the rest. */
  lemma SumValuesCons(d: Dict<real>)
    requires d != []
    ensures SumValues(d) == d[0].1 + SumValues(d[1..])
  {
    assert Values(d) == [d[0].1] + Values(d[1..]);
  }

  /** Assigning `v` to key `k` changes the sum of the values by `v` minus the old value of `k`. */
  lemma {:induction false} PutSum(d: Dict<real>, k: string, v: real)
    ensures SumValues(Put(d, k, v)) == SumValues(d) - GetOr(d, k, 0.0) + v
  {
    var r := Put(d, k, v);
    if d == [] {
      assert r == [(k, v)];
      SumValuesCons(r);
      assert r[1..] == [];
    } else if d[0].0 == k {
      assert r == [(k, v)] + d[1..];
      SumValuesCons(r);
      assert r[1..] == d[1..];
      SumValuesCons(d);
    } else {
      var rest := Put(d[1..], k, v);
      assert r == [d[0]] + rest;
      PutSum(d[1..], k, v);
      SumValuesCons(r);
      assert r[1..] == rest;
      SumValuesCons(d);
      assert GetOr(d, k, 0.0) == GetOr(d[1..], k, 0.0);
    }
  }

  /** One step of the group-by: `acc[key] = acc.get(key, 0) + amount`. */
  function Accumulate(acc: Dict<real>, row: (string, real)): Dict<real>
  {
    Put(acc, row.0, GetOr(acc, row.0, 0.0) + row.1)
  }

  /** Folds the rows into `acc` from left to right. */
  function GroupSumFrom(acc: Dict<real>, rows: Dict<real>): Dict<real>
    decreases |rows|
  {
    if rows == [] then acc else GroupSumFrom(Accumulate(acc, rows[0]), rows[1..])
  }

  /** `rows.groupby(key)[amount].sum()` as a dict: one entry per key, in order of first appearance. */
  function GroupSum(rows: Dict<real>): Dict<real>
  {
    GroupSumFrom([], rows)
  }

  /** Folding one more row is one more group-by step on the fold so far. */
  lemma {:induction false} GroupSumFromAppend(acc: Dict<real>, rows: Dict<real>, row: (string, real))
    ensures GroupSumFrom(acc, rows + [row]) == Accumulate(GroupSumFrom(acc, rows), row)
    decreases |rows|
  {
    if rows == [] {
      assert rows + [row] == [row];
    } else {
      assert (rows + [row])[1..] == rows[1..] + [row];
      GroupSumFromAppend(Accumulate(acc, rows[0]), rows[1..], row);
    }
  }

  /** The group-by of the first `i + 1` rows is the group-by of the first `i` rows plus row `i`. */
  lemma GroupSumStep(rows: Dict<real>, i: nat)
    requires i < |rows|
    ensures GroupSum(rows[..i + 1]) == Accumulate(GroupSum(rows[..i]), rows[i])
  {
    assert rows[..i + 1] == rows[..i] + [rows[i]];
    GroupSumFromAppend([], rows[..i], rows[i]);
  }

  /** The sum of the amounts of the rows whose key is `c`. */
  function AmountFor(rows: Dict<real>, c: string): real
  {
    if rows == [] then 0.0
    else (if rows[0].0 == c then rows[0].1 else 0.0) + AmountFor(rows[1..], c)
  }

  /** A key that no row carries has nothing summed under it. */
  lemma {:induction false} AmountForAbsent(rows: Dict<real>, c: string)
    requires c !in Keys(rows)
    ensures AmountFor(rows, c) == 0.0
  {
    if rows != [] {
      assert Keys(rows) == [rows[0].0] + Keys(rows[1..]);
      AmountForAbsent(rows[1..], c);
    }
  }

  /** One group-by step changes only the entry of the row's key, by the row's amount. */
  lemma AccumulateGet(acc: Dict<real>, row: (string, real), c: string)
    ensures Get(Accumulate(acc, row), c)
         == if c == row.0 then Some(GetOr(acc, c, 0.0) + row.1) else Get(acc, c)
  {
  }

  /** One more row adds its amount to its own key's total only. */
  lemma {:induction false} AmountForAppend(rows: Dict<real>, row: (string, real), c: string)
    ensures AmountFor(rows + [row], c) == AmountFor(rows, c) + (if row.0 == c then row.1 else 0.0)
    decreases |rows|
  {
    if rows == [] {
      assert rows + [row] == [row];
      assert [row][1..] == [];
    } else {
      assert (rows + [row])[1..] == rows[1..] + [row];
      AmountForAppend(rows[1..], row, c);
    }
  }

  /** The group-by holds exactly the keys of the rows, and maps each to the sum of its amounts. */
  lemma {:induction false} GroupSumLookup(rows: Dict<real>, c: string)
    ensures c in Keys(rows) ==> Get(GroupSum(rows), c) == Some(AmountFor(rows, c))
    ensures c !in Keys(rows) ==> Get(GroupSum(rows), c) == None
    decreases |rows|
  {
    if rows != [] {
      var n := |rows| - 1;
      var init := rows[..n];
      var row := rows[n];
      assert rows[..n + 1] == rows;
      assert init + [row] == rows;
      GroupSumStep(rows, n);
      GroupSumLookup(init, c);
      AccumulateGet(GroupSum(init), row, c);
      AmountForAppend(init, row, c);
      KeysAppend(init, row.0, row.1);
      if c !in Keys(init) {
        AmountForAbsent(init, c);
      }
    }
  }

  lemma {:induction false} GroupSumFromIsDict(acc: Dict<real>, rows: Dict<real>)
    requires IsDict(acc)
    ensures IsDict(GroupSumFrom(acc, rows))
    decreases |rows|
  {
    if rows != [] {
      PutIsDict(acc, rows[0].0, GetOr(acc, rows[0].0, 0.0) + rows[0].1);
      GroupSumFromIsDict(Accumulate(acc, rows[0]), rows[1..]);
    }
  }

  /** The group-by is a dict: no key appears twice. */
  lemma GroupSumIsDict(rows: Dict<real>)
    ensures IsDict(GroupSum(rows))
  {
    GroupSumFromIsDict([], rows);
  }

  lemma {:induction false} GroupSumFromTotal(acc: Dict<real>, rows: Dict<real>)
    ensures SumValues(GroupSumFrom(acc, rows)) == SumValues(acc) + SumValues(rows)
    decreases |rows|
  {
    if rows != [] {
      var next := Accumulate(acc, rows[0]);
      PutSum(acc, rows[0].0, GetOr(acc, rows[0].0, 0.0) + rows[0].1);
      assert SumValues(next) == SumValues(acc) + rows[0].1;
      GroupSumFromTotal(next, rows[1..]);
      assert GroupSumFrom(acc, rows) == GroupSumFrom(next, rows[1..]);
      SumValuesCons(rows);
    }
  }

  /** Grouping loses no amount: the group totals add up to the sum of all rows. */
  lemma GroupSumTotal(rows: Dict<real>)
    ensures SumValues(GroupSum(rows)) == SumValues(rows)
  {
    GroupSumFromTotal([], rows);
  }

  lemma {:induction false} GroupSumFromOfDict(acc: Dict<real>, rows: Dict<real>)
    requires IsDict(acc + rows)
    ensures GroupSumFrom(acc, rows) == acc + rows
    decreases |rows|
  {
    if rows != [] {
      var k := rows[0].0;
      assert (acc + rows)[|acc|] == rows[0];
      forall i | 0 <= i < |acc|
        ensures Keys(acc)[i] != k
      {
        assert Keys(acc + rows)[i] == Keys(acc)[i];
        assert Keys(acc + rows)[|acc|] == k;
      }
      assert Accumulate(acc, rows[0]) == acc + [(k, 0.0 + rows[0].1)];
      assert acc + [rows[0]] + rows[1..] == acc + rows;
      GroupSumFromOfDict(acc + [rows[0]], rows[1..]);
    }
  }

  /** Rows whose keys are already distinct group to themselves, in the same order. */
  lemma GroupSumOfDict(rows: Dict<real>)
    requires IsDict(rows)
    ensures GroupSum(rows) == rows
  {
    assert [] + rows == rows;
    GroupSumFromOfDict([], rows);
  }

  /** Grouping an already grouped table changes nothing. */
  lemma GroupSumIdempotent(rows: Dict<real>)
    ensures GroupSum(GroupSum(rows)) == GroupSum(rows)
  {
    GroupSumIsDict(rows);
    GroupSumOfDict(GroupSum(rows));
  }

  /** Every key of the group-by is a key of some row. */
  lemma GroupSumKeys(rows: Dict<real>, c: string)
    ensures c in Keys(GroupSum(rows)) <==> c in Keys(rows)
  {
    GroupSumLookup(rows, c);
  }
}
