/** Lists of amounts per key, and what is the same about two lists that charge every key alike. */
module Charges {
  import opened Text

  datatype Item = Item(key: string, amount: real)

  function SumAll(items: seq<Item>): real {
    if items == [] then 0.0 else SumAll(items[..|items| - 1]) + items[|items| - 1].amount
  }

  /** What a list charges to one key. */
  function KeySum(items: seq<Item>, key: string): real {
    if items == [] then 0.0
    else
      var last := items[|items| - 1];
      KeySum(items[..|items| - 1], key) + if last.key == key then last.amount else 0.0
  }

  ghost predicate SameCharges(a: seq<Item>, b: seq<Item>) {
    forall key :: KeySum(a, key) == KeySum(b, key)
  }

  /** A breakdown: one row per key, none of them zero. */
  ghost predicate Compact(items: seq<Item>) {
    && (forall i, j :: 0 <= i < j < |items| ==> items[i].key != items[j].key)
    && (forall i :: 0 <= i < |items| ==> items[i].amount != 0.0)
  }

  ghost predicate LargestFirst(items: seq<Item>) {
    forall i, j :: 0 <= i < j < |items| ==> items[i].amount >= items[j].amount
  }

  lemma {:induction false} KeySumAppend(a: seq<Item>, b: seq<Item>, key: string)
    ensures KeySum(a + b, key) == KeySum(a, key) + KeySum(b, key)
    decreases |b|
  {
    if b == [] {
      assert a + b == a;
    } else {
      assert (a + b)[..|a + b| - 1] == a + b[..|b| - 1];
      KeySumAppend(a, b[..|b| - 1], key);
    }
  }

  lemma {:induction false} SumAppend(a: seq<Item>, b: seq<Item>)
    ensures SumAll(a + b) == SumAll(a) + SumAll(b)
    decreases |b|
  {
    if b == [] {
      assert a + b == a;
    } else {
      assert (a + b)[..|a + b| - 1] == a + b[..|b| - 1];
      SumAppend(a, b[..|b| - 1]);
    }
  }

  lemma AppendSameCharges(a: seq<Item>, a': seq<Item>, b: seq<Item>, b': seq<Item>)
    requires SameCharges(a, a') && SameCharges(b, b')
    ensures SameCharges(a + b, a' + b')
  {
    hide KeySum;
    forall key
      ensures KeySum(a + b, key) == KeySum(a' + b', key)
    {
      KeySumAppend(a, b, key);
      KeySumAppend(a', b', key);
    }
  }

  // ------------------------------------------- equal charges, equal totals

  function Without(items: seq<Item>, key: string): (r: seq<Item>)
    ensures |r| <= |items|
  {
    if items == [] then []
    else
      var last := items[|items| - 1];
      Without(items[..|items| - 1], key) + if last.key == key then [] else [last]
  }

  lemma OneItem(items: seq<Item>, item: Item, key: string)
    ensures KeySum(items + [item], key) == KeySum(items, key) + if item.key == key then item.amount else 0.0
    ensures SumAll(items + [item]) == SumAll(items) + item.amount
  {
    assert (items + [item])[..|items|] == items;
  }

  lemma WithoutSnoc(items: seq<Item>, key: string)
    requires items != []
    ensures Without(items, key) == if items[|items| - 1].key == key then Without(items[..|items| - 1], key)
                                   else Without(items[..|items| - 1], key) + [items[|items| - 1]]
  {
  }

  lemma {:induction false} WithoutKey(items: seq<Item>, key: string, other: string)
    ensures KeySum(Without(items, key), other) == if other == key then 0.0 else KeySum(items, other)
  {
    if items != [] {
      var front, last := items[..|items| - 1], items[|items| - 1];
      WithoutSnoc(items, key);
      WithoutKey(front, key, other);
      hide Without;
      OneItem(Without(front, key), last, other);
    }
  }

  lemma {:induction false} SplitOffKey(items: seq<Item>, key: string)
    ensures SumAll(items) == KeySum(items, key) + SumAll(Without(items, key))
  {
    if items != [] {
      var front, last := items[..|items| - 1], items[|items| - 1];
      WithoutSnoc(items, key);
      SplitOffKey(front, key);
      hide Without;
      OneItem(Without(front, key), last, key);
    }
  }

  lemma {:induction false} WithoutShrinks(items: seq<Item>, i: nat)
    requires i < |items|
    ensures |Without(items, items[i].key)| < |items|
  {
    if i < |items| - 1 {
      WithoutShrinks(items[..|items| - 1], i);
    }
  }

  /** Lists that charge every key alike have the same total. */
  lemma {:induction false} SameChargesSameSum(a: seq<Item>, b: seq<Item>)
    requires SameCharges(a, b)
    ensures SumAll(a) == SumAll(b)
    decreases |a| + |b|
  {
    hide Without;
    if a != [] || b != [] {
      var key := if a != [] then a[0].key else b[0].key;
      if a != [] {
        WithoutShrinks(a, 0);
      } else {
        WithoutShrinks(b, 0);
      }
      forall other
        ensures KeySum(Without(a, key), other) == KeySum(Without(b, key), other)
      {
        WithoutKey(a, key, other);
        WithoutKey(b, key, other);
      }
      SplitOffKey(a, key);
      SplitOffKey(b, key);
      SameChargesSameSum(Without(a, key), Without(b, key));
    }
  }

  // --------------------------------------------- breakdowns are unique

  lemma {:induction false} AbsentKey(items: seq<Item>, key: string)
    requires forall i :: 0 <= i < |items| ==> items[i].key != key
    ensures KeySum(items, key) == 0.0
  {
    if items != [] {
      AbsentKey(items[..|items| - 1], key);
    }
  }

  lemma {:induction false} RowCharges(items: seq<Item>, i: nat)
    requires Compact(items) && i < |items|
    ensures KeySum(items, items[i].key) == items[i].amount
  {
    var front := items[..|items| - 1];
    if i == |items| - 1 {
      AbsentKey(front, items[i].key);
    } else {
      RowCharges(front, i);
    }
  }

  lemma RowFor(items: seq<Item>, key: string) returns (i: nat)
    requires KeySum(items, key) != 0.0
    ensures i < |items| && items[i].key == key
  {
    if forall k :: 0 <= k < |items| ==> items[k].key != key {
      AbsentKey(items, key);
    }
    i :| 0 <= i < |items| && items[i].key == key;
  }

  lemma CompactRowsAgree(a: seq<Item>, b: seq<Item>, i: nat)
    requires Compact(a) && Compact(b) && SameCharges(a, b) && i < |a|
    ensures a[i] in b
  {
    hide KeySum;
    RowCharges(a, i);
    var j := RowFor(b, a[i].key);
    RowCharges(b, j);
    assert b[j] == a[i];
  }

  lemma {:induction false} CompactOccursOnce(items: seq<Item>, x: Item)
    requires Compact(items)
    ensures multiset(items)[x] == if x in items then 1 else 0
  {
    if items != [] {
      var front, last := items[..|items| - 1], items[|items| - 1];
      assert items == front + [last];
      CompactOccursOnce(front, x);
      LastIsNew(items);
    }
  }

  lemma LastIsNew(items: seq<Item>)
    requires Compact(items) && items != []
    ensures Compact(items[..|items| - 1]) && items[|items| - 1] !in items[..|items| - 1]
  {
    var front := items[..|items| - 1];
    forall i | 0 <= i < |front|
      ensures front[i].key != items[|items| - 1].key
    {
      assert front[i] == items[i];
    }
  }

  /** A breakdown is determined by what it charges to each key, up to the order of its rows. */
  lemma BreakdownIsUnique(a: seq<Item>, b: seq<Item>)
    requires Compact(a) && Compact(b) && SameCharges(a, b)
    ensures multiset(a) == multiset(b)
  {
    hide KeySum;
    forall x
      ensures multiset(a)[x] == multiset(b)[x]
    {
      CompactOccursOnce(a, x);
      CompactOccursOnce(b, x);
      if x in a {
        var i :| 0 <= i < |a| && a[i] == x;
        CompactRowsAgree(a, b, i);
      }
      if x in b {
        var i :| 0 <= i < |b| && b[i] == x;
        CompactRowsAgree(b, a, i);
      }
    }
  }

  // ------------------------------------------------------ tallies in a map

  ghost predicate Tallies(byKey: map<string, real>, items: seq<Item>) {
    forall key :: KeySum(items, key) == if key in byKey then byKey[key] else 0.0
  }

  function AddTo(byKey: map<string, real>, key: string, amount: real): map<string, real> {
    byKey[key := (if key in byKey then byKey[key] else 0.0) + amount]
  }

  lemma TallyStep(byKey: map<string, real>, items: seq<Item>, item: Item)
    requires Tallies(byKey, items)
    ensures Tallies(AddTo(byKey, item.key, item.amount), items + [item])
  {
    forall key
      ensures KeySum(items + [item], key) == KeySum(items, key) + if item.key == key then item.amount else 0.0
    {
      assert (items + [item])[..|items|] == items;
    }
  }

  lemma NoTally()
    ensures Tallies(map[], [])
  {
  }

  // ----------------------------------------------------------- sorted output

  function InsertLargest(item: Item, items: seq<Item>): seq<Item> {
    if items == [] then [item]
    else
      var last := items[|items| - 1];
      if last.amount >= item.amount then items + [item]
      else InsertLargest(item, items[..|items| - 1]) + [last]
  }

  lemma {:induction false} InsertLargestKeeps(item: Item, items: seq<Item>)
    ensures multiset(InsertLargest(item, items)) == multiset(items) + multiset{item}
  {
    if items != [] {
      assert items == items[..|items| - 1] + [items[|items| - 1]];
      InsertLargestKeeps(item, items[..|items| - 1]);
    }
  }

  lemma {:induction false} InsertLargestCharges(item: Item, items: seq<Item>, key: string)
    ensures KeySum(InsertLargest(item, items), key) == KeySum(items, key) + if item.key == key then item.amount else 0.0
  {
    hide KeySum;
    if items == [] {
      SingleCharge(item, key);
    } else {
      var front, last := items[..|items| - 1], items[|items| - 1];
      InsertLargestCharges(item, front, key);
      OneItem(items, item, key);
      OneItem(InsertLargest(item, front), last, key);
      LastCharge(items, key);
    }
  }

  lemma SingleCharge(item: Item, key: string)
    ensures KeySum([item], key) == (if item.key == key then item.amount else 0.0) && KeySum([], key) == 0.0
  {
    assert [item][..0] == [];
  }

  lemma LastCharge(items: seq<Item>, key: string)
    requires items != []
    ensures KeySum(items, key)
         == KeySum(items[..|items| - 1], key) + if items[|items| - 1].key == key then items[|items| - 1].amount else 0.0
  {
  }

  lemma {:induction false} InsertLargestSorts(item: Item, items: seq<Item>)
    requires LargestFirst(items)
    ensures forall x :: x in InsertLargest(item, items) ==> x in items || x == item
    ensures LargestFirst(InsertLargest(item, items))
  {
    if items != [] {
      var front, last := items[..|items| - 1], items[|items| - 1];
      InsertLargestSorts(item, front);
      forall x | x in front
        ensures x.amount >= last.amount
      {
        var i :| 0 <= i < |front| && front[i] == x;
        assert items[i] == x;
      }
    }
  }

  function SortLargest(items: seq<Item>): seq<Item> {
    if items == [] then [] else InsertLargest(items[|items| - 1], SortLargest(items[..|items| - 1]))
  }

  lemma {:induction false} SortLargestKeeps(items: seq<Item>)
    ensures multiset(SortLargest(items)) == multiset(items)
    ensures SameCharges(SortLargest(items), items)
    ensures LargestFirst(SortLargest(items))
  {
    hide KeySum, InsertLargest, LargestFirst;
    if items == [] {
      NoneLargest();
    } else {
      var front, last := items[..|items| - 1], items[|items| - 1];
      assert items == front + [last];
      SortLargestKeeps(front);
      InsertLargestKeeps(last, SortLargest(front));
      InsertLargestSorts(last, SortLargest(front));
      forall key
        ensures KeySum(SortLargest(items), key) == KeySum(items, key)
      {
        InsertLargestCharges(last, SortLargest(front), key);
        LastCharge(items, key);
      }
    }
  }

  lemma NoneLargest()
    ensures LargestFirst([])
  {
  }

  lemma PermutedIsCompact(a: seq<Item>, b: seq<Item>)
    requires multiset(a) == multiset(b) && Compact(a)
    ensures Compact(b)
  {
    forall i | 0 <= i < |b|
      ensures b[i].amount != 0.0
    {
      assert b[i] in multiset(b);
    }
    forall i, j | 0 <= i < j < |b|
      ensures b[i].key != b[j].key
    {
      assert b[i] in multiset(b) && b[j] in multiset(b);
      if b[i] == b[j] {
        TwiceIn(b, i, j);
        CompactOccursOnce(a, b[i]);
      } else {
        DistinctRowsDistinctKeys(a, b[i], b[j]);
      }
    }
  }

  lemma TwiceIn(items: seq<Item>, i: nat, j: nat)
    requires i < j < |items| && items[i] == items[j]
    ensures multiset(items)[items[i]] >= 2
  {
    var front, back := items[..j], items[j..];
    assert items == front + back;
    assert multiset(items) == multiset(front) + multiset(back);
    assert front[i] in front && back[0] in back;
  }

  lemma DistinctRowsDistinctKeys(items: seq<Item>, x: Item, y: Item)
    requires Compact(items) && x in items && y in items && x != y
    ensures x.key != y.key
  {
    var i :| 0 <= i < |items| && items[i] == x;
    var j :| 0 <= j < |items| && items[j] == y;
  }

  /** The rows of a tally and their total: keys in any order, zeros dropped, then sorted with the
      largest first. */
  method RankTally(byKey: map<string, real>, ghost items: seq<Item>) returns (rows: seq<Item>, total: real)
    requires Tallies(byKey, items)
    ensures Compact(rows) && SameCharges(rows, items) && LargestFirst(rows)
    ensures total == SumAll(rows) == SumAll(items)
  {
    hide KeySum, SumAll, LargestFirst;
    rows, total := NonZeroRows(byKey, items);
    SortLargestKeeps(rows);
    PermutedIsCompact(rows, SortLargest(rows));
    SameChargesSameSum(rows, items);
    rows := SortLargest(rows);
    SameChargesSameSum(rows, items);
  }

  method NonZeroRows(byKey: map<string, real>, ghost items: seq<Item>) returns (rows: seq<Item>, total: real)
    requires Tallies(byKey, items)
    ensures Compact(rows) && SameCharges(rows, items) && total == SumAll(rows)
  {
    hide KeySum, SumAll;
    rows, total := [], 0.0;
    NoTotal();
    var keys := byKey.Keys;
    while keys != {}
      invariant keys <= byKey.Keys && Compact(rows) && total == SumAll(rows)
      invariant forall i :: 0 <= i < |rows| ==> rows[i].key in byKey.Keys - keys && rows[i].amount == byKey[rows[i].key]
      invariant forall k :: k in byKey.Keys - keys && byKey[k] != 0.0 ==> Item(k, byKey[k]) in rows
      decreases |keys|
    {
      var key :| key in keys;
      keys := keys - {key};
      if byKey[key] != 0.0 {
        OneItem(rows, Item(key, byKey[key]), key);
        rows := rows + [Item(key, byKey[key])];
        total := total + byKey[key];
      }
    }
    RowsOfTally(byKey, items, rows);
  }

  lemma NoTotal()
    ensures SumAll([]) == 0.0
  {
  }

  lemma RowsOfTally(byKey: map<string, real>, items: seq<Item>, rows: seq<Item>)
    requires Tallies(byKey, items) && Compact(rows)
    requires forall i :: 0 <= i < |rows| ==> rows[i].key in byKey.Keys && rows[i].amount == byKey[rows[i].key]
    requires forall k :: k in byKey.Keys && byKey[k] != 0.0 ==> Item(k, byKey[k]) in rows
    ensures SameCharges(rows, items)
  {
    hide KeySum;
    forall key
      ensures KeySum(rows, key) == KeySum(items, key)
    {
      if key in byKey && byKey[key] != 0.0 {
        var i :| 0 <= i < |rows| && rows[i] == Item(key, byKey[key]);
        RowCharges(rows, i);
      } else {
        AbsentKey(rows, key);
      }
    }
  }
}
