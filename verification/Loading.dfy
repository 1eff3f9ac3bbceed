/** `dataReader` in its "multiple" mode: every process reads the whole table and keeps every n-th row. */
module Loading {
  import opened Sequences
  import opened Query
  import opened FinalCompetition
  import EndToEnd

  /** The rows process `index` keeps: row number `cnt`, counted from 1, goes to `cnt % n + 1`. */
  function RowsOf<T>(rows: seq<T>, index: nat, n: nat): seq<T>
    requires n > 0
  {
    if rows == [] then []
    else RowsOf(rows[..|rows| - 1], index, n) + if |rows| % n + 1 == index then [rows[|rows| - 1]] else []
  }

  /** The position of the first row that process `index` keeps, if the table has so many. */
  function FirstRow(index: nat, n: nat): (r: nat)
    requires 1 <= index <= n
    ensures r == (index + n - 2) % n
  {
    if index == 1 then n - 1 else index - 2
  }

  lemma Multiple(c: int, n: int)
    requires c != 0 && 0 < n
    ensures c * n <= -n || n <= c * n
  {
  }

  lemma ModOf(a: int, k: int, n: nat)
    requires 0 <= a < n
    ensures (a + k * n) % n == a
  {
    var q, r := (a + k * n) / n, (a + k * n) % n;
    assert a + k * n == q * n + r;
    assert (q - k) * n == a - r;
    if q != k {
      Multiple(q - k, n);
    }
  }

  /** The next row is due when the last one lies `n` rows back. */
  lemma NextDue(index: nat, n: nat, k: nat, i: nat)
    requires 1 <= index <= n && i <= FirstRow(index, n) + k * n && (k > 0 ==> FirstRow(index, n) + (k - 1) * n < i)
    ensures (i + 1) % n + 1 == index <==> i == FirstRow(index, n) + k * n
  {
    var d := FirstRow(index, n) + k * n - i;
    assert k > 0 ==> (k - 1) * n == k * n - n;
    assert 0 <= d < n;
    if index == 1 {
      if d == 0 {
        ModOf(0, k + 1, n);
        assert (k + 1) * n == k * n + n;
      } else {
        ModOf(n - d, k, n);
      }
    } else if d <= index - 1 {
      ModOf(index - 1 - d, k, n);
    } else {
      ModOf(index - 1 - d + n, k - 1, n);
      assert (k - 1) * n == k * n - n;
    }
  }

  /** Process `index` keeps the rows at `FirstRow` and from there every n-th, to the end of the table. */
  lemma {:induction false} KeptRows<T>(rows: seq<T>, index: nat, n: nat)
    requires 1 <= index <= n
    ensures
      var kept := RowsOf(rows, index, n);
      && |rows| <= FirstRow(index, n) + |kept| * n
      && (kept != [] ==> FirstRow(index, n) + (|kept| - 1) * n < |rows|)
      && forall j :: 0 <= j < |kept| ==> FirstRow(index, n) + j * n < |rows| && kept[j] == rows[FirstRow(index, n) + j * n]
  {
    if rows != [] {
      var init := rows[..|rows| - 1];
      var kept := RowsOf(init, index, n);
      KeptRows(init, index, n);
      NextDue(index, n, |kept|, |init|);
      assert (|kept| + 1) * n == |kept| * n + n;
    }
  }

  /** The number of row `i`, counted from 1, has the remainder `index - 1`. */
  predicate IsDue(i: int, index: nat, n: nat)
    requires n > 0
  {
    (i + 1) % n == index - 1
  }

  lemma {:induction false} KeptCount<T>(rows: seq<T>, index: nat, n: nat)
    requires n > 0
    ensures |RowsOf(rows, index, n)| == |set i | 0 <= i < |rows| && IsDue(i, index, n)|
  {
    var due := set i | 0 <= i < |rows| && IsDue(i, index, n);
    if rows == [] {
      assert due == {};
    } else {
      var k := |rows| - 1;
      KeptCount(rows[..k], index, n);
      var before := set i | 0 <= i < k && IsDue(i, index, n);
      assert due == before + if (k + 1) % n + 1 == index then {k} else {};
    }
  }

  /** The loop over the lines of a table.  The rows kept are those at (index + n - 2) % n and from there
      every n-th. */
  method KeepRows<T>(rows: seq<T>, index: nat, n: nat) returns (kept: seq<T>)
    requires n > 0
    ensures kept == RowsOf(rows, index, n)
    ensures |kept| == |set i | 0 <= i < |rows| && IsDue(i, index, n)|
    ensures 1 <= index <= n ==>
      var first := (index + n - 2) % n;
      && |rows| <= first + |kept| * n
      && (kept != [] ==> first + (|kept| - 1) * n < |rows|)
      && forall j :: 0 <= j < |kept| ==> first + j * n < |rows| && kept[j] == rows[first + j * n]
  {
    KeptCount(rows, index, n);
    if 1 <= index <= n {
      KeptRows(rows, index, n);
    }
    kept := [];
    var cnt := 0;
    for i := 0 to |rows|
      invariant cnt == i && kept == RowsOf(rows[..i], index, n)
    {
      assert rows[..i + 1][..i] == rows[..i];
      cnt := cnt + 1;
      if cnt % n + 1 != index {
        continue;
      }
      kept := kept + [rows[i]];
    }
    assert rows[..|rows|] == rows;
  }

  /** What the n processes keep, process by process. */
  function Shares<T>(rows: seq<T>, n: nat): (s: seq<seq<T>>)
    requires n > 0
    ensures |s| == n
  {
    seq(n, i requires 0 <= i < n => RowsOf(rows, i + 1, n))
  }

  lemma {:induction false} FlattenUpdate<T>(parts: seq<seq<T>>, i: nat, x: T)
    requires i < |parts|
    ensures multiset(Flatten(parts[i := parts[i] + [x]])) == multiset(Flatten(parts)) + multiset{x}
  {
    var new_ := parts[i := parts[i] + [x]];
    if i == 0 {
      assert new_[1..] == parts[1..];
    } else {
      assert new_[1..] == parts[1..][i - 1 := parts[1..][i - 1] + [x]];
      FlattenUpdate(parts[1..], i - 1, x);
    }
  }

  lemma {:induction false} FlattenEmpty<T>(parts: seq<seq<T>>)
    requires forall i :: 0 <= i < |parts| ==> parts[i] == []
    ensures Flatten(parts) == []
  {
    if parts != [] {
      FlattenEmpty(parts[1..]);
    }
  }

  lemma ShareOfLast<T>(rows: seq<T>, n: nat) returns (k: nat)
    requires n > 0 && rows != []
    ensures
      var init, last := rows[..|rows| - 1], rows[|rows| - 1];
      k < n && Shares(rows, n) == Shares(init, n)[k := Shares(init, n)[k] + [last]]
  {
    var init, last := rows[..|rows| - 1], rows[|rows| - 1];
    k := |rows| % n;
    forall i: nat | i < n
      ensures Shares(rows, n)[i] == if i == k then Shares(init, n)[i] + [last] else Shares(init, n)[i]
    {
      assert RowsOf(init, i + 1, n) + [] == RowsOf(init, i + 1, n);
    }
  }

  lemma MultisetOfLast<T>(rows: seq<T>)
    requires rows != []
    ensures multiset(rows) == multiset(rows[..|rows| - 1]) + multiset{rows[|rows| - 1]}
  {
    assert rows == rows[..|rows| - 1] + [rows[|rows| - 1]];
  }

  /** The shares are a partition of the table: every row is kept by exactly one process. */
  lemma {:induction false} SharesPartition<T>(rows: seq<T>, n: nat)
    requires n > 0
    ensures multiset(Flatten(Shares(rows, n))) == multiset(rows)
  {
    hide Flatten;
    if rows == [] {
      FlattenEmpty(Shares(rows, n));
    } else {
      var init, last := rows[..|rows| - 1], rows[|rows| - 1];
      SharesPartition(init, n);
      var k := ShareOfLast(rows, n);
      FlattenUpdate(Shares(init, n), k, last);
      MultisetOfLast(rows);
    }
  }

  // ---- the query does not depend on the order of the rows ----

  lemma OrderSumWithout(s: seq<Order>, i: nat, key: int, f: Column)
    requires i < |s|
    ensures OrderSum(s, key, f) == OrderSum(Without(s, i), key, f) + Quantity(s[i], key, f)
  {
    assert s == s[..i] + ([s[i]] + s[i + 1..]);
    OrderSumAppend(s[..i], [s[i]] + s[i + 1..], key, f);
    OrderSumAppend([s[i]], s[i + 1..], key, f);
    OrderSumAppend(s[..i], s[i + 1..], key, f);
    assert OrderSum([s[i]], key, f) == Quantity(s[i], key, f);
  }

  lemma RevenueWithout(s: seq<Order>, i: nat, keys: set<int>, all: seq<Order>)
    requires i < |s|
    ensures Revenue(s, keys, all) == Revenue(Without(s, i), keys, all) + Price(s[i], keys, all)
  {
    assert s == s[..i] + ([s[i]] + s[i + 1..]);
    RevenueAppend(s[..i], [s[i]] + s[i + 1..], keys, all);
    RevenueAppend([s[i]], s[i + 1..], keys, all);
    RevenueAppend(s[..i], s[i + 1..], keys, all);
    assert Revenue([s[i]], keys, all) == Price(s[i], keys, all);
  }

  lemma {:induction false} OrderSumOfPermutation(s: seq<Order>, t: seq<Order>, key: int, f: Column)
    requires multiset(s) == multiset(t)
    ensures OrderSum(s, key, f) == OrderSum(t, key, f)
  {
    if s == [] {
      assert |multiset(t)| == 0;
    } else {
      assert s[0] in multiset(t);
      var i :| 0 <= i < |t| && t[i] == s[0];
      WithoutMultiset(t, i);
      WithoutMultiset(s, 0);
      OrderSumOfPermutation(Without(s, 0), Without(t, i), key, f);
      OrderSumWithout(t, i, key, f);
      OrderSumWithout(s, 0, key, f);
    }
  }

  lemma {:induction false} RevenueOfPermutation(s: seq<Order>, t: seq<Order>, keys: set<int>, a: seq<Order>, b: seq<Order>)
    requires multiset(s) == multiset(t) && multiset(a) == multiset(b)
    ensures Revenue(s, keys, a) == Revenue(t, keys, b)
  {
    if s == [] {
      assert |multiset(t)| == 0;
    } else {
      assert s[0] in multiset(t);
      var i :| 0 <= i < |t| && t[i] == s[0];
      WithoutMultiset(t, i);
      WithoutMultiset(s, 0);
      RevenueOfPermutation(Without(s, 0), Without(t, i), keys, a, b);
      RevenueWithout(t, i, keys, b);
      RevenueWithout(s, 0, keys, a);
      OrderSumOfPermutation(a, b, s[0].key, Sales);
      OrderSumOfPermutation(a, b, s[0].key, Count);
    }
  }

  lemma AnswerOfPermutation(parts: seq<Part>, parts': seq<Part>, orders: seq<Order>, orders': seq<Order>, t: Target)
    requires multiset(parts) == multiset(parts') && multiset(orders) == multiset(orders')
    ensures Answer(parts, orders, t) == Answer(parts', orders', t)
  {
    forall p ensures p in parts <==> p in parts' {
      assert p in multiset(parts) <==> p in multiset(parts');
    }
    assert Keys(parts, t) == Keys(parts', t);
    RevenueOfPermutation(orders, orders', Keys(parts, t), orders, orders');
  }

  /** The program as a whole: run on shared tables, it shows the answer to the query on the tables. */
  lemma AnswerForSharedTables(parts: seq<Part>, orders: seq<Order>, cfg: Config, s: Sys)
    requires ValidConfig(cfg) && cfg.parts == Shares(parts, |cfg.parts|) && cfg.orders == Shares(orders, |cfg.parts|)
    requires EndToEnd.Reachable(cfg, s) && |s.ring.procs| == |s.apps| == |cfg.parts|
    requires s.ring.procs[cfg.selectIdx].finishIndex == |cfg.parts| + 4
    ensures s.apps[cfg.selectIdx].underSales == Answer(parts, orders, cfg.target)
  {
    EndToEnd.SelectedProcessHasAnswer(cfg, s);
    SharesPartition(parts, |cfg.parts|);
    SharesPartition(orders, |cfg.parts|);
    AnswerOfPermutation(parts, Flatten(cfg.parts), orders, Flatten(cfg.orders), cfg.target);
  }
}
