/** Options, results and the one sum every book needs: the total of a column over a table. */
module Sums {

  datatype Option<+T> = None | Some(value: T)

  datatype Result<+T, +E> = Ok(value: T) | Err(error: E)

  /** SUM over a column, keyed by the table's primary key. */
  ghost function Total<K>(column: map<K, real>): real
    decreases |column|
  {
    if column == map[] then 0.0
    else
      var k :| k in column;
      column[k] + Total(column - {k})
  }

  /** Any row can be taken out first, so the order in which rows are read is immaterial. */
  lemma {:induction false} TotalWithout<K>(column: map<K, real>, k: K)
    requires k in column
    ensures Total(column) == column[k] + Total(column - {k})
    decreases |column|
  {
    var j :| j in column && Total(column) == column[j] + Total(column - {j});
    if j != k {
      TotalWithout(column - {j}, k);
      TotalWithout(column - {k}, j);
      assert column - {j} - {k} == column - {k} - {j};
    }
  }

  /** What INSERT or UPDATE of one row does to a column's sum. */
  lemma TotalSet<K>(column: map<K, real>, k: K, v: real)
    ensures Total(column[k := v]) == Total(column) - (if k in column then column[k] else 0.0) + v
  {
    TotalWithout(column[k := v], k);
    assert column[k := v] - {k} == column - {k};
    if k in column {
      TotalWithout(column, k);
    } else {
      assert column - {k} == column;
    }
  }

  lemma {:induction false} TotalZero<K>(column: map<K, real>)
    requires forall k | k in column :: column[k] == 0.0
    ensures Total(column) == 0.0
    decreases |column|
  {
    if column != map[] {
      var k :| k in column;
      TotalWithout(column, k);
      TotalZero(column - {k});
    }
  }

  function Product(x: real, factor: real): real {
    x * factor
  }

  /** Each entry of the one column is that of the other times a factor. */
  predicate Scaled<K(!new)>(column: map<K, real>, scaled: map<K, real>, factor: real) {
    scaled.Keys == column.Keys && forall k | k in column :: scaled[k] == Product(column[k], factor)
  }

  lemma {:induction false} TotalScaled<K(!new)>(column: map<K, real>, scaled: map<K, real>, factor: real)
    requires Scaled(column, scaled, factor)
    ensures Total(scaled) == Product(Total(column), factor)
    decreases |column|
  {
    if column == map[] {
      NothingScaled(factor);
    } else {
      var k :| k in column;
      TotalWithout(column, k);
      TotalWithout(scaled, k);
      ScaledRest(column, scaled, factor, k);
      TotalScaled(column - {k}, scaled - {k}, factor);
      ScaledSum(column[k], Total(column - {k}), scaled[k], Total(scaled - {k}), factor, Total(column));
    }
  }

  lemma ScaledRest<K(!new)>(column: map<K, real>, scaled: map<K, real>, factor: real, k: K)
    requires Scaled(column, scaled, factor) && k in column
    ensures Scaled(column - {k}, scaled - {k}, factor)
  {
  }

  lemma NothingScaled(factor: real)
    ensures Product(0.0, factor) == 0.0
  {
  }

  lemma ScaledSum(x: real, y: real, x': real, y': real, factor: real, sum: real)
    requires x' == Product(x, factor) && y' == Product(y, factor) && sum == x + y
    ensures x' + y' == Product(sum, factor)
  {
  }

  /** The same sum for a column of whole numbers. */
  ghost function Tally<K>(column: map<K, int>): int
    decreases |column|
  {
    if column == map[] then 0
    else
      var k :| k in column;
      column[k] + Tally(column - {k})
  }

  lemma {:induction false} TallyWithout<K>(column: map<K, int>, k: K)
    requires k in column
    ensures Tally(column) == column[k] + Tally(column - {k})
    decreases |column|
  {
    var j :| j in column && Tally(column) == column[j] + Tally(column - {j});
    if j != k {
      TallyWithout(column - {j}, k);
      TallyWithout(column - {k}, j);
      assert column - {j} - {k} == column - {k} - {j};
    }
  }

  lemma TallySet<K>(column: map<K, int>, k: K, v: int)
    ensures Tally(column[k := v]) == Tally(column) - (if k in column then column[k] else 0) + v
  {
    TallyWithout(column[k := v], k);
    assert column[k := v] - {k} == column - {k};
    if k in column {
      TallyWithout(column, k);
    } else {
      assert column - {k} == column;
    }
  }

  lemma {:induction false} TallyOrdered<K>(low: map<K, int>, high: map<K, int>)
    requires low.Keys == high.Keys && forall k | k in low :: low[k] <= high[k]
    ensures Tally(low) <= Tally(high)
    decreases |low|
  {
    if low != map[] {
      var k :| k in low;
      TallyWithout(low, k);
      TallyWithout(high, k);
      TallyOrdered(low - {k}, high - {k});
    }
  }

  lemma {:induction false} TallyDifference<K>(a: map<K, int>, b: map<K, int>, c: map<K, int>)
    requires a.Keys == b.Keys == c.Keys && forall k | k in a :: c[k] == a[k] - b[k]
    ensures Tally(c) == Tally(a) - Tally(b)
    decreases |a|
  {
    if a != map[] {
      var k :| k in a;
      TallyWithout(a, k);
      TallyWithout(b, k);
      TallyWithout(c, k);
      TallyDifference(a - {k}, b - {k}, c - {k});
    }
  }

  lemma {:induction false} TallyNonNegative<K>(column: map<K, int>)
    requires forall k | k in column :: column[k] >= 0
    ensures Tally(column) >= 0
    decreases |column|
  {
    if column != map[] {
      var k :| k in column;
      TallyWithout(column, k);
      TallyNonNegative(column - {k});
    }
  }

  lemma {:induction false} TallyZero<K>(column: map<K, int>)
    requires forall k | k in column :: column[k] == 0
    ensures Tally(column) == 0
    decreases |column|
  {
    if column != map[] {
      var k :| k in column;
      TallyWithout(column, k);
      TallyZero(column - {k});
    }
  }
}
