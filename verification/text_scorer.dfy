/**
 * Turning a TF-IDF sparse matrix into one score per text line, as
 * `KiwiVectorizer.toValues` does: the score of a row is the sum over its
 * stored entries of column index times weight.
 */
module TextScorer {

  /** A matrix in compressed sparse row form, as `scipy.sparse.csr_matrix` stores it. */
  datatype Csr = Csr(indptr: seq<int>, indices: seq<int>, data: seq<real>)
  {
    /** Row offsets (`indptr`) lie inside the entry arrays and never decrease. */
    predicate WellFormed()
    {
      |indices| == |data|
      && (forall k :: 0 <= k < |indptr| ==> 0 <= indptr[k] <= |indices|)
      && (forall k :: 0 <= k < |indptr| - 1 ==> indptr[k] <= indptr[k + 1])
    }

    function Rows(): nat
    {
      if |indptr| == 0 then 0 else |indptr| - 1
    }
  }

  /** Sum of `indices[k] * data[k]` over the entries `lo <= k < hi`. */
  function RangeSum(m: Csr, lo: int, hi: int): real
    requires m.WellFormed() && 0 <= lo <= hi <= |m.indices|
    decreases hi - lo
  {
    if lo == hi then 0.0 else RangeSum(m, lo, hi - 1) + m.indices[hi - 1] as real * m.data[hi - 1]
  }

  /** The score of row `i`. */
  function RowScore(m: Csr, i: int): real
    requires m.WellFormed() && 0 <= i < m.Rows()
  {
    RangeSum(m, m.indptr[i], m.indptr[i + 1])
  }

  /** `toValues`: one score per row, in row order. */
  method ToValues(m: Csr) returns (lst: seq<real>)
    requires m.WellFormed()
    ensures |lst| == m.Rows()
    ensures forall i :: 0 <= i < |lst| ==> lst[i] == RowScore(m, i)
  {
    lst := [];
    var saftySz := |m.indptr| - 1;
    var i := 0;
    while i < |m.indptr|
      invariant 0 <= i <= |m.indptr|
      invariant |lst| == if i < m.Rows() then i else m.Rows()
      invariant forall r :: 0 <= r < |lst| ==> lst[r] == RowScore(m, r)
    {
      var sumval := 0.0;
      if i < saftySz {
        var lo, hi := m.indptr[i], m.indptr[i + 1];
        var j := lo;
        while j < hi
          invariant lo <= j <= hi
          invariant sumval == RangeSum(m, lo, j)
        {
          sumval := sumval + m.indices[j] as real * m.data[j];
          j := j + 1;
        }
        lst := lst + [sumval];
      }
      i := i + 1;
    }
  }

  /** `score(line)`: the score of the single row the vectorizer produces for `[line]`. */
  method Score(transform: seq<string> -> Csr, line: string) returns (s: real)
    requires transform([line]).WellFormed() && transform([line]).Rows() >= 1
    ensures s == RowScore(transform([line]), 0)
  {
    var values := ToValues(transform([line]));
    s := values[0];
  }

  /** `scores(lines)`: the scores of the rows the vectorizer produces for `lines`. */
  method Scores(transform: seq<string> -> Csr, lines: seq<string>) returns (r: seq<real>)
    requires transform(lines).WellFormed()
    ensures |r| == transform(lines).Rows()
    ensures forall i :: 0 <= i < |r| ==> r[i] == RowScore(transform(lines), i)
  {
    r := ToValues(transform(lines));
  }

  /** A sum over a range is the sum over any split of it. */
  lemma {:induction false} RangeSplit(m: Csr, lo: int, mid: int, hi: int)
    requires m.WellFormed() && 0 <= lo <= mid <= hi <= |m.indices|
    ensures RangeSum(m, lo, hi) == RangeSum(m, lo, mid) + RangeSum(m, mid, hi)
    decreases hi - mid
  {
    if hi > mid {
      RangeSplit(m, lo, mid, hi - 1);
    }
  }

  /** Two matrices that agree on the entries of a range have the same sum over it. */
  lemma {:induction false} RangeSumAgrees(m: Csr, n: Csr, lo: int, hi: int)
    requires m.WellFormed() && n.WellFormed()
    requires 0 <= lo <= hi <= |m.indices| && hi <= |n.indices|
    requires forall k :: lo <= k < hi ==> m.indices[k] == n.indices[k] && m.data[k] == n.data[k]
    ensures RangeSum(m, lo, hi) == RangeSum(n, lo, hi)
    decreases hi - lo
  {
    if hi > lo {
      RangeSumAgrees(m, n, lo, hi - 1);
    }
  }

  /** A row without stored entries (a text with no known term) scores 0. */
  lemma EmptyRowScoresZero(m: Csr, i: int)
    requires m.WellFormed() && 0 <= i < m.Rows()
    requires m.indptr[i] == m.indptr[i + 1]
    ensures RowScore(m, i) == 0.0
  {
  }

  /** A term whose vocabulary index is 0 adds nothing to its row's score, whatever its weight. */
  lemma ColumnZeroAddsNothing(m: Csr, i: int, k: int)
    requires m.WellFormed() && 0 <= i < m.Rows()
    requires m.indptr[i] <= k < m.indptr[i + 1] && m.indices[k] == 0
    ensures RowScore(m, i) == RangeSum(m, m.indptr[i], k) + RangeSum(m, k + 1, m.indptr[i + 1])
  {
    RangeSplit(m, m.indptr[i], k, m.indptr[i + 1]);
    RangeSplit(m, k, k + 1, m.indptr[i + 1]);
  }

  /** With non-negative indices and weights, as a TF-IDF matrix has, every score is non-negative. */
  lemma {:induction false} RangeSumNonNegative(m: Csr, lo: int, hi: int)
    requires m.WellFormed() && 0 <= lo <= hi <= |m.indices|
    requires forall k :: lo <= k < hi ==> m.indices[k] >= 0 && m.data[k] >= 0.0
    ensures RangeSum(m, lo, hi) >= 0.0
    decreases hi - lo
  {
    if hi > lo {
      RangeSumNonNegative(m, lo, hi - 1);
    }
  }

  /** The stored order of the entries inside a row does not change any score. */
  lemma EntryOrderIrrelevant(m: Csr, k: int, i: int)
    requires m.WellFormed() && 0 <= i < m.Rows()
    requires 0 <= k && k + 1 < |m.indices|
    requires forall r :: 0 <= r < m.Rows() ==> (m.indptr[r] <= k < m.indptr[r + 1] <==> m.indptr[r] <= k + 1 < m.indptr[r + 1])
    ensures var n := Csr(m.indptr,
                         m.indices[k := m.indices[k + 1]][k + 1 := m.indices[k]],
                         m.data[k := m.data[k + 1]][k + 1 := m.data[k]]);
            n.WellFormed() && RowScore(n, i) == RowScore(m, i)
  {
    var n := Csr(m.indptr,
                 m.indices[k := m.indices[k + 1]][k + 1 := m.indices[k]],
                 m.data[k := m.data[k + 1]][k + 1 := m.data[k]]);
    var lo, hi := m.indptr[i], m.indptr[i + 1];
    assert n.WellFormed();
    if lo <= k < hi {
      SwapInsideRange(m, n, lo, k, hi);
    } else {
      RangeSumAgrees(m, n, lo, hi);
    }
  }

  /** Swapping two neighbouring entries inside a range keeps its sum. */
  lemma SwapInsideRange(m: Csr, n: Csr, lo: int, k: int, hi: int)
    requires m.WellFormed() && n.WellFormed() && |n.indices| == |m.indices|
    requires 0 <= lo <= k && k + 2 <= hi <= |m.indices|
    requires n.indices == m.indices[k := m.indices[k + 1]][k + 1 := m.indices[k]]
    requires n.data == m.data[k := m.data[k + 1]][k + 1 := m.data[k]]
    ensures RangeSum(n, lo, hi) == RangeSum(m, lo, hi)
  {
    assert RangeSum(m, k, k + 1) == m.indices[k] as real * m.data[k];
    assert RangeSum(n, k, k + 1) == n.indices[k] as real * n.data[k];
    assert RangeSum(m, k, k + 2) == m.indices[k] as real * m.data[k] + m.indices[k + 1] as real * m.data[k + 1];
    assert RangeSum(n, k, k + 2) == n.indices[k] as real * n.data[k] + n.indices[k + 1] as real * n.data[k + 1];
    RangeSplit(m, lo, k, hi);
    RangeSplit(m, k, k + 2, hi);
    RangeSplit(n, lo, k, hi);
    RangeSplit(n, k, k + 2, hi);
    RangeSumAgrees(m, n, lo, k);
    RangeSumAgrees(m, n, k + 2, hi);
  }

  /**
   * The score depends on where a term sits in the vocabulary: the same weight
   * in column 1 or in column 3 gives different scores, and scores are not
   * bounded by 1.
   */
  lemma ScoreDependsOnVocabularyLayout()
    ensures var a := Csr([0, 1], [1], [0.5]);
            var b := Csr([0, 1], [3], [0.5]);
            a.WellFormed() && b.WellFormed() && RowScore(a, 0) == 0.5 && RowScore(b, 0) == 1.5
  {
    var a := Csr([0, 1], [1], [0.5]);
    var b := Csr([0, 1], [3], [0.5]);
    assert RowScore(a, 0) == RangeSum(a, 0, 0) + 1.0 * 0.5;
    assert RowScore(b, 0) == RangeSum(b, 0, 0) + 3.0 * 0.5;
  }
}
