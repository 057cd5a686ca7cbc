/**
 * The benefits-cliff detection pipeline of utils/utils.py.
 *
 * A result table of the benefits simulator is a sequence of named numeric columns. A cliff is a row
 * where a benefit phases out (its column returns to zero after a non-zero run) at, or one row after,
 * a strict local minimum of the slope of the net-resources curve.
 */
module Detection {
  import opened Basics

  /** One column of the simulator's result table: its name and its values row by row. */
  datatype Column = Column(name: string, values: seq<real>)

  /** One entry of the cliff dictionary: a benefit column and the rows where it causes a cliff. */
  datatype CliffEntry = CliffEntry(column: string, indices: seq<int>)

  datatype CliffError = InvalidMode(mode: string)

  /** The columns of a table all have `rows` entries. */
  predicate HasRows(table: seq<Column>, rows: nat) {
    forall c :: c in table ==> |c.values| == rows
  }

  // ---------------------------------------------------------------------------
  // combine_dicts

  /**
   * Merges dictionaries left to right, a later dictionary overriding an earlier one: every key of any
   * input is present, with the value of the last input that has it.
   */
  method CombineDicts<K, V>(dicts: seq<map<K, V>>) returns (combined: map<K, V>)
    ensures forall k :: k in combined <==> exists i :: 0 <= i < |dicts| && k in dicts[i]
    ensures forall k, i :: 0 <= i < |dicts| && k in dicts[i] && (forall j :: i < j < |dicts| ==> k !in dicts[j])
                           ==> combined[k] == dicts[i][k]
  {
    combined := map[];
    for n := 0 to |dicts|
      invariant forall k :: k in combined <==> exists i :: 0 <= i < n && k in dicts[i]
      invariant forall k, i :: 0 <= i < n && k in dicts[i] && (forall j :: i < j < n ==> k !in dicts[j])
                               ==> combined[k] == dicts[i][k]
    {
      combined := combined + dicts[n];
    }
  }

  // ---------------------------------------------------------------------------
  // find_zero_intercepts

  /** The rows at which `ls` returns to zero right after a non-zero value. */
  function ZeroCrossings(ls: seq<real>): (r: seq<nat>)
    ensures forall i :: i in r <==> 0 < i < |ls| && ls[i] == 0.0 && ls[i - 1] != 0.0
    ensures StrictlyIncreasing(r)
    ensures forall k :: 0 <= k < |r| ==> 0 < r[k] < |ls|
  {
    if |ls| <= 1 then []
    else
      var n := |ls| - 1;
      var before := ZeroCrossings(ls[..n]);
      var r := before + (if ls[n] == 0.0 && ls[n - 1] != 0.0 then [n] else []);
      PrefixCrossings(ls, n);
      if ls[n] == 0.0 && ls[n - 1] != 0.0 then
        SnocIncreasing(before, n);
        r
      else
        r
  }

  lemma PrefixCrossings(ls: seq<real>, n: nat)
    requires n <= |ls|
    ensures forall i :: 0 < i < n ==>
      (ls[..n][i] == 0.0 && ls[..n][i - 1] != 0.0 <==> ls[i] == 0.0 && ls[i - 1] != 0.0)
  {
  }

  /** The two-state scan of find_zero_intercepts: `onZero` says whether the previous value was zero. */
  method FindZeroIntercepts(ls: seq<real>) returns (zeroIndices: seq<nat>)
    ensures zeroIndices == ZeroCrossings(ls)
  {
    zeroIndices := [];
    var onZero := true;
    for n := 0 to |ls|
      invariant onZero == (n == 0 || ls[n - 1] == 0.0)
      invariant zeroIndices == ZeroCrossings(ls[..n])
    {
      ZeroCrossingsSnoc(ls, n);
      if ls[n] == 0.0 {
        if !onZero {
          zeroIndices := zeroIndices + [n];
          onZero := true;
        }
      } else {
        onZero := false;
      }
    }
    assert ls[..|ls|] == ls;
  }

  lemma ZeroCrossingsSnoc(ls: seq<real>, n: nat)
    requires n < |ls|
    ensures ZeroCrossings(ls[..n + 1]) ==
      ZeroCrossings(ls[..n]) + (if n > 0 && ls[n] == 0.0 && ls[n - 1] != 0.0 then [n] else [])
  {
    assert ls[..n + 1][..n] == ls[..n];
  }

  /** A leading run of zeros or a column that never leaves zero has no crossing. */
  lemma AllZeroNoCrossings(ls: seq<real>)
    requires forall i :: 0 <= i < |ls| ==> ls[i] == 0.0
    ensures ZeroCrossings(ls) == []
  {
  }

  // ---------------------------------------------------------------------------
  // find_derivative: the selection of relative minima of a given slope sequence

  /** Row i is a strict local minimum of the slope `d`: both neighbours exist and are larger. */
  predicate IsStrictLocalMinimum(d: seq<real>, i: int) {
    0 < i < |d| - 1 && d[i - 1] > d[i] && d[i] < d[i + 1]
  }

  /** The strict local minima of `d` below row `k`, ascending (argrelextrema with np.less). */
  function LocalMinimaBelow(d: seq<real>, k: nat): (r: seq<nat>)
    requires k <= |d|
    ensures forall i :: i in r <==> i < k && IsStrictLocalMinimum(d, i)
    ensures StrictlyIncreasing(r)
    ensures forall j :: 0 <= j < |r| ==> r[j] < k
  {
    if k == 0 then []
    else LocalMinimaBelow(d, k - 1) + (if IsStrictLocalMinimum(d, k - 1) then [k - 1] else [])
  }

  /** Keeps the indices above 0 (the `non_negative` filter). */
  function Positive(xs: seq<nat>): (r: seq<nat>)
    ensures forall x :: x in r <==> x in xs && x > 0
    ensures StrictlyIncreasing(xs) ==> StrictlyIncreasing(r)
  {
    if xs == [] then []
    else
      var rest := Positive(xs[1..]);
      assert forall x :: x in xs <==> x == xs[0] || x in xs[1..];
      var r := (if xs[0] > 0 then [xs[0]] else []) + rest;
      assert StrictlyIncreasing(xs) ==> StrictlyIncreasing(r) by {
        if StrictlyIncreasing(xs) {
          assert StrictlyIncreasing(xs[1..]);
          forall x | x in rest ensures xs[0] < x {
            var k :| 0 <= k < |xs[1..]| && xs[1..][k] == x;
            assert xs[k + 1] == x;
          }
          if xs[0] > 0 {
            ConsIncreasing(xs[0], rest);
          }
        }
      }
      r
  }

  /**
   * The minima half of find_derivative over a given slope sequence: the strict local minima, with
   * index 0 dropped when `nonNegative` holds. The end points are never reported.
   */
  function FindDerivativeMinima(d: seq<real>, nonNegative: bool): (r: seq<nat>)
    ensures forall i :: i in r <==> IsStrictLocalMinimum(d, i)
    ensures forall i :: i in r ==> 0 < i < |d| - 1
    ensures StrictlyIncreasing(r)
  {
    var minima := LocalMinimaBelow(d, |d|);
    if nonNegative then Positive(minima) else minima
  }

  /** The `non_negative` filter is positional and never removes anything: index 0 is never a minimum. */
  lemma {:induction false} PositiveKeepsAll(xs: seq<nat>)
    requires forall x :: x in xs ==> x > 0
    ensures Positive(xs) == xs
  {
    if xs != [] {
      assert xs[0] in xs;
      assert forall x :: x in xs[1..] ==> x in xs;
      PositiveKeepsAll(xs[1..]);
      assert xs == [xs[0]] + xs[1..];
    }
  }

  lemma NonNegativeFilterIsNoOp(d: seq<real>)
    ensures FindDerivativeMinima(d, true) == FindDerivativeMinima(d, false)
  {
    PositiveKeepsAll(LocalMinimaBelow(d, |d|));
  }

  // ---------------------------------------------------------------------------
  // filter_benefits

  /** The column holds at least one zero and at least one non-zero value. */
  predicate HasVariation(c: Column) {
    (exists i :: 0 <= i < |c.values| && c.values[i] == 0.0) &&
    (exists i :: 0 <= i < |c.values| && c.values[i] != 0.0)
  }

  /** The selection rule of filter_benefits for one column. */
  predicate IsCandidate(c: Column, includeEitc: bool, includeCtc: bool) {
    Contains(c.name, "value") && HasVariation(c) &&
    (includeEitc || !Contains(c.name, "eitc")) &&
    (includeCtc || !Contains(c.name, "ctc"))
  }

  /**
   * The benefit columns that can show a cliff: named like a benefit value, with both a zero and a
   * non-zero entry, and without the EITC or CTC families when those are excluded. Order is kept.
   */
  function FilterBenefits(table: seq<Column>, includeEitc: bool, includeCtc: bool): (r: seq<Column>)
    ensures forall c :: c in r <==> c in table && IsCandidate(c, includeEitc, includeCtc)
    ensures IsSubsequence(r, table)
  {
    if table == [] then []
    else
      var rest := FilterBenefits(table[1..], includeEitc, includeCtc);
      assert forall c :: c in table <==> c == table[0] || c in table[1..];
      if IsCandidate(table[0], includeEitc, includeCtc) then [table[0]] + rest else rest
  }

  /** Excluding the CTC family also removes every CDCTC column, as "ctc" occurs in "cdctc". */
  lemma NoCtcExcludesCdctc(table: seq<Column>, includeEitc: bool)
    ensures forall c :: c in FilterBenefits(table, includeEitc, false) ==> !Contains(c.name, "cdctc")
  {
    assert Contains("cdctc", "ctc") by {
      assert OccursAt("cdctc", "ctc", 2);
    }
    forall c | c in FilterBenefits(table, includeEitc, false)
      ensures !Contains(c.name, "cdctc")
    {
      if Contains(c.name, "cdctc") {
        ContainsTransitive(c.name, "cdctc", "ctc");
      }
    }
  }

  /** Filtering again with flags that are no more exclusive changes nothing. */
  lemma {:induction false} FilterAgain(table: seq<Column>, e1: bool, c1: bool, e2: bool, c2: bool)
    requires (e1 ==> e2) && (c1 ==> c2)
    ensures FilterBenefits(FilterBenefits(table, e1, c1), e2, c2) == FilterBenefits(table, e1, c1)
  {
    if table != [] {
      FilterAgain(table[1..], e1, c1, e2, c2);
    }
  }

  // ---------------------------------------------------------------------------
  // find_benefits_cliffs

  /** Crossing z falls in the window range(e, e + 2) of some minimum e. */
  predicate NearMinimum(z: int, minima: seq<int>) {
    exists k :: 0 <= k < |minima| && minima[k] <= z <= minima[k] + 1
  }

  /** The crossings that sit at or one row after a minimum, each moved back by `offset`. */
  function MatchedCrossings(zeros: seq<nat>, minima: seq<int>, offset: int): (r: seq<int>)
    ensures forall x :: x in r <==> exists z :: z in zeros && NearMinimum(z, minima) && x == z - offset
  {
    if zeros == [] then []
    else
      var rest := MatchedCrossings(zeros[1..], minima, offset);
      assert forall z :: z in zeros <==> z == zeros[0] || z in zeros[1..];
      (if NearMinimum(zeros[0], minima) then [zeros[0] - offset] else []) + rest
  }

  /** Matched crossings moved back by `offset` stay above every lower bound of the crossings. */
  lemma {:induction false} MatchedCrossingsAbove(zeros: seq<nat>, minima: seq<int>, offset: int, bound: int)
    requires forall k :: 0 <= k < |zeros| ==> zeros[k] > bound
    ensures forall j :: 0 <= j < |MatchedCrossings(zeros, minima, offset)| ==>
      MatchedCrossings(zeros, minima, offset)[j] > bound - offset
  {
    if zeros != [] {
      MatchedCrossingsAbove(zeros[1..], minima, offset, bound);
    }
  }

  /** Ascending crossings give an ascending cliff list. */
  lemma {:induction false} MatchedCrossingsAscending(zeros: seq<nat>, minima: seq<int>, offset: int)
    requires StrictlyIncreasing(zeros)
    ensures StrictlyIncreasing(MatchedCrossings(zeros, minima, offset))
  {
    if zeros != [] {
      var rest := MatchedCrossings(zeros[1..], minima, offset);
      MatchedCrossingsAscending(zeros[1..], minima, offset);
      MatchedCrossingsAbove(zeros[1..], minima, offset, zeros[0]);
      var head := if NearMinimum(zeros[0], minima) then [zeros[0] - offset] else [];
      var r := head + rest;
      assert r == MatchedCrossings(zeros, minima, offset);
      forall i, j | 0 <= i < j < |r|
        ensures r[i] < r[j]
      {
        assert r[j] == rest[j - |head|];
        if i >= |head| {
          assert r[i] == rest[i - |head|];
        }
      }
    }
  }

  /** The cliff list of one column, or none when no crossing matches. */
  function ColumnCliffs(c: Column, minima: seq<int>, offset: int): seq<int> {
    MatchedCrossings(ZeroCrossings(c.values), minima, offset)
  }

  /** The cliff dictionary built column by column: only columns with a matched crossing get an entry. */
  function CliffMap(cols: seq<Column>, minima: seq<int>, offset: int): (r: seq<CliffEntry>)
    ensures |r| <= |cols|
    ensures forall k :: 0 <= k < |r| ==> r[k].indices != []
  {
    if cols == [] then []
    else
      var n := |cols| - 1;
      var found := ColumnCliffs(cols[n], minima, offset);
      CliffMap(cols[..n], minima, offset) + (if found == [] then [] else [CliffEntry(cols[n].name, found)])
  }

  /**
   * find_benefits_cliffs: rejects any mode other than "peak" (offset 1) or "valley" (offset 0) before
   * looking at the table, re-selects the candidate columns without EITC, and records each column whose
   * zero crossings meet the derivative minima.
   */
  method FindBenefitsCliffs(table: seq<Column>, minima: seq<int>, mode: string)
    returns (r: Result<seq<CliffEntry>, CliffError>)
    ensures mode == "peak" ==> r == Ok(CliffMap(FilterBenefits(table, false, true), minima, 1))
    ensures mode == "valley" ==> r == Ok(CliffMap(FilterBenefits(table, false, true), minima, 0))
    ensures mode != "peak" && mode != "valley" ==> r == Err(InvalidMode(mode))
  {
    var offset: int;
    if mode == "peak" {
      offset := 1;
    } else if mode == "valley" {
      offset := 0;
    } else {
      return Err(InvalidMode(mode));
    }
    var benefits := FilterBenefits(table, false, true);
    var cliffs: seq<CliffEntry> := [];
    for i := 0 to |benefits|
      invariant cliffs == CliffMap(benefits[..i], minima, offset)
    {
      assert benefits[..i + 1][..i] == benefits[..i];
      var col := benefits[i];
      var zeros := FindZeroIntercepts(col.values);
      var colCliffs := MatchedCrossings(zeros, minima, offset);
      if |colCliffs| > 0 {
        cliffs := cliffs + [CliffEntry(col.name, colCliffs)];
      }
    }
    assert benefits[..|benefits|] == benefits;
    return Ok(cliffs);
  }

  // ---------------------------------------------------------------------------
  // Properties of the cliff dictionary

  /**
   * Every entry belongs to a column of the input, carries exactly that column's matched crossings and
   * a non-empty, strictly ascending list; every column with a matched crossing has an entry; the
   * entries follow the column order.
   */
  lemma {:induction false} CliffMapEntries(cols: seq<Column>, minima: seq<int>, offset: int)
    ensures forall e :: e in CliffMap(cols, minima, offset) ==>
      e.indices != [] && StrictlyIncreasing(e.indices) &&
      exists c :: c in cols && e == CliffEntry(c.name, ColumnCliffs(c, minima, offset))
    ensures forall c :: c in cols && ColumnCliffs(c, minima, offset) != [] ==>
      CliffEntry(c.name, ColumnCliffs(c, minima, offset)) in CliffMap(cols, minima, offset)
    ensures |CliffMap(cols, minima, offset)| <= |cols|
  {
    if cols != [] {
      var n := |cols| - 1;
      CliffMapEntries(cols[..n], minima, offset);
      MatchedCrossingsAscending(ZeroCrossings(cols[n].values), minima, offset);
      assert cols == cols[..n] + [cols[n]];
    }
  }

  /** The columns named in the cliff dictionary, in order. */
  function Keys(cliffs: seq<CliffEntry>): (r: seq<string>)
    ensures |r| == |cliffs| && forall k :: 0 <= k < |r| ==> r[k] == cliffs[k].column
  {
    if cliffs == [] then [] else Keys(cliffs[..|cliffs| - 1]) + [cliffs[|cliffs| - 1].column]
  }

  /** The names of the table's columns, in order. */
  function Names(cols: seq<Column>): (r: seq<string>)
    ensures |r| == |cols| && forall k :: 0 <= k < |r| ==> r[k] == cols[k].name
  {
    if cols == [] then [] else Names(cols[..|cols| - 1]) + [cols[|cols| - 1].name]
  }

  lemma {:induction false} SubsequenceAppend(s: seq<string>, t: seq<string>, x: string)
    requires IsSubsequence(s, t)
    ensures IsSubsequence(s, t + [x]) && IsSubsequence(s + [x], t + [x])
    decreases |t|
  {
    if t == [] {
      assert s == [];
      assert IsSubsequence([x][1..], [x][1..]);
    } else {
      assert (t + [x])[1..] == t[1..] + [x];
      if s == [] {
        SubsequenceAppend(s, t[1..], x);
      } else if s[0] == t[0] && IsSubsequence(s[1..], t[1..]) {
        SubsequenceAppend(s[1..], t[1..], x);
        assert (s + [x])[1..] == s[1..] + [x];
      } else {
        SubsequenceAppend(s, t[1..], x);
      }
    }
  }

  /** The keys of the cliff dictionary are the column names with some columns left out, order kept. */
  lemma {:induction false} CliffKeysInColumnOrder(cols: seq<Column>, minima: seq<int>, offset: int)
    ensures IsSubsequence(Keys(CliffMap(cols, minima, offset)), Names(cols))
  {
    if cols != [] {
      var n := |cols| - 1;
      CliffKeysInColumnOrder(cols[..n], minima, offset);
      var prev := CliffMap(cols[..n], minima, offset);
      assert Names(cols) == Names(cols[..n]) + [cols[n].name];
      SubsequenceAppend(Keys(prev), Names(cols[..n]), cols[n].name);
      if ColumnCliffs(cols[n], minima, offset) != [] {
        assert Keys(CliffMap(cols, minima, offset)) == Keys(prev) + [cols[n].name];
      } else {
        assert CliffMap(cols, minima, offset) == prev;
      }
    }
  }

  /** Reported rows: with offset 0 or 1, every reported row is a crossing moved back, inside the table. */
  lemma CliffIndexBounds(cols: seq<Column>, minima: seq<int>, offset: int, rows: nat)
    requires HasRows(cols, rows)
    requires offset == 0 || offset == 1
    ensures forall e, x :: e in CliffMap(cols, minima, offset) && x in e.indices ==>
      1 - offset <= x <= rows - 1 - offset
  {
    CliffMapEntries(cols, minima, offset);
  }

  /** Shifting every crossing by one more row moves each matched crossing by exactly one row. */
  lemma {:induction false} MatchedShift(zeros: seq<nat>, minima: seq<int>)
    ensures |MatchedCrossings(zeros, minima, 1)| == |MatchedCrossings(zeros, minima, 0)|
    ensures forall j :: 0 <= j < |MatchedCrossings(zeros, minima, 1)| ==>
      MatchedCrossings(zeros, minima, 1)[j] == MatchedCrossings(zeros, minima, 0)[j] - 1
  {
    if zeros != [] {
      MatchedShift(zeros[1..], minima);
    }
  }

  /** Peak mode reports, column for column and row for row, the valley-mode rows minus one. */
  lemma {:induction false} PeakIsValleyMinusOne(cols: seq<Column>, minima: seq<int>)
    ensures |CliffMap(cols, minima, 1)| == |CliffMap(cols, minima, 0)|
    ensures forall k :: 0 <= k < |CliffMap(cols, minima, 1)| ==>
      var peak, valley := CliffMap(cols, minima, 1)[k], CliffMap(cols, minima, 0)[k];
      peak.column == valley.column && |peak.indices| == |valley.indices| &&
      forall j :: 0 <= j < |peak.indices| ==> peak.indices[j] == valley.indices[j] - 1
  {
    if cols != [] {
      var n := |cols| - 1;
      PeakIsValleyMinusOne(cols[..n], minima);
      MatchedShift(ZeroCrossings(cols[n].values), minima);
    }
  }

  /** find_benefits_cliffs never reports an EITC column, whatever the table holds. */
  lemma CliffsExcludeEitc(table: seq<Column>, minima: seq<int>, offset: int)
    ensures forall e :: e in CliffMap(FilterBenefits(table, false, true), minima, offset) ==>
      !Contains(e.column, "eitc")
  {
    CliffMapEntries(FilterBenefits(table, false, true), minima, offset);
  }
}
