/**
 * The bookkeeping of utils/plotting.py around the plotly figures: padded curve names, the benefit
 * display table, the per-row lists of lost benefits behind the hover texts, the order and visibility
 * of the benefit traces and the colours of a multi-curve plot.
 */
module Plotting {
  import opened Basics
  import opened Detection

  datatype PlotError =
    | UnknownBenefit(column: string)   // KeyError from the benefit display table
    | UnknownGroupVar(groupVar: string) // the Warning raised for an unknown grouping column
    | MissingColor(group: string)       // KeyError from the colour map
    | MissingColumn(column: string)     // KeyError from the table: no such column

  // ---------------------------------------------------------------------------
  // Curve names

  const MinCurveNameLen := 38

  function Spaces(n: nat): (r: string)
    ensures |r| == n && forall i :: 0 <= i < n ==> r[i] == ' '
  {
    seq(n, _ => ' ')
  }

  /** `curve_name += " " * max(0, 38 - len(curve_name))`: pads a legend name with spaces to 38 characters. */
  function PadCurveName(name: string): (r: string)
    ensures |r| == if |name| < MinCurveNameLen then MinCurveNameLen else |name|
    ensures r[..|name|] == name
    ensures forall i :: |name| <= i < |r| ==> r[i] == ' '
  {
    if |name| < MinCurveNameLen then name + Spaces(MinCurveNameLen - |name|) else name
  }

  /** Padding a padded name again leaves it as it is. */
  lemma PadCurveNameIdempotent(name: string)
    ensures PadCurveName(PadCurveName(name)) == PadCurveName(name)
  {
  }

  // ---------------------------------------------------------------------------
  // The benefit display table

  /** How a benefit column is shown: its legend name and its line colour. */
  datatype Display = Display(name: string, color: string)

  const BenDisplayMap: map<string, Display> := map[
    "value.snap" := Display("SNAP", "#2B3514"),
    "value.schoolmeals" := Display("School Meals", "#D32B1E"),
    "value.section8" := Display("Section 8", "#6F340D"),
    "value.liheap" := Display("LIHEAP", "#92AE31"),
    "value.medicaid.adult" := Display("Medicaid (Adult)", "#7E1510"),
    "value.medicaid.child" := Display("Medicaid (Child)", "#9a9a00"),
    "value.aca" := Display("ACA", "#91218C"),
    "value.employerhealthcare" := Display("Employer Healthcare", "#E1A11A"),
    "value.CCDF" := Display("CCDF", "#463397"),
    "value.HeadStart" := Display("Head Start", "#DF8461"),
    "value.PreK" := Display("Pre-K", "#4277B6"),
    "value.cdctc.fed" := Display("CDCTC (Federal)", "#D485B2"),
    "value.cdctc.state" := Display("CDCTC (State)", "#5FA641"),
    "value.ctc.fed" := Display("CTC (Federal)", "#7F7E80"),
    "value.ctc.state" := Display("CTC (State)", "#C0BD7F"),
    "value.eitc.fed" := Display("EITC (Federal)", "#BA1C30"),
    "value.eitc.state" := Display("EITC (State)", "#96CDE6"),
    "value.eitc" := Display("EITC", "#DB6917"),
    "value.ctc" := Display("CTC", "#702C8C"),
    "value.cdctc" := Display("CDCTC", "#EBCE2B"),
    "value.ssdi" := Display("SSDI", "#1D1D1D"),
    "value.ssi" := Display("SSI", "#DDDDDD"),
    "value.earlyHeadStart" := Display("Head Start", "#E55D29"),
    "value.wic" := Display("WIC", "#f9cab9"),
    "value.FATES" := Display("FATES", "#9ce019"),
    "value.medicaid" := Display("Medicaid", "#30f593")
  ]

  /** The legend name of a column the table knows; "" for any other column. */
  function BenName(column: string): string {
    if column in BenDisplayMap then BenDisplayMap[column].name else ""
  }

  // ---------------------------------------------------------------------------
  // Lost benefits per row (ben_cliff_peaks)

  /** One row's slot: None, or the names of the benefits lost there, in the order they were added. */
  type Slot = Option<seq<string>>

  function SlotNames(slot: Slot): seq<string> {
    if slot.None? then [] else slot.value
  }

  /** How often `x` occurs in `xs`. */
  function Count(xs: seq<int>, x: int): (c: nat)
    ensures c <= |xs|
    ensures c == 0 <==> x !in xs
  {
    if xs == [] then 0
    else
      var n := |xs| - 1;
      assert xs == xs[..n] + [xs[n]];
      Count(xs[..n], x) + (if xs[n] == x then 1 else 0)
  }

  function Repeat(s: string, n: nat): (r: seq<string>)
    ensures |r| == n && forall i :: 0 <= i < n ==> r[i] == s
  {
    seq(n, _ => s)
  }

  /** Every index of every entry is a row of the figure. */
  predicate IndicesWithin(cliffs: seq<CliffEntry>, n: nat) {
    forall k :: 0 <= k < |cliffs| ==> RowsWithin(cliffs[k].indices, n)
  }

  predicate RowsWithin(indices: seq<int>, n: int) {
    forall t :: 0 <= t < |indices| ==> 0 <= indices[t] < n
  }

  /** Records `name` at each row of `indices`, in order: a None slot becomes [name], a list gets it appended. */
  function MarkRows(slots: seq<Slot>, indices: seq<int>, name: string): (r: seq<Slot>)
    requires RowsWithin(indices, |slots|)
    ensures |r| == |slots|
  {
    if indices == [] then slots
    else
      var n := |indices| - 1;
      assert indices == indices[..n] + [indices[n]];
      var before := MarkRows(slots, indices[..n], name);
      var x := indices[n];
      before[x := if before[x].None? then Some([name]) else Some(before[x].value + [name])]
  }

  /**
   * Marking adds the name at a row once per occurrence of the row in `indices`, after the names
   * already there; a row gets a list exactly when it had one or is marked.
   */
  lemma {:induction false} MarkRowsSlots(slots: seq<Slot>, indices: seq<int>, name: string, i: int)
    requires RowsWithin(indices, |slots|)
    requires 0 <= i < |slots|
    ensures SlotNames(MarkRows(slots, indices, name)[i]) == SlotNames(slots[i]) + Repeat(name, Count(indices, i))
    ensures MarkRows(slots, indices, name)[i].Some? <==> slots[i].Some? || i in indices
  {
    if indices != [] {
      var n := |indices| - 1;
      assert indices == indices[..n] + [indices[n]];
      MarkRowsSlots(slots, indices[..n], name, i);
      var before := MarkRows(slots, indices[..n], name);
      assert Count(indices, i) == Count(indices[..n], i) + (if indices[n] == i then 1 else 0);
      if indices[n] == i {
        assert Repeat(name, Count(indices, i)) == Repeat(name, Count(indices[..n], i)) + [name];
        assert SlotNames(before[i]) + [name] == SlotNames(slots[i]) + Repeat(name, Count(indices, i));
      }
    }
  }

  /** The benefit names lost at row i, entry by entry, each as often as the entry lists the row. */
  function LostAt(cliffs: seq<CliffEntry>, i: int): seq<string> {
    if cliffs == [] then []
    else
      var m := |cliffs| - 1;
      LostAt(cliffs[..m], i) + Repeat(BenName(cliffs[m].column), Count(cliffs[m].indices, i))
  }

  /** An entry that would be looked up in the display table but is missing from it. */
  predicate Unlisted(e: CliffEntry) {
    e.indices != [] && e.column !in BenDisplayMap
  }

  /** Some entry would be looked up in the display table and is missing from it. */
  predicate SomeUnlisted(cliffs: seq<CliffEntry>) {
    exists k :: 0 <= k < |cliffs| && Unlisted(cliffs[k])
  }

  /** Entry k is the first one missing from the display table. */
  predicate FirstUnlisted(cliffs: seq<CliffEntry>, k: int) {
    0 <= k < |cliffs| && Unlisted(cliffs[k]) && forall j :: 0 <= j < k ==> !Unlisted(cliffs[j])
  }

  /**
   * The slots the annotation loop of plot_single_profile fills: a KeyError at the first entry with a
   * row whose column the display table lacks; otherwise, at each row, the names of the benefits
   * lost there, or None where there are none.
   */
  function Peaks(cliffs: seq<CliffEntry>, n: nat): (r: Result<seq<Slot>, PlotError>)
    requires IndicesWithin(cliffs, n)
    ensures r.Err? <==> SomeUnlisted(cliffs)
    ensures r.Err? ==> exists k :: FirstUnlisted(cliffs, k) && r.error == UnknownBenefit(cliffs[k].column)
    ensures r.Ok? ==> |r.value| == n
  {
    if cliffs == [] then Ok(seq(n, _ => None))
    else
      var m := |cliffs| - 1;
      assert forall k :: 0 <= k < m ==> cliffs[..m][k] == cliffs[k];
      var e := cliffs[m];
      match Peaks(cliffs[..m], n)
      case Err(err) => Err(err)
      case Ok(slots) =>
        if e.indices == [] then Ok(slots)
        else if e.column !in BenDisplayMap then Err(UnknownBenefit(e.column))
        else Ok(MarkRows(slots, e.indices, BenDisplayMap[e.column].name))
  }

  /**
   * When no lookup fails, each row's slot lists the names of the benefits lost there and is None
   * exactly where there are none.
   */
  lemma {:induction false} PeaksSlots(cliffs: seq<CliffEntry>, n: nat, i: int)
    requires IndicesWithin(cliffs, n) && Peaks(cliffs, n).Ok? && 0 <= i < n
    ensures SlotNames(Peaks(cliffs, n).value[i]) == LostAt(cliffs, i)
    ensures Peaks(cliffs, n).value[i].None? <==> LostAt(cliffs, i) == []
  {
    if cliffs != [] {
      var m := |cliffs| - 1;
      assert forall k :: 0 <= k < m ==> cliffs[..m][k] == cliffs[k];
      var e := cliffs[m];
      PeaksSlots(cliffs[..m], n, i);
      var slots := Peaks(cliffs[..m], n).value;
      if e.indices != [] {
        MarkRowsSlots(slots, e.indices, BenDisplayMap[e.column].name, i);
      }
    }
  }

  /**
   * The annotation loop of plot_single_profile (plotting.py), without the annotations themselves: an
   * array with a slot per row, filled entry by entry.
   */
  method CliffPeaks(n: nat, cliffs: seq<CliffEntry>) returns (r: Result<seq<Slot>, PlotError>)
    requires IndicesWithin(cliffs, n)
    ensures r == Peaks(cliffs, n)
  {
    var benCliffPeaks := new Slot[n](_ => None);
    assert benCliffPeaks[..] == Peaks([], n).value;
    for k := 0 to |cliffs|
      invariant Peaks(cliffs[..k], n).Ok?
      invariant benCliffPeaks[..] == Peaks(cliffs[..k], n).value
    {
      assert cliffs[..k + 1][..k] == cliffs[..k];
      var e := cliffs[k];
      var missing := MarkCliffRows(benCliffPeaks, e);
      if missing.Some? {
        return Err(missing.value);
      }
    }
    assert cliffs[..|cliffs|] == cliffs;
    return Ok(benCliffPeaks[..]);
  }

  /**
   * The inner loop: records the entry's benefit name at each of its rows, or stops with the KeyError
   * its first row raises when the display table lacks the column.
   */
  method MarkCliffRows(benCliffPeaks: array<Slot>, e: CliffEntry) returns (missing: Option<PlotError>)
    requires RowsWithin(e.indices, benCliffPeaks.Length)
    modifies benCliffPeaks
    ensures Unlisted(e) ==> missing == Some(UnknownBenefit(e.column))
    ensures !Unlisted(e) ==> missing == None
    ensures !Unlisted(e) ==> benCliffPeaks[..] == MarkRows(old(benCliffPeaks[..]), e.indices, BenName(e.column))
  {
    ghost var start := benCliffPeaks[..];
    for j := 0 to |e.indices|
      invariant j > 0 ==> e.column in BenDisplayMap
      invariant benCliffPeaks[..] == MarkRows(start, e.indices[..j], BenName(e.column))
    {
      assert e.indices[..j + 1][..j] == e.indices[..j];
      var cliffIdx := e.indices[j];
      if e.column !in BenDisplayMap {
        return Some(UnknownBenefit(e.column));
      }
      var name := BenDisplayMap[e.column].name;
      if benCliffPeaks[cliffIdx].None? {
        benCliffPeaks[cliffIdx] := Some([name]);
      } else {
        benCliffPeaks[cliffIdx] := Some(benCliffPeaks[cliffIdx].value + [name]);
      }
    }
    assert e.indices[..|e.indices|] == e.indices;
    return None;
  }

  /** A strictly ascending list holds each row at most once. */
  lemma {:induction false} CountInAscending(xs: seq<int>, x: int)
    requires StrictlyIncreasing(xs)
    ensures Count(xs, x) == if x in xs then 1 else 0
  {
    if xs != [] {
      var n := |xs| - 1;
      assert xs == xs[..n] + [xs[n]];
      CountInAscending(xs[..n], x);
      if xs[n] == x {
        assert forall t :: 0 <= t < n ==> xs[..n][t] < x;
      }
    }
  }

  /** The benefits whose entry lists row i, in entry order, each once. */
  function LostOnceAt(cliffs: seq<CliffEntry>, i: int): seq<string> {
    if cliffs == [] then []
    else
      var m := |cliffs| - 1;
      LostOnceAt(cliffs[..m], i) + (if i in cliffs[m].indices then [BenName(cliffs[m].column)] else [])
  }

  /**
   * For cliff lists as find_benefits_cliffs builds them (strictly ascending), a row's slot names each
   * benefit lost there exactly once.
   */
  lemma {:induction false} LostAtAscending(cliffs: seq<CliffEntry>, i: int)
    requires forall k :: 0 <= k < |cliffs| ==> StrictlyIncreasing(cliffs[k].indices)
    ensures LostAt(cliffs, i) == LostOnceAt(cliffs, i)
  {
    if cliffs != [] {
      var m := |cliffs| - 1;
      assert forall k :: 0 <= k < m ==> cliffs[..m][k] == cliffs[k];
      var e := cliffs[m];
      LostAtAscending(cliffs[..m], i);
      CountInAscending(e.indices, i);
      var name := BenName(e.column);
      assert Repeat(name, Count(e.indices, i)) == if i in e.indices then [name] else [];
    }
  }

  // ---------------------------------------------------------------------------
  // Hover texts

  /** What a row's hover text adds to the income: nothing, or the lost benefits joined by ", ". */
  function LostBenefitsNote(slot: Slot): string {
    if slot.None? then "" else "<br>Lost Benefits: " + Join(", ", slot.value)
  }

  /**
   * The hover text loop: pairs each row's formatted income with its slot, stopping at the shorter of
   * the two, and appends the lost benefits where there are any.
   */
  method HoverTexts(incomeTexts: seq<string>, peaks: seq<Slot>) returns (textList: seq<string>)
    ensures |textList| == if |incomeTexts| < |peaks| then |incomeTexts| else |peaks|
    ensures forall i :: 0 <= i < |textList| ==> textList[i] == incomeTexts[i] + LostBenefitsNote(peaks[i])
    ensures forall i :: 0 <= i < |textList| ==> (textList[i] == incomeTexts[i] <==> peaks[i].None?)
  {
    var n := if |incomeTexts| < |peaks| then |incomeTexts| else |peaks|;
    textList := [];
    for i := 0 to n
      invariant |textList| == i
      invariant forall k :: 0 <= k < i ==> textList[k] == incomeTexts[k] + LostBenefitsNote(peaks[k])
    {
      var text := incomeTexts[i];
      if peaks[i].Some? {
        text := text + "<br>Lost Benefits: " + Join(", ", peaks[i].value);
      }
      textList := textList + [text];
    }
    forall i | 0 <= i < |textList|
      ensures textList[i] == incomeTexts[i] <==> peaks[i].None?
    {
      if peaks[i].Some? {
        assert |textList[i]| > |incomeTexts[i]|;
      }
    }
  }

  // ---------------------------------------------------------------------------
  // Benefit traces

  /** `[col for col in names if col not in keys]`. */
  function Without(names: seq<string>, keys: seq<string>): (r: seq<string>)
    ensures forall x :: x in r <==> x in names && x !in keys
    ensures IsSubsequence(r, names)
  {
    if names == [] then []
    else
      var rest := Without(names[1..], keys);
      var r := (if names[0] in keys then [] else [names[0]]) + rest;
      assert IsSubsequence(r, names) by {
        if names[0] !in keys {
          assert r[0] == names[0] && r[1..] == rest;
        } else {
          assert r == rest;
        }
      }
      r
  }

  /** The columns with cliffs first, in cliff order, then the other benefit columns in table order. */
  function BenColsOrdered(keys: seq<string>, names: seq<string>): (r: seq<string>)
    ensures |keys| <= |r| && r[..|keys|] == keys
    ensures r[|keys|..] == Without(names, keys)
    ensures forall c :: c in r <==> c in keys || c in names
  {
    keys + Without(names, keys)
  }

  /** Every element of a subsequence is an element of the sequence. */
  lemma {:induction false} SubsequenceMembers(s: seq<string>, t: seq<string>)
    requires IsSubsequence(s, t)
    ensures forall x :: x in s ==> x in t
    decreases |t|
  {
    if s != [] {
      if s[0] == t[0] && IsSubsequence(s[1..], t[1..]) {
        SubsequenceMembers(s[1..], t[1..]);
        assert forall x :: x in s ==> x == s[0] || x in s[1..];
      } else {
        SubsequenceMembers(s, t[1..]);
      }
    }
  }

  /**
   * When the cliff columns are a subsequence of the benefit columns and the column names are
   * distinct, the ordered list is a rearrangement of the benefit columns: each traced exactly once.
   */
  lemma {:induction false} BenColsOrderedPermutes(keys: seq<string>, names: seq<string>)
    requires IsSubsequence(keys, names) && Distinct(names)
    ensures multiset(BenColsOrdered(keys, names)) == multiset(names)
    decreases |names|
  {
    if names == [] {
      assert keys == [];
    } else {
      var t := names[1..];
      assert Distinct(t);
      assert names[0] !in t;
      assert Without(names, keys) == (if names[0] in keys then [] else [names[0]]) + Without(t, keys);
      if keys != [] && keys[0] == names[0] && IsSubsequence(keys[1..], t) {
        BenColsOrderedPermutes(keys[1..], t);
        WithoutIgnoresAbsent(t, keys);
        KeptFirst(keys, Without(t, keys), names);
      } else {
        assert IsSubsequence(keys, t);
        SubsequenceMembers(keys, t);
        BenColsOrderedPermutes(keys, t);
        DroppedFirst(keys, Without(t, keys), names);
      }
    }
  }

  lemma KeptFirst(keys: seq<string>, rest: seq<string>, names: seq<string>)
    requires keys != [] && names != [] && keys[0] == names[0]
    requires multiset(keys[1..] + rest) == multiset(names[1..])
    ensures multiset(keys + ([] + rest)) == multiset(names)
  {
    assert keys == [keys[0]] + keys[1..];
    assert names == [names[0]] + names[1..];
    assert keys + ([] + rest) == [keys[0]] + (keys[1..] + rest);
  }

  lemma DroppedFirst(keys: seq<string>, rest: seq<string>, names: seq<string>)
    requires names != []
    requires multiset(keys + rest) == multiset(names[1..])
    ensures multiset(keys + ([names[0]] + rest)) == multiset(names)
  {
    assert names == [names[0]] + names[1..];
  }

  /** Dropping the first key does not change which of `names` survive when that key is not among them. */
  lemma {:induction false} WithoutIgnoresAbsent(names: seq<string>, keys: seq<string>)
    requires keys != [] && keys[0] !in names
    ensures Without(names, keys) == Without(names, keys[1..])
  {
    if names != [] {
      assert names[0] in keys <==> names[0] in keys[1..] by {
        assert keys == [keys[0]] + keys[1..];
      }
      WithoutIgnoresAbsent(names[1..], keys);
    }
  }

  /** Whether plotly draws a benefit trace or only lists it in the legend. */
  datatype Visibility = Shown | LegendOnly

  /** One benefit trace: its column, legend name, line colour and visibility. */
  datatype Trace = Trace(column: string, name: string, color: string, visible: Visibility)

  /** The trace of a column the display table knows: drawn when the column has cliffs. */
  function TraceFor(column: string, keys: seq<string>): Trace
    requires column in BenDisplayMap
  {
    Trace(column, BenDisplayMap[column].name, BenDisplayMap[column].color,
          if column in keys then Shown else LegendOnly)
  }

  /** Some column is missing from the display table. */
  predicate SomeUnknown(cols: seq<string>) {
    exists k :: 0 <= k < |cols| && cols[k] !in BenDisplayMap
  }

  /** `traces` holds one trace per column, in order, each made from the display table. */
  predicate TracesFor(cols: seq<string>, keys: seq<string>, traces: seq<Trace>) {
    |traces| == |cols| &&
    forall i :: 0 <= i < |traces| ==> cols[i] in BenDisplayMap && traces[i] == TraceFor(cols[i], keys)
  }

  /** Position k holds the first column the display table lacks. */
  predicate FirstUnknown(cols: seq<string>, k: int) {
    0 <= k < |cols| && cols[k] !in BenDisplayMap && forall j :: 0 <= j < k ==> cols[j] in BenDisplayMap
  }

  /**
   * The benefit trace loop of plot_single_profile: one trace per ordered column, named and coloured
   * from the display table (a KeyError at the first column it lacks), drawn only for cliff columns.
   */
  method BenefitTraces(keys: seq<string>, names: seq<string>) returns (r: Result<seq<Trace>, PlotError>)
    ensures r.Err? <==> SomeUnknown(BenColsOrdered(keys, names))
    ensures r.Err? ==> exists k :: FirstUnknown(BenColsOrdered(keys, names), k) &&
                                   r.error == UnknownBenefit(BenColsOrdered(keys, names)[k])
    ensures r.Ok? ==> TracesFor(BenColsOrdered(keys, names), keys, r.value)
  {
    var benColsOrdered := keys + Without(names, keys);
    assert benColsOrdered == BenColsOrdered(keys, names);
    var traces: seq<Trace> := [];
    for i := 0 to |benColsOrdered|
      invariant |traces| == i
      invariant forall k :: 0 <= k < i ==>
        benColsOrdered[k] in BenDisplayMap && traces[k] == TraceFor(benColsOrdered[k], keys)
    {
      var col := benColsOrdered[i];
      var visibility := if col in keys then Shown else LegendOnly;
      if col !in BenDisplayMap {
        assert FirstUnknown(benColsOrdered, i);
        return Err(UnknownBenefit(col));
      }
      traces := traces + [Trace(col, BenDisplayMap[col].name, BenDisplayMap[col].color, visibility)];
    }
    return Ok(traces);
  }

  /** The cliff columns come first in the ordered list, and only they are drawn. */
  lemma CliffColumnsShownFirst(keys: seq<string>, names: seq<string>, i: int)
    requires 0 <= i < |BenColsOrdered(keys, names)|
    ensures BenColsOrdered(keys, names)[i] in keys <==> i < |keys|
  {
    if i >= |keys| {
      var w := Without(names, keys);
      assert BenColsOrdered(keys, names)[i] == w[i - |keys|];
      assert w[i - |keys|] in w;
    }
  }

  // ---------------------------------------------------------------------------
  // plot_single_profile

  /** What plot_single_profile computes besides drawing: the legend name, cliffs, hover texts and benefit traces. */
  datatype ProfilePlot = ProfilePlot(
    curveName: string, cliffs: seq<CliffEntry>, hoverTexts: seq<string>, benefitTraces: seq<Trace>)

  /** The cliffs a single-profile plot marks: peaks over the benefit columns without EITC and CTC. */
  function ProfileCliffs(table: seq<Column>, slopes: seq<real>): seq<CliffEntry> {
    CliffMap(FilterBenefits(table, false, false), FindDerivativeMinima(slopes, true), 1)
  }

  /** The benefit columns a new single-profile figure traces, cliff columns first. */
  function ProfileColumns(table: seq<Column>, slopes: seq<real>): seq<string> {
    BenColsOrdered(Keys(ProfileCliffs(table, slopes)), Names(FilterBenefits(table, false, false)))
  }

  function SlotOf(names: seq<string>): Slot {
    if names == [] then None else Some(names)
  }

  /**
   * plot_single_profile without the drawing: `slopes` is the gradient of net resources over income,
   * `incomeTexts` the formatted incomes; benefit traces are made only for a new figure. The cliffs
   * are those of the benefit columns without EITC and CTC; every row's hover text names the
   * benefits lost there once each.
   */
  method PlotSingleProfile(table: seq<Column>, rows: nat, slopes: seq<real>, incomeTexts: seq<string>,
                           curveName: string, plotBenefits: bool)
    returns (r: Result<ProfilePlot, PlotError>)
    requires HasRows(table, rows)
    ensures r.Ok? ==> r.value.curveName == PadCurveName(curveName)
    ensures r.Ok? ==> r.value.cliffs == ProfileCliffs(table, slopes)
    ensures r.Ok? ==> |r.value.hoverTexts| == (if |incomeTexts| < rows then |incomeTexts| else rows)
    ensures r.Ok? ==> forall i :: 0 <= i < |r.value.hoverTexts| ==>
      r.value.hoverTexts[i] == incomeTexts[i] + LostBenefitsNote(SlotOf(LostOnceAt(r.value.cliffs, i)))
    ensures r.Ok? && !plotBenefits ==> r.value.benefitTraces == []
    ensures r.Ok? && plotBenefits ==>
      TracesFor(ProfileColumns(table, slopes), Keys(r.value.cliffs), r.value.benefitTraces)
    ensures r.Err? <==>
      SomeUnlisted(ProfileCliffs(table, slopes)) || (plotBenefits && SomeUnknown(ProfileColumns(table, slopes)))
    ensures r.Err? ==>
      (exists k :: FirstUnlisted(ProfileCliffs(table, slopes), k) &&
                   r.error == UnknownBenefit(ProfileCliffs(table, slopes)[k].column)) ||
      (plotBenefits && exists k :: FirstUnknown(ProfileColumns(table, slopes), k) &&
                                   r.error == UnknownBenefit(ProfileColumns(table, slopes)[k]))
  {
    var name := PadCurveName(curveName);
    var minima := FindDerivativeMinima(slopes, true);
    var benefits := FilterBenefits(table, false, false);
    var found := FindBenefitsCliffs(benefits, minima, "peak");
    var cliffs := found.value;
    FilterAgain(table, false, false, false, true);
    assert cliffs == ProfileCliffs(table, slopes);
    CliffRowsWithin(benefits, minima, rows);
    var peaks := CliffPeaks(rows, cliffs);
    if peaks.Err? {
      return Err(peaks.error);
    }
    var hoverTexts := HoverTexts(incomeTexts, peaks.value);
    CliffMapEntries(benefits, minima, 1);
    forall i | 0 <= i < |hoverTexts|
      ensures hoverTexts[i] == incomeTexts[i] + LostBenefitsNote(SlotOf(LostOnceAt(cliffs, i)))
    {
      PeaksSlots(cliffs, rows, i);
      LostAtAscending(cliffs, i);
    }
    var traces: seq<Trace> := [];
    if plotBenefits {
      var made := BenefitTraces(Keys(cliffs), Names(benefits));
      if made.Err? {
        return Err(made.error);
      }
      traces := made.value;
    }
    return Ok(ProfilePlot(name, cliffs, hoverTexts, traces));
  }

  /** Every peak row find_benefits_cliffs reports over a table of `rows` rows is a row of the table. */
  lemma CliffRowsWithin(benefits: seq<Column>, minima: seq<int>, rows: nat)
    requires HasRows(benefits, rows)
    ensures IndicesWithin(CliffMap(FilterBenefits(benefits, false, true), minima, 1), rows)
  {
    var filtered := FilterBenefits(benefits, false, true);
    assert HasRows(filtered, rows);
    CliffIndexBounds(filtered, minima, 1, rows);
    var cliffs := CliffMap(filtered, minima, 1);
    forall k, t | 0 <= k < |cliffs| && 0 <= t < |cliffs[k].indices|
      ensures 0 <= cliffs[k].indices[t] < rows
    {
      assert cliffs[k] in cliffs && cliffs[k].indices[t] in cliffs[k].indices;
    }
  }

  /** A single-profile plot never marks an EITC or CTC column (nor CDCTC, whose name contains "ctc"). */
  lemma ProfileCliffsExcludeTaxCredits(table: seq<Column>, slopes: seq<real>)
    ensures forall e :: e in ProfileCliffs(table, slopes) ==>
      !Contains(e.column, "eitc") && !Contains(e.column, "ctc")
  {
    CliffMapEntries(FilterBenefits(table, false, false), FindDerivativeMinima(slopes, true), 1);
  }

  // ---------------------------------------------------------------------------
  // plot_multi: colours

  const GeneralColorPalette: seq<string> := ["#FFD700", "#008080", "#FF6347", "#00CED1"]

  const KnownGroupCols: seq<string> := ["countyortownName", "CareerPath", "BeneficiaryProfile", "state_county"]

  /** `dict(zip(keys, values))`: pairs by position, stopping at the shorter sequence. */
  function ZipMap(keys: seq<string>, values: seq<string>): (m: map<string, string>)
    ensures forall k :: k in m <==> exists i :: 0 <= i < |keys| && i < |values| && keys[i] == k
    ensures Distinct(keys) ==> forall i :: 0 <= i < |keys| && i < |values| ==> m[keys[i]] == values[i]
  {
    var n := if |keys| < |values| then |keys| else |values|;
    if n == 0 then map[]
    else
      assert forall i :: 0 <= i < n - 1 ==> keys[..n - 1][i] == keys[i];
      ZipMap(keys[..n - 1], values[..n - 1])[keys[n - 1] := values[n - 1]]
  }

  /** With distinct keys, every value of the zipped map is one of the values. */
  lemma ZipMapValues(keys: seq<string>, values: seq<string>)
    requires Distinct(keys)
    ensures forall k :: k in ZipMap(keys, values) ==> ZipMap(keys, values)[k] in values
  {
    var m := ZipMap(keys, values);
    forall k | k in m
      ensures m[k] in values
    {
      var i :| 0 <= i < |keys| && i < |values| && keys[i] == k;
      assert m[k] == values[i];
    }
  }

  /** The default colour map: the palette handed out to the groups in order of first appearance. */
  function DefaultColorMap(groups: seq<string>): (m: map<string, string>)
    ensures forall g :: g in m ==> g in groups && m[g] in GeneralColorPalette
    ensures forall i :: 0 <= i < |Dedup(groups)| && i < |GeneralColorPalette| ==>
      Dedup(groups)[i] in m && m[Dedup(groups)[i]] == GeneralColorPalette[i]
  {
    ZipMapValues(Dedup(groups), GeneralColorPalette);
    ZipMap(Dedup(groups), GeneralColorPalette)
  }

  /**
   * The colour bookkeeping of plot_multi over a table with the given column names, whose grouping
   * column holds `groups`: the default map when none is given (reading the grouping column, so a
   * KeyError when the table lacks it), the Warning for an unknown grouping column, the KeyError of
   * a known grouping column the table lacks, then one curve per group in order of first
   * appearance, with the KeyError of the first group the map has no colour for.
   */
  method PlotMultiColors(columns: seq<string>, groupVar: string, groups: seq<string>,
                         colorMap: Option<map<string, string>>)
    returns (r: Result<seq<(string, string)>, PlotError>)
    ensures groupVar !in columns && (colorMap.None? || groupVar in KnownGroupCols) ==>
      r == Err(MissingColumn(groupVar))
    ensures groupVar !in KnownGroupCols && (colorMap.Some? || groupVar in columns) ==>
      r == Err(UnknownGroupVar(groupVar))
    ensures groupVar in KnownGroupCols && groupVar in columns ==>
      var cm := if colorMap.None? then DefaultColorMap(groups) else colorMap.value;
      (r.Err? <==> exists g :: g in groups && g !in cm) &&
      (r.Err? ==> exists k :: 0 <= k < |Dedup(groups)| && r.error == MissingColor(Dedup(groups)[k]) &&
                              Dedup(groups)[k] !in cm && forall j :: 0 <= j < k ==> Dedup(groups)[j] in cm) &&
      (r.Ok? ==> |r.value| == |Dedup(groups)| &&
                 forall i :: 0 <= i < |r.value| ==> r.value[i] == (Dedup(groups)[i], cm[Dedup(groups)[i]]))
  {
    if colorMap.None? && groupVar !in columns {
      return Err(MissingColumn(groupVar));
    }
    var cm := if colorMap.None? then DefaultColorMap(groups) else colorMap.value;
    if groupVar !in KnownGroupCols {
      return Err(UnknownGroupVar(groupVar));
    }
    if groupVar !in columns {
      return Err(MissingColumn(groupVar));
    }
    var unique := Dedup(groups);
    var curves: seq<(string, string)> := [];
    for i := 0 to |unique|
      invariant |curves| == i
      invariant forall k :: 0 <= k < i ==> unique[k] in cm && curves[k] == (unique[k], cm[unique[k]])
    {
      var group := unique[i];
      if group !in cm {
        assert group in groups;
        return Err(MissingColor(group));
      }
      curves := curves + [(group, cm[group])];
    }
    forall g | g in groups
      ensures g in cm
    {
      assert g in unique;
      var k :| 0 <= k < |unique| && unique[k] == g;
    }
    return Ok(curves);
  }

  /** With the default map every group gets a colour exactly when there are at most four groups. */
  lemma DefaultColorsCover(groups: seq<string>)
    ensures (forall g :: g in groups ==> g in DefaultColorMap(groups)) <==> |Dedup(groups)| <= 4
  {
    var u := Dedup(groups);
    var m := DefaultColorMap(groups);
    if |u| > 4 {
      assert u[4] in groups;
      assert forall i :: 0 <= i < 4 ==> u[i] != u[4];
      assert u[4] !in m;
    } else {
      forall g | g in groups
        ensures g in m
      {
        assert g in u;
        var k :| 0 <= k < |u| && u[k] == g;
      }
    }
  }

  /** Distinct keys paired with distinct values give distinct values to distinct keys. */
  lemma ZipMapInjective(keys: seq<string>, values: seq<string>)
    requires Distinct(keys) && Distinct(values)
    ensures forall g, h :: g in ZipMap(keys, values) && h in ZipMap(keys, values) && g != h ==>
      ZipMap(keys, values)[g] != ZipMap(keys, values)[h]
  {
    var m := ZipMap(keys, values);
    forall g, h | g in m && h in m && g != h
      ensures m[g] != m[h]
    {
      var i :| 0 <= i < |keys| && i < |values| && keys[i] == g;
      var j :| 0 <= j < |keys| && j < |values| && keys[j] == h;
      assert m[g] == values[i] && m[h] == values[j];
    }
  }

  /** The default map gives different groups different colours: the palette does not repeat. */
  lemma DefaultColorsDistinct(groups: seq<string>)
    ensures forall g, h :: g in DefaultColorMap(groups) && h in DefaultColorMap(groups) && g != h ==>
      DefaultColorMap(groups)[g] != DefaultColorMap(groups)[h]
  {
    assert GeneralColorPalette[0][1] == 'F' && GeneralColorPalette[1][1] == '0';
    assert GeneralColorPalette[2][2] == 'F' && GeneralColorPalette[3][2] == '0';
    assert GeneralColorPalette[0][3] == 'D' && GeneralColorPalette[2][3] == '6';
    assert GeneralColorPalette[1][3] == '8' && GeneralColorPalette[3][3] == 'C';
    assert Distinct(GeneralColorPalette);
    ZipMapInjective(Dedup(groups), GeneralColorPalette);
  }
}
