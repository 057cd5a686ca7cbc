/**
 * create_profile_legend_text of utils/plotting.py: the HTML legend text of a profile plot, built by
 * appending to a string, stripping trailing separators with `rstrip(', ')`.
 */
module Legend {
  import opened Basics

  /** The characters `rstrip(', ')` and `rstrip(',  ')` remove. */
  const ListSeparators: set<char> := {',', ' '}

  function LegendHeader(color: string): string {
    "<span style='color:" + color + ";'><b>Net Resources for Family:</b></span><br><i>(Age, Disabled, Blind, Monthly SSDI)<br></i>"
  }

  /** Each value followed by ", ", as the legend loops append them. */
  function Items(values: seq<string>): string {
    if values == [] then ""
    else
      var n := |values| - 1;
      Items(values[..n]) + values[n] + ", "
  }

  /** One family member's line: name in bold, values, trailing separators stripped, a line break. */
  function MemberText(text: string, member: string, params: seq<string>): string {
    RStrip(text + "<b>" + member + "</b>: " + Items(params), ListSeparators) + "<br>"
  }

  /** The legend text after the first members of `family`. */
  function FamilyText(header: string, family: seq<(string, seq<string>)>): string {
    if family == [] then header
    else
      var n := |family| - 1;
      MemberText(FamilyText(header, family[..n]), family[n].0, family[n].1)
  }

  /** The benefit list: each name followed by ", ", a line break before every third one from the first. */
  function BenItems(bens: seq<string>): string {
    if bens == [] then ""
    else
      var n := |bens| - 1;
      BenItems(bens[..n]) + (if n % 3 == 0 then "<br>" else "") + bens[n] + ", "
  }

  /** The whole legend: header, one line per member, then the benefits in italics. */
  function LegendText(family: seq<(string, seq<string>)>, color: string, bens: seq<string>): string {
    RStrip(FamilyText(LegendHeader(color), family) + "<i>" + BenItems(bens), ListSeparators) + "</i>"
  }

  /**
   * create_profile_legend_text: family members in dictionary order, each with its values in order
   * (rendered to text beforehand), then the benefit names three to a line.
   */
  method ProfileLegendText(familyData: seq<(string, seq<string>)>, color: string, benList: seq<string>)
    returns (legendText: string)
    ensures legendText == LegendText(familyData, color, benList)
  {
    var header := LegendHeader(color);
    legendText := header;
    for i := 0 to |familyData|
      invariant legendText == FamilyText(header, familyData[..i])
    {
      assert familyData[..i + 1][..i] == familyData[..i];
      var (famMember, params) := familyData[i];
      legendText := AppendMember(legendText, famMember, params);
    }
    assert familyData[..|familyData|] == familyData;
    legendText := AppendBenefits(legendText + "<i>", benList);
    legendText := RStrip(legendText, ListSeparators) + "</i>";
  }

  /** The body of the member loop: one member's line appended to the legend. */
  method AppendMember(text: string, famMember: string, params: seq<string>) returns (legendText: string)
    ensures legendText == MemberText(text, famMember, params)
  {
    legendText := text + "<b>" + famMember + "</b>: ";
    for j := 0 to |params|
      invariant legendText == text + "<b>" + famMember + "</b>: " + Items(params[..j])
    {
      assert params[..j + 1][..j] == params[..j];
      legendText := legendText + params[j] + ", ";
    }
    assert params[..|params|] == params;
    legendText := RStrip(legendText, ListSeparators) + "<br>";
  }

  /** The benefit loop: every name followed by ", ", a line break before the first of every three. */
  method AppendBenefits(text: string, benList: seq<string>) returns (legendText: string)
    ensures legendText == text + BenItems(benList)
  {
    legendText := text;
    for i := 0 to |benList|
      invariant legendText == text + BenItems(benList[..i])
    {
      assert benList[..i + 1][..i] == benList[..i];
      if i % 3 == 0 {
        legendText := legendText + "<br>";
      }
      legendText := legendText + benList[i] + ", ";
    }
    assert benList[..|benList|] == benList;
  }

  /** A value the separators cannot eat into: non-empty and not ending in a comma or a space. */
  predicate EndsClean(v: string) {
    v != [] && v[|v| - 1] !in ListSeparators
  }

  /** The values with their separators are the values joined by ", ", plus one trailing ", ". */
  lemma {:induction false} ItemsJoin(values: seq<string>)
    requires values != []
    ensures Items(values) == Join(", ", values) + ", "
  {
    var n := |values| - 1;
    if n > 0 {
      ItemsJoin(values[..n]);
      JoinSnoc(", ", values[..n], values[n]);
      assert values[..n] + [values[n]] == values;
    }
  }

  /** Joining one more element appends the separator and the element. */
  lemma {:induction false} JoinSnoc(sep: string, xs: seq<string>, x: string)
    requires xs != []
    ensures Join(sep, xs + [x]) == Join(sep, xs) + sep + x
  {
    if |xs| > 1 {
      JoinSnoc(sep, xs[1..], x);
      assert (xs + [x])[1..] == xs[1..] + [x];
    }
  }

  /** A joined list ends clean when its last element does. */
  lemma JoinEndsClean(sep: string, xs: seq<string>)
    requires xs != [] && EndsClean(xs[|xs| - 1])
    ensures EndsClean(Join(sep, xs))
  {
    var n := |xs| - 1;
    if n > 0 {
      var front := Join(sep, xs[..n]);
      JoinSnoc(sep, xs[..n], xs[n]);
      assert xs[..n] + [xs[n]] == xs;
      var joined := Join(sep, xs);
      assert joined == front + sep + xs[n];
      assert joined[|joined| - 1] == xs[n][|xs[n]| - 1];
    }
  }

  /** Appending ", " to a text that ends clean and stripping separators gives the text back. */
  lemma StripSeparator(line: string)
    requires EndsClean(line)
    ensures RStrip(line + ", ", ListSeparators) == line
  {
    assert forall i :: 0 <= i < |", "| ==> ", "[i] in ListSeparators;
    RStripTail(line, ", ", ListSeparators);
  }

  /** Stripping the values with their separators leaves the values joined by ", ". */
  lemma StripItems(prefix: string, values: seq<string>)
    requires values != [] && EndsClean(values[|values| - 1])
    ensures RStrip(prefix + Items(values), ListSeparators) == prefix + Join(", ", values)
  {
    var joined := Join(", ", values);
    var line := prefix + joined;
    ItemsJoin(values);
    JoinEndsClean(", ", values);
    assert line[|line| - 1] == joined[|joined| - 1];
    StripSeparator(line);
    assert prefix + Items(values) == line + ", ";
  }

  /**
   * A member whose last value ends clean gets the line "<b>name</b>: v1, v2, …<br>": stripping
   * removes exactly the final ", ".
   */
  lemma MemberLine(text: string, member: string, params: seq<string>)
    requires params != [] && EndsClean(params[|params| - 1])
    ensures MemberText(text, member, params) == text + "<b>" + member + "</b>: " + Join(", ", params) + "<br>"
  {
    StripItems(text + "<b>" + member + "</b>: ", params);
  }

  /** The number of names on the last line of a list of `len` benefit names: one to three. */
  function LastLineLength(len: nat): (k: nat)
    requires len > 0
    ensures 1 <= k <= 3 && k <= len
    ensures (len - k) % 3 == 0
  {
    (len - 1) % 3 + 1
  }

  /** Appending one benefit name: a line break first when its position is divisible by three. */
  lemma BenItemsSnoc(bens: seq<string>, name: string)
    ensures BenItems(bens + [name]) == BenItems(bens) + (if |bens| % 3 == 0 then "<br>" else "") + name + ", "
  {
    assert (bens + [name])[..|bens|] == bens;
  }

  lemma ItemsSnoc(values: seq<string>, value: string)
    ensures Items(values + [value]) == Items(values) + value + ", "
  {
    assert (values + [value])[..|values|] == values;
  }

  /**
   * After a whole number of lines of three, the next (up to three) names form one line: a line
   * break, then each name followed by ", ".
   */
  lemma {:induction false} BenItemsLine(front: seq<string>, line: seq<string>)
    requires |front| % 3 == 0 && 1 <= |line| <= 3
    ensures BenItems(front + line) == BenItems(front) + "<br>" + Items(line)
    decreases |line|
  {
    var m := |line| - 1;
    var init := line[..m];
    var name := line[m];
    assert line == init + [name];
    assert front + line == (front + init) + [name];
    BenItemsSnoc(front + init, name);
    ItemsSnoc(init, name);
    if m == 0 {
      assert front + init == front;
      assert Items(init) == "";
      Regroup(BenItems(front), "<br>", name, ", ");
    } else {
      BenItemsLine(front, init);
      SameLineJoin(BenItems(front + line), BenItems(front + init), BenItems(front), Items(init), name);
    }
  }

  /** Regrouping a concatenation: a step the verifier misses, spelled out for `BenItemsLine`. */
  lemma SameLineJoin(all: string, front: string, rows: string, line: string, name: string)
    requires all == front + "" + name + ", "
    requires front == rows + "<br>" + line
    ensures all == rows + "<br>" + (line + name + ", ")
  {
  }

  /**
   * The benefit names cut into lines of three from the front, the last line holding the one to
   * three names left over.
   */
  function Chunks(bens: seq<string>): (r: seq<seq<string>>)
    ensures |bens| <= 3 * |r| < |bens| + 3
    ensures forall k :: 0 <= k < |r| - 1 ==> |r[k]| == 3
    ensures bens != [] ==> |r[|r| - 1]| == LastLineLength(|bens|)
    ensures Concat(r) == bens
  {
    if bens == [] then []
    else
      var start := |bens| - LastLineLength(|bens|);
      var front := Chunks(bens[..start]);
      ChunksSnoc(bens, start, front);
      front + [bens[start..]]
  }

  lemma ChunksSnoc(bens: seq<string>, start: nat, front: seq<seq<string>>)
    requires bens != [] && start == |bens| - LastLineLength(|bens|)
    requires start <= 3 * |front| < start + 3
    requires Concat(front) == bens[..start]
    ensures Concat(front + [bens[start..]]) == bens
    ensures 3 * |front| == start
  {
    assert (front + [bens[start..]])[..|front|] == front;
    assert bens[..start] + bens[start..] == bens;
  }

  /** The names of the lines, in order. */
  function Concat(lines: seq<seq<string>>): seq<string> {
    if lines == [] then [] else Concat(lines[..|lines| - 1]) + lines[|lines| - 1]
  }

  /** Each line opened by "<br>", each name on it followed by ", ". */
  function Lines(lines: seq<seq<string>>): string {
    if lines == [] then "" else Lines(lines[..|lines| - 1]) + "<br>" + Items(lines[|lines| - 1])
  }

  /**
   * The benefit list is one "<br>"-opened line per chunk of three names: a list of n names gets
   * ceil(n / 3) line breaks, one before each of the names at positions 0, 3, 6, ...
   */
  lemma {:induction false} BenItemsAreLines(bens: seq<string>)
    ensures BenItems(bens) == Lines(Chunks(bens))
    decreases |bens|
  {
    if bens != [] {
      var start := |bens| - LastLineLength(|bens|);
      var line := bens[start..];
      BenItemsAreLines(bens[..start]);
      assert bens == bens[..start] + line;
      BenItemsLine(bens[..start], line);
      LinesSnoc(Chunks(bens[..start]), line);
    }
  }

  lemma LinesSnoc(lines: seq<seq<string>>, line: seq<string>)
    ensures Lines(lines + [line]) == Lines(lines) + "<br>" + Items(line)
  {
    assert (lines + [line])[..|lines|] == lines;
  }

  /** With no benefits the legend ends with an empty italic list. */
  lemma LegendWithoutBenefits(family: seq<(string, seq<string>)>, color: string)
    ensures LegendText(family, color, []) == FamilyText(LegendHeader(color), family) + "<i></i>"
  {
    var s := FamilyText(LegendHeader(color), family) + "<i>" + BenItems([]);
    assert s == FamilyText(LegendHeader(color), family) + "<i>";
    assert s[|s| - 1] == '>';
  }

  lemma StripLastLine(members: string, rows: string, tail: seq<string>)
    requires tail != [] && EndsClean(tail[|tail| - 1])
    ensures RStrip(members + "<i>" + (rows + "<br>" + Items(tail)), ListSeparators) ==
      members + "<i>" + rows + "<br>" + Join(", ", tail)
  {
    StripItems(members + "<i>" + rows + "<br>", tail);
    Regroup(members + "<i>", rows, "<br>", Items(tail));
  }

  /** Associativity of string concatenation, spelled out only to help the verifier. */
  lemma Regroup(a: string, b: string, c: string, d: string)
    ensures a + (b + c + d) == a + b + c + d
    ensures a + b + (c + d) == a + b + c + d
  {
  }

  /**
   * The legend closes its benefit list cleanly: the names before the last line keep their layout,
   * and the last line, opened by a line break, holds the last one to three names joined by ", "
   * with no trailing separator.
   */
  lemma LegendLastLine(family: seq<(string, seq<string>)>, color: string, bens: seq<string>)
    requires bens != [] && EndsClean(bens[|bens| - 1])
    ensures var start := |bens| - LastLineLength(|bens|);
      LegendText(family, color, bens) ==
        FamilyText(LegendHeader(color), family) + "<i>" + BenItems(bens[..start]) + "<br>" + Join(", ", bens[start..]) + "</i>"
  {
    var members := FamilyText(LegendHeader(color), family);
    var start := |bens| - LastLineLength(|bens|);
    var tail := bens[start..];
    assert tail[|tail| - 1] == bens[|bens| - 1];
    assert bens == bens[..start] + tail;
    BenItemsLine(bens[..start], tail);
    StripLastLine(members, BenItems(bens[..start]), tail);
  }
}
