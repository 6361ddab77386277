/**
 * The Audit Summary grouped bar chart: documents are grouped by project
 * (consecutive documents of the same project merge into one group), the
 * seven license counts are summed per group in lockstep, and the seven
 * series are zipped into one bar per (group, series) pair.
 */
module AuditSummary {
  import opened Wrappers
  import opened Text
  import opened Fetch

  /** A document of the license report: its id and its seven `license_*` counts. */
  datatype LicenseDoc = LicenseDoc(
    id: string,
    standards: int, apache: int, binaries: int, generated: int,
    unknown: int, archives: int, notes: int)

  const SeriesCount: nat := 7

  /** The `label` of each element of `data.series`, in order. */
  const SeriesLabels: seq<string> := ["Standards", "Apache", "Binaries", "Generated", "Unknown", "Archives", "Notes"]

  /** `mylabels`, the names printed inside the bars. */
  const BarLabels: seq<string> := ["Standards", "Apache", "Binaries", "Generated", "Unknown", "Archives", "Notes"]

  /** A document's counts in series order. */
  function Counts(d: LicenseDoc): (c: seq<int>)
    ensures |c| == SeriesCount
  {
    [d.standards, d.apache, d.binaries, d.generated, d.unknown, d.archives, d.notes]
  }

  /**
   * `reponame`: the last `/`-segment of the id or, when that segment starts
   * with `part`, the one before it; `None` stands for the `undefined` read
   * when there is no segment before it.
   */
  function ProjectName(id: string): Option<string> {
    var repo := Split(id, "/");
    var last := repo[|repo| - 1];
    if IndexOf(last, "part") == 0 then
      if |repo| >= 2 then Some(repo[|repo| - 2]) else None
    else Some(last)
  }

  /** The project name is a single path segment, chosen as described. */
  lemma {:induction false} ProjectNameIsSegment(id: string)
    ensures var repo := Split(id, "/");
      var last := repo[|repo| - 1];
      && (!StartsWith(last, "part") ==> ProjectName(id) == Some(last))
      && (StartsWith(last, "part") && |repo| >= 2 ==> ProjectName(id) == Some(repo[|repo| - 2]))
      && (StartsWith(last, "part") && |repo| == 1 ==> ProjectName(id) == None)
      && (ProjectName(id).Some? ==> !Includes(ProjectName(id).value, "/"))
  {
    var repo := Split(id, "/");
    IndexOfZeroIffStartsWith(repo[|repo| - 1], "part");
    SplitPartsAvoidSeparator(id, "/");
  }

  /** A string without `/` contains no `/`. */
  lemma {:induction false} NoSlash(s: string)
    requires forall i :: 0 <= i < |s| ==> s[i] != '/'
    ensures !Includes(s, "/")
  {
    forall i | 0 <= i <= |s|
      ensures !OccursAt(s, "/", i)
    {
      if i + 1 <= |s| {
        assert s[i..i + 1][0] == s[i];
      }
    }
  }

  /** The first `/` of `a + "/" + t`, when `a` has none, is the one after `a`. */
  lemma {:induction false} FirstSlash(a: string, t: string)
    requires forall i :: 0 <= i < |a| ==> a[i] != '/'
    ensures IndexOf(a + "/" + t, "/") == |a|
    ensures (a + "/" + t)[|a| + 1..] == t
  {
    var s := a + "/" + t;
    assert OccursAt(s, "/", |a|);
    forall i | 0 <= i < |a|
      ensures !OccursAt(s, "/", i)
    {
      assert s[i] == a[i];
    }
  }

  /** Splitting `a + "/" + t` at `/`, when `a` has none, gives `a` and then the parts of `t`. */
  lemma {:induction false} SplitAfterSegment(a: string, t: string)
    requires forall i :: 0 <= i < |a| ==> a[i] != '/'
    ensures SplitAt(a + "/" + t, "/") == [a] + SplitAt(t, "/")
  {
    FirstSlash(a, t);
    SplitAtUnfold(a + "/" + t, "/");
    assert (a + "/" + t)[..|a|] == a;
  }

  lemma {:induction false} SplitOfSegment(c: string)
    requires forall i :: 0 <= i < |c| ==> c[i] != '/'
    ensures SplitAt(c, "/") == [c]
  {
    NoSlash(c);
    SplitAtUnfold(c, "/");
  }

  /**
   * For an id of three segments `a/b/c`, the project is `c`, or `b` when
   * `c` is a part file.
   */
  lemma {:induction false} ProjectNameOfPath(a: string, b: string, c: string)
    requires forall i :: 0 <= i < |a| ==> a[i] != '/'
    requires forall i :: 0 <= i < |b| ==> b[i] != '/'
    requires forall i :: 0 <= i < |c| ==> c[i] != '/'
    ensures ProjectName(a + "/" + b + "/" + c) == if StartsWith(c, "part") then Some(b) else Some(c)
  {
    var id := a + "/" + b + "/" + c;
    assert Split(id, "/") == [a, b, c] by {
      assert id == a + "/" + (b + "/" + c);
      SplitAfterSegment(a, b + "/" + c);
      SplitAfterSegment(b, c);
      SplitOfSegment(c);
    }
    IndexOfZeroIffStartsWith(c, "part");
  }

  /** The labels and the seven series built so far. */
  datatype Groups = Groups(labels: seq<Option<string>>, series: seq<seq<int>>)

  const NoGroups: Groups := Groups([], [[], [], [], [], [], [], []])

  /** Seven series, each as long as the label list. */
  predicate WellFormed(g: Groups) {
    |g.series| == SeriesCount && forall j :: 0 <= j < SeriesCount ==> |g.series[j]| == |g.labels|
  }

  /** `label_names[label_names.length - 1]`, which is `undefined` for an empty list. */
  function LastLabel(labels: seq<Option<string>>): Option<string> {
    if |labels| == 0 then None else labels[|labels| - 1]
  }

  /** The `push` of a document's counts onto the seven series. */
  function Push(series: seq<seq<int>>, c: seq<int>): (r: seq<seq<int>>)
    requires |series| == SeriesCount && |c| == SeriesCount
    ensures |r| == SeriesCount
  {
    seq(SeriesCount, j requires 0 <= j < SeriesCount => series[j] + [c[j]])
  }

  /** The `+=` of a document's counts onto the last element of each series. */
  function AddToLast(series: seq<seq<int>>, c: seq<int>): (r: seq<seq<int>>)
    requires |series| == SeriesCount && |c| == SeriesCount
    requires forall j :: 0 <= j < SeriesCount ==> |series[j]| > 0
    ensures |r| == SeriesCount
  {
    seq(SeriesCount, j requires 0 <= j < SeriesCount =>
      series[j][..|series[j]| - 1] + [series[j][|series[j]| - 1] + c[j]])
  }

  /**
   * One iteration of the grouping loop. A document of the same project as
   * the last group is merged into it; with no group yet, that merge writes
   * to index -1 of each array, which is not an element, so nothing changes.
   * Any other document opens a new group.
   */
  function Step(g: Groups, doc: LicenseDoc): (r: Groups)
    requires WellFormed(g)
    ensures WellFormed(r)
  {
    var name := ProjectName(doc.id);
    if LastLabel(g.labels) == name then
      if |g.labels| == 0 then g else Groups(g.labels, AddToLast(g.series, Counts(doc)))
    else Groups(g.labels + [name], Push(g.series, Counts(doc)))
  }

  /** The labels and series after the loop has visited `docs`. */
  function Grouped(docs: seq<LicenseDoc>): (g: Groups)
    ensures WellFormed(g)
  {
    if |docs| == 0 then NoGroups else Step(Grouped(docs[..|docs| - 1]), docs[|docs| - 1])
  }

  /** The grouping loop of `drawChart`. */
  method GroupByProject(docs: seq<LicenseDoc>) returns (labelNames: seq<Option<string>>, series: seq<seq<int>>)
    ensures Groups(labelNames, series) == Grouped(docs)
  {
    labelNames := [];
    series := NoGroups.series;
    for i := 0 to |docs|
      invariant Groups(labelNames, series) == Grouped(docs[..i])
    {
      assert docs[..i + 1][..i] == docs[..i];
      var doc := docs[i];
      var repo := Split(doc.id, "/");
      var reponame := Some(repo[|repo| - 1]);
      if IndexOf(repo[|repo| - 1], "part") == 0 {
        reponame := if |repo| >= 2 then Some(repo[|repo| - 2]) else None;
      }
      if LastLabel(labelNames) == reponame {
        if |labelNames| > 0 {
          series := AddToLast(series, Counts(doc));
        }
        continue;
      }
      labelNames := labelNames + [reponame];
      series := Push(series, Counts(doc));
    }
    assert docs[..|docs|] == docs;
  }

  /** Neighbouring groups belong to different projects. */
  predicate AdjacentDistinct(labels: seq<Option<string>>) {
    forall i :: 0 < i < |labels| ==> labels[i - 1] != labels[i]
  }

  /** No two neighbouring labels are equal, and there are at most as many groups as documents. */
  lemma {:induction false} GroupedLabels(docs: seq<LicenseDoc>)
    ensures AdjacentDistinct(Grouped(docs).labels)
    ensures |Grouped(docs).labels| <= |docs|
  {
    if |docs| > 0 {
      var n := |docs| - 1;
      GroupedLabels(docs[..n]);
      StepLabels(Grouped(docs[..n]), docs[n]);
    }
  }

  /** One iteration keeps neighbouring labels distinct and adds at most one label. */
  lemma {:induction false} StepLabels(g: Groups, doc: LicenseDoc)
    requires WellFormed(g) && AdjacentDistinct(g.labels)
    ensures AdjacentDistinct(Step(g, doc).labels)
    ensures |Step(g, doc).labels| <= |g.labels| + 1
  {
    var name := ProjectName(doc.id);
    if LastLabel(g.labels) != name {
      var labels := g.labels + [name];
      forall i | 0 < i < |labels|
        ensures labels[i - 1] != labels[i]
      {
        if i < |g.labels| {
          assert labels[i - 1] == g.labels[i - 1] && labels[i] == g.labels[i];
        }
      }
    }
  }

  /** The sum of a sequence of counts. */
  function Sum(s: seq<int>): int {
    if |s| == 0 then 0 else Sum(s[..|s| - 1]) + s[|s| - 1]
  }

  /** Count `j` of every document, in order. */
  function Column(docs: seq<LicenseDoc>, j: nat): (col: seq<int>)
    requires j < SeriesCount
    ensures |col| == |docs|
  {
    seq(|docs|, i requires 0 <= i < |docs| => Counts(docs[i])[j])
  }

  lemma {:induction false} SumAddToLast(s: seq<int>, x: int)
    requires |s| > 0
    ensures Sum(s[..|s| - 1] + [s[|s| - 1] + x]) == Sum(s) + x
  {
    var t := s[..|s| - 1] + [s[|s| - 1] + x];
    assert t[..|t| - 1] == s[..|s| - 1];
  }

  lemma {:induction false} SumPush(s: seq<int>, x: int)
    ensures Sum(s + [x]) == Sum(s) + x
  {
    assert (s + [x])[..|s|] == s;
  }

  /** Once the first document names a project there is always a group. */
  lemma {:induction false} GroupedNonEmpty(docs: seq<LicenseDoc>)
    requires |docs| > 0 && ProjectName(docs[0].id).Some?
    ensures |Grouped(docs).labels| > 0
  {
    var n := |docs| - 1;
    if n > 0 {
      assert docs[..n][0] == docs[0];
      GroupedNonEmpty(docs[..n]);
    }
  }

  lemma {:induction false} ColumnLast(docs: seq<LicenseDoc>, j: nat)
    requires j < SeriesCount && |docs| > 0
    ensures Column(docs, j) == Column(docs[..|docs| - 1], j) + [Counts(docs[|docs| - 1])[j]]
  {
  }

  /** A step adds the document's counts to the series, unless it merges into a missing group. */
  lemma {:induction false} StepConserves(g: Groups, doc: LicenseDoc, j: nat)
    requires WellFormed(g) && j < SeriesCount
    requires |g.labels| > 0 || LastLabel(g.labels) != ProjectName(doc.id)
    ensures Sum(Step(g, doc).series[j]) == Sum(g.series[j]) + Counts(doc)[j]
  {
    var c := Counts(doc);
    if LastLabel(g.labels) == ProjectName(doc.id) {
      assert AddToLast(g.series, c)[j] == g.series[j][..|g.series[j]| - 1] + [g.series[j][|g.series[j]| - 1] + c[j]];
      SumAddToLast(g.series[j], c[j]);
    } else {
      assert Push(g.series, c)[j] == g.series[j] + [c[j]];
      SumPush(g.series[j], c[j]);
    }
  }

  /**
   * Nothing is lost or counted twice: each series sums to the total of its
   * count over all documents, provided the first document names a project.
   */
  lemma {:induction false} GroupedConserves(docs: seq<LicenseDoc>, j: nat)
    requires j < SeriesCount
    requires |docs| == 0 || ProjectName(docs[0].id).Some?
    ensures Sum(Grouped(docs).series[j]) == Sum(Column(docs, j))
  {
    if |docs| > 0 {
      var n := |docs| - 1;
      var prefix := docs[..n];
      if n > 0 {
        assert prefix[0] == docs[0];
        GroupedNonEmpty(prefix);
      }
      GroupedConserves(prefix, j);
      StepConserves(Grouped(prefix), docs[n], j);
      ColumnLast(docs, j);
      SumPush(Column(prefix, j), Counts(docs[n])[j]);
    }
  }

  /**
   * A first document without a project name merges into the group at index
   * -1, which is no element: the grouping is the same as without it, so its
   * counts are lost.
   */
  lemma {:induction false} UnnamedFirstDocIsDropped(docs: seq<LicenseDoc>)
    requires |docs| > 0 && ProjectName(docs[0].id).None?
    ensures Grouped(docs) == Grouped(docs[1..])
    decreases |docs|
  {
    var n := |docs| - 1;
    if n == 0 {
      assert docs[..0] == [] && docs[1..] == [];
    } else {
      var p := docs[..n];
      assert p[0] == docs[0];
      UnnamedFirstDocIsDropped(p);
      assert p[1..] == docs[1..][..n - 1];
      assert docs[1..][n - 1] == docs[n];
    }
  }

  /** `zippedData[k]`: the value of series `k % 7` in group `k / 7`. */
  function Zipped(g: Groups): (z: seq<int>)
    requires WellFormed(g)
    ensures |z| == |g.labels| * SeriesCount
  {
    seq(|g.labels| * SeriesCount, k requires 0 <= k < |g.labels| * SeriesCount =>
      g.series[k % SeriesCount][k / SeriesCount])
  }

  /** The zip loop: for every group, push the group's value of each series in turn. */
  method Zip(labels: seq<Option<string>>, series: seq<seq<int>>) returns (zippedData: seq<int>)
    requires WellFormed(Groups(labels, series))
    ensures zippedData == Zipped(Groups(labels, series))
  {
    zippedData := [];
    for i := 0 to |labels|
      invariant |zippedData| == i * SeriesCount
      invariant zippedData == Zipped(Groups(labels, series))[..i * SeriesCount]
    {
      ghost var before := zippedData;
      for j := 0 to |series|
        invariant |zippedData| == i * SeriesCount + j
        invariant zippedData[..i * SeriesCount] == before
        invariant forall m :: 0 <= m < j ==> zippedData[i * SeriesCount + m] == series[m][i]
      {
        zippedData := zippedData + [series[j][i]];
      }
      ZipRow(Groups(labels, series), zippedData, i);
    }
  }

  lemma {:induction false} ZipRow(g: Groups, z: seq<int>, i: nat)
    requires WellFormed(g) && i < |g.labels|
    requires |z| == (i + 1) * SeriesCount
    requires z[..i * SeriesCount] == Zipped(g)[..i * SeriesCount]
    requires forall m :: 0 <= m < SeriesCount ==> z[i * SeriesCount + m] == g.series[m][i]
    ensures z == Zipped(g)[..(i + 1) * SeriesCount]
  {
    var zz := Zipped(g);
    forall k | 0 <= k < |z|
      ensures z[k] == zz[k]
    {
      if k >= i * SeriesCount {
        BarIndex(i, k - i * SeriesCount);
        assert z[i * SeriesCount + (k - i * SeriesCount)] == g.series[k - i * SeriesCount][i];
      } else {
        assert z[..i * SeriesCount][k] == zz[..i * SeriesCount][k];
      }
    }
  }

  /** Bar `group * 7 + s` is the bar of series `s` in group `group`. */
  lemma {:induction false} BarIndex(group: nat, s: nat)
    requires s < SeriesCount
    ensures (group * SeriesCount + s) / SeriesCount == group
    ensures (group * SeriesCount + s) % SeriesCount == s
  {
  }

  /**
   * The zipped data has one bar per (group, series) pair, and bar `k`
   * belongs to group `k / 7` and series `k % 7`; conversely group `i`'s
   * value of series `j` is bar `i * 7 + j`.
   */
  lemma {:induction false} ZippedLayout(g: Groups)
    requires WellFormed(g)
    ensures |Zipped(g)| == |g.labels| * SeriesCount
    ensures forall i, j :: 0 <= i < |g.labels| && 0 <= j < SeriesCount ==>
      Zipped(g)[i * SeriesCount + j] == g.series[j][i]
  {
    forall i, j | 0 <= i < |g.labels| && 0 <= j < SeriesCount
      ensures Zipped(g)[i * SeriesCount + j] == g.series[j][i]
    {
      BarIndex(i, j);
    }
  }

  /** What the text inside a bar shows: a count and the name of a license class. */
  datatype BarText = BarText(count: int, name: string)

  /** `${d} ${mylabels[i % 7]}`, the text inside bar `k` of the zipped data. */
  function BarTextOf(zippedData: seq<int>, k: nat): BarText
    requires k < |zippedData|
  {
    BarText(zippedData[k], BarLabels[k % SeriesCount])
  }

  /**
   * The text inside bar `k` shows the count of series `k % 7` in group
   * `k / 7`, and names that series.
   */
  lemma {:induction false} BarTextNamesSeries(g: Groups, k: nat)
    requires WellFormed(g) && k < |g.labels| * SeriesCount
    ensures k < |Zipped(g)|
    ensures BarTextOf(Zipped(g), k) == BarText(g.series[k % SeriesCount][k / SeriesCount], SeriesLabels[k % SeriesCount])
  {
    ZippedLayout(g);
    BarIndex(k / SeriesCount, k % SeriesCount);
    assert k == (k / SeriesCount) * SeriesCount + k % SeriesCount;
  }

  const BarHeight: int := 25
  const GapBetweenGroups: int := 25

  /** `chartHeight`. */
  function ChartHeight(bars: nat, groups: nat): int {
    BarHeight * bars + GapBetweenGroups * groups
  }

  /** The vertical translation of bar `k`. */
  function BarY(k: nat): real {
    (k * BarHeight) as real + (GapBetweenGroups as real) * (0.5 + (k / SeriesCount) as real)
  }

  /** Each bar is drawn `barHeight - 1` high. */
  const BarRectHeight: int := BarHeight - 1

  /** Bars never overlap, and a group's bars are separated from the next group's by the gap. */
  lemma {:induction false} BarsApart(k: nat, m: nat)
    requires k < m
    ensures BarY(k) + BarRectHeight as real < BarY(m)
    ensures m == k + 1 && m % SeriesCount != 0 ==> BarY(m) - BarY(k) == BarHeight as real
    ensures m == k + 1 && m % SeriesCount == 0 ==> BarY(m) - BarY(k) == (BarHeight + GapBetweenGroups) as real
  {
    assert k / SeriesCount <= m / SeriesCount;
    if m == k + 1 {
      if m % SeriesCount != 0 {
        assert m / SeriesCount == k / SeriesCount;
      } else {
        assert m / SeriesCount == k / SeriesCount + 1;
      }
    }
  }

  /** For well-formed groups every bar lies inside the chart, whose height is 200 per group. */
  lemma {:induction false} BarsInsideChart(groups: nat, k: nat)
    requires k < groups * SeriesCount
    ensures ChartHeight(groups * SeriesCount, groups) == 200 * groups
    ensures 0.0 < BarY(k) && BarY(k) + BarRectHeight as real <= ChartHeight(groups * SeriesCount, groups) as real
  {
    assert k / SeriesCount < groups;
  }

  /**
   * The group label drawn with bar `k`: the group's name at its first bar and
   * the empty text elsewhere. `None` stands for the `TypeError` thrown when
   * the label's `x` reads the `length` of an undefined name.
   */
  function GroupLabelText(labels: seq<Option<string>>, k: nat): Option<string>
    requires k / SeriesCount < |labels|
  {
    if k % SeriesCount == 0 then labels[k / SeriesCount] else Some("")
  }

  /** Each group's name is drawn once, at the group's first bar; an undefined name throws there. */
  lemma {:induction false} GroupLabelOncePerGroup(labels: seq<Option<string>>, group: nat, s: nat)
    requires group < |labels| && s < SeriesCount
    ensures GroupLabelText(labels, group * SeriesCount + s) ==
      if s == 0 then labels[group] else Some("")
  {
    BarIndex(group, s);
  }

  /** Every group has a project name. */
  predicate LabelsDefined(labels: seq<Option<string>>) {
    forall i :: 0 <= i < |labels| ==> labels[i].Some?
  }

  /** Drawing the group labels throws exactly when some group has no project name. */
  lemma {:induction false} LabelsThrowIff(labels: seq<Option<string>>)
    ensures (exists k :: 0 <= k < |labels| * SeriesCount && GroupLabelText(labels, k).None?) <==>
      !LabelsDefined(labels)
  {
    if !LabelsDefined(labels) {
      var i :| 0 <= i < |labels| && labels[i].None?;
      GroupLabelOncePerGroup(labels, i, 0);
      assert 0 <= i * SeriesCount < |labels| * SeriesCount && GroupLabelText(labels, i * SeriesCount).None?;
    }
    forall k | 0 <= k < |labels| * SeriesCount && GroupLabelText(labels, k).None?
      ensures !LabelsDefined(labels)
    {
      assert labels[k / SeriesCount].None?;
    }
  }

  /** An id without `/` names itself, unless it starts with `part`, when it names no project. */
  lemma {:induction false} TopLevelName(id: string)
    requires forall i :: 0 <= i < |id| ==> id[i] != '/'
    ensures ProjectName(id) == if StartsWith(id, "part") then None else Some(id)
  {
    NoSlash(id);
    SplitSingleIff(id, "/");
    IndexOfZeroIffStartsWith(id, "part");
  }

  /**
   * A named document followed by one with no project name (such as a part
   * file at the top level, see TopLevelName): the second opens a group with
   * no name, so drawing throws.
   */
  lemma {:induction false} UnnamedLaterDocThrows(d0: LicenseDoc, d1: LicenseDoc)
    requires ProjectName(d0.id).Some? && ProjectName(d1.id).None?
    ensures Grouped([d0, d1]).labels == [ProjectName(d0.id), None]
    ensures !LabelsDefined(Grouped([d0, d1]).labels)
  {
    assert [d0] == [] + [d0];
    GroupedPush([], d0);
    assert [d0, d1] == [d0] + [d1];
    GroupedPush([d0], d1);
    assert Grouped([d0, d1]).labels[1].None?;
  }

  /** A document whose project differs from the last group's opens a new group with its name. */
  lemma {:induction false} GroupedPush(docs: seq<LicenseDoc>, doc: LicenseDoc)
    requires LastLabel(Grouped(docs).labels) != ProjectName(doc.id)
    ensures Grouped(docs + [doc]).labels == Grouped(docs).labels + [ProjectName(doc.id)]
  {
    assert (docs + [doc])[..|docs|] == docs;
  }

  /** What `drawChart` lays out: the group labels, one value per bar, and the chart height. */
  datatype BarChart = BarChart(labels: seq<Option<string>>, zippedData: seq<int>, chartHeight: int)

  function ChartOf(docs: seq<LicenseDoc>): BarChart {
    var g := Grouped(docs);
    var z := Zipped(g);
    BarChart(g.labels, z, ChartHeight(|z|, |g.labels|))
  }

  /**
   * `drawChart` up to the data handed to D3; `thrown` tells whether drawing
   * the group labels throws, which happens at some bar exactly when a group
   * has no project name.
   */
  method DrawChartData(docs: seq<LicenseDoc>) returns (chart: BarChart, thrown: bool)
    ensures chart == ChartOf(docs)
    ensures |chart.zippedData| == |chart.labels| * SeriesCount
    ensures thrown <==> exists k :: 0 <= k < |chart.zippedData| && GroupLabelText(chart.labels, k).None?
    ensures thrown <==> !LabelsDefined(Grouped(docs).labels)
  {
    var labelNames, series := GroupByProject(docs);
    var zippedData := Zip(labelNames, series);
    var chartHeight := BarHeight * |zippedData| + GapBetweenGroups * |labelNames|;
    chart := BarChart(labelNames, zippedData, chartHeight);
    ZippedLayout(Grouped(docs));
    LabelsThrowIff(labelNames);
    thrown := !LabelsDefined(labelNames);
  }

  /** The chart is 200 high per group: seven bars and one gap each. */
  lemma {:induction false} ChartHeightPerGroup(docs: seq<LicenseDoc>)
    ensures ChartOf(docs).chartHeight == 200 * |ChartOf(docs).labels|
    ensures |ChartOf(docs).zippedData| == SeriesCount * |ChartOf(docs).labels|
  {
  }

  class AuditSummary {
    var state: LoadState<seq<LicenseDoc>>
    /** The charts drawn so far; every draw appends one more SVG element. */
    var drawn: seq<BarChart>

    constructor ()
      ensures state == Initial([]) && drawn == []
    {
      state := Initial([]);
      drawn := [];
    }

    /** `componentDidMount`, which only starts a load. */
    method Mount()
      modifies this
      ensures state == Started(old(state)) && drawn == old(drawn)
    {
      StartLoad();
    }

    /** The synchronous part of `callApiLoadSoftwareLicenseData`. */
    method StartLoad()
      modifies this
      ensures state == Started(old(state)) && drawn == old(drawn)
    {
      state := Started(state);
    }

    /**
     * The request settles; there is no mounted guard, so every outcome is
     * applied. A 200 stores the documents and draws the chart; when drawing
     * throws, the `.catch` then sets the error flag.
     */
    method Resolve(outcome: FetchOutcome<seq<LicenseDoc>>)
      modifies this
      ensures outcome.Response? && outcome.status == StatusOk ==>
        drawn == old(drawn) + [ChartOf(outcome.docs)] &&
        state == if LabelsDefined(Grouped(outcome.docs).labels) then Loaded(old(state), outcome.docs)
                 else Failed(Loaded(old(state), outcome.docs))
      ensures !(outcome.Response? && outcome.status == StatusOk) ==>
        state == Failed(old(state)) && drawn == old(drawn)
    {
      match outcome {
        case Response(status, docs) =>
          if status == StatusOk {
            state := Loaded(state, docs);
            var chart, thrown := DrawChartData(docs);
            drawn := drawn + [chart];
            if thrown {
              state := Failed(state);
            }
          } else {
            state := Failed(state);
          }
        case Rejected =>
          state := Failed(state);
      }
    }
  }
}
