/**
 * The legend beside the pie charts: one row per slice of `pie(result)`,
 * which keeps the order of `result` (`sort(null)`). Row `i` is translated
 * down by `(i + 1) * 20`, holds an 18 by 18 swatch in the colour of its
 * slice's key, and names that key.
 */
module Legend {
  import opened PrefixTotals
  import opened Ranking

  const RowPitch: nat := 20
  const SwatchSize: nat := 18

  /** The vertical offset of legend row `i`. */
  function RowOffset(i: nat): nat {
    (i + 1) * RowPitch
  }

  /** Rows start below the top edge, follow each other, and their swatches never overlap. */
  lemma {:induction false} RowsDisjoint(i: nat, j: nat)
    requires i < j
    ensures RowOffset(i) > 0
    ensures RowOffset(i) + SwatchSize < RowOffset(j)
    ensures RowOffset(j) - RowOffset(i) == (j - i) * RowPitch
  {
  }

  /** A legend row: its vertical offset and the key its swatch and text stand for. */
  datatype LegendRow = LegendRow(offset: nat, key: string)

  /** The legend drawn for the pie data `data`. */
  function LegendOf(data: seq<Entry>): (rows: seq<LegendRow>)
    ensures |rows| == |data|
  {
    seq(|data|, i requires 0 <= i < |data| => LegendRow(RowOffset(i), data[i].key))
  }

  /**
   * Row `i` names slice `i`; rows go down the legend in slice order with
   * disjoint swatches; distinct slice keys give distinct rows, and for
   * sorted data a row higher up stands for a total at least as large.
   */
  lemma {:induction false} LegendSpec(data: seq<Entry>)
    ensures forall i :: 0 <= i < |data| ==> LegendOf(data)[i].key == data[i].key
    ensures forall i, j :: 0 <= i < j < |data| ==>
      0 < LegendOf(data)[i].offset && LegendOf(data)[i].offset + SwatchSize < LegendOf(data)[j].offset
    ensures DistinctKeys(data) ==>
      forall i, j :: 0 <= i < j < |data| ==> LegendOf(data)[i].key != LegendOf(data)[j].key
    ensures SortedDesc(data) ==>
      forall i, j :: 0 <= i < j < |data| ==> data[i].y >= data[j].y && LegendOf(data)[i].offset < LegendOf(data)[j].offset
  {
    forall i, j | 0 <= i < j < |data|
      ensures 0 < LegendOf(data)[i].offset && LegendOf(data)[i].offset + SwatchSize < LegendOf(data)[j].offset
    {
      RowsDisjoint(i, j);
    }
  }
}
