/**
 * Rows of a downloaded line-item report and the campaign's exclusion filter
 * (`filterResponse` in the line-item report resolver).
 */
module ReportRows {

  import opened Seqs

  /**
   * One parsed CSV row, abstracted to a flat map from column header to cell
   * text. The parser nests dotted headers and the filter reads the nested
   * path; a flat key holding the whole dotted header stands for that path.
   */
  type Row = map<string, string>

  /** The column whose value identifies a row's line item. */
  const LineItemIdColumn: string := "Dimension.LINE_ITEM_ID"

  /** The row's line item is on the exclusion list; a row without that column never is. */
  predicate IsExcluded(row: Row, excludedIds: seq<string>)
  {
    LineItemIdColumn in row && row[LineItemIdColumn] in excludedIds
  }

  /** The filter's predicate for one exclusion list. */
  function KeptBy(excludedIds: seq<string>): Row -> bool
  {
    (row: Row) => !IsExcluded(row, excludedIds)
  }

  /** The rows the campaign shows: every row whose line item is not excluded, in download order. */
  function FilterResponse(rows: seq<Row>, excludedIds: seq<string>): (r: seq<Row>)
    ensures |r| <= |rows|
    ensures forall i :: 0 <= i < |r| ==> r[i] in rows && !IsExcluded(r[i], excludedIds)
    ensures forall i :: 0 <= i < |rows| && !IsExcluded(rows[i], excludedIds) ==> rows[i] in r
  {
    var r := Filter(rows, KeptBy(excludedIds));
    assert forall i :: 0 <= i < |r| ==> KeptBy(excludedIds)(r[i]);
    r
  }

  /**
   * The filter keeps exactly the non-excluded rows, every occurrence of them,
   * in their original order.
   */
  lemma FilterResponseExact(rows: seq<Row>, excludedIds: seq<string>, row: Row)
    ensures multiset(FilterResponse(rows, excludedIds))[row]
         == if IsExcluded(row, excludedIds) then 0 else multiset(rows)[row]
    ensures IsSubsequence(FilterResponse(rows, excludedIds), rows)
  {
    FilterCount(rows, KeptBy(excludedIds), row);
    FilterIsSubsequence(rows, KeptBy(excludedIds));
  }

  /** Filtering again with the same list changes nothing. */
  lemma FilterResponseIdempotent(rows: seq<Row>, excludedIds: seq<string>)
    ensures FilterResponse(FilterResponse(rows, excludedIds), excludedIds) == FilterResponse(rows, excludedIds)
  {
    FilterIdempotent(rows, KeptBy(excludedIds));
  }

  /** With nothing excluded the filter is the identity: the cached rows are the unfiltered report. */
  lemma FilterResponseNothingExcluded(rows: seq<Row>)
    ensures FilterResponse(rows, []) == rows
  {
    FilterKeepsAll(rows, KeptBy([]));
  }

  /** Filtering a concatenation filters each part, so the filter can run row by row. */
  lemma FilterResponseAppend(a: seq<Row>, b: seq<Row>, excludedIds: seq<string>)
    ensures FilterResponse(a + b, excludedIds) == FilterResponse(a, excludedIds) + FilterResponse(b, excludedIds)
  {
    FilterAppend(a, b, KeptBy(excludedIds));
  }

  function LineItemRow(id: string): Row
  {
    map[LineItemIdColumn := id]
  }

  /** Rows for line items L1, L9, L2 with L9 excluded leave the rows for L1 and L2. */
  lemma ExcludeOneOfThree()
    ensures FilterResponse([LineItemRow("L1"), LineItemRow("L9"), LineItemRow("L2")], ["L9"])
         == [LineItemRow("L1"), LineItemRow("L2")]
  {
    var rows := [LineItemRow("L1"), LineItemRow("L9"), LineItemRow("L2")];
    assert rows == [rows[0]] + [rows[1]] + [rows[2]];
    FilterResponseAppend([rows[0]] + [rows[1]], [rows[2]], ["L9"]);
    FilterResponseAppend([rows[0]], [rows[1]], ["L9"]);
    assert "L1" != "L9" && "L2" != "L9";
  }
}
