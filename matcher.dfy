/**
 * The sample matcher: the rows of the data table whose sample ID contains
 * the image's base name immediately followed by one of the separators.
 */
module Matcher {
  import opened Text
  import opened Selection

  /** A table row: the sample-ID, X-position and Y-position columns. */
  datatype Row = Row(sampleId: string, x: real, y: real)

  /**
   * A row of the re-indexed match: its position in the result is its new
   * index, and `index` is the column `reset_index` adds, the row's position
   * in the original table.
   */
  datatype IndexedRow = IndexedRow(index: nat, row: Row)

  /** `image_file_name.split('.')[0]`. */
  function BaseName(fileName: string): string {
    BeforeFirst(fileName, '.')
  }

  /** `<base><separator>` occurs somewhere in the sample ID (not only at its start). */
  predicate Matches(r: Row, base: string, separators: seq<char>) {
    exists c :: c in separators && Contains(r.sampleId, base + [c])
  }

  /**
   * `frame[mask].reset_index()`: the rows the mask `keep` selects, each once,
   * in table order, each with its position in the original table.
   */
  function Reindex(rows: seq<Row>, keep: Row -> bool): (r: seq<IndexedRow>)
    ensures |r| <= |rows|
    ensures forall k :: 0 <= k < |r| ==> r[k].index < |rows| && rows[r[k].index] == r[k].row && keep(r[k].row)
    ensures forall a, b :: 0 <= a < b < |r| ==> r[a].index < r[b].index
    ensures forall j :: 0 <= j < |rows| && keep(rows[j]) ==> exists k :: 0 <= k < |r| && r[k].index == j
  {
    var ix := SelectFrom(rows, keep, 0);
    SelectFromSound(rows, keep, 0);
    SelectFromComplete(rows, keep, 0);
    SelectFromIncreasing(rows, keep, 0);
    var r := seq(|ix|, k requires 0 <= k < |ix| => IndexedRow(ix[k], rows[ix[k]]));
    forall a, b | 0 <= a < b < |r| ensures r[a].index < r[b].index {
      assert r[a].index == ix[a] && r[b].index == ix[b];
    }
    forall j | 0 <= j < |rows| && keep(rows[j])
      ensures exists k :: 0 <= k < |r| && r[k].index == j
    {
      assert j in ix;
      var k :| 0 <= k < |ix| && ix[k] == j;
      assert r[k].index == j;
    }
    r
  }

  /**
   * `df[df[Sample_ID].str.contains(base + suffix)].reset_index()`: exactly
   * the matching rows, each once, in table order, indexed from 0.
   */
  function Matched(rows: seq<Row>, base: string, separators: seq<char>): (r: seq<IndexedRow>)
    ensures |r| <= |rows|
    ensures forall k :: 0 <= k < |r| ==>
      r[k].index < |rows| && rows[r[k].index] == r[k].row && Matches(r[k].row, base, separators)
    ensures forall a, b :: 0 <= a < b < |r| ==> r[a].index < r[b].index
    ensures forall j :: 0 <= j < |rows| && Matches(rows[j], base, separators) ==>
      exists k :: 0 <= k < |r| && r[k].index == j
  {
    Reindex(rows, (row: Row) => Matches(row, base, separators))
  }

  /** The matched rows' sample IDs are the table's matching sample IDs; the matcher adds none. */
  lemma MatchedIsFilter(rows: seq<Row>, base: string, separators: seq<char>)
    ensures forall ir :: ir in Matched(rows, base, separators) ==> ir.row in rows
    ensures forall row :: row in rows && Matches(row, base, separators) ==>
      exists k :: 0 <= k < |Matched(rows, base, separators)| && Matched(rows, base, separators)[k].row == row
  {
    var r := Matched(rows, base, separators);
    forall row | row in rows && Matches(row, base, separators)
      ensures exists k :: 0 <= k < |r| && r[k].row == row
    {
      var j :| 0 <= j < |rows| && rows[j] == row;
      var k :| 0 <= k < |r| && r[k].index == j;
      assert r[k].row == row;
    }
  }

  /** `img1-001` is a sample of `img1.tif` under the default separators. */
  lemma MatchExample()
    ensures BaseName("img1.tif") == "img1"
    ensures Matches(Row("img1-001", 10.0, 20.0), "img1", ['-', '_', '.'])
    ensures !Matches(Row("img10-001", 10.0, 20.0), "img1", ['-', '_', '.'])
  {
    assert "img1.tif"[4] == '.';
    assert OccursAt("img1-001", "img1" + ['-'], 0);
    var id := "img10-001";
    forall c, i | c in ['-', '_', '.'] && 0 <= i <= |id| ensures !OccursAt(id, "img1" + [c], i) {
      if i <= |id| - 5 {
        assert id[i..i + 5][0] == id[i];
        assert id[i..i + 5][4] == id[i + 4];
      }
    }

  }

  /** The match is not anchored: an ID that only contains `<base><separator>` further in matches too. */
  lemma MatchNotAnchored()
    ensures Matches(Row("xyimg1_7", 0.0, 0.0), "img1", ['-', '_', '.'])
  {
    assert OccursAt("xyimg1_7", "img1" + ['_'], 2);
  }
}
