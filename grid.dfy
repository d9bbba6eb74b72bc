/** The grid: the "CxR" layout string read into columns and rows, and the
    choice between showing the solo cell alone and showing every cell. */
module Grid {
  import opened Types
  import Text

  /** `gridLayout.split('x').map(Number)` destructured as `[cols, rows]`: the
      first two pieces read as numbers, the second absent when there is no
      'x'. */
  function ParseLayout(layout: string): (r: (Option<Text.JsNumber>, Option<Text.JsNumber>))
    ensures r.0.Some?
    ensures r.1.Some? <==> 'x' in layout
  {
    var parts := Text.Split(layout, 'x');
    var cols := At(parts, 0);
    var rows := At(parts, 1);
    (if cols.Some? then Some(Text.ToNumber(cols.value)) else None,
     if rows.Some? then Some(Text.ToNumber(rows.value)) else None)
  }

  /** The layout string for `cols` columns and `rows` rows. */
  function LayoutString(cols: nat, rows: nat): string
  {
    Text.DecimalString(cols) + "x" + Text.DecimalString(rows)
  }

  /** A numeral holds no 'x'. */
  lemma NoSeparatorInNumeral(n: nat)
    ensures 'x' !in Text.DecimalString(n)
  {
  }

  /** Reading "CxR" gives C columns and R rows. */
  lemma {:induction false} LayoutRoundTrip(cols: nat, rows: nat)
    ensures ParseLayout(LayoutString(cols, rows)) == (Some(Text.Count(cols)), Some(Text.Count(rows)))
  {
    var c := Text.DecimalString(cols);
    var r := Text.DecimalString(rows);
    NoSeparatorInNumeral(cols);
    NoSeparatorInNumeral(rows);
    Text.SplitAtFirst(c, 'x', r);
    assert c + "x" + r == c + ['x'] + r;
    assert Text.Split(r, 'x') == [r];
    Text.DecimalRoundTrip(cols);
    Text.DecimalRoundTrip(rows);
  }

  /** The layouts the settings offer. */
  const AvailableLayouts: seq<string> := ["1x1", "2x2", "3x3", "4x3", "4x4", "5x5", "6x6"]

  /** Every offered layout reads as the columns and rows it names. */
  lemma AvailableLayoutsParse()
    ensures var expected := [(1, 1), (2, 2), (3, 3), (4, 3), (4, 4), (5, 5), (6, 6)];
      |expected| == |AvailableLayouts| &&
      forall k :: 0 <= k < |AvailableLayouts| ==>
        ParseLayout(AvailableLayouts[k]) == (Some(Text.Count(expected[k].0)), Some(Text.Count(expected[k].1)))
  {
    var expected := [(1, 1), (2, 2), (3, 3), (4, 3), (4, 4), (5, 5), (6, 6)];
    forall k | 0 <= k < |AvailableLayouts|
      ensures ParseLayout(AvailableLayouts[k]) == (Some(Text.Count(expected[k].0)), Some(Text.Count(expected[k].1)))
    {
      var c: nat := expected[k].0;
      var r: nat := expected[k].1;
      assert AvailableLayouts[k] == LayoutString(c, r);
      LayoutRoundTrip(c, r);
    }
  }

  /** `cells.find(c => c.id === id)`: the first cell with that id. */
  function FindById(cells: seq<Cell>, id: string): (r: Option<Cell>)
    ensures r.None? <==> forall i :: 0 <= i < |cells| ==> cells[i].id != id
    ensures r.Some? ==> exists k :: 0 <= k < |cells| && cells[k] == r.value && r.value.id == id &&
                                    forall i :: 0 <= i < k ==> cells[i].id != id
  {
    if cells == [] then None
    else if cells[0].id == id then Some(cells[0])
    else
      var r := FindById(cells[1..], id);
      if r.Some? then
        ghost var k :| 0 <= k < |cells[1..]| && cells[1..][k] == r.value && r.value.id == id &&
                       forall i :: 0 <= i < k ==> cells[1..][i].id != id;
        assert cells[k + 1] == r.value;
        r
      else r
  }

  /** One rendered cell and whether it is shown solo. */
  datatype Rendered = Rendered(cell: Cell, isSolo: bool)

  /** The cells the grid renders: the solo cell alone when the solo id is set
      and found, otherwise every cell in order. */
  function Render(cells: seq<Cell>, soloCellId: Option<string>): seq<Rendered>
  {
    var soloCell := if soloCellId.Some? && soloCellId.value != "" then FindById(cells, soloCellId.value) else None;
    if soloCell.Some? then [Rendered(soloCell.value, true)]
    else seq(|cells|, i requires 0 <= i < |cells| => Rendered(cells[i], false))
  }

  /** A solo id that names a cell renders exactly that cell, solo; a missing,
      empty or unknown solo id renders every cell in order, none solo. */
  lemma RenderRule(cells: seq<Cell>, soloCellId: Option<string>)
    ensures var found := soloCellId.Some? && soloCellId.value != "" &&
                         exists i :: 0 <= i < |cells| && cells[i].id == soloCellId.value;
      && (found ==> |Render(cells, soloCellId)| == 1 && Render(cells, soloCellId)[0].isSolo &&
                    Render(cells, soloCellId)[0].cell.id == soloCellId.value &&
                    Render(cells, soloCellId)[0].cell in cells)
      && (!found ==> |Render(cells, soloCellId)| == |cells| &&
                     forall i :: 0 <= i < |cells| ==> Render(cells, soloCellId)[i] == Rendered(cells[i], false))
  {
  }
}
