/**
 * The general grid (table) layout rules of the SAMX toolchain: how a span
 * marker sets a cell's column and row span, how a row expands spanning
 * elements into column slots, and how a group of rows agrees on a column
 * count and computes per-column widths and integer flags.
 *
 * Parse-tree nodes are plain values here: a cell carries its attribute
 * texts, the plain rendering of its attributes and an optional flow (its
 * source text and the text the rendering visitor produces for it).
 */
module Grid {
  import opened Options
  import VisitorUtils

  /** A column or row span: never below one. */
  type Span = n: int | n >= 1 witness 1

  /** A flow: its source text and the text the visitor renders for it. */
  datatype Flow = Flow(text: string, rendered: string)

  /** What the parse tree gives one grid element. */
  datatype CellSource = CellSource(attributes: seq<string>, attributesPlain: string, flow: Option<Flow>)

  /** A grid element: a plain cell, or a cell followed by a span marker such as `||` or `|-`. */
  datatype GridElement =
    | Plain(cell: CellSource)
    | Spanning(cell: CellSource, span: string)

  /** A row with data: the rendered condition of its metadata and its elements. */
  datatype RowData = RowData(condition: string, elements: seq<GridElement>)

  /** The state of one grid cell once built. */
  datatype CellValue = CellValue(source: CellSource, rowSpan: Span, colSpan: Span)

  /** Number of occurrences of `ch` in `s`. */
  function Count(s: string, ch: char): (n: nat)
    ensures n <= |s|
    ensures n == 0 <==> ch !in s
  {
    if s == [] then 0
    else Count(s[..|s| - 1], ch) + (if s[|s| - 1] == ch then 1 else 0)
  }

  /** The span a marker with `n` occurrences of its character gives a fresh cell. */
  function SpanOf(n: nat): (s: Span)
  {
    if n == 0 then 1 else n
  }

  /** The text a cell contributes: the rendered flow, or nothing without a flow. */
  function Content(c: CellSource): (t: string)
    ensures c.flow.None? ==> t == ""
  {
    if c.flow.Some? then c.flow.value.rendered else ""
  }

  /** `GridCell.hasContent`: a flow whose source text is not empty. */
  predicate HasContent(c: CellSource)
    ensures HasContent(c) ==> c.flow.Some?
  {
    c.flow.Some? && c.flow.value.text != ""
  }

  /** `GridCell.empty`: no flow and no attributes. */
  predicate Empty(c: CellSource)
    ensures Empty(c) ==> !HasContent(c) && Content(c) == ""
  {
    c.flow.None? && |c.attributes| == 0
  }

  /** A cell with content is never empty, and an empty cell renders as nothing. */
  lemma ContentVersusEmpty(c: CellSource)
    ensures HasContent(c) ==> !Empty(c)
    ensures Empty(c) ==> Content(c) == ""
  {
  }

  class GridCell {
    var rowSpan: Span
    var colSpan: Span
    const source: CellSource

    /** A new cell spans one column and one row. */
    constructor(source: CellSource)
      ensures this.source == source && rowSpan == 1 && colSpan == 1
    {
      this.source := source;
      rowSpan := 1;
      colSpan := 1;
    }

    function Value(): CellValue
      reads this
    {
      CellValue(source, rowSpan, colSpan)
    }

    /**
     * `setSpan`: each `|` widens the cell by a column and each `-` by a
     * row; any other character is ignored. Afterwards a span above one is
     * lowered by one, so a fresh cell ends with as many columns as bars,
     * or one column when there are none.
     */
    method SetSpan(span: string)
      modifies this
      ensures colSpan == Lower(old(colSpan) + Count(span, '|'))
      ensures rowSpan == Lower(old(rowSpan) + Count(span, '-'))
      ensures old(colSpan) == 1 && old(rowSpan) == 1 ==>
                colSpan == SpanOf(Count(span, '|')) && rowSpan == SpanOf(Count(span, '-'))
    {
      var i := 0;
      while i < |span|
        invariant 0 <= i <= |span|
        invariant colSpan == old(colSpan) + Count(span[..i], '|')
        invariant rowSpan == old(rowSpan) + Count(span[..i], '-')
      {
        assert span[..i + 1][..i] == span[..i];
        if span[i] == '|' {
          colSpan := colSpan + 1;
        } else if span[i] == '-' {
          rowSpan := rowSpan + 1;
        }
        i := i + 1;
      }
      assert span[..i] == span;
      if colSpan > 1 {
        colSpan := colSpan - 1;
      }
      if rowSpan > 1 {
        rowSpan := rowSpan - 1;
      }
    }
  }

  /** The final decrement of `setSpan`. */
  function Lower(n: Span): Span
  {
    if n > 1 then n - 1 else n
  }

  /** The cells one element occupies: one, or `colSpan` slots holding the same cell. */
  function Slots(e: GridElement): (cs: seq<CellValue>)
    ensures |cs| >= 1
    ensures forall k :: 0 <= k < |cs| ==> cs[k].source == e.cell
  {
    match e
    case Plain(c) => [CellValue(c, 1, 1)]
    case Spanning(c, span) =>
      var cols := SpanOf(Count(span, '|'));
      seq(cols, _ => CellValue(c, SpanOf(Count(span, '-')), cols))
  }

  /** The cells of a row, element by element. */
  function Expand(es: seq<GridElement>): seq<CellValue>
  {
    if es == [] then [] else Expand(es[..|es| - 1]) + Slots(es[|es| - 1])
  }

  /** The number of columns an element covers. */
  function ElementWidth(e: GridElement): Span
  {
    if e.Plain? then 1 else SpanOf(Count(e.span, '|'))
  }

  /** The sum of the widths of the elements. */
  function TotalWidth(es: seq<GridElement>): nat
  {
    if es == [] then 0 else TotalWidth(es[..|es| - 1]) + ElementWidth(es[|es| - 1])
  }

  /** `getColumnCount` is the sum of the elements' column spans, and never below the element count. */
  lemma {:induction false} ExpandWidth(es: seq<GridElement>)
    ensures |Expand(es)| == TotalWidth(es)
    ensures |Expand(es)| >= |es|
  {
    if es != [] {
      ExpandWidth(es[..|es| - 1]);
    }
  }

  /** The cells `cs` hold the values `vs`, position by position. */
  ghost predicate Mirrors(cs: seq<GridCell>, vs: seq<CellValue>)
    reads cs
  {
    |cs| == |vs| && forall k :: 0 <= k < |cs| ==> cs[k].Value() == vs[k]
  }

  lemma MirrorsAppend(cs: seq<GridCell>, vs: seq<CellValue>, ds: seq<GridCell>, ws: seq<CellValue>)
    requires Mirrors(cs, vs) && Mirrors(ds, ws)
    ensures Mirrors(cs + ds, vs + ws)
  {
    forall k | 0 <= k < |cs + ds|
      ensures (cs + ds)[k].Value() == (vs + ws)[k]
    {
      if k >= |cs| {
        assert (cs + ds)[k] == ds[k - |cs|];
      }
    }
  }

  lemma ExpandStep(es: seq<GridElement>, i: nat)
    requires i < |es|
    ensures Expand(es[..i + 1]) == Expand(es[..i]) + Slots(es[i])
  {
    assert es[..i + 1][..i] == es[..i];
  }

  /**
   * The cells one element adds to its row: a new cell, or for a spanning
   * element `colSpan` references to one new cell whose span is set.
   */
  method ElementCells(e: GridElement) returns (gcs: seq<GridCell>)
    ensures Mirrors(gcs, Slots(e))
    ensures forall k :: 0 <= k < |gcs| ==> fresh(gcs[k])
    ensures forall k :: 0 <= k < |gcs| ==> gcs[k] == gcs[0]
  {
    var gc := new GridCell(e.cell);
    if e.Spanning? {
      gc.SetSpan(e.span);
      gcs := [];
      var ii := 0;
      while ii < gc.colSpan
        invariant 0 <= ii <= gc.colSpan
        invariant |gcs| == ii
        invariant forall k :: 0 <= k < ii ==> gcs[k] == gc
      {
        gcs := gcs + [gc];
        ii := ii + 1;
      }
    } else {
      gcs := [gc];
    }
  }

  class GeneralGridRow {
    const condition: string
    var cells: seq<GridCell>

    /**
     * The row constructor: a plain element adds one new cell; a spanning
     * element adds a new cell, sets its span and adds it `colSpan` times.
     */
    constructor(rd: RowData)
      ensures condition == rd.condition
      ensures Mirrors(cells, Expand(rd.elements))
      ensures forall k :: 0 <= k < |cells| ==> fresh(cells[k])
    {
      var cs: seq<GridCell> := [];
      var i := 0;
      while i < |rd.elements|
        invariant 0 <= i <= |rd.elements|
        invariant Mirrors(cs, Expand(rd.elements[..i]))
        invariant forall k :: 0 <= k < |cs| ==> fresh(cs[k])
      {
        ExpandStep(rd.elements, i);
        var gcs := ElementCells(rd.elements[i]);
        MirrorsAppend(cs, Expand(rd.elements[..i]), gcs, Slots(rd.elements[i]));
        cs := cs + gcs;
        i := i + 1;
      }
      assert rd.elements[..i] == rd.elements;
      condition := rd.condition;
      cells := cs;
    }

    function ColumnCount(): nat
      reads this
    {
      |cells|
    }
  }

  /** The rows of a group that carry data, in order. */
  function DataRows(rows: seq<Option<RowData>>): seq<RowData>
  {
    if rows == [] then []
    else
      var last := rows[|rows| - 1];
      DataRows(rows[..|rows| - 1]) + (if last.Some? then [last.value] else [])
  }

  /** The expanded cells of every data row. */
  function Table(ds: seq<RowData>): seq<seq<CellValue>>
  {
    seq(|ds|, r requires 0 <= r < |ds| => Expand(ds[r].elements))
  }

  /** The set of row widths the group collects. */
  function Widths(t: seq<seq<CellValue>>): set<nat>
  {
    set r | 0 <= r < |t| :: |t[r]|
  }

  /** The set holds one width exactly when there is a row and all rows are as wide as the first. */
  lemma SingleWidth(t: seq<seq<CellValue>>)
    ensures |Widths(t)| == 1 <==> |t| > 0 && forall r :: 0 <= r < |t| ==> |t[r]| == |t[0]|
  {
    var w := Widths(t);
    if |t| > 0 && forall r :: 0 <= r < |t| ==> |t[r]| == |t[0]| {
      assert w == {|t[0]|};
    }
    if |w| == 1 {
      var x :| x in w;
      assert w * {x} == {x};
      assert |w - {x}| == 0;
      assert |t[0]| in w;
      forall r | 0 <= r < |t|
        ensures |t[r]| == |t[0]|
      {
        assert |t[r]| in w;
      }
    }
  }

  /** Ceiling of `a / b`, the integer form of `Math.ceil(a / (double) b)`. */
  function CeilDiv(a: nat, b: Span): nat
  {
    (a + b - 1) / b
  }

  /** `CeilDiv(a, b)` is the least number of `b`-wide columns that hold `a` characters. */
  lemma CeilDivLeast(a: nat, b: Span)
    ensures CeilDiv(a, b) * b >= a
    ensures CeilDiv(a, b) == 0 || (CeilDiv(a, b) - 1) * b < a
  {
    var n := a + b - 1;
    assert n == (n / b) * b + n % b && 0 <= n % b < b;
  }

  /** The row-span indicator: the row span when it is above one, else nothing. */
  function RowSpanIndicator(rowSpan: Span): nat
  {
    if rowSpan > 1 then rowSpan else 0
  }

  /** The width one cell asks of each of the columns it spans. */
  function CellWidth(c: CellValue): nat
  {
    CeilDiv(|c.source.attributesPlain| + |Content(c.source)| + RowSpanIndicator(c.rowSpan), c.colSpan)
  }

  /** The widest demand on column `ii` over the rows of `t`, or 0. */
  function MaxCellWidth(t: seq<seq<CellValue>>, ii: nat): nat
  {
    if t == [] then 0
    else
      var last := t[|t| - 1];
      Max(MaxCellWidth(t[..|t| - 1], ii), if ii < |last| then CellWidth(last[ii]) else 0)
  }

  /** `MaxCellWidth` bounds every cell of the column and is 0 or the demand of one of them. */
  lemma {:induction false} MaxCellWidthIsMax(t: seq<seq<CellValue>>, ii: nat)
    ensures forall r :: 0 <= r < |t| && ii < |t[r]| ==> CellWidth(t[r][ii]) <= MaxCellWidth(t, ii)
    ensures MaxCellWidth(t, ii) == 0 || exists r :: 0 <= r < |t| && ii < |t[r]| && MaxCellWidth(t, ii) == CellWidth(t[r][ii])
  {
    if t != [] {
      var front := t[..|t| - 1];
      MaxCellWidthIsMax(front, ii);
      assert forall r :: 0 <= r < |front| ==> front[r] == t[r];
      if MaxCellWidth(t, ii) != 0 && MaxCellWidth(t, ii) == MaxCellWidth(front, ii) {
        var r :| 0 <= r < |front| && ii < |front[r]| && MaxCellWidth(front, ii) == CellWidth(front[r][ii]);
        assert ii < |t[r]| && MaxCellWidth(t, ii) == CellWidth(t[r][ii]);
      }
    }
  }

  /** Every cell of column `ii` renders as an integer. */
  predicate ColumnIsInteger(t: seq<seq<CellValue>>, ii: nat)
  {
    if t == [] then true
    else
      var last := t[|t| - 1];
      ColumnIsInteger(t[..|t| - 1], ii) && (ii < |last| ==> VisitorUtils.IntegerText(Content(last[ii].source), 10))
  }

  /** A column is integer exactly when every one of its cells renders as an integer. */
  lemma {:induction false} ColumnIsIntegerMeaning(t: seq<seq<CellValue>>, ii: nat)
    ensures ColumnIsInteger(t, ii) <==>
              forall r :: 0 <= r < |t| && ii < |t[r]| ==> VisitorUtils.IntegerText(Content(t[r][ii].source), 10)
  {
    if t != [] {
      ColumnIsIntegerMeaning(t[..|t| - 1], ii);
      assert forall r :: 0 <= r < |t| - 1 ==> t[..|t| - 1][r] == t[r];
    }
  }

  /** Every row's cell in the last of `lc` columns is empty. */
  predicate LastColumnEmpty(t: seq<seq<CellValue>>, lc: nat)
    ensures LastColumnEmpty(t, lc) <==> forall r :: 0 <= r < |t| && 0 < lc <= |t[r]| ==> Empty(t[r][lc - 1].source)
  {
    if t == [] then true
    else
      var last := t[|t| - 1];
      assert forall r :: 0 <= r < |t| - 1 ==> t[..|t| - 1][r] == t[r];
      LastColumnEmpty(t[..|t| - 1], lc) && (0 < lc <= |last| ==> Empty(last[lc - 1].source))
  }

  /** The longest rendered condition over the data rows, or 0. */
  function MaxConditionWidth(ds: seq<RowData>): nat
  {
    if ds == [] then 0 else Max(MaxConditionWidth(ds[..|ds| - 1]), |ds[|ds| - 1].condition|)
  }

  /** `MaxConditionWidth` bounds every row's condition and is 0 or the length of one of them. */
  lemma {:induction false} MaxConditionWidthIsMax(ds: seq<RowData>)
    ensures forall r :: 0 <= r < |ds| ==> |ds[r].condition| <= MaxConditionWidth(ds)
    ensures MaxConditionWidth(ds) == 0 || exists r :: 0 <= r < |ds| && MaxConditionWidth(ds) == |ds[r].condition|
  {
    if ds != [] {
      var front := ds[..|ds| - 1];
      MaxConditionWidthIsMax(front);
      assert forall r :: 0 <= r < |front| ==> front[r] == ds[r];
    }
  }


  /** The cells of `rows` hold the values `t`, row by row. */
  ghost predicate Holds(rows: seq<GeneralGridRow>, t: seq<seq<CellValue>>)
    reads set r | 0 <= r < |rows| :: rows[r]
    reads set r, k | 0 <= r < |rows| && 0 <= k < |rows[r].cells| :: rows[r].cells[k]
  {
    |rows| == |t| && forall r :: 0 <= r < |rows| ==> Mirrors(rows[r].cells, t[r])
  }

  function Max(a: int, b: int): int
  {
    if a < b then b else a
  }

  /** Adding row `r` to the rows before it updates each column's widest demand. */
  lemma MaxCellWidthStep(t: seq<seq<CellValue>>, r: nat, k: nat)
    requires r < |t|
    ensures MaxCellWidth(t[..r + 1], k) == Max(MaxCellWidth(t[..r], k), if k < |t[r]| then CellWidth(t[r][k]) else 0)
  {
    assert t[..r + 1][..r] == t[..r];
  }

  /** Adding row `r` to the rows before it keeps a column integer only if its new cell is. */
  lemma ColumnIsIntegerStep(t: seq<seq<CellValue>>, r: nat, k: nat)
    requires r < |t|
    ensures ColumnIsInteger(t[..r + 1], k) ==
              (ColumnIsInteger(t[..r], k) && (k < |t[r]| ==> VisitorUtils.IntegerText(Content(t[r][k].source), 10)))
  {
    assert t[..r + 1][..r] == t[..r];
  }

  /** Adding row `r` to the rows before it keeps the last column empty only if its last cell is. */
  lemma LastColumnEmptyStep(t: seq<seq<CellValue>>, r: nat, lc: nat)
    requires r < |t| && 0 < lc <= |t[r]|
    ensures LastColumnEmpty(t[..r + 1], lc) == (LastColumnEmpty(t[..r], lc) && Empty(t[r][lc - 1].source))
  {
    assert t[..r + 1][..r] == t[..r];
  }

  /**
   * The inner loop of the group constructor for one row: every cell
   * raises its column's width to its own demand and clears its column's
   * integer flag unless its content is an integer.
   */
  method AbsorbRow(row: GeneralGridRow, ghost cs: seq<CellValue>, widths: array<int>, integer: array<bool>)
    requires Mirrors(row.cells, cs) && |cs| == widths.Length == integer.Length
    modifies widths, integer
    ensures forall k :: 0 <= k < |cs| ==> widths[k] == Max(old(widths[k]), CellWidth(cs[k]))
    ensures forall k :: 0 <= k < |cs| ==>
              integer[k] == (old(integer[k]) && VisitorUtils.IntegerText(Content(cs[k].source), 10))
  {
    var ii := 0;
    while ii < |row.cells|
      invariant 0 <= ii <= |cs|
      invariant forall k :: 0 <= k < ii ==> widths[k] == Max(old(widths[k]), CellWidth(cs[k]))
      invariant forall k :: ii <= k < |cs| ==> widths[k] == old(widths[k])
      invariant forall k :: 0 <= k < ii ==>
                  integer[k] == (old(integer[k]) && VisitorUtils.IntegerText(Content(cs[k].source), 10))
      invariant forall k :: ii <= k < |cs| ==> integer[k] == old(integer[k])
    {
      var c := row.cells[ii].Value();
      var thisWidth := CellWidth(c);
      if widths[ii] < thisWidth {
        widths[ii] := thisWidth;
      }
      var b := VisitorUtils.IsDecimalInteger(Content(c.source));
      if !b {
        integer[ii] := false;
      }
      ii := ii + 1;
    }
  }

  /** Folding row `r` into the widths and flags of the rows before it gives those of the rows up to `r`. */
  method AddRow(row: GeneralGridRow, ghost t: seq<seq<CellValue>>, ghost r: nat, widths: array<int>, integer: array<bool>)
    requires r < |t| && Mirrors(row.cells, t[r]) && |t[r]| == widths.Length == integer.Length
    requires forall k :: 0 <= k < widths.Length ==> widths[k] == MaxCellWidth(t[..r], k)
    requires forall k :: 0 <= k < integer.Length ==> integer[k] == ColumnIsInteger(t[..r], k)
    modifies widths, integer
    ensures forall k :: 0 <= k < widths.Length ==> widths[k] == MaxCellWidth(t[..r + 1], k)
    ensures forall k :: 0 <= k < integer.Length ==> integer[k] == ColumnIsInteger(t[..r + 1], k)
  {
    AbsorbRow(row, t[r], widths, integer);
    forall k | 0 <= k < widths.Length
      ensures widths[k] == MaxCellWidth(t[..r + 1], k)
      ensures integer[k] == ColumnIsInteger(t[..r + 1], k)
    {
      MaxCellWidthStep(t, r, k);
      ColumnIsIntegerStep(t, r, k);
    }
  }

  /**
   * The loop of the group constructor over its rows: with a visitor every
   * row is folded into the widths and integer flags, and the last column
   * stays empty while every row's last cell is empty.
   */
  method ComputeColumns(rows: seq<GeneralGridRow>, lc: nat, hasVisitor: bool, ghost t: seq<seq<CellValue>>)
    returns (widths: array<int>, integer: array<bool>, lastColumnEmpty: bool)
    requires lc > 0
    requires Holds(rows, t)
    requires forall r :: 0 <= r < |t| ==> |t[r]| == lc
    ensures fresh(widths) && fresh(integer)
    ensures Folded(t, lc, hasVisitor, widths, integer, lastColumnEmpty)
  {
    widths := new int[lc](_ => 0);
    integer := new bool[lc](_ => true);
    lastColumnEmpty := true;
    var r := 0;
    while r < |rows|
      invariant 0 <= r <= |rows|
      invariant Folded(t[..r], lc, hasVisitor, widths, integer, lastColumnEmpty)
    {
      assert Mirrors(rows[r].cells, t[r]);
      lastColumnEmpty := FoldRow(rows[r], t, r, lc, hasVisitor, widths, integer, lastColumnEmpty);
      r := r + 1;
    }
    assert t[..r] == t;
  }

  /** The widths, flags and last-column state after folding in the rows of `t`. */
  ghost predicate Folded(t: seq<seq<CellValue>>, lc: nat, hasVisitor: bool,
                         widths: array<int>, integer: array<bool>, lastColumnEmpty: bool)
    reads widths, integer
  {
    && widths.Length == lc && integer.Length == lc
    && (forall k :: 0 <= k < lc ==> widths[k] == (if hasVisitor then MaxCellWidth(t, k) else 0))
    && (forall k :: 0 <= k < lc ==> integer[k] == (!hasVisitor || ColumnIsInteger(t, k)))
    && lastColumnEmpty == LastColumnEmpty(t, lc)
  }

  /** One pass of the constructor's row loop: the visitor part, then the last-cell check. */
  method FoldRow(row: GeneralGridRow, ghost t: seq<seq<CellValue>>, ghost r: nat, lc: nat, hasVisitor: bool,
                 widths: array<int>, integer: array<bool>, lastColumnEmpty: bool)
    returns (lastColumnEmpty': bool)
    requires r < |t| && |t[r]| == lc > 0 && Mirrors(row.cells, t[r])
    requires Folded(t[..r], lc, hasVisitor, widths, integer, lastColumnEmpty)
    modifies widths, integer
    ensures Folded(t[..r + 1], lc, hasVisitor, widths, integer, lastColumnEmpty')
  {
    var lastCell := row.cells[lc - 1];
    assert lastCell.source == t[r][lc - 1].source;
    if hasVisitor {
      AddRow(row, t, r, widths, integer);
    } else {
      assert t[..r + 1][..r] == t[..r];
    }
    LastColumnEmptyStep(t, r, lc);
    lastColumnEmpty' := lastColumnEmpty;
    if lastColumnEmpty' {
      if !Empty(lastCell.source) {
        lastColumnEmpty' := false;
      }
    }
  }

  class GeneralGridGroup {
    const rows: seq<GeneralGridRow>
    const columnCount: int
    const conditionColumnWidth: nat
    const columnWidths: array<int>
    const isInteger: array<bool>

    /**
     * The part of the group constructor after the column count is known:
     * with a visitor, each column's width is the widest demand of its
     * cells and its integer flag says every cell renders as an integer;
     * the column count drops by one when every row's last cell is empty.
     */
    constructor(rows: seq<GeneralGridRow>, lc: nat, hasVisitor: bool, conditionWidth: nat, ghost t: seq<seq<CellValue>>)
      requires lc > 0
      requires Holds(rows, t)
      requires forall r :: 0 <= r < |t| ==> |t[r]| == lc
      ensures this.rows == rows && conditionColumnWidth == conditionWidth
      ensures Computed(t, lc, hasVisitor)
    {
      var widths, integer, lastColumnEmpty := ComputeColumns(rows, lc, hasVisitor, t);
      this.rows := rows;
      conditionColumnWidth := conditionWidth;
      columnWidths := widths;
      isInteger := integer;
      columnCount := if lastColumnEmpty then lc - 1 else lc;
    }

    /**
     * The group's columns as computed from the cell values `t` of its
     * `lc`-wide rows: with a visitor each column is as wide as its widest
     * cell demand and integer when all its cells are; without one the
     * widths stay 0 and the flags true. The column count leaves out a
     * last column whose cells are all empty.
     */
    ghost predicate Computed(t: seq<seq<CellValue>>, lc: nat, hasVisitor: bool)
      reads this, columnWidths, isInteger
    {
      && columnWidths.Length == lc && isInteger.Length == lc
      && (forall k :: 0 <= k < lc ==> columnWidths[k] == (if hasVisitor then MaxCellWidth(t, k) else 0))
      && (forall k :: 0 <= k < lc ==> isInteger[k] == (!hasVisitor || ColumnIsInteger(t, k)))
      && columnCount == (if LastColumnEmpty(t, lc) then lc - 1 else lc)
    }
  }

  /** How building a group ends: a group, or the exception the source throws. */
  datatype GroupOutcome =
    | Built(group: GeneralGridGroup)
    | MultipleColumnSizes(sizes: set<nat>)
    | LastCellOutOfRange

  /** One more input row extends the data rows, their table, widths and widest condition. */
  lemma DataRowsStep(input: seq<Option<RowData>>, i: nat)
    requires i < |input|
    ensures var ds := DataRows(input[..i]);
      DataRows(input[..i + 1]) == if input[i].Some? then ds + [input[i].value] else ds
  {
    assert input[..i + 1][..i] == input[..i];
  }

  lemma TableStep(ds: seq<RowData>, rd: RowData)
    ensures Table(ds + [rd]) == Table(ds) + [Expand(rd.elements)]
    ensures Widths(Table(ds + [rd])) == Widths(Table(ds)) + {|Expand(rd.elements)|}
    ensures MaxConditionWidth(ds + [rd]) == Max(MaxConditionWidth(ds), |rd.condition|)
  {
    var t, t' := Table(ds), Table(ds + [rd]);
    assert t' == t + [Expand(rd.elements)];
    assert (ds + [rd])[..|ds|] == ds;
    forall w | w in Widths(t')
      ensures w in Widths(t) + {|Expand(rd.elements)|}
    {
      var r :| 0 <= r < |t'| && w == |t'[r]|;
      if r < |t| {
        assert w == |t[r]|;
      }
    }
    forall w | w in Widths(t) + {|Expand(rd.elements)|}
      ensures w in Widths(t')
    {
      if w in Widths(t) {
        var r :| 0 <= r < |t| && w == |t[r]|;
        assert w == |t'[r]|;
      } else {
        assert w == |t'[|t|]|;
      }
    }
  }

  /** Builds the row of `rd` and appends it, keeping the earlier rows' cells as they were. */
  method AppendRow(rows: seq<GeneralGridRow>, ghost t: seq<seq<CellValue>>, rd: RowData)
    returns (rows': seq<GeneralGridRow>, ggr: GeneralGridRow)
    requires Holds(rows, t)
    ensures rows' == rows + [ggr] && ggr.condition == rd.condition
    ensures ggr.ColumnCount() == |Expand(rd.elements)|
    ensures Holds(rows', t + [Expand(rd.elements)])
  {
    ggr := new GeneralGridRow(rd);
    rows' := rows + [ggr];
  }

  /**
   * The first loop of the group constructor: a row is built from every
   * row with data, and its width and (with a visitor) the length of its
   * rendered condition are collected.
   */
  method CollectRows(input: seq<Option<RowData>>, hasVisitor: bool)
    returns (rows: seq<GeneralGridRow>, lengths: set<nat>, conditionWidth: nat)
    ensures Holds(rows, Table(DataRows(input)))
    ensures lengths == Widths(Table(DataRows(input)))
    ensures conditionWidth == if hasVisitor then MaxConditionWidth(DataRows(input)) else 0
  {
    rows, lengths, conditionWidth := [], {}, 0;
    var i := 0;
    while i < |input|
      invariant 0 <= i <= |input|
      invariant lengths == Widths(Table(DataRows(input[..i])))
      invariant conditionWidth == if hasVisitor then MaxConditionWidth(DataRows(input[..i])) else 0
      invariant Holds(rows, Table(DataRows(input[..i])))
    {
      ghost var ds := DataRows(input[..i]);
      DataRowsStep(input, i);
      if input[i].Some? {
        var rd := input[i].value;
        TableStep(ds, rd);
        var ggr;
        rows, ggr := AppendRow(rows, Table(ds), rd);
        if hasVisitor && conditionWidth < |ggr.condition| {
          conditionWidth := |ggr.condition|;
        }
        lengths := lengths + {ggr.ColumnCount()};
        assert DataRows(input[..i + 1]) == ds + [rd];
      } else {
        assert DataRows(input[..i + 1]) == ds;
      }
      i := i + 1;
    }
    assert input[..i] == input;
  }

  /**
   * The `GeneralGridGroup` constructor: builds a row from every row with
   * data and collects the rows' widths and, with a visitor, the widest
   * rendered condition. It fails unless exactly one width occurs (so also
   * when there is no data row), and fails when that width is zero, since
   * the last cell is then looked up at index -1. Otherwise the columns'
   * widths, integer flags and count are computed from the rows.
   */
  method BuildGroup(input: seq<Option<RowData>>, hasVisitor: bool) returns (outcome: GroupOutcome)
    ensures var t := Table(DataRows(input));
      && (outcome.MultipleColumnSizes? <==> |Widths(t)| != 1)
      && (outcome.MultipleColumnSizes? ==> outcome.sizes == Widths(t))
      && (outcome.LastCellOutOfRange? <==> Widths(t) == {0})
    ensures outcome.Built? ==>
      var ds := DataRows(input);
      var t := Table(ds);
      && fresh(outcome.group) && |t| > 0 && |t[0]| > 0
      && (forall r :: 0 <= r < |t| ==> |t[r]| == |t[0]|)
      && Holds(outcome.group.rows, t)
      && outcome.group.conditionColumnWidth == (if hasVisitor then MaxConditionWidth(ds) else 0)
      && outcome.group.Computed(t, |t[0]|, hasVisitor)
  {
    var rows, lengths, conditionWidth := CollectRows(input, hasVisitor);
    ghost var ds := DataRows(input);
    ghost var t := Table(ds);
    SingleWidth(t);
    if |lengths| != 1 {
      return MultipleColumnSizes(lengths);
    }
    assert lengths == {|t[0]|} by {
      assert |t[0]| in lengths;
    }
    var lc :| lc in lengths;
    if lc == 0 {
      return LastCellOutOfRange;
    }
    var g := new GeneralGridGroup(rows, lc, hasVisitor, conditionWidth, t);
    return Built(g);
  }
}
