/**
 * Record sets of the SAMX toolchain: a header row naming the columns,
 * then record rows whose separators (rows without data) split the data
 * rows into groups, and the column widths a renderer needs to align them.
 *
 * A flow or condition is carried as the text the rendering visitor
 * produces for it; a Java null is `None`.
 */
module RecordSets {
  import opened Options

  /** The parse tree of a header row: its column names. */
  datatype HeaderRowContext = HeaderRowContext(names: seq<string>)

  /** The parse tree of a record: an optional condition and one optional flow per cell. */
  datatype RecordDataContext = RecordDataContext(condition: Option<string>, optionalFlows: seq<Option<string>>)

  /** A record row: data, or a separator when there is none. */
  datatype RecordRowContext = RecordRowContext(recordData: Option<RecordDataContext>)

  datatype RecordHeader = RecordHeader(columns: seq<string>)

  datatype RecordData = RecordData(condition: Option<string>, flows: seq<Option<string>>)

  /** `RecordHeader(ctx)`: the column names, in order. */
  method NewRecordHeader(ctx: HeaderRowContext) returns (h: RecordHeader)
    ensures |h.columns| == |ctx.names|
    ensures forall ii :: 0 <= ii < |ctx.names| ==> h.columns[ii] == ctx.names[ii]
  {
    var columns: seq<string> := [];
    var i := 0;
    while i < |ctx.names|
      invariant 0 <= i <= |ctx.names|
      invariant columns == ctx.names[..i]
    {
      columns := columns + [ctx.names[i]];
      i := i + 1;
    }
    assert ctx.names[..i] == ctx.names;
    h := RecordHeader(columns);
  }

  /** `RecordData(ctx)`: the condition, and one entry per optional cell, absent flows included, in order. */
  method NewRecordData(ctx: RecordDataContext) returns (rd: RecordData)
    ensures rd.condition == ctx.condition
    ensures |rd.flows| == |ctx.optionalFlows|
    ensures forall ii :: 0 <= ii < |ctx.optionalFlows| ==> rd.flows[ii] == ctx.optionalFlows[ii]
  {
    var flows: seq<Option<string>> := [];
    var i := 0;
    while i < |ctx.optionalFlows|
      invariant 0 <= i <= |ctx.optionalFlows|
      invariant flows == ctx.optionalFlows[..i]
    {
      flows := flows + [ctx.optionalFlows[i]];
      i := i + 1;
    }
    assert ctx.optionalFlows[..i] == ctx.optionalFlows;
    rd := RecordData(ctx.condition, flows);
  }

  /** `visitRecordRow`: the row's record, or nothing for a separator. */
  method VisitRecordRow(ctx: RecordRowContext) returns (rd: Option<RecordData>)
    ensures rd.None? <==> ctx.recordData.None?
    ensures rd.Some? ==>
              rd.value.condition == ctx.recordData.value.condition && rd.value.flows == ctx.recordData.value.optionalFlows
  {
    if ctx.recordData.Some? {
      var d := NewRecordData(ctx.recordData.value);
      return Some(d);
    }
    return None;
  }

  /** The record of a row, as `visitRecordRow` builds it. */
  function RecordOf(ctx: RecordRowContext): Option<RecordData>
  {
    if ctx.recordData.Some? then
      Some(RecordData(ctx.recordData.value.condition, ctx.recordData.value.optionalFlows))
    else None
  }

  /**
   * The state of the grouping loop after some rows: the finished groups
   * and the group being filled. A separator closes a non-empty group; a
   * separator after an empty one does nothing.
   */
  function Split(rows: seq<Option<RecordData>>): (seq<seq<RecordData>>, seq<RecordData>)
  {
    if rows == [] then ([], [])
    else
      var (done, current) := Split(rows[..|rows| - 1]);
      var last := rows[|rows| - 1];
      if last.None? then
        if current == [] then (done, current) else (done + [current], [])
      else (done, current + [last.value])
  }

  lemma SplitStep(rows: seq<Option<RecordData>>, i: nat)
    requires i < |rows|
    ensures var (done, current) := Split(rows[..i]);
      Split(rows[..i + 1]) ==
        if rows[i].Some? then (done, current + [rows[i].value])
        else if current == [] then (done, current)
        else (done + [current], [])
  {
    assert rows[..i + 1][..i] == rows[..i];
  }

  /** The groups of a record set: the finished groups, then the last one unless it is empty. */
  function Groups(rows: seq<Option<RecordData>>): seq<seq<RecordData>>
  {
    var (done, current) := Split(rows);
    if current == [] then done else done + [current]
  }

  /** The records among the rows, in order. */
  function DataOf(rows: seq<Option<RecordData>>): seq<RecordData>
  {
    if rows == [] then []
    else DataOf(rows[..|rows| - 1]) + (if rows[|rows| - 1].Some? then [rows[|rows| - 1].value] else [])
  }

  function Flatten<T>(gs: seq<seq<T>>): seq<T>
  {
    if gs == [] then [] else Flatten(gs[..|gs| - 1]) + gs[|gs| - 1]
  }

  lemma FlattenAppend<T>(gs: seq<seq<T>>, hs: seq<seq<T>>)
    ensures Flatten(gs + hs) == Flatten(gs) + Flatten(hs)
  {
    if hs != [] {
      assert (gs + hs)[..|gs + hs| - 1] == gs + hs[..|hs| - 1];
      FlattenAppend(gs, hs[..|hs| - 1]);
    } else {
      assert gs + hs == gs;
    }
  }

  /** The loop state never holds an empty finished group, and holds exactly the records so far. */
  lemma {:induction false} SplitInvariant(rows: seq<Option<RecordData>>)
    ensures forall g :: 0 <= g < |Split(rows).0| ==> Split(rows).0[g] != []
    ensures Flatten(Split(rows).0) + Split(rows).1 == DataOf(rows)
  {
    if rows != [] {
      var front := rows[..|rows| - 1];
      SplitInvariant(front);
      var (done, current) := Split(front);
      if rows[|rows| - 1].None? && current != [] {
        FlattenAppend(done, [current]);
        assert Flatten([current]) == Flatten([current][..0]) + current;
      }
    }
  }

  /** No group is empty: leading, trailing and repeated separators make none. */
  lemma GroupsNonEmpty(rows: seq<Option<RecordData>>)
    ensures forall g :: 0 <= g < |Groups(rows)| ==> Groups(rows)[g] != []
  {
    SplitInvariant(rows);
  }

  /** Concatenating the groups gives back the records, in input order. */
  lemma GroupsFlatten(rows: seq<Option<RecordData>>)
    ensures Flatten(Groups(rows)) == DataOf(rows)
  {
    SplitInvariant(rows);
    var (done, current) := Split(rows);
    if current != [] {
      FlattenAppend(done, [current]);
      assert Flatten([current]) == Flatten([current][..0]) + current;
    }
  }

  /** Rows after a closed group are grouped as if they stood alone. */
  lemma {:induction false} SplitAfterClosed(a: seq<Option<RecordData>>, b: seq<Option<RecordData>>)
    requires Split(a).1 == []
    ensures Split(a + b) == (Split(a).0 + Split(b).0, Split(b).1)
  {
    if b == [] {
      assert a + b == a;
      assert Split(b) == ([], []);
      assert Split(a).0 + [] == Split(a).0;
    } else {
      var b' := b[..|b| - 1];
      SplitAfterClosed(a, b');
      assert (a + b)[..|a + b| - 1] == a + b';
      assert (a + b)[|a + b| - 1] == b[|b| - 1];
      var (d, c) := Split(b');
      assert Split(a + b') == (Split(a).0 + d, c);
      if b[|b| - 1].None? && c != [] {
        assert Split(a + b) == (Split(a).0 + d + [c], []);
        assert Split(b) == (d + [c], []);
        assert Split(a).0 + d + [c] == Split(a).0 + (d + [c]);
      }
    }
  }

  /** A separator starts a new group: the rows on either side are grouped independently. */
  lemma SeparatorSplits(a: seq<Option<RecordData>>, b: seq<Option<RecordData>>)
    ensures Groups(a + [None] + b) == Groups(a) + Groups(b)
  {
    var a' := a + [None];
    assert a'[..|a'| - 1] == a;
    assert Split(a').0 == Groups(a) && Split(a').1 == [];
    SplitAfterClosed(a', b);
    assert a + [None] + b == a' + b;
  }

  class RecordDataGroup {
    var rows: seq<RecordData>

    constructor()
      ensures rows == []
    {
      rows := [];
    }
  }

  /** The rows of each group, in order. */
  function RowsOf(gs: seq<RecordDataGroup>): (rs: seq<seq<RecordData>>)
    reads gs
    ensures |rs| == |gs|
  {
    if gs == [] then [] else RowsOf(gs[..|gs| - 1]) + [gs[|gs| - 1].rows]
  }

  lemma RowsOfStep(gs: seq<RecordDataGroup>, g: RecordDataGroup)
    ensures RowsOf(gs + [g]) == RowsOf(gs) + [g.rows]
  {
    assert (gs + [g])[..|gs|] == gs;
  }

  class RecordSet {
    var header: RecordHeader
    var groups: seq<RecordDataGroup>

    constructor(header: RecordHeader)
      ensures this.header == header && groups == []
    {
      this.header := header;
      groups := [];
    }

    function Contents(): seq<seq<RecordData>>
      reads this, groups
    {
      RowsOf(groups)
    }

    /** A separator after a non-empty group: the group joins the record set. */
    method CloseGroup(rdg: RecordDataGroup)
      modifies this
      ensures header == old(header) && groups == old(groups) + [rdg]
      ensures Contents() == old(Contents()) + [rdg.rows]
    {
      RowsOfStep(groups, rdg);
      groups := groups + [rdg];
    }

    /** A record joins the open group, which is not yet part of the record set. */
    method AddRecord(rdg: RecordDataGroup, rd: RecordData)
      requires rdg !in groups
      modifies rdg
      ensures rdg.rows == old(rdg.rows) + [rd]
      ensures Contents() == old(Contents())
    {
      rdg.rows := rdg.rows + [rd];
    }

    /**
     * `computeColumnWidths`: one entry per header column, holding the
     * longest of the column's name and its cells' rendered flows, then one
     * holding the longest rendered condition (0 when no row has one). A
     * record with fewer cells than the header has columns makes the source
     * fail with an index out of range, here `None`.
     */
    method ComputeColumnWidths() returns (r: Option<array<int>>)
      ensures var rows := Flatten(Contents());
        r.None? <==> exists q :: 0 <= q < |rows| && |rows[q].flows| < |header.columns|
      ensures r.Some? ==> fresh(r.value) && Measured(header.columns, Flatten(Contents()), r.value)
    {
      var columnWidths := HeaderWidths(header.columns);
      var ok := MeasureGroups(header.columns, Contents(), columnWidths);
      if !ok {
        return None;
      }
      return Some(columnWidths);
    }
  }

  /** The width array before any row is seen: each column's name length, and 0 for the condition. */
  method HeaderWidths(columns: seq<string>) returns (widths: array<int>)
    ensures fresh(widths)
    ensures Measured(columns, [], widths)
  {
    widths := new int[|columns| + 1](_ => 0);
    var ii := 0;
    while ii < |columns|
      invariant 0 <= ii <= |columns|
      invariant forall k :: 0 <= k < ii ==> widths[k] == |columns[k]|
      invariant forall k :: ii <= k <= |columns| ==> widths[k] == 0
    {
      widths[ii] := |columns[ii]|;
      ii := ii + 1;
    }
  }

  /** The loop over the record set's groups, stopping at the first short row. */
  method MeasureGroups(columns: seq<string>, gs: seq<seq<RecordData>>, widths: array<int>)
    returns (ok: bool)
    requires Measured(columns, [], widths)
    modifies widths
    ensures ok <==> Fine(Flatten(gs), |columns|)
    ensures ok ==> Measured(columns, Flatten(gs), widths)
  {
    var g := 0;
    while g < |gs|
      invariant 0 <= g <= |gs|
      invariant Fine(Flatten(gs[..g]), |columns|)
      invariant Measured(columns, Flatten(gs[..g]), widths)
    {
      FlattenStep(gs, g);
      ok := MeasureGroup(columns, Flatten(gs[..g]), gs[g], widths);
      if !ok {
        ShortStaysShort(Flatten(gs[..g + 1]), Flatten(gs), gs, g + 1);
        FinePrefix(Flatten(gs[..g + 1]), Flatten(gs)[|Flatten(gs[..g + 1])|..], |columns|);
        assert Flatten(gs) == Flatten(gs[..g + 1]) + Flatten(gs)[|Flatten(gs[..g + 1])|..];
        return false;
      }
      g := g + 1;
    }
    assert gs[..g] == gs;
    return true;
  }

  lemma FlattenStep<T>(gs: seq<seq<T>>, g: nat)
    requires g < |gs|
    ensures Flatten(gs[..g + 1]) == Flatten(gs[..g]) + gs[g]
  {
    assert gs[..g + 1][..g] == gs[..g];
  }

  /** Once some row is short, every longer run of groups has a short row. */
  lemma ShortStaysShort(prefix: seq<RecordData>, all: seq<RecordData>, gs: seq<seq<RecordData>>, g: nat)
    requires g <= |gs| && prefix == Flatten(gs[..g]) && all == Flatten(gs)
    ensures |prefix| <= |all| && all[..|prefix|] == prefix
  {
    assert gs == gs[..g] + gs[g..];
    FlattenAppend(gs[..g], gs[g..]);
  }

  /** Every row has a cell for each of the `n` columns. */
  predicate Fine(rows: seq<RecordData>, n: nat)
  {
    forall q :: 0 <= q < |rows| ==> |rows[q].flows| >= n
  }

  /** The widest rendered flow of column `ii` over the rows, or 0. */
  function MaxFlowWidth(rows: seq<RecordData>, ii: nat): nat
  {
    if rows == [] then 0
    else
      var last := rows[|rows| - 1];
      var here := if ii < |last.flows| && last.flows[ii].Some? then |last.flows[ii].value| else 0;
      var prev := MaxFlowWidth(rows[..|rows| - 1], ii);
      if prev < here then here else prev
  }

  /** The widest rendered condition over the rows, or 0. */
  function MaxConditionWidth(rows: seq<RecordData>): nat
  {
    if rows == [] then 0
    else
      var last := rows[|rows| - 1];
      var here := if last.condition.Some? then |last.condition.value| else 0;
      var prev := MaxConditionWidth(rows[..|rows| - 1]);
      if prev < here then here else prev
  }

  /** The widths `computeColumnWidths` gives for the header `columns` and records `rows`. */
  ghost predicate Measured(columns: seq<string>, rows: seq<RecordData>, widths: array<int>)
    reads widths
  {
    && widths.Length == |columns| + 1
    && (forall k :: 0 <= k < |columns| ==> widths[k] == Larger(|columns[k]|, MaxFlowWidth(rows, k)))
    && widths[|columns|] == MaxConditionWidth(rows)
  }

  function Larger(a: int, b: int): int
  {
    if a < b then b else a
  }

  /** `MaxFlowWidth` bounds every present flow of the column and is 0 or the length of one of them. */
  lemma {:induction false} MaxFlowWidthIsMax(rows: seq<RecordData>, ii: nat)
    ensures forall q :: 0 <= q < |rows| && ii < |rows[q].flows| && rows[q].flows[ii].Some? ==>
              |rows[q].flows[ii].value| <= MaxFlowWidth(rows, ii)
    ensures MaxFlowWidth(rows, ii) == 0 ||
              exists q :: 0 <= q < |rows| && ii < |rows[q].flows| && rows[q].flows[ii].Some? &&
                MaxFlowWidth(rows, ii) == |rows[q].flows[ii].value|
  {
    if rows != [] {
      var front := rows[..|rows| - 1];
      MaxFlowWidthIsMax(front, ii);
      assert forall q :: 0 <= q < |front| ==> front[q] == rows[q];
    }
  }

  /** `MaxConditionWidth` bounds every present condition and is 0 or the length of one of them. */
  lemma {:induction false} MaxConditionWidthIsMax(rows: seq<RecordData>)
    ensures forall q :: 0 <= q < |rows| && rows[q].condition.Some? ==>
              |rows[q].condition.value| <= MaxConditionWidth(rows)
    ensures MaxConditionWidth(rows) == 0 ||
              exists q :: 0 <= q < |rows| && rows[q].condition.Some? &&
                MaxConditionWidth(rows) == |rows[q].condition.value|
  {
    if rows != [] {
      var front := rows[..|rows| - 1];
      MaxConditionWidthIsMax(front);
      assert forall q :: 0 <= q < |front| ==> front[q] == rows[q];
    }
  }

  /**
   * The loop over one group's records: each record widens the columns of
   * its present flows and the condition column. It stops with `false` at
   * the first record with fewer cells than there are columns.
   */
  method MeasureGroup(columns: seq<string>, ghost before: seq<RecordData>, rows: seq<RecordData>, widths: array<int>)
    returns (ok: bool)
    requires Fine(before, |columns|)
    requires Measured(columns, before, widths)
    modifies widths
    ensures ok <==> Fine(before + rows, |columns|)
    ensures ok ==> Measured(columns, before + rows, widths)
  {
    var r := 0;
    assert before + rows[..0] == before;
    while r < |rows|
      invariant 0 <= r <= |rows|
      invariant Fine(before + rows[..r], |columns|)
      invariant Measured(columns, before + rows[..r], widths)
    {
      SnocSlice(before, rows, r);
      FineStep(before + rows[..r], rows[r], |columns|);
      ok := MeasureRecord(columns, before + rows[..r], rows[r], widths);
      if !ok {
        FinePrefix(before + rows[..r + 1], rows[r + 1..], |columns|);
        assert before + rows == before + rows[..r + 1] + rows[r + 1..];
        return false;
      }
      r := r + 1;
    }
    assert rows[..r] == rows;
    return true;
  }

  lemma SnocSlice<T>(before: seq<T>, rows: seq<T>, r: nat)
    requires r < |rows|
    ensures before + rows[..r + 1] == (before + rows[..r]) + [rows[r]]
  {
    assert rows[..r + 1] == rows[..r] + [rows[r]];
  }

  lemma FineStep(s: seq<RecordData>, x: RecordData, n: nat)
    ensures Fine(s + [x], n) <==> Fine(s, n) && |x.flows| >= n
  {
    assert forall q :: 0 <= q < |s| ==> (s + [x])[q] == s[q];
    assert (s + [x])[|s|] == x;
  }

  lemma FinePrefix(s: seq<RecordData>, t: seq<RecordData>, n: nat)
    ensures Fine(s + t, n) ==> Fine(s, n)
  {
    assert forall q :: 0 <= q < |s| ==> (s + t)[q] == s[q];
  }

  /** One record: the loop over its cells, then the condition. */
  method MeasureRecord(columns: seq<string>, ghost before: seq<RecordData>, rd: RecordData, widths: array<int>)
    returns (ok: bool)
    requires Measured(columns, before, widths)
    modifies widths
    ensures ok <==> |rd.flows| >= |columns|
    ensures ok ==> Measured(columns, before + [rd], widths)
  {
    var columnCount := |columns|;
    var after := before + [rd];
    assert after[..|after| - 1] == before;
    var ii := 0;
    while ii < columnCount
      invariant 0 <= ii <= columnCount && ii <= |rd.flows|
      invariant forall k :: 0 <= k < ii ==> widths[k] == Larger(|columns[k]|, MaxFlowWidth(after, k))
      invariant forall k :: ii <= k < columnCount ==> widths[k] == Larger(|columns[k]|, MaxFlowWidth(before, k))
      invariant widths[columnCount] == MaxConditionWidth(before)
    {
      if ii >= |rd.flows| {
        return false;
      }
      var fc := rd.flows[ii];
      if fc.Some? {
        var rendered := fc.value;
        if widths[ii] < |rendered| {
          widths[ii] := |rendered|;
        }
      }
      ii := ii + 1;
    }
    if rd.condition.Some? {
      var renderedCondition := rd.condition.value;
      if widths[columnCount] < |renderedCondition| {
        widths[columnCount] := |renderedCondition|;
      }
    }
    return true;
  }

  /**
   * `visitRecordSet`: the header, then the records grouped: a separator
   * closes the current group if it has records, and a last non-empty
   * group is added at the end.
   */
  method VisitRecordSet(headerRow: HeaderRowContext, recordRows: seq<RecordRowContext>) returns (rs: RecordSet)
    ensures fresh(rs) && rs.header.columns == headerRow.names
    ensures rs.Contents() == Groups(seq(|recordRows|, q requires 0 <= q < |recordRows| => RecordOf(recordRows[q])))
  {
    var header := NewRecordHeader(headerRow);
    assert header.columns == headerRow.names;
    rs := new RecordSet(header);
    var rdg := new RecordDataGroup();
    ghost var rows := seq(|recordRows|, q requires 0 <= q < |recordRows| => RecordOf(recordRows[q]));
    var i := 0;
    while i < |recordRows|
      invariant 0 <= i <= |recordRows|
      invariant fresh(rdg) && rdg !in rs.groups
      invariant rs.header.columns == headerRow.names
      invariant rs.Contents() == Split(rows[..i]).0
      invariant rdg.rows == Split(rows[..i]).1
    {
      SplitStep(rows, i);
      var rd := VisitRecordRow(recordRows[i]);
      assert rd == rows[i];
      if rd.None? {
        if rdg.rows != [] {
          rs.CloseGroup(rdg);
          rdg := new RecordDataGroup();
        }
      } else {
        rs.AddRecord(rdg, rd.value);
      }
      i := i + 1;
    }
    assert rows[..i] == rows;
    if rdg.rows != [] {
      rs.CloseGroup(rdg);
    }
  }
}
