/**
 * The C++ header generator's layout arithmetic: the members of a
 * `structure` record set with their bit offsets and the structure's size,
 * and the fields of a `bitfield` record set.
 */
module CppLayout {
  import opened Options
  import Conditions

  /** The `unitWidths` table: the header's first column name chooses the storage unit. */
  function UnitWidth(header: string): (w: nat)
    ensures w == 0 || w == 8 || w == 16 || w == 32 || w == 64
  {
    var table := map["_8_bit" := 8, "_16_bit" := 16, "_32_bit" := 32, "_64_bit" := 64];
    if header in table then table[header] else 0
  }

  /** Only the four unit names give a non-zero width, each its own. */
  lemma UnitWidthNames(header: string)
    ensures UnitWidth(header) == 8 <==> header == "_8_bit"
    ensures UnitWidth(header) == 16 <==> header == "_16_bit"
    ensures UnitWidth(header) == 32 <==> header == "_32_bit"
    ensures UnitWidth(header) == 64 <==> header == "_64_bit"
    ensures UnitWidth(header) == 0 <==> header !in {"_8_bit", "_16_bit", "_32_bit", "_64_bit"}
  {
  }

  /** The number a string of decimal digits denotes, most significant digit first. */
  function DigitsValue(t: string): nat
  {
    if t == [] then 0
    else DigitsValue(t[..|t| - 1]) * 10 + (if '0' <= t[|t| - 1] <= '9' then (t[|t| - 1] - '0') as int else 0)
  }

  /** The decimal digits of `n`, as `%d` prints a non-negative number: no leading zero except for 0 itself. */
  function DecimalText(n: nat): (t: string)
    ensures |t| >= 1
    ensures forall k :: 0 <= k < |t| ==> '0' <= t[k] <= '9'
    ensures DigitsValue(t) == n
    ensures t[0] == '0' ==> n == 0
  {
    var last := ['0' + (n % 10) as char];
    if n < 10 then last
    else
      var front := DecimalText(n / 10);
      assert (front + last)[..|front|] == front;
      front + last
  }

  /**
   * The cells of a structure row after text extraction: `None` for an
   * absent integer cell, the plain text of the others, and the reference
   * named by a `bitfield` type cell.
   */
  datatype MemberCells = MemberCells(
    unitOffset: Option<int>, width: Option<int>, localType: string,
    bitFieldName: string, field: string, name: string, description: string)

  /** A record row of a structure: its condition and cells; separators are `None`. */
  datatype StructureRow = StructureRow(condition: Option<Conditions.Condition>, cells: MemberCells)

  /** `StructureMember`: its final fields. */
  datatype StructureMember = StructureMember(
    unitWidth: nat, unitOffset: int, width: int, bitOffset: int,
    typeName: string, field: string, name: string, description: string)

  /** `getInt`: the cell's number, or -1 when the cell is empty. */
  function GetInt(cell: Option<int>): (n: int)
    ensures cell.None? ==> n == -1
    ensures cell.Some? ==> n == cell.value
  {
    if cell.Some? then cell.value else -1
  }

  /** The `StructureMember` constructor. */
  function NewMember(cells: MemberCells, bitOffset: int, unitWidth: nat): (m: StructureMember)
    ensures m.unitOffset == GetInt(cells.unitOffset) && m.width == GetInt(cells.width)
    ensures m.bitOffset == bitOffset && m.unitWidth == unitWidth
    ensures m.typeName == if cells.localType == "bitfield" then cells.bitFieldName else cells.localType
    ensures m.field == cells.field && m.name == cells.name && m.description == cells.description
  {
    StructureMember(
      unitWidth, GetInt(cells.unitOffset), GetInt(cells.width), bitOffset,
      if cells.localType == "bitfield" then cells.bitFieldName else cells.localType,
      cells.field, cells.name, cells.description)
  }

  predicate IsNative(m: StructureMember)
  {
    m.typeName == "unsigned"
  }

  /** `getType`: a native member's type is the unsigned integer of the unit's width. */
  function TypeOf(m: StructureMember): (t: string)
    ensures IsNative(m) ==> |t| >= 7 && t[..4] == "uint" && t[|t| - 2..] == "_t" && DigitsValue(t[4..|t| - 2]) == m.unitWidth
    ensures !IsNative(m) ==> t == m.typeName
  {
    if IsNative(m) then "uint" + DecimalText(m.unitWidth) + "_t" else m.typeName
  }

  /** For the four units `unsigned` names the fixed-width types; every other type passes through. */
  lemma TypeOfUnits(m: StructureMember)
    ensures IsNative(m) && m.unitWidth == 8 ==> TypeOf(m) == "uint8_t"
    ensures IsNative(m) && m.unitWidth == 16 ==> TypeOf(m) == "uint16_t"
    ensures IsNative(m) && m.unitWidth == 32 ==> TypeOf(m) == "uint32_t"
    ensures IsNative(m) && m.unitWidth == 64 ==> TypeOf(m) == "uint64_t"
    ensures IsNative(m) && m.unitWidth == 0 ==> TypeOf(m) == "uint0_t"
    ensures !IsNative(m) ==> TypeOf(m) == m.typeName
    ensures TypeOf(m) != "unsigned"
  {
    if IsNative(m) {
      var d := DecimalText(m.unitWidth);
      assert TypeOf(m) == "uint" + d + "_t";
      assert TypeOf(m)[4] == d[0] && TypeOf(m)[4] != 'n';
      if m.unitWidth == 8 || m.unitWidth == 0 {
        assert d == [DecimalText(m.unitWidth)[0]];
      } else if m.unitWidth in {16, 32, 64} {
        assert d == DecimalText(m.unitWidth / 10) + [d[|d| - 1]];
      }
    }
  }

  /** The cells of the rows that contribute a member: record rows whose condition does not disable them. */
  function Enabled(s: Conditions.Settings, rows: seq<Option<StructureRow>>): seq<MemberCells>
  {
    if rows == [] then []
    else
      var last := rows[|rows| - 1];
      Enabled(s, rows[..|rows| - 1]) +
      (if last.Some? && !Conditions.IsDisabled(s, last.value.condition) then [last.value.cells] else [])
  }

  lemma EnabledStep(s: Conditions.Settings, rows: seq<Option<StructureRow>>, i: nat)
    requires i < |rows|
    ensures Enabled(s, rows[..i + 1]) ==
      Enabled(s, rows[..i]) +
      (if rows[i].Some? && !Conditions.IsDisabled(s, rows[i].value.condition) then [rows[i].value.cells] else [])
  {
    assert rows[..i + 1][..i] == rows[..i];
  }

  /** Separators and disabled rows add nothing; without conditions, every record row is a member. */
  lemma {:induction false} EnabledRows(s: Conditions.Settings, rows: seq<Option<StructureRow>>)
    ensures |Enabled(s, rows)| <= |rows|
    ensures (forall k :: 0 <= k < |rows| ==> rows[k].Some? && rows[k].value.condition.None?) ==>
      Enabled(s, rows) == seq(|rows|, k requires 0 <= k < |rows| => rows[k].value.cells)
  {
    if rows != [] {
      var init := rows[..|rows| - 1];
      EnabledRows(s, init);
      if forall k :: 0 <= k < |rows| ==> rows[k].Some? && rows[k].value.condition.None? {
        assert forall k :: 0 <= k < |init| ==> init[k] == rows[k];
      }
    }
  }

  /** Appending the running bit offset to a member's width: the offset restarts only at exactly 32. */
  function Wrap(sum: int): int
  {
    if sum == 32 then 0 else sum
  }

  /** The bit offset after the members of `cs`, starting from 0. */
  function RunningOffset(cs: seq<MemberCells>): int
  {
    if cs == [] then 0
    else Wrap(RunningOffset(cs[..|cs| - 1]) + GetInt(cs[|cs| - 1].width))
  }

  /** The members of `cs`, each at the offset the ones before it leave. */
  function Members(cs: seq<MemberCells>, unitWidth: nat): (ms: seq<StructureMember>)
    ensures |ms| == |cs|
  {
    if cs == [] then []
    else Members(cs[..|cs| - 1], unitWidth) + [NewMember(cs[|cs| - 1], RunningOffset(cs[..|cs| - 1]), unitWidth)]
  }

  /** The largest unit offset, or 0 when there is none larger. */
  function DwordCount(cs: seq<MemberCells>): int
  {
    if cs == [] then 0
    else
      var d := DwordCount(cs[..|cs| - 1]);
      var u := GetInt(cs[|cs| - 1].unitOffset);
      if u > d then u else d
  }

  /** One more member: it sits at the running offset, which then advances, and may raise the largest unit offset. */
  lemma LayoutStep(cs: seq<MemberCells>, c: MemberCells, unitWidth: nat)
    ensures Members(cs + [c], unitWidth) == Members(cs, unitWidth) + [NewMember(c, RunningOffset(cs), unitWidth)]
    ensures RunningOffset(cs + [c]) == Wrap(RunningOffset(cs) + GetInt(c.width))
    ensures DwordCount(cs + [c]) == if GetInt(c.unitOffset) > DwordCount(cs) then GetInt(c.unitOffset) else DwordCount(cs)
  {
    assert (cs + [c])[..|cs|] == cs;
  }

  lemma MembersAt(cs: seq<MemberCells>, unitWidth: nat, k: nat)
    requires k < |cs|
    ensures Members(cs, unitWidth)[k] == NewMember(cs[k], RunningOffset(cs[..k]), unitWidth)
  {
    if k < |cs| - 1 {
      MembersAt(cs[..|cs| - 1], unitWidth, k);
      assert cs[..|cs| - 1][..k] == cs[..k];
    }
  }

  /** The structure size is one more than the largest unit offset: at least 1, and covering every member. */
  lemma {:induction false} DwordCountIsMax(cs: seq<MemberCells>)
    ensures DwordCount(cs) >= 0
    ensures forall k :: 0 <= k < |cs| ==> GetInt(cs[k].unitOffset) <= DwordCount(cs)
    ensures DwordCount(cs) == 0 || exists k :: 0 <= k < |cs| && GetInt(cs[k].unitOffset) == DwordCount(cs)
  {
    if cs != [] {
      var init := cs[..|cs| - 1];
      DwordCountIsMax(init);
      assert forall k :: 0 <= k < |init| ==> init[k] == cs[k];
      if DwordCount(init) != 0 && DwordCount(cs) == DwordCount(init) {
        var k :| 0 <= k < |init| && GetInt(init[k].unitOffset) == DwordCount(init);
        assert GetInt(cs[k].unitOffset) == DwordCount(cs);
      }
    }
  }

  function Sum(cs: seq<MemberCells>): int
  {
    if cs == [] then 0 else Sum(cs[..|cs| - 1]) + GetInt(cs[|cs| - 1].width)
  }

  /** No member crosses a 32-bit boundary: each one ends at or before the end of its word. */
  predicate Aligned(cs: seq<MemberCells>)
  {
    cs == [] ||
    (var init, w := cs[..|cs| - 1], GetInt(cs[|cs| - 1].width);
     Aligned(init) && 0 <= w && Sum(init) % 32 + w <= 32)
  }

  lemma {:induction false} AlignedPrefix(cs: seq<MemberCells>, n: nat)
    requires Aligned(cs) && n <= |cs|
    ensures Aligned(cs[..n])
  {
    if n < |cs| {
      AlignedPrefix(cs[..|cs| - 1], n);
      assert cs[..|cs| - 1][..n] == cs[..n];
    } else {
      assert cs[..n] == cs;
    }
  }

  /**
   * When no member crosses a word boundary, every member's bit offset is
   * its position within its 32-bit word: the running total of the widths
   * before it, modulo 32.
   */
  lemma {:induction false} AlignedOffsets(cs: seq<MemberCells>)
    requires Aligned(cs)
    ensures RunningOffset(cs) == Sum(cs) % 32
    ensures 0 <= RunningOffset(cs) < 32
  {
    if cs != [] {
      var init := cs[..|cs| - 1];
      AlignedOffsets(init);
      SumModStep(Sum(init), GetInt(cs[|cs| - 1].width));
    }
  }

  lemma SumModStep(a: int, w: int)
    requires 0 <= w && a % 32 + w <= 32
    ensures Wrap(a % 32 + w) == (a + w) % 32
  {
    var q := a / 32;
    assert a == 32 * q + a % 32;
    if a % 32 + w == 32 {
      assert a + w == 32 * (q + 1);
    } else {
      assert a + w == 32 * q + (a % 32 + w);
    }
  }

  /** Each member of an aligned structure sits inside its word. */
  lemma AlignedMembers(cs: seq<MemberCells>, unitWidth: nat, k: nat)
    requires Aligned(cs) && k < |cs|
    ensures 0 <= Members(cs, unitWidth)[k].bitOffset < 32
    ensures Members(cs, unitWidth)[k].bitOffset + Members(cs, unitWidth)[k].width <= 32
  {
    MembersAt(cs, unitWidth, k);
    AlignedPrefix(cs, k + 1);
    assert cs[..k + 1][..k] == cs[..k];
    AlignedOffsets(cs[..k]);
  }

  function Cell(width: int): MemberCells
  {
    MemberCells(Some(0), Some(width), "unsigned", "", "", "", "")
  }

  /** A total that passes 32 without landing on it is not restarted: widths 24 and 16 leave offset 40. */
  lemma SkippedBoundaryNotReset()
    ensures RunningOffset([Cell(24), Cell(16)]) == 40
    ensures Members([Cell(24), Cell(16), Cell(8)], 32)[2].bitOffset == 40
  {
    var cs := [Cell(24), Cell(16), Cell(8)];
    assert cs[..2] == [Cell(24), Cell(16)];
    assert [Cell(24), Cell(16)][..1] == [Cell(24)];
    assert [Cell(24)][..0] == [];
  }

  /** A rendered structure: its unit width, members and size in units (names and text are not modelled). */
  datatype Structure = Structure(unitWidth: nat, fields: seq<StructureMember>, size: int)

  /** The bit-field columns of one record, after their cells are read as numbers and text. */
  datatype BitFieldRow = BitFieldRow(word: int, offset: int, width: int, name: string)

  /**
   * One group of a bit-field record set: its rows, the values the group
   * reports for its columns, and which of the Name, Offset and Width
   * columns hold a single value across the group.
   */
  datatype BitFieldGroup = BitFieldGroup(
    rows: seq<BitFieldRow>, value: BitFieldRow,
    singleName: bool, singleOffset: bool, singleWidth: bool)

  /** `BitField`: an enumeration type name is kept only for a group of several rows. */
  datatype BitField = BitField(word: int, offset: int, width: int, name: string, enumType: Option<string>)

  predicate IsBoolean(f: BitField)
  {
    f.width == 1
  }

  predicate IsEnumeration(f: BitField)
    ensures IsEnumeration(f) ==> !IsBoolean(f)
  {
    f.enumType.Some? && f.width > 1
  }

  /** The `BitField(RecordDataGroup)` constructor. */
  function FromGroup(g: BitFieldGroup): (f: BitField)
    ensures f.enumType.Some? <==> |g.rows| > 1
    ensures f.enumType.Some? ==> f.enumType.value == f.name
    ensures f.word == g.value.word && f.offset == g.value.offset && f.width == g.value.width && f.name == g.value.name
  {
    BitField(g.value.word, g.value.offset, g.value.width, g.value.name,
             if |g.rows| > 1 then Some(g.value.name) else None)
  }

  /** The `BitField(RecordData)` constructor: never an enumeration. */
  function FromRow(r: BitFieldRow): (f: BitField)
    ensures f.enumType.None? && !IsEnumeration(f)
    ensures f.word == r.word && f.offset == r.offset && f.width == r.width && f.name == r.name
  {
    BitField(r.word, r.offset, r.width, r.name, None)
  }

  /** The test that collapses a group into one field: Name and Offset (written twice), but never Width. */
  predicate Collapses(g: BitFieldGroup)
  {
    g.singleName && g.singleOffset && g.singleOffset
  }

  function GroupFields(g: BitFieldGroup): seq<BitField>
  {
    if Collapses(g) then [FromGroup(g)]
    else seq(|g.rows|, k requires 0 <= k < |g.rows| => FromRow(g.rows[k]))
  }

  /** The fields of a bit-field definition: each group's, in order. */
  function Fields(gs: seq<BitFieldGroup>): seq<BitField>
  {
    if gs == [] then [] else Fields(gs[..|gs| - 1]) + GroupFields(gs[|gs| - 1])
  }

  function FieldCount(gs: seq<BitFieldGroup>): nat
  {
    if gs == [] then 0
    else FieldCount(gs[..|gs| - 1]) + (if Collapses(gs[|gs| - 1]) then 1 else |gs[|gs| - 1].rows|)
  }

  /** One field per collapsing group and one per row of every other group; all collapse, one per group. */
  lemma {:induction false} FieldsCount(gs: seq<BitFieldGroup>)
    ensures |Fields(gs)| == FieldCount(gs)
    ensures (forall k :: 0 <= k < |gs| ==> Collapses(gs[k])) ==> |Fields(gs)| == |gs|
  {
    if gs != [] {
      var init := gs[..|gs| - 1];
      FieldsCount(init);
      assert forall k :: 0 <= k < |init| ==> init[k] == gs[k];
    }
  }

  /** Only a collapsed group of several rows can yield an enumeration. */
  lemma {:induction false} EnumerationsFromGroups(gs: seq<BitFieldGroup>, k: nat)
    requires k < |Fields(gs)|
    requires IsEnumeration(Fields(gs)[k])
    ensures exists g :: 0 <= g < |gs| && Collapses(gs[g]) && |gs[g].rows| > 1
  {
    var init := gs[..|gs| - 1];
    var last := gs[|gs| - 1];
    if k < |Fields(init)| {
      EnumerationsFromGroups(init, k);
      var g :| 0 <= g < |init| && Collapses(init[g]) && |init[g].rows| > 1;
      assert gs[g] == init[g];
    } else {
      var f := GroupFields(last)[k - |Fields(init)|];
      assert f == Fields(gs)[k];
      assert Collapses(gs[|gs| - 1]) && |gs[|gs| - 1].rows| > 1;
    }
  }

  /** Whether the Width column is single-valued never changes the fields. */
  lemma WidthNotConsulted(g: BitFieldGroup, singleWidth: bool)
    ensures GroupFields(g.(singleWidth := singleWidth)) == GroupFields(g)
  {
    var g' := g.(singleWidth := singleWidth);
    assert Collapses(g') == Collapses(g);
    if Collapses(g) {
      assert FromGroup(g') == FromGroup(g);
    }
  }

  /** A rendered bit-field type: its unit width and fields (names and text are not modelled). */
  datatype BitFieldType = BitFieldType(unitWidth: nat, fields: seq<BitField>)

  /** The generator's accumulated output, and the members of the structure rendered last. */
  class CppVisitor {
    const renderer: Conditions.Renderer
    var structureMembers: seq<StructureMember>
    var structures: seq<Structure>
    var bitFields: seq<BitFieldType>

    constructor(renderer: Conditions.Renderer)
      ensures this.renderer == renderer
      ensures structureMembers == [] && structures == [] && bitFields == []
    {
      this.renderer := renderer;
      structureMembers := [];
      structures := [];
      bitFields := [];
    }

    /**
     * `renderStructure`: the enabled record rows become members, each at
     * the running bit offset; the size is one more than the largest unit
     * offset.
     */
    method RenderStructure(unitWidthHeader: string, rows: seq<Option<StructureRow>>)
      modifies this
      ensures var cs := Enabled(renderer.Current(), rows);
        structureMembers == Members(cs, UnitWidth(unitWidthHeader)) &&
        structures == old(structures) + [Structure(UnitWidth(unitWidthHeader), structureMembers, DwordCount(cs) + 1)]
      ensures bitFields == old(bitFields)
    {
      var unitWidth := UnitWidth(unitWidthHeader);
      var members, dwordCount := Layout(renderer.Current(), unitWidth, rows);
      structureMembers := members;
      structures := structures + [Structure(unitWidth, members, dwordCount + 1)];
    }

    /** `renderBitfield` with the `BitFieldDefinition` constructor: each group collapses or yields its rows. */
    method RenderBitfield(unitWidthHeader: string, groups: seq<BitFieldGroup>)
      modifies this
      ensures bitFields == old(bitFields) + [BitFieldType(UnitWidth(unitWidthHeader), Fields(groups))]
      ensures structureMembers == old(structureMembers) && structures == old(structures)
    {
      var fields := BitFieldDefinition(groups);
      bitFields := bitFields + [BitFieldType(UnitWidth(unitWidthHeader), fields)];
    }
  }

  /** The loop of `renderStructure`: members at running bit offsets, and the largest unit offset. */
  method Layout(s: Conditions.Settings, unitWidth: nat, rows: seq<Option<StructureRow>>)
    returns (members: seq<StructureMember>, dwordCount: int)
    ensures members == Members(Enabled(s, rows), unitWidth)
    ensures dwordCount == DwordCount(Enabled(s, rows))
  {
    members := [];
    dwordCount := 0;
    var bitOffset := 0;
    var i := 0;
    while i < |rows|
      invariant 0 <= i <= |rows|
      invariant members == Members(Enabled(s, rows[..i]), unitWidth)
      invariant bitOffset == RunningOffset(Enabled(s, rows[..i]))
      invariant dwordCount == DwordCount(Enabled(s, rows[..i]))
    {
      EnabledStep(s, rows, i);
      var rrc := rows[i];
      if rrc.Some? {
        if Conditions.IsDisabled(s, rrc.value.condition) {
          assert Enabled(s, rows[..i + 1]) == Enabled(s, rows[..i]);
          i := i + 1;
          continue;
        }
        LayoutStep(Enabled(s, rows[..i]), rrc.value.cells, unitWidth);
        assert Enabled(s, rows[..i + 1]) == Enabled(s, rows[..i]) + [rrc.value.cells];
        var sm := NewMember(rrc.value.cells, bitOffset, unitWidth);
        bitOffset := bitOffset + sm.width;
        if bitOffset == 32 {
          bitOffset := 0;
        }
        members := members + [sm];
        if sm.unitOffset > dwordCount {
          dwordCount := sm.unitOffset;
        }
      } else {
        assert Enabled(s, rows[..i + 1]) == Enabled(s, rows[..i]);
      }
      i := i + 1;
    }
    assert rows[..i] == rows;
  }

  /** The loop of the `BitFieldDefinition` constructor. */
  method BitFieldDefinition(groups: seq<BitFieldGroup>) returns (fields: seq<BitField>)
    ensures fields == Fields(groups)
  {
    fields := [];
    var g := 0;
    while g < |groups|
      invariant 0 <= g <= |groups|
      invariant fields == Fields(groups[..g])
    {
      var rdg := groups[g];
      assert groups[..g + 1][..g] == groups[..g];
      if rdg.singleName && rdg.singleOffset && rdg.singleOffset {
        fields := fields + [FromGroup(rdg)];
      } else {
        ghost var before := fields;
        var r := 0;
        while r < |rdg.rows|
          invariant 0 <= r <= |rdg.rows|
          invariant fields == before + seq(r, k requires 0 <= k < r => FromRow(rdg.rows[k]))
        {
          fields := fields + [FromRow(rdg.rows[r])];
          r := r + 1;
        }
      }
      g := g + 1;
    }
    assert groups[..g] == groups;
  }
}
