/**
 * Conditional text: the conditions a SAM document attaches to blocks and
 * record rows, evaluated against the flags and properties the renderer
 * was given, plus the renderer's fragment table and indentation.
 */
module Conditions {
  import opened Options

  /**
   * The five simple forms of condition the grammar produces. The compound
   * forms (alternatives and combinations of conditions) have no evaluator
   * in the renderer and are not part of this model.
   */
  datatype Condition =
    | BooleanTrue(variable: string)
    | BooleanFalse(variable: string)
    | Comparison(variable: string, oper: string, value: string)
    | BelongsToSet(variable: string, names: Option<set<string>>)
    | NotBelongsToSet(variable: string, names: Option<set<string>>)

  /** What a condition is evaluated against: the properties and the two flag sets. */
  datatype Settings = Settings(properties: map<string, string>, trueFlags: set<string>, falseFlags: set<string>)

  predicate StartsWith(oper: string, c: char)
  {
    |oper| > 0 && oper[0] == c
  }

  /** The visitor's value for a condition: `true` exactly when it returns `Boolean.TRUE`. */
  predicate Evaluate(s: Settings, c: Condition)
    ensures Evaluate(s, c) && !(c.BooleanTrue? || c.BooleanFalse?) ==> c.variable in s.properties
    ensures Evaluate(s, c) && (c.BelongsToSet? || c.NotBelongsToSet?) ==> c.names.Some?
  {
    match c
    case BooleanTrue(v) =>
      v in s.trueFlags || (v in s.properties && s.properties[v] == "true")
    case BooleanFalse(v) =>
      v in s.falseFlags || (v in s.properties && s.properties[v] == "false")
    case Comparison(v, oper, value) =>
      v in s.properties &&
      ((s.properties[v] == value && StartsWith(oper, '=')) ||
       (s.properties[v] != value && StartsWith(oper, '!')))
    case BelongsToSet(v, names) =>
      v in s.properties && names.Some? && s.properties[v] in names.value
    case NotBelongsToSet(v, names) =>
      v in s.properties && names.Some? && s.properties[v] !in names.value
  }

  /** `isDisabled`: an absent condition never disables; a present one disables unless it holds. */
  function IsDisabled(s: Settings, cc: Option<Condition>): (d: bool)
    ensures cc.None? ==> !d
    ensures cc.Some? ==> (d <==> !Evaluate(s, cc.value))
  {
    cc.Some? && !Evaluate(s, cc.value)
  }

  /** A variable among the true flags satisfies its boolean-true condition whatever the properties say. */
  lemma TrueFlagWins(s: Settings, v: string)
    requires v in s.trueFlags
    ensures Evaluate(s, BooleanTrue(v))
    ensures !IsDisabled(s, Some(BooleanTrue(v)))
  {
  }

  /**
   * Adding flags (with the same properties) never turns a satisfied boolean
   * condition into an unsatisfied one, and leaves the other forms alone.
   */
  lemma FlagsMonotone(s: Settings, s': Settings, c: Condition)
    requires s'.properties == s.properties
    requires s.trueFlags <= s'.trueFlags && s.falseFlags <= s'.falseFlags
    ensures Evaluate(s, c) ==> Evaluate(s', c)
    ensures !(c.BooleanTrue? || c.BooleanFalse?) ==> (Evaluate(s, c) <==> Evaluate(s', c))
  {
  }

  /**
   * From the properties alone, a variable cannot be both true and false:
   * only the flag sets can make both boolean forms hold.
   */
  lemma NotBothFromProperties(s: Settings, v: string)
    requires v !in s.trueFlags && v !in s.falseFlags
    ensures !(Evaluate(s, BooleanTrue(v)) && Evaluate(s, BooleanFalse(v)))
  {
  }

  /** Comparisons and set membership are false when the property is unset, whatever the operator. */
  lemma UnsetIsFalse(s: Settings, c: Condition)
    requires !(c.BooleanTrue? || c.BooleanFalse?)
    requires c.variable !in s.properties
    ensures !Evaluate(s, c)
    ensures IsDisabled(s, Some(c))
  {
  }

  /** With the property set, `=` and `!=` against the same value are complementary. */
  lemma EqualsVersusNotEquals(s: Settings, v: string, value: string)
    requires v in s.properties
    ensures Evaluate(s, Comparison(v, "=", value)) <==> !Evaluate(s, Comparison(v, "!=", value))
    ensures Evaluate(s, Comparison(v, "=", value)) <==> s.properties[v] == value
  {
  }

  /**
   * With the property set and a name list present, exactly one of "in" and
   * "not in" holds; with no name list, neither does.
   */
  lemma InVersusNotIn(s: Settings, v: string, names: Option<set<string>>)
    requires v in s.properties
    ensures names.Some? ==> (Evaluate(s, BelongsToSet(v, names)) <==> !Evaluate(s, NotBelongsToSet(v, names)))
    ensures names.None? ==> !Evaluate(s, BelongsToSet(v, names)) && !Evaluate(s, NotBelongsToSet(v, names))
  {
  }

  /** A fragment definition: its name and its blocks (rendering the blocks is not modelled). */
  datatype Fragment = Fragment(name: string, blocks: seq<string>)

  /** What inserting a fragment does: nothing when disabled, a failure when undefined, else its blocks. */
  datatype Insertion = Skipped | Undefined | Blocks(blocks: seq<string>)

  /** `visitInsertFragment` on the fragment table. */
  function Insert(fragments: map<string, Fragment>, s: Settings, name: string, condition: Option<Condition>): (r: Insertion)
    ensures r.Skipped? <==> IsDisabled(s, condition)
    ensures r.Undefined? <==> !IsDisabled(s, condition) && name !in fragments
    ensures r.Blocks? ==> name in fragments && r.blocks == fragments[name].blocks
  {
    if IsDisabled(s, condition) then Skipped
    else if name !in fragments then Undefined
    else Blocks(fragments[name].blocks)
  }

  /** After a definition, an enabled insertion under that name yields its blocks, replacing any earlier definition. */
  lemma DefineThenInsert(fragments: map<string, Fragment>, s: Settings, f: Fragment, condition: Option<Condition>)
    requires !IsDisabled(s, condition)
    ensures Insert(fragments[f.name := f], s, f.name, condition) == Blocks(f.blocks)
  {
  }

  /** A definition under one name leaves insertions under every other name as they were. */
  lemma DefineLeavesOthers(fragments: map<string, Fragment>, s: Settings, f: Fragment, name: string, condition: Option<Condition>)
    requires name != f.name
    ensures Insert(fragments[f.name := f], s, name, condition) == Insert(fragments, s, name, condition)
  {
  }

  /** `n` copies of two spaces; none for a level of zero or less. */
  function Indent(n: int): string
  {
    if n <= 0 then "" else Indent(n - 1) + "  "
  }

  lemma {:induction false} IndentShape(n: int)
    ensures |Indent(n)| == if n <= 0 then 0 else 2 * n
    ensures forall k :: 0 <= k < |Indent(n)| ==> Indent(n)[k] == ' '
  {
    if n > 0 {
      IndentShape(n - 1);
      assert Indent(n) == Indent(n - 1) + "  ";
    }
  }

  /** The renderer's state: properties, flags, fragments, indentation and the text written so far. */
  class Renderer {
    var properties: map<string, string>
    var trueFlags: set<string>
    var falseFlags: set<string>
    var fragments: map<string, Fragment>
    var indentLevel: int
    var writeIndent: bool
    var output: string
    var charactersWritten: int

    constructor()
      ensures properties == map[] && trueFlags == {} && falseFlags == {} && fragments == map[]
      ensures indentLevel == 0 && writeIndent && output == "" && charactersWritten == 0
    {
      properties := map[];
      trueFlags := {};
      falseFlags := {};
      fragments := map[];
      indentLevel := 0;
      writeIndent := true;
      output := "";
      charactersWritten := 0;
    }

    function Current(): Settings
      reads this
    {
      Settings(properties, trueFlags, falseFlags)
    }

    method SetProperties(input: map<string, string>)
      modifies this
      ensures properties == input
      ensures trueFlags == old(trueFlags) && falseFlags == old(falseFlags) && fragments == old(fragments)
      ensures indentLevel == old(indentLevel) && writeIndent == old(writeIndent)
      ensures output == old(output) && charactersWritten == old(charactersWritten)
    {
      properties := input;
    }

    /** `setTrueFlags`: a null argument changes nothing, otherwise its names join the set. */
    method SetTrueFlags(input: Option<seq<string>>)
      modifies this
      ensures input.None? ==> trueFlags == old(trueFlags)
      ensures input.Some? ==> trueFlags == old(trueFlags) + set x | x in input.value
      ensures properties == old(properties) && falseFlags == old(falseFlags) && fragments == old(fragments)
      ensures indentLevel == old(indentLevel) && writeIndent == old(writeIndent)
      ensures output == old(output) && charactersWritten == old(charactersWritten)
    {
      if input.Some? {
        trueFlags := trueFlags + set x | x in input.value;
      }
    }

    /** `setFalseFlags`: a null argument changes nothing, otherwise its names join the set. */
    method SetFalseFlags(input: Option<seq<string>>)
      modifies this
      ensures input.None? ==> falseFlags == old(falseFlags)
      ensures input.Some? ==> falseFlags == old(falseFlags) + set x | x in input.value
      ensures properties == old(properties) && trueFlags == old(trueFlags) && fragments == old(fragments)
      ensures indentLevel == old(indentLevel) && writeIndent == old(writeIndent)
      ensures output == old(output) && charactersWritten == old(charactersWritten)
    {
      if input.Some? {
        falseFlags := falseFlags + set x | x in input.value;
      }
    }

    /** `visitDefineFragment`: the definition is stored under its name, replacing any earlier one. */
    method DefineFragment(f: Fragment)
      modifies this
      ensures fragments == old(fragments)[f.name := f]
      ensures properties == old(properties) && trueFlags == old(trueFlags) && falseFlags == old(falseFlags)
      ensures indentLevel == old(indentLevel) && writeIndent == old(writeIndent)
      ensures output == old(output) && charactersWritten == old(charactersWritten)
    {
      fragments := fragments[f.name := f];
    }

    /** `skipIndent`: indentation is no longer written to the output. */
    method SkipIndent()
      modifies this
      ensures !writeIndent
      ensures properties == old(properties) && trueFlags == old(trueFlags) && falseFlags == old(falseFlags)
      ensures fragments == old(fragments) && indentLevel == old(indentLevel)
      ensures output == old(output) && charactersWritten == old(charactersWritten)
    {
      writeIndent := false;
    }

    /** `addIndent(builder)`: the builder gains two spaces per indentation level. */
    method AddIndentTo(builder: string) returns (b: string)
      ensures b == builder + Indent(indentLevel)
    {
      b := builder;
      var ii := 0;
      while ii < indentLevel
        invariant ii <= indentLevel || ii == 0
        invariant b == builder + Indent(ii)
      {
        b := b + "  ";
        ii := ii + 1;
      }
      assert ii <= 0 || ii == indentLevel;
    }

    /** `addIndent()`: the same spaces written to the output, unless indentation is switched off. */
    method AddIndent()
      modifies this
      ensures output == old(output) + (if writeIndent then Indent(indentLevel) else "")
      ensures charactersWritten == old(charactersWritten) + |output| - |old(output)|
      ensures properties == old(properties) && trueFlags == old(trueFlags) && falseFlags == old(falseFlags)
      ensures fragments == old(fragments) && indentLevel == old(indentLevel) && writeIndent == old(writeIndent)
    {
      if writeIndent {
        var ii := 0;
        while ii < indentLevel
          invariant ii <= indentLevel || ii == 0
          invariant output == old(output) + Indent(ii)
          invariant charactersWritten == old(charactersWritten) + 2 * ii
          invariant properties == old(properties) && trueFlags == old(trueFlags) && falseFlags == old(falseFlags)
          invariant fragments == old(fragments) && indentLevel == old(indentLevel) && writeIndent == old(writeIndent)
        {
          Append("  ");
          ii := ii + 1;
        }
        IndentShape(ii);
        assert ii <= 0 || ii == indentLevel;
      }
    }

    /** `append(String)`: the text is written and counted. */
    method Append(text: string)
      modifies this
      ensures output == old(output) + text
      ensures charactersWritten == old(charactersWritten) + |text|
      ensures properties == old(properties) && trueFlags == old(trueFlags) && falseFlags == old(falseFlags)
      ensures fragments == old(fragments) && indentLevel == old(indentLevel) && writeIndent == old(writeIndent)
    {
      output := output + text;
      charactersWritten := charactersWritten + |text|;
    }
  }
}
