/** Text helpers shared by the document visitors: the numeric-string check
  * used to right-align table columns, and the comparison that a pretty
  * printer's output equals its input once whitespace and header-separator
  * runs are ignored. */
module VisitorUtils {

  // ---------------------------------------------------------------------
  // Numeric strings

  /** `Character.digit(c, radix)` on ASCII: the value of `c` as a digit of
    * `radix`, or -1 when `c` is not one or `radix` is outside 2..36. */
  function Digit(c: char, radix: int): (d: int)
    ensures -1 <= d < 36
    ensures d >= 0 ==> 2 <= radix <= 36 && d < radix
  {
    var v :=
      if '0' <= c <= '9' then c as int - '0' as int
      else if 'a' <= c <= 'z' then c as int - 'a' as int + 10
      else if 'A' <= c <= 'Z' then c as int - 'A' as int + 10
      else -1;
    if radix < 2 || radix > 36 || v < 0 || v >= radix then -1 else v
  }

  /** A non-empty string, other than "-" alone, whose characters are all
    * digits of `radix` except for an optional leading '-'. */
  predicate IntegerText(s: string, radix: int)
  {
    |s| > 0 && s != "-"
    && forall i :: 0 <= i < |s| && !(i == 0 && s[i] == '-') ==> Digit(s[i], radix) >= 0
  }

  /** `isInteger(s, radix)` */
  method IsInteger(s: string, radix: int) returns (b: bool)
    ensures b == IntegerText(s, radix)
  {
    if |s| == 0 {
      return false;
    }
    var i := 0;
    while i < |s|
      invariant 0 <= i <= |s|
      invariant forall k :: 0 <= k < i && !(k == 0 && s[k] == '-') ==> Digit(s[k], radix) >= 0
      invariant i > 0 ==> s != "-"
    {
      if i == 0 && s[i] == '-' {
        if |s| == 1 {
          return false;
        } else {
          i := i + 1;
          continue;
        }
      }
      if Digit(s[i], radix) < 0 {
        return false;
      }
      i := i + 1;
    }
    return true;
  }

  /** `isInteger(s)`: the decimal case. */
  method IsDecimalInteger(s: string) returns (b: bool)
    ensures b == IntegerText(s, 10)
  {
    b := IsInteger(s, 10);
  }

  /** A minus sign can only lead an integer: anywhere else it is not a digit. */
  lemma MinusOnlyLeads(s: string, radix: int, i: int)
    requires IntegerText(s, radix) && 0 < i < |s|
    ensures s[i] != '-'
  {
    assert Digit(s[i], radix) >= 0;
  }

  // ---------------------------------------------------------------------
  // Positions in a text

  predicate IsBlank(c: char)
  {
    c == ' ' || c == '\t' || c == '\n'
  }

  predicate IsHeaderSeparator(c: char)
  {
    c == '+' || c == '='
  }

  /** The line number of position `i`: one more than the newlines before it. */
  function LineAt(s: string, i: nat): nat
    requires i <= |s|
  {
    1 + multiset(s[..i])['\n']
  }

  /** The position just after the last newline before `i`, or 0. */
  function LineStart(s: string, i: nat): (p: nat)
    requires i <= |s|
    ensures p <= i
    ensures p == 0 || s[p - 1] == '\n'
    ensures forall k :: p <= k < i ==> s[k] != '\n'
  {
    if i == 0 then 0 else if s[i - 1] == '\n' then i else LineStart(s, i - 1)
  }

  /** The column number of position `i`, counted from 1. */
  function ColumnAt(s: string, i: nat): nat
    requires i <= |s|
  {
    i - LineStart(s, i) + 1
  }

  lemma {:induction false} NextLine(s: string, i: nat)
    requires i < |s|
    ensures LineAt(s, i + 1) == LineAt(s, i) + (if s[i] == '\n' then 1 else 0)
    ensures ColumnAt(s, i + 1) == (if s[i] == '\n' then 1 else ColumnAt(s, i) + 1)
  {
    assert s[..i + 1] == s[..i] + [s[i]];
  }

  /** The end of the run of blanks starting at `i`. */
  function SkipBlanks(s: string, i: nat): (j: nat)
    requires i <= |s|
    ensures i <= j <= |s|
    ensures forall k :: i <= k < j ==> IsBlank(s[k])
    ensures j == |s| || !IsBlank(s[j])
    decreases |s| - i
  {
    if i < |s| && IsBlank(s[i]) then SkipBlanks(s, i + 1) else i
  }

  /** The end of the run of '+' and '=' starting at `i`. */
  function SkipHeaderSeparator(s: string, i: nat): (j: nat)
    requires i <= |s|
    ensures i <= j <= |s|
    ensures forall k :: i <= k < j ==> IsHeaderSeparator(s[k])
    ensures j == |s| || !IsHeaderSeparator(s[j])
    decreases |s| - i
  {
    if i < |s| && IsHeaderSeparator(s[i]) then SkipHeaderSeparator(s, i + 1) else i
  }

  /** A cursor over a string that tracks its line and column. */
  class TestSequence {
    const text: string
    var index: nat
    var line: nat
    var column: nat

    ghost predicate Valid()
      reads this
    {
      index <= |text| && line == LineAt(text, index) && column == ColumnAt(text, index)
    }

    constructor(s: string)
      ensures text == s && index == 0 && line == 1 && column == 1
      ensures Valid()
    {
      text := s;
      index := 0;
      line := 1;
      column := 1;
    }

    predicate IsExhausted()
      reads this
      ensures !IsExhausted() ==> index < |text|
    {
      index >= |text|
    }

    function Get(): (c: char)
      requires index < |text|
      reads this
      ensures c in text
    {
      text[index]
    }

    /** Step over one character: a newline starts the next line at column 1. */
    method Advance()
      requires Valid() && index < |text|
      modifies this
      ensures Valid() && index == old(index) + 1
      ensures old(text[index]) == '\n' ==> line == old(line) + 1 && column == 1
      ensures old(text[index]) != '\n' ==> line == old(line) && column == old(column) + 1
    {
      NextLine(text, index);
      if Get() == '\n' {
        line := line + 1;
        column := 1;
      } else {
        column := column + 1;
      }
      index := index + 1;
    }

    /** Skip a maximal run of blanks; report whether anything was skipped. */
    method AdvancePastWhitespace() returns (advanced: bool)
      requires Valid()
      modifies this
      ensures Valid() && index == SkipBlanks(text, old(index))
      ensures advanced <==> index > old(index)
    {
      advanced := false;
      while !IsExhausted()
        invariant Valid() && old(index) <= index
        invariant SkipBlanks(text, old(index)) == SkipBlanks(text, index)
        invariant advanced <==> index > old(index)
        decreases |text| - index
      {
        var ch := Get();
        if IsBlank(ch) {
          advanced := true;
          Advance();
        } else {
          break;
        }
      }
    }

    /** Skip a maximal run of '+' and '='. */
    method AdvancePastHeaderSeparator()
      requires Valid()
      modifies this
      ensures Valid() && index == SkipHeaderSeparator(text, old(index))
    {
      while !IsExhausted()
        invariant Valid() && old(index) <= index
        invariant SkipHeaderSeparator(text, old(index)) == SkipHeaderSeparator(text, index)
        decreases |text| - index
      {
        var ch := Get();
        if IsHeaderSeparator(ch) {
          Advance();
        } else {
          break;
        }
      }
    }
  }

  // ---------------------------------------------------------------------
  // Comparison ignoring whitespace

  /** What the comparison of an original text and its pretty-printed form
    * concludes: they match, or the error it raises. */
  datatype Comparison =
    | Match
      /** The first characters that differ, with their positions. */
    | Mismatch(originalIndex: nat, originalLine: nat, originalColumn: nat, originalChar: char,
               prettyChar: char, prettyIndex: nat, prettyLine: nat, prettyColumn: nat)
      /** One text ran out first; the number of characters they had in common. */
    | SizeMismatch(commonSubstring: nat)

  /** Where the comparison resumes after a non-blank character at `i`: past
    * the whole separator run for '+', past the character otherwise. */
  function Next(s: string, i: nat): (j: nat)
    requires i < |s|
    ensures i < j <= |s|
  {
    if s[i] == '+' then SkipHeaderSeparator(s, i) else i + 1
  }

  /** The characters the comparison looks at, from position `i` on: blanks
    * are dropped and each run of '+' and '=' that starts with '+' stands for
    * a single '+'. */
  function Canon(s: string, i: nat): (c: seq<char>)
    requires i <= |s|
    ensures |c| <= |s| - i
    decreases |s| - i
  {
    if i == |s| then []
    else if IsBlank(s[i]) then Canon(s, i + 1)
    else [s[i]] + Canon(s, Next(s, i))
  }

  lemma {:induction false} CanonSkipsBlanks(s: string, i: nat)
    requires i <= |s|
    ensures Canon(s, SkipBlanks(s, i)) == Canon(s, i)
    decreases |s| - i
  {
    if i < |s| && IsBlank(s[i]) {
      CanonSkipsBlanks(s, i + 1);
    }
  }

  /** Two views that agree on `k` characters and continue with the same one
    * agree on `k + 1`. */
  lemma AgreeOneMore(ca: seq<char>, cb: seq<char>, k: nat, x: char, ta: seq<char>, tb: seq<char>)
    requires k <= |ca| && k <= |cb| && ca[..k] == cb[..k]
    requires ca[k..] == [x] + ta && cb[k..] == [x] + tb
    ensures k + 1 <= |ca| && k + 1 <= |cb| && ca[..k + 1] == cb[..k + 1]
    ensures ca[k + 1..] == ta && cb[k + 1..] == tb
  {
    assert ca[..k + 1] == ca[..k] + [x];
    assert cb[..k + 1] == cb[..k] + [x];
  }

  /** Once one view is used up, the views are equal exactly when both are;
    * otherwise the shorter one is a proper prefix of the longer. */
  lemma {:induction false} Ending(ca: seq<char>, cb: seq<char>, k: nat)
    requires k <= |ca| && k <= |cb| && ca[..k] == cb[..k]
    requires ca[k..] == [] || cb[k..] == []
    ensures ca == cb <==> ca[k..] == [] && cb[k..] == []
    ensures ca != cb ==> (ca < cb || cb < ca) && k == if |ca| < |cb| then |ca| else |cb|
  {
    assert ca == ca[..k] + ca[k..];
    assert cb == cb[..k] + cb[k..];
  }

  /** Equal non-blank characters at `i` and `j` extend the agreement of the
    * two views by one, and both comparisons resume at `Next`. */
  lemma StepEqual(a: string, i: nat, b: string, j: nat, ca: seq<char>, cb: seq<char>, k: nat)
    requires i < |a| && j < |b| && !IsBlank(a[i]) && !IsBlank(b[j]) && a[i] == b[j]
    requires k <= |ca| && k <= |cb| && ca[..k] == cb[..k]
    requires ca[k..] == Canon(a, i) && cb[k..] == Canon(b, j)
    ensures k + 1 <= |ca| && k + 1 <= |cb| && ca[..k + 1] == cb[..k + 1]
    ensures ca[k + 1..] == Canon(a, Next(a, i)) && cb[k + 1..] == Canon(b, Next(b, j))
  {
    AgreeOneMore(ca, cb, k, a[i], Canon(a, Next(a, i)), Canon(b, Next(b, j)));
  }

  /** Non-blank characters at `i` and `j` are the next characters of the views. */
  lemma StepDiffer(a: string, i: nat, b: string, j: nat, ca: seq<char>, cb: seq<char>, k: nat)
    requires i < |a| && j < |b| && !IsBlank(a[i]) && !IsBlank(b[j])
    requires k <= |ca| && k <= |cb|
    requires ca[k..] == Canon(a, i) && cb[k..] == Canon(b, j)
    ensures k < |ca| && k < |cb| && ca[k] == a[i] && cb[k] == b[j]
  {
    assert ca[k..][0] == a[i];
    assert cb[k..][0] == b[j];
  }

  /** The loop state of the comparison: the first `k` characters of the two
    * views agree, and the rest of each view is what its text has left from
    * the cursor on. */
  ghost predicate Aligned(a: string, i: nat, b: string, j: nat, ca: seq<char>, cb: seq<char>, k: nat)
  {
    i <= |a| && j <= |b| && k <= |ca| && k <= |cb|
    && ca[..k] == cb[..k] && ca[k..] == Canon(a, i) && cb[k..] == Canon(b, j)
  }

  /** One pass of the comparison loop: skip blanks on one side, or consume a
    * character both texts agree on; `differ` reports characters that do not
    * agree, with both cursors left on them. */
  method CompareStep(original: TestSequence, pretty: TestSequence,
                     ghost ca: seq<char>, ghost cb: seq<char>, common: nat)
    returns (differ: bool, newCommon: nat)
    requires original != pretty && original.Valid() && pretty.Valid()
    requires !original.IsExhausted() && !pretty.IsExhausted()
    requires Aligned(original.text, original.index, pretty.text, pretty.index, ca, cb, common)
    modifies original, pretty
    ensures original.Valid() && pretty.Valid()
    ensures Aligned(original.text, original.index, pretty.text, pretty.index, ca, cb, newCommon)
    ensures !differ ==> old(original.index) + old(pretty.index) < original.index + pretty.index
    ensures differ ==>
      original.index == old(original.index) && pretty.index == old(pretty.index)
      && newCommon == common && common < |ca| && common < |cb|
      && ca[common] == original.Get() && cb[common] == pretty.Get()
      && original.Get() != pretty.Get()
  {
    newCommon := common;
    CanonSkipsBlanks(original.text, original.index);
    var moved := original.AdvancePastWhitespace();
    if moved {
      return false, newCommon;
    }
    CanonSkipsBlanks(pretty.text, pretty.index);
    moved := pretty.AdvancePastWhitespace();
    if moved {
      return false, newCommon;
    }

    var originalChr := original.Get();
    var prettyChr := pretty.Get();

    if originalChr == prettyChr {
      ghost var i, j := original.index, pretty.index;
      StepEqual(original.text, i, pretty.text, j, ca, cb, common);
      newCommon := common + 1;

      if originalChr == '+' {
        original.AdvancePastHeaderSeparator();
        pretty.AdvancePastHeaderSeparator();
      } else {
        original.Advance();
        pretty.Advance();
      }
      assert original.index == Next(original.text, i) && pretty.index == Next(pretty.text, j);
      return false, newCommon;
    }

    StepDiffer(original.text, original.index, pretty.text, pretty.index, ca, cb, common);
    return true, newCommon;
  }

  /** `compareFilesExceptWhitespace`: walk both texts in step, skipping
    * blanks on either side and collapsing header-separator runs. */
  method CompareFilesExceptWhitespace(originalString: string, prettyString: string) returns (r: Comparison)
    ensures r.Match? <==> Canon(originalString, 0) == Canon(prettyString, 0)
    ensures r.SizeMismatch? ==>
      var ca := Canon(originalString, 0);
      var cb := Canon(prettyString, 0);
      (ca < cb || cb < ca) && r.commonSubstring == if |ca| < |cb| then |ca| else |cb|
    ensures r.Mismatch? ==>
      r.originalIndex < |originalString| && r.prettyIndex < |prettyString|
      && originalString[r.originalIndex] == r.originalChar
      && prettyString[r.prettyIndex] == r.prettyChar
      && r.originalChar != r.prettyChar
      && r.originalLine == LineAt(originalString, r.originalIndex)
      && r.originalColumn == ColumnAt(originalString, r.originalIndex)
      && r.prettyLine == LineAt(prettyString, r.prettyIndex)
      && r.prettyColumn == ColumnAt(prettyString, r.prettyIndex)
      && var ca := Canon(originalString, 0);
         var cb := Canon(prettyString, 0);
         var k := |ca| - |Canon(originalString, r.originalIndex)|;
         0 <= k <= |ca| && k <= |cb|
         && k == |cb| - |Canon(prettyString, r.prettyIndex)|
         && ca[..k] == cb[..k]
         && ca[k..] == Canon(originalString, r.originalIndex)
         && cb[k..] == Canon(prettyString, r.prettyIndex)
  {
    var original := new TestSequence(originalString);
    var pretty := new TestSequence(prettyString);
    ghost var ca := Canon(originalString, 0);
    ghost var cb := Canon(prettyString, 0);

    var commonSubstring := 0;

    while !original.IsExhausted() && !pretty.IsExhausted()
      invariant original.Valid() && pretty.Valid()
      invariant original.text == originalString && pretty.text == prettyString
      invariant Aligned(originalString, original.index, prettyString, pretty.index, ca, cb, commonSubstring)
      decreases |originalString| - original.index + |prettyString| - pretty.index
    {
      var differ;
      differ, commonSubstring := CompareStep(original, pretty, ca, cb, commonSubstring);
      if differ {
        return Mismatch(original.index, original.line, original.column, original.Get(),
                        pretty.Get(), pretty.index, pretty.line, pretty.column);
      }
    }

    // drain trailing blanks
    CanonSkipsBlanks(originalString, original.index);
    CanonSkipsBlanks(prettyString, pretty.index);
    var _ := original.AdvancePastWhitespace();
    var _ := pretty.AdvancePastWhitespace();
    Ending(ca, cb, commonSubstring);

    if original.IsExhausted() && pretty.IsExhausted() {
      return Match;
    }
    return SizeMismatch(commonSubstring);
  }

  /** A text with its blanks deleted. */
  function StripBlanks(s: string): (t: string)
    ensures |t| <= |s|
  {
    if s == [] then []
    else if IsBlank(s[0]) then StripBlanks(s[1..])
    else [s[0]] + StripBlanks(s[1..])
  }

  /** Without '+' the comparison looks at exactly the non-blank characters,
    * so two such texts match iff they agree once blanks are deleted. */
  lemma {:induction false} CanonWithoutPlus(s: string, i: nat)
    requires i <= |s| && '+' !in s
    ensures Canon(s, i) == StripBlanks(s[i..])
    decreases |s| - i
  {
    if i < |s| {
      assert s[i] in s;
      assert s[i..][1..] == s[i + 1..];
      CanonWithoutPlus(s, i + 1);
    } else {
      assert s[i..] == [];
    }
  }
}
