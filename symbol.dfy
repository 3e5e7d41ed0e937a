/** src/Symbol.java: an immutable terminal or non-terminal label. A terminal has
    a lexical kind; a non-terminal has none (Java's `type == null`). Equality
    and hashing look only at the kind and the value, never at the position. */
module Symbols {
  import opened Wrappers
  import opened Grammar
  import opened Text

  /** The `Object value` of a symbol: absent, a string (identifiers, and the
      parser's non-terminal names), an integer (number literals) or a
      `NonTerminal` enum constant. */
  datatype Value = NoValue | Str(s: string) | Num(n: int) | Tag(nt: NonTerminal)

  datatype Symbol = Symbol(kind: Option<LexicalUnit>, value: Value, line: int, column: int)

  /** `UNDEFINED_POSITION`. */
  const UndefinedPosition: int := -1

  /** The four-argument constructor: the line is stored one higher than given
      (0-based in, 1-based out), the column as given. */
  function Make(unit: Option<LexicalUnit>, line: int, column: int, value: Value): (s: Symbol)
    ensures s.kind == unit && s.value == value
    ensures s.line == line + 1 && s.column == column
  {
    Symbol(unit, value, line + 1, column)
  }

  /** `Symbol(unit, line, column)`: no value. */
  function MakeAt(unit: Option<LexicalUnit>, line: int, column: int): (s: Symbol)
    ensures s.kind == unit && s.value == NoValue
    ensures s.line == line + 1 && s.column == column
  {
    Make(unit, line, column, NoValue)
  }

  /** `Symbol(unit, line)`: no column, no value. */
  function MakeAtLine(unit: Option<LexicalUnit>, line: int): (s: Symbol)
    ensures s.kind == unit && s.value == NoValue
    ensures s.line == line + 1 && s.column == -1
  {
    Make(unit, line, UndefinedPosition, NoValue)
  }

  /** `Symbol(unit)`: position-less, so line 0 and column -1. */
  function MakeKind(unit: Option<LexicalUnit>): (s: Symbol)
    ensures s.kind == unit && s.value == NoValue
    ensures s.line == 0 && s.column == -1
  {
    Make(unit, UndefinedPosition, UndefinedPosition, NoValue)
  }

  /** `Symbol(unit, value)`: position-less. */
  function MakeValue(unit: Option<LexicalUnit>, value: Value): (s: Symbol)
    ensures s.kind == unit && s.value == value
    ensures s.line == 0 && s.column == -1
  {
    Make(unit, UndefinedPosition, UndefinedPosition, value)
  }

  /** `isTerminal()`: a terminal is a symbol with a lexical kind. */
  predicate IsTerminal(s: Symbol)
    ensures IsTerminal(s) <==> s.kind != None
  {
    s.kind.Some?
  }

  /** `isNonTerminal()`: exactly the symbols that are not terminals. */
  predicate IsNonTerminal(s: Symbol)
    ensures IsNonTerminal(s) <==> !IsTerminal(s)
  {
    s.kind.None?
  }

  /** `Symbol.equals`: same kind and same value. */
  predicate Equals(a: Symbol, b: Symbol)
    ensures Equals(a, b) <==> a.(line := b.line, column := b.column) == b
  {
    a.kind == b.kind && a.value == b.value
  }

  /** Moving a symbol does not change what it is equal to. */
  lemma EqualsIgnoresPosition(a: Symbol, line: int, column: int)
    ensures Equals(a, a.(line := line, column := column))
  {
  }

  lemma EqualsIsEquivalence(a: Symbol, b: Symbol, c: Symbol)
    ensures Equals(a, a)
    ensures Equals(a, b) ==> Equals(b, a)
    ensures Equals(a, b) && Equals(b, c) ==> Equals(a, c)
  {
  }

  // ---- hashing -------------------------------------------------------------

  const TwoTo31: int := 0x8000_0000
  const TwoTo32: int := 0x1_0000_0000

  /** Java `int` arithmetic: the value modulo 2^32, read as a signed number. */
  function Wrap32(x: int): (r: int)
    ensures -TwoTo31 <= r < TwoTo31
    ensures (r - x) % TwoTo32 == 0
  {
    (x + TwoTo31) % TwoTo32 - TwoTo31
  }

  /** `String.hashCode`: h = 31 h + c over the characters, in `int`. */
  function StringHash(s: string): (h: int)
    ensures -TwoTo31 <= h < TwoTo31
  {
    if s == [] then 0 else Wrap32(31 * StringHash(s[..|s| - 1]) + (s[|s| - 1] as int))
  }

  /** Enum constants hash by identity, which Java leaves to the run time; the
      model takes those hashes as parameters. */
  function ValueHash(v: Value, tagHash: NonTerminal -> int): int
  {
    match v
    case NoValue => 0
    case Str(s) => StringHash(s)
    case Num(n) => Wrap32(n)
    case Tag(nt) => tagHash(nt)
  }

  /** `Objects.hash(type, value)`: 31 * (31 * 1 + hash(type)) + hash(value), in
      `int`, with 0 for null. */
  function HashCode(s: Symbol, unitHash: LexicalUnit -> int, tagHash: NonTerminal -> int): (h: int)
    ensures -TwoTo31 <= h < TwoTo31
  {
    var typeHash := if s.kind.Some? then unitHash(s.kind.value) else 0;
    Wrap32(31 * Wrap32(31 + typeHash) + ValueHash(s.value, tagHash))
  }

  /** Equal symbols hash alike, whatever hashes the enum constants get. */
  lemma EqualsImpliesSameHash(a: Symbol, b: Symbol, unitHash: LexicalUnit -> int, tagHash: NonTerminal -> int)
    requires Equals(a, b)
    ensures HashCode(a, unitHash, tagHash) == HashCode(b, unitHash, tagHash)
  {
  }

  // ---- rendering -----------------------------------------------------------

  /** `value.toString()` for a present value. */
  function ValueText(v: Value): string
    requires v != NoValue
  {
    match v
    case Str(s) => s
    case Num(n) => IntToString(n)
    case Tag(nt) => TagName(nt)
  }

  /** `value != null ? value.toString() : "null"`. */
  function ValueOrNull(v: Value): string
  {
    if v == NoValue then "null" else ValueText(v)
  }

  /** `Symbol.toString`. */
  function ToString(s: Symbol): (r: string)
    ensures IsTerminal(s) ==>
      r == "token[" + UnitName(s.kind.value) + ", " + ValueOrNull(s.value) + "]"
    ensures IsNonTerminal(s) ==> r == "non-terminal[" + ValueOrNull(s.value) + "]"
  {
    var valueStr := ValueOrNull(s.value);
    var typeStr := if s.kind.Some? then UnitName(s.kind.value) else "null";
    if IsTerminal(s) then "token[" + typeStr + ", " + valueStr + "]"
    else "non-terminal[" + valueStr + "]"
  }

  /** The rendering tells terminals from non-terminals and, like equality,
      does not depend on the position. */
  lemma ToStringProperties(a: Symbol, b: Symbol)
    ensures IsTerminal(a) && IsNonTerminal(b) ==> ToString(a) != ToString(b)
    ensures Equals(a, b) ==> ToString(a) == ToString(b)
  {
    if IsTerminal(a) && IsNonTerminal(b) {
      assert ToString(a)[0] == 't' && ToString(b)[0] == 'n';
    }
  }

  // ---- LaTeX escaping ------------------------------------------------------

  /** `String.replace` with a one-character target: every occurrence of `c`
      becomes `r`. */
  function ReplaceChar(s: string, c: char, r: string): string
  {
    if s == [] then [] else (if s[0] == c then r else [s[0]]) + ReplaceChar(s[1..], c, r)
  }

  /** The LaTeX text of each special character. */
  const EscBackslash := "\\textbackslash "
  const EscAmpersand := "\\&"
  const EscPercent := "\\%"
  const EscDollar := "\\$"
  const EscHash := "\\#"
  const EscUnderscore := "\\_"
  const EscLeftBrace := "\\{"
  const EscRightBrace := "\\}"
  const EscTilde := "\\textasciitilde "
  const EscCaret := "\\textasciicircum "

  /** The ten replacements of `escapeLaTeX`, in the source's order:
      backslash first. */
  const EscapeTable: seq<(char, string)> := [
    ('\\', EscBackslash),
    ('&', EscAmpersand),
    ('%', EscPercent),
    ('$', EscDollar),
    ('#', EscHash),
    ('_', EscUnderscore),
    ('{', EscLeftBrace),
    ('}', EscRightBrace),
    ('~', EscTilde),
    ('^', EscCaret)
  ]

  /** `s.replace(c0, r0).replace(c1, r1)...`: the passes one after the other. */
  function ApplyPasses(s: string, passes: seq<(char, string)>): string
    decreases passes
  {
    if passes == [] then s else ApplyPasses(ReplaceChar(s, passes[0].0, passes[0].1), passes[1..])
  }

  /** `escapeLaTeX`: "" for null, otherwise the ten replacements in turn. The
      result equals escaping every character on its own. */
  function EscapeLaTeX(s: Option<string>): (r: string)
    ensures s.None? ==> r == ""
    ensures s.Some? ==> r == EscapeEach(s.value)
  {
    if s.None? then ""
    else
      EscapePassesPerChar(s.value);
      ApplyPasses(s.value, EscapeTable)
  }

  /** A string with none of `\ & % $ # _ { } ~ ^` comes back unchanged. */
  lemma EscapeLaTeXLeavesPlainText(s: string)
    requires forall i :: 0 <= i < |s| ==> !IsLaTeXSpecial(s[i])
    ensures EscapeLaTeX(Some(s)) == s
  {
    EscapeEachPlain(s);
  }

  predicate IsLaTeXSpecial(c: char)
  {
    c in "\\&%$#_{}~^"
  }

  /** The escape of one character, independently of its neighbours. */
  function EscapeChar(c: char): string
  {
    match c
    case '\\' => EscBackslash
    case '&' => EscAmpersand
    case '%' => EscPercent
    case '$' => EscDollar
    case '#' => EscHash
    case '_' => EscUnderscore
    case '{' => EscLeftBrace
    case '}' => EscRightBrace
    case '~' => EscTilde
    case '^' => EscCaret
    case _ => [c]
  }

  /** Reference definition: each character escaped on its own. */
  function EscapeEach(s: string): string
  {
    if s == [] then [] else EscapeChar(s[0]) + EscapeEach(s[1..])
  }

  lemma {:induction false} ReplaceAppend(a: string, b: string, c: char, r: string)
    ensures ReplaceChar(a + b, c, r) == ReplaceChar(a, c, r) + ReplaceChar(b, c, r)
  {
    if a == [] {
      assert a + b == b;
    } else {
      assert (a + b)[1..] == a[1..] + b;
      ReplaceAppend(a[1..], b, c, r);
    }
  }

  lemma {:induction false} ReplaceAbsent(s: string, c: char, r: string)
    requires c !in s
    ensures ReplaceChar(s, c, r) == s
  {
    if s != [] {
      ReplaceAbsent(s[1..], c, r);
    }
  }

  lemma {:induction false} PassesAppend(a: string, b: string, passes: seq<(char, string)>)
    ensures ApplyPasses(a + b, passes) == ApplyPasses(a, passes) + ApplyPasses(b, passes)
    decreases passes
  {
    if passes != [] {
      var (c, r) := passes[0];
      ReplaceAppend(a, b, c, r);
      PassesAppend(ReplaceChar(a, c, r), ReplaceChar(b, c, r), passes[1..]);
    }
  }

  lemma {:induction false} PassesAbsent(s: string, passes: seq<(char, string)>)
    requires forall i :: 0 <= i < |passes| ==> passes[i].0 !in s
    ensures ApplyPasses(s, passes) == s
    decreases passes
  {
    if passes != [] {
      ReplaceAbsent(s, passes[0].0, passes[0].1);
      PassesAbsent(s, passes[1..]);
    }
  }

  /** No replacement text holds a character that a later pass replaces. */
  predicate Layered(passes: seq<(char, string)>)
  {
    forall i, j :: 0 <= i < j < |passes| ==> passes[j].0 !in passes[i].1
  }

  /** The replacement of the first pass whose character is `c`. */
  function FirstEscape(c: char, passes: seq<(char, string)>): string
  {
    if passes == [] then [c]
    else if passes[0].0 == c then passes[0].1
    else FirstEscape(c, passes[1..])
  }

  lemma {:induction false} PassesOneChar(c: char, passes: seq<(char, string)>)
    requires Layered(passes)
    ensures ApplyPasses([c], passes) == FirstEscape(c, passes)
  {
    if passes != [] {
      var (d, r) := passes[0];
      if d == c {
        assert [c][1..] == [];
        assert ReplaceChar([c], d, r) == r;
        PassesAbsent(r, passes[1..]);
      } else {
        ReplaceAbsent([c], d, r);
        PassesOneChar(c, passes[1..]);
      }
    }
  }

  lemma EscapeTableLayered()
    ensures Layered(EscapeTable)
  {
    forall i, j | 0 <= i < j < |EscapeTable|
      ensures EscapeTable[j].0 !in EscapeTable[i].1
    {
      var s := EscapeTable[i].1;
      assert forall k :: 0 <= k < |s| ==> s[k] == '\\' || 'a' <= s[k] <= 'z' || s[k] == ' ' || s[k] == EscapeTable[i].0;
    }
  }

  /** One step down a table of passes, from entry `k` on. */
  lemma FirstEscapeStep(c: char, passes: seq<(char, string)>, k: nat)
    requires k < |passes|
    ensures FirstEscape(c, passes[k..]) ==
            if passes[k].0 == c then passes[k].1 else FirstEscape(c, passes[k + 1..])
  {
    assert passes[k..][0] == passes[k];
    assert passes[k..][1..] == passes[k + 1..];
  }

  lemma EscapeTableMeansEscapeChar(c: char)
    ensures FirstEscape(c, EscapeTable) == EscapeChar(c)
  {
    var t := EscapeTable;
    assert t[0..] == t;
    FirstEscapeStep(c, t, 0);
    FirstEscapeStep(c, t, 1);
    FirstEscapeStep(c, t, 2);
    FirstEscapeStep(c, t, 3);
    FirstEscapeStep(c, t, 4);
    if c != '\\' && c != '&' && c != '%' && c != '$' && c != '#' {
      EscapeTableSecondHalf(c);
    }
  }

  /** The last five entries of the table, for a character the first five
      do not replace. */
  lemma EscapeTableSecondHalf(c: char)
    requires c != '\\' && c != '&' && c != '%' && c != '$' && c != '#'
    ensures FirstEscape(c, EscapeTable[5..]) == EscapeChar(c)
  {
    var t := EscapeTable;
    FirstEscapeStep(c, t, 5);
    FirstEscapeStep(c, t, 6);
    FirstEscapeStep(c, t, 7);
    FirstEscapeStep(c, t, 8);
    FirstEscapeStep(c, t, 9);
    assert t[10..] == [];
  }

  lemma {:induction false} PassesOnEmpty(passes: seq<(char, string)>)
    ensures ApplyPasses("", passes) == ""
    decreases passes
  {
    if passes != [] {
      PassesOnEmpty(passes[1..]);
    }
  }

  lemma {:induction false} EscapePassesPerChar(s: string)
    ensures ApplyPasses(s, EscapeTable) == EscapeEach(s)
  {
    if s == [] {
      PassesOnEmpty(EscapeTable);
    } else {
      assert s == [s[0]] + s[1..];
      PassesAppend([s[0]], s[1..], EscapeTable);
      EscapeTableLayered();
      PassesOneChar(s[0], EscapeTable);
      EscapeTableMeansEscapeChar(s[0]);
      EscapePassesPerChar(s[1..]);
      assert ApplyPasses([s[0]], EscapeTable) == EscapeChar(s[0]);
      assert ApplyPasses(s, EscapeTable) == ApplyPasses([s[0]] + s[1..], EscapeTable);
    }
  }

  lemma {:induction false} EscapeEachPlain(s: string)
    requires forall i :: 0 <= i < |s| ==> !IsLaTeXSpecial(s[i])
    ensures EscapeEach(s) == s
  {
    if s != [] {
      assert !IsLaTeXSpecial(s[0]);
      EscapeEachPlain(s[1..]);
    }
  }
}
