/**
 * Which strings Python's `int(name)` accepts: the entry lookup of the catalog
 * reserves every such name for positional access.
 */
module IntLiteral {

  /** The ASCII whitespace characters `int()` skips around a literal. */
  predicate IsSpace(c: char)
  {
    c == ' ' || c == '\t' || c == '\n' || c == '\r' || c == '\U{000B}' || c == '\U{000C}'
  }

  predicate IsDigit(c: char)
  {
    '0' <= c <= '9'
  }

  /** `s` without its leading and trailing spaces. */
  function Trim(s: string): (t: string)
    ensures |t| <= |s|
    ensures t != [] ==> !IsSpace(t[0]) && !IsSpace(t[|t| - 1])
    ensures exists a, b :: 0 <= a <= b <= |s| && t == s[a..b] && AllSpaces(s[..a]) && AllSpaces(s[b..])
    decreases |s|
  {
    if s == [] then
      assert s[0..0] == [] && s[..0] == [] && s[0..] == [];
      []
    else if IsSpace(s[0]) then
      var t := Trim(s[1..]);
      TrimDropsFirst(s, t);
      t
    else if IsSpace(s[|s| - 1]) then
      var t := Trim(s[..|s| - 1]);
      TrimDropsLast(s, s[..|s| - 1], t);
      t
    else
      assert s[0..|s|] == s && s[..0] == [] && s[|s|..] == [];
      s
  }

  predicate AllSpaces(s: string)
  {
    forall i :: 0 <= i < |s| ==> IsSpace(s[i])
  }

  /** A slice of `s[1..]` framed by spaces is a slice of `s` framed by spaces when `s[0]` is one. */
  lemma TrimDropsFirst(s: string, t: string)
    requires s != [] && IsSpace(s[0])
    requires exists a, b :: 0 <= a <= b <= |s[1..]| && t == s[1..][a..b] && AllSpaces(s[1..][..a]) && AllSpaces(s[1..][b..])
    ensures exists a, b :: 0 <= a <= b <= |s| && t == s[a..b] && AllSpaces(s[..a]) && AllSpaces(s[b..])
  {
    var a, b :| 0 <= a <= b <= |s[1..]| && t == s[1..][a..b] && AllSpaces(s[1..][..a]) && AllSpaces(s[1..][b..]);
    assert t == s[a + 1..b + 1];
    assert s[..a + 1] == [s[0]] + s[1..][..a];
    assert s[b + 1..] == s[1..][b..];
  }

  /** A slice of `s[..|s| - 1]` framed by spaces is a slice of `s` framed by spaces when the last character is one. */
  lemma TrimDropsLast(s: string, init: string, t: string)
    requires s != [] && IsSpace(s[|s| - 1]) && init == s[..|s| - 1]
    requires exists a, b :: 0 <= a <= b <= |init| && t == init[a..b] && AllSpaces(init[..a]) && AllSpaces(init[b..])
    ensures exists a, b :: 0 <= a <= b <= |s| && t == s[a..b] && AllSpaces(s[..a]) && AllSpaces(s[b..])
  {
    var a, b :| 0 <= a <= b <= |init| && t == init[a..b] && AllSpaces(init[..a]) && AllSpaces(init[b..]);
    assert t == s[a..b];
    assert s[..a] == init[..a];
    assert s[b..] == init[b..] + [s[|s| - 1]];
  }

  /** Decimal digits where a single underscore may separate two digits (`1_000`). */
  predicate DigitGroups(s: string)
  {
    && s != []
    && IsDigit(s[0])
    && IsDigit(s[|s| - 1])
    && forall i :: 0 <= i < |s| ==>
         IsDigit(s[i]) || (s[i] == '_' && 0 < i < |s| - 1 && IsDigit(s[i - 1]) && IsDigit(s[i + 1]))
  }

  /** `int(s)` succeeds: optional surrounding spaces, an optional sign, then digit groups. */
  predicate IsIntLiteral(s: string)
  {
    var t := Trim(s);
    t != [] && (if t[0] == '+' || t[0] == '-' then DigitGroups(t[1..]) else DigitGroups(t))
  }

  /** The decimal digit of `d`. */
  function DigitChar(d: nat): (c: char)
    requires d < 10
    ensures IsDigit(c)
  {
    ['0', '1', '2', '3', '4', '5', '6', '7', '8', '9'][d]
  }

  /** The decimal rendering of `n`, as `str(n)` writes it. */
  function Decimal(n: nat): (s: string)
    ensures s != [] && forall i :: 0 <= i < |s| ==> IsDigit(s[i])
  {
    if n < 10 then [DigitChar(n)] else Decimal(n / 10) + [DigitChar(n % 10)]
  }

  /** Every decimal rendering of an integer, with or without a minus sign, is an integer literal. */
  lemma DecimalIsIntLiteral(n: nat)
    ensures IsIntLiteral(Decimal(n))
    ensures IsIntLiteral("-" + Decimal(n))
  {
    var d := Decimal(n);
    var signed := "-" + d;
    TrimLeavesUnpadded(d);
    assert signed[|signed| - 1] == d[|d| - 1];
    TrimLeavesUnpadded(signed);
    assert signed[1..] == d;
  }

  /** A string that neither starts nor ends with a space is its own trimmed form. */
  lemma TrimLeavesUnpadded(s: string)
    requires s != [] && !IsSpace(s[0]) && !IsSpace(s[|s| - 1])
    ensures Trim(s) == s
  {
  }

  /** A name that starts with a letter is never an integer literal. */
  lemma LetterNameIsNotIntLiteral(s: string)
    requires s != [] && ('a' <= s[0] <= 'z' || 'A' <= s[0] <= 'Z')
    ensures !IsIntLiteral(s)
  {
    TrimKeepsFirst(s);
  }

  lemma {:induction false} TrimKeepsFirst(s: string)
    requires s != [] && !IsSpace(s[0])
    ensures Trim(s) != [] && Trim(s)[0] == s[0]
    decreases |s|
  {
    if IsSpace(s[|s| - 1]) {
      TrimKeepsFirst(s[..|s| - 1]);
    }
  }
}
