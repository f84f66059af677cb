/** The string helpers of Go's `strings` package that the normalisers use, on ASCII text. */
module Text {

  predicate IsSpace(c: char) {
    c == ' ' || '\t' <= c <= '\r'
  }

  predicate IsBlank(c: char) {
    c == ' ' || c == '\t'
  }

  predicate IsSlash(c: char) {
    c == '/'
  }

  function TrimLeft(s: string, cut: char -> bool): string {
    if s != [] && cut(s[0]) then TrimLeft(s[1..], cut) else s
  }

  function TrimRight(s: string, cut: char -> bool): string {
    if s != [] && cut(s[|s| - 1]) then TrimRight(s[..|s| - 1], cut) else s
  }

  /** `strings.Trim` and, with `IsSpace`, `strings.TrimSpace`. */
  function Trim(s: string, cut: char -> bool): string {
    TrimRight(TrimLeft(s, cut), cut)
  }

  /** `strings.TrimSuffix(s, ".")`. */
  function TrimDot(s: string): string {
    if s != [] && s[|s| - 1] == '.' then s[..|s| - 1] else s
  }

  function LowerChar(c: char): char {
    if 'A' <= c <= 'Z' then ((c as int) + 32) as char else c
  }

  function UpperChar(c: char): char {
    if 'a' <= c <= 'z' then ((c as int) - 32) as char else c
  }

  function Lower(s: string): (r: string)
    ensures |r| == |s|
  {
    if s == [] then [] else [LowerChar(s[0])] + Lower(s[1..])
  }

  function Upper(s: string): (r: string)
    ensures |r| == |s|
  {
    if s == [] then [] else [UpperChar(s[0])] + Upper(s[1..])
  }

  /** `sub` stands in `s` at `i`. */
  predicate OccursAt(s: string, sub: string, i: nat) {
    i + |sub| <= |s| && s[i..i + |sub|] == sub
  }

  /** `strings.Contains`. */
  predicate Contains(s: string, sub: string) {
    exists i: nat | i <= |s| :: OccursAt(s, sub, i)
  }

  /** No character of `s` satisfies `p`. */
  predicate Lacks(s: string, p: char -> bool) {
    forall i | 0 <= i < |s| :: !p(s[i])
  }

  predicate IsLower(s: string) {
    forall i | 0 <= i < |s| :: LowerChar(s[i]) == s[i]
  }

  /** The only white space in `s` is spaces and tabs. */
  predicate PlainSpaces(s: string) {
    forall i | 0 <= i < |s| && IsSpace(s[i]) :: IsBlank(s[i])
  }

  lemma {:induction false} TrimLeftIsSuffix(s: string, cut: char -> bool)
    ensures |TrimLeft(s, cut)| <= |s| && TrimLeft(s, cut) == s[|s| - |TrimLeft(s, cut)|..]
    ensures TrimLeft(s, cut) != [] ==> !cut(TrimLeft(s, cut)[0])
  {
    if s != [] && cut(s[0]) {
      TrimLeftIsSuffix(s[1..], cut);
    }
  }

  lemma {:induction false} TrimRightIsPrefix(s: string, cut: char -> bool)
    ensures TrimRight(s, cut) <= s
    ensures TrimRight(s, cut) != [] ==> !cut(TrimRight(s, cut)[|TrimRight(s, cut)| - 1])
  {
    if s != [] && cut(s[|s| - 1]) {
      TrimRightIsPrefix(s[..|s| - 1], cut);
    }
  }

  /** Trimming takes a part of the text that neither begins nor ends with what is cut. */
  lemma TrimIsPart(s: string, cut: char -> bool)
    ensures Contains(s, Trim(s, cut))
    ensures Trim(s, cut) != [] ==> !cut(Trim(s, cut)[0]) && !cut(Trim(s, cut)[|Trim(s, cut)| - 1])
  {
    var left := TrimLeft(s, cut);
    TrimLeftIsSuffix(s, cut);
    TrimRightIsPrefix(left, cut);
    assert OccursAt(s, Trim(s, cut), |s| - |left|);
  }

  lemma TrimDotIsPart(s: string)
    ensures Contains(s, TrimDot(s))
  {
    assert OccursAt(s, TrimDot(s), 0);
  }

  lemma {:induction false} LowerAt(s: string, i: nat)
    requires i < |s|
    ensures Lower(s)[i] == LowerChar(s[i])
  {
    if i > 0 {
      LowerAt(s[1..], i - 1);
    }
  }

  lemma {:induction false} LowerFixes(s: string)
    requires IsLower(s)
    ensures Lower(s) == s
  {
    if s != [] {
      assert forall i | 0 <= i < |s[1..]| :: s[1..][i] == s[i + 1];
      LowerFixes(s[1..]);
    }
  }

  lemma LowerIsLower(s: string)
    ensures IsLower(Lower(s))
    ensures PlainSpaces(s) ==> PlainSpaces(Lower(s))
  {
    forall i | 0 <= i < |s|
      ensures Lower(s)[i] == LowerChar(s[i])
    {
      LowerAt(s, i);
    }
  }

  lemma PartKeeps(s: string, part: string, p: char -> bool)
    requires Contains(s, part)
    ensures Lacks(s, p) ==> Lacks(part, p)
    ensures IsLower(s) ==> IsLower(part)
    ensures PlainSpaces(s) ==> PlainSpaces(part)
  {
    var k: nat :| k <= |s| && OccursAt(s, part, k);
    assert forall i | 0 <= i < |part| :: part[i] == s[k + i];
  }

  lemma PartOfPart(s: string, part: string, sub: string)
    requires Contains(s, part) && Contains(part, sub)
    ensures Contains(s, sub)
  {
    var k: nat :| k <= |s| && OccursAt(s, part, k);
    var i: nat :| i <= |part| && OccursAt(part, sub, i);
    assert s[k..k + |part|] == part && part[i..i + |sub|] == sub;
    assert forall j | 0 <= j < |sub| :: s[k + i + j] == part[i + j] == sub[j];
    assert s[k + i..k + i + |sub|] == sub;
    assert OccursAt(s, sub, k + i);
  }
}
