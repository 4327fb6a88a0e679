/**
 * The two PHP string behaviours the manager relies on: `ucfirst`, which
 * upper-cases an initial ASCII letter, and the ASCII case folding PHP applies
 * when it compares method names. Both follow PHP 8.2 and later, where
 * neither depends on the locale.
 */
module PhpStrings {

  function UpperAscii(c: char): char {
    if 'a' <= c <= 'z' then (c as int - 32) as char else c
  }

  function LowerAscii(c: char): char {
    if 'A' <= c <= 'Z' then (c as int + 32) as char else c
  }

  /** PHP `ucfirst`: only the first character may change, and only from a to z. */
  function Ucfirst(s: string): (r: string)
    ensures |r| == |s|
    ensures forall i :: 1 <= i < |s| ==> r[i] == s[i]
    ensures |s| > 0 && 'a' <= s[0] <= 'z' ==> r[0] as int == s[0] as int - 32
    ensures |s| > 0 && !('a' <= s[0] <= 'z') ==> r == s
  {
    seq(|s|, i requires 0 <= i < |s| => if i == 0 then UpperAscii(s[0]) else s[i])
  }

  /**
   * The case-folded form under which PHP compares method names: each A-Z
   * becomes the matching a-z, every other character is kept, and so no
   * A-Z is left.
   */
  function Lower(s: string): (r: string)
    ensures |r| == |s|
    ensures forall i :: 0 <= i < |s| && 'A' <= s[i] <= 'Z' ==> r[i] as int == s[i] as int + 32
    ensures forall i :: 0 <= i < |s| && !('A' <= s[i] <= 'Z') ==> r[i] == s[i]
    ensures forall i :: 0 <= i < |r| ==> !('A' <= r[i] <= 'Z')
  {
    seq(|s|, i requires 0 <= i < |s| => LowerAscii(s[i]))
  }

  /** Two method names denote the same PHP method. */
  predicate SameName(a: string, b: string) {
    Lower(a) == Lower(b)
  }

  /** Folding distributes over concatenation. */
  lemma LowerAppend(a: string, b: string)
    ensures Lower(a + b) == Lower(a) + Lower(b)
  {
    assert forall i :: 0 <= i < |a + b| ==> Lower(a + b)[i] == (Lower(a) + Lower(b))[i];
  }

  /** `ucfirst` is invisible once case is folded. */
  lemma LowerUcfirst(s: string)
    ensures Lower(Ucfirst(s)) == Lower(s)
  {
    if s != [] {
      assert LowerAscii(UpperAscii(s[0])) == LowerAscii(s[0]);
      assert forall i :: 0 <= i < |s| ==> Lower(Ucfirst(s))[i] == Lower(s)[i];
    }
  }
}
