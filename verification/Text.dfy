/** The text handling the manifests and plans share: blanks, case, and digits, over ASCII. */
module Text {
  function LowerChar(c: char): char {
    if 'A' <= c <= 'Z' then (c as int + 32) as char else c
  }

  function Lower(s: string): (r: string)
    ensures |r| == |s|
    ensures forall i | 0 <= i < |s| :: r[i] == LowerChar(s[i])
  {
    seq(|s|, i requires 0 <= i < |s| => LowerChar(s[i]))
  }

  predicate IsSpace(c: char) {
    c == ' ' || '\t' <= c <= '\r'
  }

  /** The blanks are the space and the five control characters from tab to carriage return. */
  lemma Blanks(c: char)
    ensures IsSpace(c) <==> c in {' ', '\t', 0x0A as char, 0x0B as char, 0x0C as char, '\r'}
  {
  }

  predicate Blank(s: string) {
    forall ch <- s :: IsSpace(ch)
  }

  /** The text without its leading and trailing blanks. */
  function Trim(s: string): string
    decreases |s|
  {
    if s == "" then s
    else if IsSpace(s[0]) then Trim(s[1..])
    else if IsSpace(s[|s| - 1]) then Trim(s[..|s| - 1])
    else s
  }

  /** r is s[i..j], and only blanks stand around it. */
  predicate CutsOut(s: string, r: string, i: int, j: int) {
    0 <= i <= j <= |s| && r == s[i..j] && forall k | 0 <= k < |s| && !(i <= k < j) :: IsSpace(s[k])
  }

  /** One blank more at an end. */
  lemma Blanked(s: string, t: string, d: int, i: int, j: int)
    requires (d == 1 && s != "" && t == s[1..] && IsSpace(s[0]))
          || (d == 0 && s != "" && t == s[..|s| - 1] && IsSpace(s[|s| - 1]))
    requires 0 <= i <= j <= |t| && CutsOut(t, t[i..j], i, j)
    ensures CutsOut(s, t[i..j], i + d, j + d)
  {
    if d == 1 {
      assert s[1..][i..j] == s[i + 1..j + 1];
    } else {
      assert s[..|s| - 1][i..j] == s[i..j];
    }
    forall k | 0 <= k < |s| && !(i + d <= k < j + d)
      ensures IsSpace(s[k])
    {
      if 0 <= k - d < |t| {
        assert t[k - d] == s[k];
      }
    }
  }

  /** Trimming cuts away exactly the blanks at the ends. */
  lemma {:induction false} TrimCutsBlanks(s: string) returns (i: int, j: int)
    ensures var r := Trim(s);
      0 <= i <= j <= |s| && CutsOut(s, r, i, j) && (r != "" ==> !IsSpace(r[0]) && !IsSpace(r[|r| - 1]))
    decreases |s|
  {
    if s == "" {
      return 0, 0;
    } else if IsSpace(s[0]) {
      i, j := TrimCutsBlanks(s[1..]);
      Blanked(s, s[1..], 1, i, j);
      return i + 1, j + 1;
    } else if IsSpace(s[|s| - 1]) {
      var t := s[..|s| - 1];
      i, j := TrimCutsBlanks(t);
      Blanked(s, t, 0, i, j);
      return i, j;
    } else {
      assert s[0..|s|] == s;
      return 0, |s|;
    }
  }
}
