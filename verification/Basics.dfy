/** Small shared vocabulary, and what its text functions mean. */
module Basics {
  datatype Option<+T> = None | Some(value: T)

  /** `str.upper` on ASCII letters. */
  function UpperChar(c: char): char {
    if 'a' <= c <= 'z' then (c as int - 32) as char else c
  }

  function Upper(s: string): (r: string)
    ensures |r| == |s| && forall i :: 0 <= i < |s| ==> r[i] == UpperChar(s[i])
  {
    if s == "" then "" else [UpperChar(s[0])] + Upper(s[1..])
  }

  /** The ASCII characters that `str.strip` and `str.split` take for blanks. */
  predicate IsSpace(c: char) { c == ' ' || 9 <= c as int <= 13 || 28 <= c as int <= 31 }

  function StripLeft(s: string): string {
    if s != "" && IsSpace(s[0]) then StripLeft(s[1..]) else s
  }

  function StripRight(s: string): string {
    if s != "" && IsSpace(s[|s| - 1]) then StripRight(s[..|s| - 1]) else s
  }

  /** `str.strip`. */
  function Strip(s: string): string { StripRight(StripLeft(s)) }

  // ---- texts that agree up to case and outer blanks ----

  /** The same character, or the two cases of one letter. */
  predicate SameLetter(c: char, d: char) {
    c == d || exists k: int :: 0 <= k < 26 && LetterPair(k, c, d)
  }

  predicate LetterPair(k: int, c: char, d: char) {
    && 'A' as int + k in {c as int, d as int} && 'a' as int + k in {c as int, d as int}
  }

  predicate SameLetters(a: string, b: string) { |a| == |b| && forall i :: 0 <= i < |a| ==> SameLetter(a[i], b[i]) }

  lemma UpperCharIff(c: char, d: char)
    ensures UpperChar(c) == UpperChar(d) <==> SameLetter(c, d)
  {
    if c != d && UpperChar(c) == UpperChar(d) {
      assert LetterPair(UpperChar(c) as int - 'A' as int, c, d);
    }
  }

  lemma UpperIff(a: string, b: string)
    ensures Upper(a) == Upper(b) <==> SameLetters(a, b)
  {
    forall i | 0 <= i < |a| && i < |b| ensures Upper(a)[i] == Upper(b)[i] <==> SameLetter(a[i], b[i]) { UpperCharIff(a[i], b[i]); }
  }

  predicate Blank(c: char) { c in " \t\n\r" || c as int in {11, 12, 28, 29, 30, 31} }

  /** `s[i..j]` is what is left of `s` without the blanks around it. */
  ghost predicate IsCore(s: string, i: int, j: int) {
    && 0 <= i <= j <= |s|
    && (forall k :: 0 <= k < i || j <= k < |s| ==> Blank(s[k]))
    && (i < j ==> !Blank(s[i]) && !Blank(s[j - 1]))
  }

  /** The same text up to outer blanks and the case of its letters. */
  ghost predicate SameName(a: string, b: string) {
    exists i, j, k, l :: IsCore(a, i, j) && IsCore(b, k, l) && SameLetters(a[i..j], b[k..l])
  }

  lemma BlankIff(c: char)
    ensures IsSpace(c) <==> Blank(c)
  {
    assert " \t\n\r"[0] == ' ' && " \t\n\r"[1] == '\t' && " \t\n\r"[2] == '\n' && " \t\n\r"[3] == '\r';
  }

  lemma {:induction false} StripLeftIs(s: string) returns (i: nat)
    ensures i <= |s| && StripLeft(s) == s[i..] && (forall k :: 0 <= k < i ==> Blank(s[k])) && (i < |s| ==> !Blank(s[i]))
  {
    if s != "" { BlankIff(s[0]); }
    if s != "" && IsSpace(s[0]) {
      var n := StripLeftIs(s[1..]);
      i := n + 1;
      forall k | 0 <= k < i ensures Blank(s[k]) { if k > 0 { assert s[k] == s[1..][k - 1]; } }
    } else {
      i := 0;
    }
  }

  lemma {:induction false} StripRightIs(s: string) returns (j: nat)
    ensures j <= |s| && StripRight(s) == s[..j] && (forall k :: j <= k < |s| ==> Blank(s[k])) && (j > 0 ==> !Blank(s[j - 1]))
  {
    var n := |s| - 1;
    if s != "" { BlankIff(s[n]); }
    if s != "" && IsSpace(s[n]) {
      j := StripRightIs(s[..n]);
      assert s[..n][..j] == s[..j];
      forall k | j <= k < |s| ensures Blank(s[k]) { if k < n { assert s[k] == s[..n][k]; } }
    } else {
      j := |s|;
      assert s[..j] == s;
    }
  }

  /** Stripping leaves the core. */
  lemma StripIsCore(s: string) returns (i: nat, j: nat)
    ensures IsCore(s, i, j) && Strip(s) == s[i..j]
  {
    i := StripLeftIs(s);
    var t := s[i..];
    var n := StripRightIs(t);
    j := i + n;
    forall k | j <= k < |s| ensures Blank(s[k]) { assert s[k] == t[k - i]; }
    if n > 0 { assert t[n - 1] == s[j - 1]; }
    assert t[..n] == s[i..j];
  }

  lemma CoreIsUnique(s: string, i: int, j: int, k: int, l: int)
    requires IsCore(s, i, j) && IsCore(s, k, l)
    ensures s[i..j] == s[k..l]
  {}

  /** Stripped and upper-cased texts are equal exactly for the same name. */
  lemma SameNameIff(a: string, b: string)
    ensures Upper(Strip(a)) == Upper(Strip(b)) <==> SameName(a, b)
  {
    var i, j := StripIsCore(a);
    var k, l := StripIsCore(b);
    UpperIff(a[i..j], b[k..l]);
    if SameName(a, b) {
      var i', j', k', l' :| IsCore(a, i', j') && IsCore(b, k', l') && SameLetters(a[i'..j'], b[k'..l']);
      CoreIsUnique(a, i, j, i', j');
      CoreIsUnique(b, k, l, k', l');
    }
  }
}
