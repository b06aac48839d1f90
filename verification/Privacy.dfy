/** The label predicates the recorder and the scaffolder rest on
    (src/privacy.rs). Every accepted character is ASCII, so counting characters
    counts bytes. */
module Privacy {
  const MAX_LABEL: nat := 128
  const MAX_IDENTIFIER: nat := 64

  predicate IsAlpha(c: char) { 'a' <= c <= 'z' || 'A' <= c <= 'Z' }

  predicate IsDigit(c: char) { '0' <= c <= '9' }

  predicate IsLabelChar(c: char) {
    IsAlpha(c) || IsDigit(c) || c in ['_', '-', '.', ':']
  }

  predicate AllLabelChars(s: string) {
    forall i :: 0 <= i < |s| ==> IsLabelChar(s[i])
  }

  predicate ValidTool(s: string) {
    s != "" && |s| <= MAX_LABEL && AllLabelChars(s)
  }

  predicate ValidIdentifier(s: string) {
    s != "" && |s| <= MAX_IDENTIFIER && IsAlpha(s[0]) && AllLabelChars(s[1..])
  }

  /** Letters, digits and the four marks by their ASCII codes. */
  predicate IsLetterCode(n: int) { 65 <= n <= 90 || 97 <= n <= 122 }

  predicate IsLabelCode(n: int) { IsLetterCode(n) || 48 <= n <= 57 || n in {45, 46, 58, 95} }

  /** A tool name is 1 to 128 letters, digits and marks; an identifier is 1 to 64
      of them, the first a letter. */
  lemma {:induction false} LabelsMean(s: string)
    ensures ValidTool(s) <==> 1 <= |s| <= 128 && forall c :: c in s ==> IsLabelCode(c as int)
    ensures ValidIdentifier(s) <==>
      1 <= |s| <= 64 && IsLetterCode(s[0] as int) && forall c :: c in s ==> IsLabelCode(c as int)
  {
    if s != "" {
      assert s == [s[0]] + s[1..];
      assert forall c :: c in s <==> c == s[0] || c in s[1..];
    }
    assert forall c :: IsLabelChar(c) <==> IsLabelCode(c as int);
    assert AllLabelChars(s) <==> forall c :: c in s ==> IsLabelChar(c);
    assert s != "" ==> (AllLabelChars(s[1..]) <==> forall c :: c in s[1..] ==> IsLabelChar(c));
  }
}
