/** Characters and searching, shared by the IPC layers. A char stands for one byte of the C locale. */
module Text {

  predicate IsSpace(c: char) {
    c == ' ' || '\t' <= c <= '\r'
  }

  /** The six blanks of the C locale. */
  lemma SpaceChars(c: char)
    ensures IsSpace(c) <==> c in {' ', '\t', '\n', '\U{0b}', '\U{0c}', '\r'}
  {
  }

  function LowerChar(c: char): char {
    if 'A' <= c <= 'Z' then (c as int + 32) as char else c
  }

  /** Each capital of the C locale becomes the small letter at the same place; nothing else changes. */
  lemma LowerLetters(c: char)
    ensures 'A' <= c <= 'Z' ==> 'a' <= LowerChar(c) <= 'z' && LowerChar(c) - 'a' == c - 'A'
    ensures !('A' <= c <= 'Z') ==> LowerChar(c) == c
  {
  }

  function ToLower(s: string): (r: string)
    ensures |r| == |s|
  {
    seq(|s|, i requires 0 <= i < |s| => LowerChar(s[i]))
  }

  /** The index of the first c, or the length. */
  function IndexOfChar(text: string, c: char): (i: nat)
    ensures i <= |text| && c !in text[..i]
    ensures i < |text| ==> text[i] == c
  {
    if text == "" || text[0] == c then 0
    else
      var i := 1 + IndexOfChar(text[1..], c);
      assert text[..i] == [text[0]] + text[1..][..i - 1];
      i
  }

  lemma IndexOfCharUnique(text: string, c: char, i: nat)
    requires i <= |text| && c !in text[..i] && (i < |text| ==> text[i] == c)
    ensures i == IndexOfChar(text, c)
  {
    var j := IndexOfChar(text, c);
    assert forall k | 0 <= k < j :: text[k] == text[..j][k];
    assert forall k | 0 <= k < i :: text[k] == text[..i][k];
  }

  method Find(text: string, c: char) returns (i: nat)
    ensures i == IndexOfChar(text, c)
  {
    i := 0;
    while i < |text| && text[i] != c
      invariant i <= |text| && c !in text[..i]
    {
      i := i + 1;
    }
    IndexOfCharUnique(text, c, i);
  }
}
