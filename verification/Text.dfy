// The SQL text functions the indexes and queries rely on.
module Text {
  // lower(), on ASCII.
  function LowerChar(c: char): char {
    if 'A' <= c <= 'Z' then (c as int + 32) as char else c
  }

  function Lower(s: string): string {
    if s == "" then "" else [LowerChar(s[0])] + Lower(s[1..])
  }

  lemma LowerTwice(s: string)
    ensures Lower(Lower(s)) == Lower(s)
  {
    if s != "" {
      assert Lower(s)[1..] == Lower(s[1..]);
    }
  }

  // Character by character: A to Z become a to z, everything else stays.
  lemma {:induction false} LowerIs(s: string)
    ensures |Lower(s)| == |s|
    ensures forall i :: 0 <= i < |s| ==> Lower(s)[i] == if 65 <= s[i] as int <= 90 then (s[i] as int + 32) as char else s[i]
  {
    if s != "" {
      LowerIs(s[1..]);
    }
  }
}
