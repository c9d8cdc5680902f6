// The text helpers the INI editor and the snapshot reader share: the six ASCII
// blanks, trimming, case folding and searching for a character.
module Text {

  predicate IsSpace(c: char) {
    c == ' ' || '\t' <= c <= '\r'
  }

  lemma BlanksAre(c: char)
    ensures IsSpace(c) <==> c in {' ', '\t', '\n', '\U{000B}', '\U{000C}', '\r'}
  {
  }

  function LowerChar(c: char): char {
    if 'A' <= c <= 'Z' then (c as int - 'A' as int + 'a' as int) as char else c
  }

  function Lower(s: string): (r: string)
    ensures |r| == |s| && forall i :: 0 <= i < |s| ==> r[i] == LowerChar(s[i])
  {
    seq(|s|, i requires 0 <= i < |s| => LowerChar(s[i]))
  }

  /** The first place `c` stands, or the length of the text. */
  function IndexOf(s: string, c: char): (k: nat)
    ensures k <= |s| && (k < |s| ==> s[k] == c)
    ensures forall i :: 0 <= i < k ==> s[i] != c
  {
    if s == "" || s[0] == c then 0 else 1 + IndexOf(s[1..], c)
  }

  lemma {:induction false} IndexOfUnique(s: string, c: char, k: nat)
    requires k <= |s| && (k < |s| ==> s[k] == c) && forall i :: 0 <= i < k ==> s[i] != c
    ensures IndexOf(s, c) == k
  {
    if k > 0 {
      IndexOfUnique(s[1..], c, k - 1);
    }
  }

  function TrimEnd(s: string): (r: string)
    ensures r <= s && (r == "" || !IsSpace(r[|r| - 1]))
  {
    if s != "" && IsSpace(s[|s| - 1]) then TrimEnd(s[..|s| - 1]) else s
  }

  function Trim(s: string): (r: string)
    ensures r == "" || (!IsSpace(r[0]) && !IsSpace(r[|r| - 1]))
  {
    if s != "" && IsSpace(s[0]) then Trim(s[1..]) else TrimEnd(s)
  }

  /** A text that trimming leaves alone and that is not empty. */
  predicate Solid(s: string) {
    s != "" && !IsSpace(s[0]) && !IsSpace(s[|s| - 1])
  }

  lemma {:induction false} TrimEndKeeps(s: string, p: nat)
    requires p < |s| && !IsSpace(s[p])
    ensures p < |TrimEnd(s)|
  {
    if IsSpace(s[|s| - 1]) {
      TrimEndKeeps(s[..|s| - 1], p);
    }
  }

  /** Trimming cuts one block of blanks off each end. */
  lemma {:induction false} TrimIsMiddle(s: string)
    ensures exists b: nat, e: nat :: IsMiddle(s, b, e)
  {
    if s != "" && IsSpace(s[0]) {
      TrimIsMiddle(s[1..]);
      var b: nat, e: nat :| IsMiddle(s[1..], b, e);
      assert s[1..][b..e] == s[b + 1..e + 1];
      assert forall i {:trigger s[i]} :: 0 < i < b + 1 ==> s[i] == s[1..][i - 1];
      assert forall i {:trigger s[i]} :: e + 1 <= i < |s| ==> s[i] == s[1..][i - 1];
      assert IsMiddle(s, b + 1, e + 1);
    } else {
      TrimEndCutsBlanks(s);
      assert IsMiddle(s, 0, |TrimEnd(s)|);
    }
  }

  ghost predicate IsMiddle(s: string, b: nat, e: nat) {
    && b <= e <= |s|
    && Trim(s) == s[b..e]
    && (forall i :: 0 <= i < b ==> IsSpace(s[i]))
    && (forall i :: e <= i < |s| ==> IsSpace(s[i]))
  }

  lemma {:induction false} TrimEndCutsBlanks(s: string)
    ensures forall i :: |TrimEnd(s)| <= i < |s| ==> IsSpace(s[i])
  {
    if s != "" && IsSpace(s[|s| - 1]) {
      TrimEndCutsBlanks(s[..|s| - 1]);
    }
  }

  lemma {:induction false} TrimEndUnique(s: string, e: nat)
    requires e <= |s| && (e > 0 ==> !IsSpace(s[e - 1])) && forall i :: e <= i < |s| ==> IsSpace(s[i])
    ensures TrimEnd(s) == s[..e]
  {
    if e < |s| {
      TrimEndUnique(s[..|s| - 1], e);
      assert s[..|s| - 1][..e] == s[..e];
    } else {
      assert s[..e] == s;
    }
  }

  /** Any cut of that kind that leaves no blank at an end gives the trimmed text. */
  lemma {:induction false} TrimUnique(s: string, b: nat, e: nat)
    requires b <= e <= |s| && (b < e ==> !IsSpace(s[b]) && !IsSpace(s[e - 1]))
    requires (forall i :: 0 <= i < b ==> IsSpace(s[i])) && forall i :: e <= i < |s| ==> IsSpace(s[i])
    ensures Trim(s) == s[b..e]
  {
    if b > 0 {
      TrimUnique(s[1..], b - 1, e - 1);
      assert s[1..][b - 1..e - 1] == s[b..e];
    } else if e == 0 && s != "" {
      TrimUnique(s[1..], 0, 0);
    } else {
      TrimEndUnique(s, e);
      assert s[b..e] == s[..e];
    }
  }

  predicate Blank(s: string) {
    forall i :: 0 <= i < |s| ==> IsSpace(s[i])
  }

  /** Blanks around a text are taken off again. */
  lemma TrimPadded(before: string, text: string, after: string)
    requires Blank(before) && Blank(after) && (text == "" || Solid(text))
    ensures Trim(before + text + after) == text
  {
    var s, b, e := before + text + after, |before|, |before| + |text|;
    assert s[b..e] == text;
    assert forall i :: 0 <= i < b ==> s[i] == before[i];
    assert forall i :: e <= i < |s| ==> s[i] == after[i - e];
    TrimUnique(s, b, e);
  }

  /** The trimming loop: one index from each end. */
  method TrimCopy(text: string) returns (r: string)
    ensures r == Trim(text)
  {
    var begin := 0;
    while begin < |text| && IsSpace(text[begin])
      invariant begin <= |text| && forall i :: 0 <= i < begin ==> IsSpace(text[i])
    {
      begin := begin + 1;
    }
    var end := |text|;
    while end > begin && IsSpace(text[end - 1])
      invariant begin <= end <= |text| && forall i :: end <= i < |text| ==> IsSpace(text[i])
    {
      end := end - 1;
    }
    TrimUnique(text, begin, end);
    r := text[begin..end];
  }
}
