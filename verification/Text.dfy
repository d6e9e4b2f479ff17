/** What Go's strings and unicode packages mean by blank. */
module Text {

  /** The white space characters of Unicode. */
  predicate IsSpace(c: char) {
    || '\t' <= c <= '\r' || c == ' ' || c == '\U{85}' || c == '\U{A0}' || c == '\U{1680}'
    || '\U{2000}' <= c <= '\U{200A}' || c == '\U{2028}' || c == '\U{2029}' || c == '\U{202F}' || c == '\U{205F}'
    || c == '\U{3000}'
  }

  /** These code points are white space and no others; a letter is none. */
  lemma WhiteSpace(c: char)
    ensures IsSpace(c) <==>
              c as int in {0x9, 0xA, 0xB, 0xC, 0xD, 0x20, 0x85, 0xA0, 0x1680, 0x2000, 0x2001, 0x2002, 0x2003, 0x2004,
                           0x2005, 0x2006, 0x2007, 0x2008, 0x2009, 0x200A, 0x2028, 0x2029, 0x202F, 0x205F, 0x3000}
    ensures IsSpace(' ') && IsSpace('\t') && IsSpace('\n') && IsSpace('\U{A0}') && !IsSpace('a')
  {
  }

  /** True of a text that is empty once its white space is trimmed. */
  predicate IsBlank(s: string) {
    forall i :: 0 <= i < |s| ==> IsSpace(s[i])
  }

  function TrimLeft(s: string): string {
    if s != [] && IsSpace(s[0]) then TrimLeft(s[1..]) else s
  }

  function TrimRight(s: string): string {
    if s != [] && IsSpace(s[|s| - 1]) then TrimRight(s[..|s| - 1]) else s
  }

  function Trim(s: string): string {
    TrimRight(TrimLeft(s))
  }

  lemma {:induction false} TrimRightIsTight(s: string)
    ensures var t := TrimRight(s); t <= s && (t != [] ==> !IsSpace(t[|t| - 1]))
  {
    if s != [] { TrimRightIsTight(s[..|s| - 1]); }
  }

  lemma {:induction false} TrimLeftIsTight(s: string)
    ensures var t := TrimLeft(s); t != [] ==> !IsSpace(t[0])
  {
    if s != [] { TrimLeftIsTight(s[1..]); }
  }

  lemma {:induction false} BlankTrims(s: string)
    ensures IsBlank(s) <==> TrimLeft(s) == []
  {
    if s != [] {
      BlankTrims(s[1..]);
      assert IsBlank(s) <==> IsSpace(s[0]) && IsBlank(s[1..]);
    }
  }

  /** A trimmed text begins and ends with something to see, and is empty exactly for a blank text. */
  lemma TrimIsTight(s: string)
    ensures var t := Trim(s);
            && (t == [] <==> IsBlank(s))
            && (t != [] ==> !IsSpace(t[0]) && !IsSpace(t[|t| - 1]))
  {
    BlankTrims(s);
    TrimLeftIsTight(s);
    TrimRightIsTight(TrimLeft(s));
    var left := TrimLeft(s);
    if left != [] && TrimRight(left) == [] { TrimmedAwayIsBlank(left); }
  }

  lemma {:induction false} TrimLeftIsSuffix(s: string) returns (a: nat)
    ensures a <= |s| && TrimLeft(s) == s[a..] && forall i :: 0 <= i < a ==> IsSpace(s[i])
  {
    a := 0;
    if s != [] && IsSpace(s[0]) {
      var rest := TrimLeftIsSuffix(s[1..]);
      a := rest + 1;
      assert s[1..][rest..] == s[a..];
      forall i | 0 <= i < a
        ensures IsSpace(s[i])
      {
        if i > 0 { assert s[i] == s[1..][i - 1]; }
      }
    }
  }

  lemma {:induction false} TrimRightIsPrefix(s: string)
    ensures var t := TrimRight(s);
            |t| <= |s| && t == s[..|t|] && forall i :: |t| <= i < |s| ==> IsSpace(s[i])
  {
    if s != [] && IsSpace(s[|s| - 1]) {
      var front, t := s[..|s| - 1], TrimRight(s);
      TrimRightIsPrefix(front);
      assert front[..|t|] == s[..|t|];
      forall i | |t| <= i < |s|
        ensures IsSpace(s[i])
      {
        if i < |s| - 1 { assert s[i] == front[i]; }
      }
    }
  }

  /** Trimming takes white space off both ends, all of it, and keeps everything between. */
  lemma TrimIsMiddle(s: string) returns (a: nat, b: nat)
    ensures a <= b <= |s| && Trim(s) == s[a..b]
    ensures forall i :: 0 <= i < a || b <= i < |s| ==> IsSpace(s[i])
    ensures a < b ==> !IsSpace(s[a]) && !IsSpace(s[b - 1])
  {
    a := TrimLeftIsSuffix(s);
    var left := TrimLeft(s);
    TrimRightIsPrefix(left);
    b := a + |Trim(s)|;
    assert s[a..][..b - a] == s[a..b];
    forall i | b <= i < |s|
      ensures IsSpace(s[i])
    {
      assert s[i] == left[i - a];
    }
    TrimIsTight(s);
  }

  lemma {:induction false} TrimmedAwayIsBlank(s: string)
    requires TrimRight(s) == []
    ensures IsBlank(s)
  {
    if s != [] {
      TrimmedAwayIsBlank(s[..|s| - 1]);
      assert forall i :: 0 <= i < |s| - 1 ==> s[..|s| - 1][i] == s[i];
    }
  }

  /** A TEXT column of the database holds any character but U+0000. */
  predicate FitsText(text: string) {
    '\0' !in text
  }
}
