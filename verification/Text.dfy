/** Character classes, trimming and username validity. */
module Text {
  import Utf8

  /** The Unicode White_Space property. */
  predicate IsWhitespace(c: char) {
    var v := c as int;
    || 9 <= v <= 13 || v == 0x20 || v == 0x85 || v == 0xA0 || v == 0x1680
    || 0x2000 <= v <= 0x200A || v == 0x2028 || v == 0x2029 || v == 0x202F || v == 0x205F || v == 0x3000
  }

  /** The Unicode general category Cc. */
  predicate IsControl(c: char) {
    (c as int) < 0x20 || 0x7F <= c as int < 0xA0
  }

  function TrimStart(s: string): string {
    if s != "" && IsWhitespace(s[0]) then TrimStart(s[1..]) else s
  }

  function TrimEnd(s: string): string {
    if s != "" && IsWhitespace(s[|s| - 1]) then TrimEnd(s[..|s| - 1]) else s
  }

  function Trim(s: string): string {
    TrimEnd(TrimStart(s))
  }

  /** `trim_end_matches('\n')`: what the history keeps of a line. */
  function TrimNewlines(s: string): string {
    if s != "" && s[|s| - 1] == '\n' then TrimNewlines(s[..|s| - 1]) else s
  }

  predicate IsBlank(s: string) {
    forall i | 0 <= i < |s| :: IsWhitespace(s[i])
  }

  predicate IsValidUsername(username: string) {
    Trim(username) != "" && forall i | 0 <= i < |username| :: !IsControl(username[i])
  }

  lemma {:induction false} TrimStartIsSuffix(s: string)
    ensures |TrimStart(s)| <= |s| && TrimStart(s) == s[|s| - |TrimStart(s)|..]
    ensures IsBlank(s[..|s| - |TrimStart(s)|])
    ensures TrimStart(s) != "" ==> !IsWhitespace(TrimStart(s)[0])
  {
    if s != "" && IsWhitespace(s[0]) {
      TrimStartIsSuffix(s[1..]);
      var n := |s| - |TrimStart(s)|;
      assert s[..n] == [s[0]] + s[1..][..n - 1];
    }
  }

  lemma {:induction false} TrimEndIsPrefix(s: string)
    ensures |TrimEnd(s)| <= |s| && TrimEnd(s) == s[..|TrimEnd(s)|]
    ensures IsBlank(s[|TrimEnd(s)|..])
    ensures TrimEnd(s) != "" ==> !IsWhitespace(TrimEnd(s)[|TrimEnd(s)| - 1])
  {
    if s != "" && IsWhitespace(s[|s| - 1]) {
      TrimEndIsPrefix(s[..|s| - 1]);
      var n := |TrimEnd(s)|;
      assert s[n..] == s[..|s| - 1][n..] + [s[|s| - 1]];
    }
  }

  lemma {:induction false} TrimNewlinesIsPrefix(s: string)
    ensures |TrimNewlines(s)| <= |s| && TrimNewlines(s) == s[..|TrimNewlines(s)|]
    ensures forall i | |TrimNewlines(s)| <= i < |s| :: s[i] == '\n'
    ensures TrimNewlines(s) != "" ==> TrimNewlines(s)[|TrimNewlines(s)| - 1] != '\n'
  {
    if s != "" && s[|s| - 1] == '\n' { TrimNewlinesIsPrefix(s[..|s| - 1]); }
  }

  /** Trimming cuts blank text off both ends and nothing else, and what is left has none to cut. */
  lemma TrimIsTheCore(s: string) returns (lo: nat, hi: nat)
    ensures lo <= hi <= |s| && Trim(s) == s[lo..hi]
    ensures IsBlank(s[..lo]) && IsBlank(s[hi..])
    ensures Trim(s) != "" ==> !IsWhitespace(s[lo]) && !IsWhitespace(s[hi - 1])
    ensures Trim(s) == "" <==> IsBlank(s)
  {
    TrimStartIsSuffix(s);
    TrimEndIsPrefix(TrimStart(s));
    lo := |s| - |TrimStart(s)|;
    hi := lo + |Trim(s)|;
    assert TrimStart(s)[|Trim(s)|..] == s[hi..];
    if Trim(s) == "" {
      assert s == s[..lo] + s[hi..];
    } else {
      assert !IsWhitespace(s[hi - 1]);
      if |TrimStart(s)| > 0 { assert s[lo] == TrimStart(s)[0]; }
    }
  }

  /** Trimming a valid username gives a valid username that trimming leaves alone. */
  lemma TrimmedIsValid(s: string)
    requires IsValidUsername(s)
    ensures IsValidUsername(Trim(s)) && Trim(Trim(s)) == Trim(s)
    ensures |Utf8.Encode(Trim(s))| <= |Utf8.Encode(s)|
  {
    var lo, hi := TrimIsTheCore(s);
    var core := Trim(s);
    assert core == s[lo..hi];
    Utf8.PartIsNoLonger(s, lo, hi);
    assert core[0] == s[lo] && core[|core| - 1] == s[hi - 1];
    assert TrimStart(core) == core;
    assert TrimEnd(core) == core;
  }
}
