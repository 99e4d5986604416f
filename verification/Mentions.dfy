/** Finding a mention of a user in a text. `alphanumeric` is the Unicode class of that name. */
module Mentions {
  import opened Common
  import opened ChatText

  type CharClass = char -> bool

  predicate IsWordChar(alphanumeric: CharClass, c: char) {
    alphanumeric(c) || c == '_'
  }

  /** An occurrence that is not the beginning of a longer word. */
  predicate EndsWord(alphanumeric: CharClass, text: string, end: nat) {
    end >= |text| || !IsWordChar(alphanumeric, text[end])
  }

  function Needle(username: string): string {
    "@" + username
  }

  /** What a mention is: some occurrence of the name that ends a word. */
  predicate Mentioned(alphanumeric: CharClass, text: string, username: string) {
    exists i | 0 <= i <= |text| ::
      OccursAt(text, i, Needle(username)) && EndsWord(alphanumeric, text, i + |Needle(username)|)
  }

  /** What the search finds: occurrences are taken from the left and do not overlap. */
  function Scan(alphanumeric: CharClass, text: string, username: string, start: nat): bool
    requires start <= |text|
    decreases |text| - start
  {
    var needle := Needle(username);
    match FindFrom(text, needle, start)
    case None => false
    case Some(i) => EndsWord(alphanumeric, text, i + |needle|) || Scan(alphanumeric, text, username, i + |needle|)
  }

  /** `message_mentions_user`. */
  method MentionsUser(alphanumeric: CharClass, text: string, username: string) returns (r: bool)
    ensures r == Scan(alphanumeric, text, username, 0)
  {
    var needle := Needle(username);
    var searchStart := 0;
    while true
      invariant searchStart <= |text|
      invariant Scan(alphanumeric, text, username, 0) == Scan(alphanumeric, text, username, searchStart)
      decreases |text| - searchStart
    {
      var found := FindFrom(text, needle, searchStart);
      if found.None? {
        return false;
      }
      var after := found.value + |needle|;
      if after == |text| || !IsWordChar(alphanumeric, text[after]) {
        return true;
      }
      searchStart := after;
    }
  }

  /**
    The name can be skipped over: it ends with its own first `b` characters, and what comes after
    those in it is a word character.
   */
  predicate OverlapsAt(alphanumeric: CharClass, needle: string, b: nat) {
    && 0 < b < |needle|
    && needle[|needle| - b..] == needle[..b]
    && IsWordChar(alphanumeric, needle[b])
  }

  predicate NeverOverlaps(alphanumeric: CharClass, needle: string) {
    forall b | 0 < b < |needle| :: !OverlapsAt(alphanumeric, needle, b)
  }

  lemma {:induction false} ScanIsSound(alphanumeric: CharClass, text: string, username: string, start: nat)
    requires start <= |text|
    ensures Scan(alphanumeric, text, username, start) ==> Mentioned(alphanumeric, text, username)
    decreases |text| - start
  {
    var found := FindFrom(text, Needle(username), start);
    if found.Some? {
      ScanIsSound(alphanumeric, text, username, found.value + |Needle(username)|);
    }
  }

  /** An occurrence that starts inside another one overlaps it. */
  lemma SkippedOverlaps(alphanumeric: CharClass, text: string, needle: string, i: nat, j: nat)
    requires needle != "" && OccursAt(text, i, needle) && OccursAt(text, j, needle) && i < j < i + |needle|
    requires !EndsWord(alphanumeric, text, i + |needle|)
    ensures OverlapsAt(alphanumeric, needle, i + |needle| - j)
  {
    var n, b := |needle|, i + |needle| - j;
    assert needle[n - b..] == text[i..i + n][n - b..] == text[j..i + n];
    assert needle[..b] == text[j..j + n][..b] == text[j..i + n];
    assert needle[b] == text[j..j + n][b] == text[i + n];
  }

  lemma {:induction false} ScanIsComplete(
    alphanumeric: CharClass, text: string, username: string, start: nat, j: nat)
    requires NeverOverlaps(alphanumeric, Needle(username))
    requires start <= j && start <= |text|
    requires OccursAt(text, j, Needle(username))
    requires EndsWord(alphanumeric, text, j + |Needle(username)|)
    ensures Scan(alphanumeric, text, username, start)
    decreases |text| - start
  {
    var needle := Needle(username);
    var i := FindFrom(text, needle, start).value;
    if !EndsWord(alphanumeric, text, i + |needle|) {
      if j < i + |needle| {
        SkippedOverlaps(alphanumeric, text, needle, i, j);
      } else {
        ScanIsComplete(alphanumeric, text, username, i + |needle|, j);
      }
    }
  }

  /** A text in which a name that overlaps itself is missed: the name and the rest of a second one. */
  function Overlapped(needle: string, b: nat): string
    requires b <= |needle|
  {
    needle + needle[b..]
  }

  lemma OverlappedIsMissed(alphanumeric: CharClass, username: string, b: nat)
    requires OverlapsAt(alphanumeric, Needle(username), b)
    ensures Mentioned(alphanumeric, Overlapped(Needle(username), b), username)
    ensures !Scan(alphanumeric, Overlapped(Needle(username), b), username, 0)
  {
    var needle := Needle(username);
    var text, n := Overlapped(needle, b), |needle|;
    assert text[..n] == needle;
    assert OccursAt(text, 0, needle);
    assert text[n - b..n - b + n] == needle[n - b..] + needle[b..] == needle[..b] + needle[b..] == needle;
    assert OccursAt(text, n - b, needle);
    assert EndsWord(alphanumeric, text, n - b + n);
    assert FindFrom(text, needle, 0) == Some(0);
    assert text[n] == needle[b];
    assert FindFrom(text, needle, n).None?;
  }

  /**
    The search finds exactly the mentions, in every text, iff the name cannot be skipped over: no
    proper ending of `@name` is also its beginning and followed there by a word character.
   */
  lemma ScanIsExactIff(alphanumeric: CharClass, username: string)
    ensures (forall text :: Scan(alphanumeric, text, username, 0) == Mentioned(alphanumeric, text, username))
            <==> NeverOverlaps(alphanumeric, Needle(username))
  {
    var needle := Needle(username);
    if NeverOverlaps(alphanumeric, needle) {
      forall text
        ensures Scan(alphanumeric, text, username, 0) == Mentioned(alphanumeric, text, username)
      {
        ScanIsSound(alphanumeric, text, username, 0);
        if Mentioned(alphanumeric, text, username) {
          var j :| 0 <= j <= |text| && OccursAt(text, j, needle) && EndsWord(alphanumeric, text, j + |needle|);
          ScanIsComplete(alphanumeric, text, username, 0, j);
        }
      }
    } else {
      var b :| 0 < b < |needle| && OverlapsAt(alphanumeric, needle, b);
      OverlappedIsMissed(alphanumeric, username, b);
    }
  }

  /** A name without `@` cannot be skipped over. */
  lemma NameWithoutAtIsExact(alphanumeric: CharClass, text: string, username: string)
    requires '@' !in username
    ensures Scan(alphanumeric, text, username, 0) == Mentioned(alphanumeric, text, username)
  {
    var needle := Needle(username);
    forall b | 0 < b < |needle| ensures !OverlapsAt(alphanumeric, needle, b) {
      assert needle[|needle| - b] in username;
      assert needle[|needle| - b..][0] == needle[|needle| - b];
      assert needle[..b][0] == '@';
    }
    ScanIsExactIff(alphanumeric, username);
  }
}
