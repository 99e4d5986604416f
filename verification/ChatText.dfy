/** The text of a chat line: formatting, parsing it back, and finding mentions. */
module ChatText {
  import opened Common

  predicate OccursAt(s: string, i: nat, needle: string) {
    i + |needle| <= |s| && s[i..i + |needle|] == needle
  }

  predicate Contains(s: string, needle: string) {
    exists i | 0 <= i <= |s| :: OccursAt(s, i, needle)
  }

  /** `str::find`: where the needle occurs first. */
  function Find(s: string, needle: string): (r: Option<nat>)
    ensures r.Some? ==> OccursAt(s, r.value, needle) && forall i | 0 <= i < r.value :: !OccursAt(s, i, needle)
    ensures r.None? ==> forall i | 0 <= i <= |s| :: !OccursAt(s, i, needle)
  {
    FindFrom(s, needle, 0)
  }

  function FindFrom(s: string, needle: string, start: nat): (r: Option<nat>)
    requires start <= |s|
    ensures r.Some? ==> start <= r.value && OccursAt(s, r.value, needle)
                        && forall i | start <= i < r.value :: !OccursAt(s, i, needle)
    ensures r.None? ==> forall i | start <= i <= |s| :: !OccursAt(s, i, needle)
    decreases |s| - start
  {
    if OccursAt(s, start, needle) then Some(start)
    else if start == |s| then None
    else FindFrom(s, needle, start + 1)
  }

  const USER_END: string := "]("
  const TIME_END: string := "): "

  function Format(username: string, timestamp: string, content: string): string {
    "[" + username + USER_END + timestamp + TIME_END + content
  }

  datatype ChatLine = ChatLine(username: string, timestamp: string, content: string)

  /** `parse_chat_message`: the separators are looked for from the left. */
  function Parse(message: string): Option<ChatLine> {
    var closeUser := Find(message, USER_END);
    if closeUser.None? then None
    else
      var afterUser := closeUser.value + 2;
      var closeTime := Find(message[afterUser..], TIME_END);
      if closeTime.None? then None
      else
        var end := afterUser + closeTime.value;
        if closeUser.value < 1 || message[0] != '[' then None
        else Some(ChatLine(message[1..closeUser.value], message[afterUser..end], message[end + 3..]))
  }

  lemma FoundFirst(s: string, needle: string, i: nat)
    requires OccursAt(s, i, needle) && forall j | 0 <= j < i :: !OccursAt(s, j, needle)
    ensures Find(s, needle) == Some(i)
  {
    assert Find(s, needle).Some?;
  }

  /** Within a part of a text, a needle occurs where it occurs in the whole. */
  lemma OccursInPart(s: string, part: string, offset: nat, i: nat, needle: string)
    requires offset + |part| <= |s| && s[offset..offset + |part|] == part
    requires i + |needle| <= |part|
    ensures OccursAt(part, i, needle) == OccursAt(s, offset + i, needle)
  {
    var n := |needle|;
    var inPart, inWhole := part[i..i + n], s[offset + i..offset + i + n];
    forall k | 0 <= k < n ensures inPart[k] == inWhole[k] {
      assert part[i + k] == s[offset..offset + |part|][i + k];
    }
    assert inPart == inWhole;
  }

  /** The user separator does not straddle the end of a username. */
  lemma UserEndsOnce(username: string, rest: string)
    requires !Contains(username, USER_END)
    ensures Find("[" + username + USER_END + rest, USER_END) == Some(1 + |username|)
  {
    var s, n := "[" + username + USER_END + rest, 1 + |username|;
    assert s[1..n] == username;
    assert s[n..n + 2] == USER_END;
    forall j | 0 <= j < n ensures !OccursAt(s, j, USER_END) {
      assert s[j..j + 2] == [s[j], s[j + 1]];
      if 0 < j && j + 2 <= n {
        OccursInPart(s, username, 1, j - 1, USER_END);
      } else {
        assert s[0] == '[' && s[n] == ']';
      }
    }
    FoundFirst(s, USER_END, n);
  }

  /** The time separator does not straddle the end of a timestamp. */
  lemma TimeEndsOnce(timestamp: string, content: string)
    requires !Contains(timestamp, TIME_END)
    ensures Find(timestamp + TIME_END + content, TIME_END) == Some(|timestamp|)
  {
    var s, n := timestamp + TIME_END + content, |timestamp|;
    assert s[0..n] == timestamp;
    assert s[n..n + 3] == TIME_END;
    forall j | 0 <= j < n ensures !OccursAt(s, j, TIME_END) {
      assert s[j..j + 3] == [s[j], s[j + 1], s[j + 2]];
      if j + 3 <= n {
        OccursInPart(s, timestamp, 0, j, TIME_END);
      } else {
        assert s[n] == ')' && s[n + 1] == ':';
      }
    }
    FoundFirst(s, TIME_END, n);
  }

  predicate IsPlain(line: ChatLine) {
    !Contains(line.username, USER_END) && !Contains(line.timestamp, TIME_END)
  }

  lemma PlainLineParses(line: ChatLine)
    requires IsPlain(line)
    ensures Parse(Format(line.username, line.timestamp, line.content)) == Some(line)
  {
    var ChatLine(u, t, c) := line;
    var message := Format(u, t, c);
    assert message == "[" + u + USER_END + (t + TIME_END + c);
    UserEndsOnce(u, t + TIME_END + c);
    assert message[1 + |u| + 2..] == t + TIME_END + c;
    TimeEndsOnce(t, c);
    assert message[1..1 + |u|] == u;
    assert message[3 + |u|..3 + |u| + |t|] == t;
    assert message[3 + |u| + |t| + 3..] == c;
  }

  /** What comes before the first occurrence of a needle contains no needle. */
  lemma BeforeFirst(s: string, part: string, offset: nat, needle: string)
    requires Find(s, needle).Some? && needle != ""
    requires offset + |part| <= Find(s, needle).value && s[offset..offset + |part|] == part
    ensures !Contains(part, needle)
  {
    forall i | 0 <= i <= |part| ensures !OccursAt(part, i, needle) {
      if i + |needle| <= |part| {
        OccursInPart(s, part, offset, i, needle);
      }
    }
  }

  lemma ParsedFieldsArePlain(message: string)
    requires Parse(message).Some?
    ensures IsPlain(Parse(message).value)
  {
    var line, n := Parse(message).value, Find(message, USER_END).value;
    var rest := message[n + 2..];
    BeforeFirst(message, line.username, 1, USER_END);
    assert line.timestamp == rest[0..Find(rest, TIME_END).value];
    BeforeFirst(rest, line.timestamp, 0, TIME_END);
  }

  /** A string is what comes before an occurrence, the occurrence, and what comes after it. */
  lemma AroundOccurrence(s: string, i: nat, needle: string)
    requires OccursAt(s, i, needle)
    ensures s == s[..i] + needle + s[i + |needle|..]
  {
  }

  lemma ParsedLineIsPlain(message: string)
    requires Parse(message).Some?
    ensures var line := Parse(message).value;
            IsPlain(line) && message == Format(line.username, line.timestamp, line.content)
  {
    ParsedFieldsArePlain(message);
    var line, n := Parse(message).value, Find(message, USER_END).value;
    var rest := message[n + 2..];
    AroundOccurrence(message, n, USER_END);
    AroundOccurrence(rest, Find(rest, TIME_END).value, TIME_END);
    assert message[..n] == "[" + line.username;
  }

  /**
    Parsing gives a line exactly when the message is its format and neither separator occurs in the
    field it ends. So parsing undoes formatting for those lines and for no others.
   */
  lemma ParsesIff(message: string, line: ChatLine)
    ensures Parse(message) == Some(line) <==>
            IsPlain(line) && message == Format(line.username, line.timestamp, line.content)
  {
    if Parse(message) == Some(line) { ParsedLineIsPlain(message); }
    if IsPlain(line) && message == Format(line.username, line.timestamp, line.content) {
      PlainLineParses(line);
    }
  }
}
