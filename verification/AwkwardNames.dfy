/** Names that a handshake accepts and that chat lines and mentions do not survive. */
module AwkwardNames {
  import opened ChatText
  import opened Common
  import Handshake
  import Mentions
  import Text
  import Utf8

  lemma ShortNameIsAccepted(username: string)
    requires 0 < |username| <= 8
    requires forall i | 0 <= i < |username| :: !Text.IsWhitespace(username[i]) && !Text.IsControl(username[i])
    ensures Handshake.IsAccepted(username)
  {
    Utf8.EncodeBound(username);
    assert Text.TrimStart(username) == username && Text.TrimEnd(username) == username;
  }

  const BRACKETED: string := "a](b"

  /** A client may be called `a](b`, and what it says is not parsed back. */
  lemma BracketedNameIsLost()
    ensures Handshake.IsAccepted(BRACKETED)
    ensures Parse(Format(BRACKETED, "12:00", "hi")) != Some(ChatLine(BRACKETED, "12:00", "hi"))
  {
    ShortNameIsAccepted(BRACKETED);
    ParsesIff(Format(BRACKETED, "12:00", "hi"), ChatLine(BRACKETED, "12:00", "hi"));
    assert OccursAt(BRACKETED, 1, USER_END);
  }

  const OVERLAPPING: string := "ab@a"

  /** A client may be called `ab@a`, and a mention of it that overlaps another text is missed. */
  lemma OverlappingNameIsMissed(alphanumeric: Mentions.CharClass)
    requires alphanumeric('b')
    ensures Handshake.IsAccepted(OVERLAPPING)
    ensures Mentions.Mentioned(alphanumeric, "@ab@ab@a", OVERLAPPING)
    ensures !Mentions.Scan(alphanumeric, "@ab@ab@a", OVERLAPPING, 0)
  {
    ShortNameIsAccepted(OVERLAPPING);
    var needle := Mentions.Needle(OVERLAPPING);
    assert needle == "@ab@a";
    assert needle[3..] == needle[..2];
    assert Mentions.Overlapped(needle, 2) == "@ab@ab@a";
    Mentions.OverlappedIsMissed(alphanumeric, OVERLAPPING, 2);
  }
}
