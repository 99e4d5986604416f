/** The user list a presence frame carries. */
module Presence {
  import opened Common
  import opened Utf8
  import Text
  import F = Frames

  const U16_MAX: nat := 0xFFFF
  const USIZE_MAX: nat := 0xFFFF_FFFF_FFFF_FFFF

  function U16Bytes(n: nat): seq<byte> {
    [n / 0x100 % 0x100, n % 0x100]
  }

  function U16Of(a: byte, b: byte): nat {
    a * 0x100 + b
  }

  lemma U16RoundTrip(n: nat)
    requires n <= U16_MAX
    ensures U16Of(U16Bytes(n)[0], U16Bytes(n)[1]) == n
  {
  }

  lemma U16IsUnique(a: byte, b: byte)
    ensures U16Bytes(U16Of(a, b)) == [a, b] && U16Of(a, b) <= U16_MAX
  {
  }

  predicate IsListable(user: string) {
    Text.IsValidUsername(user) && |Encode(user)| <= U16_MAX
  }

  /** The user lists that have a payload, whatever its size. */
  predicate AreListable(users: seq<string>) {
    |users| <= U16_MAX && forall i | 0 <= i < |users| :: IsListable(users[i])
  }

  function UserBytes(user: string): seq<byte> {
    U16Bytes(|Encode(user)|) + Encode(user)
  }

  function UsersBytes(users: seq<string>): seq<byte> {
    if users == [] then [] else UserBytes(users[0]) + UsersBytes(users[1..])
  }

  function Payload(users: seq<string>): seq<byte> {
    U16Bytes(|users|) + UsersBytes(users)
  }

  lemma {:induction false} UsersBytesAppend(users: seq<string>, user: string)
    ensures UsersBytes(users + [user]) == UsersBytes(users) + UserBytes(user)
  {
    if users == [] {
      assert ([] + [user])[1..] == [];
    } else {
      assert (users + [user])[1..] == users[1..] + [user];
      UsersBytesAppend(users[1..], user);
    }
  }

  /** Why one user cannot be listed. */
  function UserError(user: string): F.FrameError
    requires !IsListable(user)
  {
    if !Text.IsValidUsername(user) then F.InvalidUsername else F.TooLarge(|Encode(user)|)
  }

  /** `encode_presence`: the first user that cannot be listed decides the error. */
  method EncodePresence(users: seq<string>) returns (r: F.Result<seq<byte>, F.FrameError>)
    ensures r.Ok? <==> AreListable(users) && |Payload(users)| <= F.MAX_FRAME_PAYLOAD_BYTES
    ensures r.Ok? ==> r.value == F.Wire(F.Presence, Payload(users))
    ensures |users| > U16_MAX ==> r == F.Err(F.TooLarge(USIZE_MAX))
    ensures AreListable(users) && r.Err? ==> r.error == F.TooLarge(|Payload(users)|)
    ensures |users| <= U16_MAX && !AreListable(users) ==>
              exists i | 0 <= i < |users| ::
                && AreListable(users[..i]) && !IsListable(users[i])
                && r == F.Err(UserError(users[i]))
  {
    hide Encode, Text.IsValidUsername;
    if |users| > U16_MAX {
      return F.Err(F.TooLarge(USIZE_MAX));
    }
    var payload := U16Bytes(|users|);
    var n := 0;
    while n < |users|
      invariant n <= |users|
      invariant AreListable(users[..n])
      invariant payload == U16Bytes(|users|) + UsersBytes(users[..n])
    {
      var user := users[n];
      if !Text.IsValidUsername(user) {
        return F.Err(F.InvalidUsername);
      }
      var bytes := Encode(user);
      if |bytes| > U16_MAX {
        return F.Err(F.TooLarge(|bytes|));
      }
      assert users[..n + 1] == users[..n] + [user];
      UsersBytesAppend(users[..n], user);
      payload := payload + U16Bytes(|bytes|) + bytes;
      n := n + 1;
    }
    assert users[..n] == users;
    r := F.EncodeFrame(F.Presence, payload);
  }

  /** The user that some bytes start with, if they do. */
  function FirstUser(bytes: seq<byte>): Option<string> {
    if |bytes| < 2 || |bytes| < 2 + U16Of(bytes[0], bytes[1]) then None
    else
      var user := Decode(bytes[2..2 + U16Of(bytes[0], bytes[1])]);
      if user.Some? && Text.IsValidUsername(user.value) then user else None
  }

  /** What follows the user that some bytes start with. */
  function AfterUser(bytes: seq<byte>): seq<byte> {
    if FirstUser(bytes).None? then [] else bytes[2 + U16Of(bytes[0], bytes[1])..]
  }

  /** Reading `count` users off some bytes that must end with the last of them. */
  function ParseUsers(count: nat, bytes: seq<byte>): Option<seq<string>>
    decreases count
  {
    if count == 0 then (if bytes == [] then Some([]) else None)
    else if FirstUser(bytes).None? then None
    else
      var others := ParseUsers(count - 1, AfterUser(bytes));
      if others.None? then None else Some([FirstUser(bytes).value] + others.value)
  }

  function Parse(payload: seq<byte>): Option<seq<string>> {
    if |payload| < 2 then None else ParseUsers(U16Of(payload[0], payload[1]), payload[2..])
  }

  function Before(users: seq<string>, others: Option<seq<string>>): Option<seq<string>> {
    if others.None? then None else Some(users + others.value)
  }

  /** One turn of the parsing loop. */
  lemma ParseNext(users: seq<string>, count: nat, bytes: seq<byte>)
    requires count > 0
    ensures Before(users, ParseUsers(count, bytes)) ==
            match FirstUser(bytes)
            case None => None
            case Some(user) =>
              Before(users + [user], ParseUsers(count - 1, AfterUser(bytes)))
  {
    if FirstUser(bytes).Some? {
      var user := FirstUser(bytes).value;
      var others := ParseUsers(count - 1, AfterUser(bytes));
      if others.Some? {
        assert users + ([user] + others.value) == users + [user] + others.value;
      }
    }
  }

  /** The user at an offset of the payload; `next` is where it ends. */
  method ReadUser(payload: seq<byte>, start: nat) returns (user: Option<string>, next: nat)
    requires start <= |payload|
    ensures user == FirstUser(payload[start..])
    ensures user.Some? ==> start <= next <= |payload| && payload[next..] == AfterUser(payload[start..])
  {
    ghost var bytes := payload[start..];
    next := start;
    if next + 2 > |payload| {
      return None, next;
    }
    var length := U16Of(payload[next], payload[next + 1]);
    next := next + 2;
    if next + length > |payload| {
      return None, next;
    }
    assert payload[next..next + length] == bytes[2..2 + length];
    user := Decode(payload[next..next + length]);
    if user.None? {
      return None, next;
    }
    if !Text.IsValidUsername(user.value) {
      return None, next;
    }
    next := next + length;
  }

  /** `parse_presence`, moving an offset through the payload. */
  method ParsePresence(payload: seq<byte>) returns (r: Option<seq<string>>)
    ensures r == Parse(payload)
  {
    hide FirstUser, AfterUser;
    if |payload| < 2 {
      return None;
    }
    var count := U16Of(payload[0], payload[1]);
    var offset := 2;
    var users: seq<string> := [];
    var n := 0;
    ghost var all, ahead := ParseUsers(count, payload[2..]), payload[2..];
    assert all.Some? ==> [] + all.value == all.value;
    while n < count
      invariant 0 <= n <= count && 2 <= offset <= |payload|
      invariant ahead == payload[offset..]
      invariant all == Before(users, ParseUsers(count - n, ahead))
    {
      ParseNext(users, count - n, ahead);
      var user, next := ReadUser(payload, offset);
      if user.None? {
        return None;
      }
      users := users + [user.value];
      ahead := AfterUser(ahead);
      offset := next;
      n := n + 1;
    }
    assert ahead == [] <==> offset == |payload|;
    assert users + [] == users;
    return if offset == |payload| then Some(users) else None;
  }

  lemma JoinedParts(size: seq<byte>, text: seq<byte>, rest: seq<byte>)
    requires |size| == 2
    ensures var bytes := size + text + rest;
            && bytes[0] == size[0] && bytes[1] == size[1] && |bytes| >= 2 + |text|
            && bytes[2..2 + |text|] == text && bytes[2 + |text|..] == rest
  {
  }

  /** A listed user is the first user of its bytes and whatever follows them. */
  lemma ListedIsFirst(user: string, rest: seq<byte>)
    requires IsListable(user)
    ensures FirstUser(UserBytes(user) + rest) == Some(user) && AfterUser(UserBytes(user) + rest) == rest
  {
    hide Decode, Encode, Text.IsValidUsername;
    JoinedParts(U16Bytes(|Encode(user)|), Encode(user), rest);
    U16RoundTrip(|Encode(user)|);
    EncodedDecodes(user);
  }

  lemma {:induction false} UsersParse(users: seq<string>)
    requires forall i | 0 <= i < |users| :: IsListable(users[i])
    ensures ParseUsers(|users|, UsersBytes(users)) == Some(users)
  {
    hide FirstUser, AfterUser, UserBytes;
    if users != [] {
      ListedIsFirst(users[0], UsersBytes(users[1..]));
      UsersParse(users[1..]);
      assert users == [users[0]] + users[1..];
    }
  }

  /** A length, what it announces, and what comes after. */
  lemma ThreeParts(bytes: seq<byte>, length: nat)
    requires |bytes| >= 2 + length
    ensures bytes == bytes[..2] + bytes[2..2 + length] + bytes[2 + length..]
    ensures bytes[..2] == [bytes[0], bytes[1]]
  {
  }

  /** The bytes of one accepted user are its only encoding. */
  lemma ParsedUserIsBytes(bytes: seq<byte>, user: string)
    requires |bytes| >= 2 && |bytes| >= 2 + U16Of(bytes[0], bytes[1])
    requires Decode(bytes[2..2 + U16Of(bytes[0], bytes[1])]) == Some(user)
    ensures var length := U16Of(bytes[0], bytes[1]);
            && bytes == UserBytes(user) + bytes[2 + length..]
            && |Encode(user)| <= U16_MAX
  {
    var length := U16Of(bytes[0], bytes[1]);
    U16IsUnique(bytes[0], bytes[1]);
    DecodedEncodes(bytes[2..2 + length]);
    ThreeParts(bytes, length);
  }

  lemma {:induction false} ParsedUsersAreBytes(count: nat, bytes: seq<byte>)
    requires ParseUsers(count, bytes).Some?
    ensures var users := ParseUsers(count, bytes).value;
            && |users| == count && bytes == UsersBytes(users)
            && forall i | 0 <= i < |users| :: IsListable(users[i])
    decreases count
  {
    hide Decode, Text.IsValidUsername;
    if count > 0 {
      var users := ParseUsers(count, bytes).value;
      ParsedUserIsBytes(bytes, users[0]);
      ParsedUsersAreBytes(count - 1, bytes[2 + U16Of(bytes[0], bytes[1])..]);
      assert users == [users[0]] + users[1..];
    }
  }

  /** The presence codec is a bijection between the listable user lists and the accepted payloads. */
  lemma ParsesIff(payload: seq<byte>, users: seq<string>)
    ensures Parse(payload) == Some(users) <==> AreListable(users) && payload == Payload(users)
  {
    if Parse(payload) == Some(users) {
      ParsedUsersAreBytes(U16Of(payload[0], payload[1]), payload[2..]);
      U16IsUnique(payload[0], payload[1]);
      assert payload == payload[..2] + payload[2..];
    }
    if AreListable(users) && payload == Payload(users) {
      U16RoundTrip(|users|);
      UsersParse(users);
      assert payload[2..] == UsersBytes(users);
    }
  }

  /** A user list sent as a presence frame is the one that is read from it. */
  lemma PresenceRoundTrip(users: seq<string>, rest: seq<byte>)
    requires AreListable(users) && |Payload(users)| <= F.MAX_FRAME_PAYLOAD_BYTES
    ensures var (d, left) := F.SyncDecode(F.Wire(F.Presence, Payload(users)) + rest);
            && left == rest && d.Got? && d.frame.kind == F.Presence
            && Parse(d.frame.payload) == Some(users)
  {
    F.WireDecodes(F.Frame(F.CURRENT_PROTOCOL_VERSION, F.Presence, Payload(users)), rest);
    ParsesIff(Payload(users), users);
  }

  lemma OneMoreTime(n: nat, cost: nat)
    requires n > 0
    ensures n * cost == (n - 1) * cost + cost
  {
  }

  /** Listing a user costs its bytes and two more. */
  lemma {:induction false} UsersBytesBound(users: seq<string>, most: nat)
    requires forall i | 0 <= i < |users| :: |Encode(users[i])| <= most
    ensures |UsersBytes(users)| <= |users| * (most + 2)
  {
    if users != [] {
      UsersBytesBound(users[1..], most);
      OneMoreTime(|users|, most + 2);
    }
  }
}
