/** UserManager (stumblebot.js): the nickname remembered for each user who
    joins, and the greeting posted on a join. The stored table is the one
    persisted in the browser; the random greeting choice is an input. */
module Users {
  import opened Messages
  import opened Text

  /** MESSAGES.GREETINGS has ten templates. */
  const GREETING_COUNT := 10

  datatype ModStatus = Moderator | Regular

  /** The record stored under a user's username and under their handle. */
  datatype UserInfo = UserInfo(handle: string, username: string, nickname: string, modStatus: ModStatus)

  /** Case folding of the i flag on the ASCII letters; other characters are
      left alone, as in a regular expression without the u flag. */
  function AsciiLower(c: char): (l: char)
    ensures 'A' <= c <= 'Z' ==> l as int == c as int + 32
    ensures !('A' <= c <= 'Z') ==> l == c
  {
    if 'A' <= c <= 'Z' then (c as int + 32) as char else c
  }

  function AsciiLowerString(s: string): (r: string)
    ensures |r| == |s|
    ensures forall i :: 0 <= i < |s| ==> r[i] == AsciiLower(s[i])
  {
    if s == [] then [] else [AsciiLower(s[0])] + AsciiLowerString(s[1..])
  }

  /** /^guest-\d+$/i.test(nick) */
  predicate IsGuestNick(nick: string)
    ensures IsGuestNick(nick) <==>
      |nick| > 6 && AsciiLowerString(nick[..6]) == "guest-" && DigitRun(nick[6..]) == |nick| - 6
  {
    |nick| > 6 && AsciiLowerString(nick[..6]) == "guest-" &&
    forall i :: 6 <= i < |nick| ==> IsAsciiDigit(nick[i])
  }

  /** The displayed name: the username for a guest nick, otherwise the nick,
      and the username again when that is empty. */
  function ChooseNickname(username: string, nick: string): (name: string)
    ensures IsGuestNick(nick) ==> name == username
    ensures !IsGuestNick(nick) && nick != [] ==> name == nick
    ensures nick == [] ==> name == username
    ensures name == username || name == nick
  {
    var chosen := if IsGuestNick(nick) then username else nick;
    if chosen != [] then chosen else username
  }

  /** getNickname on a table: the stored nickname, or "User" when there is
      no entry or its nickname is empty. */
  function NicknameIn(users: map<string, UserInfo>, handle: string): (name: string)
    ensures name != []
    ensures handle in users && users[handle].nickname != [] ==> name == users[handle].nickname
    ensures !(handle in users && users[handle].nickname != []) ==> name == "User"
  {
    if handle in users && users[handle].nickname != [] then users[handle].nickname else "User"
  }

  /** The record handleUserJoin builds. */
  function JoinInfo(username: string, nick: string, handle: string, moderator: bool): UserInfo
  {
    UserInfo(handle, username, ChooseNickname(username, nick), if moderator then Moderator else Regular)
  }

  /** The table after a join: the record under the username, then under the
      handle; both names share the table's key space. */
  function Joined(users: map<string, UserInfo>, username: string, nick: string, handle: string,
                  moderator: bool): (r: map<string, UserInfo>)
    ensures r.Keys == users.Keys + {username, handle}
    ensures r[handle] == JoinInfo(username, nick, handle, moderator)
    ensures r[username] == JoinInfo(username, nick, handle, moderator)
    ensures forall k :: k in users && k != username && k != handle ==> r[k] == users[k]
  {
    var info := JoinInfo(username, nick, handle, moderator);
    users[username := info][handle := info]
  }

  /** After a join, looking the user up by handle or by username gives the
      chosen nickname (or "User" if it is empty), and every other entry is
      as before. */
  lemma JoinedLookup(users: map<string, UserInfo>, username: string, nick: string, handle: string,
                     moderator: bool, other: string)
    requires other != username && other != handle
    ensures var chosen := ChooseNickname(username, nick);
            var after := Joined(users, username, nick, handle, moderator);
            NicknameIn(after, handle) == (if chosen != [] then chosen else "User") &&
            NicknameIn(after, username) == (if chosen != [] then chosen else "User") &&
            NicknameIn(after, other) == NicknameIn(users, other)
  {
  }

  /** A guest nick followed by any decimal number is recognised, in any case. */
  lemma {:induction false} GuestNumbers(prefix: string, n: nat)
    requires |prefix| == 6 && AsciiLowerString(prefix) == "guest-"
    ensures IsGuestNick(prefix + Decimal(n))
  {
    DecimalDigits(n);
    var s := prefix + Decimal(n);
    assert s[..6] == prefix;
    assert forall i :: 6 <= i < |s| ==> s[i] == Decimal(n)[i - 6];
  }

  /** Case folding does not change whether a nick is a guest nick. */
  lemma GuestNickCaseInsensitive(nick: string)
    ensures IsGuestNick(nick) <==> IsGuestNick(AsciiLowerString(nick))
  {
    var l := AsciiLowerString(nick);
    if |nick| > 6 {
      assert AsciiLowerString(l[..6]) == AsciiLowerString(nick[..6]);
      assert forall i :: 6 <= i < |nick| ==> (IsAsciiDigit(l[i]) <==> IsAsciiDigit(nick[i]));
    }
  }

  /** Nicks the pattern accepts, in any case. */
  lemma GuestNickExamples()
    ensures IsGuestNick("Guest-42") && IsGuestNick("GUEST-7")
  {
    assert AsciiLowerString("Guest-") == "guest-";
    assert AsciiLowerString("GUEST-") == "guest-";
    assert "Guest-42"[..6] == "Guest-";
    assert "GUEST-7"[..6] == "GUEST-";
  }

  /** Nicks the pattern rejects: no digits, a letter among the digits, and
      text before "guest". */
  lemma NotGuestNicks()
    ensures !IsGuestNick("guest-") && !IsGuestNick("guest-12a") && !IsGuestNick("myguest-1")
  {
    assert "guest-12a"[8] == 'a';
    assert "myguest-1"[..6] == "myguest"[..6];
    assert AsciiLowerString("myguest-1"[..6])[0] == 'm';
  }

  class UserManager {
    var userNicknames: map<string, UserInfo>

    /** The table read back from storage, or an empty one. */
    constructor (stored: Option<map<string, UserInfo>>)
      ensures userNicknames == if stored.Some? then stored.value else map[]
    {
      userNicknames := if stored.Some? then stored.value else map[];
    }

    /** getNickname */
    function GetNickname(handle: string): (name: string)
      reads this
      ensures name != []
      ensures handle in userNicknames && userNicknames[handle].nickname != [] ==>
                name == userNicknames[handle].nickname
      ensures !(handle in userNicknames && userNicknames[handle].nickname != []) ==> name == "User"
    {
      NicknameIn(userNicknames, handle)
    }

    /** handleUserJoin: record the user under both names and post the
        greeting picked by `greetingIndex` at normal priority. */
    method HandleUserJoin(username: string, nick: string, handle: string, moderator: bool,
                          greetingIndex: nat) returns (out: seq<Outbound>)
      requires greetingIndex < GREETING_COUNT
      modifies this
      ensures userNicknames == Joined(old(userNicknames), username, nick, handle, moderator)
      ensures out == [Say(Greeting(greetingIndex, ChooseNickname(username, nick)))]
    {
      var nickname := if IsGuestNick(nick) then username else nick;
      var info := UserInfo(handle, username, if nickname != [] then nickname else username,
                           if moderator then Moderator else Regular);
      userNicknames := userNicknames[username := info];
      userNicknames := userNicknames[handle := info];
      out := [Say(Greeting(greetingIndex, if nickname != [] then nickname else username))];
    }
  }
}
