/** `ChatModel`: one conversation between a user and an avatar, identified by
    the composite id `userId_avatarId`. */
module Chat {
  import opened Wrappers
  import opened EventParams

  datatype ChatModel = ChatModel(
    id: string,
    userId: string,
    avatarId: string,
    dateCreated: int,
    dateModified: int)

  /** `chatId(userId:avatarId:)`: the user id, an underscore, the avatar id. */
  function ChatId(userId: string, avatarId: string): (r: string)
    ensures |r| == |userId| + 1 + |avatarId|
    ensures r[..|userId|] == userId && r[|userId|] == '_' && r[|userId| + 1..] == avatarId
  {
    userId + "_" + avatarId
  }

  /** The position of the first underscore, if there is one. */
  function FirstUnderscore(s: string): (r: Option<nat>)
    ensures r.Some? ==> r.value < |s| && s[r.value] == '_' && '_' !in s[..r.value]
    ensures r.None? ==> '_' !in s
    decreases |s|
  {
    if |s| == 0 then None
    else if s[0] == '_' then Some(0)
    else
      match FirstUnderscore(s[1..])
      case None => None
      case Some(i) => Some(i + 1)
  }

  /** Reads a chat id back as (user id, avatar id), splitting at the first
      underscore. */
  function SplitChatId(id: string): (r: Option<(string, string)>)
    ensures r.Some? <==> '_' in id
    ensures r.Some? ==> ChatId(r.value.0, r.value.1) == id && '_' !in r.value.0
  {
    match FirstUnderscore(id)
    case None => None
    case Some(i) =>
      assert id == id[..i] + "_" + id[i + 1..];
      Some((id[..i], id[i + 1..]))
  }

  /** For user ids without an underscore, the chat id determines both ids. */
  lemma SplitChatIdRoundTrip(userId: string, avatarId: string)
    requires '_' !in userId
    ensures SplitChatId(ChatId(userId, avatarId)) == Some((userId, avatarId))
  {
    var id := ChatId(userId, avatarId);
    var i := FirstUnderscore(id).value;
    assert i == |userId|;
  }

  /** Without that restriction the id is ambiguous: two different pairs share
      one chat id. */
  lemma ChatIdIsAmbiguous()
    ensures ChatId("a_b", "c") == ChatId("a", "b_c")
  {
  }

  /** `new(userId:avatarId:)`: the id is the composite one and both dates are
      the current time, a parameter here. */
  function New(userId: string, avatarId: string, now: int): (r: ChatModel)
    ensures r.id == ChatId(userId, avatarId)
    ensures r.userId == userId && r.avatarId == avatarId
    ensures r.dateCreated == now && r.dateModified == now
  {
    ChatModel(ChatId(userId, avatarId), userId, avatarId, now, now)
  }

  /** A chat made by `New` for a user id without an underscore names its user
      and avatar in its id. */
  lemma NewChatIdNamesItsParties(userId: string, avatarId: string, now: int)
    requires '_' !in userId
    ensures SplitChatId(New(userId, avatarId, now).id) == Some((userId, avatarId))
  {
    SplitChatIdRoundTrip(userId, avatarId);
  }

  datatype CodingKey = IdKey | UserIdKey | AvatarIdKey | DateCreatedKey | DateModifiedKey

  /** The stored name of each field. */
  function RawValue(k: CodingKey): string {
    match k
    case IdKey => "id"
    case UserIdKey => "user_id"
    case AvatarIdKey => "avatar_id"
    case DateCreatedKey => "date_created"
    case DateModifiedKey => "date_modified"
  }

  /** The analytics key of a field. */
  function Key(k: CodingKey): string {
    "chat_" + RawValue(k)
  }

  function Entries(c: ChatModel): (r: seq<Entry>)
    ensures DistinctKeys(r)
  {
    [ (RawValue(IdKey), Some(Text(c.id))),
      (RawValue(UserIdKey), Some(Text(c.userId))),
      (RawValue(AvatarIdKey), Some(Text(c.avatarId))),
      (RawValue(DateCreatedKey), Some(Instant(c.dateCreated))),
      (RawValue(DateModifiedKey), Some(Instant(c.dateModified))) ]
  }

  /** Every key the literal can produce is the key of one of the fields. */
  lemma KeysAreFieldKeys(c: ChatModel, s: string)
    requires s in KeySet("chat_", Entries(c))
    ensures s in {Key(IdKey), Key(UserIdKey), Key(AvatarIdKey), Key(DateCreatedKey), Key(DateModifiedKey)}
  {
    var e := Entries(c);
    KeySetMembers("chat_", e, s);
    var i :| 0 <= i < |e| && s == "chat_" + e[i].0;
    assert s == Key([IdKey, UserIdKey, AvatarIdKey, DateCreatedKey, DateModifiedKey][i]);
  }

  /** `eventParameters`: no field is optional, so all five keys are always
      present, and there are no others. */
  function EventParameters(c: ChatModel): (r: map<string, Value>)
    ensures r.Keys == {Key(IdKey), Key(UserIdKey), Key(AvatarIdKey), Key(DateCreatedKey), Key(DateModifiedKey)}
    ensures r[Key(IdKey)] == Text(c.id)
    ensures r[Key(UserIdKey)] == Text(c.userId)
    ensures r[Key(AvatarIdKey)] == Text(c.avatarId)
    ensures r[Key(DateCreatedKey)] == Instant(c.dateCreated)
    ensures r[Key(DateModifiedKey)] == Instant(c.dateModified)
  {
    var e := Entries(c);
    var r := Build("chat_", e);
    assert Reports(r, "chat_" + e[0].0, e[0].1);
    assert Reports(r, "chat_" + e[1].0, e[1].1);
    assert Reports(r, "chat_" + e[2].0, e[2].1);
    assert Reports(r, "chat_" + e[3].0, e[3].1);
    assert Reports(r, "chat_" + e[4].0, e[4].1);
    forall s | s in r
      ensures s in {Key(IdKey), Key(UserIdKey), Key(AvatarIdKey), Key(DateCreatedKey), Key(DateModifiedKey)}
    {
      KeysAreFieldKeys(c, s);
    }
    r
  }
}
