/** `ChatMessageModel`: one message in a chat, who has seen it, and its
    analytics parameters. */
module ChatMessage {
  import opened Wrappers
  import opened Orderings
  import opened EventParams
  import ArrayExt
  import StringExt
  import DictExt

  /** `AIChatModel` is not part of this model: a message's content is kept as
      its role, its text, and the parameters its own `eventParameters`
      reports. */
  datatype AIChatModel = AIChatModel(role: string, message: string, eventParameters: map<string, Value>)

  datatype ChatMessageModel = ChatMessageModel(
    id: string,
    chatId: string,
    authorId: Option<string>,
    content: Option<AIChatModel>,
    seenByIds: Option<seq<string>>,
    dateCreated: Option<int>)

  /** `hasBeenSeenBy(userId:)`: false when nobody is recorded at all. */
  function HasBeenSeenBy(m: ChatMessageModel, userId: string): (r: bool)
    ensures r <==> m.seenByIds.Some? && userId in m.seenByIds.value
  {
    match m.seenByIds
    case None => false
    case Some(ids) => userId in ids
  }

  /** `Date.distantPast`, in seconds relative to 2001-01-01: the start of
      year 1. */
  const DistantPast: int := -63114076800

  /** `dateCreatedCalculated`: the creation date, or the distant past. */
  function DateCreatedCalculated(m: ChatMessageModel): (r: int)
    ensures m.dateCreated.Some? ==> r == m.dateCreated.value
    ensures m.dateCreated.None? ==> r == DistantPast
  {
    m.dateCreated.GetOr(DistantPast)
  }

  /** `newUserMessage(chatId:userId:message:)`: written by the user, who has
      seen it. The UUID and the current time are parameters. */
  function NewUserMessage(chatId: string, userId: string, message: AIChatModel, uuid: string, now: int): (r: ChatMessageModel)
    ensures r.id == uuid && r.chatId == chatId && r.content == Some(message) && r.dateCreated == Some(now)
    ensures r.authorId == Some(userId)
    ensures forall u :: HasBeenSeenBy(r, u) <==> u == userId
  {
    ChatMessageModel(uuid, chatId, Some(userId), Some(message), Some([userId]), Some(now))
  }

  /** `newAIMessage(chatId:avatarId:message:)`: written by the avatar, seen by
      nobody yet. */
  function NewAIMessage(chatId: string, avatarId: string, message: AIChatModel, uuid: string, now: int): (r: ChatMessageModel)
    ensures r.id == uuid && r.chatId == chatId && r.content == Some(message) && r.dateCreated == Some(now)
    ensures r.authorId == Some(avatarId)
    ensures r.seenByIds == Some([])
    ensures forall u :: !HasBeenSeenBy(r, u)
  {
    ChatMessageModel(uuid, chatId, Some(avatarId), Some(message), Some([]), Some(now))
  }

  /** `seenByIds?.sorted().joined(separator: ", ")`. */
  function SeenByText(ids: seq<string>): (r: string)
    ensures exists s :: r == StringExt.Join(s, ", ")
                        && multiset(s) == multiset(ids) && ArrayExt.SortedWith(s, StringLess)
  {
    StringLessIsStrictTotalOrder();
    StringExt.Join(ArrayExt.SortWith(ids, StringLess), ", ")
  }

  /** The text does not depend on the order in which the ids were recorded. */
  lemma SeenByTextIgnoresOrder(a: seq<string>, b: seq<string>)
    requires multiset(a) == multiset(b)
    ensures SeenByText(a) == SeenByText(b)
  {
    StringLessIsStrictTotalOrder();
    ArrayExt.SortWithForgetsOrder(a, b, StringLess);
  }

  datatype CodingKey = IdKey | ChatIdKey | AuthorIdKey | ContentKey | SeenByIdsKey | DateCreatedKey

  /** The stored name of each field. */
  function RawValue(k: CodingKey): string {
    match k
    case IdKey => "id"
    case ChatIdKey => "chat_id"
    case AuthorIdKey => "author_id"
    case ContentKey => "content"
    case SeenByIdsKey => "seen_by_ids"
    case DateCreatedKey => "date_created"
  }

  /** The analytics key of a field. */
  function Key(k: CodingKey): string {
    "message_" + RawValue(k)
  }

  /** The lines of the `eventParameters` literal; the content is not one of them. */
  function Entries(m: ChatMessageModel): (r: seq<Entry>)
    ensures DistinctKeys(r)
  {
    [ (RawValue(IdKey), Some(Text(m.id))),
      (RawValue(ChatIdKey), Some(Text(m.chatId))),
      (RawValue(AuthorIdKey), Lift(m.authorId)),
      (RawValue(SeenByIdsKey), if m.seenByIds.Some? then Some(Text(SeenByText(m.seenByIds.value))) else None),
      (RawValue(DateCreatedKey), LiftInstant(m.dateCreated)) ]
  }

  /** The message's own keys. */
  function OwnKeys(): set<string> {
    {Key(IdKey), Key(ChatIdKey), Key(AuthorIdKey), Key(SeenByIdsKey), Key(DateCreatedKey)}
  }

  /** The literal holds exactly the message's own keys, nil or not. */
  lemma OwnLiteralKeys(m: ChatMessageModel)
    ensures Literal("message_", Entries(m)).Keys == OwnKeys()
  {
    var e := Entries(m);
    var own := Literal("message_", e);
    forall s | s in own
      ensures s in OwnKeys()
    {
      KeySetMembers("message_", e, s);
      var i :| 0 <= i < |e| && s == "message_" + e[i].0;
      assert s == Key([IdKey, ChatIdKey, AuthorIdKey, SeenByIdsKey, DateCreatedKey][i]);
    }
    assert "message_" + e[0].0 in own;
    assert "message_" + e[1].0 in own;
    assert "message_" + e[2].0 in own;
    assert "message_" + e[3].0 in own;
    assert "message_" + e[4].0 in own;
  }

  /** The content's parameters as entries of a `[String: Any?]` dictionary. */
  function ContentParameters(m: ChatMessageModel): Option<map<string, Option<Value>>> {
    match m.content
    case None => None
    case Some(c) => Some(map k | k in c.eventParameters :: Some(c.eventParameters[k]))
  }

  /** `eventParameters`: the message's own fields under "message_" keys, then
      the content's parameters merged in keeping existing entries, then the
      nil entries dropped. The merge happens before nil entries are dropped,
      so a content parameter whose key is one of the message's own keys is
      never reported, even when the message's field is nil. */
  function EventParameters(m: ChatMessageModel): (r: map<string, Value>)
    ensures Reports(r, Key(IdKey), Some(Text(m.id)))
    ensures Reports(r, Key(ChatIdKey), Some(Text(m.chatId)))
    ensures Reports(r, Key(AuthorIdKey), Lift(m.authorId))
    ensures Reports(r, Key(SeenByIdsKey), if m.seenByIds.Some? then Some(Text(SeenByText(m.seenByIds.value))) else None)
    ensures Reports(r, Key(DateCreatedKey), LiftInstant(m.dateCreated))
    ensures m.content.Some? ==> forall k :: k in m.content.value.eventParameters && k !in OwnKeys() ==>
      k in r && r[k] == m.content.value.eventParameters[k]
    ensures forall k :: k in r ==> k in OwnKeys() || (m.content.Some? && k in m.content.value.eventParameters)
  {
    var e := Entries(m);
    var own := Literal("message_", e);
    OwnLiteralKeys(m);
    assert own[Key(IdKey)] == e[0].1;
    assert own[Key(ChatIdKey)] == e[1].1;
    assert own[Key(AuthorIdKey)] == e[2].1;
    assert own[Key(SeenByIdsKey)] == e[3].1;
    assert own[Key(DateCreatedKey)] == e[4].1;
    CompactMapValues(DictExt.Merge(own, ContentParameters(m)))
  }

  /** A content parameter named like one of the message's own keys is
      dropped when that field is nil: here the author key of a message
      without an author. */
  lemma OwnNilFieldBlocksContentKey(id: string, chatId: string, role: string, text: string, v: Value)
    ensures Key(AuthorIdKey) !in EventParameters(ChatMessageModel(id, chatId, None,
              Some(AIChatModel(role, text, map[Key(AuthorIdKey) := v])), None, None))
  {
  }
}
