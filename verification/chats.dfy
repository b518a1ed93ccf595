/** The Chats tab (`ChatsViewModel`): the user's chats, most recently
    modified first, the recently opened avatars, and the navigation path. */
module Chats {
  import opened Wrappers
  import opened Orderings
  import opened Chat
  import opened Avatar
  import opened Routing
  import ArrayExt

  datatype ChatsState = ChatsState(
    chats: seq<ChatModel>,
    isLoadingChats: bool,
    recentAvatars: seq<AvatarModel>,
    path: seq<TabbarPathOption>)

  /** A new view model: no chats yet, and loading. */
  const Initial: ChatsState := ChatsState([], true, [], [])

  /** `loadRecentAvatars()`: the avatars on success; a failure leaves the
      previous ones. Nothing else changes. */
  function LoadRecentAvatars(s: ChatsState, fetched: Result<seq<AvatarModel>, Error>): (r: ChatsState)
    ensures fetched.Ok? ==> r.recentAvatars == fetched.value
    ensures fetched.Err? ==> r.recentAvatars == s.recentAvatars
    ensures r.(recentAvatars := s.recentAvatars) == s
  {
    match fetched
    case Ok(avatars) => s.(recentAvatars := avatars)
    case Err(_) => s
  }

  /** The chats as `loadChats()` stores them: sorted by `dateModified`,
      descending. */
  function NewestFirst(fetched: seq<ChatModel>): (r: seq<ChatModel>)
    ensures multiset(r) == multiset(fetched)
    ensures forall i, j :: 0 <= i < j < |r| ==> r[i].dateModified >= r[j].dateModified
  {
    IntLessIsStrictTotalOrder();
    ArrayExt.SortedByKeyPath(fetched, (c: ChatModel) => c.dateModified, IntLess, false)
  }

  /** `loadChats()`: the signed-in user's id is read first and the chats of
      that user are fetched. When both calls succeed the list becomes the
      fetched chats, newest first; when either throws it is left as it was.
      The loading flag ends false on both paths. */
  function LoadChats(s: ChatsState, authId: Result<string, Error>,
                     getAllChats: string -> Result<seq<ChatModel>, Error>): (r: ChatsState)
    ensures !r.isLoadingChats
    ensures authId.Ok? && getAllChats(authId.value).Ok? ==>
      multiset(r.chats) == multiset(getAllChats(authId.value).value)
      && forall i, j :: 0 <= i < j < |r.chats| ==> r.chats[i].dateModified >= r.chats[j].dateModified
    ensures authId.Err? || getAllChats(authId.value).Err? ==> r.chats == s.chats
    ensures r.(chats := s.chats, isLoadingChats := s.isLoadingChats) == s
  {
    var chats :=
      match authId
      case Err(_) => s.chats
      case Ok(uid) =>
        match getAllChats(uid)
        case Err(_) => s.chats
        case Ok(fetched) => NewestFirst(fetched);
    s.(chats := chats, isLoadingChats := false)
  }

  /** After a successful load the first row is a chat no other fetched chat
      was modified after. */
  lemma FirstRowIsMostRecent(s: ChatsState, uid: string, getAllChats: string -> Result<seq<ChatModel>, Error>, c: ChatModel)
    requires getAllChats(uid).Ok? && c in getAllChats(uid).value
    ensures |LoadChats(s, Ok(uid), getAllChats).chats| > 0
    ensures c.dateModified <= LoadChats(s, Ok(uid), getAllChats).chats[0].dateModified
  {
    var r := LoadChats(s, Ok(uid), getAllChats).chats;
    assert c in multiset(r);
    var k :| 0 <= k < |r| && r[k] == c;
  }

  /** `onChatPressed(chat:)`: opens that chat with its avatar. */
  function OnChatPressed(s: ChatsState, chat: ChatModel): (r: ChatsState)
    ensures r.path == s.path + [ChatPath(chat.avatarId, Some(chat))]
    ensures r.(path := s.path) == s
  {
    s.(path := s.path + [ChatPath(chat.avatarId, Some(chat))])
  }

  /** `onAavatarPressed(avatar:)`: opens a new chat with the avatar. */
  function OnAvatarPressed(s: ChatsState, avatar: AvatarModel): (r: ChatsState)
    ensures r.path == s.path + [ChatPath(avatar.avatarId, None)]
    ensures r.(path := s.path) == s
  {
    s.(path := s.path + [ChatPath(avatar.avatarId, None)])
  }

  /** Opening a chat made by `Chat.New` pushes the avatar that chat is with,
      and for a user id without an underscore the pushed chat's id names
      the same avatar. */
  lemma PressedChatNamesItsAvatar(s: ChatsState, userId: string, avatarId: string, now: int)
    requires '_' !in userId
    ensures var top := OnChatPressed(s, New(userId, avatarId, now)).path[|s.path|];
      top.avatarId == avatarId && top.chat.Some?
      && SplitChatId(top.chat.value.id) == Some((userId, top.avatarId))
  {
    NewChatIdNamesItsParties(userId, avatarId, now);
  }
}
