/** A row of the chat list: the view model (`ChatRowCellViewModel`) and the
    stand-alone view (`ChatRowCellViewBuilder`) load the chat's avatar and
    its last message independently and derive the same three things from
    what they hold: whether the row is loading, whether it shows the
    new-message badge, and its subheadline. */
module ChatRow {
  import opened Wrappers
  import opened ChatMessage
  import opened Avatar
  import opened Chat

  datatype RowState = RowState(
    avatar: Option<AvatarModel>,
    lastChatMessage: Option<ChatMessageModel>,
    didLoadAvatar: bool,
    didLoadChatMessage: bool)

  /** Nothing is loaded when the row is created. */
  const Initial: RowState := RowState(None, None, false, false)

  const LoadingSubheadline: string := "xxxx xxxx xxxx xxxx"
  const LoadingHeadline: string := "xxxx xxxx"
  const ErrorSubheadline: string := "Error loading data."

  /** `isLoading`: until both loads have finished. */
  function IsLoading(s: RowState): (r: bool)
    ensures r <==> !s.didLoadAvatar || !s.didLoadChatMessage
  {
    if s.didLoadAvatar && s.didLoadChatMessage then false else true
  }

  /** `hasNewChat`: there is a last message and a current user, and that user
      has not seen the message. */
  function HasNewChat(s: RowState, currentUserId: Option<string>): (r: bool)
    ensures r <==> s.lastChatMessage.Some? && currentUserId.Some?
                   && !HasBeenSeenBy(s.lastChatMessage.value, currentUserId.value)
  {
    match (s.lastChatMessage, currentUserId)
    case (Some(m), Some(u)) => !HasBeenSeenBy(m, u)
    case _ => false
  }

  /** `latsChatMessage?.content?.message`. */
  function LastMessageText(s: RowState): Option<string> {
    match s.lastChatMessage
    case Some(m) =>
      (match m.content
       case Some(c) => Some(c.message)
       case None => None)
    case None => None
  }

  /** `subheadline`: a placeholder while loading, an error text when neither
      the avatar nor a message came back, otherwise the last message's text
      (nil when there is none). */
  function Subheadline(s: RowState): (r: Option<string>)
    ensures IsLoading(s) ==> r == Some(LoadingSubheadline)
    ensures !IsLoading(s) && s.avatar.None? && s.lastChatMessage.None? ==> r == Some(ErrorSubheadline)
    ensures !IsLoading(s) && s.lastChatMessage.Some? ==>
      r == (if s.lastChatMessage.value.content.Some? then Some(s.lastChatMessage.value.content.value.message) else None)
    ensures !IsLoading(s) && s.avatar.Some? && s.lastChatMessage.None? ==> r == None
  {
    if IsLoading(s) then Some(LoadingSubheadline)
    else if s.avatar == None && s.lastChatMessage == None then Some(ErrorSubheadline)
    else LastMessageText(s)
  }

  // ------------------------------------------------------------ view model

  /** `loadAvatars(chat:)`: the avatar is fetched by the chat's avatar id; a
      failure leaves no avatar. Either way the avatar load is done. */
  function LoadAvatar(s: RowState, chat: ChatModel, getAvatar: string -> Result<AvatarModel, Error>): (r: RowState)
    ensures r.didLoadAvatar
    ensures r.avatar == (if getAvatar(chat.avatarId).Ok? then Some(getAvatar(chat.avatarId).value) else None)
    ensures r.lastChatMessage == s.lastChatMessage && r.didLoadChatMessage == s.didLoadChatMessage
  {
    s.(avatar := getAvatar(chat.avatarId).ToOption(), didLoadAvatar := true)
  }

  /** `loadLastChatMessage(chat:)`: the last message of the chat, by its id.
      `try?` flattens a failure and an empty chat into nil. */
  function LoadLastChatMessage(s: RowState, chat: ChatModel,
                               getLastChatMessage: string -> Result<Option<ChatMessageModel>, Error>): (r: RowState)
    ensures r.didLoadChatMessage
    ensures r.lastChatMessage.Some? <==> getLastChatMessage(chat.id).Ok? && getLastChatMessage(chat.id).value.Some?
    ensures r.lastChatMessage.Some? ==> r.lastChatMessage == getLastChatMessage(chat.id).value
    ensures r.avatar == s.avatar && r.didLoadAvatar == s.didLoadAvatar
  {
    var m := match getLastChatMessage(chat.id)
      case Ok(v) => v
      case Err(_) => None;
    s.(lastChatMessage := m, didLoadChatMessage := true)
  }

  /** The two loads run as separate tasks; whichever finishes first, the row
      ends in the same state and is no longer loading. */
  lemma LoadsCommute(chat: ChatModel, getAvatar: string -> Result<AvatarModel, Error>,
                     getLastChatMessage: string -> Result<Option<ChatMessageModel>, Error>)
    ensures LoadLastChatMessage(LoadAvatar(Initial, chat, getAvatar), chat, getLastChatMessage)
         == LoadAvatar(LoadLastChatMessage(Initial, chat, getLastChatMessage), chat, getAvatar)
    ensures !IsLoading(LoadLastChatMessage(LoadAvatar(Initial, chat, getAvatar), chat, getLastChatMessage))
  {
  }

  /** The error case of `subheadline`: loaded, yet neither an avatar nor a
      message. */
  predicate ShowsError(s: RowState) {
    !IsLoading(s) && s.avatar.None? && s.lastChatMessage.None?
  }

  /** Once both loads are done, the row is in its error case exactly when
      the avatar fetch failed and no last message came back (the fetch
      failed, or the chat has no message). */
  lemma ErrorCaseIffBothLoadsCameBackEmpty(chat: ChatModel, getAvatar: string -> Result<AvatarModel, Error>,
                                           getLastChatMessage: string -> Result<Option<ChatMessageModel>, Error>)
    ensures ShowsError(LoadLastChatMessage(LoadAvatar(Initial, chat, getAvatar), chat, getLastChatMessage))
        <==> getAvatar(chat.avatarId).Err?
             && (getLastChatMessage(chat.id).Err? || getLastChatMessage(chat.id).value.None?)
    ensures ShowsError(LoadLastChatMessage(LoadAvatar(Initial, chat, getAvatar), chat, getLastChatMessage))
        ==> Subheadline(LoadLastChatMessage(LoadAvatar(Initial, chat, getAvatar), chat, getLastChatMessage)) == Some(ErrorSubheadline)
  {
  }

  /** A message the current user wrote is never new to them; a message from
      the avatar is new to every user. */
  lemma OwnMessagesAreNeverNew(s: RowState, chatId: string, userId: string, avatarId: string,
                               content: AIChatModel, uuid: string, now: int, anyUser: string)
    ensures !HasNewChat(s.(lastChatMessage := Some(NewUserMessage(chatId, userId, content, uuid, now))), Some(userId))
    ensures HasNewChat(s.(lastChatMessage := Some(NewAIMessage(chatId, avatarId, content, uuid, now))), Some(anyUser))
  {
  }

  // ----------------------------------------------------------- view builder

  /** What `ChatRowCellView` is given. */
  datatype RowView = RowView(imageName: Option<string>, headline: Option<string>, subheadline: Option<string>, hasNewChat: bool)

  /** `ChatRowCellViewBuilder.body`: while loading, the headline is a
      placeholder and the badge is hidden. */
  function BuilderBody(s: RowState, currentUserId: Option<string>): (r: RowView)
    ensures r.imageName == (if s.avatar.Some? then s.avatar.value.profileImageName else None)
    ensures IsLoading(s) ==> r.headline == Some(LoadingHeadline) && !r.hasNewChat
    ensures !IsLoading(s) ==> r.headline == (if s.avatar.Some? then s.avatar.value.name else None)
    ensures !IsLoading(s) ==> r.hasNewChat == HasNewChat(s, currentUserId)
    ensures r.subheadline == Subheadline(s)
  {
    RowView(
      if s.avatar.Some? then s.avatar.value.profileImageName else None,
      if IsLoading(s) then Some(LoadingHeadline) else if s.avatar.Some? then s.avatar.value.name else None,
      Subheadline(s),
      if IsLoading(s) then false else HasNewChat(s, currentUserId))
  }

  /** The builder's first `task`: its closure cannot throw and gives the
      avatar or nil. */
  function BuilderLoadAvatar(s: RowState, avatar: Option<AvatarModel>): (r: RowState)
    ensures r.didLoadAvatar && r.avatar == avatar
    ensures r.lastChatMessage == s.lastChatMessage && r.didLoadChatMessage == s.didLoadChatMessage
  {
    s.(avatar := avatar, didLoadAvatar := true)
  }

  /** The builder's second `task`. */
  function BuilderLoadLastChatMessage(s: RowState, message: Option<ChatMessageModel>): (r: RowState)
    ensures r.didLoadChatMessage && r.lastChatMessage == message
    ensures r.avatar == s.avatar && r.didLoadAvatar == s.didLoadAvatar
  {
    s.(lastChatMessage := message, didLoadChatMessage := true)
  }

  /** The builder reaches the state the view model reaches when handed what
      the view model's `try?` calls produced. */
  lemma BuilderAgreesWithViewModel(chat: ChatModel, getAvatar: string -> Result<AvatarModel, Error>,
                                   getLastChatMessage: string -> Result<Option<ChatMessageModel>, Error>)
    ensures BuilderLoadLastChatMessage(BuilderLoadAvatar(Initial, getAvatar(chat.avatarId).ToOption()),
                                       match getLastChatMessage(chat.id) case Ok(m) => m case Err(_) => None)
         == LoadLastChatMessage(LoadAvatar(Initial, chat, getAvatar), chat, getLastChatMessage)
  {
  }

  /** The badge never shows while the row is loading. */
  lemma NoBadgeWhileLoading(s: RowState, currentUserId: Option<string>)
    ensures BuilderBody(s, currentUserId).hasNewChat ==> !IsLoading(s) && s.lastChatMessage.Some?
  {
  }

  /** The builder's `currentUserId` when none is passed: the empty id, not nil. */
  const DefaultCurrentUserId: Option<string> := Some("")

  /** With the default id a loaded message shows the badge unless the empty
      id is among its readers, so a message with no readers recorded always
      shows it. */
  lemma DefaultUserIdSeesMessagesAsNew(s: RowState)
    requires !IsLoading(s) && s.lastChatMessage.Some?
    ensures BuilderBody(s, DefaultCurrentUserId).hasNewChat <==> !HasBeenSeenBy(s.lastChatMessage.value, "")
    ensures s.lastChatMessage.value.seenByIds.None? ==> BuilderBody(s, DefaultCurrentUserId).hasNewChat
  {
  }
}
