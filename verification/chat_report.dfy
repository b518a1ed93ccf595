/** `ChatReportModel`: a user's report of a chat. */
module ChatReport {

  datatype ChatReportModel = ChatReportModel(
    id: string,
    chatId: string,
    userId: string,
    isActive: bool,
    dataCreated: int)

  datatype CodingKey = IdKey | ChatIdKey | UserIdKey | IsActiveKey | DataCreatedKey

  /** The stored name of each field; `dataCreated` is stored as "date_created". */
  function RawValue(k: CodingKey): string {
    match k
    case IdKey => "id"
    case ChatIdKey => "chat_id"
    case UserIdKey => "user_id"
    case IsActiveKey => "is_active"
    case DataCreatedKey => "date_created"
  }

  /** No two fields share a stored name. */
  lemma RawValueIsInjective(a: CodingKey, b: CodingKey)
    requires RawValue(a) == RawValue(b)
    ensures a == b
  {
  }

  /** `new(chatId:userId:)`: a fresh, active report by `userId` about
      `chatId`. The UUID and the current time are parameters. */
  function New(chatId: string, userId: string, uuid: string, now: int): (r: ChatReportModel)
    ensures r.id == uuid && r.chatId == chatId && r.userId == userId
    ensures r.isActive
    ensures r.dataCreated == now
  {
    ChatReportModel(uuid, chatId, userId, true, now)
  }

  /** Reports are told apart by their UUID alone: two reports of the same
      chat by the same user at the same time differ exactly when their UUIDs do. */
  lemma NewReportsDifferByUuid(chatId: string, userId: string, u1: string, u2: string, now: int)
    ensures New(chatId, userId, u1, now) == New(chatId, userId, u2, now) <==> u1 == u2
  {
  }
}
