/** The chat type a channel config asks for when connecting. */
module ChatTypes {

  datatype ChatType = TextAndAudio | TextOnly | AudioOnly

  /** default(ChatType), the first member. */
  const DefaultChatType: ChatType := TextAndAudio
}
