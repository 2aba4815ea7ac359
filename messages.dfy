/** The chat messages a project room exchanges. */
module Messages {

  /** The reserved sender id of messages written by the AI assistant. */
  const AiSenderId: string := "ai"

  datatype User = User(id: string, email: string)

  /** One entry of the message list: `{ sender, message }`. */
  datatype Message = Message(sender: User, text: string)

  /** Only the sender's id decides; the AI's id is the two-letter string "ai". */
  predicate FromAi(m: Message): (b: bool)
    ensures b <==> m.sender.id == "ai"
  {
    m.sender.id == AiSenderId
  }
}
