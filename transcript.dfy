/** One chat's transcript: the role-tagged messages sent as context to the
    completion service, seeded with a fixed persona message. */
module Transcript {

  /** Telegram's chat identifier; compared by plain equality, never parsed. */
  type ChatId = int

  datatype Role = System | User | Assistant

  /** The `{"role": ..., "content": ...}` dictionaries of the transcript. */
  datatype Message = Message(role: Role, content: string)

  /** The persona text every conversation starts with. */
  const SystemJob: string :=
    "Eres un asistente experto en medir el nivel de madurez de tecnologías utilizando la métrica de 9 niveles del TRL creada por la nasa, y eres capaz de preguntar a los usuarios sobre sus tecnologías para evaluar el nivel de madurez tecnológico que tienen, mientras resuelves sus dudas sobre el TRL."

  /** The two messages a new conversation holds. */
  function Seed(firstPrompt: string): seq<Message>
  {
    [Message(System, SystemJob), Message(User, firstPrompt)]
  }

  class Conversation {
    const chatId: ChatId
    var messages: seq<Message>

    constructor (chatId: ChatId, firstPrompt: string)
      ensures this.chatId == chatId
      ensures messages == [Message(System, SystemJob), Message(User, firstPrompt)]
    {
      this.chatId := chatId;
      messages := [];
      messages := messages + [Message(System, SystemJob)];
      messages := messages + [Message(User, firstPrompt)];
    }

    method AddUserMessage(newPrompt: string)
      modifies this
      ensures messages == old(messages) + [Message(User, newPrompt)]
    {
      messages := messages + [Message(User, newPrompt)];
    }

    method AddAssistantMessage(newAnswer: string)
      modifies this
      ensures messages == old(messages) + [Message(Assistant, newAnswer)]
    {
      messages := messages + [Message(Assistant, newAnswer)];
    }
  }
}
