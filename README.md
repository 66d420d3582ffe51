# Conversation store of a Telegram to ChatGPT relay bot

The bot polls Telegram for updates. It keeps a list of transcripts, each a
`Conversation` that holds a fixed persona message followed by the user and
assistant messages. The list is meant to hold one transcript per chat, but the
flag defect described below can give a chat several. It sends each transcript to the OpenAI chat-completion
service and relays the answer back. This project models the bot's in-memory
store and the bookkeeping around each turn:

- `Transcript`: the message datatypes, the persona text, and the
  `Conversation` class with its constructor and its two append methods.
- `Registry`: the list of conversations as a value (`seq<Record>`, with one
  `{chat_id, messages}` record per conversation). It defines `validate_chat`
  **exactly as written** and holds the lemmas about it.
  - The `conversation_found` flag is overwritten on every iteration. Once the
    loop ends it only says whether the *last* conversation matched.
  - The loop never breaks, so every conversation of the chat gets the message.
  - A chat whose conversation is not the last one therefore gets the message
    appended there, and a second, freshly seeded conversation as well.
- `Turns`: the outcome of the completion service as a value. It is either an
  answer or one of the three caught error kinds. On top of that come the
  return value and state change of `get_openai_response`, one turn of `run`,
  and a batch of updates with its offset, outgoing messages and exports.
- `Bot`: the class `ChatBotMaker`, which holds a `seq<Conversation>` field.
  Each of its methods, loops included, is proved to act on `Records()` as the
  `Registry` and `Turns` functions say.

The transcript text, the prompts and the answers are `string`s. The chat id is
an `int`, compared by equality only. The answer from the completion service is
a parameter (`Completion`), never a call. The updates Telegram delivers
are parameters too (`Update`).

Two consequences of the code as written shape the model:
- The flag defect lets one chat id own several conversations
  (`Registry.ValidateUniqueIff`, `Registry.DuplicateOnNonLastMatch`,
  `Turns.ScenarioDuplicate`).
- `run` reads `update["message"]` unconditionally (core/bot.py:144), so an
  update without a text message raises `KeyError`. The model takes only
  updates that carry one.

When no conversation of the chat exists, `get_openai_response` never binds its
local `messages`. The resulting `UnboundLocalError` is not one of the three
caught kinds. The model calls this outcome `Reply.NameError`, and in that case
the list is left unchanged. Inside `run` it cannot happen:
`Turns.TurnNeverRaises` shows that `validate_chat` always leaves the last
conversation belonging to the chat.

## Model

| member | source | states |
|---|---|---|
| `Transcript.Conversation.constructor` | core/bot.py:167-175 | stores the given chat id; the messages are exactly the persona system message followed by the first prompt as a user message |
| `Transcript.Conversation.AddUserMessage` | core/bot.py:178-179 | the messages become the old messages plus one user entry with the given content; earlier entries unchanged and in order |
| `Transcript.Conversation.AddAssistantMessage` | core/bot.py:182-183 | the messages become the old messages plus one assistant entry with the given content |
| `Registry.AppendToMatching` | core/bot.py:62-68 | one pass over the list: same length, every conversation of the chat gains exactly the given message at its end, every other conversation is unchanged |
| `Registry.FoundAfterLoop` | core/bot.py:55-68 | the flag the loop leaves is the comparison made with the last conversation, whatever it held on entry; a loop with nothing left to visit leaves the entry value |
| `Registry.ValidateChat` | core/bot.py:55-73 | `validate_chat` as written: the list grows by at most one conversation; every existing position keeps its chat id; an added conversation goes at the end, freshly seeded from the chat id and the user message |
| `Registry.ValidateOnEmpty` | core/bot.py:57-60 | on an empty list the result is exactly one conversation: the chat id with the persona message and the user message |
| `Registry.ValidateUpdatesMatches` | core/bot.py:62-68 | every existing conversation of the chat gets exactly one user message; every other conversation is unchanged; positions do not move |
| `Registry.ValidateCreatesIff` | core/bot.py:55-73 | a conversation is added exactly when the list is empty or its last conversation belongs to another chat, and it is appended at the end, freshly seeded |
| `Registry.ValidateGrowsAtEnd` | core/bot.py:57-73 | the chat ids after the call are the chat ids before it, followed by the new chat id when a conversation was created |
| `Registry.ValidateLastIsChat` | core/bot.py:57-73 | after the call the list is non-empty and its last conversation belongs to the chat |
| `Registry.DuplicateOnNonLastMatch` | core/bot.py:62-73 | a chat matching at a non-last position gets the message appended there and a second conversation for the same chat at the end |
| `Registry.ValidateUniqueIff` | core/bot.py:55-73 | from a list with one conversation per chat, the result still has one per chat if and only if the chat is new or owns the last conversation |
| `Registry.AppendKeepsSeeded` | core/bot.py:178-183 | appending a user or assistant message keeps every transcript starting with the persona message and free of other system messages |
| `Registry.ValidateKeepsSeeded` | core/bot.py:48-73 | `validate_chat` keeps every transcript starting with the persona message and free of other system messages |
| `Registry.LastMatch` | core/bot.py:83-85 | the position of the last conversation of the chat (every later one belongs to another chat), or -1 when there is none |
| `Turns.Respond` | core/bot.py:83-118 | the call raises exactly when no conversation of the chat exists; otherwise the messages sent are those of the last conversation of the chat, and the text returned is the answer on success and "Ocurrió un Error :(" on a caught error |
| `Turns.AfterResponse` | core/bot.py:99-118 | the list keeps its length, and a caught error leaves it unchanged |
| `Turns.FailureLeavesStateUnchanged` | core/bot.py:105-118 | on an API, connection or rate-limit error the list is unchanged and the returned text is "Ocurrió un Error :(" |
| `Turns.SuccessAppendsAnswer` | core/bot.py:83-103 | on success the return is the answer, together with the messages of the last conversation of the chat as the context sent; each conversation of the chat gains the answer as one assistant message, the others are untouched |
| `Turns.NoConversationRaises` | core/bot.py:83-90 | with no conversation of the chat the call raises before reaching the service, and the list is unchanged |
| `Turns.TurnNeverRaises` | core/bot.py:149-152 | after `validate_chat` the response never raises; the context sent ends with the user's new message, and the text returned is the answer or the fallback |
| `Turns.Turn` | core/bot.py:149-152 | one processed update grows the list by at most one conversation |
| `Turns.TurnKeepsIds` | core/bot.py:149-152 | one processed update leaves the chat id at every existing position as it was |
| `Turns.TurnAdds` | core/bot.py:149-152 | a turn adds a conversation exactly when the list is empty or its last conversation belongs to another chat; the added conversation holds the persona message, the user message and, on success only, the answer |
| `Turns.TurnOnEmpty` | core/bot.py:57-60 | the first message on an empty store yields one conversation: the persona message, the user message and, on success only, the answer |
| `Turns.TurnOnOwnChat` | core/bot.py:62-73 | a chat owning the only conversation keeps it as the only one, which gains the user message and, on success only, the answer |
| `Turns.TurnMessages` | core/bot.py:149-152 | in one turn each existing conversation of the chat gains the user message and then, on success only, the answer; so a failed turn adds exactly one entry; other conversations are unchanged |
| `Turns.Batch` | core/bot.py:141-157 | a batch grows the list by at most one conversation per update |
| `Turns.Outbox` | core/bot.py:141-157 | one message per update, in order, sent to that update's chat with the answer or the fallback text |
| `Turns.Exports` | core/bot.py:141-157 | at most one export per update |
| `Turns.ExportsOnTrigger` | core/bot.py:149-157 | an update whose text is "pushtohub" exports the records as they stand right after its turn |
| `Turns.NoTriggerNoExports` | core/bot.py:156-157 | a batch without "pushtohub" exports nothing |
| `Turns.BatchStep` | core/bot.py:141-157 | one more update extends a batch by one turn on the records, by one outgoing message to its chat with its reply text, and by one export of the records after its turn exactly when its text is "pushtohub" |
| `Turns.BatchGrowsAtEnd` | core/bot.py:141-157 | a batch never removes or reorders conversations: the old chat ids are a prefix of the new ones, and the list grows by at most one per update |
| `Turns.BatchKeepsSeeded` | core/bot.py:141-157 | across any batch every transcript starts with the persona message and has no other system message |
| `Turns.ScenarioOneChat` | core/bot.py:141-152 | chat 42 says "Hello" and gets an answer: one conversation of 3 messages; then "More info" and an answer: still one conversation, of 5 messages |
| `Turns.ScenarioDuplicate` | core/bot.py:141-152 | chats 1, 2, 1 with failed completions end with two conversations for chat 1, the first holding both of its user messages |
| `Bot.ChatBotMaker.constructor` | core/bot.py:15 | the store starts with no conversations |
| `Bot.ChatBotMaker.ValidateChat` | core/bot.py:48-73 | the conversation records become `Registry.ValidateChat` of the old ones; the existing objects keep their positions; new objects are fresh |
| `Bot.ChatBotMaker.AppendConversation` | core/bot.py:72-73 | the list gains one fresh conversation at the end, seeded from the chat id and message; the rest is unchanged |
| `Bot.ChatBotMaker.AddUserMessages` | core/bot.py:62-68 | the records become `Registry.AppendToMatching` of the old ones with the user message; the returned flag is the one the loop leaves |
| `Bot.ChatBotMaker.FindContext` | core/bot.py:83-85 | returns the messages of the last conversation of the chat, or nothing when no conversation matches |
| `Bot.ChatBotMaker.AddAnswer` | core/bot.py:99-101 | the records become `Registry.AppendToMatching` of the old ones with the assistant answer |
| `Bot.ChatBotMaker.GetOpenAIResponse` | core/bot.py:76-118 | the return value is `Turns.Respond` and the new records are `Turns.AfterResponse` of the old records and the outcome |
| `Bot.ChatBotMaker.SaveConversations` | core/bot.py:120-125 | builds one record per conversation, in list order, with the chat id and the full message list |
| `Bot.ChatBotMaker.ProcessUpdate` | core/bot.py:143-157 | one update: the records become `Turns.Turn` of the old ones; the reply is the answer or the fallback; the records are exported exactly when the text is "pushtohub" |
| `Bot.ChatBotMaker.RunBatch` | core/bot.py:140-157 | after a batch the offset is the last update's id plus one, or unchanged for an empty batch; the records are `Turns.Batch`; one outgoing message per update, holding its chat and reply text; the exports are `Turns.Exports` |

## Left out

- `get_updates` and `send_messages` are Telegram HTTP calls. The updates of a batch are a parameter, and the sends are returned as `Outgoing` values.
- `openai.ChatCompletion.create` and the indexing of its response are left out. Its result is the `Completion` parameter. The model engine, `temperature` and `max_tokens` are only passed to it, so they are left out too. So are exceptions other than the three caught kinds, such as a malformed response.
- The JSON encoding and file writing in `save_conversations` are left out; the model keeps the record list it builds.
- Loading `.env` and the two API keys is configuration, so it is left out. `print` logging is left out as well.
- The `while True` loop of `run` and its `time.sleep(1)` on an empty poll are left out. `RunBatch` models the handling of one batch, starting from a given offset.
- Updates without a `message` are not modelled, because the code raises on them.
- `Turns.AfterResponse`: its contract gives only the length and the failure case. What success appends is stated by `Turns.SuccessAppendsAnswer`, to keep the contract cheap wherever the function is used.
- `Turns.Turn`: its contract gives only the growth bound. What happens to the existing positions is stated by `Turns.TurnMessages` and `Turns.TurnKeepsIds`; whether a conversation is added, and what it holds, by `Turns.TurnAdds`.
- `Turns.Batch`: its contract gives only the growth bound. The order of the chat ids is stated by `Turns.BatchGrowsAtEnd`.
- `Turns.Exports`: its contract gives only the count bound. What each update of any batch adds to the exports is stated by `Turns.BatchStep`; the cases of a final trigger and of no trigger at all are stated by `Turns.ExportsOnTrigger` and `Turns.NoTriggerNoExports`.
- Python aliasing is not modelled. The records and the context sent hold the message lists as values, where Python shares the list objects, and the context sent is taken when the call is made.
