/** `ChatBotMaker`: the list of conversation objects and the operations that
    change it, each proved to act on `Records()` as the functions of `Registry`
    and `Turns` say. */
module Bot {
  import opened Transcript
  import opened Registry
  import opened Turns
  import opened Wrappers

  class ChatBotMaker {
    var chats: seq<Conversation>
    /** The objects the store consists of: itself and its conversations. */
    ghost var Repr: set<object>

    /** Every conversation belongs to the store and no conversation object
        occurs twice in the list. */
    ghost predicate Valid()
      reads this
    {
      this in Repr &&
      (forall c :: c in chats ==> c in Repr) &&
      (forall i, j :: 0 <= i < j < |chats| ==> chats[i] != chats[j])
    }

    /** The list as values: one record per conversation, in list order. */
    ghost function Records(): seq<Record>
      reads this, chats
    {
      seq(|chats|, i requires 0 <= i < |chats| reads this, chats => Record(chats[i].chatId, chats[i].messages))
    }

    /** The part of `__init__` that concerns the store: no conversations. */
    constructor ()
      ensures Valid() && fresh(Repr) && chats == [] && Records() == []
    {
      chats := [];
      Repr := {this};
    }

    method ValidateChat(chatId: ChatId, userMessage: string)
      requires Valid()
      modifies Repr
      ensures Valid() && fresh(Repr - old(Repr))
      ensures Records() == Registry.ValidateChat(old(Records()), chatId, userMessage)
      ensures |chats| >= |old(chats)| && chats[..|old(chats)|] == old(chats)
      ensures forall i :: |old(chats)| <= i < |chats| ==> fresh(chats[i])
    {
      var conversationFound := false;
      if |chats| == 0 {
        AppendConversation(chatId, userMessage);
      } else {
        conversationFound := AddUserMessages(chatId, userMessage);
        if !conversationFound {
          AppendConversation(chatId, userMessage);
        }
      }
    }

    /** Adds a freshly seeded conversation of the chat at the end of the list. */
    method AppendConversation(chatId: ChatId, userMessage: string)
      requires Valid()
      modifies this
      ensures Valid() && fresh(Repr - old(Repr))
      ensures |chats| == |old(chats)| + 1 && chats[..|old(chats)|] == old(chats)
      ensures Records() == old(Records()) + [NewRecord(chatId, userMessage)]
      ensures fresh(chats[|chats| - 1])
    {
      var newConversation := new Conversation(chatId, userMessage);
      chats := chats + [newConversation];
      Repr := Repr + {newConversation};
    }

    /** The loop of `validate_chat`: the user message goes to every
        conversation of the chat, and the flag is overwritten on every iteration. */
    method AddUserMessages(chatId: ChatId, userMessage: string) returns (conversationFound: bool)
      requires Valid() && chats != []
      modifies chats
      ensures Records() == AppendToMatching(old(Records()), chatId, Message(User, userMessage))
      ensures conversationFound == FoundAfterLoop(old(Records()), chatId, 0, false)
    {
      conversationFound := false;
      for i := 0 to |chats|
        invariant conversationFound == (i > 0 && chats[i - 1].chatId == chatId)
        invariant forall k :: 0 <= k < i && chats[k].chatId == chatId ==>
                    chats[k].messages == old(chats[k].messages) + [Message(User, userMessage)]
        invariant forall k :: 0 <= k < |chats| && (i <= k || chats[k].chatId != chatId) ==>
                    chats[k].messages == old(chats[k].messages)
      {
        var conversation := chats[i];
        if chatId == conversation.chatId {
          conversationFound := true;
          conversation.AddUserMessage(userMessage);
        } else {
          conversationFound := false;
        }
      }
    }

    /** The lookup loop of `get_openai_response`: the messages of the last
        conversation of the chat, or None when the local was never bound. */
    method FindContext(chatId: ChatId) returns (messages: Option<seq<Message>>)
      ensures var k := LastMatch(Records(), chatId);
              messages == if k < 0 then None else Some(chats[k].messages)
    {
      messages := None;
      ghost var last := -1;
      for i := 0 to |chats|
        invariant -1 <= last < i
        invariant last >= 0 ==> chats[last].chatId == chatId
        invariant forall j :: last < j < i ==> chats[j].chatId != chatId
        invariant messages == if last < 0 then None else Some(chats[last].messages)
      {
        var conversation := chats[i];
        if chatId == conversation.chatId {
          messages := Some(conversation.messages);
          last := i;
        }
      }
      assert forall j :: 0 <= j < |chats| ==> Records()[j].chatId == chats[j].chatId;
    }

    /** The answer loop of `get_openai_response`. */
    method AddAnswer(chatId: ChatId, newAnswer: string)
      requires Valid()
      modifies chats
      ensures Records() == AppendToMatching(old(Records()), chatId, Message(Assistant, newAnswer))
    {
      for i := 0 to |chats|
        invariant forall k :: 0 <= k < i && chats[k].chatId == chatId ==>
                    chats[k].messages == old(chats[k].messages) + [Message(Assistant, newAnswer)]
        invariant forall k :: 0 <= k < |chats| && (i <= k || chats[k].chatId != chatId) ==>
                    chats[k].messages == old(chats[k].messages)
      {
        var conversation := chats[i];
        if chatId == conversation.chatId {
          conversation.AddAssistantMessage(newAnswer);
        }
      }
    }

    /** `get_openai_response(chat_id)`, the service's outcome given as `outcome`. */
    method GetOpenAIResponse(chatId: ChatId, outcome: Completion) returns (r: Reply)
      requires Valid()
      modifies chats
      ensures r == Respond(old(Records()), chatId, outcome)
      ensures Records() == AfterResponse(old(Records()), chatId, outcome)
    {
      var messages := FindContext(chatId);
      if messages.None? {
        return NameError;
      }
      match outcome {
        case Completed(newAnswer) =>
          AddAnswer(chatId, newAnswer);
          return Reply(messages.value, newAnswer);
        case APIError =>
        case APIConnectionError =>
        case RateLimitError =>
      }
      r := Reply(messages.value, Fallback);
    }

    /** The list `save_conversations` builds before writing it out. */
    method SaveConversations() returns (conversations: seq<Record>)
      ensures |conversations| == |chats|
      ensures forall i :: 0 <= i < |chats| ==>
                conversations[i].chatId == chats[i].chatId && conversations[i].messages == chats[i].messages
      ensures conversations == Records()
    {
      conversations := [];
      for i := 0 to |chats|
        invariant |conversations| == i
        invariant forall k :: 0 <= k < i ==>
                    conversations[k].chatId == chats[k].chatId && conversations[k].messages == chats[k].messages
      {
        var chat := chats[i];
        conversations := conversations + [Record(chat.chatId, chat.messages)];
      }
    }

    /** One pass of the loop body of `run`, for one update whose message the
        completion service answered with `outcome`: the reply sent, and the
        records written out when the message is the export trigger. */
    method ProcessUpdate(update: Update, outcome: Completion)
      returns (answer: string, saved: Option<seq<Record>>)
      requires Valid()
      modifies Repr
      ensures Valid() && fresh(Repr - old(Repr))
      ensures Records() == Turn(old(Records()), update, outcome)
      ensures answer == ReplyText(outcome)
      ensures saved == if update.text == ExportTrigger then Some(Records()) else None
    {
      ghost var before := Records();
      ValidateChat(update.chatId, update.text);
      TurnNeverRaises(before, update, outcome);
      var reply := GetOpenAIResponse(update.chatId, outcome);
      answer := reply.text;
      saved := None;
      if update.text == ExportTrigger {
        var conversations := SaveConversations();
        saved := Some(conversations);
      }
    }

    /** The body of `run` for one batch of updates (empty or not): the offset
        it leaves, the replies sent and the record lists written out. */
    method RunBatch(offset: int, updates: seq<Update>, outcomes: seq<Completion>)
      returns (newOffset: int, sent: seq<Outgoing>, exports: seq<seq<Record>>)
      requires Valid() && |outcomes| == |updates|
      modifies Repr
      ensures Valid() && fresh(Repr - old(Repr))
      ensures newOffset == if updates == [] then offset else updates[|updates| - 1].updateId + 1
      ensures Records() == Batch(old(Records()), updates, outcomes)
      ensures sent == Outbox(updates, outcomes)
      ensures exports == Exports(old(Records()), updates, outcomes)
    {
      newOffset, sent, exports := offset, [], [];
      ghost var start := Records();
      for i := 0 to |updates|
        invariant Valid() && fresh(Repr - old(Repr))
        invariant newOffset == if i == 0 then offset else updates[i - 1].updateId + 1
        invariant Records() == Batch(start, updates[..i], outcomes[..i])
        invariant exports == Exports(start, updates[..i], outcomes[..i])
        invariant sent == Outbox(updates[..i], outcomes[..i])
      {
        var update := updates[i];
        newOffset := update.updateId + 1;
        var answer, saved := ProcessUpdate(update, outcomes[i]);
        sent := sent + [Outgoing(update.chatId, answer)];
        BatchStep(start, updates, outcomes, i);
        if saved.Some? {
          exports := exports + [saved.value];
        }
      }
      assert updates[..|updates|] == updates && outcomes[..|outcomes|] == outcomes;
    }
  }
}
