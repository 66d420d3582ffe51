/** One turn of the bot's loop, seen as a value: `validate_chat`, then the
    state update and return value of `get_openai_response`, with the completion
    service's answer given as a `Completion`; and a batch of Telegram updates. */
module Turns {
  import opened Transcript
  import opened Registry

  /** What `openai.ChatCompletion.create` did: an answer, or one of the three
      exception kinds the code catches. */
  datatype Completion = Completed(text: string) | APIError | APIConnectionError | RateLimitError

  /** What `get_openai_response` produces. `NameError` is the uncaught
      exception raised when no conversation of the chat exists, so that the
      local `messages` was never bound; otherwise the message list handed to
      the service and the text returned. */
  datatype Reply = NameError | Reply(sent: seq<Message>, text: string)

  /** One Telegram update that carries a text message. */
  datatype Update = Update(updateId: int, chatId: ChatId, text: string)

  /** One `send_messages(chat_id, text)` call. */
  datatype Outgoing = Outgoing(chatId: ChatId, text: string)

  /** The text returned when the service raised one of the caught errors. */
  const Fallback: string := "Ocurrió un Error :("

  /** The user message that triggers `save_conversations`. */
  const ExportTrigger: string := "pushtohub"

  function ReplyText(c: Completion): string
  {
    if c.Completed? then c.text else Fallback
  }

  /** The return value of `get_openai_response(chat_id)` on list `rs`. */
  function Respond(rs: seq<Record>, id: ChatId, c: Completion): (r: Reply)
    ensures r.NameError? <==> forall i :: 0 <= i < |rs| ==> rs[i].chatId != id
    ensures r.Reply? ==> exists k :: 0 <= k < |rs| && rs[k].chatId == id && r.sent == rs[k].messages &&
                                     forall j :: k < j < |rs| ==> rs[j].chatId != id
    ensures r.Reply? && c.Completed? ==> r.text == c.text
    ensures r.Reply? && !c.Completed? ==> r.text == Fallback
  {
    var k := LastMatch(rs, id);
    if k < 0 then NameError else Reply(rs[k].messages, ReplyText(c))
  }

  /** The list after `get_openai_response(chat_id)`: the answer is appended to
      every conversation of the chat on success, nothing changes otherwise. */
  function AfterResponse(rs: seq<Record>, id: ChatId, c: Completion): (r: seq<Record>)
    ensures !c.Completed? ==> r == rs
    ensures |r| == |rs|
  {
    if LastMatch(rs, id) >= 0 && c.Completed? then AppendToMatching(rs, id, Message(Assistant, c.text))
    else rs
  }

  /** A failed completion returns the fallback text and leaves the list as it was. */
  lemma FailureLeavesStateUnchanged(rs: seq<Record>, id: ChatId, c: Completion)
    requires !c.Completed?
    ensures AfterResponse(rs, id, c) == rs
    ensures Respond(rs, id, c).Reply? ==> Respond(rs, id, c).text == "Ocurrió un Error :("
  {
  }

  /** A successful completion is returned and appended, once, to every
      conversation of the chat; the others are untouched. */
  lemma SuccessAppendsAnswer(rs: seq<Record>, id: ChatId, answer: string)
    requires LastMatch(rs, id) >= 0
    ensures Respond(rs, id, Completed(answer)) == Reply(rs[LastMatch(rs, id)].messages, answer)
    ensures |AfterResponse(rs, id, Completed(answer))| == |rs|
    ensures forall i :: 0 <= i < |rs| && rs[i].chatId == id ==>
              AfterResponse(rs, id, Completed(answer))[i] == Record(id, rs[i].messages + [Message(Assistant, answer)])
    ensures forall i :: 0 <= i < |rs| && rs[i].chatId != id ==> AfterResponse(rs, id, Completed(answer))[i] == rs[i]
  {
  }

  /** Without a conversation of the chat the call raises and changes nothing. */
  lemma NoConversationRaises(rs: seq<Record>, id: ChatId, c: Completion)
    requires forall i :: 0 <= i < |rs| ==> rs[i].chatId != id
    ensures Respond(rs, id, c) == NameError && AfterResponse(rs, id, c) == rs
  {
  }

  /** The list after one processed update. */
  function Turn(rs: seq<Record>, u: Update, c: Completion): (r: seq<Record>)
    ensures |rs| <= |r| <= |rs| + 1
  {
    AfterResponse(ValidateChat(rs, u.chatId, u.text), u.chatId, c)
  }

  /** Inside a turn the response never raises: `validate_chat` leaves the chat
      owning the last conversation, whose messages, ending with the user's new
      message, are what the service is sent. */
  lemma TurnNeverRaises(rs: seq<Record>, u: Update, c: Completion)
    ensures Respond(ValidateChat(rs, u.chatId, u.text), u.chatId, c).Reply?
    ensures Respond(ValidateChat(rs, u.chatId, u.text), u.chatId, c).text == ReplyText(c)
    ensures var sent := Respond(ValidateChat(rs, u.chatId, u.text), u.chatId, c).sent;
            |sent| >= 1 && sent[|sent| - 1] == Message(User, u.text)
  {
    var v := ValidateChat(rs, u.chatId, u.text);
    ValidateLastIsChat(rs, u.chatId, u.text);
    ValidateCreatesIff(rs, u.chatId, u.text);
    ValidateUpdatesMatches(rs, u.chatId, u.text);
    assert LastMatch(v, u.chatId) == |v| - 1;
    if !Creates(rs, u.chatId) {
      assert v[|v| - 1].messages == rs[|rs| - 1].messages + [Message(User, u.text)];
    }
  }

  /** What one turn does to each conversation already in the list: those of the
      chat gain the user message, then the answer on success only; a failed
      turn therefore adds exactly one entry. */
  lemma TurnMessages(rs: seq<Record>, u: Update, c: Completion)
    ensures forall i :: 0 <= i < |rs| && rs[i].chatId == u.chatId ==>
              Turn(rs, u, c)[i].messages ==
                rs[i].messages + [Message(User, u.text)] +
                (if c.Completed? then [Message(Assistant, c.text)] else [])
    ensures forall i :: 0 <= i < |rs| && rs[i].chatId != u.chatId ==> Turn(rs, u, c)[i] == rs[i]
  {
  }

  /** A turn adds a conversation exactly when `validate_chat` creates one; the
      new conversation holds the persona message, the user message and, on
      success only, the answer. */
  lemma TurnAdds(rs: seq<Record>, u: Update, c: Completion)
    ensures |Turn(rs, u, c)| == if Creates(rs, u.chatId) then |rs| + 1 else |rs|
    ensures Creates(rs, u.chatId) ==>
              Turn(rs, u, c)[|rs|] ==
                Record(u.chatId, Seed(u.text) + (if c.Completed? then [Message(Assistant, c.text)] else []))
  {
    ValidateCreatesIff(rs, u.chatId, u.text);
    ValidateLastIsChat(rs, u.chatId, u.text);
    if !c.Completed? {
      assert Seed(u.text) + [] == Seed(u.text);
    }
  }

  /** The list after a batch of updates, each with the service's outcome for it. */
  function Batch(rs: seq<Record>, us: seq<Update>, cs: seq<Completion>): (r: seq<Record>)
    requires |cs| == |us|
    ensures |rs| <= |r| <= |rs| + |us|
  {
    if us == [] then rs
    else Turn(Batch(rs, us[..|us| - 1], cs[..|cs| - 1]), us[|us| - 1], cs[|cs| - 1])
  }

  /** The `send_messages` calls of a batch: one per update, to its chat, with
      the text of its reply. */
  function Outbox(us: seq<Update>, cs: seq<Completion>): (o: seq<Outgoing>)
    requires |cs| == |us|
    ensures |o| == |us|
    ensures forall i :: 0 <= i < |us| ==> o[i].chatId == us[i].chatId && o[i].text == ReplyText(cs[i])
  {
    if us == [] then []
    else Outbox(us[..|us| - 1], cs[..|cs| - 1]) + [Outgoing(us[|us| - 1].chatId, ReplyText(cs[|cs| - 1]))]
  }

  /** The record lists `save_conversations` produced during a batch, one per
      update whose text is the trigger, taken after that update's turn. */
  function Exports(rs: seq<Record>, us: seq<Update>, cs: seq<Completion>): (e: seq<seq<Record>>)
    requires |cs| == |us|
    ensures |e| <= |us|
  {
    if us == [] then []
    else Exports(rs, us[..|us| - 1], cs[..|cs| - 1]) +
         (if us[|us| - 1].text == ExportTrigger then [Batch(rs, us, cs)] else [])
  }

  /** An update whose text is the trigger exports the records as they stand
      right after its turn. */
  lemma ExportsOnTrigger(rs: seq<Record>, us: seq<Update>, cs: seq<Completion>)
    requires |cs| == |us| && us != [] && us[|us| - 1].text == ExportTrigger
    ensures |Exports(rs, us, cs)| > 0
    ensures Exports(rs, us, cs)[|Exports(rs, us, cs)| - 1] == Batch(rs, us, cs)
  {
  }

  /** A batch without the trigger exports nothing. */
  lemma {:induction false} NoTriggerNoExports(rs: seq<Record>, us: seq<Update>, cs: seq<Completion>)
    requires |cs| == |us|
    requires forall i :: 0 <= i < |us| ==> us[i].text != ExportTrigger
    ensures Exports(rs, us, cs) == []
  {
    if us != [] {
      var n := |us| - 1;
      assert forall i :: 0 <= i < n ==> us[..n][i] == us[i];
      NoTriggerNoExports(rs, us[..n], cs[..n]);
    }
  }

  /** One more update extends the batch by one turn. */
  lemma BatchStep(rs: seq<Record>, us: seq<Update>, cs: seq<Completion>, i: nat)
    requires |cs| == |us| && i < |us|
    ensures Batch(rs, us[..i + 1], cs[..i + 1]) == Turn(Batch(rs, us[..i], cs[..i]), us[i], cs[i])
    ensures Exports(rs, us[..i + 1], cs[..i + 1]) ==
              Exports(rs, us[..i], cs[..i]) +
              (if us[i].text == ExportTrigger then [Batch(rs, us[..i + 1], cs[..i + 1])] else [])
    ensures Outbox(us[..i + 1], cs[..i + 1]) == Outbox(us[..i], cs[..i]) + [Outgoing(us[i].chatId, ReplyText(cs[i]))]
  {
    assert us[..i + 1][..i] == us[..i] && cs[..i + 1][..i] == cs[..i];
  }

  /** One turn leaves the chat id at every existing position as it was. */
  lemma TurnKeepsIds(rs: seq<Record>, u: Update, c: Completion)
    ensures forall i :: 0 <= i < |rs| ==> Turn(rs, u, c)[i].chatId == rs[i].chatId
  {
  }

  /** A batch never removes or reorders conversations: the chat ids before it
      are a prefix of those after it, and each update adds at most one. */
  lemma {:induction false} BatchGrowsAtEnd(rs: seq<Record>, us: seq<Update>, cs: seq<Completion>)
    requires |cs| == |us|
    ensures |rs| <= |Batch(rs, us, cs)| <= |rs| + |us|
    ensures Ids(Batch(rs, us, cs))[..|rs|] == Ids(rs)
  {
    if us != [] {
      var n := |us| - 1;
      BatchGrowsAtEnd(rs, us[..n], cs[..n]);
      var b := Batch(rs, us[..n], cs[..n]);
      TurnKeepsIds(b, us[n], cs[n]);
      IdsPrefix(b, rs);
      IdsPrefix(Turn(b, us[n], cs[n]), rs);
    }
  }

  /** Every transcript keeps its persona message first and no other system message. */
  lemma {:induction false} BatchKeepsSeeded(rs: seq<Record>, us: seq<Update>, cs: seq<Completion>)
    requires |cs| == |us| && AllSeeded(rs)
    ensures AllSeeded(Batch(rs, us, cs))
  {
    if us != [] {
      var n := |us| - 1;
      BatchKeepsSeeded(rs, us[..n], cs[..n]);
      var b := Batch(rs, us[..n], cs[..n]);
      ValidateKeepsSeeded(b, us[n].chatId, us[n].text);
      var v := ValidateChat(b, us[n].chatId, us[n].text);
      if LastMatch(v, us[n].chatId) >= 0 && cs[n].Completed? {
        AppendKeepsSeeded(v, us[n].chatId, Message(Assistant, cs[n].text));
      }
    }
  }

  /** The first message of a new chat: one conversation, holding the persona
      message, the user message and, on success, the answer. */
  lemma TurnOnEmpty(u: Update, c: Completion)
    ensures Turn([], u, c) ==
              [Record(u.chatId, Seed(u.text) + (if c.Completed? then [Message(Assistant, c.text)] else []))]
  {
    var v := ValidateChat([], u.chatId, u.text);
    assert v == [NewRecord(u.chatId, u.text)];
    assert LastMatch(v, u.chatId) == 0;
    if c.Completed? {
      var a := AppendToMatching(v, u.chatId, Message(Assistant, c.text));
      assert |a| == 1 && a[0] == Record(u.chatId, Seed(u.text) + [Message(Assistant, c.text)]);
      assert Turn([], u, c) == a;
    } else {
      assert Seed(u.text) + [] == Seed(u.text);
    }
  }

  /** A chat that owns the only conversation keeps it as the only one, gaining
      the user message and, on success, the answer. */
  lemma TurnOnOwnChat(r: Record, u: Update, c: Completion)
    requires r.chatId == u.chatId
    ensures Turn([r], u, c) ==
              [Record(r.chatId, r.messages + [Message(User, u.text)] +
                                (if c.Completed? then [Message(Assistant, c.text)] else []))]
  {
    var v := ValidateChat([r], u.chatId, u.text);
    ValidateCreatesIff([r], u.chatId, u.text);
    ValidateUpdatesMatches([r], u.chatId, u.text);
    assert v == [Record(r.chatId, r.messages + [Message(User, u.text)])];
    assert LastMatch(v, u.chatId) == 0;
    if c.Completed? {
      var a := AppendToMatching(v, u.chatId, Message(Assistant, c.text));
      assert |a| == 1 && a[0] == Record(r.chatId, v[0].messages + [Message(Assistant, c.text)]);
      assert Turn([r], u, c) == a;
    } else {
      assert v[0].messages + [] == v[0].messages;
    }
  }

  /** Chat 42 says "Hello", gets an answer, says "More info", gets an answer:
      one conversation of three, then five messages. */
  lemma ScenarioOneChat(a1: string, a2: string)
    ensures Turn([], Update(1, 42, "Hello"), Completed(a1)) ==
              [Record(42, [Message(System, SystemJob), Message(User, "Hello"), Message(Assistant, a1)])]
    ensures Turn([Record(42, [Message(System, SystemJob), Message(User, "Hello"), Message(Assistant, a1)])],
                 Update(2, 42, "More info"), Completed(a2)) ==
              [Record(42, [Message(System, SystemJob), Message(User, "Hello"), Message(Assistant, a1),
                           Message(User, "More info"), Message(Assistant, a2)])]
  {
    var m3 := [Message(System, SystemJob), Message(User, "Hello"), Message(Assistant, a1)];
    assert Turn([], Update(1, 42, "Hello"), Completed(a1)) == [Record(42, m3)] by {
      TurnOnEmpty(Update(1, 42, "Hello"), Completed(a1));
      assert Seed("Hello") + [Message(Assistant, a1)] == m3;
    }
    var m5 := m3 + [Message(User, "More info"), Message(Assistant, a2)];
    assert Turn([Record(42, m3)], Update(2, 42, "More info"), Completed(a2)) == [Record(42, m5)] by {
      TurnOnOwnChat(Record(42, m3), Update(2, 42, "More info"), Completed(a2));
      assert m3 + [Message(User, "More info")] + [Message(Assistant, a2)] == m5;
    }
    assert m5 == [Message(System, SystemJob), Message(User, "Hello"), Message(Assistant, a1),
                  Message(User, "More info"), Message(Assistant, a2)];
  }

  /** Chats 1, 2, 1 with failed completions: the third update appends to the
      first conversation and also creates a second conversation for chat 1. */
  lemma ScenarioDuplicate()
    ensures Turn([], Update(10, 1, "a"), APIError) == [NewRecord(1, "a")]
    ensures Turn([NewRecord(1, "a")], Update(11, 2, "b"), RateLimitError) == [NewRecord(1, "a"), NewRecord(2, "b")]
    ensures Turn([NewRecord(1, "a"), NewRecord(2, "b")], Update(12, 1, "c"), APIConnectionError) ==
              [Record(1, [Message(System, SystemJob), Message(User, "a"), Message(User, "c")]),
               NewRecord(2, "b"),
               NewRecord(1, "c")]
  {
    var s2 := AppendToMatching([NewRecord(1, "a")], 2, Message(User, "b"));
    assert s2 == [NewRecord(1, "a")];
    var b2 := [NewRecord(1, "a"), NewRecord(2, "b")];
    var s3 := AppendToMatching(b2, 1, Message(User, "c"));
    assert Seed("a") + [Message(User, "c")] == [Message(System, SystemJob), Message(User, "a"), Message(User, "c")];
    assert s3[0].messages == Seed("a") + [Message(User, "c")];
    assert s3[1] == NewRecord(2, "b");
    assert s3 == [Record(1, [Message(System, SystemJob), Message(User, "a"), Message(User, "c")]), NewRecord(2, "b")];
  }
}
