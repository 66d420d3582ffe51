/** The conversation list `ChatBotMaker.chats`, seen as a value: the records
    `save_conversations` builds, one per conversation, in list order. The
    functions here say what `validate_chat` and the answer loop of
    `get_openai_response` do to that list; the lemmas say what follows. */
module Registry {
  import opened Transcript

  /** The `{"chat_id": ..., "messages": ...}` record of one conversation. */
  datatype Record = Record(chatId: ChatId, messages: seq<Message>)

  function NewRecord(id: ChatId, firstPrompt: string): Record
  {
    Record(id, Seed(firstPrompt))
  }

  /** The chat ids of the list, in order. */
  function Ids(rs: seq<Record>): (ids: seq<ChatId>)
  {
    seq(|rs|, i requires 0 <= i < |rs| => rs[i].chatId)
  }

  /** The chat ids of `rs` begin the chat ids of `longer` exactly when the two
      lists agree on the chat id at every position of `rs`. */
  lemma IdsPrefix(longer: seq<Record>, rs: seq<Record>)
    requires |rs| <= |longer|
    ensures Ids(longer)[..|rs|] == Ids(rs) <==> forall i :: 0 <= i < |rs| ==> longer[i].chatId == rs[i].chatId
  {
    if Ids(longer)[..|rs|] == Ids(rs) {
      forall i | 0 <= i < |rs| ensures longer[i].chatId == rs[i].chatId {
        assert Ids(longer)[..|rs|][i] == Ids(rs)[i];
      }
    }
  }

  /** Appends `m` to the record `r` when it belongs to chat `id`. */
  function AppendIfMatch(r: Record, id: ChatId, m: Message): Record
  {
    if r.chatId == id then r.(messages := r.messages + [m]) else r
  }

  /** One pass over the list appending `m` to every conversation of chat `id`
      (the loop of `validate_chat`, and the answer loop of `get_openai_response`). */
  function AppendToMatching(rs: seq<Record>, id: ChatId, m: Message): (r: seq<Record>)
    ensures |r| == |rs|
    ensures forall i :: 0 <= i < |rs| && rs[i].chatId == id ==>
              r[i] == Record(id, rs[i].messages + [m])
    ensures forall i :: 0 <= i < |rs| && rs[i].chatId != id ==> r[i] == rs[i]
  {
    if rs == [] then []
    else AppendToMatching(rs[..|rs| - 1], id, m) + [AppendIfMatch(rs[|rs| - 1], id, m)]
  }

  /** The value `conversation_found` holds when the loop over `rs` ends, having
      reached position `i` holding `found`: every iteration overwrites it. */
  function FoundAfterLoop(rs: seq<Record>, id: ChatId, i: nat, found: bool): (r: bool)
    requires i <= |rs|
    ensures i == |rs| ==> r == found
    ensures i < |rs| ==> r == (rs[|rs| - 1].chatId == id)
    decreases |rs| - i
  {
    if i == |rs| then found else FoundAfterLoop(rs, id, i + 1, rs[i].chatId == id)
  }

  /** `validate_chat(chat_id, user_message)` as written: on an empty list a new
      conversation; otherwise the user message goes to every conversation of the
      chat, and a new conversation is added when the flag left by the loop is false. */
  function ValidateChat(rs: seq<Record>, id: ChatId, msg: string): (r: seq<Record>)
    ensures |rs| <= |r| <= |rs| + 1
    ensures forall i :: 0 <= i < |rs| ==> r[i].chatId == rs[i].chatId
    ensures |r| == |rs| + 1 ==> r[|rs|] == NewRecord(id, msg)
  {
    if rs == [] then [NewRecord(id, msg)]
    else
      var scanned := AppendToMatching(rs, id, Message(User, msg));
      if !FoundAfterLoop(rs, id, 0, false) then scanned + [NewRecord(id, msg)] else scanned
  }

  /** When `validate_chat` creates a conversation: the list is empty or its
      LAST conversation belongs to another chat. */
  predicate Creates(rs: seq<Record>, id: ChatId)
  {
    rs == [] || rs[|rs| - 1].chatId != id
  }

  /** On an empty list the result is the one freshly seeded conversation. */
  lemma ValidateOnEmpty(id: ChatId, msg: string)
    ensures ValidateChat([], id, msg) == [Record(id, [Message(System, SystemJob), Message(User, msg)])]
  {
  }

  /** Every existing conversation of the chat gets exactly one user message;
      the others are untouched; positions do not move. */
  lemma ValidateUpdatesMatches(rs: seq<Record>, id: ChatId, msg: string)
    ensures forall i :: 0 <= i < |rs| && rs[i].chatId == id ==>
              ValidateChat(rs, id, msg)[i] == Record(id, rs[i].messages + [Message(User, msg)])
    ensures forall i :: 0 <= i < |rs| && rs[i].chatId != id ==> ValidateChat(rs, id, msg)[i] == rs[i]
  {
  }

  /** A conversation is added exactly when `Creates` holds, and it goes at the end. */
  lemma ValidateCreatesIff(rs: seq<Record>, id: ChatId, msg: string)
    ensures |ValidateChat(rs, id, msg)| == if Creates(rs, id) then |rs| + 1 else |rs|
    ensures Creates(rs, id) ==> ValidateChat(rs, id, msg)[|rs|] == NewRecord(id, msg)
  {
  }

  /** The list only grows, by zero or one conversation at the end; the chat ids
      already there keep their positions. */
  lemma ValidateGrowsAtEnd(rs: seq<Record>, id: ChatId, msg: string)
    ensures Ids(ValidateChat(rs, id, msg)) == Ids(rs) + (if Creates(rs, id) then [id] else [])
  {
    ValidateCreatesIff(rs, id, msg);
    var r := ValidateChat(rs, id, msg);
    assert |Ids(r)| == |Ids(rs) + (if Creates(rs, id) then [id] else [])|;
    forall i | 0 <= i < |Ids(r)|
      ensures Ids(r)[i] == (Ids(rs) + (if Creates(rs, id) then [id] else []))[i]
    {
      if i < |rs| {
        assert r[i].chatId == rs[i].chatId;
      }
    }
  }

  /** After the call the LAST conversation of the list belongs to the chat. */
  lemma ValidateLastIsChat(rs: seq<Record>, id: ChatId, msg: string)
    ensures |ValidateChat(rs, id, msg)| > 0
    ensures ValidateChat(rs, id, msg)[|ValidateChat(rs, id, msg)| - 1].chatId == id
  {
    ValidateCreatesIff(rs, id, msg);
  }

  /** The flag defect: a chat whose conversation is not the last one gets the
      message appended there AND a second, freshly seeded conversation. */
  lemma DuplicateOnNonLastMatch(rs: seq<Record>, id: ChatId, msg: string, j: nat)
    requires j < |rs| - 1 && rs[j].chatId == id && rs[|rs| - 1].chatId != id
    ensures |ValidateChat(rs, id, msg)| == |rs| + 1
    ensures ValidateChat(rs, id, msg)[j] == Record(id, rs[j].messages + [Message(User, msg)])
    ensures ValidateChat(rs, id, msg)[|rs|] == NewRecord(id, msg)
  {
    ValidateCreatesIff(rs, id, msg);
  }

  /** At most one conversation per chat id. */
  predicate Unique(rs: seq<Record>)
  {
    forall i, j :: 0 <= i < j < |rs| ==> rs[i].chatId != rs[j].chatId
  }

  /** Starting from a list with one conversation per chat, `validate_chat`
      keeps it so exactly when the chat is new or owns the last conversation. */
  lemma ValidateUniqueIff(rs: seq<Record>, id: ChatId, msg: string)
    requires Unique(rs)
    ensures Unique(ValidateChat(rs, id, msg)) <==> (id !in Ids(rs) || rs[|rs| - 1].chatId == id)
  {
    var r := ValidateChat(rs, id, msg);
    ValidateCreatesIff(rs, id, msg);
    if id in Ids(rs) && rs[|rs| - 1].chatId != id {
      var j :| 0 <= j < |rs| && Ids(rs)[j] == id;
      assert r[j].chatId == id && r[|rs|].chatId == id;
    } else if Creates(rs, id) {
      forall i | 0 <= i < |rs| ensures r[i].chatId != id {
        assert Ids(rs)[i] == rs[i].chatId;
      }
    }
  }

  /** The transcript invariant: the persona message first, and no other system message. */
  predicate Seeded(r: Record)
  {
    |r.messages| >= 1 && r.messages[0] == Message(System, SystemJob) &&
    forall k :: 1 <= k < |r.messages| ==> r.messages[k].role != System
  }

  predicate AllSeeded(rs: seq<Record>)
  {
    forall i :: 0 <= i < |rs| ==> Seeded(rs[i])
  }

  /** Appending a user or assistant message keeps every transcript seeded. */
  lemma AppendKeepsSeeded(rs: seq<Record>, id: ChatId, m: Message)
    requires AllSeeded(rs) && m.role != System
    ensures AllSeeded(AppendToMatching(rs, id, m))
  {
  }

  /** `validate_chat` keeps every transcript seeded, new ones included. */
  lemma ValidateKeepsSeeded(rs: seq<Record>, id: ChatId, msg: string)
    requires AllSeeded(rs)
    ensures AllSeeded(ValidateChat(rs, id, msg))
  {
  }

  /** The position of the last conversation of chat `id`, or -1 if none: the
      conversation whose messages the lookup loop of `get_openai_response` keeps. */
  function LastMatch(rs: seq<Record>, id: ChatId): (k: int)
    ensures -1 <= k < |rs|
    ensures k >= 0 ==> rs[k].chatId == id
    ensures forall j :: k < j < |rs| ==> rs[j].chatId != id
  {
    if rs == [] then -1
    else if rs[|rs| - 1].chatId == id then |rs| - 1
    else LastMatch(rs[..|rs| - 1], id)
  }
}
