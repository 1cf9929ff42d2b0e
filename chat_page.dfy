/** The chat page: a list of the user's conversations, the messages of the
    active one, and the form that sends a message to the assistant and
    records the exchange. */
module ChatPage {
  import opened Wrappers
  import opened Text
  import opened Seqs

  datatype Role = User | Assistant

  datatype Message = Message(id: string, role: Role, content: string)

  /** A `chat_conversations` row; `None` is a `null` title. */
  datatype Conversation = Conversation(id: string, title: Option<string>, createdAt: string, updatedAt: string)

  /** A stored `chat_messages` row as read back: any role text, and a
      content that may be missing. */
  datatype MessageRow = MessageRow(id: string, role: string, content: Option<string>)

  const UntitledChat := "Untitled chat"
  const NewChat := "New chat"
  const TitleLength := 80
  const CreateFailed := "Failed to create conversation."
  const ListFailed := "Failed to load conversations."
  const NoReplyFallback := "Failed to get a response from Aliice."
  const EmptyReply := "Aliice did not return a response."
  const NetworkError := "Network error talking to Aliice."

  // ---------------------------------------------------------------------
  // Titles
  // ---------------------------------------------------------------------

  /** The sidebar title of a conversation: its trimmed title, or a fixed
      placeholder when that is empty. */
  function FormatConversationTitle(c: Conversation): (r: string)
    ensures r != ""
    ensures !IsBlank(c.title.GetOr("")) ==> r == Trim(c.title.GetOr(""))
    ensures IsBlank(c.title.GetOr("")) ==> r == UntitledChat
  {
    var raw := Trim(c.title.GetOr(""));
    if raw != "" then raw else UntitledChat
  }

  /** Storing a formatted title and formatting again changes nothing. */
  lemma FormatConversationTitleIdempotent(c: Conversation)
    ensures var shown := FormatConversationTitle(c);
            FormatConversationTitle(c.(title := Some(shown))) == shown
  {
    var shown := FormatConversationTitle(c);
    if IsBlank(c.title.GetOr("")) {
      assert !IsSpace(UntitledChat[0]) && !IsSpace(UntitledChat[|UntitledChat| - 1]);
      TrimOfTrimmed(UntitledChat);
    } else {
      TrimIdempotent(c.title.GetOr(""));
    }
  }

  /** The title a conversation gets from its first message: the first 80
      characters of the trimmed message, or "New chat" when it is blank. */
  function FirstMessageTitle(content: string): (r: string)
    ensures r != "" && |r| <= TitleLength
    ensures !IsBlank(content) ==> r == Take(Trim(content), TitleLength)
    ensures IsBlank(content) ==> r == NewChat
  {
    var titleSource := Trim(content);
    if |titleSource| > 0 then Take(titleSource, TitleLength) else NewChat
  }

  /** A first-message title is a prefix of the trimmed message. */
  lemma FirstMessageTitleIsPrefix(content: string)
    requires !IsBlank(content)
    ensures StartsWith(Trim(content), FirstMessageTitle(content))
    ensures |Trim(content)| <= TitleLength ==> FirstMessageTitle(content) == Trim(content)
  {
  }

  /** The title after a reply: a non-blank title is kept as it is;
      otherwise the first 80 characters of the user's message, or "New
      chat" when those are empty. */
  function ReplyTitle(title: Option<string>, userContent: string): (r: string)
    ensures r != ""
    ensures title.Some? && !IsBlank(title.value) ==> r == title.value
    ensures (title.None? || IsBlank(title.value)) && userContent != "" ==> r == Take(userContent, TitleLength)
    ensures (title.None? || IsBlank(title.value)) && userContent == "" ==> r == NewChat
  {
    var t := if title.Some? && |Trim(title.value)| > 0 then title.value else Take(userContent, TitleLength);
    if t == "" then NewChat else t
  }

  // ---------------------------------------------------------------------
  // Stored messages
  // ---------------------------------------------------------------------

  /** Any role other than "user" is shown as the assistant's; missing
      content is empty. */
  function CoerceRow(row: MessageRow): (m: Message)
    ensures m.id == row.id && m.content == row.content.GetOr("")
    ensures m.role == User <==> row.role == "user"
  {
    Message(row.id, if row.role == "user" then User else Assistant, row.content.GetOr(""))
  }

  function NotBlank(m: Message): bool {
    |Trim(m.content)| > 0
  }

  /** The messages shown for the stored rows: coerced, without the blank
      ones. */
  function CoerceRows(rows: seq<MessageRow>): (r: seq<Message>)
    ensures |r| <= |rows|
    ensures forall i :: 0 <= i < |r| ==> !IsBlank(r[i].content)
  {
    Filter(seq(|rows|, i requires 0 <= i < |rows| => CoerceRow(rows[i])), NotBlank)
  }

  /** Every row with non-blank content is shown, and nothing else is. */
  lemma CoerceRowsKeepsContent(rows: seq<MessageRow>)
    ensures forall i :: 0 <= i < |rows| && !IsBlank(rows[i].content.GetOr("")) ==> CoerceRow(rows[i]) in CoerceRows(rows)
    ensures forall m :: m in CoerceRows(rows) ==> exists i :: 0 <= i < |rows| && m == CoerceRow(rows[i])
  {
    var mapped := seq(|rows|, i requires 0 <= i < |rows| => CoerceRow(rows[i]));
    FilterKeepsPassing(mapped, NotBlank);
    forall i | 0 <= i < |rows| && !IsBlank(rows[i].content.GetOr("")) ensures CoerceRow(rows[i]) in CoerceRows(rows) {
      assert mapped[i] == CoerceRow(rows[i]) && NotBlank(mapped[i]);
    }
    forall m | m in CoerceRows(rows) ensures exists i :: 0 <= i < |rows| && m == CoerceRow(rows[i]) {
      var k :| 0 <= k < |CoerceRows(rows)| && CoerceRows(rows)[k] == m;
      assert m in mapped;
    }
  }

  /** Coercion keeps the rows' order: the rows of a longer history show
      as the shown messages of its parts, one after the other. */
  lemma CoerceRowsAppend(a: seq<MessageRow>, b: seq<MessageRow>)
    ensures CoerceRows(a + b) == CoerceRows(a) + CoerceRows(b)
  {
    var ma := seq(|a|, i requires 0 <= i < |a| => CoerceRow(a[i]));
    var mb := seq(|b|, i requires 0 <= i < |b| => CoerceRow(b[i]));
    assert seq(|a + b|, i requires 0 <= i < |a + b| => CoerceRow((a + b)[i])) == ma + mb;
    FilterAppend(ma, mb, NotBlank);
  }

  // ---------------------------------------------------------------------
  // Reordering after a reply
  // ---------------------------------------------------------------------

  /** The conversation list after a reply: the conversation moves to the
      front with the reply's time and a title, the others follow in their
      previous order. A conversation missing from the list is made up. */
  function PromoteConversation(prev: seq<Conversation>, conversationId: string, userContent: string, now: string)
    : (r: seq<Conversation>)
    ensures r != [] && r[0].id == conversationId && r[0].updatedAt == now
    ensures r[1..] == Filter(prev, (c: Conversation) => c.id != conversationId)
  {
    var items := Filter(prev, (c: Conversation) => c.id != conversationId);
    var existing := Find(prev, (c: Conversation) => c.id == conversationId);
    var base := existing.GetOr(Conversation(conversationId, None, now, now));
    [base.(title := Some(ReplyTitle(base.title, userContent)), updatedAt := now)] + items
  }

  /** After a reply the conversation is listed exactly once, first; every
      other conversation is still listed, and in its previous order. */
  lemma PromoteListsOnce(prev: seq<Conversation>, conversationId: string, userContent: string, now: string)
    ensures var r := PromoteConversation(prev, conversationId, userContent, now);
            forall i :: 1 <= i < |r| ==> r[i].id != conversationId && r[i] in prev
    ensures var r := PromoteConversation(prev, conversationId, userContent, now);
            forall c :: c in prev && c.id != conversationId ==> c in r
  {
    var p := (c: Conversation) => c.id != conversationId;
    FilterKeepsPassing(prev, p);
    var r := PromoteConversation(prev, conversationId, userContent, now);
    forall i | 1 <= i < |r| ensures r[i].id != conversationId && r[i] in prev {
      assert r[i] == r[1..][i - 1];
    }
    forall c | c in prev && c.id != conversationId ensures c in r {
      var k :| 0 <= k < |prev| && prev[k] == c;
      assert c in r[1..];
    }
  }

  /** The promoted conversation keeps its row's id and creation time and
      takes its title from `ReplyTitle`. */
  lemma PromoteTitle(prev: seq<Conversation>, conversationId: string, userContent: string, now: string)
    ensures var r := PromoteConversation(prev, conversationId, userContent, now);
            var existing := Find(prev, (c: Conversation) => c.id == conversationId);
            && (existing.Some? ==> r[0] == existing.value.(title := Some(ReplyTitle(existing.value.title, userContent)),
                                                           updatedAt := now))
            && (existing.None? ==> r[0] == Conversation(conversationId, Some(ReplyTitle(None, userContent)), now, now))
  {
  }

  /** Promoting the conversation already at the front again keeps the
      list's order. */
  lemma PromoteTwice(prev: seq<Conversation>, conversationId: string, userContent: string, now: string, later: string)
    ensures var once := PromoteConversation(prev, conversationId, userContent, now);
            var twice := PromoteConversation(once, conversationId, userContent, later);
            twice[1..] == once[1..]
  {
    var p := (c: Conversation) => c.id != conversationId;
    var once := PromoteConversation(prev, conversationId, userContent, now);
    assert once == [once[0]] + once[1..];
    FilterAppend([once[0]], once[1..], p);
    assert Filter([once[0]], p) == [];
    forall i | 0 <= i < |once[1..]| ensures p(once[1..][i]) {
    }
    FilterKeepsAll(once[1..], p);
  }

  // ---------------------------------------------------------------------
  // The page
  // ---------------------------------------------------------------------

  /** How inserting a conversation row ended; the stored title is the one
      written. */
  datatype CreateOutcome = RowCreated(id: string, createdAt: string, updatedAt: string)
                         | RowNotCreated(message: Option<string>)

  /** How listing the conversations ended: no user, the sign-in lookup
      threw, the query failed (or threw, which shows the fallback), or the
      rows. */
  datatype ListOutcome = SignedOut | SignInThrew | ListError(message: Option<string>) | Listed(rows: seq<Conversation>)

  /** How the call to the chat route ended. */
  datatype ReplyOutcome =
    | NotOk(error: Option<string>)       // a non-2xx status, with the payload's `error`
    | Replied(content: Option<string>)   // a 2xx status, with `message.content`
    | Unreachable                        // the request threw

  /** A reply the page shows: a 2xx answer with nonempty content. */
  predicate HasReply(reply: ReplyOutcome) {
    reply.Replied? && reply.content.Some? && reply.content.value != ""
  }

  /** Sending needs a new conversation (none is active and a user is
      signed in), and creating it failed. */
  predicate CreateFails(active: Option<string>, userId: Option<string>, created: CreateOutcome) {
    active.None? && userId.Some? && created.RowNotCreated?
  }

  /** The conversation a message goes to: the active one, the one just
      created when none was active, or none when signed out. */
  function TargetConversation(active: Option<string>, userId: Option<string>, created: CreateOutcome): Option<string> {
    if active.None? && userId.Some? && created.RowCreated? then Some(created.id) else active
  }

  /** The conversation list once the message is sent: the created
      conversation, titled after the message, in front of the old list. */
  function ListedBeforeReply(active: Option<string>, userId: Option<string>, created: CreateOutcome,
                             content: string, prev: seq<Conversation>): seq<Conversation> {
    if active.None? && userId.Some? && created.RowCreated?
    then [Conversation(created.id, Some(FirstMessageTitle(content)), created.createdAt, created.updatedAt)] + prev
    else prev
  }

  class Chat {
    var messages: seq<Message>
    var input: string
    var loading: bool
    var error: Option<string>
    var conversations: seq<Conversation>
    var activeConversationId: Option<string>
    var currentUserId: Option<string>
    var conversationsError: Option<string>

    constructor ()
      ensures messages == [] && input == "" && !loading && error == None
      ensures conversations == [] && activeConversationId == None && currentUserId == None
      ensures conversationsError == None
    {
      messages := [];
      input := "";
      loading := false;
      error := None;
      conversations := [];
      activeConversationId := None;
      currentUserId := None;
      conversationsError := None;
    }

    /** Loads the user and their conversations, newest first; the first
        one becomes active. */
    method LoadConversations(userId: Option<string>, outcome: ListOutcome)
      modifies this
      ensures messages == old(messages) && input == old(input) && loading == old(loading) && error == old(error)
      ensures outcome.SignInThrew? ==>
                currentUserId == old(currentUserId) && conversations == [] && conversationsError == Some(ListFailed)
                && activeConversationId == old(activeConversationId)
      ensures !outcome.SignInThrew? && (userId.None? || outcome.SignedOut?) ==>
                currentUserId == None && conversations == [] && conversationsError == None
                && activeConversationId == old(activeConversationId)
      ensures userId.Some? && outcome.ListError? ==>
                currentUserId == userId && conversations == []
                && conversationsError == Some(outcome.message.GetOr(ListFailed))
                && activeConversationId == old(activeConversationId)
      ensures userId.Some? && outcome.Listed? ==>
                currentUserId == userId && conversations == outcome.rows && conversationsError == None
                && activeConversationId == (if outcome.rows == [] then old(activeConversationId) else Some(outcome.rows[0].id))
    {
      conversationsError := None;
      if outcome.SignInThrew? {
        conversations := [];
        conversationsError := Some(ListFailed);
        return;
      }
      if userId.None? || outcome.SignedOut? {
        currentUserId := None;
        conversations := [];
        return;
      }
      currentUserId := userId;
      match outcome
      case ListError(message) =>
        conversations := [];
        conversationsError := Some(message.GetOr(ListFailed));
      case Listed(rows) =>
        conversations := rows;
        if |rows| > 0 {
          activeConversationId := Some(rows[0].id);
        }
    }

    /** Loads the active conversation's messages; a failed query shows
        none. */
    method LoadMessages(rows: Option<seq<MessageRow>>)
      modifies this
      ensures activeConversationId.None? ==> messages == []
      ensures activeConversationId.Some? && rows.None? ==> messages == []
      ensures activeConversationId.Some? && rows.Some? ==> messages == CoerceRows(rows.value)
      ensures input == old(input) && loading == old(loading) && error == old(error)
      ensures conversations == old(conversations) && activeConversationId == old(activeConversationId)
      ensures currentUserId == old(currentUserId) && conversationsError == old(conversationsError)
    {
      if activeConversationId.None? || rows.None? {
        messages := [];
        return;
      }
      messages := CoerceRows(rows.value);
    }

    /** The conversation a message goes to: the active one, or a new one
        titled after the message when a user is signed in. */
    method EnsureConversation(firstMessageContent: string, outcome: CreateOutcome) returns (id: Option<string>)
      modifies this
      ensures activeConversationId == old(activeConversationId) || old(activeConversationId).None?
      ensures old(activeConversationId).Some? ==>
                id == old(activeConversationId) && conversations == old(conversations) && error == old(error)
      ensures old(activeConversationId).None? && old(currentUserId).None? ==>
                id == None && conversations == old(conversations) && error == old(error)
                && activeConversationId == None
      ensures old(activeConversationId).None? && old(currentUserId).Some? && outcome.RowNotCreated? ==>
                id == None && conversations == old(conversations) && error == Some(outcome.message.GetOr(CreateFailed))
                && activeConversationId == None
      ensures old(activeConversationId).None? && old(currentUserId).Some? && outcome.RowCreated? ==>
                && id == Some(outcome.id) && activeConversationId == id && error == old(error)
                && conversations == [Conversation(outcome.id, Some(FirstMessageTitle(firstMessageContent)),
                                                  outcome.createdAt, outcome.updatedAt)] + old(conversations)
      ensures messages == old(messages) && input == old(input) && loading == old(loading)
      ensures currentUserId == old(currentUserId) && conversationsError == old(conversationsError)
    {
      if activeConversationId.Some? {
        return activeConversationId;
      }
      if currentUserId.None? {
        return None;
      }
      var title := FirstMessageTitle(firstMessageContent);
      match outcome
      case RowNotCreated(message) =>
        error := Some(message.GetOr(CreateFailed));
        return None;
      case RowCreated(newId, createdAt, updatedAt) =>
        conversations := [Conversation(newId, Some(title), createdAt, updatedAt)] + conversations;
        activeConversationId := Some(newId);
        return Some(newId);
    }

    /** The "new conversation" button. */
    method StartNewConversation(outcome: CreateOutcome)
      modifies this
      ensures currentUserId == old(currentUserId) && input == old(input) && loading == old(loading)
      ensures conversationsError == old(conversationsError)
      ensures old(currentUserId).None? || old(loading) ==>
                messages == old(messages) && error == old(error) && conversations == old(conversations)
                && activeConversationId == old(activeConversationId)
      ensures old(currentUserId).Some? && !old(loading) && outcome.RowNotCreated? ==>
                messages == old(messages) && error == Some(outcome.message.GetOr(CreateFailed))
                && conversations == old(conversations) && activeConversationId == old(activeConversationId)
      ensures old(currentUserId).Some? && !old(loading) && outcome.RowCreated? ==>
                && messages == [] && error == None && activeConversationId == Some(outcome.id)
                && conversations == [Conversation(outcome.id, Some(NewChat), outcome.createdAt, outcome.updatedAt)]
                                    + old(conversations)
    {
      if currentUserId.None? || loading {
        return;
      }
      error := None;
      match outcome
      case RowNotCreated(message) =>
        error := Some(message.GetOr(CreateFailed));
      case RowCreated(newId, createdAt, updatedAt) =>
        conversations := [Conversation(newId, Some(NewChat), createdAt, updatedAt)] + conversations;
        activeConversationId := Some(newId);
        messages := [];
    }

    /** The message form. A blank input, or a send while a reply is
        pending, does nothing. Otherwise the trimmed message is shown at
        once, the whole history goes to the assistant (`sent`), and the
        reply is shown and moves its conversation to the front. The
        message ids and the reply time come from the clock. */
    method Submit(userMessageId: string, assistantMessageId: string, now: string,
                  created: CreateOutcome, reply: ReplyOutcome)
      returns (sent: Option<seq<Message>>)
      modifies this
      ensures currentUserId == old(currentUserId) && conversationsError == old(conversationsError)
      ensures IsBlank(old(input)) || old(loading) ==>
                sent == None && messages == old(messages) && input == old(input) && loading == old(loading)
                && error == old(error) && conversations == old(conversations)
                && activeConversationId == old(activeConversationId)
      ensures !IsBlank(old(input)) && !old(loading) ==> input == "" && !loading
      // A new conversation could not be created: only the user's message is shown.
      ensures !IsBlank(old(input)) && !old(loading) && CreateFails(old(activeConversationId), old(currentUserId), created) ==>
                && sent == None && messages == old(messages) + [Message(userMessageId, User, Trim(old(input)))]
                && conversations == old(conversations) && activeConversationId == None
                && error == Some(created.message.GetOr(CreateFailed))
      // Otherwise the history is sent and the reply, or its error, is shown.
      ensures !IsBlank(old(input)) && !old(loading) && !CreateFails(old(activeConversationId), old(currentUserId), created) ==>
                var content := Trim(old(input));
                var userMessage := Message(userMessageId, User, content);
                var id := TargetConversation(old(activeConversationId), old(currentUserId), created);
                var listed := ListedBeforeReply(old(activeConversationId), old(currentUserId), created, content,
                                                old(conversations));
                && sent == Some(old(messages) + [userMessage])
                && activeConversationId == id
                && (HasReply(reply) ==>
                      && messages == old(messages) + [userMessage, Message(assistantMessageId, Assistant, reply.content.value)]
                      && error == None
                      && conversations == if id.Some? then PromoteConversation(listed, id.value, content, now) else listed)
                && (!HasReply(reply) ==> messages == old(messages) + [userMessage] && conversations == listed)
                && (reply.NotOk? ==> error == Some(reply.error.GetOr(NoReplyFallback)))
                && (reply.Replied? && !HasReply(reply) ==> error == Some(EmptyReply))
                && (reply.Unreachable? ==> error == Some(NetworkError))
    {
      var trimmed := Trim(input);
      if trimmed == "" || loading {
        return None;
      }
      var userMessage := Message(userMessageId, User, trimmed);
      var nextMessages := messages + [userMessage];
      messages := nextMessages;
      input := "";
      loading := true;
      error := None;

      var conversationId := activeConversationId;
      if conversationId.None? && currentUserId.Some? {
        conversationId := EnsureConversation(trimmed, created);
        if conversationId.None? {
          loading := false;
          return None;
        }
      }
      sent := Some(nextMessages);
      ReceiveReply(conversationId, trimmed, assistantMessageId, now, reply);
    }

    /** What the page does with the chat route's answer. */
    method ReceiveReply(conversationId: Option<string>, userContent: string, assistantMessageId: string,
                        now: string, reply: ReplyOutcome)
      requires conversationId.Some? ==> activeConversationId == conversationId
      modifies this
      ensures !loading && input == old(input) && activeConversationId == old(activeConversationId)
      ensures currentUserId == old(currentUserId) && conversationsError == old(conversationsError)
      ensures reply.NotOk? ==> error == Some(reply.error.GetOr(NoReplyFallback))
      ensures reply.Replied? && (reply.content.None? || reply.content.value == "") ==> error == Some(EmptyReply)
      ensures reply.Unreachable? ==> error == Some(NetworkError)
      ensures !(reply.Replied? && reply.content.Some? && reply.content.value != "") ==>
                messages == old(messages) && conversations == old(conversations)
      ensures reply.Replied? && reply.content.Some? && reply.content.value != "" ==>
                && error == old(error)
                && messages == old(messages) + [Message(assistantMessageId, Assistant, reply.content.value)]
                && (conversationId.Some? ==>
                      conversations == PromoteConversation(old(conversations), conversationId.value, userContent, now))
                && (conversationId.None? ==> conversations == old(conversations))
    {
      match reply {
        case NotOk(payloadError) =>
          error := Some(payloadError.GetOr(NoReplyFallback));
        case Unreachable =>
          error := Some(NetworkError);
        case Replied(content) =>
          if content.None? || content.value == "" {
            error := Some(EmptyReply);
          } else {
            messages := messages + [Message(assistantMessageId, Assistant, content.value)];
            if conversationId.Some? {
              conversations := PromoteConversation(conversations, conversationId.value, userContent, now);
            }
          }
      }
      loading := false;
    }
  }
}
