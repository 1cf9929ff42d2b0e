/** The chat route: checks the posted conversation, cuts every message to
    8000 characters, drops the blank ones, forwards the rest to the
    language model after a fixed system message, and maps what comes back
    to a status and a JSON body. The model call is a parameter. */
module ChatRoute {
  import opened Wrappers
  import opened Text
  import opened Seqs

  /** A posted message; `None` is a missing content. */
  datatype IncomingMessage = IncomingMessage(role: string, content: Option<string>)

  /** The parsed request body: unreadable JSON, or an object whose
      `messages` is `None` when it is missing or not an array. */
  datatype RequestBody = Unreadable | RequestObject(messages: Option<seq<IncomingMessage>>)

  datatype ChatMessage = ChatMessage(role: string, content: string)

  /** The request sent to the model. */
  datatype Upstream = Upstream(model: string, messages: seq<ChatMessage>)

  /** How the model call ended: it threw, or its first choice's message
      (`None` when there is no choice; the content may be missing). */
  datatype Completion = CompletionThrew | Completed(message: Option<(string, Option<string>)>)

  datatype ResponseBody = ErrorBody(error: string) | ReplyBody(message: ChatMessage)

  datatype Response = Response(status: int, body: ResponseBody)

  /** The route's answer and the request it sent upstream, if any. */
  datatype Exchange = Exchange(response: Response, upstream: Option<Upstream>)

  const MaxContentLength := 8000
  const Model := "gpt-4o-mini"
  const SystemPrompt := "You are Aliice, an AI assistant embedded inside a medical CRM. You help staff with bookings, post-op documentation, deals/pipelines, workflows, and patient or insurance communication. Be concise, precise, and always respect that this is an internal staff-facing tool."
  const MissingMessages := "Missing messages array"
  const AllBlank := "Messages must contain non-empty content"
  const NoResponse := "No response from OpenAI"
  const Failed := "Failed to generate chat response"

  /** One message cut to the length limit; a missing content is empty. */
  function Truncate(m: IncomingMessage): (r: ChatMessage)
    ensures r.role == m.role
    ensures |r.content| <= MaxContentLength && StartsWith(m.content.GetOr(""), r.content)
  {
    ChatMessage(m.role, Take(m.content.GetOr(""), MaxContentLength))
  }

  function NotBlank(m: ChatMessage): bool {
    |Trim(m.content)| > 0
  }

  function Truncated(ms: seq<IncomingMessage>): seq<ChatMessage> {
    seq(|ms|, i requires 0 <= i < |ms| => Truncate(ms[i]))
  }

  /** The messages that are forwarded: cut, then without the blank ones. */
  function Prepare(ms: seq<IncomingMessage>): (r: seq<ChatMessage>)
    ensures |r| <= |ms|
    ensures forall k :: 0 <= k < |r| ==> |r[k].content| <= MaxContentLength && !IsBlank(r[k].content)
  {
    Filter(Truncated(ms), NotBlank)
  }

  /** Every forwarded message is a posted one, with its role and a prefix
      of its content; every posted message whose cut content is not blank
      is forwarded. */
  lemma PrepareKeepsMessages(ms: seq<IncomingMessage>)
    ensures forall k :: 0 <= k < |Prepare(ms)| ==>
              exists i :: 0 <= i < |ms| && Prepare(ms)[k] == Truncate(ms[i])
                          && Prepare(ms)[k].role == ms[i].role
                          && StartsWith(ms[i].content.GetOr(""), Prepare(ms)[k].content)
    ensures forall i :: 0 <= i < |ms| && !IsBlank(Truncate(ms[i]).content) ==> Truncate(ms[i]) in Prepare(ms)
  {
    var t := Truncated(ms);
    FilterKeepsPassing(t, NotBlank);
    forall i | 0 <= i < |ms| && !IsBlank(Truncate(ms[i]).content) ensures Truncate(ms[i]) in Prepare(ms) {
      assert t[i] == Truncate(ms[i]) && NotBlank(t[i]);
    }
    forall k | 0 <= k < |Prepare(ms)|
      ensures exists i :: 0 <= i < |ms| && Prepare(ms)[k] == Truncate(ms[i])
                          && Prepare(ms)[k].role == ms[i].role
                          && StartsWith(ms[i].content.GetOr(""), Prepare(ms)[k].content)
    {
      assert Prepare(ms)[k] in t;
      var i :| 0 <= i < |t| && t[i] == Prepare(ms)[k];
      assert Truncate(ms[i]) == t[i];
    }
  }

  /** The forwarded messages keep the posted order. */
  lemma PrepareAppend(a: seq<IncomingMessage>, b: seq<IncomingMessage>)
    ensures Prepare(a + b) == Prepare(a) + Prepare(b)
  {
    assert Truncated(a + b) == Truncated(a) + Truncated(b);
    FilterAppend(Truncated(a), Truncated(b), NotBlank);
  }

  /** A message that is short enough and not blank is forwarded unchanged. */
  lemma ShortMessagePassesUnchanged(m: IncomingMessage)
    requires m.content.Some? && |m.content.value| <= MaxContentLength && !IsBlank(m.content.value)
    ensures Prepare([m]) == [ChatMessage(m.role, m.content.value)]
  {
    assert Truncated([m]) == [Truncate(m)];
    assert Truncated([m])[1..] == [];
  }

  /** `POST /api/chat`. */
  function Post(body: RequestBody, completion: Completion): (r: Exchange)
    ensures body.Unreadable? ==> r == Exchange(Response(500, ErrorBody(Failed)), None)
    ensures body.RequestObject? && (body.messages.None? || body.messages.value == []) ==>
              r == Exchange(Response(400, ErrorBody(MissingMessages)), None)
    ensures body.RequestObject? && body.messages.Some? && body.messages.value != [] ==>
              var prepared := Prepare(body.messages.value);
              && (prepared == [] <==> r.upstream.None?)
              && (prepared == [] ==> r.response == Response(400, ErrorBody(AllBlank)))
              && (prepared != [] ==> r.upstream == Some(Upstream(Model, [ChatMessage("system", SystemPrompt)] + prepared)))
    ensures r.upstream.Some? && completion.CompletionThrew? ==> r.response == Response(500, ErrorBody(Failed))
    ensures r.upstream.Some? && completion.Completed? ==>
              var m := completion.message;
              if m.None? || m.value.1.None? || m.value.1.value == "" then r.response == Response(502, ErrorBody(NoResponse))
              else r.response == Response(200, ReplyBody(ChatMessage(m.value.0, m.value.1.value)))
  {
    match body
    case Unreadable => Exchange(Response(500, ErrorBody(Failed)), None)
    case RequestObject(messages) =>
      if messages.None? || messages.value == [] then Exchange(Response(400, ErrorBody(MissingMessages)), None)
      else
        var trimmed := Prepare(messages.value);
        if trimmed == [] then Exchange(Response(400, ErrorBody(AllBlank)), None)
        else
          var upstream := Upstream(Model, [ChatMessage("system", SystemPrompt)] + trimmed);
          match completion
          case CompletionThrew => Exchange(Response(500, ErrorBody(Failed)), Some(upstream))
          case Completed(message) =>
            if message.None? || message.value.1.None? || message.value.1.value == "" then
              Exchange(Response(502, ErrorBody(NoResponse)), Some(upstream))
            else Exchange(Response(200, ReplyBody(ChatMessage(message.value.0, message.value.1.value))), Some(upstream))
  }

  /** A request of only blank messages is refused before the model is
      called, whatever the model would answer. */
  lemma AllBlankIsRefused(ms: seq<IncomingMessage>, completion: Completion)
    requires ms != []
    requires forall i :: 0 <= i < |ms| ==> IsBlank(ms[i].content.GetOr(""))
    ensures Post(RequestObject(Some(ms)), completion) == Exchange(Response(400, ErrorBody(AllBlank)), None)
  {
    var t := Truncated(ms);
    forall i | 0 <= i < |t| ensures !NotBlank(t[i]) {
      var c := ms[i].content.GetOr("");
      assert t[i].content == Take(c, MaxContentLength);
      assert forall k :: 0 <= k < |t[i].content| ==> t[i].content[k] == c[k];
    }
    FilterNone(t, NotBlank);
  }
}
