/** The AI assistant panel: an append-only chat log that opens with a greeting,
    a guard against blank input, the request that carries the whole
    conversation, and the reply or apology that follows each accepted message. */
module FlowAi {
  import opened Js

  datatype Role = UserRole | ModelRole

  /** One entry of the log, `{ role, parts: [{ text }] }`; the text of a reply is whatever the
      response's `message` field holds, possibly nothing. */
  datatype Message = Message(role: Role, text: Option<string>)

  const Greeting: Message :=
    Message(ModelRole, Some("Hello! I'm your AI coding assistant. I can help you with this problem and answer any coding questions you have."))

  const Apology: string := "Sorry, I encountered an error. Please try again."

  /** The problem the panel was opened on, as far as the request reads it. */
  datatype ProblemContext = ProblemContext(title: Option<string>, description: Option<string>)

  /** The request body: the conversation so far and the problem's title and description. */
  datatype ChatRequest = ChatRequest(messages: seq<Message>, title: string, description: string)

  /** The log opens with the greeting and then alternates a user message and a model reply. */
  predicate WellFormed(log: seq<Message>) {
    |log| % 2 == 1 && log[0] == Greeting
    && forall i :: 1 <= i < |log| ==> log[i].role == (if i % 2 == 1 then UserRole else ModelRole)
  }

  /** A message reaches `onSubmit` when it passes `required` (not empty) and then the `trim` guard. */
  predicate Accepted(text: string) {
    text != "" && Trim(text) != ""
  }

  /** The two checks together reject exactly the messages made only of white space. */
  lemma AcceptedIffNotBlank(text: string)
    ensures Accepted(text) <==> !IsBlank(text)
  {
    TrimEmptyIffBlank(text);
  }

  /** The entry appended after the request: the reply's text, or the apology. */
  function Reply(resp: NetResult<Option<string>>): (m: Message)
    ensures m.role == ModelRole
    ensures resp.Ok? ==> m.text == resp.data
    ensures resp.Err? ==> m.text == Some(Apology)
  {
    match resp
    case Ok(text) => Message(ModelRole, text)
    case Err(_) => Message(ModelRole, Some(Apology))
  }

  /** The log after one submit. */
  function AfterSubmit(log: seq<Message>, text: string, resp: NetResult<Option<string>>): (r: seq<Message>)
    ensures !Accepted(text) ==> r == log
    ensures Accepted(text) ==> |r| == |log| + 2 && r[..|log|] == log
                               && r[|log|] == Message(UserRole, Some(text)) && r[|log| + 1] == Reply(resp)
  {
    if Accepted(text) then log + [Message(UserRole, Some(text)), Reply(resp)] else log
  }

  /** Every submit keeps the log well formed. */
  lemma AfterSubmitWellFormed(log: seq<Message>, text: string, resp: NetResult<Option<string>>)
    requires WellFormed(log)
    ensures WellFormed(AfterSubmit(log, text, resp))
  {
    if Accepted(text) {
      var n := |log|;
      var r := log + [Message(UserRole, Some(text)), Reply(resp)];
      assert r == AfterSubmit(log, text, resp);
      assert n % 2 == 1 && (n + 1) % 2 == 0 && (n + 2) % 2 == 1;
      forall i | 1 <= i < |r| ensures r[i].role == (if i % 2 == 1 then UserRole else ModelRole) {
        if i < n {
          assert r[i] == log[i];
        }
      }
    }
  }

  /** Nothing ever leaves the log: a sequence of submits only extends it. */
  lemma {:induction false} SubmitsOnlyExtend(log: seq<Message>, texts: seq<string>, resps: seq<NetResult<Option<string>>>)
    requires |texts| == |resps|
    ensures log <= Replay(log, texts, resps)
    ensures |Replay(log, texts, resps)| == |log| + 2 * CountAccepted(texts)
    decreases |texts|
  {
    if |texts| > 0 {
      var next := AfterSubmit(log, texts[0], resps[0]);
      SubmitsOnlyExtend(next, texts[1..], resps[1..]);
    }
  }

  function Replay(log: seq<Message>, texts: seq<string>, resps: seq<NetResult<Option<string>>>): seq<Message>
    requires |texts| == |resps|
    decreases |texts|
  {
    if |texts| == 0 then log else Replay(AfterSubmit(log, texts[0], resps[0]), texts[1..], resps[1..])
  }

  function CountAccepted(texts: seq<string>): nat
    decreases |texts|
  {
    if |texts| == 0 then 0 else (if Accepted(texts[0]) then 1 else 0) + CountAccepted(texts[1..])
  }

  /** `problem?.title || ""` and `problem?.description || ""`. */
  function RequestFor(log: seq<Message>, text: string, problem: Option<ProblemContext>): (req: ChatRequest)
    ensures req.messages == log + [Message(UserRole, Some(text))]
    ensures problem.None? ==> req.title == "" && req.description == ""
    ensures problem.Some? && problem.value.title.Some? ==> req.title == problem.value.title.value
    ensures problem.Some? && problem.value.description.Some? ==> req.description == problem.value.description.value
    ensures problem.Some? && problem.value.title.None? ==> req.title == ""
    ensures problem.Some? && problem.value.description.None? ==> req.description == ""
  {
    var title := if problem.Some? then problem.value.title else None;
    var description := if problem.Some? then problem.value.description else None;
    ChatRequest(log + [Message(UserRole, Some(text))], FirstTruthy([title], ""), FirstTruthy([description], ""))
  }

  class ChatPanel {
    var messages: seq<Message>
    var isLoading: bool

    /** Between two submits the panel is idle and its log well formed. */
    ghost predicate Valid()
      reads this
    {
      !isLoading && WellFormed(messages)
    }

    constructor ()
      ensures Valid() && messages == [Greeting]
    {
      messages := [Greeting];
      isLoading := false;
    }

    /** `handleSubmit(onSubmit)`: a rejected message changes nothing and sends nothing; an accepted
        one is appended, sent with the conversation before it, and followed by the reply or the
        apology. The input and button are disabled while the request is out, so submits never overlap. */
    method Submit(text: string, problem: Option<ProblemContext>, resp: NetResult<Option<string>>)
      returns (sent: Option<ChatRequest>)
      requires Valid()
      modifies this
      ensures Valid()
      ensures messages == AfterSubmit(old(messages), text, resp)
      ensures !Accepted(text) <==> sent.None?
      ensures sent.Some? ==> sent.value == RequestFor(old(messages), text, problem)
    {
      if text == "" || Trim(text) == "" {
        return None;
      }
      var userMessage := Message(UserRole, Some(text));
      var before := messages;
      messages := messages + [userMessage];
      isLoading := true;
      sent := Some(RequestFor(before, text, problem));
      messages := messages + [Reply(resp)];
      isLoading := false;
      AfterSubmitWellFormed(before, text, resp);
    }
  }
}
