/**
 * The chat endpoint: it turns the persona id, the new message and the prior
 * history into the ordered payload for the completion service, and reads the
 * reply text out of the service's answer.
 */
module ChatRoute {
  import opened Wrappers
  import opened Types
  import opened Registry

  /** The two roles the completion service knows: `"model"` and `"user"`. */
  datatype Role = ModelRole | UserRole

  /** One text part; its text is `undefined` when the source value was. */
  datatype Part = Part(text: Option<string>)

  /** One turn of the payload. */
  datatype Content = Content(role: Role, parts: seq<Part>)

  /** The request body; `chatHistory` may be missing. */
  datatype ChatRequest = ChatRequest(message: string, botId: int, chatHistory: Option<seq<Message>>)

  /** The part of the service's answer the endpoint reads: every level may be missing. */
  datatype CandidateContent = CandidateContent(parts: Option<seq<Part>>)
  datatype Candidate = Candidate(content: Option<CandidateContent>)
  datatype GenerateResult = GenerateResult(candidates: Option<seq<Candidate>>)

  /** What the endpoint answers: `{ reply }`, or `{ error }` with a status. */
  datatype ChatResponse = Reply(reply: string) | ServerError(status: int, error: string)

  const GENERATION_ERROR := "Failed to get response from Gemini"

  /** The role a prior message is sent with: a user's message as `"user"`, a bot's as `"model"`. */
  function RoleOf(m: Message): (role: Role)
    ensures role == UserRole <==> m.sender == FromUser
  {
    if m.sender == FromUser then UserRole else ModelRole
  }

  /** The payload entry for one prior message. */
  function HistoryMessage(m: Message): Content {
    Content(RoleOf(m), [Part(m.content)])
  }

  /** The history mapped entry by entry, in order. */
  function HistoryMessages(history: seq<Message>): (r: seq<Content>)
    ensures |r| == |history|
    ensures forall i | 0 <= i < |history| ::
      r[i].role == RoleOf(history[i]) && r[i].parts == [Part(history[i].content)]
  {
    if history == [] then []
    else [HistoryMessage(history[0])] + HistoryMessages(history[1..])
  }

  /** The persona template entry, first in every payload. */
  function SystemMessage(botId: int): Content {
    Content(ModelRole, [Part(PersonaText(botId))])
  }

  /**
   * The payload: the persona template as a `"model"` entry, every prior
   * message in order, then the new message as a `"user"` entry. A missing
   * history counts as empty.
   */
  function Contents(botId: int, message: string, chatHistory: Option<seq<Message>>): (r: seq<Content>)
    ensures var history := chatHistory.GetOr([]);
      && |r| == |history| + 2
      && r[0].role == ModelRole && r[0].parts == [Part(PersonaText(botId))]
      && (forall i | 0 <= i < |history| ::
            && (r[i + 1].role == UserRole <==> history[i].sender == FromUser)
            && r[i + 1].parts == [Part(history[i].content)])
      && r[|r| - 1] == Content(UserRole, [Part(Some(message))])
  {
    [SystemMessage(botId)] + HistoryMessages(chatHistory.GetOr([])) + [Content(UserRole, [Part(Some(message))])]
  }

  /** Without a history the payload is the template and the message alone. */
  lemma ContentsWithoutHistory(botId: int, message: string)
    ensures Contents(botId, message, None) == [SystemMessage(botId), Content(UserRole, [Part(Some(message))])]
  {
    var r := Contents(botId, message, None);
    assert |r| == 2;
  }

  /**
   * `candidates?.[0]?.content?.parts?.[0]?.text || ""`: the first part of the
   * first candidate, or the empty string when any step is missing or the text
   * is empty.
   */
  function ExtractReply(result: GenerateResult): (reply: string)
    ensures reply != "" ==>
      && result.candidates.Some? && |result.candidates.value| > 0
      && result.candidates.value[0].content.Some?
      && result.candidates.value[0].content.value.parts.Some?
      && |result.candidates.value[0].content.value.parts.value| > 0
      && result.candidates.value[0].content.value.parts.value[0].text == Some(reply)
    ensures
      (&& result.candidates.Some? && |result.candidates.value| > 0
       && result.candidates.value[0].content.Some?
       && result.candidates.value[0].content.value.parts.Some?
       && |result.candidates.value[0].content.value.parts.value| > 0
       && result.candidates.value[0].content.value.parts.value[0].text.Some?)
      ==> reply == result.candidates.value[0].content.value.parts.value[0].text.value
  {
    match result.candidates
    case None => ""
    case Some(cs) =>
      if cs == [] then ""
      else
        match cs[0].content
        case None => ""
        case Some(c) =>
          match c.parts
          case None => ""
          case Some(ps) =>
            if ps == [] then "" else ps[0].text.GetOr("")
  }

  /**
   * The endpoint. `body` is `None` when the request body could not be read;
   * `generate` is the completion service, answering `None` when the call
   * fails. Every failure becomes the one 500 answer.
   */
  function Post(body: Option<ChatRequest>, generate: seq<Content> -> Option<GenerateResult>): (r: ChatResponse)
    ensures r.Reply? <==>
      body.Some? && generate(Contents(body.value.botId, body.value.message, body.value.chatHistory)).Some?
    ensures r.Reply? ==>
      r.reply == ExtractReply(generate(Contents(body.value.botId, body.value.message, body.value.chatHistory)).value)
    ensures r.ServerError? ==> r.status == 500 && r.error == GENERATION_ERROR
  {
    match body
    case None => ServerError(500, GENERATION_ERROR)
    case Some(req) =>
      match generate(Contents(req.botId, req.message, req.chatHistory))
      case None => ServerError(500, GENERATION_ERROR)
      case Some(result) => Reply(ExtractReply(result))
  }

  /**
   * A two-message history sent to persona 3 gives the template, the two
   * messages with their roles, and the new message.
   */
  lemma ExamplePayload(hi: Message, hey: Message)
    requires hi.sender == FromUser && hi.content == Some("hi")
    requires hey.sender == FromBot && hey.content == Some("hey")
    ensures Contents(3, "how are you", Some([hi, hey])) == [
      Content(ModelRole, [Part(Some("rahulPersona"))]),
      Content(UserRole, [Part(Some("hi"))]),
      Content(ModelRole, [Part(Some("hey"))]),
      Content(UserRole, [Part(Some("how are you"))])]
  {
    PersonaTextRegistered(3);
  }
}
