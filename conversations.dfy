/** One chat session (`class Conversation` in js/index.js) and the requests it
    sends: the completion request of `getResponse`, the liveness probe of
    `getResponseCode` and the registration request of `setConversationID`.
    The network is not modelled: each operation takes the reply it would
    receive as a parameter and returns the request it would send. */
module Conversations {
  import opened JsValues
  import Radix

  datatype Message = Message(role: string, content: string)

  /** The opaque `currentBlock` object: the learner's position in the course. */
  type Block = map<string, string>

  const EMPTY_BLOCK: Block := map[]

  /** The `_openaiodi` configuration object. */
  datatype Settings = Settings(
    apiUrl: Option<string>,
    apiKey: Option<string>,
    model: string,
    maxTokens: int,
    temperature: real,
    stop: seq<string>,
    clientAuthServer: Option<string>,
    useClientAPIKey: bool,
    testMode: bool,
    testModeResponse: string)

  /** The configuration object itself: every conversation holds the manager's
      object, so a key the manager stores into it is seen by all of them. */
  class Config {
    var current: Settings

    constructor (settings: Settings)
      ensures current == settings
    {
      current := settings;
    }
  }

  /** The JSON body of a completion request; `currentBlock` is absent (None)
      unless the conversation has an id. */
  datatype Body = Body(
    model: string,
    messages: seq<Message>,
    maxTokens: int,
    temperature: real,
    n: int,
    stop: seq<string>,
    currentBlock: Option<Block>)

  /** A POST: target URL, `Authorization` header and body. */
  datatype Request = Request(url: string, authorization: string, body: Body)

  function Bearer(apiKey: Option<string>): string
  {
    "Bearer " + Text(apiKey)
  }

  /** The conversation id a completion URL addresses below `apiUrl`, if any. */
  function AddressedId(apiUrl: string, url: string): Option<string>
  {
    if |apiUrl| < |url| && url[..|apiUrl| + 1] == apiUrl + "/" then Some(url[|apiUrl| + 1..])
    else None
  }

  /** The request `getResponse` sends. The body always asks for one choice and
      carries the messages as held; a conversation with an id is addressed
      below `apiUrl` and also sends its `currentBlock`. */
  function BuildRequest(s: Settings, id: Option<string>, messages: seq<Message>, block: Block): (r: Request)
    ensures r.body.n == 1 && r.body.messages == messages
    ensures r.body.model == s.model && r.body.maxTokens == s.maxTokens
    ensures r.body.temperature == s.temperature && r.body.stop == s.stop
    ensures r.authorization == Bearer(s.apiKey)
    ensures r.body.currentBlock.Some? <==> Truthy(id)
    ensures r.body.currentBlock.Some? ==> r.body.currentBlock.value == block
    ensures !Truthy(id) ==> r.url == Text(s.apiUrl)
    ensures Truthy(id) ==> r.url == Text(s.apiUrl) + "/" + id.value
    ensures AddressedId(Text(s.apiUrl), r.url) == if Truthy(id) then id else None
  {
    var body := Body(s.model, messages, s.maxTokens, s.temperature, 1, s.stop, None);
    if Truthy(id) then
      var url := Text(s.apiUrl) + "/" + id.value;
      assert url[..|Text(s.apiUrl)| + 1] == Text(s.apiUrl) + "/";
      assert url[|Text(s.apiUrl)| + 1..] == id.value;
      Request(url, Bearer(s.apiKey), body.(currentBlock := Some(block)))
    else
      Request(Text(s.apiUrl), Bearer(s.apiKey), body)
  }

  /** The request `getResponseCode` sends: always to `apiUrl` itself and never
      with a `currentBlock`, i.e. what `getResponse` sends for a conversation
      without an id. */
  function ProbeRequest(s: Settings, messages: seq<Message>): (r: Request)
    ensures r.url == Text(s.apiUrl) && r.authorization == Bearer(s.apiKey)
    ensures r.body.n == 1 && r.body.messages == messages && r.body.currentBlock == None
    ensures r.body.model == s.model && r.body.maxTokens == s.maxTokens
    ensures r.body.temperature == s.temperature && r.body.stop == s.stop
  {
    Request(Text(s.apiUrl), Bearer(s.apiKey), Body(s.model, messages, s.maxTokens, s.temperature, 1, s.stop, None))
  }

  /** The probe is exactly the completion request of a conversation without
      an id, whatever its block: same URL, header and body. */
  lemma ProbeRequestIsUnaddressed(s: Settings, messages: seq<Message>, block: Block)
    ensures ProbeRequest(s, messages) == BuildRequest(s, None, messages, block)
    ensures AddressedId(Text(s.apiUrl), ProbeRequest(s, messages).url) == None
  {
  }

  datatype HttpStatus = HttpStatus(code: nat, text: string)

  /** What the probe's `fetch` yields: a response with a status, or a thrown error. */
  datatype ProbeReply = Answered(status: HttpStatus) | ProbeError(error: string)

  /** `getResponseCode`'s outcome: every status is returned, success or not;
      only a failed `fetch` becomes an error. */
  function ProbeResult(reply: ProbeReply): (r: Result<HttpStatus>)
    ensures r.Ok? <==> reply.Answered?
    ensures r.Ok? ==> r.value == reply.status
    ensures r.Err? ==> r.message == "Error fetching response code: " + reply.error
  {
    match reply
    case Answered(status) => Ok(status)
    case ProbeError(error) => Err("Error fetching response code: " + error)
  }

  /** What a `fetch` with a JSON answer yields: the value read from a 2xx body,
      a non-2xx status with the server's `error.code` and `error.message`, or
      a thrown error. */
  datatype Reply =
    | Accepted(value: string)
    | Rejected(status: HttpStatus, errorCode: string, errorMessage: string)
    | TransportError(error: string)

  /** The message of a rejected request, before the caller's prefix. */
  function RejectionMessage(status: HttpStatus, errorCode: string, errorMessage: string): string
  {
    "Error: " + Radix.ToString(status.code, 10) + " " + status.text + " - " + errorCode + " - " + errorMessage
  }

  /** How `getResponse` and `setConversationID` turn a reply into a value or an
      error: every failure is rethrown behind "Error fetching response: ". */
  function ReplyResult(reply: Reply): (r: Result<string>)
    ensures r.Ok? <==> reply.Accepted?
    ensures r.Ok? ==> r.value == reply.value
    ensures reply.Rejected? ==>
      r.message == "Error fetching response: " + RejectionMessage(reply.status, reply.errorCode, reply.errorMessage)
    ensures reply.TransportError? ==> r.message == "Error fetching response: " + reply.error
  {
    match reply
    case Accepted(value) => Ok(value)
    case Rejected(status, code, message) => Err("Error fetching response: " + RejectionMessage(status, code, message))
    case TransportError(error) => Err("Error fetching response: " + error)
  }

  /** An entry of the course's `_skillsFramework._items`. */
  datatype SkillItem = SkillItem(uri: string, title: string)

  /** The `_skillsFramework` object sent on registration; `{}` is Skills(None, None). */
  datatype Skills = Skills(programmeUri: Option<string>, programmeTitle: Option<string>)

  /** The programme of the course's first skills item, or the empty object when
      the course has no skills framework or its item list is empty. */
  function SkillsOf(programme: Option<seq<SkillItem>>): (k: Skills)
    ensures k.programmeUri.Some? <==> programme.Some? && |programme.value| > 0
    ensures k.programmeUri.Some? ==>
      k == Skills(Some(programme.value[0].uri), Some(programme.value[0].title))
    ensures k.programmeUri.None? ==> k == Skills(None, None)
  {
    if programme.Some? && |programme.value| > 0 then
      Skills(Some(programme.value[0].uri), Some(programme.value[0].title))
    else
      Skills(None, None)
  }

  datatype CreateRequest = CreateRequest(
    url: string,
    authorization: string,
    contentObjectId: string,
    courseId: string,
    skills: Skills)

  /** The registration `setConversationID` posts; None when no auth server is
      configured, in which case nothing is sent. */
  function CreationRequest(s: Settings, courseId: string, programme: Option<seq<SkillItem>>,
                           contentObjectId: string): (r: Option<CreateRequest>)
    ensures r.Some? <==> Truthy(s.clientAuthServer)
    ensures r.Some? ==> r.value.url == s.clientAuthServer.value + "/createConversation"
    ensures r.Some? ==> r.value.authorization == Bearer(s.apiKey)
    ensures r.Some? ==> r.value.contentObjectId == contentObjectId && r.value.courseId == courseId
    ensures r.Some? ==> r.value.skills == SkillsOf(programme)
  {
    if !Truthy(s.clientAuthServer) then None
    else Some(CreateRequest(s.clientAuthServer.value + "/createConversation", Bearer(s.apiKey),
                            contentObjectId, courseId, SkillsOf(programme)))
  }

  class Conversation {
    const config: Config
    var messages: seq<Message>
    var currentBlock: Block
    var id: Option<string>

    /** A new conversation has no messages, an empty block and no id. */
    constructor (config: Config)
      ensures this.config == config
      ensures messages == [] && currentBlock == EMPTY_BLOCK && id == None
    {
      this.config := config;
      messages := [];
      currentBlock := EMPTY_BLOCK;
      id := None;
    }

    /** Appends one message; the frame leaves `currentBlock` and `id` alone. */
    method AddMessage(message: Message)
      modifies this`messages
      ensures messages == old(messages) + [message]
    {
      messages := messages + [message];
    }

    /** Replaces the block; the frame leaves `messages` and `id` alone. */
    method SetCurrentBlock(block: Block)
      modifies this`currentBlock
      ensures currentBlock == block
    {
      currentBlock := block;
    }

    /** Empties the history; the frame leaves `currentBlock` and `id` alone. */
    method ClearMessages()
      modifies this`messages
      ensures messages == []
    {
      messages := [];
    }

    /** `setConversationID`: without an auth server nothing is sent and nothing
        changes; otherwise the registration is posted and an accepted id is
        adopted, while a failure leaves the id as it was and is reported. */
    method SetConversationID(contentObjectId: string, courseId: string,
                             programme: Option<seq<SkillItem>>, reply: Reply)
      returns (request: Option<CreateRequest>, error: Option<string>)
      modifies this`id
      ensures request == CreationRequest(config.current, courseId, programme, contentObjectId)
      ensures request.Some? && reply.Accepted? ==> id == Some(reply.value) && error == None
      ensures request.None? ==> id == old(id) && error == None
      ensures request.Some? && !reply.Accepted? ==>
        id == old(id) && error == Some(ReplyResult(reply).message)
    {
      request := CreationRequest(config.current, courseId, programme, contentObjectId);
      error := None;
      if request.None? {
        return;
      }
      var result := ReplyResult(reply);
      if result.Ok? {
        id := Some(result.value);
      } else {
        error := Some(result.message);
      }
    }

    /** `getResponse`: in test mode the canned response, with nothing sent;
        otherwise the completion request for the current state and the reply's
        value or error. */
    method GetResponse(reply: Reply) returns (request: Option<Request>, result: Result<string>)
      ensures config.current.testMode ==>
        request == None && result == Ok(config.current.testModeResponse)
      ensures !config.current.testMode ==>
        request == Some(BuildRequest(config.current, id, messages, currentBlock)) &&
        result == ReplyResult(reply)
    {
      if config.current.testMode {
        return None, Ok(config.current.testModeResponse);
      }
      request := Some(BuildRequest(config.current, id, messages, currentBlock));
      result := ReplyResult(reply);
    }

    /** `getResponseCode`: the probe request for the current messages and the
        status it got back, whatever the status. */
    method GetResponseCode(reply: ProbeReply) returns (request: Request, result: Result<HttpStatus>)
      ensures request == ProbeRequest(config.current, messages)
      ensures result == ProbeResult(reply)
    {
      request := ProbeRequest(config.current, messages);
      result := ProbeResult(reply);
    }
  }
}
