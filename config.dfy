/**
 * The bot's process-wide state (the module-level variables of index.js) and
 * what one `message_create` event does to it, as functions of the old state,
 * the message and the outcomes of the calls the handler makes to the outside.
 */
module Config {
  import opened Wrappers
  import opened JsText
  import opened Identity
  import opened Media
  import opened Request
  import opened ReplyMentions
  import opened Commands

  /** The `model` object `getGenerativeModel` returns: its name, its `maxOutputTokens`, its reload generation. */
  datatype ModelHandle = ModelHandle(name: string, maxOutputTokens: int, generation: nat)

  /** A chat session from `model.startChat`, for one chat and bound to the handle that opened it. */
  datatype Session = Session(chatId: string, handle: ModelHandle)

  /**
   * `nombreModeloActual`, `limiteTokensActual`, `totalTokensInput`,
   * `totalTokensOutput`, `chatSesiones` and `model` (`None` for `null`), with
   * the number of successful reloads so far.
   */
  datatype State = State(
    modelName: string,
    tokenLimit: int,
    tokensIn: nat,
    tokensOut: nat,
    sessions: map<string, Session>,
    model: Option<ModelHandle>,
    generation: nat)

  const MaxTokenLimit: int := 8192
  const InitialModelName: string := "gemini-2.0-flash-lite"
  const InitialTokenLimit: int := 650

  /** The state before the startup call `cargarModelo(nombreModeloActual)`. */
  const Initial: State := State(InitialModelName, InitialTokenLimit, 0, 0, map[], None, 0)

  /**
   * The invariant every handler run keeps: the ceiling is within 1..8192, a
   * loaded model carries the active name and the current generation, and every
   * cached session belongs to its own chat and to the current model.
   */
  predicate Valid(s: State) {
    && 1 <= s.tokenLimit <= MaxTokenLimit
    && (s.model.Some? ==> s.model.value.name == s.modelName && s.model.value.generation == s.generation)
    && (s.model.None? ==> s.sessions == map[])
    && (forall c | c in s.sessions :: s.model.Some? && s.sessions[c] == Session(c, s.model.value))
  }

  /**
   * `cargarModelo(name)`, where `factoryOk` says whether `getGenerativeModel`
   * returns (rather than throws): on success a new handle with the current
   * ceiling replaces the model, the name is taken over and the session map is
   * emptied; on failure nothing changes. The flag is the function's result.
   */
  function Reload(s: State, name: string, factoryOk: bool): (State, bool) {
    if factoryOk then
      var handle := ModelHandle(name, s.tokenLimit, s.generation + 1);
      (s.(modelName := name, sessions := map[], model := Some(handle), generation := s.generation + 1), true)
    else (s, false)
  }

  /**
   * `getSesion(chatId)`: the cached session, or a new one from the current
   * model put in the cache; `None` when there is no model (`model.startChat`
   * on `null` throws).
   */
  function OpenSession(s: State, chatId: string): (State, Option<Session>) {
    if chatId in s.sessions then (s, Some(s.sessions[chatId]))
    else if s.model.None? then (s, None)
    else
      var session := Session(chatId, s.model.value);
      (s.(sessions := s.sessions[chatId := session]), Some(session))
  }

  /** `response.usageMetadata`: the prompt and candidate token counts. */
  datatype Usage = Usage(promptTokenCount: nat, candidatesTokenCount: nat)

  /**
   * What `sesion.sendMessage` yields: possibly usage, and the outcome of
   * `response.text()`, which is `None` when that call throws.
   */
  datatype Response = Response(text: Option<string>, usage: Option<Usage>)

  /**
   * The outcomes of the calls the handler makes to the outside world:
   * whether `getGenerativeModel` returns, the bot's own `client.info.wid.user`,
   * the in-page contact lookup's string result, the audio conversion's mp3
   * data, and the model's response (`None` when `sendMessage` throws).
   * The lookup is only consulted with a candidate identifier: without one
   * the page script throws on `undefined` and yields `null`.
   */
  datatype World = World(
    factoryOk: bool,
    ownUser: Option<string>,
    lookup: Option<string>,
    conversion: Option<string>,
    response: Option<Response>)

  /** The fields of a `message_create` event the handler reads; `chatId` is `chat.id._serialized`. */
  datatype Message = Message(
    timestamp: int,
    body: string,
    chatId: string,
    fromMe: bool,
    author: Option<string>,
    from: Option<string>,
    data: Option<RawData>,
    attachments: Attachments)

  /** The replies the handler sends, by kind, with the values they show. */
  datatype Reply =
    | InfoReply(model: string, limit: int, tokensIn: nat, tokensOut: nat)
    | TokensReply(limit: int)
    | ModelReply(name: string)
    | ModelListReply(aliases: seq<string>)
    | ResetReply
    | AnswerReply(text: string, mentions: seq<string>)
    | ErrorReply

  /** One handler run: the new state, the reply sent (if any), the payload sent to the model (if any). */
  datatype Outcome = Outcome(state: State, reply: Option<Reply>, sent: Option<seq<Part>>)

  /** `!info`: reports the model, the ceiling and the two counters. */
  function OnInfo(s: State): Outcome {
    Outcome(s, Some(InfoReply(s.modelName, s.tokenLimit, s.tokensIn, s.tokensOut)), None)
  }

  /**
   * `!tokens <arg>`, given `n`, the `parseInt` of the trimmed argument (`None`
   * for NaN): a ceiling in 1..8192 is assigned, then the current model is reloaded.
   */
  function OnTokens(s: State, n: Option<int>, factoryOk: bool): Outcome {
    if n.Some? && 0 < n.value <= MaxTokenLimit then
      var (s', ok) := Reload(s.(tokenLimit := n.value), s.modelName, factoryOk);
      Outcome(s', if ok then Some(TokensReply(n.value)) else None, None)
    else Outcome(s, None, None)
  }

  /** `!modelo <alias>`: a known alias reloads its model; any other lists the aliases. */
  function OnModelo(s: State, alias: string, factoryOk: bool): Outcome {
    match LookupAlias(alias)
    case Some(name) =>
      var (s', ok) := Reload(s, name, factoryOk);
      Outcome(s', if ok then Some(ModelReply(name)) else None, None)
    case None => Outcome(s, Some(ModelListReply(AliasKeys())), None)
  }

  /** `!reset`: forgets this chat's session, if any, and always says so. */
  function OnReset(s: State, chatId: string): Outcome {
    Outcome(s.(sessions := s.sessions - {chatId}), Some(ResetReply), None)
  }

  /** The `catch` block's reply: only for a raw body that starts with "!bot", in that case. */
  function FailureReply(body: string): Option<Reply> {
    if StartsWith(body, "!bot") then Some(ErrorReply) else None
  }

  /** `msg._data.notifyName || "Usuario"`. */
  function DisplayName(data: RawData): string {
    if Truthy(data.notifyName) then data.notifyName.value else "Usuario"
  }

  /** `totalTokensInput += …; totalTokensOutput += …` when usage is reported. */
  function Accumulate(s: State, usage: Option<Usage>): State {
    match usage
    case Some(u) => s.(tokensIn := s.tokensIn + u.promptTokenCount, tokensOut := s.tokensOut + u.candidatesTokenCount)
    case None => s
  }

  /**
   * The query path for `query`: resolve the sender, pick the media, build the
   * payload, get the chat's session, send, count the usage and answer with the
   * text and its mentions. Reading `notifyName` of a missing `_data`, a missing
   * model, a failed `sendMessage` and a failed `response.text()` are the
   * exceptions that end in the `catch`; the last comes after the counters
   * have grown.
   */
  function OnQuery(s: State, msg: Message, w: World, query: string): Outcome {
    var failure := FailureReply(msg.body);
    var numero := ObtenerNumeroReal(msg.fromMe, w.ownUser, msg.author, msg.from, msg.data, w.lookup);
    if msg.data.None? then Outcome(s, failure, None)
    else
      var media := ProcesarMedia(msg.attachments, w.conversion);
      var payload := Payload(ContextLine(numero, DisplayName(msg.data.value)), query, media);
      var (s', session) := OpenSession(s, msg.chatId);
      if session.None? then Outcome(s, failure, None)
      else
        match w.response
        case None => Outcome(s', failure, Some(payload))
        case Some(r) =>
          var counted := Accumulate(s', r.usage);
          match r.text
          case None => Outcome(counted, failure, Some(payload))
          case Some(text) => Outcome(counted, Some(AnswerReply(text, Mentions(text))), Some(payload))
  }

  /** The branch the handler takes for `cmd`. */
  function Run(s: State, cmd: Command, msg: Message, w: World): Outcome {
    match cmd
    case Info => OnInfo(s)
    case Tokens(n) => OnTokens(s, n, w.factoryOk)
    case Modelo(alias) => OnModelo(s, alias, w.factoryOk)
    case Reset => OnReset(s, msg.chatId)
    case Bot(query) => OnQuery(s, msg, w, query)
    case NoCommand => Outcome(s, None, None)
  }

  /** One `message_create` event, `start` being `TIMESTAMP_INICIO`. */
  function OnMessage(start: int, s: State, msg: Message, w: World): Outcome {
    if msg.timestamp < start then Outcome(s, None, None)
    else Run(s, Classify(Trim(msg.body)), msg, w)
  }
}
