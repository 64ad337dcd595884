/**
 * The running bot: the module-level variables of index.js as the fields of
 * one object, and `cargarModelo`, `getSesion` and the `message_create`
 * handler as methods that update them in place. Each method is proved to do
 * what the corresponding function of `Config` says of the state it starts in.
 */
module Whemini {
  import opened Wrappers
  import opened JsText
  import opened Identity
  import opened Media
  import opened Request
  import opened ReplyMentions
  import opened Commands
  import opened Config
  import opened Properties

  class Bot {
    /** `TIMESTAMP_INICIO`, the process start in seconds. */
    const startTime: int

    var modelName: string               // nombreModeloActual
    var tokenLimit: int                 // limiteTokensActual
    var tokensIn: nat                   // totalTokensInput
    var tokensOut: nat                  // totalTokensOutput
    var sessions: map<string, Session>  // chatSesiones
    var model: Option<ModelHandle>      // model
    var generation: nat                 // successful reloads so far

    /** The fields as one value of `Config.State`. */
    function Snapshot(): State
      reads this
    {
      State(modelName, tokenLimit, tokensIn, tokensOut, sessions, model, generation)
    }

    predicate Valid()
      reads this
    {
      Config.Valid(Snapshot())
    }

    /**
     * Process start: the initial values of the variables, then the startup
     * call `cargarModelo(nombreModeloActual)`, whose flag is ignored.
     */
    constructor (start: int, factoryOk: bool)
      ensures startTime == start
      ensures Snapshot() == Reload(Initial, InitialModelName, factoryOk).0
      ensures Valid()
    {
      startTime := start;
      modelName := InitialModelName;
      tokenLimit := InitialTokenLimit;
      tokensIn := 0;
      tokensOut := 0;
      sessions := map[];
      model := None;
      generation := 0;
      new;
      var _ := CargarModelo(InitialModelName, factoryOk);
    }

    /** `cargarModelo(nombreTecnico)`; `factoryOk` says whether `getGenerativeModel` returns. */
    method CargarModelo(nombreTecnico: string, factoryOk: bool) returns (ok: bool)
      modifies this`model, this`modelName, this`sessions, this`generation
      ensures ok == factoryOk
      ensures ok ==> && model == Some(ModelHandle(nombreTecnico, tokenLimit, old(generation) + 1))
                     && modelName == nombreTecnico && sessions == map[]
                     && generation == old(generation) + 1
      ensures !ok ==> model == old(model) && modelName == old(modelName)
                      && sessions == old(sessions) && generation == old(generation)
      ensures (Snapshot(), ok) == Reload(old(Snapshot()), nombreTecnico, factoryOk)
    {
      if !factoryOk {
        return false;
      }
      model := Some(ModelHandle(nombreTecnico, tokenLimit, generation + 1));
      generation := generation + 1;
      modelName := nombreTecnico;
      sessions := map[];
      return true;
    }

    /** `getSesion(chatId)`; `None` stands for `model.startChat` throwing on a `null` model. */
    method GetSesion(chatId: string) returns (session: Option<Session>)
      modifies this`sessions
      ensures chatId in old(sessions) ==> sessions == old(sessions) && session == Some(old(sessions)[chatId])
      ensures chatId !in old(sessions) && model.None? ==> sessions == old(sessions) && session.None?
      ensures chatId !in old(sessions) && model.Some? ==>
                session == Some(Session(chatId, model.value)) && sessions == old(sessions)[chatId := session.value]
      ensures (Snapshot(), session) == OpenSession(old(Snapshot()), chatId)
    {
      if chatId !in sessions {
        if model.None? {
          return None;
        }
        sessions := sessions[chatId := Session(chatId, model.value)];
      }
      session := Some(sessions[chatId]);
    }

    /** The `!tokens` branch, `arg` being the parsed argument (`None` for NaN). */
    method HandleTokens(arg: Option<int>, factoryOk: bool) returns (reply: Option<Reply>)
      modifies this`tokenLimit, this`model, this`modelName, this`sessions, this`generation
      ensures Outcome(Snapshot(), reply, None) == OnTokens(old(Snapshot()), arg, factoryOk)
    {
      reply := None;
      if arg.Some? && arg.value > 0 && arg.value <= MaxTokenLimit {
        tokenLimit := arg.value;
        var ok := CargarModelo(modelName, factoryOk);
        if ok {
          reply := Some(TokensReply(tokenLimit));
        }
      }
    }

    /** The `!modelo` branch, `alias` being the trimmed, lower-cased argument. */
    method HandleModelo(alias: string, factoryOk: bool) returns (reply: Option<Reply>)
      modifies this`model, this`modelName, this`sessions, this`generation
      ensures Outcome(Snapshot(), reply, None) == OnModelo(old(Snapshot()), alias, factoryOk)
    {
      var nombreTecnico := LookupAlias(alias);
      if nombreTecnico.Some? {
        var ok := CargarModelo(nombreTecnico.value, factoryOk);
        reply := if ok then Some(ModelReply(nombreTecnico.value)) else None;
      } else {
        reply := Some(ModelListReply(AliasKeys()));
      }
    }

    /** The `!reset` branch. */
    method HandleReset(chatId: string) returns (reply: Option<Reply>)
      modifies this`sessions
      ensures Outcome(Snapshot(), reply, None) == OnReset(old(Snapshot()), chatId)
    {
      if chatId in sessions {
        sessions := sessions - {chatId};
      }
      assert sessions == old(sessions) - {chatId};
      reply := Some(ResetReply);
    }

    /** The `!bot` branch after the prefix: the query path, with its exceptions ending in the `catch`. */
    method HandleQuery(msg: Message, w: World, consulta: string) returns (reply: Option<Reply>, sent: Option<seq<Part>>)
      modifies this`sessions, this`tokensIn, this`tokensOut
      ensures Outcome(Snapshot(), reply, sent) == OnQuery(old(Snapshot()), msg, w, consulta)
    {
      var numeroUsuario := ObtenerNumeroReal(msg.fromMe, w.ownUser, msg.author, msg.from, msg.data, w.lookup);
      if msg.data.None? {
        return FailureReply(msg.body), None;
      }
      var nombreUsuario := DisplayName(msg.data.value);
      var mediaData := ProcesarMedia(msg.attachments, w.conversion);
      var contextoUsuario := ContextLine(numeroUsuario, nombreUsuario);
      var geminiPayload := BuildPayload(contextoUsuario, consulta, mediaData);
      var sesion := GetSesion(msg.chatId);
      if sesion.None? {
        return FailureReply(msg.body), None;
      }
      if w.response.None? {
        return FailureReply(msg.body), Some(geminiPayload);
      }
      var response := w.response.value;
      if response.usage.Some? {
        tokensIn := tokensIn + response.usage.value.promptTokenCount;
        tokensOut := tokensOut + response.usage.value.candidatesTokenCount;
      }
      if response.text.None? {
        return FailureReply(msg.body), Some(geminiPayload);
      }
      var text := response.text.value;
      var mentions := ExtractMentions(text);
      reply, sent := Some(AnswerReply(text, mentions)), Some(geminiPayload);
    }

    /**
     * The `message_create` handler: an event older than the start is
     * ignored, any other runs the branch its trimmed body selects. It does
     * what `OnMessage` says and keeps the invariant.
     */
    method HandleMessage(msg: Message, w: World) returns (reply: Option<Reply>, sent: Option<seq<Part>>)
      requires Valid()
      modifies this
      ensures Outcome(Snapshot(), reply, sent) == OnMessage(startTime, old(Snapshot()), msg, w)
      ensures Valid()
    {
      if msg.timestamp < startTime {
        return None, None;
      }
      ghost var s := Snapshot();
      var mensaje := Trim(msg.body);
      reply, sent := Dispatch(mensaje, msg, w);
      RunKeepsValid(s, Classify(mensaje), msg, w);
    }

    /** The tests on the trimmed body `mensaje`, in the order of the source; the first that holds wins. */
    method Dispatch(mensaje: string, msg: Message, w: World) returns (reply: Option<Reply>, sent: Option<seq<Part>>)
      modifies this
      ensures Outcome(Snapshot(), reply, sent) == Run(old(Snapshot()), Classify(mensaje), msg, w)
    {
      ghost var s := Snapshot();
      ghost var cmd := Classify(mensaje);
      sent := None;
      if mensaje == "!info" {
        assert cmd == Info;
        reply := Some(InfoReply(modelName, tokenLimit, tokensIn, tokensOut));
      } else if StartsWith(mensaje, "!tokens ") {
        var arg := ParseInt(Trim(mensaje[8..]));
        assert cmd == Tokens(arg);
        reply := HandleTokens(arg, w.factoryOk);
        assert Run(s, cmd, msg, w) == OnTokens(s, arg, w.factoryOk);
      } else {
        reply, sent := DispatchRest(mensaje, msg, w);
      }
    }

    /** The tests after the first two failed: `!modelo `, `!reset`, then the `!bot` prefix in any case. */
    method DispatchRest(mensaje: string, msg: Message, w: World) returns (reply: Option<Reply>, sent: Option<seq<Part>>)
      requires mensaje != "!info" && !StartsWith(mensaje, "!tokens ")
      modifies this
      ensures Outcome(Snapshot(), reply, sent) == Run(old(Snapshot()), Classify(mensaje), msg, w)
    {
      ghost var s := Snapshot();
      ghost var cmd := Classify(mensaje);
      sent := None;
      if StartsWith(mensaje, "!modelo ") {
        var alias := ToLower(Trim(mensaje[8..]));
        assert cmd == Modelo(alias);
        reply := HandleModelo(alias, w.factoryOk);
        assert Run(s, cmd, msg, w) == OnModelo(s, alias, w.factoryOk);
      } else if mensaje == "!reset" {
        assert cmd == Reset;
        reply := HandleReset(msg.chatId);
      } else if StartsWith(ToLower(mensaje), "!bot") {
        var consulta := Trim(mensaje[4..]);
        assert cmd == Bot(consulta);
        reply, sent := HandleQuery(msg, w, consulta);
        assert Run(s, cmd, msg, w) == OnQuery(s, msg, w, consulta);
      } else {
        assert cmd == NoCommand;
        reply := None;
      }
    }
  }
}
