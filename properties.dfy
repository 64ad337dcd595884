/**
 * What the handler promises, stated over the state machine of `Config`:
 * the replay filter, the dispatch, each command's effect and frame, and the
 * invariant.
 */
module Properties {
  import opened Wrappers
  import opened JsText
  import opened Identity
  import opened Media
  import opened Request
  import opened ReplyMentions
  import opened Commands
  import opened Config

  /** Startup: the state is valid, and the first load either installs generation 1 or leaves no model. */
  lemma InitialLoad(factoryOk: bool)
    ensures Valid(Initial)
    ensures var (s, ok) := Reload(Initial, InitialModelName, factoryOk);
            && Valid(s) && ok == factoryOk && s.tokenLimit == 650 && s.sessions == map[]
            && (ok ==> s.model == Some(ModelHandle("gemini-2.0-flash-lite", 650, 1)))
            && (!ok ==> s.model.None?)
  {
  }

  /**
   * `cargarModelo`: success installs the named model with the current ceiling
   * and empties the session map; failure changes nothing; neither touches the
   * ceiling or the counters.
   */
  lemma ReloadEffect(s: State, name: string, factoryOk: bool)
    requires Valid(s)
    ensures var (s', ok) := Reload(s, name, factoryOk);
            && Valid(s') && ok == factoryOk
            && (ok ==> s'.modelName == name && s'.sessions == map[]
                       && s'.model == Some(ModelHandle(name, s.tokenLimit, s.generation + 1)))
            && (!ok ==> s' == s)
            && s'.tokenLimit == s.tokenLimit && s'.tokensIn == s.tokensIn && s'.tokensOut == s.tokensOut
  {
  }

  /** `chatSesiones[c]` and `chatSesiones[d]` agree on every chat `d` other than `c`. */
  ghost predicate SameElsewhere(m: map<string, Session>, m': map<string, Session>, c: string) {
    forall d :: d != c ==> (d in m <==> d in m') && (d in m ==> m[d] == m'[d])
  }

  /**
   * `getSesion(c)`: an existing entry is returned and nothing changes; a
   * missing one is created from the current model, which adds exactly one
   * entry; other chats' entries are untouched.
   */
  lemma OpenSessionEffect(s: State, c: string)
    requires Valid(s)
    ensures var (s', session) := OpenSession(s, c);
            && Valid(s')
            && s'.(sessions := s.sessions) == s
            && SameElsewhere(s.sessions, s'.sessions, c)
            && (session.Some? <==> c in s.sessions || s.model.Some?)
            && (c in s.sessions ==> s' == s && session == Some(s.sessions[c]))
            && (c !in s.sessions && s.model.Some? ==>
                  && session == Some(Session(c, s.model.value))
                  && s'.sessions == s.sessions[c := session.value]
                  && |s'.sessions| == |s.sessions| + 1)
  {
    var (s', session) := OpenSession(s, c);
    if c !in s.sessions && s.model.Some? {
      assert s'.sessions.Keys == s.sessions.Keys + {c};
    }
  }

  /** Asking for the same chat's session twice gives the same session and the same state as asking once. */
  lemma OpenSessionIdempotent(s: State, c: string)
    requires Valid(s)
    ensures var (s1, r1) := OpenSession(s, c);
            var (s2, r2) := OpenSession(s1, c);
            s2 == s1 && r2 == r1
  {
  }

  /** Every branch of the handler keeps the invariant, whatever the outside world does. */
  lemma RunKeepsValid(s: State, cmd: Command, msg: Message, w: World)
    requires Valid(s)
    ensures Valid(Run(s, cmd, msg, w).state)
  {
    match cmd
    case Tokens(n) =>
      if n.Some? && 0 < n.value <= MaxTokenLimit {
        TokensAccepted(s, w.factoryOk, n.value);
      }
    case Modelo(alias) =>
      if LookupAlias(alias).Some? {
        ModeloKnown(s, alias, w.factoryOk);
      }
    case Bot(query) =>
      QueryKeepsValid(s, msg, w, query);
    case _ =>
  }

  lemma QueryKeepsValid(s: State, msg: Message, w: World, query: string)
    requires Valid(s)
    ensures Valid(OnQuery(s, msg, w, query).state)
  {
    OpenSessionEffect(s, msg.chatId);
  }

  /** The handler keeps the invariant, whatever the message and the outside world do. */
  lemma OnMessageKeepsValid(start: int, s: State, msg: Message, w: World)
    requires Valid(s)
    ensures Valid(OnMessage(start, s, msg, w).state)
  {
    if msg.timestamp >= start {
      RunKeepsValid(s, Classify(Trim(msg.body)), msg, w);
    }
  }

  /** A message older than the process start is ignored: no state change, no reply, nothing sent. */
  lemma ReplayIgnored(start: int, s: State, msg: Message, w: World)
    requires msg.timestamp < start
    ensures OnMessage(start, s, msg, w) == Outcome(s, None, None)
  {
  }

  /**
   * Dispatch on the trimmed body: each pattern leads to its own command,
   * with the argument that follows its prefix; unmatched text does nothing.
   */
  lemma Dispatch(start: int, s: State, msg: Message, w: World)
    requires msg.timestamp >= start
    ensures var m := Trim(msg.body);
            var o := OnMessage(start, s, msg, w);
            && (m == "!info" ==> o == OnInfo(s))
            && (StartsWith(m, "!tokens ") ==> |m| >= 8 && o == OnTokens(s, ParseInt(Trim(m[8..])), w.factoryOk))
            && (StartsWith(m, "!modelo ") ==> |m| >= 8 && o == OnModelo(s, ToLower(Trim(m[8..])), w.factoryOk))
            && (m == "!reset" ==> o == OnReset(s, msg.chatId))
            && (IsBotPrefix(m) ==> |m| >= 4 && o == OnQuery(s, msg, w, Trim(m[4..])))
            && (Classify(m) == NoCommand ==> o == Outcome(s, None, None))
  {
    ClassifyExactly(Trim(msg.body));
    ClassifyArguments(Trim(msg.body));
  }

  /** `!info` reports the active model, the ceiling and the counters, and changes nothing. */
  lemma InfoReports(s: State)
    ensures OnInfo(s) == Outcome(s, Some(InfoReply(s.modelName, s.tokenLimit, s.tokensIn, s.tokensOut)), None)
  {
  }

  /**
   * `!tokens n` with `n` in 1..8192: the ceiling becomes `n` even when the
   * reload fails (the model then keeps its old `maxOutputTokens`); a reply
   * comes only after a successful reload; the active name never changes.
   */
  lemma TokensAccepted(s: State, factoryOk: bool, n: int)
    requires Valid(s)
    requires 1 <= n <= MaxTokenLimit
    ensures var o := OnTokens(s, Some(n), factoryOk);
            && Valid(o.state)
            && o.state.tokenLimit == n
            && o.state.modelName == s.modelName
            && o.state.tokensIn == s.tokensIn && o.state.tokensOut == s.tokensOut
            && o.sent.None?
            && (o.reply.Some? <==> factoryOk)
            && (factoryOk ==> && o.reply == Some(TokensReply(n))
                              && o.state.sessions == map[]
                              && o.state.model == Some(ModelHandle(s.modelName, n, s.generation + 1)))
            && (!factoryOk ==> o.state == s.(tokenLimit := n))
  {
    ReloadEffect(s.(tokenLimit := n), s.modelName, factoryOk);
  }

  /** `!tokens` with no number, or one outside 1..8192: no change and no reply at all. */
  lemma TokensRejected(s: State, n: Option<int>, factoryOk: bool)
    requires n.None? || !(1 <= n.value <= MaxTokenLimit)
    ensures OnTokens(s, n, factoryOk) == Outcome(s, None, None)
  {
  }

  /**
   * `!modelo a` with a known alias: on success the active model is the
   * table's technical name, with the unchanged ceiling, and every chat's
   * session is gone; on failure nothing changes and nothing is said.
   */
  lemma ModeloKnown(s: State, alias: string, factoryOk: bool)
    requires Valid(s)
    requires LookupAlias(alias).Some?
    ensures var name := LookupAlias(alias).value;
            var o := OnModelo(s, alias, factoryOk);
            && Valid(o.state)
            && (factoryOk ==> && o.state.modelName == name
                              && o.state.model == Some(ModelHandle(name, s.tokenLimit, s.generation + 1))
                              && o.state.sessions == map[]
                              && o.reply == Some(ModelReply(name)))
            && (!factoryOk ==> o == Outcome(s, None, None))
            && o.state.tokenLimit == s.tokenLimit
            && o.state.tokensIn == s.tokensIn && o.state.tokensOut == s.tokensOut
  {
    ReloadEffect(s, LookupAlias(alias).value, factoryOk);
  }

  /** `!modelo` with an unknown alias: no change, and the reply lists the six aliases in table order. */
  lemma ModeloUnknown(s: State, alias: string, factoryOk: bool)
    requires LookupAlias(alias).None?
    ensures OnModelo(s, alias, factoryOk)
            == Outcome(s, Some(ModelListReply(["3-pro", "2.5-pro", "2.5-flash", "2.5-lite", "2.0-flash", "2.0-lite"])), None)
  {
    assert AliasKeys() == ["3-pro", "2.5-pro", "2.5-flash", "2.5-lite", "2.0-flash", "2.0-lite"];
  }

  /** `!reset` removes this chat's entry only, leaves everything else, and always gives the same reply. */
  lemma ResetOnlyThisChat(s: State, c: string)
    requires Valid(s)
    ensures var o := OnReset(s, c);
            && Valid(o.state)
            && o.reply == Some(ResetReply) && o.sent.None?
            && c !in o.state.sessions
            && SameElsewhere(s.sessions, o.state.sessions, c)
            && o.state.(sessions := s.sessions) == s
  {
  }

  /**
   * The query path reaches `sendMessage` and that call returns: `_data` is
   * there, a session is cached or can be started, and the model responds.
   */
  ghost predicate SendReturns(s: State, msg: Message, w: World)
  {
    msg.data.Some? && (msg.chatId in s.sessions || s.model.Some?) && w.response.Some?
  }

  /**
   * The query path never changes the configuration: the model, its name and
   * the ceiling stay, at most this chat's session is added, and the counters
   * grow by the reported usage exactly when `sendMessage` returned (whether
   * or not `response.text()` then throws) and by nothing otherwise.
   */
  lemma QueryFrame(s: State, msg: Message, w: World, query: string)
    requires Valid(s)
    ensures var o := OnQuery(s, msg, w, query);
            && o.state.modelName == s.modelName && o.state.tokenLimit == s.tokenLimit
            && o.state.model == s.model && o.state.generation == s.generation
            && SameElsewhere(s.sessions, o.state.sessions, msg.chatId)
            && (msg.chatId in s.sessions ==> o.state.sessions == s.sessions)
            && (SendReturns(s, msg, w) && w.response.value.usage.Some? ==>
                  && o.state.tokensIn == s.tokensIn + w.response.value.usage.value.promptTokenCount
                  && o.state.tokensOut == s.tokensOut + w.response.value.usage.value.candidatesTokenCount)
            && (!SendReturns(s, msg, w) || w.response.value.usage.None? ==>
                  o.state.tokensIn == s.tokensIn && o.state.tokensOut == s.tokensOut)
  {
    OpenSessionEffect(s, msg.chatId);
  }

  /**
   * An answered query: the payload built from the resolved sender, the
   * processed media and the query is sent, the chat has a session of the
   * current model, and the reply is the model's text verbatim with its mentions.
   */
  lemma QueryAnswered(s: State, msg: Message, w: World, query: string)
    requires Valid(s)
    requires msg.data.Some? && s.model.Some? && w.response.Some? && w.response.value.text.Some?
    ensures var o := OnQuery(s, msg, w, query);
            var text := w.response.value.text.value;
            var numero := ObtenerNumeroReal(msg.fromMe, w.ownUser, msg.author, msg.from, msg.data, w.lookup);
            && o.reply == Some(AnswerReply(text, Mentions(text)))
            && o.sent == Some(Payload(ContextLine(numero, DisplayName(msg.data.value)), query,
                                      ProcesarMedia(msg.attachments, w.conversion)))
            && msg.chatId in o.state.sessions
            && o.state.sessions[msg.chatId] == Session(msg.chatId, s.model.value)
  {
  }

  /**
   * A failed query (no `_data`, no model, `sendMessage` or `response.text()`
   * throwing) is reported only when the RAW body starts with "!bot", case
   * included: "!BOT hola" and " !bot hola" fail silently.
   */
  lemma QueryFailureReply(s: State, msg: Message, w: World, query: string)
    requires || msg.data.None? || (msg.chatId !in s.sessions && s.model.None?) || w.response.None?
             || w.response.value.text.None?
    ensures OnQuery(s, msg, w, query).reply == (if StartsWith(msg.body, "!bot") then Some(ErrorReply) else None)
  {
  }

  /** The body "!tokens " followed by `rest` is the tokens command, whatever `rest` is. */
  lemma ClassifyTokens(rest: string)
    ensures Classify("!tokens " + rest) == Tokens(ParseInt(Trim(rest)))
  {
    var m := "!tokens " + rest;
    assert m[..8] == "!tokens ";
    assert m != "!info";
    assert m[8..] == rest;
  }

  /** The decimal digits of `n`, trimmed and parsed, give `n` back. */
  lemma ParseDecimal(n: nat)
    ensures ParseInt(Trim(DecimalString(n))) == Some(n)
  {
    TrimNoop(DecimalString(n));
    ParseIntDecimal(n, []);
    assert DecimalString(n) + [] == DecimalString(n);
  }

  /** `!tokens n` followed by `!info` reports `n` as the ceiling, whether or not the reload worked. */
  lemma TokensThenInfo(start: int, s: State, m1: Message, m2: Message, w1: World, w2: World, n: nat)
    requires Valid(s)
    requires m1.timestamp >= start && m2.timestamp >= start
    requires 1 <= n <= MaxTokenLimit
    requires Trim(m1.body) == "!tokens " + DecimalString(n) && Trim(m2.body) == "!info"
    ensures var o1 := OnMessage(start, s, m1, w1);
            OnMessage(start, o1.state, m2, w2).reply
              == Some(InfoReply(s.modelName, n, s.tokensIn, s.tokensOut))
  {
    ClassifyTokens(DecimalString(n));
    ParseDecimal(n);
    var o1 := OnMessage(start, s, m1, w1);
    OnMessageRuns(start, s, m1, w1);
    assert o1 == OnTokens(s, Some(n), w1.factoryOk);
    TokensAccepted(s, w1.factoryOk, n);
    InfoAfter(start, o1.state, m2, w2);
  }

  lemma InfoAfter(start: int, s: State, m: Message, w: World)
    requires m.timestamp >= start && Trim(m.body) == "!info"
    ensures OnMessage(start, s, m, w) == OnInfo(s)
  {
    assert Classify("!info") == Info;
  }

  /** A message not older than the start runs the branch its trimmed body selects. */
  lemma OnMessageRuns(start: int, s: State, msg: Message, w: World)
    requires msg.timestamp >= start
    ensures OnMessage(start, s, msg, w) == Run(s, Classify(Trim(msg.body)), msg, w)
  {
  }

  lemma RunQuery(s: State, cmd: Command, msg: Message, w: World)
    requires cmd.Bot?
    ensures Run(s, cmd, msg, w) == OnQuery(s, msg, w, cmd.query)
  {
  }

  /** Two queries whose `sendMessage` returns with usage add both usages to the counters. */
  lemma TwoQueriesAccumulate(start: int, s: State, m1: Message, m2: Message, w1: World, w2: World,
                             u1: Usage, u2: Usage)
    requires Valid(s) && s.model.Some?
    requires m1.timestamp >= start && m2.timestamp >= start
    requires Classify(Trim(m1.body)).Bot? && Classify(Trim(m2.body)).Bot?
    requires m1.data.Some? && m2.data.Some?
    requires w1.response.Some? && w1.response.value.usage == Some(u1)
    requires w2.response.Some? && w2.response.value.usage == Some(u2)
    ensures var o1 := OnMessage(start, s, m1, w1);
            var o2 := OnMessage(start, o1.state, m2, w2);
            && o2.state.tokensIn == s.tokensIn + u1.promptTokenCount + u2.promptTokenCount
            && o2.state.tokensOut == s.tokensOut + u1.candidatesTokenCount + u2.candidatesTokenCount
  {
    var q1 := Classify(Trim(m1.body)).query;
    var q2 := Classify(Trim(m2.body)).query;
    var o1 := OnMessage(start, s, m1, w1);
    OnMessageRuns(start, s, m1, w1);
    RunQuery(s, Classify(Trim(m1.body)), m1, w1);
    QueryFrame(s, m1, w1, q1);
    QueryKeepsValid(s, m1, w1, q1);
    OnMessageRuns(start, o1.state, m2, w2);
    RunQuery(o1.state, Classify(Trim(m2.body)), m2, w2);
    QueryFrame(o1.state, m2, w2, q2);
  }

  /**
   * After a successful `!modelo`, every chat's next query opens a new session
   * of the new model: no conversation history survives the switch.
   */
  lemma ModeloThenFreshSession(s: State, alias: string, c: string)
    requires Valid(s)
    requires LookupAlias(alias).Some?
    ensures var o := OnModelo(s, alias, true);
            var (_, session) := OpenSession(o.state, c);
            && session == Some(Session(c, ModelHandle(LookupAlias(alias).value, s.tokenLimit, s.generation + 1)))
            && session.value.handle.generation > s.generation
  {
    ModeloKnown(s, alias, true);
  }
}
