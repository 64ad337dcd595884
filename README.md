# wheminiBot command and session layer, in Dafny

wheminiBot (`index.js`) is a WhatsApp bot that forwards `!bot` queries to a
Gemini chat model. This project models the bot's in-memory core:

- the process-wide state: the active model name, the output-token ceiling,
  the two usage counters, the per-chat session cache and the loaded model;
- `cargarModelo`, which reloads the model and empties the session cache;
- `getSesion`, which opens a chat's session on first use;
- the `message_create` handler. It has a replay filter, then an ordered
  command dispatch over `!info`, `!tokens `, `!modelo `, `!reset` and `!bot`.
  On the query path it resolves the sender, selects the media and builds the
  request payload, then counts the usage and extracts the reply's mentions;
- the pure helpers the handler relies on: `obtenerNumeroReal`'s fallback
  chain, `procesarMedia`'s selection, the alias table, and the JavaScript
  string operations involved (`trim`, `toLowerCase`, `startsWith`,
  `includes`, `replace(/\D/g, '')`, `parseInt` with no radix).

The model has these layers:

- `JsText`, `Identity`, `Media`, `Request`, `ReplyMentions` and `Commands` are
  the pure parts, written as functions with lemmas.
- `Config` describes one handler run as a function of the old state, the
  message and a `World` value. The `World` value holds what the outside said:
  - whether `getGenerativeModel` returned;
  - the bot's own `wid.user`;
  - the in-page contact lookup's result;
  - the ffmpeg conversion's result;
  - the model's response.
- `Properties` proves what the handler promises about that function.
- `Whemini.Bot` is the running program. It is a class whose fields are the
  module-level variables, and its methods update them in place, as the
  source does. Each method is proved equal to the corresponding `Config`
  function. `HandleMessage` is also proved to keep the invariant
  `Config.Valid`. This invariant says three things:
  - the ceiling is in 1..8192;
  - a loaded model carries the active name and the current reload
    generation;
  - every cached session belongs to its chat and to the current model.

The model follows the code in these details:

- `!tokens n` assigns the ceiling before it attempts the reload (index.js:251-252).
  A failed reload therefore keeps the new ceiling, and it sends no reply.
- An invalid `!tokens` argument gets no reply at all (index.js:250-254). It
  does not get an error message.
- `!reset` always sends the same reply, whether or not the chat had a session
  (index.js:270-271).
- A failed reload is not reported to the user. The handler only replies on
  success (index.js:252, 261).

## Model

| member | source | states |
|---|---|---|
| `JsText.Trim` | index.js:239 | `trim` keeps one contiguous slice of the string and drops only ECMAScript white space before and after it; the slice starts and ends with a non-white-space character, or is empty |
| `JsText.TrimStart` | index.js:239 | the result is the longest suffix not starting with white space, and everything dropped is white space |
| `JsText.TrimEnd` | index.js:239 | the result is the longest prefix not ending with white space, and everything dropped is white space |
| `JsText.TrimIdempotent` | index.js:239 | trimming twice is trimming once |
| `JsText.TrimNoop` | index.js:258 | a string with no white space at either end is left as it is |
| `JsText.ToLower` | index.js:258 | `toLowerCase` keeps the length and lowers each character in place |
| `JsText.StartsWith` | index.js:248 | models `startsWith`: the text begins with the prefix; used by `Classify`, whose tests are related in `Commands.ClassifyExactly` |
| `JsText.Includes` | index.js:139 | models `includes`: the pattern occurs somewhere; characterised by `JsText.IncludesAt` |
| `JsText.IncludesAt` | index.js:159 | `includes(p)` holds exactly when `p` occurs at some index |
| `JsText.StripNonDigits` | index.js:160 | `replace(/\D/g, '')` leaves only digits and never lengthens |
| `JsText.StripNonDigitsAppend` | index.js:160 | stripping distributes over concatenation |
| `JsText.StripNonDigitsOfDigits` | index.js:160 | a string of digits is left unchanged |
| `JsText.StripNonDigitsNoDigits` | index.js:160 | a string without digits strips to the empty string |
| `JsText.DigitValue` | index.js:249 | digit values of radix up to 36; a value below 10 exactly for decimal digits |
| `JsText.DigitPrefixLength` | index.js:249 | `parseInt` reads the maximal run of digits of its radix |
| `JsText.DecimalString` | index.js:252 | a number prints as a non-empty digit string without a leading zero |
| `JsText.DecimalStringValue` | index.js:252 | the printed digits denote the number |
| `JsText.ParseUnsigned` | index.js:249 | models the digits part of `parseInt` with no radix: a "0x"/"0X" prefix selects radix 16, and no digit gives NaN; read back by `JsText.ParseUnsignedDecimal` |
| `JsText.ParseInt` | index.js:249 | models `parseInt(s)` with no radix: leading white space, one sign, then the digits part; read back by `JsText.ParseIntDecimal` |
| `JsText.ParseUnsignedDecimal` | index.js:249 | the digits part of `parseInt` reads back a printed number followed by any non-digit text; only after "0" must that text not start with the `x` of a hex prefix |
| `JsText.TrimStartNoop` | index.js:249 | `parseInt` skips nothing before a non-white-space character |
| `JsText.ParseIntMinus` | index.js:249 | one leading `-` negates the digits part |
| `JsText.ParseIntPlus` | index.js:249 | one leading `+` is skipped |
| `JsText.ParseIntUnsigned` | index.js:249 | without a sign, `parseInt` is its digits part |
| `JsText.ParseIntDecimal` | index.js:249 | `parseInt` reads back any printed number, unsigned, with `-` or with `+`, whatever non-digit text follows, except an `x` right after "0" |
| `JsText.ParseIntHexExample` | index.js:249 | with no radix `parseInt` also reads hexadecimal: "0x100" is 256 |
| `Identity.Candidate` | index.js:158 | models the candidate `msg.author`, falling back to `msg.from`: the author when it is a non-empty string, the sender otherwise |
| `Identity.ObtenerNumeroReal` | index.js:151-201 | models the five guarded returns in order; its results are characterised by the lemmas below |
| `Identity.ResolvedIsDigitsOrUnknown` | index.js:151-201 | except for the bot's own `wid.user`, the resolved number is digits only or "Desconocido" |
| `Identity.UnknownExactlyWithoutSources` | index.js:157-200 | "Desconocido" comes out exactly when there is no candidate, no `@c.us` participant and no lookup result for a defined candidate |
| `Identity.LookupOnlyAsFallback` | index.js:157-197 | with an `@c.us` source present, the page lookup cannot change the result |
| `Identity.DirectIdWins` | index.js:157-161 | an `@c.us` author or sender wins over the metadata and the lookup, stripped to digits |
| `Identity.ExampleDirectId` | index.js:157-161 | "5491122334@c.us" resolves to "5491122334" |
| `Media.SelectMedia` | index.js:131-137 | models the choice between the message's own download and the quoted message's; characterised by `Media.OwnMediaFirst` |
| `Media.IsAudioLike` | index.js:139 | models the conversion guard: a mime type starting with "audio" or containing "ogg"; instances in `Media.VoiceNoteIsAudioLike` |
| `Media.ProcesarMedia` | index.js:130-148 | models `procesarMedia`: the selected media, replaced by the mp3 when it is audio-like and the conversion resolves; characterised by the lemmas below |
| `Media.Mp3IsAudio` | index.js:122 | the converted media's mime type starts with "audio" |
| `Media.ProcesarMediaKeepsPresence` | index.js:130-148 | processing yields media exactly when some was selected |
| `Media.ProcesarMediaPassesOtherMedia` | index.js:139-147 | media that is not audio-like is passed on unchanged |
| `Media.ProcesarMediaFallsBack` | index.js:142-145 | a failed conversion keeps the downloaded media |
| `Media.ProcesarMediaNormalizesAudio` | index.js:139-141 | audio-like media with a successful conversion becomes the mp3 |
| `Media.VoiceNoteIsAudioLike` | index.js:139 | "audio/ogg; codecs=opus" and "application/ogg" both pass the audio test |
| `Media.OwnMediaFirst` | index.js:132-137 | the message's own media wins over the quoted message's |
| `Request.ContextLine` | index.js:292 | models `contextoUsuario`, the system line naming the number and the display name |
| `Request.DefaultPrompt` | index.js:304-307 | models the prompt for media without a query: audio, then image, then any other file; used in `Request.ConvertedAudioIsTranscribed` |
| `Request.Payload` | index.js:292-309 | at most two parts; the media part first and only there; the text part is the context line with the query, or with the default prompt for the media type; empty for neither |
| `Request.BuildPayload` | index.js:293-309 | the pushes onto `geminiPayload` build exactly `Payload` |
| `Request.TextOnlyPayload` | index.js:301-302 | a query without media is one text part |
| `Request.ConvertedAudioIsTranscribed` | index.js:303-308 | converted audio without a query gets the transcription prompt |
| `ReplyMentions.Mentions` | index.js:325-329 | models the matches of `/@(\d+)/g` in order, each as digits followed by "@c.us"; characterised by the lemmas below |
| `ReplyMentions.DigitRunLength` | index.js:325 | the greedy `\d+` takes the maximal run of digits |
| `ReplyMentions.MentionsWellFormed` | index.js:324-329 | every mention is a non-empty digit run followed by "@c.us" |
| `ReplyMentions.MentionsAtMostOnePerAt` | index.js:325-329 | there are no more mentions than `@` characters |
| `ReplyMentions.NoAtNoMentions` | index.js:325-329 | a text without `@` has no mentions |
| `ReplyMentions.MentionsAppend` | index.js:325-329 | the mentions of `a + b` are those of `a` then those of `b`, when `b` does not start with a digit |
| `ReplyMentions.OneMention` | index.js:325-328 | `@` followed by digits alone is one mention of those digits |
| `ReplyMentions.MentionedTwice` | index.js:324-329 | repeated mentions are kept, in order |
| `ReplyMentions.ExtractMentions` | index.js:324-329 | the `exec` loop collects exactly `Mentions(text)` |
| `Commands.Classify` | index.js:239-277 | models the ordered tests on the trimmed body and the argument each branch derives; characterised by `Commands.ClassifyExactly` and `Commands.ClassifyArguments` |
| `Commands.ClassifyExactly` | index.js:242-276 | each command is selected exactly when its own pattern matches, and the patterns exclude each other |
| `Commands.ClassifyArguments` | index.js:249-277 | `!tokens` parses and `!modelo` lower-cases the trimmed text after 8 characters; `!bot` trims the text after 4 |
| `Commands.BotPrefixIgnoresCase` | index.js:276 | a body is a query exactly when it starts with "!" and b, o, t in either case |
| `Commands.AliasKeys` | index.js:263 | `Object.keys` lists the six aliases in table order, each once; a text is among them exactly when the alias lookup accepts it |
| `Commands.Find` | index.js:259 | a lookup succeeds exactly for a key of the table, and yields that key's value |
| `Commands.LookupAlias` | index.js:259 | models `MODELOS_DISPONIBLES[alias]` over the six entries of the table; characterised by `Commands.Find` and the two lemmas below |
| `Commands.LookupAliasTable` | index.js:44-51 | every alias of the table maps to its technical name |
| `Commands.LookupAliasInjective` | index.js:44-51 | no two aliases select the same model |
| `Config.Valid` | index.js:36-97 | the invariant of the module-level variables: a ceiling in 1..8192, a loaded model carrying the active name and current generation, and sessions only of that model, each for its own chat; kept by `Properties.OnMessageKeepsValid` |
| `Config.Reload` | index.js:63-88 | models `cargarModelo` on the state; characterised by `Properties.ReloadEffect` |
| `Config.OpenSession` | index.js:92-97 | models `getSesion` on the state; characterised by `Properties.OpenSessionEffect` |
| `Config.OnInfo` | index.js:242-246 | models the `!info` branch: the report of name, ceiling and counters, the state unchanged |
| `Config.OnTokens` | index.js:248-255 | models the `!tokens` branch; characterised by `Properties.TokensAccepted` and `Properties.TokensRejected` |
| `Config.OnModelo` | index.js:257-266 | models the `!modelo` branch; characterised by `Properties.ModeloKnown` and `Properties.ModeloUnknown` |
| `Config.OnReset` | index.js:268-273 | models the `!reset` branch; characterised by `Properties.ResetOnlyThisChat` |
| `Config.DisplayName` | index.js:283 | models the display name: `msg._data.notifyName` when it is a non-empty string, otherwise "Usuario" |
| `Config.Accumulate` | index.js:316-319 | models the two `+=` on the counters when `usageMetadata` is present; used by `Properties.QueryFrame` |
| `Config.OnQuery` | index.js:276-338 | models the query path and the exceptions that end in the `catch`; characterised by `Properties.QueryFrame`, `Properties.QueryAnswered` and `Properties.QueryFailureReply` |
| `Config.FailureReply` | index.js:335-338 | models the `catch` block: an error reply only for a raw body starting with "!bot"; used by `Properties.QueryFailureReply` |
| `Config.Run` | index.js:241-277 | models the branch taken for each classified command; characterised by `Properties.Dispatch` and kept valid by `Properties.RunKeepsValid` |
| `Config.OnMessage` | index.js:235-339 | models one `message_create` event with its replay filter; characterised by `Properties.ReplayIgnored`, `Properties.Dispatch` and `Properties.OnMessageKeepsValid` |
| `Properties.InitialLoad` | index.js:36-90 | startup yields a valid state with ceiling 650; it loads generation 1 of "gemini-2.0-flash-lite", or has no model if the load fails |
| `Properties.ReloadEffect` | index.js:63-88 | a successful reload installs the name with the current ceiling and empties the cache; a failed one changes nothing; the invariant is kept |
| `Properties.OpenSessionEffect` | index.js:92-97 | `getSesion` returns an existing entry unchanged, or adds exactly one entry from the current model; other chats are untouched |
| `Properties.OpenSessionIdempotent` | index.js:92-97 | asking twice is asking once |
| `Properties.RunKeepsValid` | index.js:241-333 | every command branch keeps the invariant |
| `Properties.QueryKeepsValid` | index.js:276-333 | the query path keeps the invariant |
| `Properties.OnMessageKeepsValid` | index.js:235-339 | the handler keeps the invariant whatever the message and the outside world |
| `Properties.ReplayIgnored` | index.js:237 | an event older than the process start changes nothing and sends nothing |
| `Properties.Dispatch` | index.js:239-277 | the trimmed body selects each handler with the argument after its prefix; other text does nothing |
| `Properties.TokensAccepted` | index.js:248-255 | a ceiling in 1..8192 is kept even if the reload fails; the reply comes only after success; the name never changes |
| `Properties.TokensRejected` | index.js:249-254 | NaN or out-of-range: no state change and no reply |
| `Properties.ModeloKnown` | index.js:257-261 | a known alias installs its technical name and clears every session on success; on failure nothing changes and nothing is said |
| `Properties.ModeloUnknown` | index.js:262-264 | an unknown alias changes nothing, and the reply lists the six keys |
| `Properties.ResetOnlyThisChat` | index.js:268-273 | `!reset` removes only this chat's entry, keeps configuration and counters, and always replies the same |
| `Properties.QueryFrame` | index.js:312-321 | a query never changes the configuration and adds at most this chat's session; the counters grow by the reported usage exactly when `sendMessage` returned, even if `response.text()` then throws, and stay otherwise |
| `Properties.QueryAnswered` | index.js:282-331 | when `_data`, a model and a readable response are there, the query sends the payload built from sender, media and query, caches the chat's session, and replies with the text verbatim and its mentions |
| `Properties.QueryFailureReply` | index.js:283-338 | a failed query (no `_data`, no model, `sendMessage` or `response.text()` throwing) is reported only when the raw body starts with "!bot", case-sensitively |
| `Properties.ClassifyTokens` | index.js:248-249 | "!tokens " followed by any text is the tokens command with that text's parse |
| `Properties.ParseDecimal` | index.js:249 | the printed number reads back through trim and `parseInt` |
| `Properties.TokensThenInfo` | index.js:242-252 | `!tokens n` then `!info` reports `n`, whether or not the reload worked |
| `Properties.InfoAfter` | index.js:242-246 | a trimmed body "!info" runs the info branch |
| `Properties.TwoQueriesAccumulate` | index.js:316-319 | two queries whose `sendMessage` returns with usage add both usages to the counters |
| `Properties.ModeloThenFreshSession` | index.js:81-97 | after a model switch a chat's next session is new and of the new model |
| `Whemini.Bot.constructor` | index.js:36-90 | the initial values, then the startup `cargarModelo`; the state is valid |
| `Whemini.Bot.CargarModelo` | index.js:63-88 | the fields change exactly as `Reload` says, and the flag is whether the factory returned |
| `Whemini.Bot.GetSesion` | index.js:92-97 | the cache changes exactly as `OpenSession` says |
| `Whemini.Bot.HandleTokens` | index.js:248-255 | the `!tokens` branch does what `OnTokens` says |
| `Whemini.Bot.HandleModelo` | index.js:257-266 | the `!modelo` branch does what `OnModelo` says |
| `Whemini.Bot.HandleReset` | index.js:268-273 | the `!reset` branch does what `OnReset` says |
| `Whemini.Bot.HandleQuery` | index.js:277-333 | the query path, with its pushes, the `+=` on the counters before `response.text()` and the mention loop, does what `OnQuery` says |
| `Whemini.Bot.Dispatch` | index.js:239-266 | the ordered tests on the trimmed body run the branch `Classify` selects |
| `Whemini.Bot.DispatchRest` | index.js:257-333 | the last three tests run the branch `Classify` selects |
| `Whemini.Bot.HandleMessage` | index.js:235-339 | one event does what `OnMessage` says and keeps the invariant |

## Left out

- I/O and external services are not modelled. This covers the WhatsApp
  client and its events, `.env` and `instructions.txt` loading, and the
  `process.exit` paths. It also covers the Gemini calls (`getGenerativeModel`,
  `startChat`, `sendMessage`, `response.text()`), the ffmpeg conversion with
  its temporary files, and the in-page `pupPage.evaluate` lookup. Their
  outcomes are inputs, held in `Config.World`. The order of these calls
  against the state changes is modelled: `response.text()` throwing still
  leaves the usage counted, because the counters grow before it is called
  (index.js:316-321).
- The clock is a parameter: `TIMESTAMP_INICIO` is the constructor's `start`
  argument.
- A model handle is an opaque value. It holds the name, the ceiling and the
  reload generation. A session holds its chat and its handle, and its
  conversation history is not modelled.
- Replies are structured `Config.Reply` values. They carry the values the
  source interpolates. The Spanish message text and its emoji formatting are
  not modelled, and neither is `error.message` in the error reply.
- The typing indicator, `clearState`, the reply transport and console
  logging are not modelled.
- Concurrency is not modelled: each event runs to completion before the
  next one. Interleaved async handlers over the shared state are not
  modelled.
- JavaScript objects as dictionaries with prototype keys are not modelled.
  The alias table and the session cache are plain finite maps, so an alias
  such as "constructor" is simply unknown.
- `JsText.ToLower`: only ASCII letters are lowered, one character for one.
  Full Unicode lower-casing is not modelled. Two characters outside ASCII
  lower-case to ASCII letters. U+212A (Kelvin sign) becomes "k", which occurs
  in no alias and not in "!bot". U+0130 becomes "i" followed by U+0307, and
  the extra U+0307 keeps the result unequal to every alias. So an argument
  that differs from an alias only in non-ASCII characters is unknown, both in
  the source and in the model, and the command dispatch is unaffected.
- `JsText.ParseInt`: digit strings too long for a double are not rounded,
  and JavaScript's `-0` is represented by 0.
- `downloadMedia()` throwing is not modelled. The download's result is an
  input; an exception there would end in the error reply.
- Usage counts that are missing from `usageMetadata`, and would turn the
  counters into NaN, are not modelled. A reported usage is two natural
  numbers.
- `debugger.js` is not part of this model. It only formats diagnostic text
  from the fields of library objects.
