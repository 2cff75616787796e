# TinyTalk server session bookkeeping, in Dafny

TinyTalk is a toddler speech-teaching app. Its Flask server (`server/app.py`) proxies a browser's
WebSocket to the Gemini Live API. Before relaying, the server does two things:

- It turns the client's first message into a session. It applies defaults, normalises the voice,
  picks the first word of a category in word mode, and stores the session in a process-wide registry.
- It sends the upstream service one setup message: the model, audio output, the voice, and a
  system instruction assembled from constant prompt texts.

This project models that bookkeeping and proves what it guarantees.

Modules, following the program's structure:

- `Wrappers`: `Option` and `Result`.
- `Dict`: a Python dict whose insertion order matters, as an association list. `/api/config`
  exposes the order of `WORD_LISTS`.
- `Prompts`: the constants of `server/prompts.py`.
  - The word-teaching prompt is a template of text pieces and `{word}`/`{category}` placeholders.
  - `Format` fills it as `str.format` does.
- `Sessions`: the configuration constants and the `Session` class.
  - Expiry and remaining time.
  - `get_system_prompt` as `SystemPrompt`.
- `Registry`: the `sessions` dict as a class holding a `map<string, Session>`.
- `Handshake`: the start of `websocket_proxy`.
  - Refusals before any session exists: no API key or an unreadable first message, each answered
    with an error reply, and a first message that is not a JSON object, which ends the handler
    without a reply.
  - Config normalisation (`Settle`) and word selection.
  - `StartSession`, which creates and registers the session. It is proved against `Settle`.
- `Messages`: the setup message, the timer's report and the final goodbye.
- `Api`: the `/api/words/<category>` and `/api/config` routes.

Time is an integer number of seconds, passed in as `now`. When the client sends no session id,
the server generates one from the clock; here that id is an input, `generatedId`. The word catalog
is a parameter of `Settle`, `StartSession` and the routes, and the server passes `WordLists`.
Passing it in makes the source's empty-category branch reachable. Lemmas about `WordLists` itself
cover the real catalog.

The persona, conversation and song prompts are represented by their opening sentence, with the
leading and trailing newline of the originals. The word-teaching template keeps its opening
sentence, the `CURRENT WORD: {word}` and `WORD CATEGORY: {category}` lines and the first sentence
of the closing "Remember" line. It leaves out the four-step TEACHING PATTERN block
(server/prompts.py:46-50) and the closing sentence about repetition and encouragement
(server/prompts.py:55). Nothing in the model depends on the omitted wording.

Some behaviours of the code that a reader might not expect, which the model keeps:

- Expiry is strict. A session is expired only when more than `maxDuration` seconds have passed,
  not when exactly that many have (`ExpiryIsStrict`).
- The registry does not reject a reused session id. The new session overwrites the old one, and
  the old session's teardown then unregisters the new one (`ReusedIdIsOverwritten`).
- The session-end message always gives the reason `"timeout"`. When the upstream loop stops on a
  receive error before expiry, it sends no session-end message at all (`FinalMessage`).
- A first message that is valid JSON but not an object (`null`, a list, a number, a string) gets
  past the error handler: the field lookups then fail, the handler ends with no reply, and no
  session is registered (`Admit`, `StartSession`).
- The mode is not validated. Any string passes through, and an unknown mode gets the conversation
  instruction.
- The `{category}` placeholder of the word template is filled with the word's hint, not with the
  category name (`WordPromptIsFilledTemplate`).

## Model

| member | source | states |
|---|---|---|
| `Dict.Keys` | server/app.py:108 | the keys in insertion order: one per entry, the i-th being the i-th entry's key |
| `Dict.Get` | server/app.py:116-117 | a lookup succeeds exactly for listed keys and returns a value bound to that key |
| `Dict.GetEntry` | server/app.py:163-164 | in a dict without repeated keys, every entry is what its key looks up |
| `Prompts.Format` | server/app.py:76 | formatting fills the pieces in order, so the first piece, filled, opens the text; the rest of its meaning is in `FormatConcat`, `FormatShowsPiece` and `WordTeachingFilled` |
| `Prompts.FormatConcat` | server/app.py:76 | formatting a joined template gives the two formatted texts joined, so each piece is filled on its own |
| `Prompts.FormatShowsPiece` | server/app.py:76 | every piece of a template appears, filled, inside the formatted text |
| `Prompts.FormatShowsWord` | server/prompts.py:52 | a template with a `{word}` placeholder formats to a text containing the word |
| `Prompts.FormatShowsCategory` | server/prompts.py:53 | a template with a `{category}` placeholder formats to a text containing that value |
| `Prompts.WordTeachingFilled` | server/prompts.py:43-56 | the filled word prompt is its intro, the word, the category line with the value, and its outro |
| `Prompts.WordListsHaveUniqueKeys` | server/prompts.py:92-156 | no category of the catalog is listed twice |
| `Prompts.WordListsAreNonEmpty` | server/prompts.py:92-156 | every category of the catalog has at least one word |
| `Prompts.WordListsCategories` | server/prompts.py:92-156 | the categories, in declared order, are animals, food, family, body, things, actions, colors |
| `Sessions.Session.constructor` | server/app.py:54-62 | a new session holds the given id, mode, voice and budget, starts now, and has no word, word index 0 and 0 stars; mode, voice and budget default to conversation, Aoede and 600 |
| `Sessions.Session.IsExpired` | server/app.py:64-65 | an expired session has 0 seconds left and a live one has its budget minus the elapsed time; strictness and monotonicity are in `ExpiryIsStrict` and `ExpiryIsMonotone` |
| `Sessions.Session.Prompt` | server/app.py:70-80 | a session's instruction opens with the persona and a blank line, is the song text in song mode and the conversation text in any mode other than songs and words; the word case is in `WordPromptIsFilledTemplate` |
| `Sessions.Addendum` | server/app.py:74-80 | the mode text is never empty, is the song text if and only if the mode is songs, and is the conversation text if and only if the mode is neither songs nor words with a current word |
| `Sessions.Session.TimeRemaining` | server/app.py:67-68 | the remaining time is never negative and is either 0 or the budget minus the elapsed time, whichever is larger |
| `Sessions.SystemPrompt` | server/app.py:70-80 | the instruction is always the persona, a blank line, then the mode's addendum |
| `Sessions.ExpiryIsStrict` | server/app.py:64-65 | expired exactly when now is past start plus budget; at the deadline itself the session is still live, with 0 seconds left |
| `Sessions.ExpiryIsMonotone` | server/app.py:64-65 | a session expired at t is expired at every later t' |
| `Sessions.RemainingNeverGrows` | server/app.py:67-68 | the remaining time does not increase as time passes |
| `Sessions.RemainingWithinBudget` | server/app.py:64-68 | for a clock at or after the start and a non-negative budget, 0 <= remaining <= budget, and remaining is 0 once the budget is spent or the session has expired |
| `Sessions.FreshSessionIsLive` | server/app.py:54-68 | at its start a session is live exactly when its budget is non-negative, and then has its whole budget left |
| `Sessions.NewSessionState` | server/app.py:54-68 | a session built with the constructor's defaults is live at creation with 600 seconds left |
| `Sessions.WordPromptIsFilledTemplate` | server/app.py:74-76 | in word mode with a word, the addendum is the template filled with the word and its hint |
| `Sessions.WordPromptNamesWord` | server/app.py:74-76 | in word mode with a word, the instruction contains both the word and its hint |
| `Sessions.SongPromptOnlyForSongs` | server/app.py:77-78 | the instruction is the song one if and only if the mode is songs |
| `Sessions.ConversationIsTheFallback` | server/app.py:74-80 | the instruction is the conversation one if and only if the mode is neither songs nor words with a current word, so unknown modes and word mode without a word fall back to it |
| `Registry.Removed` | server/app.py:256-258 | after teardown the id is absent, the other keys are those before, and their sessions are unchanged |
| `Registry.RemovedTwice` | server/app.py:256-258 | teardown is idempotent |
| `Registry.RemovingAbsentIsNoOp` | server/app.py:257 | teardown of an unregistered id leaves the registry as it was |
| `Registry.InsertThenRemove` | server/app.py:168 | registering a fresh id and tearing it down restores the registry |
| `Registry.ReusedIdIsOverwritten` | server/app.py:168 | a second session under a live id replaces the first, and one teardown then leaves the id unregistered |
| `Registry.SessionRegistry.constructor` | server/app.py:48 | the registry starts empty |
| `Registry.SessionRegistry.Register` | server/app.py:168 | the id now maps to the new session, overwriting any earlier one; every other key and session is unchanged |
| `Registry.SessionRegistry.Unregister` | server/app.py:257-258 | the registry becomes `Removed(old, id)`, and stays the same when the id was absent |
| `Handshake.Admit` | server/app.py:137-153 | the first message is admitted exactly when an API key is set and it decodes to an object; otherwise the key error reply comes first, then the config error reply with its reason, and a non-object makes the handler fail with no reply |
| `Handshake.NormalizeVoice` | server/app.py:155-157 | the result is always an allowed voice: an allowed voice is kept, anything else becomes the default |
| `Handshake.SelectWord` | server/app.py:163-166 | a word is chosen if and only if the mode is words and the category is known and non-empty; it is then that category's first pair |
| `Handshake.Settle` | server/app.py:149-166 | id, mode and budget take the client's value or their default, with mode unchecked; the voice is the client's (or default) voice normalised, so always allowed; the word is the one selected for the mode and the client's category, defaulting to animals, and exists only in word mode |
| `Handshake.AllowedVoiceIsKept` | server/app.py:156-157 | a client that names an allowed voice gets exactly that voice |
| `Handshake.UnknownVoiceBecomesDefault` | server/app.py:151 | a missing or unknown voice ends up as the default voice rather than an error |
| `Handshake.DefaultsOfEmptyConfig` | server/app.py:149-153 | an empty configuration gives the generated id, conversation mode, the default voice, 600 seconds and no word |
| `Handshake.KnownCategoryStartsOnFirstWord` | server/app.py:163-166 | in word mode, a non-empty category of a catalog without repeated keys starts on its first pair |
| `Handshake.CategoriesAllHaveWords` | server/app.py:165 | when no category is empty, word mode finds a word for every known category |
| `Handshake.EveryCategoryHasAWord` | server/prompts.py:92-156 | with the server's catalog, every category gives word mode a word |
| `Handshake.DefaultCategoryStartsOnDog` | server/app.py:153 | word mode with no category, or with the animals, starts on ("dog", its hint) |
| `Handshake.AnimalsPromptNamesDog` | server/app.py:163-166 | word mode with the animals gives an instruction containing "dog" and its hint |
| `Handshake.NoWordWithoutKnownCategory` | server/app.py:163-166 | outside word mode, or with an unknown or empty category, there is no word, and the instruction is the song one in song mode and the conversation one otherwise |
| `Handshake.StartSession` | server/app.py:137-168 | on every refusal (error reply or handler failure) nothing is registered and the refusal is returned; otherwise a fresh session with the settled fields, start time now, no stars, stored under its id |
| `Messages.SetupFor` | server/app.py:177-194 | the setup names `models/` + the model, asks only for AUDIO, uses the session's voice, and carries the session's instruction as its one part |
| `Messages.SetupInstructionOpensWithPersona` | server/app.py:190-192 | the instruction sent upstream begins with the persona and a blank line |
| `Messages.SetupNamesCurrentWord` | server/app.py:190-192 | in word mode with a word, the setup's instruction contains the word and its hint |
| `Messages.TimerReport` | server/app.py:239-245 | the timer's report carries the stars and the session's remaining time, which is never negative |
| `Messages.PickGoodbye` | server/app.py:226 | the goodbye is one of the closing phrases |
| `Messages.FinalMessage` | server/app.py:224-233 | a session-end message is sent if and only if the session has expired; it then has reason timeout, a closing phrase and the stars |
| `Messages.NoGoodbyeBeforeDeadline` | server/app.py:225 | up to the deadline no goodbye is sent and the timer reports the budget minus elapsed time |
| `Api.GetWords` | server/app.py:113-118 | an unknown category gives no words; a known one gives its pairs, in order, as word/hint records |
| `Api.SessionWordLeadsTheList` | server/app.py:117 | the word a word-mode session starts on is the first record the words route lists |
| `Api.GetConfig` | server/app.py:101-110 | the configuration lists the voices and the default voice, which is among them, the three modes, the categories in order and the 600-second budget |
| `Api.AdvertisedVoicesAreKept` | server/app.py:105-106 | every advertised voice, and the default, survives normalisation unchanged |
| `Api.AdvertisedModesHaveInstructions` | server/app.py:107 | with no word, songs gets the song instruction, and conversation and words get the conversation one |
| `Api.AdvertisedCategoriesHaveWords` | server/app.py:108 | every advertised category lists words and gives word mode a word |

## Left out

- The three relay loops, `asyncio.gather` and their polling timeouts (server/app.py:202-251) are not modelled, because they are concurrent socket I/O. Only the messages they build are modelled (`TimerReport`, `FinalMessage`).
- The WebSocket connection to Gemini, `ws.send`/`ws.receive`, and the proxy's exception path that reports an error and always tears down (server/app.py:171-175, 195-199, 253-258) are not modelled, because they are network I/O. The teardown itself is `Unregister`.
- JSON decoding of the first message is not modelled. A field absent from the message is `None`; a message that is not an object is `NotAnObject`. Field values of the wrong JSON type (a `null` mode, a numeric voice, a string budget) are not modelled.
- Sessions.Session.TimeRemaining: uses integer seconds where the source uses the floating-point result of `time.time()`.
- Handshake.Settle: the budget is taken as the client sends it, unvalidated, as in the source; non-integer budgets are not modelled.
- The Flask routes that serve files (`/`, `/parent`, `/assets`), the `.env` loading and the start-up banner are not modelled, because they are HTTP and file I/O.
- The greeting and encouragement routes are not modelled, because each only returns `random.choice` of a constant list. The goodbye's random choice is an index parameter (`PickGoodbye`).
- `word_index` and `stars` are kept as fields but nothing in the server changes them, so no operation on them is modelled.
- `python/live_audio.py`, `test_setup.py`, `python/audio_test.py`, `js/audio_test.js` and `js/live_audio.js` are not part of this model. They are command-line clients of the audio hardware and of the Gemini SDK.
