/**
 * The start of `websocket_proxy` in `server/app.py`: admitting the client's first
 * message, normalising its session configuration, choosing the first word in word
 * mode, and registering the new session.
 *
 * JSON decoding is not modelled: the first message arrives as a decoded
 * configuration object, whose absent fields are `None`; as unreadable, with the
 * receive or decode error's text; or as valid JSON that is not an object, on which
 * the field lookups fail outside the error handler. The id generated from the clock when the client sends
 * none is an input.
 */
module Handshake {
  import opened Wrappers
  import opened Dict
  import opened Prompts
  import opened Sessions
  import opened Registry

  datatype ClientConfig = ClientConfig(
    sessionId: Option<string>,
    mode: Option<string>,
    voice: Option<string>,
    maxDuration: Option<int>,
    wordCategory: Option<string>)

  datatype FirstMessage = Received(config: ClientConfig) | Unreadable(reason: string) | NotAnObject

  /** Why no session starts: an error reply to the client, or the handler failing without a reply. */
  datatype Refusal = ErrorReply(text: string) | HandlerFails

  const ApiKeyMissing: string := "API key not configured"

  /**
   * The refusals before any session exists, in the source's order: no API key, then an
   * unreadable first message, both answered with an error reply. JSON that is not an
   * object gets past the error handler and makes the handler fail with no reply.
   */
  function Admit(apiKey: string, first: FirstMessage): (r: Result<ClientConfig, Refusal>)
    ensures r.Ok? <==> apiKey != "" && first.Received?
    ensures r.Ok? ==> r.value == first.config
    ensures apiKey == "" ==> r == Err(ErrorReply(ApiKeyMissing))
    ensures apiKey != "" && first.Unreadable? ==> r == Err(ErrorReply("Invalid config: " + first.reason))
    ensures apiKey != "" && first.NotAnObject? ==> r == Err(HandlerFails)
  {
    if apiKey == "" then Err(ErrorReply(ApiKeyMissing))
    else match first
      case Unreadable(reason) => Err(ErrorReply("Invalid config: " + reason))
      case NotAnObject => Err(HandlerFails)
      case Received(config) => Ok(config)
  }

  /** An unknown voice is replaced by the default; a known one is kept. */
  function NormalizeVoice(voice: string): (r: string)
    ensures r in Voices
    ensures voice in Voices ==> r == voice
    ensures voice !in Voices ==> r == DefaultVoice
  {
    if voice in Voices then voice else DefaultVoice
  }

  /** The word a session starts on: only in word mode, and only for a known, non-empty category. */
  function SelectWord(catalog: Dict<string, seq<WordPair>>, mode: string, category: string): (w: Option<WordPair>)
    ensures w.Some? <==> mode == "words" && category in Keys(catalog) && |Get(catalog, category).value| > 0
    ensures w.Some? ==> w.value == Get(catalog, category).value[0]
  {
    var words := Get(catalog, category);
    if mode == "words" && words.Some? && |words.value| > 0 then Some(words.value[0]) else None
  }

  /** The settings a session is created with. */
  datatype Settings = Settings(id: string, mode: string, voice: string, maxDuration: int, currentWord: Option<WordPair>)

  /**
   * Defaults for absent fields, voice normalisation, and the first word of the chosen
   * category. The server passes `WordLists` as the catalog.
   */
  function Settle(cfg: ClientConfig, catalog: Dict<string, seq<WordPair>>, generatedId: string): (n: Settings)
    ensures n.voice in Voices
    ensures n.voice == NormalizeVoice(cfg.voice.GetOr(DefaultVoice))
    ensures n.id == cfg.sessionId.GetOr(generatedId)
    ensures n.mode == cfg.mode.GetOr("conversation")
    ensures n.maxDuration == cfg.maxDuration.GetOr(MaxSessionDuration)
    ensures n.currentWord == SelectWord(catalog, n.mode, cfg.wordCategory.GetOr("animals"))
    ensures n.currentWord.Some? ==> n.mode == "words"
  {
    var mode := cfg.mode.GetOr("conversation");
    Settings(
      cfg.sessionId.GetOr(generatedId),
      mode,
      NormalizeVoice(cfg.voice.GetOr(DefaultVoice)),
      cfg.maxDuration.GetOr(MaxSessionDuration),
      SelectWord(catalog, mode, cfg.wordCategory.GetOr("animals")))
  }

  /** A client that names an allowed voice gets that voice. */
  lemma AllowedVoiceIsKept(cfg: ClientConfig, catalog: Dict<string, seq<WordPair>>, generatedId: string, voice: string)
    requires cfg.voice == Some(voice) && voice in Voices
    ensures Settle(cfg, catalog, generatedId).voice == voice
  {
  }

  /** A client that names no voice, or an unknown one, gets the default voice. */
  lemma UnknownVoiceBecomesDefault(cfg: ClientConfig, catalog: Dict<string, seq<WordPair>>, generatedId: string)
    requires cfg.voice.None? || cfg.voice.value !in Voices
    ensures Settle(cfg, catalog, generatedId).voice == DefaultVoice
  {
  }

  /** An empty configuration gives the generated id, a conversation session, the default voice, 600 seconds and no word. */
  lemma DefaultsOfEmptyConfig(catalog: Dict<string, seq<WordPair>>, generatedId: string)
    ensures Settle(ClientConfig(None, None, None, None, None), catalog, generatedId)
            == Settings(generatedId, "conversation", DefaultVoice, MaxSessionDuration, None)
  {
  }

  /** In word mode, every non-empty category of a catalog without repeated keys starts on its first word. */
  lemma KnownCategoryStartsOnFirstWord(cfg: ClientConfig, catalog: Dict<string, seq<WordPair>>, generatedId: string, i: nat)
    requires UniqueKeys(catalog)
    requires cfg.mode == Some("words")
    requires i < |catalog| && |catalog[i].1| > 0
    requires cfg.wordCategory == Some(catalog[i].0)
    ensures Settle(cfg, catalog, generatedId).currentWord == Some(catalog[i].1[0])
  {
    GetEntry(catalog, i);
  }

  /** In a catalog whose categories are all non-empty, word mode finds a word for every category. */
  lemma CategoriesAllHaveWords(catalog: Dict<string, seq<WordPair>>, category: string)
    requires forall i :: 0 <= i < |catalog| ==> |catalog[i].1| > 0
    requires category in Keys(catalog)
    ensures SelectWord(catalog, "words", category).Some?
  {
    var words := Get(catalog, category).value;
    var i :| 0 <= i < |catalog| && catalog[i] == (category, words);
  }

  /** With the server's catalog, every category of word mode has a first word. */
  lemma EveryCategoryHasAWord(category: string)
    requires category in Keys(WordLists)
    ensures SelectWord(WordLists, "words", category).Some?
  {
    WordListsAreNonEmpty();
    CategoriesAllHaveWords(WordLists, category);
  }

  /** Word mode without a category uses the animals, whose first word is "dog". */
  lemma DefaultCategoryStartsOnDog(cfg: ClientConfig, generatedId: string)
    requires cfg.mode == Some("words")
    requires cfg.wordCategory.None? || cfg.wordCategory == Some("animals")
    ensures Settle(cfg, WordLists, generatedId).currentWord == Some(("dog", "A furry friend that says woof!"))
  {
    assert Get(WordLists, "animals") == Some(WordLists[0].1);
  }

  /** In word mode with the animals, the system instruction names "dog" and its hint. */
  lemma AnimalsPromptNamesDog(cfg: ClientConfig, generatedId: string)
    requires cfg.mode == Some("words")
    requires cfg.wordCategory.None? || cfg.wordCategory == Some("animals")
    ensures var n := Settle(cfg, WordLists, generatedId);
            Contains(SystemPrompt(n.mode, n.currentWord), "dog")
            && Contains(SystemPrompt(n.mode, n.currentWord), "A furry friend that says woof!")
  {
    DefaultCategoryStartsOnDog(cfg, generatedId);
    WordPromptNamesWord("words", "dog", "A furry friend that says woof!");
  }

  /**
   * Outside word mode, or with a category the catalog lacks or has empty, the session has
   * no word and so gets the song or the conversation instruction.
   */
  lemma NoWordWithoutKnownCategory(cfg: ClientConfig, catalog: Dict<string, seq<WordPair>>, generatedId: string)
    requires var category := cfg.wordCategory.GetOr("animals");
             cfg.mode != Some("words") || category !in Keys(catalog) || |Get(catalog, category).value| == 0
    ensures var n := Settle(cfg, catalog, generatedId);
            n.currentWord.None?
            && SystemPrompt(n.mode, n.currentWord)
               == TeacherPersona + "\n\n" + (if n.mode == "songs" then SongAddendum else ConversationAddendum)
  {
    var n := Settle(cfg, catalog, generatedId);
    if n.mode == "songs" {
      SongPromptOnlyForSongs(n.mode, n.currentWord);
    } else {
      ConversationIsTheFallback(n.mode, n.currentWord);
    }
  }

  /**
   * Admit the first message, create the session from it and register it.
   * On every refusal nothing is registered and the refusal is returned.
   */
  method StartSession(registry: SessionRegistry, catalog: Dict<string, seq<WordPair>>,
                      apiKey: string, first: FirstMessage, generatedId: string, now: int)
    returns (r: Result<Session, Refusal>)
    modifies registry
    ensures r.Ok? <==> Admit(apiKey, first).Ok?
    ensures r.Err? ==> Admit(apiKey, first) == Err(r.error) && registry.sessions == old(registry.sessions)
    ensures r.Ok? ==>
              var s, n := r.value, Settle(first.config, catalog, generatedId);
              && fresh(s)
              && s.id == n.id && s.mode == n.mode && s.voice == n.voice
              && s.startTime == now && s.maxDuration == n.maxDuration
              && s.currentWord == n.currentWord && s.wordIndex == 0 && s.stars == 0
              && registry.sessions == old(registry.sessions)[s.id := s]
  {
    var admitted := Admit(apiKey, first);
    if admitted.Err? {
      return Err(admitted.error);
    }
    var config := admitted.value;
    var sessionId := config.sessionId.GetOr(generatedId);
    var mode := config.mode.GetOr("conversation");
    var voice := config.voice.GetOr(DefaultVoice);
    var maxDuration := config.maxDuration.GetOr(MaxSessionDuration);
    var wordCategory := config.wordCategory.GetOr("animals");

    if voice !in Voices {
      voice := DefaultVoice;
    }

    var session := new Session(sessionId, now, mode, voice, maxDuration);

    var found := Get(catalog, wordCategory);
    if mode == "words" && found.Some? {
      var words := found.value;
      if |words| > 0 {
        session.currentWord := Some(words[0]);
      }
    }

    registry.Register(sessionId, session);
    r := Ok(session);
  }
}
