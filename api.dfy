/** The JSON routes `/api/words/<category>` and `/api/config` of `server/app.py`. */
module Api {
  import opened Wrappers
  import opened Dict
  import opened Prompts
  import opened Sessions
  import opened Handshake

  datatype WordRecord = WordRecord(word: string, hint: string)

  /** The words of a category as records, or none for an unknown category. The server passes `WordLists`. */
  function GetWords(catalog: Dict<string, seq<WordPair>>, category: string): (r: seq<WordRecord>)
    ensures category !in Keys(catalog) ==> r == []
    ensures category in Keys(catalog) ==>
              var words := Get(catalog, category).value;
              |r| == |words| && forall i :: 0 <= i < |r| ==> r[i] == WordRecord(words[i].0, words[i].1)
  {
    match Get(catalog, category)
    case None => []
    case Some(words) => seq(|words|, i requires 0 <= i < |words| => WordRecord(words[i].0, words[i].1))
  }

  /** The word a word-mode session starts on is the first word the route lists for its category. */
  lemma SessionWordLeadsTheList(catalog: Dict<string, seq<WordPair>>, category: string)
    requires SelectWord(catalog, "words", category).Some?
    ensures var w := SelectWord(catalog, "words", category).value;
            |GetWords(catalog, category)| > 0 && GetWords(catalog, category)[0] == WordRecord(w.0, w.1)
  {
  }

  datatype AppConfig = AppConfig(
    voices: seq<string>,
    defaultVoice: string,
    modes: seq<string>,
    wordCategories: seq<string>,
    maxSessionDuration: int)

  /** The client-visible configuration; it holds no secret. */
  function GetConfig(catalog: Dict<string, seq<WordPair>>): (c: AppConfig)
    ensures c.voices == Voices && c.defaultVoice in c.voices
    ensures c.defaultVoice == DefaultVoice
    ensures c.modes == ["conversation", "words", "songs"]
    ensures c.wordCategories == Keys(catalog)
    ensures c.maxSessionDuration == MaxSessionDuration
  {
    AppConfig(Voices, DefaultVoice, ["conversation", "words", "songs"], Keys(catalog), MaxSessionDuration)
  }

  /** Every advertised voice survives normalisation unchanged, and so does the default. */
  lemma AdvertisedVoicesAreKept(catalog: Dict<string, seq<WordPair>>, voice: string)
    requires voice in GetConfig(catalog).voices || voice == GetConfig(catalog).defaultVoice
    ensures NormalizeVoice(voice) == voice
  {
  }

  /** Each advertised mode gets its own instruction when the session has no word. */
  lemma AdvertisedModesHaveInstructions(catalog: Dict<string, seq<WordPair>>)
    ensures SystemPrompt(GetConfig(catalog).modes[2], None) == TeacherPersona + "\n\n" + SongAddendum
    ensures SystemPrompt(GetConfig(catalog).modes[0], None) == TeacherPersona + "\n\n" + ConversationAddendum
    ensures SystemPrompt(GetConfig(catalog).modes[1], None) == TeacherPersona + "\n\n" + ConversationAddendum
  {
  }

  /** Every category the server advertises lists words and gives a word-mode session its first word. */
  lemma AdvertisedCategoriesHaveWords(category: string)
    requires category in GetConfig(WordLists).wordCategories
    ensures |GetWords(WordLists, category)| > 0
    ensures SelectWord(WordLists, "words", category).Some?
  {
    EveryCategoryHasAWord(category);
    SessionWordLeadsTheList(WordLists, category);
  }
}
