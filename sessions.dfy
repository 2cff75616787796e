/**
 * The configuration constants and the `Session` record of `server/app.py`.
 *
 * Time is an integer count of seconds passed in as `now`; the session's start
 * time is the `now` given to its constructor.
 */
module Sessions {
  import opened Wrappers
  import opened Prompts

  const Model: string := "gemini-2.5-flash-native-audio-preview-12-2025"

  /** The voices a session may use; anything else is replaced by `DefaultVoice`. */
  const Voices: seq<string> := ["Aoede", "Leda", "Puck"]
  const DefaultVoice: string := "Aoede"

  /** Session length in seconds when the client asks for none. */
  const MaxSessionDuration: int := 600

  class Session {
    const id: string
    const mode: string
    const voice: string
    const startTime: int
    const maxDuration: int
    var currentWord: Option<WordPair>
    var wordIndex: int
    var stars: int

    constructor (sessionId: string, now: int, mode: string := "conversation",
                 voice: string := DefaultVoice, maxDuration: int := MaxSessionDuration)
      ensures id == sessionId && this.mode == mode && this.voice == voice
      ensures startTime == now && this.maxDuration == maxDuration
      ensures currentWord == None && wordIndex == 0 && stars == 0
    {
      id := sessionId;
      this.mode := mode;
      this.voice := voice;
      startTime := now;
      this.maxDuration := maxDuration;
      currentWord := None;
      wordIndex := 0;
      stars := 0;
    }

    /**
     * More than `maxDuration` seconds have passed since the start: an expired session
     * has nothing left, a live one has the budget less the time spent.
     */
    function IsExpired(now: int): (expired: bool)
      ensures expired ==> TimeRemaining(now) == 0
      ensures !expired ==> TimeRemaining(now) == maxDuration - (now - startTime)
    {
      now - startTime > maxDuration
    }

    /** The seconds left, never below zero. */
    function TimeRemaining(now: int): (r: int)
      ensures r >= 0 && r >= maxDuration - (now - startTime)
      ensures r == 0 || r == maxDuration - (now - startTime)
    {
      var left := maxDuration - (now - startTime);
      if left > 0 then left else 0
    }

    /** `get_system_prompt` of this session: the persona first, then its mode's text. */
    function Prompt(): (r: string)
      reads this
      ensures TeacherPersona + "\n\n" <= r
      ensures mode == "songs" ==> r == TeacherPersona + "\n\n" + SongAddendum
      ensures mode != "songs" && mode != "words" ==> r == TeacherPersona + "\n\n" + ConversationAddendum
    {
      SystemPrompt(mode, currentWord)
    }
  }

  /**
   * The mode-specific text that follows the persona: the song text exactly in song
   * mode, the conversation text exactly when there is neither a song nor a word.
   */
  function Addendum(mode: string, currentWord: Option<WordPair>): (r: string)
    ensures |r| > 0
    ensures r == SongAddendum <==> mode == "songs"
    ensures r == ConversationAddendum <==> mode != "songs" && !(mode == "words" && currentWord.Some?)
  {
    if mode == "words" && currentWord.Some? then
      AddendumsDiffer(currentWord.value);
      WordTeachingFilled(currentWord.value.0, currentWord.value.1);
      Format(WordTeachingTemplate, currentWord.value.0, currentWord.value.1)
    else if mode == "songs" then
      SongAddendum
    else
      ConversationAddendum
  }

  /** The system instruction: persona, a blank line, then the mode's addendum. */
  function SystemPrompt(mode: string, currentWord: Option<WordPair>): (r: string)
    ensures |r| > |TeacherPersona| + 2
    ensures r[..|TeacherPersona| + 2] == TeacherPersona + "\n\n"
    ensures r[|TeacherPersona| + 2..] == Addendum(mode, currentWord)
  {
    TeacherPersona + "\n\n" + Addendum(mode, currentWord)
  }

  // ----- Expiry and remaining time -----

  /** Expiry is strict: at exactly `maxDuration` seconds the session is still live. */
  lemma ExpiryIsStrict(s: Session, now: int)
    ensures s.IsExpired(now) <==> now > s.startTime + s.maxDuration
    ensures !s.IsExpired(s.startTime + s.maxDuration)
    ensures s.TimeRemaining(s.startTime + s.maxDuration) == 0
  {
  }

  /** Once expired, a session stays expired. */
  lemma ExpiryIsMonotone(s: Session, t: int, t': int)
    requires t <= t'
    requires s.IsExpired(t)
    ensures s.IsExpired(t')
  {
  }

  /** Remaining time never grows as time passes. */
  lemma RemainingNeverGrows(s: Session, t: int, t': int)
    requires t <= t'
    ensures s.TimeRemaining(t') <= s.TimeRemaining(t)
  {
  }

  /** With a non-negative clock offset and budget, the remaining time lies within the budget. */
  lemma RemainingWithinBudget(s: Session, now: int)
    requires s.startTime <= now
    requires s.maxDuration >= 0
    ensures 0 <= s.TimeRemaining(now) <= s.maxDuration
    ensures now - s.startTime >= s.maxDuration ==> s.TimeRemaining(now) == 0
    ensures s.IsExpired(now) ==> s.TimeRemaining(now) == 0
  {
  }

  /** A session is live at its start exactly when its budget is not negative, and then has its whole budget left. */
  lemma FreshSessionIsLive(s: Session)
    ensures !s.IsExpired(s.startTime) <==> s.maxDuration >= 0
    ensures s.maxDuration >= 0 ==> s.TimeRemaining(s.startTime) == s.maxDuration
  {
  }

  /** What the constructor leaves behind, including the defaults of the optional parameters. */
  method NewSessionState(sessionId: string, now: int) returns (live: bool, remaining: int)
    ensures live && remaining == MaxSessionDuration
  {
    var s := new Session(sessionId, now);
    assert s.mode == "conversation" && s.voice == DefaultVoice && s.stars == 0 && s.currentWord == None;
    live := !s.IsExpired(now);
    remaining := s.TimeRemaining(now);
  }

  // ----- System prompt -----

  /** In word mode with a current word, the instruction is the word template filled with the word and its hint. */
  lemma WordPromptIsFilledTemplate(mode: string, word: string, hint: string)
    requires mode == "words"
    ensures SystemPrompt(mode, Some((word, hint)))[|TeacherPersona| + 2..] == WordIntro + word + WordMiddle + hint + WordOutro
  {
    WordTeachingFilled(word, hint);
  }

  /** ... and so names both the word and its hint. */
  lemma WordPromptNamesWord(mode: string, word: string, hint: string)
    requires mode == "words"
    ensures Contains(SystemPrompt(mode, Some((word, hint))), word)
    ensures Contains(SystemPrompt(mode, Some((word, hint))), hint)
  {
    var p := SystemPrompt(mode, Some((word, hint)));
    assert p[|TeacherPersona| + 2..] == Format(WordTeachingTemplate, word, hint);
    FormatShowsWord(WordTeachingTemplate, word, hint);
    FormatShowsCategory(WordTeachingTemplate, word, hint);
    ContainsInSuffix(p, |TeacherPersona| + 2, word);
    ContainsInSuffix(p, |TeacherPersona| + 2, hint);
  }

  lemma ContainsInSuffix(text: string, k: nat, part: string)
    requires k <= |text|
    requires Contains(text[k..], part)
    ensures Contains(text, part)
  {
    var i :| 0 <= i <= |text[k..]| && part <= text[k..][i..];
    assert text[k..][i..] == text[k + i..];
  }

  /** The instruction is the song one exactly in song mode (from the contract of `Addendum`). */
  lemma SongPromptOnlyForSongs(mode: string, currentWord: Option<WordPair>)
    ensures SystemPrompt(mode, currentWord) == TeacherPersona + "\n\n" + SongAddendum <==> mode == "songs"
  {
  }

  /**
   * Every case that is neither song mode nor word mode with a current word gets the
   * conversation instruction, unknown modes and word mode without a word included
   * (from the contract of `Addendum`).
   */
  lemma ConversationIsTheFallback(mode: string, currentWord: Option<WordPair>)
    ensures SystemPrompt(mode, currentWord) == TeacherPersona + "\n\n" + ConversationAddendum
            <==> mode != "songs" && !(mode == "words" && currentWord.Some?)
  {
  }

  /** The three addenda are told apart by their opening words. */
  lemma AddendumsDiffer(w: WordPair)
    ensures Format(WordTeachingTemplate, w.0, w.1) != SongAddendum
    ensures Format(WordTeachingTemplate, w.0, w.1) != ConversationAddendum
    ensures SongAddendum != ConversationAddendum
  {
    WordTeachingFilled(w.0, w.1);
    var f := Format(WordTeachingTemplate, w.0, w.1);
    assert f[9] == WordIntro[9] == 't';
    assert SongAddendum[9] == 's';
    assert ConversationAddendum[9] == 'h';
  }
}
