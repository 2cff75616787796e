/**
 * The messages `server/app.py` builds around the relay: the one setup message sent
 * upstream, and the control messages it sends the client.
 *
 * The relay loops that send them are not modelled; `pick` stands for the random
 * choice among the closing phrases.
 */
module Messages {
  import opened Wrappers
  import opened Prompts
  import opened Sessions

  datatype Part = Part(text: string)

  /** `generation_config`: the requested modalities and the prebuilt voice's name. */
  datatype GenerationConfig = GenerationConfig(responseModalities: seq<string>, voiceName: string)

  datatype SetupMessage = Setup(model: string, generationConfig: GenerationConfig, systemInstruction: seq<Part>)

  /** The handshake sent upstream before anything else: model, audio output, the session's voice and instruction. */
  function SetupFor(s: Session): (m: SetupMessage)
    reads s
    ensures m.model == "models/" + Model
    ensures m.generationConfig.responseModalities == ["AUDIO"]
    ensures m.generationConfig.voiceName == s.voice
    ensures m.systemInstruction == [Part(s.Prompt())]
  {
    Setup("models/" + Model, GenerationConfig(["AUDIO"], s.voice), [Part(s.Prompt())])
  }

  /** The instruction sent upstream always opens with the persona and a blank line. */
  lemma SetupInstructionOpensWithPersona(s: Session)
    ensures var text := SetupFor(s).systemInstruction[0].text;
            |text| > |TeacherPersona| + 2 && text[..|TeacherPersona| + 2] == TeacherPersona + "\n\n"
  {
  }

  /** In word mode with a current word, the setup message names the word and its hint. */
  lemma SetupNamesCurrentWord(s: Session)
    requires s.mode == "words" && s.currentWord.Some?
    ensures Contains(SetupFor(s).systemInstruction[0].text, s.currentWord.value.0)
    ensures Contains(SetupFor(s).systemInstruction[0].text, s.currentWord.value.1)
  {
    WordPromptNamesWord(s.mode, s.currentWord.value.0, s.currentWord.value.1);
  }

  datatype ControlMessage =
    | TimeUpdate(remaining: int, stars: int)
    | SessionEnd(reason: string, message: string, stars: int)

  /** The timer's report: the remaining time, never negative, and the stars so far. */
  function TimerReport(s: Session, now: int): (m: ControlMessage)
    reads s
    ensures m.TimeUpdate? && m.stars == s.stars
    ensures m.remaining == s.TimeRemaining(now)
    ensures m.remaining >= 0
    ensures m.remaining == 0 || m.remaining == s.maxDuration - (now - s.startTime)
  {
    TimeUpdate(s.TimeRemaining(now), s.stars)
  }

  /** `random.choice(GOODBYES)`, with `pick` as the random index. */
  function PickGoodbye(pick: nat): (g: string)
    ensures g in Goodbyes
  {
    Goodbyes[pick % |Goodbyes|]
  }

  /**
   * What the upstream-to-client loop sends when it stops: a timeout goodbye if the session
   * has expired by then, and nothing if it stopped early on a receive error.
   */
  function FinalMessage(s: Session, now: int, pick: nat): (m: Option<ControlMessage>)
    reads s
    ensures m.Some? <==> s.IsExpired(now)
    ensures m.Some? ==> m.value.SessionEnd? && m.value.reason == "timeout"
                        && m.value.message in Goodbyes && m.value.stars == s.stars
  {
    if s.IsExpired(now) then Some(SessionEnd("timeout", PickGoodbye(pick), s.stars)) else None
  }

  /** A goodbye is sent only after the budget is spent: never at or before the deadline. */
  lemma NoGoodbyeBeforeDeadline(s: Session, now: int, pick: nat)
    requires now <= s.startTime + s.maxDuration
    ensures FinalMessage(s, now, pick).None?
    ensures TimerReport(s, now).remaining == s.maxDuration - (now - s.startTime)
  {
  }
}
