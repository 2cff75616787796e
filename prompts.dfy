/**
 * The constant prompt texts and word catalog of `server/prompts.py`.
 *
 * The persona, conversation and song texts are stood in for by their opening
 * sentence, with the leading and trailing newline that the triple-quoted originals
 * have; the model only relies on which text is which. The word-teaching prompt is a
 * template with a `{word}` and a `{category}` placeholder that keeps its opening, its
 * word and category lines and the first sentence of its closing line, but not its
 * teaching-pattern steps. `Format` fills it the way `str.format(word=..., category=...)` does.
 */
module Prompts {
  import opened Dict

  /** The base persona that begins every system instruction. */
  const TeacherPersona: string :=
    "\nYou are TinyTalk, a friendly and patient speech teacher for toddlers ages 2-4.\n"

  const ConversationAddendum: string := "\nYou are having a simple chat with a toddler.\n"

  const SongAddendum: string := "\nYou are singing simple songs with a toddler.\n"

  /** One piece of a format template: literal text or a named placeholder. */
  datatype Piece = Text(text: string) | WordSlot | CategorySlot

  type Template = seq<Piece>

  /** The word-teaching addendum's opening sentence and the literal text before the word. */
  const WordTeachingOpening: string := "\nYou are teaching a toddler to say specific words.\n"
  const WordIntro: string := WordTeachingOpening + "\nCURRENT WORD: "
  const WordMiddle: string := "\nWORD CATEGORY: "
  const WordOutro: string := "\n\nRemember: Celebrate effort, not perfection.\n"

  /** The word-teaching addendum, with its `{word}` and `{category}` placeholders. */
  const WordTeachingTemplate: Template := [Text(WordIntro), WordSlot, Text(WordMiddle), CategorySlot, Text(WordOutro)]

  function Fill(p: Piece, word: string, category: string): string {
    match p
    case Text(s) => s
    case WordSlot => word
    case CategorySlot => category
  }

  /**
   * `template.format(word=word, category=category)`: the pieces are filled in order,
   * so the first one, filled, opens the text.
   */
  function Format(t: Template, word: string, category: string): (r: string)
    ensures t != [] ==> Fill(t[0], word, category) <= r
  {
    if t == [] then "" else Fill(t[0], word, category) + Format(t[1..], word, category)
  }

  /** `part in text` for strings. */
  ghost predicate Contains(text: string, part: string) {
    exists i :: 0 <= i <= |text| && part <= text[i..]
  }

  lemma {:induction false} FormatConcat(a: Template, b: Template, word: string, category: string)
    ensures Format(a + b, word, category) == Format(a, word, category) + Format(b, word, category)
  {
    if a == [] {
      assert a + b == b;
    } else {
      assert (a + b)[0] == a[0];
      assert (a + b)[1..] == a[1..] + b;
      FormatConcat(a[1..], b, word, category);
    }
  }

  /** Every piece of a template shows up, filled, in the formatted text. */
  lemma FormatShowsPiece(t: Template, word: string, category: string, k: nat)
    requires k < |t|
    ensures Contains(Format(t, word, category), Fill(t[k], word, category))
  {
    var pre, post := t[..k], t[k + 1..];
    assert t == pre + [t[k]] + post;
    FormatConcat(pre + [t[k]], post, word, category);
    FormatConcat(pre, [t[k]], word, category);
    assert Format([t[k]], word, category) == Fill(t[k], word, category);
    var text := Format(t, word, category);
    var part := Fill(t[k], word, category);
    var i := |Format(pre, word, category)|;
    assert text == Format(pre, word, category) + part + Format(post, word, category);
    assert part <= text[i..];
  }

  /** A template with a `{word}` placeholder yields a text that contains the word. */
  lemma FormatShowsWord(t: Template, word: string, category: string)
    requires WordSlot in t
    ensures Contains(Format(t, word, category), word)
  {
    var k :| 0 <= k < |t| && t[k] == WordSlot;
    FormatShowsPiece(t, word, category, k);
  }

  /** A template with a `{category}` placeholder yields a text that contains the category value. */
  lemma FormatShowsCategory(t: Template, word: string, category: string)
    requires CategorySlot in t
    ensures Contains(Format(t, word, category), category)
  {
    var k :| 0 <= k < |t| && t[k] == CategorySlot;
    FormatShowsPiece(t, word, category, k);
  }

  /** The filled word-teaching addendum, spelled out. */
  lemma WordTeachingFilled(word: string, category: string)
    ensures Format(WordTeachingTemplate, word, category) == WordIntro + word + WordMiddle + category + WordOutro
  {
    var t := WordTeachingTemplate;
    FormatLast(Text(WordOutro), word, category);
    assert t[4..] == [Text(WordOutro)];
    var f4 := Format(t[4..], word, category);
    assert t[3..][1..] == t[4..];
    var f3 := Format(t[3..], word, category);
    assert f3 == category + f4;
    assert t[2..][1..] == t[3..];
    var f2 := Format(t[2..], word, category);
    assert f2 == WordMiddle + f3;
    assert t[1..][1..] == t[2..];
    var f1 := Format(t[1..], word, category);
    assert f1 == word + f2;
  }

  lemma FormatLast(p: Piece, word: string, category: string)
    ensures Format([p], word, category) == Fill(p, word, category)
  {
    assert [p][1..] == [];
  }

  /** A (word, hint) pair of the catalog. */
  type WordPair = (string, string)

  /** `WORD_LISTS`: word categories in their declared order. */
  const WordLists: Dict<string, seq<WordPair>> := [
    ("animals", [
      ("dog", "A furry friend that says woof!"),
      ("cat", "A soft pet that says meow!"),
      ("cow", "A farm animal that says moo!"),
      ("pig", "A pink animal that says oink!"),
      ("duck", "A bird that says quack!"),
      ("fish", "Swims in the water, blub blub!"),
      ("bird", "Flies in the sky, tweet tweet!"),
      ("bear", "A big furry animal, roar!")]),
    ("food", [
      ("apple", "A red fruit, yummy!"),
      ("banana", "A yellow fruit, peel it!"),
      ("milk", "White drink, so good!"),
      ("cookie", "Sweet treat, yum yum!"),
      ("bread", "Soft and tasty!"),
      ("egg", "From a chicken!"),
      ("water", "Drink it up!"),
      ("juice", "Sweet and fruity!")]),
    ("family", [
      ("mama", "Your mommy loves you!"),
      ("dada", "Your daddy loves you!"),
      ("baby", "Little one, so small!"),
      ("grandma", "Mommy's mommy!"),
      ("grandpa", "Daddy's daddy!")]),
    ("body", [
      ("nose", "On your face, boop!"),
      ("eyes", "You see with these!"),
      ("mouth", "You eat and talk!"),
      ("hand", "Wave hello!"),
      ("foot", "Stomp stomp stomp!"),
      ("ear", "You hear with these!"),
      ("head", "Top of you!"),
      ("belly", "In the middle!")]),
    ("things", [
      ("ball", "Round and bouncy!"),
      ("book", "Read a story!"),
      ("car", "Vroom vroom!"),
      ("shoe", "On your feet!"),
      ("cup", "Drink from it!"),
      ("toy", "Fun to play!"),
      ("bed", "Time to sleep!"),
      ("door", "Open and close!")]),
    ("actions", [
      ("up", "Way up high!"),
      ("down", "Way down low!"),
      ("go", "Let's go go go!"),
      ("stop", "Freeze right there!"),
      ("jump", "Boing boing!"),
      ("run", "Fast fast fast!"),
      ("eat", "Yum yum yum!"),
      ("sleep", "Night night!")]),
    ("colors", [
      ("red", "Like an apple!"),
      ("blue", "Like the sky!"),
      ("yellow", "Like the sun!"),
      ("green", "Like the grass!")])
  ]

  /** `GOODBYES`: the closing phrases of a session. */
  const Goodbyes: seq<string> := [
    "Bye bye! You did so great today!",
    "See you next time, friend!",
    "Great job today! Bye bye!",
    "You were amazing! Come back soon!"
  ]

  /** The catalog is a well-formed dict literal: no category is listed twice. */
  lemma WordListsHaveUniqueKeys()
    ensures UniqueKeys(WordLists)
  {
  }

  /** No category of the catalog is empty. */
  lemma WordListsAreNonEmpty()
    ensures forall i :: 0 <= i < |WordLists| ==> |WordLists[i].1| > 0
  {
  }

  /** The categories, in their declared order. */
  lemma WordListsCategories()
    ensures Keys(WordLists) == ["animals", "food", "family", "body", "things", "actions", "colors"]
  {
  }
}
