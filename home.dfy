/**
 * The home page's helpers: the prompt of the day drawn from the date
 * string, the greeting for the hour, the mood emoji and the user's name.
 */
module Home {
  import opened Wrappers
  import Translations
  import Store

  /** The date string's seed: the sum of its character codes. */
  function Seed(s: string): (r: nat)
    ensures s == [] ==> r == 0
  {
    if s == [] then 0 else Seed(s[..|s| - 1]) + (s[|s| - 1] as nat)
  }

  /** The seed of a concatenation is the sum of the seeds. */
  lemma {:induction false} SeedConcat(a: string, b: string)
    ensures Seed(a + b) == Seed(a) + Seed(b)
  {
    if b != [] {
      assert (a + b)[..|a + b| - 1] == a + b[..|b| - 1];
      SeedConcat(a, b[..|b| - 1]);
    } else {
      assert a + b == a;
    }
  }

  /** The index of the day's prompt, always a position of the list. */
  function PromptIndex(today: string, count: nat): (r: nat)
    requires count > 0
    ensures r < count
  {
    Seed(today) % count
  }

  /** The `prompts` entry as `getTranslation` returns it, as a list. */
  function PromptsFor(language: string): seq<string> {
    match Translations.GetTranslation(language, "prompts")
    case List(items) => items
    case Text(_) => []
  }

  /** The day's prompt in `language` for the date string `today`. */
  function DailyPrompt(language: string, today: string): (r: Option<string>)
    ensures r.Some? ==> r.value in PromptsFor(language)
  {
    var prompts := PromptsFor(language);
    if prompts == [] then None else Some(prompts[PromptIndex(today, |prompts|)])
  }

  /** Every language has a prompt every day: Spanish from its own list, any other language from the English one. */
  lemma DailyPromptExists(language: string, today: string)
    ensures DailyPrompt(language, today).Some?
    ensures language == "es" ==> DailyPrompt(language, today).value == Translations.SpanishPrompts[Seed(today) % 30]
    ensures language != "es" ==> DailyPrompt(language, today).value == Translations.EnglishPrompts[Seed(today) % 30]
  {
    Translations.EnglishPromptCounts();
    Translations.SpanishPromptCounts();
  }

  datatype DayPart = Morning | Afternoon | Evening

  /** The part of the day of an hour: before 12, before 18, or later. */
  function DayPartOf(hour: int): (r: DayPart)
    ensures r == Morning <==> hour < 12
    ensures r == Afternoon <==> 12 <= hour < 18
    ensures r == Evening <==> hour >= 18
  {
    if hour < 12 then Morning else if hour < 18 then Afternoon else Evening
  }

  /** `getGreeting` for the hour: English for "en", Spanish for any other language. */
  function Greeting(language: string, hour: int): (r: string)
    ensures language == "en" ==> r == (match DayPartOf(hour)
                                       case Morning => "Good morning"
                                       case Afternoon => "Good afternoon"
                                       case Evening => "Good evening")
    ensures language != "en" ==> r == (match DayPartOf(hour)
                                       case Morning => "Buenos días"
                                       case Afternoon => "Buenas tardes"
                                       case Evening => "Buenas noches")
  {
    if language == "en" then
      if hour < 12 then "Good morning" else if hour < 18 then "Good afternoon" else "Good evening"
    else
      if hour < 12 then "Buenos días" else if hour < 18 then "Buenas tardes" else "Buenas noches"
  }

  /** Two hours get the same greeting exactly when they fall in the same part of the day. */
  lemma GreetingsDistinct(language: string, h1: int, h2: int)
    ensures Greeting(language, h1) == Greeting(language, h2) <==> DayPartOf(h1) == DayPartOf(h2)
  {
  }

  /** `getMoodEmoji`: a face for 1..5, a dash for anything else. */
  function MoodEmoji(mood: int): (r: string)
    ensures !(1 <= mood <= 5) <==> r == "—"
  {
    match mood
    case 5 => "😄"
    case 4 => "🙂"
    case 3 => "😐"
    case 2 => "😔"
    case 1 => "😢"
    case _ => "—"
  }

  /** The five moods show five different faces. */
  lemma MoodEmojisDistinct(m1: int, m2: int)
    requires 1 <= m1 <= 5 && 1 <= m2 <= 5
    ensures MoodEmoji(m1) == MoodEmoji(m2) <==> m1 == m2
  {
  }

  /** `s.split('@')[0]`: the part of `s` before its first '@', or all of it. */
  function BeforeAt(s: string): (r: string)
    ensures |r| <= |s| && r == s[..|r|]
    ensures '@' !in r
    ensures |r| < |s| ==> s[|r|] == '@'
  {
    if s == [] || s[0] == '@' then [] else [s[0]] + BeforeAt(s[1..])
  }

  /** `user?.email?.split('@')[0] || ''`. */
  function UserName(user: Option<Store.User>): (r: string)
    ensures user.None? || user.value.email.None? ==> r == ""
    ensures user.Some? && user.value.email.Some? ==> r == BeforeAt(user.value.email.value)
  {
    if user.Some? && user.value.email.Some? then BeforeAt(user.value.email.value) else ""
  }

  /** The name of "name@host" is "name" whenever "name" has no '@'. */
  lemma {:induction false} NameOfAddress(name: string, host: string)
    requires '@' !in name
    ensures BeforeAt(name + "@" + host) == name
  {
    if name != [] {
      assert (name + "@" + host)[1..] == name[1..] + "@" + host;
      NameOfAddress(name[1..], host);
    }
  }
}
