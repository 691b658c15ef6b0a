/**
 * The journal page's logic: the three gratitude slots, which of them count
 * as filled, the save guard, and the journal prompt of the day.
 */
module Journal {
  import opened Wrappers
  import opened Strings
  import Translations
  import Store

  /** The gratitude slots a new page starts with. */
  const InitialGratitude: seq<string> := ["", "", ""]

  /** `handleGratitudeChange(index, value)`: a copy of the list with slot `index` replaced. */
  function GratitudeChange(items: seq<string>, index: nat, value: string): (r: seq<string>)
    requires index < |items|
    ensures |r| == |items| && r[index] == value
    ensures forall j :: 0 <= j < |items| && j != index ==> r[j] == items[j]
  {
    items[index := value]
  }

  /** `gratitudeItems.filter(item => item.trim())`. */
  function Filled(items: seq<string>): (r: seq<string>)
    ensures |r| <= |items|
  {
    if items == [] then []
    else (if IsBlank(items[0]) then [] else [items[0]]) + Filled(items[1..])
  }

  /** The filled slots are exactly the non-blank ones. */
  lemma {:induction false} FilledMembers(items: seq<string>)
    ensures forall x :: x in Filled(items) <==> x in items && !IsBlank(x)
  {
    if items != [] {
      FilledMembers(items[1..]);
      assert items == [items[0]] + items[1..];
    }
  }

  /** Filtering keeps the original order: a slot typed after the others lands after them. */
  lemma {:induction false} FilledAppend(items: seq<string>, x: string)
    ensures Filled(items + [x]) == Filled(items) + (if IsBlank(x) then [] else [x])
  {
    if items != [] {
      assert (items + [x])[0] == items[0];
      assert (items + [x])[1..] == items[1..] + [x];
      FilledAppend(items[1..], x);
    }
  }

  /** Every slot is blank. */
  predicate AllBlank(items: seq<string>) {
    forall i :: 0 <= i < |items| ==> IsBlank(items[i])
  }

  lemma AllBlankSplit(items: seq<string>)
    requires items != []
    ensures AllBlank(items) <==> IsBlank(items[0]) && AllBlank(items[1..])
  {
    var rest := items[1..];
    if AllBlank(items) {
      forall j | 0 <= j < |rest| ensures IsBlank(rest[j]) {
        assert rest[j] == items[j + 1];
      }
    }
    if IsBlank(items[0]) && AllBlank(rest) {
      forall i | 0 <= i < |items| ensures IsBlank(items[i]) {
        if i > 0 {
          assert items[i] == rest[i - 1];
        }
      }
    }
  }

  /** Nothing is filled exactly when every slot is blank. */
  lemma {:induction false} FilledEmpty(items: seq<string>)
    ensures Filled(items) == [] <==> AllBlank(items)
  {
    if items != [] {
      FilledEmpty(items[1..]);
      AllBlankSplit(items);
      var head: seq<string> := if IsBlank(items[0]) then [] else [items[0]];
      assert Filled(items) == head + Filled(items[1..]);
    }
  }

  /** `hasContent`, which enables the save button: some text in the entry or in a gratitude slot. */
  predicate HasContent(content: string, items: seq<string>) {
    !IsBlank(content) || !AllBlank(items)
  }

  /** What `handleSave` sends to the backend: the user's id, the trimmed entry and the filled slots. */
  datatype SaveRequest = SaveRequest(userId: string, content: string, gratitude: seq<string>)

  /** The request `handleSave` makes, or `None` when it returns early. */
  function SaveRequestFor(user: Option<Store.User>, content: string, items: seq<string>): (r: Option<SaveRequest>)
    ensures user.None? ==> r.None?
    ensures r.Some? ==> r.value == SaveRequest(user.value.id, Trim(content), Filled(items))
  {
    if user.None? then None
    else if IsBlank(content) && Filled(items) == [] then None
    else Some(SaveRequest(user.value.id, Trim(content), Filled(items)))
  }

  /** The save guard and the enabled state of the button agree: a save is attempted exactly when there is a user and content. */
  lemma SaveMatchesButton(user: Option<Store.User>, content: string, items: seq<string>)
    ensures SaveRequestFor(user, content, items).Some? <==> user.Some? && HasContent(content, items)
  {
    FilledEmpty(items);
  }

  /** A fresh page has nothing to save. */
  lemma FreshPageCannotSave(user: Option<Store.User>)
    ensures !HasContent("", InitialGratitude)
    ensures SaveRequestFor(user, "", InitialGratitude).None?
  {
    SaveMatchesButton(user, "", InitialGratitude);
    assert forall i :: 0 <= i < 3 ==> InitialGratitude[i] == "";
  }

  /**
   * The prompt effect for `language` on day `dayOfMonth`: the prompt at
   * `dayOfMonth % count` when the language has journal prompts; otherwise
   * the previous prompt stays.
   */
  function TodayPrompt(previous: string, language: string, dayOfMonth: nat): (r: string)
    ensures var prompts := Translations.PromptList(language, "journalPrompts");
      prompts == [] ==> r == previous
    ensures var prompts := Translations.PromptList(language, "journalPrompts");
      prompts != [] ==> r in prompts
  {
    var prompts := Translations.PromptList(language, "journalPrompts");
    if |prompts| > 0 then prompts[dayOfMonth % |prompts|] else previous
  }

  /** In both languages the prompt is the day of the month modulo 10 in that language's list; other languages keep the previous one. */
  lemma TodayPromptByLanguage(previous: string, dayOfMonth: nat)
    ensures TodayPrompt(previous, "en", dayOfMonth) == Translations.EnglishJournalPrompts[dayOfMonth % 10]
    ensures TodayPrompt(previous, "es", dayOfMonth) == Translations.SpanishJournalPrompts[dayOfMonth % 10]
    ensures TodayPrompt(previous, "fr", dayOfMonth) == previous
  {
    Translations.EnglishPromptCounts();
    Translations.SpanishPromptCounts();
  }

  /** The textarea placeholder: the day's prompt, or a default invitation while there is none. */
  function Placeholder(todayPrompt: string, language: string): (r: string)
    ensures todayPrompt != "" ==> r == todayPrompt
    ensures todayPrompt == "" && language == "en" ==> r == "Write freely... this is your space."
    ensures todayPrompt == "" && language != "en" ==> r == "Escribe libremente... este es tu espacio."
  {
    if todayPrompt != "" then todayPrompt
    else if language == "en" then "Write freely... this is your space."
    else "Escribe libremente... este es tu espacio."
  }

  /**
   * On a freshly opened page the placeholder is the day's journal prompt in
   * "en" and "es", since every listed prompt is non-empty; any other language
   * has no prompt list, so it shows the default invitation, in Spanish.
   */
  lemma {:induction false} PlaceholderOnFreshPage(language: string, dayOfMonth: nat)
    ensures language == "en" ==>
      Placeholder(TodayPrompt("", language, dayOfMonth), language) == Translations.EnglishJournalPrompts[dayOfMonth % 10]
    ensures language == "es" ==>
      Placeholder(TodayPrompt("", language, dayOfMonth), language) == Translations.SpanishJournalPrompts[dayOfMonth % 10]
    ensures language != "en" && language != "es" ==>
      Placeholder(TodayPrompt("", language, dayOfMonth), language) == "Escribe libremente... este es tu espacio."
  {
    TodayPromptByLanguage("", dayOfMonth);
    var i := dayOfMonth % 10;
    assert Translations.EnglishJournalPrompts[i] != "" by {
      assert forall j :: 0 <= j < 10 ==> |Translations.EnglishJournalPrompts[j]| > 0;
    }
    assert Translations.SpanishJournalPrompts[i] != "" by {
      assert forall j :: 0 <= j < 10 ==> |Translations.SpanishJournalPrompts[j]| > 0;
    }
  }
}
