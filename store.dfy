/**
 * The app-wide store: one record of state, the actions that return its next
 * value, and the slice of it that is persisted across reloads.
 */
module Store {
  import opened Wrappers

  datatype User = User(id: string, email: Option<string>)

  /** A mood check-in: `mood` is 1..5 as saved; `createdAt` is a timestamp in milliseconds. */
  datatype MoodEntry = MoodEntry(id: string, mood: int, note: string, createdAt: int)

  datatype JournalEntry = JournalEntry(id: string, content: string, gratitude: seq<string>)

  datatype State = State(
    user: Option<User>,
    language: string,
    subscription: string,
    moodEntries: seq<MoodEntry>,
    journalEntries: seq<JournalEntry>,
    isLoading: bool,
    notificationsEnabled: bool,
    soundEnabled: bool,
    theme: string,
    streak: int,
    hasSeenOnboarding: bool,
    todayMood: Option<int>)

  /** The state before any action and before rehydration. */
  function Initial(): (s: State)
    ensures s.language == "en" && s.subscription == "free" && s.soundEnabled
    ensures s.streak == 0 && !s.hasSeenOnboarding && s.theme == "dark"
    ensures s.user == None && s.moodEntries == [] && s.journalEntries == []
  {
    State(None, "en", "free", [], [], false, true, true, "dark", 0, false, None)
  }

  /** `toggleLanguage`: English becomes Spanish, anything else becomes English. */
  function ToggleLanguage(s: State): (r: State)
    ensures r.language == "en" || r.language == "es"
    ensures r.language == "es" <==> s.language == "en"
    ensures r == s.(language := r.language)
  {
    s.(language := if s.language == "en" then "es" else "en")
  }

  /** Toggling twice restores `en` and `es`; any other language ends up as `es`. */
  lemma ToggleTwice(s: State)
    ensures s.language == "en" || s.language == "es" ==> ToggleLanguage(ToggleLanguage(s)) == s
    ensures s.language != "en" && s.language != "es" ==> ToggleLanguage(ToggleLanguage(s)).language == "es"
  {
  }

  /** `showAds()`: every plan except `premium_plus` shows ads. */
  predicate ShowAds(s: State)
    ensures s.subscription == "free" || s.subscription == "premium" ==> ShowAds(s)
    ensures s.subscription == "premium_plus" ==> !ShowAds(s)
  {
    s.subscription != "premium_plus"
  }

  /** `addMoodEntry`: the new entry goes first, the older ones follow in their order. */
  function AddMoodEntry(s: State, e: MoodEntry): (r: State)
    ensures |r.moodEntries| == |s.moodEntries| + 1
    ensures r.moodEntries[0] == e && r.moodEntries[1..] == s.moodEntries
    ensures r == s.(moodEntries := r.moodEntries)
  {
    s.(moodEntries := [e] + s.moodEntries)
  }

  /** `addJournalEntry`: the new entry goes first, the older ones follow in their order. */
  function AddJournalEntry(s: State, e: JournalEntry): (r: State)
    ensures |r.journalEntries| == |s.journalEntries| + 1
    ensures r.journalEntries[0] == e && r.journalEntries[1..] == s.journalEntries
    ensures r == s.(journalEntries := r.journalEntries)
  {
    s.(journalEntries := [e] + s.journalEntries)
  }

  /** One call of a field setter (`setUser`, `setLanguage`, ... `setTodayMood`) with its argument. */
  datatype Setter =
    | SetUser(user: Option<User>)
    | SetLanguage(language: string)
    | SetSubscription(subscription: string)
    | SetMoodEntries(moodEntries: seq<MoodEntry>)
    | SetJournalEntries(journalEntries: seq<JournalEntry>)
    | SetIsLoading(isLoading: bool)
    | SetNotificationsEnabled(enabled: bool)
    | SetSoundEnabled(enabled: bool)
    | SetTheme(theme: string)
    | SetStreak(streak: int)
    | SetHasSeenOnboarding(seen: bool)
    | SetTodayMood(mood: Option<int>)

  /** Whether `r` is `s` with the setter's field, and only that field, replaced by its argument. */
  predicate Replaces(s: State, c: Setter, r: State) {
    match c
    case SetUser(v) => r == s.(user := v)
    case SetLanguage(v) => r == s.(language := v)
    case SetSubscription(v) => r == s.(subscription := v)
    case SetMoodEntries(v) => r == s.(moodEntries := v)
    case SetJournalEntries(v) => r == s.(journalEntries := v)
    case SetIsLoading(v) => r == s.(isLoading := v)
    case SetNotificationsEnabled(v) => r == s.(notificationsEnabled := v)
    case SetSoundEnabled(v) => r == s.(soundEnabled := v)
    case SetTheme(v) => r == s.(theme := v)
    case SetStreak(v) => r == s.(streak := v)
    case SetHasSeenOnboarding(v) => r == s.(hasSeenOnboarding := v)
    case SetTodayMood(v) => r == s.(todayMood := v)
  }

  /** Whether the setter writes one of the persisted fields. */
  predicate WritesPersisted(c: Setter) {
    c.SetLanguage? || c.SetSubscription? || c.SetNotificationsEnabled? || c.SetSoundEnabled?
    || c.SetTheme? || c.SetStreak? || c.SetHasSeenOnboarding?
  }

  /** The state after a setter call: `set({ field: value })`. */
  function Apply(s: State, c: Setter): (r: State)
    ensures Replaces(s, c, r)
    ensures !WritesPersisted(c) ==> Partialize(r) == Partialize(s)
  {
    match c
    case SetUser(v) => s.(user := v)
    case SetLanguage(v) => s.(language := v)
    case SetSubscription(v) => s.(subscription := v)
    case SetMoodEntries(v) => s.(moodEntries := v)
    case SetJournalEntries(v) => s.(journalEntries := v)
    case SetIsLoading(v) => s.(isLoading := v)
    case SetNotificationsEnabled(v) => s.(notificationsEnabled := v)
    case SetSoundEnabled(v) => s.(soundEnabled := v)
    case SetTheme(v) => s.(theme := v)
    case SetStreak(v) => s.(streak := v)
    case SetHasSeenOnboarding(v) => s.(hasSeenOnboarding := v)
    case SetTodayMood(v) => s.(todayMood := v)
  }

  /** Ads follow the subscription setter and no other action. */
  lemma AdsFollowSubscription(s: State, c: Setter)
    ensures c.SetSubscription? ==> (ShowAds(Apply(s, c)) <==> c.subscription != "premium_plus")
    ensures !c.SetSubscription? ==> ShowAds(Apply(s, c)) == ShowAds(s)
    ensures ShowAds(ToggleLanguage(s)) == ShowAds(s)
    ensures ShowAds(Initial())
  {
  }

  /** The fields written to storage under the name `paz-storage`. */
  datatype Persisted = Persisted(
    language: string,
    subscription: string,
    notificationsEnabled: bool,
    soundEnabled: bool,
    theme: string,
    streak: int,
    hasSeenOnboarding: bool)

  /** `partialize`: the persisted slice of the state. */
  function Partialize(s: State): (p: Persisted)
    ensures p.language == s.language && p.subscription == s.subscription
    ensures p.notificationsEnabled == s.notificationsEnabled && p.soundEnabled == s.soundEnabled
    ensures p.theme == s.theme && p.streak == s.streak && p.hasSeenOnboarding == s.hasSeenOnboarding
  {
    Persisted(s.language, s.subscription, s.notificationsEnabled, s.soundEnabled,
              s.theme, s.streak, s.hasSeenOnboarding)
  }

  /**
   * Rehydration: the persist middleware's default merge lays the stored slice
   * over the current state, field by field.
   */
  function Restore(base: State, p: Persisted): State {
    base.(language := p.language, subscription := p.subscription,
          notificationsEnabled := p.notificationsEnabled, soundEnabled := p.soundEnabled,
          theme := p.theme, streak := p.streak, hasSeenOnboarding := p.hasSeenOnboarding)
  }

  /**
   * Saving then reloading gives back exactly the persisted slice; the session
   * fields (user, cached entries, loading flag, today's mood) start afresh.
   */
  lemma ReloadKeepsExactlyTheSlice(s: State)
    ensures Partialize(Restore(Initial(), Partialize(s))) == Partialize(s)
    ensures var t := Restore(Initial(), Partialize(s));
      t.user == None && t.moodEntries == [] && t.journalEntries == [] && !t.isLoading && t.todayMood == None
    ensures Restore(s, Partialize(s)) == s
  {
  }

  /** A setter of a persisted field changes that one component of the slice. */
  lemma PersistedSetterChangesOneComponent(s: State, c: Setter)
    requires WritesPersisted(c)
    ensures var p := Partialize(s); var q := Partialize(Apply(s, c));
      match c
      case SetLanguage(v) => q == p.(language := v)
      case SetSubscription(v) => q == p.(subscription := v)
      case SetNotificationsEnabled(v) => q == p.(notificationsEnabled := v)
      case SetSoundEnabled(v) => q == p.(soundEnabled := v)
      case SetTheme(v) => q == p.(theme := v)
      case SetStreak(v) => q == p.(streak := v)
      case SetHasSeenOnboarding(v) => q == p.(hasSeenOnboarding := v)
      case _ => false
  {
  }
}
