# Paz — a verified model of the app's state machines and helpers

Paz is a small wellness single-page app with mood check-ins, breathing exercises, healing tones, a journal, a scripted chatbot and a chat with a generative model. Most of its code is UI and backend calls. This project models the parts that can be stated precisely. Each of them becomes a Dafny module:

- `Sounds`: the sample and loop player (`SoundManager`) and its 20-step fade. One class serves both copies of the player; only their sound tables differ.
- `HzGenerator`: the tone generator (`HzToneGenerator`). It holds oscillators, a gain stage and the deferred teardown that `stop()` schedules. It also holds the `HEALING_SOUNDS` table.
- `HealingSoundsPage`: the page that turns taps on a sound into generator calls or a looping nature recording, plus the volume slider.
- `Breathe`: the breathing-session state machine. Each pending `setTimeout` of the phase chain is a timer record that a step method fires.
- `ChatBot`: the scripted support chat. Its conversation tables are data, and each delayed reply is a pending callback.
- `Onboarding`: the slide stepper.
- `Store`: the persisted app store. This covers the reducers, the setters and the persisted slice.
- `Translations`: the translation tables and their fallback chain.
- `Journal`: the journal page. This covers the gratitude list, the save guard and the prompt of the day.
- `Home`: the home page. This covers the daily prompt, the greeting, the mood emoji and the user name.
- `Insights`: the progress page. This covers the mood thresholds, day and week averages, relative dates and the recent list.
- `AIChat`: the chat with a generative model. This covers the history it sends, the send cycle and the choice of voice.
- `Strings` holds JavaScript's `trim`, `includes` and integer-to-string conversion.
- `Wrappers` holds `Option`.

Imperative code is modelled as classes whose methods state the whole new state. Examples are the players, the tone generator, the breathing session, both chats and the stepper. Every `setTimeout` and `setInterval` callback is a pending record plus a step method that fires it. The clock is not modelled, so any pending callback may fire next. Randomness, dates and the current hour are parameters.

## Model

| member | source | states |
|---|---|---|
| Sounds.FadeLevelBounds | src/lib/sounds.js:94-100 | The volume at fade tick k stays within [0, start]. It equals start·(20−k)/20 before tick 20 and 0 from tick 20 on. |
| Sounds.FadeLevelNonIncreasing | paz/src/lib/sounds.js:94-106 | The fade volume never rises from one tick to a later one. |
| Sounds.SoundManager.constructor | src/lib/sounds.js:28-44 | Preloads exactly the table's names, each at volume 0.5, not looping and not playing. The player starts enabled with no current loop. |
| Sounds.SoundManager.SetEnabled | src/lib/sounds.js:46-51 | Sets the flag. Disabling while a loop plays stops and rewinds that loop and clears the current loop. Otherwise nothing else changes. |
| Sounds.SoundManager.SetVolume | src/lib/sounds.js:53-58 | Sets the baseline and the volume of every preloaded sound to v. Nothing else changes. |
| Sounds.SoundManager.Play | paz/src/lib/sounds.js:53-65 | When enabled and the name is known, that sound is rewound and played. When disabled or the name is unknown, nothing changes. |
| Sounds.SoundManager.PlayLoop | src/lib/sounds.js:69-79 | Does nothing when disabled. Otherwise it first stops the previous loop. The current loop becomes the name if it is known and none otherwise. The named sound loops from time 0 and the other sounds are as after the stop. |
| Sounds.SoundManager.StopLoop | paz/src/lib/sounds.js:84-91 | Stops and rewinds the current loop, clears its loop flag and clears the current loop. With no loop it is a no-op. |
| Sounds.SoundManager.FadeOutLoop | src/lib/sounds.js:90-98 | Without a current loop, nothing changes. Otherwise one fade starts from that sound's volume, with the tick interval duration/20. |
| Sounds.SoundManager.FadeStep | src/lib/sounds.js:98-106 | A tick before the 20th lowers the faded sound's volume to the fade level. The 20th tick ends the fade, stops whichever loop is current at that moment and puts the faded sound's volume back at the baseline. The faded sound is paused, rewound and no longer looping only when it is still that current loop (or was already stopped); a sound restarted with `play` after the loop was stopped keeps playing. |
| Sounds.FadeEndsLoop | src/lib/sounds.js:90-106 | Playing a loop and fading it out through all 20 ticks leaves no loop and no fade. The sound is paused, rewound and not looping, at the baseline volume. |
| Sounds.Stopped | src/lib/sounds.js:81-88 | A stopped sound is paused, not looping and at time 0. It keeps its source and volume. |
| Sounds.AfterStop | paz/src/lib/sounds.js:84-91 | Stopping the current loop changes only that sound, to its stopped form. Every other sound is unchanged. |
| Sounds.AppSoundNamesResolve | src/lib/sounds.js:113-128 | Every name in `SOUND_NAMES` is a key of the `SOUNDS` table. |
| Sounds.PazSoundNamesResolve | paz/src/lib/sounds.js:4-16 | Every breathing exercise name and every other sound name is a key of the breathing app's table. |
| HzGenerator.Ids | src/lib/hzGenerator.js:90-99 | The set of oscillator ids is exactly the ids of the listed oscillators. |
| HzGenerator.Without | src/lib/hzGenerator.js:90-99 | Keeps exactly the oscillators whose ids are not in the set. |
| HzGenerator.ToneGenerator.constructor | src/lib/hzGenerator.js:5-11 | Starts with no gain stage, volume 0.3, not playing and no oscillators. |
| HzGenerator.ToneGenerator.Init | src/lib/hzGenerator.js:13-24 | Creates the gain stage once, at the baseline volume. Later calls keep the existing gain. |
| HzGenerator.ToneGenerator.SetVolume | src/lib/hzGenerator.js:26-31 | Stores the baseline. The gain follows it only when a gain stage exists. |
| HzGenerator.ToneGenerator.Stop | src/lib/hzGenerator.js:83-106 | Always leaves the generator not playing. A teardown is scheduled, with one gain ramp, only when a gain stage exists and a tone was playing. Otherwise nothing else changes. |
| HzGenerator.ToneGenerator.PlayFrequency | src/lib/hzGenerator.js:34-46 | Stops first, then appends one direct oscillator at exactly hz, with no validation. The generator is playing afterwards. |
| HzGenerator.ToneGenerator.PlayBinauralBeat | src/lib/hzGenerator.js:50-80 | Stops first, then appends two oscillators: base panned −1 and base+beat panned +1. The generator is playing afterwards. |
| HzGenerator.ToneGenerator.FireTeardown | src/lib/hzGenerator.js:90-103 | As written: silences every oscillator listed when it fires and empties the list. It restores the gain to the baseline and removes the teardown. |
| HzGenerator.ToneGenerator.FireOwnTeardown | src/lib/hzGenerator.js:83-103 | Corrected: silences only the oscillators that were listed when `stop()` scheduled the teardown. Later tones keep sounding. |
| HzGenerator.Partition | src/lib/hzGenerator.js:90-99 | Splits the oscillator list into those outside the teardown's set, which keep sounding, and those inside it, which are stopped. Each part keeps its order. |
| HzGenerator.Only | src/lib/hzGenerator.js:90-99 | Keeps exactly the oscillators whose ids are in the set. |
| HzGenerator.WithoutAppend | src/lib/hzGenerator.js:90-99 | Filtering out ids commutes with appending one oscillator. |
| HzGenerator.OnlyAppend | src/lib/hzGenerator.js:90-99 | Keeping only ids commutes with appending one oscillator. |
| HzGenerator.SwitchToneThenTeardown | src/lib/hzGenerator.js:34-46 | As written: after 440 Hz and then 528 Hz, the first teardown silences both tones. The generator still says it is playing. |
| HzGenerator.SwitchToneThenOwnTeardown | src/lib/hzGenerator.js:83-103 | Corrected: the same sequence silences only the 440 Hz tone, and 528 Hz keeps sounding. |
| HzGenerator.EntryPlayable | src/lib/hzGenerator.js:113-165 | Any entry listed under a category is playable for that category. |
| HzGenerator.HealingSoundsPlayable | src/lib/hzGenerator.js:113-165 | Each binaural entry has base 200 and a positive beat. Each hertz and chakra entry has a positive frequency. Each nature entry has a URL. |
| HealingSoundsPage.DispatchOf | src/pages/HealingSounds.jsx:49-62 | Binaural plays a beat on (baseHz, hz). Hertz and chakra play a tone at hz. Nature loops its URL. |
| HealingSoundsPage.TableDispatches | src/pages/HealingSounds.jsx:49-62 | Every table entry dispatches to the call of its own category. |
| HealingSoundsPage.SliderGain | src/pages/HealingSounds.jsx:27-32 | A slider value v in 0..100 gives a gain in [0,1], with gain·100 = v. |
| HealingSoundsPage.Rewound | src/pages/HealingSounds.jsx:65-74 | The nature audio is paused and rewound and keeps its source, volume and loop flag. |
| HealingSoundsPage.HealingSoundsPage.constructor | src/pages/HealingSounds.jsx:10-13 | Nothing is active, and the slider starts at 30, applied to the generator as 0.3. |
| HealingSoundsPage.HealingSoundsPage.StopAll | src/pages/HealingSounds.jsx:65-74 | Stops the generator, rewinds and releases the nature audio, and clears the active sound and category. |
| HealingSoundsPage.HealingSoundsPage.HandlePlay | src/pages/HealingSounds.jsx:34-63 | Tapping the active sound, or tapping with sound off, leaves nothing active. Otherwise that sound and category become active and the category's generator call or nature loop is made. Every tap first stops everything. Any nature audio playing is paused, rewound and released, and nothing else is released. The generator is stopped too, so a teardown of the old oscillators is queued exactly when a gain stage exists and a tone was playing. A beat or tone leaves a gain stage: the existing one, or a new one at the baseline volume. |
| HealingSoundsPage.HealingSoundsPage.StartSound | src/pages/HealingSounds.jsx:46-62 | The tapped sound and its category become active. Binaural entries start a beat, hertz and chakra entries a tone, and nature entries a looping audio element at the page volume. With nothing playing, no teardown is queued. A beat or tone keeps an existing gain stage or creates one at the baseline volume, and a nature loop leaves the gain stage alone. |
| HealingSoundsPage.HealingSoundsPage.SetSliderVolume | src/pages/HealingSounds.jsx:27-32 | The slider value v is applied as v/100 to the generator and to any nature audio. |
| HealingSoundsPage.HealingSoundsPage.Unmount | src/pages/HealingSounds.jsx:16-24 | Stops the generator and pauses and drops the nature audio. A teardown is queued exactly when a gain stage exists and a tone was playing. The gain stage and the baseline volume are unchanged. |
| HealingSoundsPage.SwitchTapsThenTeardown | src/pages/HealingSounds.jsx:34-63 | As written: tapping the 74 Hz entry and then the 132 Hz entry, and firing the first teardown, leaves the second entry active with no oscillator sounding. |
| HealingSoundsPage.SwitchTapsThenOwnTeardown | src/lib/hzGenerator.js:83-103 | Corrected: the same taps leave the second tone, at 132 Hz, sounding. |
| Breathe.PhaseOrder | paz/src/pages/Breathe.jsx:76-78 | The order is inhale, hold, exhale, holdEmpty exactly when the exercise defines a non-zero holdEmpty. Otherwise it is inhale, hold, exhale. |
| Breathe.ExerciseFacts | paz/src/pages/Breathe.jsx:9-59 | Every exercise has at least one cycle and a positive duration for each phase it uses. Its id is a key of the sound table. |
| Breathe.NextPosition | paz/src/pages/Breathe.jsx:95-101 | From a non-last phase, the index advances and the cycle stays. From the last phase, the index wraps to 0 and the cycle goes up by one. |
| Breathe.PositionsCount | paz/src/pages/Breathe.jsx:92-105 | After n advances the position is (n mod length, n div length). |
| Breathe.CompletionPoint | paz/src/pages/Breathe.jsx:84-90 | The cycle is below the exercise's cycle count exactly when fewer than cycles × phases have been entered. |
| Breathe.Cancel | paz/src/pages/Breathe.jsx:120-122 | Clearing a timeout removes exactly the timer with that id. |
| Breathe.CancelRun | paz/src/pages/Breathe.jsx:73-111 | Removes exactly the timers of one chain. |
| Breathe.Cleanup | paz/src/pages/Breathe.jsx:107-110 | The effect cleanup cancels only the handle it was given, which is the chain's first timer. |
| Breathe.PendingTimerBound | paz/src/pages/Breathe.jsx:92-105 | A pending timer has entered fewer phases than cycles × phases. |
| Breathe.FiringCompletes | paz/src/pages/Breathe.jsx:84-90 | Firing a timer completes the session exactly when it is the last phase of the last cycle. |
| Breathe.BreathingSession.constructor | paz/src/pages/Breathe.jsx:64-68 | No exercise is selected, the session is neither active nor complete, the phase is inhale at cycle 0, and no timers are pending. |
| Breathe.BreathingSession.SyncEffect | paz/src/pages/Breathe.jsx:113-123 | When a dependency changed, the previous chain's first timer is cancelled. A new chain starts at inhale only when the session is active, not complete and has an exercise. |
| Breathe.BreathingSession.Select | paz/src/pages/Breathe.jsx:113-123 | Selects the exercise. The effect reruns only when the selection changed. |
| Breathe.BreathingSession.Start | paz/src/pages/Breathe.jsx:125-135 | Active, not complete, cycle 0 and inhale. When sound is on, an exercise is selected and the player is enabled, that exercise's loop becomes the current loop and plays from time 0 with looping on. Any previous loop is stopped, and every other sound is as after that stop. Otherwise the player's sounds and current loop are unchanged, so a disabled player is left as it was. The enabled flag, volume, fade queue and set of sounds never change. The sound half is the helper `PlaySelected`, whose contract these player clauses repeat. |
| Breathe.BreathingSession.Reset | paz/src/pages/Breathe.jsx:137-146 | As written: inactive, not complete, cycle 0, inhale and no selection. The player's sounds, current loop, enabled flag and volume are unchanged. A 500 ms fade of the current loop is queued when there is one; otherwise no fade is queued. Only the chain's first timer is cancelled, so later timers stay pending. |
| Breathe.BreathingSession.ResetStoppingChain | paz/src/pages/Breathe.jsx:137-146 | Corrected: the same reset, with the same player effects: sounds, current loop, enabled flag and volume unchanged, and the 500 ms fade queued only when a loop plays. It also removes every timer of the current chain. The effect handle is cleared when the session was active, complete or had a selection, and kept otherwise. The timer id counter is unchanged. |
| Breathe.BreathingSession.FireTimer | paz/src/pages/Breathe.jsx:80-106 | Any firing keeps the selection and the player's enabled flag and volume. Firing the last phase of the last cycle completes the session and deactivates it. The player's sounds and current loop are unchanged, and a 1000 ms fade is queued exactly when a loop plays. Any other firing shows the next phase of the exercise's order and schedules one timer with that phase's duration. The player's sounds, current loop and fades are untouched. |
| Breathe.BreathingSession.FinishChain | paz/src/pages/Breathe.jsx:84-90 | The fired timer leaves the queue. The session is complete and inactive. The player's sounds, current loop, enabled flag and volume are unchanged. A 1000 ms fade of the current loop is queued when there is one, and none otherwise. |
| Breathe.BreathingSession.ContinueChain | paz/src/pages/Breathe.jsx:92-105 | The fired timer is replaced by one for the next phase, with that phase's duration. The next phase is shown, and the cycle advances when the order wraps. |
| Breathe.RemoveAt | paz/src/pages/Breathe.jsx:95-105 | Removing a fired timer shortens the pending list by one. |
| Breathe.RemoveAtKeeps | paz/src/pages/Breathe.jsx:95-105 | Removing a fired timer adds no timer. |
| Breathe.RescheduledWellFormed | paz/src/pages/Breathe.jsx:95-105 | The rescheduled timer is well formed again. |
| Breathe.RelaxingInSecondPhase | paz/src/pages/Breathe.jsx:125-135 | Select relaxing, start, and fire the first timer: one timer is pending for the second phase. |
| Breathe.ResetAfterFirstPhase | paz/src/pages/Breathe.jsx:107-110 | As written: after a reset in the second phase, one timer is still pending. When it fires, the phase becomes exhale although the session is inactive and no exercise is selected. |
| Breathe.ResetStoppingChainAfterFirstPhase | paz/src/pages/Breathe.jsx:137-146 | Corrected: after the same reset, no timer is pending. |
| Breathe.PhaseAnimation | paz/src/pages/Breathe.jsx:148-160 | Scale 1.4 exactly for inhale and hold, 1.0 for exhale and holdEmpty. Opacity 0.6 exactly for exhale. |
| Breathe.PhaseLabel | paz/src/pages/Breathe.jsx:162-170 | Inhale reads "Inhale" or "Inhala", exhale reads "Exhale" or "Exhala", and both holds read "Hold" or "Sostén". The English label is used exactly for "en". |
| Breathe.PhaseLabelDistinguishes | paz/src/pages/Breathe.jsx:162-170 | In either language, two phases share a label exactly when they are equal or both are holds. |
| ChatBot.ContentFor | src/components/ChatBot.jsx:142 | Spanish content for "es", English for any other language. |
| ChatBot.FlowFor | src/components/ChatBot.jsx:142 | Flows follow the same language choice. |
| ChatBot.OptionsMatchFlows | src/components/ChatBot.jsx:14-20 | In both languages, the main option ids are mood, breathe, talk and gratitude in that order. A flow exists exactly for those ids. |
| ChatBot.ContentNonEmpty | src/components/ChatBot.jsx:76-82 | Every random pick has three candidates, and every flow offers at least three options. |
| ChatBot.UnknownLanguageIsEnglish | src/components/ChatBot.jsx:142 | A language other than "es" gets the English content and flows. |
| ChatBot.ChatWindow.constructor | src/components/ChatBot.jsx:134-138 | Closed, with no messages, no flow, options shown and nothing pending. |
| ChatBot.ChatWindow.Open | src/components/ChatBot.jsx:152-159 | Opens the window. It adds one greeting only when there are no messages. |
| ChatBot.ChatWindow.Close | src/components/ChatBot.jsx:161-163 | Closes the window and keeps the conversation. |
| ChatBot.ChatWindow.Reset | src/components/ChatBot.jsx:165-171 | Leaves exactly one greeting, no flow and options shown. |
| ChatBot.ChatWindow.ChooseMainOption | src/components/ChatBot.jsx:173-186 | Appends the option's label as a user message and schedules the flow's question. |
| ChatBot.ChatWindow.ChooseFlowOption | src/components/ChatBot.jsx:188-206 | Appends the label, hides the options and schedules the response. |
| ChatBot.ChatWindow.EndChat | src/components/ChatBot.jsx:208-222 | Appends one closing message, hides the options and schedules the close. |
| ChatBot.ChatWindow.Fire | src/components/ChatBot.jsx:180-221 | The question sets the flow and shows the options. The response schedules a follow-up. The follow-up clears the flow and shows the options. The close schedules the clear, and the clear empties the chat. |
| ChatBot.MoodExchange | src/components/ChatBot.jsx:152-206 | An English mood exchange ends with six messages from bot, user, bot, user, bot and bot, and the main options shown. |
| Onboarding.SlidesFor | src/components/Onboarding.jsx:84 | Spanish slides for "es", English for any other language. |
| Onboarding.SlideDecks | src/components/Onboarding.jsx:5-80 | Both decks have five slides with the same icons, and the first four are images. |
| Onboarding.NextLabel | src/components/Onboarding.jsx:146-150 | "Get Started" on the last slide and "Next" otherwise for "en". "Comenzar" and "Siguiente" for every other language. |
| Onboarding.SkipLabel | src/components/Onboarding.jsx:104-108 | "Skip" exactly for "en" and "Saltar" otherwise. |
| Onboarding.MixedLanguageScreen | src/components/Onboarding.jsx:84-150 | A language other than "en" and "es" shows the English slides with the Spanish buttons "Siguiente", "Comenzar" and "Saltar". |
| Onboarding.ButtonOnLastSlide | src/components/Onboarding.jsx:85-150 | The button reads "Get Started" or "Comenzar" exactly on the last slide, where "next" completes. Skip is offered exactly on the other slides. |
| Onboarding.OnboardingFlow.constructor | src/components/Onboarding.jsx:82-84 | Starts at slide 0 with no completion. |
| Onboarding.OnboardingFlow.IsLastSlide | src/components/Onboarding.jsx:85 | True exactly on slide 4, the fifth slide of either deck. |
| Onboarding.OnboardingFlow.SkipOffered | src/components/Onboarding.jsx:104 | True exactly on every slide but slide 4. |
| Onboarding.OnboardingFlow.Next | src/components/Onboarding.jsx:85-93 | On the last slide it completes and keeps the index. Otherwise it advances by one. The index stays within the deck. |
| Onboarding.OnboardingFlow.Skip | src/components/Onboarding.jsx:95-97 | Always completes and keeps the index. |
| Onboarding.OnboardingFlow.JumpTo | src/components/Onboarding.jsx:134-141 | A dot sets the slide to its index. |
| Onboarding.WalkThrough | src/components/Onboarding.jsx:87-93 | Four nexts reach the last slide without completing, and the fifth completes. |
| Store.Initial | src/store/useStore.js:8-63 | Starts with language "en", subscription "free", sound on, streak 0, onboarding unseen, dark theme, no user and no entries. |
| Store.ToggleLanguage | src/store/useStore.js:14-16 | "en" becomes "es" and anything else becomes "en". No other field changes. |
| Store.ToggleTwice | src/store/useStore.js:14-16 | Toggling twice restores "en" or "es". Any other language ends as "es". |
| Store.AddMoodEntry | src/store/useStore.js:26-28 | The entry is prepended and the older ones follow in their order. Nothing else changes. |
| Store.AddJournalEntry | src/store/useStore.js:33-35 | The entry is prepended to the journal list. Nothing else changes. |
| Store.Apply | src/store/useStore.js:9-63 | Each setter replaces only its own field. A setter of a session field leaves the persisted slice unchanged. |
| Store.AdsFollowSubscription | src/store/useStore.js:21 | Ads show exactly when the subscription is not "premium_plus". Only the subscription setter changes that. |
| Store.ShowAds | src/store/useStore.js:19-21 | The "free" and "premium" plans show ads, and "premium_plus" does not. |
| Store.Partialize | src/store/useStore.js:65-75 | The slice holds exactly language, subscription, notifications, sound, theme, streak and onboarding. |
| Store.ReloadKeepsExactlyTheSlice | src/store/useStore.js:65-75 | Saving and reloading restores the slice, and the session fields start afresh. |
| Store.PersistedSetterChangesOneComponent | src/store/useStore.js:39-63 | A persisted setter changes exactly its own component of the slice. |
| Translations.GetTranslation | src/lib/translations.js:295-297 | The language's truthy value if there is one, else the English truthy value, else the key itself. |
| Translations.UnknownLanguageIsEnglish | src/lib/translations.js:296 | A language other than "en" or "es" translates as English. |
| Translations.EnglishOrKey | src/lib/translations.js:296 | For "en", the result is the English value if it is truthy, else the key. |
| Translations.TranslationShowsSomething | src/lib/translations.js:295-297 | A non-empty key always yields a truthy value. |
| Translations.EnglishPromptCounts | src/lib/translations.js:100-145 | English has 30 daily prompts and 10 journal prompts. |
| Translations.SpanishPromptCounts | src/lib/translations.js:246-291 | Spanish has 30 daily prompts and 10 journal prompts. |
| Strings.TrimStart | src/pages/Journal.jsx:39 | Removes exactly the leading whitespace. |
| Strings.TrimEnd | src/pages/Journal.jsx:39 | Removes exactly the trailing whitespace. |
| Strings.Trim | src/pages/Journal.jsx:39 | A slice of the input that is empty exactly when the input is all whitespace. |
| Strings.TrimEdges | src/pages/Journal.jsx:39 | A trimmed string neither starts nor ends with whitespace. |
| Strings.TrimSlice | src/pages/Journal.jsx:37-39 | Trimming the start and then the end gives a slice of the input that is empty exactly when the input is all whitespace. |
| Strings.NatToString | paz/src/pages/Insights.jsx:260 | Decimal digits with no leading zero. |
| Strings.IntToString | paz/src/pages/Insights.jsx:260 | Non-empty, with a minus sign exactly for negatives. |
| Strings.ParseNatToString | paz/src/pages/Insights.jsx:260 | Reading the digits back gives the number. |
| Journal.GratitudeChange | src/pages/Journal.jsx:30-34 | Same length, with only slot i replaced. |
| Journal.Filled | src/pages/Journal.jsx:39 | The filtered list is no longer than the input. |
| Journal.FilledMembers | src/pages/Journal.jsx:39 | Keeps exactly the non-blank items. |
| Journal.FilledAppend | src/pages/Journal.jsx:39 | Keeps the items in their order. |
| Journal.FilledEmpty | src/pages/Journal.jsx:37-41 | Nothing is filled exactly when every item is blank. |
| Journal.SaveRequestFor | src/pages/Journal.jsx:36-50 | No request without a user. A request carries the trimmed content and the filled items. |
| Journal.SaveMatchesButton | src/pages/Journal.jsx:67 | A request is made exactly when there is a user and the content check that enables the button holds. |
| Journal.FreshPageCannotSave | src/pages/Journal.jsx:15 | The three empty gratitude slots and empty content cannot be saved. |
| Journal.TodayPrompt | src/pages/Journal.jsx:21-28 | With no prompts the previous one stays. Otherwise the result is one of the prompts. |
| Journal.TodayPromptByLanguage | src/pages/Journal.jsx:22-26 | The prompt is number (day of month mod 10) in "en" and "es". Any other language has no list, so the prompt is kept. |
| Journal.Placeholder | src/pages/Journal.jsx:95-97 | A non-empty prompt is shown as it is. With no prompt, the English invitation for "en" and the Spanish one for every other language. |
| Journal.PlaceholderOnFreshPage | src/pages/Journal.jsx:18-28 | On a fresh page, "en" and "es" show the day's journal prompt as the placeholder, because no prompt is empty. Every other language has no list and shows the Spanish invitation. |
| Home.Seed | src/pages/Home.jsx:21 | The empty string has seed 0. |
| Home.SeedConcat | src/pages/Home.jsx:21 | The seed of a concatenation is the sum of the seeds. |
| Home.PromptIndex | src/pages/Home.jsx:22 | The index lies within the prompt list. |
| Home.DailyPrompt | src/pages/Home.jsx:19-24 | A chosen prompt is one of the language's prompts. |
| Home.DailyPromptExists | src/pages/Home.jsx:19-24 | Every date string chooses prompt number (seed mod 30) in its language. |
| Home.DayPartOf | src/pages/Home.jsx:38-49 | Morning before 12, afternoon from 12 to before 18, evening otherwise. |
| Home.Greeting | src/pages/Home.jsx:38-49 | The English greeting for "en" and the Spanish one otherwise, by part of the day. |
| Home.GreetingsDistinct | src/pages/Home.jsx:38-49 | Two hours get the same greeting exactly when they fall in the same part of the day. |
| Home.MoodEmoji | src/pages/Home.jsx:173-182 | "—" exactly for values outside 1..5. |
| Home.MoodEmojisDistinct | src/pages/Home.jsx:173-182 | The five moods get five different emojis. |
| Home.BeforeAt | src/pages/Home.jsx:51 | The longest prefix without '@'. |
| Home.UserName | src/pages/Home.jsx:51 | The email's part before the first '@', or "" with no user or email. |
| Home.NameOfAddress | src/pages/Home.jsx:51 | For name@host, the result is the name. |
| Insights.MoodEmoji | paz/src/pages/Insights.jsx:95-102 | "—" exactly for null or 0. The thresholds 4.5, 3.5, 2.5 and 1.5 pick exactly one of the five faces. |
| Insights.Band | paz/src/pages/Insights.jsx:97-101 | The thresholds 4.5, 3.5, 2.5 and 1.5 pick exactly one of the five faces. |
| Insights.EmojiMonotone | paz/src/pages/Insights.jsx:97-101 | A higher average never shows a sadder face. |
| Insights.EmojiMatchesHome | paz/src/pages/Insights.jsx:95-102 | For moods 1..5, the face agrees with the home page's map. |
| Insights.Keep | paz/src/pages/Insights.jsx:34-36 | The filter returns only entries that pass, and no more than the input. |
| Insights.KeepMembers | paz/src/pages/Insights.jsx:51-56 | The filter keeps exactly the entries that pass. |
| Insights.SumBounds | paz/src/pages/Insights.jsx:37-39 | Moods in [lo,hi] sum to between lo·n and hi·n. |
| Insights.MeanBounds | paz/src/pages/Insights.jsx:58-60 | The average of moods in [lo,hi] lies in [lo,hi]. |
| Insights.QuotientBounds | paz/src/pages/Insights.jsx:37-39 | Dividing a bounded total by the count keeps the bounds. |
| Insights.DayAverage | paz/src/pages/Insights.jsx:34-39 | Null exactly when the day has no entries. Otherwise the average times the number of that day's entries equals their mood total. |
| Insights.DayAverageMeaning | paz/src/pages/Insights.jsx:34-39 | A day has an average exactly when some entry is on that day. That average lies in [1,5]. |
| Insights.DayName | paz/src/pages/Insights.jsx:78-93 | A three-letter day name. |
| Insights.DayNamesDistinct | paz/src/pages/Insights.jsx:78-93 | The seven days have distinct names in each language. |
| Insights.Chart | paz/src/pages/Insights.jsx:32-48 | One point per day, with its name and date. Its mood is that day's average, which is null exactly when there is no check-in that day. |
| Insights.ChartShownIffCheckinInWeek | paz/src/pages/Insights.jsx:167 | The chart has data exactly when some entry falls on one of the days. |
| Insights.WeekStats | paz/src/pages/Insights.jsx:51-66 | The entry count is the number of entries of the last week, and the streak is passed through. With no entries the average is the number 0. Otherwise it is the mean, total over count, rounded to tenths: tenths − 0.5 ≤ 10·mean < tenths + 0.5. |
| Insights.ToFixed1 | paz/src/pages/Insights.jsx:59 | `toFixed(1)` as a count of tenths: the nearest tenth, with a tie rounded up. |
| Insights.CardEmoji | paz/src/pages/Insights.jsx:142 | "—" exactly when there is no average. A non-zero rounded average gets the face of its rounded value. The string "0.0" is truthy and gets the lowest face. |
| Insights.CardFaceOfRoundedMean | paz/src/pages/Insights.jsx:59-142 | The card shows the face of the mean plus 0.05. A mean in [4.45, 4.5) shows the top face on the card while its unrounded value has the second face. |
| Insights.BandThreshold | paz/src/pages/Insights.jsx:97-101 | For n the tenths of x, n/10 reaches a threshold t/10 exactly when x + 0.05 does. |
| Insights.WeekStatsMeaning | paz/src/pages/Insights.jsx:51-66 | No entries exactly when all are older than a week. Otherwise the rounded average lies between 1.0 and 5.0. The card emoji is "—" exactly when there are no entries. |
| Insights.DaysAgo | paz/src/pages/Insights.jsx:250-254 | The whole number of days, rounded down, since the entry. |
| Insights.FormatDate | paz/src/pages/Insights.jsx:250-268 | 0 days gives "Today" or "Hoy" and 1 gives "Yesterday" or "Ayer". Below 7 it gives "N days ago" or "Hace N días". Otherwise it gives the calendar date in the language's locale. The English text is used exactly for "en". |
| Insights.LocaleOf | paz/src/pages/Insights.jsx:263 | "en-US" exactly for "en" and "es-ES" for every other language. |
| Insights.NatToStringInjective | paz/src/pages/Insights.jsx:260 | Different counts print differently. |
| Insights.IntToStringInjective | paz/src/pages/Insights.jsx:260 | Different integers print differently. |
| Insights.SameSuffixCancels | paz/src/pages/Insights.jsx:261 | Two strings with the same suffix appended are equal only if they were equal. This is the cancellation step behind the "N days ago" labels. |
| Insights.SamePrefixCancels | paz/src/pages/Insights.jsx:261 | Two strings with the same prefix prepended are equal only if they were equal. This is the cancellation step behind the "Hace N días" labels. |
| Insights.RelativeLabelsIdentifyDay | paz/src/pages/Insights.jsx:256-262 | Below seven days, two entries get the same label exactly when they are the same number of days old. |
| Insights.Recent | paz/src/pages/Insights.jsx:218 | The first min(5, n) entries. |
| Insights.RecentAfterAdd | src/store/useStore.js:26-28 | After a check-in, the recent list is the new entry followed by the first four earlier ones. |
| Insights.MoodLabelKey | paz/src/pages/Insights.jsx:223-226 | 5 gives moodGreat, 4 moodGood, 3 moodOkay and 2 moodLow. Every other value gives moodBad. |
| Insights.RowOf | paz/src/pages/Insights.jsx:220-234 | A note is shown exactly when the entry has a non-empty note. |
| Insights.RecentRows | paz/src/pages/Insights.jsx:218-236 | One row per recent entry, in order. |
| Insights.EnglishMoodLabels | src/lib/translations.js:2-146 | The English labels are Great, Good, Okay, Low and Struggling. |
| Insights.SpanishMoodLabels | src/lib/translations.js:148-292 | The Spanish labels are Genial, Bien, Regular, Bajo and Difícil. |
| Insights.MoodLabelsDistinct | paz/src/pages/Insights.jsx:220-226 | For moods 1..5, two moods get the same label exactly when they are equal, in every language. |
| Insights.RowLabelsMeaning | paz/src/pages/Insights.jsx:220-226 | For moods 1..5, two rows get the same label exactly when their moods are equal, in every language. |
| Insights.RowFaceRank | paz/src/pages/Insights.jsx:220-226 | For moods 1..5, the face on a row ranks as mood−1. |
| AIChat.Spoken | src/components/AIChatBot.jsx:94-95 | No system message survives, and the result is no longer than the input. |
| AIChat.ToTurn | src/components/AIChatBot.jsx:96-99 | "user" stays user and every other role becomes model. The text is kept. |
| AIChat.History | src/components/AIChatBot.jsx:94-99 | One turn per non-system message, in order. |
| AIChat.SpokenMembers | src/components/AIChatBot.jsx:94-95 | Keeps exactly the non-system messages. |
| AIChat.HistoryAppend | src/components/AIChatBot.jsx:94-99 | The history grows by one turn per appended non-system message. |
| AIChat.SpokenAppend | src/components/AIChatBot.jsx:94-95 | The filter keeps the messages in their order. |
| AIChat.StartHistory | src/components/AIChatBot.jsx:86-107 | Never empty. It is the history when that is non-empty, else the seed of system prompt then acknowledgement. |
| AIChat.SeedIffOnlySystemMessages | src/components/AIChatBot.jsx:101-105 | The seed is used exactly when every message is a system message. |
| AIChat.MessageText | src/components/AIChatBot.jsx:153 | The transcript in voice mode when it is non-empty. Otherwise the trimmed input. |
| AIChat.MessageTextMeaning | src/components/AIChatBot.jsx:153 | The text is non-empty exactly when voice mode has a transcript or the input is not blank. Typed text is trimmed. |
| AIChat.FirstSendIffEmpty | src/components/AIChatBot.jsx:176-178 | In an alternating chat, there is no user message exactly when the chat is empty. |
| AIChat.AlternatingHistoryOpensWithUser | src/components/AIChatBot.jsx:94-105 | The history of an alternating chat opens with a user turn. |
| AIChat.FindVoice | src/components/AIChatBot.jsx:118-126 | The first voice that matches, or none when no voice matches. |
| AIChat.PreferredVoice | src/components/AIChatBot.jsx:118-126 | A voice is chosen exactly when the list is non-empty. |
| AIChat.PreferredVoiceChoice | src/components/AIChatBot.jsx:118-126 | The first female voice of the language, else the first voice of the language, else the first voice. |
| AIChat.PlayVoice | src/components/AIChatBot.jsx:109-137 | Speaks exactly when voice is on, output is voice and the text is non-empty. It speaks that text with the preferred voice, in "es-ES" exactly for "es" and "en-US" otherwise, at rate 0.95 and pitch 1. |
| AIChat.FallbackMessage | src/components/AIChatBot.jsx:184-186 | Non-empty. The English apology exactly when the language is not "es". |
| AIChat.AppendAlternates | src/components/AIChatBot.jsx:161-180 | Appending the expected role keeps the chat alternating. |
| AIChat.SendOpensExchange | src/components/AIChatBot.jsx:161-166 | A sent user message opens an exchange. |
| AIChat.AnswerClosesExchange | src/components/AIChatBot.jsx:168-188 | An assistant answer closes it. |
| AIChat.AIChatBot.constructor | src/components/AIChatBot.jsx:20-28 | Empty chat, text modes, voice on, nothing loading, no session and no conversations counted. |
| AIChat.AIChatBot.SetInput | src/components/AIChatBot.jsx:341 | Sets the typed input. No other field changes. |
| AIChat.AIChatBot.SetTranscript | src/components/AIChatBot.jsx:53-66 | Sets the transcript. No other field changes. |
| AIChat.AIChatBot.SetModes | src/components/AIChatBot.jsx:252-292 | Sets the input mode, the output mode and the voice flag. No other field changes. |
| AIChat.AIChatBot.BeginSend | src/components/AIChatBot.jsx:152-169 | With empty text, while loading or without a client, nothing changes. A free user at the gate gets only the modal. Otherwise the user message is appended, the fields are cleared and loading begins. The request records the text, the list before the send, the language and the voice settings. A session is started from that list only when none exists. |
| AIChat.AIChatBot.Enqueue | src/components/AIChatBot.jsx:161-169 | The boxes clear, the user message is appended and loading begins. The request records the text, the list before the send, the language and the voice settings. A session is started from that list only when none exists, and the roles keep alternating. |
| AIChat.AIChatBot.Complete | src/components/AIChatBot.jsx:167-190 | A reply is appended and the session is kept. The count rises exactly when the list before the send had no user message. The reply is spoken with the voice settings and the language recorded at the send. On an error, the fallback in the send's language is appended and the session is dropped. Loading ends either way. |
| AIChat.AIChatBot.Answer | src/components/AIChatBot.jsx:174-180 | The reply is appended and the session is kept. The count rises exactly when the list before the send had no user message. The reply is spoken with the voice settings and the language recorded at the send. The roles keep alternating. |
| AIChat.AIChatBot.Speak | src/components/AIChatBot.jsx:180 | An utterance, when there is one, becomes the one being spoken. Nothing else changes. |
| AIChat.AIChatBot.Fail | src/components/AIChatBot.jsx:181-188 | The session is dropped and the fallback message in the language of the send is appended. The count and the speech are unchanged. |
| AIChat.AIChatBot.NewConversation | src/components/AIChatBot.jsx:200-211 | As written: clears the messages and the session but leaves a request in flight. |
| AIChat.AIChatBot.NewConversationDiscardingReply | src/components/AIChatBot.jsx:200-211 | Corrected: also drops the request in flight, so the new chat stays alternating. |
| AIChat.SentHi | src/components/AIChatBot.jsx:152-169 | Sending "hi" leaves one user message pending an answer, with a session already started from the seed. |
| AIChat.LoneReplyHistory | src/components/AIChatBot.jsx:94-105 | A chat holding only an assistant message has a history that opens with a model turn. |
| AIChat.ReplyLandsInNewConversation | src/components/AIChatBot.jsx:200-211 | As written: "hi" is sent, New chat is pressed and "Hello" arrives. The new chat shows the lone reply, and the next send starts a session whose history is a single model turn. |
| AIChat.ReplyDiscardedAfterNewConversation | src/components/AIChatBot.jsx:200-211 | Corrected: the new chat stays empty, and the next send starts its session from the seed. |
| AIChat.SendOk | src/components/AIChatBot.jsx:152-169 | A settled chat sending "ok" in English is loading afterwards. Its session is the existing one, or one started from the list before the send. |
| AIChat.SentHiAloud | src/components/AIChatBot.jsx:152-169 | With voice output on, sending "hi" in English leaves a request that records voice on and output "voice". |
| AIChat.VoiceSwitchedOffWhileLoading | src/components/AIChatBot.jsx:109-180 | Voice output switched off while the reply is awaited: the reply "Hello" is still spoken, in "en-US" at rate 0.95 and pitch 1. |

## Left out

- Web Audio and HTML audio objects: the AudioContext and its `resume()`, the panner and oscillator nodes, and the exponential ramp to 0.001. Oscillators are records of id, frequency and pan, and the ramp is a counted event.
- Wall-clock order of timers: each `setTimeout` and `setInterval` callback is a pending record that a step method fires in any order. The durations are kept as data.
- `Math.random`, `new Date`, `toDateString`, `toLocaleDateString`, `getHours` and `getDate` are parameters (a pick index, a date string, a day number, an hour, a time in ms or a locale date).
- The backend client (`saveJournalEntry` and the mood queries) is external. The journal save is modelled as the request it would send.
- The generative chat client, speech recognition and speech synthesis are external calls. The reply or its failure, and the voice list, are parameters.
- AIChat.AIChatBot: `aiChatMessages`, `addAIChatMessage`, `clearAIChatMessages`, `shouldShowPremiumModal` and `incrementAIChatConversationCount` come from the store but are not defined in `src/store/useStore.js`. They are kept as the component's own fields, the gate is a `gateHit` parameter, and messages start empty.
- AIChat.AIChatBot: the open/closed toggle, the scroll effect, the Enter-key handler, and starting and stopping listening are UI only.
- Insights.ToFixed1: `toFixed(1)` works on the binary double nearest the mean, so a mean whose exact value lies on a tie, such as 4.45, may round either way in the browser. The model rounds exact rationals, with ties rounded up.
- The chart tooltip, the average's text on the card and the empty-state texts are display formatting.
- `getLast7Days` builds the days from the clock, so the days are inputs to `Insights.Chart`.
- Home's welcome sound is a single delayed `play` call covered by `Sounds.SoundManager.Play`. Its once-only flag is not modelled.
- JavaScript strings are UTF-16. `charCodeAt` in the daily-prompt seed is modelled as the code point, which differs only for characters outside the Basic Multilingual Plane. Date strings never contain such characters.
- Breathe.PhaseAnimation: the source's default branch for an unknown phase cannot be reached, because phases are a closed datatype.
- Sounds.SoundManager.SetVolume requires a value in [0,1], the range an HTML audio element accepts without throwing.
- HealingSoundsPage.HealingSoundsPage.HandlePlay requires the tapped sound to be `Playable` for its category: a binaural entry with base 200 and a positive beat, a tone with a positive frequency, or a nature entry with a URL. Every entry of the page's table has that shape (HzGenerator.EntryPlayable). Sound objects of any other shape are not modelled.
- Framer-motion animation props, CSS modules and routing are presentation only.
- The following parts are not part of this model: the backend wrappers, the pricing, subscription, welcome, settings and auth pages, the premium modal, the ad banner and the mood check-in pages.

## Findings

| source | as written | input that shows it | evidently intended | confidence | as-written member | corrected member |
|---|---|---|---|---|---|---|
| src/lib/hzGenerator.js:90-103 | The deferred teardown stops every oscillator in the list when it fires, including one started after `stop()`. | `playFrequency(440)`, then `playFrequency(528)` before the first teardown fires. That teardown reads the oscillator list when it fires, so it silences 528 Hz while `isPlaying` stays true. On the page, tapping one hertz entry and then another does the same. | Tear down only the oscillators that `stop()` was stopping. | high, not executed | HzGenerator.ToneGenerator.FireTeardown, HzGenerator.SwitchToneThenTeardown, HealingSoundsPage.SwitchTapsThenTeardown | HzGenerator.ToneGenerator.FireOwnTeardown, HzGenerator.SwitchToneThenOwnTeardown, HealingSoundsPage.SwitchTapsThenOwnTeardown |
| paz/src/pages/Breathe.jsx:107-110 | The effect cleanup holds only the first timeout of the phase chain, so reset cancels nothing once the first phase has passed. | Start "relaxing", wait 4 s, then reset. A timer is still pending. When it fires, the phase becomes "exhale" although the session is inactive and no exercise is selected. | Reset stops the whole chain. | high, not executed | Breathe.BreathingSession.Reset, Breathe.ResetAfterFirstPhase | Breathe.BreathingSession.ResetStoppingChain, Breathe.ResetStoppingChainAfterFirstPhase |
| src/components/AIChatBot.jsx:200-211 | New chat clears the messages and the session while a request is in flight, and the button stays enabled while loading. | Send "hi", press New chat, and the reply "Hello" arrives. The new chat shows a lone assistant message. The next send starts a session whose history is the single model turn "Hello". | Starting a new chat discards the reply in flight. | medium, not executed | AIChat.AIChatBot.NewConversation, AIChat.ReplyLandsInNewConversation | AIChat.AIChatBot.NewConversationDiscardingReply, AIChat.ReplyDiscardedAfterNewConversation |
