/**
 * The string tables of the app in English and Spanish, and `getTranslation`,
 * which looks a key up with a fallback chain: the requested language, then
 * English, then the key itself.
 */
module Translations {
  import opened Wrappers

  /** A table entry: a piece of text, or a list of texts such as the daily prompts. */
  datatype Value = Text(text: string) | List(items: seq<string>)

  /** JavaScript truthiness of an entry: the empty string is falsy, every array is truthy. */
  predicate Truthy(v: Value) {
    v.List? || v.text != ""
  }

  /** The `en` table of translations.js (lines 2-146). */
  function English(key: string): Option<Value> {
    match key
    case "appName" => Some(Text("Paz"))
    case "tagline" => Some(Text("Your daily peace"))
    case "home" => Some(Text("Home"))
    case "mood" => Some(Text("Mood"))
    case "breathe" => Some(Text("Breathe"))
    case "journal" => Some(Text("Journal"))
    case "insights" => Some(Text("Insights"))
    case "settings" => Some(Text("Settings"))
    case "healing" => Some(Text("Healing"))
    case "welcome" => Some(Text("Welcome"))
    case "signIn" => Some(Text("Sign In"))
    case "signUp" => Some(Text("Sign Up"))
    case "signOut" => Some(Text("Sign Out"))
    case "email" => Some(Text("Email"))
    case "password" => Some(Text("Password"))
    case "forgotPassword" => Some(Text("Forgot password?"))
    case "noAccount" => Some(Text("Don't have an account?"))
    case "hasAccount" => Some(Text("Already have an account?"))
    case "howAreYou" => Some(Text("How are you feeling?"))
    case "moodGreat" => Some(Text("Great"))
    case "moodGood" => Some(Text("Good"))
    case "moodOkay" => Some(Text("Okay"))
    case "moodLow" => Some(Text("Low"))
    case "moodBad" => Some(Text("Struggling"))
    case "addNote" => Some(Text("Add a note (optional)"))
    case "saveMood" => Some(Text("Save"))
    case "moodSaved" => Some(Text("Mood saved!"))
    case "breatheTitle" => Some(Text("Breathing Exercise"))
    case "breatheSubtitle" => Some(Text("Take a moment to center yourself"))
    case "tapToStart" => Some(Text("Tap to start"))
    case "inhale" => Some(Text("Inhale"))
    case "hold" => Some(Text("Hold"))
    case "exhale" => Some(Text("Exhale"))
    case "breatheComplete" => Some(Text("Well done!"))
    case "sessionComplete" => Some(Text("Session complete"))
    case "journalTitle" => Some(Text("Daily Journal"))
    case "journalPrompt" => Some(Text("What's on your mind today?"))
    case "gratitudeTitle" => Some(Text("Gratitude"))
    case "gratitudePrompt" => Some(Text("What are you grateful for?"))
    case "addGratitude" => Some(Text("Add gratitude"))
    case "saveEntry" => Some(Text("Save Entry"))
    case "entrySaved" => Some(Text("Entry saved!"))
    case "insightsTitle" => Some(Text("Your Insights"))
    case "weeklyMood" => Some(Text("Weekly Mood"))
    case "averageMood" => Some(Text("Average mood"))
    case "entriesCount" => Some(Text("Entries this week"))
    case "streak" => Some(Text("Day streak"))
    case "settingsTitle" => Some(Text("Settings"))
    case "language" => Some(Text("Language"))
    case "notifications" => Some(Text("Notifications"))
    case "dailyReminder" => Some(Text("Daily reminder"))
    case "subscription" => Some(Text("Subscription"))
    case "currentPlan" => Some(Text("Current plan"))
    case "freePlan" => Some(Text("Free"))
    case "premiumPlan" => Some(Text("Premium"))
    case "premiumPlusPlan" => Some(Text("Premium Plus"))
    case "upgradePlan" => Some(Text("Upgrade"))
    case "removeAds" => Some(Text("Remove ads"))
    case "subscriptionTitle" => Some(Text("Choose Your Plan"))
    case "premium" => Some(Text("Premium"))
    case "premiumPrice" => Some(Text("$2.99/month"))
    case "premiumFeatures" => Some(Text("All features • With ads"))
    case "premiumPlus" => Some(Text("Premium Plus"))
    case "premiumPlusPrice" => Some(Text("$4.99/month"))
    case "premiumPlusFeatures" => Some(Text("All features • No ads"))
    case "subscribe" => Some(Text("Subscribe"))
    case "today" => Some(Text("Today"))
    case "yesterday" => Some(Text("Yesterday"))
    case "thisWeek" => Some(Text("This week"))
    case "cancel" => Some(Text("Cancel"))
    case "save" => Some(Text("Save"))
    case "delete" => Some(Text("Delete"))
    case "edit" => Some(Text("Edit"))
    case "loading" => Some(Text("Loading..."))
    case "error" => Some(Text("Something went wrong"))
    case "tryAgain" => Some(Text("Try again"))
    case "prompts" => Some(List(EnglishPrompts))
    case "journalPrompts" => Some(List(EnglishJournalPrompts))
    case _ => None
  }

  const EnglishPrompts: seq<string> := [
    "Take a deep breath. You're doing great.",
    "What small thing brought you joy today?",
    "Remember: progress, not perfection.",
    "You are worthy of peace and happiness.",
    "One step at a time. You've got this.",
    "What are you grateful for right now?",
    "Be gentle with yourself today.",
    "Your feelings are valid. All of them.",
    "You don't have to have it all figured out.",
    "Rest is not laziness. It's recovery.",
    "What would you tell a friend in your situation?",
    "Small steps still move you forward.",
    "You've survived 100% of your hard days.",
    "It's okay to ask for help.",
    "Your best is enough. Always.",
    "This moment will pass. Breathe through it.",
    "You are more resilient than you know.",
    "What's one thing you did well today?",
    "Pause. You don't have to react right now.",
    "Your peace matters. Protect it.",
    "Celebrate small wins. They add up.",
    "You are not your anxious thoughts.",
    "Tomorrow is a fresh start.",
    "It's okay to say no.",
    "You bring value to the world just by being you.",
    "Let go of what you can't control.",
    "Your journey is unique. Don't compare.",
    "Kindness to yourself is not selfish.",
    "You've grown so much. Acknowledge it.",
    "This feeling is temporary. You are not."
  ]

  const EnglishJournalPrompts: seq<string> := [
    "What made you smile today?",
    "What's weighing on your mind right now?",
    "Describe a moment of peace you experienced recently.",
    "What's something you're looking forward to?",
    "Write about someone who made a difference in your life.",
    "What would your ideal day look like?",
    "What's a challenge you overcame recently?",
    "What do you need to let go of?",
    "Write a letter to your future self.",
    "What are three things that make you feel calm?"
  ]

  /** The `es` table of translations.js (lines 148-292). */
  function Spanish(key: string): Option<Value> {
    match key
    case "appName" => Some(Text("Paz"))
    case "tagline" => Some(Text("Tu paz diaria"))
    case "home" => Some(Text("Inicio"))
    case "mood" => Some(Text("Ánimo"))
    case "breathe" => Some(Text("Respirar"))
    case "journal" => Some(Text("Diario"))
    case "insights" => Some(Text("Progreso"))
    case "settings" => Some(Text("Ajustes"))
    case "healing" => Some(Text("Sanar"))
    case "welcome" => Some(Text("Bienvenido"))
    case "signIn" => Some(Text("Iniciar Sesión"))
    case "signUp" => Some(Text("Registrarse"))
    case "signOut" => Some(Text("Cerrar Sesión"))
    case "email" => Some(Text("Correo electrónico"))
    case "password" => Some(Text("Contraseña"))
    case "forgotPassword" => Some(Text("¿Olvidaste tu contraseña?"))
    case "noAccount" => Some(Text("¿No tienes una cuenta?"))
    case "hasAccount" => Some(Text("¿Ya tienes una cuenta?"))
    case "howAreYou" => Some(Text("¿Cómo te sientes?"))
    case "moodGreat" => Some(Text("Genial"))
    case "moodGood" => Some(Text("Bien"))
    case "moodOkay" => Some(Text("Regular"))
    case "moodLow" => Some(Text("Bajo"))
    case "moodBad" => Some(Text("Difícil"))
    case "addNote" => Some(Text("Agregar nota (opcional)"))
    case "saveMood" => Some(Text("Guardar"))
    case "moodSaved" => Some(Text("¡Ánimo guardado!"))
    case "breatheTitle" => Some(Text("Ejercicio de Respiración"))
    case "breatheSubtitle" => Some(Text("Toma un momento para centrarte"))
    case "tapToStart" => Some(Text("Toca para comenzar"))
    case "inhale" => Some(Text("Inhala"))
    case "hold" => Some(Text("Sostén"))
    case "exhale" => Some(Text("Exhala"))
    case "breatheComplete" => Some(Text("¡Muy bien!"))
    case "sessionComplete" => Some(Text("Sesión completada"))
    case "journalTitle" => Some(Text("Diario Personal"))
    case "journalPrompt" => Some(Text("¿Qué tienes en mente hoy?"))
    case "gratitudeTitle" => Some(Text("Gratitud"))
    case "gratitudePrompt" => Some(Text("¿Por qué estás agradecido/a?"))
    case "addGratitude" => Some(Text("Agregar gratitud"))
    case "saveEntry" => Some(Text("Guardar Entrada"))
    case "entrySaved" => Some(Text("¡Entrada guardada!"))
    case "insightsTitle" => Some(Text("Tu Progreso"))
    case "weeklyMood" => Some(Text("Ánimo Semanal"))
    case "averageMood" => Some(Text("Ánimo promedio"))
    case "entriesCount" => Some(Text("Entradas esta semana"))
    case "streak" => Some(Text("Días seguidos"))
    case "settingsTitle" => Some(Text("Ajustes"))
    case "language" => Some(Text("Idioma"))
    case "notifications" => Some(Text("Notificaciones"))
    case "dailyReminder" => Some(Text("Recordatorio diario"))
    case "subscription" => Some(Text("Suscripción"))
    case "currentPlan" => Some(Text("Plan actual"))
    case "freePlan" => Some(Text("Gratis"))
    case "premiumPlan" => Some(Text("Premium"))
    case "premiumPlusPlan" => Some(Text("Premium Plus"))
    case "upgradePlan" => Some(Text("Mejorar"))
    case "removeAds" => Some(Text("Sin anuncios"))
    case "subscriptionTitle" => Some(Text("Elige Tu Plan"))
    case "premium" => Some(Text("Premium"))
    case "premiumPrice" => Some(Text("$2.99/mes"))
    case "premiumFeatures" => Some(Text("Todas las funciones • Con anuncios"))
    case "premiumPlus" => Some(Text("Premium Plus"))
    case "premiumPlusPrice" => Some(Text("$4.99/mes"))
    case "premiumPlusFeatures" => Some(Text("Todas las funciones • Sin anuncios"))
    case "subscribe" => Some(Text("Suscribirse"))
    case "today" => Some(Text("Hoy"))
    case "yesterday" => Some(Text("Ayer"))
    case "thisWeek" => Some(Text("Esta semana"))
    case "cancel" => Some(Text("Cancelar"))
    case "save" => Some(Text("Guardar"))
    case "delete" => Some(Text("Eliminar"))
    case "edit" => Some(Text("Editar"))
    case "loading" => Some(Text("Cargando..."))
    case "error" => Some(Text("Algo salió mal"))
    case "tryAgain" => Some(Text("Intentar de nuevo"))
    case "prompts" => Some(List(SpanishPrompts))
    case "journalPrompts" => Some(List(SpanishJournalPrompts))
    case _ => None
  }

  const SpanishPrompts: seq<string> := [
    "Respira profundo. Lo estás haciendo muy bien.",
    "¿Qué pequeña cosa te trajo alegría hoy?",
    "Recuerda: progreso, no perfección.",
    "Mereces paz y felicidad.",
    "Un paso a la vez. Tú puedes.",
    "¿Por qué estás agradecido/a ahora mismo?",
    "Sé amable contigo mismo/a hoy.",
    "Tus sentimientos son válidos. Todos ellos.",
    "No tienes que tenerlo todo resuelto.",
    "Descansar no es pereza. Es recuperación.",
    "¿Qué le dirías a un amigo en tu situación?",
    "Los pequeños pasos también te mueven adelante.",
    "Has sobrevivido el 100% de tus días difíciles.",
    "Está bien pedir ayuda.",
    "Tu mejor esfuerzo es suficiente. Siempre.",
    "Este momento pasará. Respira.",
    "Eres más fuerte de lo que crees.",
    "¿Qué hiciste bien hoy?",
    "Pausa. No tienes que reaccionar ahora mismo.",
    "Tu paz importa. Protégela.",
    "Celebra las pequeñas victorias. Se acumulan.",
    "No eres tus pensamientos de ansiedad.",
    "Mañana es un nuevo comienzo.",
    "Está bien decir que no.",
    "Aportas valor al mundo solo por ser tú.",
    "Suelta lo que no puedes controlar.",
    "Tu camino es único. No te compares.",
    "Ser amable contigo mismo/a no es egoísta.",
    "Has crecido mucho. Reconócelo.",
    "Este sentimiento es temporal. Tú no lo eres."
  ]

  const SpanishJournalPrompts: seq<string> := [
    "¿Qué te hizo sonreír hoy?",
    "¿Qué está ocupando tu mente ahora mismo?",
    "Describe un momento de paz que experimentaste recientemente.",
    "¿Qué es algo que esperas con ilusión?",
    "Escribe sobre alguien que marcó una diferencia en tu vida.",
    "¿Cómo sería tu día ideal?",
    "¿Cuál es un desafío que superaste recientemente?",
    "¿Qué necesitas soltar?",
    "Escribe una carta a tu yo del futuro.",
    "¿Cuáles son tres cosas que te hacen sentir en calma?"
  ]

  /** `translations[lang]?.[key]`: only `en` and `es` have tables. */
  function Lookup(lang: string, key: string): Option<Value> {
    if lang == "en" then English(key)
    else if lang == "es" then Spanish(key)
    else None
  }

  /** An entry that is present and truthy, as the `||` chain checks it. */
  predicate Usable(v: Option<Value>) {
    v.Some? && Truthy(v.value)
  }

  /** `getTranslation(lang, key)`. */
  function GetTranslation(lang: string, key: string): (r: Value)
    ensures Usable(Lookup(lang, key)) ==> r == Lookup(lang, key).value
    ensures !Usable(Lookup(lang, key)) && Usable(English(key)) ==> r == English(key).value
    ensures !Usable(Lookup(lang, key)) && !Usable(English(key)) ==> r == Text(key)
  {
    var own := Lookup(lang, key);
    if Usable(own) then own.value
    else if Usable(English(key)) then English(key).value
    else Text(key)
  }

  /** Any language other than `en` and `es` reads the English table, down to the key fallback. */
  lemma UnknownLanguageIsEnglish(lang: string, key: string)
    requires lang != "en" && lang != "es"
    ensures GetTranslation(lang, key) == GetTranslation("en", key)
  {
  }

  /** For English the chain has two links: the entry when truthy, otherwise the key. */
  lemma EnglishOrKey(key: string)
    ensures GetTranslation("en", key) == if Usable(English(key)) then English(key).value else Text(key)
  {
  }

  /** A non-empty key never translates to a falsy value: something is always shown. */
  lemma TranslationShowsSomething(lang: string, key: string)
    requires key != ""
    ensures Truthy(GetTranslation(lang, key))
  {
  }

  /** The list entry `name` of a language, empty where the table has none. */
  function PromptList(lang: string, name: string): seq<string> {
    match Lookup(lang, name)
    case Some(List(items)) => items
    case _ => []
  }

  /** The English table rotates through 30 daily prompts and 10 journal prompts. */
  lemma EnglishPromptCounts()
    ensures PromptList("en", "prompts") == EnglishPrompts && |EnglishPrompts| == 30
    ensures PromptList("en", "journalPrompts") == EnglishJournalPrompts && |EnglishJournalPrompts| == 10
  {
    EnglishDailyPromptList();
    EnglishJournalPromptList();
  }

  /** The English daily prompts, as the table lists them. */
  lemma EnglishDailyPromptList()
    ensures PromptList("en", "prompts") == EnglishPrompts && |EnglishPrompts| == 30
  {
  }

  /** The English journal prompts, as the table lists them. */
  lemma EnglishJournalPromptList()
    ensures PromptList("en", "journalPrompts") == EnglishJournalPrompts && |EnglishJournalPrompts| == 10
  {
  }

  /** The Spanish table has as many prompts of each kind as the English one. */
  lemma SpanishPromptCounts()
    ensures PromptList("es", "prompts") == SpanishPrompts && |SpanishPrompts| == 30
    ensures PromptList("es", "journalPrompts") == SpanishJournalPrompts && |SpanishJournalPrompts| == 10
  {
    SpanishDailyPromptList();
    SpanishJournalPromptList();
  }

  /** The Spanish daily prompts, as the table lists them. */
  lemma SpanishDailyPromptList()
    ensures PromptList("es", "prompts") == SpanishPrompts && |SpanishPrompts| == 30
  {
  }

  /** The Spanish journal prompts, as the table lists them. */
  lemma SpanishJournalPromptList()
    ensures PromptList("es", "journalPrompts") == SpanishJournalPrompts && |SpanishJournalPrompts| == 10
  {
  }
}
