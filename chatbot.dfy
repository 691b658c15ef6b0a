/**
 * The scripted support chat: a conversation table per language, a message
 * list, the flow in progress and whether options are shown, and the
 * delayed bot replies as pending callbacks fired one at a time.
 */
module ChatBot {
  import opened Wrappers

  datatype MainOption = MainOption(id: string, caption: string, icon: string)

  datatype FlowOption = FlowOption(id: string, caption: string, response: string)

  datatype Flow = Flow(question: string, options: seq<FlowOption>)

  /** One language's conversations, without its flows. */
  datatype Content = Content(greeting: seq<string>, options: seq<MainOption>, followUp: seq<string>, closing: seq<string>)

  datatype Sender = Bot | User

  datatype Message = Message(sender: Sender, text: string)

  /** The `en` greeting, main options, follow-ups and closings. */
  const EnglishContent: Content := Content(
    [
      "Hi there! 👋 I'm here to support you. How can I help today?",
      "Hello! 🌟 Ready to check in with yourself?",
      "Hey! 💙 What brings you here today?"
    ],
    [
      MainOption("mood", "😊 Check my mood", "😊"),
      MainOption("breathe", "🌬️ Help me breathe", "🌬️"),
      MainOption("talk", "💬 I need to talk", "💬"),
      MainOption("gratitude", "✨ Gratitude practice", "✨")
    ],
    [
      "Is there anything else on your mind?",
      "Would you like to explore something else?",
      "I'm still here if you need me. 💙"
    ],
    [
      "Remember: you're doing better than you think. 💙",
      "Take care of yourself. You deserve peace. ✨",
      "I'm always here when you need me. 🌟"
    ]
  )

  /** The `flows` of the `en` conversations. */
  function EnglishFlow(id: string): Option<Flow> {
    match id
    case "mood" => Some(EnglishMood)
    case "breathe" => Some(EnglishBreathe)
    case "talk" => Some(EnglishTalk)
    case "gratitude" => Some(EnglishGratitude)
    case _ => None
  }

  const EnglishMood: Flow := Flow(
    "How are you feeling right now? Be honest — there's no wrong answer.",
    [
      FlowOption("great", "😄 Great",
        "That's wonderful! 🎉 What's contributing to your good mood today? Recognizing the good helps us appreciate it more."),
      FlowOption("good", "🙂 Good",
        "Nice! 😊 Even \"good\" is worth celebrating. What's one small thing that went well today?"),
      FlowOption("okay", "😐 Okay",
        "That's okay. 💙 \"Okay\" is valid. Sometimes we're just... okay. Want to talk about what's on your mind?"),
      FlowOption("low", "😔 Low",
        "I hear you. 💙 Thank you for being honest. It takes courage to acknowledge when we're struggling. You're not alone in this. Would a breathing exercise help?"),
      FlowOption("bad", "😢 Struggling",
        "I'm sorry you're going through a hard time. 💙 Your feelings are valid. Remember: this feeling is temporary, but you are not. I'm here with you. Would you like to try a calming exercise?")
    ]
  )

  const EnglishBreathe: Flow := Flow(
    "Let's take a moment together. 🌬️ Which sounds right for you?",
    [
      FlowOption("calm", "🌙 I need calm",
        "Let's try this: Close your eyes. Breathe in for 4 counts... hold for 4... out for 6. I'll wait. 🌙\n\n...\n\nHow do you feel? Even one breath can shift your energy."),
      FlowOption("focus", "☀️ I need focus",
        "Try this energizing breath: Quick inhale through nose, quick exhale through mouth. Do this 10 times. ☀️\n\n...\n\nBetter? Sometimes we just need to reset."),
      FlowOption("sleep", "😴 I can't sleep",
        "The 4-7-8 technique works wonders: Inhale 4 counts, hold 7, exhale 8. Repeat 3 times. 😴\n\nThis activates your parasympathetic nervous system. Sweet dreams.")
    ]
  )

  const EnglishTalk: Flow := Flow(
    "I'm listening. 💙 What's on your mind?",
    [
      FlowOption("stressed", "😰 Feeling stressed",
        "Stress is your body's way of saying something needs attention. 💙 What's the biggest thing weighing on you right now? Sometimes just naming it helps reduce its power."),
      FlowOption("anxious", "😟 Feeling anxious",
        "Anxiety can feel overwhelming, but remember: you've survived 100% of your anxious moments so far. 💙 Try this: name 5 things you can see right now. This grounds you in the present."),
      FlowOption("sad", "😢 Feeling sad",
        "Sadness is a natural part of being human. 💙 It means you care deeply. Be gentle with yourself today. What's one small comfort you could give yourself right now?"),
      FlowOption("lonely", "😔 Feeling lonely",
        "Loneliness is hard. 💙 But reaching out — even to this app — shows strength. You matter. Your presence in this world matters. Is there one person you could text today, even just to say hi?"),
      FlowOption("overwhelmed", "🤯 Feeling overwhelmed",
        "When everything feels like too much, focus on just the next step. 💙 Not the whole staircase — just one step. What's ONE small thing you can do in the next 5 minutes?")
    ]
  )

  const EnglishGratitude: Flow := Flow(
    "Gratitude shifts our focus from what's missing to what's present. ✨ Let's practice:",
    [
      FlowOption("simple", "🌱 Something simple",
        "Name one simple pleasure you experienced today — maybe your morning coffee, a comfortable bed, or a moment of quiet. ☕ These small things ARE the good life."),
      FlowOption("person", "👤 A person",
        "Think of someone who has positively impacted your life. 💙 What would you thank them for? Consider telling them — gratitude shared multiplies."),
      FlowOption("challenge", "💪 A challenge",
        "What's a difficulty that taught you something valuable? 💪 Sometimes our hardest moments become our greatest teachers. What did you learn?"),
      FlowOption("body", "🫀 My body",
        "Your body carries you through every day. 🫀 Thank your lungs for breathing, your heart for beating, your legs for moving. What part of your body can you appreciate today?")
    ]
  )

  /** The `es` greeting, main options, follow-ups and closings. */
  const SpanishContent: Content := Content(
    [
      "¡Hola! 👋 Estoy aquí para apoyarte. ¿Cómo puedo ayudarte hoy?",
      "¡Hola! 🌟 ¿Listo/a para conectar contigo mismo/a?",
      "¡Hey! 💙 ¿Qué te trae por aquí hoy?"
    ],
    [
      MainOption("mood", "😊 Revisar mi ánimo", "😊"),
      MainOption("breathe", "🌬️ Ayúdame a respirar", "🌬️"),
      MainOption("talk", "💬 Necesito hablar", "💬"),
      MainOption("gratitude", "✨ Práctica de gratitud", "✨")
    ],
    [
      "¿Hay algo más en tu mente?",
      "¿Te gustaría explorar algo más?",
      "Sigo aquí si me necesitas. 💙"
    ],
    [
      "Recuerda: lo estás haciendo mejor de lo que crees. 💙",
      "Cuídate. Mereces paz. ✨",
      "Siempre estoy aquí cuando me necesites. 🌟"
    ]
  )

  /** The `flows` of the `es` conversations. */
  function SpanishFlow(id: string): Option<Flow> {
    match id
    case "mood" => Some(SpanishMood)
    case "breathe" => Some(SpanishBreathe)
    case "talk" => Some(SpanishTalk)
    case "gratitude" => Some(SpanishGratitude)
    case _ => None
  }

  const SpanishMood: Flow := Flow(
    "¿Cómo te sientes ahora mismo? Sé honesto/a — no hay respuesta incorrecta.",
    [
      FlowOption("great", "😄 Genial",
        "¡Qué maravilla! 🎉 ¿Qué está contribuyendo a tu buen ánimo hoy? Reconocer lo bueno nos ayuda a apreciarlo más."),
      FlowOption("good", "🙂 Bien",
        "¡Qué bien! 😊 Incluso \"bien\" vale la pena celebrar. ¿Qué es una pequeña cosa que salió bien hoy?"),
      FlowOption("okay", "😐 Regular",
        "Está bien. 💙 \"Regular\" es válido. A veces simplemente estamos... regular. ¿Quieres hablar de lo que tienes en mente?"),
      FlowOption("low", "😔 Bajo",
        "Te escucho. 💙 Gracias por ser honesto/a. Se necesita valor para reconocer cuando estamos luchando. No estás solo/a en esto. ¿Te ayudaría un ejercicio de respiración?"),
      FlowOption("bad", "😢 Difícil",
        "Lamento que estés pasando por un momento difícil. 💙 Tus sentimientos son válidos. Recuerda: este sentimiento es temporal, pero tú no lo eres. Estoy aquí contigo. ¿Te gustaría probar un ejercicio calmante?")
    ]
  )

  const SpanishBreathe: Flow := Flow(
    "Tomemos un momento juntos. 🌬️ ¿Cuál te parece bien?",
    [
      FlowOption("calm", "🌙 Necesito calma",
        "Probemos esto: Cierra los ojos. Inhala por 4 tiempos... sostén por 4... exhala por 6. Te espero. 🌙\n\n...\n\n¿Cómo te sientes? Incluso una respiración puede cambiar tu energía."),
      FlowOption("focus", "☀️ Necesito enfoque",
        "Prueba esta respiración energizante: Inhala rápido por la nariz, exhala rápido por la boca. Hazlo 10 veces. ☀️\n\n...\n\n¿Mejor? A veces solo necesitamos reiniciar."),
      FlowOption("sleep", "😴 No puedo dormir",
        "La técnica 4-7-8 hace maravillas: Inhala 4 tiempos, sostén 7, exhala 8. Repite 3 veces. 😴\n\nEsto activa tu sistema nervioso parasimpático. Dulces sueños.")
    ]
  )

  const SpanishTalk: Flow := Flow(
    "Te escucho. 💙 ¿Qué tienes en mente?",
    [
      FlowOption("stressed", "😰 Me siento estresado/a",
        "El estrés es la forma de tu cuerpo de decir que algo necesita atención. 💙 ¿Cuál es lo más grande que te pesa ahora mismo? A veces solo nombrarlo ayuda a reducir su poder."),
      FlowOption("anxious", "😟 Me siento ansioso/a",
        "La ansiedad puede sentirse abrumadora, pero recuerda: has sobrevivido el 100% de tus momentos ansiosos hasta ahora. 💙 Intenta esto: nombra 5 cosas que puedes ver ahora mismo. Esto te ancla al presente."),
      FlowOption("sad", "😢 Me siento triste",
        "La tristeza es una parte natural de ser humano. 💙 Significa que te importa profundamente. Sé gentil contigo hoy. ¿Cuál es un pequeño consuelo que podrías darte ahora mismo?"),
      FlowOption("lonely", "😔 Me siento solo/a",
        "La soledad es difícil. 💙 Pero buscar ayuda — incluso en esta app — muestra fortaleza. Importas. Tu presencia en este mundo importa. ¿Hay una persona a quien podrías escribir hoy, aunque sea solo para saludar?"),
      FlowOption("overwhelmed", "🤯 Me siento abrumado/a",
        "Cuando todo se siente como demasiado, enfócate solo en el siguiente paso. 💙 No toda la escalera — solo un paso. ¿Cuál es UNA pequeña cosa que puedes hacer en los próximos 5 minutos?")
    ]
  )

  const SpanishGratitude: Flow := Flow(
    "La gratitud cambia nuestro enfoque de lo que falta a lo que está presente. ✨ Practiquemos:",
    [
      FlowOption("simple", "🌱 Algo simple",
        "Nombra un placer simple que experimentaste hoy — quizás tu café de la mañana, una cama cómoda, o un momento de quietud. ☕ Estas pequeñas cosas SON la buena vida."),
      FlowOption("person", "👤 Una persona",
        "Piensa en alguien que ha impactado positivamente tu vida. 💙 ¿Por qué le darías las gracias? Considera decírselo — la gratitud compartida se multiplica."),
      FlowOption("challenge", "💪 Un desafío",
        "¿Cuál es una dificultad que te enseñó algo valioso? 💪 A veces nuestros momentos más difíciles se convierten en nuestros mejores maestros. ¿Qué aprendiste?"),
      FlowOption("body", "🫀 Mi cuerpo",
        "Tu cuerpo te lleva a través de cada día. 🫀 Agradece a tus pulmones por respirar, a tu corazón por latir, a tus piernas por moverte. ¿Qué parte de tu cuerpo puedes apreciar hoy?")
    ]
  )
  /** The ids of the main options, which are the keys of `flows`, in both languages. */
  const FlowIds: seq<string> := ["mood", "breathe", "talk", "gratitude"]

  /** `conversations[language] || conversations.en`: Spanish for "es", English for anything else. */
  function ContentFor(language: string): (r: Content)
    ensures language == "es" ==> r == SpanishContent
    ensures language != "es" ==> r == EnglishContent
  {
    if language == "es" then SpanishContent else EnglishContent
  }

  /** `content.flows[id]` of the content `ContentFor(language)`. */
  function FlowFor(language: string, id: string): (r: Option<Flow>)
    ensures language == "es" ==> r == SpanishFlow(id)
    ensures language != "es" ==> r == EnglishFlow(id)
  {
    if language == "es" then SpanishFlow(id) else EnglishFlow(id)
  }

  /** Whether `id` is one of the flow ids. */
  predicate IsFlowId(id: string) {
    id == "mood" || id == "breathe" || id == "talk" || id == "gratitude"
  }

  /**
   * In every language the main options are, in order, the four flow ids,
   * and an id has a flow exactly when it is one of them.
   */
  lemma OptionsMatchFlows(language: string, id: string)
    ensures |ContentFor(language).options| == 4
    ensures forall i :: 0 <= i < 4 ==> ContentFor(language).options[i].id == FlowIds[i]
    ensures FlowFor(language, id).Some? <==> IsFlowId(id)
  {
  }

  /** Every table has something to pick from, and every flow offers options. */
  lemma ContentNonEmpty(language: string, id: string)
    ensures |ContentFor(language).greeting| == 3 && |ContentFor(language).followUp| == 3
    ensures |ContentFor(language).closing| == 3
    ensures FlowFor(language, id).Some? ==> |FlowFor(language, id).value.options| >= 3
  {
  }

  /** Any language but Spanish gets the English conversations. */
  lemma UnknownLanguageIsEnglish(language: string, id: string)
    requires language != "es"
    ensures ContentFor(language) == ContentFor("en") && FlowFor(language, id) == FlowFor("en", id)
  {
  }

  /** A delayed callback, with what its closure captured. */
  datatype Callback =
    | AskQuestion(flowId: string, question: string)
    | Respond(response: string, language: string)
    | FollowUp(language: string)
    | CloseWindow
    | ClearChat

  /** The delay, in ms, each callback was scheduled with. */
  function DelayOf(c: Callback): nat {
    match c
    case AskQuestion(_, _) => 500
    case Respond(_, _) => 500
    case FollowUp(_) => 1500
    case CloseWindow => 2000
    case ClearChat => 500
  }

  class ChatWindow {
    var isOpen: bool
    var messages: seq<Message>
    var currentFlow: Option<string>
    var showOptions: bool
    /** The callbacks scheduled and not yet fired. */
    var pending: seq<Callback>

    /** The flow in progress, and every flow a pending question opens, is one of the flow ids. */
    ghost predicate Valid()
      reads this
    {
      && (currentFlow.Some? ==> IsFlowId(currentFlow.value))
      && (forall c :: c in pending && c.AskQuestion? ==> IsFlowId(c.flowId))
    }

    constructor ()
      ensures Valid() && !isOpen && messages == [] && currentFlow == None && showOptions && pending == []
    {
      isOpen := false;
      messages := [];
      currentFlow := None;
      showOptions := true;
      pending := [];
    }

    /** `handleOpen`: open the window; an empty chat gets greeting `pick`. */
    method Open(language: string, pick: nat)
      requires Valid() && pick < |ContentFor(language).greeting|
      modifies this
      ensures Valid() && isOpen
      ensures old(messages) == [] ==> messages == [Message(Bot, ContentFor(language).greeting[pick])]
      ensures old(messages) != [] ==> messages == old(messages)
      ensures currentFlow == old(currentFlow) && showOptions == old(showOptions) && pending == old(pending)
    {
      isOpen := true;
      if messages == [] {
        messages := [Message(Bot, ContentFor(language).greeting[pick])];
      }
    }

    /** `handleClose`. */
    method Close()
      requires Valid()
      modifies this
      ensures Valid() && !isOpen
      ensures messages == old(messages) && currentFlow == old(currentFlow) && showOptions == old(showOptions) && pending == old(pending)
    {
      isOpen := false;
    }

    /** `handleReset`: a fresh chat with greeting `pick`, no flow and the options shown; pending callbacks stay. */
    method Reset(language: string, pick: nat)
      requires Valid() && pick < |ContentFor(language).greeting|
      modifies this
      ensures Valid() && messages == [Message(Bot, ContentFor(language).greeting[pick])]
      ensures currentFlow == None && showOptions
      ensures isOpen == old(isOpen) && pending == old(pending)
    {
      messages := [];
      currentFlow := None;
      showOptions := true;
      messages := [Message(Bot, ContentFor(language).greeting[pick])];
    }

    /** `handleMainOption` for main option `i`: the user's choice now, the flow's question after 500 ms. */
    method ChooseMainOption(language: string, i: nat)
      requires Valid() && i < |ContentFor(language).options|
      modifies this
      ensures Valid()
      ensures var option := ContentFor(language).options[i];
        && FlowFor(language, option.id).Some?
        && messages == old(messages) + [Message(User, option.caption)]
        && pending == old(pending) + [AskQuestion(option.id, FlowFor(language, option.id).value.question)]
      ensures isOpen == old(isOpen) && currentFlow == old(currentFlow) && showOptions == old(showOptions)
    {
      OptionsMatchFlows(language, ContentFor(language).options[i].id);
      var option := ContentFor(language).options[i];
      var flow := FlowFor(language, option.id).value;
      messages := messages + [Message(User, option.caption)];
      pending := pending + [AskQuestion(option.id, flow.question)];
    }

    /**
     * `handleFlowOption`: the user's answer now and the options hidden; the
     * option's response after 500 ms, then a follow-up.
     */
    method ChooseFlowOption(language: string, option: FlowOption)
      requires Valid()
      modifies this
      ensures Valid()
      ensures messages == old(messages) + [Message(User, option.caption)] && !showOptions
      ensures pending == old(pending) + [Respond(option.response, language)]
      ensures isOpen == old(isOpen) && currentFlow == old(currentFlow)
    {
      messages := messages + [Message(User, option.caption)];
      pending := pending + [Respond(option.response, language)];
      showOptions := false;
    }

    /** `handleEndChat`: closing `pick` now and the options hidden; the window closes after 2000 ms. */
    method EndChat(language: string, pick: nat)
      requires Valid() && pick < |ContentFor(language).closing|
      modifies this
      ensures Valid()
      ensures messages == old(messages) + [Message(Bot, ContentFor(language).closing[pick])] && !showOptions
      ensures pending == old(pending) + [CloseWindow]
      ensures isOpen == old(isOpen) && currentFlow == old(currentFlow)
    {
      messages := messages + [Message(Bot, ContentFor(language).closing[pick])];
      showOptions := false;
      pending := pending + [CloseWindow];
    }

    /**
     * Pending callback `k` fires (`pick` is the follow-up drawn, when it is
     * one): a question opens its flow with the options shown; a response is
     * followed 1500 ms later by a follow-up, which ends the flow and shows
     * the options; closing the window schedules clearing the chat 500 ms later.
     */
    method Fire(k: nat, pick: nat)
      requires Valid() && k < |pending|
      requires pending[k].FollowUp? ==> pick < |ContentFor(pending[k].language).followUp|
      modifies this
      ensures Valid()
      ensures var c := old(pending[k]);
        var rest := old(pending[..k] + pending[k + 1..]);
        match c
        case AskQuestion(id, question) =>
          && messages == old(messages) + [Message(Bot, question)]
          && currentFlow == Some(id) && showOptions && pending == rest && isOpen == old(isOpen)
        case Respond(response, language) =>
          && messages == old(messages) + [Message(Bot, response)]
          && pending == rest + [FollowUp(language)]
          && currentFlow == old(currentFlow) && showOptions == old(showOptions) && isOpen == old(isOpen)
        case FollowUp(language) =>
          && messages == old(messages) + [Message(Bot, ContentFor(language).followUp[pick])]
          && currentFlow == None && showOptions && pending == rest && isOpen == old(isOpen)
        case CloseWindow =>
          && !isOpen && pending == rest + [ClearChat]
          && messages == old(messages) && currentFlow == old(currentFlow) && showOptions == old(showOptions)
        case ClearChat =>
          && messages == [] && currentFlow == None && showOptions && pending == rest && isOpen == old(isOpen)
    {
      var c := pending[k];
      var rest := pending[..k] + pending[k + 1..];
      assert forall d :: d in rest ==> d in pending;
      pending := rest;
      match c
      case AskQuestion(id, question) =>
        messages := messages + [Message(Bot, question)];
        currentFlow := Some(id);
        showOptions := true;
      case Respond(response, language) =>
        messages := messages + [Message(Bot, response)];
        pending := pending + [FollowUp(language)];
      case FollowUp(language) =>
        messages := messages + [Message(Bot, ContentFor(language).followUp[pick])];
        currentFlow := None;
        showOptions := true;
      case CloseWindow =>
        isOpen := false;
        pending := pending + [ClearChat];
      case ClearChat =>
        messages := [];
        currentFlow := None;
        showOptions := true;
    }
  }

  /**
   * A whole exchange in English: open, choose "mood", answer "great", and
   * let the three replies arrive. The chat then holds six messages and is
   * back at the main options.
   */
  method MoodExchange() returns (transcript: seq<Message>, flow: Option<string>, options: bool)
    ensures |transcript| == 6 && flow == None && options
    ensures transcript[0] == Message(Bot, EnglishContent.greeting[0])
    ensures transcript[2] == Message(Bot, EnglishMood.question)
    ensures transcript[4] == Message(Bot, EnglishMood.options[0].response)
    ensures [transcript[1].sender, transcript[3].sender, transcript[5].sender] == [User, User, Bot]
  {
    var chat := new ChatWindow();
    chat.Open("en", 0);
    chat.ChooseMainOption("en", 0);
    chat.Fire(0, 0);
    chat.ChooseFlowOption("en", EnglishMood.options[0]);
    chat.Fire(0, 0);
    chat.Fire(0, 0);
    transcript, flow, options := chat.messages, chat.currentFlow, chat.showOptions;
  }
}
