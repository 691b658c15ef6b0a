/**
 * The AI companion chat: the history a chat session is started with, the
 * text a send takes, the guards and state changes of a send, the premium
 * gate, and the choice of voice for spoken replies.
 *
 * The hosted model is an input: a send is split into `BeginSend`, which runs
 * up to the request (the session is started there, since starting it does not
 * wait on anything), and `Complete`, which takes the reply (`None` when the
 * request throws). `sendMessage` is a closure of the render it was sent from,
 * so the language and voice settings of the send are recorded with it. The premium gate's answer and the browser's voice list are
 * parameters too. The message list, the conversation count and the gate are
 * store fields the component uses; the store does not define them, so they
 * live on the component here.
 */
module AIChat {
  import opened Wrappers
  import opened Strings

  /** A stored chat message; `role` is "user", "assistant" or "system". */
  datatype ChatMessage = ChatMessage(role: string, content: string)

  /** One turn of the hosted model's history: role "user" or "model". */
  datatype Turn = Turn(role: string, text: string)

  /** The messages the history keeps: every one that is not a system message, in order. */
  function Spoken(ms: seq<ChatMessage>): (r: seq<ChatMessage>)
    ensures |r| <= |ms|
    ensures forall i :: 0 <= i < |r| ==> r[i].role != "system"
  {
    if ms == [] then []
    else (if ms[0].role == "system" then [] else [ms[0]]) + Spoken(ms[1..])
  }

  /** A message as a turn: the user stays the user, every other role becomes the model. */
  function ToTurn(m: ChatMessage): (t: Turn)
    ensures t.role == "user" || t.role == "model"
    ensures t.role == "user" <==> m.role == "user"
    ensures t.text == m.content
  {
    Turn(if m.role == "user" then "user" else "model", m.content)
  }

  /** The history built from the stored messages: system messages dropped, the rest converted. */
  function History(ms: seq<ChatMessage>): (r: seq<Turn>)
    ensures |r| == |Spoken(ms)|
    ensures forall i :: 0 <= i < |r| ==> r[i] == ToTurn(Spoken(ms)[i])
  {
    var kept := Spoken(ms);
    seq(|kept|, i requires 0 <= i < |kept| => ToTurn(kept[i]))
  }

  /** The kept messages are exactly the non-system ones. */
  lemma {:induction false} SpokenMembers(ms: seq<ChatMessage>)
    ensures forall m :: m in Spoken(ms) <==> m in ms && m.role != "system"
  {
    if ms != [] {
      SpokenMembers(ms[1..]);
      assert ms == [ms[0]] + ms[1..];
    }
  }

  /** Conversion keeps order: a message added last becomes the last turn, unless it is a system message. */
  lemma {:induction false} HistoryAppend(ms: seq<ChatMessage>, m: ChatMessage)
    ensures History(ms + [m]) == History(ms) + (if m.role == "system" then [] else [ToTurn(m)])
  {
    SpokenAppend(ms, m);
  }

  lemma {:induction false} SpokenAppend(ms: seq<ChatMessage>, m: ChatMessage)
    ensures Spoken(ms + [m]) == Spoken(ms) + (if m.role == "system" then [] else [m])
  {
    if ms != [] {
      assert (ms + [m])[0] == ms[0];
      assert (ms + [m])[1..] == ms[1..] + [m];
      SpokenAppend(ms[1..], m);
    } else {
      assert ms + [m] == [m];
    }
  }

  /** The instructions that open a fresh history, Spanish for "es" and English otherwise. */
  function SystemPrompt(language: string): string {
    if language == "es" then
      "Eres Paz, una guía espiritual compasiva y empática. Responde SIEMPRE en Español. Sé breve (1-2 frases), empático y comprensivo. Enfócate en el bienestar mental y emocional."
    else
      "You are Paz, a compassionate and empathetic spiritual guide. Always respond in English. Keep it brief (1-2 sentences), empathetic and understanding. Focus on mental and emotional wellness."
  }

  /** The model's acknowledgement of the instructions. */
  function Acknowledgement(language: string): string {
    if language == "es" then "Entendido. ¿Cómo te puedo ayudar hoy?" else "Understood. How can I help you today?"
  }

  /** The history a new session starts with: the converted messages, or the two-turn seed when there are none. */
  function StartHistory(ms: seq<ChatMessage>, language: string): (r: seq<Turn>)
    ensures r != []
    ensures History(ms) != [] ==> r == History(ms)
    ensures History(ms) == [] ==>
      r == [Turn("user", SystemPrompt(language)), Turn("model", Acknowledgement(language))]
  {
    var history := History(ms);
    if |history| > 0 then history else [Turn("user", SystemPrompt(language)), Turn("model", Acknowledgement(language))]
  }

  /** The seed is used exactly when every stored message is a system message. */
  lemma SeedIffOnlySystemMessages(ms: seq<ChatMessage>, language: string)
    ensures (forall m :: m in ms ==> m.role == "system") ==>
      StartHistory(ms, language)[0] == Turn("user", SystemPrompt(language))
    ensures (exists m :: m in ms && m.role != "system") ==> StartHistory(ms, language) == History(ms)
  {
    SpokenMembers(ms);
    if exists m :: m in ms && m.role != "system" {
      var m :| m in ms && m.role != "system";
      assert m in Spoken(ms);
    } else {
      assert forall k :: 0 <= k < |Spoken(ms)| ==> Spoken(ms)[k] in Spoken(ms);
    }
  }

  /** `inputMode === 'voice' && transcript ? transcript : input.trim()`. */
  function MessageText(inputMode: string, transcript: string, input: string): (r: string)
    ensures inputMode == "voice" && transcript != "" ==> r == transcript
    ensures !(inputMode == "voice" && transcript != "") ==> r == Trim(input)
  {
    if inputMode == "voice" && transcript != "" then transcript else Trim(input)
  }

  /**
   * There is something to send exactly when voice mode has a transcript or
   * the input box has more than whitespace; typed text is sent trimmed.
   */
  lemma MessageTextMeaning(inputMode: string, transcript: string, input: string)
    ensures MessageText(inputMode, transcript, input) != "" <==>
      (inputMode == "voice" && transcript != "") || !IsBlank(input)
    ensures !(inputMode == "voice" && transcript != "") && !IsBlank(input) ==>
      var r := MessageText(inputMode, transcript, input);
      !IsWhitespace(r[0]) && !IsWhitespace(r[|r| - 1]) && Contains(input, r)
  {
    var r := MessageText(inputMode, transcript, input);
    if !(inputMode == "voice" && transcript != "") && !IsBlank(input) {
      TrimEdges(input);
      var lo :| SliceAt(input, lo, r);
      assert 0 <= lo <= |input|;
    }
  }

  /** No user message in the list. */
  predicate NoUserMessage(ms: seq<ChatMessage>) {
    forall i :: 0 <= i < |ms| ==> ms[i].role != "user"
  }

  /** The role a message has at position `i` of a conversation made of exchanges. */
  function RoleAt(i: nat): string {
    if i % 2 == 0 then "user" else "assistant"
  }

  /** The messages alternate user, assistant, user, ... from the first one. */
  predicate RolesAlternate(ms: seq<ChatMessage>) {
    forall i :: 0 <= i < |ms| ==> ms[i].role == RoleAt(i)
  }

  /**
   * In an alternating list the conversation count's condition — no user message
   * yet — holds exactly for the empty list: it counts first sends.
   */
  lemma FirstSendIffEmpty(ms: seq<ChatMessage>)
    requires RolesAlternate(ms)
    ensures NoUserMessage(ms) <==> ms == []
  {
    if ms != [] {
      assert ms[0].role == "user";
    }
  }

  /** A session started from an alternating list opens with a user turn. */
  lemma AlternatingHistoryOpensWithUser(ms: seq<ChatMessage>, language: string)
    requires RolesAlternate(ms)
    ensures StartHistory(ms, language)[0].role == "user"
  {
    if ms != [] {
      assert ms[0].role == "user";
      assert ms == [ms[0]] + ms[1..];
      assert Spoken(ms)[0] == ms[0];
    }
  }

  /** A voice the browser offers. */
  datatype Voice = Voice(name: string, lang: string)

  /** `list.findIndex(p)`: the first position whose voice satisfies `p`. */
  function FindVoice(voices: seq<Voice>, p: Voice -> bool): (r: Option<nat>)
    ensures r.Some? ==>
      r.value < |voices| && p(voices[r.value]) && forall j :: 0 <= j < r.value ==> !p(voices[j])
    ensures r.None? ==> forall j :: 0 <= j < |voices| ==> !p(voices[j])
  {
    if voices == [] then None
    else if p(voices[0]) then Some(0)
    else match FindVoice(voices[1..], p)
      case None => None
      case Some(k) => Some(k + 1)
  }

  /** The language code the voice's `lang` must contain: "es" for Spanish, "en" otherwise. */
  function VoiceCode(language: string): string {
    if language == "es" then "es" else "en"
  }

  predicate SpeaksLanguage(v: Voice, language: string) {
    Contains(v.lang, VoiceCode(language))
  }

  predicate IsFemale(v: Voice, language: string) {
    SpeaksLanguage(v, language) && Contains(v.name, "female")
  }

  /** Position `i` holds the first female voice for the language. */
  predicate FirstFemale(voices: seq<Voice>, i: int, language: string) {
    0 <= i < |voices| && IsFemale(voices[i], language)
    && forall j :: 0 <= j < i ==> !IsFemale(voices[j], language)
  }

  /** Position `i` holds the first voice for the language. */
  predicate FirstSpeaker(voices: seq<Voice>, i: int, language: string) {
    0 <= i < |voices| && SpeaksLanguage(voices[i], language)
    && forall j :: 0 <= j < i ==> !SpeaksLanguage(voices[j], language)
  }

  /**
   * The preferred voice: the first female voice for the language, else the
   * first voice for the language, else the first voice of all; none when the
   * browser offers none.
   */
  function PreferredVoice(voices: seq<Voice>, language: string): (r: Option<Voice>)
    ensures r.None? <==> voices == []
  {
    match FindVoice(voices, v => IsFemale(v, language))
    case Some(i) => Some(voices[i])
    case None =>
      match FindVoice(voices, v => SpeaksLanguage(v, language))
      case Some(i) => Some(voices[i])
      case None => if |voices| > 0 then Some(voices[0]) else None
  }

  /**
   * The order of preference: the first female voice for the language when
   * there is one, else the first voice for the language when there is one,
   * else the first voice of all.
   */
  lemma PreferredVoiceChoice(voices: seq<Voice>, language: string)
    ensures (exists i :: 0 <= i < |voices| && IsFemale(voices[i], language)) ==>
      exists i :: FirstFemale(voices, i, language) && PreferredVoice(voices, language) == Some(voices[i])
    ensures ((forall i :: 0 <= i < |voices| ==> !IsFemale(voices[i], language))
             && (exists i :: 0 <= i < |voices| && SpeaksLanguage(voices[i], language))) ==>
      exists i :: FirstSpeaker(voices, i, language) && PreferredVoice(voices, language) == Some(voices[i])
    ensures (forall i :: 0 <= i < |voices| ==> !SpeaksLanguage(voices[i], language)) && voices != [] ==>
      PreferredVoice(voices, language) == Some(voices[0])
  {
    var female := FindVoice(voices, v => IsFemale(v, language));
    if female.Some? {
      assert FirstFemale(voices, female.value, language);
    } else {
      var speaker := FindVoice(voices, v => SpeaksLanguage(v, language));
      if speaker.Some? {
        assert FirstSpeaker(voices, speaker.value, language);
      }
    }
  }

  /** A spoken reply. */
  datatype Utterance = Utterance(text: string, voice: Option<Voice>, lang: string, rate: real, pitch: real)

  /** `playAIVoice`: speaks the text only with voice enabled, voice output chosen and non-empty text. */
  function PlayVoice(voiceEnabled: bool, outputMode: string, text: string, language: string, voices: seq<Voice>): (r: Option<Utterance>)
    ensures r.Some? <==> voiceEnabled && outputMode == "voice" && text != ""
    ensures r.Some? ==>
      && r.value.text == text && r.value.voice == PreferredVoice(voices, language)
      && (r.value.lang == "es-ES" <==> language == "es") && (r.value.lang == "en-US" <==> language != "es")
      && r.value.rate == 0.95 && r.value.pitch == 1.0
  {
    if !voiceEnabled || outputMode != "voice" || text == "" then None
    else Some(Utterance(text, PreferredVoice(voices, language), if language == "es" then "es-ES" else "en-US", 0.95, 1.0))
  }

  /** The assistant message appended when the request throws. */
  function FallbackMessage(language: string): (r: string)
    ensures r != ""
    ensures r == "I'm sorry, can we try again?" <==> language != "es"
  {
    if language == "es" then "Lo siento, ¿podemos intentar de nuevo?" else "I'm sorry, can we try again?"
  }

  /**
   * A send in flight: the text sent, the message list as it was before the
   * send, and the language and voice settings of the render it was sent from.
   */
  datatype Pending = Pending(text: string, before: seq<ChatMessage>, language: string, voiceEnabled: bool, outputMode: string)

  /** Appending the message due at the next position keeps the roles alternating. */
  lemma AppendAlternates(ms: seq<ChatMessage>, m: ChatMessage)
    requires RolesAlternate(ms) && m.role == RoleAt(|ms|)
    ensures RolesAlternate(ms + [m])
  {
    forall i | 0 <= i < |ms + [m]| ensures (ms + [m])[i].role == RoleAt(i) {
      if i < |ms| {
        assert (ms + [m])[i] == ms[i];
      }
    }
  }

  /**
   * The list is a run of user/assistant exchanges, followed by the user
   * message of the send in flight, if any, whose snapshot is the list before it.
   */
  predicate Exchanges(ms: seq<ChatMessage>, pending: Option<Pending>) {
    && RolesAlternate(ms)
    && (pending.None? ==> |ms| % 2 == 0)
    && (pending.Some? ==>
          && |ms| % 2 == 1
          && ms[|ms| - 1] == ChatMessage("user", pending.value.text)
          && pending.value.before == ms[..|ms| - 1])
  }

  /** Sending from a settled list opens an exchange. */
  lemma SendOpensExchange(ms: seq<ChatMessage>, p: Pending)
    requires Exchanges(ms, None) && p.before == ms
    ensures Exchanges(ms + [ChatMessage("user", p.text)], Some(p))
  {
    AppendAlternates(ms, ChatMessage("user", p.text));
    assert (ms + [ChatMessage("user", p.text)])[..|ms|] == ms;
  }

  /** The answer to the send in flight closes its exchange. */
  lemma AnswerClosesExchange(ms: seq<ChatMessage>, p: Pending, answer: string)
    ensures Exchanges(ms, Some(p)) ==> Exchanges(ms + [ChatMessage("assistant", answer)], None)
  {
    if Exchanges(ms, Some(p)) {
      AppendAlternates(ms, ChatMessage("assistant", answer));
    }
  }

  class AIChatBot {
    var messages: seq<ChatMessage>
    var input: string
    var transcript: string
    var inputMode: string
    var outputMode: string
    var voiceEnabled: bool
    var isLoading: bool
    var showPremiumModal: bool
    /** The history the current chat session was started with; `None` when there is no session. */
    var session: Option<seq<Turn>>
    var conversations: nat
    var pending: Option<Pending>
    /** The utterance the speech synthesiser was last asked to speak. */
    var speaking: Option<Utterance>
    /** Whether an API key gave the component a model client. */
    const hasClient: bool

    /** A request is in flight exactly while the component is loading. */
    predicate Valid()
      reads this
    {
      isLoading <==> pending.Some?
    }

    /** The message list keeps to `Exchanges` with the send in flight. */
    predicate Alternating()
      reads this
    {
      Exchanges(messages, pending)
    }

    /** The text a send would take now. */
    function Text(): string
      reads this
    {
      MessageText(inputMode, transcript, input)
    }

    /** A send gets past its first guard: there is text, nothing is loading and there is a client. */
    predicate Ready()
      reads this
    {
      Text() != "" && !isLoading && hasClient
    }

    constructor (hasClient: bool)
      ensures Valid() && Alternating()
      ensures this.hasClient == hasClient
      ensures messages == [] && input == "" && transcript == ""
      ensures inputMode == "text" && outputMode == "text" && voiceEnabled
      ensures !isLoading && !showPremiumModal && session == None && conversations == 0
      ensures pending == None && speaking == None
    {
      this.hasClient := hasClient;
      messages := [];
      input := "";
      transcript := "";
      inputMode := "text";
      outputMode := "text";
      voiceEnabled := true;
      isLoading := false;
      showPremiumModal := false;
      session := None;
      conversations := 0;
      pending := None;
      speaking := None;
    }

    /** The text box's `setInput`. */
    method SetInput(text: string)
      requires Valid()
      modifies this`input
      ensures Valid() && (old(Alternating()) ==> Alternating())
      ensures input == text
    {
      input := text;
    }

    /** The recogniser's interim `setTranscript`. */
    method SetTranscript(text: string)
      requires Valid()
      modifies this`transcript
      ensures Valid() && (old(Alternating()) ==> Alternating())
      ensures transcript == text
    {
      transcript := text;
    }

    /** The input and output mode buttons and the speaker toggle. */
    method SetModes(newInputMode: string, newOutputMode: string, voice: bool)
      requires Valid()
      modifies this`inputMode, this`outputMode, this`voiceEnabled
      ensures Valid() && (old(Alternating()) ==> Alternating())
      ensures inputMode == newInputMode && outputMode == newOutputMode && voiceEnabled == voice
    {
      inputMode := newInputMode;
      outputMode := newOutputMode;
      voiceEnabled := voice;
    }

    /**
     * `sendMessage` up to the request. Nothing changes without text, while
     * loading or without a client; a free user at the gate gets the premium
     * modal and nothing else; otherwise the boxes clear, a session is started
     * from the list before the send if there is none, the user message is
     * appended and the request is in flight.
     */
    method BeginSend(subscription: string, gateHit: bool, language: string)
      requires Valid()
      modifies this
      ensures Valid() && (old(Alternating()) ==> Alternating())
      ensures !old(Ready()) ==> unchanged(this)
      ensures old(Ready()) && subscription == "free" && gateHit ==>
        showPremiumModal && messages == old(messages) && pending == old(pending) && session == old(session)
        && input == old(input) && transcript == old(transcript) && isLoading == old(isLoading)
      ensures old(Ready()) && !(subscription == "free" && gateHit) ==>
        && messages == old(messages) + [ChatMessage("user", old(Text()))]
        && pending == Some(Pending(old(Text()), old(messages), language, old(voiceEnabled), old(outputMode)))
        && session == (if old(session).None? then Some(StartHistory(old(messages), language)) else old(session))
        && isLoading && input == "" && transcript == ""
        && showPremiumModal == old(showPremiumModal)
      ensures conversations == old(conversations) && speaking == old(speaking)
      ensures inputMode == old(inputMode) && outputMode == old(outputMode) && voiceEnabled == old(voiceEnabled)
    {
      var text := Text();
      if !Ready() {
        return;
      }
      if subscription == "free" && gateHit {
        showPremiumModal := true;
        return;
      }
      Enqueue(text, language);
    }

    /**
     * The send past its guards: the boxes clear, a session is started from
     * the list before the send if there is none, the user message is appended
     * and the request, with the settings of the moment, is in flight.
     */
    method Enqueue(text: string, language: string)
      requires Valid() && !isLoading
      modifies this`messages, this`pending, this`session, this`isLoading, this`input, this`transcript
      ensures Valid() && (old(Alternating()) ==> Alternating())
      ensures messages == old(messages) + [ChatMessage("user", text)]
      ensures pending == Some(Pending(text, old(messages), language, voiceEnabled, outputMode))
      ensures session == (if old(session).None? then Some(StartHistory(old(messages), language)) else old(session))
      ensures isLoading && input == "" && transcript == ""
    {
      if session.None? {
        session := Some(StartHistory(messages, language));
      }
      var p := Pending(text, messages, language, voiceEnabled, outputMode);
      if Alternating() {
        SendOpensExchange(messages, p);
      }
      input := "";
      transcript := "";
      pending := Some(p);
      messages := messages + [ChatMessage("user", text)];
      isLoading := true;
    }

    /**
     * The rest of `sendMessage` once the request settles, with the language
     * and voice settings of the send. With a reply, it is appended, the
     * conversation count grows when the pre-send list held no user message,
     * and the reply is spoken when voice output was on. When the request
     * throws, the session is dropped and the fallback message is appended.
     * Loading ends either way. Without a send in flight nothing changes.
     */
    method Complete(reply: Option<string>, voices: seq<Voice>)
      requires Valid()
      modifies this
      ensures Valid() && (old(Alternating()) ==> Alternating())
      ensures old(pending).None? ==> unchanged(this)
      ensures old(pending).Some? ==> !isLoading && pending == None
      ensures old(pending).Some? && reply.Some? ==>
        messages == old(messages) + [ChatMessage("assistant", reply.value)] && session == old(session)
      ensures old(pending).Some? && reply.Some? ==>
        conversations == (if NoUserMessage(old(pending).value.before) then old(conversations) + 1 else old(conversations))
      ensures old(pending).Some? && reply.Some? ==>
        var p := old(pending).value;
        speaking == (if PlayVoice(p.voiceEnabled, p.outputMode, reply.value, p.language, voices).Some?
                     then PlayVoice(p.voiceEnabled, p.outputMode, reply.value, p.language, voices)
                     else old(speaking))
      ensures old(pending).Some? && reply.None? ==>
        && messages == old(messages) + [ChatMessage("assistant", FallbackMessage(old(pending).value.language))]
        && session == None && conversations == old(conversations) && speaking == old(speaking)
      ensures input == old(input) && transcript == old(transcript) && showPremiumModal == old(showPremiumModal)
      ensures inputMode == old(inputMode) && outputMode == old(outputMode) && voiceEnabled == old(voiceEnabled)
    {
      if pending.None? {
        return;
      }
      if reply.Some? {
        Answer(reply.value, voices);
      } else {
        Fail();
      }
    }

    /** The success path of `sendMessage`: the reply is appended, counted and possibly spoken. */
    method Answer(reply: string, voices: seq<Voice>)
      requires Valid() && pending.Some?
      modifies this
      ensures Valid() && (old(Alternating()) ==> Alternating())
      ensures !isLoading && pending == None
      ensures messages == old(messages) + [ChatMessage("assistant", reply)] && session == old(session)
      ensures conversations == (if NoUserMessage(old(pending).value.before) then old(conversations) + 1 else old(conversations))
      ensures var p := old(pending).value;
        speaking == (if PlayVoice(p.voiceEnabled, p.outputMode, reply, p.language, voices).Some?
                     then PlayVoice(p.voiceEnabled, p.outputMode, reply, p.language, voices)
                     else old(speaking))
      ensures input == old(input) && transcript == old(transcript) && showPremiumModal == old(showPremiumModal)
      ensures inputMode == old(inputMode) && outputMode == old(outputMode) && voiceEnabled == old(voiceEnabled)
    {
      var p := pending.value;
      AnswerClosesExchange(messages, p, reply);
      messages := messages + [ChatMessage("assistant", reply)];
      if NoUserMessage(p.before) {
        conversations := conversations + 1;
      }
      isLoading := false;
      pending := None;
      Speak(PlayVoice(p.voiceEnabled, p.outputMode, reply, p.language, voices));
    }

    /** `speechSynthesis.speak`: an utterance, when there is one, becomes the one being spoken. */
    method Speak(utterance: Option<Utterance>)
      modifies this`speaking
      ensures speaking == (if utterance.Some? then utterance else old(speaking))
    {
      if utterance.Some? {
        speaking := utterance;
      }
    }

    /** The error path of `sendMessage`: the session is dropped and the fallback message appended. */
    method Fail()
      requires Valid() && pending.Some?
      modifies this
      ensures Valid() && (old(Alternating()) ==> Alternating())
      ensures !isLoading && pending == None
      ensures messages == old(messages) + [ChatMessage("assistant", FallbackMessage(old(pending).value.language))]
      ensures session == None && conversations == old(conversations) && speaking == old(speaking)
      ensures input == old(input) && transcript == old(transcript) && showPremiumModal == old(showPremiumModal)
      ensures inputMode == old(inputMode) && outputMode == old(outputMode) && voiceEnabled == old(voiceEnabled)
    {
      var language := pending.value.language;
      AnswerClosesExchange(messages, pending.value, FallbackMessage(language));
      messages := messages + [ChatMessage("assistant", FallbackMessage(language))];
      session := None;
      isLoading := false;
      pending := None;
    }

    /**
     * `handleNewConversation` as written: a free user at the gate gets the
     * premium modal; otherwise the messages and the session are cleared, while
     * a request in flight stays in flight.
     */
    method NewConversation(subscription: string, gateHit: bool)
      requires Valid()
      modifies this
      ensures Valid()
      ensures subscription == "free" && gateHit ==>
        showPremiumModal && messages == old(messages) && session == old(session)
      ensures !(subscription == "free" && gateHit) ==>
        messages == [] && session == None && showPremiumModal == old(showPremiumModal)
      ensures pending == old(pending) && isLoading == old(isLoading) && conversations == old(conversations)
      ensures input == old(input) && transcript == old(transcript) && speaking == old(speaking)
      ensures inputMode == old(inputMode) && outputMode == old(outputMode) && voiceEnabled == old(voiceEnabled)
    {
      if subscription == "free" && gateHit {
        showPremiumModal := true;
        return;
      }
      messages := [];
      session := None;
    }

    /**
     * `handleNewConversation` with the reply of the old conversation
     * discarded: clearing also abandons the request in flight, so the new
     * conversation keeps alternating.
     */
    method NewConversationDiscardingReply(subscription: string, gateHit: bool)
      requires Valid()
      modifies this
      ensures Valid() && (old(Alternating()) ==> Alternating())
      ensures !(subscription == "free" && gateHit) ==> Alternating()
      ensures subscription == "free" && gateHit ==>
        showPremiumModal && messages == old(messages) && session == old(session) && pending == old(pending)
      ensures !(subscription == "free" && gateHit) ==>
        messages == [] && session == None && pending == None && !isLoading
        && showPremiumModal == old(showPremiumModal)
      ensures conversations == old(conversations)
      ensures input == old(input) && transcript == old(transcript) && speaking == old(speaking)
      ensures inputMode == old(inputMode) && outputMode == old(outputMode) && voiceEnabled == old(voiceEnabled)
    {
      if subscription == "free" && gateHit {
        showPremiumModal := true;
        return;
      }
      messages := [];
      session := None;
      pending := None;
      isLoading := false;
    }
  }

  /** A chat with a client that has just sent "hi" in English and awaits the reply. */
  method SentHi() returns (chat: AIChatBot)
    ensures fresh(chat)
    ensures chat.Valid() && chat.Alternating() && chat.hasClient
    ensures chat.messages == [ChatMessage("user", "hi")] && chat.pending == Some(Pending("hi", [], "en", true, "text"))
    ensures chat.isLoading && chat.session == Some(StartHistory([], "en"))
    ensures chat.inputMode == "text" && chat.input == "" && chat.transcript == ""
  {
    chat := new AIChatBot(true);
    chat.SetInput("hi");
    assert Trim("hi") == "hi" by {
      assert !IsWhitespace('h') && !IsWhitespace('i');
    }
    chat.BeginSend("premium", false, "en");
  }

  /** The settled chat sends "ok" in English. */
  method SendOk(chat: AIChatBot)
    requires chat.Valid() && chat.hasClient && !chat.isLoading && chat.inputMode == "text"
    modifies chat
    ensures chat.Valid() && chat.isLoading
    ensures chat.session == (if old(chat.session).None? then Some(StartHistory(old(chat.messages), "en")) else old(chat.session))
  {
    chat.SetInput("ok");
    assert Trim("ok") == "ok" by {
      assert !IsWhitespace('o') && !IsWhitespace('k');
    }
    chat.BeginSend("premium", false, "en");
  }

  /** A list holding only an assistant reply starts a session whose history opens with the model. */
  lemma LoneReplyHistory(answer: string, language: string)
    ensures StartHistory([ChatMessage("assistant", answer)], language) == [Turn("model", answer)]
  {
    var ms := [ChatMessage("assistant", answer)];
    assert Spoken(ms) == ms by {
      assert ms[1..] == [];
    }
  }

  /**
   * As written: "hi" is sent, a new conversation is started before the reply
   * arrives, and the reply to the old conversation opens the new one, so the
   * next send starts a session from a lone model turn.
   */
  method ReplyLandsInNewConversation() returns (shown: seq<ChatMessage>, nextSession: Option<seq<Turn>>)
    ensures shown == [ChatMessage("assistant", "Hello")]
    ensures nextSession == Some([Turn("model", "Hello")])
  {
    var chat := SentHi();
    chat.NewConversation("premium", false);
    chat.Complete(Some("Hello"), []);
    shown := chat.messages;
    SendOk(chat);
    LoneReplyHistory("Hello", "en");
    nextSession := chat.session;
  }

  /** Corrected: after the new conversation the old reply is discarded, and the next send starts from the seed. */
  method ReplyDiscardedAfterNewConversation() returns (shown: seq<ChatMessage>, nextSession: Option<seq<Turn>>)
    ensures shown == []
    ensures nextSession == Some([Turn("user", SystemPrompt("en")), Turn("model", Acknowledgement("en"))])
  {
    var chat := SentHi();
    chat.NewConversationDiscardingReply("premium", false);
    chat.Complete(Some("Hello"), []);
    shown := chat.messages;
    SendOk(chat);
    nextSession := chat.session;
  }

  /** A chat with voice output on that has just sent "hi" in English and awaits the reply. */
  method SentHiAloud() returns (chat: AIChatBot)
    ensures fresh(chat)
    ensures chat.Valid() && chat.pending == Some(Pending("hi", [], "en", true, "voice"))
  {
    chat := new AIChatBot(true);
    chat.SetModes("text", "voice", true);
    chat.SetInput("hi");
    assert Trim("hi") == "hi" by {
      assert !IsWhitespace('h') && !IsWhitespace('i');
    }
    chat.BeginSend("premium", false, "en");
  }

  /**
   * The reply is spoken with the settings of the send: voice output switched
   * off while the reply is awaited still speaks it.
   */
  method VoiceSwitchedOffWhileLoading() returns (spoken: Option<Utterance>)
    ensures spoken == Some(Utterance("Hello", None, "en-US", 0.95, 1.0))
  {
    var chat := SentHiAloud();
    chat.SetModes("text", "text", false);
    chat.Complete(Some("Hello"), []);
    spoken := chat.speaking;
  }
}
