// The wellbeing chat (Chat): an ordered chain of keyword rules over the
// lowercased message picks one of five fixed replies, and sending appends
// the user's message at once and the bot's reply after a delay. The delay is
// an explicit step, `DeliverState`, that answers the oldest message still
// waiting; message ids and timestamps are not modelled.

module Chat {
  import opened Strings

  // ---------------------------------------------------------------------
  // Lowercasing

  /** `toLowerCase` on the letters the keywords can contain: ASCII capitals
      and the Spanish accented capitals; every other character is kept. */
  function ToLowerChar(c: char): char
  {
    if 'A' <= c <= 'Z' then (c as int + 32) as char
    else if c == 'Á' then 'á'
    else if c == 'É' then 'é'
    else if c == 'Í' then 'í'
    else if c == 'Ó' then 'ó'
    else if c == 'Ú' then 'ú'
    else if c == 'Ñ' then 'ñ'
    else if c == 'Ü' then 'ü'
    else c
  }

  function Lower(s: string): (r: string)
    ensures |r| == |s| && forall i :: 0 <= i < |s| ==> r[i] == ToLowerChar(s[i])
  {
    seq(|s|, i requires 0 <= i < |s| => ToLowerChar(s[i]))
  }

  /** Lowercasing twice is lowercasing once. */
  lemma LowerIdempotent(s: string)
    ensures Lower(Lower(s)) == Lower(s)
  {
  }

  // ---------------------------------------------------------------------
  // The replies

  const AnxietyReply := "Entiendo que estás sintiendo ansiedad. Te recomiendo probar la técnica de respiración 4-7-8. ¿Te gustaría que te guíe a través de un ejercicio de relajación? También puedo conectarte con un especialista si lo necesitas."
  const StressReply := "El estrés es muy común en nuestra era digital. Te sugiero tomar descansos regulares de las pantallas y practicar mindfulness. ¿Has intentado nuestros ejercicios de relajación progresiva?"
  const SleepReply := "Los problemas de sueño pueden estar relacionados con el uso de dispositivos antes de dormir. Te recomiendo evitar pantallas 1 hora antes de acostarte y establecer una rutina nocturna relajante."
  const SocialReply := "Las redes sociales pueden generar comparación social y ansiedad. Te sugiero limitar tu tiempo en estas apps y considerar desactivar las notificaciones. ¿Te gustaría que te ayude a establecer límites?"
  const DefaultReply := "Gracias por compartir eso conmigo. Estoy aquí para apoyarte en tu bienestar digital. ¿Hay algo específico sobre tu relación con la tecnología que te preocupe? También puedo conectarte con un psicólogo especializado si lo prefieres."

  const Greeting := "¡Hola! Soy tu asistente de bienestar digital. ¿En qué puedo ayudarte hoy? Puedo ofrecerte consejos sobre salud mental, técnicas de relajación, o conectarte con un especialista."

  predicate MentionsAnxiety(m: string) { Includes(m, "ansiedad") || Includes(m, "ansioso") }
  predicate MentionsStress(m: string) { Includes(m, "estrés") || Includes(m, "estresado") }
  predicate MentionsSleep(m: string) { Includes(m, "sueño") || Includes(m, "dormir") }
  predicate MentionsSocial(m: string)
  {
    Includes(m, "redes sociales") || Includes(m, "instagram") || Includes(m, "tiktok")
  }

  /** `getBotResponse(userMessage)`. */
  function GetBotResponse(userMessage: string): string
  {
    var message := Lower(userMessage);
    if MentionsAnxiety(message) then AnxietyReply
    else if MentionsStress(message) then StressReply
    else if MentionsSleep(message) then SleepReply
    else if MentionsSocial(message) then SocialReply
    else DefaultReply
  }

  /** The five replies are different texts. */
  lemma RepliesDistinct()
    ensures |{AnxietyReply, StressReply, SleepReply, SocialReply, DefaultReply}| == 5
  {
    assert |AnxietyReply| == 219 && |StressReply| == 186 && |SleepReply| == 193;
    assert |SocialReply| == 199 && |DefaultReply| == 231;
  }

  /** Every message gets one of the five replies. The four implications
      spell out the priority order of the rule chain (anxiety, stress,
      sleep, social media: the first rule whose keyword occurs in the
      lowercased message wins). What goes beyond the chain itself is the
      last clause: since the five texts differ, the default reply comes
      exactly when no keyword occurs, never by a rule that happens to
      answer with the same text. */
  lemma RuleChain(userMessage: string)
    ensures GetBotResponse(userMessage) in {AnxietyReply, StressReply, SleepReply, SocialReply, DefaultReply}
    ensures var m := Lower(userMessage);
            (MentionsAnxiety(m) ==> GetBotResponse(userMessage) == AnxietyReply)
            && (!MentionsAnxiety(m) && MentionsStress(m) ==> GetBotResponse(userMessage) == StressReply)
            && (!MentionsAnxiety(m) && !MentionsStress(m) && MentionsSleep(m)
                ==> GetBotResponse(userMessage) == SleepReply)
            && (!MentionsAnxiety(m) && !MentionsStress(m) && !MentionsSleep(m) && MentionsSocial(m)
                ==> GetBotResponse(userMessage) == SocialReply)
    ensures GetBotResponse(userMessage) == DefaultReply <==>
            var m := Lower(userMessage);
            !MentionsAnxiety(m) && !MentionsStress(m) && !MentionsSleep(m) && !MentionsSocial(m)
  {
    RepliesDistinct();
  }

  /** Matching ignores case: a message and its lowercase form get the same reply. */
  lemma CaseInsensitive(userMessage: string)
    ensures GetBotResponse(Lower(userMessage)) == GetBotResponse(userMessage)
  {
    LowerIdempotent(userMessage);
  }

  /** A keyword found in the message. */
  lemma IncludesAt(s: string, t: string, i: nat)
    requires i + |t| <= |s| && s[i..i + |t|] == t
    ensures Includes(s, t)
  {
    assert OccursAt(s, t, i);
  }

  /** The first rule wins: a message about anxiety and sleep, written in
      capitals, gets the anxiety reply. */
  lemma AnxietyBeforeSleep()
    ensures GetBotResponse("ANSIEDAD y no puedo dormir") == AnxietyReply
  {
    var m := Lower("ANSIEDAD y no puedo dormir");
    assert m[..8] == "ansiedad";
    IncludesAt(m, "ansiedad", 0);
  }

  /** Stress spelled with a capital accented É is recognised. */
  lemma StressCapitalAccent()
    ensures GetBotResponse("ESTRÉS") == StressReply
  {
    var m := Lower("ESTRÉS");
    assert m == "estrés";
    IncludesAt(m, "estrés", 0);
    assert !MentionsAnxiety(m) by {
      assert |m| < |"ansiedad"| && |m| < |"ansioso"|;
    }
  }

  // ---------------------------------------------------------------------
  // Sending

  datatype Sender = User | Bot

  datatype Message = Message(text: string, sender: Sender)

  /** The history, the input box, the typing indicator, and the texts whose
      delayed reply is still to come (the value each timeout captured). */
  datatype State = State(messages: seq<Message>, inputMessage: string, isTyping: bool, pending: seq<string>)

  const Initial := State([Message(Greeting, Bot)], "", false, [])

  function CountFrom(ms: seq<Message>, who: Sender): nat
  {
    if ms == [] then 0 else CountFrom(ms[..|ms| - 1], who) + (if ms[|ms| - 1].sender == who then 1 else 0)
  }

  /** The history opens with `first`, every user message was not blank,
      and each user message has its reply or is waiting for it. */
  predicate InvFrom(s: State, first: Message)
  {
    |s.messages| >= 1 && s.messages[0] == first
    && (forall k :: 0 <= k < |s.messages| && s.messages[k].sender == User ==>
          !AllWhitespace(s.messages[k].text))
    && CountFrom(s.messages, User) + 1 == CountFrom(s.messages, Bot) + |s.pending|
  }

  /** The invariant of the page: the history opens with the greeting. */
  predicate Inv(s: State)
  {
    InvFrom(s, Message(Greeting, Bot))
  }

  lemma InitialInv()
    ensures Inv(Initial)
    ensures |Initial.messages| == 1 && Initial.messages[0].sender == Bot
  {
  }

  /** `sendMessage`: blank input does nothing; otherwise the untrimmed text
      is appended as a user message, the input cleared, the typing
      indicator set and the reply scheduled. */
  function SendState(s: State): (t: State)
    ensures AllWhitespace(s.inputMessage) ==> t == s
    ensures !AllWhitespace(s.inputMessage) ==>
              t == State(s.messages + [Message(s.inputMessage, User)], "", true, s.pending + [s.inputMessage])
  {
    if Trim(s.inputMessage) == [] then s
    else State(s.messages + [Message(s.inputMessage, User)], "", true, s.pending + [s.inputMessage])
  }

  /** The delayed part of `sendMessage`: the reply to the oldest waiting
      text is appended and the typing indicator cleared. */
  function DeliverState(s: State): (t: State)
    requires s.pending != []
    ensures t.messages == s.messages + [Message(GetBotResponse(s.pending[0]), Bot)]
    ensures !t.isTyping && t.inputMessage == s.inputMessage && t.pending == s.pending[1..]
  {
    DeliverWith(s, GetBotResponse(s.pending[0]))
  }

  /** The delayed step with the reply text given. */
  function DeliverWith(s: State, reply: string): State
    requires s.pending != []
  {
    State(s.messages + [Message(reply, Bot)], s.inputMessage, false, s.pending[1..])
  }

  /** Typing into the box or clicking a topic. */
  function SetInputState(s: State, text: string): (t: State)
    ensures t.inputMessage == text && t.(inputMessage := s.inputMessage) == s
  {
    s.(inputMessage := text)
  }

  lemma CountAppend(ms: seq<Message>, m: Message, who: Sender)
    ensures CountFrom(ms + [m], who) == CountFrom(ms, who) + (if m.sender == who then 1 else 0)
  {
    assert (ms + [m])[..|ms + [m]| - 1] == ms;
  }

  /** Sending keeps the invariant, whatever the first message is. */
  lemma SendKeeps(s: State, first: Message)
    requires InvFrom(s, first)
    ensures InvFrom(SendState(s), first)
  {
    CountAppend(s.messages, Message(s.inputMessage, User), User);
    CountAppend(s.messages, Message(s.inputMessage, User), Bot);
  }

  /** Appending a bot message for the oldest waiting text keeps the
      invariant, whatever the reply says. */
  lemma ReplyKeeps(s: State, first: Message, reply: string)
    requires InvFrom(s, first) && s.pending != []
    ensures InvFrom(State(s.messages + [Message(reply, Bot)], s.inputMessage, false, s.pending[1..]), first)
  {
    CountAppend(s.messages, Message(reply, Bot), User);
    CountAppend(s.messages, Message(reply, Bot), Bot);
  }

  /** Sending, delivering and typing keep the invariant. */
  lemma InvPreserved(s: State, text: string)
    requires Inv(s)
    ensures Inv(SendState(s)) && Inv(SetInputState(s, text))
    ensures s.pending != [] ==> Inv(DeliverState(s))
  {
    SendKeeps(s, Message(Greeting, Bot));
    if s.pending != [] {
      ReplyKeeps(s, Message(Greeting, Bot), GetBotResponse(s.pending[0]));
    }
  }

  /** With nothing waiting, sending a non-blank text and then letting the
      delay pass adds exactly two messages after the earlier ones: the user's
      text as typed, and the reply to that same text. */
  lemma SendThenReply(s: State)
    requires s.pending == [] && !AllWhitespace(s.inputMessage)
    ensures DeliverState(SendState(s)).messages
            == s.messages + [Message(s.inputMessage, User), Message(GetBotResponse(s.inputMessage), Bot)]
    ensures DeliverState(SendState(s)).inputMessage == "" && !DeliverState(SendState(s)).isTyping
    ensures DeliverState(SendState(s)).pending == []
  {
    SendThenDeliver(s, GetBotResponse(s.inputMessage));
  }

  lemma SendThenDeliver(s: State, reply: string)
    requires s.pending == [] && !AllWhitespace(s.inputMessage)
    ensures SendState(s).pending == [s.inputMessage]
    ensures DeliverWith(SendState(s), reply)
            == State(s.messages + [Message(s.inputMessage, User), Message(reply, Bot)], "", false, [])
  {
    assert (s.messages + [Message(s.inputMessage, User)]) + [Message(reply, Bot)]
        == s.messages + [Message(s.inputMessage, User), Message(reply, Bot)];
  }

  // ---------------------------------------------------------------------
  // The page

  class ChatPage {
    var messages: seq<Message>
    var inputMessage: string
    var isTyping: bool
    var pending: seq<string>

    function Model(): State
      reads this
    {
      State(messages, inputMessage, isTyping, pending)
    }

    predicate Valid()
      reads this
    {
      Inv(Model())
    }

    constructor ()
      ensures Valid() && Model() == Initial
    {
      messages := [Message(Greeting, Bot)];
      inputMessage := "";
      isTyping := false;
      pending := [];
    }

    method SetInputMessage(text: string)
      requires Valid()
      modifies this
      ensures Valid() && Model() == SetInputState(old(Model()), text)
    {
      inputMessage := text;
    }

    method SendMessage()
      requires Valid()
      modifies this
      ensures Valid() && Model() == SendState(old(Model()))
    {
      SendKeeps(Model(), Message(Greeting, Bot));
      if Trim(inputMessage) == [] {
        return;
      }
      messages := messages + [Message(inputMessage, User)];
      pending := pending + [inputMessage];
      inputMessage := "";
      isTyping := true;
    }

    /** The scheduled timeout of the oldest send fires. */
    method DeliverReply()
      requires Valid() && pending != []
      modifies this
      ensures Valid() && Model() == DeliverState(old(Model()))
    {
      var reply := GetBotResponse(pending[0]);
      ReplyKeeps(Model(), Message(Greeting, Bot), reply);
      messages := messages + [Message(reply, Bot)];
      pending := pending[1..];
      isTyping := false;
    }
  }
}
