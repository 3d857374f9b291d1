// The social-skills game (ConversationCraftGame): a scenario of the chosen
// level is drawn at random, the player picks one of its responses, and the
// response's type decides a four-part score that is shown as feedback and
// added to the total. `Math.random()` is a parameter in `[0, 1)`.

module Conversation {
  import opened Wrappers

  datatype Level = Basico | Intermedio | Avanzado | Experto
  datatype ScenarioType = Casual | Profesional | Personal | Conflictivo
  datatype ResponseType = Asertiva | Empatica | Evasiva | Creativa

  datatype Response = Response(id: string, text: string, kind: ResponseType)

  datatype Scenario = Scenario(
    id: int, level: Level, kind: ScenarioType,
    context: string, character: string, objective: string, npcDialogue: string,
    responses: seq<Response>)

  datatype Score = Score(confidence: int, empathy: int, clarity: int, naturalness: int)

  datatype Feedback = Feedback(score: Score, analysis: string, improvement: string, tip: string)

  datatype State = State(
    currentLevel: Level,
    totalScore: int,
    streak: int,
    unlockedSkills: int,
    currentScenario: Option<Scenario>,
    showFeedback: bool,
    lastFeedback: Option<Feedback>)

  /** On mount: level Básico, 420 points, a streak of 7, 8 skills, no scenario. */
  const Initial := State(Basico, 420, 7, 8, None, false, None)

  const Scenarios: seq<Scenario> := [
    Scenario(1, Basico, Casual,
      "Estás en una cafetería y alguien accidentalmente choca contigo",
      "Ana - Persona amable, un poco apresurada",
      "Manejar la situación de forma cordial",
      "¡Oh no! ¡Lo siento mucho! ¿Estás bien? ¿Te lastimé?",
      [ Response("A", "No te preocupes, estas cosas pasan. ¿Tú estás bien?", Empatica),
        Response("B", "No pasa nada, pero ten más cuidado la próxima vez.", Asertiva),
        Response("C", "Eh... sí, estoy bien...", Evasiva),
        Response("D", "Todo bien, parece que los dos necesitamos más café.", Creativa) ]),
    Scenario(2, Intermedio, Profesional,
      "En una reunión de trabajo, tu jefe solicita voluntarios para un proyecto adicional",
      "Carlos - Jefe directo, serio pero justo",
      "Expresar tu interés o limitaciones apropiadamente",
      "Necesitamos a alguien que lidere este nuevo proyecto. Requiere tiempo extra pero es una gran oportunidad de crecimiento.",
      [ Response("A", "Me interesa mucho. ¿Podríamos discutir los detalles después de la reunión?", Asertiva),
        Response("B", "Suena como una excelente oportunidad. ¿Cómo podríamos balancearlo con nuestras responsabilidades actuales?", Empatica),
        Response("C", "No estoy seguro si tengo el tiempo suficiente...", Evasiva),
        Response("D", "Yo me apunto, siempre he querido demostrar mi potencial en nuevas áreas.", Creativa) ])
  ]

  // ---------------------------------------------------------------------
  // Starting a scenario

  /** `scenarios.filter(s => s.level === levelToUse)`: exactly the scenarios
      of that level, in order. */
  function Available(scs: seq<Scenario>, level: Level): (r: seq<Scenario>)
    ensures forall sc :: sc in r <==> sc in scs && sc.level == level
    ensures |r| <= |scs|
  {
    if scs == [] then []
    else (if scs[0].level == level then [scs[0]] else []) + Available(scs[1..], level)
  }

  /** Only Básico and Intermedio have a scenario, one each. */
  lemma ScenarioLevels()
    ensures Available(Scenarios, Basico) == [Scenarios[0]]
    ensures Available(Scenarios, Intermedio) == [Scenarios[1]]
    ensures Available(Scenarios, Avanzado) == [] && Available(Scenarios, Experto) == []
  {
  }

  /** `Math.floor(random * n)` for `random` in `[0, 1)` is an index below `n`. */
  function RandomIndex(random: real, n: nat): (k: nat)
    requires 0.0 <= random < 1.0 && n > 0
    ensures k < n
  {
    var x := random * (n as real);
    assert x < n as real by {
      assert (1.0 - random) * (n as real) > 0.0;
    }
    x.Floor
  }

  /** `startScenario(level)` with `random` standing for `Math.random()`: the
      level given, or the current one, selects the candidates; with at least
      one, a candidate becomes the current scenario and feedback is hidden;
      with none, nothing changes. */
  function StartScenarioState(s: State, level: Option<Level>, random: real): (t: State)
    requires 0.0 <= random < 1.0
    ensures var lv := if level.Some? then level.value else s.currentLevel;
            if Available(Scenarios, lv) == [] then t == s
            else t.currentScenario.Some? && t.currentScenario.value in Scenarios
                 && t.currentScenario.value.level == lv
                 && t == s.(currentScenario := t.currentScenario, showFeedback := false)
  {
    var levelToUse := if level.Some? then level.value else s.currentLevel;
    var available := Available(Scenarios, levelToUse);
    if |available| > 0 then
      var sc := available[RandomIndex(random, |available|)];
      s.(currentScenario := Some(sc), showFeedback := false)
    else s
  }

  /** A start at Avanzado or Experto, or at either of them as the current
      level, does nothing whatever the random draw. */
  lemma StartWithoutScenarios(s: State, level: Level, random: real)
    requires 0.0 <= random < 1.0 && (level == Avanzado || level == Experto)
    ensures StartScenarioState(s, Some(level), random) == s
    ensures StartScenarioState(s.(currentLevel := level), None, random) == s.(currentLevel := level)
  {
    ScenarioLevels();
  }

  // ---------------------------------------------------------------------
  // Answering

  function Total(sc: Score): int
  {
    sc.confidence + sc.empathy + sc.clarity + sc.naturalness
  }

  /** The simulated score for each response type. */
  function ScoreFor(kind: ResponseType): Score
  {
    match kind
    case Empatica => Score(15, 20, 12, 18)
    case Asertiva => Score(20, 10, 18, 15)
    case Evasiva => Score(5, 8, 6, 10)
    case Creativa => Score(18, 15, 16, 22)
  }

  /** The analysis, improvement and tip shown for each response type. */
  function FeedbackText(kind: ResponseType): (string, string, string)
  {
    match kind
    case Empatica => (
      "Excelente muestra de empatía. Tu respuesta demuestra consideración hacia la otra persona.",
      "Podrías ser un poco más asertivo para establecer límites claros.",
      "La empatía crea conexiones genuinas, pero equilibra con tus propias necesidades.")
    case Asertiva => (
      "Respuesta clara y directa. Muestra seguridad en ti mismo.",
      "Considera agregar más elementos empáticos para suavizar el mensaje.",
      "La asertividad es clave, pero la diplomacia la hace más efectiva.")
    case Evasiva => (
      "Esta respuesta muestra inseguridad y puede crear confusión.",
      "Intenta ser más directo y expresar tu opinión con mayor claridad.",
      "Recuerda que tu opinión es valiosa. Practica expresarte con más confianza.")
    case Creativa => (
      "Respuesta original que alivia la tensión y muestra personalidad.",
      "Asegúrate de que el humor sea apropiado para el contexto.",
      "La creatividad puede ser un gran rompehielos, úsala sabiamente.")
  }

  /** The feedback object the `switch` builds. */
  function FeedbackFor(kind: ResponseType): Feedback
  {
    var text := FeedbackText(kind);
    Feedback(ScoreFor(kind), text.0, text.1, text.2)
  }

  /** The score table: every part is positive and at most 22; the totals
      are 65 (empática), 63 (asertiva), 29 (evasiva) and 71 (creativa), so
      creativa pays most and evasiva least. */
  lemma ScoreTable(kind: ResponseType)
    ensures var sc := ScoreFor(kind);
            0 < sc.confidence <= 22 && 0 < sc.empathy <= 22 && 0 < sc.clarity <= 22 && 0 < sc.naturalness <= 22
    ensures Total(ScoreFor(Empatica)) == 65 && Total(ScoreFor(Asertiva)) == 63
    ensures Total(ScoreFor(Evasiva)) == 29 && Total(ScoreFor(Creativa)) == 71
    ensures Total(ScoreFor(Evasiva)) <= Total(ScoreFor(kind)) <= Total(ScoreFor(Creativa))
  {
  }

  /** `responses.find(r => r.id === responseId)`. */
  function FindResponse(rs: seq<Response>, responseId: string): (r: Option<Response>)
    ensures r.Some? ==> r.value in rs && r.value.id == responseId
    ensures r.None? ==> forall k :: 0 <= k < |rs| ==> rs[k].id != responseId
  {
    if rs == [] then None
    else if rs[0].id == responseId then Some(rs[0])
    else FindResponse(rs[1..], responseId)
  }

  /** `handleResponse(responseId)`: without a current scenario, or for an id
      none of its responses has, nothing happens; otherwise the response's
      feedback is stored and shown and its total added to the score. It does
      not look at `showFeedback`. */
  function HandleResponseState(s: State, responseId: string): (t: State)
    ensures s.currentScenario.None? ==> t == s
    ensures s.currentScenario.Some? && FindResponse(s.currentScenario.value.responses, responseId).None?
            ==> t == s
    ensures s.currentScenario.Some? && FindResponse(s.currentScenario.value.responses, responseId).Some?
            ==> var fb := FeedbackFor(FindResponse(s.currentScenario.value.responses, responseId).value.kind);
                t == s.(lastFeedback := Some(fb), showFeedback := true,
                        totalScore := s.totalScore + Total(fb.score))
  {
    match s.currentScenario
    case None => s
    case Some(sc) =>
      match FindResponse(sc.responses, responseId)
      case None => s
      case Some(response) =>
        var feedback := FeedbackFor(response.kind);
        s.(lastFeedback := Some(feedback), showFeedback := true,
           totalScore := s.totalScore + Total(feedback.score))
  }

  /** Every accepted answer raises the score by at least 29, even when the
      feedback is already showing, so repeated answers keep adding. */
  lemma AnswerAlwaysPays(s: State, responseId: string)
    requires s.currentScenario.Some?
    requires FindResponse(s.currentScenario.value.responses, responseId).Some?
    ensures HandleResponseState(s, responseId).totalScore >= s.totalScore + 29
    ensures HandleResponseState(HandleResponseState(s, responseId), responseId).totalScore
            >= s.totalScore + 58
  {
    var kind := FindResponse(s.currentScenario.value.responses, responseId).value.kind;
    ScoreTable(kind);
  }

  /** The ids A to D of both scenarios are accepted; any other id is not. */
  lemma ScenarioResponses(sc: Scenario, other: string)
    requires sc in Scenarios && other !in {"A", "B", "C", "D"}
    ensures forall id :: id in ["A", "B", "C", "D"] ==> FindResponse(sc.responses, id).Some?
    ensures FindResponse(sc.responses, other).None?
  {
  }

  /** The "Cambiar Nivel" button: back to the level selection. */
  function CloseScenarioState(s: State): (t: State)
    ensures t.currentScenario.None? && t.(currentScenario := s.currentScenario) == s
  {
    s.(currentScenario := None)
  }

  /** A level button. */
  function SetLevelState(s: State, level: Level): (t: State)
    ensures t.currentLevel == level && t.(currentLevel := s.currentLevel) == s
  {
    s.(currentLevel := level)
  }

  /** One of the component's handlers. */
  datatype Action = Start(level: Option<Level>, random: real) | Answer(responseId: string)
                  | Close | SetLevel(lv: Level)

  predicate ActionOk(a: Action)
  {
    a.Start? ==> 0.0 <= a.random < 1.0
  }

  function Apply(s: State, a: Action): State
    requires ActionOk(a)
  {
    match a
    case Start(level, random) => StartScenarioState(s, level, random)
    case Answer(id) => HandleResponseState(s, id)
    case Close => CloseScenarioState(s)
    case SetLevel(lv) => SetLevelState(s, lv)
  }

  function ApplyAll(s: State, actions: seq<Action>): State
    requires forall k :: 0 <= k < |actions| ==> ActionOk(actions[k])
    decreases |actions|
  {
    if actions == [] then s else ApplyAll(Apply(s, actions[0]), actions[1..])
  }

  /** No handler touches `streak` or `unlockedSkills`, and none lowers the score. */
  lemma {:induction false} FixedCounters(s: State, actions: seq<Action>)
    requires forall k :: 0 <= k < |actions| ==> ActionOk(actions[k])
    ensures ApplyAll(s, actions).streak == s.streak
    ensures ApplyAll(s, actions).unlockedSkills == s.unlockedSkills
    ensures ApplyAll(s, actions).totalScore >= s.totalScore
    decreases |actions|
  {
    if actions != [] {
      var a := actions[0];
      if a.Answer? {
        if s.currentScenario.Some? {
          var r := FindResponse(s.currentScenario.value.responses, a.responseId);
          if r.Some? {
            ScoreTable(r.value.kind);
          }
        }
      }
      FixedCounters(Apply(s, a), actions[1..]);
    }
  }

  // ---------------------------------------------------------------------
  // Lookups

  function LevelName(l: Level): string
  {
    match l
    case Basico => "Básico"
    case Intermedio => "Intermedio"
    case Avanzado => "Avanzado"
    case Experto => "Experto"
  }

  /** `getLevelColor(level)`. */
  function GetLevelColor(level: string): string
  {
    if level == "Básico" then "bg-green-100 text-green-800"
    else if level == "Intermedio" then "bg-yellow-100 text-yellow-800"
    else if level == "Avanzado" then "bg-orange-100 text-orange-800"
    else if level == "Experto" then "bg-red-100 text-red-800"
    else "bg-gray-100 text-gray-800"
  }

  function TypeName(t: ScenarioType): string
  {
    match t
    case Casual => "Casual"
    case Profesional => "Profesional"
    case Personal => "Personal"
    case Conflictivo => "Conflictivo"
  }

  /** `getTypeIcon(type)`. */
  function GetTypeIcon(kind: string): string
  {
    if kind == "Casual" then "☕"
    else if kind == "Profesional" then "💼"
    else if kind == "Personal" then "❤️"
    else if kind == "Conflictivo" then "⚡"
    else "💬"
  }

  /** Both lookups give each known name its own value, different from the
      fallback, and give every other string the fallback. */
  lemma Lookups(l: Level, m: Level, t: ScenarioType, u: ScenarioType, other: string)
    requires other !in {"Básico", "Intermedio", "Avanzado", "Experto"}
    requires other !in {"Casual", "Profesional", "Personal", "Conflictivo"}
    ensures GetLevelColor(LevelName(l)) != "bg-gray-100 text-gray-800"
    ensures l != m ==> GetLevelColor(LevelName(l)) != GetLevelColor(LevelName(m))
    ensures GetLevelColor(other) == "bg-gray-100 text-gray-800"
    ensures GetTypeIcon(TypeName(t)) != "💬"
    ensures t != u ==> GetTypeIcon(TypeName(t)) != GetTypeIcon(TypeName(u))
    ensures GetTypeIcon(other) == "💬"
  {
  }

  // ---------------------------------------------------------------------
  // The component

  class ConversationCraftGame {
    var currentLevel: Level
    var totalScore: int
    var streak: int
    var unlockedSkills: int
    var currentScenario: Option<Scenario>
    var showFeedback: bool
    var lastFeedback: Option<Feedback>

    function Model(): State
      reads this
    {
      State(currentLevel, totalScore, streak, unlockedSkills, currentScenario, showFeedback, lastFeedback)
    }

    constructor ()
      ensures Model() == Initial
    {
      currentLevel, totalScore, streak, unlockedSkills := Basico, 420, 7, 8;
      currentScenario, showFeedback, lastFeedback := None, false, None;
    }

    method StartScenario(level: Option<Level>, random: real)
      requires 0.0 <= random < 1.0
      modifies this
      ensures Model() == StartScenarioState(old(Model()), level, random)
    {
      var levelToUse := if level.Some? then level.value else currentLevel;
      var availableScenarios := Available(Scenarios, levelToUse);
      if |availableScenarios| > 0 {
        currentScenario := Some(availableScenarios[RandomIndex(random, |availableScenarios|)]);
        showFeedback := false;
      }
    }

    method HandleResponse(responseId: string)
      modifies this
      ensures Model() == HandleResponseState(old(Model()), responseId)
    {
      if currentScenario.None? {
        return;
      }
      var response := FindResponse(currentScenario.value.responses, responseId);
      if response.None? {
        return;
      }
      var feedback := FeedbackFor(response.value.kind);
      lastFeedback := Some(feedback);
      showFeedback := true;
      totalScore := totalScore + Total(feedback.score);
    }

    method CloseScenario()
      modifies this
      ensures Model() == CloseScenarioState(old(Model()))
    {
      currentScenario := None;
    }

    method SetCurrentLevel(level: Level)
      modifies this
      ensures Model() == SetLevelState(old(Model()), level)
    {
      currentLevel := level;
    }
  }
}
