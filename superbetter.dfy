// The SuperBetter game (SuperBetterGame): a points ledger fed by three
// lists. Completing a quest or using a power-up sets its flag and pays its
// points the first time only; defeating a "bad guy" sets its flag and pays
// 30 points every time. The difficulty colour and category icon are lookups.

module SuperBetter {
  import opened Wrappers

  datatype QuestCategory = Daily | Weekly | Personal
  datatype Difficulty = Easy | Medium | Hard
  datatype PowerCategory = Physical | Mental | Emotional | Social

  datatype Quest = Quest(id: int, title: string, description: string, points: int,
                         completed: bool, category: QuestCategory)
  datatype BadGuy = BadGuy(id: int, name: string, description: string, defeated: bool,
                           difficulty: Difficulty)
  datatype PowerUp = PowerUp(id: int, title: string, description: string, points: int,
                             used: bool, category: PowerCategory)

  /** The reward for defeating a bad guy. */
  const DefeatReward := 30

  datatype Ledger = Ledger(totalPoints: int, level: int, allies: int,
                           quests: seq<Quest>, badGuys: seq<BadGuy>, powerUps: seq<PowerUp>)

  const InitialQuests: seq<Quest> := [
    Quest(1, "Caminar 30 minutos", "Realizar actividad física diaria", 20, false, Daily),
    Quest(2, "Meditar 10 minutos", "Práctica de mindfulness", 15, true, Daily),
    Quest(3, "Llamar a un amigo", "Conectar socialmente", 25, false, Weekly),
    Quest(4, "Escribir 3 cosas positivas", "Práctica de gratitud", 10, true, Personal)
  ]

  const InitialBadGuys: seq<BadGuy> := [
    BadGuy(1, "Pensamiento Catastrófico", "Imaginar el peor escenario posible", false, Medium),
    BadGuy(2, "Autocrítica Excesiva", "Ser muy duro contigo mismo", true, Easy),
    BadGuy(3, "Procrastinación", "Postergar tareas importantes", false, Hard)
  ]

  const InitialPowerUps: seq<PowerUp> := [
    PowerUp(1, "Respiración Profunda", "Técnica 4-7-8 para calmar la ansiedad", 5, false, Mental),
    PowerUp(2, "Playlist Motivacional", "Escuchar música que eleve tu ánimo", 10, false, Emotional),
    PowerUp(3, "Ejercicio de Estiramiento", "5 minutos de estiramientos", 8, true, Physical),
    PowerUp(4, "Mensaje de Apoyo", "Enviar un mensaje positivo a alguien", 12, false, Social)
  ]

  /** On mount: 150 points, level 2, 3 allies and the three lists. */
  const Initial := Ledger(150, 2, 3, InitialQuests, InitialBadGuys, InitialPowerUps)

  /** The position of the first entry with the given id (what `find` returns). */
  function FirstIndex(ids: seq<int>, id: int): (r: Option<nat>)
    ensures r.Some? ==> r.value < |ids| && ids[r.value] == id
                        && forall j :: 0 <= j < r.value ==> ids[j] != id
    ensures r.None? ==> forall j :: 0 <= j < |ids| ==> ids[j] != id
  {
    if ids == [] then None
    else if ids[0] == id then Some(0)
    else match FirstIndex(ids[1..], id)
      case None => None
      case Some(k) => Some(k + 1)
  }

  // ---------------------------------------------------------------------
  // Quests

  function QuestIds(qs: seq<Quest>): (r: seq<int>)
    ensures |r| == |qs| && forall k :: 0 <= k < |qs| ==> r[k] == qs[k].id
  {
    seq(|qs|, k requires 0 <= k < |qs| => qs[k].id)
  }

  /** `quests.find(q => q.id === questId)`. */
  function FindQuest(qs: seq<Quest>, id: int): (r: Option<Quest>)
    ensures r.Some? ==> r.value in qs && r.value.id == id
    ensures r.None? ==> forall k :: 0 <= k < |qs| ==> qs[k].id != id
  {
    match FirstIndex(QuestIds(qs), id)
    case None => None
    case Some(k) => Some(qs[k])
  }

  /** The `map` that completes every quest with the id: the list keeps its
      length and order, and each entry differs from before at most in its
      `completed` flag, which is set exactly for the entries with that id. */
  function MarkQuest(qs: seq<Quest>, id: int): (r: seq<Quest>)
    ensures |r| == |qs|
    ensures forall k :: 0 <= k < |qs| ==>
              r[k].(completed := qs[k].completed) == qs[k]
              && r[k].completed == (qs[k].completed || qs[k].id == id)
  {
    seq(|qs|, k requires 0 <= k < |qs| => if qs[k].id == id then qs[k].(completed := true) else qs[k])
  }

  /** The points `completeQuest` pays: those of the quest found, if it was
      not completed yet. */
  function QuestReward(qs: seq<Quest>, id: int): (p: int)
    ensures FindQuest(qs, id).None? ==> p == 0
    ensures FindQuest(qs, id).Some? ==>
              p == if FindQuest(qs, id).value.completed then 0 else FindQuest(qs, id).value.points
  {
    match FindQuest(qs, id)
    case None => 0
    case Some(q) => if q.completed then 0 else q.points
  }

  /** `completeQuest(questId)`. */
  function CompleteQuestState(l: Ledger, questId: int): (r: Ledger)
    ensures r.quests == MarkQuest(l.quests, questId)
    ensures r.totalPoints == l.totalPoints + QuestReward(l.quests, questId)
    ensures r.level == l.level && r.allies == l.allies
    ensures r.badGuys == l.badGuys && r.powerUps == l.powerUps
  {
    l.(quests := MarkQuest(l.quests, questId),
       totalPoints := l.totalPoints + QuestReward(l.quests, questId))
  }

  /** After a quest is completed, the found quest is the same entry, now
      completed, so a second completion pays nothing and marks nothing new. */
  lemma CompleteQuestTwice(l: Ledger, questId: int)
    ensures QuestReward(CompleteQuestState(l, questId).quests, questId) == 0
    ensures CompleteQuestState(CompleteQuestState(l, questId), questId)
            == CompleteQuestState(l, questId)
  {
    var qs := l.quests;
    var ms := MarkQuest(qs, questId);
    assert QuestIds(ms) == QuestIds(qs);
    assert MarkQuest(ms, questId) == ms;
  }

  // ---------------------------------------------------------------------
  // Bad guys

  /** The `map` that defeats every bad guy with the id. */
  function MarkBadGuy(bs: seq<BadGuy>, id: int): (r: seq<BadGuy>)
    ensures |r| == |bs|
    ensures forall k :: 0 <= k < |bs| ==>
              r[k].(defeated := bs[k].defeated) == bs[k]
              && r[k].defeated == (bs[k].defeated || bs[k].id == id)
  {
    seq(|bs|, k requires 0 <= k < |bs| => if bs[k].id == id then bs[k].(defeated := true) else bs[k])
  }

  /** `defeatBadGuy(badGuyId)`: 30 points whether or not the bad guy was
      already defeated, or even exists; only the interface hides the button
      of a defeated one. */
  function DefeatBadGuyState(l: Ledger, badGuyId: int): (r: Ledger)
    ensures r.badGuys == MarkBadGuy(l.badGuys, badGuyId)
    ensures r.totalPoints == l.totalPoints + DefeatReward
    ensures r.level == l.level && r.allies == l.allies
    ensures r.quests == l.quests && r.powerUps == l.powerUps
  {
    l.(badGuys := MarkBadGuy(l.badGuys, badGuyId), totalPoints := l.totalPoints + 30)
  }

  /** Defeating the same bad guy twice pays twice. */
  lemma DefeatTwicePaysTwice(l: Ledger, badGuyId: int)
    ensures DefeatBadGuyState(DefeatBadGuyState(l, badGuyId), badGuyId).totalPoints
            == l.totalPoints + 2 * DefeatReward
    ensures DefeatBadGuyState(DefeatBadGuyState(l, badGuyId), badGuyId).badGuys
            == DefeatBadGuyState(l, badGuyId).badGuys
  {
    var bs := MarkBadGuy(l.badGuys, badGuyId);
    assert MarkBadGuy(bs, badGuyId) == bs;
  }

  // ---------------------------------------------------------------------
  // Power-ups

  function PowerUpIds(ps: seq<PowerUp>): (r: seq<int>)
    ensures |r| == |ps| && forall k :: 0 <= k < |ps| ==> r[k] == ps[k].id
  {
    seq(|ps|, k requires 0 <= k < |ps| => ps[k].id)
  }

  /** `powerUps.find(p => p.id === powerUpId)`. */
  function FindPowerUp(ps: seq<PowerUp>, id: int): (r: Option<PowerUp>)
    ensures r.Some? ==> r.value in ps && r.value.id == id
    ensures r.None? ==> forall k :: 0 <= k < |ps| ==> ps[k].id != id
  {
    match FirstIndex(PowerUpIds(ps), id)
    case None => None
    case Some(k) => Some(ps[k])
  }

  /** The `map` that uses every power-up with the id. */
  function MarkPowerUp(ps: seq<PowerUp>, id: int): (r: seq<PowerUp>)
    ensures |r| == |ps|
    ensures forall k :: 0 <= k < |ps| ==>
              r[k].(used := ps[k].used) == ps[k]
              && r[k].used == (ps[k].used || ps[k].id == id)
  {
    seq(|ps|, k requires 0 <= k < |ps| => if ps[k].id == id then ps[k].(used := true) else ps[k])
  }

  function PowerUpReward(ps: seq<PowerUp>, id: int): (p: int)
    ensures FindPowerUp(ps, id).None? ==> p == 0
    ensures FindPowerUp(ps, id).Some? ==>
              p == if FindPowerUp(ps, id).value.used then 0 else FindPowerUp(ps, id).value.points
  {
    match FindPowerUp(ps, id)
    case None => 0
    case Some(q) => if q.used then 0 else q.points
  }

  /** `usePowerUp(powerUpId)`. */
  function UsePowerUpState(l: Ledger, powerUpId: int): (r: Ledger)
    ensures r.powerUps == MarkPowerUp(l.powerUps, powerUpId)
    ensures r.totalPoints == l.totalPoints + PowerUpReward(l.powerUps, powerUpId)
    ensures r.level == l.level && r.allies == l.allies
    ensures r.quests == l.quests && r.badGuys == l.badGuys
  {
    l.(powerUps := MarkPowerUp(l.powerUps, powerUpId),
       totalPoints := l.totalPoints + PowerUpReward(l.powerUps, powerUpId))
  }

  /** A power-up pays only on its first use. */
  lemma UsePowerUpTwice(l: Ledger, powerUpId: int)
    ensures PowerUpReward(UsePowerUpState(l, powerUpId).powerUps, powerUpId) == 0
    ensures UsePowerUpState(UsePowerUpState(l, powerUpId), powerUpId)
            == UsePowerUpState(l, powerUpId)
  {
    var ps := l.powerUps;
    var ms := MarkPowerUp(ps, powerUpId);
    assert PowerUpIds(ms) == PowerUpIds(ps);
    assert MarkPowerUp(ms, powerUpId) == ms;
  }

  // ---------------------------------------------------------------------
  // The ledger

  /** Every quest and power-up is worth a positive number of points. */
  predicate PositivePoints(l: Ledger)
  {
    (forall q :: q in l.quests ==> q.points > 0)
    && (forall p :: p in l.powerUps ==> p.points > 0)
  }

  lemma InitialPositive()
    ensures PositivePoints(Initial)
    ensures Initial.totalPoints == 150 && Initial.level == 2 && Initial.allies == 3
  {
  }

  /** One of the three handlers, applied to the id it was clicked for. */
  datatype Action = CompleteQuest(questId: int) | DefeatBadGuy(badGuyId: int) | UsePowerUp(powerUpId: int)

  function Apply(l: Ledger, a: Action): Ledger
  {
    match a
    case CompleteQuest(id) => CompleteQuestState(l, id)
    case DefeatBadGuy(id) => DefeatBadGuyState(l, id)
    case UsePowerUp(id) => UsePowerUpState(l, id)
  }

  function ApplyAll(l: Ledger, actions: seq<Action>): Ledger
    decreases |actions|
  {
    if actions == [] then l else ApplyAll(Apply(l, actions[0]), actions[1..])
  }

  /** Each handler keeps points positive, never lowers the total, and
      leaves `level` and `allies` as they were. */
  lemma ApplyMonotone(l: Ledger, a: Action)
    requires PositivePoints(l)
    ensures PositivePoints(Apply(l, a))
    ensures Apply(l, a).totalPoints >= l.totalPoints
    ensures Apply(l, a).level == l.level && Apply(l, a).allies == l.allies
  {
    match a
    case CompleteQuest(id) =>
      var r := Apply(l, a);
      forall q | q in r.quests ensures q.points > 0 {
        var k :| 0 <= k < |r.quests| && r.quests[k] == q;
        assert l.quests[k] in l.quests;
      }
    case DefeatBadGuy(id) =>
    case UsePowerUp(id) =>
      var r := Apply(l, a);
      forall p | p in r.powerUps ensures p.points > 0 {
        var k :| 0 <= k < |r.powerUps| && r.powerUps[k] == p;
        assert l.powerUps[k] in l.powerUps;
      }
  }

  /** Over any sequence of clicks from a ledger with positive point values
      (such as the initial one), `totalPoints` never decreases and `level`
      and `allies` never change. */
  lemma {:induction false} PointsNeverDecrease(l: Ledger, actions: seq<Action>)
    requires PositivePoints(l)
    ensures ApplyAll(l, actions).totalPoints >= l.totalPoints
    ensures ApplyAll(l, actions).level == l.level && ApplyAll(l, actions).allies == l.allies
    decreases |actions|
  {
    if actions != [] {
      ApplyMonotone(l, actions[0]);
      PointsNeverDecrease(Apply(l, actions[0]), actions[1..]);
    }
  }

  // ---------------------------------------------------------------------
  // Lookups

  function DifficultyName(d: Difficulty): string
  {
    match d
    case Easy => "easy"
    case Medium => "medium"
    case Hard => "hard"
  }

  /** `getDifficultyColor(difficulty)`. */
  function GetDifficultyColor(difficulty: string): string
  {
    if difficulty == "easy" then "text-green-600 bg-green-100"
    else if difficulty == "medium" then "text-yellow-600 bg-yellow-100"
    else if difficulty == "hard" then "text-red-600 bg-red-100"
    else "text-gray-600 bg-gray-100"
  }

  /** The three difficulties get three different colours, none of them the
      grey fallback, which every other string gets. */
  lemma DifficultyColors(d: Difficulty, e: Difficulty, other: string)
    requires other !in {"easy", "medium", "hard"}
    ensures GetDifficultyColor(DifficultyName(d)) != "text-gray-600 bg-gray-100"
    ensures d != e ==> GetDifficultyColor(DifficultyName(d)) != GetDifficultyColor(DifficultyName(e))
    ensures GetDifficultyColor(other) == "text-gray-600 bg-gray-100"
  {
  }

  datatype Icon = Zap | Shield | Star | Users | Target

  function PowerCategoryName(c: PowerCategory): string
  {
    match c
    case Physical => "physical"
    case Mental => "mental"
    case Emotional => "emotional"
    case Social => "social"
  }

  /** `getCategoryIcon(category)`. */
  function GetCategoryIcon(category: string): Icon
  {
    if category == "physical" then Zap
    else if category == "mental" then Shield
    else if category == "emotional" then Star
    else if category == "social" then Users
    else Target
  }

  /** The four power-up categories get four different icons, none of them
      the fallback `Target`, which every other string gets. */
  lemma CategoryIcons(c: PowerCategory, e: PowerCategory, other: string)
    requires other !in {"physical", "mental", "emotional", "social"}
    ensures GetCategoryIcon(PowerCategoryName(c)) != Target
    ensures c != e ==> GetCategoryIcon(PowerCategoryName(c)) != GetCategoryIcon(PowerCategoryName(e))
    ensures GetCategoryIcon(other) == Target
  {
  }

  // ---------------------------------------------------------------------
  // The component

  class SuperBetterGame {
    var totalPoints: int
    var level: int
    var allies: int
    var quests: seq<Quest>
    var badGuys: seq<BadGuy>
    var powerUps: seq<PowerUp>

    function Model(): Ledger
      reads this
    {
      Ledger(totalPoints, level, allies, quests, badGuys, powerUps)
    }

    predicate Valid()
      reads this
    {
      PositivePoints(Model())
    }

    constructor ()
      ensures Valid() && Model() == Initial
    {
      totalPoints, level, allies := 150, 2, 3;
      quests, badGuys, powerUps := InitialQuests, InitialBadGuys, InitialPowerUps;
    }

    method CompleteQuest(questId: int)
      requires Valid()
      modifies this
      ensures Valid() && Model() == CompleteQuestState(old(Model()), questId)
      ensures totalPoints >= old(totalPoints)
    {
      ApplyMonotone(Model(), Action.CompleteQuest(questId));
      var quest := FindQuest(quests, questId);
      quests := MarkQuest(quests, questId);
      if quest.Some? && !quest.value.completed {
        totalPoints := totalPoints + quest.value.points;
      }
    }

    method DefeatBadGuy(badGuyId: int)
      requires Valid()
      modifies this
      ensures Valid() && Model() == DefeatBadGuyState(old(Model()), badGuyId)
    {
      badGuys := MarkBadGuy(badGuys, badGuyId);
      totalPoints := totalPoints + DefeatReward;
    }

    method UsePowerUp(powerUpId: int)
      requires Valid()
      modifies this
      ensures Valid() && Model() == UsePowerUpState(old(Model()), powerUpId)
      ensures totalPoints >= old(totalPoints)
    {
      ApplyMonotone(Model(), Action.UsePowerUp(powerUpId));
      var powerUp := FindPowerUp(powerUps, powerUpId);
      powerUps := MarkPowerUp(powerUps, powerUpId);
      if powerUp.Some? && !powerUp.value.used {
        totalPoints := totalPoints + powerUp.value.points;
      }
    }
  }
}
