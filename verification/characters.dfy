/**
 * NPCs, the player and the quest log kept by `Core.GameManager` (Core.py).
 * The NPC registry maps a name to the NPC's record. Where the source shares one
 * emotional-state dictionary between a registry entry and an NPC object, the
 * model updates the registry entry and returns the caller's NPC as it was.
 * Emotional states and skills are dictionaries of integers.
 */
module Characters {
  import opened Wrappers
  import opened Values

  type Feelings = map<string, int>

  /** The language proficiency a new NPC gets when none is given. */
  const DefaultLanguageProficiency: int := 3

  /** The highest trust an NPC can have in the player. */
  const MaxTrust: int := 10

  /** The level gain for completing a quest. */
  const QuestExperience: int := 10

  /** The level above which experience also trains combat. */
  const CombatThreshold: int := 5

  datatype Npc = Npc(name: string, languageProficiency: int, emotionalState: Feelings)

  datatype Player = Player(name: string, level: int, languageProficiency: int)

  type Details = map<string, Value>

  /** The parts of the game state these operations touch. */
  datatype Game = Game(npcs: map<string, Npc>, player: Player, skills: Feelings, activeQuests: map<string, Details>)

  /** `d.get('trust', 0)`. */
  function Trust(f: Feelings): int {
    if "trust" in f then f["trust"] else 0
  }

  /** One step of trust: `min(10, trust + 1)`. */
  function Befriend(f: Feelings): (r: Feelings)
    ensures r.Keys == f.Keys + {"trust"}
    ensures Trust(r) <= MaxTrust
    ensures Trust(f) < MaxTrust ==> Trust(r) == Trust(f) + 1
    ensures Trust(f) >= MaxTrust ==> Trust(r) == MaxTrust
    ensures forall e | e in f && e != "trust" :: r[e] == f[e]
  {
    f["trust" := if Trust(f) + 1 < MaxTrust then Trust(f) + 1 else MaxTrust]
  }

  /**
   * `NPC.build_relationship`: the registered NPC of that name (or, when none is
   * registered, the NPC itself) gains trust, capped at 10, and the player's
   * happiness rises by one; a profile without happiness raises.
   */
  function BuildRelationship(g: Game, npc: Npc, happiness: Feelings): (r: Result<(Game, Npc, Feelings)>)
    ensures "happiness" !in happiness <==> r.Failure?
    ensures r.Failure? ==> r.error == KeyError("happiness")
    ensures r.Success? ==> var (g', npc', happiness') := r.value;
      && happiness'.Keys == happiness.Keys
      && happiness'["happiness"] == happiness["happiness"] + 1
      && (forall e | e in happiness && e != "happiness" :: happiness'[e] == happiness[e])
      && g'.npcs.Keys == g.npcs.Keys
      && (forall n | n in g.npcs && n != npc.name :: g'.npcs[n] == g.npcs[n])
      && (npc.name in g.npcs ==>
          npc' == npc
          && g'.npcs[npc.name] == g.npcs[npc.name].(emotionalState := Befriend(g.npcs[npc.name].emotionalState)))
      && (npc.name !in g.npcs ==> g'.npcs == g.npcs && npc' == npc.(emotionalState := Befriend(npc.emotionalState)))
      && g'.player == g.player && g'.skills == g.skills && g'.activeQuests == g.activeQuests
  {
    if "happiness" !in happiness then Failure(KeyError("happiness"))
    else
      var happiness' := happiness["happiness" := happiness["happiness"] + 1];
      if npc.name in g.npcs then
        var entry := g.npcs[npc.name];
        Success((g.(npcs := g.npcs[npc.name := entry.(emotionalState := Befriend(entry.emotionalState))]), npc, happiness'))
      else
        Success((g, npc.(emotionalState := Befriend(npc.emotionalState)), happiness'))
  }

  /** Trust after `n` relationship-building steps. */
  function BefriendTimes(f: Feelings, n: nat): Feelings
    decreases n
  {
    if n == 0 then f else Befriend(BefriendTimes(f, n - 1))
  }

  /** Repeated relationship building saturates at 10: after `n >= 1` steps trust is `min(10, trust + n)`. */
  lemma {:induction false} BefriendSaturates(f: Feelings, n: nat)
    requires n >= 1
    ensures Trust(BefriendTimes(f, n)) == if Trust(f) + n < MaxTrust then Trust(f) + n else MaxTrust
    decreases n
  {
    if n > 1 {
      BefriendSaturates(f, n - 1);
    }
  }

  /**
   * The skills of `r` are those of `g` after a gain of `amount` levels: combat
   * rises by one when the new level exceeds 5, every other skill is kept.
   */
  predicate CombatTrained(g: Game, r: Game, amount: int) {
    && r.skills.Keys == g.skills.Keys
    && (forall s | s in g.skills && s != "combat" :: r.skills[s] == g.skills[s])
    && ("combat" in g.skills ==>
          r.skills["combat"] == g.skills["combat"] + (if g.player.level + amount > CombatThreshold then 1 else 0))
  }

  /**
   * `Player.gain_experience`: the level rises by `amount`; when the new level
   * exceeds 5 the profile's combat skill rises by one, raising when the skill
   * is missing.
   */
  function GainExperience(g: Game, amount: int): (r: Result<Game>)
    ensures r.Failure? <==> g.player.level + amount > CombatThreshold && "combat" !in g.skills
    ensures r.Failure? ==> r.error == KeyError("combat")
    ensures r.Success? ==>
      && r.value.player == g.player.(level := g.player.level + amount)
      && CombatTrained(g, r.value, amount)
      && r.value.npcs == g.npcs && r.value.activeQuests == g.activeQuests
  {
    var player := g.player.(level := g.player.level + amount);
    if player.level > CombatThreshold then
      if "combat" in g.skills then Success(g.(player := player, skills := g.skills["combat" := g.skills["combat"] + 1]))
      else Failure(KeyError("combat"))
    else Success(g.(player := player))
  }

  /** Successive `gain_experience` calls, stopping at the first that raises. */
  function GainAll(g: Game, amounts: seq<int>): Result<Game>
    decreases |amounts|
  {
    if |amounts| == 0 then Success(g)
    else
      match GainExperience(g, amounts[0])
      case Failure(e) => Failure(e)
      case Success(g') => GainAll(g', amounts[1..])
  }

  function Sum(amounts: seq<int>): int
    decreases |amounts|
  {
    if |amounts| == 0 then 0 else amounts[0] + Sum(amounts[1..])
  }

  /** How many of the successive gains, starting from `level`, end above the combat threshold. */
  function CombatBumps(level: int, amounts: seq<int>): nat
    decreases |amounts|
  {
    if |amounts| == 0 then 0
    else (if level + amounts[0] > CombatThreshold then 1 else 0) + CombatBumps(level + amounts[0], amounts[1..])
  }

  /**
   * With a combat skill present, successive gains never raise: the level rises by
   * their sum and combat by one for every gain that ends above level 5.
   */
  lemma {:induction false} GainAllCombat(g: Game, amounts: seq<int>)
    requires "combat" in g.skills
    ensures GainAll(g, amounts).Success?
    ensures GainAll(g, amounts).value.player.level == g.player.level + Sum(amounts)
    ensures GainAll(g, amounts).value.skills == g.skills["combat" := g.skills["combat"] + CombatBumps(g.player.level, amounts)]
    decreases |amounts|
  {
    if |amounts| > 0 {
      var g' := GainExperience(g, amounts[0]).value;
      GainAllCombat(g', amounts[1..]);
      assert g'.skills == g.skills["combat" := g.skills["combat"] + (if g.player.level + amounts[0] > CombatThreshold then 1 else 0)];
    }
  }

  /** Without a combat skill, the first gain that ends above level 5 raises KeyError. */
  lemma {:induction false} GainAllWithoutCombat(g: Game, amounts: seq<int>)
    requires "combat" !in g.skills
    ensures GainAll(g, amounts).Failure? <==> CombatBumps(g.player.level, amounts) > 0
    decreases |amounts|
  {
    if |amounts| > 0 && g.player.level + amounts[0] <= CombatThreshold {
      GainAllWithoutCombat(GainExperience(g, amounts[0]).value, amounts[1..]);
    }
  }

  /**
   * `Player.complete_quest`: the player always gains 10 levels, then the quest
   * leaves the active log if it was there.
   */
  function PlayerCompleteQuest(g: Game, quest: string): (r: Result<Game>)
    ensures r.Failure? <==> GainExperience(g, QuestExperience).Failure?
    ensures r.Success? ==>
      && r.value.player == g.player.(level := g.player.level + QuestExperience)
      && CombatTrained(g, r.value, QuestExperience)
      && r.value.activeQuests == g.activeQuests - {quest}
      && r.value.npcs == g.npcs
  {
    match GainExperience(g, QuestExperience)
    case Failure(e) => Failure(e)
    case Success(g') => Success(g'.(activeQuests := g'.activeQuests - {quest}))
  }

  /**
   * `GameManager.create_npc`: register a new NPC (proficiency 3 and trust 0 when
   * none are given), replacing one of the same name.
   */
  function CreateNpc(g: Game, name: string, languageProficiency: Option<int>, emotionalState: Option<Feelings>): (r: (Game, Npc))
    ensures r.1.name == name
    ensures languageProficiency.None? ==> r.1.languageProficiency == DefaultLanguageProficiency
    ensures languageProficiency.Some? ==> r.1.languageProficiency == languageProficiency.value
    ensures emotionalState.None? ==> r.1.emotionalState == map["trust" := 0]
    ensures emotionalState.Some? ==> r.1.emotionalState == emotionalState.value
    ensures r.0.npcs.Keys == g.npcs.Keys + {name}
    ensures r.0.npcs[name] == r.1
    ensures forall n | n in g.npcs && n != name :: r.0.npcs[n] == g.npcs[n]
    ensures r.0.player == g.player && r.0.skills == g.skills && r.0.activeQuests == g.activeQuests
  {
    var npc := Npc(name, languageProficiency.GetOr(DefaultLanguageProficiency), emotionalState.GetOr(map["trust" := 0]));
    (g.(npcs := g.npcs[name := npc]), npc)
  }

  /**
   * A freshly created NPC befriended once trusts the player one step more than
   * it was created with: 1 with the default emotional state.
   */
  lemma CreateThenBefriend(g: Game, name: string, languageProficiency: Option<int>, emotionalState: Option<Feelings>, happiness: Feelings)
    requires "happiness" in happiness
    ensures var (g1, npc) := CreateNpc(g, name, languageProficiency, emotionalState);
      var r := BuildRelationship(g1, npc, happiness);
      var start := Trust(emotionalState.GetOr(map["trust" := 0]));
      && r.Success?
      && Trust(r.value.0.npcs[name].emotionalState) == (if start + 1 < MaxTrust then start + 1 else MaxTrust)
      && (emotionalState.None? ==> Trust(r.value.0.npcs[name].emotionalState) == 1)
  {
  }

  /** `GameManager.start_quest`: record the quest's details, replacing earlier ones. */
  function StartQuest(g: Game, quest: string, details: Details): (r: Game)
    ensures r.activeQuests.Keys == g.activeQuests.Keys + {quest}
    ensures r.activeQuests[quest] == details
    ensures forall q | q in g.activeQuests && q != quest :: r.activeQuests[q] == g.activeQuests[q]
    ensures r.npcs == g.npcs && r.player == g.player && r.skills == g.skills
  {
    g.(activeQuests := g.activeQuests[quest := details])
  }

  /** `GameManager.update_quest`: merge `updates` into an active quest's details; an unknown quest is left alone. */
  function UpdateQuest(g: Game, quest: string, updates: Details): (r: Game)
    ensures quest !in g.activeQuests ==> r == g
    ensures r.activeQuests.Keys == g.activeQuests.Keys
    ensures quest in g.activeQuests ==>
      && r.activeQuests[quest].Keys == g.activeQuests[quest].Keys + updates.Keys
      && (forall k | k in updates :: r.activeQuests[quest][k] == updates[k])
      && (forall k | k in g.activeQuests[quest] && k !in updates :: r.activeQuests[quest][k] == g.activeQuests[quest][k])
    ensures forall q | q in g.activeQuests && q != quest :: r.activeQuests[q] == g.activeQuests[q]
    ensures r.npcs == g.npcs && r.player == g.player && r.skills == g.skills
  {
    if quest in g.activeQuests then
      g.(activeQuests := g.activeQuests[quest := g.activeQuests[quest] + updates])
    else g
  }

  /** Applying the same update twice is the same as applying it once. */
  lemma UpdateQuestIdempotent(g: Game, quest: string, updates: Details)
    ensures UpdateQuest(UpdateQuest(g, quest, updates), quest, updates) == UpdateQuest(g, quest, updates)
  {
    if quest in g.activeQuests {
      var once := UpdateQuest(g, quest, updates);
      assert once.activeQuests[quest] + updates == once.activeQuests[quest];
      assert once.activeQuests[quest := once.activeQuests[quest] + updates] == once.activeQuests;
    }
  }

  /**
   * `GameManager.complete_quest`: an active quest leaves the log and the player
   * gains 10 levels; an unknown quest changes nothing.
   */
  function CompleteQuest(g: Game, quest: string): (r: Result<Game>)
    ensures quest !in g.activeQuests ==> r == Success(g)
    ensures quest in g.activeQuests ==>
      (r.Failure? <==> GainExperience(g, QuestExperience).Failure?)
    ensures quest in g.activeQuests && r.Success? ==>
      && r.value.activeQuests.Keys == g.activeQuests.Keys - {quest}
      && (forall q | q in r.value.activeQuests :: r.value.activeQuests[q] == g.activeQuests[q])
      && r.value.player == g.player.(level := g.player.level + QuestExperience)
      && CombatTrained(g, r.value, QuestExperience)
      && r.value.npcs == g.npcs
  {
    if quest in g.activeQuests then
      GainExperience(g.(activeQuests := g.activeQuests - {quest}), QuestExperience)
    else Success(g)
  }

  /** For an active quest, the manager's and the player's completion agree; for an unknown quest only the player still gains experience. */
  lemma CompletionsAgree(g: Game, quest: string)
    ensures quest in g.activeQuests ==> CompleteQuest(g, quest) == PlayerCompleteQuest(g, quest)
    ensures quest !in g.activeQuests && PlayerCompleteQuest(g, quest).Success? ==>
      PlayerCompleteQuest(g, quest).value.player.level == CompleteQuest(g, quest).value.player.level + QuestExperience
  {
  }

  /** Starting a quest and completing it leaves the log as it was without that quest. */
  lemma StartThenComplete(g: Game, quest: string, details: Details)
    requires CompleteQuest(StartQuest(g, quest, details), quest).Success?
    ensures CompleteQuest(StartQuest(g, quest, details), quest).value.activeQuests == g.activeQuests - {quest}
    ensures CompleteQuest(StartQuest(g, quest, details), quest).value.player.level == g.player.level + QuestExperience
  {
  }
}
