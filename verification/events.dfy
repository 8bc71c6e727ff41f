/**
 * The FIFO event queue and the quest, story and encounter transitions it drives
 * (`Interface.process_events` and its handlers in INTERFACCLAUDEGAMELOOP.py).
 */
module Events {
  import opened Wrappers
  import opened Values
  import SM = StateManager
  import Validator

  /** A quest's rewards; either part may be missing (`rewards.get('money', 0)`, `rewards.get('items', [])`). */
  datatype Rewards = Rewards(money: Option<int>, items: Option<seq<Value>>)

  /** An active quest: progress so far, the progress needed, and what completing it pays. */
  datatype Quest = Quest(progress: int, requiredProgress: int, rewards: Rewards)

  /** What the encounter handler reports; every part may be missing. */
  datatype ActionResult = ActionResult(timeCost: Option<int>, moneyChange: Option<int>, progress: Option<int>)

  /** An event type no handler is registered for. */
  type UnknownKind = k: string | k != "encounter" && k != "quest" && k != "story" witness ""

  /** A queued event, by its `type` field; any other type is ignored. */
  datatype Event =
    | Encounter(result: ActionResult)
    | QuestProgress(questId: Option<string>, amount: Option<int>)
    | StoryAdvance(amount: Option<int>, summary: Option<string>)
    | Other(kind: UnknownKind)

  /** The state the handlers act on: the guarded profile, the active quests, and whether an encounter manager exists. */
  datatype World = World(manager: SM.Manager, quests: map<string, Quest>, encounterSystem: bool)

  predicate Valid(w: World) {
    SM.Valid(w.manager)
  }

  function Money(w: World): real
    requires Valid(w)
  {
    NumVal(w.manager.profile["money"])
  }

  function Gear(w: World): seq<Value>
    requires Valid(w)
  {
    w.manager.profile["gear"].items
  }

  /**
   * Every validated key outside `kept` holds its zero value: validation rebuilds
   * all six validated keys, so a key the update does not supply is reset.
   */
  predicate ResetExcept(p: SM.Profile, kept: set<string>) {
    forall k | k in Validator.Expected && k !in kept ::
      k in p && p[k] == Validator.ZeroValue(Validator.Expected[k])
  }

  /** Resetting all but `kept` implies resetting all but any `kept'` that keeps at least the validated keys of `kept`. */
  lemma ResetWiden(p: SM.Profile, kept: set<string>, kept': set<string>)
    requires ResetExcept(p, kept)
    requires forall k | k in kept && k in Validator.Expected :: k in kept'
    ensures ResetExcept(p, kept')
  {
  }

  /** The game-progress keys are not among the validated keys. */
  lemma ProgressKeysNotValidated()
    ensures "time" !in Validator.Expected
    ensures "mysteryProgress" !in Validator.Expected
    ensures "adventure_summary" !in Validator.Expected
  {
  }

  /**
   * `r` is `w` after one `update_state`: one snapshot of the old profile is pushed
   * onto the bounded history, and every key outside the validated six keeps its
   * presence and value; the encounter system is not touched.
   */
  predicate UpdatedFrom(r: World, w: World) {
    && r.encounterSystem == w.encounterSystem
    && r.manager.history == SM.LastN(w.manager.history + [w.manager.profile], SM.MaxHistory)
    && r.manager.profile.Keys - Validator.Expected.Keys == w.manager.profile.Keys - Validator.Expected.Keys
    && (forall k | k in w.manager.profile && k !in Validator.Expected ::
          k in r.manager.profile && r.manager.profile[k] == w.manager.profile[k])
  }

  /** Apply an update through the state manager. */
  function Apply(w: World, updates: map<string, Value>): (r: World)
    requires Valid(w)
    ensures Valid(r)
    ensures r.quests == w.quests && r.encounterSystem == w.encounterSystem
    ensures UpdatedFrom(r, w)
    ensures forall k | k in Validator.Expected && Validator.Supplied(updates, k) ::
      k in r.manager.profile && r.manager.profile[k] == updates[k]
    ensures ResetExcept(r.manager.profile, updates.Keys)
    ensures r.manager.profile["time"] == w.manager.profile["time"]
    ensures r.manager.profile["mysteryProgress"] == w.manager.profile["mysteryProgress"]
    ensures r.manager.profile["adventure_summary"] == w.manager.profile["adventure_summary"]
  {
    SM.UpdatePreservesValid(w.manager, updates);
    ProgressKeysNotValidated();
    w.(manager := SM.Update(w.manager, updates).0)
  }

  /** The update `update_game_progress` builds: time, money and mystery progress, each moved by the result. */
  function ProgressUpdates(p: SM.Profile, result: ActionResult): (u: map<string, Value>)
    requires SM.GameProfile(p)
    ensures u.Keys == {"time", "money", "mysteryProgress"}
    ensures forall k | k in u :: IsNumber(u[k])
    ensures NumVal(u["time"]) == NumVal(p["time"]) + result.timeCost.GetOr(0) as real
    ensures NumVal(u["money"]) == NumVal(p["money"]) + result.moneyChange.GetOr(0) as real
    ensures NumVal(u["mysteryProgress"]) == NumVal(p["mysteryProgress"]) + result.progress.GetOr(0) as real
  {
    map[
      "time" := AddInt(p["time"], result.timeCost.GetOr(0)),
      "money" := AddInt(p["money"], result.moneyChange.GetOr(0)),
      "mysteryProgress" := AddInt(p["mysteryProgress"], result.progress.GetOr(0))
    ]
  }

  /**
   * `update_game_progress`: the new time, money and mystery progress are computed
   * and handed to the state manager. Validation keeps only the money of these and
   * resets name, crew, gear, skills and emotional_state, which the update lacks.
   */
  function UpdateGameProgress(w: World, result: ActionResult): (r: (World, map<string, Value>))
    requires Valid(w)
    ensures Valid(r.0)
    ensures r.0.quests == w.quests && r.0.encounterSystem == w.encounterSystem
    ensures r.1 == ProgressUpdates(w.manager.profile, result)
    ensures Money(r.0) == Money(w) + result.moneyChange.GetOr(0) as real
    ensures ResetExcept(r.0.manager.profile, {"money"})
    ensures UpdatedFrom(r.0, w)
    ensures r.0.manager.profile["time"] == w.manager.profile["time"]
    ensures r.0.manager.profile["mysteryProgress"] == w.manager.profile["mysteryProgress"]
  {
    var updates := ProgressUpdates(w.manager.profile, result);
    var r := Apply(w, updates);
    ProgressKeysNotValidated();
    ResetWiden(r.manager.profile, updates.Keys, {"money"});
    (r, updates)
  }

  /** `handle_encounter`: without an encounter manager nothing happens; otherwise the result is applied. */
  function HandleEncounter(w: World, result: ActionResult): (r: World)
    requires Valid(w)
    ensures Valid(r)
    ensures !w.encounterSystem ==> r == w
    ensures w.encounterSystem ==> Money(r) == Money(w) + result.moneyChange.GetOr(0) as real
    ensures w.encounterSystem ==> ResetExcept(r.manager.profile, {"money"}) && Gear(r) == []
    ensures w.encounterSystem ==> UpdatedFrom(r, w)
    ensures r.quests == w.quests && r.encounterSystem == w.encounterSystem
  {
    if !w.encounterSystem then w else UpdateGameProgress(w, result).0
  }

  /** `min(100, x)`: Python returns the first argument unless the second is smaller. */
  function CapAt100(x: Value): (r: Value)
    requires IsNumber(x)
    ensures IsNumber(r)
    ensures NumVal(r) == if NumVal(x) < 100.0 then NumVal(x) else 100.0
  {
    if NumVal(x) < 100.0 then x else Int(100)
  }

  /** The update `advance_story` builds: the capped progress and the extended summary, and no money. */
  function StoryUpdates(p: SM.Profile, amount: Option<int>, summary: Option<string>): (u: map<string, Value>)
    requires SM.GameProfile(p)
    ensures u.Keys == {"mysteryProgress", "adventure_summary"}
    ensures IsNumber(u["mysteryProgress"])
    ensures NumVal(u["mysteryProgress"]) ==
      var sum := NumVal(p["mysteryProgress"]) + amount.GetOr(5) as real;
      if sum < 100.0 then sum else 100.0
    ensures u["adventure_summary"] == Str(p["adventure_summary"].s + " " + summary.GetOr(""))
  {
    map[
      "mysteryProgress" := CapAt100(AddInt(p["mysteryProgress"], amount.GetOr(5))),
      "adventure_summary" := Str(p["adventure_summary"].s + " " + summary.GetOr(""))
    ]
  }

  /**
   * `advance_story` over the corrected validation: the new mystery progress is
   * `min(100, current + progress)` (progress defaults to 5). The update carries
   * only mysteryProgress and adventure_summary, which validation drops, so the
   * profile keeps its old progress and summary while all six validated keys are
   * reset. (As written, validation raises here: see `DispatchAsWritten`.)
   */
  function AdvanceStory(w: World, amount: Option<int>, summary: Option<string>): (r: (World, Value))
    requires Valid(w)
    ensures Valid(r.0)
    ensures r.0.quests == w.quests && r.0.encounterSystem == w.encounterSystem
    ensures IsNumber(r.1)
    ensures NumVal(r.1) ==
      var sum := NumVal(w.manager.profile["mysteryProgress"]) + amount.GetOr(5) as real;
      if sum < 100.0 then sum else 100.0
    ensures NumVal(r.1) <= 100.0
    ensures r.0.manager.profile["mysteryProgress"] == w.manager.profile["mysteryProgress"]
    ensures r.0.manager.profile["adventure_summary"] == w.manager.profile["adventure_summary"]
    ensures ResetExcept(r.0.manager.profile, {})
    ensures UpdatedFrom(r.0, w)
  {
    var updates := StoryUpdates(w.manager.profile, amount, summary);
    var r := Apply(w, updates);
    ProgressKeysNotValidated();
    ResetWiden(r.manager.profile, updates.Keys, {});
    (r, updates["mysteryProgress"])
  }

  /** The update `complete_quest` builds: money plus the reward money, gear plus the reward items. */
  function RewardUpdates(p: SM.Profile, rewards: Rewards): (u: map<string, Value>)
    requires SM.GameProfile(p)
    ensures u.Keys == {"money", "gear"}
    ensures IsNumber(u["money"]) && NumVal(u["money"]) == NumVal(p["money"]) + rewards.money.GetOr(0) as real
    ensures u["gear"] == List(p["gear"].items + rewards.items.GetOr([]))
  {
    map[
      "money" := AddInt(p["money"], rewards.money.GetOr(0)),
      "gear" := List(p["gear"].items + rewards.items.GetOr([]))
    ]
  }

  /**
   * `complete_quest`: remove the quest and pay its rewards through the state
   * manager (money added, items appended to the gear); validation resets the
   * other validated keys. Popping an absent quest raises, so the quest must be
   * present.
   */
  function CompleteQuest(w: World, id: string): (r: World)
    requires Valid(w) && id in w.quests
    ensures Valid(r)
    ensures r.quests == w.quests - {id} && r.encounterSystem == w.encounterSystem
    ensures Money(r) == Money(w) + w.quests[id].rewards.money.GetOr(0) as real
    ensures Gear(r) == Gear(w) + w.quests[id].rewards.items.GetOr([])
    ensures ResetExcept(r.manager.profile, {"money", "gear"})
    ensures UpdatedFrom(r, w)
  {
    Apply(w.(quests := w.quests - {id}), RewardUpdates(w.manager.profile, w.quests[id].rewards))
  }

  /**
   * `handle_quest_update`: an event for an absent quest does nothing; otherwise
   * progress grows by the event's amount (default 1) and the quest completes once
   * it reaches the required progress.
   */
  function HandleQuestUpdate(w: World, questId: Option<string>, amount: Option<int>): (r: World)
    requires Valid(w)
    ensures Valid(r)
    ensures questId.None? || questId.value !in w.quests ==> r == w
    ensures questId.Some? && questId.value in w.quests ==> (
      var id := questId.value;
      var q := w.quests[id];
      var progress := q.progress + amount.GetOr(1);
      if progress < q.requiredProgress then
        r == w.(quests := w.quests[id := q.(progress := progress)])
      else
        && id !in r.quests
        && r.quests == w.quests - {id}
        && Money(r) == Money(w) + q.rewards.money.GetOr(0) as real
        && Gear(r) == Gear(w) + q.rewards.items.GetOr([])
        && ResetExcept(r.manager.profile, {"money", "gear"})
        && r.encounterSystem == w.encounterSystem
        && UpdatedFrom(r, w))
  {
    if questId.Some? && questId.value in w.quests then
      var id := questId.value;
      var q := w.quests[id];
      var updated := w.(quests := w.quests[id := q.(progress := q.progress + amount.GetOr(1))]);
      if updated.quests[id].progress >= updated.quests[id].requiredProgress then CompleteQuest(updated, id)
      else updated
    else w
  }

  /** Handle one event by its type. */
  function Dispatch(w: World, e: Event): (r: World)
    requires Valid(w)
    ensures Valid(r)
    ensures e.Encounter? ==> r == HandleEncounter(w, e.result)
    ensures e.QuestProgress? ==> r == HandleQuestUpdate(w, e.questId, e.amount)
    ensures e.StoryAdvance? ==> r == AdvanceStory(w, e.amount, e.summary).0
    ensures e.Other? ==> r == w
  {
    match e
    case Encounter(result) => HandleEncounter(w, result)
    case QuestProgress(id, amount) => HandleQuestUpdate(w, id, amount)
    case StoryAdvance(amount, summary) => AdvanceStory(w, amount, summary).0
    case Other(_) => w
  }

  /** The reference meaning of draining a queue: handle its events front to back. */
  function DrainAll(w: World, queue: seq<Event>): (r: World)
    requires Valid(w)
    ensures Valid(r)
    decreases |queue|
  {
    if |queue| == 0 then w else DrainAll(Dispatch(w, queue[0]), queue[1..])
  }

  /** `process_events`: pop the front event and handle it until the queue is empty. */
  method ProcessEvents(w: World, queue: seq<Event>) returns (r: World, rest: seq<Event>)
    requires Valid(w)
    ensures Valid(r)
    ensures rest == []
    ensures r == DrainAll(w, queue)
  {
    r := w;
    rest := queue;
    while |rest| > 0
      invariant Valid(r)
      invariant DrainAll(r, rest) == DrainAll(w, queue)
      decreases |rest|
    {
      var event := rest[0];
      rest := rest[1..];
      r := Dispatch(r, event);
    }
  }

  /** Draining two queues one after the other is draining their concatenation: events are handled in FIFO order. */
  lemma {:induction false} DrainConcat(w: World, q1: seq<Event>, q2: seq<Event>)
    requires Valid(w)
    ensures DrainAll(w, q1 + q2) == DrainAll(DrainAll(w, q1), q2)
    decreases |q1|
  {
    if |q1| > 0 {
      assert (q1 + q2)[0] == q1[0];
      assert (q1 + q2)[1..] == q1[1..] + q2;
      DrainConcat(Dispatch(w, q1[0]), q1[1..], q2);
    } else {
      assert q1 + q2 == q2;
    }
  }

  /** Events of unknown type are skipped without effect. */
  lemma {:induction false} UnknownEventsIgnored(w: World, kind: UnknownKind, queue: seq<Event>)
    requires Valid(w)
    ensures DrainAll(w, [Other(kind)] + queue) == DrainAll(w, queue)
  {
  }

  /**
   * A quest one step from completion pays its money once: the event that
   * completes it removes it, so a second event for the same quest is stale.
   */
  lemma RewardPaidOnce(w: World, id: string)
    requires Valid(w) && id in w.quests
    requires w.quests[id].progress == w.quests[id].requiredProgress - 1
    ensures var event := QuestProgress(Some(id), Some(1));
      var r := DrainAll(w, [event, event]);
      && id !in r.quests
      && Money(r) == Money(w) + w.quests[id].rewards.money.GetOr(0) as real
  {
    var event := QuestProgress(Some(id), Some(1));
    var once := Dispatch(w, event);
    assert DrainAll(w, [event, event]) == DrainAll(once, [event]);
    assert DrainAll(once, [event]) == Dispatch(once, event);
  }

  /** Quest Q1 at progress 2 of 3 with a 50 reward: one progress event removes it and adds 50 money. */
  lemma QuestScenario(w: World)
    requires Valid(w)
    requires w.quests == map["Q1" := Quest(2, 3, Rewards(Some(50), None))]
    ensures var r := Dispatch(w, QuestProgress(Some("Q1"), Some(1)));
      r.quests == map[] && Money(r) == Money(w) + 50.0
  {
  }

  /**
   * The handlers over the validation as written: encounter and quest updates
   * carry a numeric money and validate as corrected, but the story update has no
   * money, so validation raises TypeError before any snapshot is taken.
   */
  function DispatchAsWritten(w: World, e: Event): (r: Result<World>)
    requires Valid(w)
    ensures r.Failure? <==> e.StoryAdvance?
    ensures r.Failure? ==> r.error == TypeError
    ensures r.Success? ==> r.value == Dispatch(w, e)
  {
    var p := w.manager.profile;
    AsWrittenOutcomes(w, e);
    match e
    case Encounter(result) =>
      if !w.encounterSystem then Success(w)
      else AfterValidation(ProgressUpdates(p, result), HandleEncounter(w, result))
    case QuestProgress(id, amount) =>
      if id.Some? && id.value in w.quests
         && w.quests[id.value].progress + amount.GetOr(1) >= w.quests[id.value].requiredProgress
      then AfterValidation(RewardUpdates(p, w.quests[id.value].rewards), HandleQuestUpdate(w, id, amount))
      else Success(HandleQuestUpdate(w, id, amount))
    case StoryAdvance(amount, summary) =>
      AfterValidation(StoryUpdates(p, amount, summary), AdvanceStory(w, amount, summary).0)
    case Other(_) => Success(w)
  }

  /** Encounter and reward updates carry a numeric money and pass the validation as written; a story update raises. */
  lemma AsWrittenOutcomes(w: World, e: Event)
    requires Valid(w)
    ensures e.Encounter? ==> Validator.ValidateAsWritten(ProgressUpdates(w.manager.profile, e.result)).Success?
    ensures e.QuestProgress? && e.questId.Some? && e.questId.value in w.quests ==>
      Validator.ValidateAsWritten(RewardUpdates(w.manager.profile, w.quests[e.questId.value].rewards)).Success?
    ensures e.StoryAdvance? ==>
      Validator.ValidateAsWritten(StoryUpdates(w.manager.profile, e.amount, e.summary)) == Failure(TypeError)
  {
  }

  /** The handler's outcome once `update_state` has validated `updates` as written: its exception, or the handled world. */
  function AfterValidation(updates: map<string, Value>, handled: World): Result<World> {
    match Validator.ValidateAsWritten(updates)
    case Failure(err) => Failure(err)
    case Success(_) => Success(handled)
  }

  /**
   * `process_events` as written: an exception escapes the loop, so draining stops
   * at the first failing event. The result is the world reached, the events still
   * queued, and the exception if one escaped.
   */
  function DrainAsWritten(w: World, queue: seq<Event>): (r: (World, seq<Event>, Option<PyError>))
    requires Valid(w)
    ensures Valid(r.0)
    ensures r.2.None? ==> r.1 == []
    ensures r.2.Some? ==> r.2.value == TypeError && |r.1| < |queue| && r.1 == queue[|queue| - |r.1|..]
    ensures r.2.Some? ==> queue[|queue| - |r.1| - 1].StoryAdvance?
    decreases |queue|
  {
    if |queue| == 0 then (w, [], None)
    else
      match DispatchAsWritten(w, queue[0])
      case Failure(err) => (w, queue[1..], Some(err))
      case Success(w') => DrainAsWritten(w', queue[1..])
  }

  /** A queue without story events drains as written exactly as with the corrected validation. */
  lemma {:induction false} DrainAsWrittenWithoutStory(w: World, queue: seq<Event>)
    requires Valid(w)
    requires forall i | 0 <= i < |queue| :: !queue[i].StoryAdvance?
    ensures DrainAsWritten(w, queue) == (DrainAll(w, queue), [], None)
    decreases |queue|
  {
    if |queue| > 0 {
      DrainAsWrittenWithoutStory(Dispatch(w, queue[0]), queue[1..]);
    }
  }

  /**
   * As written, the first story event raises TypeError: the events before it are
   * handled, the story event itself is lost, and everything after it stays queued.
   */
  lemma {:induction false} DrainAsWrittenStopsAtStory(w: World, queue: seq<Event>, s: nat)
    requires Valid(w)
    requires s < |queue| && queue[s].StoryAdvance?
    requires forall i | 0 <= i < s :: !queue[i].StoryAdvance?
    ensures DrainAsWritten(w, queue) == (DrainAll(w, queue[..s]), queue[s + 1..], Some(TypeError))
    decreases s
  {
    if s > 0 {
      var w' := Dispatch(w, queue[0]);
      DrainAsWrittenStopsAtStory(w', queue[1..], s - 1);
      assert queue[1..][..s - 1] == queue[..s][1..];
      assert queue[1..][s - 1 + 1..] == queue[s + 1..];
    }
  }
}
