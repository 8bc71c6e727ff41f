/**
 * The player's profile and the bounded undo history that guards it
 * (`GameState._init_user_profile` and `StateManager` in INTERFACCLAUDEGAMELOOP.py).
 */
module StateManager {
  import opened Values
  import Validator

  /** The flat user profile: a dictionary from field names to values. */
  type Profile = map<string, Value>

  /** `max_history`: how many snapshots the undo history keeps. */
  const MaxHistory: nat := 10

  /** The profile and its snapshots, oldest first. */
  datatype Manager = Manager(profile: Profile, history: seq<Profile>)

  /** The profile the game starts with. */
  const InitialProfile: Profile := map[
    "name" := Str("Traveler"),
    "money" := Int(100),
    "crew" := List([]),
    "gear" := List([]),
    "activity" := Str(""),
    "thoughts" := Str(""),
    "known_contacts" := List([]),
    "budget" := Int(100),
    "visited_countries" := List([]),
    "current_location" := Dict(map[
      "country" := Str("Unknown"),
      "town" := Str("Starting Town"),
      "latitude" := Float(0.0),
      "longitude" := Float(0.0),
      "neighborhood" := NoneValue
    ]),
    "adventure_summary" := Str("You started your journey seeking adventure."),
    "relationship_status" := Str("Single"),
    "clues" := List([]),
    "mysteryProgress" := Int(0),
    "skills" := Dict(map["negotiation" := Int(1), "combat" := Int(1), "cooking" := Int(1)]),
    "time" := Int(0),
    "language_proficiency" := Int(3),
    "emotional_state" := Dict(map[
      "happiness" := Int(5), "sadness" := Int(0), "anger" := Int(0), "fear" := Int(0), "love" := Int(0)
    ]),
    "current_narration" := Str("")
  ]

  /**
   * The shape the game's own code relies on when it reads the profile: numbers
   * under money, time and mysteryProgress, a list of gear and a string summary.
   */
  predicate GameProfile(p: Profile) {
    && "money" in p && IsNumber(p["money"])
    && "time" in p && IsNumber(p["time"])
    && "mysteryProgress" in p && IsNumber(p["mysteryProgress"])
    && "gear" in p && p["gear"].List?
    && "adventure_summary" in p && p["adventure_summary"].Str?
  }

  /** A manager whose profile and snapshots all have the game's shape and whose history is within bound. */
  predicate Valid(m: Manager) {
    && GameProfile(m.profile)
    && |m.history| <= MaxHistory
    && forall i | 0 <= i < |m.history| :: GameProfile(m.history[i])
  }

  /** The state right after `StateManager(game_state)` is built. */
  function Initial(): (m: Manager)
    ensures Valid(m)
    ensures m.history == []
  {
    Manager(InitialProfile, [])
  }

  /** The last `n` elements of `s` (all of `s` when it is shorter). */
  function LastN<T>(s: seq<T>, n: nat): (r: seq<T>)
    ensures |r| == if |s| < n then |s| else n
  {
    if |s| <= n then s else s[|s| - n..]
  }

  /**
   * `update_state`: validate the update, push a snapshot of the current profile
   * (evicting the oldest one beyond the bound), overwrite the six validated keys.
   * Always reports success.
   */
  function Update(m: Manager, updates: map<string, Value>): (r: (Manager, bool))
    requires |m.history| <= MaxHistory
    ensures r.1
    ensures r.0.history == LastN(m.history + [m.profile], MaxHistory)
    ensures |r.0.history| == if |m.history| < MaxHistory then |m.history| + 1 else MaxHistory
    ensures r.0.history[|r.0.history| - 1] == m.profile
    ensures |m.history| < MaxHistory ==> r.0.history[..|m.history|] == m.history
    ensures |m.history| == MaxHistory ==> r.0.history[..MaxHistory - 1] == m.history[1..]
    ensures forall k | k in Validator.Expected :: k in r.0.profile && r.0.profile[k] == Validator.Validate(updates)[k]
    ensures forall k | k !in Validator.Expected :: (k in r.0.profile <==> k in m.profile)
    ensures forall k | k !in Validator.Expected && k in m.profile :: r.0.profile[k] == m.profile[k]
  {
    var validated := Validator.Validate(updates);
    var pushed := m.history + [m.profile];
    var history := if |pushed| > MaxHistory then pushed[1..] else pushed;
    (Manager(m.profile + validated, history), true)
  }

  /** `revert_state`: pop the newest snapshot back into the profile; report failure on an empty history. */
  function Revert(m: Manager): (r: (Manager, bool))
    ensures r.1 <==> |m.history| > 0
    ensures !r.1 ==> r.0 == m
    ensures r.1 ==> r.0.profile == m.history[|m.history| - 1] && r.0.history == m.history[..|m.history| - 1]
  {
    if |m.history| > 0 then
      (Manager(m.history[|m.history| - 1], m.history[..|m.history| - 1]), true)
    else
      (m, false)
  }

  /** An update keeps the manager valid: the validated keys have the right types and the history stays bounded. */
  lemma UpdatePreservesValid(m: Manager, updates: map<string, Value>)
    requires Valid(m)
    ensures Valid(Update(m, updates).0)
  {
  }

  /** A revert keeps the manager valid. */
  lemma RevertPreservesValid(m: Manager)
    requires Valid(m)
    ensures Valid(Revert(m).0)
  {
  }

  /** Reverting right after an update restores the pre-update profile, even when the update evicted a snapshot. */
  lemma RevertUndoesUpdate(m: Manager, updates: map<string, Value>)
    requires |m.history| <= MaxHistory
    ensures Revert(Update(m, updates).0) ==
      (Manager(m.profile, if |m.history| < MaxHistory then m.history else m.history[1..]), true)
  {
  }

  /** The game's initial profile has the shape the game relies on. */
  lemma InitialIsValid()
    ensures Valid(Initial())
  {
  }

  /** Apply a sequence of updates in order. */
  function UpdateAll(m: Manager, us: seq<map<string, Value>>): (r: Manager)
    requires |m.history| <= MaxHistory
    ensures |r.history| <= MaxHistory
    decreases |us|
  {
    if |us| == 0 then m else UpdateAll(Update(m, us[0]).0, us[1..])
  }

  /** The profiles that the updates snapshot, one per update, in order. */
  function Snapshots(m: Manager, us: seq<map<string, Value>>): (r: seq<Profile>)
    requires |m.history| <= MaxHistory
    ensures |r| == |us|
    decreases |us|
  {
    if |us| == 0 then [] else [m.profile] + Snapshots(Update(m, us[0]).0, us[1..])
  }

  /** The history after pushing each of `snaps` in turn, keeping the newest `MaxHistory`. */
  function PushAll(history: seq<Profile>, snaps: seq<Profile>): seq<Profile>
    decreases |snaps|
  {
    if |snaps| == 0 then history else PushAll(LastN(history + [snaps[0]], MaxHistory), snaps[1..])
  }

  /** The history after a sequence of updates is the history after pushing their snapshots. */
  lemma {:induction false} UpdateAllPushes(m: Manager, us: seq<map<string, Value>>)
    requires |m.history| <= MaxHistory
    ensures UpdateAll(m, us).history == PushAll(m.history, Snapshots(m, us))
    decreases |us|
  {
    if |us| > 0 {
      var m1 := Update(m, us[0]).0;
      UpdateAllPushes(m1, us[1..]);
      assert Snapshots(m, us)[1..] == Snapshots(m1, us[1..]);
    }
  }

  /** Pushing snapshots one at a time keeps the newest `MaxHistory` of all of them. */
  lemma {:induction false} PushAllKeepsNewest(history: seq<Profile>, snaps: seq<Profile>)
    requires |history| <= MaxHistory
    ensures PushAll(history, snaps) == LastN(history + snaps, MaxHistory)
    decreases |snaps|
  {
    if |snaps| > 0 {
      var pushed := LastN(history + [snaps[0]], MaxHistory);
      PushAllKeepsNewest(pushed, snaps[1..]);
      LastNConcat(history + [snaps[0]], snaps[1..], MaxHistory);
      assert history + snaps == (history + [snaps[0]]) + snaps[1..];
    }
  }

  /**
   * After any number of updates the history holds the newest `MaxHistory` of all
   * snapshots ever taken, oldest first: eviction is first-in first-out.
   */
  lemma HistoryKeepsNewest(m: Manager, us: seq<map<string, Value>>)
    requires |m.history| <= MaxHistory
    ensures UpdateAll(m, us).history == LastN(m.history + Snapshots(m, us), MaxHistory)
  {
    UpdateAllPushes(m, us);
    PushAllKeepsNewest(m.history, Snapshots(m, us));
  }

  /** Truncating before appending more does not change the last `n`. */
  lemma {:induction false} LastNConcat<T>(s: seq<T>, t: seq<T>, n: nat)
    ensures LastN(LastN(s, n) + t, n) == LastN(s + t, n)
  {
  }

  /** Eleven updates from an empty history keep ten snapshots: the first snapshot has been evicted. */
  lemma ElevenUpdatesEvictFirst(m: Manager, us: seq<map<string, Value>>)
    requires m.history == [] && |us| == 11
    ensures |UpdateAll(m, us).history| == MaxHistory
    ensures UpdateAll(m, us).history == Snapshots(m, us)[1..]
  {
    HistoryKeepsNewest(m, us);
  }
}
