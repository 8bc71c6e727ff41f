# Text-adventure world state, in Dafny

This project models the world-state core of a Python text adventure, from
`INTERFACCLAUDEGAMELOOP.py` and `Core.py`:

- the player profile guarded by a `StateManager`, which validates every update
  (`SafeDataStructures.validate_user_profile`), keeps a bounded history of ten
  snapshots and can revert to the newest one;
- command-line input checks (`InputValidator`) and the `travel` command;
- the FIFO event queue (`process_events`) with its encounter, quest and story
  handlers;
- the procedural neighborhood generator (`Core.MapGenerator`): ten drawn
  location names, a reference table for real landmarks, a pairwise coin-flip
  linking pass, and radius expansion;
- the small bookkeeping classes of `Core`: NPC trust, player level and
  skills, the quest log of `GameManager`, the emotional-state tracker, the
  world clock, secrets, and the line parser of `GameHandler`.

Python's dynamic values are the datatype `Values.Value`; dictionaries are
`map`s, lists are `seq`s, and objects are immutable records that each
operation returns updated. Random choices are inputs: a sequence of suffix
indices for the drawn names and a sequence of booleans for the link flips.

Validation rebuilds all six validated profile keys (name, money, crew, gear,
skills, emotional_state) from each update, so a key the update does not supply
is reset to its zero value. The event handlers' updates carry only some of
these keys: an encounter keeps only the new money, a quest completion only the
new money and gear, and the contracts state which keys each handler resets.

Modules and files:

| file | module | models |
|---|---|---|
| wrappers.dfy | Wrappers | `Option`, the raised exceptions, `Result` |
| values.dfy | Values | dynamic values, numeric addition |
| validator.dfy | Validator | `validate_user_profile`, `validate_location` |
| state_manager.dfy | StateManager | `update_state`, `revert_state`, the initial profile |
| input_validator.dfy | InputValidator | `sanitize_input`, `validate_command`, `validate_number`, `handle_user_input` |
| travel.dfy | Travel | `travel_method`, `handle_travel` |
| events.dfy | Events | `process_events` and its handlers |
| map_generator.dfy | MapGenerator | `Core.MapGenerator` |
| characters.dfy | Characters | `NPC`, `Player`, `GameManager` |
| emotions.dfy | Emotions | `EmotionalStateTracker` |
| game_world.dfy | GameWorld | `GameWorld.simulate_time_passage` |
| secrets.dfy | Secrets | `Secret.reveal`, `Secret.is_known_by` |
| game_handler.dfy | GameHandler | `parse_user_input`, `parse_character_input` |

## Model

| member | source | states |
|---|---|---|
| Validator.Validate | INTERFACCLAUDEGAMELOOP.py:126-137 | The result has exactly the six keys name, money, crew, gear, skills and emotional_state, each of the expected type; a key keeps the input's value if and only if the input supplies it with the right type, and otherwise gets the zero value `""`, `0`, `[]` or `{}`; other input keys are dropped |
| Validator.ValidateIdempotent | INTERFACCLAUDEGAMELOOP.py:126-137 | Validating a validated update changes nothing |
| Validator.ValidateFixesWellTyped | INTERFACCLAUDEGAMELOOP.py:126-137 | An update holding exactly the six keys with the right types passes through unchanged |
| Validator.CallTypeFailsOnlyForMoney | INTERFACCLAUDEGAMELOOP.py:128-136 | Building a default by calling the declared type (`CallTypeAsWritten`) fails for exactly one of the six validated keys, money, whose declared type is the tuple `(int, float)`; every other key's type gives its zero value |
| Validator.ValidateAsWritten | INTERFACCLAUDEGAMELOOP.py:126-137 | As written, validation raises TypeError exactly when the update lacks a numeric money, and otherwise agrees with the corrected validation |
| Validator.AdvanceStoryUpdateRaises | INTERFACCLAUDEGAMELOOP.py:674-679 | The update that story advancement builds (progress and summary only) makes the as-written validation raise |
| Validator.ValidateLocation | INTERFACCLAUDEGAMELOOP.py:114-123 | The result has exactly country, town, latitude and longitude; a non-dictionary yields the default location; a dictionary keeps each of these keys it has, whatever its type, and defaults the others |
| Validator.ValidateLocationIdempotent | INTERFACCLAUDEGAMELOOP.py:114-123 | Validating a validated location changes nothing |
| StateManager.Update | INTERFACCLAUDEGAMELOOP.py:95-103 | Over the corrected validation: always reports success; the history becomes the last ten of old history plus the pre-update profile, so its length is min(old + 1, 10), the oldest snapshot is evicted on overflow and the newest is last; the six validated keys are overwritten with the validated values; every other key keeps its presence and value |
| StateManager.Revert | INTERFACCLAUDEGAMELOOP.py:105-109 | Succeeds exactly when the history is non-empty; then the profile becomes the newest snapshot and that snapshot leaves the history; otherwise nothing changes |
| StateManager.UpdatePreservesValid | INTERFACCLAUDEGAMELOOP.py:95-103 | An update keeps the profile's money, time and progress numeric, gear a list, the summary a string, and the history bounded by ten |
| StateManager.RevertPreservesValid | INTERFACCLAUDEGAMELOOP.py:105-109 | A revert keeps the manager's invariant |
| StateManager.RevertUndoesUpdate | INTERFACCLAUDEGAMELOOP.py:95-109 | Reverting right after an update restores exactly the pre-update profile, even when the update evicted a snapshot; the history loses only the evicted snapshot |
| StateManager.InitialIsValid | INTERFACCLAUDEGAMELOOP.py:19-45 | The game's initial profile satisfies the manager's invariant |
| StateManager.HistoryKeepsNewest | INTERFACCLAUDEGAMELOOP.py:97-100 | After any sequence of updates the history is the newest ten of all snapshots ever taken, oldest first |
| StateManager.PushAllKeepsNewest | INTERFACCLAUDEGAMELOOP.py:97-100 | Pushing snapshots one at a time onto a bounded history, dropping the oldest past ten, leaves the newest ten of the old history followed by the snapshots |
| StateManager.ElevenUpdatesEvictFirst | INTERFACCLAUDEGAMELOOP.py:97-100 | Eleven updates from an empty history leave ten snapshots, without the first one |
| InputValidator.Sanitize | INTERFACCLAUDEGAMELOOP.py:149-150 | The result has no leading or trailing whitespace and no whitespace runs, and has the same words as the input after stripping |
| InputValidator.SanitizeIdempotent | INTERFACCLAUDEGAMELOOP.py:149-150 | Sanitizing twice is sanitizing once |
| InputValidator.ValidateCommand | INTERFACCLAUDEGAMELOOP.py:141-146 | Raises IndexError exactly when there is no word; otherwise accepts exactly when the lowered first word is one of the ten commands |
| InputValidator.ValidateNumber | INTERFACCLAUDEGAMELOOP.py:153-158 | A parsable string gives (lo <= n <= hi, n); an unparsable one gives (false, 0) |
| InputValidator.ParseShowInt | INTERFACCLAUDEGAMELOOP.py:155 | `ParseInt`, the model of `int()` on a decimal literal, gives back any integer from its decimal spelling |
| InputValidator.ValidateShownNumber | INTERFACCLAUDEGAMELOOP.py:153-158 | A number written in decimal is accepted exactly when it lies in the range, and is returned |
| InputValidator.HandleUserInput | INTERFACCLAUDEGAMELOOP.py:862-876 | Input without words is reported empty; the input is accepted as a command exactly when the lowered first word of the sanitized text is one of the ten commands, and rejected exactly when it is not; an accepted command is that lowered word with the remaining words as arguments; a rejected one reports the sanitized text |
| Travel.TravelBy | INTERFACCLAUDEGAMELOOP.py:315-332 | An unknown choice, or money below the cost, leaves the profile unchanged; otherwise money drops by exactly the method's cost (30, 50, 20) and time rises by its hours (3, 5, 4), and nothing else changes |
| Travel.TravelKeepsMoneyNonNegative | INTERFACCLAUDEGAMELOOP.py:327-329 | Travel never drives non-negative money below zero |
| Travel.HandleTravel | INTERFACCLAUDEGAMELOOP.py:900-908 | No argument, or a first argument that is not a number from 1 to 3, changes nothing; otherwise the travel is attempted with that number |
| Events.UpdateGameProgress | INTERFACCLAUDEGAMELOOP.py:910-918 | Returns the update built from the new time, money and progress, each old value plus the result's change (default 0); through validation, money takes its new value, time and progress keep their old values, and name, crew, gear, skills and emotional_state are reset to their zero values; one snapshot of the old profile is pushed onto the ten-deep history, and every key outside the six validated ones (adventure_summary and the rest) keeps its presence and value |
| Events.ProgressUpdates | INTERFACCLAUDEGAMELOOP.py:911-915 | The update holds exactly time, money and mysteryProgress, each a number equal to the old value plus the result's change, defaulting to 0 |
| Events.HandleEncounter | INTERFACCLAUDEGAMELOOP.py:662-668 | Without an encounter system nothing changes; otherwise money changes by the encounter's money change, gear becomes empty, name, crew, skills and emotional_state are reset; one snapshot of the old profile is pushed onto the ten-deep history, and every key outside the six validated ones (adventure_summary and the rest) keeps its presence and value, so time and progress keep their old values; the quests and the encounter system are unchanged |
| Events.AdvanceStory | INTERFACCLAUDEGAMELOOP.py:670-680 | Over the corrected validation: returns min(100, progress + amount), amount defaulting to 5; all six validated keys, money and gear included, are reset to their zero values; one snapshot of the old profile is pushed onto the ten-deep history, and every key outside the six validated ones (adventure_summary and the rest) keeps its presence and value, so time, progress and summary keep their old values |
| Events.StoryUpdates | INTERFACCLAUDEGAMELOOP.py:671-677 | The update holds exactly the capped progress min(100, progress + amount) and the old summary followed by a space and the event's summary, and no money |
| Events.CompleteQuest | INTERFACCLAUDEGAMELOOP.py:691-701 | The quest leaves the active set, money rises by the reward money (default 0), reward items are appended to the gear, name, crew, skills and emotional_state are reset; one snapshot of the old profile is pushed onto the ten-deep history, and every key outside the six validated ones (adventure_summary and the rest) keeps its presence and value |
| Events.RewardUpdates | INTERFACCLAUDEGAMELOOP.py:693-699 | The update holds exactly money, the old money plus the reward money, and gear, the old gear followed by the reward items |
| Events.HandleQuestUpdate | INTERFACCLAUDEGAMELOOP.py:682-689 | An event without a known quest id changes nothing; otherwise progress grows by the amount (default 1); below the required progress only the quest changes, and once it is reached the quest completes, pays its money and items, and the other validated keys are reset; one snapshot of the old profile is pushed onto the ten-deep history, and every key outside the six validated ones (adventure_summary and the rest) keeps its presence and value; the encounter system is unchanged |
| Events.Dispatch | INTERFACCLAUDEGAMELOOP.py:923-928 | An encounter goes to the encounter handler, a quest event to the quest handler, a story event to story advancement, and an event of unknown type changes nothing |
| Events.ProcessEvents | INTERFACCLAUDEGAMELOOP.py:920-928 | The queue ends empty and the world is the result of handling its events front to back |
| Events.DrainConcat | INTERFACCLAUDEGAMELOOP.py:921-922 | Draining two queues in turn equals draining their concatenation: events are handled in FIFO order |
| Events.UnknownEventsIgnored | INTERFACCLAUDEGAMELOOP.py:923-928 | An event whose type is none of encounter, quest and story at the front of the queue has no effect |
| Events.RewardPaidOnce | INTERFACCLAUDEGAMELOOP.py:682-701 | Two completing events for the same quest pay its money once, since the first removes the quest |
| Events.QuestScenario | INTERFACCLAUDEGAMELOOP.py:682-701 | A quest at progress 2 of 3 with reward 50 is removed by one progress event and adds 50 money |
| Events.DispatchAsWritten | INTERFACCLAUDEGAMELOOP.py:662-701 | With validation as written, handling an event raises TypeError exactly when it is a story event; every other event is handled as with the corrected validation |
| Events.DrainAsWritten | INTERFACCLAUDEGAMELOOP.py:920-928 | `process_events` as written: draining without an exception leaves nothing queued; an escaping exception is TypeError, raised by a story event, and the events left queued are exactly those after it |
| Events.AsWrittenOutcomes | INTERFACCLAUDEGAMELOOP.py:674-699 | The encounter and reward updates pass the as-written validation, since they carry a numeric money; the story update makes it raise TypeError |
| Events.DrainAsWrittenWithoutStory | INTERFACCLAUDEGAMELOOP.py:920-928 | A queue without story events drains, as written, to the same world as with the corrected validation, leaving nothing queued and raising nothing |
| Events.DrainAsWrittenStopsAtStory | INTERFACCLAUDEGAMELOOP.py:920-928 | As written, draining stops at the first story event with TypeError: the events before it are handled, it is lost, and the events after it stay queued |
| MapGenerator.GeneratedNodeText | Core.py:119-123 | The node `NewNode` stores for a generated name: Central Park takes the reference text as both its name and its description; every other generated location keeps its own name and gets the "A newly generated location called ..." description; no links yet |
| MapGenerator.Dedup | Core.py:116-125 | The dictionary's keys: every drawn name, each exactly once, and nothing else |
| MapGenerator.DedupOrder | Core.py:116-125 | The keys are in order of first drawing: of any two keys, the earlier one was drawn before the later one was first drawn |
| MapGenerator.ReferenceOnlyForCentralPark | Core.py:137-149 | A generated name is in the reference table exactly when the town is "Central" and the suffix is "Park" |
| MapGenerator.KeysBound | Core.py:137-141 | At most seven distinct names can be drawn, so linking consumes at most 21 flips |
| MapGenerator.GeneratedKeys | Core.py:116-125 | A neighborhood has between one and seven keys, every drawn name is a key, and every key is a drawn name |
| MapGenerator.LinkNeighborhood | Core.py:151-158 | For every pair of positions, one flip decides a link recorded in both lists; each list holds its linked keys in position order |
| MapGenerator.LinkRow | Core.py:154-158 | One pass of the outer loop consumes one flip per later position and leaves position i's list complete, and each later list extended by i when their flip came up |
| MapGenerator.LinkStep | Core.py:155-158 | Deciding one pair (i, j) by its flip appends j to i's list and i to j's list together, or neither, keeping every list equal to its linked keys so far |
| MapGenerator.NeighboursMember | Core.py:151-158 | A key is in another's list exactly when the flip for their pair came up; never in its own |
| MapGenerator.LinkProperties | Core.py:151-158 | The links are symmetric and irreflexive, no list repeats a neighbour, every neighbour is a key, and the pair a < b is linked exactly when its flip came up |
| MapGenerator.GenerateNeighborhood | Core.py:116-128 | The neighborhood has one to seven distinct keys, exactly the drawn names; nodes carry reference or fallback text; links are symmetric, irreflexive, duplicate-free, within the keys and follow the flips |
| MapGenerator.GeneratedProperties | Core.py:116-158 | Any neighborhood generated from the draws has one to seven distinct keys that are exactly the drawn names, nodes with reference or fallback text, and symmetric, irreflexive, duplicate-free links that follow the flips |
| MapGenerator.ExpandNeighborhood | Core.py:183-188 | The radius grows by exactly the increment, 500 when none is given, and the neighborhood is regenerated from the new draws alone, replacing the old one |
| MapGenerator.ExpandRadiusAsWritten | Core.py:183-184 | Expanding with the radius read from the game's profile raises KeyError when the profile has no radius, and otherwise adds the increment |
| MapGenerator.ExpandRaisesOnGameProfile | Core.py:183-184 | The game's initial profile has no radius, so expansion as written raises |
| MapGenerator.UpdatesNeverAddRadius | Core.py:183-184 | No sequence of state-manager updates adds a radius to a profile without one, so expansion as written raises KeyError on every profile the game reaches from its initial one |
| Characters.Befriend | Core.py:40 | Trust becomes min(10, trust + 1), trust counting as 0 when absent: it never exceeds 10 and rises by one below 10; other feelings are unchanged |
| Characters.BuildRelationship | Core.py:33-48 | The registered NPC of that name, or else the NPC itself, gains trust capped at 10; other NPCs are unchanged; player happiness rises by exactly 1; a missing happiness raises KeyError |
| Characters.BefriendSaturates | Core.py:40 | After n >= 1 relationship steps trust is min(10, trust + n) |
| Characters.GainExperience | Core.py:63-69 | The level rises by the amount; combat rises by 1 exactly when the new level exceeds 5, raising KeyError when the combat skill is missing; nothing else changes |
| Characters.GainAllCombat | Core.py:63-69 | With a combat skill, successive gains never raise: the level rises by their sum and combat by one for every gain that ends above level 5 |
| Characters.GainAllWithoutCombat | Core.py:63-69 | Without a combat skill, successive gains raise KeyError exactly when some gain ends above level 5 |
| Characters.PlayerCompleteQuest | Core.py:71-79 | The player gains 10 levels whether or not the quest is active, with every other player field kept; since the new level decides it, combat rises by one exactly when the new level exceeds 5 (raising KeyError without a combat skill) and the other skills are kept; the quest leaves the log and the NPCs are unchanged |
| Characters.CreateNpc | Core.py:284-291 | The NPC is registered under its name, with language proficiency 3 when none is given and trust 0 when no emotional state is given, replacing any NPC of that name; other NPCs are unchanged |
| Characters.CreateThenBefriend | Core.py:284-291 | Befriending a freshly created NPC raises its trust to min(10, initial trust + 1): exactly 1 when it was created without an emotional state |
| Characters.StartQuest | Core.py:294-296 | The quest's details are recorded, replacing earlier ones; other quests are unchanged |
| Characters.UpdateQuest | Core.py:299-304 | An unknown quest changes nothing; an active quest's details gain the updates' keys and values, keeping the other details |
| Characters.UpdateQuestIdempotent | Core.py:299-304 | Applying the same update twice equals applying it once |
| Characters.CompleteQuest | Core.py:307-315 | An unknown quest changes nothing; an active quest leaves the log, the other quests keep their details, the player gains 10 levels with every other field kept, combat rises by one exactly when the new level exceeds 5 (KeyError without a combat skill) and the other skills are kept |
| Characters.CompletionsAgree | Core.py:71-79 | For an active quest the manager's and the player's completion agree; for an unknown one only the player's still gains 10 levels |
| Characters.StartThenComplete | Core.py:294-315 | Starting and then completing a quest leaves the log without it and the level 10 higher |
| Emotions.Initial | Core.py:680-682 | The tracker starts with the five emotions at zero |
| Emotions.UpdateEmotion | Core.py:684-686 | A known emotion becomes max(0, old + value); an unknown emotion changes nothing; other emotions and the key set are unchanged |
| Emotions.UpdatePreservesValid | Core.py:684-686 | Updates keep exactly the five emotions, none negative |
| Emotions.HappyAfterUpdate | Core.py:684-692 | After changing happiness by any value from a valid tracker, `IsPlayerHappy` (happiness above 5) holds exactly when old happiness plus the value exceeds 5 |
| Emotions.HappinessOnlyFromHappiness | Core.py:684-692 | Changing any other emotion never changes whether the player is happy |
| GameWorld.SimulateTimePassage | Core.py:671-672 | The clock stays within 0..23, advances by one hour and wraps from 23 to 0 |
| GameWorld.PassagesModulo | Core.py:671-672 | After n >= 1 passages the clock reads (t + n) mod 24 |
| GameWorld.FullDay | Core.py:671-672 | Twenty-four passages bring an in-range clock back to where it started |
| Secrets.Reveal | Core.py:526-533 | Afterwards `IsKnownBy` (membership in the revealed list) holds for the user; exactly the old users and this one know the secret, the old list is kept as a prefix, and a duplicate-free list stays duplicate-free |
| Secrets.RevealIdempotent | Core.py:526-533 | Revealing twice to the same user equals revealing once |
| Secrets.RevealAllProperties | Core.py:526-533 | Any sequence of reveals keeps the list duplicate-free and adds exactly the revealed users |
| GameHandler.JoinSplit | Core.py:367 | Joining the lines split at newlines gives back the input |
| GameHandler.SplitJoin | Core.py:367 | Splitting newline-free lines joined with newlines gives back the lines |
| GameHandler.Strip | Core.py:368 | The result is the part of the line after its leading run of strip characters, everything after the result is strip characters, and the result neither starts nor ends with one |
| GameHandler.StripIdempotent | Core.py:368 | Stripping twice equals stripping once |
| GameHandler.ParseUserInput | Core.py:364-369 | One action per newline-separated line, in order, typed by the line's wrapping (`UserLineType`: `*...*` is narration, otherwise `"..."` is interaction, anything else an instruction), with `*`, space and `"` stripped from both ends |
| GameHandler.ParseCharacterInput | Core.py:371-375 | One action per line, in order, narration for a `*...*` line and otherwise an instruction (`CharacterLineType`), never an interaction, with `*` and space stripped from both ends |
| GameHandler.ModesAgree | Core.py:364-375 | Both modes yield the same number of actions and agree on narration; a user-mode interaction is a character-mode instruction; user-mode content never starts or ends with a stripped character |
| GameHandler.ParseJoinedLines | Core.py:364-369 | Parsing newline-free lines joined by newlines yields exactly one action per line, built from that line |

## Left out

- Console output, `input()`, file and JSON saving and loading, the text-generation network client, and the menu and game loop: I/O outside the modelled logic.
- Random number generation: the drawn suffixes and link flips are parameters. `generate_coordinates` (floating-point offsets) is not modelled, so nodes carry no coordinates.
- Floating-point rounding: floats are exact reals. `time_flow`, `calculate_time_passage` and the fractional time units are not modelled; `time_cost` is an integer.
- `process_encounter`, which `Core.py` does not define: its result is an input record of optional time, money and progress changes.
- Aliasing: the shallow `.copy()` snapshots, the shared emotional-state dictionary of an NPC and its registry entry, and classes that keep their fields on the shared game state are modelled as immutable values.
- The operations that mutate state before raising (`build_relationship`, `gain_experience`, `Player.complete_quest`, and `GameManager.complete_quest`, which deletes the quest and raises the level before the combat KeyError; Characters.CompleteQuest) return only the exception: the partial state left behind by a raised exception is not modelled.
- The other `Core` classes (`Narrator`, `EncounterManager`, `RolePlayCharacter`, `Skillset`, `Character`, `User`, `HiddenDetail`, `CommunicationSystem`, `NetworkManager`) and `Interface` commands besides travel: outside the modelled core.
- `update_game_progress` and `process_events` are defined twice in `Interface` with identical bodies; the later definitions (lines 910-928) are the ones Python keeps and the ones cited.
- InputValidator.ParseInt: accepts an optional sign followed by ASCII digits; Python's `int()` also accepts surrounding whitespace, underscores and non-ASCII digits.
- InputValidator.ValidateCommand: lower-casing is ASCII only; Python lowers all of Unicode.
- Events.CompleteQuest: requires the quest to be active; popping an absent quest id would raise KeyError, and the only caller checks presence first.
- Emotions.IsPlayerHappy: requires happiness to be tracked; the tracker starts with it and updates never remove it (Emotions.UpdatePreservesValid), so the KeyError branch is unreachable.
- StateManager.Update, Events.AdvanceStory and Events.ProcessEvents are built on the corrected validation (Validator.Validate). As written, `update_state` validates before taking its snapshot (INTERFACCLAUDEGAMELOOP.py:96), and the story update has no money, so `advance_story` raises TypeError and `process_events`, which has no handler, stops: the popped story event is lost and the rest of the queue stays unhandled. Events.DispatchAsWritten and Events.DrainAsWrittenStopsAtStory state that behaviour.
- MapGenerator.GenerateNeighborhood: `generate_coordinates` reads the location's latitude and longitude (Core.py:127, 133-134); `initialize_map` is called with locations that have neither (INTERFACCLAUDEGAMELOOP.py:726, 737, 748, 812), and there the source raises KeyError before any node is stored. The model omits coordinates and always returns a neighborhood.
- Events.Event: events are typed; `process_events` reads `event['type']` by subscript (INTERFACCLAUDEGAMELOOP.py:923), so an event dictionary without a type raises KeyError, which loses that event and leaves the rest of the queue unhandled. Such events are not modelled.
- Shared game state: `Interface`'s quest events and `GameManager`'s quest log are the same `active_quests` dictionary, and `GameManager`'s skills are the profile's "skills" entry, which every validated update resets to `{}`. The model keeps them as separate views (Events.World.quests beside Characters.Game.activeQuests, and Characters.Game.skills beside the profile), so it does not follow an operation of one class into the state the other reads.
- Quests of the event queue are records of progress, required progress and rewards; a quest dictionary missing one of these fields, which would raise KeyError, is not modelled.
- `generate_neighborhood` draws ten locations (Core.py:118), but it stores them in a dictionary keyed by name, so repeated names collapse into one entry (at most seven keys) and linking runs over the distinct keys (Core.py:153).
- Story progress is only capped at 100 (`min(100, ...)`, INTERFACCLAUDEGAMELOOP.py:672), not clamped below at 0; and since the story update carries only keys the validation drops, neither the new progress nor the extended summary is stored.

## Findings

| source | as written | input that shows it | evidently intended | confidence | as-written member | corrected member |
|---|---|---|---|---|---|---|
| INTERFACCLAUDEGAMELOOP.py:129-136 | The money entry's type is the tuple `(int, float)`, and the default is built by calling it, which raises TypeError | Any update without a numeric money, such as story advancement's `{'mysteryProgress': 5, 'adventure_summary': '...'}` | A missing or mistyped money defaults to 0 like the other keys | high; not executed | Validator.ValidateAsWritten | Validator.Validate |
| Core.py:183-184 | `expand_neighborhood` adds to `user_profile["radius"]` of the game's profile, which never has that key; the default radius of 2000 is never installed because the class defines its own `__init__` | The game's initial profile (INTERFACCLAUDEGAMELOOP.py:19-45) with the default increment 500 | The radius starts at 2000 meters and grows by the increment | medium; not executed | MapGenerator.ExpandRadiusAsWritten | MapGenerator.ExpandNeighborhood |
