/** The emotional states kept by `Core.EmotionalStateTracker` (Core.py). */
module Emotions {

  type States = map<string, int>

  /** The emotions the tracker knows. */
  const Known: set<string> := {"happiness", "sadness", "anger", "fear", "love"}

  /** The happiness above which the player counts as happy. */
  const HappyThreshold: int := 5

  /** The tracker's invariant: exactly the known emotions, none negative. */
  predicate Valid(s: States) {
    s.Keys == Known && forall e | e in s :: s[e] >= 0
  }

  /** A fresh tracker: every emotion at zero. */
  function Initial(): (s: States)
    ensures Valid(s)
    ensures forall e | e in s :: s[e] == 0
  {
    map e | e in Known :: 0
  }

  /** `update_emotion`: a known emotion moves by `value` but not below zero; an unknown one changes nothing. */
  function UpdateEmotion(s: States, emotion: string, value: int): (r: States)
    ensures emotion !in s ==> r == s
    ensures r.Keys == s.Keys
    ensures emotion in s ==> r[emotion] >= 0
    ensures emotion in s && s[emotion] + value >= 0 ==> r[emotion] == s[emotion] + value
    ensures emotion in s && s[emotion] + value < 0 ==> r[emotion] == 0
    ensures forall e | e in s && e != emotion :: r[e] == s[e]
  {
    if emotion in s then
      s[emotion := if s[emotion] + value > 0 then s[emotion] + value else 0]
    else s
  }

  /** Updates keep the tracker's invariant. */
  lemma UpdatePreservesValid(s: States, emotion: string, value: int)
    requires Valid(s)
    ensures Valid(UpdateEmotion(s, emotion, value))
  {
  }

  /** `is_player_happy`: happiness above 5. */
  predicate IsPlayerHappy(s: States)
    requires "happiness" in s
  {
    s["happiness"] > HappyThreshold
  }

  /**
   * After any update of happiness from a valid tracker, the player is happy
   * exactly when the old happiness plus the change exceeds the threshold: the
   * clamp at zero never decides the answer.
   */
  lemma HappyAfterUpdate(s: States, value: int)
    requires Valid(s)
    ensures "happiness" in UpdateEmotion(s, "happiness", value)
    ensures IsPlayerHappy(UpdateEmotion(s, "happiness", value)) <==> s["happiness"] + value > HappyThreshold
  {
  }

  /** Updating any other emotion leaves the answer unchanged. */
  lemma HappinessOnlyFromHappiness(s: States, emotion: string, value: int)
    requires Valid(s)
    requires emotion != "happiness"
    ensures "happiness" in UpdateEmotion(s, emotion, value)
    ensures IsPlayerHappy(UpdateEmotion(s, emotion, value)) == IsPlayerHappy(s)
  {
  }
}
