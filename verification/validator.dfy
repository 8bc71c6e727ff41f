/**
 * The defensive normalisation pass applied to every proposed profile update
 * (`SafeDataStructures` in INTERFACCLAUDEGAMELOOP.py).
 */
module Validator {
  import opened Wrappers
  import opened Values

  /** The Python type a recognised profile key must have. */
  datatype Kind = StrKind | NumberKind | ListKind | DictKind

  /** The six recognised profile keys and their expected types. */
  const Expected: map<string, Kind> := map[
    "name" := StrKind,
    "money" := NumberKind,
    "crew" := ListKind,
    "gear" := ListKind,
    "skills" := DictKind,
    "emotional_state" := DictKind
  ]

  /** `isinstance(v, t)` for the expected type `t`. */
  predicate Conforms(k: Kind, v: Value) {
    match k
    case StrKind => v.Str?
    case NumberKind => IsNumber(v)
    case ListKind => v.List?
    case DictKind => v.Dict?
  }

  /** The zero value of a kind: `""`, `0`, `[]` or `{}`. */
  function ZeroValue(k: Kind): (v: Value)
    ensures Conforms(k, v)
  {
    match k
    case StrKind => Str("")
    case NumberKind => Int(0)
    case ListKind => List([])
    case DictKind => Dict(map[])
  }

  /** A map that has exactly the recognised keys, each holding a value of its expected type. */
  predicate WellTyped(m: map<string, Value>) {
    && m.Keys == Expected.Keys
    && forall k | k in m :: Conforms(Expected[k], m[k])
  }

  /** Whether the proposal supplies key `k` with a value of the expected type. */
  predicate Supplied(proposal: map<string, Value>, k: string)
    requires k in Expected
  {
    k in proposal && Conforms(Expected[k], proposal[k])
  }

  /**
   * `validate_user_profile` with the evident intent: keep a supplied value of the
   * expected type, otherwise substitute the zero value; drop every other key.
   */
  function Validate(proposal: map<string, Value>): (r: map<string, Value>)
    ensures WellTyped(r)
    ensures forall k | k in Expected :: (k in proposal && r[k] == proposal[k]) <==> Supplied(proposal, k)
    ensures forall k | k in Expected && !Supplied(proposal, k) :: r[k] == ZeroValue(Expected[k])
  {
    map k | k in Expected :: if Supplied(proposal, k) then proposal[k] else ZeroValue(Expected[k])
  }

  /** Validation is a normalisation: a validated map is its own validation. */
  lemma ValidateIdempotent(proposal: map<string, Value>)
    ensures Validate(Validate(proposal)) == Validate(proposal)
  {
  }

  /** An update that already has exactly the six well-typed keys passes through unchanged. */
  lemma ValidateFixesWellTyped(m: map<string, Value>)
    requires WellTyped(m)
    ensures Validate(m) == m
  {
  }

  /**
   * Calling the per-key type object as the source does: `str()`, `list()` and
   * `dict()` build zero values, but the money entry is the tuple `(int, float)`,
   * and calling a tuple raises TypeError.
   */
  function CallTypeAsWritten(k: Kind): (r: Result<Value>)
    ensures r.Failure? <==> k == NumberKind
    ensures r.Success? ==> r.value == ZeroValue(k)
  {
    if k == NumberKind then Failure(TypeError) else Success(ZeroValue(k))
  }

  /** Of the six declared types, only money's cannot be called to build a default. */
  lemma CallTypeFailsOnlyForMoney()
    ensures forall k | k in Expected :: CallTypeAsWritten(Expected[k]).Failure? <==> k == "money"
  {
  }

  /** `validate_user_profile` as written: the comprehension raises as soon as a default has to be built by calling the money tuple. */
  function ValidateAsWritten(proposal: map<string, Value>): (r: Result<map<string, Value>>)
    ensures r.Failure? <==> !Supplied(proposal, "money")
    ensures r.Failure? ==> r.error == TypeError
    ensures r.Success? ==> r.value == Validate(proposal)
  {
    if exists k | k in Expected :: !Supplied(proposal, k) && CallTypeAsWritten(Expected[k]).Failure? then
      Failure(TypeError)
    else
      Success(map k | k in Expected :: if Supplied(proposal, k) then proposal[k] else CallTypeAsWritten(Expected[k]).value)
  }

  /** The update built by `advance_story` carries no money, so as written it always raises. */
  lemma AdvanceStoryUpdateRaises(progress: Value, summary: string)
    ensures ValidateAsWritten(map["mysteryProgress" := progress, "adventure_summary" := Str(summary)]) == Failure(TypeError)
  {
  }

  /** The default location that `validate_location` falls back to. */
  const LocationDefaults: map<string, Value> := map[
    "country" := Str("Unknown"),
    "town" := Str("Starting Town"),
    "latitude" := Float(0.0),
    "longitude" := Float(0.0)
  ]

  /**
   * `validate_location`: a non-dictionary becomes the default location; a dictionary
   * keeps the four location keys it has (whatever their type) and defaults the rest.
   */
  function ValidateLocation(location: Value): (r: map<string, Value>)
    ensures r.Keys == LocationDefaults.Keys
    ensures !location.Dict? ==> r == LocationDefaults
    ensures location.Dict? ==> forall k | k in r ::
      r[k] == (if k in location.fields then location.fields[k] else LocationDefaults[k])
  {
    if !location.Dict? then LocationDefaults
    else map k | k in LocationDefaults :: if k in location.fields then location.fields[k] else LocationDefaults[k]
  }

  /** Validating a validated location changes nothing. */
  lemma ValidateLocationIdempotent(location: Value)
    ensures ValidateLocation(Dict(ValidateLocation(location))) == ValidateLocation(location)
  {
  }
}
