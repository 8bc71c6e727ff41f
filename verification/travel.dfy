/** Paying for travel (`Interface.travel_method` and `Interface.handle_travel` in INTERFACCLAUDEGAMELOOP.py). */
module Travel {
  import opened Values
  import opened StateManager
  import InputValidator

  /** A way to travel, its price and the hours it takes. */
  datatype TravelMethod = TravelMethod(name: string, cost: int, hours: int)

  /** The menu of travel methods, keyed by the number the player types. */
  const Methods: map<int, TravelMethod> := map[
    1 := TravelMethod("Train", 30, 3),
    2 := TravelMethod("Plane", 50, 5),
    3 := TravelMethod("Boat", 20, 4)
  ]

  /** The three messages `travel_method` can return. */
  datatype TravelOutcome = InvalidMethod | InsufficientFunds | Traveled(mode: TravelMethod)

  /** Whether the profile is the same except for money and time. */
  predicate OnlyMoneyAndTimeChanged(before: Profile, after: Profile) {
    && after.Keys == before.Keys
    && forall k | k in before && k != "money" && k != "time" :: after[k] == before[k]
  }

  /**
   * `travel_method`: an unknown choice or too little money changes nothing;
   * otherwise the method's cost is debited and its hours are added to the clock.
   * The profile is written directly, without a snapshot.
   */
  function TravelBy(profile: Profile, choice: int): (r: (Profile, TravelOutcome))
    requires GameProfile(profile)
    ensures GameProfile(r.0)
    ensures choice !in Methods ==> r == (profile, InvalidMethod)
    ensures choice in Methods && NumVal(profile["money"]) < Methods[choice].cost as real ==>
      r == (profile, InsufficientFunds)
    ensures r.1.Traveled? <==> choice in Methods && NumVal(profile["money"]) >= Methods[choice].cost as real
    ensures r.1.Traveled? ==> (
      && r.1.mode == Methods[choice]
      && NumVal(r.0["money"]) == NumVal(profile["money"]) - Methods[choice].cost as real
      && NumVal(r.0["time"]) == NumVal(profile["time"]) + Methods[choice].hours as real
      && OnlyMoneyAndTimeChanged(profile, r.0))
  {
    if choice !in Methods then (profile, InvalidMethod)
    else
      var m := Methods[choice];
      if NumVal(profile["money"]) >= m.cost as real then
        (profile["money" := AddInt(profile["money"], -m.cost)]["time" := AddInt(profile["time"], m.hours)], Traveled(m))
      else (profile, InsufficientFunds)
  }

  /** Travel never drives non-negative money below zero. */
  lemma TravelKeepsMoneyNonNegative(profile: Profile, choice: int)
    requires GameProfile(profile) && NumVal(profile["money"]) >= 0.0
    ensures NumVal(TravelBy(profile, choice).0["money"]) >= 0.0
  {
  }

  /** What `handle_travel` answers. */
  datatype TravelRequest = MissingMethod | InvalidMethodNumber | Attempted(outcome: TravelOutcome)

  /**
   * `handle_travel`: the first argument must parse to a number from 1 to 3;
   * then the travel is attempted.
   */
  function HandleTravel(profile: Profile, args: seq<string>): (r: (Profile, TravelRequest))
    requires GameProfile(profile)
    ensures GameProfile(r.0)
    ensures r.1 == MissingMethod <==> |args| == 0
    ensures r.1.Attempted? <==> (
      && |args| > 0
      && InputValidator.ParseInt(args[0]).Some?
      && 1 <= InputValidator.ParseInt(args[0]).value <= 3)
    ensures r.1.Attempted? ==> (
      var travel := TravelBy(profile, InputValidator.ParseInt(args[0]).value);
      && r.1.outcome != InvalidMethod
      && r == (travel.0, Attempted(travel.1)))
    ensures !r.1.Attempted? ==> r.0 == profile
  {
    if |args| == 0 then (profile, MissingMethod)
    else
      var (ok, choice) := InputValidator.ValidateNumber(args[0], 1, 3);
      if !ok then (profile, InvalidMethodNumber)
      else
        var t := TravelBy(profile, choice);
        (t.0, Attempted(t.1))
  }
}
