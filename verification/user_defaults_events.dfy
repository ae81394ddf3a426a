/**
 * `SharedUserDefaults` (WatchKitWidget/SharedUserDefaults.swift): saves and
 * reads back the goal-day and calorie-day arrays under two fixed keys.
 */
module UserDefaultsEvents {
  import opened SharedStore

  const GoalDaysKey: string := "goalDays"
  const CalorieDaysKey: string := "calorieDays"

  class SharedUserDefaults {
    var defaults: map<string, seq<bool>>

    constructor (persisted: map<string, seq<bool>>)
      ensures defaults == persisted
    {
      defaults := persisted;
    }

    /** `saveEvents(_:calorieDays:)`: writes exactly the two keys and nothing else. */
    method SaveEvents(goalDays: seq<bool>, calorieDays: seq<bool>)
      modifies this`defaults
      ensures defaults.Keys == old(defaults).Keys + {GoalDaysKey, CalorieDaysKey}
      ensures Lookup(defaults, GoalDaysKey) == goalDays
      ensures Lookup(defaults, CalorieDaysKey) == calorieDays
      ensures forall k :: k != GoalDaysKey && k != CalorieDaysKey ==> Lookup(defaults, k) == Lookup(old(defaults), k)
    {
      defaults := defaults[GoalDaysKey := goalDays];
      defaults := defaults[CalorieDaysKey := calorieDays];
    }

    /** `retrieveEvents()`: each array read independently, `[]` when its key is missing. */
    method RetrieveEvents() returns (goalDays: seq<bool>, calorieDays: seq<bool>)
      ensures GoalDaysKey in defaults ==> goalDays == defaults[GoalDaysKey]
      ensures GoalDaysKey !in defaults ==> goalDays == []
      ensures CalorieDaysKey in defaults ==> calorieDays == defaults[CalorieDaysKey]
      ensures CalorieDaysKey !in defaults ==> calorieDays == []
    {
      goalDays := if GoalDaysKey in defaults then defaults[GoalDaysKey] else [];
      calorieDays := if CalorieDaysKey in defaults then defaults[CalorieDaysKey] else [];
    }
  }

  /** A save followed by a retrieve returns the saved pair. */
  method SaveThenRetrieve(store: SharedUserDefaults, goalDays: seq<bool>, calorieDays: seq<bool>)
    returns (g: seq<bool>, c: seq<bool>)
    modifies store
    ensures g == goalDays && c == calorieDays
  {
    store.SaveEvents(goalDays, calorieDays);
    g, c := store.RetrieveEvents();
  }
}
