/**
 * `ContentViewModel` (WatchKitApp/ContentViewModel.swift): the watch screen's
 * state. `watchStoreLocal` starts as `[]`, whatever is persisted under
 * "sharedFlags"; each sink emission or refresh persists it, after which the two
 * agree (`Synced`). `phoneCxnLocal` is the phone link's last pushed array.
 */
module ContentView {
  import opened BooleanUnion
  import opened SharedStore

  class ContentViewModel {
    var watchStoreLocal: seq<bool>
    var phoneCxnLocal: seq<bool>
    /** `Store.shared`. */
    const store: Store

    constructor (store: Store)
      ensures this.store == store
      ensures watchStoreLocal == [] && phoneCxnLocal == []
    {
      this.store := store;
      watchStoreLocal := [];
      phoneCxnLocal := [];
    }

    /** The persisted snapshot and `watchStoreLocal` agree. */
    ghost predicate Synced()
      reads this, store
    {
      Lookup(store.defaults, SharedFlagsKey) == watchStoreLocal
    }

    /**
     * The `phoneCxn.$local` sink: records the pushed array, ORs it into
     * `watchStoreLocal` (so no day marked there is lost) and persists the
     * result. The persisted snapshot itself is not read (see `SinkCanForget`).
     */
    method OnPhoneLocal(newLocal: seq<bool>)
      modifies this`phoneCxnLocal, this`watchStoreLocal, store`defaults
      ensures phoneCxnLocal == newLocal
      ensures watchStoreLocal == Union(newLocal, old(watchStoreLocal))
      ensures Covers(watchStoreLocal, old(watchStoreLocal)) && Covers(watchStoreLocal, newLocal)
      ensures store.defaults == old(store.defaults)[SharedFlagsKey := watchStoreLocal]
      ensures Synced()
    {
      phoneCxnLocal := newLocal;
      var mergedFlags := OrBooleanArrays(newLocal, watchStoreLocal);
      UnionCoversBoth(newLocal, watchStoreLocal);
      store.Persist(mergedFlags, SharedFlagsKey);
      watchStoreLocal := mergedFlags;
    }

    /**
     * `refresh(health:)`, with `caloriesByMonth` the value `health.caloriesByMonth`
     * holds when `refresh` runs (the fetch it starts completes later, in its
     * query's result handler): `watchStoreLocal` becomes
     * `or(phoneCxnLocal, caloriesByMonth)`, whatever it held before, and is
     * persisted; `phoneCxnLocal` is kept.
     */
    method Refresh(caloriesByMonth: seq<bool>)
      modifies this`watchStoreLocal, store`defaults
      ensures watchStoreLocal == Union(phoneCxnLocal, caloriesByMonth)
      ensures phoneCxnLocal == old(phoneCxnLocal)
      ensures store.defaults == old(store.defaults)[SharedFlagsKey := watchStoreLocal]
      ensures Synced()
    {
      var mergedFlags := OrBooleanArrays(phoneCxnLocal, caloriesByMonth);
      store.Persist(mergedFlags, SharedFlagsKey);
      watchStoreLocal := mergedFlags;
    }

    /** This class's own `orBooleanArrays`, which appends the OR of each position. */
    method OrBooleanArrays(first: seq<bool>, second: seq<bool>) returns (resultArray: seq<bool>)
      ensures resultArray == Union(first, second)
    {
      var maxLength := Max(|first|, |second|);
      resultArray := [];
      for i := 0 to maxLength
        invariant |resultArray| == i
        invariant forall j :: 0 <= j < i ==> resultArray[j] == (At(first, j) || At(second, j))
      {
        var value1 := if i < |first| then first[i] else false;
        var value2 := if i < |second| then second[i] else false;
        resultArray := resultArray + [value1 || value2];
      }
      UnionUnique(first, second, resultArray);
    }
  }

  /**
   * The sink runs first when it subscribes (`@Published` delivers its current
   * value at once), while `watchStoreLocal` is still the constructor's `[]`. So
   * it persists the pushed array as it is, and a day the earlier snapshot
   * marked but the push does not is cleared.
   */
  lemma SinkCanForget(newLocal: seq<bool>, snapshot: seq<bool>, day: int)
    requires 0 <= day < |snapshot| && snapshot[day] && !At(newLocal, day)
    ensures Union(newLocal, []) == newLocal
    ensures !Covers(Union(newLocal, []), snapshot)
  {
    UnionEmpty(newLocal);
  }
}
