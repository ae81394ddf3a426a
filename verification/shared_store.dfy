/**
 * `Store` (WatchKitWidget/Store.swift): the app-group key-value store shared by
 * the app and its widgets, plus the in-memory published array `local`.
 * The persisted defaults are a map from key to flag array; a key that was
 * never written reads as the empty array.
 */
module SharedStore {

  /** The key under which the merged day flags are persisted. */
  const SharedFlagsKey: string := "sharedFlags"

  /** What a read of `key` returns from `defaults`: the stored array, or `[]` when absent. */
  function Lookup(defaults: map<string, seq<bool>>, key: string): seq<bool>
  {
    if key in defaults then defaults[key] else []
  }

  class Store {
    /** The published in-memory flag array (`@Published var local`). */
    var local: seq<bool>
    /** The durable app-group defaults, restricted to flag arrays. */
    var defaults: map<string, seq<bool>>

    /** A store opened over whatever the defaults already hold from earlier runs. */
    constructor (persisted: map<string, seq<bool>>)
      ensures local == [] && defaults == persisted
    {
      local := [];
      defaults := persisted;
    }

    /** `persist(data:forKey:)`: overwrites the entry for `key` wholesale. */
    method Persist(data: seq<bool>, key: string)
      modifies this`defaults
      ensures defaults == old(defaults)[key := data]
      ensures Lookup(defaults, key) == data
      ensures forall k :: k != key ==> Lookup(defaults, k) == Lookup(old(defaults), k)
      ensures local == old(local)
    {
      defaults := defaults[key := data];
    }

    /** `retrieve(forKey:)`: the stored array, or `[]` for a key never written. */
    method Retrieve(key: string) returns (r: seq<bool>)
      ensures key in defaults ==> r == defaults[key]
      ensures key !in defaults ==> r == []
    {
      if key in defaults {
        r := defaults[key];
      } else {
        r := [];
      }
    }
  }
}
