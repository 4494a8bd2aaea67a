/** Saved player progress: per story, a flat mapping of state keys (choice
    flags, variables) to JSON values, updated by shallow merge. */
module Progress {
  import opened JsonValue

  type State = map<string, Json>

  /** The contents of progress.json: story id to saved state. */
  type Store = map<string, State>

  /** The pointwise meaning of `base.update(update)`: exactly the keys of
      both, the value from `update` where it has one, from `base` otherwise. */
  ghost predicate IsOverlay<K, V>(base: map<K, V>, update: map<K, V>, r: map<K, V>) {
    && r.Keys == base.Keys + update.Keys
    && (forall k :: k in update ==> r[k] == update[k])
    && (forall k :: k in base && k !in update ==> r[k] == base[k])
  }

  /** A single-level overwrite (Python's dict.update); values are replaced
      whole, never merged recursively. */
  function Overlay<K, V>(base: map<K, V>, update: map<K, V>): (r: map<K, V>)
    ensures IsOverlay(base, update, r)
  {
    base + update
  }

  /** The pointwise description leaves no freedom: it determines the map. */
  lemma OverlayUnique<K, V>(base: map<K, V>, update: map<K, V>, r: map<K, V>)
    requires IsOverlay(base, update, r)
    ensures r == Overlay(base, update)
  {
    var o := Overlay(base, update);
    forall k | k in r
      ensures k in o && r[k] == o[k]
    {
      if k in update {
        assert r[k] == update[k] == o[k];
      } else {
        assert r[k] == base[k] == o[k];
      }
    }
  }

  /** Two updates in a row are one update with the later values winning. */
  lemma OverlayTwice<K, V>(base: map<K, V>, u1: map<K, V>, u2: map<K, V>)
    ensures Overlay(Overlay(base, u1), u2) == Overlay(base, Overlay(u1, u2))
  {
    var lhs := Overlay(Overlay(base, u1), u2);
    assert IsOverlay(base, Overlay(u1, u2), lhs);
    OverlayUnique(base, Overlay(u1, u2), lhs);
  }

  /** The state saved for one story; a story never saved has the empty state. */
  function StateOf(store: Store, storyId: string): (r: State)
    ensures storyId in store ==> r == store[storyId]
    ensures storyId !in store ==> r == map[]
  {
    if storyId in store then store[storyId] else map[]
  }

  /** The store after saving `newState` for `storyId`: that story's entry is
      its old entry (or the empty one) overlaid with `newState`, and no other
      story's entry changes. */
  function Saved(store: Store, storyId: string, newState: State): (r: Store)
    ensures r.Keys == store.Keys + {storyId}
    ensures forall s :: s in store && s != storyId ==> r[s] == store[s]
    ensures r[storyId].Keys == StateOf(store, storyId).Keys + newState.Keys
    ensures forall k :: k in newState ==> r[storyId][k] == newState[k]
    ensures forall k :: k in StateOf(store, storyId) && k !in newState
                       ==> r[storyId][k] == StateOf(store, storyId)[k]
    ensures storyId !in store ==> r[storyId] == newState
  {
    store[storyId := Overlay(StateOf(store, storyId), newState)]
  }

  /** Saving twice for one story is saving the merged update once. */
  lemma SavedTwice(store: Store, storyId: string, s1: State, s2: State)
    ensures Saved(Saved(store, storyId, s1), storyId, s2)
            == Saved(store, storyId, Overlay(s1, s2))
  {
    OverlayTwice(StateOf(store, storyId), s1, s2);
  }

  /** Saving the same state again changes nothing. */
  lemma SavedIdempotent(store: Store, storyId: string, newState: State)
    ensures Saved(Saved(store, storyId, newState), storyId, newState)
            == Saved(store, storyId, newState)
  {
    SavedTwice(store, storyId, newState, newState);
    assert Overlay(newState, newState) == newState;
  }

  /** Saves for two different stories do not interfere. */
  lemma SavedCommutes(store: Store, a: string, sa: State, b: string, sb: State)
    requires a != b
    ensures Saved(Saved(store, a, sa), b, sb) == Saved(Saved(store, b, sb), a, sa)
  {
  }
}
