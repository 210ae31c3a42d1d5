/** `BumbleGameState`: a name-keyed record of game values, restored from the
    browser's local storage when the game starts and written back by the
    per-frame update after it changed. */
module Persistence {
  import opened Values

  /** The local-storage key of a game: its name between fixed markers. */
  function GameKey(gameName: string): (key: string)
    ensures |key| == |gameName| + 8
    ensures key[4..|key| - 4] == gameName
  {
    "___{" + gameName + "}___"
  }

  /** Different games use different keys: the markers have fixed length, so
      the key determines the name. */
  lemma GameKeyInjective(a: string, b: string)
    requires GameKey(a) == GameKey(b)
    ensures a == b
  {
    var k := GameKey(a);
    assert a == k[4..|k| - 4];
  }

  /** What a game restores from a storage holding `items`: the saved record
      under its key, or an empty record. */
  function Restored(items: map<string, map<string, Value>>, key: string): (local: map<string, Value>)
    ensures key in items ==> local == items[key]
    ensures key !in items ==> local == map[]
  {
    if key in items then items[key] else map[]
  }

  /** Saving a record and restoring from the same key gives the record back. */
  lemma SaveThenRestore(items: map<string, map<string, Value>>, gameName: string, local: map<string, Value>)
    ensures Restored(items[GameKey(gameName) := local], GameKey(gameName)) == local
  {
  }

  /** Saving one game's record leaves what every other game restores as it
      was. */
  lemma SaveLeavesOtherGames(items: map<string, map<string, Value>>, saved: string, other: string, local: map<string, Value>)
    requires saved != other
    ensures Restored(items[GameKey(saved) := local], GameKey(other)) == Restored(items, GameKey(other))
  {
    if GameKey(saved) == GameKey(other) {
      GameKeyInjective(saved, other);
      assert false;
    }
  }

  /** `window.localStorage`, holding each game's record as the value that
      `JSON.parse` gives back for it. */
  class LocalStorage {
    var items: map<string, map<string, Value>>

    constructor(items: map<string, map<string, Value>>)
      ensures this.items == items
    {
      this.items := items;
    }
  }

  class GameState {
    /** `__gameName`: the storage key, not the game's name. */
    const key: string
    const storage: LocalStorage
    /** `__localStore`. */
    var local: map<string, Value>
    /** `__stateChanged`. */
    var changed: bool

    /** Restores the game's record, or starts an empty one; either way the
        record counts as unchanged, so nothing is written back until a set. */
    constructor(gameName: string, storage: LocalStorage)
      ensures key == GameKey(gameName) && this.storage == storage
      ensures local == Restored(storage.items, key)
      ensures !changed
    {
      key := GameKey(gameName);
      this.storage := storage;
      new;
      if key in storage.items {
        local := storage.items[key];
      } else {
        local := map[];
        changed := true;
      }
      changed := false;
    }

    /** `update()`: writes the record back under its key exactly when it
        changed since the last write. */
    method Update()
      modifies this, storage
      ensures storage.items == if old(changed) then old(storage.items)[key := local] else old(storage.items)
      ensures !changed && local == old(local)
    {
      if changed {
        ApplyChanges();
      }
    }

    /** `__applyChanges()`. */
    method ApplyChanges()
      modifies this, storage
      ensures storage.items == old(storage.items)[key := local]
      ensures !changed && local == old(local)
    {
      storage.items := storage.items[key := local];
      changed := false;
    }

    /** `getState(name)`: the recorded value, or null. */
    function GetState(name: string): (v: Value)
      reads this
      ensures name in local ==> v == local[name]
      ensures name !in local ==> v == Null
    {
      Lookup(local, name)
    }

    /** `setState(name, v)`: records the value and marks the record changed;
        every other name keeps its value. */
    method SetState(name: string, v: Value)
      modifies this
      ensures local == old(local)[name := v] && changed
      ensures GetState(name) == v
      ensures forall other :: other != name ==> GetState(other) == old(GetState(other))
    {
      local := local[name := v];
      changed := true;
    }
  }
}
