/** `Bumble`: the game object that owns the user scheduler, the preloader and
    the game state, and runs one of them per frame. */
module Framework {
  import opened Values
  import opened TaskBodies
  import opened Wrapper
  import opened Scheduling
  import opened Preloading
  import opened Persistence

  class Bumble {
    /** `__routines`: the game's own tasks. */
    const routines: Coroutines
    const preloader: Preloader
    const gameState: GameState
    /** The host's promise table: every promise a task can await. */
    var promises: seq<Promise>

    ghost predicate Valid()
      reads this, routines, preloader, preloader.routines, gameState
    {
      && routines != preloader.routines
      && preloader.Valid()
      && AllUser(routines.tasks)
    }

    /** The parts of the constructor the model keeps: an empty scheduler, an
        idle preloader and the game's restored record. */
    constructor(mode: Mode, gameName: string, storage: LocalStorage)
      ensures Valid()
      ensures fresh(routines) && fresh(preloader) && fresh(preloader.routines) && fresh(gameState)
      ensures routines.mode == mode && preloader.routines.mode == mode
      ensures routines.tasks == [] && preloader.routines.tasks == [] && promises == []
      ensures !preloader.loading && preloader.started == 0 && preloader.store == EmptyStore
      ensures gameState.storage == storage && gameState.key == GameKey(gameName)
      ensures gameState.local == Restored(storage.items, GameKey(gameName)) && !gameState.changed
    {
      routines := new Coroutines(mode);
      preloader := new Preloader(mode);
      gameState := new GameState(gameName, storage);
      promises := [];
    }

    /** `__update()`, one frame. While the preloader is loading, only its
        tasks run, then `progression()` may end the loading; the game's own
        tasks and its state wait. Otherwise the game's tasks run one pass and
        the game state is written back if it changed, unless a task threw,
        which skips the write. */
    method Tick() returns (threw: bool)
      requires Valid()
      modifies this, routines, preloader, preloader.routines, gameState, gameState.storage
      ensures Valid()
      ensures old(preloader.loading) ==>
        var w := World(old(promises), old(preloader.store));
        var os := Outcomes(preloader.routines.mode, old(preloader.routines.tasks), w);
        && preloader.routines.tasks == Survivors(os)
        && World(promises, preloader.store) == After(os, w)
        && preloader.started == old(preloader.started)
        && (preloader.loading <==> Outstanding(preloader.routines.tasks) > 0)
        && routines.tasks == old(routines.tasks) && !threw
        && gameState.storage.items == old(gameState.storage.items)
        && gameState.local == old(gameState.local) && gameState.changed == old(gameState.changed)
      ensures !old(preloader.loading) ==>
        var w := World(old(promises), old(preloader.store));
        var os := Outcomes(routines.mode, old(routines.tasks), w);
        && routines.tasks == Survivors(os) + old(routines.tasks)[|os|..]
        && promises == After(os, w).promises
        && (threw <==> |os| > 0 && os[|os| - 1].signal.Threw?)
        && preloader.store == old(preloader.store) && !preloader.loading
        && preloader.started == old(preloader.started)
        && preloader.routines.tasks == old(preloader.routines.tasks)
        && gameState.local == old(gameState.local)
        && gameState.changed == (old(gameState.changed) && threw)
        && gameState.storage.items ==
             if !threw && old(gameState.changed) then old(gameState.storage.items)[gameState.key := gameState.local]
             else old(gameState.storage.items)
    {
      if preloader.loading {
        var promises' := preloader.Update(promises);
        promises := promises';
        var ratio := preloader.Progression();
        LatchExactlyWhenDone(preloader.store.loaded, Outstanding(preloader.routines.tasks));
        threw := false;
      } else {
        var w := World(promises, preloader.store);
        UserPassKeepsStore(routines.mode, routines.tasks, w);
        UserPassKeepsUsers(routines.mode, routines.tasks, w);
        ghost var ts := routines.tasks;
        var w';
        w', threw := routines.Update(w);
        ghost var os := Outcomes(routines.mode, ts, w);
        assert AllUser(ts[|os|..]);
        AllUserConcat(Survivors(os), ts[|os|..]);
        promises := w'.promises;
        if !threw {
          gameState.Update();
        }
      }
    }

    /** `runCoroutine(f)`: schedules a game task for the next frame. */
    method RunCoroutine(b: Body)
      requires Valid()
      modifies routines
      ensures Valid()
      ensures routines.tasks == old(routines.tasks) + [NewRoutine(User(b))]
    {
      routines.RunCoroutine(User(b));
      AllUserConcat(old(routines.tasks), [NewRoutine(User(b))]);
    }

    /** `clearCoroutines()`: drops the game's tasks; the preloader's loads
        are not affected. */
    method ClearCoroutines()
      requires Valid()
      modifies routines
      ensures Valid()
      ensures routines.tasks == [] && preloader.routines.tasks == old(preloader.routines.tasks)
    {
      routines.Clear();
    }

    // The host environment, which the frame loop never drives itself.

    /** Game code creates a promise of its own, to be settled later. */
    method NewPromise() returns (id: nat)
      requires Valid()
      modifies this
      ensures Valid()
      ensures id == |old(promises)| && promises == old(promises) + [Promise(External, Pending)]
    {
      id := |promises|;
      promises := promises + [Promise(External, Pending)];
    }

    /** The host settles a pending promise: a fetch completing or failing,
        or game code resolving its own promise. */
    method Settle(id: nat, state: PromiseState)
      requires Valid()
      requires id < |promises| && promises[id].state.Pending? && !state.Pending?
      modifies this
      ensures Valid()
      ensures SettledBy(old(World(promises, preloader.store)), World(promises, preloader.store), id)
      ensures promises == old(promises)[id := Promise(old(promises[id].origin), state)]
    {
      promises := promises[id := Promise(promises[id].origin, state)];
    }
  }
}
