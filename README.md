# Bumble's coroutine scheduler, preloader and game state, in Dafny

Bumble is a small browser game framework. Its core is a cooperative task
scheduler:

- `BumbleCoroutines` keeps a list of tasks. Each task is a generator
  function wrapped in the `*coroutine` generator.
- One `update()` per frame calls `next()` once on each wrapper and splices
  out the wrappers that report done.
- The wrapper resumes the task body and classifies what the body yielded:
  - a generator function is driven as a nested child;
  - a promise is waited on until its `then` handler has run;
  - an array is a join over its promise members;
  - anything else is handed back as the next input, one frame later.

`BumblePreloader` loads images, audio and data documents through loading
tasks on its own scheduler. It caches them by name and reports
`loaded / started` as its progression. Once that ratio reaches 1 it clears
its `loading` latch. `BumbleGameState` keeps a name-keyed record. It
restores the record from local storage and writes it back when it changed.
`Bumble.__update` runs one frame: the preloader while it is loading,
otherwise the game's own tasks and then the game state.

The model follows `bumble.js`. The release build `release/bumble.0.0.5.js`
holds the same classes, with two differences:

- Its `__update` also draws a debug overlay, which is left out.
- Its join tests a member with `Promise.resolve(item) === item`
  (release/bumble.0.0.5.js:498), where `bumble.js:417` uses
  `item instanceof Promise`. In the model a promise is an entry of the
  promise table, so both tests are the same test (`Values.IsPromise`).

Modules, one per part of the program:

- `Values`: the values a body yields, the promise table of the host, and
  the preloader's caches (`Store`).
- `TaskBodies`: a task body's generator and `next()` on it.
- `Wrapper`: the `*coroutine` state machine.
  - `Drive` is one `next()` of the wrapper, specified by four mutually
    recursive functions.
  - `Advance` is the same step written as the source's do/while loop, and
    is proved equal to `Drive`.
  - The lemmas state what each branch does across frames.
- `Scheduling`: `class Coroutines`. `Update` is the index-and-splice loop,
  proved against `Outcomes` and `Survivors`.
- `Preloading`: `class Preloader`.
- `Persistence`: `class GameState` over `class LocalStorage`.
- `Framework`: `class Bumble`. `Tick` is `__update`. `NewPromise` and
  `Settle` stand for the host settling promises between frames.

Some consequences of the code that are easy to miss:

- A join delivers its results in list order, not in the order the promises
  complete. The wrapper registers a handler on one promise member at a
  time and waits for it before moving on (`Wrapper.JoinInListOrder`).
- A body that returns a plain value without yielding is removed on the
  second update, not the first. Its return value goes through the
  plain-value branch, which yields once more (`Wrapper.PlainScriptTimeline`).
  A returned array or promise goes through its own branch instead.
- A rejected promise does not fail its task. The wrapper registers no
  rejection handler, so the task waits forever. For a loading task, the
  preloader's `loading` latch then never clears
  (`Wrapper.UnsettledPromiseHangs`, `Preloading.StarvedLoadKeepsLoading`).
- An exception from a task is not swallowed. It escapes `update()` and
  leaves that task, now closed, and the tasks after it in the list. It also
  skips the game state's write-back in that frame (`Scheduling.Coroutines.Update`,
  `Framework.Bumble.Tick`).

## Model

| member | source | states |
|---|---|---|
| TaskBodies.Next | bumble.js:249-255 | a body's `next(x)`: `x` is recorded only when a pending `yield` receives it; each non-final yield uses up one step; a finished body stays finished and reports done; a nested generator function is shallower than its parent; a loading body only appends pending promises; a user body changes nothing of the world |
| TaskBodies.LoaderStart | bumble.js:250-251 | a fresh loading body fetches only an uncached name: a cached name is counted and the body returns at once, and otherwise it issues exactly one fetch for its url and yields that fetch's promise |
| TaskBodies.LoaderCompletes | bumble.js:251-254 | resumed with the fetched value, a loading body stores it under its name in its own cache only, counts one load and returns |
| Values.ClassifyOrder | bumble.js:397-431 | `Classify` tests generator function (397), then promise (405), then array (414), then anything else (428); each class keeps the whole value, and a value reaches a later test only when the earlier ones fail |
| Values.SettledOnlyFulfilled | bumble.js:407-413 | `Settled`, what the `then` callback makes visible: a promise reads as completed iff it is fulfilled, with its value; a rejected one never completes, since no rejection handler is registered |
| Wrapper.NewRoutine | bumble.js:375 | `this.coroutine(task)` creates a wrapper in which nothing of the body has run: no resumption, no input, and at least one `next()` still to come |
| Wrapper.DriveKeepsSettled | bumble.js:405-413 | however many updates run, no promise changes whether or how it is fulfilled: only the host settles promises |
| Wrapper.NextPromise | bumble.js:416-417 | the index where the join next waits: a promise member, with no promise member skipped before it, or the end of the list |
| Wrapper.Drive | bumble.js:389-434 | one `next()` of the wrapper only appends pending promises and never changes a settled one; it keeps the task; with nesting as intended it never throws; over user code it stays user code and leaves the caches alone |
| Wrapper.Continue | bumble.js:432-433 | the loop test: the same guarantees as `Drive` once the body is done or resumed |
| Wrapper.Resume | bumble.js:395-431 | `co.next(nextResult)` followed by the four-way classification: the same guarantees as `Drive` |
| Wrapper.JoinFrom | bumble.js:414-427 | the join's member loop from a given member on: the same guarantees as `Drive` |
| Wrapper.Advance | bumble.js:389-434 | the do/while loop, run step by step, returns exactly the step `Drive` specifies |
| Wrapper.DriveTimes | bumble.js:381 | `n` successive updates of the same wrapper only append pending promises and keep its task |
| Wrapper.PlainScriptTimeline | bumble.js:428-433 | a body yielding only plain values suspends once per value, its return value included, and is reported done with its return value on update number steps + 2; at each suspension its recorded inputs are the values it yielded before, each handed back one update later |
| Wrapper.UnsettledPromiseHangs | bumble.js:405-413 | while an awaited promise is pending or rejected, any number of updates leave the task exactly where it is |
| Wrapper.SinglePromiseRoundTrip | bumble.js:405-413 | yielding a promise always suspends, even an already fulfilled one; the first update that finds it fulfilled resumes the body with its value |
| Wrapper.SkipPlainMembers | bumble.js:416-417 | members of a joined array that are not promises count for nothing and deliver nothing |
| Wrapper.JoinWithoutPromises | bumble.js:414-427 | an array with no promise member does not suspend: the body is resumed with an empty array in the same update |
| Wrapper.JoinInListOrder | bumble.js:414-427 | when all promise members are fulfilled, a join over m of them takes m updates, the body does not run in between, and it then receives their values in list order |
| Wrapper.ChildInLockstep | bumble.js:397-404 | with nesting as intended, while the child has not returned, each update of the parent is exactly one update of its child and the parent suspends |
| Wrapper.NestedScriptTimeline | bumble.js:397-404 | with nesting as intended, the child's first update happens in the parent's update that yields it; after the child's remaining updates the parent holds the child's return value, and one update later it is resumed with that value |
| Wrapper.ShippedNestedYieldThrows | bumble.js:398 | as written, the update in which a body yields a generator function throws and closes the wrapper; with nesting as intended it does not throw |
| Wrapper.ShippedNestingExample | bumble.js:397-398 | a task whose body yields one empty generator function throws on its first update as written, and suspends as intended |
| Wrapper.LoaderDrive | bumble.js:246-256 | one update of a loading task keeps it a loading task and never throws; loaded + uncounted is conserved, so it counts its resource exactly once; it is reported done exactly from the update after it counted; a fresh task fetches iff its name is uncached; a fulfilled fetch is stored under its name |
| Wrapper.LoaderFirstDrive | bumble.js:249-251 | the first update of a loading task: a cached name is counted at once, otherwise one fetch is issued and the task waits on its promise |
| Scheduling.Outcomes | bumble.js:378-386 | a pass drives tasks until one throws; with nesting as intended it drives every task |
| Scheduling.OutcomesInListOrder | bumble.js:379-381 | task i is driven in the world the drive of task i - 1 left |
| Scheduling.Survivors | bumble.js:381-385 | the tasks a pass keeps after the splice: never more than were driven (the exact list is stated by `SurvivorsKeepOrder`) |
| Scheduling.KeptIndices | bumble.js:381-385 | the tasks a pass keeps are exactly those not reported done, in increasing position |
| Scheduling.SurvivorsKeepOrder | bumble.js:381-385 | `Survivors` is exactly the new states of the tasks not reported done, in their original relative order |
| Scheduling.Coroutines.constructor | bumble.js:366-368 | a new scheduler has no tasks |
| Scheduling.Coroutines.Clear | bumble.js:370-372 | every task is dropped |
| Scheduling.Coroutines.RunCoroutine | bumble.js:374-376 | the wrapped task is appended after all existing tasks |
| Scheduling.Coroutines.Update | bumble.js:378-387 | the task list becomes the survivors of the pass followed by the tasks it did not reach; the world is what the last drive left; `threw` is true iff the pass ended in an exception |
| Scheduling.UserPassKeepsStore | bumble.js:378-387 | a pass over the game's own tasks leaves the preloader's caches and counter alone |
| Scheduling.UserPassKeepsUsers | bumble.js:378-387 | what a pass over the game's own tasks keeps is the game's own tasks |
| Scheduling.LoaderPassConserves | bumble.js:378-387 | a pass over loading tasks drives every one of them, keeps only loading tasks, and conserves loaded + outstanding |
| Preloading.KindOfNames | bumble.js:283-288 | `KindOf` recognises exactly the type strings "image", "audio" and "data", each as its own kind |
| Preloading.RequestOne | bumble.js:282-290 | `Request`: a known type schedules one fresh loading task whose resource is still uncounted, an unknown type schedules nothing |
| Preloading.RequestsAreFreshLoads | bumble.js:293-297 | `Requests`: `loadAll` schedules at most one task per resource, all of them fresh loading tasks still to be counted |
| Preloading.LoadStep | bumble.js:294-295 | one iteration of `loadAll` extends the scheduled tasks, the starts and the latch by exactly what `load` on the next resource adds |
| Preloading.RequestsInListOrder | bumble.js:293-297 | with known types, `loadAll` schedules one loading task per resource, in list order |
| Preloading.UnknownTypesIgnored | bumble.js:282-290 | resources of unknown type schedule nothing |
| Preloading.LatchExactlyWhenDone | bumble.js:213-219 | under the preloader's bookkeeping the ratio reaches 1 iff some load was started and none is outstanding |
| Preloading.Preloader.constructor | bumble.js:197-207 | not loading, nothing started, empty caches, no tasks |
| Preloading.Preloader.Progression | bumble.js:213-219 | returns `loaded / started`; clears `loading` exactly when that is at least 1 |
| Preloading.Preloader.Update | bumble.js:221-223 | one pass of the preloader's scheduler over its caches and the promise table; started = loaded + outstanding is kept |
| Preloading.Preloader.StartLoad | bumble.js:247-249 | sets `loading`, counts one start and appends one loading task |
| Preloading.Preloader.LoadImage | bumble.js:246-256 | as `StartLoad` for the image cache |
| Preloading.Preloader.LoadAudio | bumble.js:258-268 | as `StartLoad` for the audio cache |
| Preloading.Preloader.LoadData | bumble.js:270-280 | as `StartLoad` for the data cache |
| Preloading.Preloader.Load | bumble.js:282-290 | schedules the request for a known type, and nothing for an unknown one |
| Preloading.Preloader.LoadAll | bumble.js:293-297 | appends the requests of all resources in list order; `loading` is set iff it already was or something was scheduled |
| Preloading.Preloader.GetImage | bumble.js:225-230 | the cached image, or null |
| Preloading.Preloader.GetAudio | bumble.js:232-237 | the cached audio, or null |
| Preloading.Preloader.GetData | bumble.js:239-244 | the cached document, or null |
| Preloading.Preloader.ClearImages | bumble.js:299-301 | every image lookup gives null; counters and scheduled loads unchanged |
| Preloading.Preloader.ClearAudios | bumble.js:303-305 | every audio lookup gives null; counters and scheduled loads unchanged |
| Preloading.Preloader.ClearDatas | bumble.js:307-309 | every data lookup gives null; counters and scheduled loads unchanged |
| Preloading.Preloader.ClearAll | bumble.js:311-315 | every lookup of every kind gives null; the loaded counter is kept |
| Preloading.DuplicateLoadsBothFetch | bumble.js:249-253 | two loads of one uncached name scheduled together both fetch, because the cache test runs at each task's first update |
| Preloading.StarvedLoadKeepsLoading | bumble.js:250-254 | a fetch that is never fulfilled keeps its task where it is and its resource outstanding on every later update |
| Persistence.GameKey | bumble.js:320 | the key is the game name between two four-character markers, so the name can be read back from the key |
| Persistence.Restored | bumble.js:321-327 | what a game starts with: the record stored under its key, or an empty record when there is none |
| Persistence.GameKeyInjective | bumble.js:320 | different game names give different storage keys |
| Persistence.SaveThenRestore | bumble.js:321-323 | a record written under a game's key is what that game restores |
| Persistence.SaveLeavesOtherGames | bumble.js:350 | writing one game's record does not change what any other game restores |
| Persistence.LocalStorage.constructor | bumble.js:321 | the storage holds the given records |
| Persistence.GameState.constructor | bumble.js:319-329 | restores the saved record, or an empty one, and starts unchanged in both cases |
| Persistence.GameState.Update | bumble.js:331-335 | writes the record under its key iff it changed, and is then unchanged |
| Persistence.GameState.ApplyChanges | bumble.js:349-352 | writes the record under its key and clears the flag |
| Persistence.GameState.GetState | bumble.js:337-342 | the recorded value, or null |
| Persistence.GameState.SetState | bumble.js:344-347 | records the value, marks the record changed, leaves every other name alone |
| Framework.Bumble.constructor | bumble.js:2-12 | empty game scheduler, idle preloader, the game's restored record |
| Framework.Bumble.Tick | bumble.js:37-45 | while loading: one preloader pass, then `loading` stays set iff some load is outstanding, and the game's tasks and state are untouched; otherwise: one pass of the game's tasks, caches unchanged, the record written back iff it had changed and no task threw, and the record still marked changed iff it was and a task threw |
| Framework.Bumble.RunCoroutine | bumble.js:104-106 | appends the wrapped game task |
| Framework.Bumble.ClearCoroutines | bumble.js:108-110 | drops the game's tasks and leaves the preloader's alone |
| Framework.Bumble.NewPromise | bumble.js:770-776 | game code creates a promise of its own, as `BumbleUtility.wait` does: one pending entry is appended to the promise table, and nothing else changes |
| Framework.Bumble.Settle | bumble.js:736-768 | the host settles one pending promise, as the load utilities' `resolve` calls do: only that entry changes, its origin is kept, and it is no longer pending |

## Left out

- Drawing, the progress bar's geometry, the frame timer, keys, mouse, colours, images and audio playback: no scheduling logic.
- `BumbleUtility.loadImage/loadAudio/loadData`: modelled as a fetch that appends a pending promise; the host settles it with `Framework.Bumble.Settle`. Those utilities never call `reject`, so a failed load stays pending. `Settle` also allows a rejection, for promises that game code creates.
- Promise identity: a promise is its index in the host's promise table. The `Promise.resolve(v) === v` test and the `instanceof Promise` test are the same test here. Thenables that are not native promises are treated as plain values.
- The microtask queue: a `then` handler runs only after the current update. The model reads this as "a promise fulfilled before an update is seen in that update".
- User task bodies are fixed scripts: what they yield does not depend on what they are resumed with. The inputs are recorded, so the lemmas can state what each yield receives.
- Reentrancy. The model does not let a task body call `runCoroutine`, `clear` or the preloader during a pass. In the source, a task appended mid-pass is driven in the same pass.
- Exceptions thrown by a user body's own code are left out. The only exception modelled is the unbound `coroutine` call.
- `in` on plain objects also finds inherited keys such as `toString`. The model's caches and records are maps with no such keys.
- JSON: the stored record is modelled as the value `JSON.parse` returns. `JSON.stringify` is assumed to round-trip it. A stored empty string, which `!!` treats as absent, cannot arise from the record's own writes and is not modelled.
- The first `changed := true` in the `BumbleGameState` constructor is overwritten straight away. It is kept in the constructor body but has no effect.
- `__loadingResources` is never read or written after construction, so it is not modelled.
- `Bumble.getImage/getAudio/getData` only wrap the preloader's lookups in display objects.
- Preloading.Preloader.Progression: returns the ratio as the pair (loaded, started), not as a floating-point number. `AtLeastOne` stands for `>= 1.0`, with NaN (0 / 0) false and Infinity true.

## Findings

| source | as written | input that shows it | evidently intended | confidence | as-written member | corrected member |
|---|---|---|---|---|---|---|
| bumble.js:398 (also release/bumble.0.0.5.js:479) | the nested branch calls `coroutine(...)`, a name bound nowhere in scope, so it throws a ReferenceError out of `update()` | a task whose body yields a generator function, e.g. `function*(){ yield function*(){}; }` | `this.coroutine(...)`: drive the child one step per parent step and resume the parent with the child's return value | high, not executed | Wrapper.ShippedNestedYieldThrows, Wrapper.ShippedNestingExample | Wrapper.NestedScriptTimeline, Wrapper.ChildInLockstep |

Each scheduler carries its nested-branch binding as `Mode`: `Shipped` as written, `Intended` as corrected. The lemmas that do not mention a mode hold for both.
