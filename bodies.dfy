/** A task body in progress: the generator object that calling a generator
    function creates, and `co.next(x)` on it. */
module TaskBodies {
  import opened Values

  /** `pc` counts the resumptions so far; `inputs` are the values delivered to
      the body's `yield` expressions, in order. */
  datatype BodyState = BodyState(task: Task, pc: nat, inputs: seq<Value>)

  /** The iterator result `{value, done}` that `next()` returns. */
  datatype Yielded = Yielded(value: Value, done: bool)

  datatype Resumed = Resumed(co: BodyState, yielded: Yielded, world: World)

  function Start(t: Task): BodyState {
    BodyState(t, 0, [])
  }

  /** How many more times `next()` can be called before the body reports
      `done`, counting the call that reports it. */
  function Fuel(co: BodyState): nat {
    match co.task
    case User(b) => if co.pc <= |b.steps| then |b.steps| + 1 - co.pc else 0
    case Loader(_, _, _) => if co.pc < 2 then 2 - co.pc else 0
  }

  /** A generator ignores the argument of its first `next()` and of calls
      after it has finished; every other argument is what its pending `yield`
      evaluates to. */
  function Received(co: BodyState, input: Value): seq<Value> {
    if co.pc == 0 || Fuel(co) == 0 then co.inputs else co.inputs + [input]
  }

  /** `co.next(input)`. A user script yields its steps in turn, then returns.
      A loading body is, in the source's words,
        if name is not in the cache: v := yield fetch(url); cache[name] := v
        loaded += 1
      where the fetch creates a pending promise in the promise table. */
  function Next(co: BodyState, input: Value, w: World): (n: Resumed)
    ensures n.co == BodyState(co.task, n.co.pc, Received(co, input))
    ensures !n.yielded.done ==> Fuel(n.co) + 1 == Fuel(co)
    ensures Fuel(co) == 0 ==> n.co == co && n.yielded == Yielded(Undefined, true) && n.world == w
    ensures n.yielded.value.GenFn? ==> BodyDepth(n.yielded.value.body) < TaskDepth(co.task)
    ensures Extends(w, n.world)
    ensures co.task.User? ==> n.world == w
  {
    var received := Received(co, input);
    match co.task
    case User(b) =>
      if co.pc < |b.steps| then
        StepDepth(b.steps, co.pc);
        Resumed(BodyState(co.task, co.pc + 1, received), Yielded(b.steps[co.pc], false), w)
      else if co.pc == |b.steps| then
        assert ValueDepth(b.ret) < BodyDepth(b);
        Resumed(BodyState(co.task, co.pc + 1, received), Yielded(b.ret, true), w)
      else
        Resumed(co, Yielded(Undefined, true), w)
    case Loader(kind, name, url) =>
      if co.pc == 0 then
        if name in w.store.Cache(kind) then
          var store := w.store.(loaded := w.store.loaded + 1);
          Resumed(BodyState(co.task, 2, received), Yielded(Undefined, true), w.(store := store))
        else
          var id := |w.promises|;
          var promises := w.promises + [Promise(Fetch(kind, url), Pending)];
          Resumed(BodyState(co.task, 1, received), Yielded(Prom(id), false), w.(promises := promises))
      else if co.pc == 1 then
        var store := w.store.Put(kind, name, input);
        var store' := store.(loaded := store.loaded + 1);
        Resumed(BodyState(co.task, 2, received), Yielded(Undefined, true), w.(store := store'))
      else
        Resumed(co, Yielded(Undefined, true), w)
  }

  /** A loading body, started: when the name is already cached it counts the
      resource as loaded and returns without fetching; otherwise it issues
      exactly one fetch and yields that fetch's promise. */
  lemma LoaderStart(kind: Kind, name: string, url: string, w: World)
    ensures var n := Next(Start(Loader(kind, name, url)), Undefined, w);
      if name in w.store.Cache(kind) then
        && n.yielded == Yielded(Undefined, true)
        && n.world == w.(store := w.store.(loaded := w.store.loaded + 1))
      else
        && n.yielded == Yielded(Prom(|w.promises|), false)
        && n.world == w.(promises := w.promises + [Promise(Fetch(kind, url), Pending)])
  {
  }

  /** A loading body resumed with the fetched value stores it under its name,
      whatever the cache held by then, counts it, and returns. */
  lemma LoaderCompletes(co: BodyState, v: Value, w: World)
    requires co.task.Loader? && co.pc == 1
    ensures var n := Next(co, v, w);
      && n.yielded == Yielded(Undefined, true)
      && n.world.promises == w.promises
      && n.world.store.Cache(co.task.kind) == w.store.Cache(co.task.kind)[co.task.name := v]
      && (forall k :: k != co.task.kind ==> n.world.store.Cache(k) == w.store.Cache(k))
      && n.world.store.loaded == w.store.loaded + 1
  {
  }
}
