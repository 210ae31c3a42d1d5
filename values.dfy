/** The values a task body yields and is resumed with, the task bodies the
    scheduler wraps, the host's table of promises and the preloader's caches.
    A JavaScript promise object is identified here by its index in the
    promise table; the host environment, not the scheduler, settles it. */
module Values {

  datatype Option<+T> = None | Some(value: T)

  /** The three resource kinds the preloader caches separately. */
  datatype Kind = Image | Audio | Data

  /** A JavaScript value, as far as the scheduler distinguishes it. */
  datatype Value =
    | Undefined
    | Null
    | Bool(b: bool)
    | Num(n: int)
    | Str(s: string)
    | HostObject(tag: string)   // an Image or Audio element, a parsed JSON document
    | Arr(items: seq<Value>)
    | Prom(id: nat)             // a native promise, by its index in the promise table
    | GenFn(body: Body)         // a generator function

  /** A user generator function, as a script: it yields `steps` in turn and
      then returns `ret`. What it is resumed with is recorded, not used. */
  datatype Body = Body(steps: seq<Value>, ret: Value)

  /** What `runCoroutine` receives: a user generator function, or one of the
      preloader's own loading generators (a closure user code cannot reach). */
  datatype Task =
    | User(body: Body)
    | Loader(kind: Kind, name: string, url: string)

  datatype PromiseState = Pending | Fulfilled(value: Value) | Rejected(reason: Value)

  /** Who created a promise: the game's own code, or a preloader fetch. */
  datatype Origin = External | Fetch(kind: Kind, url: string)

  datatype Promise = Promise(origin: Origin, state: PromiseState)

  /** The preloader's three name-keyed caches and its loaded counter: the
      part of the host that loading task bodies write. */
  datatype Store = Store(images: map<string, Value>, audios: map<string, Value>,
                         datas: map<string, Value>, loaded: nat)
  {
    function Cache(k: Kind): map<string, Value> {
      match k
      case Image => images
      case Audio => audios
      case Data => datas
    }

    /** The store after `cache[name] = v` on the cache of kind `k`. */
    function Put(k: Kind, name: string, v: Value): (s: Store)
      ensures s.Cache(k) == Cache(k)[name := v]
      ensures forall k' :: k' != k ==> s.Cache(k') == Cache(k')
      ensures s.loaded == loaded
    {
      match k
      case Image => this.(images := images[name := v])
      case Audio => this.(audios := audios[name := v])
      case Data => this.(datas := datas[name := v])
    }
  }

  const EmptyStore := Store(map[], map[], map[], 0)

  /** `name in cache ? cache[name] : null`. */
  function Lookup(cache: map<string, Value>, name: string): Value {
    if name in cache then cache[name] else Null
  }

  /** Everything a drive of the scheduler reads or writes besides its tasks. */
  datatype World = World(promises: seq<Promise>, store: Store)

  /** The fulfilled value of promise `id`, if the environment has fulfilled it.
      A rejected promise has no fulfilment handler to run, so it reads as
      never completed. */
  function Settled(w: World, id: nat): Option<Value> {
    if id < |w.promises| && w.promises[id].state.Fulfilled? then Some(w.promises[id].state.value) else None
  }

  /** Only a fulfilment is ever seen: a rejected or pending promise reads as
      not completed, and a fulfilled one gives its value. */
  lemma SettledOnlyFulfilled(w: World, id: nat)
    ensures Settled(w, id).Some? <==> id < |w.promises| && w.promises[id].state.Fulfilled?
    ensures Settled(w, id).Some? ==> w.promises[id].state == Fulfilled(Settled(w, id).value)
    ensures id < |w.promises| && w.promises[id].state.Rejected? ==> Settled(w, id).None?
  {
  }

  /** `w'` is `w` with promises appended, all of them still pending: no
      existing promise changed state. */
  ghost predicate Extends(w: World, w': World) {
    && |w.promises| <= |w'.promises|
    && (forall i :: 0 <= i < |w.promises| ==> w'.promises[i] == w.promises[i])
    && (forall i :: |w.promises| <= i < |w'.promises| ==> w'.promises[i].state.Pending?)
  }

  lemma ExtendsTrans(w1: World, w2: World, w3: World)
    requires Extends(w1, w2) && Extends(w2, w3)
    ensures Extends(w1, w3)
  {
  }

  lemma {:induction false} ExtendsKeepsSettled(w: World, w': World, id: nat)
    requires Extends(w, w')
    ensures Settled(w', id) == Settled(w, id)
  {
    if id < |w.promises| {
      assert w'.promises[id] == w.promises[id];
    } else if id < |w'.promises| {
      assert w'.promises[id].state.Pending?;
    }
  }

  /** The host environment settles promise `id`, which was pending. */
  ghost predicate SettledBy(w: World, w': World, id: nat) {
    && id < |w.promises| && w.promises[id].state.Pending?
    && |w'.promises| == |w.promises| && w'.store == w.store
    && w'.promises[id].origin == w.promises[id].origin && !w'.promises[id].state.Pending?
    && (forall i :: 0 <= i < |w.promises| && i != id ==> w'.promises[i] == w.promises[i])
  }

  /** What the wrapper does with a yielded value, in the order it tests. */
  datatype Awaited =
    | Nested(body: Body)        // a generator function: driven as a child
    | Single(id: nat)           // a native promise: polled until fulfilled
    | Join(items: seq<Value>)   // an array: its promise members awaited in turn
    | Plain(value: Value)       // anything else: fed back as the next input

  function Classify(v: Value): Awaited {
    if v.GenFn? then Nested(v.body)
    else if v.Prom? then Single(v.id)
    else if v.Arr? then Join(v.items)
    else Plain(v)
  }

  /** Each value falls into exactly the class its shape selects, tested in
      the order generator function, promise, array, anything else, and the
      class keeps the whole value. */
  lemma ClassifyOrder(v: Value)
    ensures var a := Classify(v);
      && (a.Nested? <==> v.GenFn?) && (a.Nested? ==> v == GenFn(a.body))
      && (a.Single? <==> v.Prom?) && (a.Single? ==> v == Prom(a.id))
      && (a.Join? <==> v.Arr?) && (a.Join? ==> v == Arr(a.items))
      && (a.Plain? <==> !v.GenFn? && !v.Prom? && !v.Arr?) && (a.Plain? ==> a.value == v)
  {
  }

  /** The join's membership test: is `v` a native promise. */
  predicate IsPromise(v: Value) {
    v.Prom?
  }

  predicate IsPlain(v: Value) {
    Classify(v).Plain?
  }

  // Nesting depth of generator functions, the measure that makes a drive of
  // a parent that creates a child terminate.

  function Max(a: nat, b: nat): nat {
    if a < b then b else a
  }

  function BodyDepth(b: Body): nat {
    1 + Max(ValuesDepth(b.steps), ValueDepth(b.ret))
  }

  function ValueDepth(v: Value): nat {
    match v
    case GenFn(b) => BodyDepth(b)
    case _ => 0
  }

  function ValuesDepth(vs: seq<Value>): nat {
    if vs == [] then 0 else Max(ValueDepth(vs[0]), ValuesDepth(vs[1..]))
  }

  function TaskDepth(t: Task): nat {
    match t
    case User(b) => BodyDepth(b)
    case Loader(_, _, _) => 1
  }

  lemma {:induction false} StepDepth(vs: seq<Value>, i: nat)
    requires i < |vs|
    ensures ValueDepth(vs[i]) <= ValuesDepth(vs)
  {
    if i > 0 {
      StepDepth(vs[1..], i - 1);
      assert vs[1..][i - 1] == vs[i];
    }
  }
}
