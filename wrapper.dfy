/** The `*coroutine` wrapper that `runCoroutine` puts around every task body:
    a generator that resumes the body, classifies what the body yielded, and
    suspends itself until that has been dealt with. Its state at a suspension
    is a `Routine`; one call of its `next()` is `Drive`, specified by four
    mutually recursive functions and implemented by the method `Advance`,
    which mirrors the source's do/while loop. */
module Wrapper {
  import opened Values
  import opened TaskBodies

  /** The nested branch calls `coroutine(...)`, a name that is bound nowhere:
      `Shipped` follows the source as written (the call throws), `Intended`
      drives the child wrapper `this.coroutine(...)`. */
  datatype Mode = Intended | Shipped

  /** What one `next()` of the wrapper reports: `{done: false}`,
      `{done: true, value}`, or an exception escaping it. */
  datatype Signal = Suspended | Returned(value: Value) | Threw

  /** Where the wrapper generator is suspended. */
  datatype Phase =
    | Fresh                           // created by runCoroutine, not yet started
    | AfterValue(next: Value)         // at the `yield` of the plain-value branch
    | AwaitOne(id: nat)               // in `while (!completed) yield` on one promise
    | AwaitJoin(items: seq<Value>, idx: nat, results: seq<Value>)
                                      // waiting on items[idx]; results pushed so far
    | AwaitChild(child: Routine, sub: Yielded)
                                      // at the `yield` after `subCo.next()` returned sub
    | Closed                          // returned, or closed by an exception

  /** The wrapper's frame: the body generator `co`, its last result `yielded`,
      and the suspension point. */
  datatype Routine = Routine(co: BodyState, yielded: Yielded, phase: Phase)

  datatype Step = Step(routine: Routine, world: World, signal: Signal)

  /** `this.coroutine(task)`: nothing of the body runs yet. */
  function NewRoutine(t: Task): (r: Routine)
    ensures r.co.task == t && r.co.pc == 0 && r.co.inputs == [] && r.phase == Fresh
    ensures Fuel(r.co) >= 1
  {
    Routine(Start(t), Yielded(Undefined, false), Fresh)
  }

  function Rank(r: Routine): nat {
    TaskDepth(r.co.task) + match r.phase case AwaitChild(c, _) => 1 + Rank(c) case _ => 0
  }

  /** The iterator result the parent keeps of its child's `next()`. */
  function Report(sig: Signal): Yielded {
    match sig
    case Returned(v) => Yielded(v, true)
    case _ => Yielded(Undefined, false)
  }

  /** A routine over user code only: its nested children are user code too. */
  ghost predicate UserRoutine(r: Routine) {
    r.co.task.User? && (r.phase.AwaitChild? ==> UserRoutine(r.phase.child))
  }

  /** The index of the first promise member of `items` at or after `from`,
      or `|items|` when there is none: where the join's `for ... of` loop next
      registers a handler and yields. */
  function NextPromise(items: seq<Value>, from: nat): (k: nat)
    ensures k <= |items|
    ensures from <= |items| ==> from <= k
    ensures k < |items| ==> IsPromise(items[k])
    ensures forall j :: from <= j < k ==> !IsPromise(items[j])
    decreases |items| - from
  {
    if from >= |items| then |items|
    else if IsPromise(items[from]) then from
    else NextPromise(items, from + 1)
  }

  /** One `next()` of the wrapper, resuming it where it is suspended. */
  function Drive(mode: Mode, r: Routine, w: World): (s: Step)
    ensures Extends(w, s.world)
    ensures s.routine.co.task == r.co.task
    ensures mode == Intended ==> !s.signal.Threw?
    ensures UserRoutine(r) ==> UserRoutine(s.routine) && s.world.store == w.store
    decreases Rank(r), 3, 0, 0
  {
    match r.phase
    case Closed => Step(r, w, Returned(Undefined))
    case Fresh => Resume(mode, r.co, Undefined, w)
    case AfterValue(v) => Continue(mode, r.co, r.yielded, v, w)
    case AwaitOne(id) =>
      (match Settled(w, id)
       case Some(v) => Continue(mode, r.co, r.yielded, v, w)
       case None => Step(r, w, Suspended))
    case AwaitJoin(items, idx, results) =>
      var completed := if idx < |items| && IsPromise(items[idx]) then Settled(w, items[idx].id) else None;
      (match completed
       case Some(v) => JoinFrom(mode, r.co, r.yielded, items, idx + 1, results + [v], w)
       case None => Step(r, w, Suspended))
    case AwaitChild(child, sub) =>
      if sub.done then Continue(mode, r.co, r.yielded, sub.value, w)
      else
        var c := Drive(mode, child, w);
        if c.signal.Threw? then Step(Routine(r.co, r.yielded, Closed), c.world, Threw)
        else Step(Routine(r.co, r.yielded, AwaitChild(c.routine, Report(c.signal))), c.world, Suspended)
  }

  /** The do/while test: stop with the body's final value once the body has
      returned, otherwise resume it with `nextResult`. */
  function Continue(mode: Mode, co: BodyState, y: Yielded, nextResult: Value, w: World): (s: Step)
    ensures Extends(w, s.world)
    ensures s.routine.co.task == co.task
    ensures mode == Intended ==> !s.signal.Threw?
    ensures co.task.User? ==> UserRoutine(s.routine) && s.world.store == w.store
    decreases TaskDepth(co.task), 2, if y.done then 0 else 2 * Fuel(co) + 2, 0
  {
    if y.done then Step(Routine(co, y, Closed), w, Returned(y.value))
    else Resume(mode, co, nextResult, w)
  }

  /** `yielded = co.next(nextResult)`, then the four-way classification of
      the yielded value (the body's return value included). */
  function Resume(mode: Mode, co: BodyState, input: Value, w: World): (s: Step)
    ensures Extends(w, s.world)
    ensures s.routine.co.task == co.task
    ensures mode == Intended ==> !s.signal.Threw?
    ensures co.task.User? ==> UserRoutine(s.routine) && s.world.store == w.store
    decreases TaskDepth(co.task), 2, 2 * Fuel(co) + 1, 0
  {
    var n := Next(co, input, w);
    match Classify(n.yielded.value)
    case Nested(b) =>
      if mode == Shipped then Step(Routine(n.co, n.yielded, Closed), n.world, Threw)
      else
        var c := Drive(mode, NewRoutine(User(b)), n.world);
        ExtendsTrans(w, n.world, c.world);
        if c.signal.Threw? then Step(Routine(n.co, n.yielded, Closed), c.world, Threw)
        else Step(Routine(n.co, n.yielded, AwaitChild(c.routine, Report(c.signal))), c.world, Suspended)
    case Single(id) => Step(Routine(n.co, n.yielded, AwaitOne(id)), n.world, Suspended)
    case Join(items) =>
      var s := JoinFrom(mode, n.co, n.yielded, items, 0, [], n.world);
      ExtendsTrans(w, n.world, s.world);
      s
    case Plain(v) => Step(Routine(n.co, n.yielded, AfterValue(v)), n.world, Suspended)
  }

  /** The join's `for ... of` loop from member `from` on: register on the next
      promise member and yield, or, past the last member, leave the branch
      with the collected results as `nextResult`. */
  function JoinFrom(mode: Mode, co: BodyState, y: Yielded, items: seq<Value>, from: nat,
                    results: seq<Value>, w: World): (s: Step)
    ensures Extends(w, s.world)
    ensures s.routine.co.task == co.task
    ensures mode == Intended ==> !s.signal.Threw?
    ensures co.task.User? ==> UserRoutine(s.routine) && s.world.store == w.store
    decreases TaskDepth(co.task), 2, if y.done then 0 else 2 * Fuel(co) + 2, 1
  {
    var k := NextPromise(items, from);
    if k < |items| then Step(Routine(co, y, AwaitJoin(items, k, results)), w, Suspended)
    else Continue(mode, co, y, Arr(results), w)
  }

  /** One `next()` of the wrapper, written as the source runs it: finish the
      branch the wrapper is suspended in, then the do/while loop that resumes
      the body, resets `nextResult` to null and classifies what was yielded. */
  method Advance(mode: Mode, r: Routine, w: World) returns (s: Step)
    ensures s == Drive(mode, r, w)
    decreases Rank(r)
  {
    var co, yielded, world := r.co, r.yielded, w;
    var nextResult := Undefined;
    match r.phase {
      case Closed =>
        return Step(r, w, Returned(Undefined));
      case Fresh =>
        // the do/while runs its body once before the first test
        yielded := Yielded(Undefined, false);
      case AfterValue(v) =>
        nextResult := v;
      case AwaitOne(id) =>
        var completed := Settled(w, id);
        if completed.None? {
          return Step(r, w, Suspended);
        }
        nextResult := completed.value;
      case AwaitJoin(items, idx, results) =>
        var completed := if idx < |items| && IsPromise(items[idx]) then Settled(w, items[idx].id) else None;
        if completed.None? {
          return Step(r, w, Suspended);
        }
        var buffer := results + [completed.value];
        var k := idx + 1;
        while k < |items| && !IsPromise(items[k])
          invariant idx + 1 <= k <= |items|
          invariant NextPromise(items, k) == NextPromise(items, idx + 1)
        {
          k := k + 1;
        }
        if k < |items| {
          return Step(Routine(co, yielded, AwaitJoin(items, k, buffer)), w, Suspended);
        }
        nextResult := Arr(buffer);
      case AwaitChild(child, sub) =>
        if !sub.done {
          var c := Advance(mode, child, w);
          if c.signal.Threw? {
            return Step(Routine(co, yielded, Closed), c.world, Threw);
          }
          return Step(Routine(co, yielded, AwaitChild(c.routine, Report(c.signal))), c.world, Suspended);
        }
        nextResult := sub.value;
    }
    while !yielded.done
      invariant co.task == r.co.task
      invariant Continue(mode, co, yielded, nextResult, world) == Drive(mode, r, w)
      decreases if yielded.done then 0 else Fuel(co) + 1
    {
      assert Continue(mode, co, yielded, nextResult, world) == Resume(mode, co, nextResult, world);
      ghost var before, input, w0 := co, nextResult, world;
      var n := Next(co, nextResult, world);
      co, yielded, world := n.co, n.yielded, n.world;
      nextResult := Null;
      match Classify(yielded.value) {
        case Nested(b) =>
          if mode == Shipped {
            // ReferenceError: `coroutine` is not defined
            return Step(Routine(co, yielded, Closed), world, Threw);
          }
          var c := Advance(mode, NewRoutine(User(b)), world);
          if c.signal.Threw? {
            return Step(Routine(co, yielded, Closed), c.world, Threw);
          }
          return Step(Routine(co, yielded, AwaitChild(c.routine, Report(c.signal))), c.world, Suspended);
        case Single(id) =>
          return Step(Routine(co, yielded, AwaitOne(id)), world, Suspended);
        case Join(items) =>
          nextResult := Arr([]);
          var k := 0;
          while k < |items| && !IsPromise(items[k])
            invariant 0 <= k <= |items|
            invariant NextPromise(items, k) == NextPromise(items, 0)
          {
            k := k + 1;
          }
          assert Resume(mode, before, input, w0) == JoinFrom(mode, co, yielded, items, 0, [], world);
          if k < |items| {
            return Step(Routine(co, yielded, AwaitJoin(items, k, [])), world, Suspended);
          }
        case Plain(v) =>
          nextResult := v;
          return Step(Routine(co, yielded, AfterValue(v)), world, Suspended);
      }
    }
    return Step(Routine(co, yielded, Closed), world, Returned(yielded.value));
  }

  // ---------------------------------------------------------------------
  // Successive drives

  /** `n` successive `next()` calls on the wrapper with nothing happening in
      the host between them. The signal is that of the last call; with no
      call at all it is `Suspended`. */
  function DriveTimes(mode: Mode, r: Routine, w: World, n: nat): (s: Step)
    ensures Extends(w, s.world)
    ensures s.routine.co.task == r.co.task
    decreases n
  {
    if n == 0 then Step(r, w, Suspended)
    else
      var first := Drive(mode, r, w);
      if n == 1 then first
      else
        var rest := DriveTimes(mode, first.routine, first.world, n - 1);
        ExtendsTrans(w, first.world, rest.world);
        rest
  }

  /** After the first drive, the rest are drives of the state it left. */
  lemma DriveTimesFirst(mode: Mode, r: Routine, w: World, n: nat)
    requires 1 <= n
    ensures var first := Drive(mode, r, w);
      DriveTimes(mode, r, w, n + 1) == DriveTimes(mode, first.routine, first.world, n)
  {
  }

  /** The `n + 1`-th drive is one drive of the state the first `n` left. */
  lemma {:induction false} DriveTimesLast(mode: Mode, r: Routine, w: World, n: nat)
    requires 1 <= n
    ensures var s := DriveTimes(mode, r, w, n);
      DriveTimes(mode, r, w, n + 1) == Drive(mode, s.routine, s.world)
    decreases n
  {
    if n > 1 {
      var first := Drive(mode, r, w);
      DriveTimesLast(mode, first.routine, first.world, n - 1);
    }
  }

  /** Updates never settle a promise: whether and how each promise is
      fulfilled is decided by the host alone. */
  lemma DriveKeepsSettled(mode: Mode, r: Routine, w: World, n: nat, id: nat)
    ensures Settled(DriveTimes(mode, r, w, n).world, id) == Settled(w, id)
  {
    ExtendsKeepsSettled(w, DriveTimes(mode, r, w, n).world, id);
  }

  // ---------------------------------------------------------------------
  // Plain values

  /** A script that yields and returns plain values only. */
  ghost predicate PlainScript(b: Body) {
    && (forall i :: 0 <= i < |b.steps| ==> IsPlain(b.steps[i]))
    && IsPlain(b.ret)
  }

  /** The timeline of a task whose body yields only plain values: drive `n`
      makes the body yield its `n`-th step, each yielded value is handed back
      as the result of that `yield`, the value the body returns costs one
      more suspension, and the wrapper reports it done on drive
      `|steps| + 2`. */
  lemma {:induction false} PlainScriptTimeline(mode: Mode, b: Body, w: World, n: nat)
    requires PlainScript(b)
    requires 1 <= n <= |b.steps| + 2
    ensures var s := DriveTimes(mode, NewRoutine(User(b)), w, n);
      && s.world == w
      && (n <= |b.steps| + 1 ==>
            var y := if n <= |b.steps| then Yielded(b.steps[n - 1], false) else Yielded(b.ret, true);
            && s.signal == Suspended
            && s.routine == Routine(BodyState(User(b), n, b.steps[..n - 1]), y, AfterValue(y.value)))
      && (n == |b.steps| + 2 ==> s.signal == Returned(b.ret) && s.routine.phase == Closed)
  {
    var r0 := NewRoutine(User(b));
    if n == 1 {
      var y := if 0 < |b.steps| then Yielded(b.steps[0], false) else Yielded(b.ret, true);
      assert Next(r0.co, Undefined, w) == Resumed(BodyState(User(b), 1, []), y, w);
      assert Classify(y.value) == Plain(y.value);
      assert DriveTimes(mode, r0, w, 1) == Drive(mode, r0, w) == Resume(mode, r0.co, Undefined, w);
    } else {
      PlainScriptTimeline(mode, b, w, n - 1);
      DriveTimesLast(mode, r0, w, n - 1);
      var prev := DriveTimes(mode, r0, w, n - 1);
      if n <= |b.steps| + 1 {
        var v := b.steps[n - 2];
        assert prev.routine.phase == AfterValue(v) && !prev.routine.yielded.done;
        assert b.steps[..n - 2] + [v] == b.steps[..n - 1];
        var y := if n - 1 < |b.steps| then Yielded(b.steps[n - 1], false) else Yielded(b.ret, true);
        assert Next(prev.routine.co, v, w) == Resumed(BodyState(User(b), n, b.steps[..n - 1]), y, w);
        assert Classify(y.value) == Plain(y.value);
        assert Drive(mode, prev.routine, w) == Resume(mode, prev.routine.co, v, w);
      }
    }
  }

  /** The host never fulfils an awaited promise (it stays pending, or it is
      rejected: the wrapper registers no rejection handler): the task is
      suspended at the same point on every drive, forever. */
  lemma {:induction false} UnsettledPromiseHangs(mode: Mode, r: Routine, w: World, n: nat)
    requires r.phase.AwaitOne? && Settled(w, r.phase.id).None?
    ensures DriveTimes(mode, r, w, n) == Step(r, w, Suspended)
    decreases n
  {
    if n > 1 {
      UnsettledPromiseHangs(mode, r, w, n - 1);
    }
  }

  /** A body that has resumed and not finished can be resumed again: the
      next `next()` delivers its argument. */
  ghost predicate Resumable(co: BodyState) {
    co.pc > 0 && Fuel(co) > 0
  }

  lemma {:induction false} YieldLeavesResumable(co: BodyState, input: Value, w: World)
    requires !Next(co, input, w).yielded.done
    ensures Resumable(Next(co, input, w).co)
  {
    match co.task
    case User(b) =>
    case Loader(_, _, _) =>
  }

  /** A yielded promise always costs a suspension, even when it is already
      fulfilled, because its handler runs only after the current drive; the
      first drive that sees it fulfilled resumes the body with its value. */
  lemma {:induction false} SinglePromiseRoundTrip(mode: Mode, co: BodyState, input: Value, w: World, w': World, v: Value)
    requires var n := Next(co, input, w); n.yielded.value.Prom? && !n.yielded.done
    requires Settled(w', Next(co, input, w).yielded.value.id) == Some(v)
    ensures var n := Next(co, input, w);
      var s := Resume(mode, co, input, w);
      && s == Step(Routine(n.co, n.yielded, AwaitOne(n.yielded.value.id)), n.world, Suspended)
      && Drive(mode, s.routine, w') == Resume(mode, n.co, v, w')
      && Next(n.co, v, w').co.inputs == n.co.inputs + [v]
  {
    YieldLeavesResumable(co, input, w);
    var n := Next(co, input, w);
    var r := Routine(n.co, n.yielded, AwaitOne(n.yielded.value.id));
    assert Drive(mode, r, w') == Resume(mode, n.co, v, w');
  }

  // ---------------------------------------------------------------------
  // Arrays: the join

  /** How many members of `items`, from `from` on, are promises. */
  function PromisesFrom(items: seq<Value>, from: nat): nat
    decreases |items| - from
  {
    if from >= |items| then 0
    else (if IsPromise(items[from]) then 1 else 0) + PromisesFrom(items, from + 1)
  }

  /** The fulfilled values of the promise members of `items` from `from` on,
      in list order. */
  function FulfilledFrom(items: seq<Value>, from: nat, w: World): seq<Value>
    decreases |items| - from
  {
    if from >= |items| then []
    else
      var here := if IsPromise(items[from]) && Settled(w, items[from].id).Some? then [Settled(w, items[from].id).value] else [];
      here + FulfilledFrom(items, from + 1, w)
  }

  ghost predicate AllFulfilledFrom(items: seq<Value>, from: nat, w: World) {
    forall i :: from <= i < |items| && IsPromise(items[i]) ==> Settled(w, items[i].id).Some?
  }

  /** Members that are not promises are passed over by the join. */
  lemma {:induction false} SkipPlainMembers(items: seq<Value>, from: nat, w: World)
    requires from <= |items|
    ensures var k := NextPromise(items, from);
      && PromisesFrom(items, from) == PromisesFrom(items, k)
      && FulfilledFrom(items, from, w) == FulfilledFrom(items, k, w)
    decreases |items| - from
  {
    if from < |items| && !IsPromise(items[from]) {
      SkipPlainMembers(items, from + 1, w);
    }
  }

  /** A body yields an array with no promise member: the wrapper does not
      suspend, and resumes the body with an empty array in the same drive. */
  lemma {:induction false} JoinWithoutPromises(mode: Mode, co: BodyState, input: Value, w: World)
    requires var n := Next(co, input, w); n.yielded.value.Arr? && PromisesFrom(n.yielded.value.items, 0) == 0
    ensures var n := Next(co, input, w);
      Resume(mode, co, input, w) == Continue(mode, n.co, n.yielded, Arr([]), n.world)
  {
    var n := Next(co, input, w);
    var items := n.yielded.value.items;
    SkipPlainMembers(items, 0, w);
  }

  /** The join awaits its promise members one at a time, in list order: each
      costs one drive, the body does not run until the last one is in, and
      it then receives their values in list order, whatever order the host
      fulfilled them in. */
  lemma {:induction false} JoinInListOrder(mode: Mode, r: Routine, w: World)
    requires r.phase.AwaitJoin? && !r.yielded.done
    requires r.phase.idx < |r.phase.items| && IsPromise(r.phase.items[r.phase.idx])
    requires AllFulfilledFrom(r.phase.items, r.phase.idx, w)
    ensures var items, idx, results := r.phase.items, r.phase.idx, r.phase.results;
      var m := PromisesFrom(items, idx);
      && 1 <= m
      && (forall j :: 1 <= j < m ==> DriveTimes(mode, r, w, j).routine.co == r.co)
      && DriveTimes(mode, r, w, m) == Resume(mode, r.co, Arr(results + FulfilledFrom(items, idx, w)), w)
    decreases |r.phase.items| - r.phase.idx
  {
    var items, idx, results := r.phase.items, r.phase.idx, r.phase.results;
    var v := Settled(w, items[idx].id).value;
    var k := NextPromise(items, idx + 1);
    JoinMemberArrives(mode, r, w);
    if k < |items| {
      var r1 := Routine(r.co, r.yielded, AwaitJoin(items, k, results + [v]));
      JoinInListOrder(mode, r1, w);
      var m1 := PromisesFrom(items, k);
      forall j | 1 <= j < 1 + m1
        ensures DriveTimes(mode, r, w, j).routine.co == r.co
      {
        if j > 1 {
          DriveTimesFirst(mode, r, w, j - 1);
        }
      }
      DriveTimesFirst(mode, r, w, m1);
      assert results + [v] + FulfilledFrom(items, k, w) == results + ([v] + FulfilledFrom(items, k, w));
    } else {
      JoinLastMember(mode, r, w);
    }
  }

  lemma JoinLastMember(mode: Mode, r: Routine, w: World)
    requires r.phase.AwaitJoin? && !r.yielded.done
    requires r.phase.idx < |r.phase.items| && IsPromise(r.phase.items[r.phase.idx])
    requires Settled(w, r.phase.items[r.phase.idx].id).Some?
    requires NextPromise(r.phase.items, r.phase.idx + 1) == |r.phase.items|
    ensures var items, idx, results := r.phase.items, r.phase.idx, r.phase.results;
      && PromisesFrom(items, idx) == 1
      && DriveTimes(mode, r, w, 1) == Resume(mode, r.co, Arr(results + FulfilledFrom(items, idx, w)), w)
  {
    var items, idx := r.phase.items, r.phase.idx;
    JoinMemberArrives(mode, r, w);
    assert PromisesFrom(items, |items|) == 0 && FulfilledFrom(items, |items|, w) == [];
    assert FulfilledFrom(items, idx, w) == [Settled(w, items[idx].id).value];
  }

  /** One drive of a join whose awaited member is fulfilled: the value is
      pushed, and the wrapper either waits on the next promise member or
      resumes the body with everything collected. */
  lemma {:induction false} JoinMemberArrives(mode: Mode, r: Routine, w: World)
    requires r.phase.AwaitJoin? && !r.yielded.done
    requires r.phase.idx < |r.phase.items| && IsPromise(r.phase.items[r.phase.idx])
    requires Settled(w, r.phase.items[r.phase.idx].id).Some?
    ensures var items, idx, results := r.phase.items, r.phase.idx, r.phase.results;
      var v := Settled(w, items[idx].id).value;
      var k := NextPromise(items, idx + 1);
      && PromisesFrom(items, idx) == 1 + PromisesFrom(items, k)
      && FulfilledFrom(items, idx, w) == [v] + FulfilledFrom(items, k, w)
      && Drive(mode, r, w)
           == if k < |items| then Step(Routine(r.co, r.yielded, AwaitJoin(items, k, results + [v])), w, Suspended)
              else Resume(mode, r.co, Arr(results + [v]), w)
  {
    var items, idx, results := r.phase.items, r.phase.idx, r.phase.results;
    var v := Settled(w, items[idx].id).value;
    var k := NextPromise(items, idx + 1);
    SkipPlainMembers(items, idx + 1, w);
    assert Drive(mode, r, w) == JoinFrom(mode, r.co, r.yielded, items, idx + 1, results + [v], w);
    if k == |items| {
      assert FulfilledFrom(items, k, w) == [];
      assert JoinFrom(mode, r.co, r.yielded, items, idx + 1, results + [v], w)
          == Continue(mode, r.co, r.yielded, Arr(results + [v]), w);
    }
  }

  // ---------------------------------------------------------------------
  // Generator functions: nesting

  /** Intended nesting, while the child has not returned: each drive of the
      parent is exactly one drive of its child, and the parent suspends after
      each of them. */
  lemma {:induction false} ChildInLockstep(p: Routine, w: World, j: nat)
    requires p.phase.AwaitChild? && !p.phase.sub.done && 1 <= j
    requires forall i :: 1 <= i < j ==> !DriveTimes(Intended, p.phase.child, w, i).signal.Returned?
    ensures var c := DriveTimes(Intended, p.phase.child, w, j);
      DriveTimes(Intended, p, w, j)
        == Step(Routine(p.co, p.yielded, AwaitChild(c.routine, Report(c.signal))), c.world, Suspended)
    decreases j
  {
    if j > 1 {
      var c1 := Drive(Intended, p.phase.child, w);
      assert c1 == DriveTimes(Intended, p.phase.child, w, 1);
      var p1 := Routine(p.co, p.yielded, AwaitChild(c1.routine, Report(c1.signal)));
      forall i | 1 <= i < j - 1
        ensures !DriveTimes(Intended, c1.routine, c1.world, i).signal.Returned?
      {
        assert DriveTimes(Intended, c1.routine, c1.world, i) == DriveTimes(Intended, p.phase.child, w, i + 1);
      }
      ChildInLockstep(p1, c1.world, j - 1);
      assert DriveTimes(Intended, c1.routine, c1.world, j - 1) == DriveTimes(Intended, p.phase.child, w, j);
    }
  }

  /** Intended nesting of a plain script `b`: the drive in which the parent
      yields `b` is the child's first drive, the child's remaining
      `|b.steps| + 1` drives are the parent's next ones, and one drive later
      the parent is resumed with the child's return value. */
  lemma {:induction false} NestedScriptTimeline(co: BodyState, input: Value, w: World, b: Body)
    requires Next(co, input, w).yielded == Yielded(GenFn(b), false)
    requires PlainScript(b)
    ensures var n := Next(co, input, w);
      var s := Resume(Intended, co, input, w);
      && s.signal == Suspended && s.routine.co == n.co && s.world == n.world
      && DriveTimes(Intended, s.routine, s.world, |b.steps| + 1).routine.phase.AwaitChild?
      && DriveTimes(Intended, s.routine, s.world, |b.steps| + 1).routine.phase.sub == Yielded(b.ret, true)
      && DriveTimes(Intended, s.routine, s.world, |b.steps| + 2) == Resume(Intended, n.co, b.ret, n.world)
  {
    var n := Next(co, input, w);
    YieldLeavesResumable(co, input, w);
    var child := NewRoutine(User(b));
    PlainScriptTimeline(Intended, b, n.world, 1);
    var c1 := Drive(Intended, child, n.world);
    var s := Resume(Intended, co, input, w);
    assert s == Step(Routine(n.co, n.yielded, AwaitChild(c1.routine, Report(c1.signal))), c1.world, Suspended);
    var j := |b.steps| + 1;
    forall i | 1 <= i < j
      ensures !DriveTimes(Intended, c1.routine, c1.world, i).signal.Returned?
    {
      PlainScriptTimeline(Intended, b, n.world, i + 1);
      assert DriveTimes(Intended, c1.routine, c1.world, i) == DriveTimes(Intended, child, n.world, i + 1);
    }
    ChildInLockstep(s.routine, s.world, j);
    PlainScriptTimeline(Intended, b, n.world, j + 1);
    assert DriveTimes(Intended, c1.routine, c1.world, j) == DriveTimes(Intended, child, n.world, j + 1);
    DriveTimesLast(Intended, s.routine, s.world, j);
  }

  /** As shipped, the nested branch calls an unbound name: the drive in which
      a body yields a generator function throws, and the wrapper is closed. */
  lemma ShippedNestedYieldThrows(co: BodyState, input: Value, w: World)
    requires Next(co, input, w).yielded.value.GenFn?
    ensures Resume(Shipped, co, input, w).signal == Threw
    ensures Resume(Shipped, co, input, w).routine.phase == Closed
    ensures !Resume(Intended, co, input, w).signal.Threw?
  {
  }

  /** The smallest such task: its first drive throws as shipped, and is an
      ordinary suspension with nesting as intended. */
  lemma ShippedNestingExample(w: World)
    ensures var r := NewRoutine(User(Body([GenFn(Body([], Undefined))], Undefined)));
      && Drive(Shipped, r, w).signal == Threw
      && Drive(Intended, r, w).signal == Suspended
  {
  }

  // ---------------------------------------------------------------------
  // Loading bodies

  /** The shapes a wrapped loading body can be in. */
  ghost predicate LoaderRoutine(r: Routine) {
    && r.co.task.Loader?
    && match r.phase
       case Fresh => r.co.pc == 0
       case AwaitOne(_) => r.co.pc == 1 && !r.yielded.done
       case AfterValue(_) => r.co.pc == 2 && r.yielded.done
       case Closed => r.co.pc == 2
       case _ => false
  }

  /** 1 while the loading body has not yet counted its resource. */
  function Uncounted(r: Routine): nat {
    if r.co.pc < 2 then 1 else 0
  }

  /** One drive of a wrapped loading body: it keeps its shape, it counts its
      resource exactly once (at the drive where the body finishes), it
      fetches only a name that is not cached, it stores the fetched value
      under its name, and it is reported done one drive after it counts. */
  lemma {:induction false} LoaderDrive(mode: Mode, r: Routine, w: World)
    requires LoaderRoutine(r)
    ensures var s := Drive(mode, r, w);
      var t := r.co.task;
      && LoaderRoutine(s.routine)
      && s.world.store.loaded + Uncounted(s.routine) == w.store.loaded + Uncounted(r)
      && !s.signal.Threw?
      && (s.signal.Returned? <==> r.phase.AfterValue? || r.phase.Closed?)
      && (s.signal.Returned? ==> Uncounted(s.routine) == 0)
      && (r.phase.Fresh? ==> (|s.world.promises| == |w.promises| <==> t.name in w.store.Cache(t.kind)))
      && (r.phase.AwaitOne? && Settled(w, r.phase.id).Some? ==>
            s.world.store.Cache(t.kind) == w.store.Cache(t.kind)[t.name := Settled(w, r.phase.id).value])
  {
    match r.phase
    case Fresh =>
    case AwaitOne(id) =>
      if Settled(w, id).Some? {
        var v := Settled(w, id).value;
        assert Drive(mode, r, w) == Resume(mode, r.co, v, w);
        var n := Next(r.co, v, w);
        assert n.co.pc == 2 && n.yielded == Yielded(Undefined, true);
        assert Classify(Undefined) == Plain(Undefined);
      }
    case AfterValue(_) =>
    case Closed =>
  }

  /** The first drive of a loading task: a cached name is counted at once
      (and reported done one drive later); otherwise one fetch is issued and
      the task waits on its promise. */
  lemma LoaderFirstDrive(mode: Mode, kind: Kind, name: string, url: string, w: World)
    ensures var t := Loader(kind, name, url);
      var s := Drive(mode, NewRoutine(t), w);
      if name in w.store.Cache(kind) then
        && s.signal == Suspended
        && s.routine == Routine(BodyState(t, 2, []), Yielded(Undefined, true), AfterValue(Undefined))
        && s.world == w.(store := w.store.(loaded := w.store.loaded + 1))
      else
        && s.signal == Suspended
        && s.routine == Routine(BodyState(t, 1, []), Yielded(Prom(|w.promises|), false), AwaitOne(|w.promises|))
        && s.world == w.(promises := w.promises + [Promise(Fetch(kind, url), Pending)])
  {
    var t := Loader(kind, name, url);
    assert Drive(mode, NewRoutine(t), w) == Resume(mode, Start(t), Undefined, w);
    var n := Next(Start(t), Undefined, w);
    if name in w.store.Cache(kind) {
      assert Classify(n.yielded.value) == Plain(Undefined);
    } else {
      assert Classify(n.yielded.value) == Single(|w.promises|);
    }
  }
}
