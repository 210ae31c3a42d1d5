/** `BumbleCoroutines`: the list of wrapped tasks and the pass over it that
    drives each task once and removes the ones that report done. */
module Scheduling {
  import opened Values
  import opened TaskBodies
  import opened Wrapper

  /** The `next()` results of one pass over `ts`, in list order: each task is
      driven in the world the previous one left, and an exception ends the
      pass at the task that threw. */
  function Outcomes(mode: Mode, ts: seq<Routine>, w: World): (os: seq<Step>)
    ensures |os| <= |ts|
    ensures mode == Intended ==> |os| == |ts|
    ensures |os| < |ts| ==> |os| > 0 && os[|os| - 1].signal.Threw?
    ensures forall i :: 0 <= i < |os| - 1 ==> !os[i].signal.Threw?
    decreases |ts|
  {
    if ts == [] then []
    else
      var s := Drive(mode, ts[0], w);
      if s.signal.Threw? then [s] else [s] + Outcomes(mode, ts[1..], s.world)
  }

  /** Task `i` of a pass is driven once, in the world task `i - 1` left. */
  lemma {:induction false} OutcomesInListOrder(mode: Mode, ts: seq<Routine>, w: World, i: nat)
    requires i < |Outcomes(mode, ts, w)|
    ensures var os := Outcomes(mode, ts, w);
      os[i] == Drive(mode, ts[i], if i == 0 then w else os[i - 1].world)
    decreases i
  {
    if i > 0 {
      var s := Drive(mode, ts[0], w);
      var rest := Outcomes(mode, ts[1..], s.world);
      assert Outcomes(mode, ts, w) == [s] + rest;
      OutcomesInListOrder(mode, ts[1..], s.world, i - 1);
      if i > 1 {
        assert rest[i - 2] == Outcomes(mode, ts, w)[i - 1];
      }
    }
  }

  /** The world after a pass: that of the last task driven. */
  function After(os: seq<Step>, w: World): World {
    if os == [] then w else os[|os| - 1].world
  }

  /** The tasks a pass keeps: every driven task that did not report done,
      in its new state. */
  function Survivors(os: seq<Step>): (rs: seq<Routine>)
    ensures |rs| <= |os|
  {
    if os == [] then []
    else (if os[0].signal.Returned? then [] else [os[0].routine]) + Survivors(os[1..])
  }

  lemma {:induction false} SurvivorsAppend(os: seq<Step>, s: Step)
    ensures Survivors(os + [s]) == Survivors(os) + (if s.signal.Returned? then [] else [s.routine])
  {
    if os != [] {
      assert (os + [s])[1..] == os[1..] + [s];
      SurvivorsAppend(os[1..], s);
    }
  }

  /** The positions a pass keeps, independently of `Survivors`. */
  function KeptIndices(os: seq<Step>): (ks: seq<nat>)
    ensures forall j :: 0 <= j < |ks| ==> ks[j] < |os| && !os[ks[j]].signal.Returned?
    ensures forall j, k :: 0 <= j < k < |ks| ==> ks[j] < ks[k]
    ensures forall i :: 0 <= i < |os| && !os[i].signal.Returned? ==> i in ks
  {
    if os == [] then []
    else
      var ks := KeptIndices(os[..|os| - 1]);
      if os[|os| - 1].signal.Returned? then ks else ks + [|os| - 1]
  }

  /** The pass removes exactly the tasks that reported done and keeps the
      others in their relative order. */
  lemma {:induction false} SurvivorsKeepOrder(os: seq<Step>)
    ensures var ks := KeptIndices(os);
      Survivors(os) == seq(|ks|, j requires 0 <= j < |ks| => os[ks[j]].routine)
    decreases |os|
  {
    if os != [] {
      var init := os[..|os| - 1];
      var last := os[|os| - 1];
      assert os == init + [last];
      SurvivorsKeepOrder(init);
      SurvivorsAppend(init, last);
      var ks0 := KeptIndices(init);
      forall j | 0 <= j < |ks0|
        ensures os[ks0[j]] == init[ks0[j]]
      {
      }
    }
  }

  class Coroutines {
    /** Which nested-branch binding the wrapper of this scheduler uses. */
    const mode: Mode
    /** `__coroutines`: the wrapped tasks, in the order they were added. */
    var tasks: seq<Routine>

    constructor(mode: Mode)
      ensures this.mode == mode && tasks == []
    {
      this.mode := mode;
      tasks := [];
    }

    /** `clear()`: drops every task, whatever state it is in. */
    method Clear()
      modifies this
      ensures tasks == []
    {
      tasks := [];
    }

    /** `runCoroutine(f)`: wraps the task and appends it; nothing of it runs
        before the next pass. */
    method RunCoroutine(t: Task)
      modifies this
      ensures tasks == old(tasks) + [NewRoutine(t)]
    {
      tasks := tasks + [NewRoutine(t)];
    }

    /** `update()`: drives each task once, in list order, splicing out each
        one that reports done. An exception from a task leaves that (closed)
        task and those after it in place and escapes; `threw` reports it. */
    method Update(w: World) returns (w': World, threw: bool)
      modifies this
      ensures var os := Outcomes(mode, old(tasks), w);
        && tasks == Survivors(os) + old(tasks)[|os|..]
        && w' == After(os, w)
        && (threw <==> |os| > 0 && os[|os| - 1].signal.Threw?)
    {
      ghost var ts := tasks;
      ghost var done: seq<Step> := [];
      var list := tasks;
      var world := w;
      var i := 0;
      while i < |list|
        invariant PassSoFar(mode, ts, w, done, list, i, world)
        decreases |list| - i
      {
        var s := Advance(mode, list[i], world);
        PassAdvance(mode, ts, w, done, list, i, world, s);
        done := done + [s];
        if s.signal.Threw? {
          tasks := list[i := s.routine];
          return s.world, true;
        }
        if s.signal.Returned? {
          list := list[..i] + list[i + 1..];
        } else {
          list := list[i := s.routine];
          i := i + 1;
        }
        world := s.world;
      }
      PassFinished(mode, ts, w, done, list, i, world);
      tasks := list;
      return world, false;
    }
  }

  /** The state of `update()` after the tasks of `done` were driven: the
      list holds the kept tasks, then those not yet driven; `i` is the index
      of the next one. */
  ghost predicate PassSoFar(mode: Mode, ts: seq<Routine>, w: World, done: seq<Step>,
                            list: seq<Routine>, i: nat, world: World) {
    && |done| <= |ts|
    && list == Survivors(done) + ts[|done|..]
    && i == |Survivors(done)|
    && world == After(done, w)
    && (done == [] || !done[|done| - 1].signal.Threw?)
    && |done| <= |Outcomes(mode, ts, w)| && done == Outcomes(mode, ts, w)[..|done|]
  }

  /** One iteration of `update()`'s loop keeps its account of the pass. */
  lemma PassAdvance(mode: Mode, ts: seq<Routine>, w: World, done: seq<Step>,
                    list: seq<Routine>, i: nat, world: World, s: Step)
    requires PassSoFar(mode, ts, w, done, list, i, world) && i < |list|
    requires s == Drive(mode, list[i], world)
    ensures var done' := done + [s];
      && (s.signal.Threw? ==>
            && done' == Outcomes(mode, ts, w)
            && list[i := s.routine] == Survivors(done') + ts[|done'|..]
            && s.world == After(done', w))
      && (s.signal.Returned? ==> PassSoFar(mode, ts, w, done', list[..i] + list[i + 1..], i, s.world))
      && (s.signal.Suspended? ==> PassSoFar(mode, ts, w, done', list[i := s.routine], i + 1, s.world))
  {
    var surv, rest := Survivors(done), ts[|done|..];
    Splice(list, surv, rest);
    SurvivorsAppend(done, s);
    PassStep(mode, ts, w, done);
    var done' := done + [s];
    assert rest[1..] == ts[|done'|..];
    assert After(done', w) == s.world;
  }

  /** When the loop ends every task has been driven. */
  lemma PassFinished(mode: Mode, ts: seq<Routine>, w: World, done: seq<Step>,
                     list: seq<Routine>, i: nat, world: World)
    requires PassSoFar(mode, ts, w, done, list, i, world) && i >= |list|
    ensures var os := Outcomes(mode, ts, w);
      && done == os
      && list == Survivors(os) + ts[|os|..]
      && world == After(os, w)
      && !(|os| > 0 && os[|os| - 1].signal.Threw?)
  {
    assert ts[|done|..] == [];
  }

  // ---------------------------------------------------------------------
  // What passes preserve

  /** A pass is the first task's drive followed by a pass over the rest. */
  lemma OutcomesCons(mode: Mode, ts: seq<Routine>, w: World)
    requires ts != []
    ensures var s := Drive(mode, ts[0], w);
      Outcomes(mode, ts, w) == if s.signal.Threw? then [s] else [s] + Outcomes(mode, ts[1..], s.world)
  {
  }

  /** The list during a pass is the tasks kept so far followed by those not
      yet driven; `i` is where the next one to drive sits. */
  lemma Splice(list: seq<Routine>, surv: seq<Routine>, rest: seq<Routine>)
    requires list == surv + rest && rest != []
    ensures list[|surv|] == rest[0]
    ensures forall r :: list[|surv| := r] == surv + [r] + rest[1..]
    ensures list[..|surv|] + list[|surv| + 1..] == surv + rest[1..]
  {
    assert list[..|surv|] == surv && list[|surv| + 1..] == rest[1..];
    forall r
      ensures list[|surv| := r] == surv + [r] + rest[1..]
    {
      assert list[|surv| := r] == list[..|surv|] + [r] + list[|surv| + 1..];
    }
  }

  /** One more task of a pass: the loop's account of the pass so far. */
  lemma PassStep(mode: Mode, ts: seq<Routine>, w: World, done: seq<Step>)
    requires |done| < |ts|
    requires |done| <= |Outcomes(mode, ts, w)| && done == Outcomes(mode, ts, w)[..|done|]
    requires done == [] || !done[|done| - 1].signal.Threw?
    ensures var os := Outcomes(mode, ts, w);
      var s := Drive(mode, ts[|done|], After(done, w));
      && |done| < |os| && os[|done|] == s
      && done + [s] == os[..|done| + 1]
      && (s.signal.Threw? ==> |os| == |done| + 1)
  {
    var os := Outcomes(mode, ts, w);
    OutcomesInListOrder(mode, ts, w, |done|);
    if |done| > 0 {
      assert os[|done| - 1] == done[|done| - 1];
    }
    assert os[..|done| + 1] == os[..|done|] + [os[|done|]];
  }

  lemma PassCons(s: Step, os: seq<Step>, ts: seq<Routine>, w: World)
    requires |os| < |ts|
    ensures After([s] + os, w) == After(os, s.world)
    ensures Survivors([s] + os) == (if s.signal.Returned? then [] else [s.routine]) + Survivors(os)
    ensures ts[1 + |os|..] == ts[1..][|os|..]
  {
    assert ([s] + os)[1..] == os;
  }

  ghost predicate AllUser(ts: seq<Routine>) {
    forall i :: 0 <= i < |ts| ==> UserRoutine(ts[i])
  }

  lemma AllUserConcat(a: seq<Routine>, b: seq<Routine>)
    requires AllUser(a) && AllUser(b)
    ensures AllUser(a + b)
  {
    forall i | 0 <= i < |a + b|
      ensures UserRoutine((a + b)[i])
    {
      if i < |a| {
        assert (a + b)[i] == a[i];
      } else {
        assert (a + b)[i] == b[i - |a|];
      }
    }
  }

  /** A pass over user tasks leaves the preloader's store as it was. */
  lemma {:induction false} UserPassKeepsStore(mode: Mode, ts: seq<Routine>, w: World)
    requires AllUser(ts)
    ensures After(Outcomes(mode, ts, w), w).store == w.store
    decreases |ts|
  {
    if ts != [] {
      var s := Drive(mode, ts[0], w);
      OutcomesCons(mode, ts, w);
      assert UserRoutine(ts[0]);
      if !s.signal.Threw? {
        var os' := Outcomes(mode, ts[1..], s.world);
        assert AllUser(ts[1..]);
        UserPassKeepsStore(mode, ts[1..], s.world);
        PassCons(s, os', ts, w);
      }
    }
  }

  /** What a pass over user tasks keeps is user tasks. */
  lemma {:induction false} UserPassKeepsUsers(mode: Mode, ts: seq<Routine>, w: World)
    requires AllUser(ts)
    ensures AllUser(Survivors(Outcomes(mode, ts, w)))
    decreases |ts|
  {
    if ts != [] {
      var s := Drive(mode, ts[0], w);
      OutcomesCons(mode, ts, w);
      assert UserRoutine(ts[0]);
      var kept := if s.signal.Returned? then [] else [s.routine];
      assert AllUser(kept);
      var os' := if s.signal.Threw? then [] else Outcomes(mode, ts[1..], s.world);
      if !s.signal.Threw? {
        assert AllUser(ts[1..]);
        UserPassKeepsUsers(mode, ts[1..], s.world);
      }
      assert Outcomes(mode, ts, w) == [s] + os';
      PassCons(s, os', ts, w);
      AllUserConcat(kept, Survivors(os'));
    }
  }

  ghost predicate AllLoaders(ts: seq<Routine>) {
    forall i :: 0 <= i < |ts| ==> LoaderRoutine(ts[i])
  }

  /** How many loading tasks have not yet counted their resource. */
  function Outstanding(ts: seq<Routine>): nat {
    if ts == [] then 0 else Uncounted(ts[0]) + Outstanding(ts[1..])
  }

  lemma {:induction false} OutstandingConcat(a: seq<Routine>, b: seq<Routine>)
    ensures Outstanding(a + b) == Outstanding(a) + Outstanding(b)
    decreases |a|
  {
    if a == [] {
      assert a + b == b;
    } else {
      assert (a + b)[1..] == a[1..] + b;
      OutstandingConcat(a[1..], b);
    }
  }

  /** A pass over loading tasks counts each resource at most once: the
      loaded counter plus the resources still outstanding is the same before
      and after, and the tasks kept are loading tasks. */
  lemma {:induction false} LoaderPassConserves(mode: Mode, ts: seq<Routine>, w: World)
    requires AllLoaders(ts)
    ensures var os := Outcomes(mode, ts, w);
      && |os| == |ts|
      && After(os, w).store.loaded + Outstanding(Survivors(os)) == w.store.loaded + Outstanding(ts)
      && AllLoaders(Survivors(os))
    decreases |ts|
  {
    if ts != [] {
      var s := Drive(mode, ts[0], w);
      LoaderDrive(mode, ts[0], w);
      OutcomesCons(mode, ts, w);
      assert AllLoaders(ts[1..]);
      LoaderPassConserves(mode, ts[1..], s.world);
      var os' := Outcomes(mode, ts[1..], s.world);
      PassCons(s, os', ts, w);
      var kept := if s.signal.Returned? then [] else [s.routine];
      OutstandingConcat(kept, Survivors(os'));
      assert Outstanding(ts) == Uncounted(ts[0]) + Outstanding(ts[1..]);
      assert Outstanding(kept) == if s.signal.Returned? then 0 else Uncounted(s.routine);
      assert AllLoaders(kept);
    }
  }
}
