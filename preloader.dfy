/** `BumblePreloader`: loads named images, audio and data documents through
    loading tasks on its own scheduler, caches them, and reports progress. */
module Preloading {
  import opened Values
  import opened TaskBodies
  import opened Wrapper
  import opened Scheduling

  /** `BumbleResource(name, url, type)`. */
  datatype Resource = Resource(name: string, url: string, kind: string)

  /** The type string `load` tests for each kind. */
  function TypeName(k: Kind): string {
    match k
    case Image => "image"
    case Audio => "audio"
    case Data => "data"
  }

  /** The kind `load` dispatches to: the one whose type string is `typ`, if
      there is one. */
  function KindOf(typ: string): Option<Kind> {
    if typ == "image" then Some(Image)
    else if typ == "audio" then Some(Audio)
    else if typ == "data" then Some(Data)
    else None
  }

  /** `load` recognises exactly the three type strings, each as its own
      kind. */
  lemma KindOfNames(typ: string)
    ensures KindOf(typ).Some? ==> TypeName(KindOf(typ).value) == typ
    ensures forall k :: TypeName(k) == typ ==> KindOf(typ) == Some(k)
  {
  }

  /** The loading task `load(res)` schedules, if any. */
  function Request(res: Resource): seq<Routine> {
    match KindOf(res.kind)
    case Some(k) => [NewRoutine(Loader(k, res.name, res.url))]
    case None => []
  }

  /** The loading tasks `loadAll(rs)` schedules, in list order. */
  function Requests(rs: seq<Resource>): seq<Routine> {
    if rs == [] then [] else Requests(rs[..|rs| - 1]) + Request(rs[|rs| - 1])
  }

  /** Everything `loadAll` schedules is a fresh loading task whose resource
      is still to be counted. */
  lemma {:induction false} RequestsAreFreshLoads(rs: seq<Resource>)
    ensures |Requests(rs)| <= |rs|
    ensures AllLoaders(Requests(rs)) && Outstanding(Requests(rs)) == |Requests(rs)|
  {
    if rs != [] {
      var init, last := Requests(rs[..|rs| - 1]), Request(rs[|rs| - 1]);
      RequestsAreFreshLoads(rs[..|rs| - 1]);
      assert AllLoaders(last) && Outstanding(last) == |last|;
      AllLoadersConcat(init, last);
      OutstandingConcat(init, last);
    }
  }

  /** `load(res)` schedules one fresh loading task for a known type and
      none for an unknown one. */
  lemma RequestOne(res: Resource)
    ensures |Request(res)| == if KindOf(res.kind).Some? then 1 else 0
    ensures AllLoaders(Request(res)) && Outstanding(Request(res)) == |Request(res)|
  {
  }

  /** The preloader's scheduled tasks, starts and latch after `load` on the
      first `j` resources. */
  ghost predicate LoadedSoFar(tasks0: seq<Routine>, started0: nat, loading0: bool, rs: seq<Resource>, j: nat,
                              tasks: seq<Routine>, started: nat, loading: bool)
    requires j <= |rs|
  {
    var scheduled := Requests(rs[..j]);
    && tasks == tasks0 + scheduled
    && started == started0 + |scheduled|
    && loading == (loading0 || |scheduled| > 0)
  }

  lemma LoadStep(tasks0: seq<Routine>, started0: nat, loading0: bool, rs: seq<Resource>, j: nat,
                 tasks: seq<Routine>, started: nat, loading: bool)
    requires j < |rs| && LoadedSoFar(tasks0, started0, loading0, rs, j, tasks, started, loading)
    ensures LoadedSoFar(tasks0, started0, loading0, rs, j + 1, tasks + Request(rs[j]),
                        started + |Request(rs[j])|, loading || KindOf(rs[j].kind).Some?)
  {
    assert rs[..j + 1][..j] == rs[..j];
    assert Requests(rs[..j + 1]) == Requests(rs[..j]) + Request(rs[j]);
  }

  /** When every type is known, `loadAll` schedules one task per resource,
      task `i` loading resource `i`. */
  lemma {:induction false} RequestsInListOrder(rs: seq<Resource>)
    requires forall i :: 0 <= i < |rs| ==> KindOf(rs[i].kind).Some?
    ensures |Requests(rs)| == |rs|
    ensures forall i :: 0 <= i < |rs| ==>
      Requests(rs)[i] == NewRoutine(Loader(KindOf(rs[i].kind).value, rs[i].name, rs[i].url))
  {
    if rs != [] {
      var init := rs[..|rs| - 1];
      RequestsInListOrder(init);
      forall i | 0 <= i < |rs|
        ensures Requests(rs)[i] == NewRoutine(Loader(KindOf(rs[i].kind).value, rs[i].name, rs[i].url))
      {
        if i < |init| {
          assert Requests(rs)[i] == Requests(init)[i];
          assert init[i] == rs[i];
        }
      }
    }
  }

  /** Resources of unknown type schedule nothing. */
  lemma {:induction false} UnknownTypesIgnored(rs: seq<Resource>)
    requires forall i :: 0 <= i < |rs| ==> KindOf(rs[i].kind).None?
    ensures Requests(rs) == []
  {
    if rs != [] {
      UnknownTypesIgnored(rs[..|rs| - 1]);
    }
  }

  lemma AllLoadersConcat(a: seq<Routine>, b: seq<Routine>)
    requires AllLoaders(a) && AllLoaders(b)
    ensures AllLoaders(a + b)
  {
    forall i | 0 <= i < |a + b|
      ensures LoaderRoutine((a + b)[i])
    {
      if i < |a| {
        assert (a + b)[i] == a[i];
      } else {
        assert (a + b)[i] == b[i - |a|];
      }
    }
  }

  /** The value `progression()` computes, `loaded / started`, as the pair of
      its operands: JavaScript division gives Infinity when only the divisor
      is 0 and NaN when both are. */
  datatype Ratio = Ratio(loaded: nat, started: nat) {
    /** `percentage >= 1.0`; false for NaN. */
    predicate AtLeastOne() {
      if started == 0 then loaded > 0 else loaded >= started
    }
  }

  /** Under the preloader's bookkeeping (`started` is `loaded` plus the loads
      still outstanding) the ratio reaches 1 exactly when some load was
      started and none is outstanding, and it never exceeds 1. */
  lemma LatchExactlyWhenDone(loaded: nat, outstanding: nat)
    ensures Ratio(loaded, loaded + outstanding).AtLeastOne() <==> loaded + outstanding > 0 && outstanding == 0
    ensures loaded <= loaded + outstanding
  {
  }

  class Preloader {
    /** `__routines`: the preloader's own scheduler. */
    const routines: Coroutines
    /** `__loading`: set by every load, cleared only by `progression()`. */
    var loading: bool
    /** `__resourcesStarted`. */
    var started: nat
    /** The three caches and `__resourcesLoaded`, written by loading tasks. */
    var store: Store

    /** Every scheduled task is a loading task, and every started load is
        either counted in `loaded` or still outstanding. */
    ghost predicate Valid()
      reads this, routines
    {
      && AllLoaders(routines.tasks)
      && started == store.loaded + Outstanding(routines.tasks)
      && (loading ==> started > 0)
    }

    constructor(mode: Mode)
      ensures Valid() && fresh(routines) && routines.mode == mode
      ensures !loading && started == 0 && store == EmptyStore && routines.tasks == []
    {
      routines := new Coroutines(mode);
      loading := false;
      started := 0;
      store := EmptyStore;
    }

    /** `progression()`: the ratio, and the latch: `loading` becomes false
        once it reaches 1. */
    method Progression() returns (r: Ratio)
      requires Valid()
      modifies this
      ensures Valid()
      ensures r == Ratio(store.loaded, started)
      ensures loading == (old(loading) && !r.AtLeastOne())
      ensures started == old(started) && store == old(store)
    {
      r := Ratio(store.loaded, started);
      if r.AtLeastOne() {
        loading := false;
      }
    }

    /** `update()`: one pass of the preloader's scheduler over the host's
        promise table and the caches. */
    method Update(promises: seq<Promise>) returns (promises': seq<Promise>)
      requires Valid()
      modifies this, routines
      ensures Valid()
      ensures var w := World(promises, old(store));
        var os := Outcomes(routines.mode, old(routines.tasks), w);
        && routines.tasks == Survivors(os)
        && World(promises', store) == After(os, w)
      ensures loading == old(loading) && started == old(started)
    {
      var w := World(promises, store);
      LoaderPassConserves(routines.mode, routines.tasks, w);
      var w', threw := routines.Update(w);
      assert routines.tasks == Survivors(Outcomes(routines.mode, old(routines.tasks), w));
      store := w'.store;
      promises' := w'.promises;
    }

    /** The common part of `loadImage`, `loadAudio` and `loadData`. */
    method StartLoad(kind: Kind, name: string, url: string)
      requires Valid()
      modifies this, routines
      ensures Valid()
      ensures loading && started == old(started) + 1 && store == old(store)
      ensures routines.tasks == old(routines.tasks) + [NewRoutine(Loader(kind, name, url))]
    {
      loading := true;
      started := started + 1;
      routines.RunCoroutine(Loader(kind, name, url));
      OutstandingConcat(old(routines.tasks), [NewRoutine(Loader(kind, name, url))]);
      AllLoadersConcat(old(routines.tasks), [NewRoutine(Loader(kind, name, url))]);
    }

    method LoadImage(name: string, url: string)
      requires Valid()
      modifies this, routines
      ensures Valid()
      ensures loading && started == old(started) + 1 && store == old(store)
      ensures routines.tasks == old(routines.tasks) + [NewRoutine(Loader(Image, name, url))]
    {
      StartLoad(Image, name, url);
    }

    method LoadAudio(name: string, url: string)
      requires Valid()
      modifies this, routines
      ensures Valid()
      ensures loading && started == old(started) + 1 && store == old(store)
      ensures routines.tasks == old(routines.tasks) + [NewRoutine(Loader(Audio, name, url))]
    {
      StartLoad(Audio, name, url);
    }

    method LoadData(name: string, url: string)
      requires Valid()
      modifies this, routines
      ensures Valid()
      ensures loading && started == old(started) + 1 && store == old(store)
      ensures routines.tasks == old(routines.tasks) + [NewRoutine(Loader(Data, name, url))]
    {
      StartLoad(Data, name, url);
    }

    /** `load(res)`: dispatch on the type string; an unknown type changes
        nothing. */
    method Load(res: Resource)
      requires Valid()
      modifies this, routines
      ensures Valid()
      ensures routines.tasks == old(routines.tasks) + Request(res)
      ensures started == old(started) + |Request(res)| && store == old(store)
      ensures loading == (old(loading) || KindOf(res.kind).Some?)
    {
      if res.kind == "image" {
        LoadImage(res.name, res.url);
      } else if res.kind == "audio" {
        LoadAudio(res.name, res.url);
      } else if res.kind == "data" {
        LoadData(res.name, res.url);
      }
    }

    /** `loadAll(rs)`: `load` on each resource, in list order. */
    method LoadAll(rs: seq<Resource>)
      requires Valid()
      modifies this, routines
      ensures Valid()
      ensures routines.tasks == old(routines.tasks) + Requests(rs)
      ensures started == old(started) + |Requests(rs)| && store == old(store)
      ensures loading == (old(loading) || |Requests(rs)| > 0)
    {
      ghost var tasks0, started0, loading0 := routines.tasks, started, loading;
      for j := 0 to |rs|
        invariant Valid() && store == old(store)
        invariant LoadedSoFar(tasks0, started0, loading0, rs, j, routines.tasks, started, loading)
      {
        ghost var tasks, started', loading' := routines.tasks, started, loading;
        Load(rs[j]);
        LoadStep(tasks0, started0, loading0, rs, j, tasks, started', loading');
      }
      assert rs[..|rs|] == rs;
    }

    /** `getImage(name)`: the cached value, or null. */
    function GetImage(name: string): (v: Value)
      reads this
      ensures name in store.images ==> v == store.images[name]
      ensures name !in store.images ==> v == Null
    {
      Lookup(store.images, name)
    }

    function GetAudio(name: string): (v: Value)
      reads this
      ensures name in store.audios ==> v == store.audios[name]
      ensures name !in store.audios ==> v == Null
    {
      Lookup(store.audios, name)
    }

    function GetData(name: string): (v: Value)
      reads this
      ensures name in store.datas ==> v == store.datas[name]
      ensures name !in store.datas ==> v == Null
    {
      Lookup(store.datas, name)
    }

    /** `clearImages()`: empties the image cache; counters and scheduled
        loads are untouched, so a load still in flight fills it again. */
    method ClearImages()
      requires Valid()
      modifies this
      ensures Valid()
      ensures store == old(store).(images := map[])
      ensures forall name :: GetImage(name) == Null
      ensures loading == old(loading) && started == old(started)
    {
      store := store.(images := map[]);
    }

    method ClearAudios()
      requires Valid()
      modifies this
      ensures Valid()
      ensures store == old(store).(audios := map[])
      ensures forall name :: GetAudio(name) == Null
      ensures loading == old(loading) && started == old(started)
    {
      store := store.(audios := map[]);
    }

    method ClearDatas()
      requires Valid()
      modifies this
      ensures Valid()
      ensures store == old(store).(datas := map[])
      ensures forall name :: GetData(name) == Null
      ensures loading == old(loading) && started == old(started)
    {
      store := store.(datas := map[]);
    }

    /** `clearAll()`: the three clears in turn. */
    method ClearAll()
      requires Valid()
      modifies this
      ensures Valid()
      ensures store == Store(map[], map[], map[], old(store).loaded)
      ensures forall name :: GetImage(name) == Null && GetAudio(name) == Null && GetData(name) == Null
      ensures loading == old(loading) && started == old(started)
    {
      ClearImages();
      ClearAudios();
      ClearDatas();
    }
  }

  // ---------------------------------------------------------------------
  // Loading tasks on the scheduler

  /** Two loads of the same uncached name, scheduled before either task has
      run: the cache test happens at each task's first step, so both fetch. */
  lemma DuplicateLoadsBothFetch(mode: Mode, kind: Kind, name: string, url1: string, url2: string, w: World)
    requires name !in w.store.Cache(kind)
    ensures var ts := [NewRoutine(Loader(kind, name, url1)), NewRoutine(Loader(kind, name, url2))];
      var os := Outcomes(mode, ts, w);
      && |os| == 2
      && os[0].routine.phase == AwaitOne(|w.promises|)
      && os[1].routine.phase == AwaitOne(|w.promises| + 1)
      && After(os, w) == w.(promises := w.promises + [Promise(Fetch(kind, url1), Pending), Promise(Fetch(kind, url2), Pending)])
  {
    var ts := [NewRoutine(Loader(kind, name, url1)), NewRoutine(Loader(kind, name, url2))];
    var s0 := Drive(mode, ts[0], w);
    LoaderFirstDrive(mode, kind, name, url1, w);
    var s1 := Drive(mode, ts[1], s0.world);
    LoaderFirstDrive(mode, kind, name, url2, s0.world);
    OutcomesCons(mode, ts, w);
    OutcomesCons(mode, ts[1..], s0.world);
    assert Outcomes(mode, ts, w) == [s0, s1];
  }

  /** A fetch the host rejects (or never fulfils) keeps its task scheduled
      and its resource outstanding on every later pass, so the preloader's
      ratio never reaches 1 and `loading` stays latched. */
  lemma StarvedLoadKeepsLoading(mode: Mode, r: Routine, w: World, n: nat)
    requires LoaderRoutine(r) && r.phase.AwaitOne? && Settled(w, r.phase.id).None?
    ensures DriveTimes(mode, r, w, n) == Step(r, w, Suspended)
    ensures Uncounted(r) == 1
  {
    UnsettledPromiseHangs(mode, r, w, n);
  }
}
