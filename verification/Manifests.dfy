/**
 The kubectl-apply role and the clean-up of destroy.yml: the manifest file on master0 is the record of what was
 applied, so an unchanged file is never applied again.
 */
module Manifests {
  import opened Wrappers
  import opened KubeToolbox
  import opened Text
  import Answers

  type App = string
  type Content = string

  /** The manifest directory on master0, and what the current cluster has been given. */
  datatype Store = Store(files: map<App, Content>, applied: map<App, Content>)

  /** What became of the apply task, when it was reached: kubectl's answer, or the run was cut off before it. */
  type Attempt = Option<Outcome>

  datatype Item = Item(app: App, content: Content, enabled: bool, attempt: Attempt)

  datatype Action =
    | Apply(item: Item)
    /** A reset of the cluster; `cleaned` tells whether the local directory removal ran and reached master0. */
    | Destroy(cleaned: bool)

  /** The template task reports a change: the file is new or differs. */
  predicate Changes(s: Store, item: Item) {
    item.app !in s.files || s.files[item.app] != item.content
  }

  predicate Succeeded(attempt: Attempt) {
    attempt.Some? && attempt.value.code == 0
  }

  /** The apply task does not fail the run. */
  predicate Reported(attempt: Attempt) {
    attempt.Some? && RunResult(attempt.value).Ok?
  }

  /** The cluster happens to have this very content, although the file says otherwise. */
  predicate AppliedAlready(s: Store, item: Item) {
    item.app in s.applied && s.applied[item.app] == item.content
  }

  function Step(s: Store, a: Action): Store {
    match a
    case Apply(item) =>
      if !item.enabled || !Changes(s, item) then s
      else Store(s.files[item.app := item.content],
                 if Succeeded(item.attempt) then s.applied[item.app := item.content] else s.applied)
    case Destroy(cleaned) => Store(if cleaned then map[] else s.files, map[])
  }

  function Run(s: Store, actions: seq<Action>): Store
    decreases |actions|
  {
    if actions == [] then s else Run(Step(s, actions[0]), actions[1..])
  }

  /** The file of an application says what the current cluster was given. */
  predicate Current(s: Store, app: App) {
    app in s.files ==> app in s.applied && s.applied[app] == s.files[app]
  }

  predicate Coherent(s: Store) {
    forall app :: app in s.files ==> Current(s, app)
  }

  /** The step cannot leave a file behind that the cluster does not have; decidable before the run is trusted. */
  predicate Sound(s: Store, a: Action) {
    match a
    case Apply(item) => !item.enabled || !Changes(s, item) || Succeeded(item.attempt) || AppliedAlready(s, item)
    case Destroy(cleaned) => cleaned || s.files == map[]
  }

  lemma {:induction false} StepCoherentIff(s: Store, a: Action)
    requires Coherent(s)
    ensures Coherent(Step(s, a)) <==> Sound(s, a)
  {
    var t := Step(s, a);
    match a
    case Apply(item) =>
      if !Sound(s, a) {
        assert !Current(t, item.app);
      } else if t != s {
        forall app | app in t.files
          ensures Current(t, app)
        {
          assert app != item.app ==> Current(s, app);
        }
      }
    case Destroy(cleaned) =>
      if !Sound(s, a) {
        var app :| app in s.files;
        assert !Current(t, app);
      }
  }

  predicate AlwaysCoherent(s: Store, actions: seq<Action>)
    decreases |actions|
  {
    Coherent(s) && (actions != [] ==> AlwaysCoherent(Step(s, actions[0]), actions[1..]))
  }

  predicate AlwaysSound(s: Store, actions: seq<Action>)
    decreases |actions|
  {
    actions != [] ==> Sound(s, actions[0]) && AlwaysSound(Step(s, actions[0]), actions[1..])
  }

  /** Over every run, the files tell the truth at every point exactly when every step is sound where it happens. */
  lemma {:induction false} CacheCoherentIff(s: Store, actions: seq<Action>)
    requires Coherent(s)
    ensures AlwaysCoherent(s, actions) <==> AlwaysSound(s, actions)
    decreases |actions|
  {
    if actions != [] {
      StepCoherentIff(s, actions[0]);
      if Sound(s, actions[0]) {
        CacheCoherentIff(Step(s, actions[0]), actions[1..]);
      }
    }
  }

  /** The action neither changes the application's manifest nor cleans the directory. */
  predicate LeavesManifest(a: Action, app: App, content: Content) {
    match a
    case Apply(item) => !item.enabled || item.app != app || item.content == content
    case Destroy(cleaned) => !cleaned
  }

  /**
   A stale file is never repaired by repetition: while the manifest's text stays the same and the directory is not
   cleaned, no sequence of applies and destroys brings the application into the cluster.
   */
  lemma {:induction false} StaleForGood(s: Store, actions: seq<Action>, app: App)
    requires app in s.files && !Current(s, app)
    requires forall i :: 0 <= i < |actions| ==> LeavesManifest(actions[i], app, s.files[app])
    ensures var t := Run(s, actions); app in t.files && t.files[app] == s.files[app] && !Current(t, app)
    decreases |actions|
  {
    if actions != [] {
      assert LeavesManifest(actions[0], app, s.files[app]);
      StaleForGood(Step(s, actions[0]), actions[1..], app);
    }
  }

  /** A cut-off apply, and a destroy whose clean-up runs on another machine, each leave a file that is never applied. */
  lemma {:induction false} BothHypothesesAreNeeded(app: App, content: Content, ok: Outcome, later: seq<Action>)
    requires ok.code == 0
    requires forall i :: 0 <= i < |later| ==> LeavesManifest(later[i], app, content)
    ensures var empty := Store(map[], map[]);
            && !Current(Run(empty, [Apply(Item(app, content, true, None))] + later), app)
            && !Current(Run(empty, [Apply(Item(app, content, true, Some(ok))), Destroy(false)] + later), app)
  {
    var empty := Store(map[], map[]);
    var cut, done := Apply(Item(app, content, true, None)), Apply(Item(app, content, true, Some(ok)));
    assert ([cut] + later)[1..] == later;
    StaleForGood(Step(empty, cut), later, app);
    var run := [done, Destroy(false)] + later;
    assert run[1..] == [Destroy(false)] + later && run[1..][1..] == later;
    StaleForGood(Step(Step(empty, done), Destroy(false)), later, app);
  }

  /** `_run`'s taint exception also hides failed applies: the apply reports success and the file is stale. */
  lemma {:induction false} TaintExceptionHidesFailure(s: Store, item: Item)
    requires item.enabled && Changes(s, item) && item.attempt.Some?
    requires item.attempt.value.code == 1 && Contains(item.attempt.value.stderr, TAINT_EXCEPTION)
    requires !AppliedAlready(s, item)
    ensures Reported(item.attempt) && !Current(Step(s, Apply(item)), item.app)
  {
  }

  // ---- The application loop of a deploy

  datatype Progress = Progress(store: Store, applies: nat, failed: bool)

  /** The loop over `kube_applications`; a failed apply is a failed run-once task and ends it. */
  function ApplyAll(s: Store, items: seq<Item>): Progress {
    if items == [] then Progress(s, 0, false)
    else
      var before := ApplyAll(s, items[..|items| - 1]);
      var item := items[|items| - 1];
      if before.failed || !item.enabled || !Changes(before.store, item) then before
      else Progress(Step(before.store, Apply(item)),
                    if item.attempt.Some? then before.applies + 1 else before.applies,
                    !Reported(item.attempt))
  }

  predicate DistinctApps(items: seq<Item>) {
    forall i, j :: 0 <= i < j < |items| ==> items[i].app != items[j].app
  }

  predicate Delivered(s: Store, item: Item) {
    item.enabled ==> item.app in s.files && s.files[item.app] == item.content
                     && item.app in s.applied && s.applied[item.app] == item.content
  }

  /** From a coherent store, a loop in which kubectl succeeds delivers every enabled application and stays coherent. */
  lemma {:induction false} LoopDelivers(s: Store, items: seq<Item>)
    requires Coherent(s) && DistinctApps(items)
    requires forall i :: 0 <= i < |items| ==> Succeeded(items[i].attempt)
    ensures var p := ApplyAll(s, items);
            && !p.failed && Coherent(p.store)
            && forall i :: 0 <= i < |items| ==> Delivered(p.store, items[i])
  {
    if items != [] {
      var shorter, item := items[..|items| - 1], items[|items| - 1];
      LoopDelivers(s, shorter);
      var before := ApplyAll(s, shorter);
      StepCoherentIff(before.store, Apply(item));
      var p := ApplyAll(s, items);
      assert !item.enabled || Changes(before.store, item) || Current(before.store, item.app);
      forall i | 0 <= i < |items|
        ensures Delivered(p.store, items[i])
      {
        if i < |shorter| {
          assert shorter[i] == items[i] && Delivered(before.store, shorter[i]);
        }
      }
    }
  }

  /** The application stops the loop: its manifest changed, and kubectl failed on it or was cut off. */
  ghost predicate Breaks(s: Store, item: Item) {
    item.enabled && Changes(s, item) && (item.attempt.None? || Answers.Fails(item.attempt.value))
  }

  ghost predicate NoneBreaks(s: Store, items: seq<Item>) {
    forall i :: 0 <= i < |items| ==> !Breaks(s, items[i])
  }

  /** How many applications have a changed manifest. */
  function ToApply(s: Store, items: seq<Item>): nat {
    if items == [] then 0
    else
      var last := items[|items| - 1];
      ToApply(s, items[..|items| - 1]) + if last.enabled && Changes(s, last) then 1 else 0
  }

  predicate SameAt(s: Store, t: Store, app: App) {
    && (app in s.files <==> app in t.files) && (app in s.files ==> s.files[app] == t.files[app])
    && (app in s.applied <==> app in t.applied) && (app in s.applied ==> s.applied[app] == t.applied[app])
  }

  /** Applications that are not in the list are left alone. */
  lemma {:induction false} OthersStay(s: Store, items: seq<Item>, app: App)
    requires forall i :: 0 <= i < |items| ==> items[i].app != app
    ensures SameAt(s, ApplyAll(s, items).store, app)
  {
    if items != [] {
      OthersStay(s, items[..|items| - 1], app);
    }
  }

  lemma {:induction false} ReportedMeans(attempt: Attempt)
    ensures Reported(attempt) <==> attempt.Some? && !Answers.Fails(attempt.value)
  {
    if attempt.Some? {
      Answers.FailsMeans(attempt.value);
    }
  }

  /** The last application after a loop that has not failed. */
  lemma {:induction false} LastItem(s: Store, items: seq<Item>)
    requires items != [] && DistinctApps(items) && !ApplyAll(s, items[..|items| - 1]).failed
    ensures var before, last := ApplyAll(s, items[..|items| - 1]), items[|items| - 1];
            && (Changes(before.store, last) <==> Changes(s, last))
            && (ApplyAll(s, items).failed <==> Breaks(s, last))
  {
    var last := items[|items| - 1];
    OthersStay(s, items[..|items| - 1], last.app);
    ReportedMeans(last.attempt);
  }

  /** The loop fails exactly when some application breaks it; if none does, kubectl applies each changed manifest once. */
  lemma {:induction false} LoopFailsIff(s: Store, items: seq<Item>)
    requires DistinctApps(items)
    ensures ApplyAll(s, items).failed <==> !NoneBreaks(s, items)
    ensures NoneBreaks(s, items) ==> ApplyAll(s, items).applies == ToApply(s, items)
  {
    if items != [] {
      var shorter := items[..|items| - 1];
      LoopFailsIff(s, shorter);
      if NoneBreaks(s, shorter) {
        LastItem(s, items);
        assert NoneBreaks(s, items) <==> !Breaks(s, items[|items| - 1]);
      } else {
        var i :| 0 <= i < |shorter| && Breaks(s, shorter[i]);
        assert Breaks(s, items[i]);
      }
    }
  }

  /** A failed loop has stopped. */
  lemma {:induction false} FailedLoopStops(s: Store, items: seq<Item>, n: nat)
    requires n <= |items| && ApplyAll(s, items[..n]).failed
    ensures ApplyAll(s, items) == ApplyAll(s, items[..n])
    decreases |items|
  {
    if n == |items| {
      assert items[..n] == items;
    } else {
      var shorter := items[..|items| - 1];
      assert shorter[..n] == items[..n];
      FailedLoopStops(s, shorter, n);
    }
  }

  /** The first application that breaks the loop ends it: its file is written, and every later application is left alone. */
  lemma {:induction false} LoopStopsAtFirst(s: Store, items: seq<Item>, k: nat)
    requires DistinctApps(items) && k < |items| && Breaks(s, items[k]) && NoneBreaks(s, items[..k])
    ensures var p, item := ApplyAll(s, items), items[k];
            && p.failed && item.app in p.store.files && p.store.files[item.app] == item.content
            && p.applies == ToApply(s, items[..k]) + (if item.attempt.Some? then 1 else 0)
            && forall j :: k < j < |items| ==> SameAt(s, p.store, items[j].app)
  {
    var upTo := items[..k + 1];
    assert upTo[..|upTo| - 1] == items[..k];
    LoopFailsIff(s, items[..k]);
    LastItem(s, upTo);
    FailedLoopStops(s, items, k + 1);
    forall j | k < j < |items|
      ensures SameAt(s, ApplyAll(s, items).store, items[j].app)
    {
      OthersStay(s, upTo, items[j].app);
    }
  }

  /** Once every enabled application is delivered, the loop applies nothing and cannot fail. */
  lemma {:induction false} DeliveredLoopIsQuiet(s: Store, items: seq<Item>)
    requires forall i :: 0 <= i < |items| ==> Delivered(s, items[i])
    ensures ApplyAll(s, items) == Progress(s, 0, false)
  {
    if items != [] {
      DeliveredLoopIsQuiet(s, items[..|items| - 1]);
    }
  }

  /** Master0 as the role sees it. */
  class ManifestDirectory {
    var files: map<App, Content>
    var applied: map<App, Content>

    function Now(): Store
      reads this
    {
      Store(files, applied)
    }

    constructor ()
      ensures Now() == Store(map[], map[])
    {
      files, applied := map[], map[];
    }

    /** The template task: writes the file and reports whether it changed. */
    method Copy(item: Item) returns (changed: bool)
      modifies this`files
      ensures changed == Changes(old(Now()), item)
      ensures files == old(files)[item.app := item.content]
    {
      changed := item.app !in files || files[item.app] != item.content;
      files := files[item.app := item.content];
    }

    /** One application: copy, then apply if the copy changed something. */
    method ApplyOne(item: Item) returns (failed: bool, attempted: bool)
      modifies this
      ensures Now() == Step(old(Now()), Apply(item))
      ensures attempted == (item.enabled && Changes(old(Now()), item) && item.attempt.Some?)
      ensures failed == (item.enabled && Changes(old(Now()), item) && !Reported(item.attempt))
    {
      failed, attempted := false, false;
      if item.enabled {
        var changed := Copy(item);
        assert !changed ==> files == old(files);
        if changed {
          attempted := item.attempt.Some?;
          if attempted && item.attempt.value.code == 0 {
            applied := applied[item.app := item.content];
          }
          failed := !attempted || RunResult(item.attempt.value).Err?;
        }
      }
    }

    method ApplyApplications(items: seq<Item>) returns (applies: nat, failed: bool)
      modifies this
      ensures Progress(Now(), applies, failed) == ApplyAll(old(Now()), items)
    {
      applies, failed := 0, false;
      for i := 0 to |items|
        invariant Progress(Now(), applies, failed) == ApplyAll(old(Now()), items[..i])
      {
        assert items[..i + 1][..i] == items[..i];
        if !failed {
          var itemFailed, attempted := ApplyOne(items[i]);
          failed := itemFailed;
          if attempted {
            applies := applies + 1;
          }
        }
      }
      assert items[..|items|] == items;
    }

    /** destroy.yml: the cluster goes; the directory is removed on the machine the play runs from. */
    method DestroyCluster(localIsMaster0: bool)
      modifies this
      ensures Now() == Step(old(Now()), Destroy(localIsMaster0))
    {
      applied := map[];
      if localIsMaster0 {
        files := map[];
      }
    }
  }
}
