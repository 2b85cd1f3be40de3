/** Whole deploys in a row: a second one finds nothing to do, and after any run of them and of destroys the next reaches its goal. */
module SiteRuns {
  import opened KubeToolbox
  import opened Reconcile
  import opened Safety
  import opened Convergence
  import Site
  import Manifests

  // ---- A second run

  /** Everything a batch would do is done. */
  ghost predicate Done(s: Site.State, plan: Site.Plan, b: Batch, rt: Host -> Runtime) {
    && Settled(s.cluster, plan.cfg, rt) && !TaintsRaise(s.cluster.nodes.Keys, b.lead, plan.cfg)
    && UntaintedFor(s.cluster, b.lead, plan.cfg) && Site.AllDelivered(s, plan)
    && Site.SoundListing(plan.listing) && forall h :: h in Elements(b.masterOrder) ==> Site.HasImages(s.images, plan, h)
  }

  predicate NothingPulled(pulls: seq<map<Host, seq<string>>>) {
    forall i, h :: 0 <= i < |pulls| && h in pulls[i] ==> pulls[i][h] == []
  }

  lemma {:induction false} DoneBatchIsQuiet(s: Site.State, plan: Site.Plan, b: Batch, rt: Host -> Runtime, m0: Host)
    requires Fits(plan.cfg, rt, m0) && Steady(s.cluster, rt, m0) && ValidBatch(b) && Healthy(b.info)
    requires !Site.PrecheckFails(plan) && Done(s, plan, b, rt)
    ensures var o := Site.BatchDeployed(s, plan, b);
            o.state == s && o.applies == 0 && !o.failed && NothingPulled(o.pulls)
  {
    QuietRun(Start(s.cluster), BatchOps(b), plan.cfg, rt, m0);
    SteadyBatchOutcome(Start(s.cluster), b, plan.cfg, rt, m0);
    Site.NothingIsPulled(s.images, plan, Elements(b.masterOrder));
    Manifests.DeliveredLoopIsQuiet(s.manifests, plan.items);
  }

  lemma {:induction false} DoneIsQuiet(s: Site.State, plan: Site.Plan, batches: seq<Batch>, rt: Host -> Runtime, m0: Host)
    requires Fits(plan.cfg, rt, m0) && Steady(s.cluster, rt, m0) && ValidBatches(batches) && HealthyBatches(batches)
    requires !Site.PrecheckFails(plan) && forall i :: 0 <= i < |batches| ==> Done(s, plan, batches[i], rt)
    ensures var o := Site.Deployed(s, plan, batches);
            o.state == s && o.applies == 0 && !o.failed && NothingPulled(o.pulls)
    decreases |batches|
  {
    if batches != [] {
      DoneBatchIsQuiet(s, plan, batches[0], rt, m0);
      DoneIsQuiet(s, plan, batches[1..], rt, m0);
    }
  }

  /** Either every batch is led by localhost, or none is. */
  predicate AlikeLeads(batches: seq<Batch>) {
    forall i, j :: 0 <= i < |batches| && 0 <= j < |batches| ==> (batches[i].lead == LOCALHOST <==> batches[j].lead == LOCALHOST)
  }

  lemma {:induction false} HostsOfBatch(batches: seq<Batch>, i: nat)
    requires i < |batches|
    ensures Elements(batches[i].masterOrder) <= BatchHosts(batches)
  {
    if i > 0 {
      HostsOfBatch(batches[1..], i - 1);
    }
  }

  /** A run that did not fail leaves no batch a taint target it does not know. */
  lemma {:induction false} NoneRaises(nodes: set<Host>, more: set<Host>, cfg: Config, batches: seq<Batch>, i: nat)
    requires cfg.inventory.Masters() != [] && i < |batches| && !SerialRaises(nodes, cfg, batches)
    requires nodes + {cfg.inventory.Master0()} + Wanted(cfg) * BatchHosts(batches) <= more
    ensures !TaintsRaise(more, batches[i].lead, cfg)
    decreases |batches|
  {
    var b, rest := batches[0], batches[1..];
    if b.lead != LOCALHOST || rest == [] {
      FirstDecides(nodes, cfg, batches);
    } else {
      var next := nodes + {cfg.inventory.Master0()} + Wanted(cfg) * Elements(b.masterOrder);
      SkipLocal(nodes, next, cfg, batches);
      if i > 0 {
        NoneRaises(next, more, cfg, rest, i - 1);
      }
    }
  }

  /**
   Idempotence of the whole role: after a run that did not fail, the same run again changes no part of the state,
   pulls nothing, applies nothing, and does not fail.
   */
  lemma {:induction false} SecondRunHasNothingToDo(s: Site.State, plan: Site.Plan, rt: Host -> Runtime, m0: Host)
    requires Site.Ready(plan, rt, m0) && Site.Consistent(s, rt, m0) && ValidBatches(plan.batches) && plan.batches != []
    requires HealthyBatches(plan.batches) && BatchHosts(plan.batches) == plan.cfg.inventory.Hosts() && AlikeLeads(plan.batches)
    requires !Site.Deployed(s, plan, plan.batches).failed
    ensures var once := Site.Deployed(s, plan, plan.batches).state;
            var again := Site.Deployed(once, plan, plan.batches);
            again.state == once && again.applies == 0 && !again.failed && NothingPulled(again.pulls)
  {
    var once, batches, cfg := Site.Deployed(s, plan, plan.batches).state, plan.batches, plan.cfg;
    Site.DeployReachesGoal(s, plan, rt, m0);
    assert Wanted(cfg) <= cfg.inventory.Hosts();
    forall i | 0 <= i < |batches|
      ensures Done(once, plan, batches[i], rt)
    {
      HostsOfBatch(batches, i);
      NoneRaises(s.cluster.nodes.Keys, once.cluster.nodes.Keys, cfg, batches, i);
      assert batches[i].lead == LOCALHOST <==> batches[|batches| - 1].lead == LOCALHOST;
    }
    DoneIsQuiet(once, plan, batches, rt, m0);
  }

  // ---- Batches led by localhost and others

  /** The nodes that carry control labels after a run over these batches. */
  function Marks(nodes: set<Host>, marked: set<Host>, cfg: Config, batches: seq<Batch>): set<Host>
    requires cfg.inventory.Masters() != []
    decreases |batches|
  {
    if batches == [] then marked
    else
      var b := batches[0];
      var next := nodes + {cfg.inventory.Master0()} + Wanted(cfg) * Elements(b.masterOrder);
      Marks(next, MarksStep(nodes, marked, cfg, b), cfg, batches[1..])
  }

  predicate SomeLocal(batches: seq<Batch>) {
    exists i :: 0 <= i < |batches| && batches[i].lead == LOCALHOST
  }

  lemma {:induction false} BatchesMark(s: Site.State, plan: Site.Plan, batches: seq<Batch>, rt: Host -> Runtime, m0: Host)
    requires Site.Ready(plan, rt, m0) && Site.Consistent(s, rt, m0) && TaintsOnNodes(s.cluster)
    requires ValidBatches(batches) && HealthyBatches(batches) && !Site.Deployed(s, plan, batches).failed
    ensures var c := Site.Deployed(s, plan, batches).state.cluster;
            && TaintsOnNodes(c)
            && Marked(c, plan.cfg) == Marks(s.cluster.nodes.Keys, Marked(s.cluster, plan.cfg), plan.cfg, batches)
    decreases |batches|
  {
    if batches != [] {
      Site.BatchReaches(s, plan, batches[0], rt, m0);
      BatchMarks(Start(s.cluster), batches[0], plan.cfg, rt, m0);
      BatchesMark(Site.BatchDeployed(s, plan, batches[0]).state, plan, batches[1..], rt, m0);
    }
  }

  /** Everything a batch would do is done, but for taints. */
  ghost predicate DoneButTaints(s: Site.State, plan: Site.Plan, b: Batch, rt: Host -> Runtime) {
    && Settled(s.cluster, plan.cfg, rt) && !TaintsRaise(s.cluster.nodes.Keys, b.lead, plan.cfg) && Site.AllDelivered(s, plan)
    && Site.SoundListing(plan.listing) && forall h :: h in Elements(b.masterOrder) ==> Site.HasImages(s.images, plan, h)
  }

  /** Such a batch only removes taints. */
  function Cleared(c: Cluster, cfg: Config, lead: Host): Cluster {
    RemoveTaintsTask(Start(c), lead, cfg).cluster
  }

  lemma {:induction false} QuietBatch(c: Cluster, cfg: Config, b: Batch, rt: Host -> Runtime, m0: Host)
    requires Fits(cfg, rt, m0) && Settled(c, cfg, rt) && Healthy(b.info)
    ensures var q := DoAll(Start(c), BatchOps(b), cfg);
            q.cluster == Cleared(c, cfg, b.lead) && q.failed == TaintsRaise(c.nodes.Keys, b.lead, cfg)
  {
    var front, last := [Init(b.info), Gather] + MasterJoins(b.masterOrder) + WorkerJoins(b.workerOrder), RemoveTaints(b.lead);
    assert BatchOps(b) == front + [last];
    forall i | 0 <= i < |front|
      ensures !front[i].RemoveTaints? && (front[i].Init? ==> Healthy(front[i].info))
    {
    }
    QuietRun(Start(c), front, cfg, rt, m0);
    NeverFails(Start(c), front, cfg, rt, m0);
    DoAllAppend(Start(c), front, [last], cfg);
    assert [last][1..] == [];
    var q := DoAll(Start(c), front, cfg);
    assert DoAll(q, [last], cfg) == Do(q, last, cfg);
  }

  /** Steps other than taint tasks do not fail a run on a settled cluster. */
  lemma {:induction false} NeverFails(p: Play, ops: seq<Op>, cfg: Config, rt: Host -> Runtime, m0: Host)
    requires Fits(cfg, rt, m0) && Settled(p.cluster, cfg, rt) && !p.failed && QuietOps(ops)
    requires p.update == NO_UPDATE || p.update == Missing(p.cluster, cfg.inventory)
    requires forall i :: 0 <= i < |ops| ==> !ops[i].RemoveTaints?
    ensures !DoAll(p, ops, cfg).failed
    decreases |ops|
  {
    if ops != [] {
      SettledWantsNothing(p.cluster, ops[0], cfg, rt, m0);
      var q := Do(p, ops[0], cfg);
      if ops[0].Init? {
        InitThroughText(p, cfg, ops[0].info);
      }
      assert q.cluster == p.cluster && !q.failed;
      NeverFails(q, ops[1..], cfg, rt, m0);
    }
  }

  lemma {:induction false} ClearedMarks(c: Cluster, cfg: Config, lead: Host)
    requires TaintsOnNodes(c) && Marked(c, cfg) * cfg.inventory.TaintTargets() == {}
    ensures var d := Cleared(c, cfg, lead);
            && d == c.(taints := d.taints) && d.taints <= c.taints && TaintsOnNodes(d)
            && Marked(d, cfg) == (if lead == LOCALHOST then {} else Marked(c, cfg))
            && (d == c <==> lead != LOCALHOST || Marked(c, cfg) == {})
  {
    var d := Cleared(c, cfg, lead);
    TaintTaskMarks(Start(c), lead, cfg);
    forall t | t in c.taints && t !in d.taints
      ensures lead == LOCALHOST && t.0 in Marked(c, cfg)
    {
      assert t.0 in Marked(c, cfg);
      assert lead != LOCALHOST ==> t.0 in Marked(c, cfg) * cfg.inventory.TaintTargets();
    }
    if lead == LOCALHOST && Marked(c, cfg) != {} {
      var h :| h in Marked(c, cfg);
      var t :| t in c.taints && t.0 in c.nodes && t.1 in cfg.labels && t.0 == h;
      assert t !in d.taints;
    }
  }

  lemma {:induction false} DoneBatchClears(s: Site.State, plan: Site.Plan, b: Batch, rt: Host -> Runtime, m0: Host)
    requires Fits(plan.cfg, rt, m0) && ValidBatch(b) && Healthy(b.info) && !Site.PrecheckFails(plan) && DoneButTaints(s, plan, b, rt)
    ensures var o := Site.BatchDeployed(s, plan, b);
            && o.state == s.(cluster := Cleared(s.cluster, plan.cfg, b.lead))
            && o.applies == 0 && !o.failed && NothingPulled(o.pulls)
  {
    QuietBatch(s.cluster, plan.cfg, b, rt, m0);
    Site.NothingIsPulled(s.images, plan, Elements(b.masterOrder));
    Manifests.DeliveredLoopIsQuiet(s.manifests, plan.items);
  }

  /** A whole second run only removes taints, and none exactly when no batch is led by localhost or no node is marked. */
  lemma {:induction false} DoneClears(s: Site.State, plan: Site.Plan, batches: seq<Batch>, rt: Host -> Runtime, m0: Host)
    requires Fits(plan.cfg, rt, m0) && ValidBatches(batches) && HealthyBatches(batches) && !Site.PrecheckFails(plan)
    requires TaintsOnNodes(s.cluster) && Marked(s.cluster, plan.cfg) * plan.cfg.inventory.TaintTargets() == {}
    requires forall i :: 0 <= i < |batches| ==> DoneButTaints(s, plan, batches[i], rt)
    ensures var o := Site.Deployed(s, plan, batches);
            && o.applies == 0 && !o.failed && NothingPulled(o.pulls)
            && o.state == s.(cluster := s.cluster.(taints := o.state.cluster.taints)) && o.state.cluster.taints <= s.cluster.taints
            && (o.state == s <==> !SomeLocal(batches) || Marked(s.cluster, plan.cfg) == {})
    decreases |batches|
  {
    if batches != [] {
      var b, rest := batches[0], batches[1..];
      var next := s.(cluster := Cleared(s.cluster, plan.cfg, b.lead));
      DoneBatchClears(s, plan, b, rt, m0);
      ClearedMarks(s.cluster, plan.cfg, b.lead);
      forall i | 0 <= i < |rest|
        ensures DoneButTaints(next, plan, rest[i], rt)
      {
        assert DoneButTaints(s, plan, batches[i + 1], rt);
      }
      DoneClears(next, plan, rest, rt, m0);
      LocalStep(batches);
    }
  }

  lemma {:induction false} LocalStep(batches: seq<Batch>)
    requires batches != []
    ensures SomeLocal(batches) <==> batches[0].lead == LOCALHOST || SomeLocal(batches[1..])
  {
    if i :| 0 <= i < |batches[1..]| && batches[1..][i].lead == LOCALHOST {
      assert batches[i + 1].lead == LOCALHOST;
    }
    if i :| 0 <= i < |batches| && batches[i].lead == LOCALHOST {
      assert i > 0 ==> batches[1..][i - 1].lead == LOCALHOST;
    }
  }

  /** The last batch leaves no target of a remote taint task marked. */
  lemma {:induction false} NoTargetMarked(nodes: set<Host>, marked: set<Host>, cfg: Config, batches: seq<Batch>)
    requires cfg.inventory.Masters() != [] && batches != []
    ensures Marks(nodes, marked, cfg, batches) * cfg.inventory.TaintTargets() == {}
    decreases |batches|
  {
    var b := batches[0];
    if |batches| > 1 {
      var next := nodes + {cfg.inventory.Master0()} + Wanted(cfg) * Elements(b.masterOrder);
      NoTargetMarked(next, MarksStep(nodes, marked, cfg, b), cfg, batches[1..]);
    } else {
      assert batches[1..] == [];
    }
  }

  /**
   The same for any mix of batches: the second run can only remove taints, and it removes some if and only if a batch is
   led by localhost and the first run leaves a node with a control label: a master that a later batch added.
   */
  lemma {:induction false} SecondRunChangesTaintsIff(s: Site.State, plan: Site.Plan, rt: Host -> Runtime, m0: Host)
    requires Site.Ready(plan, rt, m0) && Site.Consistent(s, rt, m0) && TaintsOnNodes(s.cluster)
    requires ValidBatches(plan.batches) && plan.batches != [] && HealthyBatches(plan.batches)
    requires BatchHosts(plan.batches) == plan.cfg.inventory.Hosts() && !Site.Deployed(s, plan, plan.batches).failed
    ensures var once := Site.Deployed(s, plan, plan.batches).state;
            var again := Site.Deployed(once, plan, plan.batches);
            && again.applies == 0 && !again.failed && NothingPulled(again.pulls)
            && again.state == once.(cluster := once.cluster.(taints := again.state.cluster.taints))
            && (again.state == once <==>
                !SomeLocal(plan.batches)
                || Marks(s.cluster.nodes.Keys, Marked(s.cluster, plan.cfg), plan.cfg, plan.batches) == {})
  {
    var once, batches, cfg := Site.Deployed(s, plan, plan.batches).state, plan.batches, plan.cfg;
    Site.DeployReachesGoal(s, plan, rt, m0);
    BatchesMark(s, plan, batches, rt, m0);
    NoTargetMarked(s.cluster.nodes.Keys, Marked(s.cluster, cfg), cfg, batches);
    assert Wanted(cfg) <= cfg.inventory.Hosts();
    forall i | 0 <= i < |batches|
      ensures DoneButTaints(once, plan, batches[i], rt)
    {
      HostsOfBatch(batches, i);
      NoneRaises(s.cluster.nodes.Keys, once.cluster.nodes.Keys, cfg, batches, i);
    }
    DoneClears(once, plan, batches, rt, m0);
  }

  // ---- Runs

  /** A deploy, or a destroy whose clean-up reaches master0 or does not. */
  datatype Action = Deploying(plan: Site.Plan) | Destroying(inventory: Inventory, order: seq<Host>, cleaned: bool)
  {
    function Inv(): Inventory {
      match this
      case Deploying(plan) => plan.cfg.inventory
      case Destroying(inventory, _, _) => inventory
    }
  }

  function Act(s: Site.State, a: Action): Site.State
    requires a.Inv().Masters() != []
  {
    match a
    case Deploying(plan) => Site.Deployed(s, plan, plan.batches).state
    case Destroying(inventory, order, cleaned) =>
      var gone := Manifests.Step(s.manifests, Manifests.Destroy(cleaned));
      var manifests := if inventory.Master0() in order then gone else gone.(applied := s.manifests.applied);
      Site.State(ResetAll(s.cluster, order, inventory.Master0()), s.images, manifests)
  }

  predicate Runnable(run: seq<Action>) {
    forall i :: 0 <= i < |run| ==> run[i].Inv().Masters() != []
  }

  function Execute(s: Site.State, run: seq<Action>): Site.State
    requires Runnable(run)
  {
    if run == [] then s else Act(Execute(s, run[..|run| - 1]), run[|run| - 1])
  }

  /** Deploys that may fail and stop, on inventories that grow, and destroys that reset every host and clean up. */
  predicate CleanRun(run: seq<Action>, rt: Host -> Runtime, m0: Host) {
    && Runnable(run)
    && (forall i :: 0 <= i < |run| ==> CleanAction(run[i], rt, m0))
    && forall i :: 0 < i < |run| ==> run[i - 1].Inv().Hosts() <= run[i].Inv().Hosts()
  }

  predicate CleanAction(a: Action, rt: Host -> Runtime, m0: Host)
    requires a.Inv().Masters() != []
  {
    match a
    case Deploying(plan) => Site.Ready(plan, rt, m0) && ValidBatches(plan.batches)
    case Destroying(inventory, order, cleaned) =>
      inventory.Master0() == m0 && Elements(order) == inventory.Hosts() && cleaned
  }

  /** What clean runs keep. */
  ghost predicate Kept(s: Site.State, rt: Host -> Runtime, m0: Host, inv: Inventory) {
    && Safe(s.cluster, rt, m0, inv) && Manifests.Coherent(s.manifests)
    && (!s.cluster.adminConf ==> s.manifests.applied == map[])
  }

  lemma {:induction false} BatchKeeps(s: Site.State, plan: Site.Plan, b: Batch, rt: Host -> Runtime, m0: Host)
    requires Site.Ready(plan, rt, m0) && Kept(s, rt, m0, plan.cfg.inventory) && ValidBatch(b)
    ensures Kept(Site.BatchDeployed(s, plan, b).state, rt, m0, plan.cfg.inventory)
  {
    var p := Start(s.cluster);
    BatchIsPlanned(b);
    OpsAreSafe(p, BatchOps(b), plan.cfg, rt, m0);
    AdminConfAfter(p, b, plan.cfg);
    Manifests.LoopDelivers(s.manifests, plan.items);
  }

  /** A batch never loses the cluster, and if it does not fail there is one. */
  lemma {:induction false} AdminConfAfter(p: Play, b: Batch, cfg: Config)
    requires cfg.inventory.Masters() != []
    ensures var q := DoAll(p, BatchOps(b), cfg); (p.cluster.adminConf || !q.failed) ==> q.cluster.adminConf
  {
    var q := Do(Do(p, Init(b.info), cfg), Gather, cfg);
    var ops := BatchOps(b);
    assert ops[0] == Init(b.info) && ops[1..][0] == Gather && ops[1..][1..] == ops[2..];
    assert DoAll(p, ops, cfg) == DoAll(Do(p, Init(b.info), cfg), ops[1..], cfg) == DoAll(q, ops[2..], cfg);
    OpsKeepAdminConf(q, ops[2..], cfg);
  }

  lemma {:induction false} OpsKeepAdminConf(p: Play, ops: seq<Op>, cfg: Config)
    requires cfg.inventory.Masters() != []
    ensures var q := DoAll(p, ops, cfg); (p.cluster.adminConf ==> q.cluster.adminConf) && (p.failed ==> q.failed)
    decreases |ops|
  {
    if ops != [] {
      OpsKeepAdminConf(Do(p, ops[0], cfg), ops[1..], cfg);
    }
  }

  lemma {:induction false} DeployKeeps(s: Site.State, plan: Site.Plan, batches: seq<Batch>, rt: Host -> Runtime, m0: Host)
    requires Site.Ready(plan, rt, m0) && Kept(s, rt, m0, plan.cfg.inventory) && ValidBatches(batches)
    ensures Kept(Site.Deployed(s, plan, batches).state, rt, m0, plan.cfg.inventory)
    decreases |batches|
  {
    if batches != [] {
      BatchKeeps(s, plan, batches[0], rt, m0);
      DeployKeeps(Site.BatchDeployed(s, plan, batches[0]).state, plan, batches[1..], rt, m0);
    }
  }

  lemma {:induction false} DestroyKeeps(s: Site.State, a: Action, rt: Host -> Runtime, m0: Host)
    requires a.Destroying? && a.Inv().Masters() != [] && CleanAction(a, rt, m0) && Kept(s, rt, m0, a.Inv())
    ensures Kept(Act(s, a), rt, m0, a.Inv())
  {
    assert m0 in Elements(a.inventory.Masters()) && m0 in a.inventory.Hosts();
    DestroyIsSafe(s.cluster, a.order, rt, m0, a.inventory);
  }

  lemma {:induction false} CleanRunsKeep(run: seq<Action>, rt: Host -> Runtime, m0: Host)
    requires run != [] && CleanRun(run, rt, m0)
    ensures Kept(Execute(Site.NOTHING, run), rt, m0, run[|run| - 1].Inv())
    decreases |run|
  {
    var last, before := run[|run| - 1], run[..|run| - 1];
    var s := Execute(Site.NOTHING, before);
    if before == [] {
      assert s == Site.NOTHING;
    } else {
      CleanRunsKeep(before, rt, m0);
      WiderInventory(s.cluster, rt, m0, before[|before| - 1].Inv(), last.Inv());
    }
    assert Kept(s, rt, m0, last.Inv());
    match last
    case Deploying(plan) => DeployKeeps(s, plan, plan.batches, rt, m0);
    case Destroying(_, _, _) => DestroyKeeps(s, last, rt, m0);
  }

  /** After every clean run, failed deploys included, the next deploy over all hosts reaches its goal. */
  lemma {:induction false} DeployReachesGoalAfterAnyRun(run: seq<Action>, plan: Site.Plan, rt: Host -> Runtime, m0: Host)
    requires CleanRun(run, rt, m0) && Site.Ready(plan, rt, m0) && ValidBatches(plan.batches) && plan.batches != []
    requires HealthyBatches(plan.batches) && BatchHosts(plan.batches) == plan.cfg.inventory.Hosts()
    ensures var s := Execute(Site.NOTHING, run);
            var o := Site.Deployed(s, plan, plan.batches);
            && (o.failed <==> (plan.cfg.isHa && plan.vip == "") || SerialRaises(s.cluster.nodes.Keys, plan.cfg, plan.batches))
            && (!o.failed ==> Site.Reached(s.cluster.nodes.Keys, o.state, plan, plan.batches, rt, m0)
                              && Site.AllHaveImages(o.state, plan, plan.cfg.inventory.Hosts())
                              && o.state.cluster.nodes == Assigned(Target(s.cluster, plan.cfg), rt))
  {
    if run != [] {
      CleanRunsKeep(run, rt, m0);
    }
    Site.DeployReachesGoal(Execute(Site.NOTHING, run), plan, rt, m0);
  }
}
