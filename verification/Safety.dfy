/**
 Safety over all runs: deploys cut off anywhere, over any inventories that give a host one runtime, and destroys that
 reset any hosts in any order.
 */
module Safety {
  import opened Sequences
  import opened KubeToolbox
  import opened Reconcile
  import Sockets

  // ---- The invariant

  predicate DestroyedAfter(history: seq<Event>, i: nat) {
    exists k :: i < k < |history| && history[k] == Destroyed
  }

  /** No cluster is initialised twice, and no host joins the same cluster twice. */
  predicate OncePerCluster(history: seq<Event>) {
    forall i, j :: 0 <= i < j < |history| && history[i] == history[j] && (history[i].Joined? || history[i].Initialised?) ==>
      exists k :: i < k < j && history[k] == Destroyed
  }

  predicate NothingRefused(history: seq<Event>) {
    forall i :: 0 <= i < |history| ==> !history[i].Refused?
  }

  /** Every event since the last destroy is still visible in the cluster. */
  predicate Accounted(c: Cluster) {
    forall i :: 0 <= i < |c.history| && !DestroyedAfter(c.history, i) ==>
      match c.history[i]
      case Joined(h) => h in c.nodes
      case Initialised => c.adminConf
      case _ => true
  }

  function Count(history: seq<Event>, e: Event): nat {
    if history == [] then 0
    else Count(history[..|history| - 1], e) + if history[|history| - 1] == e then 1 else 0
  }

  /** Every node reports the runtime `rt` gives its host. */
  predicate AllRun(c: Cluster, rt: Host -> Runtime) {
    forall h :: h in c.nodes ==> c.nodes[h] == rt(h)
  }

  /** What every run keeps, whatever hosts its destroys reset. */
  predicate Guarded(c: Cluster, rt: Host -> Runtime, m0: Host) {
    && AllRun(c, rt) && (if c.adminConf then m0 in c.nodes else c.nodes == map[])
    && OncePerCluster(c.history) && Accounted(c)
  }

  /** Node objects and enrolled hosts agree, and every node reports its runtime. */
  predicate Coherent(c: Cluster, rt: Host -> Runtime) {
    AllRun(c, rt) && c.nodes.Keys == c.enrolled && (!c.adminConf ==> c.enrolled == {})
  }

  /** What runs keep whose destroys reset every host. */
  predicate Safe(c: Cluster, rt: Host -> Runtime, m0: Host, inv: Inventory) {
    Guarded(c, rt, m0) && Coherent(c, rt) && c.enrolled <= inv.Hosts() && NothingRefused(c.history)
  }

  // ---- One runtime for every host

  /**
   What a run needs from its settings: master0 where it always was, and for every wanted host its own name, and one
   runtime, `rt`, the only one whose group lists it, and the one a join there comes up under.
   */
  predicate Fits(cfg: Config, rt: Host -> Runtime, m0: Host) {
    && cfg.inventory.Masters() != [] && cfg.inventory.Master0() == m0 && rt(m0) == cfg.inventory.MasterRuntime()
    && (forall h :: h in Wanted(cfg) + {m0} ==> cfg.NodeOf(h) == h)
    && forall h, r :: h in Wanted(cfg) && cfg.inventory.Listed(h, r) ==> r == rt(h) && Registers(cfg, r) == r
  }

  /** The runtime a host listed for `own` comes up under. */
  function Registers(cfg: Config, own: Runtime): Runtime
    requires cfg.inventory.Masters() != []
  {
    Sockets.JoinRuntime(own, cfg.inventory.MasterRuntime(), cfg.release)
  }

  /**
   The same, checked on the settings alone: master0 and every wanted host register under their inventory names, and
   every wanted host is listed for exactly one runtime in the role it joins with, the one it comes up under.
   */
  predicate Clean(cfg: Config)
    requires cfg.inventory.Masters() != []
  {
    && (forall h :: h in Wanted(cfg) + {cfg.inventory.Master0()} ==> cfg.NodeOf(h) == h)
    && forall h :: h in Wanted(cfg) ==> !Overlaps(cfg.inventory, h) && Registers(cfg, Own(cfg, h)) == Own(cfg, h)
  }

  predicate Overlaps(inv: Inventory, h: Host) {
    inv.Listed(h, Sockets.Docker) && inv.Listed(h, Sockets.Containerd)
  }

  function Own(cfg: Config, h: Host): Runtime
    requires cfg.inventory.Masters() != []
  {
    if h == cfg.inventory.Master0() then cfg.inventory.MasterRuntime()
    else if cfg.inventory.Listed(h, Sockets.Docker) then Sockets.Docker
    else Sockets.Containerd
  }

  /** Clean settings are exactly those that fit some assignment of runtimes. */
  lemma {:induction false} CleanFits(cfg: Config, rt: Host -> Runtime)
    requires cfg.inventory.Masters() != []
    ensures Fits(cfg, rt, cfg.inventory.Master0()) ==> Clean(cfg)
    ensures Clean(cfg) ==> Fits(cfg, h => Own(cfg, h), cfg.inventory.Master0())
  {
    var m0 := cfg.inventory.Master0();
    if Fits(cfg, rt, m0) {
      forall h | h in Wanted(cfg)
        ensures !Overlaps(cfg.inventory, h) && Registers(cfg, Own(cfg, h)) == Own(cfg, h)
      {
      }
    }
    if Clean(cfg) {
      forall h, r | h in Wanted(cfg) && cfg.inventory.Listed(h, r)
        ensures r == Own(cfg, h) && Registers(cfg, r) == r
      {
        assert !Overlaps(cfg.inventory, h);
      }
    }
  }

  /** An inventory of one runtime fits, as the documentation advises it. */
  lemma {:induction false} SingleRuntimeFits(cfg: Config, r: Runtime)
    requires cfg.inventory.Masters() != [] && cfg.inventory.SingleRuntime(r) && cfg.nodeNames == map[]
    ensures Fits(cfg, _ => r, cfg.inventory.Master0())
  {
  }

  // ---- Planned joins

  predicate IsJoin(op: Op) {
    op.MasterJoin? || op.WorkerJoin?
  }

  /** The same join task does not reach the same host twice off one snapshot. */
  predicate WellPlanned(ops: seq<Op>) {
    forall i, j :: 0 <= i < j < |ops| && IsJoin(ops[i]) && ops[i] == ops[j] ==> exists k :: i < k < j && ops[k].Gather?
  }

  /** No join comes before the first snapshot. */
  predicate Opened(ops: seq<Op>) {
    forall i :: 0 <= i < |ops| && IsJoin(ops[i]) ==> exists k :: 0 <= k < i && ops[k].Gather?
  }

  /** The join task does something on this host. */
  predicate Wants(update: KubeGroups, op: Op, cfg: Config) {
    match op
    case MasterJoin(h) => cfg.isHa && (h in update.dockerMaster || h in update.containerdMaster)
    case WorkerJoin(h) => h !in cfg.inventory.Masters() && (h in update.dockerNode || h in update.containerdNode)
    case _ => false
  }

  /** The update lists come from the inventory, so they list a host only for runtimes it is listed for. */
  predicate FromInventory(update: KubeGroups, inv: Inventory) {
    && update.dockerMaster <= Elements(inv.dockerMasters) && update.containerdMaster <= Elements(inv.containerdMasters)
    && update.dockerNode <= Elements(inv.dockerNodes) && update.containerdNode <= Elements(inv.containerdNodes)
  }

  predicate NoGatherBefore(ops: seq<Op>, i: nat)
    requires i <= |ops|
  {
    forall k :: 0 <= k < i ==> !ops[k].Gather?
  }

  /** Every join still to run off the current snapshot is on a host that is no node. */
  predicate Ready(p: Play, ops: seq<Op>, cfg: Config) {
    && FromInventory(p.update, cfg.inventory)
    && (p.cluster.adminConf || p.update == NO_UPDATE)
    && (p.failed || forall i :: 0 <= i < |ops| && NoGatherBefore(ops, i) && Wants(p.update, ops[i], cfg) ==>
         ops[i].host !in p.cluster.nodes)
  }

  // ---- One event

  lemma {:induction false} CountAppend(history: seq<Event>, e: Event, x: Event)
    ensures Count(history + [x], e) == Count(history, e) + if x == e then 1 else 0
  {
    assert (history + [x])[..|history|] == history;
  }

  lemma {:induction false} StillDestroyedAfter(history: seq<Event>, x: Event, i: nat)
    requires DestroyedAfter(history, i)
    ensures DestroyedAfter(history + [x], i)
  {
    var k :| i < k < |history| && history[k] == Destroyed;
    assert (history + [x])[k] == Destroyed;
  }

  /** A join or init that the cluster no longer shows belongs to an earlier one. */
  lemma {:induction false} EarlierIsOver(c: Cluster, x: Event, i: nat)
    requires Accounted(c) && i < |c.history| && c.history[i] == x
    requires (x.Initialised? && !c.adminConf) || (x.Joined? && x.host !in c.nodes)
    ensures exists k :: i < k < |c.history| && c.history[k] == Destroyed
  {
    assert DestroyedAfter(c.history, i);
  }

  /** An event that its cluster has not seen may be added. */
  lemma {:induction false} AppendOnce(c: Cluster, x: Event)
    requires OncePerCluster(c.history) && Accounted(c)
    requires x == Initialised ==> !c.adminConf
    requires x.Joined? ==> x.host !in c.nodes
    ensures OncePerCluster(c.history + [x])
  {
    var h, n := c.history + [x], |c.history|;
    forall i, j | 0 <= i < j < |h| && h[i] == h[j] && (h[i].Joined? || h[i].Initialised?)
      ensures exists k :: i < k < j && h[k] == Destroyed
    {
      if j == n {
        EarlierIsOver(c, x, i);
      }
      var k :| i < k < j && c.history[k] == Destroyed;
      assert h[k] == Destroyed;
    }
  }

  /** An event that shows in the cluster keeps the account, if everything that showed still does. */
  lemma {:induction false} AppendAccounted(c: Cluster, d: Cluster, x: Event)
    requires Accounted(c) && d.history == c.history + [x]
    requires c.nodes.Keys <= d.nodes.Keys && (c.adminConf ==> d.adminConf)
    requires (x.Joined? ==> x.host in d.nodes) && (x.Initialised? ==> d.adminConf)
    ensures Accounted(d)
  {
    forall i | 0 <= i < |d.history| && !DestroyedAfter(d.history, i)
      ensures match d.history[i] case Joined(h) => h in d.nodes case Initialised => d.adminConf case _ => true
    {
      if i < |c.history| && DestroyedAfter(c.history, i) {
        StillDestroyedAfter(c.history, x, i);
      }
    }
  }

  lemma {:induction false} JoinIsGuarded(c: Cluster, h: Host, cpTaints: set<Label>, rt: Host -> Runtime, m0: Host)
    requires Guarded(c, rt, m0) && c.adminConf && h !in c.nodes
    ensures Guarded(KubeadmJoin(c, h, h, rt(h), cpTaints), rt, m0)
  {
    var x := if h in c.enrolled then Refused(h) else Joined(h);
    AppendOnce(c, x);
    AppendAccounted(c, KubeadmJoin(c, h, h, rt(h), cpTaints), x);
  }

  lemma {:induction false} RefusedInitIsGuarded(c: Cluster, rt: Host -> Runtime, m0: Host)
    requires Guarded(c, rt, m0)
    ensures Guarded(c.(history := c.history + [Refused(m0)]), rt, m0)
  {
    AppendOnce(c, Refused(m0));
    AppendAccounted(c, c.(history := c.history + [Refused(m0)]), Refused(m0));
  }

  lemma {:induction false} InitIsGuarded(c: Cluster, cpTaints: set<Label>, rt: Host -> Runtime, m0: Host)
    requires Guarded(c, rt, m0) && !c.adminConf
    ensures Guarded(KubeadmInit(c, m0, m0, rt(m0), cpTaints), rt, m0)
  {
    AppendOnce(c, Initialised);
    AppendAccounted(c, KubeadmInit(c, m0, m0, rt(m0), cpTaints), Initialised);
  }

  // ---- One task execution

  function JoinLabels(op: Op, cfg: Config): set<Label> {
    if op.MasterJoin? then cfg.cpTaints else {}
  }

  /** A wanted host is wanted for its one runtime. */
  lemma {:induction false} WantsRuntime(update: KubeGroups, op: Op, cfg: Config, rt: Host -> Runtime, m0: Host)
    requires Fits(cfg, rt, m0) && FromInventory(update, cfg.inventory) && Wants(update, op, cfg)
    ensures op.host in Wanted(cfg) && Registers(cfg, rt(op.host)) == rt(op.host) && cfg.NodeOf(op.host) == op.host
    ensures op.MasterJoin? ==> (rt(op.host).Docker? <==> op.host in update.dockerMaster)
                               && (rt(op.host).Containerd? <==> op.host in update.containerdMaster)
    ensures op.WorkerJoin? ==> (rt(op.host).Docker? <==> op.host in update.dockerNode)
                               && (rt(op.host).Containerd? <==> op.host in update.containerdNode)
  {
    var inv, h := cfg.inventory, op.host;
    assert op.MasterJoin? <==> h in inv.Masters();
    if op.MasterJoin? {
      assert h in update.dockerMaster ==> inv.Listed(h, Sockets.Docker);
      assert h in update.containerdMaster ==> inv.Listed(h, Sockets.Containerd);
    } else {
      assert h in update.dockerNode ==> inv.Listed(h, Sockets.Docker);
      assert h in update.containerdNode ==> inv.Listed(h, Sockets.Containerd);
    }
  }

  /** A join step joins a wanted host once, under its runtime, and does nothing to the others. */
  lemma {:induction false} JoinEffect(p: Play, op: Op, cfg: Config, rt: Host -> Runtime, m0: Host)
    requires Fits(cfg, rt, m0) && FromInventory(p.update, cfg.inventory) && IsJoin(op) && !p.failed
    ensures Do(p, op, cfg) ==
            if Wants(p.update, op, cfg) then p.(cluster := KubeadmJoin(p.cluster, op.host, op.host, rt(op.host), JoinLabels(op, cfg)))
            else p
  {
    if Wants(p.update, op, cfg) {
      WantsRuntime(p.update, op, cfg, rt, m0);
    }
  }

  /** Every step keeps the guard: an init that is due, a join of a host that is no node, a snapshot, taints removed. */
  lemma {:induction false} StepIsGuarded(p: Play, op: Op, cfg: Config, rt: Host -> Runtime, m0: Host)
    requires Fits(cfg, rt, m0) && Guarded(p.cluster, rt, m0) && FromInventory(p.update, cfg.inventory)
    requires !p.failed && Wants(p.update, op, cfg) ==> op.host !in p.cluster.nodes && p.cluster.adminConf
    ensures Guarded(Do(p, op, cfg).cluster, rt, m0)
  {
    if p.failed {
      return;
    }
    match op
    case Init(info) => InitStepIsGuarded(p, info, cfg, rt, m0);
    case Gather =>
    case MasterJoin(h) => JoinStepIsGuarded(p, op, cfg, rt, m0);
    case WorkerJoin(h) => JoinStepIsGuarded(p, op, cfg, rt, m0);
    case RemoveTaints(lead) =>
  }

  lemma {:induction false} InitStepIsGuarded(p: Play, info: KubeToolbox.Outcome, cfg: Config, rt: Host -> Runtime, m0: Host)
    requires Fits(cfg, rt, m0) && Guarded(p.cluster, rt, m0)
    ensures Guarded(InitTask(p, info, cfg).cluster, rt, m0)
  {
    if !p.cluster.adminConf {
      InitIsGuarded(p.cluster, cfg.cpTaints, rt, m0);
      RefusedInitIsGuarded(p.cluster, rt, m0);
    }
  }

  lemma {:induction false} JoinStepIsGuarded(p: Play, op: Op, cfg: Config, rt: Host -> Runtime, m0: Host)
    requires Fits(cfg, rt, m0) && Guarded(p.cluster, rt, m0) && FromInventory(p.update, cfg.inventory)
    requires IsJoin(op) && !p.failed && (Wants(p.update, op, cfg) ==> op.host !in p.cluster.nodes && p.cluster.adminConf)
    ensures Guarded(Do(p, op, cfg).cluster, rt, m0)
  {
    JoinEffect(p, op, cfg, rt, m0);
    if Wants(p.update, op, cfg) {
      JoinIsGuarded(p.cluster, op.host, JoinLabels(op, cfg), rt, m0);
    }
  }

  /** Where nodes and enrolled hosts agree, no step is refused and they agree again. */
  lemma {:induction false} StepIsSafe(p: Play, op: Op, cfg: Config, rt: Host -> Runtime, m0: Host)
    requires Fits(cfg, rt, m0) && Safe(p.cluster, rt, m0, cfg.inventory) && FromInventory(p.update, cfg.inventory)
    requires !p.failed && Wants(p.update, op, cfg) ==> op.host !in p.cluster.nodes && p.cluster.adminConf
    ensures Safe(Do(p, op, cfg).cluster, rt, m0, cfg.inventory)
  {
    StepIsGuarded(p, op, cfg, rt, m0);
    assert m0 in cfg.inventory.Hosts();
    if IsJoin(op) && !p.failed {
      JoinEffect(p, op, cfg, rt, m0);
      if Wants(p.update, op, cfg) {
        WantsRuntime(p.update, op, cfg, rt, m0);
        assert op.host in cfg.inventory.Hosts();
      }
    }
  }

  /** Nothing that is missing from the node table is a node. */
  lemma {:induction false} MissingIsNoNode(c: Cluster, op: Op, cfg: Config, rt: Host -> Runtime, m0: Host)
    requires Fits(cfg, rt, m0) && AllRun(c, rt) && Wants(Missing(c, cfg.inventory), op, cfg)
    ensures op.host !in c.nodes && op.host in Wanted(cfg)
  {
    WantsRuntime(Missing(c, cfg.inventory), op, cfg, rt, m0);
  }

  /** Off the same snapshot, only a join adds a node, and only its own host. */
  lemma {:induction false} StepNodes(p: Play, op: Op, cfg: Config, rt: Host -> Runtime, m0: Host)
    requires Fits(cfg, rt, m0) && FromInventory(p.update, cfg.inventory) && !p.failed
    requires !op.Gather? && (p.cluster.adminConf || p.update == NO_UPDATE)
    ensures var q := Do(p, op, cfg);
            && q.update == p.update && (p.cluster.adminConf ==> q.cluster.adminConf)
            && (p.update != NO_UPDATE ==> q.cluster.nodes.Keys <= p.cluster.nodes.Keys + if IsJoin(op) then {op.host} else {})
  {
    if IsJoin(op) {
      JoinEffect(p, op, cfg, rt, m0);
    }
  }

  lemma {:induction false} StepKeepsReady(p: Play, ops: seq<Op>, cfg: Config, rt: Host -> Runtime, m0: Host)
    requires Fits(cfg, rt, m0) && AllRun(p.cluster, rt)
    requires ops != [] && WellPlanned(ops) && Ready(p, ops, cfg)
    ensures Ready(Do(p, ops[0], cfg), ops[1..], cfg) && WellPlanned(ops[1..])
  {
    var op, rest, q := ops[0], ops[1..], Do(p, ops[0], cfg);
    if q.failed {
      return;
    }
    if op.Gather? {
      forall i | 0 <= i < |rest| && Wants(q.update, rest[i], cfg)
        ensures rest[i].host !in q.cluster.nodes
      {
        MissingIsNoNode(p.cluster, rest[i], cfg, rt, m0);
      }
    } else {
      StepNodes(p, op, cfg, rt, m0);
      forall i | 0 <= i < |rest| && NoGatherBefore(rest, i) && Wants(q.update, rest[i], cfg)
        ensures rest[i].host !in q.cluster.nodes
      {
        assert rest[i] == ops[i + 1] && NoGatherBefore(ops, i + 1);
      }
    }
  }

  lemma {:induction false} OpsAreGuarded(p: Play, ops: seq<Op>, cfg: Config, rt: Host -> Runtime, m0: Host)
    requires Fits(cfg, rt, m0) && Guarded(p.cluster, rt, m0) && WellPlanned(ops) && Ready(p, ops, cfg)
    ensures Guarded(DoAll(p, ops, cfg).cluster, rt, m0)
    decreases |ops|
  {
    if ops != [] {
      StepIsGuarded(p, ops[0], cfg, rt, m0);
      StepKeepsReady(p, ops, cfg, rt, m0);
      OpsAreGuarded(Do(p, ops[0], cfg), ops[1..], cfg, rt, m0);
    }
  }

  lemma {:induction false} OpsAreSafe(p: Play, ops: seq<Op>, cfg: Config, rt: Host -> Runtime, m0: Host)
    requires Fits(cfg, rt, m0) && Safe(p.cluster, rt, m0, cfg.inventory) && WellPlanned(ops) && Ready(p, ops, cfg)
    ensures Safe(DoAll(p, ops, cfg).cluster, rt, m0, cfg.inventory)
    decreases |ops|
  {
    if ops != [] {
      StepIsSafe(p, ops[0], cfg, rt, m0);
      StepKeepsReady(p, ops, cfg, rt, m0);
      OpsAreSafe(Do(p, ops[0], cfg), ops[1..], cfg, rt, m0);
    }
  }

  // ---- The steps of a deploy

  lemma {:induction false} BatchIsPlanned(b: Batch)
    requires ValidBatch(b)
    ensures WellPlanned(BatchOps(b)) && Opened(BatchOps(b))
  {
    var ops, n, m := BatchOps(b), |b.masterOrder|, |b.workerOrder|;
    assert ops[1].Gather?;
    forall i | 0 <= i < |ops| && IsJoin(ops[i])
      ensures 2 <= i < 2 + n + m
      ensures ops[i] == if i < 2 + n then MasterJoin(b.masterOrder[i - 2]) else WorkerJoin(b.workerOrder[i - 2 - n])
    {
    }
    forall i, j | 0 <= i < j < |ops| && IsJoin(ops[i])
      ensures ops[i] != ops[j]
    {
      assert IsJoin(ops[j]) || ops[i] != ops[j];
    }
  }

  lemma {:induction false} ConcatIsPlanned(a: seq<Op>, b: seq<Op>)
    requires WellPlanned(a) && WellPlanned(b) && Opened(a) && Opened(b)
    ensures WellPlanned(a + b) && Opened(a + b)
  {
    var ops := a + b;
    forall i, j | 0 <= i < j < |ops| && IsJoin(ops[i]) && ops[i] == ops[j]
      ensures exists k :: i < k < j && ops[k].Gather?
    {
      if j < |a| {
        var k :| i < k < j && a[k].Gather?;
        assert ops[k].Gather?;
      } else if i >= |a| {
        var k :| i - |a| < k < j - |a| && b[k].Gather?;
        assert ops[k + |a|].Gather?;
      } else {
        var k :| 0 <= k < j - |a| && b[k].Gather?;
        assert ops[k + |a|].Gather?;
      }
    }
    forall i | 0 <= i < |ops| && IsJoin(ops[i])
      ensures exists k :: 0 <= k < i && ops[k].Gather?
    {
      if i < |a| {
        var k :| 0 <= k < i && a[k].Gather?;
        assert ops[k].Gather?;
      } else {
        var k :| 0 <= k < i - |a| && b[k].Gather?;
        assert ops[k + |a|].Gather?;
      }
    }
  }

  lemma {:induction false} DeployIsPlanned(batches: seq<Batch>)
    requires ValidBatches(batches)
    ensures WellPlanned(DeployOps(batches)) && Opened(DeployOps(batches))
  {
    if batches != [] {
      BatchIsPlanned(batches[0]);
      DeployIsPlanned(batches[1..]);
      ConcatIsPlanned(BatchOps(batches[0]), DeployOps(batches[1..]));
    }
  }

  lemma {:induction false} PrefixIsPlanned(ops: seq<Op>, cut: nat)
    requires WellPlanned(ops) && cut <= |ops|
    ensures WellPlanned(ops[..cut])
  {
    forall i, j | 0 <= i < j < cut && IsJoin(ops[i]) && ops[i] == ops[j]
      ensures exists k :: i < k < j && ops[..cut][k].Gather?
    {
      var k :| i < k < j && ops[k].Gather?;
      assert ops[..cut][k].Gather?;
    }
  }

  /** A deploy cut off after any task execution keeps the guard, and from a safe state stays safe. */
  lemma {:induction false} CutDeployIsSafe(c: Cluster, cfg: Config, batches: seq<Batch>, cut: nat, rt: Host -> Runtime, m0: Host)
    requires Fits(cfg, rt, m0) && Guarded(c, rt, m0) && ValidBatches(batches)
    ensures Guarded(CutDeploy(c, cfg, batches, cut).cluster, rt, m0)
    ensures Safe(c, rt, m0, cfg.inventory) ==> Safe(CutDeploy(c, cfg, batches, cut).cluster, rt, m0, cfg.inventory)
  {
    var ops := DeployOps(batches);
    var end := if cut <= |ops| then cut else |ops|;
    DeployIsPlanned(batches);
    PrefixIsPlanned(ops, end);
    OpsAreGuarded(Start(c), ops[..end], cfg, rt, m0);
    if Safe(c, rt, m0, cfg.inventory) {
      OpsAreSafe(Start(c), ops[..end], cfg, rt, m0);
    }
  }

  // ---- Destroys

  lemma {:induction false} ResetHosts(c: Cluster, order: seq<Host>, m0: Host)
    ensures ResetAll(c, order, m0).enrolled == c.enrolled - Elements(order)
    decreases |order|
  {
    if order != [] {
      ResetHosts(KubeadmReset(c, order[0], m0), order[1..], m0);
      assert order == [order[0]] + order[1..];
    }
  }

  lemma {:induction false} ResetCluster(c: Cluster, order: seq<Host>, m0: Host)
    ensures var d := ResetAll(c, order, m0);
            if m0 in order then !d.adminConf && d.nodes == map[] else d.adminConf == c.adminConf && d.nodes == c.nodes
    ensures !c.adminConf && c.nodes == map[] ==> var d := ResetAll(c, order, m0); !d.adminConf && d.nodes == map[]
    decreases |order|
  {
    if order != [] {
      ResetCluster(KubeadmReset(c, order[0], m0), order[1..], m0);
      assert order == [order[0]] + order[1..];
    }
  }

  lemma {:induction false} ResetRefusesNothing(c: Cluster, order: seq<Host>, m0: Host)
    requires NothingRefused(c.history)
    ensures NothingRefused(ResetAll(c, order, m0).history)
    decreases |order|
  {
    if order != [] {
      ResetRefusesNothing(KubeadmReset(c, order[0], m0), order[1..], m0);
    }
  }

  /** Resetting one host, master0 or not, keeps the guard: whatever else happened, a destroyed cluster has no nodes. */
  lemma {:induction false} ResetIsGuarded(c: Cluster, h: Host, rt: Host -> Runtime, m0: Host)
    requires Guarded(c, rt, m0)
    ensures Guarded(KubeadmReset(c, h, m0), rt, m0)
  {
    var e := c.(enrolled := c.enrolled - {h}, history := c.history + [Reset(h)]);
    AppendOnce(c, Reset(h));
    AppendAccounted(c, e, Reset(h));
    if h == m0 {
      var d := KubeadmReset(c, h, m0);
      AppendOnce(e, Destroyed);
      forall i | 0 <= i < |d.history| - 1
        ensures DestroyedAfter(d.history, i)
      {
        assert d.history[|d.history| - 1] == Destroyed;
      }
    }
  }

  /** A destroy of any hosts, in any order, keeps the guard. */
  lemma {:induction false} ResetsAreGuarded(c: Cluster, order: seq<Host>, rt: Host -> Runtime, m0: Host)
    requires Guarded(c, rt, m0)
    ensures Guarded(ResetAll(c, order, m0), rt, m0)
    decreases |order|
  {
    if order != [] {
      ResetIsGuarded(c, order[0], rt, m0);
      ResetsAreGuarded(KubeadmReset(c, order[0], m0), order[1..], rt, m0);
    }
  }

  /** Resetting every host of an inventory that covers the cluster leaves nothing behind. */
  lemma {:induction false} DestroyIsSafe(c: Cluster, order: seq<Host>, rt: Host -> Runtime, m0: Host, inv: Inventory)
    requires Safe(c, rt, m0, inv) && inv.Hosts() <= Elements(order) && m0 in order
    ensures Safe(ResetAll(c, order, m0), rt, m0, inv)
    ensures var d := ResetAll(c, order, m0); !d.adminConf && d.nodes == map[] && d.enrolled == {}
  {
    var d := ResetAll(c, order, m0);
    ResetsAreGuarded(c, order, rt, m0);
    ResetHosts(c, order, m0);
    ResetCluster(c, order, m0);
    ResetRefusesNothing(c, order, m0);
  }

  // ---- Counting inits and destroys

  function One(b: bool): nat {
    if b then 1 else 0
  }

  /** Whatever the settings, a step initialises a cluster only where there was none, and destroys none. */
  lemma {:induction false} StepCounts(p: Play, op: Op, cfg: Config)
    requires cfg.inventory.Masters() != []
    ensures var c, d := p.cluster, Do(p, op, cfg).cluster;
            && Count(d.history, Initialised) + One(c.adminConf) == Count(c.history, Initialised) + One(d.adminConf)
            && Count(d.history, Destroyed) == Count(c.history, Destroyed)
  {
    var c := p.cluster;
    if op.Init? {
      CountAppend(c.history, Initialised, Initialised);
      CountAppend(c.history, Destroyed, Initialised);
      CountAppend(c.history, Initialised, Refused(cfg.inventory.Master0()));
      CountAppend(c.history, Destroyed, Refused(cfg.inventory.Master0()));
    } else if IsJoin(op) {
      JoinCounts(p, op, cfg);
    }
  }

  lemma {:induction false} JoinIfCounts(c: Cluster, wanted: bool, h: Host, own: Runtime, cfg: Config, labels: set<Label>)
    requires cfg.inventory.Masters() != []
    ensures var d := JoinIf(c, wanted, h, own, cfg, labels);
            && d.adminConf == c.adminConf && Count(d.history, Initialised) == Count(c.history, Initialised)
            && Count(d.history, Destroyed) == Count(c.history, Destroyed)
  {
    CountAppend(c.history, Initialised, Joined(h));
    CountAppend(c.history, Destroyed, Joined(h));
    CountAppend(c.history, Initialised, Refused(h));
    CountAppend(c.history, Destroyed, Refused(h));
  }

  lemma {:induction false} JoinCounts(p: Play, op: Op, cfg: Config)
    requires cfg.inventory.Masters() != [] && IsJoin(op)
    ensures var c, d := p.cluster, Do(p, op, cfg).cluster;
            && d.adminConf == c.adminConf && Count(d.history, Initialised) == Count(c.history, Initialised)
            && Count(d.history, Destroyed) == Count(c.history, Destroyed)
  {
    var c, u, h, inv := p.cluster, p.update, op.host, cfg.inventory;
    if op.MasterJoin? {
      JoinIfCounts(c, h in u.dockerMaster && cfg.isHa, h, Sockets.Docker, cfg, cfg.cpTaints);
      var d := JoinIf(c, h in u.dockerMaster && cfg.isHa, h, Sockets.Docker, cfg, cfg.cpTaints);
      JoinIfCounts(d, h in u.containerdMaster && cfg.isHa, h, Sockets.Containerd, cfg, cfg.cpTaints);
    } else {
      var worker := h !in inv.Masters();
      JoinIfCounts(c, worker && h in u.dockerNode, h, Sockets.Docker, cfg, {});
      var d := JoinIf(c, worker && h in u.dockerNode, h, Sockets.Docker, cfg, {});
      JoinIfCounts(d, worker && h in u.containerdNode, h, Sockets.Containerd, cfg, {});
    }
  }

  lemma {:induction false} OpsCount(p: Play, ops: seq<Op>, cfg: Config)
    requires cfg.inventory.Masters() != []
    ensures var c, d := p.cluster, DoAll(p, ops, cfg).cluster;
            && Count(d.history, Initialised) + One(c.adminConf) == Count(c.history, Initialised) + One(d.adminConf)
            && Count(d.history, Destroyed) == Count(c.history, Destroyed)
    decreases |ops|
  {
    if ops != [] {
      StepCounts(p, ops[0], cfg);
      OpsCount(Do(p, ops[0], cfg), ops[1..], cfg);
    }
  }

  lemma {:induction false} ResetStepCounts(c: Cluster, h: Host, m0: Host)
    ensures var d := KubeadmReset(c, h, m0);
            && Count(d.history, Initialised) == Count(c.history, Initialised)
            && Count(d.history, Destroyed) == Count(c.history, Destroyed) + One(h == m0)
  {
    var history := c.history + [Reset(h)];
    CountAppend(c.history, Initialised, Reset(h));
    CountAppend(c.history, Destroyed, Reset(h));
    CountAppend(history, Initialised, Destroyed);
    CountAppend(history, Destroyed, Destroyed);
  }

  lemma {:induction false} HeadCounts(order: seq<Host>, h: Host)
    requires order != []
    ensures multiset(order)[h] == One(order[0] == h) + multiset(order[1..])[h]
  {
    assert order == [order[0]] + order[1..];
  }

  /** A reset of hosts adds no init, and a destroy event for every time it reaches master0. */
  lemma {:induction false} ResetCounts(c: Cluster, order: seq<Host>, m0: Host)
    ensures var d := ResetAll(c, order, m0);
            && Count(d.history, Initialised) == Count(c.history, Initialised)
            && Count(d.history, Destroyed) == Count(c.history, Destroyed) + multiset(order)[m0]
    decreases |order|
  {
    if order != [] {
      HeadCounts(order, m0);
      ResetStepCounts(c, order[0], m0);
      ResetCounts(KubeadmReset(c, order[0], m0), order[1..], m0);
    }
  }

  // ---- All runs

  /** Master0 stays, and the deploys agree on one runtime for every host; nothing is asked of the destroys. */
  predicate Fitting(run: seq<Action>, rt: Host -> Runtime, m0: Host) {
    Runnable(run) && forall i :: 0 <= i < |run| ==> FittingAction(run[i], rt, m0)
  }

  predicate FittingAction(a: Action, rt: Host -> Runtime, m0: Host)
    requires a.Inv().Masters() != []
  {
    match a
    case Deployment(cfg, batches, _) => Fits(cfg, rt, m0) && ValidBatches(batches)
    case Destruction(inventory, _) => inventory.Master0() == m0
  }

  /** Besides, inventories only grow, and a destroy resets every host. */
  predicate Orderly(run: seq<Action>, rt: Host -> Runtime, m0: Host) {
    && Fitting(run, rt, m0)
    && (forall i :: 0 <= i < |run| && run[i].Destruction? ==> Elements(run[i].order) == run[i].inventory.Hosts())
    && forall i :: 0 < i < |run| ==> run[i - 1].Inv().Hosts() <= run[i].Inv().Hosts()
  }

  /** The destroys of a run that reach master0. */
  function Resets(run: seq<Action>, m0: Host): nat {
    if run == [] then 0
    else
      var last := run[|run| - 1];
      Resets(run[..|run| - 1], m0) + One(last.Destruction? && m0 in last.order)
  }

  lemma {:induction false} WiderInventory(c: Cluster, rt: Host -> Runtime, m0: Host, inv: Inventory, wider: Inventory)
    requires Safe(c, rt, m0, inv) && inv.Hosts() <= wider.Hosts()
    ensures Safe(c, rt, m0, wider)
  {
  }

  lemma {:induction false} RunsAreGuarded(run: seq<Action>, rt: Host -> Runtime, m0: Host)
    requires Fitting(run, rt, m0)
    ensures Guarded(Execute(NO_CLUSTER, run), rt, m0)
    decreases |run|
  {
    if run != [] {
      var last, before := run[|run| - 1], run[..|run| - 1];
      RunsAreGuarded(before, rt, m0);
      var c := Execute(NO_CLUSTER, before);
      match last
      case Deployment(cfg, batches, cut) => CutDeployIsSafe(c, cfg, batches, cut, rt, m0);
      case Destruction(inventory, order) => ResetsAreGuarded(c, order, rt, m0);
    }
  }

  lemma {:induction false} RunsAreSafe(run: seq<Action>, rt: Host -> Runtime, m0: Host)
    requires run != [] && Orderly(run, rt, m0)
    ensures Safe(Execute(NO_CLUSTER, run), rt, m0, run[|run| - 1].Inv())
    decreases |run|
  {
    var last, before := run[|run| - 1], run[..|run| - 1];
    var c := Execute(NO_CLUSTER, before);
    if before == [] {
      assert c == NO_CLUSTER;
      assert Safe(c, rt, m0, last.Inv());
    } else {
      RunsAreSafe(before, rt, m0);
      WiderInventory(c, rt, m0, before[|before| - 1].Inv(), last.Inv());
    }
    match last
    case Deployment(cfg, batches, cut) => CutDeployIsSafe(c, cfg, batches, cut, rt, m0);
    case Destruction(inventory, order) =>
      assert m0 in Elements(inventory.Masters()) && m0 in inventory.Hosts();
      DestroyIsSafe(c, order, rt, m0, inventory);
  }

  /** Over every run whatsoever, a new cluster is only initialised after a destroy that reached master0. */
  lemma {:induction false} InitsAndDestroys(run: seq<Action>, m0: Host)
    requires Runnable(run) && forall i :: 0 <= i < |run| ==> run[i].Inv().Master0() == m0
    ensures var c := Execute(NO_CLUSTER, run);
            && Count(c.history, Initialised) <= Resets(run, m0) + One(c.adminConf)
            && ((forall i :: 0 <= i < |run| && run[i].Destruction? ==> Distinct(run[i].order)) ==>
                 Count(c.history, Destroyed) == Resets(run, m0))
    decreases |run|
  {
    if run != [] {
      var last, before := run[|run| - 1], run[..|run| - 1];
      InitsAndDestroys(before, m0);
      var c := Execute(NO_CLUSTER, before);
      match last
      case Deployment(cfg, batches, cut) =>
        var ops := DeployOps(batches);
        OpsCount(Start(c), ops[..if cut <= |ops| then cut else |ops|], cfg);
      case Destruction(inventory, order) =>
        ResetCounts(c, order, m0);
        ResetCluster(c, order, m0);
        if Distinct(order) {
          DistinctCounts(order, m0);
        }
        if m0 !in order {
          assert multiset(order)[m0] == 0;
        }
    }
  }

  /**
   Safety, for settings that agree on one runtime and the inventory name of every wanted host: over every run of deploys
   cut off anywhere and destroys of any hosts, no host joins the same cluster twice, none is initialised twice, and there
   is at most one init more than there are destroys that reset master0.
   */
  lemma {:induction false} AtMostOneJoinPerCluster(run: seq<Action>, rt: Host -> Runtime, m0: Host)
    requires Fitting(run, rt, m0)
    ensures var history := Execute(NO_CLUSTER, run).history;
            OncePerCluster(history) && Count(history, Initialised) <= 1 + Resets(run, m0)
  {
    RunsAreGuarded(run, rt, m0);
    InitsAndDestroys(run, m0);
  }

  /** When inventories only grow and destroys reset every host, kubeadm besides never refuses anything. */
  lemma {:induction false} NothingIsRefused(run: seq<Action>, rt: Host -> Runtime, m0: Host)
    requires Orderly(run, rt, m0)
    ensures NothingRefused(Execute(NO_CLUSTER, run).history)
  {
    if run != [] {
      RunsAreSafe(run, rt, m0);
    }
  }

  // ---- Over every run whatsoever

  predicate ResetAfter(history: seq<Event>, i: nat, h: Host) {
    exists k :: i < k < |history| && history[k] == Reset(h)
  }

  /** Between two joins of a host, that host was reset. */
  predicate RejoinsAreReset(history: seq<Event>) {
    forall i, j :: 0 <= i < j < |history| && history[i] == history[j] && history[i].Joined? ==>
      exists k :: i < k < j && history[k] == Reset(history[i].host)
  }

  /** A host that joined and was not reset since holds its files. */
  predicate JoinedAreEnrolled(c: Cluster) {
    forall i :: 0 <= i < |c.history| && c.history[i].Joined? && !ResetAfter(c.history, i, c.history[i].host) ==>
      c.history[i].host in c.enrolled
  }

  predicate Tracked(c: Cluster) {
    RejoinsAreReset(c.history) && JoinedAreEnrolled(c)
  }

  lemma {:induction false} StillResetAfter(history: seq<Event>, x: Event, i: nat, h: Host)
    requires ResetAfter(history, i, h)
    ensures ResetAfter(history + [x], i, h)
  {
    var k :| i < k < |history| && history[k] == Reset(h);
    assert (history + [x])[k] == Reset(h);
  }

  /** One event that joins a host without files, or takes files only where it resets. */
  lemma {:induction false} AppendTracked(c: Cluster, d: Cluster, x: Event)
    requires Tracked(c) && d.history == c.history + [x]
    requires x.Joined? ==> x.host !in c.enrolled && x.host in d.enrolled
    requires forall h :: h in c.enrolled ==> h in d.enrolled || x == Reset(h)
    ensures Tracked(d)
  {
    var n := |c.history|;
    assert d.history[n] == x;
    forall i | 0 <= i <= n && d.history[i].Joined? && !ResetAfter(d.history, i, d.history[i].host)
      ensures d.history[i].host in d.enrolled
    {
      if i < n {
        var h := c.history[i].host;
        if ResetAfter(c.history, i, h) {
          StillResetAfter(c.history, x, i, h);
        }
      }
    }
    forall i, j | 0 <= i < j <= n && d.history[i] == d.history[j] && d.history[i].Joined?
      ensures exists k :: i < k < j && d.history[k] == Reset(d.history[i].host)
    {
      var h := d.history[i].host;
      if j == n {
        assert ResetAfter(c.history, i, h);
        var k :| i < k < n && c.history[k] == Reset(h);
        assert d.history[k] == Reset(h);
      } else {
        var k :| i < k < j && c.history[k] == Reset(h);
        assert d.history[k] == Reset(h);
      }
    }
  }

  lemma {:induction false} JoinIfIsTracked(c: Cluster, wanted: bool, h: Host, own: Runtime, cfg: Config, labels: set<Label>)
    requires cfg.inventory.Masters() != [] && Tracked(c)
    ensures Tracked(JoinIf(c, wanted, h, own, cfg, labels))
  {
    if wanted {
      AppendTracked(c, JoinIf(c, wanted, h, own, cfg, labels), if h in c.enrolled then Refused(h) else Joined(h));
    }
  }

  lemma {:induction false} InitIsTracked(p: Play, info: KubeToolbox.Outcome, cfg: Config)
    requires cfg.inventory.Masters() != [] && Tracked(p.cluster)
    ensures Tracked(InitTask(p, info, cfg).cluster)
  {
    var c, d, m0 := p.cluster, InitTask(p, info, cfg).cluster, cfg.inventory.Master0();
    if d != c {
      AppendTracked(c, d, if m0 in c.enrolled then Refused(m0) else Initialised);
    }
  }

  lemma {:induction false} StepIsTracked(p: Play, op: Op, cfg: Config)
    requires cfg.inventory.Masters() != [] && Tracked(p.cluster)
    ensures Tracked(Do(p, op, cfg).cluster)
  {
    var c, u, inv := p.cluster, p.update, cfg.inventory;
    match op
    case Init(info) => InitIsTracked(p, info, cfg);
    case Gather =>
    case MasterJoin(h) =>
      JoinIfIsTracked(c, h in u.dockerMaster && cfg.isHa, h, Sockets.Docker, cfg, cfg.cpTaints);
      var d := JoinIf(c, h in u.dockerMaster && cfg.isHa, h, Sockets.Docker, cfg, cfg.cpTaints);
      JoinIfIsTracked(d, h in u.containerdMaster && cfg.isHa, h, Sockets.Containerd, cfg, cfg.cpTaints);
    case WorkerJoin(h) =>
      var worker := h !in inv.Masters();
      JoinIfIsTracked(c, worker && h in u.dockerNode, h, Sockets.Docker, cfg, {});
      var d := JoinIf(c, worker && h in u.dockerNode, h, Sockets.Docker, cfg, {});
      JoinIfIsTracked(d, worker && h in u.containerdNode, h, Sockets.Containerd, cfg, {});
    case RemoveTaints(lead) =>
  }

  lemma {:induction false} OpsAreTracked(p: Play, ops: seq<Op>, cfg: Config)
    requires cfg.inventory.Masters() != [] && Tracked(p.cluster)
    ensures Tracked(DoAll(p, ops, cfg).cluster)
    decreases |ops|
  {
    if ops != [] {
      StepIsTracked(p, ops[0], cfg);
      OpsAreTracked(Do(p, ops[0], cfg), ops[1..], cfg);
    }
  }

  lemma {:induction false} ResetsAreTracked(c: Cluster, order: seq<Host>, m0: Host)
    requires Tracked(c)
    ensures Tracked(ResetAll(c, order, m0))
    decreases |order|
  {
    if order != [] {
      var h := order[0];
      var e := c.(enrolled := c.enrolled - {h}, history := c.history + [Reset(h)]);
      AppendTracked(c, e, Reset(h));
      if h == m0 {
        AppendTracked(e, KubeadmReset(c, h, m0), Destroyed);
      }
      ResetsAreTracked(KubeadmReset(c, h, m0), order[1..], m0);
    }
  }

  lemma {:induction false} RunsAreTracked(run: seq<Action>)
    requires Runnable(run)
    ensures Tracked(Execute(NO_CLUSTER, run))
    decreases |run|
  {
    if run != [] {
      var last, before := run[|run| - 1], run[..|run| - 1];
      RunsAreTracked(before);
      var c := Execute(NO_CLUSTER, before);
      match last
      case Deployment(cfg, batches, cut) =>
        var ops := DeployOps(batches);
        OpsAreTracked(Start(c), ops[..if cut <= |ops| then cut else |ops|], cfg);
      case Destruction(inventory, order) => ResetsAreTracked(c, order, inventory.Master0());
    }
  }

  /** Whatever the inventories, names, cuts and destroys of a run: no host joins twice unless it was reset in between. */
  lemma {:induction false} NoRejoinWithoutReset(run: seq<Action>)
    requires Runnable(run)
    ensures RejoinsAreReset(Execute(NO_CLUSTER, run).history)
  {
    RunsAreTracked(run);
  }
}
