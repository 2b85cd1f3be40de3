/** What an uninterrupted deploy reaches, whatever the order of its joins and however its hosts are batched. */
module Convergence {
  import opened KubeToolbox
  import opened Reconcile
  import opened Safety

  /** A coherent cluster that contains master0 whenever it exists; every safe state is one. */
  predicate Steady(c: Cluster, rt: Host -> Runtime, m0: Host) {
    Coherent(c, rt) && (c.adminConf ==> m0 in c.enrolled)
  }

  /** Where a deploy leads: what was there, master0, every master if HA, and the workers that are no masters. */
  function Target(c: Cluster, cfg: Config): set<Host>
    requires cfg.inventory.Masters() != []
  {
    c.nodes.Keys + {cfg.inventory.Master0()} + Wanted(cfg)
  }

  /** `kubectl cluster-info` finds the cluster running. */
  ghost predicate Healthy(info: Outcome) {
    Answers.Running(info)
  }

  ghost predicate HealthyBatches(batches: seq<Batch>) {
    forall i :: 0 <= i < |batches| ==> Healthy(batches[i].info)
  }

  // ---- Joins

  function WantedBy(update: KubeGroups, ops: seq<Op>, cfg: Config): set<Host> {
    set op | op in ops && Wants(update, op, cfg) :: op.host
  }

  lemma {:induction false} JoinStep(p: Play, op: Op, cfg: Config, rt: Host -> Runtime, m0: Host)
    requires Fits(cfg, rt, m0) && AllRun(p.cluster, rt) && p.cluster.adminConf && !p.failed && IsJoin(op)
    requires FromInventory(p.update, cfg.inventory)
    ensures var q := Do(p, op, cfg);
            var added := if Wants(p.update, op, cfg) then {op.host} else {};
            && AllRun(q.cluster, rt) && q.cluster.adminConf && !q.failed && q.update == p.update
            && q.cluster.nodes.Keys == p.cluster.nodes.Keys + (added - p.cluster.enrolled)
            && q.cluster.enrolled == p.cluster.enrolled + added
  {
    JoinEffect(p, op, cfg, rt, m0);
  }

  /** After join tasks in any order, the wanted hosts are enrolled, and those that were not before are new nodes. */
  lemma {:induction false} JoinPhase(p: Play, ops: seq<Op>, cfg: Config, rt: Host -> Runtime, m0: Host)
    requires Fits(cfg, rt, m0) && AllRun(p.cluster, rt) && p.cluster.adminConf && !p.failed
    requires FromInventory(p.update, cfg.inventory)
    requires forall i :: 0 <= i < |ops| ==> IsJoin(ops[i])
    ensures var q := DoAll(p, ops, cfg);
            var added := WantedBy(p.update, ops, cfg);
            && AllRun(q.cluster, rt) && q.cluster.adminConf && !q.failed && q.update == p.update
            && q.cluster.nodes.Keys == p.cluster.nodes.Keys + (added - p.cluster.enrolled)
            && q.cluster.enrolled == p.cluster.enrolled + added
    decreases |ops|
  {
    if ops != [] {
      var op := ops[0];
      JoinStep(p, op, cfg, rt, m0);
      JoinPhase(Do(p, op, cfg), ops[1..], cfg, rt, m0);
    }
  }

  /** Off a fresh snapshot, a batch's join tasks want the batch's share of the hosts that are no nodes yet. */
  lemma {:induction false} BatchShare(c: Cluster, b: Batch, cfg: Config, rt: Host -> Runtime, m0: Host)
    requires AllRun(c, rt) && Fits(cfg, rt, m0) && ValidBatch(b)
    ensures var ops := MasterJoins(b.masterOrder) + WorkerJoins(b.workerOrder);
            WantedBy(Missing(c, cfg.inventory), ops, cfg) == Wanted(cfg) * Elements(b.masterOrder) - c.nodes.Keys
  {
    var ops := MasterJoins(b.masterOrder) + WorkerJoins(b.workerOrder);
    var update := Missing(c, cfg.inventory);
    var hosts := Elements(b.masterOrder);
    forall h | h in WantedBy(update, ops, cfg)
      ensures h in Wanted(cfg) * hosts - c.nodes.Keys
    {
      var op :| op in ops && Wants(update, op, cfg) && op.host == h;
      assert op in MasterJoins(b.masterOrder) || op in WorkerJoins(b.workerOrder);
      MissingIsNoNode(c, op, cfg, rt, m0);
    }
    forall h | h in Wanted(cfg) * hosts - c.nodes.Keys
      ensures h in WantedBy(update, ops, cfg)
    {
      OpsForHost(b, h);
    }
  }

  function JoinOf(h: Host, cfg: Config): Op {
    if h in cfg.inventory.Masters() then MasterJoin(h) else WorkerJoin(h)
  }

  lemma {:induction false} OpsForHost(b: Batch, h: Host)
    requires ValidBatch(b) && h in Elements(b.masterOrder)
    ensures var ops := MasterJoins(b.masterOrder) + WorkerJoins(b.workerOrder);
            MasterJoin(h) in ops && WorkerJoin(h) in ops
  {
    var i :| 0 <= i < |b.masterOrder| && b.masterOrder[i] == h;
    assert h in Elements(b.workerOrder);
    var j :| 0 <= j < |b.workerOrder| && b.workerOrder[j] == h;
    assert MasterJoins(b.masterOrder)[i] == MasterJoin(h) && WorkerJoins(b.workerOrder)[j] == WorkerJoin(h);
  }

  // ---- One batch

  /** A state a run can start from: an existing cluster, or none and a master0 without kubeadm files. */
  predicate Openable(c: Cluster, rt: Host -> Runtime, m0: Host) {
    AllRun(c, rt) && (!c.adminConf ==> c.nodes == map[] && m0 !in c.enrolled)
  }

  function OpenedNodes(c: Cluster, m0: Host): set<Host> {
    if c.adminConf then c.nodes.Keys else {m0}
  }

  function OpenedEnrolled(c: Cluster, m0: Host): set<Host> {
    if c.adminConf then c.enrolled else c.enrolled + {m0}
  }

  /** Init and snapshot: the cluster exists and its gaps are known. */
  lemma {:induction false} OpeningPhase(p: Play, info: Outcome, cfg: Config, rt: Host -> Runtime, m0: Host)
    requires Fits(cfg, rt, m0) && Openable(p.cluster, rt, m0) && !p.failed && (p.cluster.adminConf ==> Healthy(info))
    ensures var q := DoAll(p, [Init(info), Gather], cfg);
            && AllRun(q.cluster, rt) && q.cluster.adminConf && !q.failed
            && q.update == Missing(q.cluster, cfg.inventory) && FromInventory(q.update, cfg.inventory)
            && q.cluster.nodes.Keys == OpenedNodes(p.cluster, m0)
            && q.cluster.enrolled == OpenedEnrolled(p.cluster, m0)
  {
    var ops := [Init(info), Gather];
    assert ops[1..] == [Gather] && [Gather][1..] == [];
    var i := Do(p, Init(info), cfg);
    if p.cluster.adminConf {
      InitThroughText(p, cfg, info);
    }
    assert DoAll(p, ops, cfg) == DoAll(i, [Gather], cfg) == Do(i, Gather, cfg);
  }

  /** One whole batch of a run that has not failed, from any state it can start from. */
  lemma {:induction false} BatchOutcome(p: Play, b: Batch, cfg: Config, rt: Host -> Runtime, m0: Host)
    requires Fits(cfg, rt, m0) && Openable(p.cluster, rt, m0) && !p.failed && (p.cluster.adminConf ==> Healthy(b.info))
    requires ValidBatch(b)
    ensures var q := DoAll(p, BatchOps(b), cfg);
            var nodes, enrolled := OpenedNodes(p.cluster, m0), OpenedEnrolled(p.cluster, m0);
            var share := Wanted(cfg) * Elements(b.masterOrder) - nodes;
            && AllRun(q.cluster, rt) && q.cluster.adminConf
            && q.cluster.nodes.Keys == nodes + (share - enrolled)
            && q.cluster.enrolled == enrolled + share
            && q.failed == TaintsRaise(q.cluster.nodes.Keys, b.lead, cfg)
            && UntaintedFor(q.cluster, b.lead, cfg)
  {
    var opening, joins, closing :=
      [Init(b.info), Gather], MasterJoins(b.masterOrder) + WorkerJoins(b.workerOrder), [RemoveTaints(b.lead)];
    assert BatchOps(b) == opening + (joins + closing);
    var q0 := DoAll(p, opening, cfg);
    OpeningPhase(p, b.info, cfg, rt, m0);
    DoAllAppend(p, opening, joins + closing, cfg);
    BatchShare(q0.cluster, b, cfg, rt, m0);
    JoinPhase(q0, joins, cfg, rt, m0);
    DoAllAppend(q0, joins, closing, cfg);
    var q1 := DoAll(q0, joins, cfg);
    assert closing[1..] == [];
    assert DoAll(q1, closing, cfg) == Do(q1, RemoveTaints(b.lead), cfg);
  }

  /** The same from a steady state, where no wanted host is ever refused. */
  lemma {:induction false} SteadyBatchOutcome(p: Play, b: Batch, cfg: Config, rt: Host -> Runtime, m0: Host)
    requires Fits(cfg, rt, m0) && Steady(p.cluster, rt, m0) && !p.failed && (p.cluster.adminConf ==> Healthy(b.info))
    requires ValidBatch(b)
    ensures var q := DoAll(p, BatchOps(b), cfg);
            && Steady(q.cluster, rt, m0) && q.cluster.adminConf
            && q.cluster.nodes.Keys == p.cluster.nodes.Keys + {m0} + Wanted(cfg) * Elements(b.masterOrder)
            && q.failed == TaintsRaise(q.cluster.nodes.Keys, b.lead, cfg)
            && UntaintedFor(q.cluster, b.lead, cfg)
  {
    assert p.cluster.nodes.Keys == {} ==> p.cluster.nodes == map[];
    BatchOutcome(p, b, cfg, rt, m0);
  }

  /** The taint task of a batch led by `lead` has nothing left to remove. */
  predicate UntaintedFor(c: Cluster, lead: Host, cfg: Config) {
    forall t :: t in c.taints && t.0 in c.nodes && t.1 in cfg.labels ==>
      lead != LOCALHOST && !(t.0 in cfg.inventory.Masters() && t.0 in cfg.inventory.Workers())
  }

  /** A node table in which every host reports its runtime. */
  function Assigned(hosts: set<Host>, rt: Host -> Runtime): map<Host, Runtime> {
    map h | h in hosts :: rt(h)
  }

  /**
   Convergence: one uninterrupted deploy over all hosts, joins in any order, reaches exactly the target; its
   taint task fails exactly when a master that is a worker too is not part of it.
   */
  lemma {:induction false} DeployConverges(c: Cluster, cfg: Config, b: Batch, rt: Host -> Runtime, m0: Host)
    requires Fits(cfg, rt, m0) && Steady(c, rt, m0) && (c.adminConf ==> Healthy(b.info))
    requires ValidBatch(b) && Elements(b.masterOrder) == cfg.inventory.Hosts()
    ensures var q := Deploy(c, cfg, [b]);
            && q.cluster.nodes == Assigned(Target(c, cfg), rt) && q.cluster.adminConf && Steady(q.cluster, rt, m0)
            && q.failed == TaintsRaise(Target(c, cfg), b.lead, cfg)
            && UntaintedFor(q.cluster, b.lead, cfg)
  {
    SteadyBatchOutcome(Start(c), b, cfg, rt, m0);
    assert [b][1..] == [] && DeployOps([]) == [];
    assert DeployOps([b]) == BatchOps(b) + [] == BatchOps(b);
    assert Wanted(cfg) <= cfg.inventory.Hosts();
    assert Wanted(cfg) * Elements(b.masterOrder) == Wanted(cfg);
  }

  /** The same from the state after any orderly run. */
  lemma {:induction false} DeployConvergesAfterAnyRun(run: seq<Action>, cfg: Config, b: Batch, rt: Host -> Runtime, m0: Host)
    requires Orderly(run, rt, m0) && Fits(cfg, rt, m0)
    requires Execute(NO_CLUSTER, run).adminConf ==> Healthy(b.info)
    requires ValidBatch(b) && Elements(b.masterOrder) == cfg.inventory.Hosts()
    ensures var c := Execute(NO_CLUSTER, run);
            var q := Deploy(c, cfg, [b]);
            && q.cluster.nodes == Assigned(Target(c, cfg), rt) && q.cluster.adminConf && Steady(q.cluster, rt, m0)
            && q.failed == TaintsRaise(Target(c, cfg), b.lead, cfg)
            && UntaintedFor(q.cluster, b.lead, cfg)
  {
    if run != [] {
      RunsAreSafe(run, rt, m0);
    }
    DeployConverges(Execute(NO_CLUSTER, run), cfg, b, rt, m0);
  }

  // ---- Taints

  /** The nodes that carry a control label. */
  function Marked(c: Cluster, cfg: Config): set<Host> {
    set t | t in c.taints && t.0 in c.nodes && t.1 in cfg.labels :: t.0
  }

  /** Only nodes carry taints. */
  predicate TaintsOnNodes(c: Cluster) {
    forall t :: t in c.taints ==> t.0 in c.nodes
  }

  /** A new master carries a control label. */
  predicate Tainting(cfg: Config) {
    exists l :: l in cfg.cpTaints && l in cfg.labels
  }

  /** The masters that these steps add. */
  function NewMasters(p: Play, ops: seq<Op>, cfg: Config): set<Host> {
    (set op | op in ops && op.MasterJoin? && Wants(p.update, op, cfg) :: op.host) - p.cluster.enrolled
  }

  lemma {:induction false} JoinStepMarks(p: Play, op: Op, cfg: Config, rt: Host -> Runtime, m0: Host)
    requires Fits(cfg, rt, m0) && FromInventory(p.update, cfg.inventory) && !p.failed && IsJoin(op)
    requires p.cluster.nodes.Keys == p.cluster.enrolled && TaintsOnNodes(p.cluster)
    ensures var q := Do(p, op, cfg);
            && q.cluster.nodes.Keys == q.cluster.enrolled && TaintsOnNodes(q.cluster)
            && Marked(q.cluster, cfg) == Marked(p.cluster, cfg) + if Tainting(cfg) then NewMasters(p, [op], cfg) else {}
  {
    JoinEffect(p, op, cfg, rt, m0);
    var c, q, h := p.cluster, Do(p, op, cfg), op.host;
    if Wants(p.update, op, cfg) && h !in c.enrolled {
      var added := Tainted(h, JoinLabels(op, cfg));
      assert q.cluster.taints == c.taints + added && q.cluster.nodes.Keys == c.nodes.Keys + {h};
      forall t | t in c.taints
        ensures t.0 in c.nodes && t.0 != h
      {
      }
      AddedMarks(c, q.cluster, h, JoinLabels(op, cfg), cfg);
    } else {
      assert q.cluster.taints == c.taints && q.cluster.nodes == c.nodes;
    }
  }

  lemma {:induction false} AddedMarks(c: Cluster, d: Cluster, h: Host, labels: set<Label>, cfg: Config)
    requires h !in c.nodes && TaintsOnNodes(c) && d.nodes.Keys == c.nodes.Keys + {h} && d.taints == c.taints + Tainted(h, labels)
    ensures TaintsOnNodes(d)
    ensures Marked(d, cfg) == Marked(c, cfg) + if exists l :: l in labels && l in cfg.labels then {h} else {}
  {
    if l :| l in labels && l in cfg.labels {
      assert (h, l) in d.taints;
    }
    forall g | g in Marked(c, cfg)
      ensures g in Marked(d, cfg)
    {
      var t :| t in c.taints && t.0 in c.nodes && t.1 in cfg.labels && t.0 == g;
      assert t in d.taints;
    }
  }

  lemma {:induction false} NewMastersStep(p: Play, ops: seq<Op>, cfg: Config, q: Play)
    requires ops != [] && q.update == p.update
    requires q.cluster.enrolled == p.cluster.enrolled + if Wants(p.update, ops[0], cfg) then {ops[0].host} else {}
    requires IsJoin(ops[0]) && FromInventory(p.update, cfg.inventory)
    ensures NewMasters(p, ops, cfg) == NewMasters(p, [ops[0]], cfg) + NewMasters(q, ops[1..], cfg)
  {
    assert ops == [ops[0]] + ops[1..];
  }

  lemma {:induction false} JoinMarks(p: Play, ops: seq<Op>, cfg: Config, rt: Host -> Runtime, m0: Host)
    requires Fits(cfg, rt, m0) && FromInventory(p.update, cfg.inventory) && !p.failed
    requires forall i :: 0 <= i < |ops| ==> IsJoin(ops[i])
    requires p.cluster.nodes.Keys == p.cluster.enrolled && TaintsOnNodes(p.cluster)
    ensures var q := DoAll(p, ops, cfg);
            && TaintsOnNodes(q.cluster)
            && Marked(q.cluster, cfg) == Marked(p.cluster, cfg) + if Tainting(cfg) then NewMasters(p, ops, cfg) else {}
    decreases |ops|
  {
    if ops != [] {
      var q := Do(p, ops[0], cfg);
      JoinStepMarks(p, ops[0], cfg, rt, m0);
      JoinEffect(p, ops[0], cfg, rt, m0);
      NewMastersStep(p, ops, cfg, q);
      JoinMarks(q, ops[1..], cfg, rt, m0);
    }
  }

  /** Off a fresh snapshot, the masters a batch adds: its share of the masters that are no nodes yet. */
  lemma {:induction false} MasterShare(c: Cluster, b: Batch, cfg: Config, rt: Host -> Runtime, m0: Host)
    requires AllRun(c, rt) && c.nodes.Keys == c.enrolled && Fits(cfg, rt, m0) && ValidBatch(b)
    ensures var p := Play(c, Missing(c, cfg.inventory), false);
            NewMasters(p, MasterJoins(b.masterOrder) + WorkerJoins(b.workerOrder), cfg) ==
            (if cfg.isHa then Elements(cfg.inventory.Masters()) else {}) * Elements(b.masterOrder) - c.nodes.Keys
  {
    var ops, update := MasterJoins(b.masterOrder) + WorkerJoins(b.workerOrder), Missing(c, cfg.inventory);
    var p := Play(c, update, false);
    forall h | h in NewMasters(p, ops, cfg)
      ensures h in Elements(cfg.inventory.Masters()) && cfg.isHa && h in Elements(b.masterOrder) && h !in c.nodes
    {
      var op :| op in ops && op.MasterJoin? && Wants(update, op, cfg) && op.host == h;
      assert op in MasterJoins(b.masterOrder);
      MissingIsNoNode(c, op, cfg, rt, m0);
    }
    forall h | cfg.isHa && h in cfg.inventory.Masters() && h in Elements(b.masterOrder) && h !in c.nodes
      ensures h in NewMasters(p, ops, cfg)
    {
      OpsForHost(b, h);
      assert Wants(update, MasterJoin(h), cfg);
    }
  }

  /** New masters bring marks. */
  function JoinedMarks(nodes: set<Host>, marked: set<Host>, cfg: Config, b: Batch): set<Host>
    requires cfg.inventory.Masters() != []
  {
    var masters := if cfg.isHa then Elements(cfg.inventory.Masters()) else {};
    marked + if Tainting(cfg) then {cfg.inventory.Master0()} + masters * Elements(b.masterOrder) - nodes else {}
  }

  /** What a batch makes of the marks: its taint task removes them from its targets or, led by localhost, from all. */
  function MarksStep(nodes: set<Host>, marked: set<Host>, cfg: Config, b: Batch): set<Host>
    requires cfg.inventory.Masters() != []
  {
    if b.lead == LOCALHOST then {} else JoinedMarks(nodes, marked, cfg, b) - cfg.inventory.TaintTargets()
  }

  lemma {:induction false} TaintTaskMarks(p: Play, lead: Host, cfg: Config)
    requires TaintsOnNodes(p.cluster)
    ensures var d := RemoveTaintsTask(p, lead, cfg).cluster;
            && TaintsOnNodes(d)
            && Marked(d, cfg) == if lead == LOCALHOST then {} else Marked(p.cluster, cfg) - cfg.inventory.TaintTargets()
  {
    var c, d := p.cluster, RemoveTaintsTask(p, lead, cfg).cluster;
    forall h | h in Marked(c, cfg) && lead != LOCALHOST && h !in cfg.inventory.TaintTargets()
      ensures h in Marked(d, cfg)
    {
      var t :| t in c.taints && t.0 in c.nodes && t.1 in cfg.labels && t.0 == h;
      assert t in d.taints;
    }
  }

  lemma {:induction false} OpeningMarks(p: Play, info: Outcome, cfg: Config, rt: Host -> Runtime, m0: Host)
    requires Fits(cfg, rt, m0) && Steady(p.cluster, rt, m0) && TaintsOnNodes(p.cluster)
    requires !p.failed && (p.cluster.adminConf ==> Healthy(info))
    ensures var q := DoAll(p, [Init(info), Gather], cfg);
            && q.cluster.nodes.Keys == q.cluster.enrolled && TaintsOnNodes(q.cluster)
            && Marked(q.cluster, cfg) == Marked(p.cluster, cfg) + if Tainting(cfg) then {m0} - p.cluster.nodes.Keys else {}
  {
    var ops := [Init(info), Gather];
    assert ops[1..] == [Gather] && [Gather][1..] == [];
    var i := Do(p, Init(info), cfg);
    assert DoAll(p, ops, cfg) == DoAll(i, [Gather], cfg) == Do(i, Gather, cfg);
    var d := i.cluster;
    if !p.cluster.adminConf {
      assert Marked(p.cluster, cfg) == {};
      assert d.taints == Tainted(m0, cfg.cpTaints) && d.nodes.Keys == {m0};
      if Tainting(cfg) {
        var l :| l in cfg.cpTaints && l in cfg.labels;
        assert (m0, l) in d.taints;
      }
    }
  }

  /** The marks after the joins of a batch. */
  lemma {:induction false} OpenedMarks(p: Play, b: Batch, joins: seq<Op>, cfg: Config, rt: Host -> Runtime, m0: Host)
    requires Fits(cfg, rt, m0) && Steady(p.cluster, rt, m0) && TaintsOnNodes(p.cluster)
    requires !p.failed && (p.cluster.adminConf ==> Healthy(b.info)) && ValidBatch(b)
    requires joins == MasterJoins(b.masterOrder) + WorkerJoins(b.workerOrder)
    ensures var q := DoAll(DoAll(p, [Init(b.info), Gather], cfg), joins, cfg);
            && !q.failed && TaintsOnNodes(q.cluster)
            && Marked(q.cluster, cfg) == JoinedMarks(p.cluster.nodes.Keys, Marked(p.cluster, cfg), cfg, b)
  {
    var q := DoAll(p, [Init(b.info), Gather], cfg);
    assert p.cluster.nodes.Keys == {} ==> p.cluster.nodes == map[];
    OpeningPhase(p, b.info, cfg, rt, m0);
    OpeningMarks(p, b.info, cfg, rt, m0);
    JoinPhase(q, joins, cfg, rt, m0);
    JoinMarks(q, joins, cfg, rt, m0);
    MasterShare(q.cluster, b, cfg, rt, m0);
  }

  lemma {:induction false} BatchMarks(p: Play, b: Batch, cfg: Config, rt: Host -> Runtime, m0: Host)
    requires Fits(cfg, rt, m0) && Steady(p.cluster, rt, m0) && TaintsOnNodes(p.cluster)
    requires !p.failed && (p.cluster.adminConf ==> Healthy(b.info)) && ValidBatch(b)
    ensures var q := DoAll(p, BatchOps(b), cfg);
            && TaintsOnNodes(q.cluster)
            && Marked(q.cluster, cfg) == MarksStep(p.cluster.nodes.Keys, Marked(p.cluster, cfg), cfg, b)
  {
    var opening, joins, closing :=
      [Init(b.info), Gather], MasterJoins(b.masterOrder) + WorkerJoins(b.workerOrder), [RemoveTaints(b.lead)];
    assert BatchOps(b) == opening + (joins + closing);
    DoAllAppend(p, opening, joins + closing, cfg);
    DoAllAppend(DoAll(p, opening, cfg), joins, closing, cfg);
    OpenedMarks(p, b, joins, cfg, rt, m0);
    var q := DoAll(DoAll(p, opening, cfg), joins, cfg);
    assert closing[1..] == [];
    assert DoAll(q, closing, cfg) == Do(q, RemoveTaints(b.lead), cfg);
    TaintTaskMarks(q, b.lead, cfg);
  }

  // ---- A second deploy

  /** Nothing is missing from the node table. */
  predicate Settled(c: Cluster, cfg: Config, rt: Host -> Runtime) {
    AllRun(c, rt) && c.adminConf && Wanted(cfg) <= c.nodes.Keys
  }

  /** Only taints may differ, and none is new. */
  predicate SameButFewerTaints(before: Cluster, after: Cluster) {
    after == before.(taints := after.taints) && after.taints <= before.taints
  }

  ghost predicate QuietOps(ops: seq<Op>) {
    forall i :: 0 <= i < |ops| && ops[i].Init? ==> Healthy(ops[i].info)
  }

  lemma {:induction false} SettledWantsNothing(c: Cluster, op: Op, cfg: Config, rt: Host -> Runtime, m0: Host)
    requires Fits(cfg, rt, m0) && Settled(c, cfg, rt)
    ensures !Wants(Missing(c, cfg.inventory), op, cfg) && !Wants(NO_UPDATE, op, cfg)
  {
    if Wants(Missing(c, cfg.inventory), op, cfg) {
      MissingIsNoNode(c, op, cfg, rt, m0);
    }
  }

  lemma {:induction false} QuietRun(p: Play, ops: seq<Op>, cfg: Config, rt: Host -> Runtime, m0: Host)
    requires Fits(cfg, rt, m0) && Settled(p.cluster, cfg, rt) && QuietOps(ops)
    requires p.update == NO_UPDATE || p.update == Missing(p.cluster, cfg.inventory)
    ensures SameButFewerTaints(p.cluster, DoAll(p, ops, cfg).cluster)
    ensures (forall i :: 0 <= i < |ops| && ops[i].RemoveTaints? ==> UntaintedFor(p.cluster, ops[i].lead, cfg)) ==>
              DoAll(p, ops, cfg).cluster == p.cluster
    decreases |ops|
  {
    if ops != [] {
      var q := Do(p, ops[0], cfg);
      SettledWantsNothing(p.cluster, ops[0], cfg, rt, m0);
      assert SameButFewerTaints(p.cluster, q.cluster);
      assert Missing(q.cluster, cfg.inventory) == Missing(p.cluster, cfg.inventory);
      QuietRun(q, ops[1..], cfg, rt, m0);
    }
  }

  lemma {:induction false} HealthyOpsAreQuiet(batches: seq<Batch>)
    requires HealthyBatches(batches)
    ensures QuietOps(DeployOps(batches))
  {
    if batches != [] {
      HealthyOpsAreQuiet(batches[1..]);
    }
  }

  /** Any later deploy of a settled cluster, batched and cut off in any way, runs no init and no join. */
  lemma {:induction false} LaterDeploysAreQuiet(c: Cluster, cfg: Config, batches: seq<Batch>, cut: nat, rt: Host -> Runtime, m0: Host)
    requires Fits(cfg, rt, m0) && Settled(c, cfg, rt) && HealthyBatches(batches)
    ensures SameButFewerTaints(c, CutDeploy(c, cfg, batches, cut).cluster)
  {
    var ops := DeployOps(batches);
    HealthyOpsAreQuiet(batches);
    QuietRun(Start(c), ops[..if cut <= |ops| then cut else |ops|], cfg, rt, m0);
  }

  /** Idempotence: running the same deploy again changes nothing at all. */
  lemma {:induction false} SecondDeployChangesNothing(c: Cluster, cfg: Config, b: Batch, rt: Host -> Runtime, m0: Host)
    requires Fits(cfg, rt, m0) && Steady(c, rt, m0) && Healthy(b.info)
    requires ValidBatch(b) && Elements(b.masterOrder) == cfg.inventory.Hosts()
    ensures var once := Deploy(c, cfg, [b]).cluster; Deploy(once, cfg, [b]).cluster == once
  {
    DeployConverges(c, cfg, b, rt, m0);
    var once := Deploy(c, cfg, [b]).cluster;
    assert once.nodes.Keys == Target(c, cfg);
    HealthyOpsAreQuiet([b]);
    assert DeployOps([b]) == BatchOps(b) by {
      assert [b][1..] == [] && DeployOps([]) == [];
      assert BatchOps(b) + [] == BatchOps(b);
    }
    QuietRun(Start(once), DeployOps([b]), cfg, rt, m0);
  }

  // ---- Taints that stay

  /** No batch of the run removes this taint: it is no control label, or its node is no target and no batch is led by localhost. */
  predicate Spared(t: (Host, Label), ops: seq<Op>, cfg: Config) {
    t.1 !in cfg.labels || (t.0 !in cfg.inventory.TaintTargets() && forall i :: 0 <= i < |ops| ==> ops[i] != RemoveTaints(LOCALHOST))
  }

  lemma {:induction false} StepSpares(p: Play, op: Op, cfg: Config, t: (Host, Label))
    requires cfg.inventory.Masters() != [] && p.cluster.adminConf && t in p.cluster.taints && Spared(t, [op], cfg)
    ensures Do(p, op, cfg).cluster.adminConf && t in Do(p, op, cfg).cluster.taints
  {
    assert [op][0] == op;
    if op.RemoveTaints? && !p.failed {
      TaintTaskThroughText(p, op.lead, cfg);
      assert (t.0, t.1) == t;
    }
  }

  lemma {:induction false} OpsSpare(p: Play, ops: seq<Op>, cfg: Config, t: (Host, Label))
    requires cfg.inventory.Masters() != [] && p.cluster.adminConf && t in p.cluster.taints && Spared(t, ops, cfg)
    ensures t in DoAll(p, ops, cfg).cluster.taints
    decreases |ops|
  {
    if ops != [] {
      StepSpares(p, ops[0], cfg, t);
      OpsSpare(Do(p, ops[0], cfg), ops[1..], cfg, t);
    }
  }

  /** A deploy of a standing cluster, batched and cut off in any way, removes no other taints. */
  lemma {:induction false} OtherTaintsStay(c: Cluster, cfg: Config, batches: seq<Batch>, cut: nat, t: (Host, Label))
    requires cfg.inventory.Masters() != [] && c.adminConf && t in c.taints && Spared(t, DeployOps(batches), cfg)
    ensures t in CutDeploy(c, cfg, batches, cut).cluster.taints
  {
    var ops := DeployOps(batches);
    OpsSpare(Start(c), ops[..if cut <= |ops| then cut else |ops|], cfg, t);
  }

  // ---- Serial batches

  lemma {:induction false} FailedRunStops(p: Play, ops: seq<Op>, cfg: Config)
    requires p.failed && cfg.inventory.Masters() != []
    ensures DoAll(p, ops, cfg) == p
    decreases |ops|
  {
    if ops != [] {
      FailedRunStops(p, ops[1..], cfg);
    }
  }

  /** The batches up to the first that is not led by localhost, whose taint task is the first that can fail. */
  function TaintBatches(batches: seq<Batch>): seq<Batch> {
    if batches == [] then []
    else if batches[0].lead != LOCALHOST then [batches[0]]
    else [batches[0]] + TaintBatches(batches[1..])
  }

  /** The nodes when that batch has joined its hosts. */
  function FirstReach(nodes: set<Host>, cfg: Config, batches: seq<Batch>): set<Host>
    requires cfg.inventory.Masters() != []
  {
    nodes + {cfg.inventory.Master0()} + Wanted(cfg) * BatchHosts(TaintBatches(batches))
  }

  /** That batch misses a master that is a worker too. */
  predicate SerialRaises(nodes: set<Host>, cfg: Config, batches: seq<Batch>)
    requires cfg.inventory.Masters() != [] && batches != []
  {
    var some := TaintBatches(batches);
    TaintsRaise(FirstReach(nodes, cfg, batches), some[|some| - 1].lead, cfg)
  }

  /** Past a batch led by localhost, the run goes on as from the nodes reached. */
  lemma {:induction false} SkipLocal(nodes: set<Host>, next: set<Host>, cfg: Config, batches: seq<Batch>)
    requires cfg.inventory.Masters() != [] && |batches| > 1 && batches[0].lead == LOCALHOST
    requires next == nodes + {cfg.inventory.Master0()} + Wanted(cfg) * Elements(batches[0].masterOrder)
    ensures FirstReach(next, cfg, batches[1..]) == FirstReach(nodes, cfg, batches)
    ensures SerialRaises(next, cfg, batches[1..]) == SerialRaises(nodes, cfg, batches)
  {
    var some, rest := TaintBatches(batches), TaintBatches(batches[1..]);
    assert some == [batches[0]] + rest && some[1..] == rest;
    assert BatchHosts(some) == Elements(batches[0].masterOrder) + BatchHosts(rest);
    assert FirstReach(next, cfg, batches[1..]) == FirstReach(nodes, cfg, batches);
    assert some[|some| - 1] == rest[|rest| - 1];
  }

  /** A first batch that decides: it is remote, or the only one. */
  lemma {:induction false} FirstDecides(nodes: set<Host>, cfg: Config, batches: seq<Batch>)
    requires cfg.inventory.Masters() != [] && batches != [] && (batches[0].lead != LOCALHOST || |batches| == 1)
    ensures FirstReach(nodes, cfg, batches) ==
            nodes + {cfg.inventory.Master0()} + Wanted(cfg) * Elements(batches[0].masterOrder)
    ensures SerialRaises(nodes, cfg, batches) == TaintsRaise(FirstReach(nodes, cfg, batches), batches[0].lead, cfg)
  {
    assert |batches| == 1 ==> batches[1..] == [] && TaintBatches(batches[1..]) == [];
    var some := TaintBatches(batches);
    assert some == [batches[0]];
    assert some[1..] == [] && BatchHosts(some[1..]) == {};
    assert BatchHosts(some) == Elements(batches[0].masterOrder);
  }

  /**
   A batched run fails exactly in the taint task of its first batch that is not led by localhost, stopping there, and
   else goes through all batches.
   */
  lemma {:induction false} SerialOutcome(p: Play, cfg: Config, batches: seq<Batch>, rt: Host -> Runtime, m0: Host)
    requires Fits(cfg, rt, m0) && Steady(p.cluster, rt, m0) && !p.failed && batches != []
    requires ValidBatches(batches) && HealthyBatches(batches)
    ensures var q := DoAll(p, DeployOps(batches), cfg);
            && Steady(q.cluster, rt, m0)
            && q.failed == SerialRaises(p.cluster.nodes.Keys, cfg, batches)
            && q.cluster.nodes.Keys ==
               if q.failed then FirstReach(p.cluster.nodes.Keys, cfg, batches)
               else p.cluster.nodes.Keys + {m0} + Wanted(cfg) * BatchHosts(batches)
    decreases |batches|
  {
    var b, rest, nodes := batches[0], batches[1..], p.cluster.nodes.Keys;
    SteadyBatchOutcome(p, b, cfg, rt, m0);
    DoAllAppend(p, BatchOps(b), DeployOps(rest), cfg);
    var q := DoAll(p, BatchOps(b), cfg);
    if b.lead != LOCALHOST || rest == [] {
      FirstDecides(nodes, cfg, batches);
    } else {
      SkipLocal(nodes, q.cluster.nodes.Keys, cfg, batches);
    }
    if q.failed {
      FailedRunStops(q, DeployOps(rest), cfg);
    } else if rest != [] {
      SerialOutcome(q, cfg, rest, rt, m0);
    }
  }

  /**
   Serial runs: any partition of the hosts into batches reaches what the single batch reaches, exactly when the first
   batch not led by localhost finds every master that is a worker too, or nothing was left for the later batches.
   */
  lemma {:induction false} SerialMatchesSingleBatchIff(c: Cluster, cfg: Config, batches: seq<Batch>, single: Batch,
                                                       rt: Host -> Runtime, m0: Host)
    requires Fits(cfg, rt, m0) && Steady(c, rt, m0) && batches != []
    requires ValidBatches(batches) && HealthyBatches(batches) && BatchHosts(batches) == cfg.inventory.Hosts()
    requires ValidBatch(single) && Healthy(single.info) && Elements(single.masterOrder) == cfg.inventory.Hosts()
    ensures Deploy(c, cfg, batches).cluster.nodes == Deploy(c, cfg, [single]).cluster.nodes <==>
            !SerialRaises(c.nodes.Keys, cfg, batches) || FirstReach(c.nodes.Keys, cfg, batches) == Target(c, cfg)
  {
    SerialOutcome(Start(c), cfg, batches, rt, m0);
    DeployConverges(c, cfg, single, rt, m0);
    var q := Deploy(c, cfg, batches);
    assert Wanted(cfg) * BatchHosts(batches) == Wanted(cfg);
    SameMembers(q.cluster, Deploy(c, cfg, [single]).cluster, rt);
  }

  lemma {:induction false} SameMembers(c: Cluster, d: Cluster, rt: Host -> Runtime)
    requires AllRun(c, rt) && AllRun(d, rt)
    ensures c.nodes == d.nodes <==> c.nodes.Keys == d.nodes.Keys
  {
    if c.nodes.Keys == d.nodes.Keys {
      assert forall h :: h in c.nodes ==> c.nodes[h] == d.nodes[h];
    }
  }

  /** So when no master is a worker too, batching never matters. */
  lemma {:induction false} SerialRefinement(c: Cluster, cfg: Config, batches: seq<Batch>, single: Batch, rt: Host -> Runtime, m0: Host)
    requires Fits(cfg, rt, m0) && Steady(c, rt, m0) && batches != []
    requires ValidBatches(batches) && HealthyBatches(batches) && BatchHosts(batches) == cfg.inventory.Hosts()
    requires ValidBatch(single) && Healthy(single.info) && Elements(single.masterOrder) == cfg.inventory.Hosts()
    requires cfg.inventory.TaintTargets() == {}
    ensures Deploy(c, cfg, batches).cluster.nodes == Deploy(c, cfg, [single]).cluster.nodes
    ensures !Deploy(c, cfg, batches).failed
  {
    SerialMatchesSingleBatchIff(c, cfg, batches, single, rt, m0);
    SerialOutcome(Start(c), cfg, batches, rt, m0);
  }
}
