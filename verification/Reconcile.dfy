/**
 The cluster reconciliation of ansible/roles/kubernetes/tasks/config.yml and destroy.yml as a state machine.
 kubeadm's init, join and reset are atomic steps; a deploy is a list of task executions, and an interrupted
 deploy is a prefix of that list.
 */
module Reconcile {
  import opened Wrappers
  import opened Sequences
  import opened KubeToolbox
  import opened CommandLine
  import Sockets
  import Gathering
  import Answers

  type Host = string
  type Label = string
  type Runtime = Sockets.Runtime

  const LOCALHOST: string := "localhost"

  /** The four host groups of an inventory; `kube-master` and `kube-node` are built from them. */
  datatype Inventory = Inventory(dockerMasters: seq<Host>, containerdMasters: seq<Host>,
                                 dockerNodes: seq<Host>, containerdNodes: seq<Host>)
  {
    function Masters(): seq<Host> { dockerMasters + containerdMasters }
    function Workers(): seq<Host> { dockerNodes + containerdNodes }
    function Hosts(): set<Host> { Elements(Masters()) + Elements(Workers()) }

    /** `groups['kube-master'][0]` */
    function Master0(): Host
      requires Masters() != []
    {
      Masters()[0]
    }

    function MasterRuntime(): Runtime
      requires Masters() != []
    {
      if Master0() in dockerMasters then Sockets.Docker else Sockets.Containerd
    }

    function Groups(): KubeGroups {
      KubeGroups(Elements(dockerMasters), Elements(containerdMasters), Elements(dockerNodes), Elements(containerdNodes))
    }

    /** Masters that are worker nodes too, and so lose their control-plane taints. */
    function TaintTargets(): set<Host> {
      Elements(Masters()) * Elements(Workers())
    }

    /** The group of runtime `r` that a host's join reads: a master group for masters, a node group for the others. */
    predicate Listed(h: Host, r: Runtime) {
      if h in Masters() then h in (if r.Docker? then dockerMasters else containerdMasters)
      else h in (if r.Docker? then dockerNodes else containerdNodes)
    }

    /** Only the groups of one runtime have hosts. */
    predicate SingleRuntime(r: Runtime) {
      match r
      case Docker => containerdMasters == [] && containerdNodes == []
      case Containerd => dockerMasters == [] && dockerNodes == []
    }
  }

  /**
   The settings of one run; `cpTaints` are the labels kubeadm puts on control-plane nodes, and `nodeNames` the names
   under which hosts register whose own name is not the one in the inventory.
   */
  datatype Config = Config(inventory: Inventory, isHa: bool, release: string, labels: seq<Label>, cpTaints: set<Label>,
                           nodeNames: map<Host, Host>)
  {
    function NodeOf(h: Host): Host {
      if h in nodeNames then nodeNames[h] else h
    }
  }

  /** The hosts a deploy wants in the cluster besides master0. */
  function Wanted(cfg: Config): set<Host> {
    var masters, workers := Elements(cfg.inventory.Masters()), Elements(cfg.inventory.Workers());
    (if cfg.isHa then masters else {}) + (workers - masters)
  }

  /** `Destroyed` follows the reset that takes the cluster with it. */
  datatype Event = Initialised | Joined(host: Host) | Refused(host: Host) | Reset(host: Host) | Destroyed

  /**
   `nodes`: the node objects of the current cluster, by node name, with the runtime they report; so are `taints`.
   `enrolled`: the hosts holding kubeadm files; kubeadm's preflight refuses to init or join them.
   */
  datatype Cluster = Cluster(adminConf: bool, nodes: map<Host, Runtime>, enrolled: set<Host>,
                             taints: set<(Host, Label)>, history: seq<Event>)

  const NO_CLUSTER: Cluster := Cluster(false, map[], {}, {}, [])
  const NO_UPDATE: KubeGroups := KubeGroups({}, {}, {}, {})

  /** A run in progress: the cluster, the registered update lists, and whether a run-once task has failed. */
  datatype Play = Play(cluster: Cluster, update: KubeGroups, failed: bool)

  // ---- kubeadm

  function Tainted(h: Host, labels: set<Label>): set<(Host, Label)> {
    set l | l in labels :: (h, l)
  }

  function KubeadmInit(c: Cluster, m0: Host, node: Host, r: Runtime, cpTaints: set<Label>): Cluster {
    Cluster(true, map[node := r], c.enrolled + {m0}, Tainted(node, cpTaints), c.history + [Initialised])
  }

  function KubeadmJoin(c: Cluster, h: Host, node: Host, r: Runtime, cpTaints: set<Label>): Cluster {
    if h in c.enrolled then c.(history := c.history + [Refused(h)])
    else Cluster(c.adminConf, c.nodes[node := r], c.enrolled + {h}, c.taints + Tainted(node, cpTaints), c.history + [Joined(h)])
  }

  /** Resetting master0 takes the cluster with it; resetting another host leaves its node object behind. */
  function KubeadmReset(c: Cluster, h: Host, m0: Host): Cluster {
    if h == m0 then Cluster(false, map[], c.enrolled - {h}, {}, c.history + [Reset(h)] + [Destroyed])
    else c.(enrolled := c.enrolled - {h}, history := c.history + [Reset(h)])
  }

  // ---- Tasks

  /** One execution of a task: `info` answers `kubectl cluster-info`, `lead` is the first host of the batch. */
  datatype Op = Init(info: Outcome) | Gather | MasterJoin(host: Host) | WorkerJoin(host: Host) | RemoveTaints(lead: Host)

  /** What `get` finds missing in the current cluster. */
  function Missing(c: Cluster, inv: Inventory): KubeGroups {
    var docker := set h | h in c.nodes && c.nodes[h] == Sockets.Docker;
    var containerd := set h | h in c.nodes && c.nodes[h] == Sockets.Containerd;
    KubeGroups(inv.Groups().dockerMaster - docker, inv.Groups().containerdMaster - containerd,
               inv.Groups().dockerNode - docker, inv.Groups().containerdNode - containerd)
  }

  function InitTask(p: Play, info: Outcome, cfg: Config): Play
    requires cfg.inventory.Masters() != []
  {
    var c, m0 := p.cluster, cfg.inventory.Master0();
    var running := ClusterExists(c.adminConf, info);
    if running == Ok(true) then p
    else if running.Err? || c.adminConf then p.(failed := true)
    else if m0 in c.enrolled then Play(c.(history := c.history + [Refused(m0)]), p.update, true)
    else p.(cluster := KubeadmInit(c, m0, cfg.NodeOf(m0), cfg.inventory.MasterRuntime(), cfg.cpTaints))
  }

  function JoinIf(c: Cluster, wanted: bool, h: Host, own: Runtime, cfg: Config, cpTaints: set<Label>): Cluster
    requires cfg.inventory.Masters() != []
  {
    if wanted then KubeadmJoin(c, h, cfg.NodeOf(h), Sockets.JoinRuntime(own, cfg.inventory.MasterRuntime(), cfg.release), cpTaints)
    else c
  }

  /** The control-plane join task on one host: its loop visits both master lists. */
  function MasterJoinTask(p: Play, h: Host, cfg: Config): Play
    requires cfg.inventory.Masters() != []
  {
    var c := JoinIf(p.cluster, h in p.update.dockerMaster && cfg.isHa, h, Sockets.Docker, cfg, cfg.cpTaints);
    p.(cluster := JoinIf(c, h in p.update.containerdMaster && cfg.isHa, h, Sockets.Containerd, cfg, cfg.cpTaints))
  }

  /** The worker join task on one host: masters are skipped. */
  function WorkerJoinTask(p: Play, h: Host, cfg: Config): Play
    requires cfg.inventory.Masters() != []
  {
    var worker := h !in cfg.inventory.Masters();
    var c := JoinIf(p.cluster, worker && h in p.update.dockerNode, h, Sockets.Docker, cfg, {});
    p.(cluster := JoinIf(c, worker && h in p.update.containerdNode, h, Sockets.Containerd, cfg, {}))
  }

  /** `kubectl taint node m l-` raises: the node is unknown and `_run` does not excuse the message. */
  predicate TaintRaises(nodes: set<Host>, m: Host) {
    m !in nodes && RunResult(Outcome(1, "", Gathering.NodeNotFound(m))).Err?
  }

  predicate TaintsRaise(nodes: set<Host>, lead: Host, cfg: Config) {
    lead != LOCALHOST && cfg.labels != [] && exists m :: m in cfg.inventory.TaintTargets() && TaintRaises(nodes, m)
  }

  function Untainted(taints: set<(Host, Label)>, hosts: set<Host>, labels: seq<Label>): set<(Host, Label)> {
    set t | t in taints && !(t.0 in hosts && t.1 in labels)
  }

  /** The two taint tasks: master0 drives one per target and label, or all nodes at once when run on localhost. */
  function RemoveTaintsTask(p: Play, lead: Host, cfg: Config): Play {
    var c := p.cluster;
    var hosts := if lead == LOCALHOST then c.nodes.Keys else cfg.inventory.TaintTargets() * c.nodes.Keys;
    p.(cluster := c.(taints := Untainted(c.taints, hosts, cfg.labels)),
       failed := TaintsRaise(c.nodes.Keys, lead, cfg))
  }

  /** A failed run-once task ends the run for every host. */
  function Do(p: Play, op: Op, cfg: Config): Play
    requires cfg.inventory.Masters() != []
  {
    if p.failed then p
    else match op
      case Init(info) => InitTask(p, info, cfg)
      case Gather => if p.cluster.adminConf then p.(update := Missing(p.cluster, cfg.inventory)) else p.(failed := true)
      case MasterJoin(h) => MasterJoinTask(p, h, cfg)
      case WorkerJoin(h) => WorkerJoinTask(p, h, cfg)
      case RemoveTaints(lead) => RemoveTaintsTask(p, lead, cfg)
  }

  function DoAll(p: Play, ops: seq<Op>, cfg: Config): Play
    requires cfg.inventory.Masters() != []
    decreases |ops|
  {
    if ops == [] then p else DoAll(Do(p, ops[0], cfg), ops[1..], cfg)
  }

  // ---- Runs

  /** A batch of hosts; each join task reaches them in its own order. */
  datatype Batch = Batch(masterOrder: seq<Host>, workerOrder: seq<Host>, lead: Host, info: Outcome)

  function MasterJoins(order: seq<Host>): seq<Op> {
    seq(|order|, i requires 0 <= i < |order| => MasterJoin(order[i]))
  }

  function WorkerJoins(order: seq<Host>): seq<Op> {
    seq(|order|, i requires 0 <= i < |order| => WorkerJoin(order[i]))
  }

  function BatchOps(b: Batch): seq<Op> {
    [Init(b.info), Gather] + MasterJoins(b.masterOrder) + WorkerJoins(b.workerOrder) + [RemoveTaints(b.lead)]
  }

  function DeployOps(batches: seq<Batch>): seq<Op> {
    if batches == [] then [] else BatchOps(batches[0]) + DeployOps(batches[1..])
  }

  /** A task runs once on each host of its batch. */
  predicate ValidBatch(b: Batch) {
    Distinct(b.masterOrder) && Distinct(b.workerOrder) && Elements(b.masterOrder) == Elements(b.workerOrder)
  }

  predicate ValidBatches(batches: seq<Batch>) {
    forall i :: 0 <= i < |batches| ==> ValidBatch(batches[i])
  }

  function BatchHosts(batches: seq<Batch>): set<Host> {
    if batches == [] then {} else Elements(batches[0].masterOrder) + BatchHosts(batches[1..])
  }

  function Start(c: Cluster): Play {
    Play(c, NO_UPDATE, false)
  }

  /** A deploy: all its task executions, in order. */
  function Deploy(c: Cluster, cfg: Config, batches: seq<Batch>): Play
    requires cfg.inventory.Masters() != []
  {
    DoAll(Start(c), DeployOps(batches), cfg)
  }

  /** A deploy cut off after `cut` task executions. */
  function CutDeploy(c: Cluster, cfg: Config, batches: seq<Batch>, cut: nat): Play
    requires cfg.inventory.Masters() != []
  {
    var ops := DeployOps(batches);
    DoAll(Start(c), ops[..if cut <= |ops| then cut else |ops|], cfg)
  }

  /** The reset task, host by host. */
  function ResetAll(c: Cluster, order: seq<Host>, m0: Host): Cluster
    decreases |order|
  {
    if order == [] then c else ResetAll(KubeadmReset(c, order[0], m0), order[1..], m0)
  }

  datatype Action = Deployment(cfg: Config, batches: seq<Batch>, cut: nat) | Destruction(inventory: Inventory, order: seq<Host>)
  {
    function Inv(): Inventory {
      match this
      case Deployment(cfg, _, _) => cfg.inventory
      case Destruction(inventory, _) => inventory
    }
  }

  function Act(c: Cluster, a: Action): Cluster
    requires a.Inv().Masters() != []
  {
    match a
    case Deployment(cfg, batches, cut) => CutDeploy(c, cfg, batches, cut).cluster
    case Destruction(inventory, order) => ResetAll(c, order, inventory.Master0())
  }

  predicate Runnable(run: seq<Action>) {
    forall i :: 0 <= i < |run| ==> run[i].Inv().Masters() != []
  }

  function Execute(c: Cluster, run: seq<Action>): Cluster
    requires Runnable(run)
  {
    if run == [] then c else Act(Execute(c, run[..|run| - 1]), run[|run| - 1])
  }

  /** Master0 is the first docker master, or without one the first containerd master, and runs its group's runtime. */
  lemma {:induction false} Master0IsFirst(inv: Inventory)
    requires inv.Masters() != []
    ensures if inv.dockerMasters != [] then inv.Master0() == inv.dockerMasters[0] && inv.MasterRuntime() == Sockets.Docker
            else inv.Master0() == inv.containerdMasters[0] && inv.MasterRuntime() == Sockets.Containerd
  {
  }

  /** What `get` reads off the printed node table of the current cluster is what is missing from it. */
  lemma {:induction false} MissingThroughText(c: Cluster, inv: Inventory, header: string, t: seq<Gathering.NodeTable.NodeRow>, answers: seq<Outcome>)
    requires Gathering.PrintedReads(header, [t, t, t, t], answers)
    requires Gathering.DockerNodes(t) == set h | h in c.nodes && c.nodes[h] == Sockets.Docker
    requires Gathering.ContainerdNodes(t) == set h | h in c.nodes && c.nodes[h] == Sockets.Containerd
    ensures UpdateNodes(inv.Groups(), answers) == Ok(Missing(c, inv))
  {
    Gathering.DifferenceThroughText(inv.Groups(), header, [t, t, t, t], answers);
  }

  /** The snapshot step is what `get` makes of printed tables; without admin.conf `get` raises, and the run fails. */
  lemma {:induction false} GatherThroughText(p: Play, cfg: Config, header: string, t: seq<Gathering.NodeTable.NodeRow>, answers: seq<Outcome>)
    requires cfg.inventory.Masters() != [] && !p.failed && Gathering.PrintedReads(header, [t, t, t, t], answers)
    requires Gathering.DockerNodes(t) == set h | h in p.cluster.nodes && p.cluster.nodes[h] == Sockets.Docker
    requires Gathering.ContainerdNodes(t) == set h | h in p.cluster.nodes && p.cluster.nodes[h] == Sockets.Containerd
    ensures var read := UpdateNodes(cfg.inventory.Groups(), answers);
            && read.Ok?
            && Do(p, Gather, cfg) == if p.cluster.adminConf then Play(p.cluster, read.value, false) else Play(p.cluster, p.update, true)
  {
    MissingThroughText(p.cluster, cfg.inventory, header, t, answers);
  }

  /**
   The init step is what `run` makes of the answers on master0, kubeadm refusing to init where its files are: the
   init fails exactly when `run` raises, and reports a change exactly when there is a cluster that was not there.
   */
  lemma {:induction false} InitThroughRun(p: Play, cfg: Config, info: Outcome, init: Outcome, line: string)
    requires cfg.inventory.Masters() != [] && !p.failed
    requires Answers.Fails(init) <==> p.cluster.adminConf || cfg.inventory.Master0() in p.cluster.enrolled
    ensures var answers := if p.cluster.adminConf then [info, init] else [init];
            var plan := RunPlan(Bootstrap, false, Ok(line), p.cluster.adminConf, answers);
            var q := Do(p, Init(info), cfg);
            && (plan.Err? <==> q.failed)
            && (plan.Ok? && plan.value.Changes() <==> q.cluster.adminConf && !p.cluster.adminConf)
            && (plan == Ok(AlreadyRunning) ==> q == p)
  {
    Answers.FailsMeans(init);
  }

  /** The init step by what `kubectl cluster-info` prints: a running cluster is left alone, any other answer fails the run. */
  lemma {:induction false} InitThroughText(p: Play, cfg: Config, info: Outcome)
    requires cfg.inventory.Masters() != [] && !p.failed && p.cluster.adminConf
    ensures Do(p, Init(info), cfg) == if Answers.Running(info) then p else p.(failed := true)
  {
    Answers.RunningMeans(info);
  }

  /** Whatever surrounds the words, and whatever is on standard error. */
  lemma {:induction false} RunningClusterIsLeftAlone(p: Play, cfg: Config, before: string, after: string, stderr: string)
    requires cfg.inventory.Masters() != [] && !p.failed && p.cluster.adminConf
    ensures Do(p, Init(Outcome(0, before + "is running at" + after, stderr)), cfg) == p
  {
    InitThroughText(p, cfg, Outcome(0, before + "is running at" + after, stderr));
  }

  /** What `kubectl taint node m l-` says. */
  function TaintAnswer(c: Cluster, m: Host, l: Label): Outcome {
    if m !in c.nodes then Outcome(1, "", Gathering.NodeNotFound(m))
    else if (m, l) in c.taints then Outcome(0, "node/" + m + " untainted", "")
    else Outcome(1, "", Gathering.TaintNotFound(l))
  }

  lemma {:induction false} TaintAnswerFails(c: Cluster, m: Host, l: Label)
    ensures Answers.Fails(TaintAnswer(c, m, l)) <==> TaintRaises(c.nodes.Keys, m)
  {
    Answers.FailsMeans(TaintAnswer(c, m, l));
    Gathering.TaintIsIdempotentThroughRun(l, m);
  }

  /**
   The taint task by what kubectl says: run for master0 it fails exactly when the command fails for a master that is a
   worker too; it removes the control labels of those, or of all nodes on localhost, and no other taint.
   */
  lemma {:induction false} TaintTaskThroughText(p: Play, lead: Host, cfg: Config)
    requires cfg.inventory.Masters() != [] && !p.failed
    ensures var c, inv, q := p.cluster, cfg.inventory, Do(p, RemoveTaints(lead), cfg);
            && q == p.(cluster := c.(taints := q.cluster.taints), failed := q.failed)
            && (q.failed <==>
                 lead != "localhost"
                 && exists m, l :: m in inv.Masters() && m in inv.Workers() && l in cfg.labels && Answers.Fails(TaintAnswer(c, m, l)))
            && forall h, l :: (h, l) in q.cluster.taints <==>
                 (h, l) in c.taints
                 && !(l in cfg.labels && h in c.nodes && (lead == "localhost" || (h in inv.Masters() && h in inv.Workers())))
  {
    var c, inv, q := p.cluster, cfg.inventory, Do(p, RemoveTaints(lead), cfg);
    forall m, l
      ensures Answers.Fails(TaintAnswer(c, m, l)) <==> TaintRaises(c.nodes.Keys, m)
    {
      TaintAnswerFails(c, m, l);
    }
    if q.failed {
      var m :| m in inv.TaintTargets() && TaintRaises(c.nodes.Keys, m);
      assert cfg.labels[0] in cfg.labels && Answers.Fails(TaintAnswer(c, m, cfg.labels[0]));
    }
  }

  lemma {:induction false} DoAllAppend(p: Play, a: seq<Op>, b: seq<Op>, cfg: Config)
    requires cfg.inventory.Masters() != []
    ensures DoAll(p, a + b, cfg) == DoAll(DoAll(p, a, cfg), b, cfg)
    decreases |a|
  {
    if a == [] {
      assert a + b == b;
    } else {
      assert (a + b)[1..] == a[1..] + b;
      DoAllAppend(Do(p, a[0], cfg), a[1..], b, cfg);
    }
  }
}
