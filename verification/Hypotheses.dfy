/** What happens when a hypothesis of the safety and convergence results is dropped, with the exact condition where there is one. */
module Hypotheses {
  import opened Sequences
  import opened KubeToolbox
  import opened Reconcile
  import opened Safety
  import opened Convergence
  import Sockets

  // ---- Destroys that are cut off

  /** The hosts that really serve the cluster: a node object and kubeadm files on the host. */
  function Serving(c: Cluster): set<Host> {
    c.nodes.Keys * c.enrolled
  }

  /**
   A destroy that reset only some hosts, followed by a full deploy, brings every wanted host back exactly when
   no wanted host kept its files (if master0 was reset), or no wanted host lost them (if it was not).
   */
  lemma {:induction false} CutDestroyRecoversIff(c: Cluster, order: seq<Host>, cfg: Config, b: Batch, rt: Host -> Runtime, m0: Host)
    requires Fits(cfg, rt, m0) && Steady(c, rt, m0) && c.adminConf && Healthy(b.info)
    requires ValidBatch(b) && Elements(b.masterOrder) == cfg.inventory.Hosts()
    ensures var after := Deploy(ResetAll(c, order, m0), cfg, [b]).cluster;
            Wanted(cfg) + {m0} <= Serving(after) <==>
            if m0 in order then (c.enrolled - Elements(order)) * Wanted(cfg) == {}
            else Elements(order) * c.enrolled * Wanted(cfg) == {}
  {
    var d := ResetAll(c, order, m0);
    ResetHosts(c, order, m0);
    ResetCluster(c, order, m0);
    BatchOutcome(Start(d), b, cfg, rt, m0);
    assert [b][1..] == [] && DeployOps([]) == [];
    assert DeployOps([b]) == BatchOps(b) + [] == BatchOps(b);
    var after := Deploy(d, cfg, [b]).cluster;
    assert Wanted(cfg) * Elements(b.masterOrder) == Wanted(cfg);
    var nodes, enrolled := OpenedNodes(d, m0), OpenedEnrolled(d, m0);
    assert after.nodes.Keys == nodes + (Wanted(cfg) - nodes - enrolled) && after.enrolled == enrolled + (Wanted(cfg) - nodes);
    if m0 in order {
      LeftBehind(c.enrolled, Elements(order), Wanted(cfg), m0, after);
    } else {
      LostFiles(c.enrolled, Elements(order), Wanted(cfg), m0, after);
    }
  }

  /** The hosts that kept their files are refused by the new cluster. */
  lemma {:induction false} LeftBehind(old_: set<Host>, order: set<Host>, wanted: set<Host>, m0: Host, after: Cluster)
    requires m0 in order && after.nodes.Keys == {m0} + (wanted - {m0} - (old_ - order + {m0}))
    requires after.enrolled == old_ - order + {m0} + (wanted - {m0})
    ensures wanted + {m0} <= Serving(after) <==> (old_ - order) * wanted == {}
  {
    if h :| h in (old_ - order) * wanted {
      assert h !in Serving(after);
    }
  }

  /** The hosts that lost their files are still in the node table, and so not missing. */
  lemma {:induction false} LostFiles(old_: set<Host>, order: set<Host>, wanted: set<Host>, m0: Host, after: Cluster)
    requires m0 !in order && m0 in old_ && after.nodes.Keys == old_ + (wanted - old_ - (old_ - order))
    requires after.enrolled == old_ - order + (wanted - old_)
    ensures wanted + {m0} <= Serving(after) <==> order * old_ * wanted == {}
  {
    if h :| h in order * old_ * wanted {
      assert h !in Serving(after);
    } else {
      forall h | h in wanted + {m0}
        ensures h in Serving(after)
      {
        assert h in order && h in wanted ==> h !in old_ by {
          assert h !in order * old_ * wanted;
        }
      }
    }
  }

  /** Hosts reset while master0 was not stay out for good: no later deploy, however batched or cut, enrols them. */
  lemma {:induction false} StrandedForGood(c: Cluster, order: seq<Host>, cfg: Config, batches: seq<Batch>, cut: nat, rt: Host -> Runtime, m0: Host)
    requires Fits(cfg, rt, m0) && Settled(c, cfg, rt) && HealthyBatches(batches) && m0 !in order
    ensures var d := ResetAll(c, order, m0);
            var after := CutDeploy(d, cfg, batches, cut).cluster;
            after.enrolled == c.enrolled - Elements(order) && after.nodes == c.nodes && after.history == d.history
  {
    ResetHosts(c, order, m0);
    ResetCluster(c, order, m0);
    LaterDeploysAreQuiet(ResetAll(c, order, m0), cfg, batches, cut, rt, m0);
  }

  // ---- A cluster that does not answer

  /** With admin.conf present and no running cluster behind it, a deploy stops at once and changes nothing. */
  lemma {:induction false} UnhealthyClusterStopsTheRun(c: Cluster, cfg: Config, batches: seq<Batch>)
    requires cfg.inventory.Masters() != [] && batches != []
    requires c.adminConf && !Healthy(batches[0].info)
    ensures Deploy(c, cfg, batches) == Play(c, NO_UPDATE, true)
  {
    var ops := DeployOps(batches);
    assert ops[0] == Init(batches[0].info);
    var stopped := Do(Start(c), ops[0], cfg);
    InitThroughText(Start(c), cfg, batches[0].info);
    FailedRunStops(stopped, ops[1..], cfg);
  }

  // ---- Serial batches with masters that are workers

  /** In HA, a batched run whose first batch misses a master that is a worker too never reaches the target. */
  lemma {:induction false} SerialStopsShort(c: Cluster, cfg: Config, batches: seq<Batch>, rt: Host -> Runtime, m0: Host, m: Host)
    requires Fits(cfg, rt, m0) && Steady(c, rt, m0) && batches != [] && cfg.isHa && cfg.labels != []
    requires ValidBatches(batches) && HealthyBatches(batches)
    requires exists i :: 0 <= i < |batches| && batches[i].lead != LOCALHOST
    requires m in cfg.inventory.TaintTargets() && TaintRaises(FirstReach(c.nodes.Keys, cfg, batches), m)
    ensures var q := Deploy(c, cfg, batches);
            q.failed && m in Target(c, cfg) && m !in q.cluster.nodes
  {
    SerialOutcome(Start(c), cfg, batches, rt, m0);
    LastTaintBatch(batches);
  }

  lemma {:induction false} LastTaintBatch(batches: seq<Batch>)
    requires exists i :: 0 <= i < |batches| && batches[i].lead != LOCALHOST
    ensures var some := TaintBatches(batches); some != [] && some[|some| - 1].lead != LOCALHOST
  {
    if batches[0].lead == LOCALHOST {
      var i :| 0 <= i < |batches| && batches[i].lead != LOCALHOST;
      assert batches[1..][i - 1] == batches[i];
      LastTaintBatch(batches[1..]);
      assert TaintBatches(batches) == [batches[0]] + TaintBatches(batches[1..]);
    }
  }

  // ---- Mixed and overlapping inventories

  lemma {:induction false} CountFinds(history: seq<Event>, e: Event)
    ensures Count(history, e) > 0 <==> e in history
  {
    if history != [] {
      var before := history[..|history| - 1];
      CountFinds(before, e);
      assert history == before + [history[|history| - 1]];
    }
  }

  lemma {:induction false} SomethingRefused(history: seq<Event>, h: Host)
    requires Count(history, Refused(h)) > 0
    ensures !NothingRefused(history)
  {
    CountFinds(history, Refused(h));
    var i :| 0 <= i < |history| && history[i] == Refused(h);
    assert history[i].Refused?;
  }

  /** The node table has the same entry for a host, or still none. */
  predicate SameNode(c: Cluster, d: Cluster, h: Host) {
    (h in c.nodes <==> h in d.nodes) && (h in c.nodes ==> d.nodes[h] == c.nodes[h])
  }

  /** None of the other hosts goes by this host's name. */
  predicate OwnName(cfg: Config, hosts: set<Host>, h: Host) {
    forall g :: g in hosts && g != h ==> cfg.NodeOf(g) != h
  }

  /** No host of the inventory registers under the name another one has there. */
  predicate NoAliases(cfg: Config) {
    forall h :: h in cfg.inventory.Hosts() ==> OwnName(cfg, cfg.inventory.Hosts(), h)
  }

  /** Joining an enrolled host does nothing but add a refusal. */
  lemma {:induction false} JoinIfRefuses(c: Cluster, wanted: bool, g: Host, own: Runtime, cfg: Config, labels: set<Label>, h: Host)
    requires cfg.inventory.Masters() != []
    ensures var d := JoinIf(c, wanted, g, own, cfg, labels);
            && d.adminConf == c.adminConf && d.enrolled == c.enrolled + (if wanted then {g} else {})
            && (h in c.enrolled && OwnName(cfg, {g}, h) ==> SameNode(c, d, h))
            && Count(d.history, Refused(h)) ==
               Count(c.history, Refused(h)) + One(wanted && g == h && h in c.enrolled)
  {
    CountAppend(c.history, Refused(h), Joined(g));
    CountAppend(c.history, Refused(h), Refused(g));
  }

  /** Whatever the inventory: a join step enrols the host it wants, and refuses it if it was enrolled. */
  lemma {:induction false} JoinStepRefuses(p: Play, op: Op, cfg: Config, h: Host)
    requires cfg.inventory.Masters() != [] && IsJoin(op) && !p.failed
    ensures var q := Do(p, op, cfg);
            && !q.failed && q.update == p.update && q.cluster.adminConf == p.cluster.adminConf
            && q.cluster.enrolled == p.cluster.enrolled + (if Wants(p.update, op, cfg) then {op.host} else {})
            && (h in p.cluster.enrolled && OwnName(cfg, {op.host}, h) ==> SameNode(p.cluster, q.cluster, h))
            && Count(q.cluster.history, Refused(h)) >=
               Count(p.cluster.history, Refused(h)) + One(Wants(p.update, op, cfg) && op.host == h && h in p.cluster.enrolled)
  {
    var c, u, g := p.cluster, p.update, op.host;
    if op.MasterJoin? {
      JoinIfRefuses(c, g in u.dockerMaster && cfg.isHa, g, Sockets.Docker, cfg, cfg.cpTaints, h);
      var d := JoinIf(c, g in u.dockerMaster && cfg.isHa, g, Sockets.Docker, cfg, cfg.cpTaints);
      JoinIfRefuses(d, g in u.containerdMaster && cfg.isHa, g, Sockets.Containerd, cfg, cfg.cpTaints, h);
    } else {
      var worker := g !in cfg.inventory.Masters();
      JoinIfRefuses(c, worker && g in u.dockerNode, g, Sockets.Docker, cfg, {}, h);
      var d := JoinIf(c, worker && g in u.dockerNode, g, Sockets.Docker, cfg, {});
      JoinIfRefuses(d, worker && g in u.containerdNode, g, Sockets.Containerd, cfg, {}, h);
    }
  }

  function HostsOf(ops: seq<Op>): set<Host> {
    set i | 0 <= i < |ops| && IsJoin(ops[i]) :: ops[i].host
  }

  lemma {:induction false} HostsOfTail(ops: seq<Op>)
    requires ops != [] && IsJoin(ops[0])
    ensures ops[0].host in HostsOf(ops) && HostsOf(ops[1..]) <= HostsOf(ops)
  {
    assert ops[0] == ops[0];
    forall h | h in HostsOf(ops[1..])
      ensures h in HostsOf(ops)
    {
      var i :| 0 <= i < |ops[1..]| && IsJoin(ops[1..][i]) && ops[1..][i].host == h;
      assert ops[i + 1] == ops[1..][i];
    }
  }

  lemma {:induction false} JoinsRefuse(p: Play, ops: seq<Op>, cfg: Config, h: Host)
    requires cfg.inventory.Masters() != [] && !p.failed && forall i :: 0 <= i < |ops| ==> IsJoin(ops[i])
    ensures var q := DoAll(p, ops, cfg);
            && !q.failed && q.cluster.adminConf == p.cluster.adminConf
            && q.cluster.enrolled == p.cluster.enrolled + WantedBy(p.update, ops, cfg)
            && (h in p.cluster.enrolled && OwnName(cfg, HostsOf(ops), h) ==> SameNode(p.cluster, q.cluster, h))
            && Count(q.cluster.history, Refused(h)) >=
               Count(p.cluster.history, Refused(h)) + One(h in WantedBy(p.update, ops, cfg) && h in p.cluster.enrolled)
    decreases |ops|
  {
    if ops != [] {
      var q := Do(p, ops[0], cfg);
      HostsOfTail(ops);
      JoinStepRefuses(p, ops[0], cfg, h);
      JoinsRefuse(q, ops[1..], cfg, h);
    }
  }

  /** The joins of a batch. */
  function Joins(b: Batch): seq<Op> {
    MasterJoins(b.masterOrder) + WorkerJoins(b.workerOrder)
  }

  lemma {:induction false} HostsOfJoins(b: Batch)
    requires ValidBatch(b)
    ensures forall i :: 0 <= i < |Joins(b)| ==> IsJoin(Joins(b)[i])
    ensures HostsOf(Joins(b)) <= Elements(b.masterOrder)
  {
    var ops, n := Joins(b), |b.masterOrder|;
    forall i | 0 <= i < |ops|
      ensures IsJoin(ops[i]) && ops[i].host in Elements(b.masterOrder)
    {
      assert ops[i] == if i < n then MasterJoin(b.masterOrder[i]) else WorkerJoin(b.workerOrder[i - n]);
      assert i >= n ==> b.workerOrder[i - n] in Elements(b.workerOrder);
    }
  }

  /** A full deploy is its init and snapshot, its joins, and a taint task that only touches taints. */
  lemma {:induction false} DeployInParts(c: Cluster, cfg: Config, b: Batch)
    requires cfg.inventory.Masters() != []
    ensures var joined := DoAll(Do(Do(Start(c), Init(b.info), cfg), Gather, cfg), Joins(b), cfg).cluster;
            Deploy(c, cfg, [b]).cluster == joined.(taints := Deploy(c, cfg, [b]).cluster.taints)
  {
    var opening, closing := [Init(b.info), Gather], [RemoveTaints(b.lead)];
    assert [b][1..] == [] && DeployOps([]) == [];
    assert DeployOps([b]) == BatchOps(b) == opening + (Joins(b) + closing);
    assert opening[1..] == [Gather] && [Gather][1..] == [] && closing[1..] == [];
    var p := Do(Start(c), Init(b.info), cfg);
    assert DoAll(Start(c), opening, cfg) == DoAll(p, [Gather], cfg) == Do(p, Gather, cfg);
    var q := Do(p, Gather, cfg);
    DoAllAppend(Start(c), opening, Joins(b) + closing, cfg);
    DoAllAppend(q, Joins(b), closing, cfg);
    var joined := DoAll(q, Joins(b), cfg);
    assert DoAll(joined, closing, cfg) == Do(joined, RemoveTaints(b.lead), cfg);
  }

  /** Some group of its role lists the host for a runtime that the node table does not show for it. */
  predicate Misfit(c: Cluster, cfg: Config, h: Host) {
    && h in Wanted(cfg) && h in c.enrolled
    && exists r :: cfg.inventory.Listed(h, r) && !(h in c.nodes && c.nodes[h] == r)
  }

  lemma {:induction false} MisfitIsWanted(c: Cluster, cfg: Config, b: Batch, h: Host)
    requires Misfit(c, cfg, h) && ValidBatch(b) && h in Elements(b.masterOrder)
    ensures h in WantedBy(Missing(c, cfg.inventory), Joins(b), cfg)
  {
    var r :| cfg.inventory.Listed(h, r) && !(h in c.nodes && c.nodes[h] == r);
    OpsForHost(b, h);
    assert Wants(Missing(c, cfg.inventory), JoinOf(h, cfg), cfg);
  }

  /** A full deploy over a running cluster refuses a misfit, and leaves it one. */
  lemma {:induction false} MisfitIsRefused(c: Cluster, cfg: Config, b: Batch, h: Host)
    requires cfg.inventory.Masters() != [] && c.adminConf && Healthy(b.info) && ValidBatch(b)
    requires Misfit(c, cfg, h) && h in Elements(b.masterOrder) && OwnName(cfg, Elements(b.masterOrder), h)
    ensures var d := Deploy(c, cfg, [b]).cluster;
            && d.adminConf && Misfit(d, cfg, h) && Count(d.history, Refused(h)) > Count(c.history, Refused(h))
  {
    DeployInParts(c, cfg, b);
    InitThroughText(Start(c), cfg, b.info);
    var q := Do(Do(Start(c), Init(b.info), cfg), Gather, cfg);
    assert q == Play(c, Missing(c, cfg.inventory), false);
    MisfitIsWanted(c, cfg, b, h);
    HostsOfJoins(b);
    JoinsRefuse(q, Joins(b), cfg, h);
    var d := Deploy(c, cfg, [b]).cluster;
    assert SameNode(c, d, h) && h in d.enrolled;
    var r :| cfg.inventory.Listed(h, r) && !(h in c.nodes && c.nodes[h] == r);
    assert cfg.inventory.Listed(h, r) && !(h in d.nodes && d.nodes[h] == r);
  }

  /** One full deploy after the other. */
  function DeployEach(c: Cluster, cfg: Config, deploys: seq<Batch>): Cluster
    requires cfg.inventory.Masters() != []
  {
    if deploys == [] then c
    else Deploy(DeployEach(c, cfg, deploys[..|deploys| - 1]), cfg, [deploys[|deploys| - 1]]).cluster
  }

  /** A host that is listed for a runtime its name does not report is joined, and refused, again by every later deploy. */
  lemma {:induction false} MisfitIsRefusedEveryTime(c: Cluster, cfg: Config, deploys: seq<Batch>, h: Host)
    requires cfg.inventory.Masters() != [] && c.adminConf && Misfit(c, cfg, h)
    requires HealthyBatches(deploys) && ValidBatches(deploys)
    requires forall i :: 0 <= i < |deploys| ==>
               h in Elements(deploys[i].masterOrder) && OwnName(cfg, Elements(deploys[i].masterOrder), h)
    ensures var d := DeployEach(c, cfg, deploys);
            d.adminConf && Misfit(d, cfg, h) && Count(d.history, Refused(h)) >= Count(c.history, Refused(h)) + |deploys|
    decreases |deploys|
  {
    if deploys != [] {
      var before := deploys[..|deploys| - 1];
      MisfitIsRefusedEveryTime(c, cfg, before, h);
      MisfitIsRefused(DeployEach(c, cfg, before), cfg, deploys[|deploys| - 1], h);
    }
  }

  /** The state in which the joins of a first deploy start. */
  function Fresh(cfg: Config): Play
    requires cfg.inventory.Masters() != []
  {
    var m0 := cfg.inventory.Master0();
    var c := KubeadmInit(NO_CLUSTER, m0, cfg.NodeOf(m0), cfg.inventory.MasterRuntime(), cfg.cpTaints);
    Play(c, Missing(c, cfg.inventory), false)
  }

  /** Whatever the inventory, a first deploy enrols every wanted host. */
  lemma {:induction false} FirstDeployEnrols(cfg: Config, b: Batch, h: Host)
    requires cfg.inventory.Masters() != [] && ValidBatch(b) && h in Elements(b.masterOrder) && h in Wanted(cfg)
    requires NoAliases(cfg)
    ensures var c := Deploy(NO_CLUSTER, cfg, [b]).cluster; c.adminConf && h in c.enrolled
  {
    DeployInParts(NO_CLUSTER, cfg, b);
    assert Do(Do(Start(NO_CLUSTER), Init(b.info), cfg), Gather, cfg) == Fresh(cfg);
    HostsOfJoins(b);
    JoinsRefuse(Fresh(cfg), Joins(b), cfg, h);
    Master0IsAHost(cfg);
    if h != cfg.inventory.Master0() {
      assert OwnName(cfg, cfg.inventory.Hosts(), h);
      OpsForHost(b, h);
      assert Wants(Fresh(cfg).update, JoinOf(h, cfg), cfg);
    }
  }

  lemma {:induction false} Master0IsAHost(cfg: Config)
    requires cfg.inventory.Masters() != []
    ensures cfg.inventory.Master0() in cfg.inventory.Hosts()
    ensures Wanted(cfg) <= cfg.inventory.Hosts()
  {
  }

  // ---- Where one runtime is forced on everybody

  lemma {:induction false} ForcedJoinIf(c: Cluster, wanted: bool, h: Host, own: Runtime, cfg: Config, labels: set<Label>, rt: Host -> Runtime)
    requires cfg.inventory.Masters() != [] && AllRun(c, rt) && Registers(cfg, own) == rt(cfg.NodeOf(h))
    ensures AllRun(JoinIf(c, wanted, h, own, cfg, labels), rt)
  {
  }

  lemma {:induction false} ForcedJoins(p: Play, ops: seq<Op>, cfg: Config, rt: Host -> Runtime)
    requires cfg.inventory.Masters() != [] && !p.failed && AllRun(p.cluster, rt)
    requires forall h, r :: Registers(cfg, r) == rt(h)
    requires forall i :: 0 <= i < |ops| ==> IsJoin(ops[i])
    ensures AllRun(DoAll(p, ops, cfg).cluster, rt)
    decreases |ops|
  {
    if ops != [] {
      var c, u, h := p.cluster, p.update, ops[0].host;
      var worker := h !in cfg.inventory.Masters();
      ForcedJoinIf(c, h in u.dockerMaster && cfg.isHa, h, Sockets.Docker, cfg, cfg.cpTaints, rt);
      ForcedJoinIf(JoinIf(c, h in u.dockerMaster && cfg.isHa, h, Sockets.Docker, cfg, cfg.cpTaints),
                   h in u.containerdMaster && cfg.isHa, h, Sockets.Containerd, cfg, cfg.cpTaints, rt);
      ForcedJoinIf(c, worker && h in u.dockerNode, h, Sockets.Docker, cfg, {}, rt);
      ForcedJoinIf(JoinIf(c, worker && h in u.dockerNode, h, Sockets.Docker, cfg, {}),
                   worker && h in u.containerdNode, h, Sockets.Containerd, cfg, {}, rt);
      ForcedJoins(Do(p, ops[0], cfg), ops[1..], cfg, rt);
    }
  }

  // ---- The exact condition

  lemma {:induction false} NotShownByStep(p: Play, op: Op, cfg: Config, h: Host)
    requires cfg.inventory.Masters() != [] && IsJoin(op) && !p.failed && h !in p.cluster.nodes && cfg.NodeOf(op.host) != h
    ensures !Do(p, op, cfg).failed && h !in Do(p, op, cfg).cluster.nodes
  {
  }

  /** A name nobody registers under never shows. */
  lemma {:induction false} NeverShown(p: Play, ops: seq<Op>, cfg: Config, h: Host)
    requires cfg.inventory.Masters() != [] && !p.failed && h !in p.cluster.nodes
    requires forall i :: 0 <= i < |ops| ==> IsJoin(ops[i]) && cfg.NodeOf(ops[i].host) != h
    ensures h !in DoAll(p, ops, cfg).cluster.nodes
    decreases |ops|
  {
    if ops != [] {
      NotShownByStep(p, ops[0], cfg, h);
      NeverShown(Do(p, ops[0], cfg), ops[1..], cfg, h);
    }
  }

  lemma {:induction false} FirstDeployInParts(cfg: Config, b: Batch)
    requires cfg.inventory.Masters() != []
    ensures var joined := DoAll(Fresh(cfg), Joins(b), cfg).cluster;
            Deploy(NO_CLUSTER, cfg, [b]).cluster == joined.(taints := Deploy(NO_CLUSTER, cfg, [b]).cluster.taints)
  {
    DeployInParts(NO_CLUSTER, cfg, b);
    assert Do(Do(Start(NO_CLUSTER), Init(b.info), cfg), Gather, cfg) == Fresh(cfg);
  }

  /** A host that registers under another name does not show under its own. */
  lemma {:induction false} MisnamedIsNotShown(cfg: Config, b: Batch, h: Host)
    requires cfg.inventory.Masters() != [] && ValidBatch(b) && Elements(b.masterOrder) == cfg.inventory.Hosts()
    requires NoAliases(cfg) && h in cfg.inventory.Hosts() && cfg.NodeOf(h) != h
    ensures h !in Deploy(NO_CLUSTER, cfg, [b]).cluster.nodes
  {
    FirstDeployInParts(cfg, b);
    HostsOfJoins(b);
    Master0IsAHost(cfg);
    var ops := Joins(b);
    assert OwnName(cfg, cfg.inventory.Hosts(), h);
    forall i | 0 <= i < |ops|
      ensures cfg.NodeOf(ops[i].host) != h
    {
      assert ops[i].host in HostsOf(ops);
    }
    NeverShown(Fresh(cfg), ops, cfg, h);
  }

  /** The settings go wrong on this host. */
  predicate Unclean(cfg: Config, h: Host)
    requires cfg.inventory.Masters() != []
  {
    Overlaps(cfg.inventory, h) || Registers(cfg, Own(cfg, h)) != Own(cfg, h) || cfg.NodeOf(h) != h
  }

  /** After a first deploy, a wanted host that breaks the condition is a misfit. */
  lemma {:induction false} UncleanIsMisfit(cfg: Config, b: Batch, h: Host)
    requires cfg.inventory.Masters() != [] && ValidBatch(b) && Elements(b.masterOrder) == cfg.inventory.Hosts()
    requires NoAliases(cfg) && h in Wanted(cfg) && Unclean(cfg, h)
    ensures Misfit(Deploy(NO_CLUSTER, cfg, [b]).cluster, cfg, h)
  {
    var once, inv := Deploy(NO_CLUSTER, cfg, [b]).cluster, cfg.inventory;
    Master0IsAHost(cfg);
    FirstDeployEnrols(cfg, b, h);
    if Overlaps(inv, h) {
      assert inv.Listed(h, Sockets.Docker) && inv.Listed(h, Sockets.Containerd);
    } else if cfg.NodeOf(h) != h {
      MisnamedIsNotShown(cfg, b, h);
      assert inv.Listed(h, Sockets.Docker) || inv.Listed(h, Sockets.Containerd);
    } else {
      ForcedIsShown(cfg, b);
      assert inv.Listed(h, Own(cfg, h)) && Own(cfg, h) != inv.MasterRuntime();
    }
  }

  /** If some listed runtime is not the one joins come up under, the whole table shows master0's. */
  lemma {:induction false} ForcedIsShown(cfg: Config, b: Batch)
    requires cfg.inventory.Masters() != [] && ValidBatch(b) && exists r :: Registers(cfg, r) != r
    ensures AllRun(Deploy(NO_CLUSTER, cfg, [b]).cluster, _ => cfg.inventory.MasterRuntime())
  {
    var forced := cfg.inventory.MasterRuntime();
    FirstDeployInParts(cfg, b);
    HostsOfJoins(b);
    assert forall r :: Registers(cfg, r) == forced;
    ForcedJoins(Fresh(cfg), Joins(b), cfg, _ => forced);
  }

  /** Master0 shows under its inventory name, then and later, exactly when it registers under it. */
  lemma {:induction false} Master0Shows(cfg: Config, first: Batch, second: Batch)
    requires cfg.inventory.Masters() != [] && NoAliases(cfg) && ValidBatch(first) && ValidBatch(second) && Healthy(second.info)
    requires Elements(first.masterOrder) == cfg.inventory.Hosts() == Elements(second.masterOrder)
    ensures var m0 := cfg.inventory.Master0();
            var once := Deploy(NO_CLUSTER, cfg, [first]).cluster;
            m0 in Deploy(once, cfg, [second]).cluster.nodes <==> cfg.NodeOf(m0) == m0
  {
    var m0 := cfg.inventory.Master0();
    var once := Deploy(NO_CLUSTER, cfg, [first]).cluster;
    Master0IsAHost(cfg);
    assert OwnName(cfg, cfg.inventory.Hosts(), m0);
    FirstDeployInParts(cfg, first);
    HostsOfJoins(first);
    JoinsRefuse(Fresh(cfg), Joins(first), cfg, m0);
    assert SameNode(Fresh(cfg).cluster, once, m0);
    DeployInParts(once, cfg, second);
    InitThroughText(Start(once), cfg, second.info);
    var q := Do(Do(Start(once), Init(second.info), cfg), Gather, cfg);
    assert q == Play(once, Missing(once, cfg.inventory), false);
    HostsOfJoins(second);
    JoinsRefuse(q, Joins(second), cfg, m0);
  }

  /**
   When mixing runtimes and names is harmless, exactly: from no cluster, two full deploys refuse nothing and show master0
   if and only if master0 and every wanted host register under their inventory names, and every wanted host is listed for
   one runtime in the role it joins with, the one a join there comes up under.
   */
  lemma {:induction false} TwoDeploysRefuseNothingIff(cfg: Config, first: Batch, second: Batch)
    requires cfg.inventory.Masters() != [] && Healthy(second.info) && ValidBatch(first) && ValidBatch(second)
    requires Elements(first.masterOrder) == cfg.inventory.Hosts() == Elements(second.masterOrder) && NoAliases(cfg)
    ensures var once := Deploy(NO_CLUSTER, cfg, [first]).cluster;
            var twice := Deploy(once, cfg, [second]).cluster;
            NothingRefused(twice.history) && cfg.inventory.Master0() in twice.nodes <==> Clean(cfg)
  {
    var once := Deploy(NO_CLUSTER, cfg, [first]).cluster;
    Master0Shows(cfg, first, second);
    if Clean(cfg) {
      CleanDeploysRefuseNothing(cfg, first, second);
    } else if h :| h in Wanted(cfg) && Unclean(cfg, h) {
      Master0IsAHost(cfg);
      UncleanIsMisfit(cfg, first, h);
      FirstDeployEnrols(cfg, first, h);
      MisfitIsRefused(once, cfg, second, h);
      SomethingRefused(Deploy(once, cfg, [second]).cluster.history, h);
    }
  }

  lemma {:induction false} CleanDeploysRefuseNothing(cfg: Config, first: Batch, second: Batch)
    requires cfg.inventory.Masters() != [] && Clean(cfg) && ValidBatch(first) && ValidBatch(second)
    ensures var once := Deploy(NO_CLUSTER, cfg, [first]).cluster;
            NothingRefused(Deploy(once, cfg, [second]).cluster.history)
  {
    var m0 := cfg.inventory.Master0();
    var rt := h => Own(cfg, h);
    CleanFits(cfg, rt);
    WholeDeployIsSafe(NO_CLUSTER, cfg, first, rt, m0);
    WholeDeployIsSafe(Deploy(NO_CLUSTER, cfg, [first]).cluster, cfg, second, rt, m0);
  }

  lemma {:induction false} WholeDeployIsSafe(c: Cluster, cfg: Config, b: Batch, rt: Host -> Runtime, m0: Host)
    requires Fits(cfg, rt, m0) && Safe(c, rt, m0, cfg.inventory) && ValidBatch(b)
    ensures Safe(Deploy(c, cfg, [b]).cluster, rt, m0, cfg.inventory)
  {
    var ops := DeployOps([b]);
    CutDeployIsSafe(c, cfg, [b], |ops|, rt, m0);
    assert ops[..|ops|] == ops;
  }

  // ---- Refusals within one deploy

  predicate NoOverlap(cfg: Config) {
    forall h :: h in Wanted(cfg) ==> !Overlaps(cfg.inventory, h)
  }

  /** Without overlap a join step tries at most one of its two lists. */
  lemma {:induction false} JoinsOnce(p: Play, op: Op, cfg: Config)
    requires cfg.inventory.Masters() != [] && IsJoin(op) && !p.failed && FromInventory(p.update, cfg.inventory)
    requires NoOverlap(cfg) && NothingRefused(p.cluster.history)
    requires Wants(p.update, op, cfg) ==> op.host !in p.cluster.enrolled
    ensures NothingRefused(Do(p, op, cfg).cluster.history)
  {
    var inv, h := cfg.inventory, op.host;
    if Wants(p.update, op, cfg) {
      assert op.MasterJoin? <==> h in inv.Masters();
      assert h in Wanted(cfg) && !Overlaps(inv, h);
    }
  }

  lemma {:induction false} JoinsRefuseNothing(p: Play, ops: seq<Op>, cfg: Config)
    requires cfg.inventory.Masters() != [] && !p.failed && FromInventory(p.update, cfg.inventory)
    requires NoOverlap(cfg) && NothingRefused(p.cluster.history)
    requires Distinct(ops) && forall i :: 0 <= i < |ops| ==> IsJoin(ops[i])
    requires forall i :: 0 <= i < |ops| && Wants(p.update, ops[i], cfg) ==> ops[i].host !in p.cluster.enrolled
    ensures NothingRefused(DoAll(p, ops, cfg).cluster.history)
    decreases |ops|
  {
    if ops != [] {
      var op, rest, q := ops[0], ops[1..], Do(p, ops[0], cfg);
      JoinsOnce(p, op, cfg);
      JoinStepRefuses(p, op, cfg, op.host);
      forall i | 0 <= i < |rest| && Wants(p.update, rest[i], cfg)
        ensures rest[i].host !in q.cluster.enrolled
      {
        assert rest[i] == ops[i + 1] != op;
        assert Wants(p.update, op, cfg) ==> op.host != rest[i].host;
      }
      JoinsRefuseNothing(q, rest, cfg);
    }
  }

  /** Master0, if its own join is wanted, registers under its inventory name. */
  predicate Master0IsNamed(cfg: Config)
    requires cfg.inventory.Masters() != []
  {
    var m0 := cfg.inventory.Master0(); m0 in Wanted(cfg) ==> cfg.NodeOf(m0) == m0
  }

  /** A first deploy refuses nothing exactly when no wanted host is listed for both runtimes, and master0 shows if wanted. */
  lemma {:induction false} FirstDeployRefusesNothingIff(cfg: Config, b: Batch)
    requires cfg.inventory.Masters() != [] && ValidBatch(b) && Elements(b.masterOrder) == cfg.inventory.Hosts()
    requires NoAliases(cfg)
    ensures NothingRefused(Deploy(NO_CLUSTER, cfg, [b]).cluster.history) <==> NoOverlap(cfg) && Master0IsNamed(cfg)
  {
    var p, ops := Fresh(cfg), Joins(b);
    FirstDeployInParts(cfg, b);
    Master0IsAHost(cfg);
    if NoOverlap(cfg) && Master0IsNamed(cfg) {
      forall i | 0 <= i < |ops| && Wants(p.update, ops[i], cfg)
        ensures ops[i].host !in p.cluster.enrolled
      {
        Master0IsNotMissing(ops[i], cfg);
      }
      JoinsRefuseNothing(p, ops, cfg);
    } else if h :| h in Wanted(cfg) && Overlaps(cfg.inventory, h) {
      OverlapIsRefused(cfg, b, h);
      SomethingRefused(Deploy(NO_CLUSTER, cfg, [b]).cluster.history, h);
    } else {
      Master0IsRefused(cfg, b);
      SomethingRefused(Deploy(NO_CLUSTER, cfg, [b]).cluster.history, cfg.inventory.Master0());
    }
  }

  lemma {:induction false} Master0IsRefused(cfg: Config, b: Batch)
    requires cfg.inventory.Masters() != [] && ValidBatch(b) && Elements(b.masterOrder) == cfg.inventory.Hosts()
    requires !Master0IsNamed(cfg)
    ensures Count(DoAll(Fresh(cfg), Joins(b), cfg).cluster.history, Refused(cfg.inventory.Master0())) > 0
  {
    var p, m0, inv := Fresh(cfg), cfg.inventory.Master0(), cfg.inventory;
    Master0IsAHost(cfg);
    HostsOfJoins(b);
    assert inv.Listed(m0, Sockets.Docker) || inv.Listed(m0, Sockets.Containerd);
    MisfitIsWanted(p.cluster, cfg, b, m0);
    JoinsRefuse(p, Joins(b), cfg, m0);
  }

  lemma {:induction false} Master0IsNotMissing(op: Op, cfg: Config)
    requires cfg.inventory.Masters() != [] && NoOverlap(cfg) && Master0IsNamed(cfg) && Wants(Fresh(cfg).update, op, cfg)
    ensures op.host !in Fresh(cfg).cluster.enrolled
  {
    var inv, m0 := cfg.inventory, cfg.inventory.Master0();
    if op.host == m0 {
      assert op.MasterJoin? && m0 in Wanted(cfg);
      assert inv.Listed(m0, inv.MasterRuntime()) && !Overlaps(inv, m0);
      assert false;
    }
  }

  /** Both update lists of its role have the host. */
  predicate DoublyMissing(update: KubeGroups, cfg: Config, h: Host) {
    if h in cfg.inventory.Masters() then cfg.isHa && h in update.dockerMaster && h in update.containerdMaster
    else h in update.dockerNode && h in update.containerdNode
  }

  lemma {:induction false} DoubleJoinsRefuse(p: Play, ops: seq<Op>, cfg: Config, h: Host)
    requires cfg.inventory.Masters() != [] && !p.failed && DoublyMissing(p.update, cfg, h)
    requires JoinOf(h, cfg) in ops && forall i :: 0 <= i < |ops| ==> IsJoin(ops[i])
    ensures Count(DoAll(p, ops, cfg).cluster.history, Refused(h)) > Count(p.cluster.history, Refused(h))
    decreases |ops|
  {
    var q := Do(p, ops[0], cfg);
    JoinStepRefuses(p, ops[0], cfg, h);
    if ops[0] == JoinOf(h, cfg) {
      JoinsRefuse(q, ops[1..], cfg, h);
    } else {
      DoubleJoinsRefuse(q, ops[1..], cfg, h);
    }
  }

  lemma {:induction false} OverlapIsRefused(cfg: Config, b: Batch, h: Host)
    requires cfg.inventory.Masters() != [] && ValidBatch(b) && h in Elements(b.masterOrder)
    requires h in Wanted(cfg) && Overlaps(cfg.inventory, h) && NoAliases(cfg)
    ensures Count(DoAll(Fresh(cfg), Joins(b), cfg).cluster.history, Refused(h)) > 0
  {
    var p := Fresh(cfg);
    HostsOfJoins(b);
    Master0IsAHost(cfg);
    if h == cfg.inventory.Master0() {
      assert cfg.inventory.Listed(h, Sockets.Docker) && cfg.inventory.Listed(h, Sockets.Containerd);
      MisfitIsWanted(p.cluster, cfg, b, h);
      JoinsRefuse(p, Joins(b), cfg, h);
    } else {
      OpsForHost(b, h);
      assert OwnName(cfg, cfg.inventory.Hosts(), h);
      DoubleJoinsRefuse(p, Joins(b), cfg, h);
    }
  }
}
