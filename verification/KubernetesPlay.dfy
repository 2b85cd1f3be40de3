/** The tasks of config.yml and destroy.yml as they run: each changes the cluster and the registered facts in place. */
module KubernetesPlay {
  import opened KubeToolbox
  import opened Reconcile
  import Sockets

  class PlayRun {
    const cfg: Config
    var adminConf: bool
    var nodes: map<Host, Runtime>
    var enrolled: set<Host>
    var taints: set<(Host, Label)>
    var history: seq<Event>
    var update: KubeGroups
    var failed: bool

    ghost predicate Valid() {
      cfg.inventory.Masters() != []
    }

    function Now(): Cluster
      reads this
    {
      Cluster(adminConf, nodes, enrolled, taints, history)
    }

    function State(): Play
      reads this
    {
      Play(Now(), update, failed)
    }

    constructor (cfg: Config, c: Cluster)
      requires cfg.inventory.Masters() != []
      ensures Valid() && this.cfg == cfg && State() == Start(c)
    {
      this.cfg := cfg;
      adminConf, nodes, enrolled, taints, history := c.adminConf, c.nodes, c.enrolled, c.taints, c.history;
      update, failed := NO_UPDATE, false;
    }

    /** "Initialize kubernetes master": guarded by the existence of a running cluster. */
    method Initialise(info: Outcome)
      requires Valid()
      modifies this
      ensures State() == Do(old(State()), Init(info), cfg)
    {
      if failed {
        return;
      }
      var running := ClusterExists(adminConf, info);
      if running.Err? {
        failed := true;
      } else if !running.value {
        var m0 := cfg.inventory.Master0();
        if adminConf {
          failed := true;
        } else if m0 in enrolled {
          history := history + [Refused(m0)];
          failed := true;
        } else {
          adminConf, nodes, enrolled := true, map[cfg.NodeOf(m0) := cfg.inventory.MasterRuntime()], enrolled + {m0};
          taints := Tainted(cfg.NodeOf(m0), cfg.cpTaints);
          history := history + [Initialised];
        }
      }
    }

    /** "Get kubernetes cluster token and certs" and "Set the update node". */
    method GatherUpdate()
      requires Valid()
      modifies this`update, this`failed
      ensures State() == Do(old(State()), Gather, cfg)
    {
      if failed {
        return;
      }
      if adminConf {
        update := Missing(Now(), cfg.inventory);
      } else {
        failed := true;
      }
    }

    method Join(h: Host, own: Runtime, labels: set<Label>)
      requires Valid()
      modifies this`nodes, this`enrolled, this`taints, this`history
      ensures var r := Sockets.JoinRuntime(own, cfg.inventory.MasterRuntime(), cfg.release);
              Now() == KubeadmJoin(old(Now()), h, cfg.NodeOf(h), r, labels)
    {
      if h in enrolled {
        history := history + [Refused(h)];
      } else {
        nodes := nodes[cfg.NodeOf(h) := Sockets.JoinRuntime(own, cfg.inventory.MasterRuntime(), cfg.release)];
        enrolled, taints := enrolled + {h}, taints + Tainted(cfg.NodeOf(h), labels);
        history := history + [Joined(h)];
      }
    }

    /** "Add the rest of master nodes": every host of the batch, in the order the join reaches them. */
    method JoinMasters(order: seq<Host>)
      requires Valid()
      modifies this
      ensures State() == DoAll(old(State()), MasterJoins(order), cfg)
    {
      for i := 0 to |order|
        invariant State() == DoAll(old(State()), MasterJoins(order[..i]), cfg)
      {
        var h := order[i];
        ghost var before := State();
        if !failed {
          if h in update.dockerMaster && cfg.isHa {
            Join(h, Sockets.Docker, cfg.cpTaints);
          }
          if h in update.containerdMaster && cfg.isHa {
            Join(h, Sockets.Containerd, cfg.cpTaints);
          }
        }
        assert State() == Do(before, MasterJoin(h), cfg);
        assert MasterJoins(order[..i + 1]) == MasterJoins(order[..i]) + [MasterJoin(h)];
        OneMore(old(State()), MasterJoins(order[..i]), MasterJoin(h), cfg);
      }
      assert order[..|order|] == order;
    }

    /** "Add kube nodes by runtime": masters are skipped. */
    method JoinWorkers(order: seq<Host>)
      requires Valid()
      modifies this
      ensures State() == DoAll(old(State()), WorkerJoins(order), cfg)
    {
      for i := 0 to |order|
        invariant State() == DoAll(old(State()), WorkerJoins(order[..i]), cfg)
      {
        var h := order[i];
        ghost var before := State();
        if !failed && h !in cfg.inventory.Masters() {
          if h in update.dockerNode {
            Join(h, Sockets.Docker, {});
          }
          if h in update.containerdNode {
            Join(h, Sockets.Containerd, {});
          }
        }
        assert State() == Do(before, WorkerJoin(h), cfg);
        assert WorkerJoins(order[..i + 1]) == WorkerJoins(order[..i]) + [WorkerJoin(h)];
        OneMore(old(State()), WorkerJoins(order[..i]), WorkerJoin(h), cfg);
      }
      assert order[..|order|] == order;
    }

    /** "Taint master node when it is the worker node too", and its all-in-one variant. */
    method RemoveControlTaints(lead: Host)
      requires Valid()
      modifies this`taints, this`failed
      ensures State() == Do(old(State()), RemoveTaints(lead), cfg)
    {
      if failed {
        return;
      }
      if lead == LOCALHOST {
        RemoveFromAll();
        assert !TaintsRaise(nodes.Keys, lead, cfg);
        return;
      }
      var masters := cfg.inventory.Masters();
      ghost var workers := Elements(cfg.inventory.Workers());
      var raised := false;
      for i := 0 to |masters|
        invariant taints == Untainted(old(taints), Elements(masters[..i]) * workers * nodes.Keys, cfg.labels)
        invariant raised <==> cfg.labels != [] && exists m :: m in Elements(masters[..i]) * workers && TaintRaises(nodes.Keys, m)
      {
        var m := masters[i];
        assert Elements(masters[..i + 1]) == Elements(masters[..i]) + {m};
        if m in cfg.inventory.Workers() {
          var itemRaised := RemoveFrom(m);
          raised := raised || itemRaised;
        }
      }
      assert masters[..|masters|] == masters;
      failed := raised;
    }

    /** `kubectl taint nodes --all`, for every control label. */
    method RemoveFromAll()
      modifies this`taints
      ensures taints == Untainted(old(taints), nodes.Keys, cfg.labels)
    {
      for j := 0 to |cfg.labels|
        invariant taints == Untainted(old(taints), nodes.Keys, cfg.labels[..j])
      {
        taints := set t | t in taints && !(t.0 in nodes.Keys && t.1 == cfg.labels[j]);
      }
      assert cfg.labels[..|cfg.labels|] == cfg.labels;
    }

    /** One master, every control label. */
    method RemoveFrom(m: Host) returns (raised: bool)
      modifies this`taints
      ensures taints == Untainted(old(taints), {m} * nodes.Keys, cfg.labels)
      ensures raised <==> cfg.labels != [] && TaintRaises(nodes.Keys, m)
    {
      raised := false;
      for j := 0 to |cfg.labels|
        invariant taints == Untainted(old(taints), {m} * nodes.Keys, cfg.labels[..j])
        invariant raised <==> j > 0 && TaintRaises(nodes.Keys, m)
      {
        if m in nodes {
          taints := taints - {(m, cfg.labels[j])};
        } else if TaintRaises(nodes.Keys, m) {
          raised := true;
        }
      }
      assert cfg.labels[..|cfg.labels|] == cfg.labels;
    }

    method RunBatch(b: Batch)
      requires Valid()
      modifies this
      ensures State() == DoAll(old(State()), BatchOps(b), cfg)
    {
      ghost var s0 := State();
      var opening := [Init(b.info), Gather];
      assert opening[1..] == [Gather] && [Gather][1..] == [];
      Initialise(b.info);
      GatherUpdate();
      assert State() == DoAll(s0, opening, cfg);
      JoinMasters(b.masterOrder);
      DoAllAppend(s0, opening, MasterJoins(b.masterOrder), cfg);
      JoinWorkers(b.workerOrder);
      DoAllAppend(s0, opening + MasterJoins(b.masterOrder), WorkerJoins(b.workerOrder), cfg);
      RemoveControlTaints(b.lead);
      OneMore(s0, opening + MasterJoins(b.masterOrder) + WorkerJoins(b.workerOrder), RemoveTaints(b.lead), cfg);
    }

    /** The kubernetes play over its serial batches. */
    method Run(batches: seq<Batch>)
      requires Valid()
      modifies this
      ensures State() == DoAll(old(State()), DeployOps(batches), cfg)
    {
      for i := 0 to |batches|
        invariant DoAll(State(), DeployOps(batches[i..]), cfg) == DoAll(old(State()), DeployOps(batches), cfg)
      {
        ghost var before := State();
        assert batches[i..][0] == batches[i] && batches[i..][1..] == batches[i + 1..];
        RunBatch(batches[i]);
        DoAllAppend(before, BatchOps(batches[i]), DeployOps(batches[i + 1..]), cfg);
      }
    }

    /** destroy.yml, "Reset kubernetes cluster". */
    method Reset(order: seq<Host>)
      requires Valid()
      modifies this
      ensures Now() == ResetAll(old(Now()), order, cfg.inventory.Master0())
    {
      for i := 0 to |order|
        invariant ResetAll(Now(), order[i..], cfg.inventory.Master0()) == ResetAll(old(Now()), order, cfg.inventory.Master0())
      {
        var h := order[i];
        assert order[i..][0] == h && order[i..][1..] == order[i + 1..];
        enrolled, history := enrolled - {h}, history + [Event.Reset(h)];
        if h == cfg.inventory.Master0() {
          adminConf, nodes, taints := false, map[], {};
          history := history + [Destroyed];
        }
      }
    }
  }

  lemma {:induction false} OneMore(p: Play, ops: seq<Op>, op: Op, cfg: Config)
    requires cfg.inventory.Masters() != []
    ensures DoAll(p, ops + [op], cfg) == Do(DoAll(p, ops, cfg), op, cfg)
  {
    DoAllAppend(p, ops, [op], cfg);
    assert [op][1..] == [];
  }
}
