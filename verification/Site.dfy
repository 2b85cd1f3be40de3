/**
 Whole deploys of the kubernetes role (deploy.yml: precheck, pull, config, apply, for every serial batch).  A deploy brings images, cluster, taints and manifests to their goal.
 */
module Site {
  import opened Sequences
  import opened KubeToolbox
  import opened Reconcile
  import opened Safety
  import opened Convergence
  import ImagePull
  import KubeRuntime
  import Manifests
  import Sockets
  import Text

  /** The image stores of a host, one for each runtime. */
  datatype Images = Images(docker: set<string>, containerd: set<string>)

  /** Everything a deploy changes: the cluster, each host's images, and the manifests. */
  datatype State = State(cluster: Cluster, images: map<Host, Images>, manifests: Manifests.Store)

  const NOTHING: State := State(NO_CLUSTER, map[], Manifests.Store(map[], map[]))

  /** A run: its settings, the vip address, its serial batches, the images kubeadm lists, and the applications. */
  datatype Plan = Plan(cfg: Config, vip: string, batches: seq<Batch>, listing: seq<KubeRuntime.Image>,
                       items: seq<Manifests.Item>)

  /** The state reached, what the hosts of each batch pulled, how often kubectl applied, and whether the run failed. */
  datatype Report = Report(state: State, pulls: seq<map<Host, seq<string>>>, applies: nat, failed: bool)

  /** precheck.yml: an HA cluster needs a vip. */
  predicate PrecheckFails(plan: Plan) {
    plan.vip == "" && plan.cfg.isHa
  }

  // ---- Images

  /** `images_map`, read off the list kubeadm prints. */
  function ImagesMap(plan: Plan): KubeRuntime.ImagesMap {
    KubeRuntime.Classified(Text.Words(Text.Join(KubeRuntime.Refs(plan.listing), "\n")))
  }

  /** The image lists a host pulls into the store of one runtime: one for each group it is in. */
  function ListsFor(plan: Plan, h: Host, r: Runtime): seq<seq<string>> {
    var inv, m := plan.cfg.inventory, ImagesMap(plan);
    match r
    case Docker =>
      (if h in inv.dockerMasters then [m.dockerMaster] else []) + (if h in inv.dockerNodes then [m.dockerNode] else [])
    case Containerd =>
      (if h in inv.containerdMasters then [m.containerdMaster] else [])
      + (if h in inv.containerdNodes then [m.containerdNode] else [])
  }

  function ImagesOf(images: map<Host, Images>, h: Host): Images {
    if h in images then images[h] else Images({}, {})
  }

  function PullHost(i: Images, plan: Plan, h: Host): Images {
    Images(ImagePull.LoopStore(Sockets.Docker, i.docker, ListsFor(plan, h, Sockets.Docker)),
           ImagePull.LoopStore(Sockets.Containerd, i.containerd, ListsFor(plan, h, Sockets.Containerd)))
  }

  function PulledBy(i: Images, plan: Plan, h: Host): seq<string> {
    ImagePull.LoopPulls(Sockets.Docker, i.docker, ListsFor(plan, h, Sockets.Docker))
    + ImagePull.LoopPulls(Sockets.Containerd, i.containerd, ListsFor(plan, h, Sockets.Containerd))
  }

  function PullAll(images: map<Host, Images>, plan: Plan, hosts: set<Host>): map<Host, Images> {
    map h | h in images.Keys + hosts ::
      if h in hosts then PullHost(ImagesOf(images, h), plan, h) else ImagesOf(images, h)
  }

  function PullLog(images: map<Host, Images>, plan: Plan, hosts: set<Host>): map<Host, seq<string>> {
    map h | h in hosts :: PulledBy(ImagesOf(images, h), plan, h)
  }

  ghost predicate HasAll(store: set<string>, lists: seq<seq<string>>) {
    forall image :: ImagePull.Requested(lists, image) ==> image in store
  }

  function StoreOf(images: map<Host, Images>, h: Host, r: Runtime): set<string> {
    if r.Docker? then ImagesOf(images, h).docker else ImagesOf(images, h).containerd
  }

  predicate MasterOf(inv: Inventory, h: Host, r: Runtime) {
    h in if r.Docker? then inv.dockerMasters else inv.containerdMasters
  }

  predicate WorkerOf(inv: Inventory, h: Host, r: Runtime) {
    h in if r.Docker? then inv.dockerNodes else inv.containerdNodes
  }

  /** The image is listed, and is one of a master that the host is, or one of a worker that the host is. */
  predicate Needs(plan: Plan, h: Host, r: Runtime, image: string) {
    exists k :: 0 <= k < |plan.listing| && KubeRuntime.Ref(plan.listing[k]) == image && NeedsName(plan, h, r, plan.listing[k].name)
  }

  predicate NeedsName(plan: Plan, h: Host, r: Runtime, name: string) {
    || (MasterOf(plan.cfg.inventory, h, r) && name in {"kube-apiserver", "kube-controller-manager", "kube-scheduler", "etcd"})
    || ((MasterOf(plan.cfg.inventory, h, r) || WorkerOf(plan.cfg.inventory, h, r)) && name in {"coredns", "kube-proxy", "pause"})
  }

  /** Every image the host needs is in the store of the runtime it needs it for. */
  ghost predicate HasImages(images: map<Host, Images>, plan: Plan, h: Host) {
    h in images && forall r, image :: Needs(plan, h, r, image) ==> image in StoreOf(images, h, r)
  }

  /** kubeadm lists colon-free repositories, slash-free tags, and no image twice. */
  predicate SoundListing(listing: seq<KubeRuntime.Image>) {
    && KubeRuntime.PlainListing(listing) && Distinct(KubeRuntime.Refs(listing))
    && forall k :: 0 <= k < |listing| ==> Text.Free(listing[k].tag, {'/'})
  }

  predicate SoundList(list: seq<string>) {
    Distinct(list) && ImagePull.AllTagged(list)
  }

  lemma {:induction false} RefIsTagged(i: KubeRuntime.Image)
    requires KubeRuntime.ValidImage(i) && Text.Free(i.tag, {'/'})
    ensures ImagePull.Tagged(KubeRuntime.Ref(i))
  {
    var last := i.name + [':'] + i.tag;
    KubeRuntime.SplitLastAt(i.repo, '/', last);
    assert KubeRuntime.Ref(i) == i.repo + ['/'] + last && last[|i.name|] == ':';
  }

  lemma {:induction false} RefsAreTagged(listing: seq<KubeRuntime.Image>)
    requires SoundListing(listing)
    ensures ImagePull.AllTagged(KubeRuntime.Refs(listing))
  {
    if listing != [] {
      var shorter, last := listing[..|listing| - 1], listing[|listing| - 1];
      assert KubeRuntime.Refs(listing)[..|KubeRuntime.Refs(shorter)|] == KubeRuntime.Refs(shorter);
      RefsAreTagged(shorter);
      RefIsTagged(last);
    }
  }

  /** A selection of sound references is sound. */
  lemma {:induction false} SelectIsSound(refs: seq<string>, names: set<string>)
    requires SoundList(refs)
    ensures SoundList(KubeRuntime.Select(refs, names))
    ensures forall image :: image in KubeRuntime.Select(refs, names) ==> image in refs
  {
    if refs != [] {
      var shorter, last := refs[..|refs| - 1], refs[|refs| - 1];
      SelectIsSound(shorter, names);
      assert refs == shorter + [last] && last !in shorter;
    }
  }

  lemma {:induction false} ListingIsRead(listing: seq<KubeRuntime.Image>)
    requires SoundListing(listing)
    ensures Text.Words(Text.Join(KubeRuntime.Refs(listing), "\n")) == KubeRuntime.Refs(listing)
  {
    KubeRuntime.RefsAreWords(listing);
    KubeRuntime.WordsOfLines(KubeRuntime.Refs(listing));
  }

  lemma {:induction false} MapIsSound(plan: Plan)
    requires SoundListing(plan.listing)
    ensures var m := ImagesMap(plan);
            SoundList(m.dockerMaster) && SoundList(m.dockerNode) && SoundList(m.containerdMaster) && SoundList(m.containerdNode)
  {
    var refs := KubeRuntime.Refs(plan.listing);
    ListingIsRead(plan.listing);
    RefsAreTagged(plan.listing);
    SelectIsSound(refs, KubeRuntime.MASTER_IMAGES);
    SelectIsSound(refs, KubeRuntime.NODE_IMAGES);
  }

  lemma {:induction false} ListsAreSound(plan: Plan, h: Host, r: Runtime)
    requires SoundListing(plan.listing)
    ensures forall i :: 0 <= i < |ListsFor(plan, h, r)| ==> SoundList(ListsFor(plan, h, r)[i])
  {
    MapIsSound(plan);
  }

  lemma {:induction false} WantedMeans(listing: seq<KubeRuntime.Image>, names: set<string>, image: string)
    ensures image in KubeRuntime.Wanted(listing, names) <==>
            exists k :: 0 <= k < |listing| && KubeRuntime.Ref(listing[k]) == image && listing[k].name in names
  {
    if listing != [] {
      var shorter := listing[..|listing| - 1];
      WantedMeans(shorter, names, image);
      if k :| 0 <= k < |listing| && KubeRuntime.Ref(listing[k]) == image && listing[k].name in names {
        assert k < |shorter| ==> shorter[k] == listing[k];
      }
      if k :| 0 <= k < |shorter| && KubeRuntime.Ref(shorter[k]) == image && shorter[k].name in names {
        assert listing[k] == shorter[k];
      }
    }
  }

  lemma {:induction false} NamesMean(plan: Plan, h: Host, r: Runtime, name: string)
    ensures NeedsName(plan, h, r, name) <==>
            || (MasterOf(plan.cfg.inventory, h, r) && name in KubeRuntime.MASTER_IMAGES)
            || (WorkerOf(plan.cfg.inventory, h, r) && name in KubeRuntime.NODE_IMAGES)
  {
  }

  lemma {:induction false} RequestedOfTwo(p: bool, a: seq<string>, q: bool, b: seq<string>, image: string)
    ensures var lists := (if p then [a] else []) + if q then [b] else [];
            ImagePull.Requested(lists, image) <==> (p && image in a) || (q && image in b)
  {
    var lists := (if p then [a] else []) + if q then [b] else [];
    if p {
      assert lists[0] == a;
    }
    if q {
      assert lists[|lists| - 1] == b;
    }
  }

  lemma {:induction false} ListsShape(plan: Plan, h: Host, r: Runtime)
    requires SoundListing(plan.listing)
    ensures ListsFor(plan, h, r) ==
            (if MasterOf(plan.cfg.inventory, h, r) then [KubeRuntime.Wanted(plan.listing, KubeRuntime.MASTER_IMAGES)] else [])
            + if WorkerOf(plan.cfg.inventory, h, r) then [KubeRuntime.Wanted(plan.listing, KubeRuntime.NODE_IMAGES)] else []
  {
    KubeRuntime.ClassifiesByName(plan.listing);
  }

  /** The lists of a host hold exactly what it needs. */
  lemma {:induction false} ListsMean(plan: Plan, h: Host, r: Runtime, image: string)
    requires SoundListing(plan.listing)
    ensures ImagePull.Requested(ListsFor(plan, h, r), image) <==> Needs(plan, h, r, image)
  {
    var masters, nodes := KubeRuntime.MASTER_IMAGES, KubeRuntime.NODE_IMAGES;
    var inv := plan.cfg.inventory;
    ListsShape(plan, h, r);
    RequestedOfTwo(MasterOf(inv, h, r), KubeRuntime.Wanted(plan.listing, masters),
                   WorkerOf(inv, h, r), KubeRuntime.Wanted(plan.listing, nodes), image);
    WantedMeans(plan.listing, masters, image);
    WantedMeans(plan.listing, nodes, image);
    NeedsMeans(plan, h, r, image, masters, nodes);
  }

  lemma {:induction false} NeedsMeans(plan: Plan, h: Host, r: Runtime, image: string, masters: set<string>, nodes: set<string>)
    requires masters == KubeRuntime.MASTER_IMAGES && nodes == KubeRuntime.NODE_IMAGES
    ensures Needs(plan, h, r, image) <==>
            exists k :: 0 <= k < |plan.listing| && KubeRuntime.Ref(plan.listing[k]) == image
                        && ((MasterOf(plan.cfg.inventory, h, r) && plan.listing[k].name in masters)
                            || (WorkerOf(plan.cfg.inventory, h, r) && plan.listing[k].name in nodes))
  {
    forall name
      ensures NeedsName(plan, h, r, name) <==>
              || (MasterOf(plan.cfg.inventory, h, r) && name in masters)
              || (WorkerOf(plan.cfg.inventory, h, r) && name in nodes)
    {
      NamesMean(plan, h, r, name);
    }
  }

  /** A batch adds to the stores of its hosts exactly what they need, and takes nothing from any. */
  lemma {:induction false} PullsExactly(images: map<Host, Images>, plan: Plan, hosts: set<Host>, h: Host, r: Runtime, image: string)
    requires SoundListing(plan.listing)
    ensures image in StoreOf(PullAll(images, plan, hosts), h, r) <==>
            image in StoreOf(images, h, r) || (h in hosts && Needs(plan, h, r, image))
  {
    ListsAreSound(plan, h, r);
    ImagePull.LoopPullsEachMissingOnce(r, StoreOf(images, h, r), ListsFor(plan, h, r), image);
    ListsMean(plan, h, r, image);
  }

  /** A host of the batch pulls each image it needs and lacks once for each runtime it needs it for, and nothing else. */
  lemma {:induction false} PullsWhatIsMissing(images: map<Host, Images>, plan: Plan, hosts: set<Host>, h: Host, image: string)
    requires SoundListing(plan.listing) && h in hosts
    ensures multiset(PullLog(images, plan, hosts)[h])[image] ==
            (if Needs(plan, h, Sockets.Docker, image) && image !in StoreOf(images, h, Sockets.Docker) then 1 else 0)
            + if Needs(plan, h, Sockets.Containerd, image) && image !in StoreOf(images, h, Sockets.Containerd) then 1 else 0
  {
    ListsAreSound(plan, h, Sockets.Docker);
    ListsAreSound(plan, h, Sockets.Containerd);
    ImagePull.LoopPullsEachMissingOnce(Sockets.Docker, StoreOf(images, h, Sockets.Docker), ListsFor(plan, h, Sockets.Docker), image);
    ImagePull.LoopPullsEachMissingOnce(Sockets.Containerd, StoreOf(images, h, Sockets.Containerd), ListsFor(plan, h, Sockets.Containerd), image);
    ListsMean(plan, h, Sockets.Docker, image);
    ListsMean(plan, h, Sockets.Containerd, image);
  }

  lemma {:induction false} PullsReach(images: map<Host, Images>, plan: Plan, hosts: set<Host>, h: Host)
    requires SoundListing(plan.listing) && (h in hosts || HasImages(images, plan, h))
    ensures HasImages(PullAll(images, plan, hosts), plan, h)
  {
    forall r, image | Needs(plan, h, r, image)
      ensures image in StoreOf(PullAll(images, plan, hosts), h, r)
    {
      PullsExactly(images, plan, hosts, h, r, image);
    }
  }

  lemma {:induction false} NothingToPull(r: Runtime, store: set<string>, lists: seq<seq<string>>)
    requires HasAll(store, lists)
    ensures ImagePull.LoopPulls(r, store, lists) == [] && ImagePull.LoopStore(r, store, lists) == store
    decreases |lists|
  {
    if lists != [] {
      assert forall image :: image in lists[0] ==> ImagePull.Requested(lists, image);
      ImagePull.PulledIsMissing(store, lists[0]);
      assert ImagePull.AfterPull(r, store, lists[0]) == store;
      forall image | ImagePull.Requested(lists[1..], image)
        ensures image in store
      {
        var i :| 0 <= i < |lists[1..]| && image in lists[1..][i];
        assert image in lists[i + 1];
      }
      NothingToPull(r, store, lists[1..]);
    }
  }

  lemma {:induction false} HasAllLists(images: map<Host, Images>, plan: Plan, h: Host, r: Runtime)
    requires SoundListing(plan.listing) && HasImages(images, plan, h)
    ensures HasAll(StoreOf(images, h, r), ListsFor(plan, h, r))
  {
    forall image | ImagePull.Requested(ListsFor(plan, h, r), image)
      ensures image in StoreOf(images, h, r)
    {
      ListsMean(plan, h, r, image);
    }
  }

  lemma {:induction false} NothingIsPulled(images: map<Host, Images>, plan: Plan, hosts: set<Host>)
    requires SoundListing(plan.listing) && forall h :: h in hosts ==> HasImages(images, plan, h)
    ensures PullAll(images, plan, hosts) == images
    ensures forall h :: h in hosts ==> PullLog(images, plan, hosts)[h] == []
  {
    forall h | h in hosts
      ensures PullHost(ImagesOf(images, h), plan, h) == images[h] && PulledBy(ImagesOf(images, h), plan, h) == []
    {
      assert HasImages(images, plan, h);
      HasAllLists(images, plan, h, Sockets.Docker);
      HasAllLists(images, plan, h, Sockets.Containerd);
      NothingToPull(Sockets.Docker, images[h].docker, ListsFor(plan, h, Sockets.Docker));
      NothingToPull(Sockets.Containerd, images[h].containerd, ListsFor(plan, h, Sockets.Containerd));
    }
  }

  // ---- Deploys

  /** The tasks of deploy.yml on one batch; a failed run-once task ends the run. */
  function BatchDeployed(s: State, plan: Plan, b: Batch): Report
    requires plan.cfg.inventory.Masters() != []
  {
    if PrecheckFails(plan) then Report(s, [], 0, true)
    else
      var hosts := Elements(b.masterOrder);
      var images, log := PullAll(s.images, plan, hosts), [PullLog(s.images, plan, hosts)];
      var config := DoAll(Start(s.cluster), BatchOps(b), plan.cfg);
      if config.failed then Report(State(config.cluster, images, s.manifests), log, 0, true)
      else
        var apps := Manifests.ApplyAll(s.manifests, plan.items);
        Report(State(config.cluster, images, apps.store), log, apps.applies, apps.failed)
  }

  /** A deploy runs the role on one batch after the other. */
  function Deployed(s: State, plan: Plan, batches: seq<Batch>): Report
    requires plan.cfg.inventory.Masters() != []
    decreases |batches|
  {
    if batches == [] then Report(s, [], 0, false)
    else
      var first := BatchDeployed(s, plan, batches[0]);
      if first.failed then first
      else
        var rest := Deployed(first.state, plan, batches[1..]);
        Report(rest.state, first.pulls + rest.pulls, first.applies + rest.applies, rest.failed)
  }

  /** The cluster is one a deploy may meet, the manifest files tell the truth, and nothing is applied to no cluster. */
  ghost predicate Consistent(s: State, rt: Host -> Runtime, m0: Host) {
    && Steady(s.cluster, rt, m0) && Manifests.Coherent(s.manifests)
    && (!s.cluster.adminConf ==> s.manifests.applied == map[])
  }

  /** What a plan assumes: one runtime for each host, kubeadm's listing, distinct applications, and a kubectl that works. */
  predicate Ready(plan: Plan, rt: Host -> Runtime, m0: Host) {
    && Fits(plan.cfg, rt, m0) && SoundListing(plan.listing) && Manifests.DistinctApps(plan.items)
    && forall i :: 0 <= i < |plan.items| ==> Manifests.Succeeded(plan.items[i].attempt)
  }

  ghost predicate AllDelivered(s: State, plan: Plan) {
    forall i :: 0 <= i < |plan.items| ==> Manifests.Delivered(s.manifests, plan.items[i])
  }

  lemma {:induction false} BatchReaches(s: State, plan: Plan, b: Batch, rt: Host -> Runtime, m0: Host)
    requires Ready(plan, rt, m0) && Consistent(s, rt, m0) && ValidBatch(b) && (s.cluster.adminConf ==> Healthy(b.info))
    requires !PrecheckFails(plan)
    ensures var o := BatchDeployed(s, plan, b);
            && Consistent(o.state, rt, m0) && o.state.cluster.adminConf
            && o.state.cluster.nodes.Keys == s.cluster.nodes.Keys + {m0} + Wanted(plan.cfg) * Elements(b.masterOrder)
            && o.failed == TaintsRaise(o.state.cluster.nodes.Keys, b.lead, plan.cfg)
            && UntaintedFor(o.state.cluster, b.lead, plan.cfg)
            && o.state.images == PullAll(s.images, plan, Elements(b.masterOrder))
            && (if o.failed then o.state.manifests == s.manifests && o.applies == 0 else AllDelivered(o.state, plan))
  {
    SteadyBatchOutcome(Start(s.cluster), b, plan.cfg, rt, m0);
    Manifests.LoopDelivers(s.manifests, plan.items);
  }

  /** The goal of a run: the nodes it leads to, no taints in the way, all images, all enabled applications. */
  ghost predicate Reached(before: set<Host>, after: State, plan: Plan, batches: seq<Batch>, rt: Host -> Runtime, m0: Host)
    requires plan.cfg.inventory.Masters() != [] && batches != []
  {
    && Consistent(after, rt, m0) && after.cluster.adminConf
    && after.cluster.nodes.Keys == before + {m0} + Wanted(plan.cfg) * BatchHosts(batches)
    && UntaintedFor(after.cluster, batches[|batches| - 1].lead, plan.cfg)
    && AllDelivered(after, plan)
  }

  ghost predicate AllHaveImages(after: State, plan: Plan, hosts: set<Host>) {
    forall h :: h in hosts ==> HasImages(after.images, plan, h)
  }

  /** Hosts that have their images keep them. */
  lemma {:induction false} ImagesStay(s: State, plan: Plan, batches: seq<Batch>, h: Host)
    requires plan.cfg.inventory.Masters() != [] && SoundListing(plan.listing) && HasImages(s.images, plan, h)
    ensures HasImages(Deployed(s, plan, batches).state.images, plan, h)
    decreases |batches|
  {
    if batches != [] {
      PullsReach(s.images, plan, Elements(batches[0].masterOrder), h);
      ImagesStay(BatchDeployed(s, plan, batches[0]).state, plan, batches[1..], h);
    }
  }

  /** A run that does not fail gives every host its images. */
  lemma {:induction false} BatchesPull(s: State, plan: Plan, batches: seq<Batch>, h: Host)
    requires plan.cfg.inventory.Masters() != [] && SoundListing(plan.listing) && h in BatchHosts(batches)
    requires !Deployed(s, plan, batches).failed
    ensures HasImages(Deployed(s, plan, batches).state.images, plan, h)
    decreases |batches|
  {
    var hosts, first := Elements(batches[0].masterOrder), BatchDeployed(s, plan, batches[0]);
    if h in hosts {
      PullsReach(s.images, plan, hosts, h);
      ImagesStay(first.state, plan, batches[1..], h);
    } else {
      BatchesPull(first.state, plan, batches[1..], h);
    }
  }

  /**
   Images by group: after a run that did not fail, the stores of its hosts hold what they held and the listed images of
   their groups, and nothing else: master images for master groups, node images for both, in the store of the group's runtime.
   */
  lemma {:induction false} ImagesByGroup(s: State, plan: Plan, batches: seq<Batch>, h: Host, r: Runtime, image: string)
    requires plan.cfg.inventory.Masters() != [] && SoundListing(plan.listing) && !Deployed(s, plan, batches).failed
    ensures image in StoreOf(Deployed(s, plan, batches).state.images, h, r) <==>
            image in StoreOf(s.images, h, r) || (h in BatchHosts(batches) && Needs(plan, h, r, image))
    decreases |batches|
  {
    if batches != [] {
      PullsExactly(s.images, plan, Elements(batches[0].masterOrder), h, r, image);
      ImagesByGroup(BatchDeployed(s, plan, batches[0]).state, plan, batches[1..], h, r, image);
    }
  }

  /** So from empty stores a host ends with what it needs and nothing else. */
  lemma {:induction false} FreshImages(c: Cluster, manifests: Manifests.Store, plan: Plan, batches: seq<Batch>, h: Host, r: Runtime)
    requires plan.cfg.inventory.Masters() != [] && SoundListing(plan.listing)
    requires !Deployed(State(c, map[], manifests), plan, batches).failed && h in BatchHosts(batches)
    ensures forall image :: image in StoreOf(Deployed(State(c, map[], manifests), plan, batches).state.images, h, r) <==>
                            Needs(plan, h, r, image)
  {
    forall image
      ensures image in StoreOf(Deployed(State(c, map[], manifests), plan, batches).state.images, h, r) <==> Needs(plan, h, r, image)
    {
      ImagesByGroup(State(c, map[], manifests), plan, batches, h, r, image);
    }
  }

  /** What the first batch's failure says about the whole run's. */
  lemma {:induction false} FirstBatchDecides(nodes: set<Host>, next: set<Host>, cfg: Config, batches: seq<Batch>)
    requires cfg.inventory.Masters() != [] && batches != []
    requires next == nodes + {cfg.inventory.Master0()} + Wanted(cfg) * Elements(batches[0].masterOrder)
    ensures var fails, rest := TaintsRaise(next, batches[0].lead, cfg), batches[1..];
            SerialRaises(nodes, cfg, batches) == (fails || (rest != [] && SerialRaises(next, cfg, rest)))
  {
    var b, rest := batches[0], batches[1..];
    if b.lead != LOCALHOST || rest == [] {
      FirstDecides(nodes, cfg, batches);
    } else {
      SkipLocal(nodes, next, cfg, batches);
    }
  }

  /** What the later batches reach from where the first one led, the whole run reaches. */
  lemma {:induction false} ReachedFurther(before: set<Host>, next: set<Host>, after: State, plan: Plan, batches: seq<Batch>,
                                          rt: Host -> Runtime, m0: Host)
    requires plan.cfg.inventory.Masters() != [] && |batches| > 1
    requires next == before + {m0} + Wanted(plan.cfg) * Elements(batches[0].masterOrder)
    requires Reached(next, after, plan, batches[1..], rt, m0)
    ensures Reached(before, after, plan, batches, rt, m0)
  {
    assert BatchHosts(batches) == Elements(batches[0].masterOrder) + BatchHosts(batches[1..]);
    assert batches[1..][|batches[1..]| - 1] == batches[|batches| - 1];
  }

  lemma {:induction false} OnlyBatch(s: State, plan: Plan, batches: seq<Batch>, rt: Host -> Runtime, m0: Host)
    requires Ready(plan, rt, m0) && Consistent(s, rt, m0) && ValidBatches(batches)
    requires |batches| == 1
    requires HealthyBatches(batches) && !PrecheckFails(plan) && !BatchDeployed(s, plan, batches[0]).failed
    ensures !Deployed(s, plan, batches).failed
    ensures Reached(s.cluster.nodes.Keys, Deployed(s, plan, batches).state, plan, batches, rt, m0)
  {
    BatchReaches(s, plan, batches[0], rt, m0);
    assert batches[1..] == [] && BatchHosts(batches[1..]) == {};
    assert BatchHosts(batches) == Elements(batches[0].masterOrder);
    assert Deployed(s, plan, batches).state == BatchDeployed(s, plan, batches[0]).state;
  }

  lemma {:induction false} BatchesReach(s: State, plan: Plan, batches: seq<Batch>, rt: Host -> Runtime, m0: Host)
    requires Ready(plan, rt, m0) && Consistent(s, rt, m0) && ValidBatches(batches) && batches != []
    requires HealthyBatches(batches) && !PrecheckFails(plan)
    ensures var o := Deployed(s, plan, batches);
            && o.failed == SerialRaises(s.cluster.nodes.Keys, plan.cfg, batches)
            && (!o.failed ==> Reached(s.cluster.nodes.Keys, o.state, plan, batches, rt, m0))
    decreases |batches|
  {
    var b, rest, nodes := batches[0], batches[1..], s.cluster.nodes.Keys;
    var first := BatchDeployed(s, plan, b);
    var next := first.state.cluster.nodes.Keys;
    BatchReaches(s, plan, b, rt, m0);
    FirstBatchDecides(nodes, next, plan.cfg, batches);
    if first.failed {
      return;
    }
    if rest == [] {
      OnlyBatch(s, plan, batches, rt, m0);
    } else {
      BatchesReach(first.state, plan, rest, rt, m0);
      var later := Deployed(first.state, plan, rest);
      if !later.failed {
        ReachedFurther(nodes, next, later.state, plan, batches, rt, m0);
      }
    }
  }

  /** A deploy over all hosts reaches its goal; it fails only on the precheck or on a taint target not yet joined. */
  lemma {:induction false} DeployReachesGoal(s: State, plan: Plan, rt: Host -> Runtime, m0: Host)
    requires Ready(plan, rt, m0) && Consistent(s, rt, m0) && ValidBatches(plan.batches) && plan.batches != []
    requires HealthyBatches(plan.batches) && BatchHosts(plan.batches) == plan.cfg.inventory.Hosts()
    ensures var o := Deployed(s, plan, plan.batches);
            && (o.failed <==> (plan.cfg.isHa && plan.vip == "") || SerialRaises(s.cluster.nodes.Keys, plan.cfg, plan.batches))
            && (plan.cfg.isHa && plan.vip == "" ==> o.state == s && o.applies == 0)
            && (!o.failed ==> Reached(s.cluster.nodes.Keys, o.state, plan, plan.batches, rt, m0)
                              && AllHaveImages(o.state, plan, plan.cfg.inventory.Hosts())
                              && o.state.cluster.nodes == Assigned(Target(s.cluster, plan.cfg), rt))
  {
    if !PrecheckFails(plan) {
      BatchesReach(s, plan, plan.batches, rt, m0);
      if !Deployed(s, plan, plan.batches).failed {
        AllPull(s, plan, plan.batches);
      }
    }
  }

  lemma {:induction false} AllPull(s: State, plan: Plan, batches: seq<Batch>)
    requires plan.cfg.inventory.Masters() != [] && SoundListing(plan.listing) && !Deployed(s, plan, batches).failed
    ensures AllHaveImages(Deployed(s, plan, batches).state, plan, BatchHosts(batches))
  {
    forall h | h in BatchHosts(batches)
      ensures HasImages(Deployed(s, plan, batches).state.images, plan, h)
    {
      BatchesPull(s, plan, batches, h);
    }
  }
}
