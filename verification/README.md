# kubez-ansible: a verified model of its cluster reconciliation

kubez-ansible installs and grows Kubernetes clusters.  Its playbooks decide at every run, from what the machines print, whether to
initialise a cluster, which hosts to join, which images to pull and which manifests to apply; its modules build command lines and parse
the answers; its launcher turns a command line into an `ansible-playbook` call.  This project models that logic in Dafny and proves what
holds over all inputs, all runs and all orders of execution.

## What is modelled

**The cluster as a state machine** (`Reconcile`, `Safety`, `Convergence`, `Hypotheses`).  A cluster is: admin.conf on master0, the node
objects with the runtime they report, the hosts that hold kubeadm files (`enrolled`), the taints, and a history of events.  kubeadm's init,
join and reset are atomic steps, and the settings say under which name each host registers.  A deploy is a list of task executions (init, snapshot, control-plane joins, worker joins, taint removal,
for every `serial` batch), an interrupted deploy is a prefix of that list, and a run is any sequence of interrupted or complete deploys
and destroys.  `KubernetesPlay.PlayRun` performs the same tasks by updating fields and is proved equal to the state machine; `Kubeadm`
reads a rendered join line back and joins as the state machine does.

**The modules as classes over text** (`KubeToolbox`, `ImagePull`, `HelmToolbox`, `Sockets`).  `KubeWorker`, the runtime workers,
`Helm3Worker` and `SocketWorker` keep the source's fields (`result`, `changed`) and loops, send commands to an abstract machine, and parse
what it prints.  Each method is proved against a function of the printed text; `NodeTable`, `TokenTable`, `CommandLine`, `Gathering`
prove what these functions mean for every table that can be printed, and `Answers` what a command comes to for every exit code and output
(`Text` and `Decimal` hold the laws of Python's string operations).  The cluster's state machine is tied to the same texts: a deploy starts
on a cluster whose `kubectl cluster-info` prints "is running at" (`Answers.Running`), and kubeadm and kubectl refuse by exit code and message.

**The other cores.**  The manifest directory as a cache (`Manifests`), image classification (`KubeRuntime`), whole deploys and runs of them
(`Site`, `SiteRuns`), the launcher (`Getopt`, `TypedArgs`, `KubezAnsible`), the command it launches as it is read (`LaunchedCommand`), what each
operand asks of it (`Operands`) and its confirmation (`DestroyGate`), the strided fact gathering (`GatherFacts`), the module passes (`ModuleLoad`) and the two version gates (`Versions`).

## Where the code does less than it promises

Each of these is the code as it stands, with the exact condition under which the promise holds:

- *Serial batches.*  The taint removal of the first batch is a run-once task; it raises when a master that is a worker too has not joined yet,
  and the later batches never start.  (A batch led by localhost removes taints from all nodes at once and
  cannot fail there.)  A batched deploy reaches what the single batch reaches exactly under
  `Convergence.SerialMatchesSingleBatchIff`; `Hypotheses.SerialStopsShort` gives the failing family.
- *Destroys that reset only some hosts* strand hosts for good: `Hypotheses.CutDestroyRecoversIff`, `Hypotheses.StrandedForGood`.
- *Mixed inventories.*  The join takes its socket from master0's runtime, so a host of the other runtime comes up under the wrong one and
  is joined, and refused, again by every later deploy (`Hypotheses.MisfitIsRefusedEveryTime`).  Behind docker below the cri-dockerd gate, where
  the line names no socket for docker groups, mixing is harmless.  `Hypotheses.TwoDeploysRefuseNothingIff` is the exact condition, and the
  convergence and safety results hold for every inventory that meets it.  docs/install/availability.md:35 and docs/install/availability.md:53
  advise one runtime, which meets it (`Safety.SingleRuntimeFits`).
- *Node names.*  The node table holds the names hosts register under, and the update lists compare them with the inventory.  A wanted host
  whose own name differs never shows (`Hypotheses.MisnamedIsNotShown`) and is refused again by every later deploy; the same exact condition covers it.
- *Manifests.*  A run cut off between copy and apply, a destroy whose clean-up runs on another machine than master0, and a failed apply whose
  message contains `taint` each leave a file that no later run applies: `Manifests.CacheCoherentIff`, `Manifests.BothHypothesesAreNeeded`,
  `Manifests.TaintExceptionHidesFailure`.
- *The confirmation of a destroy* is not needed when `--ask-vault-pass` repeats an earlier `-e kube_action=destroy` after the playbook, nor
  when an option value of several words brings a playbook of its own, with `kube_action=destroy` after `-e` or after another spelling of that
  flag (`DestroyGate.ValueAddsPlaybook`).  `DestroyGate.UnconfirmedDestroyIff` is the exact condition for any values, and for any program that takes
  the script's own words as ansible-playbook does (`LaunchedCommand.Knows`): what else it accepts as a flag, and with which value attached, is
  its own affair, and it runs nothing when a flag lacks its value, a word is unknown to it, or a playbook follows a later option.
  `DestroyGate.PlainDestroyIff` is the condition for values of one word that does not begin with a dash.
- *Version gates.*  The string test `>= '1.24.0'` and the float test `>= 1.28` agree with the numeric order on all two-digit minors, and
  exactly under the conditions of `Versions.StringGateIsNumericIff` and `Versions.FloatGateIsNumericIff` otherwise; release 1.9.0 passes both
  (`Versions.OldReleasePassesBothGates`).
- *Tokens.*  A bootstrap row with the TTL `<invalid>` or `<forever>` that comes before a live one raises: `TokenTable.ScanTable`,
  `TokenTable.InvalidAndForeverRaise`.
- *Images.*  A repository with a port loses its images (`KubeRuntime.NameRecoveredIff`); an untagged image is pulled by docker at every run
  (`ImagePull.SecondCallPullsNothingIff`).
- *Helm.*  A release is taken for installed when any listed row mentions its name: `HelmToolbox.StepRefinesIff`.
- *Kernel modules.*  A list that names a module as absent and later as present leaves it loaded but not persisted:
  `ModuleLoad.PassesFuseIff`.
- The misspelt `dokcer` branch of `to_socket` is harmless: `Sockets.MisspellingIsHarmless`.

## Model

| member | source | states |
|---|---|---|
| `Convergence.DeployConverges` | ansible/roles/kubernetes/tasks/config.yml:43-143 | From any coherent state and any inventory that gives every wanted host one runtime and its own node name, one uninterrupted deploy, joins in any order, ends with exactly the old members, master0, all masters if HA and the workers that are no masters, each under its own runtime; the run fails exactly when its taint removal meets an unknown node |
| `Convergence.DeployConvergesAfterAnyRun` | ansible/roles/kubernetes/tasks/config.yml:43-119 | The same, failure and taints included, from the state that any sequence of interrupted deploys, inventory growth and complete destroys leaves |
| `Convergence.BatchOutcome` | ansible/roles/kubernetes/tasks/config.yml:43-143 | What one batch makes of any state it can start from, refused joins included: nodes, enrolled hosts, failure and taints, exactly |
| `Convergence.JoinPhase` | ansible/roles/kubernetes/tasks/config.yml:92-119 | Any sequence of join steps, in any order, enrols exactly the hosts the update lists want; those not enrolled before become nodes |
| `Convergence.LaterDeploysAreQuiet` | ansible/roles/kubernetes/tasks/config.yml:43-119 | Once every wanted host is a node, any later deploy, batched and cut off in any way, runs no init and no join and adds no taint |
| `Convergence.SecondDeployChangesNothing` | ansible/roles/kubernetes/tasks/config.yml:43-143 | An immediate second deploy leaves the whole cluster, its history included, as it is |
| `Convergence.SerialOutcome` | ansible/site.yml:26-34 | A run over any serial batches fails exactly at the first batch not led by localhost, if that misses a master that is a worker too, with the members joined so far; else it reaches the share of all batches |
| `Convergence.SerialMatchesSingleBatchIff` | ansible/site.yml:26-34 | A partition into serial batches reaches the membership of the single batch if and only if that batch's taint removal finds its nodes or there was nothing left to add |
| `Convergence.SerialRefinement` | ansible/site.yml:26-34 | When no master is a worker too, every partition into batches reaches the membership of the single batch without failing |
| `Hypotheses.SerialStopsShort` | ansible/roles/kubernetes/tasks/config.yml:121-133 | In HA, whenever a master that is a worker too is no node after the first batch not led by localhost, the batched run fails and that master never joins |
| `Safety.StepIsSafe` | ansible/roles/kubernetes/tasks/config.yml:43-143 | Every step of a deploy keeps the invariant: nodes and enrolled hosts agree under their runtimes, nothing was refused, nothing happened twice to a host within the life of a cluster |
| `Safety.CutDeployIsSafe` | ansible/roles/kubernetes/tasks/config.yml:43-143 | A deploy over any batches, cut off after any step, keeps the invariant, and keeps its weaker half from states that destroys of some hosts left |
| `Safety.DestroyIsSafe` | ansible/roles/kubernetes/tasks/destroy.yml:2-8 | A destroy that resets every host, in any order, keeps the invariant and leaves nothing behind |
| `Safety.RunsAreSafe` | ansible/library/kube_toolbox.py:284-288 | The invariant holds after every sequence of interrupted deploys, growth and complete destroys |
| `Safety.AtMostOneJoinPerCluster` | ansible/library/kube_toolbox.py:284-288 | For settings that agree on one runtime and the inventory name for every wanted host (`Safety.CleanFits`), and over every run of deploys cut off anywhere and destroys of any hosts in any order, no host joins the same cluster twice, and there is at most one init more than there are destroys that reset master0 |
| `Safety.NoRejoinWithoutReset` | ansible/roles/kubernetes/tasks/config.yml:92-119 | Over every run, whatever its inventories, node names, cuts and destroys: between two joins of a host, that host was reset |
| `Safety.InitsAndDestroys` | ansible/library/kube_toolbox.py:284-288 | Over every run, whatever its inventories: inits are at most the destroys that reset master0, plus one for a cluster that stands; when no destroy repeats a host, destroy events are exactly those destroys |
| `Safety.NothingIsRefused` | ansible/library/kube_toolbox.py:256-267 | When inventories only grow and destroys reset every host, no run is ever refused an init or a join |
| `Safety.CleanFits` | ansible/roles/kubernetes/tasks/config.yml:36-41 | The condition of the convergence and safety results, checked on the settings: master0 and every wanted host register under their inventory names, and every wanted host is listed for one runtime in its role, the one its join comes up under |
| `Reconcile.MissingThroughText` | ansible/library/kube_toolbox.py:256-267 | For every printed node table of the current cluster, the update lists parsed from it are exactly what the cluster lacks |
| `Reconcile.GatherThroughText` | ansible/roles/kubernetes/tasks/config.yml:71-90 | The snapshot step registers what `get` makes of printed tables; without admin.conf the run fails |
| `Reconcile.Master0IsFirst` | ansible/roles/kubernetes/tasks/pull.yml:3-5 | Master0 is the first docker master, or without one the first containerd master, and its runtime is its group's |
| `Reconcile.InitThroughRun` | ansible/library/kube_toolbox.py:284-288 | The init step of the state machine fails and changes the cluster exactly when `run` raises and reports a bootstrap, kubeadm answering a refusal with any exit code that `run` does not excuse |
| `Reconcile.InitThroughText` | ansible/library/kube_toolbox.py:91-103 | With admin.conf, the init step leaves everything as it is when `kubectl cluster-info` succeeds and prints "is running at" anywhere; any other answer fails the run |
| `Reconcile.RunningClusterIsLeftAlone` | ansible/library/kube_toolbox.py:99-103 | Whatever surrounds "is running at" and whatever is on standard error, the init step changes nothing |
| `Reconcile.TaintTaskThroughText` | ansible/roles/kubernetes/tasks/config.yml:121-143 | The taint task fails exactly when `kubectl taint` fails, by exit code and message, for a master that is a worker too; it removes the control labels of those, or of every node on localhost, and no other taint |
| `Convergence.OtherTaintsStay` | ansible/roles/kubernetes/tasks/config.yml:121-143 | A deploy of a standing cluster, batched and cut off anywhere, never removes a taint that is no control label, nor any from a node that is no target unless a batch is led by localhost |
| `Kubeadm.JoinThroughText` | ansible/roles/kubernetes/tasks/config.yml:92-119 | The join step through its text: reading the rendered line's flags, kubeadm joins the host under the runtime and with the taints of the state machine, and `run` raises exactly when the host is refused, by an exit code other than 0 that `run` does not excuse |
| `Hypotheses.CutDestroyRecoversIff` | ansible/roles/kubernetes/tasks/destroy.yml:2-8 | After a destroy that reset only some hosts, a full deploy gets every wanted host serving again if and only if no wanted host kept its files (master0 reset) or lost them (master0 not reset) |
| `Hypotheses.StrandedForGood` | ansible/library/kube_toolbox.py:256-267 | Hosts reset while master0 was not are never enrolled again by any later deploy, since their node objects hide them |
| `Hypotheses.UnhealthyClusterStopsTheRun` | ansible/library/kube_toolbox.py:91-103 | With admin.conf present and no running cluster behind it, every deploy stops at its first step and changes nothing |
| `Hypotheses.TwoDeploysRefuseNothingIff` | ansible/roles/kubernetes/tasks/config.yml:36-119 | When mixing runtimes and names is harmless, exactly, for inventories in which no host registers under another one's name: from no cluster, two full deploys are refused nothing and master0 shows if and only if master0 and every wanted host register under their inventory names and each is listed for one runtime in the role it joins with, the one it comes up under |
| `Hypotheses.FirstDeployRefusesNothingIff` | ansible/roles/kubernetes/tasks/config.yml:92-119 | Where no host registers under another one's name, a first deploy is refused nothing if and only if no wanted host is listed for both runtimes in its role and master0, if its own join is wanted, registers under its inventory name |
| `Hypotheses.MisfitIsRefusedEveryTime` | ansible/library/kube_toolbox.py:256-267 | An enrolled host that is listed for a runtime no node of its name reports is joined, and refused, again by every later deploy, any number of times |
| `KubernetesPlay.PlayRun.Initialise` | ansible/roles/kubernetes/tasks/config.yml:43-58 | The init task changes cluster and failure exactly as the state machine says |
| `KubernetesPlay.PlayRun.GatherUpdate` | ansible/roles/kubernetes/tasks/config.yml:71-90 | The registered update lists become what the cluster lacks; without admin.conf the run fails |
| `KubernetesPlay.PlayRun.JoinMasters` | ansible/roles/kubernetes/tasks/config.yml:92-105 | The loop over hosts and master lists equals the sequence of control-plane join steps |
| `KubernetesPlay.PlayRun.JoinWorkers` | ansible/roles/kubernetes/tasks/config.yml:107-119 | The loop over hosts and node lists equals the sequence of worker join steps; masters are skipped |
| `KubernetesPlay.PlayRun.RemoveControlTaints` | ansible/roles/kubernetes/tasks/config.yml:121-143 | The nested loops remove exactly the control labels of the target nodes and fail exactly on an unknown one |
| `KubernetesPlay.PlayRun.Run` | ansible/site.yml:26-34 | The play over its serial batches ends in the state of the whole step list |
| `KubernetesPlay.PlayRun.Reset` | ansible/roles/kubernetes/tasks/destroy.yml:2-8 | The reset of the hosts in any order ends in the state machine's state |
| `KubeToolbox.KubeWorker.Run` | ansible/library/kube_toolbox.py:74-89 | Exit code 0 returns the output, so does exit code 1 with "taint" on standard error; everything else raises |
| `Answers.OtherCommandRuns` | ansible/library/kube_toolbox.py:74-89 | Every command but init and config is issued once, raises exactly for an exit code other than 0 and 1, whatever it printed, or for 1 without "taint" on standard error, and else records its output, as a change unless it is an apply |
| `Answers.FirstInitRuns` | ansible/library/kube_toolbox.py:284-288 | Without admin.conf an init asks nothing and runs kubeadm, whose exit code decides |
| `Answers.InitIsGuarded` | ansible/library/kube_toolbox.py:91-103 | With admin.conf an init issues kubeadm only after a `kubectl cluster-info` that succeeds without "is running at"; with it, nothing else is issued, recorded or changed; a failing answer raises |
| `Answers.SandboxIsFirstPause` | ansible/library/kube_toolbox.py:269-282 | Of the images a config command prints, the first line with "pause" is recorded, and no change is reported |
| `Answers.NoSandboxRaises` | ansible/library/kube_toolbox.py:269-282 | Without such a line, or when the command fails, it raises |
| `KubeToolbox.KubeWorker.Commandlines` | ansible/library/kube_toolbox.py:132-173 | The text that `CommandLine.RoundTrip` is about, or a type error for a dictionary nothing converts |
| `KubeToolbox.KubeWorker.JoinExtra` | ansible/library/kube_toolbox.py:157-169 | The accumulate-then-cut loop gives the blank-joined pieces of the non-empty entries |
| `KubeToolbox.SpacedIsJoin` | ansible/library/kube_toolbox.py:158-169 | Dropping the last character of the accumulated text is the join of the pieces, for every list of pieces |
| `KubeToolbox.KubeWorker.IsKubeClusterExists` | ansible/library/kube_toolbox.py:91-103 | False without admin.conf and without asking; otherwise what `kubectl cluster-info` says, or its exception |
| `KubeToolbox.KubeWorker.GetToken` | ansible/library/kube_toolbox.py:175-201 | The chosen token; a `token create` and `changed` come together, and only when no listed token will do |
| `KubeToolbox.KubeWorker.GetTokenCaCertHash` | ansible/library/kube_toolbox.py:214-220 | The hash without its line end, from one command; nothing is recorded when it fails |
| `KubeToolbox.KubeWorker.GetCertificateKey` | ansible/library/kube_toolbox.py:222-232 | Uploads certificates exactly when HA meets a master to add, and records the last word printed |
| `KubeToolbox.KubeWorker.NodesByRuntime` | ansible/library/kube_toolbox.py:234-254 | One read of the node table, sorted as `NodeTable.ReadBack` characterises; a blank row raises |
| `KubeToolbox.KubeWorker.GetUpdateNodes` | ansible/library/kube_toolbox.py:256-267 | The four lists of `Gathering.DifferenceThroughText`, from four separate reads |
| `KubeToolbox.KubeWorker.FindSandbox` | ansible/library/kube_toolbox.py:269-273 | The first printed line with a pause image, if there is one |
| `KubeToolbox.KubeWorker.Bootstrap` | ansible/library/kube_toolbox.py:284-288 | kubeadm is issued exactly when no cluster answers; `changed` and the result follow its answer |
| `KubeToolbox.KubeWorker.GetKubeApiserver` | ansible/library/kube_toolbox.py:203-212 | The first server line of admin.conf, or an exception without the file |
| `Kubeconfig.ApiserverReadBack` | ansible/library/kube_toolbox.py:203-212 | Whatever else admin.conf says, its first server line, indented and with any scheme, gives the address back |
| `KubeToolbox.KubeWorker.RunAction` | ansible/library/kube_toolbox.py:275-299 | Which commands are issued, what is recorded and when `changed` is set, for bootstrap, sandbox and every other command |
| `KubeToolbox.KubeWorker.Get` | ansible/library/kube_toolbox.py:301-306 | The whole `get`, in order: without admin.conf it raises before any command; otherwise its results, its commands and `changed`, failing where its first part fails |
| `Gathering.GetFromConsole` | ansible/library/kube_toolbox.py:175-306 | On a machine that prints a node table, a token table, a CA hash and, after any text, a certificate key, `get` records exactly the hosts that are no nodes, the first live token or the created one, the hash, and that key when HA meets a master to add, each from its own command |
| `CommandLine.RoundTrip` | ansible/library/kube_toolbox.py:132-173 | For every dictionary, empty or not, tokenising the command line and reading its flags gives the endpoint and exactly the non-empty entries in order, `sha256:` on the CA hash alone; the dictionary is recovered from the flags |
| `CommandLine.RaisesIff` | ansible/library/kube_toolbox.py:149-173 | Building the line raises exactly for a dictionary that belongs to no init, join or config of kubeadm |
| `CommandLine.CommandTokens` | ansible/library/kube_toolbox.py:132-173 | The tokens are those of name, arguments, endpoint and entries, in this order, for any texts |
| `CommandLine.EndpointIff` | ansible/library/kube_toolbox.py:137-147 | The endpoint flags: both in HA; otherwise the endpoint exactly for a text that is a non-empty host, one colon and a port |
| `CommandLine.EqualsInKeyIsAmbiguous` | ansible/library/kube_toolbox.py:154-156 | Once a key contains `=`, two different dictionaries print the same init line |
| `NodeTable.ReadBack` | ansible/library/kube_toolbox.py:234-254 | For every node table, printing, stripping, splitting and sorting gives the true names of each runtime in table order |
| `Gathering.DifferenceThroughText` | ansible/library/kube_toolbox.py:256-267 | Through printed tables, every update list is the exact set difference against its own read |
| `Gathering.InterleavedReadsAreBounded` | ansible/library/kube_toolbox.py:256-267 | When nodes are only added between the four reads, every list lies between the differences for the last and the first table |
| `TokenTable.ScanTable` | ansible/library/kube_toolbox.py:175-192 | For every printed token table, its columns padded in any way, the scan ends at the first live or unreadable bootstrap row, with its token or an exception |
| `TokenTable.BootstrapInColumns` | ansible/library/kube_toolbox.py:188-189 | In a row whose token and TTL have no colon the bootstrap mark can only be in the last columns |
| `TokenTable.NumericTtl` | ansible/library/kube_toolbox.py:191-192 | A number with a unit letter is read as that number |
| `TokenTable.LiveIff` | ansible/library/kube_toolbox.py:188-193 | A row with a numeric TTL is taken exactly when the number is positive and its last columns name `system:bootstrappers` |
| `Gathering.TokenChoiceThroughText` | ansible/library/kube_toolbox.py:175-201 | For every token table: the deciding row's token, its exception, or a created token when there is none |
| `Gathering.NumericTablesNeverRaise` | ansible/library/kube_toolbox.py:175-201 | When the bootstrap rows have numeric TTLs, whatever the other rows have, the first live one wins, and one is created exactly when there is none |
| `Gathering.ProxyRowIsNeverChosen` | ansible/library/kube_toolbox.py:188-193 | A listed token that is returned belongs to a row of the bootstrap group |
| `Gathering.ControlPlaneJoinCarriesKey` | ansible/library/kube_toolbox.py:222-232 | In HA, when a master update list has a host and the upload prints a key last, after any text and a blank, the same `get` records exactly that key and the join line carries it as its only `--certificate-key` |
| `Gathering.TaintIsIdempotentThroughRun` | ansible/library/kube_toolbox.py:82-88 | Removing a taint that is not there is excused; the message for an unknown node is excused only if the node's name contains `taint` |
| `Sockets.SocketWorker.Present` | ansible/library/cri_socket.py:44-51 | The socket of each known runtime and release; nothing for any other runtime name |
| `Sockets.MisspellingIsHarmless` | ansible/filter_plugins/to_socket.py:34-47 | After tokenising, the misspelt branch equals the intended one for every text and group |
| `Sockets.JoinLineFlags` | ansible/roles/kubernetes/tasks/config.yml:92-119 | The flags read off a rendered join line: those of its arguments, then the non-empty extra variables |
| `Sockets.JoinLineWords` | ansible/roles/kubernetes/tasks/config.yml:92-119 | Every word of a join line for known facts, in order: the address, the filter's socket for containerd groups, `--control-plane` for masters, master0's socket, token, hash with `sha256:`, and the certificate key for masters |
| `Sockets.JoinLineValues` | ansible/roles/kubernetes/tasks/config.yml:92-119 | Every `--cri-socket` and every `--certificate-key` on a join line |
| `Sockets.SocketAgreementIff` | ansible/roles/kubernetes/tasks/config.yml:36-41 | All sockets on a join line name the joining host's own runtime if and only if that is master0's runtime, or master0 runs docker below the cri-dockerd gate |
| `Sockets.JoinRuntimeIsLastSocket` | ansible/roles/kubernetes/tasks/config.yml:107-114 | The runtime a host comes up under, in the state machine, is that of the last socket on its line |
| `Versions.StringGate` | ansible/library/cri_socket.py:48 | What the string comparison decides for every release 1.m.p |
| `Versions.StringGateIsNumericIff` | ansible/library/cri_socket.py:48 | It agrees with m >= 24 if and only if m is below 3, has two digits, or is longer and starts with 24 or more |
| `Versions.FloatGate` | ansible/group_vars/all.yml:75-77 | What comparing the nearest doubles decides for every release 1.m.p |
| `Versions.LeadingDecidesFloat` | ansible/group_vars/all.yml:75-77 | On minors of up to sixteen digits rounding does not show: from two digits on, the first two decide, 28 or more |
| `Versions.FloatGateIsNumericIff` | ansible/group_vars/all.yml:75-77 | It agrees with m >= 28 if and only if m is below 3, has two digits, or is longer and passes as a double |
| `Versions.BumpImpliesCriDockerd` | ansible/roles/baremetal/tasks/install.yml:202-209 | For every release, the bumped package repository implies cri-dockerd on docker hosts |
| `Manifests.StepCoherentIff` | ansible/roles/kubectl-apply/tasks/main.yaml:4-15 | From a coherent store, one apply or destroy leaves every file truthful if and only if its change was applied, or its clean-up reached master0 |
| `Manifests.CacheCoherentIff` | ansible/roles/kubectl-apply/tasks/main.yaml:4-15 | Over every run, "file present with this content" means "content applied in this cluster" throughout if and only if every step is sound where it happens |
| `Manifests.StaleForGood` | ansible/roles/kubectl-apply/tasks/main.yaml:10-14 | A stale file stays stale through every run that neither changes its content nor cleans up |
| `Manifests.BothHypothesesAreNeeded` | ansible/roles/kubernetes/tasks/destroy.yml:10-16 | A cut-off apply, and a destroy whose clean-up misses master0, each leave an application that is never applied |
| `Manifests.LoopDelivers` | ansible/roles/kubernetes/tasks/apply.yml:9-15 | From a coherent store, when kubectl succeeds, every enabled application is delivered and the store stays coherent |
| `Manifests.DeliveredLoopIsQuiet` | ansible/roles/kubernetes/tasks/apply.yml:9-15 | Once all are delivered, the loop applies nothing and cannot fail |
| `Manifests.LoopFailsIff` | ansible/roles/kubernetes/tasks/apply.yml:9-15 | The loop fails if and only if kubectl fails on, or is cut off before, some enabled application with a changed manifest; if it does not, each changed manifest is applied once |
| `Manifests.LoopStopsAtFirst` | ansible/roles/kubectl-apply/tasks/main.yaml:4-15 | The first such application has its file written and ends the loop: every later one is left as it was |
| `Manifests.ManifestDirectory.ApplyOne` | ansible/roles/kubectl-apply/tasks/main.yaml:2-17 | Copy, then apply if the copy changed the file: the new files and applied contents, whether kubectl was called and whether the run fails |
| `Manifests.ManifestDirectory.ApplyApplications` | ansible/roles/kubernetes/tasks/apply.yml:9-15 | The loop stops at the first failure, with the store and the number of applies of the specification |
| `Manifests.ManifestDirectory.DestroyCluster` | ansible/roles/kubernetes/tasks/destroy.yml:2-16 | The cluster's applications are gone; the files go only if the local clean-up runs on master0 |
| `Site.DeployReachesGoal` | ansible/roles/kubernetes/tasks/deploy.yml:2-8 | A deploy over any serial batches that kubectl never fails reaches nodes, taints, images by group and manifests together; it fails exactly in HA without a vip, then changing nothing, or on a taint target that its first remote batch does not know |
| `Site.ImagesByGroup` | ansible/roles/kubernetes/tasks/pull.yml:24-33 | After a run that did not fail, the store of each runtime on each host holds what it held, the listed master images if the host is in that runtime's master group, the listed node images if it is in either group, and nothing else |
| `Site.FreshImages` | ansible/library/kube_runtime.py:43-50 | From empty stores a host ends with exactly the listed images of its groups |
| `Site.PullsWhatIsMissing` | ansible/roles/kubernetes/tasks/pull.yml:24-33 | Each host of a batch pulls every image it needs and lacks once for each runtime it needs it for, and nothing else |
| `SiteRuns.SecondRunHasNothingToDo` | ansible/roles/kubernetes/tasks/deploy.yml:2-8 | After it, when all batches are led by localhost or none is, the same deploy changes nothing, pulls nothing, applies nothing and does not fail |
| `SiteRuns.SecondRunChangesTaintsIff` | ansible/roles/kubernetes/tasks/config.yml:121-143 | For any mix of batches led by localhost and others: the second run can only remove taints, and it removes some if and only if a batch is led by localhost and the batches of the first run leave a node marked, as computed from node names alone |
| `SiteRuns.DeployReachesGoalAfterAnyRun` | ansible/roles/kubernetes/tasks/deploy.yml:2-8 | The same from the state after any run of whole deploys, failed ones included, and destroys that reset every host and clean up |
| `KubeRuntime.NameRecoveredIff` | ansible/library/kube_runtime.py:95-97 | The name of `repo/name:tag` is recovered if and only if the repository has no colon or the part before its colon ends in that name |
| `KubeRuntime.ClassifiesByName` | ansible/library/kube_runtime.py:87-105 | For every listing with colon-free repositories each list is the order-preserving filter by name, docker and containerd lists coincide, node lists are subsequences of master lists |
| `KubeRuntime.PortLosesImage` | ansible/library/kube_runtime.py:95-103 | A registry with a port drops the image from every list |
| `ImagePull.ListingReadBack` | ansible/library/kube_runtime.py:122-146 | For every store, both runtimes and any padding of the columns, printing and parsing the listing gives exactly the stored references |
| `ImagePull.PullRefines` | ansible/library/kube_runtime.py:113-141 | For both runtimes the store grows by exactly the request, and something is pulled if and only if something was missing |
| `ImagePull.SecondCallPullsNothingIff` | ansible/library/kube_runtime.py:113-141 | A second call pulls nothing if and only if the runtime is containerd or every missing image had a tag |
| `ImagePull.UntaggedPullsForever` | ansible/library/kube_runtime.py:113-127 | An untagged image that docker lacks is pulled by every call, after any number of calls and from any store |
| `ImagePull.LoopPullsEachMissingOnce` | ansible/roles/kubernetes/tasks/pull.yml:24-33 | Over any sequence of distinct lists, each missing image is pulled exactly once and no other is |
| `ImagePull.LoopOrderIsIrrelevant` | ansible/roles/kubernetes/tasks/pull.yml:24-33 | Any two orders of the same lists: same store, same pulls |
| `ImagePull.RuntimeWorker.GetImage` | ansible/library/kube_runtime.py:87-105 | The appending loop records the lists that `KubeRuntime.ClassifiesByName` is about |
| `ImagePull.RuntimeWorker.GetLocalImages` | ansible/library/kube_runtime.py:122-146 | What is parsed from the host's listing; on well-formed stores, exactly the references stored |
| `ImagePull.RuntimeWorker.PullImage` | ansible/library/kube_runtime.py:113-141 | For any references, the pulls in order, the new store and `changed`, for one listing taken before the loop |
| `HelmToolbox.InstalledIffMentioned` | ansible/library/helm_toolbox.py:131-138 | On every listing, however helm lays out its columns, a release is taken for installed if and only if some row mentions its name |
| `HelmToolbox.NoFalseNegatives` | ansible/library/helm_toolbox.py:131-138 | A listed release is always found, and an unlisted one is found exactly when another row mentions its name |
| `HelmToolbox.StepRefinesIff` | ansible/library/helm_toolbox.py:89-129 | One call is set insertion or removal without an exception if and only if the release is listed or no other row mentions it; `changed` reports exactly a change of the set |
| `HelmToolbox.RunRefinesSet` | ansible/library/helm_toolbox.py:89-129 | Over every unambiguous sequence of calls the releases are those of a plain set |
| `HelmToolbox.NeverInstalledTwice` | ansible/library/helm_toolbox.py:89-129 | Ambiguous or not, no sequence of calls ever lists a release twice |
| `HelmToolbox.MentionBlocksInstall` | ansible/library/helm_toolbox.py:131-138 | A row that mentions another release's name keeps that release from being installed |
| `HelmToolbox.Helm3Worker.IsInstalledNow` | ansible/library/helm_toolbox.py:131-138 | The line loop decides what `HelmToolbox.InstalledIffMentioned` characterises |
| `HelmToolbox.Helm3Worker.PresentChart` | ansible/library/helm_toolbox.py:89-117 | Repository first, then the guarded install; an incomplete repository raises and installs nothing |
| `HelmToolbox.Helm3Worker.AbsentChart` | ansible/library/helm_toolbox.py:119-129 | Repository removed first, then the guarded uninstall; exactly when it raises, and what rows, repositories and `changed` are then |
| `Getopt.LongOptSound` | tools/kubez-ansible:92-98 | An accepted word is a prefix of the option it stands for, and an accepted abbreviation fits no other option |
| `Getopt.FullNameFound` | tools/kubez-ansible:93 | A switch whose first letter is its own is found by its full name |
| `Getopt.AskVaultPassWord` | tools/kubez-ansible:93 | `--ask-vault-pass` is read as that switch |
| `TypedArgs.RoundTrip` | tools/kubez-ansible:92-98 | Whatever is typed, every option in any of its spellings (`-x v`, `-xv`, `--name v`, `--name=v`) and operands anywhere between them, is parsed as the options and operands meant, in order |
| `TypedArgs.TakesArgument` | tools/kubez-ansible:93 | Which options take an argument |
| `KubezAnsible.TurnsConfirmed` | tools/kubez-ansible:147-153 | The loop ends confirmed if and only if the option was accepted and its full text is in the raw arguments |
| `Operands.LaunchesIff` | tools/kubez-ansible:219-271 | Something is launched exactly for the eight operands, destroy only when confirmed; else the script exits with 0, or 1 for an unconfirmed destroy |
| `Operands.EarlyExits` | tools/kubez-ansible:96-217 | Before any operand is looked at: 2 when getopt fails, else 0 or 3 by the first of `--help` and `--passwords` |
| `Operands.LaunchedConfiguration` | tools/kubez-ansible:276-277 | The first words of every launched command: the inventory of the last `-i` and the configuration of the last `--configdir`, or the defaults |
| `Operands.HandedOnAsTyped` | tools/kubez-ansible:127-204 | An option that is handed on reaches ansible-playbook in a spelling under which the script itself would take it, `--key` as `--vault-password-file=`; the others leave no words |
| `Operands.TailAsTyped` | tools/kubez-ansible:137-194 | What follows the playbook: each `--verbose`, and with `--ask-vault-pass` the words of all options before it |
| `Operands.OperandRunsPlaybook` | tools/kubez-ansible:219-271 | What ansible-playbook reads is one playbook: the user's or the default for prechecks, destroy, deploy, pull and apply, and kubernetes-hosts, post-deploy or authorized-key for the other three |
| `Operands.OperandSetsAction` | tools/kubez-ansible:219-271 | The last action it reads, where no repeated value sets one, is the operand's own name, or `precheck` for prechecks; post-deploy and authorized-key leave it to the values given |
| `LaunchedCommand.LaunchWords` | tools/kubez-ansible:114-278 | The words of every launched command, for any option values: configuration, the options' words in order, the command's own, the playbook's, and those `--ask-vault-pass` repeats |
| `LaunchedCommand.LaunchReads` | tools/kubez-ansible:114-278 | What ansible-playbook reads off them, for any option values and however it takes each word: the words before the command's own, those, and the words after, each read from where the ones before left it |
| `LaunchedCommand.PlainBefore` | tools/kubez-ansible:127-204 | When every value is one word, without a dash where ansible-playbook would take it for a flag, what is read before the command's own words is the configuration and the `-e` values in order |
| `LaunchedCommand.SomeProgramKnows` | tools/kubez-ansible:219-278 | What is assumed of ansible-playbook can be met: by one that reads `-e`, `--extra-vars`, attached and `=` values, `--`, and finds the words that are paths |
| `DestroyGate.UnconfirmedDestroyIff` | tools/kubez-ansible:147-278 | For any option values and any program that knows the script's words, exactly when what is launched is an unconfirmed destroy of the site: the program does not stop, the site playbook is among the words before and after the command's own, and destroy is the last action after them, or before them where the command sets none |
| `DestroyGate.PlainDestroyIff` | tools/kubez-ansible:147-278 | When every value is one word that does not begin with a dash: if and only if the `-e` values before the last `--ask-vault-pass` end in one that sets destroy, by whatever reading, and the command runs the site playbook |
| `DestroyGate.NoDestroyUnconfirmed` | tools/kubez-ansible:147-278 | With such values and without `--ask-vault-pass`, a launched site playbook whose last action is destroy was confirmed with the full text |
| `DestroyGate.AskVaultPassNeedsNoConfirmation` | tools/kubez-ansible:191-194 | `-e kube_action=destroy --ask-vault-pass deploy` launches an unconfirmed destroy: the hypothesis is needed |
| `DestroyGate.ValueAddsPlaybook` | tools/kubez-ansible:171-174 | Every `-e` value whose words set destroy and end in the site playbook launches, with `post-deploy`, an unconfirmed destroy |
| `DestroyGate.BlankValueAddsPlaybook` | tools/kubez-ansible:171-174 | One `-e` value of two words and `post-deploy` launch an unconfirmed destroy: one-word values are needed |
| `DestroyGate.OtherSpellingAddsPlaybook` | tools/kubez-ansible:171-174 | So does a value in which any first word and any other spelling of `-e`, such as `--extra-vars`, come before the action |
| `KubezAnsible.Launcher.Options` | tools/kubez-ansible:114-217 | The option loop ends in the specified variables, last one wins, or exits with its code |
| `KubezAnsible.Launcher.RunCommand` | tools/kubez-ansible:219-278 | Command dispatch, the confirmation of a destroy, and the assembled command, as `Operands` reads it back |
| `KubezAnsible.Launcher.Start` | tools/kubez-ansible:95-278 | The whole script: getopt failure, exit codes, or the launched command |
| `GatherFacts.SlicesPartition` | ansible/gather-facts.yml:20-22 | The host at index j is in slice j mod b exactly once and in no other slice |
| `GatherFacts.EveryOtherHostExactlyOnce` | ansible/gather-facts.yml:24-29 | Every host outside the batch is gathered exactly once, no member of the batch is |
| `GatherFacts.FactStore.GatherDelegated` | ansible/gather-facts.yml:24-29 | The delegated loops add exactly the slices without the batch |
| `GatherFacts.FactStore.Gather` | ansible/gather-facts.yml:2-30 | After both plays over any serial batches, every host has been gathered exactly once for each batch of the second play, and once if there is none |
| `ModuleLoad.PassesOutcome` | ansible/roles/module-load/tasks/main.yaml:12-55 | For any list: the last entry decides what is loaded, any removal decides what is persisted |
| `ModuleLoad.PassesFuseIff` | ansible/roles/module-load/tasks/main.yaml:12-55 | The separate loops equal one per-module pass if and only if the directory is missing or no module is removed in one entry and wanted in its last |
| `ModuleLoad.DistinctOutcome` | ansible/roles/module-load/tasks/main.yaml:12-44 | With distinct names the passes fuse, loaded and persisted (files, or lines without the directory) are as requested, and no other name or line is touched |
| `ModuleLoad.LineIsRead` | ansible/roles/module-load/tasks/main.yaml:46-51 | A line of /etc/modules is read as the module's name and its parameters |
| `ModuleLoad.SecondRunChangesNothing` | ansible/roles/module-load/tasks/main.yaml:12-55 | With distinct names and lines a second run changes nothing |
| `ModuleLoad.AbsentThenPresentIsNotPersisted` | ansible/roles/module-load/tasks/main.yaml:22-44 | Absent then present leaves a module loaded but not persisted |
| `ModuleLoad.KernelModules.Run` | ansible/roles/module-load/tasks/main.yaml:3-55 | The block changes the host as the four passes say, for every action but `config` |

## Left out

- KubeToolbox.KubeWorker.GetUpdateNodes: the order of the update lists (`list(set(...))`); they are sets, and joins are proved for every order.
- LaunchedCommand.LaunchWords: words end at any ASCII white space, where the shell knows blank, tab and line end; EXTRA_OPTS in the environment, globbing and quoting inside values are not modelled.
- How ansible-playbook takes words other than the script's own, and how it reads an action off a value (quotes, escapes), are parameters.
- SiteRuns.SecondRunHasNothingToDo: the batches are all led by localhost or none is (`SiteRuns.SecondRunChangesTaintsIff` has the others); what kubectl answers is given, and it never fails.
- Safety.AtMostOneJoinPerCluster: settings that do not agree on one runtime and the inventory name per wanted host are left to `Safety.NoRejoinWithoutReset` and `Safety.InitsAndDestroys`.
- Hypotheses.TwoDeploysRefuseNothingIff: inventories in which a host registers under the name of another one; kubeadm's refusal of a node name that a live node has is not modelled.
- Refused hosts: in Ansible a host whose task fails leaves the play, and a batch whose hosts have all failed ends the run; the model goes on with every host.
- Site.DeployReachesGoal: what kubectl answers is given, and it never fails; a kubectl that fails is treated in Manifests.
- Subprocesses, files, HTTP and gpg: an abstract machine answers commands with exit code and text.
- kubeadm, kubectl and helm themselves: init, join, reset and pull are atomic steps, and preflight refuses a host that holds kubeadm files.
- One machine behind all commands of a batch: init, node table and join are tied to the cluster one by one (`Reconcile.InitThroughRun`, `Reconcile.MissingThroughText`, `Kubeadm.JoinThroughText`), not by one object that answers them all.
- Decoding of module parameters (`eval`, JSON): the model starts from decoded maps; underscores accepted by Python's `int` are not modelled, and white space is ASCII.
- Short docker.io names and image digests: a listed image is a reference as given, with a tag or without.
- The certificate key `None`: it is passed on as an empty value, which prints nothing.
- sysctl, swap, the wait for the vip and the copies of kubeconfig: a failure there is a cut-off run.
- Copies of admin.conf on the other masters of an HA cluster: master0 stays the first of its group.
- ansible/library/cri_dockerd.py, tools/setup_env.sh, ansible/roles/kubernetes/files/setup_helm.sh, templates and package tasks: straight-line calls or static data.
- kubez_ansible/to_socket.py and kubez_ansible/get_runtime_type.py: duplicates of the filter plugin; `find_custom_repo` only reads the file system.
- The text of helm commands (`--version`, `--set`, flags), `helm repo update`, and failures of helm other than uninstalling an unknown release.
- The option `--passwords`: getopt accepts it and the script exits with 3, as in the model; the usage texts are not modelled.
- The shift of positional parameters: the parsed options are a list, and base directory detection is a parameter.
- The contents of files under /etc/modules-load.d and the order of lines in /etc/modules: both are sets.
