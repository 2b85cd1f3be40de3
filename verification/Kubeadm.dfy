/** kubeadm at the other end of a join line: it tokenises the text, reads the flags, and joins or refuses. */
module Kubeadm {
  import opened Wrappers
  import opened Text
  import opened CommandLine
  import opened KubeToolbox
  import opened Reconcile
  import opened Sockets

  /** The runtime behind the last socket; docker when there is none. */
  function RuntimeBehind(sockets: seq<string>): Sockets.Runtime {
    if sockets != [] && sockets[|sockets| - 1] == CONTAINERD_SOCKET then Containerd else Docker
  }

  /** What the line says about a join: the runtime it comes up under, and whether it is one of a control plane. */
  datatype Reading = Reading(runtime: Sockets.Runtime, controlPlane: bool)

  function ReadingOf(flags: seq<Flag>): Reading {
    Reading(RuntimeBehind(ValuesOf(flags, CRI_SOCKET)), Flag("control-plane", "") in flags)
  }

  function ReadJoin(line: string): Reading {
    ReadingOf(ReadFlags(Words(line), SWITCHES))
  }

  /** Running the line on host `h`; preflight refuses a host that holds kubeadm files. */
  function RunJoin(c: Cluster, h: Host, node: Host, line: string, cpTaints: set<Label>): Cluster {
    var r := ReadJoin(line);
    KubeadmJoin(c, h, node, r.runtime, if r.controlPlane then cpTaints else {})
  }

  function Answered(c: Cluster, h: Host, done: Outcome, refusal: Outcome): Outcome {
    if h in c.enrolled then refusal else done
  }

  lemma {:induction false} VarFlagsHaveValues(vars: Vars)
    ensures forall flag :: flag in JoinFlags(Given(vars)) ==> flag.value != ""
  {
    if vars != [] {
      VarFlagsHaveValues(vars[1..]);
      var (key, value) := vars[0];
      if value == "" {
        assert Given(vars) == [] + Given(vars[1..]) == Given(vars[1..]);
      } else {
        assert Given(vars) == [vars[0]] + Given(vars[1..]);
        assert Given(vars)[0] == vars[0] && Given(vars)[1..] == Given(vars[1..]);
        assert Sealed(key, value) != "";
        assert JoinFlags(Given(vars)) == [Flag(key, Sealed(key, value))] + JoinFlags(Given(vars[1..]));
      }
    }
  }

  lemma {:induction false} SwitchOfMaster(f: JoinFacts, g: Group, socket: string)
    ensures Flag("control-plane", "") in ArgFlags(g) + JoinFlags(Given(JoinVars(f, g, socket))) <==> g.role.Master?
  {
    VarFlagsHaveValues(JoinVars(f, g, socket));
    assert CRI_SOCKET[0] == 'c' && CRI_SOCKET[1] == 'r' && "control-plane"[1] == 'o';
  }

  lemma {:induction false} SocketsOfFlags(f: JoinFacts, g: Group, socket: string)
    ensures ValuesOf(ArgFlags(g) + JoinFlags(Given(JoinVars(f, g, socket))), CRI_SOCKET) == LineSockets(g, socket)
  {
    ValuesAppend(ArgFlags(g), JoinFlags(Given(JoinVars(f, g, socket))), CRI_SOCKET);
    ArgFlagValues(g, CRI_SOCKET);
    JoinVarValues(f, g, socket, CRI_SOCKET);
  }

  lemma {:induction false} LastSocketTells(g: Group, master: Sockets.Runtime, release: string)
    ensures RuntimeBehind(LineSockets(g, SocketOf(master, release))) == JoinRuntime(g.runtime, master, release)
  {
    DistinctSockets();
  }

  lemma {:induction false} FlagsTell(flags: seq<Flag>, f: JoinFacts, g: Group, master: Sockets.Runtime, release: string)
    requires flags == ArgFlags(g) + JoinFlags(Given(JoinVars(f, g, SocketOf(master, release))))
    ensures ReadingOf(flags) == Reading(JoinRuntime(g.runtime, master, release), g.role.Master?)
  {
    SocketsOfFlags(f, g, SocketOf(master, release));
    LastSocketTells(g, master, release);
    SwitchOfMaster(f, g, SocketOf(master, release));
  }

  /** What kubeadm reads off a join line is what the state machine assumes. */
  lemma {:induction false} JoinLineReads(f: JoinFacts, g: Group, master: Sockets.Runtime, release: string)
    requires ValidFacts(f)
    ensures var line := JoinLine(f, g, SocketOf(master, release));
            line.Ok? && ReadJoin(line.value) == Reading(JoinRuntime(g.runtime, master, release), g.role.Master?)
  {
    JoinLineFlags(f, g, master, release);
    FlagsTell(ReadFlags(Words(JoinLine(f, g, SocketOf(master, release)).value), SWITCHES), f, g, master, release);
  }

  lemma {:induction false} RunRaises(line: Result<string>, c: Cluster, h: Host, done: Outcome, refusal: Outcome)
    requires line.Ok? && !Answers.Fails(done) && Answers.Fails(refusal)
    ensures RunPlan(NodeAdd, false, line, c.adminConf, [Answered(c, h, done, refusal)]).Ok? <==> h !in c.enrolled
  {
    Answers.FailsMeans(done);
    Answers.FailsMeans(refusal);
    assert Answer([Answered(c, h, done, refusal)], 0) == Answered(c, h, done, refusal);
  }

  /**
   The join step through its text: for a host of any group, the line built from what `get` recorded makes kubeadm join
   it as the state machine says, and `run` raises exactly when the host is refused.
   */
  lemma {:induction false} JoinThroughText(c: Cluster, h: Host, cfg: Config, f: JoinFacts, g: Group, done: Outcome, refusal: Outcome)
    requires ValidFacts(f) && cfg.inventory.Masters() != [] && !Answers.Fails(done) && Answers.Fails(refusal)
    ensures var master := cfg.inventory.MasterRuntime();
            var line := JoinLine(f, g, SocketOf(master, cfg.release));
            && line.Ok?
            && RunJoin(c, h, cfg.NodeOf(h), line.value, cfg.cpTaints) ==
               KubeadmJoin(c, h, cfg.NodeOf(h), JoinRuntime(g.runtime, master, cfg.release),
                           if g.role.Master? then cfg.cpTaints else {})
            && (RunPlan(NodeAdd, false, line, c.adminConf, [Answered(c, h, done, refusal)]).Ok? <==> h !in c.enrolled)
  {
    var master := cfg.inventory.MasterRuntime();
    JoinLineReads(f, g, master, cfg.release);
    RunRaises(JoinLine(f, g, SocketOf(master, cfg.release)), c, h, done, refusal);
  }
}
