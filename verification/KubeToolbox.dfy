/**
 ansible/library/kube_toolbox.py: the worker behind every kubeadm and kubectl task.  It only sees the cluster
 as text: a `Machine` answers each command with an exit code and two streams.
 */
module KubeToolbox {
  import opened Wrappers
  import opened Text
  import opened CommandLine
  import NodeTable
  import TokenTable
  import Kubeconfig

  datatype Outcome = Outcome(code: int, stdout: string, stderr: string)

  const TAINT_EXCEPTION: string := "taint"
  const LIST_TOKENS: string := "kubeadm token list"
  const CREATE_TOKEN: string := "kubeadm token create"
  const UPLOAD_CERTS_PHASE: string := "kubeadm init phase upload-certs --upload-certs"
  const GET_NODES: string := "kubectl get node -o wide"
  const CLUSTER_INFO: string := "kubectl cluster-info"
  const CA_CERT_HASH_PIPE: string :=
    "openssl x509 -pubkey -in /etc/kubernetes/pki/ca.crt | openssl rsa -pubin -outform der 2>/dev/null | openssl dgst -sha256 -hex | sed 's/^.* //'"

  /** `_run`: a failing command raises, except exit code 1 with "taint" on standard error. */
  function RunResult(o: Outcome): Result<string> {
    if o.code != 0 && !(o.code == 1 && Contains(o.stderr, TAINT_EXCEPTION)) then Err("command failed")
    else Ok(o.stdout)
  }

  /** The machine a task is delegated to: its admin.conf if there is one, its answers to come, the commands it was given. */
  class Machine {
    const kubeconfig: string
    var adminConf: bool
    var answers: seq<Outcome>
    var issued: seq<string>

    constructor (adminConf: bool, kubeconfig: string, answers: seq<Outcome>)
      ensures this.adminConf == adminConf && this.kubeconfig == kubeconfig && this.answers == answers && issued == []
    {
      this.adminConf := adminConf;
      this.kubeconfig := kubeconfig;
      this.answers := answers;
      issued := [];
    }

    method Execute(cmd: string) returns (o: Outcome)
      modifies this`answers, this`issued
      ensures o == Answer(old(answers), 0) && answers == After(old(answers), 1) && issued == old(issued) + [cmd]
    {
      o := Answer(answers, 0);
      answers := After(answers, 1);
      issued := issued + [cmd];
    }
  }

  /** The i-th coming answer; a machine with nothing left to say does not know the command. */
  function Answer(answers: seq<Outcome>, i: nat): Outcome {
    if i < |answers| then answers[i] else Outcome(127, "", "not found")
  }

  function After(answers: seq<Outcome>, i: nat): seq<Outcome> {
    if i <= |answers| then answers[i..] else []
  }

  /** The four inventory groups handed to `get`. */
  datatype KubeGroups = KubeGroups(dockerMaster: set<string>, containerdMaster: set<string>,
                                   dockerNode: set<string>, containerdNode: set<string>)

  datatype WorkerResult = WorkerResult(
    apiserver: Option<string>, updateNodes: Option<KubeGroups>, token: Option<string>, caCertHash: Option<string>,
    certificateKey: Option<string>, bootstrapped: Option<string>, output: Option<string>, sandboxImage: Option<string>)

  const NO_RESULT: WorkerResult := WorkerResult(None, None, None, None, None, None, None, None)

  // ---- What the answers amount to

  function NodesRead(o: Outcome): Result<NodeTable.NodeMap> {
    var stdout :- RunResult(o);
    NodeTable.SortNodes(NodeTable.NodeLines(stdout))
  }

  function Elements(names: seq<string>): set<string> {
    set name | name in names
  }

  datatype Tables = Tables(first: NodeTable.NodeMap, second: NodeTable.NodeMap,
                           third: NodeTable.NodeMap, fourth: NodeTable.NodeMap)

  /** Four reads of the node table, one after the other. */
  function TablesRead(answers: seq<Outcome>): Result<Tables> {
    var first :- NodesRead(Answer(answers, 0));
    var second :- NodesRead(Answer(answers, 1));
    var third :- NodesRead(Answer(answers, 2));
    var fourth :- NodesRead(Answer(answers, 3));
    Ok(Tables(first, second, third, fourth))
  }

  /** The hosts of each group that its read of the node table does not list. */
  function UpdateNodes(groups: KubeGroups, answers: seq<Outcome>): Result<KubeGroups> {
    var t :- TablesRead(answers);
    Ok(KubeGroups(groups.dockerMaster - Elements(t.first.docker), groups.containerdMaster - Elements(t.second.containerd),
                  groups.dockerNode - Elements(t.third.docker), groups.containerdNode - Elements(t.fourth.containerd)))
  }

  datatype TokenChoice = Listed(token: string) | Created(token: string)

  /** `get_token`: the listed token the scan finds, or a new one. */
  function ChooseToken(answers: seq<Outcome>): Result<TokenChoice> {
    var stdout :- RunResult(Answer(answers, 0));
    var found :- TokenTable.Scan(TokenTable.Candidates(stdout));
    if found.Some? then Ok(Listed(found.value))
    else
      var minted :- RunResult(Answer(answers, 1));
      Ok(Created(DropLast(minted)))
  }

  /** `text[:-1]` */
  function DropLast(text: string): string {
    if text == "" then "" else text[..|text| - 1]
  }

  predicate NeedsCertificateKey(isHa: bool, update: KubeGroups) {
    isHa && (update.dockerMaster != {} || update.containerdMaster != {})
  }

  function LastWord(text: string): Result<string> {
    var words := Words(text);
    if words == [] then Err("IndexError") else Ok(words[|words| - 1])
  }

  function ClusterExists(adminConf: bool, o: Outcome): Result<bool> {
    if !adminConf then Ok(false)
    else
      var info :- RunResult(o);
      Ok(Contains(info, "is running at"))
  }

  function FirstWith(lines: seq<string>, m: string): Option<string> {
    if lines == [] then None
    else if Contains(lines[0], m) then Some(lines[0])
    else FirstWith(lines[1..], m)
  }

  /** The certificate key, if a control-plane join may follow; `None` otherwise. */
  function CertificateKey(isHa: bool, update: KubeGroups, o: Outcome): Result<Option<string>> {
    if !NeedsCertificateKey(isHa, update) then Ok(None)
    else
      var stdout :- RunResult(o);
      var key :- LastWord(stdout);
      Ok(Some(key))
  }

  function KeyCommands(isHa: bool, update: KubeGroups): seq<string> {
    if NeedsCertificateKey(isHa, update) then [UPLOAD_CERTS_PHASE] else []
  }

  function TokenCommands(created: bool): seq<string> {
    [LIST_TOKENS] + if created then [CREATE_TOKEN] else []
  }

  function NodeReads(n: nat): seq<string> {
    if n == 0 then [] else NodeReads(n - 1) + [GET_NODES]
  }

  /** The commands of a `get`, in order. */
  function GetCommands(created: bool, isHa: bool, update: KubeGroups): seq<string> {
    NodeReads(4) + TokenCommands(created) + [CA_CERT_HASH_PIPE] + KeyCommands(isHa, update)
  }

  lemma {:induction false} GetCommandsFollow(issued: seq<string>, created: bool, isHa: bool, update: KubeGroups)
    ensures issued + GetCommands(created, isHa, update) ==
            issued + NodeReads(4) + TokenCommands(created) + [CA_CERT_HASH_PIPE] + KeyCommands(isHa, update)
  {
  }

  /** What `get` hands to the later tasks. */
  datatype Gathered = Gathered(update: KubeGroups, token: string, caCertHash: string, certificateKey: Option<string>)

  /** The whole `get`: four reads of the node table, the token, the CA hash, the certificate key. */
  function Gather(groups: KubeGroups, isHa: bool, answers: seq<Outcome>): Result<Gathered> {
    var update :- UpdateNodes(groups, answers);
    var choice :- ChooseToken(After(answers, 4));
    var rest := After(answers, if choice.Created? then 6 else 5);
    var hash :- RunResult(Answer(rest, 0));
    var key :- CertificateKey(isHa, update, Answer(rest, 1));
    Ok(Gathered(update, choice.token, DropLast(hash), key))
  }

  /** What one `run` amounts to. */
  datatype RunEffect =
    | AlreadyRunning
    | Bootstrapped(output: string)
    | Executed(output: string, isApply: bool)
    | SandboxFound(image: string)
  {
    /** Applying a manifest never reports a change. */
    predicate Changes() {
      Bootstrapped? || (Executed? && !isApply)
    }

    function Record(r: WorkerResult): WorkerResult {
      match this
      case AlreadyRunning => r
      case Bootstrapped(output) => r.(bootstrapped := Some(output))
      case Executed(output, _) => r.(output := Some(output))
      case SandboxFound(image) => r.(sandboxImage := Some(image))
    }
  }

  function RunPlan(kind: Kind, isApply: bool, line: Result<string>, adminConf: bool, answers: seq<Outcome>): Result<RunEffect> {
    match kind
    case Sandbox =>
      var _ :- line;
      var images :- RunResult(Answer(answers, 0));
      var image := FirstWith(Lines(images), "pause");
      if image.Some? then Ok(SandboxFound(image.value)) else Err("failed to find sandbox image")
    case Bootstrap =>
      var running :- ClusterExists(adminConf, Answer(answers, 0));
      if running then Ok(AlreadyRunning)
      else
        var _ :- line;
        var output :- RunResult(Answer(answers, if adminConf then 1 else 0));
        Ok(Bootstrapped(output))
    case _ =>
      var _ :- line;
      var output :- RunResult(Answer(answers, 0));
      Ok(Executed(output, isApply))
  }

  /** The commands a `run` gives to its machine. */
  function RunCommands(kind: Kind, line: Result<string>, adminConf: bool, answers: seq<Outcome>): seq<string> {
    if kind.Bootstrap? then
      (if adminConf then [CLUSTER_INFO] else [])
      + if ClusterExists(adminConf, Answer(answers, 0)) == Ok(false) && line.Ok? then [line.value] else []
    else if line.Ok? then [line.value] else []
  }

  // ---- Loops

  /** The accumulated join text: every piece followed by a blank. */
  function Spaced(pieces: seq<string>): string {
    if pieces == [] then "" else Spaced(pieces[..|pieces| - 1]) + pieces[|pieces| - 1] + " "
  }

  /** Cutting the last character of the accumulated text gives the joined pieces. */
  lemma {:induction false} SpacedIsJoin(pieces: seq<string>)
    ensures DropLast(Spaced(pieces)) == Join(pieces, " ")
    ensures pieces != [] ==> Spaced(pieces) == Join(pieces, " ") + " "
  {
    if |pieces| == 1 {
      assert Spaced(pieces) == Spaced([]) + pieces[0] + " ";
    } else if |pieces| > 1 {
      SpacedIsJoin(pieces[..|pieces| - 1]);
      JoinLast(pieces, " ");
    }
  }

  lemma {:induction false} GivenAppend(a: Vars, b: Vars)
    ensures Given(a + b) == Given(a) + Given(b)
  {
    if a == [] {
      assert a + b == b;
    } else {
      assert (a + b)[1..] == a[1..] + b;
      GivenAppend(a[1..], b);
    }
  }

  lemma {:induction false} GivenStep(vars: Vars, i: nat)
    requires i < |vars|
    ensures Given(vars[..i + 1]) ==
            if vars[i].1 == "" then Given(vars[..i]) else Given(vars[..i]) + [vars[i]]
  {
    assert vars[..i + 1] == vars[..i] + [vars[i]];
    GivenAppend(vars[..i], [vars[i]]);
    assert [vars[i]][1..] == [];
  }

  lemma {:induction false} InitPiecesAppend(a: Vars, entry: (string, string))
    ensures InitPieces(a + [entry]) == InitPieces(a) + [AssignFlag(entry.0, entry.1)]
  {
    if a == [] {
      assert ([] + [entry])[1..] == [];
    } else {
      assert (a + [entry])[1..] == a[1..] + [entry];
      InitPiecesAppend(a[1..], entry);
    }
  }

  lemma {:induction false} JoinPiecesAppend(a: Vars, entry: (string, string))
    ensures JoinPieces(a + [entry]) == JoinPieces(a) + [JoinPiece(entry.0, entry.1)]
  {
    if a == [] {
      assert ([] + [entry])[1..] == [];
    } else {
      assert (a + [entry])[1..] == a[1..] + [entry];
      JoinPiecesAppend(a[1..], entry);
    }
  }

  /** One turn of the join loop. */
  lemma {:induction false} JoinExtraStep(vars: Vars, i: nat)
    requires i < |vars|
    ensures var (key, value) := vars[i];
            Spaced(JoinPieces(Given(vars[..i + 1]))) ==
            if value == "" then Spaced(JoinPieces(Given(vars[..i])))
            else Spaced(JoinPieces(Given(vars[..i]))) + JoinPiece(key, value) + " "
  {
    GivenStep(vars, i);
    if vars[i].1 != "" {
      var before := Given(vars[..i]);
      JoinPiecesAppend(before, vars[i]);
    }
  }

  lemma {:induction false} SortStep(lines: seq<string>, i: nat)
    requires i < |lines| && NodeTable.SortNodes(lines[..i]).Ok?
    ensures var m, items := NodeTable.SortNodes(lines[..i]).value, Words(lines[i]);
            NodeTable.SortNodes(lines[..i + 1]) ==
            if items == [] then Err("IndexError") else Ok(NodeTable.AddNode(m, items[0], items[|items| - 1]))
  {
    var some := lines[..i + 1];
    assert some[..|some| - 1] == lines[..i] && some[|some| - 1] == lines[i];
  }

  lemma {:induction false} SortFails(lines: seq<string>, i: nat)
    requires i <= |lines| && NodeTable.SortNodes(lines[..i]).Err?
    ensures NodeTable.SortNodes(lines) == NodeTable.SortNodes(lines[..i])
    decreases |lines|
  {
    if i == |lines| {
      assert lines[..i] == lines;
    } else {
      var shorter := lines[..|lines| - 1];
      assert shorter[..i] == lines[..i];
      SortFails(shorter, i);
    }
  }

  class KubeWorker {
    const machine: Machine
    const moduleName: string
    const moduleArgs: string
    const isHa: bool
    const kubeApi: string
    const extraVars: Vars
    const groups: KubeGroups
    var changed: bool
    var result: WorkerResult

    constructor (machine: Machine, moduleName: string, moduleArgs: string, isHa: bool, kubeApi: string,
                 extraVars: Vars, groups: KubeGroups)
      ensures this.machine == machine && this.moduleName == moduleName && this.moduleArgs == moduleArgs
      ensures this.isHa == isHa && this.kubeApi == kubeApi && this.extraVars == extraVars && this.groups == groups
      ensures !changed && result == NO_RESULT
    {
      this.machine := machine;
      this.moduleName, this.moduleArgs := moduleName, moduleArgs;
      this.isHa, this.kubeApi := isHa, kubeApi;
      this.extraVars, this.groups := extraVars, groups;
      changed, result := false, NO_RESULT;
    }

    method Run(cmd: string) returns (r: Result<string>)
      modifies machine`answers, machine`issued
      ensures r == RunResult(Answer(old(machine.answers), 0))
      ensures var o := Answer(old(machine.answers), 0);
              if o.code == 0 || (o.code == 1 && Contains(o.stderr, "taint")) then r == Ok(o.stdout) else r.Err?
      ensures machine.answers == After(old(machine.answers), 1) && machine.issued == old(machine.issued) + [cmd]
    {
      var o := machine.Execute(cmd);
      if o.code != 0 {
        if o.code == 1 && Contains(o.stderr, TAINT_EXCEPTION) {
          return Ok(o.stdout);
        }
        return Err("command failed");
      }
      return Ok(o.stdout);
    }

    /** `commandlines`, with its accumulate-then-cut loop for joins. */
    method Commandlines() returns (r: Result<string>)
      ensures r == CommandText(moduleName, moduleArgs, isHa, kubeApi, extraVars)
    {
      var kind := Classify(moduleName, moduleArgs);
      var cmd := [moduleName, moduleArgs];
      if isHa {
        cmd := cmd + [Join([LongFlag(ENDPOINT), kubeApi, UPLOAD_CERTS], " ")];
      } else {
        if kubeApi != "" {
          var parts := Split(kubeApi, {':'});
          if |parts| == 2 {
            if parts[0] != "" {
              cmd := cmd + [Join([LongFlag(ENDPOINT), kubeApi], " ")];
            }
          }
        }
      }
      assert cmd == [moduleName, moduleArgs] + EndpointPieces(isHa, kubeApi);
      if extraVars == [] {
        assert cmd + [] == cmd;
        return Ok(Join(cmd, " "));
      }
      if kind.Other? {
        return Err("TypeError");
      }
      var extra: string;
      if kind.NodeAdd? {
        extra := JoinExtra();
      } else {
        extra := InitExtra();
      }
      return Ok(Join(cmd + [extra], " "));
    }

    method InitExtra() returns (extra: string)
      ensures extra == Join(InitPieces(Given(extraVars)), " ")
    {
      var pieces := [];
      for i := 0 to |extraVars|
        invariant pieces == InitPieces(Given(extraVars[..i]))
      {
        GivenStep(extraVars, i);
        if extraVars[i].1 != "" {
          InitPiecesAppend(Given(extraVars[..i]), extraVars[i]);
          pieces := pieces + [AssignFlag(extraVars[i].0, extraVars[i].1)];
        }
      }
      assert extraVars[..|extraVars|] == extraVars;
      extra := Join(pieces, " ");
    }

    method JoinExtra() returns (extra: string)
      ensures extra == Join(JoinPieces(Given(extraVars)), " ")
    {
      var extraCmd := "";
      for i := 0 to |extraVars|
        invariant extraCmd == Spaced(JoinPieces(Given(extraVars[..i])))
      {
        JoinExtraStep(extraVars, i);
        var (key, value) := extraVars[i];
        if value == "" {
          continue;
        }
        if key == CA_HASH {
          extraCmd := extraCmd + Join([LongFlag(key), SHA256 + value], " ");
        } else {
          extraCmd := extraCmd + Join([LongFlag(key), value], " ");
        }
        extraCmd := extraCmd + " ";
      }
      assert extraVars[..|extraVars|] == extraVars;
      SpacedIsJoin(JoinPieces(Given(extraVars)));
      extra := DropLast(extraCmd);
    }

    method IsKubeClusterExists() returns (r: Result<bool>)
      modifies machine`answers, machine`issued
      ensures r == ClusterExists(machine.adminConf, Answer(old(machine.answers), 0))
      ensures machine.answers == After(old(machine.answers), if machine.adminConf then 1 else 0)
      ensures machine.issued == old(machine.issued) + if machine.adminConf then [CLUSTER_INFO] else []
    {
      if !machine.adminConf {
        assert machine.issued + [] == machine.issued;
        return Ok(false);
      }
      var info :- Run(CLUSTER_INFO);
      return Ok(Contains(info, "is running at"));
    }

    /** Reads the token list; `changed` and a `token create` come together, and only when no listed token will do. */
    method GetToken() returns (r: Result<()>)
      modifies this, machine`answers, machine`issued
      ensures var choice := ChooseToken(old(machine.answers));
              if choice.Ok? then
                && r.Ok? && result == old(result).(token := Some(choice.value.token))
                && changed == (old(changed) || choice.value.Created?)
                && machine.answers == After(old(machine.answers), if choice.value.Created? then 2 else 1)
                && machine.issued == old(machine.issued) + TokenCommands(choice.value.Created?)
              else r.Err? && result == old(result) && changed == old(changed)
    {
      var stdout :- Run(LIST_TOKENS);
      assert stdout == RunResult(Answer(old(machine.answers), 0)).value;
      var tokens := [];
      if Contains(stdout, TokenTable.BOOTSTRAPPERS) {
        tokens := Lines(stdout)[1..];
      }
      var i := 0;
      while i < |tokens|
        invariant 0 <= i <= |tokens|
        invariant TokenTable.Scan(tokens) == TokenTable.Scan(tokens[i..])
        invariant result == old(result) && changed == old(changed)
        invariant machine.answers == After(old(machine.answers), 1)
        invariant machine.issued == old(machine.issued) + [LIST_TOKENS]
      {
        var tk := tokens[i];
        assert tokens[i..][0] == tk && tokens[i..][1..] == tokens[i + 1..];
        if tk != "" && Contains(tk, TokenTable.BOOTSTRAPPERS) {
          var words := Words(tk);
          if |words| < 2 || words[1] == "" {
            return Err("IndexError");
          }
          var ttl :- TokenTable.TtlValue(words[1]);
          if ttl > 0 {
            result := result.(token := Some(words[0]));
            assert [LIST_TOKENS] + [] == [LIST_TOKENS];
            return Ok(());
          }
        }
        i := i + 1;
      }
      var minted :- Run(CREATE_TOKEN);
      result := result.(token := Some(DropLast(minted)));
      changed := true;
      return Ok(());
    }

    method GetTokenCaCertHash() returns (r: Result<()>)
      modifies this`result, machine`answers, machine`issued
      ensures var o := RunResult(Answer(old(machine.answers), 0));
              if o.Ok? then r.Ok? && result == old(result).(caCertHash := Some(DropLast(o.value)))
              else r.Err? && result == old(result)
      ensures machine.answers == After(old(machine.answers), 1) && machine.issued == old(machine.issued) + [CA_CERT_HASH_PIPE]
    {
      var hash :- Run(CA_CERT_HASH_PIPE);
      result := result.(caCertHash := Some(DropLast(hash)));
      return Ok(());
    }

    /** Uploads the certificates exactly when a control-plane join may follow. */
    method GetCertificateKey() returns (r: Result<()>)
      requires result.updateNodes.Some?
      modifies this`result, machine`answers, machine`issued
      ensures var key := CertificateKey(isHa, old(result).updateNodes.value, Answer(old(machine.answers), 0));
              if key.Ok? then r.Ok? && result == old(result).(certificateKey := key.value)
              else r.Err? && result == old(result)
      ensures machine.issued == old(machine.issued) + KeyCommands(isHa, old(result).updateNodes.value)
    {
      var update := result.updateNodes.value;
      if isHa && (update.dockerMaster != {} || update.containerdMaster != {}) {
        var stdout :- Run(UPLOAD_CERTS_PHASE);
        var words := Words(stdout);
        if words == [] {
          return Err("IndexError");
        }
        result := result.(certificateKey := Some(words[|words| - 1]));
      } else {
        result := result.(certificateKey := None);
        assert machine.issued + [] == machine.issued;
      }
      return Ok(());
    }

    method NodesByRuntime() returns (r: Result<NodeTable.NodeMap>)
      modifies machine`answers, machine`issued
      ensures r == NodesRead(Answer(old(machine.answers), 0))
      ensures machine.answers == After(old(machine.answers), 1) && machine.issued == old(machine.issued) + [GET_NODES]
    {
      var stdout :- Run(GET_NODES);
      r := SortByRuntime(Split(Strip(stdout), NEWLINE)[1..]);
    }

    /** The loop over the lines of the table; a blank line raises. */
    method SortByRuntime(lines: seq<string>) returns (r: Result<NodeTable.NodeMap>)
      ensures r == NodeTable.SortNodes(lines)
    {
      var nodeMap := NodeTable.NodeMap([], []);
      for i := 0 to |lines|
        invariant NodeTable.SortNodes(lines[..i]) == Ok(nodeMap)
      {
        var items := Words(lines[i]);
        SortStep(lines, i);
        if items == [] {
          SortFails(lines, i + 1);
          return Err("IndexError");
        }
        if NodeTable.DOCKER_SCHEME <= items[|items| - 1] {
          nodeMap := nodeMap.(docker := nodeMap.docker + [items[0]]);
        }
        if NodeTable.CONTAINERD_SCHEME <= items[|items| - 1] {
          nodeMap := nodeMap.(containerd := nodeMap.containerd + [items[0]]);
        }
      }
      assert lines[..|lines|] == lines;
      return Ok(nodeMap);
    }

    method GetUpdateNodes() returns (r: Result<()>)
      modifies this`result, machine`answers, machine`issued
      ensures var update := UpdateNodes(groups, old(machine.answers));
              if update.Ok? then
                && r.Ok? && result == old(result).(updateNodes := Some(update.value))
                && machine.answers == After(old(machine.answers), 4)
                && machine.issued == old(machine.issued) + NodeReads(4)
              else r.Err? && result == old(result)
    {
      var t :- ReadTables();
      result := result.(updateNodes := Some(KubeGroups(groups.dockerMaster - Elements(t.first.docker),
                                                       groups.containerdMaster - Elements(t.second.containerd),
                                                       groups.dockerNode - Elements(t.third.docker),
                                                       groups.containerdNode - Elements(t.fourth.containerd))));
      return Ok(());
    }

    method ReadTables() returns (r: Result<Tables>)
      modifies machine`answers, machine`issued
      ensures r == TablesRead(old(machine.answers))
      ensures r.Ok? ==> machine.answers == After(old(machine.answers), 4)
                        && machine.issued == old(machine.issued) + NodeReads(4)
    {
      ghost var answers, issued := machine.answers, machine.issued;
      assert After(answers, 0) == answers && issued + NodeReads(0) == issued;
      var first :- ReadNodes(answers, issued, 0);
      var second :- ReadNodes(answers, issued, 1);
      var third :- ReadNodes(answers, issued, 2);
      var fourth :- ReadNodes(answers, issued, 3);
      return Ok(Tables(first, second, third, fourth));
    }

    /** One more read of the node table, the k-th of a row. */
    method ReadNodes(ghost answers: seq<Outcome>, ghost issued: seq<string>, ghost k: nat) returns (r: Result<NodeTable.NodeMap>)
      requires machine.answers == After(answers, k) && machine.issued == issued + NodeReads(k)
      modifies machine`answers, machine`issued
      ensures r == NodesRead(Answer(answers, k))
      ensures machine.answers == After(answers, k + 1) && machine.issued == issued + NodeReads(k + 1)
    {
      assert issued + NodeReads(k) + [GET_NODES] == issued + NodeReads(k + 1);
      r := NodesByRuntime();
    }

    /** The first server line of admin.conf; without the file, `open` raises. */
    method GetKubeApiserver() returns (r: Result<()>)
      modifies this`result
      ensures r.Ok? <==> machine.adminConf
      ensures var found := Kubeconfig.ApiserverIn(machine.kubeconfig);
              result == if machine.adminConf && found.Some? then old(result).(apiserver := found) else old(result)
    {
      if !machine.adminConf {
        return Err("FileNotFoundError");
      }
      var lines := Lines(machine.kubeconfig);
      var i := 0;
      while i < |lines|
        invariant 0 <= i <= |lines| && result == old(result)
        invariant Kubeconfig.ApiserverIn(machine.kubeconfig) == Kubeconfig.FirstServer(lines[i..], Kubeconfig.SERVER)
      {
        assert lines[i..][0] == lines[i] && lines[i..][1..] == lines[i + 1..];
        var server := Strip(lines[i]);
        if Kubeconfig.SERVER <= server {
          result := result.(apiserver := Some(Kubeconfig.AfterSlashes(server)));
          return Ok(());
        }
        i := i + 1;
      }
      return Ok(());
    }

    /** The `get` action: API server, snapshot, token, CA hash, certificate key; the first exception ends it. */
    method Get() returns (r: Result<()>)
      modifies this, machine`answers, machine`issued
      ensures var gathered := Gather(groups, isHa, old(machine.answers));
              var found := Kubeconfig.ApiserverIn(machine.kubeconfig);
              if machine.adminConf && gathered.Ok? then
                && r.Ok?
                && result == old(result).(apiserver := if found.Some? then found else old(result).apiserver,
                                          updateNodes := Some(gathered.value.update),
                                          token := Some(gathered.value.token),
                                          caCertHash := Some(gathered.value.caCertHash),
                                          certificateKey := gathered.value.certificateKey)
                && var created := ChooseToken(After(old(machine.answers), 4)).value.Created?;
                   && changed == (old(changed) || created)
                   && machine.issued == old(machine.issued) + GetCommands(created, isHa, gathered.value.update)
              else r.Err?
      ensures !machine.adminConf ==> machine.issued == old(machine.issued) && result == old(result) && changed == old(changed)
    {
      var _ :- GetKubeApiserver();
      r := GetFromCluster();
    }

    method GetFromCluster() returns (r: Result<()>)
      modifies this, machine`answers, machine`issued
      ensures var gathered := Gather(groups, isHa, old(machine.answers));
              if gathered.Ok? then
                && r.Ok?
                && result == old(result).(updateNodes := Some(gathered.value.update),
                                          token := Some(gathered.value.token),
                                          caCertHash := Some(gathered.value.caCertHash),
                                          certificateKey := gathered.value.certificateKey)
                && var created := ChooseToken(After(old(machine.answers), 4)).value.Created?;
                   && changed == (old(changed) || created)
                   && machine.issued == old(machine.issued) + GetCommands(created, isHa, gathered.value.update)
              else r.Err?
    {
      ghost var answers, issued := machine.answers, machine.issued;
      var _ :- GetUpdateNodes();
      var _ :- GetToken();
      ghost var created := ChooseToken(After(answers, 4)).value.Created?;
      GetCommandsFollow(issued, created, isHa, result.updateNodes.value);
      r := GetHashAndKey();
    }

    method GetHashAndKey() returns (r: Result<()>)
      requires result.updateNodes.Some?
      modifies this`result, machine`answers, machine`issued
      ensures var hash := RunResult(Answer(old(machine.answers), 0));
              var key := CertificateKey(isHa, old(result).updateNodes.value, Answer(old(machine.answers), 1));
              if hash.Ok? && key.Ok? then
                && r.Ok? && result == old(result).(caCertHash := Some(DropLast(hash.value)), certificateKey := key.value)
                && machine.issued == old(machine.issued) + [CA_CERT_HASH_PIPE] + KeyCommands(isHa, old(result).updateNodes.value)
              else r.Err?
    {
      var _ :- GetTokenCaCertHash();
      r := GetCertificateKey();
    }

    /** The first printed image that is a pause image. */
    method FindSandbox() returns (r: Result<Option<string>>)
      requires Classify(moduleName, moduleArgs).Sandbox?
      modifies machine`answers, machine`issued
      ensures var line := CommandText(moduleName, moduleArgs, isHa, kubeApi, extraVars);
              var images := RunResult(Answer(old(machine.answers), 0));
              && line.Ok? && machine.issued == old(machine.issued) + [line.value]
              && if images.Ok? then r == Ok(FirstWith(Lines(images.value), "pause")) else r.Err?
    {
      var cmd := Commandlines();
      var images :- Run(cmd.value);
      var lines := Split(images, NEWLINE);
      var i := 0;
      while i < |lines|
        invariant 0 <= i <= |lines|
        invariant FirstWith(lines, "pause") == FirstWith(lines[i..], "pause")
      {
        assert lines[i..][0] == lines[i] && lines[i..][1..] == lines[i + 1..];
        if Contains(lines[i], "pause") {
          return Ok(Some(lines[i]));
        }
        i := i + 1;
      }
      return Ok(None);
    }

    /** The `run` action.  A bootstrap runs kubeadm only when no cluster answers; every other command always runs. */
    method RunAction() returns (r: Result<()>)
      modifies this, machine`answers, machine`issued
      ensures var kind := Classify(moduleName, moduleArgs);
              var line := CommandText(moduleName, moduleArgs, isHa, kubeApi, extraVars);
              var plan := RunPlan(kind, "apply" <= moduleArgs, line, machine.adminConf, old(machine.answers));
              && machine.issued == old(machine.issued) + RunCommands(kind, line, machine.adminConf, old(machine.answers))
              && if plan.Ok? then
                   r.Ok? && changed == (old(changed) || plan.value.Changes()) && result == plan.value.Record(old(result))
                 else r.Err? && changed == old(changed) && result == old(result)
    {
      var kind := Classify(moduleName, moduleArgs);
      if kind.Sandbox? {
        var image :- FindSandbox();
        if image.None? {
          return Err("failed to find sandbox image");
        }
        result := result.(sandboxImage := image);
        return Ok(());
      } else if kind.Bootstrap? {
        var cmd := Commandlines();
        r := Bootstrap(cmd.value);
      } else {
        var cmd :- Commandlines();
        var output :- Run(cmd);
        if !("apply" <= moduleArgs) {
          changed := true;
        }
        result := result.(output := Some(output));
        return Ok(());
      }
    }

    /** kubeadm runs only when no cluster answers. */
    method Bootstrap(cmd: string) returns (r: Result<()>)
      modifies this`changed, this`result, machine`answers, machine`issued
      ensures var running := ClusterExists(machine.adminConf, Answer(old(machine.answers), 0));
              var output := RunResult(Answer(old(machine.answers), if machine.adminConf then 1 else 0));
              var asked := if machine.adminConf then [CLUSTER_INFO] else [];
              var done := running == Ok(false) && output.Ok?;
              && machine.issued == old(machine.issued) + (asked + if running == Ok(false) then [cmd] else [])
              && (r.Ok? <==> running == Ok(true) || done)
              && changed == (old(changed) || done)
              && result == if done then old(result).(bootstrapped := Some(output.value)) else old(result)
    {
      ghost var answers := machine.answers;
      var exists_ :- IsKubeClusterExists();
      if !exists_ {
        var output :- Run(cmd);
        changed := true;
        result := result.(bootstrapped := Some(output));
      }
      return Ok(());
    }
  }
}
