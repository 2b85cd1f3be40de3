/** What `get` means when the machine's answers are printed tables: exact node differences, token choice, join keys. */
module Gathering {
  import opened Wrappers
  import opened Text
  import opened CommandLine
  import opened KubeToolbox
  import NodeTable
  import TokenTable
  import Sockets

  /** A successful `kubectl get node -o wide`. */
  function Printed(header: string, t: seq<NodeTable.NodeRow>): Outcome {
    Outcome(0, NodeTable.TableText(header, t), "")
  }

  function DockerNodes(t: seq<NodeTable.NodeRow>): set<string> {
    set r | r in t && "docker://" <= r.runtime :: r.name
  }

  function ContainerdNodes(t: seq<NodeTable.NodeRow>): set<string> {
    set r | r in t && "containerd://" <= r.runtime :: r.name
  }

  lemma {:induction false} NamesAsSets(t: seq<NodeTable.NodeRow>)
    ensures Elements(NodeTable.NamesWith(t, NodeTable.DOCKER_SCHEME)) == DockerNodes(t)
    ensures Elements(NodeTable.NamesWith(t, NodeTable.CONTAINERD_SCHEME)) == ContainerdNodes(t)
  {
    SchemeNames(t, NodeTable.DOCKER_SCHEME);
    SchemeNames(t, NodeTable.CONTAINERD_SCHEME);
  }

  lemma {:induction false} SchemeNames(t: seq<NodeTable.NodeRow>, scheme: string)
    ensures Elements(NodeTable.NamesWith(t, scheme)) == set r | r in t && scheme <= r.runtime :: r.name
  {
    var names := NodeTable.NamesWith(t, scheme);
    forall name
      ensures name in names <==> exists r :: r in t && scheme <= r.runtime && r.name == name
    {
      NodeTable.NamesWithMembers(t, scheme, name);
      if r :| r in t && scheme <= r.runtime && r.name == name {
        var i :| 0 <= i < |t| && t[i] == r;
      }
    }
  }

  /** The difference of the groups against one table per read. */
  function Difference(groups: KubeGroups, tables: seq<seq<NodeTable.NodeRow>>): KubeGroups
    requires |tables| == 4
  {
    KubeGroups(groups.dockerMaster - DockerNodes(tables[0]),
               groups.containerdMaster - ContainerdNodes(tables[1]),
               groups.dockerNode - DockerNodes(tables[2]),
               groups.containerdNode - ContainerdNodes(tables[3]))
  }

  predicate PrintedReads(header: string, tables: seq<seq<NodeTable.NodeRow>>, answers: seq<Outcome>) {
    && |tables| == 4 && NodeTable.ValidHeader(header)
    && forall i :: 0 <= i < 4 ==> NodeTable.ValidTable(tables[i]) && Answer(answers, i) == Printed(header, tables[i])
  }

  lemma {:induction false} NodesReadPrinted(header: string, t: seq<NodeTable.NodeRow>)
    requires NodeTable.ValidHeader(header) && NodeTable.ValidTable(t)
    ensures var nodes := NodesRead(Printed(header, t));
            nodes.Ok? && Elements(nodes.value.docker) == DockerNodes(t)
                      && Elements(nodes.value.containerd) == ContainerdNodes(t)
  {
    NodeTable.ReadBack(header, t);
    NamesAsSets(t);
  }

  /** Through printing and parsing, the update lists are the exact set differences, one table per list. */
  lemma {:induction false} DifferenceThroughText(groups: KubeGroups, header: string, tables: seq<seq<NodeTable.NodeRow>>, answers: seq<Outcome>)
    requires PrintedReads(header, tables, answers)
    ensures UpdateNodes(groups, answers) == Ok(Difference(groups, tables))
  {
    forall i | 0 <= i < 4
      ensures var nodes := NodesRead(Answer(answers, i));
              nodes.Ok? && Elements(nodes.value.docker) == DockerNodes(tables[i])
                        && Elements(nodes.value.containerd) == ContainerdNodes(tables[i])
    {
      NodesReadPrinted(header, tables[i]);
    }
  }

  predicate Within(a: KubeGroups, b: KubeGroups) {
    && a.dockerMaster <= b.dockerMaster && a.containerdMaster <= b.containerdMaster
    && a.dockerNode <= b.dockerNode && a.containerdNode <= b.containerdNode
  }

  /** Nodes are only added from one table to the next, and keep their runtime. */
  predicate OnlyAdded(earlier: seq<NodeTable.NodeRow>, later: seq<NodeTable.NodeRow>) {
    DockerNodes(earlier) <= DockerNodes(later) && ContainerdNodes(earlier) <= ContainerdNodes(later)
  }

  /** When nodes join between the four reads, every list lies between the differences for the last and the first table. */
  lemma {:induction false} InterleavedReadsAreBounded(groups: KubeGroups, header: string, tables: seq<seq<NodeTable.NodeRow>>, answers: seq<Outcome>)
    requires PrintedReads(header, tables, answers)
    requires forall i :: 0 <= i < 3 ==> OnlyAdded(tables[i], tables[i + 1])
    ensures var update := UpdateNodes(groups, answers);
            && update.Ok?
            && Within(Difference(groups, [tables[3], tables[3], tables[3], tables[3]]), update.value)
            && Within(update.value, Difference(groups, [tables[0], tables[0], tables[0], tables[0]]))
  {
    DifferenceThroughText(groups, header, tables, answers);
    assert OnlyAdded(tables[0], tables[1]) && OnlyAdded(tables[1], tables[2]) && OnlyAdded(tables[2], tables[3]);
  }

  // ---- Tokens

  /**
   For every token table: the first deciding row is returned if it is live; a token is created exactly when no
   row decides; and the call raises exactly when a bootstrap row with an unreadable TTL comes first.
   */
  lemma {:induction false} TokenChoiceThroughText(header: string, rows: seq<TokenTable.TokenRow>, answers: seq<Outcome>)
    requires Free(header, NEWLINE) && TokenTable.ValidTable(rows)
    requires Answer(answers, 0) == Outcome(0, TokenTable.TableText(header, rows), "")
    ensures var i := TokenTable.Deciding(rows);
            ChooseToken(answers) ==
            if i == |rows| then
              (if RunResult(Answer(answers, 1)).Ok? then Ok(Created(DropLast(Answer(answers, 1).stdout)))
               else Err(RunResult(Answer(answers, 1)).error))
            else if TokenTable.Live(rows[i]) then Ok(Listed(rows[i].token))
            else Err("ValueError")
  {
    TokenTable.ScanTable(header, rows);
  }

  predicate FirstLive(rows: seq<TokenTable.TokenRow>, k: nat)
    requires TokenTable.ValidTable(rows)
  {
    k < |rows| && TokenTable.Live(rows[k]) && forall j :: 0 <= j < k ==> !TokenTable.Live(rows[j])
  }

  /** When the TTLs of the bootstrap rows are numbers with a unit, the first live row wins and nothing raises before creation. */
  lemma {:induction false} NumericTablesNeverRaise(header: string, rows: seq<TokenTable.TokenRow>, answers: seq<Outcome>)
    requires Free(header, NEWLINE) && TokenTable.ValidTable(rows)
    requires Answer(answers, 0) == Outcome(0, TokenTable.TableText(header, rows), "")
    requires forall k :: 0 <= k < |rows| && TokenTable.Bootstrap(rows[k]) ==> TokenTable.Readable(rows[k])
    ensures forall k: nat :: FirstLive(rows, k) ==> ChooseToken(answers) == Ok(Listed(rows[k].token))
    ensures (forall k :: 0 <= k < |rows| ==> !TokenTable.Live(rows[k])) && RunResult(Answer(answers, 1)).Ok? ==>
              ChooseToken(answers) == Ok(Created(DropLast(Answer(answers, 1).stdout)))
  {
    TokenChoiceThroughText(header, rows, answers);
    var i := TokenTable.Deciding(rows);
    assert i < |rows| ==> TokenTable.Live(rows[i]);
    forall k: nat | FirstLive(rows, k)
      ensures k == i
    {
      assert !(k < i);
      assert !(i < k);
    }
  }

  /** A row without the bootstrap group, such as the certificate proxy's, is never the one returned. */
  lemma {:induction false} ProxyRowIsNeverChosen(header: string, rows: seq<TokenTable.TokenRow>, answers: seq<Outcome>)
    requires Free(header, NEWLINE) && TokenTable.ValidTable(rows)
    requires Answer(answers, 0) == Outcome(0, TokenTable.TableText(header, rows), "")
    requires forall k :: 0 <= k < |rows| ==> ':' !in rows[k].token && ':' !in rows[k].ttl
    ensures var choice := ChooseToken(answers);
            choice.Ok? && choice.value.Listed? ==>
              exists k :: 0 <= k < |rows| && rows[k].token == choice.value.token
                          && Contains(rows[k].columns, TokenTable.BOOTSTRAPPERS)
  {
    TokenChoiceThroughText(header, rows, answers);
    var i := TokenTable.Deciding(rows);
    if i < |rows| {
      TokenTable.BootstrapInColumns(rows[i]);
    }
  }

  // ---- Certificate keys

  /** The last word printed before the line end. */
  lemma {:induction false} LastWordPrinted(text: string, c: char, key: string)
    requires c in BLANK && Word(key)
    ensures LastWord(text + [c] + key + "\n") == Ok(key)
  {
    var before := text + [c] + key;
    assert before + "\n" == before + ['\n'] + "";
    WordsAt(before, '\n', "");
    WordsAt(text, c, key);
    WordsOfFree(key);
    WordsOfFree("");
    assert Words(before + "\n") == Words(text) + [key] + [];
  }

  /** The join facts later tasks see: a missing certificate key is printed as nothing. */
  function FactsOf(apiserver: string, g: Gathered): Sockets.JoinFacts {
    Sockets.JoinFacts(apiserver, g.token, g.caCertHash, g.certificateKey.GetOr(""))
  }

  /** A successful upload of the certificates that prints the key last, after any text and a blank. */
  predicate PrintsKey(o: Outcome, text: string, c: char, key: string) {
    o.code == 0 && o.stdout == text + [c] + key + "\n" && c in BLANK && Word(key)
  }

  /** The answer to the upload, the last of a `get`. */
  function UploadAnswer(answers: seq<Outcome>, created: bool): Outcome {
    Answer(answers, if created then 7 else 6)
  }

  lemma {:induction false} AnswerAfter(answers: seq<Outcome>, i: nat, k: nat)
    ensures Answer(After(answers, i), k) == Answer(answers, i + k)
  {
  }

  /**
   Every control-plane join carries the uploaded key: in an HA run, when a master list has a host to join and the upload
   prints a key last, whatever comes before, the same `get` records exactly that key and the join line carries it alone.
   */
  lemma {:induction false} ControlPlaneJoinCarriesKey(groups: KubeGroups, answers: seq<Outcome>, g: Gathered, apiserver: string,
                                   group: Sockets.Group, master: Sockets.Runtime, release: string, text: string, c: char, key: string)
    requires group.role.Master? && Gather(groups, true, answers) == Ok(g)
    requires (if group.runtime.Docker? then g.update.dockerMaster else g.update.containerdMaster) != {}
    requires PrintsKey(UploadAnswer(answers, ChooseToken(After(answers, 4)).value.Created?), text, c, key)
    requires Word(apiserver) && !IsFlag(apiserver) && Word(g.token) && Free(g.caCertHash, BLANK)
    ensures var line := Sockets.JoinLine(FactsOf(apiserver, g), group, Sockets.SocketOf(master, release));
            g.certificateKey == Some(key) && line.Ok? && ValuesOf(line.value) == [key]
  {
    KeyIsFetched(groups, answers, g, text, c, key);
    Sockets.JoinLineValues(FactsOf(apiserver, g), group, master, release);
  }

  /** In HA, a host to add to the masters means that the key was fetched. */
  lemma {:induction false} KeyIsFetched(groups: KubeGroups, answers: seq<Outcome>, g: Gathered, text: string, c: char, key: string)
    requires Gather(groups, true, answers) == Ok(g) && (g.update.dockerMaster != {} || g.update.containerdMaster != {})
    requires PrintsKey(UploadAnswer(answers, ChooseToken(After(answers, 4)).value.Created?), text, c, key)
    ensures g.certificateKey == Some(key)
  {
    var created := ChooseToken(After(answers, 4)).value.Created?;
    AnswerAfter(answers, if created then 6 else 5, 1);
    assert CertificateKey(true, g.update, UploadAnswer(answers, created)) == Ok(g.certificateKey);
    LastWordPrinted(text, c, key);
  }

  /** The certificate keys kubeadm reads off a line. */
  function ValuesOf(line: string): seq<string> {
    Sockets.ValuesOf(ReadFlags(Words(line), SWITCHES), Sockets.CERTIFICATE_KEY)
  }

  // ---- The whole of `get`

  /** A machine that answers each of these commands by what `console` prints for it. */
  predicate AnswersAs(answers: seq<Outcome>, commands: seq<string>, console: string -> Outcome) {
    forall i :: 0 <= i < |commands| ==> Answer(answers, i) == console(commands[i])
  }

  /** What a cluster with these nodes, tokens, CA and certificates prints. */
  datatype Facts = Facts(header: string, nodes: seq<NodeTable.NodeRow>, tokenHeader: string, tokens: seq<TokenTable.TokenRow>,
                         minted: string, hash: string, text: string, blank: char, key: string)

  ghost predicate Prints(console: string -> Outcome, f: Facts) {
    && NodeTable.ValidHeader(f.header) && NodeTable.ValidTable(f.nodes)
    && Free(f.tokenHeader, NEWLINE) && TokenTable.ValidTable(f.tokens)
    && console("kubectl get node -o wide") == Printed(f.header, f.nodes)
    && console("kubeadm token list") == Outcome(0, TokenTable.TableText(f.tokenHeader, f.tokens), "")
    && console("kubeadm token create") == Outcome(0, f.minted + "\n", "")
    && console(CA_CERT_HASH_PIPE) == Outcome(0, f.hash + "\n", "")
    && PrintsKey(console("kubeadm init phase upload-certs --upload-certs"), f.text, f.blank, f.key)
  }

  /** The token to use: that of the k-th row if it is the first live one, a new one if none is live. */
  predicate TokenAt(tokens: seq<TokenTable.TokenRow>, k: nat)
    requires TokenTable.ValidTable(tokens)
  {
    && (forall i :: 0 <= i < |tokens| && TokenTable.Bootstrap(tokens[i]) ==> TokenTable.Readable(tokens[i]))
    && if k < |tokens| then FirstLive(tokens, k) else k == |tokens| && forall i :: 0 <= i < |tokens| ==> !TokenTable.Live(tokens[i])
  }

  /**
   `get` on a machine that prints these facts: it records the hosts that are no nodes, the first live token or a new one,
   the hash, and the certificate key exactly when HA meets a master to add.
   */
  lemma {:induction false} GetFromConsole(groups: KubeGroups, isHa: bool, answers: seq<Outcome>, console: string -> Outcome, f: Facts, k: nat)
    requires Prints(console, f) && TokenAt(f.tokens, k)
    requires AnswersAs(answers, GetCommands(k == |f.tokens|, isHa, Difference(groups, [f.nodes, f.nodes, f.nodes, f.nodes])), console)
    ensures var update := Difference(groups, [f.nodes, f.nodes, f.nodes, f.nodes]);
            Gather(groups, isHa, answers) ==
            Ok(Gathered(update, if k < |f.tokens| then f.tokens[k].token else f.minted, f.hash,
                        if isHa && (update.dockerMaster != {} || update.containerdMaster != {}) then Some(f.key) else None))
  {
    AnswersInOrder(answers, console, k == |f.tokens|, isHa, Difference(groups, [f.nodes, f.nodes, f.nodes, f.nodes]));
    NodesFromConsole(groups, answers, f);
    TokenFromConsole(After(answers, 4), answers, f, k);
    HashAndKey(isHa, answers, Difference(groups, [f.nodes, f.nodes, f.nodes, f.nodes]), f, k == |f.tokens|);
    PartsOfGather(groups, isHa, answers, Difference(groups, [f.nodes, f.nodes, f.nodes, f.nodes]),
                  if k < |f.tokens| then Listed(f.tokens[k].token) else Created(f.minted), f.hash,
                  KeyFor(isHa, Difference(groups, [f.nodes, f.nodes, f.nodes, f.nodes]), f));
  }

  function KeyFor(isHa: bool, update: KubeGroups, f: Facts): Option<string> {
    if isHa && (update.dockerMaster != {} || update.containerdMaster != {}) then Some(f.key) else None
  }

  lemma {:induction false} NodesFromConsole(groups: KubeGroups, answers: seq<Outcome>, f: Facts)
    requires NodeTable.ValidHeader(f.header) && NodeTable.ValidTable(f.nodes)
    requires forall i :: 0 <= i < 4 ==> Answer(answers, i) == Printed(f.header, f.nodes)
    ensures UpdateNodes(groups, answers) == Ok(Difference(groups, [f.nodes, f.nodes, f.nodes, f.nodes]))
  {
    DifferenceThroughText(groups, f.header, [f.nodes, f.nodes, f.nodes, f.nodes], answers);
  }

  lemma {:induction false} HashAndKey(isHa: bool, answers: seq<Outcome>, update: KubeGroups, f: Facts, created: bool)
    requires Answer(answers, if created then 6 else 5) == Outcome(0, f.hash + "\n", "")
    requires KeyFor(isHa, update, f).Some? ==> PrintsKey(UploadAnswer(answers, created), f.text, f.blank, f.key)
    ensures var rest := After(answers, if created then 6 else 5);
            RunResult(Answer(rest, 0)) == Ok(f.hash + "\n") && CertificateKey(isHa, update, Answer(rest, 1)) == Ok(KeyFor(isHa, update, f))
  {
    AnswerAfter(answers, if created then 6 else 5, 0);
    AnswerAfter(answers, if created then 6 else 5, 1);
    if KeyFor(isHa, update, f).Some? {
      LastWordPrinted(f.text, f.blank, f.key);
    }
  }

  lemma {:induction false} PartsOfGather(groups: KubeGroups, isHa: bool, answers: seq<Outcome>, update: KubeGroups, choice: TokenChoice,
                                         hash: string, key: Option<string>)
    requires UpdateNodes(groups, answers) == Ok(update) && ChooseToken(After(answers, 4)) == Ok(choice)
    requires var rest := After(answers, if choice.Created? then 6 else 5);
             RunResult(Answer(rest, 0)) == Ok(hash + "\n") && CertificateKey(isHa, update, Answer(rest, 1)) == Ok(key)
    ensures Gather(groups, isHa, answers) == Ok(Gathered(update, choice.token, hash, key))
  {
    assert (hash + "\n")[..|hash|] == hash;
  }

  /** The commands of a `get`, in order. */
  lemma {:induction false} CommandsOfGet(created: bool, isHa: bool, update: KubeGroups)
    ensures var nodes, list := "kubectl get node -o wide", "kubeadm token list";
            GetCommands(created, isHa, update) ==
            [nodes, nodes, nodes, nodes, list] + (if created then ["kubeadm token create"] else []) + [CA_CERT_HASH_PIPE]
            + if isHa && (update.dockerMaster != {} || update.containerdMaster != {})
              then ["kubeadm init phase upload-certs --upload-certs"] else []
  {
    FourReads();
  }

  lemma {:induction false} FourReads()
    ensures NodeReads(4) == [GET_NODES, GET_NODES, GET_NODES, GET_NODES]
  {
    assert NodeReads(4) == NodeReads(2) + [GET_NODES, GET_NODES];
    assert NodeReads(2) == [GET_NODES, GET_NODES];
  }

  /** The answers, command by command. */
  lemma {:induction false} AnswersInOrder(answers: seq<Outcome>, console: string -> Outcome, created: bool, isHa: bool, update: KubeGroups)
    requires AnswersAs(answers, GetCommands(created, isHa, update), console)
    ensures forall i :: 0 <= i < 4 ==> Answer(answers, i) == console("kubectl get node -o wide")
    ensures Answer(answers, 4) == console("kubeadm token list")
    ensures created ==> Answer(answers, 5) == console("kubeadm token create")
    ensures Answer(answers, if created then 6 else 5) == console(CA_CERT_HASH_PIPE)
    ensures isHa && (update.dockerMaster != {} || update.containerdMaster != {}) ==>
              Answer(answers, if created then 7 else 6) == console("kubeadm init phase upload-certs --upload-certs")
  {
    CommandsOfGet(created, isHa, update);
    var commands := GetCommands(created, isHa, update);
    forall i | 0 <= i < 4
      ensures Answer(answers, i) == console("kubectl get node -o wide")
    {
      assert commands[i] == "kubectl get node -o wide";
    }
  }

  lemma {:induction false} TokenFromConsole(rest: seq<Outcome>, answers: seq<Outcome>, f: Facts, k: nat)
    requires rest == After(answers, 4) && Free(f.tokenHeader, NEWLINE) && TokenTable.ValidTable(f.tokens) && TokenAt(f.tokens, k)
    requires Answer(answers, 4) == Outcome(0, TokenTable.TableText(f.tokenHeader, f.tokens), "")
    requires k == |f.tokens| ==> Answer(answers, 5) == Outcome(0, f.minted + "\n", "")
    ensures ChooseToken(rest) == Ok(if k < |f.tokens| then Listed(f.tokens[k].token) else Created(f.minted))
  {
    AnswerAfter(answers, 4, 0);
    AnswerAfter(answers, 4, 1);
    NumericTablesNeverRaise(f.tokenHeader, f.tokens, rest);
    assert (f.minted + "\n")[..|f.minted|] == f.minted;
  }

  // ---- Taint messages

  /** Removing a taint that is not there is not an error; asking for it on an unknown node is. */
  lemma {:induction false} TaintIsIdempotentThroughRun(label_: string, node: string)
    ensures RunResult(Outcome(1, "", TaintNotFound(label_))).Ok?
    ensures RunResult(Outcome(1, "", NodeNotFound(node))).Ok? <==> Contains(node, TAINT_EXCEPTION)
  {
    TaintMessages(label_, node);
  }

  function Quoted(name: string): string {
    "\"" + name + "\""
  }

  function TaintNotFound(label_: string): string {
    Join(["error:", "taint", Quoted(label_), "not", "found"], " ")
  }

  function NodeNotFound(node: string): string {
    Join(["Error", "from", "server", "(NotFound):", "nodes", Quoted(node), "not", "found"], " ")
  }

  lemma {:induction false} TaintMessages(label_: string, node: string)
    ensures Contains(TaintNotFound(label_), TAINT_EXCEPTION)
    ensures Contains(NodeNotFound(node), TAINT_EXCEPTION) <==> Contains(node, TAINT_EXCEPTION)
  {
    var some := ["error:", "taint", Quoted(label_), "not", "found"];
    var none := ["Error", "from", "server", "(NotFound):", "nodes", Quoted(node), "not", "found"];
    ContainsJoin(some, ' ', TAINT_EXCEPTION);
    ContainsWhole("taint");
    assert some[1] == "taint";
    ContainsJoin(none, ' ', TAINT_EXCEPTION);
    assert none[5] == Quoted(node);
    QuotedTaint(node);
    forall i | 0 <= i < |none| && i != 5
      ensures !Contains(none[i], TAINT_EXCEPTION)
    {
      NoTaintIn(none[i]);
    }
  }

  lemma {:induction false} QuotedTaint(name: string)
    ensures Contains(Quoted(name), TAINT_EXCEPTION) <==> Contains(name, TAINT_EXCEPTION)
  {
    assert Quoted(name) == "" + ['"'] + (name + ['"'] + "");
    ContainsAt("", '"', name + ['"'] + "", TAINT_EXCEPTION);
    ContainsAt(name, '"', "", TAINT_EXCEPTION);
  }

  lemma {:induction false} NoTaintIn(word: string)
    requires word in {"Error", "from", "server", "(NotFound):", "nodes", "not", "found"}
    ensures !Contains(word, TAINT_EXCEPTION)
  {
    assert TAINT_EXCEPTION[1] == 'a' && Free(word, {'a'});
  }
}
