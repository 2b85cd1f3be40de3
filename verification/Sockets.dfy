/**
 Which CRI socket a host joins with: the `to_socket` filter, the `cri_socket` module, and the join lines
 on which both of them print a `--cri-socket`.
 */
module Sockets {
  import opened Wrappers
  import opened Text
  import opened CommandLine
  import Versions

  datatype Runtime = Docker | Containerd

  datatype Role = Master | Node

  /** One of the four inventory groups keyed by runtime. */
  datatype Group = Group(runtime: Runtime, role: Role)

  const CONTAINERD_SOCKET: string := "/run/containerd/containerd.sock"
  const CRI_DOCKERD_SOCKET: string := "/var/run/cri-dockerd.sock"
  const CRI_SOCKET: string := "cri-socket"
  const SOCKET_ARGS: string := Join([LongFlag(CRI_SOCKET), CONTAINERD_SOCKET], " ")
  const CERTIFICATE_KEY: string := "certificate-key"

  function RuntimeName(r: Runtime): string {
    match r
    case Docker => "docker"
    case Containerd => "containerd"
  }

  /** The group's name in the inventory. */
  function Key(g: Group): string {
    RuntimeName(g.runtime) + (if g.role.Master? then "-master" else "-node")
  }

  /** The filter as written; the first test misspells docker. */
  function ToSocket(ctx: string, kubeGroup: string): string {
    if "dokcer" <= kubeGroup then Join([ctx, ""], " ")
    else if "containerd" <= kubeGroup then Join([ctx, SOCKET_ARGS], " ")
    else ctx
  }

  /** The filter as its socket table intends it. */
  function IntendedToSocket(ctx: string, kubeGroup: string): string {
    if "docker" <= kubeGroup then Join([ctx, ""], " ")
    else if "containerd" <= kubeGroup then Join([ctx, SOCKET_ARGS], " ")
    else ctx
  }

  /** The misspelt branch cannot be told from the intended one once the line is tokenised. */
  lemma {:induction false} MisspellingIsHarmless(ctx: string, kubeGroup: string)
    ensures Words(ToSocket(ctx, kubeGroup)) == Words(IntendedToSocket(ctx, kubeGroup))
  {
    WordsOfTwo(ctx, "");
    WordsOfFree("");
    if "dokcer" <= kubeGroup {
      NotPrefix("docker", kubeGroup, 2);
      NotPrefix("containerd", kubeGroup, 0);
    } else if "docker" <= kubeGroup {
      NotPrefix("containerd", kubeGroup, 0);
    }
  }

  /** The socket of a runtime; empty when kubeadm finds it by itself (docker before cri-dockerd). */
  function SocketOf(r: Runtime, release: string): string {
    match r
    case Containerd => CONTAINERD_SOCKET
    case Docker => if Versions.NeedsCriDockerd(release) then CRI_DOCKERD_SOCKET else ""
  }

  /** The `cri_socket` module. */
  class SocketWorker {
    const runtimeType: string
    const kubernetesVersion: string
    var changed: bool
    var criSocket: Option<string>

    constructor (runtimeType: string, kubernetesVersion: string)
      ensures this.runtimeType == runtimeType && this.kubernetesVersion == kubernetesVersion
      ensures !changed && criSocket == None
    {
      this.runtimeType := runtimeType;
      this.kubernetesVersion := kubernetesVersion;
      changed := false;
      criSocket := None;
    }

    /** Reports the runtime's socket, and nothing for a runtime it does not know. */
    method Present()
      modifies this`criSocket
      ensures forall r: Runtime :: runtimeType == RuntimeName(r) ==>
                criSocket == Some(SocketOf(r, kubernetesVersion))
      ensures (forall r: Runtime :: runtimeType != RuntimeName(r)) ==> criSocket == old(criSocket)
      ensures runtimeType == "containerd" ==> criSocket == Some("/run/containerd/containerd.sock")
      ensures runtimeType == "docker" ==>
                criSocket == Some(if Versions.NeedsCriDockerd(kubernetesVersion) then "/var/run/cri-dockerd.sock" else "")
    {
      assert RuntimeName(Docker) != RuntimeName(Containerd);
      if runtimeType == "containerd" {
        assert runtimeType == RuntimeName(Containerd);
        criSocket := Some(CONTAINERD_SOCKET);
      } else if runtimeType == "docker" {
        assert runtimeType == RuntimeName(Docker);
        if Versions.NeedsCriDockerd(kubernetesVersion) {
          criSocket := Some(CRI_DOCKERD_SOCKET);
        } else {
          criSocket := Some("");
        }
      }
    }
  }

  /** What a join task prints: the facts of the run, master0's socket, and the host's group. */
  datatype JoinFacts = JoinFacts(apiserver: string, token: string, caHash: string, certificateKey: string)

  predicate ValidFacts(f: JoinFacts) {
    && Word(f.apiserver) && !IsFlag(f.apiserver)
    && Word(f.token) && Free(f.caHash, BLANK) && Free(f.certificateKey, BLANK)
  }

  function JoinBase(f: JoinFacts, g: Group): string {
    Join(["join", ToSocket(f.apiserver, Key(g))], " ")
  }

  function JoinArgs(f: JoinFacts, g: Group): string {
    if g.role.Master? then Join([JoinBase(f, g), CONTROL_PLANE], " ") else JoinBase(f, g)
  }

  function JoinVars(f: JoinFacts, g: Group, socket: string): Vars {
    [(CRI_SOCKET, socket), ("token", f.token), (CA_HASH, f.caHash)]
    + if g.role.Master? then [(CERTIFICATE_KEY, f.certificateKey)] else []
  }

  /** The command line of the join task for a host of group `g`; `socket` is the one of master0's runtime. */
  function JoinLine(f: JoinFacts, g: Group, socket: string): Result<string> {
    CommandText("kubeadm", JoinArgs(f, g), false, "", JoinVars(f, g, socket))
  }

  function SocketWords(g: Group): seq<string> {
    if g.runtime.Containerd? then [LongFlag(CRI_SOCKET), CONTAINERD_SOCKET] else []
  }

  function SwitchWords(g: Group): seq<string> {
    if g.role.Master? then [CONTROL_PLANE] else []
  }

  function ArgWords(f: JoinFacts, g: Group): seq<string> {
    ["join", f.apiserver] + SocketWords(g) + SwitchWords(g)
  }

  function SocketFlags(g: Group): seq<Flag> {
    if g.runtime.Containerd? then [Flag(CRI_SOCKET, CONTAINERD_SOCKET)] else []
  }

  function SwitchFlags(g: Group): seq<Flag> {
    if g.role.Master? then [Flag("control-plane", "")] else []
  }

  /** The flags of the arguments: the filter's socket for containerd groups, then `--control-plane`. */
  function ArgFlags(g: Group): seq<Flag> {
    SocketFlags(g) + SwitchFlags(g)
  }

  /** The values of every `--name` on a line, in order; kubeadm uses the last one. */
  function ValuesOf(flags: seq<Flag>, name: string): seq<string> {
    if flags == [] then []
    else (if flags[0].name == name then [flags[0].value] else []) + ValuesOf(flags[1..], name)
  }

  lemma {:induction false} ValuesAppend(a: seq<Flag>, b: seq<Flag>, name: string)
    ensures ValuesOf(a + b, name) == ValuesOf(a, name) + ValuesOf(b, name)
  {
    if a == [] {
      assert a + b == b;
    } else {
      assert (a + b)[1..] == a[1..] + b;
      ValuesAppend(a[1..], b, name);
    }
  }

  lemma {:induction false} ToSocketWords(ctx: string, g: Group)
    requires Word(ctx)
    ensures Words(ToSocket(ctx, Key(g))) ==
            [ctx] + SocketWords(g)
  {
    WordsOfFree(ctx);
    GroupKeys(g);
    if g.runtime.Containerd? {
      WordsOfTwo(ctx, SOCKET_ARGS);
      SocketArgsWords();
    }
  }

  lemma {:induction false} GroupKeys(g: Group)
    ensures !("dokcer" <= Key(g)) && ("containerd" <= Key(g) <==> g.runtime.Containerd?)
  {
    match g.runtime
    case Docker =>
      NotPrefix("dokcer", Key(g), 2);
      NotPrefix("containerd", Key(g), 0);
    case Containerd =>
      NotPrefix("dokcer", Key(g), 0);
  }

  lemma {:induction false} SocketArgsWords()
    ensures Words(SOCKET_ARGS) == [LongFlag(CRI_SOCKET), CONTAINERD_SOCKET]
  {
    WordsOfTwo(LongFlag(CRI_SOCKET), CONTAINERD_SOCKET);
    SocketNamesAreWords();
    WordsOfFree(LongFlag(CRI_SOCKET));
    WordsOfFree(CONTAINERD_SOCKET);
  }

  lemma {:induction false} SocketNamesAreWords()
    ensures Word(LongFlag(CRI_SOCKET)) && Word(CONTAINERD_SOCKET) && Word(CONTROL_PLANE) && Word("join")
  {
  }

  lemma {:induction false} JoinBaseWords(f: JoinFacts, g: Group)
    requires ValidFacts(f)
    ensures Words(JoinBase(f, g)) == ["join", f.apiserver] + SocketWords(g)
  {
    SocketNamesAreWords();
    WordsOfTwo("join", ToSocket(f.apiserver, Key(g)));
    WordsOfFree("join");
    ToSocketWords(f.apiserver, g);
    assert ["join"] + ([f.apiserver] + SocketWords(g)) == ["join", f.apiserver] + SocketWords(g);
  }

  lemma {:induction false} JoinArgsWords(f: JoinFacts, g: Group)
    requires ValidFacts(f)
    ensures Words(JoinArgs(f, g)) == ArgWords(f, g)
  {
    JoinBaseWords(f, g);
    SocketNamesAreWords();
    if g.role.Master? {
      WordsOfTwo(JoinBase(f, g), CONTROL_PLANE);
      WordsOfFree(CONTROL_PLANE);
    }
  }

  lemma {:induction false} JoinArgsKind(f: JoinFacts, g: Group)
    ensures Classify("kubeadm", JoinArgs(f, g)) == NodeAdd
  {
    NotPrefix("init", JoinArgs(f, g), 0);
  }

  lemma {:induction false} FlagNames()
    ensures '=' !in CRI_SOCKET && LongFlag(CRI_SOCKET) !in SWITCHES
    ensures CONTROL_PLANE in SWITCHES && IsFlag(CONTROL_PLANE) && '=' !in CONTROL_PLANE
    ensures FlagName(CONTROL_PLANE) == "control-plane"
    ensures !IsFlag("join") && !IsFlag("kubeadm")
  {
    NotPrefix("--", "join", 0);
    NotPrefix("--", "kubeadm", 0);
  }

  lemma {:induction false} ArgsReadBack(f: JoinFacts, g: Group, rest: seq<string>)
    requires ValidFacts(f)
    ensures ReadFlags(["kubeadm"] + ArgWords(f, g) + rest, SWITCHES) == ArgFlags(g) + ReadFlags(rest, SWITCHES)
  {
    FlagNames();
    var positional := ["kubeadm", "join", f.apiserver];
    var more := SocketWords(g) + (SwitchWords(g) + rest);
    assert ["kubeadm"] + ArgWords(f, g) + rest == positional + more;
    SkipPositional(positional, more, SWITCHES);
    SocketWordsReadBack(g, SwitchWords(g) + rest);
    SwitchWordsReadBack(g, rest);
    AppendTwice(SocketFlags(g), SwitchFlags(g), ReadFlags(rest, SWITCHES));
  }

  lemma {:induction false} SocketWordsReadBack(g: Group, rest: seq<string>)
    ensures ReadFlags(SocketWords(g) + rest, SWITCHES) == SocketFlags(g) + ReadFlags(rest, SWITCHES)
  {
    if g.runtime.Containerd? {
      FlagNames();
      ReadSpacedFlag(CRI_SOCKET, CONTAINERD_SOCKET, rest, SWITCHES);
    } else {
      assert SocketWords(g) + rest == rest;
    }
  }

  lemma {:induction false} SwitchWordsReadBack(g: Group, rest: seq<string>)
    ensures ReadFlags(SwitchWords(g) + rest, SWITCHES) == SwitchFlags(g) + ReadFlags(rest, SWITCHES)
  {
    if g.role.Master? {
      FlagNames();
      ReadSwitch(CONTROL_PLANE, rest, SWITCHES);
    } else {
      assert SwitchWords(g) + rest == rest;
    }
  }

  lemma {:induction false} JoinVarsPrintable(f: JoinFacts, g: Group, r: Runtime, release: string)
    requires ValidFacts(f)
    ensures Printable(JoinVars(f, g, SocketOf(r, release)), SWITCHES)
  {
    var vars := JoinVars(f, g, SocketOf(r, release));
    PrintableName(CRI_SOCKET);
    PrintableName("token");
    PrintableName(CA_HASH);
    PrintableName(CERTIFICATE_KEY);
    assert Free(SocketOf(r, release), BLANK);
  }

  lemma {:induction false} PrintableName(name: string)
    requires name in {CRI_SOCKET, "token", CA_HASH, CERTIFICATE_KEY}
    ensures Word(name) && '=' !in name && LongFlag(name) !in SWITCHES
  {
    assert |CRI_SOCKET| == 10 && |"token"| == 5 && |CA_HASH| == 28 && |CERTIFICATE_KEY| == 15;
    assert |CONTROL_PLANE| == 15 && |UPLOAD_CERTS| == 14;
  }

  /** The flags kubeadm reads off a join line. */
  lemma {:induction false} JoinLineFlags(f: JoinFacts, g: Group, master: Runtime, release: string)
    requires ValidFacts(f)
    ensures var socket := SocketOf(master, release);
            && JoinLine(f, g, socket).Ok?
            && ReadFlags(Words(JoinLine(f, g, socket).value), SWITCHES) ==
               ArgFlags(g) + JoinFlags(Given(JoinVars(f, g, socket)))
  {
    var vars := JoinVars(f, g, SocketOf(master, release));
    JoinVarsPrintable(f, g, master, release);
    JoinLineReadBack(f, g, vars);
  }

  /** Entries as words: each key as a flag, then its value. */
  function Spread(vars: Vars): seq<string> {
    if vars == [] then [] else [LongFlag(vars[0].0), Sealed(vars[0].0, vars[0].1)] + Spread(vars[1..])
  }

  lemma {:induction false} PiecesSpread(vars: Vars)
    requires Printable(vars, SWITCHES) && forall i :: 0 <= i < |vars| ==> vars[i].1 != ""
    ensures WordsOfAll(JoinPieces(vars)) == Spread(vars)
  {
    if vars != [] {
      JoinPieceTokens(vars[0].0, vars[0].1, SWITCHES);
      PiecesSpread(vars[1..]);
    }
  }

  lemma {:induction false} GivenAll(vars: Vars)
    requires forall i :: 0 <= i < |vars| ==> vars[i].1 != ""
    ensures Given(vars) == vars
  {
    if vars != [] {
      GivenAll(vars[1..]);
    }
  }

  lemma {:induction false} SpreadAppend(a: Vars, b: Vars)
    ensures Spread(a + b) == Spread(a) + Spread(b)
  {
    if a == [] {
      assert a + b == b;
    } else {
      assert (a + b)[1..] == a[1..] + b;
      SpreadAppend(a[1..], b);
    }
  }

  function Pair(entry: (string, string)): seq<string> {
    [LongFlag(entry.0), Sealed(entry.0, entry.1)]
  }

  lemma {:induction false} SpreadOne(entry: (string, string))
    ensures Spread([entry]) == Pair(entry)
  {
    assert [entry][1..] == [];
  }

  /** Entries of which at most the first is empty. */
  lemma {:induction false} SpreadGiven(first: (string, string), second: (string, string), third: (string, string), last: Vars)
    requires second.1 != "" && third.1 != "" && |last| <= 1 && (last != [] ==> last[0].1 != "")
    ensures Spread(Given([first, second, third] + last)) ==
            (if first.1 == "" then [] else Pair(first)) + (Pair(second) + (Pair(third) + if last == [] then [] else Pair(last[0])))
  {
    var rest := [second] + ([third] + last);
    assert [first, second, third] + last == [first] + rest;
    GivenCons(first, rest);
    GivenAll(rest);
    SpreadAppend(if first.1 == "" then [] else [first], rest);
    SpreadAppend([second], [third] + last);
    SpreadAppend([third], last);
    SpreadOne(first);
    SpreadOne(second);
    SpreadOne(third);
    if last != [] {
      assert last == [last[0]];
      SpreadOne(last[0]);
    }
  }

  /** The words of a join line for known facts, one by one. */
  lemma {:induction false} JoinLineWords(f: JoinFacts, g: Group, master: Runtime, release: string)
    requires ValidFacts(f) && f.caHash != "" && (g.role.Master? ==> f.certificateKey != "")
    ensures var socket := SocketOf(master, release);
            var line := JoinLine(f, g, socket);
            && line.Ok?
            && Words(line.value) ==
               ["kubeadm"]
               + (["join", f.apiserver]
                  + (if g.runtime.Containerd? then ["--" + "cri-socket", "/run/containerd/containerd.sock"] else [])
                  + (if g.role.Master? then ["--control-plane"] else []))
               + ((if socket == "" then [] else ["--" + "cri-socket", socket])
                  + (["--" + "token", f.token]
                     + (["--" + "discovery-token-ca-cert-hash", "sha256:" + f.caHash]
                        + if g.role.Master? then ["--" + "certificate-key", f.certificateKey] else [])))
  {
    var socket := SocketOf(master, release);
    var vars := JoinVars(f, g, socket);
    JoinVarsPrintable(f, g, master, release);
    JoinLineSpread(f, g, vars);
    VarsSpread(f, g, socket);
    assert ArgWords(f, g) == ["join", f.apiserver] + SocketWords(g) + SwitchWords(g);
  }

  lemma {:induction false} JoinLineSpread(f: JoinFacts, g: Group, vars: Vars)
    requires ValidFacts(f) && Printable(vars, SWITCHES)
    ensures var line := CommandText("kubeadm", JoinArgs(f, g), false, "", vars);
            line.Ok? && Words(line.value) == ["kubeadm"] + ArgWords(f, g) + Spread(Given(vars))
  {
    JoinArgsKind(f, g);
    JoinArgsWords(f, g);
    GivenPrintable(vars, SWITCHES);
    CommandTokens("kubeadm", JoinArgs(f, g), false, "", vars);
    NoEndpoint();
    KubeadmIsWord();
    PiecesSpread(Given(vars));
    assert ["kubeadm"] + ArgWords(f, g) + [] == ["kubeadm"] + ArgWords(f, g);
  }

  lemma {:induction false} VarsSpread(f: JoinFacts, g: Group, socket: string)
    requires f.token != "" && f.caHash != "" && (g.role.Master? ==> f.certificateKey != "")
    ensures Spread(Given(JoinVars(f, g, socket))) ==
            (if socket == "" then [] else [LongFlag(CRI_SOCKET), socket])
            + ([LongFlag("token"), f.token]
               + ([LongFlag(CA_HASH), SHA256 + f.caHash] + if g.role.Master? then [LongFlag(CERTIFICATE_KEY), f.certificateKey] else []))
  {
    OnlyCaHashIsSealed();
    SpreadGiven((CRI_SOCKET, socket), ("token", f.token), (CA_HASH, f.caHash),
                if g.role.Master? then [(CERTIFICATE_KEY, f.certificateKey)] else []);
  }

  lemma {:induction false} OnlyCaHashIsSealed()
    ensures CRI_SOCKET != CA_HASH && "token" != CA_HASH && CERTIFICATE_KEY != CA_HASH
  {
    assert |CRI_SOCKET| == 10 && |"token"| == 5 && |CA_HASH| == 28 && |CERTIFICATE_KEY| == 15;
  }

  lemma {:induction false} JoinLineReadBack(f: JoinFacts, g: Group, vars: Vars)
    requires ValidFacts(f) && vars != [] && Printable(vars, SWITCHES)
    ensures var line := CommandText("kubeadm", JoinArgs(f, g), false, "", vars);
            line.Ok? && ReadFlags(Words(line.value), SWITCHES) == ArgFlags(g) + JoinFlags(Given(vars))
  {
    var args := JoinArgs(f, g);
    JoinArgsKind(f, g);
    JoinArgsWords(f, g);
    RoundTrip("kubeadm", args, false, "", vars);
    KubeadmIsWord();
    ArgsReadBack(f, g, Suffix(NodeAdd, false, "", vars));
    NoEndpointFlags(JoinFlags(Given(vars)));
  }

  lemma {:induction false} KubeadmIsWord()
    ensures Words("kubeadm") == ["kubeadm"]
  {
    WordsOfFree("kubeadm");
  }

  lemma {:induction false} NoEndpointFlags(flags: seq<Flag>)
    ensures EndpointFlags(false, "") + flags == flags
  {
  }

  /** The `--cri-socket` values of a join line: the filter's, then master0's unless it is empty. */
  function LineSockets(g: Group, socket: string): seq<string> {
    (if g.runtime.Containerd? then [CONTAINERD_SOCKET] else []) + if socket == "" then [] else [socket]
  }

  lemma {:induction false} GivenCons(entry: (string, string), rest: Vars)
    ensures Given([entry] + rest) == (if entry.1 == "" then [] else [entry]) + Given(rest)
  {
    assert ([entry] + rest)[1..] == rest;
  }

  lemma {:induction false} ValuesCons(key: string, value: string, rest: Vars, name: string)
    ensures ValuesOf(JoinFlags(Given([(key, value)] + rest)), name) ==
            (if key == name && value != "" then [Sealed(key, value)] else []) + ValuesOf(JoinFlags(Given(rest)), name)
  {
    GivenCons((key, value), rest);
    if value != "" {
      var vars := [(key, value)] + Given(rest);
      assert vars[1..] == Given(rest);
      var flag := Flag(key, Sealed(key, value));
      assert JoinFlags(vars) == [flag] + JoinFlags(Given(rest));
      ValuesAppend([flag], JoinFlags(Given(rest)), name);
      assert ValuesOf([flag], name) == (if key == name then [flag.value] else []) + ValuesOf([flag][1..], name);
    } else {
      assert [] + Given(rest) == Given(rest);
    }
  }

  /** The values of one flag among the extra variables of a join. */
  lemma {:induction false} JoinVarValues(f: JoinFacts, g: Group, socket: string, name: string)
    requires name == CRI_SOCKET || name == CERTIFICATE_KEY
    ensures ValuesOf(JoinFlags(Given(JoinVars(f, g, socket))), name) ==
            if name == CRI_SOCKET then (if socket == "" then [] else [socket])
            else if g.role.Master? && f.certificateKey != "" then [f.certificateKey] else []
  {
    DistinctNames();
    var last := if g.role.Master? then [(CERTIFICATE_KEY, f.certificateKey)] else [];
    var two := [(CA_HASH, f.caHash)] + last;
    var three := [("token", f.token)] + two;
    assert JoinVars(f, g, socket) == [(CRI_SOCKET, socket)] + three;
    ValuesCons(CRI_SOCKET, socket, three, name);
    ValuesCons("token", f.token, two, name);
    ValuesCons(CA_HASH, f.caHash, last, name);
    if g.role.Master? {
      ValuesCons(CERTIFICATE_KEY, f.certificateKey, [], name);
      assert [(CERTIFICATE_KEY, f.certificateKey)] + [] == last;
    }
  }

  lemma {:induction false} DistinctNames()
    ensures CRI_SOCKET != CERTIFICATE_KEY && CRI_SOCKET != "token" && CRI_SOCKET != CA_HASH
    ensures CERTIFICATE_KEY != "token" && CERTIFICATE_KEY != CA_HASH
    ensures "control-plane" != CRI_SOCKET && "control-plane" != CERTIFICATE_KEY
  {
    assert |CRI_SOCKET| == 10 && |CERTIFICATE_KEY| == 15 && |"token"| == 5 && |CA_HASH| == 28 && |"control-plane"| == 13;
  }

  lemma {:induction false} ArgFlagValues(g: Group, name: string)
    requires name == CRI_SOCKET || name == CERTIFICATE_KEY
    ensures ValuesOf(ArgFlags(g), name) ==
            if name == CRI_SOCKET && g.runtime.Containerd? then [CONTAINERD_SOCKET] else []
  {
    DistinctNames();
    ValuesAppend(SocketFlags(g), SwitchFlags(g), name);
  }

  /** Every `--cri-socket` on a join line, and every `--certificate-key`. */
  lemma {:induction false} JoinLineValues(f: JoinFacts, g: Group, master: Runtime, release: string)
    requires ValidFacts(f)
    ensures var socket := SocketOf(master, release);
            && JoinLine(f, g, socket).Ok?
            && var flags := ReadFlags(Words(JoinLine(f, g, socket).value), SWITCHES);
            && ValuesOf(flags, CRI_SOCKET) == LineSockets(g, socket)
            && ValuesOf(flags, CERTIFICATE_KEY) ==
               (if g.role.Master? && f.certificateKey != "" then [f.certificateKey] else [])
  {
    var socket := SocketOf(master, release);
    JoinLineFlags(f, g, master, release);
    DistinctNames();
    forall name | name == CRI_SOCKET || name == CERTIFICATE_KEY
      ensures ValuesOf(ArgFlags(g) + JoinFlags(Given(JoinVars(f, g, socket))), name) ==
              ValuesOf(ArgFlags(g), name) + ValuesOf(JoinFlags(Given(JoinVars(f, g, socket))), name)
    {
      ValuesAppend(ArgFlags(g), JoinFlags(Given(JoinVars(f, g, socket))), name);
    }
    ArgFlagValues(g, CRI_SOCKET);
    ArgFlagValues(g, CERTIFICATE_KEY);
    JoinVarValues(f, g, socket, CRI_SOCKET);
    JoinVarValues(f, g, socket, CERTIFICATE_KEY);
  }

  /** A line agrees with its host: every socket on it is the host's, and there is one exactly when it has one. */
  predicate Agrees(sockets: seq<string>, own: string) {
    (forall i :: 0 <= i < |sockets| ==> sockets[i] == own) && (sockets == [] <==> own == "")
  }

  /**
   A join line agrees with the joining host exactly when master0 runs the host's runtime, or master0 runs
   docker without cri-dockerd (and so prints nothing) while the host runs containerd.
   */
  lemma {:induction false} SocketAgreementIff(f: JoinFacts, g: Group, master: Runtime, release: string)
    requires ValidFacts(f)
    ensures var socket := SocketOf(master, release);
            && JoinLine(f, g, socket).Ok?
            && (Agrees(ValuesOf(ReadFlags(Words(JoinLine(f, g, socket).value), SWITCHES), CRI_SOCKET),
                       SocketOf(g.runtime, release))
                <==> g.runtime == master || (master.Docker? && !Versions.NeedsCriDockerd(release)))
  {
    JoinLineValues(f, g, master, release);
    LineAgreesIff(g, master, release);
  }

  lemma {:induction false} DistinctSockets()
    ensures CONTAINERD_SOCKET != CRI_DOCKERD_SOCKET && CONTAINERD_SOCKET != "" && CRI_DOCKERD_SOCKET != ""
  {
    assert |CONTAINERD_SOCKET| != |CRI_DOCKERD_SOCKET|;
  }

  lemma {:induction false} LineAgreesIff(g: Group, master: Runtime, release: string)
    ensures Agrees(LineSockets(g, SocketOf(master, release)), SocketOf(g.runtime, release)) <==>
            g.runtime == master || (master.Docker? && !Versions.NeedsCriDockerd(release))
  {
    DistinctSockets();
    var gate := Versions.NeedsCriDockerd(release);
    var sockets := LineSockets(g, SocketOf(master, release));
    if g.runtime.Containerd? && master.Docker? && gate {
      assert sockets[1] == CRI_DOCKERD_SOCKET;
    } else if g.runtime.Docker? && master.Containerd? {
      assert sockets[0] == CONTAINERD_SOCKET;
    }
  }

  /** The runtime a host registers with: the last socket on its line decides, docker when there is none. */
  function JoinRuntime(own: Runtime, master: Runtime, release: string): Runtime {
    if master.Docker? && !Versions.NeedsCriDockerd(release) then own else master
  }

  lemma {:induction false} JoinRuntimeIsLastSocket(f: JoinFacts, g: Group, master: Runtime, release: string)
    requires ValidFacts(f)
    ensures var socket := SocketOf(master, release);
            && JoinLine(f, g, socket).Ok?
            && var sockets := ValuesOf(ReadFlags(Words(JoinLine(f, g, socket).value), SWITCHES), CRI_SOCKET);
               SocketOf(JoinRuntime(g.runtime, master, release), release) ==
               if sockets == [] then "" else sockets[|sockets| - 1]
  {
    JoinLineValues(f, g, master, release);
  }
}
