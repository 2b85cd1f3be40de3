/**
 The command lines `KubeWorker.commandlines` builds, and a reader for them: `ReadFlags` reads a tokenised
 kubeadm line back the way kubeadm's flag parser does.
 */
module CommandLine {
  import opened Wrappers
  import opened Text

  /** A parameter dictionary, in its iteration order. */
  type Vars = seq<(string, string)>

  /** A flag as kubeadm reads it; a switch has the empty value. */
  datatype Flag = Flag(name: string, value: string)

  /** What the worker's `is_*` properties make of the module name and arguments. */
  datatype Kind = Bootstrap | NodeAdd | Sandbox | Other

  const CA_HASH: string := "discovery-token-ca-cert-hash"
  const SHA256: string := "sha256:"
  const ENDPOINT: string := "control-plane-endpoint"
  const UPLOAD_CERTS: string := "--upload-certs"
  const CONTROL_PLANE: string := "--control-plane"
  const SWITCHES: set<string> := {CONTROL_PLANE, UPLOAD_CERTS}

  function Classify(name: string, args: string): Kind {
    if name != "kubeadm" then Other
    else if "init" <= args then Bootstrap
    else if "join" <= args then NodeAdd
    else if "config" <= args then Sandbox
    else Other
  }

  /** The entries that reach the command line: those whose value is not empty. */
  function Given(vars: Vars): Vars {
    if vars == [] then []
    else (if vars[0].1 == "" then [] else [vars[0]]) + Given(vars[1..])
  }

  /** The value printed after a join flag; only the CA hash is prefixed. */
  function Sealed(key: string, value: string): string {
    if key == CA_HASH then SHA256 + value else value
  }

  function LongFlag(key: string): string {
    "--" + key
  }

  function AssignFlag(key: string, value: string): string {
    LongFlag(key) + "=" + value
  }

  function JoinPiece(key: string, value: string): string {
    Join([LongFlag(key), Sealed(key, value)], " ")
  }

  function JoinPieces(vars: Vars): seq<string> {
    if vars == [] then [] else [JoinPiece(vars[0].0, vars[0].1)] + JoinPieces(vars[1..])
  }

  function InitPieces(vars: Vars): seq<string> {
    if vars == [] then [] else [AssignFlag(vars[0].0, vars[0].1)] + InitPieces(vars[1..])
  }

  /** A non-HA cluster still gets an endpoint when the API address is `host:port` with a host. */
  predicate HasEndpoint(kubeApi: string) {
    var parts := Split(kubeApi, {':'});
    kubeApi != "" && |parts| == 2 && parts[0] != ""
  }

  /** The words that name the control-plane endpoint. */
  function EndpointWords(isHa: bool, kubeApi: string): seq<string> {
    if isHa then [LongFlag(ENDPOINT), kubeApi, UPLOAD_CERTS]
    else if HasEndpoint(kubeApi) then [LongFlag(ENDPOINT), kubeApi]
    else []
  }

  /** They are appended as one piece, when there are any. */
  function EndpointPieces(isHa: bool, kubeApi: string): seq<string> {
    var words := EndpointWords(isHa, kubeApi);
    if words == [] then [] else [Join(words, " ")]
  }

  /** One piece per given entry. */
  function VarPieces(kind: Kind, vars: Vars): seq<string> {
    if kind.NodeAdd? then JoinPieces(Given(vars)) else InitPieces(Given(vars))
  }

  /** The piece for the extra variables; a dictionary on any other command cannot be joined and raises. */
  function ExtraPieces(kind: Kind, vars: Vars): Result<seq<string>> {
    if vars == [] then Ok([])
    else if kind.Other? then Err("TypeError")
    else Ok([Join(VarPieces(kind, vars), " ")])
  }

  /** The text of `commandlines`. */
  function CommandText(name: string, args: string, isHa: bool, kubeApi: string, vars: Vars): Result<string> {
    var extra :- ExtraPieces(Classify(name, args), vars);
    Ok(Join([name, args] + EndpointPieces(isHa, kubeApi) + extra, " "))
  }

  /** Keys and values that survive tokenising: no white space, and no `=` or switch name as a key. */
  predicate Printable(vars: Vars, switches: set<string>) {
    forall i :: 0 <= i < |vars| ==> PrintableEntry(vars[i].0, vars[i].1, switches)
  }

  predicate PrintableEntry(key: string, value: string, switches: set<string>) {
    && Word(key) && '=' !in key && LongFlag(key) !in switches
    && Free(value, BLANK)
  }

  predicate IsFlag(token: string) {
    "--" <= token
  }

  function FlagName(token: string): string
    requires IsFlag(token)
  {
    token[2..]
  }

  /** Reads a tokenised line: positional words are skipped, `--k=v` and `--k v` are flags. */
  function ReadFlags(tokens: seq<string>, switches: set<string>): seq<Flag> {
    if tokens == [] then []
    else if !IsFlag(tokens[0]) then ReadFlags(tokens[1..], switches)
    else
      var body := FlagName(tokens[0]);
      var i := EqualsAt(body);
      if i < |body| then [Flag(body[..i], body[i + 1..])] + ReadFlags(tokens[1..], switches)
      else if tokens[0] in switches then [Flag(body, "")] + ReadFlags(tokens[1..], switches)
      else if |tokens| == 1 then []
      else [Flag(body, tokens[1])] + ReadFlags(tokens[2..], switches)
  }

  function InitFlags(vars: Vars): seq<Flag> {
    if vars == [] then [] else [Flag(vars[0].0, vars[0].1)] + InitFlags(vars[1..])
  }

  function JoinFlags(vars: Vars): seq<Flag> {
    if vars == [] then [] else [Flag(vars[0].0, Sealed(vars[0].0, vars[0].1))] + JoinFlags(vars[1..])
  }

  function VarFlags(kind: Kind, vars: Vars): seq<Flag> {
    if kind.NodeAdd? then JoinFlags(Given(vars)) else InitFlags(Given(vars))
  }

  function EndpointFlags(isHa: bool, kubeApi: string): seq<Flag> {
    (if isHa || HasEndpoint(kubeApi) then [Flag(ENDPOINT, kubeApi)] else [])
    + if isHa then [Flag("upload-certs", "")] else []
  }

  /** Reads a join flag as an entry: the CA-hash prefix is removed. */
  function Unseal(flag: Flag): (string, string) {
    (flag.name, if flag.name == CA_HASH && SHA256 <= flag.value then flag.value[|SHA256|..] else flag.value)
  }

  function ReadEntries(kind: Kind, flags: seq<Flag>): Vars {
    if flags == [] then []
    else [if kind.NodeAdd? then Unseal(flags[0]) else (flags[0].name, flags[0].value)] + ReadEntries(kind, flags[1..])
  }

  // ---- Reading one flag

  lemma {:induction false} AssignFlagFacts(key: string, value: string)
    requires '=' !in key
    ensures IsFlag(AssignFlag(key, value))
    ensures var body := FlagName(AssignFlag(key, value));
            var i := EqualsAt(body);
            i < |body| && body[..i] == key && body[i + 1..] == value
    ensures Free(key, BLANK) && Free(value, BLANK) ==> Word(AssignFlag(key, value))
  {
    var body := FlagName(AssignFlag(key, value));
    assert body == key + ['='] + value;
    EqualsAtFirst(key, value);
  }

  lemma {:induction false} ReadSpacedFlag(key: string, value: string, rest: seq<string>, switches: set<string>)
    requires '=' !in key && LongFlag(key) !in switches
    ensures ReadFlags([LongFlag(key), value] + rest, switches) == [Flag(key, value)] + ReadFlags(rest, switches)
  {
    EqualsAtFirst(key, "");
    var tokens := [LongFlag(key), value] + rest;
    assert tokens[2..] == rest && tokens[0] == LongFlag(key) && tokens[1] == value;
  }

  lemma {:induction false} ReadAssignFlag(key: string, value: string, rest: seq<string>, switches: set<string>)
    requires '=' !in key
    ensures ReadFlags([AssignFlag(key, value)] + rest, switches) == [Flag(key, value)] + ReadFlags(rest, switches)
  {
    AssignFlagFacts(key, value);
    var tokens := [AssignFlag(key, value)] + rest;
    assert tokens[1..] == rest && tokens[0] == AssignFlag(key, value);
  }

  lemma {:induction false} ReadSwitch(token: string, rest: seq<string>, switches: set<string>)
    requires token in switches && IsFlag(token) && '=' !in token
    ensures ReadFlags([token] + rest, switches) == [Flag(FlagName(token), "")] + ReadFlags(rest, switches)
  {
    var tokens := [token] + rest;
    assert tokens[1..] == rest;
    EqualsAtFirst(FlagName(token), "");
  }

  lemma {:induction false} SkipPositional(words: seq<string>, rest: seq<string>, switches: set<string>)
    requires forall i :: 0 <= i < |words| ==> !IsFlag(words[i])
    ensures ReadFlags(words + rest, switches) == ReadFlags(rest, switches)
  {
    if words == [] {
      assert words + rest == rest;
    } else {
      assert (words + rest)[1..] == words[1..] + rest;
      SkipPositional(words[1..], rest, switches);
    }
  }

  // ---- Reading the extra variables

  lemma {:induction false} GivenPrintable(vars: Vars, switches: set<string>)
    requires Printable(vars, switches)
    ensures Printable(Given(vars), switches) && forall i :: 0 <= i < |Given(vars)| ==> Given(vars)[i].1 != ""
  {
    if vars != [] {
      GivenPrintable(vars[1..], switches);
    }
  }

  lemma {:induction false} JoinPieceTokens(key: string, value: string, switches: set<string>)
    requires PrintableEntry(key, value, switches) && value != ""
    ensures Words(JoinPiece(key, value)) == [LongFlag(key), Sealed(key, value)]
  {
    var words := [LongFlag(key), Sealed(key, value)];
    assert Word(Sealed(key, value));
    WordsOfJoin(words);
    WordsOfWords(words);
  }

  lemma {:induction false} JoinPiecesReadBack(vars: Vars, rest: seq<string>, switches: set<string>)
    requires Printable(vars, switches) && forall i :: 0 <= i < |vars| ==> vars[i].1 != ""
    ensures ReadFlags(WordsOfAll(JoinPieces(vars)) + rest, switches) == JoinFlags(vars) + ReadFlags(rest, switches)
  {
    if vars == [] {
      assert [] + rest == rest;
    } else {
      var key, value := vars[0].0, vars[0].1;
      JoinPieceTokens(key, value, switches);
      var tail := WordsOfAll(JoinPieces(vars[1..])) + rest;
      assert WordsOfAll(JoinPieces(vars)) + rest == [LongFlag(key), Sealed(key, value)] + tail;
      ReadSpacedFlag(key, Sealed(key, value), tail, switches);
      JoinPiecesReadBack(vars[1..], rest, switches);
    }
  }

  lemma {:induction false} InitPiecesReadBack(vars: Vars, rest: seq<string>, switches: set<string>)
    requires Printable(vars, switches)
    ensures ReadFlags(WordsOfAll(InitPieces(vars)) + rest, switches) == InitFlags(vars) + ReadFlags(rest, switches)
  {
    if vars == [] {
      assert [] + rest == rest;
    } else {
      var key, value := vars[0].0, vars[0].1;
      AssignFlagFacts(key, value);
      WordsOfFree(AssignFlag(key, value));
      var tail := WordsOfAll(InitPieces(vars[1..])) + rest;
      assert WordsOfAll(InitPieces(vars)) + rest == [AssignFlag(key, value)] + tail;
      ReadAssignFlag(key, value, tail, switches);
      InitPiecesReadBack(vars[1..], rest, switches);
    }
  }

  lemma {:induction false} VarsReadBack(kind: Kind, vars: Vars, switches: set<string>)
    requires Printable(vars, switches)
    ensures ReadFlags(WordsOfAll(VarPieces(kind, vars)), switches) == VarFlags(kind, vars)
  {
    GivenPrintable(vars, switches);
    var tokens := WordsOfAll(VarPieces(kind, vars));
    assert tokens + [] == tokens;
    if kind.NodeAdd? {
      JoinPiecesReadBack(Given(vars), [], switches);
    } else {
      InitPiecesReadBack(Given(vars), [], switches);
    }
  }

  lemma {:induction false} EntriesOfFlags(kind: Kind, vars: Vars)
    ensures ReadEntries(kind, if kind.NodeAdd? then JoinFlags(vars) else InitFlags(vars)) == vars
  {
    if vars != [] {
      EntriesOfFlags(kind, vars[1..]);
      assert vars == [vars[0]] + vars[1..];
      var (key, value) := vars[0];
      assert (SHA256 + value)[|SHA256|..] == value;
    }
  }

  // ---- Reading the whole line

  lemma {:induction false} EndpointTokens(isHa: bool, kubeApi: string)
    requires Word(kubeApi)
    ensures WordsOfAll(EndpointPieces(isHa, kubeApi)) == EndpointWords(isHa, kubeApi)
  {
    var words := EndpointWords(isHa, kubeApi);
    if words != [] {
      assert Free(ENDPOINT, BLANK);
      assert Word(UPLOAD_CERTS);
      WordsOfJoin(words);
      WordsOfWords(words);
      WordsOfSingleton(Join(words, " "));
    }
  }

  lemma {:induction false} WordsOfSingleton(piece: string)
    ensures WordsOfAll([piece]) == Words(piece)
  {
    assert WordsOfAll([piece]) == Words(piece) + WordsOfAll([piece][1..]);
  }

  lemma {:induction false} EndpointNames()
    ensures '=' !in ENDPOINT && LongFlag(ENDPOINT) !in SWITCHES
    ensures UPLOAD_CERTS in SWITCHES && IsFlag(UPLOAD_CERTS) && '=' !in UPLOAD_CERTS && FlagName(UPLOAD_CERTS) == "upload-certs"
  {
  }

  lemma {:induction false} ReadSpacedThenSwitch(key: string, value: string, switch: string, rest: seq<string>, switches: set<string>)
    requires '=' !in key && LongFlag(key) !in switches
    requires switch in switches && IsFlag(switch) && '=' !in switch
    ensures ReadFlags([LongFlag(key), value, switch] + rest, switches) ==
            [Flag(key, value), Flag(FlagName(switch), "")] + ReadFlags(rest, switches)
  {
    ReadSwitch(switch, rest, switches);
    ReadSpacedFlag(key, value, [switch] + rest, switches);
    assert [LongFlag(key), value, switch] + rest == [LongFlag(key), value] + ([switch] + rest);
  }

  lemma {:induction false} EndpointShape(isHa: bool, kubeApi: string)
    ensures EndpointWords(isHa, kubeApi) ==
            if isHa then [LongFlag(ENDPOINT), kubeApi, UPLOAD_CERTS]
            else if HasEndpoint(kubeApi) then [LongFlag(ENDPOINT), kubeApi]
            else []
    ensures EndpointFlags(isHa, kubeApi) ==
            if isHa then [Flag(ENDPOINT, kubeApi), Flag("upload-certs", "")]
            else if HasEndpoint(kubeApi) then [Flag(ENDPOINT, kubeApi)]
            else []
  {
  }

  lemma {:induction false} EndpointReads(words: seq<string>, flags: seq<Flag>, kubeApi: string, rest: seq<string>, switches: set<string>)
    requires '=' !in ENDPOINT && LongFlag(ENDPOINT) !in switches
    requires UPLOAD_CERTS in switches && IsFlag(UPLOAD_CERTS) && '=' !in UPLOAD_CERTS
    requires || (words == [] && flags == [])
             || (words == [LongFlag(ENDPOINT), kubeApi] && flags == [Flag(ENDPOINT, kubeApi)])
             || (words == [LongFlag(ENDPOINT), kubeApi, UPLOAD_CERTS]
                 && flags == [Flag(ENDPOINT, kubeApi), Flag(FlagName(UPLOAD_CERTS), "")])
    ensures ReadFlags(words + rest, switches) == flags + ReadFlags(rest, switches)
  {
    if words == [] {
      assert words + rest == rest;
    } else if |words| == 2 {
      ReadSpacedFlag(ENDPOINT, kubeApi, rest, switches);
    } else {
      ReadSpacedThenSwitch(ENDPOINT, kubeApi, UPLOAD_CERTS, rest, switches);
    }
  }

  lemma {:induction false} EndpointReadBack(isHa: bool, kubeApi: string, rest: seq<string>)
    ensures ReadFlags(EndpointWords(isHa, kubeApi) + rest, SWITCHES) ==
            EndpointFlags(isHa, kubeApi) + ReadFlags(rest, SWITCHES)
  {
    EndpointNames();
    EndpointShape(isHa, kubeApi);
    EndpointReads(EndpointWords(isHa, kubeApi), EndpointFlags(isHa, kubeApi), kubeApi, rest, SWITCHES);
  }

  /** Only the CA hash is prefixed. */
  lemma {:induction false} JoinFlagsAt(vars: Vars, i: nat)
    requires i < |vars|
    ensures |JoinFlags(vars)| == |vars|
    ensures JoinFlags(vars)[i] ==
            Flag(vars[i].0, if vars[i].0 == "discovery-token-ca-cert-hash" then "sha256:" + vars[i].1 else vars[i].1)
  {
    if i > 0 {
      JoinFlagsAt(vars[1..], i - 1);
    } else if |vars| > 1 {
      JoinFlagsAt(vars[1..], 0);
    }
  }

  /** One colon cuts a text in two parts without one. */
  lemma {:induction false} TwoParts(s: string)
    ensures |Split(s, {':'})| == 2 <==> exists a, b :: s == a + ":" + b && ':' !in a && ':' !in b
    ensures |Split(s, {':'})| == 2 ==> s == Split(s, {':'})[0] + ":" + Split(s, {':'})[1]
  {
    if a, b :| s == a + ":" + b && ':' !in a && ':' !in b {
      assert s == a + [':'] + b;
      SplitAt(a, ':', b, {':'});
      SplitFree(a, {':'});
      SplitFree(b, {':'});
    }
    var parts := Split(s, {':'});
    JoinOfSplit(s, ':');
    if |parts| == 2 {
      JoinTwo(parts[0], parts[1], ":");
      assert parts == [parts[0], parts[1]];
      SplitPiecesFree(s, {':'});
      assert s == parts[0] + ":" + parts[1] && ':' !in parts[0] && ':' !in parts[1];
    }
  }

  /** The endpoint flags: always in HA; else exactly for an address that is a host, one colon and a port. */
  lemma {:induction false} EndpointIff(kubeApi: string)
    ensures EndpointFlags(true, kubeApi) == [Flag("control-plane-endpoint", kubeApi), Flag("upload-certs", "")]
    ensures EndpointFlags(false, kubeApi) ==
            if exists host, port :: kubeApi == host + ":" + port && host != "" && ':' !in host && ':' !in port
            then [Flag("control-plane-endpoint", kubeApi)] else []
  {
    var parts := Split(kubeApi, {':'});
    TwoParts(kubeApi);
    SplitPiecesFree(kubeApi, {':'});
    if HasEndpoint(kubeApi) {
      assert kubeApi == parts[0] + ":" + parts[1];
    }
    if host, port :| kubeApi == host + ":" + port && host != "" && ':' !in host && ':' !in port {
      assert kubeApi == host + [':'] + port;
      SplitAt(host, ':', port, {':'});
      SplitFree(host, {':'});
      SplitFree(port, {':'});
    }
  }

  /** The tokens of a command line are the tokens of its pieces, in order. */
  lemma {:induction false} CommandTokens(name: string, args: string, isHa: bool, kubeApi: string, vars: Vars)
    requires vars == [] || !Classify(name, args).Other?
    ensures CommandText(name, args, isHa, kubeApi, vars).Ok?
    ensures Words(CommandText(name, args, isHa, kubeApi, vars).value) ==
            Words(name) + Words(args) + WordsOfAll(EndpointPieces(isHa, kubeApi))
            + WordsOfAll(VarPieces(Classify(name, args), vars))
  {
    var extra := Join(VarPieces(Classify(name, args), vars), " ");
    var ends := EndpointPieces(isHa, kubeApi);
    if vars == [] {
      assert [name, args] + ends + [] == [name, args] + ends;
      WordsOfJoin([name, args] + ends);
    } else {
      WordsOfJoin([name, args] + ends + [extra]);
      WordsOfAllAppend([name, args] + ends, [extra]);
    }
    WordsOfAllAppend([name, args], ends);
    WordsOfAllAppend([name], [args]);
    assert [name] + [args] == [name, args];
    WordsOfSingleton(name);
    WordsOfSingleton(args);
    WordsOfSingleton(extra);
    WordsOfJoin(VarPieces(Classify(name, args), vars));
  }

  /** It raises exactly for a dictionary that belongs to no init, join or config of kubeadm. */
  lemma {:induction false} RaisesIff(name: string, args: string, isHa: bool, kubeApi: string, vars: Vars)
    ensures CommandText(name, args, isHa, kubeApi, vars).Err? <==>
            vars != [] && !(name == "kubeadm" && ("init" <= args || "join" <= args || "config" <= args))
  {
    var kind := Classify(name, args);
    if kind.Other? && vars != [] {
      assert ExtraPieces(kind, vars).Err?;
    } else {
      assert ExtraPieces(kind, vars).Ok?;
    }
  }

  /** The tokens after the argument words. */
  function Suffix(kind: Kind, isHa: bool, kubeApi: string, vars: Vars): seq<string> {
    WordsOfAll(EndpointPieces(isHa, kubeApi)) + WordsOfAll(VarPieces(kind, vars))
  }

  /**
   Round trip: after the argument words, a join or init line carries exactly the endpoint flags and the
   non-empty entries, in order, and reading those flags gives the entries back.
   */
  lemma {:induction false} RoundTrip(name: string, args: string, isHa: bool, kubeApi: string, vars: Vars)
    requires (vars == [] || !Classify(name, args).Other?) && Printable(vars, SWITCHES)
    requires Word(kubeApi) || (kubeApi == "" && !isHa)
    ensures var kind := Classify(name, args);
            var line := CommandText(name, args, isHa, kubeApi, vars);
            && line.Ok?
            && Words(line.value) == Words(name) + Words(args) + Suffix(kind, isHa, kubeApi, vars)
            && ReadFlags(Suffix(kind, isHa, kubeApi, vars), SWITCHES) ==
               EndpointFlags(isHa, kubeApi) + VarFlags(kind, vars)
            && ReadEntries(kind, VarFlags(kind, vars)) == Given(vars)
  {
    var kind := Classify(name, args);
    CommandTokens(name, args, isHa, kubeApi, vars);
    SuffixReadBack(kind, isHa, kubeApi, vars);
    EntriesOfFlags(kind, Given(vars));
    AppendTwice(Words(name) + Words(args), WordsOfAll(EndpointPieces(isHa, kubeApi)), WordsOfAll(VarPieces(kind, vars)));
  }

  lemma {:induction false} AppendTwice<T>(a: seq<T>, b: seq<T>, c: seq<T>)
    ensures a + b + c == a + (b + c)
  {
  }

  lemma {:induction false} SuffixReadBack(kind: Kind, isHa: bool, kubeApi: string, vars: Vars)
    requires Printable(vars, SWITCHES)
    requires Word(kubeApi) || (kubeApi == "" && !isHa)
    ensures ReadFlags(Suffix(kind, isHa, kubeApi, vars), SWITCHES) ==
            EndpointFlags(isHa, kubeApi) + VarFlags(kind, vars)
  {
    if kubeApi != "" {
      EndpointTokens(isHa, kubeApi);
    } else {
      NoEndpoint();
    }
    EndpointReadBack(isHa, kubeApi, WordsOfAll(VarPieces(kind, vars)));
    VarsReadBack(kind, vars, SWITCHES);
  }

  lemma {:induction false} NoEndpoint()
    ensures EndpointWords(false, "") == [] && EndpointPieces(false, "") == [] && WordsOfAll([]) == []
  {
  }

  /** Two different dictionaries can print the same init line once a key contains `=`. */
  lemma {:induction false} EqualsInKeyIsAmbiguous(a: string, b: string, c: string)
    requires b != "" && c != ""
    ensures InitPieces(Given([(a + "=" + b, c)])) == InitPieces(Given([(a, b + "=" + c)]))
  {
    var v, w := [(a + "=" + b, c)], [(a, b + "=" + c)];
    assert v[1..] == [] && w[1..] == [];
    assert AssignFlag(a + "=" + b, c) == AssignFlag(a, b + "=" + c);
  }
}
