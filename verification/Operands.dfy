/** What each operand of tools/kubez-ansible launches: whether anything, with which configuration, action and playbook. */
module Operands {
  import opened Wrappers
  import opened Text
  import opened Getopt
  import opened KubezAnsible
  import opened LaunchedCommand
  import DestroyGate
  import opened TypedArgs

  const OPERANDS: set<string> :=
    {"prechecks", "destroy", "bootstrap-servers", "deploy", "post-deploy", "authorized-key", "pull", "apply"}

  lemma {:induction false} KnownOperands(name: string, baseDir: string)
    ensures CommandFor(name, baseDir).Some? <==> name in OPERANDS
  {
  }

  /** Something is launched exactly for these operands, a destroy only when confirmed; else the script ends without a launch. */
  lemma {:induction false} LaunchesIff(args: seq<string>, baseDir: string)
    requires Parse(args).Ok? && forall i :: 0 <= i < |Parse(args).value.opts| ==> !Stops(Parse(args).value.opts[i])
    ensures var operands, o := Parse(args).value.operands, Script(args, baseDir);
            if operands == [] || operands[0] !in OPERANDS then o == Exit(0)
            else if operands[0] == "destroy" && !DestroyGate.Confirmed(args) then o == Exit(1)
            else o.Launch?
  {
    TurnsStopIff(Defaults(baseDir), Parse(args).value.opts, Join(args, " "));
    DestroyGate.ConfirmedByText(args, baseDir);
    if Parse(args).value.operands != [] {
      KnownOperands(Parse(args).value.operands[0], baseDir);
    }
  }

  predicate Stops(opt: Opt) {
    opt.name in {Help, Passwords}
  }

  lemma {:induction false} TurnStops(s: Settings, opt: Opt, raw: string)
    ensures Turn(s, opt, raw).Err? <==> Stops(opt)
    ensures Stops(opt) ==> ExitCode(Turn(s, opt, raw).error) == if opt.name.Help? then 0 else 3
  {
  }

  /** The first `--help` or `--passwords` ends the option loop, with 0 or 3; without one it goes through. */
  lemma {:induction false} TurnsStopIff(s: Settings, opts: seq<Opt>, raw: string)
    ensures Turns(s, opts, raw).Ok? <==> forall i :: 0 <= i < |opts| ==> !Stops(opts[i])
    ensures forall k :: 0 <= k < |opts| && Stops(opts[k]) && (forall i :: 0 <= i < k ==> !Stops(opts[i])) ==>
              Turns(s, opts, raw).Err? && ExitCode(Turns(s, opts, raw).error) == if opts[k].name.Help? then 0 else 3
  {
    if opts != [] {
      var shorter, last := opts[..|opts| - 1], opts[|opts| - 1];
      TurnsStopIff(s, shorter, raw);
      assert forall i :: 0 <= i < |shorter| ==> shorter[i] == opts[i];
      if Turns(s, shorter, raw).Ok? {
        TurnStops(Turns(s, shorter, raw).value, last, raw);
      }
    }
  }

  /** The exit codes before any operand is looked at: 2 when getopt fails, else that of the first option that stops. */
  lemma {:induction false} EarlyExits(args: seq<string>, baseDir: string)
    ensures Parse(args).Err? ==> Script(args, baseDir) == Exit(2)
    ensures Parse(args).Ok? ==>
              var opts := Parse(args).value.opts;
              forall k :: 0 <= k < |opts| && Stops(opts[k]) && (forall i :: 0 <= i < k ==> !Stops(opts[i])) ==>
                Script(args, baseDir) == Exit(if opts[k].name.Help? then 0 else 3)
  {
    if Parse(args).Ok? {
      TurnsStopIff(Defaults(baseDir), Parse(args).value.opts, Join(args, " "));
    }
  }

  // ---- Words

  /** The operands that keep the playbook of the last `-p`. */
  const ON_USER_PLAYBOOK: set<string> := {"prechecks", "destroy", "deploy", "pull", "apply"}

  /** The words each operand adds: the action of its own name, the prechecks' aside, or a switch, or nothing. */
  lemma {:induction false} OwnWordsOf(name: string, baseDir: string)
    requires name in OPERANDS
    ensures var words := CommandFor(name, baseDir).value.words;
            && (name == "prechecks" ==> words == ["-e", "kube_action=" + "precheck"])
            && (name in {"destroy", "bootstrap-servers", "deploy", "pull", "apply"} ==> words == ["-e", "kube_action=" + name])
            && (name == "post-deploy" ==> words == []) && (name == "authorized-key" ==> words == ["--ask-pass"])
  {
  }

  lemma {:induction false} OwnPlaybookOf(name: string, baseDir: string)
    requires name in OPERANDS
    ensures var playbook := CommandFor(name, baseDir).value.playbook;
            && (playbook.None? <==> name in ON_USER_PLAYBOOK)
            && (name == "bootstrap-servers" ==> playbook == Some(baseDir + "/ansible/kubernetes-hosts.yml"))
            && (name == "post-deploy" ==> playbook == Some(baseDir + "/ansible/post-deploy.yml"))
            && (name == "authorized-key" ==> playbook == Some(baseDir + "/ansible/authorized-key.yml"))
  {
  }

  predicate PlainLaunch(args: seq<string>, baseDir: string) {
    PlainWord(baseDir) && Parse(args).Ok? && PlainArgs(Parse(args).value.opts) && Script(args, baseDir).Launch?
  }

  lemma {:induction false} WordsAtHead(word: string, head: seq<string>, rest: seq<string>)
    ensures ([word] + (head + rest))[..1 + |head|] == [word] + head
  {
  }

  lemma {:induction false} HeadWordsOf(s: Settings)
    requires PlainSettings(s)
    ensures HeadWords(s) == ["-i", s.inventory, "-e", "@" + s.configDir + "/globals.yml", "-e", "CONFIG_DIR=" + s.configDir]
  {
    SettingsWords(s);
    WordsOfWords(CmdHead(s)[1..]);
  }

  lemma {:induction false} LaunchedHead(args: seq<string>, baseDir: string) returns (s: Settings, rest: seq<string>)
    requires Script(args, baseDir).Launch?
    ensures Turns(Defaults(baseDir), Parse(args).value.opts, Join(args, " ")) == Ok(s)
    ensures Words(Script(args, baseDir).cmd) == [ANSIBLE_PLAYBOOK] + (HeadWords(s) + rest)
  {
    LaunchWords(args, baseDir);
    var opts := Parse(args).value.opts;
    var c := CommandFor(Parse(args).value.operands[0], baseDir).value;
    s := Turns(Defaults(baseDir), opts, Join(args, " ")).value;
    rest := AllOptWords(opts) + c.words + (Words(c.playbook.GetOr(s.playbook)) + TailWords(opts));
  }

  lemma {:induction false} LaunchedSettings(opts: seq<Opt>, raw: string, baseDir: string, s: Settings)
    requires PlainWord(baseDir) && PlainArgs(opts) && Turns(Defaults(baseDir), opts, raw) == Ok(s)
    ensures PlainSettings(s) && s.configDir == LastArg(ConfigDir, "/etc/kubez", opts)
    ensures s.inventory == LastArg(Inventory, baseDir + "/ansible/inventory/all-in-one", opts)
  {
    TurnsPlain(opts, raw, baseDir);
    TurnsLast(Defaults(baseDir), opts, raw);
  }

  /** What starts every launched command: the last inventory given and the last configuration directory, or the defaults. */
  lemma {:induction false} LaunchedConfiguration(args: seq<string>, baseDir: string)
    requires PlainLaunch(args, baseDir)
    ensures var opts, words := Parse(args).value.opts, Words(Script(args, baseDir).cmd);
            var conf := LastArg(ConfigDir, "/etc/kubez", opts);
            |words| >= 7
            && words[..7] == ["ansible-playbook"]
                             + ["-i", LastArg(Inventory, baseDir + "/ansible/inventory/all-in-one", opts),
                                "-e", "@" + conf + "/globals.yml", "-e", "CONFIG_DIR=" + conf]
  {
    var s, rest := LaunchedHead(args, baseDir);
    LaunchedSettings(Parse(args).value.opts, Join(args, " "), baseDir, s);
    HeadWordsOf(s);
    WordsAtHead(ANSIBLE_PLAYBOOK, HeadWords(s), rest);
  }

  /** Options handed on reach ansible-playbook as they may be typed here: by long name, `-e`, or `--vault-password-file=`. */
  lemma {:induction false} HandedOnAsTyped(opt: Opt)
    requires HasArg(opt.name) ==> Word(opt.arg)
    ensures opt.name in {SkipTags, Tags, Limit, Forks, VaultId, VaultPasswordFile} ==> OptWords(opt) == WordsOfItem(Typed(opt, Long))
    ensures opt.name.Extra? ==> OptWords(opt) == WordsOfItem(Typed(opt, Short))
    ensures opt.name.Key? ==> OptWords(opt) == WordsOfItem(Typed(Opt(VaultPasswordFile, opt.arg), LongJoined))
    ensures opt.name !in {SkipTags, Tags, Limit, Forks, VaultId, VaultPasswordFile, Extra, Key} ==> OptWords(opt) == []
  {
    if HandedOn(opt.name) {
      FlagIsWord(opt.name);
      WordsOfWords([FlagFor(opt.name), opt.arg]);
      FlagThenValue(opt);
    } else if opt.name.Key? {
      KeyWordIsWord(opt.arg);
      LaunchedCommand.OneWord(KeyWord(opt.arg));
      KeyAsTyped(opt.arg);
    }
  }

  lemma {:induction false} FlagThenValue(opt: Opt)
    requires HandedOn(opt.name)
    ensures WordsOfItem(Typed(opt, if opt.name.Extra? then Short else Long)) == [FlagFor(opt.name), opt.arg]
  {
    FlagAsTyped(opt.name);
  }

  lemma {:induction false} FlagAsTyped(name: OptName)
    requires HandedOn(name)
    ensures FlagFor(name) == if name.Extra? then Dashed('e') else DoubleDashed(FullName(name))
  {
    match name
    case SkipTags => assert "--" + "skip-tags" == "--skip-tags";
    case Tags => assert "--" + "tags" == "--tags";
    case Limit => assert "--" + "limit" == "--limit";
    case Forks => assert "--" + "forks" == "--forks";
    case VaultId => assert "--" + "vault-id" == "--vault-id";
    case VaultPasswordFile => assert "--" + "vault-password-file" == "--vault-password-file";
    case Extra => assert "-" + ['e'] == "-e";
  }

  lemma {:induction false} KeyAsTyped(file: string)
    ensures WordsOfItem(Typed(Opt(VaultPasswordFile, file), LongJoined)) == [KeyWord(file)]
  {
    assert "--" + "vault-password-file" + "=" == "--vault-password-file=";
    assert KeyWord(file) == DoubleDashed("vault-password-file") + "=" + file;
  }

  /** After the playbook: each `--verbose` as typed, and with `--ask-vault-pass` all words of the options before it in their place. */
  lemma {:induction false} TailAsTyped(before: seq<Opt>, opt: Opt)
    requires !HasArg(opt.name) ==> opt.arg == ""
    ensures TailWords(before + [opt]) ==
            if opt.name.Verbose? then TailWords(before) + WordsOfItem(Typed(opt, Long))
            else if opt.name.AskVaultPass? then AllOptWords(before) + WordsOfItem(Typed(opt, Long))
            else TailWords(before)
  {
    var opts := before + [opt];
    assert opts[..|opts| - 1] == before;
    SwitchesAsTyped();
  }

  lemma {:induction false} SwitchesAsTyped()
    ensures VERBOSE == DoubleDashed(FullName(Verbose)) && ASK_VAULT_PASS == DoubleDashed(FullName(AskVaultPass))
  {
    assert "--" + "verbose" == "--verbose" && "--" + "ask-vault-pass" == "--ask-vault-pass";
  }

  // ---- Actions and playbooks

  /** The extra variables read before the command's own words: the configuration and the `-e` values. */
  function GivenExtras(opts: seq<Opt>): seq<string> {
    var conf := LastArg(ConfigDir, "/etc/kubez", opts);
    ["@" + conf + "/globals.yml", "CONFIG_DIR=" + conf] + Extras(opts)
  }

  /** What the program reads off a launched command: one playbook, and the action's word after the values given. */
  lemma {:induction false} LaunchedReading(args: seq<string>, baseDir: string, a: Program, c: Command)
    requires PlainLaunch(args, baseDir) && Knows(a)
    requires Parse(args).value.operands != [] && CommandFor(Parse(args).value.operands[0], baseDir) == Some(c)
    requires a.finds(c.playbook.GetOr(LastArg(Playbook, baseDir + "/ansible/site.yml", Parse(args).value.opts)))
    ensures var opts, read := Parse(args).value.opts, ReadCmd(Script(args, baseDir).cmd, a);
            && Runs(read.mode)
            && read.playbooks == [c.playbook.GetOr(LastArg(Playbook, baseDir + "/ansible/site.yml", opts))]
            && read.extras == GivenExtras(opts) + (if |c.words| == 2 then [c.words[1]] else []) + Repeated(opts)
  {
    var opts, name := Parse(args).value.opts, Parse(args).value.operands[0];
    var s := Turns(Defaults(baseDir), opts, Join(args, " ")).value;
    LaunchWords(args, baseDir);
    LaunchReads(args, baseDir, a);
    TurnsPlain(opts, Join(args, " "), baseDir);
    TurnsLast(Defaults(baseDir), opts, Join(args, " "));
    PlainBefore(s, opts, a);
    DestroyGate.OwnWordIsPlain(name, baseDir, a);
    OwnWordsAreRead(Before(s, opts, a), c, a);
    DestroyGate.PlainOwn(s, opts, c, name, baseDir, a);
    OwnPlaybookIsPlain(name, baseDir);
    PlainAfter(c.playbook.GetOr(s.playbook), opts, a);
  }

  predicate FindsPlaybooks(a: Program, opts: seq<Opt>, baseDir: string) {
    && a.finds(LastArg(Playbook, baseDir + "/ansible/site.yml", opts)) && a.finds(baseDir + "/ansible/kubernetes-hosts.yml")
    && a.finds(baseDir + "/ansible/post-deploy.yml") && a.finds(baseDir + "/ansible/authorized-key.yml")
  }

  /** The playbook each operand runs: the user's, or its own. */
  lemma {:induction false} OperandRunsPlaybook(args: seq<string>, baseDir: string, a: Program)
    requires PlainLaunch(args, baseDir) && Knows(a) && FindsPlaybooks(a, Parse(args).value.opts, baseDir)
    ensures Parse(args).value.operands != []
    ensures var opts, name := Parse(args).value.opts, Parse(args).value.operands[0];
            var read := ReadCmd(Script(args, baseDir).cmd, a);
            && Runs(read.mode) && |read.playbooks| == 1
            && (name in {"prechecks", "destroy", "deploy", "pull", "apply"} ==>
                 read.playbooks[0] == LastArg(Playbook, baseDir + "/ansible/site.yml", opts))
            && (name == "bootstrap-servers" ==> read.playbooks[0] == baseDir + "/ansible/kubernetes-hosts.yml")
            && (name == "post-deploy" ==> read.playbooks[0] == baseDir + "/ansible/post-deploy.yml")
            && (name == "authorized-key" ==> read.playbooks[0] == baseDir + "/ansible/authorized-key.yml")
  {
    var name := LaunchedOperand(args, baseDir);
    OwnPlaybookOf(name, baseDir);
    LaunchedReading(args, baseDir, a, CommandFor(name, baseDir).value);
  }

  lemma {:induction false} LaunchedOperand(args: seq<string>, baseDir: string) returns (name: string)
    requires PlainLaunch(args, baseDir)
    ensures Parse(args).value.operands != [] && name == Parse(args).value.operands[0] && name in OPERANDS
  {
    LaunchWords(args, baseDir);
    name := Parse(args).value.operands[0];
    KnownOperands(name, baseDir);
  }

  /**
   The action each operand asks for: where no value set one after it, the last action read is the operand's own name,
   `precheck` for prechecks; post-deploy and authorized-key leave it to the values given.
   */
  lemma {:induction false} OperandSetsAction(args: seq<string>, baseDir: string, sets: string -> Option<string>, a: Program)
    requires PlainLaunch(args, baseDir) && Knows(a) && FindsPlaybooks(a, Parse(args).value.opts, baseDir)
    requires DestroyGate.ActionReader(sets) && DestroyGate.LastAction(Repeated(Parse(args).value.opts), sets).None?
    ensures Parse(args).value.operands != []
    ensures var opts, name := Parse(args).value.opts, Parse(args).value.operands[0];
            var action := DestroyGate.LastAction(ReadCmd(Script(args, baseDir).cmd, a).extras, sets);
            && (name == "prechecks" ==> action == Some("precheck"))
            && (name in {"destroy", "bootstrap-servers", "deploy", "pull", "apply"} ==> action == Some(name))
            && (name in {"post-deploy", "authorized-key"} ==> action == DestroyGate.LastAction(GivenExtras(opts), sets))
  {
    var opts := Parse(args).value.opts;
    var name := LaunchedOperand(args, baseDir);
    var words := CommandFor(name, baseDir).value.words;
    OwnWordsOf(name, baseDir);
    OwnPlaybookOf(name, baseDir);
    LaunchedReading(args, baseDir, a, CommandFor(name, baseDir).value);
    var own := if |words| == 2 then [words[1]] else [];
    DestroyGate.LastActionAppend(GivenExtras(opts) + own, Repeated(opts), sets);
    DestroyGate.LastActionAppend(GivenExtras(opts), own, sets);
    ActionWord(name, own, sets);
  }

  lemma {:induction false} ActionWord(name: string, own: seq<string>, sets: string -> Option<string>)
    requires DestroyGate.ActionReader(sets) && name in OPERANDS
    requires name == "prechecks" ==> own == ["kube_action=" + "precheck"]
    requires name in {"destroy", "bootstrap-servers", "deploy", "pull", "apply"} ==> own == ["kube_action=" + name]
    requires name in {"post-deploy", "authorized-key"} ==> own == []
    ensures name == "prechecks" ==> DestroyGate.LastAction(own, sets) == Some("precheck")
    ensures name in {"destroy", "bootstrap-servers", "deploy", "pull", "apply"} ==> DestroyGate.LastAction(own, sets) == Some(name)
    ensures name in {"post-deploy", "authorized-key"} ==> DestroyGate.LastAction(own, sets) == None
  {
  }
}
