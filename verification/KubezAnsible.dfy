/** tools/kubez-ansible: from the command line to the text of the ansible-playbook command. */
module KubezAnsible {
  import opened Wrappers
  import opened Text
  import opened Getopt

  const CONFIRMATION: string := "--yes-i-really-really-mean-it"
  const KUBE_ACTION: string := "kube_action="
  const DESTROY: string := "destroy"
  const EXTRA_FLAG: string := "-e"
  const INVENTORY_FLAG: string := "-i"
  const ANSIBLE_PLAYBOOK: string := "ansible-playbook"
  const VERBOSE: string := "--verbose"
  const ASK_PASS: string := "--ask-pass"
  const ASK_VAULT_PASS: string := "--ask-vault-pass"

  /** The shell variables the option loop sets. */
  datatype Settings = Settings(inventory: string, playbook: string, extraOpts: string, verbosity: string,
                               configDir: string, confirmed: bool)

  datatype Outcome = Exit(code: nat) | Launch(cmd: string)

  function Defaults(baseDir: string): Settings {
    Settings(baseDir + "/ansible/inventory/all-in-one", baseDir + "/ansible/site.yml", "", "", "/etc/kubez", false)
  }

  /** Options handed on to ansible-playbook as a flag and its value. */
  predicate HandedOn(name: OptName) {
    name in {SkipTags, Tags, Extra, Limit, Forks, VaultId, VaultPasswordFile}
  }

  function FlagFor(name: OptName): string
    requires HandedOn(name)
  {
    match name
    case SkipTags => "--skip-tags"
    case Tags => "--tags"
    case Extra => EXTRA_FLAG
    case Limit => "--limit"
    case Forks => "--forks"
    case VaultId => "--vault-id"
    case VaultPasswordFile => "--vault-password-file"
  }

  function KeyWord(file: string): string {
    "--vault-password-file=" + file
  }

  /** What an option appends to EXTRA_OPTS. */
  function ExtraWords(opt: Opt): seq<string> {
    if HandedOn(opt.name) then [FlagFor(opt.name), opt.arg]
    else if opt.name.Key? then [KeyWord(opt.arg)]
    else []
  }

  /** Appends words to a shell variable, each after a blank. */
  function Append(text: string, words: seq<string>): string {
    if words == [] then text else text + " " + Join(words, " ")
  }

  /** One turn of the loop; `--help` exits 0 and an option without an arm exits 3. */
  function Turn(s: Settings, opt: Opt, raw: string): Result<Settings> {
    match opt.name
    case Inventory => Ok(s.(inventory := opt.arg))
    case Playbook => Ok(s.(playbook := opt.arg))
    case Verbose => Ok(s.(verbosity := Append(s.verbosity, [VERBOSE])))
    case ConfigDir => Ok(s.(configDir := opt.arg))
    case Yes => Ok(if Contains(raw, CONFIRMATION) then s.(confirmed := true) else s)
    case IncludeImages => Ok(s)
    case IncludeDev => Ok(s)
    case AskVaultPass => Ok(s.(verbosity := Append(s.extraOpts, [ASK_VAULT_PASS])))
    case Help => Err("0")
    case Passwords => Err("3")
    case _ => Ok(s.(extraOpts := Append(s.extraOpts, ExtraWords(opt))))
  }

  function Turns(s: Settings, opts: seq<Opt>, raw: string): Result<Settings> {
    if opts == [] then Ok(s)
    else
      var before :- Turns(s, opts[..|opts| - 1], raw);
      Turn(before, opts[|opts| - 1], raw)
  }

  function ExitCode(error: string): nat {
    if error == "0" then 0 else 3
  }

  /** What a command adds to EXTRA_OPTS, and the playbook it insists on. */
  datatype Command = Command(words: seq<string>, playbook: Option<string>)

  function SetAction(action: string): seq<string> {
    [EXTRA_FLAG, KUBE_ACTION + action]
  }

  function CommandFor(name: string, baseDir: string): Option<Command> {
    if name == "prechecks" then Some(Command(SetAction("precheck"), None))
    else if name == DESTROY then Some(Command(SetAction(DESTROY), None))
    else if name == "bootstrap-servers" then
      Some(Command(SetAction("bootstrap-servers"), Some(baseDir + "/ansible/kubernetes-hosts.yml")))
    else if name == "deploy" then Some(Command(SetAction("deploy"), None))
    else if name == "post-deploy" then Some(Command([], Some(baseDir + "/ansible/post-deploy.yml")))
    else if name == "authorized-key" then Some(Command([ASK_PASS], Some(baseDir + "/ansible/authorized-key.yml")))
    else if name == "pull" then Some(Command(SetAction("pull"), None))
    else if name == "apply" then Some(Command(SetAction("apply"), None))
    else None
  }

  function Globals(s: Settings): string {
    "@" + s.configDir + "/globals.yml"
  }

  function ConfigVar(s: Settings): string {
    "CONFIG_DIR=" + s.configDir
  }

  function CmdHead(s: Settings): seq<string> {
    [ANSIBLE_PLAYBOOK, INVENTORY_FLAG, s.inventory, EXTRA_FLAG, Globals(s), EXTRA_FLAG, ConfigVar(s)]
  }

  function Cmd(s: Settings): string {
    Join(CmdHead(s) + [s.extraOpts, s.playbook, s.verbosity], " ")
  }

  /** The settings a command launches with. */
  function Final(s: Settings, c: Command): Settings {
    s.(extraOpts := Append(s.extraOpts, c.words), playbook := c.playbook.GetOr(s.playbook))
  }

  function Dispatch(s: Settings, operands: seq<string>, baseDir: string): Outcome {
    if operands == [] then Exit(0)
    else
      var command := CommandFor(operands[0], baseDir);
      if command.None? then Exit(0)
      else if operands[0] == DESTROY && !s.confirmed then Exit(1)
      else Launch(Cmd(Final(s, command.value)))
  }

  /** The whole script, with EXTRA_OPTS not set in the environment. */
  function Script(args: seq<string>, baseDir: string): Outcome {
    var parsed := Parse(args);
    if parsed.Err? then Exit(2)
    else
      var s := Turns(Defaults(baseDir), parsed.value.opts, Join(args, " "));
      if s.Err? then Exit(ExitCode(s.error)) else Dispatch(s.value, parsed.value.operands, baseDir)
  }

  // ---- What the loop leaves in its variables

  lemma {:induction false} TurnsConfirmed(s: Settings, opts: seq<Opt>, raw: string)
    requires !s.confirmed && Turns(s, opts, raw).Ok?
    ensures Turns(s, opts, raw).value.confirmed <==>
            Contains(raw, CONFIRMATION) && exists i :: 0 <= i < |opts| && opts[i].name.Yes?
  {
    if opts != [] {
      var before, last := opts[..|opts| - 1], opts[|opts| - 1];
      TurnsConfirmed(s, before, raw);
      if i :| 0 <= i < |opts| && opts[i].name.Yes? {
        assert i < |before| ==> before[i].name.Yes?;
      }
      if i :| 0 <= i < |before| && before[i].name.Yes? {
        assert opts[i].name.Yes?;
      }
    }
  }

  /** The argument of the last such option, or the default. */
  function LastArg(name: OptName, default_: string, opts: seq<Opt>): string {
    if opts == [] then default_
    else if opts[|opts| - 1].name == name then opts[|opts| - 1].arg
    else LastArg(name, default_, opts[..|opts| - 1])
  }

  lemma {:induction false} TurnsLast(s: Settings, opts: seq<Opt>, raw: string)
    requires Turns(s, opts, raw).Ok?
    ensures var t := Turns(s, opts, raw).value;
            && t.inventory == LastArg(Inventory, s.inventory, opts)
            && t.playbook == LastArg(Playbook, s.playbook, opts)
            && t.configDir == LastArg(ConfigDir, s.configDir, opts)
  {
    if opts != [] {
      TurnsLast(s, opts[..|opts| - 1], raw);
    }
  }

  /** The script's variables, set by the option loop. */
  class Launcher {
    const baseDir: string
    var inventory: string
    var playbook: string
    var extraOpts: string
    var verbosity: string
    var configDir: string
    var confirmed: bool

    function Now(): Settings
      reads this
    {
      Settings(inventory, playbook, extraOpts, verbosity, configDir, confirmed)
    }

    constructor (baseDir: string)
      ensures this.baseDir == baseDir && Now() == Defaults(baseDir)
    {
      this.baseDir := baseDir;
      inventory := baseDir + "/ansible/inventory/all-in-one";
      playbook := baseDir + "/ansible/site.yml";
      extraOpts, verbosity, configDir, confirmed := "", "", "/etc/kubez", false;
    }

    /** The `while`/`shift` loop; an exit code ends the script. */
    method Options(opts: seq<Opt>, raw: string) returns (exit: Option<nat>)
      modifies this
      ensures var s := Turns(old(Now()), opts, raw);
              if s.Ok? then exit == None && Now() == s.value else exit == Some(ExitCode(s.error))
    {
      for i := 0 to |opts|
        invariant Turns(old(Now()), opts[..i], raw) == Ok(Now())
      {
        assert opts[..i + 1][..i] == opts[..i];
        ghost var before := Now();
        var opt := opts[i];
        if opt.name.Help? || opt.name.Passwords? {
          TurnsStop(old(Now()), opts, raw, i + 1);
          return Some(if opt.name.Help? then 0 else 3);
        } else if opt.name.Inventory? {
          inventory := opt.arg;
        } else if opt.name.Playbook? {
          playbook := opt.arg;
        } else if opt.name.ConfigDir? {
          configDir := opt.arg;
        } else if opt.name.Verbose? {
          verbosity := Append(verbosity, [VERBOSE]);
        } else if opt.name.AskVaultPass? {
          verbosity := Append(extraOpts, [ASK_VAULT_PASS]);
        } else if opt.name.Yes? {
          if Contains(raw, CONFIRMATION) {
            confirmed := true;
          }
        } else if HandedOn(opt.name) {
          extraOpts := Append(extraOpts, [FlagFor(opt.name), opt.arg]);
        } else if opt.name.Key? {
          extraOpts := Append(extraOpts, [KeyWord(opt.arg)]);
        }
        assert Turn(before, opt, raw) == Ok(Now());
      }
      assert opts[..|opts|] == opts;
      return None;
    }

    /** The whole script: getopt, the option loop, the command, the confirmation, the launch. */
    method Start(args: seq<string>) returns (o: Outcome)
      requires Now() == Defaults(baseDir)
      modifies this
      ensures o == Script(args, baseDir)
    {
      var parsed := Parse(args);
      if parsed.Err? {
        return Exit(2);
      }
      var exit := Options(parsed.value.opts, Join(args, " "));
      if exit.Some? {
        return Exit(exit.value);
      }
      o := RunCommand(parsed.value.operands);
    }

    method RunCommand(operands: seq<string>) returns (o: Outcome)
      modifies this
      ensures o == Dispatch(old(Now()), operands, baseDir)
    {
      if operands == [] {
        return Exit(0);
      }
      var command := CommandFor(operands[0], baseDir);
      if command.None? {
        return Exit(0);
      }
      extraOpts := Append(extraOpts, command.value.words);
      if command.value.playbook.Some? {
        playbook := command.value.playbook.value;
      }
      if operands[0] == DESTROY && !confirmed {
        return Exit(1);
      }
      return Launch(Cmd(Now()));
    }
  }

  lemma {:induction false} TurnsStop(s: Settings, opts: seq<Opt>, raw: string, i: nat)
    requires i <= |opts| && Turns(s, opts[..i], raw).Err?
    ensures Turns(s, opts, raw) == Turns(s, opts[..i], raw)
    decreases |opts|
  {
    if i == |opts| {
      assert opts[..i] == opts;
    } else {
      var shorter := opts[..|opts| - 1];
      assert shorter[..i] == opts[..i];
      TurnsStop(s, shorter, raw, i);
    }
  }
}
