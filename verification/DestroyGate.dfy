/** The confirmation of a destroy: exactly when the script launches a destroy that nobody confirmed. */
module DestroyGate {
  import opened Wrappers
  import opened Text
  import opened Getopt
  import opened KubezAnsible
  import opened LaunchedCommand

  /** The last of the values that sets `kube_action`; `sets` tells what a value sets it to. */
  function LastAction(extras: seq<string>, sets: string -> Option<string>): Option<string> {
    if extras == [] then None
    else
      var last := sets(extras[|extras| - 1]);
      if last.Some? then last else LastAction(extras[..|extras| - 1], sets)
  }

  /** The script's own `kube_action=...` words set it, and no flag does; what else sets it, and to what, is left open. */
  ghost predicate ActionReader(sets: string -> Option<string>) {
    (forall a :: a in ACTIONS ==> sets(KUBE_ACTION + a) == Some(a)) && sets(ASK_PASS).None?
  }

  lemma {:induction false} LastActionAppend(a: seq<string>, b: seq<string>, sets: string -> Option<string>)
    ensures LastAction(a + b, sets) == if LastAction(b, sets).Some? then LastAction(b, sets) else LastAction(a, sets)
    decreases |b|
  {
    if b == [] {
      assert a + b == a;
    } else {
      var shorter := b[..|b| - 1];
      assert (a + b)[..|a + b| - 1] == a + shorter;
      LastActionAppend(a, shorter, sets);
    }
  }

  function SitePlaybook(baseDir: string): string {
    baseDir + "/ansible/site.yml"
  }

  /** The launched command is run, with the site playbook among its playbooks, and the last `kube_action` on it is destroy. */
  predicate Destroys(o: Outcome, baseDir: string, sets: string -> Option<string>, a: Program) {
    && o.Launch? && Runs(ReadCmd(o.cmd, a).mode) && SitePlaybook(baseDir) in ReadCmd(o.cmd, a).playbooks
    && LastAction(ReadCmd(o.cmd, a).extras, sets) == Some(DESTROY)
  }

  /** The confirmation reached the script: it was accepted as an option, and its full text is in some argument. */
  predicate Confirmed(args: seq<string>) {
    && Parse(args).Ok? && (exists i :: 0 <= i < |Parse(args).value.opts| && Parse(args).value.opts[i].name.Yes?)
    && exists i :: 0 <= i < |args| && Contains(args[i], "--yes-i-really-really-mean-it")
  }

  lemma {:induction false} ConfirmedByText(args: seq<string>, baseDir: string)
    requires Parse(args).Ok? && Turns(Defaults(baseDir), Parse(args).value.opts, Join(args, " ")).Ok?
    ensures Turns(Defaults(baseDir), Parse(args).value.opts, Join(args, " ")).value.confirmed <==> Confirmed(args)
  {
    TurnsConfirmed(Defaults(baseDir), Parse(args).value.opts, Join(args, " "));
    assert ' ' !in CONFIRMATION;
    ContainsJoin(args, ' ', CONFIRMATION);
  }

  /** The command sets an action of its own. */
  predicate SetsAction(c: Command) {
    |c.words| == 2
  }

  lemma {:induction false} OwnAction(name: string, baseDir: string, sets: string -> Option<string>)
    requires CommandFor(name, baseDir).Some? && ActionReader(sets)
    ensures var c := CommandFor(name, baseDir).value;
            SetsAction(c) ==> sets(c.words[1]).Some? && (sets(c.words[1]) == Some(DESTROY) <==> name == DESTROY)
  {
    var c := CommandFor(name, baseDir).value;
    if SetsAction(c) {
      assert |"bootstrap-servers"| == 17;
    }
  }

  lemma {:induction false} OwnWordIsPlain(name: string, baseDir: string, a: Program)
    requires CommandFor(name, baseDir).Some? && Knows(a)
    ensures var c := CommandFor(name, baseDir).value; SetsAction(c) ==> !("-" <= c.words[1]) && !a.finds(c.words[1])
  {
    var c := CommandFor(name, baseDir).value;
    if SetsAction(c) {
      assert c.words[1][0] == 'k';
      NotPrefix("-", c.words[1], 0);
    }
  }

  /** What the command's own words leave, where the program does not stop at them: their action, or the one before. */
  lemma {:induction false} OwnWords(before: Reader, c: Command, sets: string -> Option<string>, a: Program)
    requires Knows(a) && KnownCommand(c) && ActionReader(sets)
    requires SetsAction(c) ==> sets(c.words[1]).Some? && !("-" <= c.words[1]) && !a.finds(c.words[1])
    ensures var own := FeedAll(before, c.words, a);
            || own.mode.stopped
            || (own.playbooks == before.playbooks
                && LastAction(own.extras, sets) == if SetsAction(c) then sets(c.words[1]) else LastAction(before.extras, sets))
  {
    OwnWordsAreRead(before, c, a);
    if SetsAction(c) {
      LastActionAppend(before.extras, [c.words[1]], sets);
    } else {
      LastActionAppend(before.extras, [ASK_PASS], sets);
      assert before.extras + [] == before.extras;
    }
  }

  /**
   The gate, exactly, for any option values and any program that knows the script's words: what is launched is an
   unconfirmed destroy if and only if the program does not stop, finds the site playbook among the words, and destroy is
   the last action among the words after the command's own, or, with none there, among those before, where the command
   sets no action.
   */
  lemma {:induction false} UnconfirmedDestroyIff(args: seq<string>, baseDir: string, sets: string -> Option<string>, a: Program)
    requires Script(args, baseDir).Launch? && ActionReader(sets) && Knows(a)
    ensures var opts, operands := Parse(args).value.opts, Parse(args).value.operands;
            && operands != [] && CommandFor(operands[0], baseDir).Some?
            && Turns(Defaults(baseDir), opts, Join(args, " ")).Ok?
            && var c, s := CommandFor(operands[0], baseDir).value, Turns(Defaults(baseDir), opts, Join(args, " ")).value;
               var before := Before(s, opts, a);
               var after := After(FeedAll(before, c.words, a).mode, c.playbook.GetOr(s.playbook), opts, a);
               var late := LastAction(after.extras, sets);
               Destroys(Script(args, baseDir), baseDir, sets, a) && !Confirmed(args) <==>
               && !Confirmed(args) && Runs(after.mode) && SitePlaybook(baseDir) in before.playbooks + after.playbooks
               && (late == Some(DESTROY)
                   || (late.None? && !SetsAction(c) && LastAction(before.extras, sets) == Some(DESTROY)))
  {
    var opts, operands := Parse(args).value.opts, Parse(args).value.operands;
    LaunchWords(args, baseDir);
    LaunchReads(args, baseDir, a);
    ConfirmedByText(args, baseDir);
    OwnAction(operands[0], baseDir, sets);
    OwnWordIsPlain(operands[0], baseDir, a);
    var c, s := CommandFor(operands[0], baseDir).value, Turns(Defaults(baseDir), opts, Join(args, " ")).value;
    var before := Before(s, opts, a);
    var own := FeedAll(before, c.words, a);
    OwnWords(before, c, sets, a);
    var after := After(own.mode, c.playbook.GetOr(s.playbook), opts, a);
    LastActionAppend(own.extras, after.extras, sets);
    if own.mode.stopped {
      StoppedStays(Reader(own.mode, [], []), Words(c.playbook.GetOr(s.playbook)) + TailWords(opts), a);
    }
  }

  // ---- Values of one word

  /** The operand is a command that keeps the user's playbook, and that playbook is the site's. */
  predicate RunsSite(opts: seq<Opt>, name: string, baseDir: string) {
    var site := SitePlaybook(baseDir);
    name in {"prechecks", "destroy", "deploy", "pull", "apply"} && LastArg(Playbook, site, opts) == site
  }

  lemma {:induction false} OwnPlaybook(name: string, baseDir: string)
    requires CommandFor(name, baseDir).Some?
    ensures var c := CommandFor(name, baseDir).value;
            && (c.playbook.None? <==> name in {"prechecks", "destroy", "deploy", "pull", "apply"})
            && if c.playbook.Some? then c.playbook.value != SitePlaybook(baseDir) else SetsAction(c)
  {
  }

  /** When every value is one word: the repeated `-e` values must set destroy, on a command that runs the site playbook. */
  lemma {:induction false} PlainDestroyIff(args: seq<string>, baseDir: string, sets: string -> Option<string>, a: Program)
    requires PlainWord(baseDir) && Parse(args).Ok? && PlainArgs(Parse(args).value.opts)
    requires ActionReader(sets) && Knows(a) && a.finds(SitePlaybook(baseDir)) && Script(args, baseDir).Launch?
    ensures Parse(args).value.operands != []
    ensures var opts, name := Parse(args).value.opts, Parse(args).value.operands[0];
            Destroys(Script(args, baseDir), baseDir, sets, a) && !Confirmed(args) <==>
            !Confirmed(args) && RunsSite(opts, name, baseDir) && LastAction(Repeated(opts), sets) == Some(DESTROY)
  {
    var opts, operands := Parse(args).value.opts, Parse(args).value.operands;
    UnconfirmedDestroyIff(args, baseDir, sets, a);
    LaunchWords(args, baseDir);
    var c, s := CommandFor(operands[0], baseDir).value, Turns(Defaults(baseDir), opts, Join(args, " ")).value;
    TurnsPlain(opts, Join(args, " "), baseDir);
    TurnsLast(Defaults(baseDir), opts, Join(args, " "));
    OwnPlaybook(operands[0], baseDir);
    OwnPlaybookIsPlain(operands[0], baseDir);
    PlainBefore(s, opts, a);
    PlainOwn(s, opts, c, operands[0], baseDir, a);
    PlainAfter(c.playbook.GetOr(s.playbook), opts, a);
  }

  /** After plain values, the command's own words leave the program ready for the playbook. */
  lemma {:induction false} PlainOwn(s: Settings, opts: seq<Opt>, c: Command, name: string, baseDir: string, a: Program)
    requires Knows(a) && CommandFor(name, baseDir) == Some(c) && KnownCommand(c) && Before(s, opts, a).mode == IDLE
    ensures FeedAll(Before(s, opts, a), c.words, a).mode == IDLE
  {
    var before := Before(s, opts, a);
    if c.words == [ASK_PASS] {
      SwitchIsRead(before, ASK_PASS, a);
    } else if c.words != [] {
      OwnWordIsPlain(name, baseDir, a);
      assert c.words == [EXTRA_FLAG, c.words[1]];
      PairIsRead(before, EXTRA_FLAG, c.words[1], a);
    }
  }

  lemma {:induction false} NothingRepeated(opts: seq<Opt>)
    requires forall i :: 0 <= i < |opts| ==> !opts[i].name.AskVaultPass?
    ensures Repeated(opts) == []
  {
    if opts != [] {
      NothingRepeated(opts[..|opts| - 1]);
    }
  }

  /** The gate: without `--ask-vault-pass`, no destroy is launched unless the full confirmation was typed and accepted. */
  lemma {:induction false} NoDestroyUnconfirmed(args: seq<string>, baseDir: string, sets: string -> Option<string>, a: Program)
    requires PlainWord(baseDir) && Parse(args).Ok? && PlainArgs(Parse(args).value.opts)
    requires ActionReader(sets) && Knows(a) && a.finds(SitePlaybook(baseDir))
    requires var opts := Parse(args).value.opts; forall i :: 0 <= i < |opts| ==> !opts[i].name.AskVaultPass?
    ensures Destroys(Script(args, baseDir), baseDir, sets, a) ==> Confirmed(args)
  {
    if Script(args, baseDir).Launch? {
      PlainDestroyIff(args, baseDir, sets, a);
      NothingRepeated(Parse(args).value.opts);
    }
  }

  // ---- The hypotheses are needed

  function VaultArgs(): seq<string> {
    [EXTRA_FLAG, KUBE_ACTION + DESTROY, ASK_VAULT_PASS, "deploy"]
  }

  lemma {:induction false} VaultSwitchTurns(opts: seq<Opt>, raw: string, baseDir: string)
    requires |opts| == 2 && opts[0].name.Extra? && opts[1].name.AskVaultPass?
    ensures var s := Turns(Defaults(baseDir), opts, raw); s.Ok? && s.value.playbook == baseDir + "/ansible/site.yml"
  {
    assert opts[..1][..0] == [];
    assert Turns(Defaults(baseDir), opts[..1][..0], raw) == Ok(Defaults(baseDir));
    assert Turns(Defaults(baseDir), opts[..1], raw) == Turn(Defaults(baseDir), opts[..1][0], raw);
  }

  /** With any option table that knows `body` as the vault switch, the four words parse as above. */
  lemma {:induction false} VaultSwitchParses(table: seq<(string, OptName)>, args: seq<string>, body: string)
    requires |args| == 4 && args[0] == ['-', 'e'] && args[2] == "--" + body && !("-" <= args[3]) && body != ""
    requires LongWord(table, body, args[3..]) == Ok(Cluster([Opt(AskVaultPass, "")], 0))
    ensures ParseWith(table, args) == Ok(Parsed([Opt(Extra, args[1]), Opt(AskVaultPass, "")], [args[3]]))
  {
    var one, two := args[3..], args[2..];
    assert one[1..] == [] && two[1..] == one && one[0] == args[3] && two[0] == args[2];
    assert [one[0]] + [] == [args[3]];
    assert ParseWith(table, one) == Ok(Parsed([], [args[3]]));
    assert [Opt(AskVaultPass, "")] + [] == [Opt(AskVaultPass, "")];
    assert ParseWith(table, two) == Ok(Parsed([Opt(AskVaultPass, "")], [args[3]]));
    ParseShortWithArg(table, args, 'e', Extra);
    assert [Opt(Extra, args[1])] + [Opt(AskVaultPass, "")] == [Opt(Extra, args[1]), Opt(AskVaultPass, "")];
  }

  lemma {:induction false} VaultArgsParse()
    ensures Parse(VaultArgs()) == Ok(Parsed([Opt(Extra, KUBE_ACTION + DESTROY), Opt(AskVaultPass, "")], ["deploy"]))
  {
    var args := VaultArgs();
    assert args[2] == "--" + "ask-vault-pass" && args[0] == ['-', 'e'];
    assert args[3][0] == 'd';
    NotPrefix("-", args[3], 0);
    AskVaultPassWord(args[3..]);
    VaultSwitchParses(LONG_OPTS, args, "ask-vault-pass");
  }

  lemma {:induction false} VaultRepeats(opts: seq<Opt>)
    requires |opts| == 2 && opts[0].name.Extra? && opts[1].name.AskVaultPass?
    ensures Repeated(opts) == [opts[0].arg]
  {
    assert opts[..1] == [opts[0]] && opts[..1][..0] == [];
    assert Extras(opts[..1]) == [] + [opts[0].arg];
  }

  lemma {:induction false} VaultArgsArePlain(opts: seq<Opt>)
    requires |opts| == 2 && opts[0].name.Extra? && opts[1].name.AskVaultPass? && PlainWord(opts[0].arg)
    ensures PlainArgs(opts)
  {
  }

  lemma {:induction false} RepeatedValueLaunches(args: seq<string>, value: string, baseDir: string,
                                                 sets: string -> Option<string>, a: Program)
    requires PlainWord(baseDir) && ActionReader(sets) && Knows(a) && a.finds(SitePlaybook(baseDir))
    requires PlainWord(value) && sets(value) == Some(DESTROY)
    requires Parse(args) == Ok(Parsed([Opt(Extra, value), Opt(AskVaultPass, "")], ["deploy"]))
    requires Script(args, baseDir).Launch? && RunsSite(Parse(args).value.opts, "deploy", baseDir)
    ensures Destroys(Script(args, baseDir), baseDir, sets, a) && !Confirmed(args)
  {
    VaultRepeats(Parse(args).value.opts);
    VaultArgsArePlain(Parse(args).value.opts);
    PlainDestroyIff(args, baseDir, sets, a);
  }

  /** `-e kube_action=destroy --ask-vault-pass deploy` launches a destroy that nobody confirmed. */
  lemma {:induction false} AskVaultPassNeedsNoConfirmation(baseDir: string, sets: string -> Option<string>, a: Program)
    requires PlainWord(baseDir) && ActionReader(sets) && Knows(a) && a.finds(SitePlaybook(baseDir))
    ensures Destroys(Script(VaultArgs(), baseDir), baseDir, sets, a) && !Confirmed(VaultArgs())
  {
    VaultArgsLaunch(VaultArgs(), baseDir);
    DestroyIsPlain();
    RepeatedValueLaunches(VaultArgs(), KUBE_ACTION + DESTROY, baseDir, sets, a);
  }

  lemma {:induction false} DestroyIsPlain()
    ensures PlainWord(KUBE_ACTION + DESTROY)
  {
    ActionsAreWords();
    assert (KUBE_ACTION + DESTROY)[0] == 'k';
    NotPrefix("-", KUBE_ACTION + DESTROY, 0);
  }

  lemma {:induction false} VaultArgsLaunch(args: seq<string>, baseDir: string)
    requires args == VaultArgs()
    ensures Parse(args) == Ok(Parsed([Opt(Extra, KUBE_ACTION + DESTROY), Opt(AskVaultPass, "")], ["deploy"]))
    ensures Script(args, baseDir).Launch? && RunsSite(Parse(args).value.opts, "deploy", baseDir)
  {
    VaultArgsParse();
    var opts := Parse(args).value.opts;
    VaultSwitchTurns(opts, Join(args, " "), baseDir);
    TurnsLast(Defaults(baseDir), opts, Join(args, " "));
  }

  /** One `-e` value made of several words, and the command that runs its own playbook. */
  function ValueArgs(words: seq<string>): seq<string> {
    [EXTRA_FLAG, Join(words, " "), "post-deploy"]
  }

  lemma {:induction false} OneValueParses(table: seq<(string, OptName)>, args: seq<string>)
    requires |args| == 3 && args[0] == ['-', 'e'] && !("-" <= args[2])
    ensures ParseWith(table, args) == Ok(Parsed([Opt(Extra, args[1])], [args[2]]))
  {
    var one := args[2..];
    assert one[1..] == [] && one[0] == args[2];
    assert [one[0]] + [] == [args[2]];
    ParseShortWithArg(table, args, 'e', Extra);
    assert [Opt(Extra, args[1])] + [] == [Opt(Extra, args[1])];
  }

  lemma {:induction false} ValueArgsParse(words: seq<string>)
    ensures Parse(ValueArgs(words)) == Ok(Parsed([Opt(Extra, Join(words, " "))], ["post-deploy"]))
  {
    var args := ValueArgs(words);
    assert args[0] == ['-', 'e'] && args[2][0] == 'p';
    NotPrefix("-", args[2], 0);
    OneValueParses(LONG_OPTS, args);
  }

  lemma {:induction false} OneValueTurns(opts: seq<Opt>, raw: string, baseDir: string)
    requires |opts| == 1 && opts[0].name.Extra?
    ensures var s := Turns(Defaults(baseDir), opts, raw);
            s.Ok? && s.value == Defaults(baseDir).(extraOpts := s.value.extraOpts)
    ensures AllOptWords(opts) == OptWords(opts[0]) && TailWords(opts) == []
  {
    assert opts[..0] == [] && AllOptWords(opts[..0]) == [] && TailWords(opts[..0]) == [];
    assert Turns(Defaults(baseDir), opts[..0], raw) == Ok(Defaults(baseDir));
  }

  lemma {:induction false} ValueWords(opt: Opt, words: seq<string>)
    requires opt.name.Extra? && opt.arg == Join(words, " ") && forall i :: 0 <= i < |words| ==> Word(words[i])
    ensures OptWords(opt) == [EXTRA_FLAG] + words
  {
    FlagWords();
    WordsOfFree(EXTRA_FLAG);
    WordsOfJoin(words);
    WordsOfWords(words);
    assert ExtraWords(opt) == [EXTRA_FLAG, opt.arg] && ExtraWords(opt)[1..] == [opt.arg] && [opt.arg][1..] == [];
    assert WordsOfAll([opt.arg]) == Words(opt.arg) + [];
  }

  /** Words of a value after which the program is ready for a playbook and has read a destroy. */
  ghost predicate ReadsDestroy(words: seq<string>, sets: string -> Option<string>, a: Program) {
    && (forall i :: 0 <= i < |words| ==> Word(words[i]))
    && var q := FeedAll(Reader(IDLE.(waiting := Some(true)), [], []), words, a);
       q.mode == IDLE && q.playbooks == [] && LastAction(q.extras, sets) == Some(DESTROY)
  }

  /** What such a command line leaves before the command's own words. */
  lemma {:induction false} ValueBefore(s: Settings, opts: seq<Opt>, words: seq<string>, site: string,
                                       sets: string -> Option<string>, a: Program)
    requires PlainSettings(s) && Knows(a) && AllOptWords(opts) == [EXTRA_FLAG] + (words + [site])
    requires ReadsDestroy(words, sets, a) && PlainWord(site) && a.finds(site)
    ensures var before := Before(s, opts, a);
            before.mode == IDLE.(row := Listing) && before.playbooks == [site] && LastAction(before.extras, sets) == Some(DESTROY)
  {
    BeforeValue(s, opts, words, site, a);
    ValueFeeds(Reader(IDLE, [Globals(s), ConfigVar(s)], []), words, site, sets, a);
  }

  lemma {:induction false} BeforeValue(s: Settings, opts: seq<Opt>, front: seq<string>, last: string, a: Program)
    requires PlainSettings(s) && Knows(a) && AllOptWords(opts) == [EXTRA_FLAG] + (front + [last])
    ensures var head := Reader(IDLE, [Globals(s), ConfigVar(s)], []);
            Before(s, opts, a) == Feed(FeedAll(Feed(head, EXTRA_FLAG, a), front, a), last, a)
  {
    HeadIsRead(s, a);
    FeedValue(HeadWords(s), EXTRA_FLAG, front, last, a);
  }

  lemma {:induction false} FeedValue(head: seq<string>, flag: string, front: seq<string>, last: string, a: Program)
    ensures FeedAll(START, head + ([flag] + (front + [last])), a) ==
            Feed(FeedAll(Feed(FeedAll(START, head, a), flag, a), front, a), last, a)
  {
    assert head + ([flag] + (front + [last])) == ((head + [flag]) + front) + [last];
    FeedAppend(START, (head + [flag]) + front, [last], a);
    FeedAppend(START, head + [flag], front, a);
    FeedAppend(START, head, [flag], a);
    FeedOne(FeedAll(START, head, a), flag, a);
    FeedOne(FeedAll(START, (head + [flag]) + front, a), last, a);
  }

  lemma {:induction false} ValueFeeds(head: Reader, front: seq<string>, site: string, sets: string -> Option<string>, a: Program)
    requires Knows(a) && head.mode == IDLE && head.playbooks == [] && PlainWord(site) && a.finds(site)
    requires ReadsDestroy(front, sets, a)
    ensures var r := Feed(FeedAll(Feed(head, EXTRA_FLAG, a), front, a), site, a);
            r.mode == IDLE.(row := Listing) && r.playbooks == [site] && LastAction(r.extras, sets) == Some(DESTROY)
  {
    var waits := Feed(head, EXTRA_FLAG, a);
    assert waits == head.(mode := IDLE.(waiting := Some(true)));
    FeedOnto(waits, front, a);
    LastActionAppend(head.extras, FeedAll(Reader(waits.mode, [], []), front, a).extras, sets);
    assert [] + [site] == [site];
  }

  lemma {:induction false} OnlyPlaybookAfter(playbook: string, opts: seq<Opt>, a: Program)
    requires Knows(a) && PlainWord(playbook) && a.finds(playbook) && TailWords(opts) == []
    ensures After(IDLE.(row := Listing), playbook, opts, a) == Reader(IDLE.(row := Listing), [], [playbook])
  {
    WordsOfFree(playbook);
    assert Words(playbook) + TailWords(opts) == [playbook];
    FeedOne(Reader(IDLE.(row := Listing), [], []), playbook, a);
    assert [] + [playbook] == [playbook];
  }

  function PostDeployPlaybook(baseDir: string): string {
    baseDir + "/ansible/post-deploy.yml"
  }

  /** The options and settings that such a command line leaves. */
  lemma {:induction false} ValueLaunches(words: seq<string>, baseDir: string)
    requires PlainWord(baseDir) && forall i :: 0 <= i < |words| ==> Word(words[i])
    ensures var args := ValueArgs(words);
            && Parse(args).Ok? && Parse(args).value.operands == ["post-deploy"] && Script(args, baseDir).Launch?
            && var opts := Parse(args).value.opts; var s := Turns(Defaults(baseDir), opts, Join(args, " "));
               && AllOptWords(opts) == [EXTRA_FLAG] + words && TailWords(opts) == []
               && s.Ok? && PlainSettings(s.value) && !s.value.confirmed
  {
    var args := ValueArgs(words);
    ValueArgsParse(words);
    var opts := Parse(args).value.opts;
    OneValueTurns(opts, Join(args, " "), baseDir);
    DefaultsArePlain(baseDir);
    ValueWords(opts[0], words);
  }

  /** Every value that brings the site playbook and an action of its own launches a destroy that nobody confirmed. */
  lemma {:induction false} ValueAddsPlaybook(words: seq<string>, baseDir: string, sets: string -> Option<string>, a: Program)
    requires PlainWord(baseDir) && ActionReader(sets) && Knows(a)
    requires a.finds(SitePlaybook(baseDir)) && a.finds(PostDeployPlaybook(baseDir))
    requires ReadsDestroy(words, sets, a)
    ensures var args := ValueArgs(words + [SitePlaybook(baseDir)]);
            Destroys(Script(args, baseDir), baseDir, sets, a) && !Confirmed(args)
  {
    var site := SitePlaybook(baseDir);
    var args := ValueArgs(words + [site]);
    SitePathIsWord();
    BasePath(baseDir, "/ansible/site.yml");
    ValueLaunches(words + [site], baseDir);
    var opts := Parse(args).value.opts;
    var s := Turns(Defaults(baseDir), opts, Join(args, " ")).value;
    ValueBefore(s, opts, words, site, sets, a);
    OwnPlaybookIsPlain("post-deploy", baseDir);
    OnlyPlaybookAfter(PostDeployPlaybook(baseDir), opts, a);
    ConfirmedByText(args, baseDir);
    UnconfirmedDestroyIff(args, baseDir, sets, a);
  }

  lemma {:induction false} OneWord(word: string, sets: string -> Option<string>, a: Program)
    requires PlainWord(word) && Knows(a) && sets(word) == Some(DESTROY)
    ensures ReadsDestroy([word], sets, a)
  {
    FeedOne(Reader(IDLE.(waiting := Some(true)), [], []), word, a);
    assert [] + [word] == [word] && [word][..0] == [];
  }

  /** `-e "kube_action=destroy <base>/ansible/site.yml" post-deploy` launches a destroy that nobody confirmed. */
  lemma {:induction false} BlankValueAddsPlaybook(baseDir: string, sets: string -> Option<string>, a: Program)
    requires PlainWord(baseDir) && ActionReader(sets) && Knows(a)
    requires a.finds(SitePlaybook(baseDir)) && a.finds(PostDeployPlaybook(baseDir))
    ensures var args := ValueArgs([KUBE_ACTION + DESTROY, SitePlaybook(baseDir)]);
            Destroys(Script(args, baseDir), baseDir, sets, a) && !Confirmed(args)
  {
    var action := KUBE_ACTION + DESTROY;
    DestroyIsPlain();
    OneWord(action, sets, a);
    assert [action] + [SitePlaybook(baseDir)] == [action, SitePlaybook(baseDir)];
    ValueAddsPlaybook([action], baseDir, sets, a);
  }

  lemma {:induction false} OtherSpelling(first: string, flag: string, word: string, sets: string -> Option<string>, a: Program)
    requires PlainWord(first) && Word(flag) && PlainWord(word) && Knows(a) && a.how(flag) == Waits(true)
    requires sets(word) == Some(DESTROY)
    ensures ReadsDestroy([first, flag, word], sets, a)
  {
    var r := Reader(IDLE.(waiting := Some(true)), [], []);
    assert [first, flag, word] == [first] + [flag, word];
    FeedAppend(r, [first], [flag, word], a);
    FeedOne(r, first, a);
    PairIsRead(Reader(IDLE, [first], []), flag, word, a);
    LastActionAppend([first], [word], sets);
    assert [] + [first] == [first] && [word][..0] == [];
  }

  /** So does a value that spells the flag in another way, such as `--extra-vars`, after whatever first word. */
  lemma {:induction false} OtherSpellingAddsPlaybook(first: string, flag: string, baseDir: string,
                                                     sets: string -> Option<string>, a: Program)
    requires PlainWord(baseDir) && PlainWord(first) && Word(flag) && ActionReader(sets) && Knows(a)
    requires a.how(flag) == Waits(true) && a.finds(SitePlaybook(baseDir)) && a.finds(PostDeployPlaybook(baseDir))
    ensures var args := ValueArgs([first, flag, KUBE_ACTION + DESTROY, SitePlaybook(baseDir)]);
            Destroys(Script(args, baseDir), baseDir, sets, a) && !Confirmed(args)
  {
    var words := [first, flag, KUBE_ACTION + DESTROY];
    DestroyIsPlain();
    OtherSpelling(first, flag, KUBE_ACTION + DESTROY, sets, a);
    assert words + [SitePlaybook(baseDir)] == [first, flag, KUBE_ACTION + DESTROY, SitePlaybook(baseDir)];
    ValueAddsPlaybook(words, baseDir, sets, a);
  }
}
