/** The launched ansible-playbook command as it is read: split into words, whatever the option values hold. */
module LaunchedCommand {
  import opened Wrappers
  import opened Text
  import opened Getopt
  import opened KubezAnsible

  // ---- Reading words

  /**
   How ansible-playbook takes a word: as an operand or a value, as a flag that waits for its value (extra variables or
   another), as one that needs no other word (with the extra variables it carries, as in `--extra-vars=...`), as the end
   of its options, or as one at which it stops without running anything.
   */
  datatype Spelling = Operand | Waits(extra: bool) | Complete(extras: seq<string>) | EndOfOptions | Stops

  /** ansible-playbook: how it takes each word, abbreviations and attached values included, and which playbooks it finds. */
  datatype Program = Program(how: string -> Spelling, finds: string -> bool)

  /** Playbooks must come in one row: one that follows a later option is not recognised. */
  datatype Row = NoneYet | Listing | Listed

  datatype Mode = Mode(waiting: Option<bool>, ended: bool, row: Row, stopped: bool)

  /** What has been read: the mode, the extra variables, the playbooks. */
  datatype Reader = Reader(mode: Mode, extras: seq<string>, playbooks: seq<string>)

  const IDLE: Mode := Mode(None, false, NoneYet, false)
  const START: Reader := Reader(IDLE, [], [])

  function Past(m: Mode): Mode {
    m.(row := if m.row.Listing? then Listed else m.row)
  }

  function Stop(r: Reader): Reader {
    r.(mode := r.mode.(stopped := true))
  }

  function Feed(r: Reader, word: string, a: Program): Reader {
    var m := r.mode;
    if m.stopped then r
    else match if m.ended then Operand else a.how(word)
      case Operand =>
        if m.waiting.Some? then
          Reader(m.(waiting := None), if m.waiting.value then r.extras + [word] else r.extras, r.playbooks)
        else if m.row.Listed? || !a.finds(word) then Stop(r)
        else Reader(m.(row := Listing), r.extras, r.playbooks + [word])
      case Waits(extra) => if m.waiting.Some? then Stop(r) else r.(mode := Past(m).(waiting := Some(extra)))
      case Complete(extras) => if m.waiting.Some? then Stop(r) else Reader(Past(m), r.extras + extras, r.playbooks)
      case EndOfOptions => r.(mode := m.(ended := true))
      case Stops => Stop(r)
  }

  function FeedAll(r: Reader, words: seq<string>, a: Program): Reader {
    if words == [] then r
    else Feed(FeedAll(r, words[..|words| - 1], a), words[|words| - 1], a)
  }

  /** The first word is the program. */
  function ReadCmd(cmd: string, a: Program): Reader {
    var words := Words(cmd);
    if words == [] then START else FeedAll(START, words[1..], a)
  }

  /** Nothing stopped it, and no flag is left without its value. */
  predicate Runs(m: Mode) {
    !m.stopped && m.waiting.None?
  }

  function Onto(r: Reader, later: Reader): Reader {
    Reader(later.mode, r.extras + later.extras, r.playbooks + later.playbooks)
  }

  lemma {:induction false} FeedAppend(r: Reader, x: seq<string>, y: seq<string>, a: Program)
    ensures FeedAll(r, x + y, a) == FeedAll(FeedAll(r, x, a), y, a)
  {
    if y == [] {
      assert x + y == x;
    } else {
      assert (x + y)[..|x + y| - 1] == x + y[..|y| - 1];
      FeedAppend(r, x, y[..|y| - 1], a);
    }
  }

  lemma {:induction false} FeedOneOnto(r: Reader, later: Reader, word: string, a: Program)
    ensures Feed(Onto(r, later), word, a) == Onto(r, Feed(later, word, a))
  {
    assert (r.extras + later.extras) + [word] == r.extras + (later.extras + [word]);
    assert (r.playbooks + later.playbooks) + [word] == r.playbooks + (later.playbooks + [word]);
    if a.how(word).Complete? {
      var extras := a.how(word).extras;
      assert (r.extras + later.extras) + extras == r.extras + (later.extras + extras);
    }
  }

  /** Reading on only depends on the mode. */
  lemma {:induction false} FeedOnto(r: Reader, words: seq<string>, a: Program)
    ensures FeedAll(r, words, a) == Onto(r, FeedAll(Reader(r.mode, [], []), words, a))
  {
    if words != [] {
      var before := words[..|words| - 1];
      FeedOnto(r, before, a);
      FeedOneOnto(r, FeedAll(Reader(r.mode, [], []), before, a), words[|words| - 1], a);
    }
  }

  lemma {:induction false} StoppedStays(r: Reader, words: seq<string>, a: Program)
    requires r.mode.stopped
    ensures FeedAll(r, words, a) == r
  {
    if words != [] {
      StoppedStays(r, words[..|words| - 1], a);
    }
  }

  lemma {:induction false} FeedOne(r: Reader, word: string, a: Program)
    ensures FeedAll(r, [word], a) == Feed(r, word, a)
  {
    assert [word][..0] == [];
  }

  lemma {:induction false} FeedTwo(r: Reader, first: string, second: string, a: Program)
    ensures FeedAll(r, [first, second], a) == Feed(Feed(r, first, a), second, a)
  {
    assert [first, second][..1] == [first];
    FeedOne(r, first, a);
  }

  // ---- What is assumed of the program

  const ACTIONS: set<string> := {"precheck", DESTROY, "bootstrap-servers", "deploy", "pull", "apply"}

  /** It knows the flags the script hands on; words without a dash are operands; the script's own words are no playbooks. */
  ghost predicate Knows(a: Program) {
    && a.how(EXTRA_FLAG) == Waits(true) && a.how(INVENTORY_FLAG) == Waits(false)
    && (forall name :: HandedOn(name) && !name.Extra? ==> a.how(FlagFor(name)) == Waits(false))
    && a.how(VERBOSE) == a.how(ASK_VAULT_PASS) == a.how(ASK_PASS) == Complete([])
    && (forall file :: file != "" ==> a.how(KeyWord(file)) == Complete([]))
    && (forall word :: word != "" && !("-" <= word) ==> a.how(word) == Operand)
    && !a.finds(EXTRA_FLAG) && !a.finds(ASK_PASS) && forall action :: action in ACTIONS ==> !a.finds(KUBE_ACTION + action)
  }

  const OTHER_FLAGS: set<string> := {"-i", "--tags", "--skip-tags", "--limit", "--forks", "--vault-id", "--vault-password-file"}

  /** A program of this kind: both spellings of the extra variables, attached values, and paths as playbooks. */
  function Spelt(word: string): Spelling {
    if word == EXTRA_FLAG || word == "--extra-vars" then Waits(true)
    else if word in OTHER_FLAGS then Waits(false)
    else if "--extra-vars=" <= word then Complete([word[13..]])
    else if EXTRA_FLAG <= word then Complete([word[2..]])
    else if word == "--" then EndOfOptions
    else if "-" <= word then Complete([])
    else Operand
  }

  lemma {:induction false} KeyWordIsComplete(file: string)
    requires file != ""
    ensures Spelt(KeyWord(file)) == Complete([])
  {
    var word := KeyWord(file);
    assert |word| > 22 && word[0] == '-' && word[1] == '-' && word[2] == 'v';
    assert |EXTRA_FLAG| == 2 && EXTRA_FLAG[1] == 'e';
    assert "--extra-vars="[2] == 'e';
  }

  lemma {:induction false} SpeltFlags(name: OptName)
    requires HandedOn(name) && !name.Extra?
    ensures Spelt(FlagFor(name)) == Waits(false)
  {
    assert |FlagFor(name)| > 2 && FlagFor(name)[2] != 'e';
  }

  lemma {:induction false} ActionsAreNoPaths()
    ensures forall action :: action in ACTIONS ==> '/' !in KUBE_ACTION + action
  {
  }

  lemma {:induction false} SpeltSwitches()
    ensures Spelt(EXTRA_FLAG) == Waits(true) && Spelt(INVENTORY_FLAG) == Waits(false)
    ensures Spelt(VERBOSE) == Spelt(ASK_VAULT_PASS) == Spelt(ASK_PASS) == Complete([])
    ensures '/' !in EXTRA_FLAG && '/' !in ASK_PASS
  {
    assert EXTRA_FLAG[1] == 'e' && VERBOSE[2] == 'v' && ASK_PASS[2] == 'a' && ASK_VAULT_PASS[2] == 'a';
  }

  lemma {:induction false} SpeltOperand(word: string)
    requires word != "" && !("-" <= word)
    ensures Spelt(word) == Operand
  {
    assert word[0] != '-' && EXTRA_FLAG[0] == '-';
  }

  /** The assumptions can be met. */
  lemma {:induction false} SomeProgramKnows()
    ensures Knows(Program(Spelt, word => '/' in word))
  {
    forall name | HandedOn(name) && !name.Extra?
      ensures Spelt(FlagFor(name)) == Waits(false)
    {
      SpeltFlags(name);
    }
    forall file | file != ""
      ensures Spelt(KeyWord(file)) == Complete([])
    {
      KeyWordIsComplete(file);
    }
    forall word | word != "" && !("-" <= word)
      ensures Spelt(word) == Operand
    {
      SpeltOperand(word);
    }
    SpeltSwitches();
    ActionsAreNoPaths();
  }

  // ---- The words of the command

  /** What an option leaves in EXTRA_OPTS, in words. */
  function OptWords(opt: Opt): seq<string> {
    WordsOfAll(ExtraWords(opt))
  }

  function AllOptWords(opts: seq<Opt>): seq<string> {
    if opts == [] then [] else AllOptWords(opts[..|opts| - 1]) + OptWords(opts[|opts| - 1])
  }

  /** What the options leave in VERBOSITY: `--ask-vault-pass` repeats all words before it. */
  function TailWords(opts: seq<Opt>): seq<string> {
    if opts == [] then []
    else
      var before, last := opts[..|opts| - 1], opts[|opts| - 1];
      match last.name
      case Verbose => TailWords(before) + [VERBOSE]
      case AskVaultPass => AllOptWords(before) + [ASK_VAULT_PASS]
      case _ => TailWords(before)
  }

  function HeadWords(s: Settings): seq<string> {
    WordsOfAll(CmdHead(s)[1..])
  }

  lemma {:induction false} AppendWords(text: string, pieces: seq<string>)
    ensures Words(Append(text, pieces)) == Words(text) + WordsOfAll(pieces)
  {
    if pieces != [] {
      WordsOfJoin(pieces);
      assert Append(text, pieces) == text + [' '] + Join(pieces, " ");
      WordsAt(text, ' ', Join(pieces, " "));
    }
  }

  lemma {:induction false} FlagWords()
    ensures Word(EXTRA_FLAG) && Word(INVENTORY_FLAG) && Word(ANSIBLE_PLAYBOOK) && Word(VERBOSE) && Word(ASK_VAULT_PASS)
  {
  }

  lemma {:induction false} OneWord(word: string)
    requires Word(word)
    ensures WordsOfAll([word]) == [word]
  {
    WordsOfFree(word);
    assert [word][1..] == [];
  }

  lemma {:induction false} AppendWord(text: string, word: string)
    requires Word(word)
    ensures Words(Append(text, [word])) == Words(text) + [word]
  {
    AppendWords(text, [word]);
    OneWord(word);
  }

  lemma {:induction false} TurnAppends(s: Settings, opt: Opt, raw: string)
    requires Turn(s, opt, raw).Ok?
    ensures Turn(s, opt, raw).value.extraOpts == Append(s.extraOpts, ExtraWords(opt))
  {
  }

  lemma {:induction false} TurnRepeats(s: Settings, opt: Opt, raw: string)
    requires Turn(s, opt, raw).Ok?
    ensures Turn(s, opt, raw).value.verbosity ==
            if opt.name.Verbose? then Append(s.verbosity, [VERBOSE])
            else if opt.name.AskVaultPass? then Append(s.extraOpts, [ASK_VAULT_PASS])
            else s.verbosity
  {
  }

  lemma {:induction false} TurnWords(s: Settings, opt: Opt, raw: string)
    requires Turn(s, opt, raw).Ok?
    ensures Words(Turn(s, opt, raw).value.extraOpts) == Words(s.extraOpts) + OptWords(opt)
    ensures Words(Turn(s, opt, raw).value.verbosity) ==
            if opt.name.Verbose? then Words(s.verbosity) + [VERBOSE]
            else if opt.name.AskVaultPass? then Words(s.extraOpts) + [ASK_VAULT_PASS]
            else Words(s.verbosity)
  {
    TurnAppends(s, opt, raw);
    TurnRepeats(s, opt, raw);
    FlagWords();
    AppendWords(s.extraOpts, ExtraWords(opt));
    AppendWord(s.verbosity, VERBOSE);
    AppendWord(s.extraOpts, ASK_VAULT_PASS);
  }

  /** The words of the shell variables after the loop, for any options. */
  lemma {:induction false} TurnsWords(s: Settings, opts: seq<Opt>, raw: string)
    requires s.extraOpts == "" && s.verbosity == "" && Turns(s, opts, raw).Ok?
    ensures var t := Turns(s, opts, raw).value;
            Words(t.extraOpts) == AllOptWords(opts) && Words(t.verbosity) == TailWords(opts)
  {
    if opts == [] {
      WordsOfFree("");
    } else {
      var before := opts[..|opts| - 1];
      TurnsWords(s, before, raw);
      TurnWords(Turns(s, before, raw).value, opts[|opts| - 1], raw);
    }
  }

  lemma {:induction false} ThreeTexts(a: string, b: string, c: string)
    ensures WordsOfAll([a, b, c]) == Words(a) + (Words(b) + Words(c))
  {
    assert [a, b, c][1..] == [b, c] && [b, c][1..] == [c] && [c][1..] == [];
    assert WordsOfAll([c]) == Words(c) + [];
  }

  lemma {:induction false} FirstWord(head: seq<string>)
    requires head != [] && Word(head[0])
    ensures WordsOfAll(head) == [head[0]] + WordsOfAll(head[1..])
  {
    WordsOfFree(head[0]);
  }

  lemma {:induction false} HeadAndTail(head: seq<string>, a: string, b: string, c: string)
    requires head != [] && Word(head[0])
    ensures Words(Join(head + [a, b, c], " ")) == [head[0]] + (WordsOfAll(head[1..]) + (Words(a) + (Words(b) + Words(c))))
  {
    var tail := [a, b, c];
    WordsOfJoin(head + tail);
    WordsOfAllAppend(head, tail);
    FirstWord(head);
    ThreeTexts(a, b, c);
  }

  lemma {:induction false} CmdWords(s: Settings)
    ensures Words(Cmd(s)) ==
            [ANSIBLE_PLAYBOOK] + (HeadWords(s) + (Words(s.extraOpts) + (Words(s.playbook) + Words(s.verbosity))))
  {
    FlagWords();
    assert CmdHead(s)[0] == ANSIBLE_PLAYBOOK;
    HeadAndTail(CmdHead(s), s.extraOpts, s.playbook, s.verbosity);
  }

  /** What the commands add: nothing, a switch, or one `-e kube_action=...`. */
  predicate KnownCommand(c: Command) {
    c.words == [] || c.words == [ASK_PASS] || (|c.words| == 2 && c.words[0] == EXTRA_FLAG && Word(c.words[1]))
  }

  lemma {:induction false} ActionsAreWords()
    ensures forall action :: action in ACTIONS ==> Word(KUBE_ACTION + action)
  {
    assert Word(KUBE_ACTION);
  }

  lemma {:induction false} CommandIsKnown(name: string, baseDir: string)
    requires CommandFor(name, baseDir).Some?
    ensures KnownCommand(CommandFor(name, baseDir).value)
  {
    ActionsAreWords();
  }

  lemma {:induction false} CommandWords(c: Command)
    requires KnownCommand(c)
    ensures WordsOfAll(c.words) == c.words
  {
    FlagWords();
    assert Word(ASK_PASS);
    WordsOfWords(c.words);
  }

  /**
   The words of every launched command: configuration, the words of the options in order, the command's own, the words
   of the playbook, and those that `--ask-vault-pass` repeats.
   */
  lemma {:induction false} LaunchWords(args: seq<string>, baseDir: string)
    requires Script(args, baseDir).Launch?
    ensures var opts, operands := Parse(args).value.opts, Parse(args).value.operands;
            && operands != [] && CommandFor(operands[0], baseDir).Some?
            && Turns(Defaults(baseDir), opts, Join(args, " ")).Ok?
            && var c, s := CommandFor(operands[0], baseDir).value, Turns(Defaults(baseDir), opts, Join(args, " ")).value;
            && KnownCommand(c) && (operands[0] == DESTROY ==> s.confirmed)
            && Words(Script(args, baseDir).cmd) ==
               [ANSIBLE_PLAYBOOK] + (HeadWords(s) + (AllOptWords(opts) + c.words
                                     + (Words(c.playbook.GetOr(s.playbook)) + TailWords(opts))))
  {
    var opts, operands := Parse(args).value.opts, Parse(args).value.operands;
    var s := Turns(Defaults(baseDir), opts, Join(args, " ")).value;
    var c := CommandFor(operands[0], baseDir).value;
    TurnsWords(Defaults(baseDir), opts, Join(args, " "));
    CommandIsKnown(operands[0], baseDir);
    CommandWords(c);
    AppendWords(s.extraOpts, c.words);
    CmdWords(Final(s, c));
    assert CmdHead(Final(s, c)) == CmdHead(s);
  }

  // ---- The launched command, read back

  /** What has been read when the command's own words come. */
  function Before(s: Settings, opts: seq<Opt>, a: Program): Reader {
    FeedAll(START, HeadWords(s) + AllOptWords(opts), a)
  }

  /** What is read after them. */
  function After(mode: Mode, playbook: string, opts: seq<Opt>, a: Program): Reader {
    FeedAll(Reader(mode, [], []), Words(playbook) + TailWords(opts), a)
  }

  /** Round trip through the launched text, for any option values and any program. */
  lemma {:induction false} LaunchReads(args: seq<string>, baseDir: string, a: Program)
    requires Script(args, baseDir).Launch?
    ensures var opts, operands := Parse(args).value.opts, Parse(args).value.operands;
            && operands != [] && CommandFor(operands[0], baseDir).Some?
            && Turns(Defaults(baseDir), opts, Join(args, " ")).Ok?
            && var c, s := CommandFor(operands[0], baseDir).value, Turns(Defaults(baseDir), opts, Join(args, " ")).value;
               var own := FeedAll(Before(s, opts, a), c.words, a);
               ReadCmd(Script(args, baseDir).cmd, a) ==
               Onto(own, After(own.mode, c.playbook.GetOr(s.playbook), opts, a))
  {
    var opts, operands := Parse(args).value.opts, Parse(args).value.operands;
    LaunchWords(args, baseDir);
    var s := Turns(Defaults(baseDir), opts, Join(args, " ")).value;
    var c := CommandFor(operands[0], baseDir).value;
    var last := Words(c.playbook.GetOr(s.playbook)) + TailWords(opts);
    FeedParts(HeadWords(s), AllOptWords(opts), c.words, last, a);
    FeedOnto(FeedAll(Before(s, opts, a), c.words, a), last, a);
  }

  lemma {:induction false} FeedParts(head: seq<string>, opts: seq<string>, own: seq<string>, last: seq<string>, a: Program)
    ensures FeedAll(START, head + (opts + own + last), a) == FeedAll(FeedAll(FeedAll(START, head + opts, a), own, a), last, a)
  {
    assert head + (opts + own + last) == (head + opts) + own + last;
    FeedAppend(START, (head + opts) + own, last, a);
    FeedAppend(START, head + opts, own, a);
  }

  /** What a command adds, unless the program stops: its own action, and no playbook. */
  lemma {:induction false} OwnWordsAreRead(r: Reader, c: Command, a: Program)
    requires Knows(a) && KnownCommand(c)
    requires |c.words| == 2 ==> !("-" <= c.words[1]) && !a.finds(c.words[1])
    ensures var own := FeedAll(r, c.words, a);
            || own.mode.stopped
            || (own.playbooks == r.playbooks
                && own.extras == r.extras + (if |c.words| == 2 then [c.words[1]]
                                             else if c.words == [ASK_PASS] && r.mode.ended && r.mode.waiting == Some(true) then [ASK_PASS]
                                             else []))
  {
    if c.words == [ASK_PASS] {
      FeedOne(r, ASK_PASS, a);
    } else if c.words != [] {
      assert c.words == [EXTRA_FLAG, c.words[1]];
      FeedTwo(r, EXTRA_FLAG, c.words[1], a);
    }
  }

  // ---- Values of one word

  function ExtraOf(opt: Opt): seq<string> {
    if opt.name.Extra? then [opt.arg] else []
  }

  /** The `-e` values among the options, in order. */
  function Extras(opts: seq<Opt>): seq<string> {
    if opts == [] then [] else Extras(opts[..|opts| - 1]) + ExtraOf(opts[|opts| - 1])
  }

  /** The `-e` values repeated after the playbook: those before the last `--ask-vault-pass`. */
  function Repeated(opts: seq<Opt>): seq<string> {
    if opts == [] then []
    else if opts[|opts| - 1].name.AskVaultPass? then Extras(opts[..|opts| - 1])
    else Repeated(opts[..|opts| - 1])
  }

  /** Every option argument is one word, and none is taken for a flag. */
  predicate PlainArgs(opts: seq<Opt>) {
    forall i :: 0 <= i < |opts| && HasArg(opts[i].name) ==> PlainArg(opts[i])
  }

  predicate PlainArg(opt: Opt) {
    Word(opt.arg) && (opt.name.Key? || opt.name.ConfigDir? || !("-" <= opt.arg))
  }

  /** The program takes the next word as a word of its own. */
  predicate Idle(m: Mode) {
    !m.stopped && m.waiting.None? && !m.ended
  }

  /** From `r`, nothing but extra variables was read. */
  predicate Grown(r: Reader, q: Reader, extras: seq<string>) {
    && Idle(q.mode) && q.extras == r.extras + extras && q.playbooks == r.playbooks
    && (r.mode.row.NoneYet? ==> q.mode == r.mode)
  }

  lemma {:induction false} GrownTwice(p: Reader, q: Reader, r: Reader, x: seq<string>, y: seq<string>)
    requires Grown(p, q, x) && Grown(q, r, y)
    ensures Grown(p, r, x + y)
  {
  }

  lemma {:induction false} KeyWordIsWord(file: string)
    requires Word(file)
    ensures Word(KeyWord(file))
  {
  }

  lemma {:induction false} FlagIsWord(name: OptName)
    requires HandedOn(name)
    ensures Word(FlagFor(name))
  {
  }

  lemma {:induction false} PairIsRead(r: Reader, flag: string, value: string, a: Program)
    requires Idle(r.mode) && a.how(flag).Waits? && a.how(value) == Operand
    ensures Grown(r, FeedAll(r, [flag, value], a), if a.how(flag).extra then [value] else [])
  {
    FeedTwo(r, flag, value, a);
  }

  lemma {:induction false} SwitchIsRead(r: Reader, word: string, a: Program)
    requires Idle(r.mode) && a.how(word) == Complete([])
    ensures Grown(r, FeedAll(r, [word], a), [])
  {
    FeedOne(r, word, a);
  }

  lemma {:induction false} PlainOptIsRead(r: Reader, opt: Opt, a: Program)
    requires Knows(a) && Idle(r.mode) && (HasArg(opt.name) ==> PlainArg(opt))
    ensures Grown(r, FeedAll(r, OptWords(opt), a), ExtraOf(opt))
  {
    if HandedOn(opt.name) {
      FlagIsWord(opt.name);
      WordsOfWords([FlagFor(opt.name), opt.arg]);
      PairIsRead(r, FlagFor(opt.name), opt.arg, a);
    } else if opt.name.Key? {
      KeyWordIsWord(opt.arg);
      OneWord(KeyWord(opt.arg));
      SwitchIsRead(r, KeyWord(opt.arg), a);
    } else {
      assert OptWords(opt) == [];
    }
  }

  lemma {:induction false} PlainOptsAreRead(r: Reader, opts: seq<Opt>, a: Program)
    requires Knows(a) && Idle(r.mode) && PlainArgs(opts)
    ensures Grown(r, FeedAll(r, AllOptWords(opts), a), Extras(opts))
  {
    if opts != [] {
      var before, last := opts[..|opts| - 1], opts[|opts| - 1];
      var q := FeedAll(r, AllOptWords(before), a);
      PlainOptsAreRead(r, before, a);
      PlainOptIsRead(q, last, a);
      FeedAppend(r, AllOptWords(before), OptWords(last), a);
      GrownTwice(r, q, FeedAll(q, OptWords(last), a), Extras(before), ExtraOf(last));
    }
  }

  lemma {:induction false} TailStep(opts: seq<Opt>)
    requires opts != []
    ensures var before, last := opts[..|opts| - 1], opts[|opts| - 1];
            && TailWords(opts) == (if last.name.Verbose? then TailWords(before) + [VERBOSE]
                                   else if last.name.AskVaultPass? then AllOptWords(before) + [ASK_VAULT_PASS]
                                   else TailWords(before))
            && Repeated(opts) == (if last.name.AskVaultPass? then Extras(before) else Repeated(before))
  {
  }

  /** A switch after words that only brought extra variables. */
  lemma {:induction false} ThenSwitch(r: Reader, words: seq<string>, extras: seq<string>, word: string, a: Program)
    requires Grown(r, FeedAll(r, words, a), extras) && a.how(word) == Complete([])
    ensures Grown(r, FeedAll(r, words + [word], a), extras)
  {
    var q := FeedAll(r, words, a);
    FeedAppend(r, words, [word], a);
    SwitchIsRead(q, word, a);
    GrownTwice(r, q, FeedAll(q, [word], a), extras, []);
    assert extras + [] == extras;
  }

  lemma {:induction false} PlainTailIsRead(r: Reader, opts: seq<Opt>, a: Program)
    requires Knows(a) && Idle(r.mode) && PlainArgs(opts)
    ensures Grown(r, FeedAll(r, TailWords(opts), a), Repeated(opts))
  {
    if opts != [] {
      var before, last := opts[..|opts| - 1], opts[|opts| - 1];
      PlainTailIsRead(r, before, a);
      TailStep(opts);
      if last.name.Verbose? {
        ThenSwitch(r, TailWords(before), Repeated(before), VERBOSE, a);
      } else if last.name.AskVaultPass? {
        PlainOptsAreRead(r, before, a);
        ThenSwitch(r, AllOptWords(before), Extras(before), ASK_VAULT_PASS, a);
      }
    }
  }

  /** Settings whose parts are single words, none of them taken for a flag. */
  predicate PlainSettings(s: Settings) {
    PlainWord(s.inventory) && Word(s.configDir) && PlainWord(s.playbook)
  }

  predicate PlainWord(word: string) {
    Word(word) && !("-" <= word)
  }

  lemma {:induction false} BasePath(baseDir: string, path: string)
    requires PlainWord(baseDir) && Free(path, BLANK)
    ensures PlainWord(baseDir + path)
  {
  }

  lemma {:induction false} InventoryPathIsWord()
    ensures Free("/ansible/inventory/all-in-one", BLANK)
  {
  }

  lemma {:induction false} SitePathIsWord()
    ensures Free("/ansible/site.yml", BLANK)
  {
  }

  lemma {:induction false} ConfigPathIsWord()
    ensures Word("/etc/kubez")
  {
  }

  lemma {:induction false} HostsPathIsWord()
    ensures Free("/ansible/kubernetes-hosts.yml", BLANK)
  {
  }

  lemma {:induction false} PostDeployPathIsWord()
    ensures Free("/ansible/post-deploy.yml", BLANK)
  {
  }

  lemma {:induction false} KeyPathIsWord()
    ensures Free("/ansible/authorized-key.yml", BLANK)
  {
  }

  lemma {:induction false} DefaultsArePlain(baseDir: string)
    requires PlainWord(baseDir)
    ensures PlainSettings(Defaults(baseDir))
  {
    InventoryPathIsWord();
    SitePathIsWord();
    ConfigPathIsWord();
    BasePath(baseDir, "/ansible/inventory/all-in-one");
    BasePath(baseDir, "/ansible/site.yml");
  }

  lemma {:induction false} TurnIsPlain(s: Settings, opt: Opt, raw: string)
    requires PlainSettings(s) && (HasArg(opt.name) ==> PlainArg(opt)) && Turn(s, opt, raw).Ok?
    ensures PlainSettings(Turn(s, opt, raw).value)
  {
  }

  lemma {:induction false} TurnsPlain(opts: seq<Opt>, raw: string, baseDir: string)
    requires PlainWord(baseDir) && PlainArgs(opts) && Turns(Defaults(baseDir), opts, raw).Ok?
    ensures PlainSettings(Turns(Defaults(baseDir), opts, raw).value)
  {
    if opts == [] {
      DefaultsArePlain(baseDir);
    } else {
      TurnsPlain(opts[..|opts| - 1], raw, baseDir);
      TurnIsPlain(Turns(Defaults(baseDir), opts[..|opts| - 1], raw).value, opts[|opts| - 1], raw);
    }
  }

  lemma {:induction false} OwnPlaybookIsPlain(name: string, baseDir: string)
    requires PlainWord(baseDir) && CommandFor(name, baseDir).Some?
    ensures var c := CommandFor(name, baseDir).value; c.playbook.Some? ==> PlainWord(c.playbook.value)
  {
    HostsPathIsWord();
    PostDeployPathIsWord();
    KeyPathIsWord();
    BasePath(baseDir, "/ansible/kubernetes-hosts.yml");
    BasePath(baseDir, "/ansible/post-deploy.yml");
    BasePath(baseDir, "/ansible/authorized-key.yml");
  }

  lemma {:induction false} SettingsWords(s: Settings)
    requires PlainSettings(s)
    ensures forall i :: 0 <= i < |CmdHead(s)| ==> Word(CmdHead(s)[i])
    ensures PlainWord(Globals(s)) && PlainWord(ConfigVar(s))
  {
    FlagWords();
    assert Free("@", BLANK) && Free("/globals.yml", BLANK) && Free("CONFIG_DIR=", BLANK);
    assert Globals(s)[0] == '@' && ConfigVar(s)[0] == 'C';
    NotPrefix("-", Globals(s), 0);
    NotPrefix("-", ConfigVar(s), 0);
  }

  lemma {:induction false} ThreePairs(i: string, x: string, e: string, y: string, z: string, a: Program)
    requires a.how(i) == Waits(false) && a.how(e) == Waits(true)
    requires a.how(x) == a.how(y) == a.how(z) == Operand
    ensures FeedAll(START, [i, x, e, y, e, z], a) == Reader(IDLE, [y, z], [])
  {
    assert [i, x, e, y, e, z] == ([i, x] + [e, y]) + [e, z];
    FeedAppend(START, [i, x] + [e, y], [e, z], a);
    FeedAppend(START, [i, x], [e, y], a);
    PairIsRead(START, i, x, a);
    PairIsRead(START, e, y, a);
    PairIsRead(Reader(IDLE, [y], []), e, z, a);
    assert [] + [y] == [y] && [y] + [z] == [y, z];
  }

  lemma {:induction false} HeadIsRead(s: Settings, a: Program)
    requires Knows(a) && PlainSettings(s)
    ensures FeedAll(START, HeadWords(s), a) == Reader(IDLE, [Globals(s), ConfigVar(s)], [])
  {
    SettingsWords(s);
    WordsOfWords(CmdHead(s)[1..]);
    assert CmdHead(s)[1..] == [INVENTORY_FLAG, s.inventory, EXTRA_FLAG, Globals(s), EXTRA_FLAG, ConfigVar(s)];
    ThreePairs(INVENTORY_FLAG, s.inventory, EXTRA_FLAG, Globals(s), ConfigVar(s), a);
  }

  /** When every value is one word: the extra variables in order, and no flag left waiting. */
  lemma {:induction false} PlainBefore(s: Settings, opts: seq<Opt>, a: Program)
    requires Knows(a) && PlainSettings(s) && PlainArgs(opts)
    ensures Before(s, opts, a) == Reader(IDLE, [Globals(s), ConfigVar(s)] + Extras(opts), [])
  {
    HeadIsRead(s, a);
    FeedAppend(START, HeadWords(s), AllOptWords(opts), a);
    PlainOptsAreRead(Reader(IDLE, [Globals(s), ConfigVar(s)], []), opts, a);
  }

  /** Then one playbook, if it is found, and the repeated extra variables. */
  lemma {:induction false} PlainAfter(playbook: string, opts: seq<Opt>, a: Program)
    requires Knows(a) && PlainArgs(opts) && PlainWord(playbook)
    ensures var after := After(IDLE, playbook, opts, a);
            if a.finds(playbook) then Idle(after.mode) && after.extras == Repeated(opts) && after.playbooks == [playbook]
            else after.mode.stopped
  {
    WordsOfFree(playbook);
    FeedAppend(START, [playbook], TailWords(opts), a);
    FeedOne(START, playbook, a);
    var r := Feed(START, playbook, a);
    if a.finds(playbook) {
      assert [] + [playbook] == [playbook] && [] + Repeated(opts) == Repeated(opts);
      PlainTailIsRead(r, opts, a);
    } else {
      StoppedStays(r, TailWords(opts), a);
    }
  }
}
