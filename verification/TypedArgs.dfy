/** Round trip through getopt: what is typed, in any spelling and order, is parsed as the options and operands meant. */
module TypedArgs {
  import opened Wrappers
  import opened Text
  import opened Getopt

  /** How an option may be typed: `-x v`, `-xv`, `--name v`, `--name=v`. */
  datatype Form = Short | ShortJoined | Long | LongJoined

  /** What is typed, in any order: options and operands. */
  datatype Item = Typed(opt: Opt, form: Form) | Operand(word: string)

  function Letter(name: OptName): Option<char> {
    match name
    case Help => Some('h')
    case Inventory => Some('i')
    case Playbook => Some('p')
    case Tags => Some('t')
    case Key => Some('k')
    case Extra => Some('e')
    case Verbose => Some('v')
    case _ => None
  }

  function FullName(name: OptName): string {
    match name
    case Help => "help"
    case Inventory => "inventory"
    case Playbook => "playbook"
    case SkipTags => "skip-tags"
    case Tags => "tags"
    case Key => "key"
    case Extra => "extra"
    case Verbose => "verbose"
    case ConfigDir => "configdir"
    case Passwords => "passwords"
    case Limit => "limit"
    case Forks => "forks"
    case VaultId => "vault-id"
    case AskVaultPass => "ask-vault-pass"
    case VaultPasswordFile => "vault-password-file"
    case Yes => "yes-i-really-really-mean-it"
    case IncludeImages => "include-images"
    case IncludeDev => "include-dev"
  }

  function Index(name: OptName): (k: nat)
    ensures k < |LONG_OPTS|
  {
    match name
    case Help => 0
    case Inventory => 1
    case Playbook => 2
    case SkipTags => 3
    case Tags => 4
    case Key => 5
    case Extra => 6
    case Verbose => 7
    case ConfigDir => 8
    case Passwords => 9
    case Limit => 10
    case Forks => 11
    case VaultId => 12
    case AskVaultPass => 13
    case VaultPasswordFile => 14
    case Yes => 15
    case IncludeImages => 16
    case IncludeDev => 17
  }

  /** The options whose entry in LONG_OPTS ends in a colon. */
  lemma {:induction false} TakesArgument(name: OptName)
    ensures HasArg(name) <==>
            FullName(name) in {"inventory", "playbook", "skip-tags", "tags", "key", "extra", "configdir", "passwords", "limit",
                               "forks", "vault-id", "vault-password-file"}
  {
  }

  lemma {:induction false} TableHas(name: OptName)
    ensures LONG_OPTS[Index(name)] == (FullName(name), name)
  {
  }

  lemma {:induction false} NamesDiffer(j: nat, k: nat)
    requires j < |LONG_OPTS| && k < |LONG_OPTS| && LONG_OPTS[j].0 == LONG_OPTS[k].0
    ensures j == k
  {
    assert LONG_OPTS[j].0 != "" && |LONG_OPTS[j].0| == |LONG_OPTS[k].0| && LONG_OPTS[j].0[0] == LONG_OPTS[k].0[0];
  }

  /** Every option is known by its full name. */
  lemma {:induction false} FullNameIsKnown(name: OptName)
    ensures LongOpt(LONG_OPTS, FullName(name)) == Ok(name)
  {
    TableHas(name);
    forall j | 0 <= j < |LONG_OPTS| && LONG_OPTS[j].0 == FullName(name)
      ensures j == Index(name)
    {
      NamesDiffer(j, Index(name));
    }
    ExactFinds(LONG_OPTS, FullName(name), Index(name));
  }

  lemma {:induction false} FullNameIsPlain(name: OptName)
    ensures FullName(name) != "" && '=' !in FullName(name)
  {
  }

  lemma {:induction false} LetterIsKnown(name: OptName)
    requires Letter(name).Some?
    ensures ShortOpt(Letter(name).value) == Ok(name) && Letter(name).value != '-'
  {
  }

  function Dashed(c: char): string {
    "-" + [c]
  }

  function DoubleDashed(name: string): string {
    "--" + name
  }

  function WordsOfItem(item: Item): seq<string>
    requires CanBeTyped(item)
  {
    match item
    case Operand(word) => [word]
    case Typed(opt, form) =>
      var arg := if HasArg(opt.name) then [opt.arg] else [];
      match form
      case Short => [Dashed(Letter(opt.name).value)] + arg
      case ShortJoined => [Dashed(Letter(opt.name).value) + opt.arg]
      case Long => [DoubleDashed(FullName(opt.name))] + arg
      case LongJoined => [DoubleDashed(FullName(opt.name)) + "=" + opt.arg]
  }

  /** The option has such a spelling, with an argument exactly where it takes one; an operand does not look like an option. */
  predicate CanBeTyped(item: Item) {
    match item
    case Operand(word) => !("-" <= word) || word == "-"
    case Typed(opt, form) =>
      && (form.Short? || form.ShortJoined? ==> Letter(opt.name).Some?)
      && (form.ShortJoined? ==> opt.arg != "") && (form.ShortJoined? || form.LongJoined? ==> HasArg(opt.name))
      && (!HasArg(opt.name) ==> opt.arg == "")
  }

  predicate CanAllBeTyped(items: seq<Item>) {
    forall i :: 0 <= i < |items| ==> CanBeTyped(items[i])
  }

  function AllWords(items: seq<Item>): seq<string>
    requires CanAllBeTyped(items)
  {
    if items == [] then [] else WordsOfItem(items[0]) + AllWords(items[1..])
  }

  function OptsOf(items: seq<Item>): seq<Opt> {
    if items == [] then [] else (if items[0].Typed? then [items[0].opt] else []) + OptsOf(items[1..])
  }

  function OperandsOf(items: seq<Item>): seq<string> {
    if items == [] then [] else (if items[0].Operand? then [items[0].word] else []) + OperandsOf(items[1..])
  }

  // ---- One item

  lemma {:induction false} ShortIsParsed(c: char, name: OptName, tail: string, following: seq<string>)
    requires ShortOpt(c) == Ok(name) && HasArg(name)
    ensures tail != "" ==> ShortCluster([c] + tail, following) == Ok(Cluster([Opt(name, tail)], 0))
    ensures tail == "" && following != [] ==> ShortCluster([c] + tail, following) == Ok(Cluster([Opt(name, following[0])], 1))
  {
    assert ([c] + tail)[1..] == tail;
  }

  lemma {:induction false} SwitchIsParsed(c: char, name: OptName, following: seq<string>)
    requires ShortOpt(c) == Ok(name) && !HasArg(name)
    ensures ShortCluster([c], following) == Ok(Cluster([Opt(name, "")], 0))
  {
    assert [c][1..] == "" && ShortCluster("", following) == Ok(Cluster([], 0));
    assert [Opt(name, "")] + [] == [Opt(name, "")];
  }

  lemma {:induction false} LongIsParsed(table: seq<(string, OptName)>, full: string, name: OptName, value: string, following: seq<string>)
    requires LongOpt(table, full) == Ok(name) && '=' !in full
    ensures HasArg(name) ==> LongWord(table, full + "=" + value, following) == Ok(Cluster([Opt(name, value)], 0))
    ensures HasArg(name) && following != [] ==> LongWord(table, full, following) == Ok(Cluster([Opt(name, following[0])], 1))
    ensures !HasArg(name) ==> LongWord(table, full, following) == Ok(Cluster([Opt(name, "")], 0))
  {
    EqualsAtFirst(full, value);
    assert full + "=" + value == full + ['='] + value;
    assert (full + "=" + value)[..|full|] == full && (full + "=" + value)[|full| + 1..] == value;
    assert full[..|full|] == full;
  }

  /** What one word of options adds to what the rest is parsed as. */
  lemma {:induction false} WordThenRest(table: seq<(string, OptName)>, word: string, following: seq<string>, c: Cluster, rest: Parsed)
    requires c.used <= |following| && ParseWith(table, following[c.used..]) == Ok(rest)
    requires || (word != "--" && "--" <= word && LongWord(table, word[2..], following) == Ok(c))
             || (!("--" <= word) && "-" <= word && |word| > 1 && ShortCluster(word[1..], following) == Ok(c))
    ensures ParseWith(table, [word] + following) == Ok(Parsed(c.opts + rest.opts, rest.operands))
  {
    var args := [word] + following;
    assert args[0] == word && args[1..] == following && args[1 + c.used..] == following[c.used..];
  }

  lemma {:induction false} OperandThenRest(table: seq<(string, OptName)>, word: string, following: seq<string>, rest: Parsed)
    requires ParseWith(table, following) == Ok(rest) && (!("-" <= word) || word == "-")
    ensures ParseWith(table, [word] + following) == Ok(Parsed(rest.opts, [word] + rest.operands))
  {
    var args := [word] + following;
    assert args[0] == word && args[1..] == following;
    assert "--" <= word ==> "-" <= word && word != "-";
  }

  lemma {:induction false} ShortThenRest(table: seq<(string, OptName)>, c: char, opt: Opt, following: seq<string>, rest: Parsed)
    requires ShortOpt(c) == Ok(opt.name) && c != '-' && (!HasArg(opt.name) ==> opt.arg == "")
    requires ParseWith(table, following) == Ok(rest)
    ensures var words := [Dashed(c)] + if HasArg(opt.name) then [opt.arg] else [];
            ParseWith(table, words + following) == Ok(Parsed([opt] + rest.opts, rest.operands))
  {
    var word := Dashed(c);
    assert word[0] == '-' && word[1..] == [c] + "" == [c];
    NotPrefix("--", word, 1);
    if HasArg(opt.name) {
      var all := [opt.arg] + following;
      assert all[1..] == following;
      ShortIsParsed(c, opt.name, "", all);
      WordThenRest(table, word, all, Cluster([opt], 1), rest);
      assert [word] + all == [word] + [opt.arg] + following;
    } else {
      SwitchIsParsed(c, opt.name, following);
      WordThenRest(table, word, following, Cluster([opt], 0), rest);
      assert [word] + [] + following == [word] + following;
    }
  }

  lemma {:induction false} ShortJoinedThenRest(table: seq<(string, OptName)>, c: char, opt: Opt, following: seq<string>, rest: Parsed)
    requires ShortOpt(c) == Ok(opt.name) && c != '-' && HasArg(opt.name) && opt.arg != "" && ParseWith(table, following) == Ok(rest)
    ensures ParseWith(table, [Dashed(c) + opt.arg] + following) == Ok(Parsed([opt] + rest.opts, rest.operands))
  {
    var word := Dashed(c) + opt.arg;
    assert word[0] == '-' && word[1..] == [c] + opt.arg;
    NotPrefix("--", word, 1);
    ShortIsParsed(c, opt.name, opt.arg, following);
    WordThenRest(table, word, following, Cluster([opt], 0), rest);
  }

  lemma {:induction false} LongThenRest(table: seq<(string, OptName)>, full: string, opt: Opt, following: seq<string>, rest: Parsed)
    requires LongOpt(table, full) == Ok(opt.name) && full != "" && '=' !in full && (!HasArg(opt.name) ==> opt.arg == "")
    requires ParseWith(table, following) == Ok(rest)
    ensures var words := [DoubleDashed(full)] + if HasArg(opt.name) then [opt.arg] else [];
            ParseWith(table, words + following) == Ok(Parsed([opt] + rest.opts, rest.operands))
  {
    var word := DoubleDashed(full);
    assert "--" <= word && word != "--" && word[2..] == full;
    if HasArg(opt.name) {
      var all := [opt.arg] + following;
      assert all[1..] == following;
      LongIsParsed(table, full, opt.name, "", all);
      WordThenRest(table, word, all, Cluster([opt], 1), rest);
      assert [word] + all == [word] + [opt.arg] + following;
    } else {
      LongIsParsed(table, full, opt.name, "", following);
      WordThenRest(table, word, following, Cluster([opt], 0), rest);
      assert [word] + [] + following == [word] + following;
    }
  }

  lemma {:induction false} LongJoinedThenRest(table: seq<(string, OptName)>, full: string, opt: Opt, following: seq<string>, rest: Parsed)
    requires LongOpt(table, full) == Ok(opt.name) && full != "" && '=' !in full && HasArg(opt.name)
    requires ParseWith(table, following) == Ok(rest)
    ensures ParseWith(table, [DoubleDashed(full) + "=" + opt.arg] + following) == Ok(Parsed([opt] + rest.opts, rest.operands))
  {
    var word := DoubleDashed(full) + "=" + opt.arg;
    assert "--" <= word && word != "--" && word[2..] == full + "=" + opt.arg;
    LongIsParsed(table, full, opt.name, opt.arg, following);
    WordThenRest(table, word, following, Cluster([opt], 0), rest);
  }

  lemma {:induction false} ItemThenRest(table: seq<(string, OptName)>, item: Item, following: seq<string>, rest: Parsed)
    requires CanBeTyped(item) && ParseWith(table, following) == Ok(rest)
    requires item.Typed? ==> LongOpt(table, FullName(item.opt.name)) == Ok(item.opt.name)
    ensures ParseWith(table, WordsOfItem(item) + following) ==
            Ok(Parsed((if item.Typed? then [item.opt] else []) + rest.opts, (if item.Operand? then [item.word] else []) + rest.operands))
  {
    match item
    case Operand(word) =>
      OperandThenRest(table, word, following, rest);
      assert [] + rest.opts == rest.opts;
    case Typed(opt, form) =>
      assert [] + rest.operands == rest.operands;
      FullNameIsPlain(opt.name);
      if Letter(opt.name).Some? {
        LetterIsKnown(opt.name);
      }
      match form
      case Short => ShortThenRest(table, Letter(opt.name).value, opt, following, rest);
      case ShortJoined => ShortJoinedThenRest(table, Letter(opt.name).value, opt, following, rest);
      case Long => LongThenRest(table, FullName(opt.name), opt, following, rest);
      case LongJoined => LongJoinedThenRest(table, FullName(opt.name), opt, following, rest);
  }

  lemma {:induction false} RoundTripWith(table: seq<(string, OptName)>, items: seq<Item>)
    requires CanAllBeTyped(items) && forall name :: LongOpt(table, FullName(name)) == Ok(name)
    ensures ParseWith(table, AllWords(items)) == Ok(Parsed(OptsOf(items), OperandsOf(items)))
  {
    if items != [] {
      RoundTripWith(table, items[1..]);
      ItemThenRest(table, items[0], AllWords(items[1..]), Parsed(OptsOf(items[1..]), OperandsOf(items[1..])));
    }
  }

  /** Whatever is typed, options in any spelling and operands anywhere between them, is parsed as what was meant, in order. */
  lemma {:induction false} RoundTrip(items: seq<Item>)
    requires CanAllBeTyped(items)
    ensures Parse(AllWords(items)) == Ok(Parsed(OptsOf(items), OperandsOf(items)))
  {
    forall name
      ensures LongOpt(LONG_OPTS, FullName(name)) == Ok(name)
    {
      FullNameIsKnown(name);
    }
    RoundTripWith(LONG_OPTS, items);
  }
}
