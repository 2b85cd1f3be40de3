/** getopt(1) as tools/kubez-ansible calls it: long options may be abbreviated, operands are moved to the end. */
module Getopt {
  import opened Wrappers
  import opened Text

  datatype OptName =
    | Help | Inventory | Playbook | SkipTags | Tags | Key | Extra | Verbose | ConfigDir | Passwords | Limit | Forks
    | VaultId | AskVaultPass | VaultPasswordFile | Yes | IncludeImages | IncludeDev

  /** An option after getopt: its expanded name and its argument. */
  datatype Opt = Opt(name: OptName, arg: string)

  datatype Parsed = Parsed(opts: seq<Opt>, operands: seq<string>)

  const LONG_OPTS: seq<(string, OptName)> :=
    [("help", Help), ("inventory", Inventory), ("playbook", Playbook), ("skip-tags", SkipTags), ("tags", Tags),
     ("key", Key), ("extra", Extra), ("verbose", Verbose), ("configdir", ConfigDir), ("passwords", Passwords),
     ("limit", Limit), ("forks", Forks), ("vault-id", VaultId), ("ask-vault-pass", AskVaultPass),
     ("vault-password-file", VaultPasswordFile), ("yes-i-really-really-mean-it", Yes),
     ("include-images", IncludeImages), ("include-dev", IncludeDev)]

  predicate HasArg(name: OptName) {
    name !in {Help, Verbose, AskVaultPass, Yes, IncludeImages, IncludeDev}
  }

  function ShortOpt(c: char): Result<OptName> {
    match c
    case 'h' => Ok(Help)
    case 'i' => Ok(Inventory)
    case 'p' => Ok(Playbook)
    case 't' => Ok(Tags)
    case 'k' => Ok(Key)
    case 'e' => Ok(Extra)
    case 'v' => Ok(Verbose)
    case _ => Err("invalid option")
  }

  function Exact(table: seq<(string, OptName)>, name: string): seq<OptName> {
    if table == [] then []
    else (if table[0].0 == name then [table[0].1] else []) + Exact(table[1..], name)
  }

  function Abbreviated(table: seq<(string, OptName)>, name: string): seq<OptName> {
    if table == [] then []
    else (if name <= table[0].0 then [table[0].1] else []) + Abbreviated(table[1..], name)
  }

  /** A long option is known by its full name, or by a prefix that no other option shares. */
  function LongOpt(table: seq<(string, OptName)>, name: string): Result<OptName> {
    var exact, short := Exact(table, name), Abbreviated(table, name);
    if exact != [] then Ok(exact[0])
    else if |short| == 1 then Ok(short[0])
    else Err(if short == [] then "unrecognized option" else "ambiguous option")
  }

  /** One word of short options; `used` tells how many of the following words became arguments. */
  datatype Cluster = Cluster(opts: seq<Opt>, used: nat)

  function ShortCluster(letters: string, following: seq<string>): (r: Result<Cluster>)
    ensures r.Ok? ==> r.value.used <= 1 && r.value.used <= |following|
  {
    if letters == "" then Ok(Cluster([], 0))
    else
      var name :- ShortOpt(letters[0]);
      if !HasArg(name) then
        var rest :- ShortCluster(letters[1..], following);
        Ok(Cluster([Opt(name, "")] + rest.opts, rest.used))
      else if |letters| > 1 then Ok(Cluster([Opt(name, letters[1..])], 0))
      else if following == [] then Err("option requires an argument")
      else Ok(Cluster([Opt(name, following[0])], 1))
  }

  function LongWord(table: seq<(string, OptName)>, body: string, following: seq<string>): (r: Result<Cluster>)
    ensures r.Ok? ==> r.value.used <= 1 && r.value.used <= |following|
  {
    var i := EqualsAt(body);
    var name :- LongOpt(table, body[..i]);
    if i < |body| then
      if HasArg(name) then Ok(Cluster([Opt(name, body[i + 1..])], 0)) else Err("option doesn't allow an argument")
    else if !HasArg(name) then Ok(Cluster([Opt(name, "")], 0))
    else if following == [] then Err("option requires an argument")
    else Ok(Cluster([Opt(name, following[0])], 1))
  }

  function ParseWith(table: seq<(string, OptName)>, args: seq<string>): Result<Parsed>
    decreases |args|
  {
    if args == [] then Ok(Parsed([], []))
    else if args[0] == "--" then Ok(Parsed([], args[1..]))
    else if "--" <= args[0] || ("-" <= args[0] && |args[0]| > 1) then
      var word :- if "--" <= args[0] then LongWord(table, args[0][2..], args[1..]) else ShortCluster(args[0][1..], args[1..]);
      var rest :- ParseWith(table, args[1 + word.used..]);
      Ok(Parsed(word.opts + rest.opts, rest.operands))
    else
      var rest :- ParseWith(table, args[1..]);
      Ok(Parsed(rest.opts, [args[0]] + rest.operands))
  }

  function Parse(args: seq<string>): Result<Parsed> {
    ParseWith(LONG_OPTS, args)
  }

  lemma {:induction false} AbbreviatedSound(table: seq<(string, OptName)>, name: string, i: nat)
    requires i < |Abbreviated(table, name)|
    ensures exists k :: 0 <= k < |table| && name <= table[k].0 && table[k].1 == Abbreviated(table, name)[i]
  {
    if !(name <= table[0].0) {
      AbbreviatedSound(table[1..], name, i);
      var k :| 0 <= k < |table[1..]| && name <= table[1..][k].0 && table[1..][k].1 == Abbreviated(table[1..], name)[i];
      assert table[k + 1] == table[1..][k];
    } else if i > 0 {
      AbbreviatedSound(table[1..], name, i - 1);
      var k :| 0 <= k < |table[1..]| && name <= table[1..][k].0 && table[1..][k].1 == Abbreviated(table[1..], name)[i - 1];
      assert table[k + 1] == table[1..][k];
    }
  }

  lemma {:induction false} AbbreviatedComplete(table: seq<(string, OptName)>, name: string, k: nat)
    requires k < |table| && name <= table[k].0
    ensures table[k].1 in Abbreviated(table, name)
  {
    if k > 0 {
      AbbreviatedComplete(table[1..], name, k - 1);
    }
  }

  lemma {:induction false} ExactIsAbbreviated(table: seq<(string, OptName)>, name: string)
    ensures forall x :: x in Exact(table, name) ==> x in Abbreviated(table, name)
  {
    if table != [] {
      ExactIsAbbreviated(table[1..], name);
    }
  }

  /** An accepted word is a prefix of the option it stands for, in any table; and an accepted abbreviation is nobody else's. */
  lemma {:induction false} LongOptSound(table: seq<(string, OptName)>, name: string)
    requires LongOpt(table, name).Ok?
    ensures exists k :: 0 <= k < |table| && name <= table[k].0 && table[k].1 == LongOpt(table, name).value
    ensures Exact(table, name) == [] ==>
              forall k :: 0 <= k < |table| && name <= table[k].0 ==> table[k].1 == LongOpt(table, name).value
  {
    var x := LongOpt(table, name).value;
    ExactIsAbbreviated(table, name);
    var short := Abbreviated(table, name);
    assert x in short;
    var i :| 0 <= i < |short| && short[i] == x;
    AbbreviatedSound(table, name, i);
    forall k | 0 <= k < |table| && name <= table[k].0
      ensures table[k].1 in short
    {
      AbbreviatedComplete(table, name, k);
    }
  }

  lemma {:induction false} ExactFinds(table: seq<(string, OptName)>, name: string, k: nat)
    requires k < |table| && table[k].0 == name && forall j :: 0 <= j < |table| && table[j].0 == name ==> j == k
    ensures Exact(table, name) == [table[k].1]
  {
    if k == 0 {
      ExactMisses(table[1..], name);
    } else {
      assert table[0].0 != name;
      ExactFinds(table[1..], name, k - 1);
    }
  }

  lemma {:induction false} ExactMisses(table: seq<(string, OptName)>, name: string)
    requires forall j :: 0 <= j < |table| ==> table[j].0 != name
    ensures Exact(table, name) == []
  {
    if table != [] {
      ExactMisses(table[1..], name);
    }
  }

  /** An option whose name starts like no other is found by its full name. */
  lemma {:induction false} FullNameFound(table: seq<(string, OptName)>, name: string, k: nat, following: seq<string>)
    requires k < |table| && table[k].0 == name && name != "" && '=' !in name && !HasArg(table[k].1)
    requires forall j :: 0 <= j < |table| ==> table[j].0 != "" && (table[j].0[0] == name[0] ==> j == k)
    ensures LongWord(table, name, following) == Ok(Cluster([Opt(table[k].1, "")], 0))
  {
    ExactFinds(table, name, k);
    assert name[..|name|] == name;
  }

  lemma {:induction false} AskVaultPassWord(following: seq<string>)
    ensures LongWord(LONG_OPTS, "ask-vault-pass", following) == Ok(Cluster([Opt(AskVaultPass, "")], 0))
  {
    FullNameFound(LONG_OPTS, "ask-vault-pass", 13, following);
  }

  lemma {:induction false} ParseShortWithArg(table: seq<(string, OptName)>, args: seq<string>, c: char, name: OptName)
    requires |args| >= 2 && args[0] == ['-', c] && c != '-' && ShortOpt(c) == Ok(name) && HasArg(name)
    requires ParseWith(table, args[2..]).Ok?
    ensures var rest := ParseWith(table, args[2..]).value;
            ParseWith(table, args) == Ok(Parsed([Opt(name, args[1])] + rest.opts, rest.operands))
  {
    NotPrefix("--", args[0], 1);
    assert "-" <= args[0];
    assert args[0][1..] == [c] && args[1..][0] == args[1];
    assert ShortCluster([c], args[1..]) == Ok(Cluster([Opt(name, args[1])], 1));
  }
}
