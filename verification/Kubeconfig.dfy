/** `get_kube_apiserver`: the address of the API server as it is read off the lines of admin.conf. */
module Kubeconfig {
  import opened Wrappers
  import opened Text

  const SERVER: string := "server"

  predicate HasSlashes(s: string) {
    exists i :: 0 <= i < |s| - 1 && s[i] == '/' && s[i + 1] == '/'
  }

  /** `s.split('//')[-1]` */
  function AfterSlashes(s: string): string {
    if !HasSlashes(s) then s
    else if s[0] == '/' && s[1] == '/' then AfterSlashes(s[2..])
    else AfterSlashes(s[1..])
  }

  /** The address on the first line that starts with the key, its blanks stripped. */
  function FirstServer(lines: seq<string>, key: string): Option<string> {
    if lines == [] then None
    else if key <= Strip(lines[0]) then Some(AfterSlashes(Strip(lines[0])))
    else FirstServer(lines[1..], key)
  }

  function ApiserverIn(text: string): Option<string> {
    FirstServer(Lines(text), SERVER)
  }

  lemma {:induction false} AfterScheme(prefix: string, address: string)
    requires '/' !in prefix && !HasSlashes(address)
    ensures AfterSlashes(prefix + ("//" + address)) == address
  {
    var s := prefix + ("//" + address);
    assert s[|prefix|] == '/' && s[|prefix| + 1] == '/';
    if prefix == "" {
      assert s[2..] == address;
    } else {
      assert s[0] == prefix[0] && s[1..] == prefix[1..] + ("//" + address);
      AfterScheme(prefix[1..], address);
    }
  }

  lemma {:induction false} StripIndent(indent: string, s: string)
    requires (forall i :: 0 <= i < |indent| ==> indent[i] in BLANK) && s != "" && s[0] !in BLANK && s[|s| - 1] !in BLANK
    ensures Strip(indent + s) == s
  {
    assert RStrip(indent + s) == indent + s;
    LStripIndent(indent, s);
  }

  lemma {:induction false} LStripIndent(indent: string, s: string)
    requires (forall i :: 0 <= i < |indent| ==> indent[i] in BLANK) && s != "" && s[0] !in BLANK
    ensures LStrip(indent + s) == s
  {
    if indent == "" {
      assert indent + s == s;
    } else {
      assert (indent + s)[0] == indent[0] && (indent + s)[1..] == indent[1..] + s;
      LStripIndent(indent[1..], s);
    }
  }

  lemma {:induction false} SkipLines(before: seq<string>, rest: seq<string>, key: string)
    requires forall i :: 0 <= i < |before| ==> !(key <= Strip(before[i]))
    ensures FirstServer(before + rest, key) == FirstServer(rest, key)
  {
    if before == [] {
      assert before + rest == rest;
    } else {
      assert (before + rest)[1..] == before[1..] + rest;
      SkipLines(before[1..], rest, key);
    }
  }

  /** `server: https://<address>` on a line of its own. */
  function ServerLine(indent: string, scheme: string, address: string): string {
    indent + ("server" + scheme + ("//" + address))
  }

  lemma {:induction false} ServerLineReads(indent: string, scheme: string, address: string)
    requires (forall i :: 0 <= i < |indent| ==> indent[i] in BLANK) && '/' !in scheme && Word(address) && !HasSlashes(address)
    ensures SERVER <= Strip(ServerLine(indent, scheme, address))
    ensures AfterSlashes(Strip(ServerLine(indent, scheme, address))) == address
  {
    var prefix := SERVER + scheme;
    assert prefix[0] == 's' && '/' !in SERVER;
    StripIndent(indent, prefix + ("//" + address));
    AfterScheme(prefix, address);
    assert prefix + ("//" + address) == SERVER + (scheme + ("//" + address));
  }

  /** Whatever else admin.conf says, its first server line gives the address back. */
  lemma {:induction false} ApiserverReadBack(before: seq<string>, indent: string, scheme: string, address: string, rest: seq<string>)
    requires (forall i :: 0 <= i < |indent| ==> indent[i] in BLANK) && '/' !in scheme && Word(address) && !HasSlashes(address)
    requires AllFree(before + [ServerLine(indent, scheme, address)] + rest, NEWLINE)
    requires forall i :: 0 <= i < |before| ==> !("server" <= Strip(before[i]))
    ensures ApiserverIn(Join(before + [ServerLine(indent, scheme, address)] + rest, "\n")) == Some(address)
  {
    var line := ServerLine(indent, scheme, address);
    var lines := before + [line] + rest;
    SplitOfJoin(lines, '\n');
    assert lines == before + ([line] + rest);
    SkipLines(before, [line] + rest, SERVER);
    ServerLineReads(indent, scheme, address);
  }
}
