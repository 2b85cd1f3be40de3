/** `kubectl get node -o wide` as text, and what `nodes_by_runtime` reads from it. */
module NodeTable {
  import opened Wrappers
  import opened Text

  /** A node: its name, the columns in between (they may contain blanks), and the runtime version, printed last. */
  datatype NodeRow = NodeRow(name: string, columns: string, runtime: string)

  datatype NodeMap = NodeMap(docker: seq<string>, containerd: seq<string>)

  const DOCKER_SCHEME: string := "docker://"
  const CONTAINERD_SCHEME: string := "containerd://"

  predicate ValidRow(r: NodeRow) {
    Word(r.name) && Word(r.runtime) && Free(r.columns, NEWLINE)
  }

  predicate ValidTable(t: seq<NodeRow>) {
    forall i :: 0 <= i < |t| ==> ValidRow(t[i])
  }

  predicate ValidHeader(h: string) {
    h != "" && h[0] !in BLANK && Free(h, NEWLINE)
  }

  function RowText(r: NodeRow): string {
    r.name + [' '] + (r.columns + [' '] + r.runtime)
  }

  function RowTexts(t: seq<NodeRow>): seq<string> {
    if t == [] then [] else RowTexts(t[..|t| - 1]) + [RowText(t[|t| - 1])]
  }

  /** An empty table prints nothing on standard output. */
  function TableText(header: string, t: seq<NodeRow>): string {
    if t == [] then "" else Join([header] + RowTexts(t), "\n") + "\n"
  }

  /** `kube_nodes`: the stripped output without its first line. */
  function NodeLines(stdout: string): seq<string> {
    Lines(Strip(stdout))[1..]
  }

  /** `nodes_by_runtime` over the lines; a blank line has no last item and raises. */
  function SortNodes(lines: seq<string>): Result<NodeMap> {
    if lines == [] then Ok(NodeMap([], []))
    else
      var m :- SortNodes(lines[..|lines| - 1]);
      var items := Words(lines[|lines| - 1]);
      if items == [] then Err("IndexError")
      else Ok(AddNode(m, items[0], items[|items| - 1]))
  }

  function AddNode(m: NodeMap, name: string, runtime: string): NodeMap {
    NodeMap(if DOCKER_SCHEME <= runtime then m.docker + [name] else m.docker,
            if CONTAINERD_SCHEME <= runtime then m.containerd + [name] else m.containerd)
  }

  /** The names of the nodes that run the given runtime, in table order. */
  function NamesWith(t: seq<NodeRow>, scheme: string): seq<string> {
    if t == [] then []
    else
      var names := NamesWith(t[..|t| - 1], scheme);
      if scheme <= t[|t| - 1].runtime then names + [t[|t| - 1].name] else names
  }

  lemma {:induction false} RowTextsShape(t: seq<NodeRow>)
    requires ValidTable(t)
    ensures |RowTexts(t)| == |t| && forall i :: 0 <= i < |t| ==> RowTexts(t)[i] == RowText(t[i])
    ensures AllFree(RowTexts(t), NEWLINE)
  {
    if t != [] {
      RowTextsShape(t[..|t| - 1]);
      var r := t[|t| - 1];
      assert forall c :: c !in BLANK ==> c !in NEWLINE;
      assert Free(RowText(r), NEWLINE);
    }
  }

  lemma {:induction false} RowWords(r: NodeRow)
    requires ValidRow(r)
    ensures Words(RowText(r)) == [r.name] + Words(r.columns) + [r.runtime]
  {
    WordsAt(r.name, ' ', r.columns + [' '] + r.runtime);
    WordsAt(r.columns, ' ', r.runtime);
    WordsOfFree(r.name);
    WordsOfFree(r.runtime);
  }

  lemma {:induction false} TableEnds(header: string, t: seq<NodeRow>)
    requires ValidHeader(header) && ValidTable(t) && t != []
    ensures var body := Join([header] + RowTexts(t), "\n");
            body != "" && body[0] !in BLANK && body[|body| - 1] !in BLANK
  {
    var parts := [header] + RowTexts(t);
    RowTextsShape(t);
    JoinLast(parts, "\n");
    var last := t[|t| - 1];
    assert parts[|parts| - 1] == RowText(last);
    assert RowText(last)[|RowText(last)| - 1] == last.runtime[|last.runtime| - 1];
  }

  /** Stripping, splitting and dropping the header leaves exactly the rows. */
  lemma {:induction false} TableLines(header: string, t: seq<NodeRow>)
    requires ValidHeader(header) && ValidTable(t)
    ensures NodeLines(TableText(header, t)) == RowTexts(t)
  {
    if t == [] {
      SplitFree("", NEWLINE);
    } else {
      var parts := [header] + RowTexts(t);
      var body := Join(parts, "\n");
      TableEnds(header, t);
      StripTrailing(body, '\n');
      RowTextsShape(t);
      SplitOfJoin(parts, '\n');
      assert parts[1..] == RowTexts(t);
    }
  }

  lemma {:induction false} SortRows(t: seq<NodeRow>)
    requires ValidTable(t)
    ensures SortNodes(RowTexts(t)) == Ok(NodeMap(NamesWith(t, DOCKER_SCHEME), NamesWith(t, CONTAINERD_SCHEME)))
  {
    if t != [] {
      var r := t[|t| - 1];
      SortRows(t[..|t| - 1]);
      RowWords(r);
      var lines := RowTexts(t);
      assert lines[..|lines| - 1] == RowTexts(t[..|t| - 1]);
      assert lines[|lines| - 1] == RowText(r);
      var items := Words(RowText(r));
      assert items[0] == r.name && items[|items| - 1] == r.runtime;
    }
  }

  /** Printing a node table and reading it back gives the true names of each runtime. */
  lemma {:induction false} ReadBack(header: string, t: seq<NodeRow>)
    requires ValidHeader(header) && ValidTable(t)
    ensures SortNodes(NodeLines(TableText(header, t))) ==
            Ok(NodeMap(NamesWith(t, DOCKER_SCHEME), NamesWith(t, CONTAINERD_SCHEME)))
  {
    TableLines(header, t);
    SortRows(t);
  }

  lemma {:induction false} NamesWithMembers(t: seq<NodeRow>, scheme: string, name: string)
    ensures name in NamesWith(t, scheme) <==> exists i :: 0 <= i < |t| && t[i].name == name && scheme <= t[i].runtime
  {
    if t != [] {
      var init := t[..|t| - 1];
      NamesWithMembers(init, scheme, name);
      assert forall i :: 0 <= i < |init| ==> init[i] == t[i];
      if i :| 0 <= i < |t| && t[i].name == name && scheme <= t[i].runtime {
        assert i < |init| ==> init[i] == t[i];
      }
    }
  }
}
