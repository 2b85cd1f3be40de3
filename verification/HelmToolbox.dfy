/** ansible/library/helm_toolbox.py: installing and removing charts, guarded by a substring test on `helm list`. */
module HelmToolbox {
  import opened Wrappers
  import opened Text

  /** A release of one namespace: its name, and the columns printed after the namespace. */
  datatype Release = Release(name: string, columns: string)

  predicate NameChar(c: char) {
    'a' <= c <= 'z' || '0' <= c <= '9' || c == '-' || c == '.'
  }

  /** Helm's release names: lower case, digits, dashes and dots. */
  predicate ReleaseName(name: string) {
    name != "" && forall i :: 0 <= i < |name| ==> NameChar(name[i])
  }

  /** The header of the listing is upper case. */
  predicate ValidHeader(header: string) {
    header != "" && header[0] !in BLANK && forall i :: 0 <= i < |header| ==> header[i] != '\n' && !NameChar(header[i])
  }

  /** After the namespace comes more padding. */
  predicate ValidRelease(r: Release) {
    ReleaseName(r.name) && Free(r.columns, NEWLINE) && r.columns != "" && r.columns[0] in BLANK
  }

  predicate ValidReleases(rows: seq<Release>) {
    forall i :: 0 <= i < |rows| ==> ValidRelease(rows[i])
  }

  /** How `helm list` lays a table out: its header and the padding after each name, whatever they depend on. */
  datatype Layout = Layout(header: seq<Release> -> string, gaps: seq<Release> -> (string -> string))

  ghost predicate ValidLayout(l: Layout) {
    && (forall rows :: ValidHeader(l.header(rows)))
    && forall rows, name :: Gap(l.gaps(rows)(name))
  }

  ghost predicate ValidGaps(gaps: string -> string) {
    forall name :: Gap(gaps(name))
  }

  function RowText(namespace: string, r: Release, gap: string): string {
    r.name + gap + (namespace + r.columns)
  }

  function RowTexts(gaps: string -> string, namespace: string, rows: seq<Release>): seq<string> {
    if rows == [] then []
    else [RowText(namespace, rows[0], gaps(rows[0].name))] + RowTexts(gaps, namespace, rows[1..])
  }

  function ListingText(layout: Layout, namespace: string, rows: seq<Release>): string {
    Join([layout.header(rows)] + RowTexts(layout.gaps(rows), namespace, rows), "\n") + "\n"
  }

  predicate AnyLine(lines: seq<string>, name: string, namespace: string) {
    exists i :: 0 <= i < |lines| && Contains(lines[i], name) && Contains(lines[i], namespace)
  }

  /** `is_installed`: some line of the stripped listing contains both strings. */
  predicate IsInstalled(stdout: string, name: string, namespace: string) {
    AnyLine(Lines(RStrip(stdout)), name, namespace)
  }

  function Names(rows: seq<Release>): set<string> {
    set r | r in rows :: r.name
  }

  /** The row mentions the string, as its own name or anywhere else. */
  predicate Mentions(namespace: string, r: Release, name: string) {
    Contains(r.name, name) || Contains(namespace + r.columns, name)
  }

  lemma {:induction false} NameIsFree(name: string)
    requires ReleaseName(name)
    ensures Free(name, BLANK)
  {
  }

  /** However the row is padded. */
  lemma {:induction false} RowMentions(namespace: string, r: Release, gap: string, name: string)
    requires Gap(gap) && ReleaseName(name)
    ensures Contains(RowText(namespace, r, gap), name) <==> Mentions(namespace, r, name)
  {
    NameIsFree(name);
    ContainsGap(r.name, gap, namespace + r.columns, name);
  }

  /** No other row mentions the name. */
  predicate Unambiguous(namespace: string, rows: seq<Release>, name: string) {
    forall i :: 0 <= i < |rows| && rows[i].name != name ==> !Mentions(namespace, rows[i], name)
  }

  lemma {:induction false} RowTextsShape(gaps: string -> string, namespace: string, rows: seq<Release>)
    requires ValidReleases(rows) && ReleaseName(namespace) && ValidGaps(gaps)
    ensures |RowTexts(gaps, namespace, rows)| == |rows| && AllFree(RowTexts(gaps, namespace, rows), NEWLINE)
    ensures forall i :: 0 <= i < |rows| ==>
              RowTexts(gaps, namespace, rows)[i] == RowText(namespace, rows[i], gaps(rows[i].name))
  {
    if rows != [] {
      RowTextsShape(gaps, namespace, rows[1..]);
      RowIsOneLine(namespace, rows[0], gaps(rows[0].name));
    }
  }

  lemma {:induction false} RowIsOneLine(namespace: string, r: Release, gap: string)
    requires ValidRelease(r) && ReleaseName(namespace) && Gap(gap)
    ensures Free(RowText(namespace, r, gap), NEWLINE) && RowText(namespace, r, gap)[0] == r.name[0]
  {
    assert forall c :: NameChar(c) ==> c !in NEWLINE;
  }

  /** Stripping the end of a text does not touch the blank-free strings in it. */
  lemma {:induction false} StripKeepsMatches(s: string, m: string)
    requires m != "" && Free(m, BLANK)
    ensures Contains(RStrip(s), m) <==> Contains(s, m)
  {
    if s != "" && s[|s| - 1] in BLANK {
      var t, c := s[..|s| - 1], s[|s| - 1];
      StripKeepsMatches(t, m);
      assert s == t + [c] + "";
      ContainsAt(t, c, "", m);
    }
  }

  lemma {:induction false} RStripHead(s: string)
    requires s != "" && s[0] !in BLANK
    ensures RStrip(s) != "" && RStrip(s) <= s
  {
    if s[|s| - 1] in BLANK {
      RStripHead(s[..|s| - 1]);
    }
  }

  /** The lines of a stripped listing contain what the printed lines contain. */
  lemma {:induction false} StrippedMatches(lines: seq<string>, m: string)
    requires lines != [] && AllFree(lines, NEWLINE) && lines[|lines| - 1] != "" && lines[|lines| - 1][0] !in BLANK
    requires m != "" && Free(m, BLANK)
    ensures var read := Lines(RStrip(Join(lines, "\n") + "\n"));
            |read| == |lines| && forall i :: 0 <= i < |lines| ==> (Contains(read[i], m) <==> Contains(lines[i], m))
  {
    RStripHead(lines[|lines| - 1]);
    StrippedLines(lines);
    StripKeepsMatches(lines[|lines| - 1], m);
  }

  lemma {:induction false} StrippedAnyLine(lines: seq<string>, name: string, namespace: string)
    requires lines != [] && AllFree(lines, NEWLINE) && lines[|lines| - 1] != "" && lines[|lines| - 1][0] !in BLANK
    requires ReleaseName(name) && ReleaseName(namespace)
    ensures IsInstalled(Join(lines, "\n") + "\n", name, namespace) <==> AnyLine(lines, name, namespace)
  {
    StrippedMatches(lines, name);
    StrippedMatches(lines, namespace);
  }

  lemma {:induction false} RowMentionsItsParts(namespace: string, r: Release)
    requires ReleaseName(r.name) && ReleaseName(namespace)
    ensures Mentions(namespace, r, r.name) && Mentions(namespace, r, namespace)
  {
    ContainsWhole(r.name);
    ContainsWhole(namespace);
    ContainsLeft(namespace, r.columns, namespace);
  }

  lemma {:induction false} HeaderMentionsNoName(header: string, name: string)
    requires ValidHeader(header) && ReleaseName(name)
    ensures !Contains(header, name)
  {
    forall i | 0 <= i <= |header| - |name|
      ensures !OccursAt(header, name, i)
    {
      assert NameChar(name[0]) && !NameChar(header[i]);
      assert header[i..i + |name|][0] == header[i];
    }
  }

  /** On every listing, however padded, a release is taken for installed exactly when some row mentions its name. */
  lemma {:induction false} InstalledIffMentioned(layout: Layout, namespace: string, rows: seq<Release>, name: string)
    requires ValidListing(layout, namespace, rows) && ReleaseName(name)
    ensures IsInstalled(ListingText(layout, namespace, rows), name, namespace) <==>
            exists i :: 0 <= i < |rows| && Mentions(namespace, rows[i], name)
  {
    var header, gaps := layout.header(rows), layout.gaps(rows);
    var lines := [header] + RowTexts(gaps, namespace, rows);
    RowTextsShape(gaps, namespace, rows);
    LastLineShows(header, gaps, namespace, rows);
    StrippedAnyLine(lines, name, namespace);
    HeaderMentionsNoName(header, name);
    LinesMention(header, gaps, namespace, rows, name);
  }

  lemma {:induction false} LastLineShows(header: string, gaps: string -> string, namespace: string, rows: seq<Release>)
    requires ValidHeader(header) && ValidReleases(rows) && ReleaseName(namespace) && ValidGaps(gaps)
    ensures var lines := [header] + RowTexts(gaps, namespace, rows);
            lines[|lines| - 1] != "" && lines[|lines| - 1][0] !in BLANK
  {
    RowTextsShape(gaps, namespace, rows);
    if rows != [] {
      var r := rows[|rows| - 1];
      RowIsOneLine(namespace, r, gaps(r.name));
      assert NameChar(r.name[0]) && forall c :: NameChar(c) ==> c !in BLANK;
    }
  }

  /** Off the header, a printed line has both strings exactly when its row mentions the name. */
  lemma {:induction false} LinesMention(header: string, gaps: string -> string, namespace: string, rows: seq<Release>, name: string)
    requires !Contains(header, name) && ValidReleases(rows) && ReleaseName(namespace) && ReleaseName(name) && ValidGaps(gaps)
    ensures AnyLine([header] + RowTexts(gaps, namespace, rows), name, namespace) <==>
            exists i :: 0 <= i < |rows| && Mentions(namespace, rows[i], name)
  {
    var lines := [header] + RowTexts(gaps, namespace, rows);
    RowTextsShape(gaps, namespace, rows);
    forall i | 0 <= i < |rows|
      ensures Contains(lines[i + 1], name) <==> Mentions(namespace, rows[i], name)
      ensures Contains(lines[i + 1], namespace)
    {
      RowMentions(namespace, rows[i], gaps(rows[i].name), name);
      RowMentions(namespace, rows[i], gaps(rows[i].name), namespace);
      RowMentionsItsParts(namespace, rows[i]);
    }
    if i :| 0 <= i < |rows| && Mentions(namespace, rows[i], name) {
      assert Contains(lines[i + 1], name) && Contains(lines[i + 1], namespace);
    }
    if i :| 0 <= i < |lines| && Contains(lines[i], name) && Contains(lines[i], namespace) {
      assert i > 0 && Mentions(namespace, rows[i - 1], name);
    }
  }

  /** So there are no false negatives, and false positives come exactly from another row that mentions the name. */
  lemma {:induction false} NoFalseNegatives(layout: Layout, namespace: string, rows: seq<Release>, name: string)
    requires ValidListing(layout, namespace, rows) && ReleaseName(name)
    ensures IsInstalled(ListingText(layout, namespace, rows), name, namespace) <==>
            name in Names(rows) || !Unambiguous(namespace, rows, name)
  {
    InstalledIffMentioned(layout, namespace, rows, name);
    if name in Names(rows) {
      var i :| 0 <= i < |rows| && rows[i].name == name;
      RowMentionsItsParts(namespace, rows[i]);
    }
  }

  // ---- Sequences of present and absent

  datatype Op = Present(release: Release) | Absent(name: string)

  function OpName(op: Op): string {
    if op.Present? then op.release.name else op.name
  }

  predicate ValidOp(op: Op) {
    ReleaseName(OpName(op)) && (op.Present? ==> ValidRelease(op.release))
  }

  function Without(rows: seq<Release>, name: string): seq<Release> {
    if rows == [] then []
    else (if rows[0].name == name then [] else [rows[0]]) + Without(rows[1..], name)
  }

  /** What one call does to the releases; uninstalling a release that does not exist raises. */
  datatype Effect = Effect(rows: seq<Release>, changed: bool, raised: bool)

  function Step(layout: Layout, namespace: string, rows: seq<Release>, op: Op): Effect {
    var installed := IsInstalled(ListingText(layout, namespace, rows), OpName(op), namespace);
    match op
    case Present(release) =>
      if installed then Effect(rows, false, false) else Effect(rows + [release], true, false)
    case Absent(name) =>
      if !installed then Effect(rows, false, false)
      else if name in Names(rows) then Effect(Without(rows, name), true, false)
      else Effect(rows, false, true)
  }

  function SetStep(names: set<string>, op: Op): set<string> {
    match op
    case Present(release) => names + {release.name}
    case Absent(name) => names - {name}
  }

  lemma {:induction false} WithoutRemoves(rows: seq<Release>, name: string)
    ensures Names(Without(rows, name)) == Names(rows) - {name}
    ensures ValidReleases(rows) ==> ValidReleases(Without(rows, name))
  {
    if rows != [] {
      WithoutRemoves(rows[1..], name);
      assert rows == [rows[0]] + rows[1..];
      assert Names(rows) == {rows[0].name} + Names(rows[1..]);
      var kept := if rows[0].name == name then [] else [rows[0]];
      assert Names(kept + Without(rows[1..], name)) == Names(kept) + Names(Without(rows[1..], name));
    }
  }

  ghost predicate ValidListing(layout: Layout, namespace: string, rows: seq<Release>) {
    ValidLayout(layout) && ReleaseName(namespace) && ValidReleases(rows)
  }

  /**
   One call refines set insertion or removal and does not raise exactly when the release is listed or no other
   row mentions its name; `changed` then reports exactly a change of the set.
   */
  lemma {:induction false} StepRefinesIff(layout: Layout, namespace: string, rows: seq<Release>, op: Op)
    requires ValidListing(layout, namespace, rows) && ValidOp(op)
    ensures var e := Step(layout, namespace, rows, op);
            && ((!e.raised && Names(e.rows) == SetStep(Names(rows), op)) <==>
                 OpName(op) in Names(rows) || Unambiguous(namespace, rows, OpName(op)))
            && (e.changed <==> Names(e.rows) != Names(rows))
            && ValidReleases(e.rows)
  {
    var name := OpName(op);
    NoFalseNegatives(layout, namespace, rows, name);
    WithoutRemoves(rows, name);
    if op.Present? {
      assert Names(rows + [op.release]) == Names(rows) + {name} by {
        assert op.release in rows + [op.release];
      }
    }
  }

  function RunNames(names: set<string>, ops: seq<Op>): set<string>
    decreases |ops|
  {
    if ops == [] then names else RunNames(SetStep(names, ops[0]), ops[1..])
  }

  function Run(layout: Layout, namespace: string, rows: seq<Release>, ops: seq<Op>): seq<Release>
    decreases |ops|
  {
    if ops == [] then rows else Run(layout, namespace, Step(layout, namespace, rows, ops[0]).rows, ops[1..])
  }

  predicate UnambiguousRun(layout: Layout, namespace: string, rows: seq<Release>, ops: seq<Op>)
    decreases |ops|
  {
    ops == [] ||
    ((OpName(ops[0]) in Names(rows) || Unambiguous(namespace, rows, OpName(ops[0])))
     && UnambiguousRun(layout, namespace, Step(layout, namespace, rows, ops[0]).rows, ops[1..]))
  }

  /** Over every sequence of calls that is unambiguous where it happens, the releases are those of a plain set. */
  lemma {:induction false} RunRefinesSet(layout: Layout, namespace: string, rows: seq<Release>, ops: seq<Op>)
    requires ValidListing(layout, namespace, rows) && (forall i :: 0 <= i < |ops| ==> ValidOp(ops[i]))
    requires UnambiguousRun(layout, namespace, rows, ops)
    ensures Names(Run(layout, namespace, rows, ops)) == RunNames(Names(rows), ops)
    decreases |ops|
  {
    if ops != [] {
      StepRefinesIff(layout, namespace, rows, ops[0]);
      RunRefinesSet(layout, namespace, Step(layout, namespace, rows, ops[0]).rows, ops[1..]);
    }
  }

  predicate OneRowPerName(rows: seq<Release>) {
    forall i, j :: 0 <= i < j < |rows| ==> rows[i].name != rows[j].name
  }

  lemma {:induction false} WithoutKeepsOrder(rows: seq<Release>, name: string)
    requires OneRowPerName(rows)
    ensures OneRowPerName(Without(rows, name))
  {
    if rows != [] {
      WithoutKeepsOrder(rows[1..], name);
      WithoutRemoves(rows[1..], name);
      var rest := Without(rows[1..], name);
      forall i | 0 <= i < |rest|
        ensures rest[i].name != rows[0].name
      {
        assert rest[i].name in Names(rest);
      }
    }
  }

  /** Ambiguous or not, no sequence of calls ever installs a release that is listed. */
  lemma {:induction false} NeverInstalledTwice(layout: Layout, namespace: string, rows: seq<Release>, ops: seq<Op>)
    requires ValidListing(layout, namespace, rows) && (forall i :: 0 <= i < |ops| ==> ValidOp(ops[i]))
    requires OneRowPerName(rows)
    ensures OneRowPerName(Run(layout, namespace, rows, ops))
    decreases |ops|
  {
    if ops != [] {
      var next := Step(layout, namespace, rows, ops[0]).rows;
      StepRefinesIff(layout, namespace, rows, ops[0]);
      NoFalseNegatives(layout, namespace, rows, OpName(ops[0]));
      WithoutKeepsOrder(rows, OpName(ops[0]));
      assert OneRowPerName(next) by {
        forall i | 0 <= i < |rows|
          ensures rows[i].name in Names(rows)
        {
        }
      }
      NeverInstalledTwice(layout, namespace, next, ops[1..]);
    }
  }

  /** A listed release whose columns mention another name keeps that other one from ever being installed. */
  lemma {:induction false} MentionBlocksInstall(layout: Layout, namespace: string, other: Release, release: Release)
    requires ValidListing(layout, namespace, [other]) && ValidRelease(release) && other.name != release.name
    requires Mentions(namespace, other, release.name)
    ensures Step(layout, namespace, [other], Present(release)) == Effect([other], false, false)
  {
    var rows := [other];
    assert rows[0] == other;
    InstalledIffMentioned(layout, namespace, rows, release.name);
  }

  // ---- The module

  /** Helm itself, for one namespace. */
  class HelmClient {
    const layout: Layout
    const namespace: string
    var rows: seq<Release>

    constructor (layout: Layout, namespace: string)
      ensures this.layout == layout && this.namespace == namespace && rows == []
    {
      this.layout, this.namespace, rows := layout, namespace, [];
    }

    method List() returns (stdout: string)
      ensures stdout == ListingText(layout, namespace, rows)
    {
      stdout := ListingText(layout, namespace, rows);
    }

    method Install(release: Release)
      modifies this
      ensures rows == old(rows) + [release]
    {
      rows := rows + [release];
    }

    method Uninstall(name: string) returns (r: Result<()>)
      modifies this
      ensures if name in Names(old(rows)) then r.Ok? && rows == Without(old(rows), name) else r.Err? && rows == old(rows)
    {
      if name in Names(rows) {
        rows := Without(rows, name);
        return Ok(());
      }
      return Err("release: not found");
    }
  }

  datatype Repository = Repository(name: string, url: string)

  class Helm3Worker {
    const helm: HelmClient
    const release: Release
    const repository: Option<Repository>
    const hasChart: bool
    var changed: bool
    var repos: set<string>

    constructor (helm: HelmClient, release: Release, repository: Option<Repository>, hasChart: bool, repos: set<string>)
      ensures this.helm == helm && this.release == release && this.repository == repository && this.hasChart == hasChart
      ensures !changed && this.repos == repos
    {
      this.helm, this.release, this.repository, this.hasChart := helm, release, repository, hasChart;
      changed, this.repos := false, repos;
    }

    method IsInstalledNow() returns (installed: bool)
      ensures installed == IsInstalled(ListingText(helm.layout, helm.namespace, helm.rows), release.name, helm.namespace)
    {
      var stdout := helm.List();
      var charts := Split(RStrip(stdout), NEWLINE);
      for i := 0 to |charts|
        invariant !AnyLine(charts[..i], release.name, helm.namespace)
      {
        if Contains(charts[i], release.name) && Contains(charts[i], helm.namespace) {
          return true;
        }
      }
      assert charts[..|charts|] == charts;
      return false;
    }

    method AddRepo() returns (r: Result<()>)
      modifies this`repos
      ensures r.Err? <==> repository.Some? && (repository.value.name == "" || repository.value.url == "")
      ensures repos == old(repos) + if r.Ok? && repository.Some? then {repository.value.name} else {}
    {
      if repository.None? {
        return Ok(());
      }
      if repository.value.name == "" || repository.value.url == "" {
        return Err("name or url not provided when add repository");
      }
      repos := repos + {repository.value.name};
      return Ok(());
    }

    method RemoveRepo() returns (r: Result<()>)
      modifies this`repos, this`changed
      ensures r.Err? <==> repository.Some? && (repository.value.name == "" || repository.value.name !in old(repos))
      ensures repos == old(repos) - if r.Ok? && repository.Some? then {repository.value.name} else {}
      ensures changed == (old(changed) || (r.Ok? && repository.Some?))
    {
      if repository.None? {
        return Ok(());
      }
      if repository.value.name == "" {
        return Err("name not provided when remove repository");
      }
      if repository.value.name !in repos {
        return Err("no repo named " + repository.value.name);
      }
      repos := repos - {repository.value.name};
      changed := true;
      return Ok(());
    }

    method PresentChart() returns (r: Result<()>)
      modifies this, helm
      ensures var e := Step(helm.layout, helm.namespace, old(helm.rows), Present(release));
              if r.Ok? && hasChart then helm.rows == e.rows && changed == (old(changed) || e.changed)
              else helm.rows == old(helm.rows) && changed == old(changed)
      ensures r.Err? <==> repository.Some? && (repository.value.name == "" || repository.value.url == "")
    {
      var _ :- AddRepo();
      if hasChart {
        var installed := IsInstalledNow();
        if !installed {
          helm.Install(release);
          changed := true;
        }
      }
      return Ok(());
    }

    method AbsentChart() returns (r: Result<()>)
      modifies this, helm
      ensures var e := Step(helm.layout, helm.namespace, old(helm.rows), Absent(release.name));
              var noRepo := repository.Some? && (repository.value.name == "" || repository.value.name !in old(repos));
              && (r.Err? <==> noRepo || e.raised)
              && helm.rows == (if r.Ok? then e.rows else old(helm.rows))
              && repos == (if repository.Some? && !noRepo then old(repos) - {repository.value.name} else old(repos))
              && changed == (old(changed) || (!noRepo && (repository.Some? || e.changed)))
    {
      var _ :- RemoveRepo();
      var installed := IsInstalledNow();
      if installed {
        var _ :- helm.Uninstall(release.name);
        changed := true;
      }
      return Ok(());
    }
  }
}
