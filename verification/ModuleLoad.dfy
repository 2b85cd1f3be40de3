/** ansible/roles/module-load: separate loops load the modules, write their files, drop files, and edit /etc/modules. */
module ModuleLoad {
  import Text

  type Name = string

  datatype Module = Module(name: Name, params: string, present: bool)

  /** A host: loaded modules, files under /etc/modules-load.d (if it exists), and the lines of /etc/modules. */
  datatype Host = Host(loaded: set<Name>, files: set<Name>, lines: set<string>, hasDirectory: bool)

  function Line(m: Module): string {
    m.name + " " + m.params
  }

  function Toggle<T>(s: set<T>, x: T, present: bool): set<T> {
    if present then s + {x} else s - {x}
  }

  /** A line of /etc/modules is read as the module and its parameters. */
  lemma {:induction false} LineIsRead(m: Module)
    requires Text.Word(m.name)
    ensures Text.Words(Line(m)) == [m.name] + Text.Words(m.params)
  {
    assert Line(m) == m.name + [' '] + m.params;
    Text.WordsAt(m.name, ' ', m.params);
    Text.WordsOfFree(m.name);
  }

  // ---- The loops of the role

  function Load(h: Host, ms: seq<Module>): Host {
    if ms == [] then h
    else
      var b, m := Load(h, ms[..|ms| - 1]), ms[|ms| - 1];
      b.(loaded := Toggle(b.loaded, m.name, m.present))
  }

  function Persist(h: Host, ms: seq<Module>): Host {
    if ms == [] then h
    else
      var b, m := Persist(h, ms[..|ms| - 1]), ms[|ms| - 1];
      if b.hasDirectory && m.present then b.(files := b.files + {m.name}) else b
  }

  function Drop(h: Host, ms: seq<Module>): Host {
    if ms == [] then h
    else
      var b, m := Drop(h, ms[..|ms| - 1]), ms[|ms| - 1];
      if b.hasDirectory && !m.present then b.(files := b.files - {m.name}) else b
  }

  function Edit(h: Host, ms: seq<Module>): Host {
    if ms == [] then h
    else
      var b, m := Edit(h, ms[..|ms| - 1]), ms[|ms| - 1];
      if b.hasDirectory then b else b.(lines := Toggle(b.lines, Line(m), m.present))
  }

  function Passes(h: Host, ms: seq<Module>): Host {
    Edit(Drop(Persist(Load(h, ms), ms), ms), ms)
  }

  /** One pass that finishes each module before the next. */
  function Fused(h: Host, ms: seq<Module>): Host {
    if ms == [] then h
    else
      var b, m := Fused(h, ms[..|ms| - 1]), ms[|ms| - 1];
      if b.hasDirectory then
        b.(loaded := Toggle(b.loaded, m.name, m.present), files := Toggle(b.files, m.name, m.present))
      else
        b.(loaded := Toggle(b.loaded, m.name, m.present), lines := Toggle(b.lines, Line(m), m.present))
  }

  // ---- What each loop leaves behind

  predicate Asked(ms: seq<Module>, n: Name, present: bool) {
    exists i :: 0 <= i < |ms| && ms[i].name == n && ms[i].present == present
  }

  predicate Named(ms: seq<Module>, n: Name) {
    exists i :: 0 <= i < |ms| && ms[i].name == n
  }

  /** What the last entry for a module asks for. */
  function LastAsk(ms: seq<Module>, n: Name): bool
    requires Named(ms, n)
  {
    if ms[|ms| - 1].name == n then ms[|ms| - 1].present
    else
      LastAsk(ms[..|ms| - 1], n)
  }

  lemma {:induction false} LoadOutcome(h: Host, ms: seq<Module>, n: Name)
    ensures n in Load(h, ms).loaded <==> if Named(ms, n) then LastAsk(ms, n) else n in h.loaded
    ensures Load(h, ms) == h.(loaded := Load(h, ms).loaded)
  {
    if ms != [] {
      LoadOutcome(h, ms[..|ms| - 1], n);
    }
  }

  lemma {:induction false} PersistOutcome(h: Host, ms: seq<Module>, n: Name)
    ensures n in Persist(h, ms).files <==> n in h.files || (h.hasDirectory && Asked(ms, n, true))
    ensures Persist(h, ms) == h.(files := Persist(h, ms).files)
  {
    if ms != [] {
      PersistOutcome(h, ms[..|ms| - 1], n);
    }
  }

  lemma {:induction false} DropOutcome(h: Host, ms: seq<Module>, n: Name)
    ensures n in Drop(h, ms).files <==> n in h.files && !(h.hasDirectory && Asked(ms, n, false))
    ensures Drop(h, ms) == h.(files := Drop(h, ms).files)
  {
    if ms != [] {
      DropOutcome(h, ms[..|ms| - 1], n);
    }
  }

  lemma {:induction false} EditOutcome(h: Host, ms: seq<Module>)
    ensures Edit(h, ms) == h.(lines := Edit(h, ms).lines)
    ensures h.hasDirectory ==> Edit(h, ms) == h
  {
    if ms != [] {
      EditOutcome(h, ms[..|ms| - 1]);
    }
  }

  lemma {:induction false} EditOnlyReadsLines(g: Host, h: Host, ms: seq<Module>)
    requires g.lines == h.lines && g.hasDirectory == h.hasDirectory
    ensures Edit(g, ms).lines == Edit(h, ms).lines && Edit(g, ms).hasDirectory == h.hasDirectory == Edit(h, ms).hasDirectory
  {
    if ms != [] {
      EditOnlyReadsLines(g, h, ms[..|ms| - 1]);
    }
  }

  lemma {:induction false} FusedOutcome(h: Host, ms: seq<Module>, n: Name)
    ensures Fused(h, ms).loaded == Load(h, ms).loaded && Fused(h, ms).hasDirectory == h.hasDirectory
    ensures Fused(h, ms).lines == Edit(h, ms).lines
    ensures n in Fused(h, ms).files <==> if h.hasDirectory && Named(ms, n) then LastAsk(ms, n) else n in h.files
  {
    if ms != [] {
      FusedOutcome(h, ms[..|ms| - 1], n);
      EditOnlyReadsLines(h, h, ms[..|ms| - 1]);
    }
  }

  /** The separate loops: last entry decides what is loaded; any removal decides what stays persisted. */
  lemma {:induction false} PassesOutcome(h: Host, ms: seq<Module>, n: Name)
    ensures var p := Passes(h, ms);
            && (n in p.loaded <==> if Named(ms, n) then LastAsk(ms, n) else n in h.loaded)
            && (n in p.files <==> if !h.hasDirectory then n in h.files
                                  else !Asked(ms, n, false) && (n in h.files || Asked(ms, n, true)))
            && p.lines == Edit(h, ms).lines && p.loaded == Load(h, ms).loaded && p.hasDirectory == h.hasDirectory
  {
    var l := Load(h, ms);
    var q := Persist(l, ms);
    var d := Drop(q, ms);
    LoadOutcome(h, ms, n);
    PersistOutcome(l, ms, n);
    DropOutcome(q, ms, n);
    EditOutcome(d, ms);
    EditOnlyReadsLines(d, h, ms);
  }

  /** No module is asked to be present last and to be absent anywhere. */
  predicate Agreeing(ms: seq<Module>) {
    forall i :: 0 <= i < |ms| && LastAsk(ms, ms[i].name) ==> !Asked(ms, ms[i].name, false)
  }

  lemma {:induction false} LastAskIsAsked(ms: seq<Module>, n: Name)
    requires Named(ms, n)
    ensures Asked(ms, n, LastAsk(ms, n))
  {
    if ms[|ms| - 1].name != n {
      LastAskIsAsked(ms[..|ms| - 1], n);
    }
  }

  lemma {:induction false} SameFilesIff(h: Host, ms: seq<Module>, n: Name)
    requires h.hasDirectory
    ensures (n in Passes(h, ms).files <==> n in Fused(h, ms).files) <==>
            (Named(ms, n) && LastAsk(ms, n) ==> !Asked(ms, n, false))
  {
    PassesOutcome(h, ms, n);
    FusedOutcome(h, ms, n);
    if Named(ms, n) {
      LastAskIsAsked(ms, n);
    } else {
      assert !Asked(ms, n, true) && !Asked(ms, n, false);
    }
  }

  /** The separate loops equal the one pass exactly when the directory is missing or no module is asked both ways, present last. */
  lemma {:induction false} PassesFuseIff(h: Host, ms: seq<Module>)
    ensures Passes(h, ms) == Fused(h, ms) <==> !h.hasDirectory || Agreeing(ms)
  {
    var p, f := Passes(h, ms), Fused(h, ms);
    PassesOutcome(h, ms, "");
    FusedOutcome(h, ms, "");
    forall n
      ensures !h.hasDirectory ==> (n in p.files <==> n in f.files)
      ensures h.hasDirectory ==>
                ((n in p.files <==> n in f.files) <==> (Named(ms, n) && LastAsk(ms, n) ==> !Asked(ms, n, false)))
    {
      PassesOutcome(h, ms, n);
      FusedOutcome(h, ms, n);
      if h.hasDirectory {
        SameFilesIff(h, ms, n);
      }
    }
    if h.hasDirectory && !Agreeing(ms) {
      var i :| 0 <= i < |ms| && LastAsk(ms, ms[i].name) && Asked(ms, ms[i].name, false);
      assert !(ms[i].name in p.files <==> ms[i].name in f.files);
    }
    if h.hasDirectory && Agreeing(ms) {
      forall n
        ensures n in p.files <==> n in f.files
      {
        if Named(ms, n) {
          var i :| 0 <= i < |ms| && ms[i].name == n;
        }
      }
    }
    assert (forall n :: n in p.files <==> n in f.files) ==> p.files == f.files;
  }

  predicate DistinctNames(ms: seq<Module>) {
    forall i, j :: 0 <= i < j < |ms| ==> ms[i].name != ms[j].name
  }

  lemma {:induction false} DistinctAgree(ms: seq<Module>)
    requires DistinctNames(ms)
    ensures Agreeing(ms)
  {
    forall i | 0 <= i < |ms| && LastAsk(ms, ms[i].name)
      ensures !Asked(ms, ms[i].name, false)
    {
      LastAskIsAsked(ms, ms[i].name);
      var k :| 0 <= k < |ms| && ms[k].name == ms[i].name && ms[k].present;
    }
  }

  /** With distinct names: one pass, every named module loaded and persisted exactly as asked, no other name touched. */
  lemma {:induction false} DistinctOutcome(h: Host, ms: seq<Module>)
    requires DistinctNames(ms)
    ensures Passes(h, ms) == Fused(h, ms)
    ensures var p := Passes(h, ms);
            forall i :: 0 <= i < |ms| ==> (ms[i].name in p.loaded <==> ms[i].present)
                                          && (h.hasDirectory ==> (ms[i].name in p.files <==> ms[i].present))
    ensures var p := Passes(h, ms);
            forall n :: !Named(ms, n) ==> (n in p.loaded <==> n in h.loaded) && (n in p.files <==> n in h.files)
    ensures var p := Passes(h, ms);
            if h.hasDirectory then p.lines == h.lines
            else DistinctLines(ms) ==> LinesAsAsked(h, p, ms)
  {
    DistinctLinesOutcome(h, ms);
    DistinctAgree(ms);
    PassesFuseIff(h, ms);
    var p := Passes(h, ms);
    forall i | 0 <= i < |ms|
      ensures (ms[i].name in p.loaded <==> ms[i].present) && (h.hasDirectory ==> (ms[i].name in p.files <==> ms[i].present))
    {
      PassesOutcome(h, ms, ms[i].name);
      FusedOutcome(h, ms, ms[i].name);
      LastAskIsAsked(ms, ms[i].name);
      var k :| 0 <= k < |ms| && ms[k].name == ms[i].name && ms[k].present == LastAsk(ms, ms[i].name);
      assert k == i;
    }
    forall n | !Named(ms, n)
      ensures (n in p.loaded <==> n in h.loaded) && (n in p.files <==> n in h.files)
    {
      PassesOutcome(h, ms, n);
      FusedOutcome(h, ms, n);
    }
  }

  /** Every module's line is there as asked, and no other line is touched. */
  predicate LinesAsAsked(before: Host, after: Host, ms: seq<Module>) {
    && (forall i :: 0 <= i < |ms| ==> (Line(ms[i]) in after.lines <==> ms[i].present))
    && forall line :: line in before.lines + after.lines && (forall i :: 0 <= i < |ms| ==> Line(ms[i]) != line) ==>
         (line in after.lines <==> line in before.lines)
  }

  lemma {:induction false} DistinctLinesOutcome(h: Host, ms: seq<Module>)
    ensures var p := Passes(h, ms);
            if h.hasDirectory then p.lines == h.lines
            else DistinctLines(ms) ==> LinesAsAsked(h, p, ms)
  {
    PassesOutcome(h, ms, "");
    EditOutcome(h, ms);
    if !h.hasDirectory && DistinctLines(ms) {
      EditSettles(h, ms, Edit(h, ms));
      forall line | forall i :: 0 <= i < |ms| ==> Line(ms[i]) != line
        ensures line in Edit(h, ms).lines <==> line in h.lines
      {
        OtherLinesStay(h, ms, line);
      }
    }
  }

  lemma {:induction false} OtherLinesStay(h: Host, ms: seq<Module>, line: string)
    requires forall i :: 0 <= i < |ms| ==> Line(ms[i]) != line
    ensures line in Edit(h, ms).lines <==> line in h.lines
  {
    if ms != [] {
      OtherLinesStay(h, ms[..|ms| - 1], line);
    }
  }

  lemma {:induction false} EditSettles(h: Host, ms: seq<Module>, g: Host)
    requires !h.hasDirectory && g == Edit(h, ms) && DistinctLines(ms)
    ensures forall i :: 0 <= i < |ms| ==> (Line(ms[i]) in g.lines <==> ms[i].present)
  {
    if ms != [] {
      var before := ms[..|ms| - 1];
      EditOutcome(h, before);
      EditSettles(h, before, Edit(h, before));
    }
  }

  predicate DistinctLines(ms: seq<Module>) {
    forall i, j :: 0 <= i < j < |ms| ==> Line(ms[i]) != Line(ms[j])
  }

  lemma {:induction false} EditIsQuiet(g: Host, ms: seq<Module>)
    requires g.hasDirectory || forall i :: 0 <= i < |ms| ==> (Line(ms[i]) in g.lines <==> ms[i].present)
    ensures Edit(g, ms) == g
  {
    if ms != [] {
      EditIsQuiet(g, ms[..|ms| - 1]);
    }
  }

  /** Running the role a second time changes nothing. */
  lemma {:induction false} SecondRunChangesNothing(h: Host, ms: seq<Module>)
    requires DistinctNames(ms) && DistinctLines(ms)
    ensures Passes(Passes(h, ms), ms) == Passes(h, ms)
  {
    var p := Passes(h, ms);
    var q := Passes(p, ms);
    PassesOutcome(h, ms, "");
    PassesOutcome(p, ms, "");
    forall n
      ensures (n in q.loaded <==> n in p.loaded) && (n in q.files <==> n in p.files)
    {
      PassesOutcome(h, ms, n);
      PassesOutcome(p, ms, n);
    }
    EditOutcome(h, ms);
    if !h.hasDirectory {
      EditSettles(h, ms, Edit(h, ms));
    }
    EditIsQuiet(p, ms);
    assert q.loaded == p.loaded && q.files == p.files;
  }

  /** Removing and then adding the same module in one list leaves it loaded but not persisted. */
  lemma {:induction false} AbsentThenPresentIsNotPersisted(h: Host, n: Name, params: string)
    requires h.hasDirectory
    ensures var ms := [Module(n, params, false), Module(n, params, true)];
            n in Passes(h, ms).loaded && n !in Passes(h, ms).files && n in Fused(h, ms).files
  {
    var ms := [Module(n, params, false), Module(n, params, true)];
    assert ms[0].name == n && !ms[0].present && ms[1].name == n;
    assert Named(ms, n) && LastAsk(ms, n) && Asked(ms, n, false);
    PassesOutcome(h, ms, n);
    FusedOutcome(h, ms, n);
  }

  // ---- The role

  class KernelModules {
    var loaded: set<Name>
    var files: set<Name>
    var lines: set<string>
    const hasDirectory: bool

    function Now(): Host
      reads this
    {
      Host(loaded, files, lines, hasDirectory)
    }

    constructor (h: Host)
      ensures Now() == h
    {
      loaded, files, lines, hasDirectory := h.loaded, h.files, h.lines, h.hasDirectory;
    }

    /** The block runs for every action but `config`. */
    method Run(kubeAction: string, modules: seq<Module>)
      modifies this
      ensures Now() == if kubeAction != "config" then Passes(old(Now()), modules) else old(Now())
    {
      if kubeAction != "config" {
        LoadModules(modules);
        PersistModules(modules);
        DropPersistence(modules);
        PersistInEtcModules(modules);
      }
    }

    method LoadModules(modules: seq<Module>)
      modifies this
      ensures Now() == Load(old(Now()), modules)
    {
      for i := 0 to |modules|
        invariant Now() == Load(old(Now()), modules[..i])
      {
        assert modules[..i + 1][..i] == modules[..i];
        if modules[i].present {
          loaded := loaded + {modules[i].name};
        } else {
          loaded := loaded - {modules[i].name};
        }
      }
      assert modules[..|modules|] == modules;
    }

    method PersistModules(modules: seq<Module>)
      modifies this
      ensures Now() == Persist(old(Now()), modules)
    {
      for i := 0 to |modules|
        invariant Now() == Persist(old(Now()), modules[..i])
      {
        assert modules[..i + 1][..i] == modules[..i];
        if hasDirectory && modules[i].present {
          files := files + {modules[i].name};
        }
      }
      assert modules[..|modules|] == modules;
    }

    method DropPersistence(modules: seq<Module>)
      modifies this
      ensures Now() == Drop(old(Now()), modules)
    {
      for i := 0 to |modules|
        invariant Now() == Drop(old(Now()), modules[..i])
      {
        assert modules[..i + 1][..i] == modules[..i];
        if hasDirectory && !modules[i].present {
          files := files - {modules[i].name};
        }
      }
      assert modules[..|modules|] == modules;
    }

    method PersistInEtcModules(modules: seq<Module>)
      modifies this
      ensures Now() == Edit(old(Now()), modules)
    {
      for i := 0 to |modules|
        invariant Now() == Edit(old(Now()), modules[..i])
      {
        assert modules[..i + 1][..i] == modules[..i];
        if !hasDirectory {
          if modules[i].present {
            lines := lines + {Line(modules[i])};
          } else {
            lines := lines - {Line(modules[i])};
          }
        }
      }
      assert modules[..|modules|] == modules;
    }
  }
}
