/** The Python string operations the modules rely on, and the laws that let rendered text be read back. */
module Text {

  /** White space as `str.split()` and `str.strip()` see it (ASCII). */
  const BLANK: set<char> := {' ', '\t', '\n', '\r', '\U{0B}', '\U{0C}'}
  const NEWLINE: set<char> := {'\n'}

  predicate Free(s: string, seps: set<char>) {
    forall i :: 0 <= i < |s| ==> s[i] !in seps
  }

  /** A token: what `str.split()` can return as one piece. */
  predicate Word(s: string) {
    s != "" && Free(s, BLANK)
  }

  predicate AllFree(parts: seq<string>, seps: set<char>) {
    forall i :: 0 <= i < |parts| ==> Free(parts[i], seps)
  }

  /** `s.split(c)` for one-character separators; empty pieces are kept. */
  function Split(s: string, seps: set<char>): (parts: seq<string>)
    ensures |parts| >= 1
  {
    if s == "" then [""]
    else
      var rest := Split(s[1..], seps);
      if s[0] in seps then [""] + rest else [[s[0]] + rest[0]] + rest[1..]
  }

  function Lines(s: string): seq<string> {
    Split(s, NEWLINE)
  }

  function DropEmpty(parts: seq<string>): seq<string> {
    if parts == [] then []
    else (if parts[0] == "" then [] else [parts[0]]) + DropEmpty(parts[1..])
  }

  /** `s.split()`: maximal runs without white space. */
  function Words(s: string): seq<string> {
    DropEmpty(Split(s, BLANK))
  }

  /** `sep.join(parts)` */
  function Join(parts: seq<string>, sep: string): string {
    if parts == [] then ""
    else if |parts| == 1 then parts[0]
    else parts[0] + sep + Join(parts[1..], sep)
  }

  function Concat<T>(parts: seq<seq<T>>): seq<T> {
    if parts == [] then [] else parts[0] + Concat(parts[1..])
  }

  function WordsOfAll(parts: seq<string>): seq<string> {
    if parts == [] then [] else Words(parts[0]) + WordsOfAll(parts[1..])
  }

  function RStrip(s: string): string {
    if s != "" && s[|s| - 1] in BLANK then RStrip(s[..|s| - 1]) else s
  }

  function LStrip(s: string): string {
    if s != "" && s[0] in BLANK then LStrip(s[1..]) else s
  }

  function Strip(s: string): string {
    LStrip(RStrip(s))
  }

  /** `m in s` */
  predicate Contains(s: string, m: string) {
    exists i :: 0 <= i <= |s| - |m| && OccursAt(s, m, i)
  }

  predicate OccursAt(s: string, m: string, i: nat)
    requires i + |m| <= |s|
  {
    s[i..i + |m|] == m
  }

  /** Position of the first `=`, or the length. */
  function EqualsAt(s: string): (i: nat)
    ensures i <= |s| && '=' !in s[..i] && (i < |s| ==> s[i] == '=')
  {
    if s == "" || s[0] == '=' then 0
    else
      var i := 1 + EqualsAt(s[1..]);
      assert s[..i] == [s[0]] + s[1..][..i - 1];
      i
  }

  lemma {:induction false} EqualsAtFirst(key: string, rest: string)
    requires '=' !in key
    ensures EqualsAt(key + ['='] + rest) == |key| && EqualsAt(key) == |key|
  {
    var s := key + ['='] + rest;
    var i := EqualsAt(s);
    assert s[|key|] == '=';
    assert !(i < |key|) by {
      assert forall k :: 0 <= k < |key| ==> s[k] == key[k];
    }
  }

  lemma {:induction false} SplitFree(s: string, seps: set<char>)
    requires Free(s, seps)
    ensures Split(s, seps) == [s]
  {
    if s != "" {
      SplitFree(s[1..], seps);
      assert s == [s[0]] + s[1..];
    }
  }

  /** A separator cuts the text in two independent halves. */
  lemma {:induction false} SplitAt(a: string, c: char, b: string, seps: set<char>)
    requires c in seps
    ensures Split(a + [c] + b, seps) == Split(a, seps) + Split(b, seps)
  {
    var s := a + [c] + b;
    if a == "" {
      assert s[0] == c && s[1..] == b;
      assert Split(a, seps) == [""];
    } else {
      assert s[0] == a[0] && s[1..] == a[1..] + [c] + b;
      SplitAt(a[1..], c, b, seps);
      SplitStep(s[0], Split(a[1..], seps), Split(b, seps));
    }
  }

  lemma {:induction false} SplitStep(x: char, l: seq<string>, r: seq<string>)
    requires l != []
    ensures [""] + (l + r) == [""] + l + r
    ensures [[x] + (l + r)[0]] + (l + r)[1..] == [[x] + l[0]] + l[1..] + r
  {
    assert (l + r)[1..] == l[1..] + r;
  }

  lemma {:induction false} DropEmptyAppend(a: seq<string>, b: seq<string>)
    ensures DropEmpty(a + b) == DropEmpty(a) + DropEmpty(b)
  {
    if a == [] {
      assert a + b == b;
    } else {
      assert (a + b)[1..] == a[1..] + b;
      DropEmptyAppend(a[1..], b);
    }
  }

  /** Tokenising distributes over every white-space character. */
  lemma {:induction false} WordsAt(a: string, c: char, b: string)
    requires c in BLANK
    ensures Words(a + [c] + b) == Words(a) + Words(b)
  {
    SplitAt(a, c, b, BLANK);
    DropEmptyAppend(Split(a, BLANK), Split(b, BLANK));
  }

  /** The padding between two columns of a printed table. */
  predicate Gap(s: string) {
    s != "" && forall i :: 0 <= i < |s| ==> s[i] in BLANK && s[i] != '\n'
  }

  /** However wide the padding, the words on both sides are those of the columns. */
  lemma {:induction false} WordsGap(a: string, gap: string, b: string)
    requires Gap(gap)
    ensures Words(a + gap + b) == Words(a) + Words(b)
    decreases |gap|
  {
    var c, rest := gap[0], gap[1..];
    assert a + gap + b == a + [c] + (rest + b);
    WordsAt(a, c, rest + b);
    if rest == "" {
      assert rest + b == b;
    } else {
      WordsGap("", rest, b);
      assert "" + rest + b == rest + b;
      WordsOfFree("");
    }
  }

  lemma {:induction false} WordsOfFree(w: string)
    requires Free(w, BLANK)
    ensures Words(w) == if w == "" then [] else [w]
  {
    SplitFree(w, BLANK);
    assert DropEmpty([w]) == (if w == "" then [] else [w]) + DropEmpty([w][1..]);
  }

  /** Tokenising a blank-joined command recovers the tokens of its pieces, in order. */
  lemma {:induction false} WordsOfJoin(parts: seq<string>)
    ensures Words(Join(parts, " ")) == WordsOfAll(parts)
  {
    if parts == [] {
      WordsOfFree("");
    } else if |parts| == 1 {
      assert WordsOfAll(parts[1..]) == [];
    } else {
      WordsOfJoin(parts[1..]);
      WordsAt(parts[0], ' ', Join(parts[1..], " "));
    }
  }

  lemma {:induction false} WordsOfTwo(a: string, b: string)
    ensures Words(Join([a, b], " ")) == Words(a) + Words(b)
  {
    assert [a, b][1..] == [b];
    assert Join([a, b], " ") == a + [' '] + b;
    WordsAt(a, ' ', b);
  }

  lemma {:induction false} NotPrefix(p: string, s: string, k: nat)
    requires k < |p| && (k >= |s| || s[k] != p[k])
    ensures !(p <= s)
  {
  }

  lemma {:induction false} WordsOfAllAppend(a: seq<string>, b: seq<string>)
    ensures WordsOfAll(a + b) == WordsOfAll(a) + WordsOfAll(b)
  {
    if a == [] {
      assert a + b == b;
    } else {
      assert (a + b)[1..] == a[1..] + b;
      WordsOfAllAppend(a[1..], b);
    }
  }

  lemma {:induction false} WordsOfWords(parts: seq<string>)
    requires forall i :: 0 <= i < |parts| ==> Word(parts[i])
    ensures WordsOfAll(parts) == parts
  {
    if parts != [] {
      WordsOfFree(parts[0]);
      WordsOfWords(parts[1..]);
    }
  }

  /** Splitting a joined text on its separator is the identity on non-empty lists. */
  lemma {:induction false} SplitOfJoin(parts: seq<string>, c: char)
    requires parts != [] && AllFree(parts, {c})
    ensures Split(Join(parts, [c]), {c}) == parts
  {
    SplitFree(parts[0], {c});
    if |parts| > 1 {
      SplitOfJoin(parts[1..], c);
      SplitAt(parts[0], c, Join(parts[1..], [c]), {c});
      assert parts == [parts[0]] + parts[1..];
    }
  }

  lemma {:induction false} SplitPiecesFree(s: string, seps: set<char>)
    ensures AllFree(Split(s, seps), seps)
  {
    if s != "" {
      SplitPiecesFree(s[1..], seps);
    }
  }

  /** Joining what a split gives is the identity. */
  lemma {:induction false} JoinOfSplit(s: string, c: char)
    ensures Join(Split(s, {c}), [c]) == s
  {
    if s != "" {
      var rest := Split(s[1..], {c});
      JoinOfSplit(s[1..], c);
      var parts := Split(s, {c});
      if s[0] == c {
        assert parts[1..] == rest;
      } else if |rest| > 1 {
        assert parts[1..] == rest[1..];
      }
    }
  }

  lemma {:induction false} JoinLast(parts: seq<string>, sep: string)
    requires |parts| >= 2
    ensures Join(parts, sep) == Join(parts[..|parts| - 1], sep) + sep + parts[|parts| - 1]
  {
    if |parts| > 2 {
      JoinLast(parts[1..], sep);
      assert parts[1..][..|parts| - 2] == parts[1..|parts| - 1] == parts[..|parts| - 1][1..];
    }
  }

  lemma {:induction false} JoinTwo(a: string, b: string, sep: string)
    ensures Join([a, b], sep) == a + sep + b
  {
    assert [a, b][1..] == [b];
  }

  lemma {:induction false} JoinSnoc(parts: seq<string>, x: string, sep: string)
    requires parts != []
    ensures Join(parts + [x], sep) == Join(parts, sep) + sep + x
  {
    var all := parts + [x];
    JoinLast(all, sep);
    assert all[..|all| - 1] == parts;
  }

  lemma {:induction false} StripTrailing(s: string, c: char)
    requires s != "" && s[0] !in BLANK && s[|s| - 1] !in BLANK && c in BLANK
    ensures Strip(s + [c]) == s && RStrip(s + [c]) == s && Strip(s) == s && RStrip(s) == s
  {
    var t := s + [c];
    assert t[..|t| - 1] == s && t[|t| - 1] == c;
    assert RStrip(s) == s;
    assert RStrip(t) == RStrip(t[..|t| - 1]);
  }

  lemma {:induction false} OccurrenceUses(s: string, m: string, i: nat, p: nat)
    requires i + |m| <= |s| && OccursAt(s, m, i) && i <= p < i + |m|
    ensures s[p] in m
  {
    assert s[p] == s[i..i + |m|][p - i];
  }

  lemma {:induction false} CutLeft(a: string, b: string, i: nat, n: nat)
    requires i + n <= |a|
    ensures (a + b)[i..i + n] == a[i..i + n]
  {
  }

  lemma {:induction false} CutRight(a: string, b: string, i: nat, n: nat)
    requires i + n <= |b|
    ensures (a + b)[|a| + i..|a| + i + n] == b[i..i + n]
  {
  }

  lemma {:induction false} ContainsLeft(a: string, b: string, m: string)
    requires Contains(a, m)
    ensures Contains(a + b, m)
  {
    var i :| 0 <= i <= |a| - |m| && OccursAt(a, m, i);
    CutLeft(a, b, i, |m|);
    assert OccursAt(a + b, m, i);
  }

  lemma {:induction false} ContainsRight(a: string, b: string, m: string)
    requires Contains(b, m)
    ensures Contains(a + b, m)
  {
    var i :| 0 <= i <= |b| - |m| && OccursAt(b, m, i);
    CutRight(a, b, i, |m|);
    assert OccursAt(a + b, m, |a| + i);
  }

  lemma {:induction false} ContainsInOne(a: string, c: char, b: string, m: string)
    requires c !in m && Contains(a + ([c] + b), m)
    ensures Contains(a, m) || Contains([c] + b, m)
  {
    var s, rest := a + ([c] + b), [c] + b;
    var i :| 0 <= i <= |s| - |m| && OccursAt(s, m, i);
    if i + |m| <= |a| {
      CutLeft(a, rest, i, |m|);
      assert OccursAt(a, m, i);
    } else if i >= |a| {
      CutRight(a, rest, i - |a|, |m|);
      assert OccursAt(rest, m, i - |a|);
    } else {
      OccurrenceUses(s, m, i, |a|);
    }
  }

  lemma {:induction false} ContainsAfter(c: char, b: string, m: string)
    requires c !in m && Contains([c] + b, m)
    ensures Contains(b, m)
  {
    var s := [c] + b;
    var i :| 0 <= i <= |s| - |m| && OccursAt(s, m, i);
    if i == 0 {
      if m == "" {
        assert OccursAt(b, m, 0);
      } else {
        OccurrenceUses(s, m, 0, 0);
      }
    } else {
      CutRight([c], b, i - 1, |m|);
      assert OccursAt(b, m, i - 1);
    }
  }

  /** A match that does not use the character `c` lies on one side of it. */
  lemma {:induction false} ContainsAt(a: string, c: char, b: string, m: string)
    requires c !in m
    ensures Contains(a + [c] + b, m) <==> Contains(a, m) || Contains(b, m)
  {
    assert a + [c] + b == a + ([c] + b);
    if Contains(a, m) {
      ContainsLeft(a, [c] + b, m);
    }
    if Contains(b, m) {
      ContainsRight(a + [c], b, m);
    }
    if Contains(a + [c] + b, m) {
      ContainsInOne(a, c, b, m);
      if !Contains(a, m) {
        ContainsAfter(c, b, m);
      }
    }
  }

  /** A blank-free match does not use the padding between two columns. */
  lemma {:induction false} ContainsGap(a: string, gap: string, b: string, m: string)
    requires Gap(gap) && m != "" && Free(m, BLANK)
    ensures Contains(a + gap + b, m) <==> Contains(a, m) || Contains(b, m)
    decreases |gap|
  {
    var c, rest := gap[0], gap[1..];
    assert a + gap + b == a + [c] + (rest + b);
    ContainsAt(a, c, rest + b, m);
    if rest == "" {
      assert rest + b == b;
    } else {
      ContainsGap("", rest, b, m);
      assert "" + rest + b == rest + b;
    }
  }

  /** A blank-free match in a blank-joined text lies inside one of its pieces. */
  lemma {:induction false} ContainsJoin(parts: seq<string>, sep: char, m: string)
    requires m != "" && sep !in m
    ensures Contains(Join(parts, [sep]), m) <==> exists i :: 0 <= i < |parts| && Contains(parts[i], m)
  {
    if |parts| > 1 {
      ContainsJoin(parts[1..], sep, m);
      ContainsAt(parts[0], sep, Join(parts[1..], [sep]), m);
      assert forall i :: 0 < i < |parts| ==> parts[i] == parts[1..][i - 1];
      if i :| 0 <= i < |parts[1..]| && Contains(parts[1..][i], m) {
        assert parts[i + 1] == parts[1..][i];
      }
    }
  }

  /** A text contains what it can be cut around. */
  lemma {:induction false} ContainsMeans(s: string, m: string)
    ensures Contains(s, m) <==> exists a, b :: s == a + m + b
  {
    if i :| 0 <= i <= |s| - |m| && OccursAt(s, m, i) {
      assert s == s[..i] + m + s[i + |m|..];
    }
    if a, b :| s == a + m + b {
      Around(a, m, b);
    }
  }

  lemma {:induction false} Around(a: string, m: string, b: string)
    ensures Contains(a + m + b, m)
  {
    var s := a + m + b;
    assert s[|a|..|a| + |m|] == m;
    assert OccursAt(s, m, |a|);
  }

  lemma {:induction false} ContainsWhole(m: string)
    ensures Contains(m, m)
  {
    assert OccursAt(m, m, 0);
  }

  // ---- Stripped listings

  lemma {:induction false} RStripKeepsHead(a: string, b: string)
    requires RStrip(b) != ""
    ensures RStrip(a + b) == a + RStrip(b)
  {
    if b[|b| - 1] in BLANK {
      assert (a + b)[..|a + b| - 1] == a + b[..|b| - 1];
      RStripKeepsHead(a, b[..|b| - 1]);
    }
  }

  lemma {:induction false} RStripPrefix(s: string)
    ensures RStrip(s) <= s && Words(RStrip(s)) == Words(s)
  {
    if s != "" && s[|s| - 1] in BLANK {
      var t := s[..|s| - 1];
      RStripPrefix(t);
      assert s == t + [s[|s| - 1]] + "";
      WordsAt(t, s[|s| - 1], "");
      WordsOfFree("");
    }
  }

  lemma {:induction false} RStripKeepsWord(w: string, rest: string)
    requires Word(w)
    ensures RStrip(w + rest) != ""
  {
    var s := w + rest;
    if rest != "" && rest[|rest| - 1] in BLANK {
      assert s[..|s| - 1] == w + rest[..|rest| - 1];
      RStripKeepsWord(w, rest[..|rest| - 1]);
    }
  }

  lemma {:induction false} StripNewline(text: string)
    ensures RStrip(text + "\n") == RStrip(text)
  {
    assert (text + "\n")[..|text|] == text;
  }

  /** Stripping a listing only shortens its last line. */
  lemma {:induction false} StrippedListing(lines: seq<string>, last: string)
    requires AllFree(lines, NEWLINE) && Free(last, NEWLINE) && (lines != [] ==> RStrip(last) != "")
    ensures Lines(RStrip(Join(lines + [last], "\n") + "\n")) == lines + [RStrip(last)]
  {
    StripNewline(Join(lines + [last], "\n"));
    RStripPrefix(last);
    if lines == [] {
      assert lines + [last] == [last] && lines + [RStrip(last)] == [RStrip(last)];
      SplitFree(RStrip(last), NEWLINE);
    } else {
      JoinSnoc(lines, last, "\n");
      JoinSnoc(lines, RStrip(last), "\n");
      RStripKeepsHead(Join(lines, "\n") + "\n", last);
      SplitOfJoin(lines + [RStrip(last)], '\n');
    }
  }

  lemma {:induction false} SplitLast<T>(s: seq<T>)
    requires s != []
    ensures s == s[..|s| - 1] + [s[|s| - 1]]
  {
  }

  lemma {:induction false} StrippedLines(lines: seq<string>)
    requires lines != [] && AllFree(lines, NEWLINE) && (|lines| > 1 ==> RStrip(lines[|lines| - 1]) != "")
    ensures Lines(RStrip(Join(lines, "\n") + "\n")) == lines[..|lines| - 1] + [RStrip(lines[|lines| - 1])]
  {
    SplitLast(lines);
    StrippedListing(lines[..|lines| - 1], lines[|lines| - 1]);
  }
}
