/** `kubeadm token list` as text, and the scan `get_token` makes over it. */
module TokenTable {
  import opened Wrappers
  import opened Text
  import opened Decimal

  const BOOTSTRAPPERS: string := "system:bootstrappers"

  /** A token row: the token, the padding after it, its TTL column (`23h`, `<invalid>`, ...), and the remaining columns. */
  datatype TokenRow = TokenRow(token: string, gap: string, ttl: string, columns: string)

  predicate ValidRow(r: TokenRow) {
    Word(r.token) && Gap(r.gap) && Word(r.ttl) && Free(r.columns, NEWLINE)
  }

  predicate ValidTable(rows: seq<TokenRow>) {
    forall i :: 0 <= i < |rows| ==> ValidRow(rows[i])
  }

  function RowText(r: TokenRow): string {
    r.token + r.gap + (r.ttl + [' '] + r.columns)
  }

  function RowTexts(rows: seq<TokenRow>): seq<string> {
    if rows == [] then [] else [RowText(rows[0])] + RowTexts(rows[1..])
  }

  function TableText(header: string, rows: seq<TokenRow>): string {
    Join([header] + RowTexts(rows) + [""], "\n")
  }

  /** `int(s)`: an optional sign and digits; anything else raises. */
  function ParseInt(s: string): Result<int> {
    var digits := if s != "" && s[0] in {'+', '-'} then s[1..] else s;
    if digits == "" || !AllDigits(digits) then Err("ValueError")
    else
      var n: int := DecValue(digits);
      Ok(if s[0] == '-' then -n else n)
  }

  /** The number in a TTL column: everything but the unit letter. */
  function TtlValue(ttl: string): Result<int> {
    if ttl == "" then Err("ValueError") else ParseInt(ttl[..|ttl| - 1])
  }

  /** The lines the scan looks at. */
  function Candidates(stdout: string): seq<string> {
    if Contains(stdout, BOOTSTRAPPERS) then Lines(stdout)[1..] else []
  }

  /** The scan: the first bootstrap line with a positive TTL, skipping blank and other lines. */
  function Scan(lines: seq<string>): Result<Option<string>> {
    if lines == [] then Ok(None)
    else if lines[0] == "" || !Contains(lines[0], BOOTSTRAPPERS) then Scan(lines[1..])
    else
      var words := Words(lines[0]);
      if |words| < 2 || words[1] == "" then Err("IndexError")
      else
        var ttl :- TtlValue(words[1]);
        if ttl > 0 then Ok(Some(words[0])) else Scan(lines[1..])
  }

  /** A row `get_token` may return. */
  predicate Bootstrap(r: TokenRow) {
    Contains(RowText(r), BOOTSTRAPPERS)
  }

  predicate Readable(r: TokenRow) {
    TtlValue(r.ttl).Ok?
  }

  predicate Live(r: TokenRow) {
    Bootstrap(r) && Readable(r) && TtlValue(r.ttl).value > 0
  }

  /** The row ends the scan: it is live, or a bootstrap row whose TTL is not a number. */
  predicate Decides(r: TokenRow) {
    Live(r) || (Bootstrap(r) && !Readable(r))
  }

  /** The first row that decides the scan. */
  function Deciding(rows: seq<TokenRow>): (i: nat)
    ensures i <= |rows|
    ensures i < |rows| ==> Decides(rows[i])
    ensures forall k :: 0 <= k < i ==> !Decides(rows[k])
  {
    if rows == [] || Decides(rows[0]) then 0
    else
      var later := Deciding(rows[1..]);
      assert forall k :: 1 <= k <= later ==> rows[k] == rows[1..][k - 1];
      1 + later
  }

  lemma {:induction false} RowWords(r: TokenRow)
    requires ValidRow(r)
    ensures Words(RowText(r)) == [r.token, r.ttl] + Words(r.columns)
  {
    WordsGap(r.token, r.gap, r.ttl + [' '] + r.columns);
    WordsAt(r.ttl, ' ', r.columns);
    WordsOfFree(r.token);
    WordsOfFree(r.ttl);
  }

  lemma {:induction false} RowTextsFree(rows: seq<TokenRow>)
    requires ValidTable(rows)
    ensures |RowTexts(rows)| == |rows| && AllFree(RowTexts(rows), NEWLINE)
  {
    if rows != [] {
      RowTextsFree(rows[1..]);
      assert Free(RowText(rows[0]), NEWLINE);
    }
  }

  lemma {:induction false} TableLines(header: string, rows: seq<TokenRow>)
    requires Free(header, NEWLINE) && ValidTable(rows)
    ensures Lines(TableText(header, rows)) == [header] + RowTexts(rows) + [""]
  {
    RowTextsFree(rows);
    SplitOfJoin([header] + RowTexts(rows) + [""], '\n');
  }

  /** The scan over printed rows stops at the deciding row: its token if it is live, an exception if not. */
  lemma {:induction false} ScanRows(rows: seq<TokenRow>)
    requires ValidTable(rows)
    ensures var i := Deciding(rows);
            Scan(RowTexts(rows) + [""]) ==
            if i == |rows| then Ok(None)
            else if Live(rows[i]) then Ok(Some(rows[i].token))
            else Err("ValueError")
  {
    var lines := RowTexts(rows) + [""];
    if rows == [] {
      assert lines == [""] && lines[1..] == [];
    } else {
      var r := rows[0];
      assert lines[0] == RowText(r) && lines[1..] == RowTexts(rows[1..]) + [""];
      RowWords(r);
      assert Words(RowText(r))[0] == r.token && Words(RowText(r))[1] == r.ttl;
      ScanRows(rows[1..]);
    }
  }

  lemma {:induction false} MarkedTable(header: string, rows: seq<TokenRow>, i: nat)
    requires i < |rows| && Bootstrap(rows[i])
    ensures Contains(TableText(header, rows), BOOTSTRAPPERS)
  {
    var parts := [header] + RowTexts(rows) + [""];
    RowTextAt(rows, i);
    assert parts[i + 1] == RowText(rows[i]);
    assert '\n' !in BOOTSTRAPPERS;
    ContainsJoin(parts, '\n', BOOTSTRAPPERS);
  }

  lemma {:induction false} RowTextAt(rows: seq<TokenRow>, i: nat)
    requires i < |rows|
    ensures |RowTexts(rows)| == |rows| && RowTexts(rows)[i] == RowText(rows[i])
  {
    if i > 0 {
      RowTextAt(rows[1..], i - 1);
    } else if |rows| > 1 {
      RowTextAt(rows[1..], 0);
    }
  }

  /** What the scan makes of every printed token table. */
  lemma {:induction false} ScanTable(header: string, rows: seq<TokenRow>)
    requires Free(header, NEWLINE) && ValidTable(rows)
    ensures var i := Deciding(rows);
            Scan(Candidates(TableText(header, rows))) ==
            if i == |rows| then Ok(None)
            else if Live(rows[i]) then Ok(Some(rows[i].token))
            else Err("ValueError")
  {
    var i := Deciding(rows);
    ScanRows(rows);
    if Contains(TableText(header, rows), BOOTSTRAPPERS) {
      CandidateLines(header, rows);
    } else if i < |rows| {
      MarkedTable(header, rows, i);
    }
  }

  lemma {:induction false} CandidateLines(header: string, rows: seq<TokenRow>)
    requires Free(header, NEWLINE) && ValidTable(rows) && Contains(TableText(header, rows), BOOTSTRAPPERS)
    ensures Candidates(TableText(header, rows)) == RowTexts(rows) + [""]
  {
    TableLines(header, rows);
    assert ([header] + RowTexts(rows) + [""])[1..] == RowTexts(rows) + [""];
  }

  /** Tokens never contain a colon, so the mark that makes a row a bootstrap row is in its last columns. */
  lemma {:induction false} BootstrapInColumns(r: TokenRow)
    requires Gap(r.gap) && ':' !in r.token && ':' !in r.ttl
    ensures Bootstrap(r) <==> Contains(r.columns, BOOTSTRAPPERS)
  {
    assert Free(BOOTSTRAPPERS, BLANK);
    NoColonNoMark(r.token);
    NoColonNoMark(r.ttl);
    MarkInColumns(r, BOOTSTRAPPERS);
  }

  lemma {:induction false} MarkInColumns(r: TokenRow, mark: string)
    requires Gap(r.gap) && mark != "" && Free(mark, BLANK) && !Contains(r.token, mark) && !Contains(r.ttl, mark)
    ensures Contains(RowText(r), mark) <==> Contains(r.columns, mark)
  {
    ContainsGap(r.token, r.gap, r.ttl + [' '] + r.columns, mark);
    ContainsAt(r.ttl, ' ', r.columns, mark);
  }

  lemma {:induction false} NoColonNoMark(s: string)
    requires ':' !in s
    ensures !Contains(s, BOOTSTRAPPERS)
  {
    assert BOOTSTRAPPERS[6] == ':';
    assert !Free(BOOTSTRAPPERS, {':'});
  }

  /** A TTL printed as a number and a unit letter is readable, and positive when the number is. */
  lemma {:induction false} NumericTtl(n: nat, unit: char)
    ensures TtlValue(Dec(n) + [unit]) == Ok(n)
  {
    var ttl := Dec(n) + [unit];
    assert ttl[..|ttl| - 1] == Dec(n);
    DecValueOfDec(n);
    assert IsDigit(Dec(n)[0]);
  }

  /** A row whose TTL is a number and a unit is live exactly when the number is positive and its last columns name the group. */
  lemma {:induction false} LiveIff(r: TokenRow, n: nat, unit: char)
    requires Gap(r.gap) && ':' !in r.token && r.ttl == Dec(n) + [unit] && unit != ':'
    ensures Live(r) <==> n > 0 && Contains(r.columns, "system:bootstrappers")
  {
    NumericTtl(n, unit);
    assert forall c :: c in Dec(n) ==> IsDigit(c);
    BootstrapInColumns(r);
  }

  /** The TTLs kubeadm prints for expired and permanent tokens are not readable. */
  lemma {:induction false} InvalidAndForeverRaise()
    ensures TtlValue("<invalid>") == Err("ValueError") && TtlValue("<forever>") == Err("ValueError")
  {
    assert !IsDigit("<invalid"[0]) && !IsDigit("<forever"[0]);
    assert "<invalid>"[..8] == "<invalid" && "<forever>"[..8] == "<forever";
  }
}
