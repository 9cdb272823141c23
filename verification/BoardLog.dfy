/** The append-only log of the daily board collection: `run` of scripts/collect/sector_constituents.py.

    The log is a string of characters.  Each finished board is one JSON text and a newline, written at once; a
    kill cuts the last write after any character.  The next run reads the log back line by line. */
module BoardLog {
  import opened Wrappers

  const MIN_BOARDS: nat := 500

  datatype Status = Filled | Empty | Failed

  datatype Row = Row(code: string, status: Status, members: seq<string>)
  {
    predicate Finished() { !status.Failed? }
  }

  /** The JSON writer and reader of a row. */
  datatype Codec = Codec(encode: Row -> string, decode: string -> Option<Row>)
  {
    /** A text reads back as its row; no proper part of it reads as a row. */
    ghost predicate Lawful() {
      && (forall r :: encode(r) != "" && decode(encode(r)) == Some(r))
      && (forall r, i, j :: 0 <= i <= j <= |encode(r)| && j - i < |encode(r)| ==> decode(encode(r)[i..j]) == None)
    }
  }

  /** The characters at which `str.splitlines` breaks. */
  predicate IsBreak(c: char) {
    c in {'\n', '\r', '\U{0B}', '\U{0C}', '\U{1C}', '\U{1D}', '\U{1E}', '\U{85}', '\U{2028}', '\U{2029}'}
  }

  predicate Clean(text: string) {
    forall i :: 0 <= i < |text| ==> !IsBreak(text[i])
  }

  function FirstBreak(text: string): (n: nat)
    ensures n <= |text| && (n < |text| ==> IsBreak(text[n])) && forall i :: 0 <= i < n ==> !IsBreak(text[i])
  {
    if text == "" || IsBreak(text[0]) then 0 else 1 + FirstBreak(text[1..])
  }

  function Lines(text: string): seq<string> {
    if text == "" then []
    else
      var n := FirstBreak(text);
      if n == |text| then [text] else [text[..n]] + Lines(text[n + 1..])
  }

  function DecodeAll(codec: Codec, lines: seq<string>): seq<Row> {
    if lines == [] then []
    else (match codec.decode(lines[0]) case None => [] case Some(r) => [r]) + DecodeAll(codec, lines[1..])
  }

  /** The rows a run recovers from the log. */
  function Rows(codec: Codec, log: string): seq<Row> {
    DecodeAll(codec, Lines(log))
  }

  /** The last row of each board. */
  function Done(rows: seq<Row>): map<string, Row> {
    if rows == [] then map[] else Done(rows[..|rows| - 1])[rows[|rows| - 1].code := rows[|rows| - 1]]
  }

  predicate Settled(done: map<string, Row>, code: string) {
    code in done && done[code].Finished()
  }

  function Repaired(log: string): string {
    if log != "" && log[|log| - 1] != '\n' then log + "\n" else log
  }

  function Line(codec: Codec, r: Row): string {
    codec.encode(r) + "\n"
  }

  // ---------------------------------------------------------------- reading back

  lemma {:induction false} LinesConcat(a: string, b: string)
    requires a == "" || IsBreak(a[|a| - 1])
    ensures Lines(a + b) == Lines(a) + Lines(b)
    decreases |a|
  {
    if a == "" {
      assert a + b == b;
    } else {
      LastBreak(a);
      var head, rest := a[..FirstBreak(a)], a[FirstBreak(a) + 1..];
      LinesConcat(rest, b);
      FirstLine(a, head, rest);
      BreakOfConcat(a, b);
      FirstLineOfConcat(a, b, head, rest);
      Regroup([head], Lines(rest), Lines(b));
    }
  }

  lemma Regroup(a: seq<string>, b: seq<string>, c: seq<string>)
    ensures a + b + c == a + (b + c)
  {
  }

  lemma LastBreak(a: string)
    requires a != "" && IsBreak(a[|a| - 1])
    ensures FirstBreak(a) < |a|
    ensures a[FirstBreak(a) + 1..] == "" || IsBreak(a[FirstBreak(a) + 1..][|a[FirstBreak(a) + 1..]| - 1])
  {
  }

  lemma FirstLine(text: string, head: string, rest: string)
    requires FirstBreak(text) < |text| && head == text[..FirstBreak(text)] && rest == text[FirstBreak(text) + 1..]
    ensures Lines(text) == [head] + Lines(rest)
  {
  }

  lemma FirstLineOfConcat(a: string, b: string, head: string, rest: string)
    requires FirstBreak(a) < |a| && head == a[..FirstBreak(a)] && rest == a[FirstBreak(a) + 1..]
    requires FirstBreak(a + b) == FirstBreak(a)
    ensures Lines(a + b) == [head] + Lines(rest + b)
  {
    var n := FirstBreak(a);
    assert (a + b)[n + 1..] == rest + b && (a + b)[..n] == head;
    FirstLine(a + b, head, rest + b);
  }

  lemma {:induction false} BreakOfConcat(a: string, b: string)
    requires FirstBreak(a) < |a|
    ensures FirstBreak(a + b) == FirstBreak(a)
  {
    assert (a + b)[0] == a[0];
    if !IsBreak(a[0]) {
      assert (a + b)[1..] == a[1..] + b;
      BreakOfConcat(a[1..], b);
    }
  }

  lemma {:induction false} DecodeConcat(codec: Codec, a: seq<string>, b: seq<string>)
    ensures DecodeAll(codec, a + b) == DecodeAll(codec, a) + DecodeAll(codec, b)
  {
    if a == [] {
      assert a + b == b;
    } else {
      assert (a + b)[1..] == a[1..] + b;
      DecodeConcat(codec, a[1..], b);
    }
  }

  lemma RowsConcat(codec: Codec, a: string, b: string)
    requires EndsLine(a)
    ensures Rows(codec, a + b) == Rows(codec, a) + Rows(codec, b)
  {
    LinesConcat(a, b);
    DecodeConcat(codec, Lines(a), Lines(b));
  }

  lemma CleanLines(text: string)
    requires text != "" && Clean(text)
    ensures Lines(text) == [text] && Lines(text + "\n") == [text]
  {
    assert FirstBreak(text) == |text|;
    var line := text + "\n";
    assert line[|text|] == '\n';
    assert forall i :: 0 <= i < |text| ==> line[i] == text[i];
    assert FirstBreak(line) == |text|;
    assert line[..|text|] == text && line[|text| + 1..] == "";
  }

  /** Ending a torn log with a newline changes nothing that can be read from it. */
  lemma {:induction false} RepairKeepsRows(codec: Codec, log: string)
    requires forall r :: codec.decode("") != Some(r)
    ensures Rows(codec, Repaired(log)) == Rows(codec, log)
    ensures EndsLine(Repaired(log))
  {
    if log != "" && log[|log| - 1] != '\n' {
      RepairLines(codec, log);
    }
  }

  lemma {:induction false} RepairLines(codec: Codec, log: string)
    requires log != "" && forall r :: codec.decode("") != Some(r)
    ensures Rows(codec, log + "\n") == Rows(codec, log)
    decreases |log|
  {
    var n := FirstBreak(log);
    if n == |log| {
      CleanLines(log);
    } else {
      BreakOfConcat(log, "\n");
      var rest := log[n + 1..];
      assert (log + "\n")[n + 1..] == rest + "\n" && (log + "\n")[..n] == log[..n];
      if rest == "" {
        assert rest + "\n" == "\n";
        assert FirstBreak("\n") == 0;
        assert "\n"[..0] == "" && "\n"[1..] == "";
        assert Lines("\n") == [""];
        assert codec.decode("").None?;
        assert DecodeAll(codec, [""]) == [];
      } else {
        RepairLines(codec, rest);
      }
      HeadOfLines(codec, log[..n], Lines(rest + "\n"));
      HeadOfLines(codec, log[..n], Lines(rest));
    }
  }

  lemma HeadOfLines(codec: Codec, line: string, rest: seq<string>)
    ensures DecodeAll(codec, [line] + rest)
            == (match codec.decode(line) case None => [] case Some(r) => [r]) + DecodeAll(codec, rest)
  {
    assert ([line] + rest)[1..] == rest;
  }

  lemma OneLine(codec: Codec, line: string)
    ensures DecodeAll(codec, [line]) == match codec.decode(line) case None => [] case Some(r) => [r]
  {
    var lines: seq<string> := [line];
    assert lines[1..] == [];
  }

  // ---------------------------------------------------------------- whole rows and cut rows

  lemma {:induction false} PartsNeverDecode(codec: Codec, r: Row, i: nat, j: nat)
    requires codec.Lawful() && i <= j <= |codec.encode(r)| && j - i < |codec.encode(r)|
    ensures Rows(codec, codec.encode(r)[i..j]) == []
    decreases j - i
  {
    var text := codec.encode(r);
    if i == j {
      assert text[i..j] == "";
    } else {
      var n := FirstBreak(text[i..j]);
      if n == j - i {
        UnbrokenPart(codec, text[i..j]);
      } else {
        PartsNeverDecode(codec, r, i + n + 1, j);
        BrokenPart(codec, text, i, j, n);
      }
    }
  }

  lemma BrokenPart(codec: Codec, text: string, i: nat, j: nat, n: nat)
    requires i < j <= |text| && n == FirstBreak(text[i..j]) < j - i
    requires codec.decode(text[i..i + n]) == None && Rows(codec, text[i + n + 1..j]) == []
    ensures Rows(codec, text[i..j]) == []
  {
    var part, head, rest := text[i..j], text[i..i + n], text[i + n + 1..j];
    assert part[..n] == head && part[n + 1..] == rest;
    FirstLine(part, head, rest);
    HeadOfLines(codec, head, Lines(rest));
  }

  lemma UnbrokenPart(codec: Codec, part: string)
    requires part != "" && FirstBreak(part) == |part| && codec.decode(part) == None
    ensures Rows(codec, part) == []
  {
    OneLine(codec, part);
  }

  /** A completely written row is recovered exactly when its text contains no line-break character; JSON leaves
      U+0085, U+2028 and U+2029 unescaped, so a name with one of them makes its board unrecoverable. */
  lemma WholeRowIsRecoveredIffClean(codec: Codec, r: Row)
    requires codec.Lawful()
    ensures Rows(codec, Line(codec, r)) == Readable(codec, [r])
    ensures Rows(codec, codec.encode(r)) == Readable(codec, [r])
  {
    OneReadable(codec, r);
    if Clean(codec.encode(r)) {
      CleanLines(codec.encode(r));
      OneLine(codec, codec.encode(r));
    } else {
      BrokenRow(codec, r);
      EmptyLineIsNoRow(codec);
      RepairLines(codec, codec.encode(r));
    }
  }

  lemma BrokenRow(codec: Codec, r: Row)
    requires codec.Lawful() && !Clean(codec.encode(r))
    ensures Rows(codec, codec.encode(r)) == []
  {
    var text := codec.encode(r);
    var n := FirstBreak(text);
    assert n < |text|;
    assert text[..n] == text[0..n] && text[n + 1..] == text[n + 1..|text|];
    assert codec.decode(text[0..n]) == None;
    PartsNeverDecode(codec, r, n + 1, |text|);
    HeadOfLines(codec, text[..n], Lines(text[n + 1..]));
  }

  /** The rows whose text has no line-break character. */
  function Readable(codec: Codec, rows: seq<Row>): seq<Row> {
    if rows == [] then []
    else
      var r := rows[|rows| - 1];
      Readable(codec, rows[..|rows| - 1]) + if Clean(codec.encode(r)) then [r] else []
  }

  lemma OneReadable(codec: Codec, r: Row)
    ensures Readable(codec, [r]) == if Clean(codec.encode(r)) then [r] else []
  {
    assert [r][..0] == [];
  }

  lemma OneMoreReadable(codec: Codec, rows: seq<Row>, r: Row)
    ensures Readable(codec, rows + [r]) == Readable(codec, rows) + Readable(codec, [r])
  {
    assert (rows + [r])[..|rows|] == rows;
    OneReadable(codec, r);
  }

  /** A write cut after k characters yields what the whole row yields when only the newline is missing, and
      nothing otherwise. */
  lemma CutRow(codec: Codec, r: Row, k: nat)
    requires codec.Lawful() && k <= |Line(codec, r)|
    ensures Rows(codec, Line(codec, r)[..k]) == if k < |codec.encode(r)| then [] else Readable(codec, [r])
  {
    var text := codec.encode(r);
    WholeRowIsRecoveredIffClean(codec, r);
    if k < |text| {
      PartsNeverDecode(codec, r, 0, k);
      assert Line(codec, r)[..k] == text[0..k];
    } else if k == |text| {
      assert Line(codec, r)[..k] == text;
    } else {
      assert Line(codec, r)[..k] == Line(codec, r);
    }
  }

  lemma EmptyLineIsNoRow(codec: Codec)
    requires codec.Lawful()
    ensures codec.decode("") == None
  {
    var r := Row("", Filled, []);
    assert codec.decode(codec.encode(r)[0..0]) == None;
    assert codec.encode(r)[0..0] == "";
  }

  // ---------------------------------------------------------------- any history of runs

  /** The rows one run wrote completely, and the write a kill cut short, if any. */
  datatype Run = Run(written: seq<Row>, cut: Option<(Row, nat)>)

  function Text(codec: Codec, rows: seq<Row>): string {
    if rows == [] then "" else Text(codec, rows[..|rows| - 1]) + Line(codec, rows[|rows| - 1])
  }

  function Tail(codec: Codec, run: Run): string {
    if run.cut.Some? && run.cut.value.1 <= |Line(codec, run.cut.value.0)|
    then Line(codec, run.cut.value.0)[..run.cut.value.1] else ""
  }

  function LogAfter(codec: Codec, runs: seq<Run>): string {
    if runs == [] then ""
    else
      var run := runs[|runs| - 1];
      Repaired(LogAfter(codec, runs[..|runs| - 1])) + Text(codec, run.written) + Tail(codec, run)
  }

  /** Everything written completely, in order, as far as a line of text can hold it; a cut row counts when only
      its newline is missing. */
  function Survivors(codec: Codec, runs: seq<Run>): seq<Row> {
    if runs == [] then []
    else
      var run := runs[|runs| - 1];
      Survivors(codec, runs[..|runs| - 1]) + Readable(codec, run.written) + Readable(codec, Salvaged(codec, run))
  }

  function Salvaged(codec: Codec, run: Run): seq<Row> {
    if run.cut.Some? && |codec.encode(run.cut.value.0)| <= run.cut.value.1 <= |Line(codec, run.cut.value.0)|
    then [run.cut.value.0] else []
  }

  lemma {:induction false} TextRows(codec: Codec, rows: seq<Row>)
    requires codec.Lawful()
    ensures Rows(codec, Text(codec, rows)) == Readable(codec, rows)
    ensures EndsLine(Text(codec, rows))
  {
    if rows != [] {
      var n := |rows| - 1;
      TextRows(codec, rows[..n]);
      TextOfOneMore(codec, rows[..n], rows[n]);
      assert rows == rows[..n] + [rows[n]];
    }
  }

  lemma TextOfOneMore(codec: Codec, rows: seq<Row>, r: Row)
    requires codec.Lawful() && EndsLine(Text(codec, rows))
    requires Rows(codec, Text(codec, rows)) == Readable(codec, rows)
    ensures Rows(codec, Text(codec, rows) + Line(codec, r)) == Readable(codec, rows + [r])
    ensures EndsLine(Text(codec, rows) + Line(codec, r))
  {
    WholeRowIsRecoveredIffClean(codec, r);
    RowsConcat(codec, Text(codec, rows), Line(codec, r));
    OneMoreReadable(codec, rows, r);
  }

  lemma TailRows(codec: Codec, run: Run)
    requires codec.Lawful()
    ensures Rows(codec, Tail(codec, run)) == Readable(codec, Salvaged(codec, run))
  {
    if run.cut.Some? && run.cut.value.1 <= |Line(codec, run.cut.value.0)| {
      CutRow(codec, run.cut.value.0, run.cut.value.1);
    } else {
      assert Rows(codec, "") == [];
    }
  }

  lemma OneMoreRun(codec: Codec, log: string, run: Run)
    requires codec.Lawful()
    ensures Rows(codec, Repaired(log) + Text(codec, run.written) + Tail(codec, run))
            == Rows(codec, log) + Readable(codec, run.written) + Readable(codec, Salvaged(codec, run))
  {
    EmptyLineIsNoRow(codec);
    RepairKeepsRows(codec, log);
    TextRows(codec, run.written);
    TailRows(codec, run);
    RowsOfThree(codec, Repaired(log), Text(codec, run.written), Tail(codec, run));
  }

  lemma RowsOfThree(codec: Codec, a: string, b: string, c: string)
    requires EndsLine(a)
    requires EndsLine(b)
    ensures Rows(codec, a + b + c) == Rows(codec, a) + Rows(codec, b) + Rows(codec, c)
  {
    RowsConcat(codec, a, b);
    var ab := a + b;
    assert EndsLine(ab);
    RowsConcat(codec, ab, c);
  }

  /** Torn-log recovery: after any number of killed runs, reading the log gives exactly the completely written
      rows in order, but for those with a line-break character.  A cut hides its own row only, and everything
      written after it is read. */
  lemma {:induction false} RecoveryIsExact(codec: Codec, runs: seq<Run>)
    requires codec.Lawful()
    ensures Rows(codec, LogAfter(codec, runs)) == Survivors(codec, runs)
  {
    if runs != [] {
      var n := |runs| - 1;
      RecoveryIsExact(codec, runs[..n]);
      OneMoreRun(codec, LogAfter(codec, runs[..n]), runs[n]);
    }
  }

  // ---------------------------------------------------------------- one run

  lemma {:induction false} DoneAppend(rows: seq<Row>, r: Row)
    ensures Done(rows + [r]) == Done(rows)[r.code := r]
  {
    assert (rows + [r])[..|rows|] == rows;
  }

  /** The rows published for a day: in catalog order, each board's last row. */
  function Published(catalog: seq<string>, done: map<string, Row>): seq<Row>
    requires forall i :: 0 <= i < |catalog| ==> catalog[i] in done
  {
    seq(|catalog|, i requires 0 <= i < |catalog| => done[catalog[i]])
  }

  datatype Ending = AlreadyComplete | CatalogTooSmall | Killed | Incomplete | Complete

  class Day {
    const codec: Codec
    var log: string
    var dayFile: Option<seq<Row>>

    constructor (codec: Codec)
      ensures this.codec == codec && log == "" && dayFile == None
    {
      this.codec, log, dayFile := codec, "", None;
    }

    /** `run`: recover the log, ask for every board of the catalog that is not finished, append each answer, and
        publish the day when all are finished.  The clock stops the loop before its board number `clock`; a
        kill cuts the append of number `killAt` after `cut` characters.  At most that one row is missing from the
        log afterwards, every board asked was unfinished, and the day file appears only when no board is. */
    method Run(catalog: seq<string>, ask: string -> (Status, seq<string>), clock: nat, killAt: nat, cut: nat)
      returns (ending: Ending, ghost fetched: seq<Row>, ghost lost: Option<Row>)
      requires codec.Lawful() && forall i, j :: 0 <= i < j < |catalog| ==> catalog[i] != catalog[j]
      modifies this
      ensures Rows(codec, log) == Rows(codec, old(log)) + Readable(codec, fetched)
      ensures AllAsked(fetched, catalog, ask, Done(Rows(codec, old(log))))
      ensures lost.Some? ==> ending == Killed && Asked(lost.value, catalog, ask, Done(Rows(codec, old(log))))
      ensures ending == Complete ==>
                var done := Done(Rows(codec, old(log)) + fetched);
                && (forall i :: 0 <= i < |catalog| ==> Settled(done, catalog[i]))
                && dayFile == Some(Published(catalog, done))
      ensures ending != Complete ==> dayFile == old(dayFile)
      ensures ending == Incomplete ==>
                exists i :: 0 <= i < |catalog| && !Settled(Done(Rows(codec, old(log)) + fetched), catalog[i])
      ensures ending.AlreadyComplete? <==> old(dayFile).Some?
      ensures old(dayFile).None? ==> (ending.CatalogTooSmall? <==> |catalog| < MIN_BOARDS)
      ensures old(dayFile).None? && |catalog| >= MIN_BOARDS && clock >= |catalog| && killAt >= |catalog| ==>
                && !ending.Killed?
                && (ending == Complete <==>
                      forall i :: 0 <= i < |catalog| ==>
                        Settled(Done(Rows(codec, old(log))), catalog[i]) || ask(catalog[i]).0 != Failed)
    {
      fetched, lost := [], None;
      if dayFile.Some? {
        return AlreadyComplete, fetched, lost;
      }
      var done := Done(Rows(codec, log));
      EmptyLineIsNoRow(codec);
      RepairKeepsRows(codec, log);
      log := Repaired(log);
      if |catalog| < MIN_BOARDS {
        return CatalogTooSmall, fetched, lost;
      }
      var killed;
      killed, done, fetched, lost := AskAll(catalog, ask, done, clock, killAt, cut, Rows(codec, log));
      if killed {
        return Killed, fetched, lost;
      }
      if exists i :: 0 <= i < |catalog| && !Settled(done, catalog[i]) {
        return Incomplete, fetched, lost;
      }
      dayFile := Some(Published(catalog, done));
      return Complete, fetched, lost;
    }

    method AskAll(catalog: seq<string>, ask: string -> (Status, seq<string>), found: map<string, Row>,
                  clock: nat, killAt: nat, cut: nat, ghost before: seq<Row>)
      returns (killed: bool, done: map<string, Row>, ghost fetched: seq<Row>, ghost lost: Option<Row>)
      requires codec.Lawful() && forall i, j :: 0 <= i < j < |catalog| ==> catalog[i] != catalog[j]
      requires EndsLine(log) && before == Rows(codec, log) && found == Done(before)
      modifies this`log
      ensures Rows(codec, log) == before + Readable(codec, fetched)
      ensures AllAsked(fetched, catalog, ask, found)
      ensures lost.Some? ==> killed && Asked(lost.value, catalog, ask, found)
      ensures !killed ==> done == Done(before + fetched)
      ensures killAt >= |catalog| ==> !killed
      ensures !killed && clock >= |catalog| ==>
                forall i :: 0 <= i < |catalog| ==> Answered(done, found, ask, catalog[i])
    {
      killed, done, fetched, lost := false, found, [], None;
      assert before + fetched == before;
      var writes := 0;
      for n := 0 to |catalog|
        invariant EndsLine(log) && Rows(codec, log) == before + Readable(codec, fetched)
        invariant Ongoing(catalog, ask, n, found, before, done, fetched) && writes <= n
      {
        assert SameEntry(done, found, catalog[n]);
        var code := catalog[n];
        if Settled(done, code) {
          continue;
        }
        if n >= clock {
          break;
        }
        var (status, members) := ask(code);
        var row := Row(code, status, members);
        OneMoreAsked(codec, catalog, ask, n, found, before, done, fetched, row);
        if writes == killAt && cut < |Line(codec, row)| {
          var whole := AppendCut(row, cut);
          if whole {
            fetched := fetched + [row];
          } else {
            lost := Some(row);
          }
          return true, done, fetched, lost;
        }
        Append(row);
        done := done[code := row];
        fetched := fetched + [row];
        writes := writes + 1;
      }
    }

    method Append(row: Row)
      requires codec.Lawful() && EndsLine(log)
      modifies this`log
      ensures EndsLine(log) && Rows(codec, log) == Rows(codec, old(log)) + Readable(codec, [row])
    {
      WholeRowIsRecoveredIffClean(codec, row);
      RowsConcat(codec, log, Line(codec, row));
      log := log + Line(codec, row);
    }

    /** An append that a kill cuts after `cut` characters; the row survives when only its newline is missing. */
    method AppendCut(row: Row, cut: nat) returns (whole: bool)
      requires codec.Lawful() && EndsLine(log) && cut < |Line(codec, row)|
      modifies this`log
      ensures Rows(codec, log) == Rows(codec, old(log)) + if whole then Readable(codec, [row]) else []
    {
      CutRow(codec, row, cut);
      RowsConcat(codec, log, Line(codec, row)[..cut]);
      log := log + Line(codec, row)[..cut];
      whole := cut == |codec.encode(row)|;
    }
  }

  /** Boards from the n-th on stand as the run found them; `done` is what was read plus what was fetched. */
  ghost predicate Ongoing(catalog: seq<string>, ask: string -> (Status, seq<string>), n: nat, found: map<string, Row>,
                          before: seq<Row>, done: map<string, Row>, fetched: seq<Row>)
  {
    && AllAsked(fetched, catalog, ask, found) && done == Done(before + fetched)
    && (forall i :: n <= i < |catalog| ==> SameEntry(done, found, catalog[i]))
    && (forall i :: 0 <= i < n && i < |catalog| ==> Answered(done, found, ask, catalog[i]))
  }

  lemma OneMoreAsked(codec: Codec, catalog: seq<string>, ask: string -> (Status, seq<string>), n: nat,
                     found: map<string, Row>, before: seq<Row>, done: map<string, Row>, fetched: seq<Row>, row: Row)
    requires Ongoing(catalog, ask, n, found, before, done, fetched)
    requires n < |catalog| && forall i, j :: 0 <= i < j < |catalog| ==> catalog[i] != catalog[j]
    requires row.code == catalog[n] && !Settled(done, row.code) && (row.status, row.members) == ask(row.code)
    ensures Asked(row, catalog, ask, found)
    ensures Ongoing(catalog, ask, n + 1, found, before, done[row.code := row], fetched + [row])
    ensures before + Readable(codec, fetched + [row]) == before + Readable(codec, fetched) + Readable(codec, [row])
  {
    assert SameEntry(done, found, catalog[n]);
    OneMoreRead(codec, before, fetched, row);
    OneMoreDone(before, fetched, row);
    assert Asked(row, catalog, ask, found);
    LaterEntries(catalog, n, found, done, row);
    EarlierAnswers(catalog, ask, n, found, done, row);
  }

  /** Finished boards keep their row; the others have the answer of this run. */
  ghost predicate Answered(done: map<string, Row>, found: map<string, Row>, ask: string -> (Status, seq<string>),
                           code: string)
  {
    code in done && done[code] == if Settled(found, code) then found[code] else Row(code, ask(code).0, ask(code).1)
  }

  lemma EarlierAnswers(catalog: seq<string>, ask: string -> (Status, seq<string>), n: nat, found: map<string, Row>,
                       done: map<string, Row>, row: Row)
    requires n < |catalog| && forall i, j :: 0 <= i < j < |catalog| ==> catalog[i] != catalog[j]
    requires row == Row(catalog[n], ask(catalog[n]).0, ask(catalog[n]).1) && !Settled(found, catalog[n])
    requires forall i :: 0 <= i < n ==> Answered(done, found, ask, catalog[i])
    ensures forall i :: 0 <= i < n + 1 ==> Answered(done[row.code := row], found, ask, catalog[i])
  {
    forall i | 0 <= i < n
      ensures Answered(done[row.code := row], found, ask, catalog[i])
    {
      assert catalog[i] != catalog[n] && Answered(done, found, ask, catalog[i]);
    }
  }

  lemma LaterEntries(catalog: seq<string>, n: nat, found: map<string, Row>, done: map<string, Row>, row: Row)
    requires n < |catalog| && row.code == catalog[n] && forall i, j :: 0 <= i < j < |catalog| ==> catalog[i] != catalog[j]
    requires forall i :: n <= i < |catalog| ==> SameEntry(done, found, catalog[i])
    ensures forall i :: n + 1 <= i < |catalog| ==> SameEntry(done[row.code := row], found, catalog[i])
  {
    forall i | n + 1 <= i < |catalog|
      ensures SameEntry(done[row.code := row], found, catalog[i])
    {
      assert catalog[n] != catalog[i] && SameEntry(done, found, catalog[i]);
    }
  }

  lemma OneMoreRead(codec: Codec, before: seq<Row>, fetched: seq<Row>, row: Row)
    ensures before + Readable(codec, fetched + [row]) == before + Readable(codec, fetched) + Readable(codec, [row])
  {
    OneMoreReadable(codec, fetched, row);
  }

  lemma OneMoreDone(before: seq<Row>, fetched: seq<Row>, row: Row)
    ensures Done(before + (fetched + [row])) == Done(before + fetched)[row.code := row]
  {
    DoneAppend(before + fetched, row);
    assert before + fetched + [row] == before + (fetched + [row]);
  }

  ghost predicate EndsLine(log: string) {
    log == "" || log[|log| - 1] == '\n'
  }

  ghost predicate SameEntry(a: map<string, Row>, b: map<string, Row>, code: string) {
    (code in a <==> code in b) && (code in a ==> a[code] == b[code])
  }

  ghost predicate AllAsked(rows: seq<Row>, catalog: seq<string>, ask: string -> (Status, seq<string>),
                           before: map<string, Row>)
  {
    forall i :: 0 <= i < |rows| ==> Asked(rows[i], catalog, ask, before)
  }

  /** A row asked for in this run: of a catalog board that was not finished when the run began. */
  ghost predicate Asked(r: Row, catalog: seq<string>, ask: string -> (Status, seq<string>), before: map<string, Row>) {
    r.code in catalog && !Settled(before, r.code) && (r.status, r.members) == ask(r.code)
  }

  // ---------------------------------------------------------------- such codecs exist

  /** A character without braces; a backslash starts every escape. */
  function Escaped(c: char): string {
    if c == '{' then ['\\', '('] else if c == '}' then ['\\', ')'] else if c == '\\' then ['\\', '\\'] else [c]
  }

  /** A text, ended by an escape that no character has. */
  function Field(text: string): string {
    if text == "" then ['\\', '.'] else Escaped(text[0]) + Field(text[1..])
  }

  function Fields(texts: seq<string>): string {
    if texts == [] then "" else Field(texts[0]) + Fields(texts[1..])
  }

  function StatusName(s: Status): string {
    match s
    case Filled => "ok"
    case Empty => "empty"
    case Failed => "failed"
  }

  function Encoded(r: Row): string {
    ['{'] + Fields([r.code, StatusName(r.status)] + r.members) + ['}']
  }

  predicate NoBraces(text: string) {
    forall i :: 0 <= i < |text| ==> text[i] != '{' && text[i] != '}'
  }

  lemma {:induction false} FieldNoBraces(text: string)
    ensures NoBraces(Field(text)) && |Field(text)| >= 2
  {
    if text != "" {
      FieldNoBraces(text[1..]);
    }
  }

  lemma {:induction false} FieldsNoBraces(texts: seq<string>)
    ensures NoBraces(Fields(texts))
  {
    if texts != [] {
      FieldNoBraces(texts[0]);
      FieldsNoBraces(texts[1..]);
    }
  }

  lemma {:induction false} FieldEnds(a: string, b: string, x: string, y: string)
    requires Field(a) + x == Field(b) + y
    ensures a == b && x == y
  {
    FieldHead(a, x);
    FieldHead(b, y);
    if a != "" {
      EndIsNoEscape(a[0], y, Field(a[1..]) + x);
    }
    if b != "" {
      EndIsNoEscape(b[0], x, Field(b[1..]) + y);
    }
    if a != "" && b != "" {
      SameEscape(a[0], b[0], Field(a[1..]) + x, Field(b[1..]) + y);
      FieldEnds(a[1..], b[1..], x, y);
      assert a == [a[0]] + a[1..] && b == [b[0]] + b[1..];
    } else {
      assert (['\\', '.'] + x)[2..] == x && (['\\', '.'] + y)[2..] == y;
    }
  }

  lemma FieldHead(text: string, after: string)
    ensures Field(text) + after
            == if text == "" then ['\\', '.'] + after else Escaped(text[0]) + (Field(text[1..]) + after)
  {
  }

  lemma EndIsNoEscape(c: char, x: string, y: string)
    ensures ['\\', '.'] + x != Escaped(c) + y
  {
    var left, right := ['\\', '.'] + x, Escaped(c) + y;
    assert left[0] == '\\' && left[1] == '.';
    assert right[0] == Escaped(c)[0] && (|Escaped(c)| == 2 ==> right[1] == Escaped(c)[1]);
  }

  lemma SameEscape(c: char, d: char, x: string, y: string)
    requires Escaped(c) + x == Escaped(d) + y
    ensures c == d && x == y
  {
    var left, right := Escaped(c) + x, Escaped(d) + y;
    assert left[0] == right[0];
    assert |Escaped(c)| == 2 ==> left[1] == Escaped(c)[1] && left[2..] == x;
    assert |Escaped(d)| == 2 ==> right[1] == Escaped(d)[1] && right[2..] == y;
    assert |Escaped(c)| == 1 ==> left[1..] == x;
    assert |Escaped(d)| == 1 ==> right[1..] == y;
  }

  lemma {:induction false} FieldsDiffer(a: seq<string>, b: seq<string>)
    requires Fields(a) == Fields(b)
    ensures a == b
  {
    if a == [] || b == [] {
      if a != [] {
        FieldNoBraces(a[0]);
      }
      if b != [] {
        FieldNoBraces(b[0]);
      }
    } else {
      FieldEnds(a[0], b[0], Fields(a[1..]), Fields(b[1..]));
      FieldsDiffer(a[1..], b[1..]);
      assert a == [a[0]] + a[1..] && b == [b[0]] + b[1..];
    }
  }

  lemma EncodedDiffer(r: Row, t: Row)
    requires Encoded(r) == Encoded(t)
    ensures r == t
  {
    var a, b := [r.code, StatusName(r.status)] + r.members, [t.code, StatusName(t.status)] + t.members;
    assert Encoded(r)[1..|Encoded(r)| - 1] == Fields(a) && Encoded(t)[1..|Encoded(t)| - 1] == Fields(b);
    FieldsDiffer(a, b);
    assert a[0] == b[0] && a[1] == b[1] && a[2..] == b[2..];
  }

  /** Braces stand at the ends only, so no part of a text is itself one. */
  lemma PartIsNotEncoded(r: Row, i: nat, j: nat, t: Row)
    requires i <= j <= |Encoded(r)| && Encoded(r)[i..j] == Encoded(t)
    ensures i == 0 && j == |Encoded(r)|
  {
    var text, part := Encoded(r), Encoded(t);
    FieldsNoBraces([r.code, StatusName(r.status)] + r.members);
    assert part[0] == '{' == text[i] && part[|part| - 1] == '}' == text[j - 1];
  }

  /** The reader that goes with `Encoded`. */
  ghost function Decoded(text: string): Option<Row> {
    if exists r :: Encoded(r) == text then
      var r :| Encoded(r) == text;
      Some(r)
    else None
  }

  lemma DecodedEncoded(r: Row)
    ensures Decoded(Encoded(r)) == Some(r)
  {
    forall t | Encoded(t) == Encoded(r)
      ensures t == r
    {
      EncodedDiffer(t, r);
    }
  }

  /** What is asked of a codec can be had. */
  lemma LawfulCodecExists() returns (codec: Codec)
    ensures codec.Lawful() && forall r :: codec.encode(r) == Encoded(r)
  {
    codec := Codec(r => Encoded(r), text => Decoded(text));
    forall r
      ensures codec.encode(r) != "" && codec.decode(codec.encode(r)) == Some(r)
    {
      DecodedEncoded(r);
    }
    forall r, i, j | 0 <= i <= j <= |codec.encode(r)| && j - i < |codec.encode(r)|
      ensures codec.decode(codec.encode(r)[i..j]) == None
    {
      if exists t :: Encoded(t) == Encoded(r)[i..j] {
        var t :| Encoded(t) == Encoded(r)[i..j];
        PartIsNotEncoded(r, i, j, t);
      }
    }
  }

  /** A board with a line separator in its name: its line is complete, and nothing is read from it. */
  lemma CompleteRowCanBeUnreadable()
    ensures exists codec: Codec, r: Row :: codec.Lawful() && Rows(codec, Line(codec, r)) == []
  {
    var codec := LawfulCodecExists();
    var name := ['\U{2028}'];
    var r := Row(name, Filled, []);
    var fields := [r.code, StatusName(r.status)] + r.members;
    assert fields[0] == name && Field(name)[0] == '\U{2028}';
    assert codec.encode(r)[1] == '\U{2028}';
    WholeRowIsRecoveredIffClean(codec, r);
    OneReadable(codec, r);
  }
}
