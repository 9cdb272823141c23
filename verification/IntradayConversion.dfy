/** The resumable export conversion of scripts/derive/gst_intraday.py.

    A run reads records from the offset in its state file, collects rows, and flushes them as numbered part
    files.  It may time out after any record and may be killed between any two durable writes. */
module IntradayConversion {
  import opened Wrappers

  /** Rows of one record; None stands for a record the converter rejects with an error. */
  type Parser = string -> Option<seq<string>>

  // ---------------------------------------------------------------- records

  function Quotes(s: string): nat {
    if s == "" then 0 else (if s[0] == '"' then 1 else 0) + Quotes(s[1..])
  }

  /** The end of the line that starts at `pos`. */
  function LineEnd(data: string, pos: nat): (e: nat)
    requires pos < |data|
    ensures pos < e <= |data|
    ensures data[e - 1] == '\n' || e == |data|
    ensures forall i :: pos <= i < e - 1 ==> data[i] != '\n'
    decreases |data| - pos
  {
    if data[pos] == '\n' || pos + 1 == |data| then pos + 1 else LineEnd(data, pos + 1)
  }

  /** A record ends with the first line that leaves an even number of quotes; a file that stops inside
      quotes has no further record. */
  function RecordEnd(data: string, start: nat, pos: nat): (e: Option<nat>)
    requires start <= pos <= |data|
    ensures e.Some? ==> pos < e.value <= |data|
    decreases |data| - pos
  {
    if pos == |data| then None
    else
      var e := LineEnd(data, pos);
      if Quotes(data[start..e]) % 2 == 1 then RecordEnd(data, start, e) else Some(e)
  }

  /** Reading from offset 0 skips the header line. */
  function Start(data: string, offset: nat): (pos: nat)
    requires offset <= |data|
    ensures offset <= pos <= |data|
  {
    if offset == 0 && data != "" then LineEnd(data, 0) else offset
  }

  /** `next` is where the record that starts at `offset` ends. */
  ghost predicate IsRecord(data: string, offset: nat, next: nat) {
    offset <= |data| && RecordEnd(data, Start(data, offset), Start(data, offset)) == Some(next)
  }

  ghost predicate IsRecordAt(data: string, ends: seq<nat>, i: nat)
    requires i + 1 < |ends|
  {
    IsRecord(data, ends[i], ends[i + 1])
  }

  /** The offsets between consecutive records. */
  ghost predicate Records(data: string, ends: seq<nat>) {
    ends != [] && forall i :: 0 <= i < |ends| - 1 ==> IsRecordAt(data, ends, i)
  }

  lemma OneMoreEnd(data: string, ends: seq<nat>, next: nat)
    requires Records(data, ends) && IsRecord(data, ends[|ends| - 1], next)
    ensures Records(data, ends + [next])
  {
    var more := ends + [next];
    forall i | 0 <= i < |more| - 1
      ensures IsRecordAt(data, more, i)
    {
      assert i < |ends| - 1 ==> IsRecordAt(data, ends, i);
    }
  }

  function Accepted(parse: Parser, record: string): seq<string> {
    var rows := parse(record);
    if rows.Some? then rows.value else []
  }

  function RowsAt(data: string, parse: Parser, pos: nat): seq<string>
    requires pos <= |data|
    decreases |data| - pos
  {
    var e := RecordEnd(data, pos, pos);
    if e.None? then [] else Accepted(parse, data[pos..e.value]) + RowsAt(data, parse, e.value)
  }

  /** Everything a run that starts at `offset` would still emit. */
  function RowsFrom(data: string, parse: Parser, offset: nat): seq<string>
    requires offset <= |data|
  {
    RowsAt(data, parse, Start(data, offset))
  }

  /** A record is the shortest run of whole lines with an even number of quotes. */
  lemma {:induction false} RecordIsShortestBalanced(data: string, start: nat, pos: nat, cut: nat)
    requires start <= pos <= |data| && RecordEnd(data, start, pos).Some?
    ensures Quotes(data[start..RecordEnd(data, start, pos).value]) % 2 == 0
    ensures pos < cut < RecordEnd(data, start, pos).value && data[cut - 1] == '\n' ==> Quotes(data[start..cut]) % 2 == 1
    decreases |data| - pos
  {
    var e := LineEnd(data, pos);
    if Quotes(data[start..e]) % 2 == 1 {
      RecordIsShortestBalanced(data, start, e, cut);
    }
  }

  /** None of the records from `pos` on makes the converter stop with an error. */
  predicate Readable(data: string, parse: Parser, pos: nat)
    requires pos <= |data|
    decreases |data| - pos
  {
    var e := RecordEnd(data, pos, pos);
    e.Some? ==> parse(data[pos..e.value]).Some? && Readable(data, parse, e.value)
  }

  /** The same for what a run that starts at `offset` would read. */
  predicate ReadableFrom(data: string, parse: Parser, offset: nat)
    requires offset <= |data|
  {
    Readable(data, parse, Start(data, offset))
  }

  /** A header, a record and an empty tail are readable although not every stretch of text is a record. */
  lemma OrdinaryExportIsReadable(parse: Parser)
    requires parse("a\n") == Some(["a"]) && parse("\n") == None
    ensures ReadableFrom("h\na\n", parse, 0) && RowsFrom("h\na\n", parse, 0) == ["a"]
  {
    var data := "h\na\n";
    assert LineEnd(data, 0) == 2 && LineEnd(data, 2) == 4;
    assert data[2..4] == "a\n" && Quotes("a\n") == 0 by {
      assert "a\n"[1..] == "\n" && "\n"[1..] == "";
    }
    assert RecordEnd(data, 2, 2) == Some(4);
  }

  lemma OneRecord(data: string, parse: Parser, reached: nat, e: nat, out: seq<string>)
    requires reached <= |data| && RecordEnd(data, Start(data, reached), Start(data, reached)) == Some(e)
    ensures var record := data[Start(data, reached)..e];
            out + RowsFrom(data, parse, reached) == (out + Accepted(parse, record)) + RowsFrom(data, parse, e)
  {
  }

  lemma AfterRecord(data: string, pos: nat, e: nat)
    requires pos <= |data| && RecordEnd(data, pos, pos) == Some(e)
    ensures pos < e <= |data| && Start(data, e) == e
  {
  }

  lemma NoRecord(data: string, parse: Parser, reached: nat)
    requires reached <= |data| && RecordEnd(data, Start(data, reached), Start(data, reached)).None?
    ensures RowsFrom(data, parse, reached) == []
  {
  }

  // ---------------------------------------------------------------- what is on disk

  datatype Progress = Progress(offset: nat, parts: nat, rows: nat, complete: bool)

  datatype StateFile = Absent | Saved(progress: Progress) | Torn

  function Joined(parts: map<nat, seq<string>>, n: nat): seq<string>
    requires forall k :: 0 <= k < n ==> k in parts
  {
    if n == 0 then [] else Joined(parts, n - 1) + parts[n - 1]
  }

  ghost predicate Numbered(parts: map<nat, seq<string>>, n: nat) {
    forall k :: k in parts <==> 0 <= k < n
  }

  /** The first `p.parts` files hold what precedes `p.offset`.  At most one further file exists, left by a run
      killed before it saved its state; then there is still something to emit, so it will be overwritten. */
  ghost predicate Consistent(data: string, parse: Parser, parts: map<nat, seq<string>>, p: Progress) {
    && p.offset <= |data| && Balanced(parts, p, RowsFrom(data, parse, p.offset), RowsFrom(data, parse, 0))
    && (p.complete ==> ReadableFrom(data, parse, p.offset))
  }

  /** `left` is still to be emitted, `total` is what one run emits. */
  ghost predicate Balanced(parts: map<nat, seq<string>>, p: Progress, left: seq<string>, total: seq<string>) {
    && (forall k :: 0 <= k < p.parts ==> k in parts)
    && (forall k :: k in parts ==> k <= p.parts)
    && Joined(parts, p.parts) + left == total
    && p.rows == |Joined(parts, p.parts)|
    && (p.parts in parts ==> left != [])
    && (p.complete ==> left == [])
  }

  ghost predicate Finished(data: string, parse: Parser, parts: map<nat, seq<string>>, n: nat) {
    Numbered(parts, n) && Joined(parts, n) == RowsFrom(data, parse, 0)
  }

  const NEW_PROGRESS := Progress(0, 0, 0, false)

  lemma {:induction false} JoinedFrame(parts: map<nat, seq<string>>, n: nat, k: nat, rows: seq<string>)
    requires (forall i :: 0 <= i < n ==> i in parts) && n <= k
    ensures Joined(parts[k := rows], n) == Joined(parts, n)
  {
    if n > 0 {
      JoinedFrame(parts, n - 1, k, rows);
    }
  }

  lemma CompleteIsFinished(data: string, parse: Parser, parts: map<nat, seq<string>>, p: Progress)
    requires Consistent(data, parse, parts, p) && RowsFrom(data, parse, p.offset) == []
    ensures Finished(data, parse, parts, p.parts)
  {
    assert Joined(parts, p.parts) + [] == Joined(parts, p.parts);
  }

  /** Between the part and the state, the new file is the one that will be overwritten. */
  lemma PartIsConsistent(data: string, parse: Parser, parts: map<nat, seq<string>>, p: Progress, out: seq<string>)
    requires Consistent(data, parse, parts, p)
    requires RowsFrom(data, parse, p.offset) != []
    ensures Consistent(data, parse, parts[p.parts := out], p)
  {
    JoinedFrame(parts, p.parts, p.parts, out);
  }

  lemma BalancedNext(parts: map<nat, seq<string>>, p: Progress, out: seq<string>, later: seq<string>,
                     total: seq<string>, reached: nat)
    requires Balanced(parts, p, out + later, total) && !p.complete
    ensures Balanced(parts[p.parts := out], Progress(reached, p.parts + 1, p.rows + |out|, false), later, total)
  {
    JoinedFrame(parts, p.parts, p.parts, out);
    assert Joined(parts, p.parts) + (out + later) == (Joined(parts, p.parts) + out) + later;
  }

  lemma NextIsConsistent(data: string, parse: Parser, parts: map<nat, seq<string>>, p: Progress, out: seq<string>,
                         reached: nat)
    requires Consistent(data, parse, parts, p) && !p.complete && reached <= |data|
    requires RowsFrom(data, parse, p.offset) == out + RowsFrom(data, parse, reached)
    ensures Consistent(data, parse, parts[p.parts := out], Progress(reached, p.parts + 1, p.rows + |out|, false))
  {
    BalancedNext(parts, p, out, RowsFrom(data, parse, reached), RowsFrom(data, parse, 0), reached);
  }

  // ---------------------------------------------------------------- the converter

  datatype Ending = Done | TimedOut | Killed | Failed

  class Lake {
    const data: string
    const parse: Parser
    const rowsPerPart: nat
    var parts: map<nat, seq<string>>
    var state: StateFile

    constructor (data: string, parse: Parser, rowsPerPart: nat)
      ensures this.data == data && this.parse == parse && this.rowsPerPart == rowsPerPart
      ensures parts == map[] && state == Absent && Valid()
    {
      this.data, this.parse, this.rowsPerPart := data, parse, rowsPerPart;
      parts, state := map[], Absent;
    }

    ghost predicate Valid()
      reads this
    {
      match state
      case Absent => Consistent(data, parse, parts, NEW_PROGRESS)
      case Saved(p) => Consistent(data, parse, parts, p)
      case Torn => exists n :: Finished(data, parse, parts, n)
    }

    /** Write the collected rows as the next part, then the state.  `lifetime` counts the durable writes the
        process lives to make. */
    method Flush(p: Progress, out: seq<string>, reached: nat, lifetime: nat)
      returns (p': Progress, left: nat, killed: bool)
      requires Reading(p, out, reached)
      modifies this
      ensures Valid()
      ensures !killed ==> Reading(p', [], reached)
      ensures if killed then lifetime < 2 else left + 2 >= lifetime
      ensures !state.Torn? && RestReadable() == ReadableFrom(data, parse, reached)
      ensures !killed && out != [] ==> p'.parts == p.parts + 1 && p'.parts !in parts
      ensures !killed && out == [] ==> p' == p && parts == old(parts)
    {
      if out == [] {
        return p, lifetime, false;
      }
      if lifetime == 0 {
        return p, 0, true;
      }
      PartIsConsistent(data, parse, parts, p, out);
      NextIsConsistent(data, parse, parts, p, out, reached);
      parts := parts[p.parts := out];
      if lifetime == 1 {
        return p, 0, true;
      }
      p' := Progress(reached, p.parts + 1, p.rows + |out|, false);
      state := Saved(p');
      left, killed := lifetime - 2, false;
    }

    /** A run in progress: what is saved, what is collected, and how far the source was read. */
    ghost predicate Reading(p: Progress, out: seq<string>, reached: nat)
      reads this
    {
      && reached <= |data|
      && (state == Saved(p) || (state == Absent && p == NEW_PROGRESS))
      && Consistent(data, parse, parts, p) && !p.complete
      && RowsFrom(data, parse, p.offset) == out + RowsFrom(data, parse, reached)
      && ReadableFrom(data, parse, p.offset) == ReadableFrom(data, parse, reached)
    }

    /** Where the next run starts. */
    ghost function Offset(): nat
      reads this
    {
      if state.Saved? then state.progress.offset else 0
    }

    /** What is still to be emitted is what follows the first n records from `offset` on. */
    ghost predicate HasSaved(offset: nat, n: nat)
      reads this
      requires Valid() && !state.Torn?
    {
      exists ends: seq<nat> :: Records(data, ends) && |ends| == n + 1 && ends[0] == offset && ends[n] <= |data|
                               && RowsFrom(data, parse, Offset()) == RowsFrom(data, parse, ends[n])
    }

    /** None of the records still to be read is unreadable. */
    ghost predicate RestReadable()
      reads this
      requires Valid() && !state.Torn?
    {
      ReadableFrom(data, parse, Offset())
    }

    /** Add one record's rows, and flush when the part is full. */
    method TakeRecord(p: Progress, out: seq<string>, reached: nat, e: nat, rows: seq<string>, lifetime: nat)
      returns (p': Progress, out': seq<string>, left: nat, killed: bool)
      requires Reading(p, out, reached)
      requires RecordEnd(data, Start(data, reached), Start(data, reached)) == Some(e)
      requires parse(data[Start(data, reached)..e]) == Some(rows)
      modifies this
      ensures Valid() && !state.Torn? && RestReadable() == ReadableFrom(data, parse, e)
      ensures !killed ==> Reading(p', out', e)
      ensures if killed then lifetime < 2 else left + 2 >= lifetime
    {
      OneRecord(data, parse, reached, e, out);
      p', out', left, killed := p, out + rows, lifetime, false;
      if |out'| >= rowsPerPart {
        p', left, killed := Flush(p', out', e, left);
        out' := [];
      }
    }

    /** The next record, if there is one. */
    method ReadOne(p: Progress, out: seq<string>, reached: nat, lifetime: nat, ghost ends: seq<nat>)
      returns (p': Progress, out': seq<string>, reached': nat, left: nat, ending: Option<Ending>, ghost ends': seq<nat>)
      requires Reading(p, out, reached) && Records(data, ends) && ends[|ends| - 1] == reached
      modifies this
      ensures Valid() && !state.Torn? && RestReadable() == ReadableFrom(data, parse, reached)
      ensures if ending == Some(Killed) then lifetime < 2 else Reading(p', out', reached') && left + 2 >= lifetime
      ensures ending == Some(Done) ==> RowsFrom(data, parse, reached') == [] && left == lifetime
      ensures ending == Some(Done) ==> RestReadable()
      ensures ending == Some(Failed) ==> !RestReadable()
      ensures ending.None? ==> Start(data, reached) < reached' == Start(data, reached') <= |data|
      ensures ending != Some(TimedOut) && Records(data, ends')
      ensures ends' == if ending.None? then ends + [reached'] else ends
    {
      ends' := ends;
      var pos := Start(data, reached);
      var e := RecordEnd(data, pos, pos);
      if e.None? {
        NoRecord(data, parse, reached);
        return p, out, reached, lifetime, Some(Done), ends;
      }
      AfterRecord(data, pos, e.value);
      var rows := parse(data[pos..e.value]);
      if rows.None? {
        return p, out, reached, lifetime, Some(Failed), ends;
      }
      var killed;
      p', out', left, killed := TakeRecord(p, out, reached, e.value, rows.value, lifetime);
      reached', ending := e.value, if killed then Some(Killed) else None;
      if !killed {
        OneMoreEnd(data, ends, reached');
        ends' := ends + [reached'];
      }
    }

    /** The reading loop.  `Done` means the source is exhausted. */
    method ReadRecords(p0: Progress, clock: nat, lifetime: nat)
      returns (p: Progress, out: seq<string>, reached: nat, left: nat, ending: Ending, ghost ends: seq<nat>)
      requires Reading(p0, [], p0.offset)
      modifies this
      ensures Valid() && !state.Torn? && RestReadable() == ReadableFrom(data, parse, p0.offset)
      ensures ending != Killed ==> Reading(p, out, reached)
      ensures ending == Done ==> RowsFrom(data, parse, reached) == [] && RestReadable()
      ensures Records(data, ends) && ends[0] == p0.offset
      ensures ending == TimedOut ==> |ends| == clock + 2 && ends[clock + 1] == reached
      ensures clock >= |data| && lifetime >= 2 * |data| + 4 ==>
                left >= 4 && ending == if ReadableFrom(data, parse, p0.offset) then Done else Failed
    {
      var end: Option<Ending>;
      p, out, reached, left, end, ends := ReadWhile(p0, clock, lifetime);
      ending := if end.Some? then end.value else TimedOut;
    }

    /** Up to `clock + 1` records; None is the end of the time. */
    method ReadWhile(p0: Progress, clock: nat, lifetime: nat)
      returns (p: Progress, out: seq<string>, reached: nat, left: nat, end: Option<Ending>, ghost ends: seq<nat>)
      requires Reading(p0, [], p0.offset)
      modifies this
      ensures Underway(ReadableFrom(data, parse, p0.offset), p, out, reached, end, ends) && ends[0] == p0.offset
      ensures end.None? ==> |ends| == clock + 2 && clock < |data|
      ensures lifetime >= 2 * |data| + 4 ==> Affords(reached, end, left)
    {
      p, out, reached, left, end, ends := p0, [], p0.offset, lifetime, None, [p0.offset];
      var records := 0;
      ghost var good := ReadableFrom(data, parse, p0.offset);
      while end.None? && records <= clock
        invariant Underway(good, p, out, reached, end, ends) && ends[0] == p0.offset
        invariant end.None? ==> |ends| == records + 1 && records <= Start(data, reached)
        invariant records <= clock + 1
        invariant lifetime >= 2 * |data| + 4 ==> Affords(reached, end, left)
        decreases end.None?, clock + 1 - records
      {
        p, out, reached, left, end, ends := ReadNext(good, p, out, reached, left, ends);
        records := records + 1;
      }
    }

    /** The reading loop, or its end; `good` says whether every record that was still to be read is readable. */
    ghost predicate Underway(good: bool, p: Progress, out: seq<string>, reached: nat, end: Option<Ending>, ends: seq<nat>)
      reads this
    {
      && Valid() && !state.Torn? && RestReadable() == good && reached <= |data| && Records(data, ends)
      && match end
         case None => Reading(p, out, reached) && ends[|ends| - 1] == reached
         case Some(e) =>
           && e != TimedOut && (e != Killed ==> Reading(p, out, reached))
           && (e == Done ==> RowsFrom(data, parse, reached) == [] && good) && (e == Failed ==> !good)
    }

    /** Enough writes are left for everything that may still be read. */
    ghost predicate Affords(reached: nat, end: Option<Ending>, left: nat)
      requires reached <= |data|
    {
      match end
      case None => left >= 4 + 2 * (|data| - Start(data, reached))
      case Some(e) => e != Killed && left >= 4
    }

    method ReadNext(ghost good: bool, p: Progress, out: seq<string>, reached: nat, lifetime: nat, ghost ends: seq<nat>)
      returns (p': Progress, out': seq<string>, reached': nat, left: nat, end: Option<Ending>, ghost ends': seq<nat>)
      requires Underway(good, p, out, reached, None, ends)
      modifies this
      ensures Underway(good, p', out', reached', end, ends')
      ensures Affords(reached, None, lifetime) ==> Affords(reached', end, left)
      ensures ends' == if end.None? then ends + [reached'] else ends
      ensures end.None? ==> Start(data, reached) < Start(data, reached')
    {
      p', out', reached', left, end, ends' := ReadOne(p, out, reached, lifetime, ends);
      if end == Some(Killed) {
        reached' := reached;
      }
    }

    /** `convert`: resume, read until the file or the clock runs out, flush, and mark completion.  Given time,
        it completes if and only if the state file is not torn and every record still to be read is readable.  A run that
        runs out of time after `clock + 1` records has saved all their rows. */
    method Convert(clock: nat, lifetime: nat) returns (ending: Ending)
      requires Valid()
      modifies this
      ensures Valid()
      ensures ending == Done ==> state.Saved? && state.progress.complete
      ensures old(state).Torn? ==> ending == Failed && state.Torn?
      ensures !old(state).Torn? && !state.Torn? ==> RestReadable() == old(RestReadable())
      ensures ending == TimedOut ==> !old(state).Torn? && !state.Torn? && HasSaved(old(Offset()), clock + 1)
      ensures !old(state).Torn? && clock >= |data| && lifetime >= 2 * |data| + 4 ==>
                (ending == Done <==> old(RestReadable()))
    {
      if state.Torn? {
        return Failed;
      }
      var p := if state.Absent? then NEW_PROGRESS else state.progress;
      if p.complete {
        return Done;
      }
      assert p.offset == Offset();
      ghost var ends;
      var out, reached, left;
      p, out, reached, left, ending, ends := ReadRecords(p, clock, lifetime);
      if ending != Killed && ending != Failed {
        ending := Settle(p, out, reached, left, ending);
      }
    }

    /** Flush what is collected, and mark completion if the source is exhausted. */
    method Settle(p: Progress, out: seq<string>, reached: nat, lifetime: nat, ending: Ending) returns (end: Ending)
      requires Reading(p, out, reached) && Valid() && !state.Torn? && (ending == Done || ending == TimedOut)
      requires ending == Done ==> RowsFrom(data, parse, reached) == [] && RestReadable()
      modifies this
      ensures Valid() && end in {ending, Killed}
      ensures !state.Torn? ==> RestReadable() == old(RestReadable())
      ensures end == Done ==> state.Saved? && state.progress.complete
      ensures end == TimedOut ==> !state.Torn? && RowsFrom(data, parse, Offset()) == RowsFrom(data, parse, reached)
      ensures lifetime >= 4 ==> end == ending
    {
      var p', left, killed := Flush(p, out, reached, lifetime);
      if killed {
        return Killed;
      }
      assert Offset() == p'.offset && RowsFrom(data, parse, p'.offset) == [] + RowsFrom(data, parse, reached);
      end := ending;
      if ending == Done {
        end := MarkComplete(p', left);
      }
    }

    /** The last state write is not atomic: a kill in the middle leaves a state file that cannot be read. */
    method MarkComplete(p: Progress, lifetime: nat) returns (ending: Ending)
      requires Consistent(data, parse, parts, p) && RowsFrom(data, parse, p.offset) == [] && Valid()
      requires !state.Torn? && Offset() == p.offset && ReadableFrom(data, parse, p.offset)
      modifies this`state
      ensures Valid()
      ensures ending == Done ==> state.Saved? && state.progress.complete
      ensures !state.Torn? ==> Offset() == old(Offset())
      ensures (ending == Done || ending == Killed) && (lifetime >= 2 ==> ending == Done)
    {
      if lifetime == 0 {
        return Killed;
      }
      CompleteIsFinished(data, parse, parts, p);
      if lifetime == 1 {
        state := Torn;
        assert Finished(data, parse, parts, p.parts);
        return Killed;
      }
      state := Saved(p.(complete := true));
      return Done;
    }

    /** Any sequence of runs, each timed out or killed wherever it may be.  Once the state says complete, the
        part files are numbered without a gap or an extra one and hold exactly what one run would emit. */
    method Campaign(runs: seq<(nat, nat)>)
      requires Valid()
      modifies this
      ensures Valid()
      ensures !old(state).Torn? && !state.Torn? ==> RestReadable() == old(RestReadable())
      ensures state.Saved? && state.progress.complete ==>
                Finished(data, parse, parts, state.progress.parts) && state.progress.rows == |RowsFrom(data, parse, 0)|
    {
      for n := 0 to |runs|
        invariant Valid()
        invariant !old(state).Torn? && !state.Torn? ==> RestReadable() == old(RestReadable())
        invariant old(state).Torn? ==> state.Torn?
      {
        var _ := Convert(runs[n].0, runs[n].1);
      }
      if state.Saved? && state.progress.complete {
        CompleteIsFinished(data, parse, parts, state.progress);
      }
    }
  }
}
