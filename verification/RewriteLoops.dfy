/** The loops of the rewriter as the program runs them (internal/rollout/sanitize.go and
    context.go), each proved against the function it computes: the buffered line reader
    with its spill, the scan over it, the cleaning of compacted items, and the two textual
    replacements. */
module RewriteLoops {
  import opened Wrappers
  import opened JsonText
  import opened Sanitize
  import opened ContextPatch
  import opened ScanJsonl

  // ---------------------------------------------------------------- reading lines

  datatype ReadError = NoError | BufferFull | EndOfFile

  /** A reader over a file with a fixed buffer: a slice never exceeds the buffer. */
  class LineReader {
    const data: string
    const size: nat
    var at: nat

    ghost predicate Valid()
      reads this
    {
      at <= |data| && 0 < size
    }

    constructor (data: string, size: nat)
      requires 0 < size
      ensures Valid() && this.data == data && this.size == size && at == 0
    {
      this.data, this.size, this.at := data, size, 0;
    }

    /** Up to and including a newline, or a full buffer, or the rest of the file. */
    method ReadSlice() returns (slice: string, err: ReadError)
      requires Valid()
      modifies this
      ensures Valid() && old(at) <= at && slice == data[old(at)..at]
      ensures err.NoError? ==> EndsInNewline(slice) && OneLine(slice)
      ensures !err.NoError? ==> '\n' !in slice
      ensures err.BufferFull? ==> |slice| == size
      ensures err.EndOfFile? ==> at == |data|
    {
      var end := at;
      while end < |data| && end - at < size && data[end] != '\n'
        invariant at <= end <= |data| && end - at <= size
        invariant '\n' !in data[at..end]
      {
        assert data[at..end + 1] == data[at..end] + [data[end]];
        end := end + 1;
      }
      if end - at == size {
        slice, err := data[at..end], BufferFull;
      } else if end < |data| {
        slice, err := data[at..end + 1], NoError;
        assert TrimNewline(slice) == data[at..end];
        end := end + 1;
      } else {
        slice, err := data[at..end], EndOfFile;
      }
      at := end;
    }

    /** One line, whatever its length: full buffers are spilled until the line ends. */
    method ReadLine() returns (line: string, err: ReadError)
      requires Valid()
      modifies this
      ensures Valid() && at == old(at) + |line| && !err.BufferFull?
      ensures line == FirstLine(data[old(at)..]) && data[at..] == AfterLine(data[old(at)..])
      ensures err.EndOfFile? ==> at == |data|
      ensures err.NoError? ==> line != ""
    {
      ghost var start := at;
      line, err := ReadSlice();
      if err == BufferFull {
        var spill := line;
        while err == BufferFull
          invariant Valid() && start <= at && spill == data[start..at]
          invariant !err.NoError? ==> '\n' !in spill
          invariant err.NoError? ==> EndsInNewline(spill) && OneLine(spill)
          invariant err.EndOfFile? ==> at == |data|
          decreases |data| - at, err.BufferFull?
        {
          var piece;
          ghost var before, from := spill, at;
          piece, err := ReadSlice();
          spill := spill + piece;
          JoinSlices(data, start, from, at);
          if err.NoError? { JoinLine(before, piece); } else { JoinFree(before, piece); }
          if err.BufferFull? { assert |piece| == size; }
        }
        line := spill;
      }
      JoinSlices(data, start, at, |data|);
      if line == "" {
        assert at == start;
      } else {
        if !err.NoError? { assert TrimNewline(line) == line; }
        FirstLineOf(line, data[at..]);
      }
    }
  }

  lemma JoinSlices(data: string, a: nat, b: nat, c: nat)
    requires a <= b <= c <= |data|
    ensures data[a..b] + data[b..c] == data[a..c] && data[b..|data|] == data[b..] && data[a..|data|] == data[a..]
  {
  }

  lemma JoinFree(front: string, piece: string)
    requires '\n' !in front && '\n' !in piece
    ensures '\n' !in front + piece
  {
  }

  lemma JoinLine(front: string, piece: string)
    requires '\n' !in front && EndsInNewline(piece) && OneLine(piece)
    ensures EndsInNewline(front + piece) && OneLine(front + piece)
  {
    var line := front + piece;
    assert line[|line| - 1] == piece[|piece| - 1];
    assert TrimNewline(line) == front + TrimNewline(piece);
  }

  // ---------------------------------------------------------------- the scan

  /** What is left of a scan: from its first line, or from a later one. */
  function ScanRest(first: bool, input: string, thread: string, header: bool, paginated: bool, policy: Policy, stop: bool): Outcome {
    if first then ScanFrom(input, thread, header, paginated, policy, stop) else ScanLines(input, paginated, policy, stop)
  }

  /** What was written and counted so far, followed by the rest of a scan. */
  function Join(output: string, result: Result, rest: Outcome): Outcome {
    match rest
    case Failed => Failed
    case Scanned(more, x) =>
      Scanned(output + more, Result(x.paginated, result.changed || x.changed, result.removed + x.removed,
        result.stripped + x.stripped, result.resets + x.resets))
  }

  function Count(result: Result, r: Record, paginated: bool): Result
    requires r.Record?
  {
    Result(paginated, result.changed || r.changed, result.removed + r.removed, result.stripped + r.stripped,
      result.resets + if r.reset then 1 else 0)
  }

  lemma JoinPrepend(output: string, result: Result, r: Record, rest: Outcome, paginated: bool)
    requires r.Record?
    ensures Join(output, result, Prepend(r, rest)) == Join(output + r.bytes, Count(result, r, paginated), rest)
  {
    if rest.Scanned? {
      assert output + (r.bytes + rest.output) == (output + r.bytes) + rest.output;
    }
  }

  lemma JoinDone(output: string, result: Result)
    ensures Join(output, result, Scanned("", NoResult(result.paginated))) == Scanned(output, result)
    ensures forall o: Outcome :: Join("", NoResult(result.paginated), o) == o
  {
    forall o: Outcome
      ensures Join("", NoResult(result.paginated), o) == o
    {
      if o.Scanned? { assert "" + o.output == o.output; }
    }
    assert output + "" == output;
  }

  /** One line of a scan, whether it is the first or a later one. */
  lemma RestStep(first: bool, input: string, thread: string, header: bool, paginated: bool, policy: Policy, stop: bool)
    requires input != ""
    ensures var line := FirstLine(input);
      var mode := if first && header then HeaderMode(line) else Some(paginated);
      ScanRest(first, input, thread, header, paginated, policy, stop) ==
        if mode.None? then Failed
        else
          var clean := CleanRecord(line, mode.value, policy);
          var r := PadRecord(line, clean, policy.preserveOffsets || mode.value);
          if clean.RecordFailed? || (first && thread != "" && !SessionMeta(clean.bytes, thread)) || r.RecordFailed? then Failed
          else if stop && r.changed then Prepend(r, Scanned("", NoResult(mode.value)))
          else Prepend(r, ScanLines(AfterLine(input), mode.value, policy, stop))
  {
    hide FirstLine, AfterLine, HeaderMode, CleanRecord, SessionMeta, PadTo;
  }

  lemma RestDone(first: bool, thread: string, header: bool, paginated: bool, policy: Policy, stop: bool)
    ensures ScanRest(first, "", thread, header, paginated, policy, stop) == Scanned("", NoResult(paginated))
  {
  }

  /** The scan as the program runs it: one record after another through the reader, the
      output and the counters accumulated, leaving early once a change is certain. */
  method ScanJsonlFrom(reader: LineReader, thread: string, stop: bool, header: bool, mode: bool, policy: Policy)
    returns (outcome: Outcome)
    requires reader.Valid()
    modifies reader
    ensures outcome == ScanFrom(old(reader.data[reader.at..]), thread, header, mode, policy, stop)
  {
    hide ScanRest, ScanFrom, ScanLines, HeaderMode, CleanRecord, SessionMeta, PadRecord, FirstLine, AfterLine, OneLine, EndsInNewline, Join, Prepend;
    ghost var input := reader.data[reader.at..];
    assert ScanFrom(input, thread, header, mode, policy, stop) == ScanRest(true, input, thread, header, mode, policy, stop) by { FirstRest(input, thread, header, mode, policy, stop); }
    var paginated := mode;
    var output := "";
    var result := NoResult(mode);
    var lineNumber := 0;
    var more := true;
    JoinDone("", NoResult(mode));
    while more
      invariant reader.Valid() && (!more ==> reader.at == |reader.data|)
      invariant result.paginated == paginated && (stop ==> !result.changed)
      invariant Join(output, result, ScanRest(lineNumber == 0, reader.data[reader.at..], thread, header, paginated, policy, stop))
        == ScanFrom(input, thread, header, mode, policy, stop)
      decreases |reader.data| - reader.at, more
    {
      ghost var rest := reader.data[reader.at..];
      var line, err := reader.ReadLine();
      if line != "" {
        assert rest != "" by { FirstOfNothing(rest); }
        RestStep(lineNumber == 0, rest, thread, header, paginated, policy, stop);
        lineNumber := lineNumber + 1;
        if lineNumber == 1 && header {
          var declared := HeaderMode(line);
          if declared.None? {
            JoinFailed(output, result);
            return Failed;
          }
          paginated := declared.value;
        }
        var clean := CleanRecord(line, paginated, policy);
        if clean.RecordFailed? || (lineNumber == 1 && thread != "" && !SessionMeta(clean.bytes, thread)) {
          JoinFailed(output, result);
          return Failed;
        }
        var r := PadRecord(line, clean, policy.preserveOffsets || paginated);
        if r.RecordFailed? {
          JoinFailed(output, result);
          return Failed;
        }
        JoinPrepend(output, result, r, if stop && r.changed then Scanned("", NoResult(paginated)) else ScanLines(reader.data[reader.at..], paginated, policy, stop), paginated);
        output := output + r.bytes;
        result := Count(result, r, paginated);
        if stop && result.changed {
          JoinDone(output, result);
          return Scanned(output, result);
        }
        LaterRest(reader.data[reader.at..], thread, header, paginated, policy, stop);
      }
      more := err != EndOfFile;
    }
    assert reader.data[reader.at..] == "";
    RestDone(lineNumber == 0, thread, header, paginated, policy, stop);
    JoinDone(output, result);
    return Scanned(output, result);
  }

  lemma FirstRest(input: string, thread: string, header: bool, paginated: bool, policy: Policy, stop: bool)
    ensures ScanFrom(input, thread, header, paginated, policy, stop) == ScanRest(true, input, thread, header, paginated, policy, stop)
  {
    hide ScanFrom;
  }

  lemma LaterRest(input: string, thread: string, header: bool, paginated: bool, policy: Policy, stop: bool)
    ensures ScanLines(input, paginated, policy, stop) == ScanRest(false, input, thread, header, paginated, policy, stop)
  {
    hide ScanLines;
  }

  lemma FirstOfNothing(s: string)
    ensures s == "" ==> FirstLine(s) == ""
  {
  }

  lemma JoinFailed(output: string, result: Result)
    ensures Join(output, result, Failed) == Failed
  {
  }

  // ---------------------------------------------------------------- compacted items

  /** Items in front of a list. */
  function Chain(front: seq<Value>, back: Elems): Elems
    decreases |front|
  {
    if front == [] then back else Elem("", front[0], "", Chain(front[1..], back))
  }

  lemma {:induction false} ChainSnoc(front: seq<Value>, v: Value, back: Elems)
    ensures Chain(front + [v], back) == Chain(front, Elem("", v, "", back))
    decreases |front|
  {
    if front == [] {
      assert [v][1..] == [];
    } else {
      assert (front + [v])[1..] == front[1..] + [v];
      ChainSnoc(front[1..], v, back);
    }
  }

  /** What the items cleaned so far and the rest of the list amount to. */
  function Finish(clean: seq<Value>, removed: nat, stripped: nat, rest: Option<Cleaned>): Option<Cleaned> {
    match rest
    case None => None
    case Some(c) => Some(Cleaned(Chain(clean, c.items), removed + c.removed, stripped + c.stripped))
  }

  lemma CleanItemsUnfold(es: Elems)
    requires es.Elem?
    ensures CleanItems(es) ==
      match CleanItems(es.rest)
      case None => None
      case Some(c) =>
        match SanitizeItem(Some(es.value))
        case BadItem => None
        case DropItem => Some(Cleaned(c.items, c.removed + 1, c.stripped))
        case KeepItem => Some(Cleaned(Elem("", es.value, "", c.items), c.removed, c.stripped))
        case StripItem(value) => Some(Cleaned(Elem("", value, "", c.items), c.removed, c.stripped + 1))
  {
    hide SanitizeItem;
  }

  /** Cleaning one item and then the rest. */
  lemma FinishStep(clean: seq<Value>, removed: nat, stripped: nat, rest: Elems)
    requires rest.Elem?
    ensures Finish(clean, removed, stripped, CleanItems(rest)) ==
      match SanitizeItem(Some(rest.value))
      case BadItem => None
      case DropItem => Finish(clean, removed + 1, stripped, CleanItems(rest.rest))
      case KeepItem => Finish(clean + [rest.value], removed, stripped, CleanItems(rest.rest))
      case StripItem(value) => Finish(clean + [value], removed, stripped + 1, CleanItems(rest.rest))
  {
    hide SanitizeItem, Chain, CleanItems;
    CleanItemsUnfold(rest);
    var tail := CleanItems(rest.rest);
    if tail.Some? {
      ChainSnoc(clean, rest.value, tail.value.items);
      if SanitizeItem(Some(rest.value)).StripItem? { ChainSnoc(clean, SanitizeItem(Some(rest.value)).value, tail.value.items); }
    }
  }

  /** The cleaning loop: one item after another, dropped, stripped or kept. */
  method SanitizeItems(items: Elems) returns (cleaned: Option<Cleaned>)
    ensures cleaned == CleanItems(items)
  {
    hide SanitizeItem, CleanItems, Finish;
    FinishNothing(items);
    var rest := items;
    var clean: seq<Value> := [];
    var removed, stripped := 0, 0;
    while rest.Elem?
      invariant Finish(clean, removed, stripped, CleanItems(rest)) == CleanItems(items)
      decreases rest
    {
      FinishStep(clean, removed, stripped, rest);
      match SanitizeItem(Some(rest.value)) {
        case BadItem => return None;
        case DropItem => removed := removed + 1;
        case KeepItem => clean := clean + [rest.value];
        case StripItem(value) => clean, stripped := clean + [value], stripped + 1;
      }
      rest := rest.rest;
    }
    FinishDone(clean, removed, stripped);
    cleaned := Some(Cleaned(Chain(clean, NoElems), removed, stripped));
  }

  lemma FinishNothing(items: Elems)
    ensures Finish([], 0, 0, CleanItems(items)) == CleanItems(items)
  {
    hide CleanItems;
  }

  lemma FinishDone(clean: seq<Value>, removed: nat, stripped: nat)
    ensures Finish(clean, removed, stripped, CleanItems(NoElems)) == Some(Cleaned(Chain(clean, NoElems), removed, stripped))
  {
    hide Chain;
  }

  // ---------------------------------------------------------------- the textual replacements

  method IndexOf(line: string, needle: string) returns (at: int)
    ensures if at < 0 then Find(line, needle, 0).None? else Find(line, needle, 0) == Some(at)
  {
    at := 0;
    while at < |line| && !(at + |needle| <= |line| && line[at..at + |needle|] == needle)
      invariant 0 <= at <= |line| && Find(line, needle, 0) == Find(line, needle, at)
    {
      at := at + 1;
    }
    if at == |line| && needle != "" { at := -1; }
  }

  method FieldStart(line: string, key: string) returns (start: int)
    ensures if start < 0 then ValueStart(line, key).None? else ValueStart(line, key) == Some(start)
  {
    var needle := Quoted(key);
    var at := IndexOf(line, needle);
    if at < 0 { return -1; }
    start := at + |needle|;
    while start < |line| && line[start] != ':'
      invariant at + |needle| <= start <= |line|
      invariant FindByte(line, ':', at + |needle|) == FindByte(line, ':', start)
    {
      start := start + 1;
    }
    if start == |line| { return -1; }
    start := start + 1;
    ghost var colon := start;
    while start < |line| && (line[start] == ' ' || line[start] == '\t')
      invariant 0 <= start <= |line| && SkipBlanks(line, start) == SkipBlanks(line, colon)
    {
      start := start + 1;
    }
  }

  method CloseQuote(line: string, from: nat) returns (end: nat)
    requires 0 < from <= |line|
    ensures end == StringEnd(line, from)
  {
    end := from;
    while end < |line| && !(line[end] == '\"' && line[end - 1] != '\\')
      invariant from <= end <= |line| && StringEnd(line, end) == StringEnd(line, from)
    {
      end := end + 1;
    }
  }

  method ReplaceJsonStringField(line: string, key: string, value: string) returns (out: string, ok: bool)
    ensures ok <==> ReplaceStringField(line, key, value).Some?
    ensures out == if ok then ReplaceStringField(line, key, value).value else line
  {
    hide ValueStart, StringEnd, MarshalString;
    var start := FieldStart(line, key);
    if start < 0 || start >= |line| || line[start] != '\"' { return line, false; }
    var end := CloseQuote(line, start + 1);
    if end >= |line| { return line, false; }
    return line[..start] + MarshalString(value) + line[end + 1..], true;
  }

  method ValueEnd(line: string, start: nat) returns (end: nat)
    requires start <= |line|
    ensures end == RawEnd(line, start)
  {
    hide StringEnd;
    end := start;
    if end < |line| && line[end] == '\"' {
      end := CloseQuote(line, end + 1);
      if end < |line| { end := end + 1; }
    } else {
      while end < |line| && line[end] != ',' && line[end] != '}' && line[end] != '\n'
        invariant start <= end <= |line| && BareEnd(line, end) == BareEnd(line, start)
      {
        end := end + 1;
      }
    }
  }

  method ReplaceField(line: string, key: string, value: string) returns (out: string, ok: bool)
    ensures ok <==> ReplaceRawField(line, key, value).Some?
    ensures out == if ok then ReplaceRawField(line, key, value).value else line
  {
    hide ValueStart, RawEnd;
    var start := FieldStart(line, key);
    if start < 0 { return line, false; }
    var end := ValueEnd(line, start);
    return line[..start] + value + line[end..], true;
  }
}
