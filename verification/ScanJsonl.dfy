/** A whole rollout through the sanitizer (internal/rollout/sanitize.go, scanJSONLFrom):
    line by line, with the pagination mode the first line declares, stopping early when
    only a verdict is wanted. */
module ScanJsonl {
  import opened Wrappers
  import opened JsonText
  import opened GoJson
  import opened Sanitize
  import opened SanitizedRecord
  import opened ContextPatch

  // ---------------------------------------------------------------- lines

  /** The first line, with its newline if it has one. */
  function FirstLine(s: string): (line: string)
    ensures line <= s && (s != "" ==> line != "") && OneLine(line)
    ensures EndsInNewline(line) || line == s
  {
    if s == "" then ""
    else if s[0] == '\n' then
      assert TrimNewline(s[..1]) == "";
      s[..1]
    else
      var tail := FirstLine(s[1..]);
      var line := [s[0]] + tail;
      LineGrows(s[0], tail);
      assert line == s[..|line|];
      line
  }

  lemma LineGrows(c: char, tail: string)
    requires OneLine(tail) && c != '\n'
    ensures OneLine([c] + tail) && (EndsInNewline([c] + tail) <==> EndsInNewline(tail))
  {
    var line := [c] + tail;
    if tail != "" {
      assert line[|line| - 1] == tail[|tail| - 1];
      assert TrimNewline(line) == [c] + TrimNewline(tail);
    }
  }

  function AfterLine(s: string): string { s[|FirstLine(s)|..] }

  function Lines(s: string): seq<string> {
    if s == "" then [] else [FirstLine(s)] + Lines(AfterLine(s))
  }

  /** A text that is one line, before anything if it ends in a newline and before nothing otherwise. */
  lemma {:induction false} FirstLineOf(line: string, rest: string)
    requires line != "" && OneLine(line) && (EndsInNewline(line) || rest == "")
    ensures FirstLine(line + rest) == line && AfterLine(line + rest) == rest
  {
    hide FirstLine, OneLine, EndsInNewline;
    var s := line + rest;
    if line[0] == '\n' {
      NewlineFirst(line);
      FirstLineStart(s);
    } else {
      FirstLineStart(s);
      if |line| == 1 {
        NoNewline(line);
        assert s == line && s[1..] == "";
        FirstLineStart("");
      } else {
        TailLine(line);
        FirstLineOf(line[1..], rest);
        assert s[1..] == line[1..] + rest;
      }
      assert line == [line[0]] + line[1..];
    }
    assert s[..|line|] == line && s[|line|..] == rest;
  }

  /** How the first line starts. */
  lemma FirstLineStart(s: string)
    ensures s == "" ==> FirstLine(s) == ""
    ensures s != "" && s[0] == '\n' ==> FirstLine(s) == s[..1] == "\n"
    ensures s != "" && s[0] != '\n' ==> FirstLine(s) == [s[0]] + FirstLine(s[1..])
  {
    hide OneLine, EndsInNewline;
  }

  lemma NewlineFirst(line: string)
    requires line != "" && OneLine(line) && line[0] == '\n'
    ensures line == "\n"
  {
    assert line[0] in line[..|line| - 1] || |line| == 1 by { FirstInFront(line); }
  }

  lemma FirstInFront(line: string)
    requires line != ""
    ensures |line| > 1 ==> line[0] in line[..|line| - 1]
  {
    if |line| > 1 { assert line[..|line| - 1][0] == line[0]; }
  }

  lemma NoNewline(line: string)
    requires |line| == 1 && line[0] != '\n'
    ensures !EndsInNewline(line)
  {
  }

  lemma TailLine(line: string)
    requires |line| > 1 && OneLine(line)
    ensures OneLine(line[1..]) && (EndsInNewline(line[1..]) <==> EndsInNewline(line))
  {
    assert line[1..][|line| - 2] == line[|line| - 1];
    assert TrimNewline(line[1..]) == TrimNewline(line)[1..];
  }

  // ---------------------------------------------------------------- the first line

  /** What the header says: whether an ordinal is present, and the history mode. */
  datatype Header = Header(ordinal: bool, mode: string)

  predicate IsNull(v: Value) { v == Lit("null") }

  function DecodeMode(ms: Members, mode: string): Decoded<string> {
    match ms
    case NoMembers => Decoded(mode, true)
    case Member(_, key, _, _, value, _, rest) =>
      var first := if Fold(Unquote(key)) == "history_mode" then DecodeString(value, mode) else Decoded(mode, true);
      var others := DecodeMode(rest, first.value);
      Decoded(others.value, first.ok && others.ok)
  }

  function DecodeHeaderField(h: Header, field: string, v: Value): Decoded<Header> {
    if field == "ordinal" then
      if IsNull(v) then Decoded(h.(ordinal := false), true)
      else Decoded(h.(ordinal := true), IsOrdinal(v))
    else if field == "payload" then
      match v
      case Obj(_, members) =>
        var d := DecodeMode(members, h.mode);
        Decoded(h.(mode := d.value), d.ok)
      case _ => Decoded(h, IsNull(v))
    else Decoded(h, true)
  }

  function DecodeHeaderMembers(ms: Members, h: Header): Decoded<Header> {
    match ms
    case NoMembers => Decoded(h, true)
    case Member(_, key, _, _, value, _, rest) =>
      var first := DecodeHeaderField(h, Fold(Unquote(key)), value);
      var others := DecodeHeaderMembers(rest, first.value);
      Decoded(others.value, first.ok && others.ok)
  }

  /** The pagination mode the first line declares; None if it does not decode. */
  function HeaderMode(line: string): Option<bool> {
    match Parse(line)
    case Bad => None
    case Got(doc, _) =>
      var d := match doc.value
        case Obj(_, members) => DecodeHeaderMembers(members, Header(false, ""))
        case v => Decoded(Header(false, ""), IsNull(v));
      if d.ok then Some(d.value.mode == "paginated" || d.value.ordinal) else None
  }

  function DecodeId(ms: Members, id: string): Decoded<string> {
    match ms
    case NoMembers => Decoded(id, true)
    case Member(_, key, _, _, value, _, rest) =>
      var first := if Fold(Unquote(key)) == "id" then DecodeString(value, id) else Decoded(id, true);
      var others := DecodeId(rest, first.value);
      Decoded(others.value, first.ok && others.ok)
  }

  datatype Meta = Meta(typ: string, id: string)

  function DecodeMeta(ms: Members, m: Meta): Decoded<Meta> {
    match ms
    case NoMembers => Decoded(m, true)
    case Member(_, key, _, _, value, _, rest) =>
      var field := Fold(Unquote(key));
      var typ := if field == "type" then DecodeString(value, m.typ) else Decoded(m.typ, true);
      var id := if field != "payload" then Decoded(m.id, true)
        else match value
          case Obj(_, members) => DecodeId(members, m.id)
          case _ => Decoded(m.id, IsNull(value));
      var others := DecodeMeta(rest, Meta(typ.value, id.value));
      Decoded(others.value, typ.ok && id.ok && others.ok)
  }

  /** The first line is the session metadata of the thread. */
  predicate SessionMeta(line: string, thread: string) {
    match Parse(line)
    case Bad => false
    case Got(doc, _) =>
      match doc.value
      case Obj(_, members) => DecodeMeta(members, Meta("", "")) == Decoded(Meta("session_meta", thread), true)
      case _ => false
  }

  // ---------------------------------------------------------------- one record

  datatype Record = RecordFailed | Record(bytes: string, changed: bool, removed: nat, stripped: nat, reset: bool)

  /** Context patch, then sanitation; a patch that would lengthen the record is undone,
      though it stays counted as a reset. */
  function CleanRecord(line: string, paginated: bool, policy: Policy): Record {
    match CleanContext(line, policy)
    case PatchError => RecordFailed
    case Untouched =>
      (match SanitizeLine(line, paginated)
       case LineError => RecordFailed
       case Line(bytes, changed, removed, stripped) => Record(bytes, changed, removed, stripped, false))
    case Patched(text) =>
      match SanitizeLine(text, paginated)
      case LineError => RecordFailed
      case Line(bytes, _, removed, stripped) =>
        if |bytes| > |line| then Record(line, false, removed, stripped, true)
        else Record(bytes, true, removed, stripped, true)
  }

  function PadTo(bytes: string, size: nat): (s: string)
    requires |bytes| <= size
    ensures |s| == size
  {
    if EndsInNewline(bytes) then TrimNewline(bytes) + Spaces(size - |bytes|) + "\n"
    else bytes + Spaces(size - |bytes|)
  }

  /** A changed record keeps its length where offsets matter, or the scan fails. */
  function PadRecord(line: string, r: Record, offsets: bool): Record {
    if r.RecordFailed? || !r.changed || !offsets then r
    else if |r.bytes| > |line| then RecordFailed
    else r.(bytes := PadTo(r.bytes, |line|))
  }

  function ScanRecord(line: string, paginated: bool, policy: Policy): Record {
    PadRecord(line, CleanRecord(line, paginated, policy), policy.preserveOffsets || paginated)
  }

  // ---------------------------------------------------------------- the scan

  datatype Result = Result(paginated: bool, changed: bool, removed: nat, stripped: nat, resets: nat)

  datatype Outcome = Failed | Scanned(output: string, result: Result)

  function NoResult(paginated: bool): Result { Result(paginated, false, 0, 0, 0) }

  function Prepend(r: Record, rest: Outcome): Outcome
    requires r.Record?
  {
    match rest
    case Failed => Failed
    case Scanned(output, x) =>
      Scanned(r.bytes + output,
        Result(x.paginated, r.changed || x.changed, r.removed + x.removed, r.stripped + x.stripped,
          (if r.reset then 1 else 0) + x.resets))
  }

  /** The lines after the first. */
  function ScanLines(input: string, paginated: bool, policy: Policy, stop: bool): Outcome {
    if input == "" then Scanned("", NoResult(paginated))
    else
      var r := ScanRecord(FirstLine(input), paginated, policy);
      if r.RecordFailed? then Failed
      else if stop && r.changed then Prepend(r, Scanned("", NoResult(paginated)))
      else Prepend(r, ScanLines(AfterLine(input), paginated, policy, stop))
  }

  /** A scan: the mode is read off the first line if it is the header, and given otherwise;
      the first line must be the metadata of the thread unless the thread is empty. */
  function ScanFrom(input: string, thread: string, header: bool, paginated: bool, policy: Policy, stop: bool): Outcome {
    if input == "" then Scanned("", NoResult(paginated))
    else
      var line := FirstLine(input);
      var mode := if header then HeaderMode(line) else Some(paginated);
      if mode.None? then Failed
      else
        var clean := CleanRecord(line, mode.value, policy);
        if clean.RecordFailed? || (thread != "" && !SessionMeta(clean.bytes, thread)) then Failed
        else
          var r := PadRecord(line, clean, policy.preserveOffsets || mode.value);
          if r.RecordFailed? then Failed
          else if stop && r.changed then Prepend(r, Scanned("", NoResult(mode.value)))
          else Prepend(r, ScanLines(AfterLine(input), mode.value, policy, stop))
  }

  /** The rewrite of a whole file. */
  function Rewrite(input: string, thread: string, policy: Policy): Outcome {
    ScanFrom(input, thread, true, false, policy, false)
  }

  /** The inspection of a whole file. */
  function Inspect(input: string, thread: string, policy: Policy): Outcome {
    ScanFrom(input, thread, true, false, policy, true)
  }

  // ---------------------------------------------------------------- a record stays on its line

  lemma PatchKeepsLine(line: string, text: string, paginated: bool, policy: Policy)
    requires OneLine(line) && CleanContext(line, policy) == Patched(text) && SanitizeLine(text, paginated).Line?
    ensures OneLine(text) && EndsInNewline(text) == EndsInNewline(line)
  {
    hide ReplaceStringField, ReplaceRawField, Parse, FieldsOf, OneLine, Find, ForeignModel;
    var model := ReplaceStringField(line, "model", policy.model);
    ReplaceStringOneLine(line, "model", policy.model);
    if ReplaceRawField(model.value, "comp_hash", "null").Some? {
      FastRefinesSlow(text, paginated);
      assert Parse(TrimNewline(text)).Got?;
      ReplaceRawOneLine(model.value, "comp_hash");
    }
  }

  lemma SanitizeKeepsLine(line: string, paginated: bool)
    requires OneLine(line) && SanitizeLine(line, paginated).Line?
    ensures var bytes := SanitizeLine(line, paginated).bytes;
      OneLine(bytes) && EndsInNewline(bytes) == EndsInNewline(line) && bytes != ""
  {
    RewrittenRecord(line, paginated);
    var bytes := SanitizeLine(line, paginated).bytes;
    if bytes == "" {
      assert EnvelopeOf(bytes).Some?;
      EmptyIsBad();
    }
    hide SanitizeLine, EnvelopeOf, ItemsOf, StaleCount, SameEnvelope;
  }

  lemma EmptyIsBad()
    ensures Parse("").Bad? && EnvelopeOf("").None?
  {
  }

  lemma CleanKeepsLine(line: string, paginated: bool, policy: Policy)
    requires line != "" && OneLine(line) && CleanRecord(line, paginated, policy).Record?
    ensures var r := CleanRecord(line, paginated, policy);
      OneLine(r.bytes) && EndsInNewline(r.bytes) == EndsInNewline(line) && r.bytes != ""
  {
    hide SanitizeLine, CleanContext, OneLine;
    match CleanContext(line, policy)
    case PatchError =>
    case Untouched => SanitizeKeepsLine(line, paginated);
    case Patched(text) =>
      PatchKeepsLine(line, text, paginated, policy);
      SanitizeKeepsLine(text, paginated);
  }

  lemma PadKeepsLine(bytes: string, size: nat)
    requires bytes != "" && OneLine(bytes) && |bytes| <= size
    ensures OneLine(PadTo(bytes, size)) && EndsInNewline(PadTo(bytes, size)) == EndsInNewline(bytes)
  {
    var pad := Spaces(size - |bytes|);
    var out := PadTo(bytes, size);
    if EndsInNewline(bytes) {
      assert TrimNewline(out) == TrimNewline(bytes) + pad;
    } else {
      assert bytes == TrimNewline(bytes);
      assert '\n' !in out;
    }
  }

  /** A scanned record is one line, ends in a newline exactly if it did, and keeps its
      length where offsets matter. */
  lemma RecordKeepsLine(line: string, r: Record, offsets: bool)
    requires r.Record? && r.bytes != "" && OneLine(r.bytes) && EndsInNewline(r.bytes) == EndsInNewline(line)
    requires PadRecord(line, r, offsets).Record?
    requires !r.changed ==> r.bytes == line
    ensures var p := PadRecord(line, r, offsets);
      p.bytes != "" && OneLine(p.bytes) && EndsInNewline(p.bytes) == EndsInNewline(line) &&
      (offsets ==> |p.bytes| == |line|)
  {
    if r.changed && offsets {
      PadKeepsLine(r.bytes, |line|);
    }
    hide OneLine, EndsInNewline, PadTo;
  }

  lemma UnchangedBytes(line: string, paginated: bool, policy: Policy)
    requires CleanRecord(line, paginated, policy).Record? && !CleanRecord(line, paginated, policy).changed
    ensures CleanRecord(line, paginated, policy).bytes == line
  {
    FastRefinesSlow(line, paginated);
    hide CleanContext, Parse, FieldsOf, SanitizeEnvelope, Encode;
  }

  lemma ScanRecordKeepsLine(line: string, paginated: bool, policy: Policy)
    requires line != "" && OneLine(line) && ScanRecord(line, paginated, policy).Record?
    ensures var p := ScanRecord(line, paginated, policy);
      p.bytes != "" && OneLine(p.bytes) && EndsInNewline(p.bytes) == EndsInNewline(line) &&
      (policy.preserveOffsets || paginated ==> |p.bytes| == |line|)
  {
    hide CleanRecord, OneLine;
    var r := CleanRecord(line, paginated, policy);
    CleanKeepsLine(line, paginated, policy);
    if !r.changed { UnchangedBytes(line, paginated, policy); }
    RecordKeepsLine(line, r, policy.preserveOffsets || paginated);
  }

  // ---------------------------------------------------------------- offsets

  /** The same number of records, of the same lengths, with the same newlines. */
  predicate SameShape(a: seq<string>, b: seq<string>) {
    |a| == |b| && forall i :: 0 <= i < |a| ==> |a[i]| == |b[i]| && EndsInNewline(a[i]) == EndsInNewline(b[i])
  }

  lemma ConsShape(x: string, xs: seq<string>, y: string, ys: seq<string>)
    requires |x| == |y| && EndsInNewline(x) == EndsInNewline(y) && SameShape(xs, ys)
    ensures SameShape([x] + xs, [y] + ys)
  {
    hide EndsInNewline;
  }

  lemma OutputLines(line: string, bytes: string, rest: string, output: string)
    requires line != "" && OneLine(line) && bytes != "" && OneLine(bytes)
    requires EndsInNewline(bytes) == EndsInNewline(line)
    requires (EndsInNewline(line) || rest == "") && (rest == "" ==> output == "")
    ensures Lines(bytes + output) == [bytes] + Lines(output)
    ensures Lines(line + rest) == [line] + Lines(rest)
  {
    FirstLineOf(line, rest);
    FirstLineOf(bytes, output);
    hide OneLine, EndsInNewline, FirstLine, AfterLine;
  }

  lemma StepShape(line: string, bytes: string, rest: string, output: string)
    requires line != "" && OneLine(line) && bytes != "" && OneLine(bytes)
    requires EndsInNewline(bytes) == EndsInNewline(line) && |bytes| == |line|
    requires (EndsInNewline(line) || rest == "") && (rest == "" ==> output == "")
    requires SameShape(Lines(rest), Lines(output))
    ensures SameShape(Lines(line + rest), Lines(bytes + output))
  {
    hide OneLine, EndsInNewline, SameShape, Lines;
    OutputLines(line, bytes, rest, output);
    ConsShape(line, Lines(rest), bytes, Lines(output));
  }

  lemma EmptyScan(paginated: bool, policy: Policy, stop: bool)
    ensures ScanLines("", paginated, policy, stop) == Scanned("", NoResult(paginated))
    ensures SameShape(Lines(""), Lines(""))
  {
  }

  lemma Split(input: string)
    ensures input == FirstLine(input) + AfterLine(input)
    ensures EndsInNewline(FirstLine(input)) || AfterLine(input) == ""
  {
    hide EndsInNewline;
  }

  /** One line of a scan that goes on. */
  lemma ScanLinesStep(input: string, paginated: bool, policy: Policy, stop: bool)
    requires input != "" && ScanLines(input, paginated, policy, stop).Scanned?
    ensures var r := ScanRecord(FirstLine(input), paginated, policy);
      r.Record? &&
      (!(stop && r.changed) ==>
        ScanLines(AfterLine(input), paginated, policy, stop).Scanned? &&
        ScanLines(input, paginated, policy, stop) == Prepend(r, ScanLines(AfterLine(input), paginated, policy, stop)))
  {
    hide ScanRecord, FirstLine, AfterLine;
  }

  lemma {:induction false} ScanLinesShape(input: string, paginated: bool, policy: Policy)
    requires policy.preserveOffsets || paginated
    requires ScanLines(input, paginated, policy, false).Scanned?
    ensures SameShape(Lines(input), Lines(ScanLines(input, paginated, policy, false).output))
    decreases |input|
  {
    hide ScanRecord, OneLine, EndsInNewline, SameShape, Lines, ScanLines;
    EmptyScan(paginated, policy, false);
    if input != "" {
      var line := FirstLine(input);
      var rest := AfterLine(input);
      Split(input);
      hide FirstLine, AfterLine;
      ScanLinesStep(input, paginated, policy, false);
      var r := ScanRecord(line, paginated, policy);
      ScanRecordKeepsLine(line, paginated, policy);
      ScanLinesShape(rest, paginated, policy);
      StepShape(line, r.bytes, rest, ScanLines(rest, paginated, policy, false).output);
    }
  }

  lemma ScanLinesMode(input: string, paginated: bool, policy: Policy, stop: bool)
    requires ScanLines(input, paginated, policy, stop).Scanned?
    ensures ScanLines(input, paginated, policy, stop).result.paginated == paginated
  {
    hide ScanRecord;
    if input != "" && !(stop && ScanRecord(FirstLine(input), paginated, policy).changed) {
      ScanLinesMode(AfterLine(input), paginated, policy, stop);
    }
  }

  /** The shape: a successful rewrite of a paginated rollout, or of any rollout
      whose offsets others rely on, keeps every record's place and length. */
  lemma ShapeKept(input: string, thread: string, policy: Policy)
    requires Rewrite(input, thread, policy).Scanned?
    requires policy.preserveOffsets || Rewrite(input, thread, policy).result.paginated
    ensures SameShape(Lines(input), Lines(Rewrite(input, thread, policy).output))
  {
    hide CleanRecord, OneLine, EndsInNewline, HeaderMode, SessionMeta, ScanLines, SameShape, Lines, ScanFrom;
    EmptyScan(false, policy, false);
    if input != "" {
      ScanFromStep(input, thread, true, false, policy, false);
      var line := FirstLine(input);
      var rest := AfterLine(input);
      Split(input);
      hide FirstLine, AfterLine;
      var mode := HeaderMode(line).value;
      var clean := CleanRecord(line, mode, policy);
      var r := PadRecord(line, clean, policy.preserveOffsets || mode);
      ScanLinesMode(rest, mode, policy, false);
      CleanKeepsLine(line, mode, policy);
      if !clean.changed { UnchangedBytes(line, mode, policy); }
      RecordKeepsLine(line, clean, policy.preserveOffsets || mode);
      ScanLinesShape(rest, mode, policy);
      EmptyScan(mode, policy, false);
      StepShape(line, r.bytes, rest, ScanLines(rest, mode, policy, false).output);
    } else {
      assert ScanFrom("", thread, true, false, policy, false).output == "" by { EmptyFile(thread, policy); }
    }
  }

  lemma EmptyFile(thread: string, policy: Policy)
    ensures Rewrite("", thread, policy) == Scanned("", NoResult(false)) == Inspect("", thread, policy)
  {
  }

  /** The first line of a scan that succeeds. */
  lemma ScanFromStep(input: string, thread: string, header: bool, paginated: bool, policy: Policy, stop: bool)
    requires input != "" && ScanFrom(input, thread, header, paginated, policy, stop).Scanned?
    ensures var line := FirstLine(input);
      var mode := if header then HeaderMode(line) else Some(paginated);
      mode.Some? &&
      (var clean := CleanRecord(line, mode.value, policy);
       clean.Record? && (thread != "" ==> SessionMeta(clean.bytes, thread)) &&
       (var r := PadRecord(line, clean, policy.preserveOffsets || mode.value);
        r.Record? &&
        (!(stop && r.changed) ==>
          ScanLines(AfterLine(input), mode.value, policy, stop).Scanned? &&
          ScanFrom(input, thread, header, paginated, policy, stop)
            == Prepend(r, ScanLines(AfterLine(input), mode.value, policy, stop)))))
  {
    hide CleanRecord, PadRecord, FirstLine, AfterLine, HeaderMode, SessionMeta, ScanLines;
  }
}
