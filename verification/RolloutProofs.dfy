/** What a whole scan promises: offsets that other files rely on, an incremental scan
    that decides as the full scan does, and a rewrite that is clean and settled. */
module RolloutProofs {
  import opened Wrappers
  import opened JsonText
  import opened GoJson
  import opened Sanitize
  import opened SanitizedRecord
  import opened ContextPatch
  import opened ContextEffect
  import opened ScanJsonl

  // ---------------------------------------------------------------- record boundaries

  /** An offset at which a record starts, or the end of the last one. */
  predicate Boundary(s: string, k: nat) { k == 0 || (k <= |s| && s[k - 1] == '\n') }

  lemma {:induction false} ShapeKeepsBoundaries(a: string, b: string, k: nat)
    requires SameShape(Lines(a), Lines(b))
    ensures |a| == |b| && (Boundary(a, k) <==> Boundary(b, k))
    decreases |a|
  {
    hide Lines, FirstLine, AfterLine, Boundary, SameShape, EndsInNewline;
    LinesSplit(a);
    LinesSplit(b);
    ShapeEmpty(Lines(a), Lines(b));
    if a != "" && b != "" {
      var x, y := FirstLine(a), FirstLine(b);
      TailShape(x, Lines(AfterLine(a)), y, Lines(AfterLine(b)));
      ShapeKeepsBoundaries(AfterLine(a), AfterLine(b), if k > |x| then k - |x| else 0);
      LineBoundary(a, k);
      LineBoundary(b, k);
    }
  }

  lemma ShapeEmpty(xs: seq<string>, ys: seq<string>)
    requires SameShape(xs, ys)
    ensures xs == [] <==> ys == []
  {
  }

  lemma LinesSplit(s: string)
    ensures Lines(s) == [] <==> s == ""
    ensures s != "" ==> Lines(s) == [FirstLine(s)] + Lines(AfterLine(s)) && |AfterLine(s)| < |s|
    ensures |s| == |FirstLine(s)| + |AfterLine(s)|
  {
  }

  lemma TailShape(x: string, xs: seq<string>, y: string, ys: seq<string>)
    requires SameShape([x] + xs, [y] + ys)
    ensures |x| == |y| && EndsInNewline(x) == EndsInNewline(y) && SameShape(xs, ys)
  {
    hide EndsInNewline;
    var p, q := [x] + xs, [y] + ys;
    assert p[0] == x && q[0] == y;
    assert forall i :: 0 <= i < |xs| ==> xs[i] == p[i + 1];
    assert forall i :: 0 <= i < |ys| ==> ys[i] == q[i + 1];
  }

  /** A boundary is in the first line only at its end. */
  lemma LineBoundary(s: string, k: nat)
    requires s != ""
    ensures Boundary(s, k) <==>
      k == 0 || (k == |FirstLine(s)| && EndsInNewline(FirstLine(s))) || (k > |FirstLine(s)| && Boundary(AfterLine(s), k - |FirstLine(s)|))
  {
    hide FirstLine, OneLine;
    var line := FirstLine(s);
    assert s[..|line|] == line && OneLine(line);
    if 0 < k < |line| {
      assert s[k - 1] == line[k - 1];
      InsideLine(line, k - 1);
    } else if k == |line| {
      assert s[k - 1] == line[k - 1];
    } else if |line| < k <= |s| {
      assert AfterLine(s)[k - |line| - 1] == s[k - 1];
    }
  }

  lemma InsideLine(line: string, i: nat)
    requires OneLine(line) && i + 1 < |line|
    ensures line[i] != '\n'
  {
    assert TrimNewline(line)[i] == line[i];
  }

  // ---------------------------------------------------------------- the incremental scan

  /** The same error verdict, the same changed verdict and the same pagination mode. */
  predicate SameVerdict(a: Outcome, b: Outcome) {
    a.Failed? == b.Failed? &&
    (a.Scanned? ==> a.result.changed == b.result.changed && a.result.paginated == b.result.paginated)
  }

  predicate Whole(s: string) { s == "" || EndsInNewline(s) }

  lemma FirstOfBoth(p: string, s: string)
    requires p != "" && EndsInNewline(p)
    ensures FirstLine(p + s) == FirstLine(p) && AfterLine(p + s) == AfterLine(p) + s && Whole(AfterLine(p))
  {
    hide FirstLine, AfterLine, OneLine, EndsInNewline;
    Split(p);
    var line, rest := FirstLine(p), AfterLine(p);
    LinesSplit(p);
    LastOfBoth(line, rest);
    Regroup(line, rest, s);
    FirstLineOf(line, rest + s);
  }

  /** A text in two parts ends as its second part does, if there is one. */
  lemma LastOfBoth(line: string, rest: string)
    ensures rest != "" ==> EndsInNewline(line + rest) == EndsInNewline(rest)
    ensures rest == "" ==> line + rest == line
  {
    if rest != "" { assert (line + rest)[|line + rest| - 1] == rest[|rest| - 1]; }
  }

  lemma {:induction false} ScanLinesAppend(p: string, s: string, mode: bool, policy: Policy)
    requires Whole(p)
    requires ScanLines(p, mode, policy, true).Scanned? && !ScanLines(p, mode, policy, true).result.changed
    ensures SameVerdict(ScanLines(p + s, mode, policy, true), ScanLines(s, mode, policy, true))
    decreases |p|
  {
    hide ScanLines, ScanRecord, FirstLine, AfterLine, EndsInNewline;
    if p == "" {
      assert p + s == s;
    } else {
      FirstOfBoth(p, s);
      LinesSplit(p);
      UnchangedStep(p, mode, policy);
      assert p + s != "";
      ScanLinesUnfold(p + s, mode, policy, true);
      ScanLinesAppend(AfterLine(p), s, mode, policy);
    }
  }

  /** The first line of a scan that changes nothing. */
  lemma UnchangedStep(p: string, mode: bool, policy: Policy)
    requires p != "" && ScanLines(p, mode, policy, true).Scanned? && !ScanLines(p, mode, policy, true).result.changed
    ensures ScanRecord(FirstLine(p), mode, policy).Record? && !ScanRecord(FirstLine(p), mode, policy).changed
    ensures var rest := ScanLines(AfterLine(p), mode, policy, true); rest.Scanned? && !rest.result.changed
  {
    hide ScanLines, ScanRecord, FirstLine, AfterLine;
    ScanLinesUnfold(p, mode, policy, true);
  }

  /** Without a header and a thread, the scan is the scan of the later lines. */
  lemma SuffixScan(s: string, mode: bool, policy: Policy)
    ensures ScanFrom(s, "", false, mode, policy, true) == ScanLines(s, mode, policy, true)
  {
    hide CleanRecord, FirstLine, AfterLine, PadTo, HeaderMode, SessionMeta, ScanLines;
    if s == "" {
      EmptyScan(mode, policy, true);
    } else {
      ScanLinesUnfold(s, mode, policy, true);
    }
  }

  lemma ScanLinesUnfold(s: string, mode: bool, policy: Policy, stop: bool)
    requires s != ""
    ensures ScanLines(s, mode, policy, stop) ==
      var r := ScanRecord(FirstLine(s), mode, policy);
      if r.RecordFailed? then Failed
      else if stop && r.changed then Prepend(r, Scanned("", NoResult(mode)))
      else Prepend(r, ScanLines(AfterLine(s), mode, policy, stop))
  {
    hide ScanRecord, FirstLine, AfterLine;
  }

  /** The incremental scan decides as the full scan does: after a clean prefix that ends
      in a newline, scanning only the suffix in the saved mode, with no header and no
      thread check, gives the same error, the same verdict and the same mode. */
  lemma IncrementalIsFull(prefix: string, suffix: string, thread: string, policy: Policy)
    requires prefix != "" && EndsInNewline(prefix)
    requires Inspect(prefix, thread, policy).Scanned? && !Inspect(prefix, thread, policy).result.changed
    ensures SameVerdict(Inspect(prefix + suffix, thread, policy),
              ScanFrom(suffix, "", false, Inspect(prefix, thread, policy).result.paginated, policy, true))
  {
    hide CleanRecord, HeaderMode, SessionMeta, ScanLines, PadRecord, ScanFrom;
    ScanFromStep(prefix, thread, true, false, policy, true);
    FirstOfBoth(prefix, suffix);
    hide FirstLine, AfterLine, EndsInNewline;
    var line := FirstLine(prefix);
    var mode := HeaderMode(line).value;
    var rest := AfterLine(prefix);
    var r := PadRecord(line, CleanRecord(line, mode, policy), policy.preserveOffsets || mode);
    FirstUnchanged(prefix, thread, policy);
    ScanLinesMode(rest, mode, policy, true);
    ScanLinesAppend(rest, suffix, mode, policy);
    SuffixScan(suffix, mode, policy);
    ScanFromUnfold(prefix + suffix, thread, policy, mode) by { assert prefix + suffix != ""; }
  }

  lemma FirstUnchanged(s: string, thread: string, policy: Policy)
    requires s != "" && Inspect(s, thread, policy).Scanned? && !Inspect(s, thread, policy).result.changed
    ensures HeaderMode(FirstLine(s)).Some?
    ensures var mode := HeaderMode(FirstLine(s)).value;
      var r := PadRecord(FirstLine(s), CleanRecord(FirstLine(s), mode, policy), policy.preserveOffsets || mode);
      r.Record? && !r.changed
  {
    hide CleanRecord, HeaderMode, SessionMeta, ScanLines, PadRecord, FirstLine, AfterLine;
  }

  lemma ScanFromUnfold(s: string, thread: string, policy: Policy, mode: bool)
    requires s != "" && HeaderMode(FirstLine(s)) == Some(mode)
    requires var clean := CleanRecord(FirstLine(s), mode, policy);
      clean.Record? && (thread != "" ==> SessionMeta(clean.bytes, thread)) &&
      (var r := PadRecord(FirstLine(s), clean, policy.preserveOffsets || mode);
       r.Record? && !r.changed)
    ensures var r := PadRecord(FirstLine(s), CleanRecord(FirstLine(s), mode, policy), policy.preserveOffsets || mode);
      Inspect(s, thread, policy) == Prepend(r, ScanLines(AfterLine(s), mode, policy, true))
  {
    hide CleanRecord, HeaderMode, SessionMeta, ScanLines, PadRecord, FirstLine, AfterLine;
  }

  // ---------------------------------------------------------------- settled records

  /** A line the rewriter accepts and leaves alone in either mode. */
  ghost predicate Settled(line: string) {
    EnvelopeOf(line).Some? && forall mode :: SanitizeEnvelope(EnvelopeOf(line).value, mode) == Same
  }

  lemma SettledIsSame(line: string, mode: bool)
    requires Settled(line)
    ensures SanitizeLine(line, mode) == Line(line, false, 0, 0)
    ensures StaleCount(ItemsOf(line)) == 0
  {
    FastRefinesSlow(line, mode);
    SameHasNoStale(EnvelopeOf(line).value, mode);
    hide Parse, FieldsOf, SanitizeEnvelope, ContextItems;
  }

  lemma RecordSettles(line: string, mode: bool)
    requires SanitizeLine(line, mode).Line?
    ensures Settled(SanitizeLine(line, mode).bytes)
  {
    FastRefinesSlow(line, mode);
    hide SanitizeEnvelope, Parse, FieldsOf;
    if SanitizeLine(line, mode).changed {
      RewrittenSame(line, mode, mode);
      forall other
        ensures SanitizeEnvelope(EnvelopeOf(SanitizeLine(line, mode).bytes).value, other) == Same
      {
        RewrittenSame(line, mode, other);
      }
    } else {
      SameHasNoStale(EnvelopeOf(line).value, mode);
    }
  }

  /** Trailing whitespace does not change what a text says. */
  lemma AppendWs(t: string, w: string)
    requires Parse(t).Got? && AllWs(w)
    ensures var d := Parse(t).value; Parse(t + w) == Got(Doc(d.before, d.value, d.after + w), "")
  {
    hide Parse, Put, Legal;
    ParseSound(t);
    var d := Parse(t).value;
    PutAppend(d.value, d.after, w);
    Regroup(d.before, Put(d.value, d.after), w);
    DocParses(Doc(d.before, d.value, d.after + w));
  }

  /** What a line says, whether or not its newline is read with it. */
  lemma LineValue(line: string)
    requires Parse(TrimNewline(line)).Got?
    ensures Parse(line).Got? && Parse(line).value.value == Parse(TrimNewline(line)).value.value
  {
    hide Parse;
    if EndsInNewline(line) {
      AppendWs(TrimNewline(line), "\n");
      assert TrimNewline(line) + "\n" == line;
    }
  }

  lemma PadReads(bytes: string, size: nat)
    requires |bytes| <= size && Parse(TrimNewline(bytes)).Got? && OneLine(bytes) && bytes != ""
    ensures Parse(TrimNewline(PadTo(bytes, size))).Got?
    ensures Parse(TrimNewline(PadTo(bytes, size))).value.value == Parse(TrimNewline(bytes)).value.value
    ensures EnvelopeOf(PadTo(bytes, size)) == EnvelopeOf(bytes)
  {
    hide Parse, FieldsOf;
    var pad := Spaces(size - |bytes|);
    PadKeepsLine(bytes, size);
    AppendWs(TrimNewline(bytes), pad);
    assert TrimNewline(PadTo(bytes, size)) == TrimNewline(bytes) + pad;
  }

  // ---------------------------------------------------------------- ordinals

  /** The ordinal of a record, as its value or nothing. */
  function OrdinalOf(line: string): Option<Value> {
    match Parse(line)
    case Bad => None
    case Got(doc, _) =>
      match FieldsOf(Some(doc.value)) case None => None case Some(envelope) => CompactOption(Get(envelope, "ordinal"))
  }

  /** A patch that finds the model, and the hash if there is one, at their own places. */
  ghost predicate PatchedInPlace(line: string, policy: Policy) {
    exists p, body, h :: line == DocText(DocAt(p, Str(body))) && OwnModel(p, body) && OwnHash(p, policy.model, h)
  }

  /** The records whose ordinal is safe: all but those a patch hits in the wrong place. */
  ghost predicate KeepsOrdinal(line: string, policy: Policy) {
    CleanContext(line, policy).Patched? ==> PatchedInPlace(line, policy)
  }

  lemma OrdinalInEnvelope(line: string)
    requires EnvelopeOf(line).Some?
    ensures OrdinalOf(line) == CompactOption(Get(EnvelopeOf(line).value, "ordinal"))
  {
    hide Parse, FieldsOf, Get;
    LineValue(line);
  }

  lemma SanitizedOrdinal(line: string, mode: bool)
    requires SanitizeLine(line, mode).Line?
    ensures OrdinalOf(SanitizeLine(line, mode).bytes) == OrdinalOf(line)
  {
    hide SanitizeLine, ItemsOf, OrdinalOf, StaleCount, RemovedCount, ItemsCleaned, EnvelopeOf, Get;
    RewrittenRecord(line, mode);
    var bytes := SanitizeLine(line, mode).bytes;
    if SanitizeLine(line, mode).changed {
      OrdinalInEnvelope(line);
      OrdinalInEnvelope(bytes);
      var was := Get(EnvelopeOf(line).value, "ordinal");
      assert CompactOption(CompactOption(was)) == CompactOption(was) by {
        hide *;
        CompactOptionTwice(was);
      }
    }
  }

  lemma CompactOptionTwice(v: Option<Value>)
    ensures CompactOption(CompactOption(v)) == CompactOption(v)
  {
    if v.Some? { CompactTwice(v.value); }
  }

  lemma ReadOrdinal(d: Doc, envelope: Fields, context: Fields)
    requires PatchReads(d, envelope, context)
    ensures OrdinalOf(DocText(d)) == CompactOption(Get(envelope, "ordinal"))
  {
    hide Parse, FieldsOf, DocText, Get;
  }

  lemma PatchedOrdinal(line: string, policy: Policy)
    requires CleanContext(line, policy).Patched? && PatchedInPlace(line, policy)
    ensures OrdinalOf(CleanContext(line, policy).bytes) == OrdinalOf(line)
  {
    hide CleanContext, OrdinalOf, DocAt, OwnModel, OwnHash, PatchedDoc, PatchedEnvelope, PatchedFields, EnvelopeAt, ContextOf, DocText, Get, PatchReads, CompactOption;
    var p, body, h :| line == DocText(DocAt(p, Str(body))) && OwnModel(p, body) && OwnHash(p, policy.model, h);
    PatchSetsTheModel(p, body, policy, h);
    ReadOrdinal(DocAt(p, Str(body)), EnvelopeAt(p, Str(body)), ContextOf(p, Str(body)));
    ReadOrdinal(PatchedDoc(p, policy.model, h), PatchedEnvelope(p, policy.model, h), PatchedFields(p, policy.model, h));
  }

  lemma CleanOrdinal(line: string, mode: bool, policy: Policy)
    requires CleanRecord(line, mode, policy).Record? && KeepsOrdinal(line, policy)
    ensures OrdinalOf(CleanRecord(line, mode, policy).bytes) == OrdinalOf(line)
  {
    hide SanitizeLine, CleanContext, OrdinalOf, PatchedInPlace;
    match CleanContext(line, policy)
    case PatchError =>
    case Untouched => SanitizedOrdinal(line, mode);
    case Patched(text) =>
      PatchedOrdinal(line, policy);
      SanitizedOrdinal(text, mode);
  }

  lemma ChangedReads(line: string, mode: bool, policy: Policy)
    requires CleanRecord(line, mode, policy).Record? && CleanRecord(line, mode, policy).changed
    ensures Parse(TrimNewline(CleanRecord(line, mode, policy).bytes)).Got?
  {
    hide SanitizeLine, CleanContext, Parse, FieldsOf, StaleCount, RemovedCount, ItemsOf, SameEnvelope, ItemsCleaned;
    match CleanContext(line, policy)
    case PatchError =>
    case Untouched => RewrittenRecord(line, mode);
    case Patched(text) => RewrittenRecord(text, mode);
  }

  /** One record keeps its ordinal through patch, sanitation and padding. */
  lemma RecordOrdinal(line: string, mode: bool, policy: Policy, offsets: bool)
    requires line != "" && OneLine(line) && PadRecord(line, CleanRecord(line, mode, policy), offsets).Record?
    ensures KeepsOrdinal(line, policy) ==>
      OrdinalOf(PadRecord(line, CleanRecord(line, mode, policy), offsets).bytes) == OrdinalOf(line)
  {
    hide CleanRecord, CleanContext, OneLine, EndsInNewline, PadTo, Parse, FieldsOf, Get, KeepsOrdinal;
    var clean := CleanRecord(line, mode, policy);
    if KeepsOrdinal(line, policy) {
      CleanOrdinal(line, mode, policy);
      CleanKeepsLine(line, mode, policy);
      if clean.changed && offsets {
        ChangedReads(line, mode, policy);
        PadReads(clean.bytes, |line|);
        LineValue(clean.bytes);
        LineValue(PadTo(clean.bytes, |line|));
      }
    }
  }

  /** As many records, each safe one with its ordinal. */
  ghost predicate SameOrdinals(a: seq<string>, b: seq<string>, policy: Policy) {
    |a| == |b| && forall i :: 0 <= i < |a| && KeepsOrdinal(a[i], policy) ==> OrdinalOf(b[i]) == OrdinalOf(a[i])
  }

  lemma ConsOrdinals(x: string, xs: seq<string>, y: string, ys: seq<string>, policy: Policy)
    requires KeepsOrdinal(x, policy) ==> OrdinalOf(y) == OrdinalOf(x)
    requires SameOrdinals(xs, ys, policy)
    ensures SameOrdinals([x] + xs, [y] + ys, policy)
  {
    hide KeepsOrdinal, OrdinalOf;
  }

  lemma {:induction false} ScanLinesOrdinals(input: string, mode: bool, policy: Policy)
    requires ScanLines(input, mode, policy, false).Scanned?
    ensures SameOrdinals(Lines(input), Lines(ScanLines(input, mode, policy, false).output), policy)
    decreases |input|
  {
    hide ScanLines, CleanRecord, PadRecord, OneLine, EndsInNewline, SameOrdinals, KeepsOrdinal, OrdinalOf, Lines;
    EmptyScan(mode, policy, false);
    assert SameOrdinals([], [], policy) by { NoOrdinals(policy); }
    LinesSplit("");
    if input != "" {
      ScanLinesStep(input, mode, policy, false);
      Split(input);
      var line := FirstLine(input);
      var rest := AfterLine(input);
      hide FirstLine, AfterLine;
      var r := ScanRecord(line, mode, policy);
      RecordOrdinal(line, mode, policy, policy.preserveOffsets || mode);
      ScanRecordKeepsLine(line, mode, policy);
      ScanLinesOrdinals(rest, mode, policy);
      var output := ScanLines(rest, mode, policy, false).output;
      OutputLines(line, r.bytes, rest, output);
      ConsOrdinals(line, Lines(rest), r.bytes, Lines(output), policy);
    }
  }

  lemma NoOrdinals(policy: Policy)
    ensures SameOrdinals([], [], policy)
  {
  }

  /** A successful rewrite, paginated or not, keeps the ordinal of every safe record. */
  lemma OrdinalsKept(input: string, thread: string, policy: Policy)
    requires Rewrite(input, thread, policy).Scanned?
    ensures SameOrdinals(Lines(input), Lines(Rewrite(input, thread, policy).output), policy)
  {
    hide ScanLines, CleanRecord, PadRecord, OneLine, EndsInNewline, SameOrdinals, KeepsOrdinal, OrdinalOf, Lines, ScanFrom, HeaderMode, SessionMeta;
    NoOrdinals(policy);
    LinesSplit("");
    EmptyFile(thread, policy);
    if input != "" {
      ScanFromStep(input, thread, true, false, policy, false);
      Split(input);
      var line := FirstLine(input);
      var rest := AfterLine(input);
      hide FirstLine, AfterLine;
      var mode := HeaderMode(line).value;
      var offsets := policy.preserveOffsets || mode;
      var r := PadRecord(line, CleanRecord(line, mode, policy), offsets);
      RecordOrdinal(line, mode, policy, offsets);
      RecordStays(line, mode, policy, offsets);
      ScanLinesOrdinals(rest, mode, policy);
      EmptyScan(mode, policy, false);
      var output := ScanLines(rest, mode, policy, false).output;
      OutputLines(line, r.bytes, rest, output);
      ConsOrdinals(line, Lines(rest), r.bytes, Lines(output), policy);
    }
  }

  lemma RecordStays(line: string, mode: bool, policy: Policy, offsets: bool)
    requires line != "" && OneLine(line) && PadRecord(line, CleanRecord(line, mode, policy), offsets).Record?
    ensures var r := PadRecord(line, CleanRecord(line, mode, policy), offsets);
      r.bytes != "" && OneLine(r.bytes) && EndsInNewline(r.bytes) == EndsInNewline(line)
  {
    hide CleanRecord, OneLine, EndsInNewline;
    CleanKeepsLine(line, mode, policy);
    if !CleanRecord(line, mode, policy).changed { UnchangedBytes(line, mode, policy); }
    RecordKeepsLine(line, CleanRecord(line, mode, policy), offsets);
  }

  /** Offset preservation: a successful rewrite of a paginated rollout, or of any rollout
      whose offsets others rely on, keeps every record's place and length, and the ordinal
      of every record that is not patched in the wrong place. */
  lemma OffsetsKept(input: string, thread: string, policy: Policy)
    requires Rewrite(input, thread, policy).Scanned?
    requires policy.preserveOffsets || Rewrite(input, thread, policy).result.paginated
    ensures SameShape(Lines(input), Lines(Rewrite(input, thread, policy).output))
    ensures SameOrdinals(Lines(input), Lines(Rewrite(input, thread, policy).output), policy)
  {
    hide ScanFrom, Lines, SameShape, SameOrdinals;
    ShapeKept(input, thread, policy);
    OrdinalsKept(input, thread, policy);
  }

  // ---------------------------------------------------------------- a record without a policy

  /** One record without a context policy: what is written is settled, says the same as
      before padding, and the counters count. */
  lemma PlainRecord(line: string, mode: bool, policy: Policy, offsets: bool)
    requires policy.model == "" && line != "" && OneLine(line)
    requires PadRecord(line, CleanRecord(line, mode, policy), offsets).Record?
    ensures var clean := CleanRecord(line, mode, policy);
      var r := PadRecord(line, clean, offsets);
      Settled(r.bytes) && r.bytes != "" && OneLine(r.bytes) && EndsInNewline(r.bytes) == EndsInNewline(line) &&
      r.removed == RemovedCount(ItemsOf(line)) && r.removed + r.stripped == StaleCount(ItemsOf(line)) &&
      (r.changed <==> StaleCount(ItemsOf(line)) > 0) && !r.reset &&
      Parse(TrimNewline(clean.bytes)).Got? && Parse(TrimNewline(r.bytes)).Got? &&
      Parse(TrimNewline(r.bytes)).value.value == Parse(TrimNewline(clean.bytes)).value.value
  {
    hide SanitizeLine, OneLine, PadTo, Parse, FieldsOf, SanitizeEnvelope, ContextItems, RemovedCount, StaleCount, SameEnvelope, ItemsCleaned, EndsInNewline;
    var clean := CleanRecord(line, mode, policy);
    assert CleanContext(line, policy) == Untouched;
    RewrittenRecord(line, mode);
    RecordSettles(line, mode);
    CleanKeepsLine(line, mode, policy);
    RecordKeepsLine(line, clean, offsets);
    if clean.changed && offsets {
      PadReads(clean.bytes, |line|);
    }
  }

  // ---------------------------------------------------------------- a clean rewrite

  /** The items of all records of a rollout. */
  function AllItems(s: string): seq<Fields> {
    if s == "" then [] else ItemsOf(FirstLine(s)) + AllItems(AfterLine(s))
  }

  lemma {:induction false} CountConcat(a: seq<Fields>, b: seq<Fields>)
    ensures StaleCount(a + b) == StaleCount(a) + StaleCount(b)
    ensures RemovedCount(a + b) == RemovedCount(a) + RemovedCount(b)
  {
    hide Stale, Reasoning;
    if a == [] {
      assert a + b == b;
    } else {
      assert (a + b)[1..] == a[1..] + b;
      CountConcat(a[1..], b);
    }
  }

  /** The items a context patch brings in: none as long as the patched text is a turn
      context, which feeds the model nothing. */
  function PatchItems(line: string, policy: Policy): seq<Fields> {
    match CleanContext(line, policy) case Patched(text) => ItemsOf(text) case _ => []
  }

  function AllPatchItems(s: string, policy: Policy): seq<Fields> {
    if s == "" then [] else PatchItems(FirstLine(s), policy) + AllPatchItems(AfterLine(s), policy)
  }

  /** A record the scan must change: a stale item, or a patch that does not lengthen it. */
  predicate Reworked(line: string, mode: bool, policy: Policy) {
    match CleanContext(line, policy)
    case Patched(text) => SanitizeLine(text, mode).Line? && |SanitizeLine(text, mode).bytes| <= |line|
    case _ => StaleCount(ItemsOf(line)) > 0
  }

  function Patches(s: string, policy: Policy): nat {
    if s == "" then 0
    else (if CleanContext(FirstLine(s), policy).Patched? then 1 else 0) + Patches(AfterLine(s), policy)
  }

  /** A rewrite of a text: nothing stale is left, and the counters are right. */
  ghost predicate Cleaned(input: string, policy: Policy, o: Outcome) {
    o.Scanned? ==>
      StaleCount(AllItems(o.output)) == 0 &&
      o.result.removed == RemovedCount(AllItems(input)) + RemovedCount(AllPatchItems(input, policy)) &&
      o.result.removed + o.result.stripped == StaleCount(AllItems(input)) + StaleCount(AllPatchItems(input, policy)) &&
      (o.result.changed <==> exists line <- Lines(input) :: Reworked(line, o.result.paginated, policy)) &&
      o.result.resets == Patches(input, policy) &&
      |Lines(o.output)| == |Lines(input)|
  }

  /** The lines and the items of a text that starts with a given record. */
  lemma RecordFirst(record: string, rest: string)
    requires record != "" && OneLine(record) && (EndsInNewline(record) || rest == "")
    ensures |Lines(record + rest)| == 1 + |Lines(rest)|
    ensures AllItems(record + rest) == ItemsOf(record) + AllItems(rest)
  {
    hide FirstLine, AfterLine, OneLine, EndsInNewline, ItemsOf;
    FirstLineOf(record, rest);
    assert record + rest != "";
  }

  /** What one record adds to a rewrite. */
  ghost predicate RecordDone(line: string, mode: bool, policy: Policy, r: Record) {
    && r.Record? && r.bytes != "" && OneLine(r.bytes) && EndsInNewline(r.bytes) == EndsInNewline(line)
    && StaleCount(ItemsOf(r.bytes)) == 0
    && r.removed == RemovedCount(ItemsOf(line)) + RemovedCount(PatchItems(line, policy))
    && r.removed + r.stripped == StaleCount(ItemsOf(line)) + StaleCount(PatchItems(line, policy))
    && (r.changed <==> Reworked(line, mode, policy))
    && (r.reset <==> CleanContext(line, policy).Patched?)
  }

  /** A record the patch applies to is a turn context, so it has no items of its own. */
  lemma PatchedHasNoItems(line: string, policy: Policy)
    requires CleanContext(line, policy).Patched?
    ensures ItemsOf(line) == []
  {
    hide Find, Parse, FieldsOf, PatchText, ForeignModel;
    if EnvelopeOf(line).Some? { LineValue(line); }
  }

  /** A scanned record before padding. */
  lemma RecordCleans(line: string, mode: bool, policy: Policy)
    requires line != "" && OneLine(line) && CleanRecord(line, mode, policy).Record?
    ensures RecordDone(line, mode, policy, CleanRecord(line, mode, policy))
  {
    hide SanitizeLine, CleanContext, OneLine, StaleCount, RemovedCount, ItemsOf, EnvelopeOf, EndsInNewline, RecordDone;
    CleanKeepsLine(line, mode, policy);
    NothingCounts();
    match CleanContext(line, policy)
    case PatchError =>
    case Untouched =>
      RewrittenRecord(line, mode);
      PlainDone(line, mode, policy);
    case Patched(text) =>
      PatchedHasNoItems(line, policy);
      RewrittenRecord(text, mode);
      PatchDone(line, mode, policy, text);
  }

  lemma NothingCounts()
    ensures StaleCount([]) == 0 == RemovedCount([])
  {
  }

  lemma PlainDone(line: string, mode: bool, policy: Policy)
    requires CleanContext(line, policy) == Untouched && CleanRecord(line, mode, policy).Record?
    requires var r := CleanRecord(line, mode, policy);
      OneLine(r.bytes) && EndsInNewline(r.bytes) == EndsInNewline(line) && r.bytes != ""
    requires RecordCleaned(line, SanitizeLine(line, mode))
    ensures RecordDone(line, mode, policy, CleanRecord(line, mode, policy))
  {
    hide SanitizeLine, CleanContext, OneLine, ItemsOf, EnvelopeOf, EndsInNewline, SameEnvelope, ItemsCleaned;
  }

  lemma PatchDone(line: string, mode: bool, policy: Policy, text: string)
    requires CleanContext(line, policy) == Patched(text) && CleanRecord(line, mode, policy).Record?
    requires var r := CleanRecord(line, mode, policy);
      OneLine(r.bytes) && EndsInNewline(r.bytes) == EndsInNewline(line) && r.bytes != ""
    requires ItemsOf(line) == [] && RecordCleaned(text, SanitizeLine(text, mode))
    ensures RecordDone(line, mode, policy, CleanRecord(line, mode, policy))
  {
    hide SanitizeLine, CleanContext, OneLine, ItemsOf, EnvelopeOf, EndsInNewline, SameEnvelope, ItemsCleaned;
  }

  /** Padding a record changes nothing about it. */
  lemma PadDone(line: string, mode: bool, policy: Policy, offsets: bool)
    requires line != "" && OneLine(line) && PadRecord(line, CleanRecord(line, mode, policy), offsets).Record?
    ensures RecordDone(line, mode, policy, PadRecord(line, CleanRecord(line, mode, policy), offsets))
  {
    hide SanitizeLine, CleanRecord, Reworked, CleanContext, OneLine, StaleCount, RemovedCount, ContextItems, FieldsOf, EndsInNewline, PadTo, PatchItems, Parse;
    var clean := CleanRecord(line, mode, policy);
    RecordCleans(line, mode, policy);
    if !clean.changed { UnchangedBytes(line, mode, policy); }
    RecordKeepsLine(line, clean, offsets);
    if clean.changed && offsets {
      ChangedReads(line, mode, policy);
      PadReads(clean.bytes, |line|);
    }
  }

  lemma CleanStep(line: string, after: string, mode: bool, policy: Policy, r: Record, rest: Outcome)
    requires line != "" && OneLine(line) && (EndsInNewline(line) || after == "")
    requires RecordDone(line, mode, policy, r)
    requires Cleaned(after, policy, rest) && (rest.Scanned? ==> rest.result.paginated == mode && (after == "" ==> rest.output == ""))
    ensures Cleaned(line + after, policy, Prepend(r, rest))
  {
    hide FirstLine, AfterLine, Lines, OneLine, EndsInNewline, StaleCount, RemovedCount, ItemsOf, AllItems, PatchItems, AllPatchItems, Patches, Reworked, CleanContext;
    if rest.Scanned? {
      RecordFirst(line, after);
      PolicyFirst(line, after, policy);
      RecordFirst(r.bytes, rest.output);
      CountConcat(ItemsOf(line), AllItems(after));
      CountConcat(PatchItems(line, policy), AllPatchItems(after, policy));
      CountConcat(ItemsOf(r.bytes), AllItems(rest.output));
      ReworkedFirst(line, Lines(after), mode, policy);
    }
  }

  lemma ReworkedFirst(line: string, more: seq<string>, mode: bool, policy: Policy)
    ensures (exists x <- [line] + more :: Reworked(x, mode, policy)) <==>
      Reworked(line, mode, policy) || exists x <- more :: Reworked(x, mode, policy)
  {
    hide Reworked;
    assert line in [line] + more;
    assert forall x <- more :: x in [line] + more;
  }

  lemma PolicyFirst(record: string, rest: string, policy: Policy)
    requires record != "" && OneLine(record) && (EndsInNewline(record) || rest == "")
    ensures Lines(record + rest) == [record] + Lines(rest)
    ensures AllPatchItems(record + rest, policy) == PatchItems(record, policy) + AllPatchItems(rest, policy)
    ensures Patches(record + rest, policy) ==
      (if CleanContext(record, policy).Patched? then 1 else 0) + Patches(rest, policy)
  {
    hide FirstLine, AfterLine, OneLine, EndsInNewline, PatchItems, CleanContext;
    FirstLineOf(record, rest);
    assert record + rest != "";
  }

  lemma {:induction false} ScanLinesClean(input: string, mode: bool, policy: Policy)
    ensures Cleaned(input, policy, ScanLines(input, mode, policy, false))
    decreases |input|
  {
    hide ScanLines, Cleaned, PadRecord, CleanRecord, OneLine, EndsInNewline, RecordDone;
    EmptyClean(mode, policy);
    if input != "" && ScanLines(input, mode, policy, false).Scanned? {
      ScanLinesStep(input, mode, policy, false);
      Split(input);
      var line := FirstLine(input);
      hide FirstLine, AfterLine;
      PadDone(line, mode, policy, policy.preserveOffsets || mode);
      ScanLinesClean(AfterLine(input), mode, policy);
      ScanLinesMode(AfterLine(input), mode, policy, false);
      EmptyScan(mode, policy, false);
      CleanStep(line, AfterLine(input), mode, policy, ScanRecord(line, mode, policy), ScanLines(AfterLine(input), mode, policy, false));
    } else {
      assert Cleaned(input, policy, Failed) by { FailedClean(input, policy); }
    }
  }

  lemma FailedClean(input: string, policy: Policy)
    ensures Cleaned(input, policy, Failed)
  {
  }

  lemma EmptyClean(mode: bool, policy: Policy)
    ensures Cleaned("", policy, ScanLines("", mode, policy, false))
    ensures forall thread :: Cleaned("", policy, Rewrite("", thread, policy))
  {
  }

  /** A successful rewrite, under any policy, leaves no stale item in any record, reports a
      change exactly if there was one to make, and counts what it did: the stale items of
      the text, the stale items a patch brought in, and the patches. */
  lemma RewriteIsClean(input: string, thread: string, policy: Policy)
    ensures Cleaned(input, policy, Rewrite(input, thread, policy))
  {
    hide ScanLines, Cleaned, PadRecord, CleanRecord, OneLine, EndsInNewline, ScanFrom, HeaderMode, SessionMeta, RecordDone;
    EmptyClean(false, policy);
    FailedClean(input, policy);
    if input != "" && Rewrite(input, thread, policy).Scanned? {
      ScanFromStep(input, thread, true, false, policy, false);
      Split(input);
      var line := FirstLine(input);
      hide FirstLine, AfterLine;
      var mode := HeaderMode(line).value;
      var offsets := policy.preserveOffsets || mode;
      PadDone(line, mode, policy, offsets);
      ScanLinesClean(AfterLine(input), mode, policy);
      ScanLinesMode(AfterLine(input), mode, policy, false);
      EmptyScan(mode, policy, false);
      CleanStep(line, AfterLine(input), mode, policy, PadRecord(line, CleanRecord(line, mode, policy), offsets),
        ScanLines(AfterLine(input), mode, policy, false));
    }
  }

  /** A patched text that is still a turn context brings in nothing. */
  predicate StillContext(text: string) {
    EnvelopeOf(text).Some? ==> StringOf(Get(EnvelopeOf(text).value, "type")) == Some("turn_context")
  }

  lemma {:induction false} ContextsBringNothing(s: string, policy: Policy)
    requires forall line <- Lines(s) :: CleanContext(line, policy).Patched? ==> StillContext(CleanContext(line, policy).bytes)
    ensures AllPatchItems(s, policy) == []
    decreases |s|
  {
    hide FirstLine, AfterLine, CleanContext, StillContext;
    if s != "" {
      LinesSplit(s);
      var line := FirstLine(s);
      assert line in Lines(s);
      assert forall x <- Lines(AfterLine(s)) :: x in Lines(s);
      ContextsBringNothing(AfterLine(s), policy);
      if CleanContext(line, policy).Patched? { ContextHasNoItems(CleanContext(line, policy).bytes); }
    }
  }

  lemma ContextHasNoItems(text: string)
    requires StillContext(text)
    ensures ItemsOf(text) == []
  {
    hide EnvelopeOf, Get;
  }

  /** The counters count the stale items of the text itself if and only if no patch turned
      a context into a record with a stale item; so in particular if every patched text is
      still a turn context. */
  lemma CountersAreExact(input: string, thread: string, policy: Policy)
    requires Rewrite(input, thread, policy).Scanned?
    ensures var x := Rewrite(input, thread, policy).result;
      x.removed + x.stripped == StaleCount(AllItems(input)) <==> StaleCount(AllPatchItems(input, policy)) == 0
    ensures (forall line <- Lines(input) :: CleanContext(line, policy).Patched? ==> StillContext(CleanContext(line, policy).bytes)) ==>
      Rewrite(input, thread, policy).result.removed == RemovedCount(AllItems(input)) &&
      StaleCount(AllPatchItems(input, policy)) == 0
  {
    hide ScanFrom, FirstLine, AfterLine, Lines, AllItems, AllPatchItems, StillContext, CleanContext, Reworked;
    RewriteIsClean(input, thread, policy);
    NothingCounts();
    if forall line <- Lines(input) :: CleanContext(line, policy).Patched? ==> StillContext(CleanContext(line, policy).bytes) {
      ContextsBringNothing(input, policy);
    }
  }
}
