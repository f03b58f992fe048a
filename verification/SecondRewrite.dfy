/** Rewriting a rollout twice (internal/rollout/sanitize.go): without a context policy the
    second pass succeeds, changes no byte and counts nothing. */
module SecondRewrite {
  import opened Wrappers
  import opened JsonText
  import opened GoJson
  import opened Sanitize
  import opened SanitizedRecord
  import opened ContextPatch
  import opened ScanJsonl
  import opened RolloutProofs

  // ---------------------------------------------------------------- the header still decodes

  /** A member the header decoder accepts: in the record itself, or in its payload. */
  predicate FieldReads(record: bool, field: string, v: Value)
    decreases v, 1
  {
    if record then
      (field == "ordinal" ==> IsNull(v) || IsOrdinal(v)) &&
      (field == "payload" ==> IsNull(v) || (v.Obj? && Reads(false, v.members)))
    else field == "history_mode" ==> IsNull(v) || v.Str?
  }

  predicate Reads(record: bool, ms: Members)
    decreases ms, 0
  {
    ms.Member? ==> FieldReads(record, Fold(Unquote(ms.key)), ms.value) && Reads(record, ms.rest)
  }

  predicate FieldsRead(record: bool, m: Fields) {
    m.Field? ==> FieldReads(record, Fold(m.name), m.value) && FieldsRead(record, m.more)
  }

  lemma {:induction false} ModeDecodes(ms: Members, mode: string)
    ensures DecodeMode(ms, mode).ok <==> Reads(false, ms)
  {
    hide Fold, Unquote;
    if ms.Member? {
      var first := if Fold(Unquote(ms.key)) == "history_mode" then DecodeString(ms.value, mode) else Decoded(mode, true);
      ModeDecodes(ms.rest, first.value);
    }
  }

  /** Whether the header decodes does not depend on what was decoded before. */
  lemma {:induction false} HeaderDecodes(ms: Members, h: Header)
    ensures DecodeHeaderMembers(ms, h).ok <==> Reads(true, ms)
  {
    hide Fold, Unquote, DecodeMode, Reads, IsOrdinal;
    if ms.Member? {
      var first := DecodeHeaderField(h, Fold(Unquote(ms.key)), ms.value);
      HeaderDecodes(ms.rest, first.value);
      if ms.value.Obj? { ModeDecodes(ms.value.members, h.mode); }
      ReadsMember(true, ms);
    } else {
      assert Reads(true, NoMembers) by { ReadsNothing(); }
    }
  }

  lemma ReadsNothing()
    ensures Reads(true, NoMembers) && Reads(false, NoMembers)
  {
  }

  lemma ReadsMember(record: bool, ms: Members)
    requires ms.Member?
    ensures Reads(record, ms) <==> FieldReads(record, Fold(Unquote(ms.key)), ms.value) && Reads(record, ms.rest)
  {
    hide Fold, Unquote, FieldReads;
  }

  lemma {:induction false} SetReads(record: bool, m: Fields, k: string, v: Value)
    requires FieldsRead(record, m) && FieldReads(record, Fold(k), v)
    ensures FieldsRead(record, Set(m, k, v))
  {
    hide Fold, FieldReads, Less;
    if m.Field? { SetReads(record, m.more, k, v); }
  }

  lemma {:induction false} DeleteReads(record: bool, m: Fields, k: string)
    requires FieldsRead(record, m)
    ensures FieldsRead(record, Delete(m, k))
  {
    hide Fold, FieldReads;
    if m.Field? { DeleteReads(record, m.more, k); }
  }

  lemma {:induction false} GetReads(record: bool, m: Fields, k: string)
    requires FieldsRead(record, m) && Get(m, k).Some?
    ensures FieldReads(record, Fold(k), Get(m, k).value)
  {
    hide Fold, FieldReads;
    if m.name != k { GetReads(record, m.more, k); }
  }

  lemma {:induction false} MapReads(record: bool, ms: Members)
    requires Reads(record, ms)
    ensures FieldsRead(record, MapOf(ms))
  {
    hide Fold, Unquote, FieldReads, Less;
    if ms.Member? {
      MapReads(record, ms.rest);
      SetReads(record, MapOf(ms.rest), Unquote(ms.key), ms.value);
    }
  }

  lemma {:induction false} CompactReads(record: bool, field: string, v: Value)
    requires FieldReads(record, field, v)
    ensures FieldReads(record, field, Compact(v))
    decreases v, 1
  {
    hide Fold, Unquote, Reads, CompactMembers, CompactElems, Decimal, AllDigits;
    if record && field == "payload" && v.Obj? {
      CompactMembersRead(v.members);
    }
  }

  lemma {:induction false} CompactMembersRead(ms: Members)
    requires Reads(false, ms)
    ensures Reads(false, CompactMembers(ms))
    decreases ms, 0
  {
    hide Fold, Unquote, Compact, FieldReads;
    if ms.Member? {
      CompactReads(false, Fold(Unquote(ms.key)), ms.value);
      CompactMembersRead(ms.rest);
    }
  }

  lemma {:induction false} WrittenFieldsRead(record: bool, m: Fields)
    requires FieldsRead(record, m)
    ensures Reads(record, MembersOf(m))
  {
    if m.Field? {
      WrittenFieldsRead(record, m.more);
      QuoteReadsBack(m.name);
      CompactReads(record, Fold(m.name), m.value);
    }
    hide Fold, Unquote, Quote, Compact, FieldReads;
  }

  lemma FoldPayload()
    ensures Fold("payload") == "payload" && Fold("type") == "type" && Fold("id") == "id"
    ensures Fold("replacement_history") == "replacement_history"
  {
    hide Fold;
    LowerFolds("payload");
    LowerFolds("type");
    LowerFolds("id");
    LowerFolds("replacement_history");
  }

  lemma FoldOne(k: string)
    requires k != "" && k[0] < 0x80 as char && !('A' <= k[0] <= 'Z')
    ensures Fold(k) == [k[0]] + Fold(k[1..])
  {
  }

  lemma {:induction false} LowerFolds(k: string)
    requires forall c <- k :: c < 0x80 as char && !('A' <= c <= 'Z')
    ensures Fold(k) == k
  {
    if k != "" {
      assert k[0] in k;
      assert forall c <- k[1..] :: c in k;
      LowerFolds(k[1..]);
      hide Fold;
      FoldOne(k);
      assert k == [k[0]] + k[1..];
    }
  }

  lemma HasPayload(e: Fields, mode: bool)
    requires SanitizeEnvelope(e, mode).NewPayload?
    ensures Get(e, "payload").Some?
  {
    hide MapOf, Unquote;
  }

  /** The new payload of a header still decodes. */
  lemma NewPayloadReads(e: Fields, mode: bool)
    requires FieldsRead(true, e) && SanitizeEnvelope(e, mode).NewPayload?
    ensures FieldReads(true, "payload", SanitizeEnvelope(e, mode).payload)
  {
    hide FieldsRead, Unquote, Fold, FieldReads, SanitizeItem, SanitizeCompacted, OtherItem;
    assert Get(e, "payload").Some? by { HasPayload(e, mode); }
    FoldPayload();
    GetReads(true, e, "payload");
    var v := Get(e, "payload").value;
    if StringOf(Get(e, "type")).value == "compacted" {
      CompactedIsObject(v);
      CompactedReads(v);
    } else {
      OtherReads();
      ItemReads(v);
    }
  }

  lemma OtherReads()
    ensures FieldReads(true, "payload", OtherItem())
  {
    PlainText("type");
    FoldPayload();
    hide Fold, Unquote;
    var ms := OtherItem().members;
    ReadsNothing();
    ReadsMember(false, ms);
  }

  lemma ItemReads(v: Value)
    requires FieldReads(true, "payload", v)
    ensures SanitizeItem(Some(v)).StripItem? ==> FieldReads(true, "payload", SanitizeItem(Some(v)).value)
  {
    if SanitizeItem(Some(v)).StripItem? {
      SanitizeItemMeans(v);
      var m := MapOf(v.members);
      MapReads(false, v.members);
      DeleteReads(false, m, "id");
      hide SanitizeItem, MapOf, Delete, FieldsRead, MembersOf, Reads;
      WrittenFieldsRead(false, Delete(m, "id"));
    }
  }

  lemma CompactedReads(v: Value)
    requires v.Obj? && Reads(false, v.members)
    requires SanitizeCompacted(Some(v)).NewPayload?
    ensures FieldReads(true, "payload", SanitizeCompacted(Some(v)).payload)
  {
    FoldPayload();
    hide MapOf, FieldsRead, MembersOf, Reads, Fold, Unquote, CleanItems, Set, Get;
    var compact := MapOf(v.members);
    MapReads(false, v.members);
    var elems := Get(compact, "replacement_history").value.elems;
    var items := Arr("", CleanItems(elems).value.items);
    SetReads(false, compact, "replacement_history", items);
    WrittenFieldsRead(false, Set(compact, "replacement_history", items));
  }

  lemma CompactedIsObject(v: Value)
    requires FieldReads(true, "payload", v)
    ensures v.Obj? || SanitizeCompacted(Some(v)) == Same
    ensures v.Obj? ==> Reads(false, v.members)
  {
    hide Reads;
  }

  /** A rewritten first line still decodes as a header. */
  lemma HeaderStays(line: string, mode: bool)
    requires HeaderMode(line).Some? && SanitizeLine(line, mode).Line?
    ensures HeaderMode(SanitizeLine(line, mode).bytes).Some?
  {
    FastRefinesSlow(line, mode);
    var r := SanitizeLine(line, mode);
    if r.changed {
      RewrittenReads(line, mode);
      HeaderValue(line);
      hide SanitizeLine, SanitizeLineConservative, HeaderMode, SanitizeEnvelope, EnvelopeOf, FieldsOf, Parse, Set;
      EnvelopeHeader(line);
      var e := EnvelopeOf(line).value;
      NewPayloadReads(e, mode);
      FoldPayload();
      SetReads(true, e, "payload", SanitizeEnvelope(e, mode).payload);
      WrittenFieldsRead(true, Set(e, "payload", SanitizeEnvelope(e, mode).payload));
      HeaderValue(r.bytes);
    } else {
      hide HeaderMode, Parse;
    }
  }

  lemma EnvelopeHeader(line: string)
    requires EnvelopeOf(line).Some? && Parse(TrimNewline(line)).Got?
    requires var v := Parse(TrimNewline(line)).value.value; v.Obj? ==> Reads(true, v.members)
    ensures FieldsRead(true, EnvelopeOf(line).value)
  {
    var v := Parse(TrimNewline(line)).value.value;
    hide Parse, Reads;
    if v.Obj? { MapReads(true, v.members); }
  }

  lemma HeaderValue(line: string)
    requires Parse(TrimNewline(line)).Got?
    ensures HeaderMode(line).Some? <==>
      var v := Parse(TrimNewline(line)).value.value; IsNull(v) || (v.Obj? && Reads(true, v.members))
    ensures forall thread :: SessionMeta(line, thread) <==>
      var v := Parse(TrimNewline(line)).value.value;
      v.Obj? && DecodeMeta(v.members, Meta("", "")) == Decoded(Meta("session_meta", thread), true)
  {
    LineValue(line);
    hide Parse, Reads, DecodeHeaderMembers, DecodeMeta;
    var v := Parse(TrimNewline(line)).value.value;
    if v.Obj? { HeaderDecodes(v.members, Header(false, "")); }
  }

  // ---------------------------------------------------------------- the second pass

  /** A settled line goes through a scan as it is. */
  lemma SettledRecord(line: string, mode: bool, policy: Policy)
    requires policy.model == "" && Settled(line)
    ensures CleanRecord(line, mode, policy) == ScanRecord(line, mode, policy) == Record(line, false, 0, 0, false)
  {
    SettledIsSame(line, mode);
    hide SanitizeLine, Settled;
    assert CleanContext(line, policy) == Untouched;
  }

  lemma {:induction false} ScanLinesTwice(input: string, mode: bool, other: bool, policy: Policy)
    requires policy.model == "" && ScanLines(input, mode, policy, false).Scanned?
    ensures var o := ScanLines(input, mode, policy, false).output;
      ScanLines(o, other, policy, false) == Scanned(o, NoResult(other)) && (input == "" ==> o == "")
    decreases |input|
  {
    hide ScanLines, PadRecord, CleanRecord, OneLine, EndsInNewline, Settled, ItemsOf, RemovedCount, StaleCount, Parse;
    EmptyScan(mode, policy, false);
    EmptyScan(other, policy, false);
    if input != "" {
      ScanLinesStep(input, mode, policy, false);
      Split(input);
      var line := FirstLine(input);
      var after := AfterLine(input);
      hide FirstLine, AfterLine;
      PlainRecord(line, mode, policy, policy.preserveOffsets || mode);
      var r := ScanRecord(line, mode, policy);
      SettledRecord(r.bytes, other, policy);
      ScanLinesTwice(after, mode, other, policy);
      var rest := ScanLines(after, mode, policy, false);
      FirstLineOf(r.bytes, rest.output);
      assert r.bytes + rest.output != "";
      hide ScanRecord;
      LinesOnce(r.bytes + rest.output, other, policy);
    }
  }

  /** One more line of a scan that changes nothing. */
  lemma LinesOnce(s: string, mode: bool, policy: Policy)
    requires s != "" && ScanRecord(FirstLine(s), mode, policy) == Record(FirstLine(s), false, 0, 0, false)
    requires ScanLines(AfterLine(s), mode, policy, false) == Scanned(AfterLine(s), NoResult(mode))
    ensures ScanLines(s, mode, policy, false) == Scanned(s, NoResult(mode))
  {
    hide ScanRecord;
    Split(s);
    hide FirstLine, AfterLine;
  }

  /** A second rewrite succeeds, is byte-identical and reports no change. */
  lemma RewriteIsIdempotent(input: string, thread: string, policy: Policy)
    requires policy.model == "" && Rewrite(input, thread, policy).Scanned?
    ensures var o := Rewrite(input, thread, policy).output;
      var again := Rewrite(o, thread, policy);
      again.Scanned? && again.output == o && again.result == NoResult(again.result.paginated)
  {
    hide ScanLines, PadRecord, CleanRecord, OneLine, EndsInNewline, Settled, ItemsOf, RemovedCount, StaleCount, Parse, ScanFrom, HeaderMode, SessionMeta, DecodeMeta, Reads;
    EmptyFile(thread, policy);
    if input != "" {
      ScanFromStep(input, thread, true, false, policy, false);
      Split(input);
      var line := FirstLine(input);
      var after := AfterLine(input);
      hide FirstLine, AfterLine;
      var mode := HeaderMode(line).value;
      var offsets := policy.preserveOffsets || mode;
      PlainRecord(line, mode, policy, offsets);
      var clean := CleanRecord(line, mode, policy);
      var r := PadRecord(line, clean, offsets);
      var rest := ScanLines(after, mode, policy, false);
      PlainHeader(line, mode, policy);
      HeaderValue(clean.bytes);
      HeaderValue(r.bytes);
      var other := HeaderMode(r.bytes).value;
      SettledRecord(r.bytes, other, policy);
      ScanLinesTwice(after, mode, other, policy);
      EmptyScan(mode, policy, false);
      FirstLineOf(r.bytes, rest.output);
      assert r.bytes + rest.output != "";
      FileOnce(r.bytes + rest.output, thread, other, policy);
    }
  }

  lemma PlainHeader(line: string, mode: bool, policy: Policy)
    requires policy.model == "" && HeaderMode(line).Some? && CleanRecord(line, mode, policy).Record?
    ensures HeaderMode(CleanRecord(line, mode, policy).bytes).Some?
  {
    hide HeaderMode, SanitizeLine;
    assert CleanContext(line, policy) == Untouched;
    HeaderStays(line, mode);
  }

  lemma FileOnce(s: string, thread: string, mode: bool, policy: Policy)
    requires s != "" && HeaderMode(FirstLine(s)) == Some(mode)
    requires CleanRecord(FirstLine(s), mode, policy) == Record(FirstLine(s), false, 0, 0, false)
    requires thread != "" ==> SessionMeta(FirstLine(s), thread)
    requires ScanLines(AfterLine(s), mode, policy, false) == Scanned(AfterLine(s), NoResult(mode))
    ensures Rewrite(s, thread, policy) == Scanned(s, NoResult(mode))
  {
    hide HeaderMode, CleanRecord, SessionMeta, ScanLines;
    Split(s);
    hide FirstLine, AfterLine;
  }
}
