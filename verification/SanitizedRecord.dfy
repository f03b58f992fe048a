/** What a record looks like after the rewriter (internal/rollout/sanitize.go,
    sanitizeLineConservative): no stale id is left, the survivors keep their order and
    every other field, the counters count, and a second pass changes nothing. */
module SanitizedRecord {
  import opened Wrappers
  import opened JsonText
  import opened GoJson
  import opened Sanitize

  // ---------------------------------------------------------------- rendering before a rest

  lemma Regroup(a: string, b: string, c: string)
    ensures a + (b + c) == (a + b) + c
  {
  }

  lemma {:induction false} PutAppend(v: Value, a: string, b: string)
    ensures Put(v, a + b) == Put(v, a) + b
    decreases v
  {
    hide PutElems, PutMembers;
    match v
    case Lit(raw) => Regroup(raw, a, b);
    case Str(body) =>
      assert ['\"'] + (body + (['\"'] + (a + b))) == ['\"'] + (body + (['\"'] + a)) + b;
    case Arr(gap, elems) =>
      if elems.NoElems? {
        assert ['['] + (gap + ([']'] + (a + b))) == ['['] + (gap + ([']'] + a)) + b;
      } else {
        PutElemsAppend(elems, a, b);
        Regroup(['['], PutElems(elems, a), b);
      }
    case Obj(gap, members) =>
      if members.NoMembers? {
        assert ['{'] + (gap + (['}'] + (a + b))) == ['{'] + (gap + (['}'] + a)) + b;
      } else {
        PutMembersAppend(members, a, b);
        Regroup(['{'], PutMembers(members, a), b);
      }
  }

  lemma {:induction false} PutElemsAppend(es: Elems, a: string, b: string)
    requires es.Elem?
    ensures PutElems(es, a + b) == PutElems(es, a) + b
    decreases es
  {
    hide Put;
    var tail := if es.rest.NoElems? then [']'] + a else [','] + PutElems(es.rest, a);
    if es.rest.NoElems? {
      Regroup([']'], a, b);
    } else {
      PutElemsAppend(es.rest, a, b);
      Regroup([','], PutElems(es.rest, a), b);
    }
    Regroup(es.after, tail, b);
    PutAppend(es.value, es.after + tail, b);
    Regroup(es.before, Put(es.value, es.after + tail), b);
  }

  lemma {:induction false} PutMembersAppend(ms: Members, a: string, b: string)
    requires ms.Member?
    ensures PutMembers(ms, a + b) == PutMembers(ms, a) + b
    decreases ms
  {
    hide Put;
    var tail := if ms.rest.NoMembers? then ['}'] + a else [','] + PutMembers(ms.rest, a);
    if ms.rest.NoMembers? {
      Regroup(['}'], a, b);
    } else {
      PutMembersAppend(ms.rest, a, b);
      Regroup([','], PutMembers(ms.rest, a), b);
    }
    Regroup(ms.after, tail, b);
    PutAppend(ms.value, ms.after + tail, b);
    var v := Put(ms.value, ms.after + tail);
    KeyAppend(ms.before, ms.key, ms.mid, ms.lead, v, b);
  }

  lemma KeyAppend(before: string, key: string, mid: string, lead: string, v: string, b: string)
    ensures before + (['\"'] + (key + (['\"'] + (mid + ([':'] + (lead + (v + b))))))) ==
            before + (['\"'] + (key + (['\"'] + (mid + ([':'] + (lead + v)))))) + b
  {
    Regroup(lead, v, b);
    Regroup([':'], lead + v, b);
    Regroup(mid, [':'] + (lead + v), b);
    Regroup(['\"'], mid + ([':'] + (lead + v)), b);
    Regroup(key, ['\"'] + (mid + ([':'] + (lead + v))), b);
    Regroup(['\"'], key + (['\"'] + (mid + ([':'] + (lead + v)))), b);
    Regroup(before, ['\"'] + (key + (['\"'] + (mid + ([':'] + (lead + v))))), b);
  }

  // ---------------------------------------------------------------- maps without whitespace

  function CompactFields(m: Fields): Fields {
    match m case Nil => Nil case Field(name, value, more) => Field(name, Compact(value), CompactFields(more))
  }

  lemma {:induction false} CompactGet(m: Fields, k: string)
    ensures Get(CompactFields(m), k) == CompactOption(Get(m, k))
  {
    if m.Field? { CompactGet(m.more, k); }
  }

  lemma {:induction false} CompactTwice(v: Value)
    ensures Compact(Compact(v)) == Compact(v)
    decreases v
  {
    match v
    case Arr(_, elems) => CompactElemsTwice(elems);
    case Obj(_, members) => CompactMembersTwice(members);
    case _ =>
  }

  lemma {:induction false} CompactElemsTwice(es: Elems)
    ensures CompactElems(CompactElems(es)) == CompactElems(es)
    decreases es
  {
    if es.Elem? { CompactTwice(es.value); CompactElemsTwice(es.rest); }
  }

  lemma {:induction false} CompactMembersTwice(ms: Members)
    ensures CompactMembers(CompactMembers(ms)) == CompactMembers(ms)
    decreases ms
  {
    if ms.Member? { CompactTwice(ms.value); CompactMembersTwice(ms.rest); }
  }

  lemma {:induction false} CompactFieldsTwice(m: Fields)
    ensures CompactFields(CompactFields(m)) == CompactFields(m)
  {
    if m.Field? { CompactTwice(m.value); CompactFieldsTwice(m.more); }
  }

  lemma {:induction false} CompactSet(m: Fields, k: string, v: Value)
    ensures CompactFields(Set(m, k, v)) == Set(CompactFields(m), k, Compact(v))
  {
    hide Less, Compact;
    if m.Field? { CompactSet(m.more, k, v); }
  }

  lemma {:induction false} MapOfCompact(ms: Members)
    ensures MapOf(CompactMembers(ms)) == CompactFields(MapOf(ms))
  {
    if ms.Member? {
      MapOfCompact(ms.rest);
      hide Unquote, Compact, Set;
      CompactGet(MapOf(ms.rest), Unquote(ms.key));
      CompactSet(MapOf(ms.rest), Unquote(ms.key), ms.value);
    }
  }

  /** A written map reads back as itself, without whitespace. */
  lemma {:induction false} WrittenReads(m: Fields)
    requires Sorted(m)
    ensures MapOf(MembersOf(m)) == CompactFields(m)
  {
    if m.Field? {
      WrittenReads(m.more);
      QuoteReadsBack(m.name);
      GetBelow(m.more, m.name);
      hide Quote, Unquote, Compact;
      CompactGet(m.more, m.name);
      if m.more.Field? { LessTotal(m.name, m.more.name); }
      hide Less;
    }
  }

  /** The fields of a written object, also after one more compaction. */
  lemma WrittenFields(m: Fields)
    requires Sorted(m)
    ensures FieldsOf(Some(ObjectOf(m))) == Some(CompactFields(m))
    ensures FieldsOf(Some(Compact(ObjectOf(m)))) == Some(CompactFields(m))
  {
    WrittenReads(m);
    MapOfCompact(MembersOf(m));
    CompactFieldsTwice(m);
  }

  // ---------------------------------------------------------------- the items of a record

  predicate Stale(item: Fields) {
    var id := StringOf(Get(item, "id"));
    id.Some? && StaleId(id.value)
  }

  predicate Reasoning(item: Fields) { StringOf(Get(item, "type")) == Some("reasoning") }

  function StaleCount(items: seq<Fields>): nat {
    if items == [] then 0 else (if Stale(items[0]) then 1 else 0) + StaleCount(items[1..])
  }

  /** The stale reasoning items, which are removed rather than stripped. */
  function RemovedCount(items: seq<Fields>): nat {
    if items == [] then 0 else (if Stale(items[0]) && Reasoning(items[0]) then 1 else 0) + RemovedCount(items[1..])
  }

  lemma {:induction false} RemovedAreStale(items: seq<Fields>)
    ensures RemovedCount(items) <= StaleCount(items)
  {
    hide Stale, Reasoning;
    if items != [] { RemovedAreStale(items[1..]); }
  }

  /** The items of an array that are objects; the rewriter accepts no others. */
  function ElemItems(es: Elems): seq<Fields> {
    match es
    case NoElems => []
    case Elem(_, value, _, rest) =>
      (match value case Obj(_, members) => [MapOf(members)] case _ => []) + ElemItems(rest)
  }

  function CompactedItems(payload: Option<Value>): seq<Fields> {
    match FieldsOf(payload)
    case None => []
    case Some(compact) =>
      match Get(compact, "replacement_history")
      case Some(Arr(_, elems)) => ElemItems(elems)
      case _ => []
  }

  /** The items of a record that feed the model's context. */
  function ContextItems(envelope: Fields): seq<Fields> {
    var typ := StringOf(Get(envelope, "type"));
    var payload := Get(envelope, "payload");
    if typ == Some("compacted") then CompactedItems(payload)
    else if typ == Some("response_item") then
      match FieldsOf(payload) case None => [] case Some(item) => [item]
    else []
  }

  /** The survivors of a compaction: stale reasoning goes, other stale items lose their
      id, everything else stays, all in order. */
  function Survivors(items: seq<Fields>): seq<Fields> {
    if items == [] then []
    else if Stale(items[0]) && Reasoning(items[0]) then Survivors(items[1..])
    else [CompactFields(if Stale(items[0]) then Delete(items[0], "id") else items[0])] + Survivors(items[1..])
  }

  function OtherFields(): Fields { Field("type", Str("other"), Nil) }

  // ---------------------------------------------------------------- one item

  lemma SanitizeItemMeans(v: Value)
    requires SanitizeItem(Some(v)) != BadItem
    ensures v.Obj? && FieldsOf(Some(v)) == Some(MapOf(v.members))
    ensures var m := MapOf(v.members);
      (SanitizeItem(Some(v)) == KeepItem <==> !Stale(m)) &&
      (SanitizeItem(Some(v)) == DropItem <==> Stale(m) && Reasoning(m)) &&
      (SanitizeItem(Some(v)).StripItem? ==> SanitizeItem(Some(v)).value == ObjectOf(Delete(m, "id")))
  {
    EmptyNotStale();
    hide MapOf, Delete, ObjectOf, Unquote;
  }

  /** The stripped item: valid, without an id, every other field as it was. */
  lemma StrippedItem(v: Value)
    requires SanitizeItem(Some(v)).StripItem?
    ensures var m := MapOf(v.members);
      var w := SanitizeItem(Some(v)).value;
      FieldsOf(Some(w)) == FieldsOf(Some(Compact(w))) == Some(CompactFields(Delete(m, "id"))) &&
      SanitizeItem(Some(Compact(w))) == KeepItem && w.Obj?
  {
    var m := MapOf(v.members);
    SanitizeItemMeans(v);
    MapSorted(v.members);
    DeleteSorted(m, "id");
    var d := Delete(m, "id");
    WrittenFields(d);
    hide MapOf, Delete, Sorted, CompactFields;
    CompactGet(d, "id");
    CompactGet(d, "type");
    GetDelete(m, "id", "id");
    GetDelete(m, "id", "type");
    EmptyNotStale();
  }

  /** Compaction does not change what the rewriter thinks of an item. */
  lemma KeptItem(v: Value)
    requires SanitizeItem(Some(v)) == KeepItem
    ensures SanitizeItem(Some(Compact(v))) == KeepItem
    ensures v.Obj? && Compact(v).Obj? && MapOf(Compact(v).members) == CompactFields(MapOf(v.members))
  {
    SanitizeItemMeans(v);
    MapOfCompact(v.members);
    hide MapOf, CompactMembers, CompactFields;
    CompactGet(MapOf(v.members), "id");
    CompactGet(MapOf(v.members), "type");
  }

  // ---------------------------------------------------------------- the items of a compaction

  lemma {:induction false} CleanItemsMeans(es: Elems)
    requires CleanItems(es).Some?
    ensures var c := CleanItems(es).value;
      ElemItems(CompactElems(c.items)) == Survivors(ElemItems(es)) &&
      c.removed == RemovedCount(ElemItems(es)) && c.removed + c.stripped == StaleCount(ElemItems(es)) &&
      CleanItems(CompactElems(c.items)).Some? &&
      CleanItems(CompactElems(c.items)).value.removed == 0 == CleanItems(CompactElems(c.items)).value.stripped
  {
    if es.Elem? {
      var v := es.value;
      SanitizeItemMeans(v);
      CleanItemsMeans(es.rest);
      var m := MapOf(v.members);
      assert ElemItems(es) == [m] + ElemItems(es.rest);
      assert ([m] + ElemItems(es.rest))[1..] == ElemItems(es.rest);
      if SanitizeItem(Some(v)) == KeepItem {
        KeptItem(v);
      } else if SanitizeItem(Some(v)).StripItem? {
        StrippedItem(v);
      }
      hide SanitizeItem, MapOf, Compact, CompactFields, Delete, Stale, Reasoning, ObjectOf;
    }
  }

  lemma {:induction false} NoStaleItems(es: Elems)
    requires CleanItems(es).Some?
    ensures StaleCount(ElemItems(es)) == 0 <==> CleanItems(es).value.removed + CleanItems(es).value.stripped == 0
  {
    CleanItemsMeans(es);
  }

  // ---------------------------------------------------------------- a whole payload

  /** The items of a payload, given the type of its record. */
  function PayloadItems(typ: string, payload: Option<Value>): seq<Fields> {
    if typ == "compacted" then CompactedItems(payload)
    else if typ == "response_item" then
      match FieldsOf(payload) case None => [] case Some(item) => [item]
    else []
  }

  /** What the new payload of a record must be. */
  ghost predicate PayloadCleaned(typ: string, before: Option<Value>, after: Value, removed: nat, stripped: nat, paginated: bool) {
    && removed == RemovedCount(PayloadItems(typ, before))
    && removed + stripped == StaleCount(PayloadItems(typ, before)) > 0
    && SanitizeEnvelopePayload(typ, Some(Compact(after)), paginated) == Same
    && (if typ == "response_item" && removed == 1 then PayloadItems(typ, Some(Compact(after))) == [OtherFields()]
        else PayloadItems(typ, Some(Compact(after))) == Survivors(PayloadItems(typ, before)))
  }

  /** The verdict on a payload of a routed type, whether or not the record is numbered. */
  function SanitizeEnvelopePayload(typ: string, payload: Option<Value>, paginated: bool): Verdict {
    if typ == "compacted" then SanitizeCompacted(payload)
    else if typ == "response_item" then SanitizeResponse(payload, true, paginated)
    else Same
  }

  lemma OtherItemReads()
    ensures SanitizeItem(Some(Compact(OtherItem()))) == KeepItem
    ensures FieldsOf(Some(Compact(OtherItem()))) == Some(OtherFields())
    ensures FieldsOf(Some(OtherItem())) == Some(OtherFields())
  {
    assert Unquote("type") == "type" by { PlainText("type"); }
    assert Unquote("other") == "other" by { PlainText("other"); }
    hide Unquote;
    EmptyNotStale();
  }

  lemma PlainText(s: string)
    requires s == "type" || s == "other"
    ensures Unquote(s) == s
  {
    assert LegalBody(s) by {
      assert s == [s[0]] + s[1..];
      ShortLegal(s);
    }
    PlainKeyReads(s);
  }

  lemma {:induction false} ShortLegal(s: string)
    requires forall i :: 0 <= i < |s| ==> 'a' <= s[i] <= 'z'
    ensures LegalBody(s)
  {
    if s != "" { ShortLegal(s[1..]); }
  }

  lemma OneItem(m: Fields)
    requires Stale(m)
    ensures StaleCount([m]) == 1 && RemovedCount([m]) == if Reasoning(m) then 1 else 0
    ensures Survivors([m]) == if Reasoning(m) then [] else [CompactFields(Delete(m, "id"))]
  {
    assert [m][1..] == [];
    hide Stale, Reasoning, CompactFields, Delete;
  }

  lemma ResponseCleaned(payload: Option<Value>, numbered: bool, paginated: bool)
    requires SanitizeResponse(payload, numbered, paginated).NewPayload?
    ensures var w := SanitizeResponse(payload, numbered, paginated);
      PayloadCleaned("response_item", payload, w.payload, w.removed, w.stripped, paginated)
  {
    var v := payload.value;
    SanitizeItemMeans(v);
    var m := MapOf(v.members);
    OneItem(m);
    if SanitizeItem(payload).StripItem? {
      StrippedItem(v);
    } else {
      OtherItemReads();
    }
    hide SanitizeItem, MapOf, Compact, CompactFields, Delete, Stale, Reasoning, ObjectOf, SanitizeCompacted, Survivors, StaleCount, RemovedCount, FieldsOf, OtherItem, OtherFields;
  }

  /** What is in a compaction that is rewritten. */
  lemma CompactedParts(payload: Option<Value>)
    requires SanitizeCompacted(payload).NewPayload?
    ensures FieldsOf(payload).Some?
    ensures var compact := FieldsOf(payload).value;
      var list := Get(compact, "replacement_history");
      list.Some? && list.value.Arr? && CleanItems(list.value.elems).Some? &&
      (var c := CleanItems(list.value.elems).value;
       c.removed + c.stripped > 0 && CompactedItems(payload) == ElemItems(list.value.elems) &&
       SanitizeCompacted(payload) ==
         NewPayload(ObjectOf(Set(compact, "replacement_history", Arr("", c.items))), c.removed, c.stripped))
  {
    hide Set, ObjectOf, CleanItems, FieldsOf, ElemItems, Get;
  }

  /** A compaction of clean items is left alone, and these are its items. */
  lemma CompactedSame(payload: Option<Value>, es: Elems)
    requires FieldsOf(payload).Some? && Get(FieldsOf(payload).value, "replacement_history") == Some(Arr("", es))
    requires CleanItems(es).Some? && CleanItems(es).value.removed == 0 == CleanItems(es).value.stripped
    ensures SanitizeCompacted(payload) == Same && CompactedItems(payload) == ElemItems(es)
  {
    hide CleanItems, FieldsOf, ElemItems, Get;
  }

  lemma CompactedCleaned(payload: Option<Value>, paginated: bool)
    requires SanitizeCompacted(payload).NewPayload?
    ensures var w := SanitizeCompacted(payload);
      PayloadCleaned("compacted", payload, w.payload, w.removed, w.stripped, paginated)
  {
    hide Set, ObjectOf, CleanItems, FieldsOf, Survivors, StaleCount, RemovedCount, ElemItems, SanitizeResponse, CompactElems, SanitizeCompacted, CompactedItems, Get;
    CompactedParts(payload);
    var compact := FieldsOf(payload).value;
    var elems := Get(compact, "replacement_history").value.elems;
    var c := CleanItems(elems).value;
    CleanItemsMeans(elems);
    CompactedSorted(payload);
    CompactedWritten(compact, c.items);
    CompactedSame(Some(Compact(SanitizeCompacted(payload).payload)), CompactElems(c.items));
  }

  /** The rewritten compaction, read back. */
  lemma CompactedWritten(compact: Fields, items: Elems)
    requires Sorted(compact)
    ensures var w := ObjectOf(Set(compact, "replacement_history", Arr("", items)));
      FieldsOf(Some(Compact(w))).Some? &&
      Get(FieldsOf(Some(Compact(w))).value, "replacement_history") == Some(Arr("", CompactElems(items)))
  {
    var list := Arr("", items);
    var written := Set(compact, "replacement_history", list);
    SetSorted(compact, "replacement_history", list);
    WrittenFields(written);
    GetSet(compact, "replacement_history", list, "replacement_history");
    hide Sorted, Set, ObjectOf, CompactFields, FieldsOf, CompactElems;
    CompactGet(written, "replacement_history");
  }

  lemma CompactedSorted(payload: Option<Value>)
    requires FieldsOf(payload).Some?
    ensures Sorted(FieldsOf(payload).value)
  {
    match payload
    case Some(Obj(_, members)) => MapSorted(members);
    case _ =>
  }

  // ---------------------------------------------------------------- a whole line

  function EnvelopeOf(line: string): Option<Fields> {
    match Parse(TrimNewline(line)) case Bad => None case Got(doc, _) => FieldsOf(Some(doc.value))
  }

  function ItemsOf(line: string): seq<Fields> {
    match EnvelopeOf(line) case None => [] case Some(envelope) => ContextItems(envelope)
  }

  /** A written record, with its padding and newline, reads back as the fields that were written. */
  lemma WrittenLine(m: Fields, pad: nat, line: string)
    requires Sorted(m) && LegalFields(m)
    requires line == Text(ObjectOf(m)) + Spaces(pad) || line == Text(ObjectOf(m)) + Spaces(pad) + "\n"
    ensures EnvelopeOf(line) == Some(CompactFields(m))
    ensures Parse(TrimNewline(line)).Got? && Parse(TrimNewline(line)).value.value == ObjectOf(m)
    ensures TrimNewline(line) == Text(ObjectOf(m)) + Spaces(pad) && '\n' !in TrimNewline(line)
  {
    hide Parse, FieldsOf, Put, Legal, ObjectOf, Sorted, LegalFields, LegalMembers, CompactFields;
    var v := ObjectOf(m);
    var text := Text(v) + Spaces(pad);
    ObjectLegal(m);
    ObjectOneLine(m);
    WrittenFields(m);
    PutAppend(v, "", Spaces(pad));
    assert "" + Spaces(pad) == Spaces(pad);
    var doc := Doc("", v, Spaces(pad));
    assert DocText(doc) == text;
    DocParses(doc) by { assert LegalDoc(doc); }
    assert '\n' !in text;
    TrimmedText(line, text);
  }

  lemma TrimmedText(line: string, text: string)
    requires '\n' !in text && (line == text || line == text + "\n")
    ensures TrimNewline(line) == text
  {
  }

  /** Reading the envelope of a line gives sorted, legal fields. */
  lemma EnvelopeSound(line: string)
    requires EnvelopeOf(line).Some?
    ensures Sorted(EnvelopeOf(line).value) && LegalFields(EnvelopeOf(line).value)
  {
    ParseSound(TrimNewline(line));
    var doc := Parse(TrimNewline(line)).value;
    hide Parse;
    match doc.value
    case Obj(_, members) =>
      assert LegalMembers(members);
      MapSorted(members);
      MapLegal(members);
    case _ =>
  }

  /** The verdict on an envelope, read off its type and payload. */
  lemma EnvelopeVerdict(e: Fields, paginated: bool, typ: string)
    requires StringOf(Get(e, "type")) == Some(typ)
    ensures SanitizeEnvelope(e, paginated) == Same ==> SanitizeEnvelopePayload(typ, Get(e, "payload"), paginated) == Same
    ensures SanitizeEnvelopePayload(typ, Get(e, "payload"), paginated) == Same ==> SanitizeEnvelope(e, paginated) == Same
    ensures ContextItems(e) == PayloadItems(typ, Get(e, "payload"))
  {
    hide SanitizeItem, SanitizeCompacted, FieldsOf, CompactedItems;
  }

  lemma VerdictCleans(e: Fields, paginated: bool)
    requires SanitizeEnvelope(e, paginated).NewPayload?
    ensures StringOf(Get(e, "type")).Some?
    ensures var w := SanitizeEnvelope(e, paginated);
      PayloadCleaned(StringOf(Get(e, "type")).value, Get(e, "payload"), w.payload, w.removed, w.stripped, paginated)
  {
    hide SanitizeCompacted, SanitizeResponse, PayloadCleaned;
    if StringOf(Get(e, "type")).value == "compacted" {
      CompactedCleaned(Get(e, "payload"), paginated);
    } else {
      ResponseCleaned(Get(e, "payload"), Get(e, "ordinal").Some?, paginated);
    }
  }

  /** The new payload is legal JSON if the old record was. */
  lemma VerdictLegal(e: Fields, paginated: bool)
    requires LegalFields(e) && SanitizeEnvelope(e, paginated).NewPayload?
    ensures Legal(SanitizeEnvelope(e, paginated).payload)
  {
    GetLegal(e, "payload");
    hide LegalFields, Legal, Unquote, SanitizeCompacted, SanitizeItem;
    var v := Get(e, "payload").value;
    if StringOf(Get(e, "type")).value == "compacted" {
      CompactedLegal(v);
    } else {
      ItemLegal(v);
      OtherLegal();
    }
  }

  lemma OtherLegal()
    ensures Legal(OtherItem())
  {
    hide LegalBody, Unquote, Compact;
    ShortLegal("type");
    ShortLegal("other");
    EmptyLegal();
  }

  lemma ItemLegal(v: Value)
    requires Legal(v)
    ensures SanitizeItem(Some(v)).StripItem? ==> Legal(SanitizeItem(Some(v)).value)
  {
    if SanitizeItem(Some(v)).StripItem? {
      SanitizeItemMeans(v);
      MapLegal(v.members);
      DeleteLegal(MapOf(v.members), "id");
      ObjectLegal(Delete(MapOf(v.members), "id"));
    }
  }

  lemma {:induction false} CleanItemsLegal(es: Elems)
    requires LegalElems(es) && CleanItems(es).Some?
    ensures LegalElems(CleanItems(es).value.items)
  {
    if es.Elem? {
      ItemLegal(es.value);
      CleanItemsLegal(es.rest);
      hide Legal, SanitizeItem;
    }
  }

  lemma CompactedLegal(v: Value)
    requires Legal(v) && SanitizeCompacted(Some(v)).NewPayload?
    ensures Legal(SanitizeCompacted(Some(v)).payload)
  {
    var compact := FieldsOf(Some(v)).value;
    if v.Obj? {
      MapLegal(v.members);
      GetLegal(compact, "replacement_history");
      var elems := Get(compact, "replacement_history").value.elems;
      var c := CleanItems(elems).value;
      CleanItemsLegal(elems);
      assert Legal(Arr("", c.items));
      SetLegal(compact, "replacement_history", Arr("", c.items));
      ObjectLegal(Set(compact, "replacement_history", Arr("", c.items)));
    }
  }

  // ---------------------------------------------------------------- the record theorem

  /** Every field of the envelope but the payload is as it was, up to whitespace. */
  ghost predicate SameEnvelope(before: Fields, after: Fields) {
    forall k :: k != "payload" ==> Get(after, k) == CompactOption(Get(before, k))
  }

  /** The survivors in order, or a placeholder where a response item leaves none. */
  ghost predicate ItemsCleaned(before: seq<Fields>, after: seq<Fields>) {
    after == Survivors(before) || (Survivors(before) == [] && after == [OtherFields()])
  }

  /** What the rewriter promises about an accepted line. */
  ghost predicate RecordCleaned(line: string, r: LineResult) {
    && r.Line? && EnvelopeOf(line).Some? && EnvelopeOf(r.bytes).Some?
    && r.removed == RemovedCount(ItemsOf(line)) && r.removed + r.stripped == StaleCount(ItemsOf(line))
    && (r.changed <==> StaleCount(ItemsOf(line)) > 0)
    && StaleCount(ItemsOf(r.bytes)) == 0
    && (if !r.changed then r.bytes == line
        else
          && SameEnvelope(EnvelopeOf(line).value, EnvelopeOf(r.bytes).value)
          && ItemsCleaned(ItemsOf(line), ItemsOf(r.bytes)))
    && EndsInNewline(r.bytes) == EndsInNewline(line)
    && (r.changed ==> '\n' !in TrimNewline(r.bytes))
    && (Get(EnvelopeOf(line).value, "ordinal").Some? ==> |r.bytes| == |line|)
  }

  /** An accepted record the rewriter leaves alone has no stale item. */
  lemma SameHasNoStale(e: Fields, paginated: bool)
    requires SanitizeEnvelope(e, paginated) == Same
    ensures StaleCount(ContextItems(e)) == 0
    ensures forall other :: SanitizeEnvelope(e, other) == Same
  {
    var typ := StringOf(Get(e, "type")).value;
    EnvelopeVerdict(e, paginated, typ);
    var payload := Get(e, "payload");
    hide SanitizeItem, FieldsOf, Stale, CleanItems, ElemItems;
    if typ == "response_item" {
      SanitizeItemMeans(payload.value);
      assert [MapOf(payload.value.members)][1..] == [];
    } else if typ == "compacted" {
      var compact := FieldsOf(payload).value;
      match Get(compact, "replacement_history")
      case Some(Arr(_, elems)) => NoStaleItems(elems);
      case _ =>
    }
  }

  lemma {:induction false} SurvivorsFresh(items: seq<Fields>)
    ensures StaleCount(Survivors(items)) == 0
  {
    if items != [] {
      SurvivorsFresh(items[1..]);
      var f := if Stale(items[0]) then Delete(items[0], "id") else items[0];
      CompactGet(f, "id");
      GetDelete(items[0], "id", "id");
      EmptyNotStale();
      assert !(Stale(items[0]) && Reasoning(items[0])) ==> !Stale(CompactFields(f)) by {
        hide StaleId, CompactFields, Delete;
      }
      hide Stale, Reasoning, CompactFields, Delete;
      assert ([CompactFields(f)] + Survivors(items[1..]))[1..] == Survivors(items[1..]);
    }
  }

  lemma SurvivorsOfOne(m: Fields)
    requires Stale(m) && Reasoning(m)
    ensures Survivors([m]) == [] && StaleCount([OtherFields()]) == 0
  {
    OneItem(m);
    EmptyNotStale();
    assert [OtherFields()][1..] == [];
    hide StaleId;
  }

  /** The fields of a rewritten envelope. */
  lemma RewrittenEnvelope(e: Fields, paginated: bool, other: bool)
    requires Sorted(e) && SanitizeEnvelope(e, paginated).NewPayload?
    ensures var w := SanitizeEnvelope(e, paginated);
      var after := CompactFields(Set(e, "payload", w.payload));
      SameEnvelope(e, after) && SanitizeEnvelope(after, other) == Same &&
      w.removed == RemovedCount(ContextItems(e)) && w.removed + w.stripped == StaleCount(ContextItems(e)) > 0 &&
      StaleCount(ContextItems(after)) == 0 &&
      ItemsCleaned(ContextItems(e), ContextItems(after))
  {
    var w := SanitizeEnvelope(e, paginated);
    var after := CompactFields(Set(e, "payload", w.payload));
    VerdictCleans(e, paginated);
    var typ := StringOf(Get(e, "type")).value;
    EnvelopeGets(e, w.payload);
    assert StringOf(Get(after, "type")) == Some(typ);
    EnvelopeVerdict(e, paginated, typ);
    EnvelopeVerdict(after, other, typ);
    EnvelopeVerdict(after, paginated, typ);
    SameForAll(typ, Get(after, "payload"), paginated, other);
    SameHasNoStale(after, paginated) by {
      hide SanitizeEnvelope, SanitizeEnvelopePayload, ContextItems, CompactFields, Set;
    }
    if typ == "response_item" && w.removed == 1 {
      DroppedResponse(e, paginated);
    }
    hide SanitizeEnvelope, SanitizeEnvelopePayload, ContextItems, PayloadItems, CompactFields, Set, Survivors, StaleCount, RemovedCount, OtherFields, SameEnvelope;
  }

  lemma EnvelopeGets(e: Fields, payload: Value)
    ensures var after := CompactFields(Set(e, "payload", payload));
      SameEnvelope(e, after) && Get(after, "payload") == Some(Compact(payload)) &&
      StringOf(Get(after, "type")) == StringOf(Get(e, "type"))
  {
    var after := CompactFields(Set(e, "payload", payload));
    hide Set, CompactFields, Compact, Unquote;
    forall k
      ensures Get(after, k) == if k == "payload" then Some(Compact(payload)) else CompactOption(Get(e, k))
    {
      GetSet(e, "payload", payload, k);
      CompactGet(Set(e, "payload", payload), k);
    }
    assert StringOf(CompactOption(Get(e, "type"))) == StringOf(Get(e, "type")) by { StringCompact(Get(e, "type")); }
  }

  lemma StringCompact(v: Option<Value>)
    ensures StringOf(CompactOption(v)) == StringOf(v)
  {
    hide Unquote;
  }

  lemma SameForAll(typ: string, payload: Option<Value>, paginated: bool, other: bool)
    requires SanitizeEnvelopePayload(typ, payload, paginated) == Same
    ensures SanitizeEnvelopePayload(typ, payload, other) == Same
  {
    hide SanitizeItem, SanitizeCompacted;
  }

  lemma DroppedResponse(e: Fields, paginated: bool)
    requires StringOf(Get(e, "type")) == Some("response_item")
    requires SanitizeEnvelope(e, paginated).NewPayload? && SanitizeEnvelope(e, paginated).removed == 1
    ensures Survivors(ContextItems(e)) == []
  {
    var v := Get(e, "payload").value;
    SanitizeItemMeans(v);
    hide SanitizeItem, Stale, Reasoning, MapOf, CompactFields;
    SurvivorsOfOne(MapOf(v.members));
  }

  /** The record theorem: what the sanitizer does to one accepted line. */
  lemma RewrittenRecord(line: string, paginated: bool)
    requires SanitizeLine(line, paginated).Line?
    ensures RecordCleaned(line, SanitizeLine(line, paginated))
  {
    FastRefinesSlow(line, paginated);
    hide SanitizeEnvelope, ContextItems, Parse, FieldsOf, Sorted, LegalFields, StaleCount, RemovedCount, ItemsCleaned, SameEnvelope, SanitizeLine, Get, Encode;
    var r := SanitizeLine(line, paginated);
    if r.changed {
      hide RecordCleaned;
      RewrittenLine(line, paginated);
    } else {
      SameHasNoStale(EnvelopeOf(line).value, paginated);
      RemovedAreStale(ItemsOf(line));
    }
  }

  lemma RewrittenLine(line: string, paginated: bool)
    requires SanitizeLineConservative(line, paginated).Line? && SanitizeLineConservative(line, paginated).changed
    ensures RecordCleaned(line, SanitizeLineConservative(line, paginated))
  {
    hide SanitizeLineConservative, SanitizeEnvelope, ContextItems, EnvelopeOf, Encode, StaleCount, RemovedCount, Survivors, SameEnvelope, Set, CompactFields, TrimNewline, Sorted, LegalFields, EndsInNewline, Get, ItemsCleaned;
    RewrittenReads(line, paginated);
    var e := EnvelopeOf(line).value;
    RewrittenParts(line, paginated);
    RewrittenEnvelope(e, paginated, paginated);
  }

  lemma RewrittenSame(line: string, paginated: bool, other: bool)
    requires SanitizeLineConservative(line, paginated).Line? && SanitizeLineConservative(line, paginated).changed
    ensures var r := SanitizeLineConservative(line, paginated);
      EnvelopeOf(r.bytes).Some? && SanitizeEnvelope(EnvelopeOf(r.bytes).value, other) == Same
  {
    RewrittenReads(line, paginated);
    RewrittenParts(line, paginated);
    hide SanitizeLineConservative, SanitizeEnvelope, EnvelopeOf;
    RewrittenEnvelope(EnvelopeOf(line).value, paginated, other);
  }

  /** How the rewritten line reads back. */
  lemma RewrittenReads(line: string, paginated: bool)
    requires SanitizeLineConservative(line, paginated).Line? && SanitizeLineConservative(line, paginated).changed
    ensures EnvelopeOf(line).Some?
    ensures var bytes := SanitizeLineConservative(line, paginated).bytes;
      var e := EnvelopeOf(line).value;
      var w := SanitizeEnvelope(e, paginated);
      w.NewPayload? && Sorted(e) &&
      EnvelopeOf(bytes) == Some(CompactFields(Set(e, "payload", w.payload))) &&
      Parse(TrimNewline(bytes)).Got? && Parse(TrimNewline(bytes)).value.value == ObjectOf(Set(e, "payload", w.payload)) &&
      EndsInNewline(bytes) == EndsInNewline(line) && '\n' !in TrimNewline(bytes) &&
      (Get(e, "ordinal").Some? ==> |bytes| == |line|)
  {
    RewrittenParts(line, paginated);
    hide SanitizeLineConservative, SanitizeEnvelope, EnvelopeOf, Encode, Set, CompactFields, TrimNewline, Sorted, LegalFields, EndsInNewline, Get, Parse, ObjectOf;
    var r := SanitizeLineConservative(line, paginated);
    var e := EnvelopeOf(line).value;
    var w := SanitizeEnvelope(e, paginated);
    EnvelopeSound(line);
    VerdictLegal(e, paginated);
    SetSorted(e, "payload", w.payload);
    SetLegal(e, "payload", w.payload);
    EncodedShape(e, w.payload, line, r.bytes);
  }

  /** The parts of a changed answer. */
  lemma RewrittenParts(line: string, paginated: bool)
    requires SanitizeLineConservative(line, paginated).Line? && SanitizeLineConservative(line, paginated).changed
    ensures EnvelopeOf(line).Some? && SanitizeEnvelope(EnvelopeOf(line).value, paginated).NewPayload?
    ensures var r := SanitizeLineConservative(line, paginated);
      var e := EnvelopeOf(line).value;
      var w := SanitizeEnvelope(e, paginated);
      var encoded := Encode(e, w.payload, TrimNewline(line));
      encoded.Some? && r == Line(if EndsInNewline(line) then encoded.value + "\n" else encoded.value, true, w.removed, w.stripped)
  {
    hide Parse, FieldsOf, Encode, SanitizeEnvelope;
  }

  /** The bytes of a rewritten line: how long they are and what they read back as. */
  lemma EncodedShape(e: Fields, payload: Value, line: string, bytes: string)
    requires Sorted(Set(e, "payload", payload)) && LegalFields(Set(e, "payload", payload))
    requires var encoded := Encode(e, payload, TrimNewline(line));
      encoded.Some? && bytes == if EndsInNewline(line) then encoded.value + "\n" else encoded.value
    ensures EnvelopeOf(bytes) == Some(CompactFields(Set(e, "payload", payload)))
    ensures Parse(TrimNewline(bytes)).Got? && Parse(TrimNewline(bytes)).value.value == ObjectOf(Set(e, "payload", payload))
    ensures EndsInNewline(bytes) == EndsInNewline(line) && '\n' !in TrimNewline(bytes)
    ensures Get(e, "ordinal").Some? ==> |bytes| == |line|
  {
    var written := Set(e, "payload", payload);
    var trimmed := TrimNewline(line);
    var encoded := Text(ObjectOf(written));
    var pad := if Get(e, "ordinal").Some? then |trimmed| - |encoded| else 0;
    assert encoded + Spaces(0) == encoded;
    hide Sorted, LegalFields, Set, ObjectOf, Put, CompactFields, IsOrdinal, EnvelopeOf, Parse;
    WrittenLine(written, pad, bytes);
    ObjectOneLine(written);
    assert '\n' !in encoded + Spaces(pad);
  }

  /** A second pass, in either mode, finds nothing to change. */
  lemma SecondPass(line: string, paginated: bool, other: bool)
    requires SanitizeLine(line, paginated).Line?
    ensures var bytes := SanitizeLine(line, paginated).bytes;
      SanitizeLine(bytes, other) == Line(bytes, false, 0, 0)
  {
    FastRefinesSlow(line, paginated);
    var r := SanitizeLine(line, paginated);
    FastRefinesSlow(r.bytes, other);
    hide SanitizeEnvelope, Parse, FieldsOf;
    if r.changed {
      RewrittenSame(line, paginated, other);
    } else {
      SameHasNoStale(EnvelopeOf(line).value, paginated);
    }
  }
}
