/** One record of a rollout through the sanitizer (internal/rollout/sanitize.go):
    the fast inspection, the conservative rewriter, and the proofs that the fast path
    never changes an answer and that a rewritten record is clean. */
module Sanitize {
  import opened Wrappers
  import opened JsonText
  import opened KeyScan
  import opened GoJson

  // ---------------------------------------------------------------- struct decoding

  /** The routing fields of a response item; a null or missing field is a nil pointer. */
  datatype Item = Item(typ: Option<string>, id: Option<string>)

  datatype Payload = Payload(item: Item, items: seq<Item>)

  datatype Envelope = Envelope(typ: string, payload: Option<Payload>)

  const NO_ITEM := Item(None, None)

  /** A value with the flag that every field of it had the right type. */
  datatype Decoded<+T> = Decoded(value: T, ok: bool)

  function DecodePointer(v: Value, prev: Option<string>): Decoded<Option<string>> {
    match v
    case Str(body) => Decoded(Some(Unquote(body)), true)
    case Lit(raw) => if raw == "null" then Decoded(None, true) else Decoded(prev, false)
    case _ => Decoded(prev, false)
  }

  function DecodeItemField(item: Item, field: string, v: Value): Decoded<Item> {
    if field == "type" then
      var d := DecodePointer(v, item.typ);
      Decoded(item.(typ := d.value), d.ok)
    else if field == "id" then
      var d := DecodePointer(v, item.id);
      Decoded(item.(id := d.value), d.ok)
    else Decoded(item, true)
  }

  /** Members are merged into the item in the order they appear. */
  function DecodeItem(ms: Members, item: Item): Decoded<Item> {
    match ms
    case NoMembers => Decoded(item, true)
    case Member(_, key, _, _, value, _, rest) =>
      var first := DecodeItemField(item, Fold(Unquote(key)), value);
      var others := DecodeItem(rest, first.value);
      Decoded(others.value, first.ok && others.ok)
  }

  function DecodeElement(v: Value, item: Item): Decoded<Item> {
    match v
    case Obj(_, members) => DecodeItem(members, item)
    case Lit(raw) => Decoded(item, raw == "null")
    case _ => Decoded(item, false)
  }

  /** A repeated array is decoded over the elements already there. */
  function DecodeItems(es: Elems, prev: seq<Item>): Decoded<seq<Item>> {
    match es
    case NoElems => Decoded([], true)
    case Elem(_, value, _, rest) =>
      var first := DecodeElement(value, if prev == [] then NO_ITEM else prev[0]);
      var others := DecodeItems(rest, if prev == [] then [] else prev[1..]);
      Decoded([first.value] + others.value, first.ok && others.ok)
  }

  function DecodeList(v: Value, prev: seq<Item>): Decoded<seq<Item>> {
    match v
    case Arr(_, elems) => DecodeItems(elems, prev)
    case Lit(raw) => if raw == "null" then Decoded([], true) else Decoded(prev, false)
    case _ => Decoded(prev, false)
  }

  function DecodePayload(ms: Members, payload: Payload): Decoded<Payload> {
    match ms
    case NoMembers => Decoded(payload, true)
    case Member(_, key, _, _, value, _, rest) =>
      var field := Fold(Unquote(key));
      var item := DecodeItemField(payload.item, field, value);
      var items := if field == "replacement_history" then DecodeList(value, payload.items) else Decoded(payload.items, true);
      var others := DecodePayload(rest, Payload(item.value, items.value));
      Decoded(others.value, item.ok && items.ok && others.ok)
  }

  function DecodePayloadField(v: Value, prev: Option<Payload>): Decoded<Option<Payload>> {
    match v
    case Obj(_, members) =>
      var d := DecodePayload(members, if prev.Some? then prev.value else Payload(NO_ITEM, []));
      Decoded(Some(d.value), d.ok)
    case Lit(raw) => if raw == "null" then Decoded(None, true) else Decoded(prev, false)
    case _ => Decoded(prev, false)
  }

  function DecodeString(v: Value, prev: string): Decoded<string> {
    match v
    case Str(body) => Decoded(Unquote(body), true)
    case Lit(raw) => Decoded(prev, raw == "null")
    case _ => Decoded(prev, false)
  }

  function DecodeMembers(ms: Members, e: Envelope): Decoded<Envelope> {
    match ms
    case NoMembers => Decoded(e, true)
    case Member(_, key, _, _, value, _, rest) =>
      var field := Fold(Unquote(key));
      var typ := if field == "type" then DecodeString(value, e.typ) else Decoded(e.typ, true);
      var payload := if field == "payload" then DecodePayloadField(value, e.payload) else Decoded(e.payload, true);
      var others := DecodeMembers(rest, Envelope(typ.value, payload.value));
      Decoded(others.value, typ.ok && payload.ok && others.ok)
  }

  function DecodeEnvelope(v: Value): Decoded<Envelope> {
    var e := Envelope("", None);
    match v
    case Obj(_, members) => DecodeMembers(members, e)
    case Lit(raw) => Decoded(e, raw == "null")
    case _ => Decoded(e, false)
  }

  // ---------------------------------------------------------------- the fast path

  predicate StaleId(id: string) { "item_" <= id }

  predicate CleanItem(item: Item) { item.typ.Some? && (item.id.Some? ==> !StaleId(item.id.value)) }

  predicate CleanDecoded(e: Envelope) {
    if e.typ == "response_item" then e.payload.Some? && CleanItem(e.payload.value.item)
    else if e.typ == "compacted" then e.payload.Some? && forall i <- e.payload.value.items :: CleanItem(i)
    else true
  }

  predicate CleanEnvelope(line: string) {
    Scan(line, []) &&
    match Parse(line)
    case Bad => false
    case Got(doc, _) =>
      var d := DecodeEnvelope(doc.value);
      d.ok && CleanDecoded(d.value)
  }

  // ---------------------------------------------------------------- the conservative rewriter

  datatype ItemVerdict = BadItem | KeepItem | DropItem | StripItem(value: Value)

  /** A string that may be missing or null; None if it has another type. */
  function StringOf(v: Option<Value>): Option<string> {
    match v
    case None => Some("")
    case Some(Str(body)) => Some(Unquote(body))
    case Some(Lit(raw)) => if raw == "null" then Some("") else None
    case _ => None
  }

  /** The fields of an object read into a map; null reads as an empty map. */
  function FieldsOf(v: Option<Value>): Option<Fields> {
    match v
    case Some(Obj(_, members)) => Some(MapOf(members))
    case Some(Lit(raw)) => if raw == "null" then Some(Nil) else None
    case _ => None
  }

  function SanitizeItem(v: Option<Value>): ItemVerdict {
    match FieldsOf(v)
    case None => BadItem
    case Some(fields) =>
      if Get(fields, "type").None? then BadItem
      else
        var typ := StringOf(Get(fields, "type"));
        var id := StringOf(Get(fields, "id"));
        if typ.None? || id.None? then BadItem
        else if !StaleId(id.value) then KeepItem
        else if typ.value == "reasoning" then DropItem
        else StripItem(ObjectOf(Delete(fields, "id")))
  }

  /** The items of a compacted record after cleaning, with the two counts. */
  datatype Cleaned = Cleaned(items: Elems, removed: nat, stripped: nat)

  function CleanItems(es: Elems): Option<Cleaned> {
    match es
    case NoElems => Some(Cleaned(NoElems, 0, 0))
    case Elem(_, value, _, rest) =>
      var verdict := SanitizeItem(Some(value));
      match CleanItems(rest)
      case None => None
      case Some(c) =>
        match verdict
        case BadItem => None
        case DropItem => Some(Cleaned(c.items, c.removed + 1, c.stripped))
        case KeepItem => Some(Cleaned(Elem("", value, "", c.items), c.removed, c.stripped))
        case StripItem(stripped) => Some(Cleaned(Elem("", stripped, "", c.items), c.removed, c.stripped + 1))
  }

  /** What becomes of a record: an error, the record as it is, or a new payload. */
  datatype Verdict = Reject | Same | NewPayload(payload: Value, removed: nat, stripped: nat)

  function OtherItem(): Value { Obj("", Member("", "type", "", "", Str("other"), "", NoMembers)) }

  function SanitizeCompacted(payload: Option<Value>): Verdict {
    match FieldsOf(payload)
    case None => Reject
    case Some(compact) =>
      match Get(compact, "replacement_history")
      case None => Same
      case Some(Lit(raw)) => if raw == "null" then Same else Reject
      case Some(Arr(_, elems)) =>
        (match CleanItems(elems)
         case None => Reject
         case Some(c) =>
           if c.removed + c.stripped == 0 then Same
           else NewPayload(ObjectOf(Set(compact, "replacement_history", Arr("", c.items))), c.removed, c.stripped))
      case _ => Reject
  }

  function SanitizeResponse(payload: Option<Value>, numbered: bool, paginated: bool): Verdict {
    match SanitizeItem(payload)
    case BadItem => Reject
    case KeepItem => Same
    case DropItem => if paginated && !numbered then Reject else NewPayload(OtherItem(), 1, 0)
    case StripItem(value) => NewPayload(value, 0, 1)
  }

  function SanitizeEnvelope(envelope: Fields, paginated: bool): Verdict {
    match StringOf(Get(envelope, "type"))
    case None => Reject
    case Some(typ) =>
      if typ == "compacted" then SanitizeCompacted(Get(envelope, "payload"))
      else if typ == "response_item" then
        SanitizeResponse(Get(envelope, "payload"), Get(envelope, "ordinal").Some?, paginated)
      else Same
  }

  function Decimal(s: string): nat {
    if s == "" || !IsDigit(s[|s| - 1]) then 0
    else Decimal(s[..|s| - 1]) * 10 + (s[|s| - 1] as int - '0' as int)
  }

  /** A number that fits uint64. */
  predicate IsOrdinal(v: Value) {
    v.Lit? && v.raw != "" && AllDigits(v.raw) && Decimal(v.raw) < 0x1_0000_0000_0000_0000
  }

  function Spaces(n: nat): (s: string)
    ensures |s| == n && AllWs(s) && '\n' !in s
  {
    seq(n, i => ' ')
  }

  function TrimNewline(line: string): string {
    if line != "" && line[|line| - 1] == '\n' then line[..|line| - 1] else line
  }

  predicate EndsInNewline(line: string) { line != "" && line[|line| - 1] == '\n' }

  /** An answer about a line.  Every accepted line is kept: nothing is ever dropped from a rollout. */
  datatype LineResult = LineError | Line(bytes: string, changed: bool, removed: nat, stripped: nat)

  /** The rewritten record, padded to its old length if it is numbered. */
  function Encode(envelope: Fields, payload: Value, trimmed: string): Option<string> {
    var written := Set(envelope, "payload", payload);
    var encoded := Text(ObjectOf(written));
    match Get(envelope, "ordinal")
    case None => Some(encoded)
    case Some(ordinal) =>
      if !IsOrdinal(ordinal) || |encoded| > |trimmed| then None
      else Some(encoded + Spaces(|trimmed| - |encoded|))
  }

  function SanitizeLineConservative(line: string, paginated: bool): LineResult {
    var trimmed := TrimNewline(line);
    match Parse(trimmed)
    case Bad => LineError
    case Got(doc, _) =>
      match FieldsOf(Some(doc.value))
      case None => LineError
      case Some(envelope) =>
        match SanitizeEnvelope(envelope, paginated)
        case Reject => LineError
        case Same => Line(line, false, 0, 0)
        case NewPayload(payload, removed, stripped) =>
          match Encode(envelope, payload, trimmed)
          case None => LineError
          case Some(encoded) =>
            Line(if EndsInNewline(line) then encoded + "\n" else encoded, true, removed, stripped)
  }

  predicate Blank(s: string) { forall c <- s :: IsWs(c) || c == 11 as char || c == 12 as char }

  function SanitizeLine(line: string, paginated: bool): LineResult {
    var trimmed := TrimNewline(line);
    if Blank(trimmed) then LineError
    else if CleanEnvelope(trimmed) then Line(line, false, 0, 0)
    else SanitizeLineConservative(line, paginated)
  }

  // ---------------------------------------------------------------- on canonical keys the two decodings coincide

  /** The first member whose raw key is k. */
  function First(ms: Members, k: string): Option<Value> {
    match ms
    case NoMembers => None
    case Member(_, key, _, _, value, _, rest) => if key == k then Some(value) else First(rest, k)
  }

  lemma {:induction false} PlainKeyReads(k: string)
    requires PlainKey(k) && LegalBody(k)
    ensures Unquote(k) == k && Fold(k) == k
  {
    if k != "" {
      assert k == [k[0]] + k[1..];
      assert PlainKey(k[1..]);
      assert UnitLength(k) == 1;
      PlainKeyReads(k[1..]);
    }
  }

  lemma {:induction false} RoutingAbsent(ms: Members, seen: set<string>, k: string)
    requires LegalMembers(ms) && CanonMembers(ms, seen) && k in seen && k in ROUTING_KEYS
    ensures First(ms, k) == None && Get(MapOf(ms), k) == None
  {
    hide Legal, LegalBody, Canon, PlainKey, Unquote, Fold;
    if ms.Member? {
      PlainKeyReads(ms.key);
      RoutingAbsent(ms.rest, if ms.key in ROUTING_KEYS then seen + {ms.key} else seen, k);
      GetSet(MapOf(ms.rest), ms.key, ms.value, k);
    }
  }

  /** With canonical keys a map lookup of a routing key finds its only occurrence. */
  lemma {:induction false} RoutingLookup(ms: Members, seen: set<string>, k: string)
    requires LegalMembers(ms) && CanonMembers(ms, seen) && k in ROUTING_KEYS
    ensures Get(MapOf(ms), k) == First(ms, k)
  {
    hide Legal, LegalBody, Canon, PlainKey, Unquote, Fold;
    if ms.Member? {
      PlainKeyReads(ms.key);
      var now := if ms.key in ROUTING_KEYS then seen + {ms.key} else seen;
      RoutingLookup(ms.rest, now, k);
      GetSet(MapOf(ms.rest), ms.key, ms.value, k);
      if ms.key == k {
        RoutingAbsent(ms.rest, now, k);
      }
    }
  }

  /** What a pointer field holds after its only occurrence, if any. */
  predicate PointerIs(p: Option<string>, v: Option<Value>, prev: Option<string>) {
    match v
    case None => p == prev
    case Some(Str(body)) => p == Some(Unquote(body))
    case Some(Lit(raw)) => raw == "null" && p == None
    case _ => false
  }

  lemma {:induction false} ItemDecodes(ms: Members, seen: set<string>, item: Item)
    requires LegalMembers(ms) && CanonMembers(ms, seen) && DecodeItem(ms, item).ok
    ensures PointerIs(DecodeItem(ms, item).value.typ, First(ms, "type"), item.typ)
    ensures PointerIs(DecodeItem(ms, item).value.id, First(ms, "id"), item.id)
  {
    hide Legal, LegalBody, Canon, PlainKey, Unquote, Fold;
    if ms.Member? {
      PlainKeyReads(ms.key);
      var now := if ms.key in ROUTING_KEYS then seen + {ms.key} else seen;
      ItemDecodes(ms.rest, now, DecodeItemField(item, ms.key, ms.value).value);
      if ms.key in ROUTING_KEYS {
        RoutingAbsent(ms.rest, now, ms.key);
      }
    }
  }

  lemma {:induction false} PayloadDecodes(ms: Members, seen: set<string>, p: Payload)
    requires LegalMembers(ms) && CanonMembers(ms, seen) && DecodePayload(ms, p).ok
    ensures var q := DecodePayload(ms, p).value;
      PointerIs(q.item.typ, First(ms, "type"), p.item.typ) && PointerIs(q.item.id, First(ms, "id"), p.item.id) &&
      (match First(ms, "replacement_history")
       case None => q.items == p.items
       case Some(v) => DecodeList(v, p.items) == Decoded(q.items, true))
  {
    hide Legal, LegalBody, Canon, PlainKey, Unquote, Fold, DecodeList;
    if ms.Member? {
      PlainKeyReads(ms.key);
      var now := if ms.key in ROUTING_KEYS then seen + {ms.key} else seen;
      var item := DecodeItemField(p.item, ms.key, ms.value);
      var items := if ms.key == "replacement_history" then DecodeList(ms.value, p.items) else Decoded(p.items, true);
      PayloadDecodes(ms.rest, now, Payload(item.value, items.value));
      if ms.key in ROUTING_KEYS {
        RoutingAbsent(ms.rest, now, ms.key);
      }
    }
  }

  lemma {:induction false} EnvelopeDecodes(ms: Members, seen: set<string>, e: Envelope)
    requires LegalMembers(ms) && CanonMembers(ms, seen) && DecodeMembers(ms, e).ok
    ensures var f := DecodeMembers(ms, e).value;
      (match First(ms, "type")
       case None => f.typ == e.typ
       case Some(v) => DecodeString(v, e.typ) == Decoded(f.typ, true)) &&
      (match First(ms, "payload")
       case None => f.payload == e.payload
       case Some(v) => DecodePayloadField(v, e.payload) == Decoded(f.payload, true))
  {
    hide Legal, LegalBody, Canon, PlainKey, Unquote, Fold, DecodeString, DecodePayloadField;
    if ms.Member? {
      PlainKeyReads(ms.key);
      var now := if ms.key in ROUTING_KEYS then seen + {ms.key} else seen;
      var typ := if ms.key == "type" then DecodeString(ms.value, e.typ) else Decoded(e.typ, true);
      var payload := if ms.key == "payload" then DecodePayloadField(ms.value, e.payload) else Decoded(e.payload, true);
      EnvelopeDecodes(ms.rest, now, Envelope(typ.value, payload.value));
      if ms.key in ROUTING_KEYS {
        RoutingAbsent(ms.rest, now, ms.key);
      }
    }
  }

  /** An item the struct decoder calls clean is one the rewriter keeps. */
  lemma CleanItemKept(gap: string, ms: Members, typ: Option<string>, id: Option<string>)
    requires LegalMembers(ms) && CanonMembers(ms, {})
    requires PointerIs(typ, First(ms, "type"), None) && PointerIs(id, First(ms, "id"), None)
    requires CleanItem(Item(typ, id))
    ensures SanitizeItem(Some(Obj(gap, ms))) == KeepItem
  {
    hide LegalMembers, CanonMembers, MapOf, First, Unquote, StaleId, Get;
    RoutingLookup(ms, {}, "type");
    RoutingLookup(ms, {}, "id");
    EmptyNotStale();
    var m := MapOf(ms);
    assert StringOf(Get(m, "type")).Some?;
    assert StringOf(Get(m, "id")) == Some(if id.Some? then id.value else "");
  }

  lemma EmptyNotStale()
    ensures !StaleId("")
  {
  }

  lemma {:induction false} CleanItemsKept(es: Elems)
    requires LegalElems(es) && CanonElems(es) && DecodeItems(es, []).ok
    requires forall i <- DecodeItems(es, []).value :: CleanItem(i)
    ensures CleanItems(es).Some? && CleanItems(es).value.removed == 0 == CleanItems(es).value.stripped
  {
    if es.Elem? {
      var first := DecodeElement(es.value, NO_ITEM);
      var d := DecodeItems(es.rest, []);
      assert ([first.value] + d.value)[0] == first.value;
      assert forall i <- d.value :: i in [first.value] + d.value;
      CleanItemsKept(es.rest);
      hide LegalMembers, CanonMembers, LegalBody, IsNumber, DecodeItem, SanitizeItem, CleanItem, DecodeItems;
      match es.value
      case Obj(gap, members) =>
        ItemDecodes(members, {}, NO_ITEM);
        CleanItemKept(gap, members, first.value.typ, first.value.id);
      case Lit(raw) =>
        assert !CleanItem(NO_ITEM) by { NilIsDirty(); }
      case _ =>
    }
  }

  lemma NilIsDirty()
    ensures !CleanItem(NO_ITEM)
  {
  }

  /** Whenever the fast path accepts an envelope, the rewriter leaves it as it is. */
  lemma CleanObjectSame(ms: Members, paginated: bool)
    requires LegalMembers(ms) && CanonMembers(ms, {})
    requires DecodeMembers(ms, Envelope("", None)).ok && CleanDecoded(DecodeMembers(ms, Envelope("", None)).value)
    ensures SanitizeEnvelope(MapOf(ms), paginated) == Same
  {
    hide LegalMembers, CanonMembers, MapOf, First, Unquote, SanitizeCompacted, SanitizeItem, DecodeMembers, Canon, Legal, DecodePayloadField, Get;
    var e := DecodeMembers(ms, Envelope("", None)).value;
    EnvelopeDecodes(ms, {}, Envelope("", None));
    RoutingLookup(ms, {}, "type");
    RoutingLookup(ms, {}, "payload");
    var payload := First(ms, "payload");
    if payload.Some? { FirstCanon(ms, {}, "payload"); }
    if e.typ == "response_item" || e.typ == "compacted" {
      if payload.Some? {
        CleanPayloadSame(payload.value, e);
      }
    }
  }

  lemma {:induction false} FirstCanon(ms: Members, seen: set<string>, k: string)
    requires LegalMembers(ms) && CanonMembers(ms, seen) && First(ms, k).Some?
    ensures Legal(First(ms, k).value) && Canon(First(ms, k).value)
  {
    hide Legal, Canon, LegalBody, PlainKey;
    if ms.key != k {
      FirstCanon(ms.rest, if ms.key in ROUTING_KEYS then seen + {ms.key} else seen, k);
    }
  }

  lemma CleanPayloadSame(v: Value, e: Envelope)
    requires Legal(v) && Canon(v) && DecodePayloadField(v, None) == Decoded(e.payload, true)
    requires e.typ == "response_item" || e.typ == "compacted"
    requires CleanDecoded(e)
    ensures e.typ == "response_item" ==> SanitizeItem(Some(v)) == KeepItem
    ensures e.typ == "compacted" ==> SanitizeCompacted(Some(v)) == Same
  {
    var p := e.payload.value;
    assert v.Obj?;
    var ms := v.members;
    PayloadDecodes(ms, {}, Payload(NO_ITEM, []));
    if e.typ == "response_item" {
      CleanItemKept(v.gap, ms, p.item.typ, p.item.id);
    } else {
      RoutingLookup(ms, {}, "replacement_history");
      var list := First(ms, "replacement_history");
      if list.Some? && list.value.Arr? {
        FirstCanon(ms, {}, "replacement_history");
        hide LegalMembers, CanonMembers, MapOf, First, DecodePayload, CleanItem, LegalElems, CanonElems, DecodeItems, CleanItems;
        CleanItemsKept(list.value.elems);
      }
    }
  }

  /** Blank lines are errors on the slow path too. */
  lemma BlankIsBad(s: string)
    requires Blank(s)
    ensures Parse(s).Bad?
  {
    hide Ws, ParseValue;
    var before := Ws(s);
    var r := s[|before|..];
    if r == "" {
      NothingIsBad();
    } else {
      assert r[0] in s;
      ControlIsBad(r);
    }
  }

  lemma NothingIsBad()
    ensures ParseValue("").Bad?
  {
  }

  lemma ControlIsBad(r: string)
    requires r != "" && (r[0] == 11 as char || r[0] == 12 as char)
    ensures ParseValue(r).Bad?
  {
    hide ParseBody, ParseElems, ParseMembers, NumberRun, Ws, IsNumber;
  }

  /** The fast path refines the slow path: for every line and either mode, the same
      bytes, the same flags, the same counts and the same error. */
  lemma FastRefinesSlow(line: string, paginated: bool)
    ensures SanitizeLine(line, paginated) == SanitizeLineConservative(line, paginated)
  {
    var trimmed := TrimNewline(line);
    hide Parse, Scan, MapOf, DecodeMembers, SanitizeEnvelope, Legal, Canon, CleanDecoded;
    if Blank(trimmed) {
      BlankIsBad(trimmed);
    } else if CleanEnvelope(trimmed) {
      var doc := Parse(trimmed).value;
      ParseSound(trimmed);
      ScannerExact(doc);
      CanonIsCanonical(doc.value);
      assert Canon(doc.value);
      match doc.value {
        case Obj(_, members) =>
          assert LegalMembers(members) && CanonMembers(members, {}) by { ObjectParts(doc.value); }
          CleanObjectSame(members, paginated);
        case Lit(raw) =>
          NullIsSame(paginated);
        case _ =>
      }
    }
  }

  lemma ObjectParts(v: Value)
    requires v.Obj? && Legal(v) && Canon(v)
    ensures LegalMembers(v.members) && CanonMembers(v.members, {})
  {
  }

  lemma NullIsSame(paginated: bool)
    ensures SanitizeEnvelope(Nil, paginated) == Same
  {
  }
}
