/** Two records that the context patch (internal/rollout/context.go) hits in the wrong place:
    the first text of the key is a value, and what is replaced is the value of the next key.
    The counters then count an item the input did not have, and an ordinal is lost. */
module PatchMisses {
  import opened Wrappers
  import opened JsonText
  import opened GoJson
  import opened Sanitize
  import opened SanitizedRecord
  import opened ContextPatch
  import opened ContextEffect
  import opened ScanJsonl
  import opened RolloutProofs
  import opened SecondRewrite

  // ---------------------------------------------------------------- finding a key in a concrete text

  lemma {:induction false} FindFrom(line: string, needle: string, from: nat, at: nat)
    requires from <= at && OccursAt(line, needle, at)
    requires forall i :: from <= i < at ==> !OccursAt(line, needle, i)
    ensures Find(line, needle, from) == Some(at)
    decreases at - from
  {
    if from < at { FindFrom(line, needle, from + 1, at); }
  }

  lemma {:induction false} Found(line: string, needle: string, from: nat, at: nat)
    requires from <= at && OccursAt(line, needle, at)
    ensures Find(line, needle, from).Some?
    decreases at - from
  {
    if from < at && !OccursAt(line, needle, from) { Found(line, needle, from + 1, at); }
  }

  lemma {:induction false} NotFound(line: string, needle: string, from: nat, k: nat)
    requires from <= |line| && k < |needle| && needle[k] !in line
    ensures Find(line, needle, from).None?
    decreases |line| - from
  {
    if from + |needle| <= |line| {
      assert line[from..from + |needle|][k] == line[from + k];
    }
    if from < |line| { NotFound(line, needle, from + 1, k); }
  }

  lemma NotHere(line: string, needle: string, i: nat, k: nat)
    requires k < |needle| && i + k < |line| && line[i + k] != needle[k]
    ensures !OccursAt(line, needle, i)
  {
    if i + |needle| <= |line| { assert line[i..i + |needle|][k] == line[i + k]; }
  }

  /** The first text of a key comes after a front without the key's first byte. */
  lemma FirstKey(front: string, key: string, tail: string)
    requires key != "" && key[0] !in front && front != "" && front[|front| - 1] != '\"'
    ensures Find(front + (['\"'] + (key + (['\"'] + tail))), Quoted(key), 0) == Some(|front|)
  {
    hide Find;
    var line := front + (['\"'] + (key + (['\"'] + tail)));
    NeedleText(front, key, tail);
    assert line[|front|..|front| + |Quoted(key)|] == Quoted(key);
    forall i | 0 <= i < |front|
      ensures !OccursAt(line, Quoted(key), i)
    {
      NotHere(line, Quoted(key), i, if i + 1 < |front| then 1 else 0);
    }
    FindFrom(line, Quoted(key), 0, |front|);
  }

  lemma GetMember(m: Members, name: string, k: string)
    requires m.Member? && Unquote(m.key) == name
    ensures Get(MapOf(m), k) ==
      if k == name && Get(MapOf(m.rest), k).None? then Some(m.value) else Get(MapOf(m.rest), k)
  {
    hide Unquote;
    GetSet(MapOf(m.rest), name, m.value, k);
  }

  function One(key: string, value: Value, rest: Members): Members { Member("", key, "", "", value, "", rest) }

  function LineOf(members: Members): string { DocText(Doc("", Obj("", members), "")) }

  lemma OneText(key: string, value: Value, more: Members, rest: string)
    ensures PutMembers(One(key, value, more), rest) ==
      ['\"'] + (key + (['\"'] + ([':'] + Put(value, if more.NoMembers? then ['}'] + rest else [','] + PutMembers(more, rest)))))
  {
    hide Put;
    var tail := if more.NoMembers? then ['}'] + rest else [','] + PutMembers(more, rest);
    var v := Put(value, tail);
    EmptyFront(tail);
    EmptyFront(v);
    EmptyFront([':'] + v);
    EmptyFront(['\"'] + (key + (['\"'] + ([':'] + v))));
    OneMember(One(key, value, more), rest);
  }

  lemma EmptyFront(s: string)
    ensures "" + s == s
  {
  }

  lemma StringText(key: string, body: string, more: Members, rest: string)
    requires more.Member?
    ensures PutMembers(One(key, Str(body), more), rest) ==
      ['\"'] + (key + (['\"'] + ([':'] + (['\"'] + (body + (['\"'] + ([','] + PutMembers(more, rest))))))))
  {
    OneText(key, Str(body), more, rest);
    hide PutMembers, One;
  }

  lemma LineText(members: Members)
    requires members.Member?
    ensures LineOf(members) == ['{'] + PutMembers(members, "")
  {
    hide PutMembers;
    assert "" + Put(Obj("", members), "") == Put(Obj("", members), "");
  }

  lemma LastText(key: string, value: Value, rest: string)
    ensures PutMembers(One(key, value, NoMembers), rest) == ['\"'] + (key + (['\"'] + ([':'] + Put(value, ['}'] + rest))))
  {
    OneText(key, value, NoMembers, rest);
    hide PutMembers, Put;
  }

  /** A byte that is in no part of a text is not in the text. */
  predicate Outside(c: char) { c !in "{}\":," }

  lemma StringOutside(key: string, body: string, more: Members, rest: string, c: char)
    requires Outside(c) && c !in key && c !in body && more.Member? && c !in PutMembers(more, rest)
    ensures c !in PutMembers(One(key, Str(body), more), rest)
  {
    StringText(key, body, more, rest);
    hide PutMembers, One;
  }

  lemma LegalOne(key: string, value: Value, more: Members)
    requires Plain(key) && Legal(value) && LegalMembers(more)
    ensures LegalMembers(One(key, value, more)) && Unquote(key) == key
  {
    PlainReads(key);
    hide Legal, LegalBody, Unquote;
  }

  lemma LegalPlain(body: string)
    requires Plain(body)
    ensures Legal(Str(body)) && Unquote(body) == body
  {
    PlainReads(body);
    hide LegalBody, Unquote;
  }

  // ---------------------------------------------------------------- an item out of nowhere

  function Message(): Members {
    One("type", Str("message"), One("id", Str("item_1"), One("model", Str("foreign"), NoMembers)))
  }

  /** {"x":"model","type":kind,"payload":{"type":"message","id":"item_1","model":"foreign"}} */
  function Misread(kind: string): Members {
    One("x", Str("model"), One("type", Str(kind), One("payload", Obj("", Message()), NoMembers)))
  }

  function Tail(): string { [','] + PutMembers(One("payload", Obj("", Message()), NoMembers), "") }

  lemma MisreadText(kind: string)
    ensures LineOf(Misread(kind)) ==
      "{\"x\":" + (['\"'] + ("model" + (['\"'] + (",\"type\"" + ([':'] + ("" + (['\"'] + (kind + (['\"'] + Tail())))))))))
  {
    var payload := One("payload", Obj("", Message()), NoMembers);
    var typ := One("type", Str(kind), payload);
    StringText("type", kind, payload, "");
    StringText("x", "model", typ, "");
    LineText(Misread(kind));
    hide LineOf, PutMembers, Message;
    Spread(kind, PutMembers(typ, ""), Tail());
  }

  lemma Spread(kind: string, typ: string, tail: string)
    requires typ == ['\"'] + ("type" + (['\"'] + ([':'] + (['\"'] + (kind + (['\"'] + tail))))))
    ensures ['{'] + (['\"'] + ("x" + (['\"'] + ([':'] + (['\"'] + ("model" + (['\"'] + ([','] + typ)))))))) ==
      "{\"x\":" + (['\"'] + ("model" + (['\"'] + (",\"type\"" + ([':'] + ("" + (['\"'] + (kind + (['\"'] + tail)))))))))
  {
    var end := ['\"'] + (kind + (['\"'] + tail));
    assert [','] + typ == ",\"type\"" + ([':'] + end);
    var more := ['\"'] + ("model" + (['\"'] + ([','] + typ)));
    assert ['{'] + (['\"'] + ("x" + (['\"'] + ([':'] + more)))) == "{\"x\":" + more;
    assert "" + end == end;
  }

  lemma MessageLegal()
    ensures LegalMembers(Message())
    ensures var m := MapOf(Message());
      StringOf(Get(m, "type")) == Some("message") && StringOf(Get(m, "id")) == Some("item_1") && StringOf(Get(m, "model")) == Some("foreign")
  {
    hide Unquote, LegalMembers, Legal, MapOf, LegalBody;
    var model := One("model", Str("foreign"), NoMembers);
    var id := One("id", Str("item_1"), model);
    EmptyLegal();
    LegalPlain("foreign");
    LegalOne("model", Str("foreign"), NoMembers);
    LegalPlain("item_1");
    LegalOne("id", Str("item_1"), model);
    LegalPlain("message");
    LegalOne("type", Str("message"), id);
    EmptyMap();
    forall k: string
      ensures Get(MapOf(Message()), k) ==
        if k == "type" then Some(Str("message")) else if k == "id" then Some(Str("item_1"))
        else if k == "model" then Some(Str("foreign")) else None
    {
      GetMember(Message(), "type", k);
      GetMember(id, "id", k);
      GetMember(model, "model", k);
    }
  }

  lemma EmptyMap()
    ensures MapOf(NoMembers) == Nil
  {
  }

  lemma MisreadLegal(kind: string)
    requires Plain(kind)
    ensures Misread(kind).Member? && LegalMembers(Misread(kind))
    ensures var e := MapOf(Misread(kind));
      StringOf(Get(e, "type")) == Some(kind) && Get(e, "payload") == Some(Obj("", Message())) && Get(e, "ordinal").None?
  {
    hide Unquote, LegalMembers, MapOf, LegalBody, Message;
    MessageLegal();
    var payload := One("payload", Obj("", Message()), NoMembers);
    var typ := One("type", Str(kind), payload);
    EmptyLegal();
    LegalOne("payload", Obj("", Message()), NoMembers);
    LegalPlain(kind);
    LegalOne("type", Str(kind), payload);
    LegalPlain("model");
    LegalOne("x", Str("model"), typ);
    EmptyMap();
    forall k: string
      ensures Get(MapOf(Misread(kind)), k) ==
        if k == "x" then Some(Str("model")) else if k == "type" then Some(Str(kind))
        else if k == "payload" then Some(Obj("", Message())) else None
    {
      GetMember(Misread(kind), "x", k);
      GetMember(typ, "type", k);
      GetMember(payload, "payload", k);
    }
  }

  /** Neither a newline nor an h is in the line, unless it is in the type. */
  lemma MisreadOutside(kind: string, c: char)
    requires (c == 'h' || c == '\n') && c !in kind
    ensures c !in LineOf(Misread(kind))
  {
    var payload := One("payload", Obj("", Message()), NoMembers);
    LineText(Misread(kind));
    hide LineOf, PutMembers, Message;
    MessageOutside(c);
    StringOutside("type", kind, payload, "", c);
    StringOutside("x", "model", One("type", Str(kind), payload), "", c);
  }

  lemma MessageOutside(c: char)
    requires c == 'h' || c == '\n'
    ensures c !in PutMembers(One("payload", Obj("", Message()), NoMembers), "")
  {
    var model := One("model", Str("foreign"), NoMembers);
    var id := One("id", Str("item_1"), model);
    hide PutMembers;
    assert c !in ['}'] + "";
    LastOutside("model", "foreign", ['}'] + "", c);
    StringOutside("id", "item_1", model, ['}'] + "", c);
    StringOutside("type", "message", id, ['}'] + "", c);
    ObjectOutside("payload", Message(), "", c);
  }

  lemma LastOutside(key: string, body: string, rest: string, c: char)
    requires Outside(c) && c !in key && c !in body && c !in rest
    ensures c !in PutMembers(One(key, Str(body), NoMembers), rest)
  {
    LastText(key, Str(body), rest);
    hide PutMembers, One;
  }

  lemma ObjectOutside(key: string, members: Members, rest: string, c: char)
    requires Outside(c) && c !in key && members.Member? && c !in PutMembers(members, ['}'] + rest)
    ensures c !in PutMembers(One(key, Obj("", members), NoMembers), rest)
  {
    LastText(key, Obj("", members), rest);
    ObjectText(members, ['}'] + rest);
    hide PutMembers, One, Put;
  }

  /** A line that reads back as its tree. */
  lemma LineReads(members: Members)
    requires members.Member? && LegalMembers(members) && '\n' !in LineOf(members)
    ensures Parse(LineOf(members)) == Got(Doc("", Obj("", members), ""), "")
    ensures TrimNewline(LineOf(members)) == LineOf(members) && EnvelopeOf(LineOf(members)) == Some(MapOf(members))
    ensures LineOf(members) != "" && OneLine(LineOf(members))
  {
    EmptyLegal();
    hide Parse, LegalMembers, MapOf;
    var doc := Doc("", Obj("", members), "");
    DocParses(doc);
    LineText(members);
    hide DocText, LineOf;
    assert TrimNewline(LineOf(members)) == LineOf(members);
  }

  const MISREAD_POLICY := Policy("response_item", [], false)

  /** The patch takes the text of a value for the key and renames the record. */
  lemma MisreadPatched()
    ensures PatchText(LineOf(Misread("turn_context")), "response_item") == Some(LineOf(Misread("response_item")))
  {
    hide *;
    MisreadModel();
    MisreadOutside("response_item", 'h');
    NotFound(LineOf(Misread("response_item")), Quoted("comp_hash"), 0, 6) by { QuotedHash(); }
    NoHashText(LineOf(Misread("response_item")));
    TextPatched(LineOf(Misread("turn_context")), "response_item", LineOf(Misread("response_item")));
  }

  lemma QuotedHash()
    ensures |Quoted("comp_hash")| == 11 && Quoted("comp_hash")[6] == 'h'
  {
  }

  lemma TextPatched(line: string, model: string, text: string)
    requires ReplaceStringField(line, "model", model) == Some(text) && ReplaceRawField(text, "comp_hash", "null").None?
    ensures PatchText(line, model) == Some(text)
  {
    hide ReplaceStringField, ReplaceRawField;
  }

  lemma MisreadModel()
    ensures ReplaceStringField(LineOf(Misread("turn_context")), "model", "response_item") == Some(LineOf(Misread("response_item")))
  {
    hide LineOf, Misread, Tail, Find, ReplaceStringField, ValueStart, StringEnd, MarshalString, FindByte, SkipBlanks;
    var line := LineOf(Misread("turn_context"));
    var rest := ['\"'] + ("turn_context" + (['\"'] + Tail()));
    MisreadText("turn_context");
    MisreadText("response_item");
    MisreadStart(rest);
    MarshalPlain("response_item");
    MisreadFront(line, rest, "response_item");
    StringSplice(line, "model", 20, "turn_context", Tail(), "response_item");
  }

  lemma MisreadStart(rest: string)
    requires rest != "" && rest[0] == '\"'
    ensures var line := "{\"x\":" + (['\"'] + ("model" + (['\"'] + (",\"type\"" + ([':'] + ("" + rest))))));
      |line| >= 20 && ValueStart(line, "model") == Some(20) && line[20..] == rest
  {
    hide Find, ValueStart;
    FirstKey("{\"x\":", "model", ",\"type\"" + ([':'] + ("" + rest)));
    ValueStartsAt("{\"x\":", "model", ",\"type\"", "", rest);
  }

  lemma MisreadFront(line: string, rest: string, kind: string)
    requires line == "{\"x\":" + (['\"'] + ("model" + (['\"'] + (",\"type\"" + ([':'] + ("" + rest))))))
    ensures |line| >= 20
    ensures line[..20] + (['\"'] + (kind + ['\"']) + Tail()) ==
      "{\"x\":" + (['\"'] + ("model" + (['\"'] + (",\"type\"" + ([':'] + ("" + (['\"'] + (kind + (['\"'] + Tail())))))))))
  {
    hide Tail;
    var front := "{\"x\":\"model\",\"type\":";
    assert |front| == 20 && line == front + rest;
    assert line[..20] == front;
    var end := ['\"'] + (kind + (['\"'] + Tail()));
    assert ['\"'] + (kind + ['\"']) + Tail() == end;
  }

  /** A context that names a foreign model is patched. */
  lemma ContextIsPatched(line: string, members: Members, payload: Members, policy: Policy, text: string)
    requires Parse(line) == Got(Doc("", Obj("", members), ""), "") && policy.model != "" && policy.compatible == []
    requires StringOf(Get(MapOf(members), "type")) == Some("turn_context") && Get(MapOf(members), "payload") == Some(Obj("", payload))
    requires var model := StringOf(Get(MapOf(payload), "model")); model.Some? && model.value != "" && model.value != policy.model
    requires Find(line, "turn_context", 0).Some? && PatchText(line, policy.model) == Some(text)
    ensures CleanContext(line, policy) == Patched(text)
  {
    hide Parse, Find, MapOf, PatchText, StringOf, Get;
  }

  lemma MisreadContext()
    ensures CleanContext(LineOf(Misread("turn_context")), MISREAD_POLICY) == Patched(LineOf(Misread("response_item")))
  {
    hide Misread, MapOf, Parse, Find, PatchText, Message, CleanContext, LineOf, StringOf, Get, TrimNewline, EnvelopeOf, LegalMembers, OneLine;
    MisreadPatched();
    MisreadLegal("turn_context");
    MessageLegal();
    MisreadOutside("turn_context", '\n');
    LineReads(Misread("turn_context"));
    MisreadMentions();
    ContextIsPatched(LineOf(Misread("turn_context")), Misread("turn_context"), Message(), MISREAD_POLICY, LineOf(Misread("response_item")));
  }

  lemma MisreadMentions()
    ensures Find(LineOf(Misread("turn_context")), "turn_context", 0).Some?
  {
    MisreadText("turn_context");
    hide Find, Tail, Misread, LineOf;
    var line := LineOf(Misread("turn_context"));
    var rest := ['\"'] + ("turn_context" + (['\"'] + Tail()));
    var front := "{\"x\":\"model\",\"type\":";
    assert |front| == 20 && line == front + rest;
    assert line[21..33] == rest[1..13] == "turn_context";
    Found(line, "turn_context", 0, 21);
  }

  /** The renamed record is accepted and its item is stale. */
  lemma MisreadItem(mode: bool)
    ensures SanitizeLine(LineOf(Misread("response_item")), mode).Line?
    ensures StaleCount(ItemsOf(LineOf(Misread("response_item")))) == 1
  {
    hide Misread, MapOf, Parse, Message, Unquote, SanitizeLine, LineOf, Delete, ObjectOf, Put;
    var text := LineOf(Misread("response_item"));
    MisreadLegal("response_item");
    MessageLegal();
    MisreadOutside("response_item", '\n');
    LineReads(Misread("response_item"));
    FastRefinesSlow(text, mode);
    OneItem(MapOf(Message()));
  }

  lemma ReadsOne(record: bool, key: string, value: Value, more: Members)
    requires Plain(key) && FieldReads(record, key, value) && Reads(record, more)
    ensures Reads(record, One(key, value, more))
  {
    hide Reads, FieldReads, Fold, Unquote;
    PlainReads(key);
    LowerFolds(key);
    ReadsMember(record, One(key, value, more));
  }

  lemma MisreadHeader(kind: string)
    requires Plain(kind)
    ensures Reads(true, Misread(kind))
  {
    hide Reads;
    ReadsNothing();
    var model := One("model", Str("foreign"), NoMembers);
    var id := One("id", Str("item_1"), model);
    ReadsOne(false, "model", Str("foreign"), NoMembers);
    ReadsOne(false, "id", Str("item_1"), model);
    ReadsOne(false, "type", Str("message"), id);
    var payload := One("payload", Obj("", Message()), NoMembers);
    ReadsOne(true, "payload", Obj("", Message()), NoMembers);
    ReadsOne(true, "type", Str(kind), payload);
    ReadsOne(true, "x", Str("model"), One("type", Str(kind), payload));
  }

  predicate FitsRecord(line: string, mode: bool, policy: Policy) {
    var r := CleanRecord(line, mode, policy);
    r.Record? && (r.changed ==> |r.bytes| <= |line|)
  }

  /** A one-line text that the scan accepts. */
  lemma OneRecord(line: string, policy: Policy)
    requires line != "" && OneLine(line) && HeaderMode(line).Some?
    requires forall mode :: FitsRecord(line, mode, policy)
    ensures Rewrite(line, "", policy).Scanned?
    ensures AllItems(line) == ItemsOf(line) && AllPatchItems(line, policy) == PatchItems(line, policy)
  {
    hide FirstLine, AfterLine, OneLine, HeaderMode, CleanRecord, ItemsOf, PatchItems, SessionMeta;
    assert line + "" == line;
    FirstLineOf(line, "");
    EmptyScan(HeaderMode(line).value, policy, false);
    assert FitsRecord(line, HeaderMode(line).value, policy);
    hide ScanLines;
    EmptyItems(policy);
    hide AllItems, AllPatchItems, Lines;
    RecordFirst(line, "");
    PolicyFirst(line, "", policy);
    assert ItemsOf(line) + [] == ItemsOf(line) && PatchItems(line, policy) + [] == PatchItems(line, policy);
  }

  lemma EmptyItems(policy: Policy)
    ensures AllItems("") == [] && AllPatchItems("", policy) == []
  {
  }

  /** Under the policy for the model "response_item" the rewrite of a record without any item
      succeeds and counts one stripped or removed. */
  lemma CountersCountMore()
    ensures var line := LineOf(Misread("turn_context"));
      var o := Rewrite(line, "", MISREAD_POLICY);
      o.Scanned? && o.result.removed + o.result.stripped == 1 && StaleCount(AllItems(line)) == 0
  {
    hide Misread, LineOf, MapOf, Parse, CleanContext, SanitizeLine, HeaderMode, ScanFrom, ItemsOf, AllItems, AllPatchItems, OneLine, Lines, Reads, LegalMembers, Reworked,
      StaleCount, RemovedCount, EnvelopeOf, TrimNewline, Patches, DecodeMeta;
    var line := LineOf(Misread("turn_context"));
    MisreadContext();
    MisreadLegal("turn_context");
    MisreadOutside("turn_context", '\n');
    LineReads(Misread("turn_context"));
    MisreadHeader("turn_context");
    HeaderValue(line);
    forall mode
      ensures FitsRecord(line, mode, MISREAD_POLICY)
    {
      MisreadItem(mode);
    }
    MisreadItem(false);
    OneRecord(line, MISREAD_POLICY);
    PatchedHasNoItems(line, MISREAD_POLICY);
    NothingCounts();
    RewriteIsClean(line, "", MISREAD_POLICY);
  }

  // ---------------------------------------------------------------- an ordinal lost

  function Later(ordinal: string): Members { One("k", Str("comp_hash"), One("ordinal", Lit(ordinal), One("type", Str("turn_context"), NoMembers))) }

  /** {"payload":{"model":model},"k":"comp_hash","ordinal":ordinal,"type":"turn_context"} */
  function Numbered(model: string, ordinal: string): Members {
    One("payload", Obj("", One("model", Str(model), NoMembers)), Later(ordinal))
  }

  function Middle(ordinal: string): string { ['}'] + ([','] + PutMembers(Later(ordinal), "")) }

  function End(): string { [','] + PutMembers(One("type", Str("turn_context"), NoMembers), "") }

  lemma NumberedText(model: string, ordinal: string)
    ensures LineOf(Numbered(model, ordinal)) ==
      "{\"payload\":{" + (['\"'] + ("model" + (['\"'] + ("" + ([':'] + ("" + (['\"'] + (model + (['\"'] + Middle(ordinal))))))))))
  {
    var inner := One("model", Str(model), NoMembers);
    var rest := [','] + PutMembers(Later(ordinal), "");
    LineText(Numbered(model, ordinal));
    OneText("payload", Obj("", inner), Later(ordinal), "");
    ObjectText(inner, rest);
    LastText("model", Str(model), rest);
    assert Put(Str(model), ['}'] + rest) == ['\"'] + (model + (['\"'] + (['}'] + rest)));
    hide LineOf, PutMembers, Later, Put, One;
    PayloadSpread(model, Middle(ordinal));
  }

  lemma PayloadSpread(model: string, middle: string)
    ensures ['{'] + (['\"'] + ("payload" + (['\"'] + ([':'] + (['{'] + (['\"'] + ("model" + (['\"'] + ([':'] +
        (['\"'] + (model + (['\"'] + middle)))))))))))) ==
      "{\"payload\":{" + (['\"'] + ("model" + (['\"'] + ("" + ([':'] + ("" + (['\"'] + (model + (['\"'] + middle)))))))))
  {
    var end := ['\"'] + (model + (['\"'] + middle));
    assert "" + end == end && "" + ([':'] + end) == [':'] + end;
    var more := ['\"'] + ("model" + (['\"'] + ([':'] + end)));
    assert ['{'] + (['\"'] + ("payload" + (['\"'] + ([':'] + (['{'] + more))))) == "{\"payload\":{" + more;
  }

  lemma MiddleText(ordinal: string)
    ensures Middle(ordinal) == "},\"k\":" + (['\"'] + ("comp_hash" + (['\"'] + (",\"ordinal\"" + ([':'] + ("" + (ordinal + End())))))))
  {
    var typ := One("type", Str("turn_context"), NoMembers);
    var number := One("ordinal", Lit(ordinal), typ);
    StringText("k", "comp_hash", number, "");
    OneText("ordinal", Lit(ordinal), typ, "");
    assert Put(Lit(ordinal), End()) == ordinal + End();
    hide PutMembers, End, Put;
    var end := ordinal + End();
    assert "" + end == end;
    assert [','] + PutMembers(number, "") == ",\"ordinal\"" + ([':'] + end);
    var more := ['\"'] + ("comp_hash" + (['\"'] + (",\"ordinal\"" + ([':'] + end))));
    assert ['}'] + ([','] + (['\"'] + ("k" + (['\"'] + ([':'] + more))))) == "},\"k\":" + more;
  }

  lemma NumberedModel()
    ensures ReplaceStringField(LineOf(Numbered("foreign", "7")), "model", "new") == Some(LineOf(Numbered("new", "7")))
  {
    hide LineOf, Numbered, Middle, Find, ReplaceStringField, ValueStart, StringEnd, MarshalString;
    NumberedText("foreign", "7");
    NumberedText("new", "7");
    var line := LineOf(Numbered("foreign", "7"));
    var rest := ['\"'] + ("foreign" + (['\"'] + Middle("7")));
    NumberedStart(rest);
    MarshalPlain("new");
    NumberedFront(line, rest, Middle("7"));
    StringSplice(line, "model", 20, "foreign", Middle("7"), "new");
  }

  lemma NumberedStart(rest: string)
    requires rest != "" && rest[0] == '\"'
    ensures var line := "{\"payload\":{" + (['\"'] + ("model" + (['\"'] + ("" + ([':'] + ("" + rest))))));
      |line| >= 20 && ValueStart(line, "model") == Some(20) && line[20..] == rest
  {
    hide Find, ValueStart;
    FirstKey("{\"payload\":{", "model", "" + ([':'] + ("" + rest)));
    ValueStartsAt("{\"payload\":{", "model", "", "", rest);
  }

  lemma NumberedFront(line: string, rest: string, middle: string)
    requires line == "{\"payload\":{" + (['\"'] + ("model" + (['\"'] + ("" + ([':'] + ("" + rest))))))
    ensures |line| >= 20
    ensures line[..20] + (['\"'] + ("new" + ['\"']) + middle) ==
      "{\"payload\":{" + (['\"'] + ("model" + (['\"'] + ("" + ([':'] + ("" + (['\"'] + ("new" + (['\"'] + middle)))))))))
  {
    var front := "{\"payload\":{\"model\":";
    assert |front| == 20 && line == front + rest;
    assert line[..20] == front;
    var end := ['\"'] + ("new" + (['\"'] + middle));
    assert ['\"'] + ("new" + ['\"']) + middle == end;
  }

  lemma NumberedSplit(ordinal: string)
    ensures LineOf(Numbered("new", ordinal)) ==
      "{\"payload\":{\"model\":\"new\"},\"k\":" + (['\"'] + ("comp_hash" + (['\"'] + (",\"ordinal\"" + ([':'] + ("" + (ordinal + End())))))))
  {
    NumberedText("new", ordinal);
    MiddleText(ordinal);
    hide LineOf, Numbered, Middle, End;
    var more := ['\"'] + ("comp_hash" + (['\"'] + (",\"ordinal\"" + ([':'] + ("" + (ordinal + End()))))));
    assert ['\"'] + ("new" + (['\"'] + ("},\"k\":" + more))) == "\"new\"},\"k\":" + more;
    assert "{\"payload\":{" + (['\"'] + ("model" + (['\"'] + ([':'] + ("\"new\"},\"k\":" + more))))) == "{\"payload\":{\"model\":\"new\"},\"k\":" + more;
    EmptyFront(ordinal + End());
    EmptyFront([':'] + (['\"'] + ("new" + (['\"'] + ("},\"k\":" + more)))));
  }

  lemma NumberedHash()
    ensures ReplaceRawField(LineOf(Numbered("new", "7")), "comp_hash", "null") == Some(LineOf(Numbered("new", "null")))
  {
    hide LineOf, Numbered, End, Find, ReplaceRawField, ValueStart, BareEnd, FromNewline;
    NumberedSplit("7");
    NumberedSplit("null");
    var line := LineOf(Numbered("new", "7"));
    HashStart("7" + End()) by { assert ("7" + End())[0] == '7'; }
    assert End()[0] == ',' && End() != "" by { EndStarts(); }
    assert "" + End() == End() && FromNewline("") == "" by { NoNewlineLeft(); }
    BareSplice(line, "comp_hash", 53, "7", "", End());
    HashFront(line, "7" + End(), "null" + End());
  }

  lemma EndStarts()
    ensures End() != "" && End()[0] == ','
  {
    hide PutMembers;
  }

  lemma NoNewlineLeft()
    ensures FromNewline("") == ""
  {
  }

  lemma HashStart(rest: string)
    requires rest != "" && rest[0] == '7'
    ensures var line := "{\"payload\":{\"model\":\"new\"},\"k\":" + (['\"'] + ("comp_hash" + (['\"'] + (",\"ordinal\"" + ([':'] + ("" + rest))))));
      |line| >= 53 && ValueStart(line, "comp_hash") == Some(53) && line[53..] == rest
  {
    hide Find, ValueStart;
    FirstKey("{\"payload\":{\"model\":\"new\"},\"k\":", "comp_hash", ",\"ordinal\"" + ([':'] + ("" + rest)));
    ValueStartsAt("{\"payload\":{\"model\":\"new\"},\"k\":", "comp_hash", ",\"ordinal\"", "", rest);
  }

  lemma HashFront(line: string, rest: string, end: string)
    requires line == "{\"payload\":{\"model\":\"new\"},\"k\":" + (['\"'] + ("comp_hash" + (['\"'] + (",\"ordinal\"" + ([':'] + ("" + rest))))))
    ensures |line| >= 53
    ensures line[..53] + end ==
      "{\"payload\":{\"model\":\"new\"},\"k\":" + (['\"'] + ("comp_hash" + (['\"'] + (",\"ordinal\"" + ([':'] + ("" + end))))))
  {
    var front := "{\"payload\":{\"model\":\"new\"},\"k\":\"comp_hash\",\"ordinal\":";
    assert |front| == 53;
    assert line == front + rest by { Fronted(rest); }
    assert line[..53] == front;
    Fronted(end);
  }

  lemma Fronted(rest: string)
    ensures "{\"payload\":{\"model\":\"new\"},\"k\":" + (['\"'] + ("comp_hash" + (['\"'] + (",\"ordinal\"" + ([':'] + ("" + rest)))))) ==
      "{\"payload\":{\"model\":\"new\"},\"k\":\"comp_hash\",\"ordinal\":" + rest
  {
  }

  lemma LaterLegal(ordinal: string)
    requires ordinal == "7" || ordinal == "null"
    ensures LegalMembers(Later(ordinal))
  {
    hide Unquote, LegalMembers, LegalBody, Legal;
    var typ := One("type", Str("turn_context"), NoMembers);
    var number := One("ordinal", Lit(ordinal), typ);
    OrdinalLegal(ordinal);
    EmptyLegal();
    LegalPlain("turn_context");
    LegalOne("type", Str("turn_context"), NoMembers);
    LegalOne("ordinal", Lit(ordinal), typ);
    LegalPlain("comp_hash");
    LegalOne("k", Str("comp_hash"), number);
  }

  lemma NumberedLegal(model: string, ordinal: string)
    requires Plain(model) && (ordinal == "7" || ordinal == "null")
    ensures Numbered(model, ordinal).Member? && LegalMembers(Numbered(model, ordinal))
  {
    hide Unquote, LegalMembers, LegalBody, Legal, Later;
    LaterLegal(ordinal);
    var inner := One("model", Str(model), NoMembers);
    EmptyLegal();
    LegalPlain(model);
    LegalOne("model", Str(model), NoMembers);
    LegalInner(inner);
    LegalOne("payload", Obj("", inner), Later(ordinal));
  }

  lemma NumberedGet(model: string, ordinal: string, k: string)
    ensures Get(MapOf(Numbered(model, ordinal)), k) ==
      if k == "payload" then Some(Obj("", One("model", Str(model), NoMembers))) else if k == "k" then Some(Str("comp_hash"))
      else if k == "ordinal" then Some(Lit(ordinal)) else if k == "type" then Some(Str("turn_context")) else None
  {
    var typ := One("type", Str("turn_context"), NoMembers);
    hide Unquote, MapOf, LegalBody;
    EmptyMap();
    PlainReads("payload");
    PlainReads("k");
    PlainReads("ordinal");
    PlainReads("type");
    GetMember(Numbered(model, ordinal), "payload", k);
    GetMember(Later(ordinal), "k", k);
    GetMember(One("ordinal", Lit(ordinal), typ), "ordinal", k);
    GetMember(typ, "type", k);
  }

  lemma NumberedFields(model: string, ordinal: string)
    requires Plain(model)
    ensures var e := MapOf(Numbered(model, ordinal));
      Get(e, "ordinal") == Some(Lit(ordinal)) && StringOf(Get(e, "type")) == Some("turn_context") &&
      Get(e, "payload") == Some(Obj("", One("model", Str(model), NoMembers)))
    ensures StringOf(Get(MapOf(One("model", Str(model), NoMembers)), "model")) == Some(model)
  {
    hide Unquote, MapOf, LegalBody, Numbered;
    NumberedGet(model, ordinal, "ordinal");
    NumberedGet(model, ordinal, "type");
    NumberedGet(model, ordinal, "payload");
    PlainReads("turn_context");
    PlainReads("model");
    PlainReads(model);
    EmptyMap();
    GetMember(One("model", Str(model), NoMembers), "model", "model");
  }

  lemma OrdinalLegal(ordinal: string)
    requires ordinal == "7" || ordinal == "null"
    ensures Legal(Lit(ordinal))
  {
    if ordinal == "7" {
      assert "7"[1..] == "";
      assert Digits("7") == 1;
      assert IsNumber("7");
    }
  }

  lemma LegalInner(members: Members)
    requires LegalMembers(members)
    ensures Legal(Obj("", members))
  {
  }

  /** The whole line. */
  lemma NumberedLine(model: string, ordinal: string)
    ensures LineOf(Numbered(model, ordinal)) ==
      "{\"payload\":{\"model\":\"" + (model + ("\"},\"k\":\"comp_hash\",\"ordinal\":" + (ordinal + ",\"type\":\"turn_context\"}")))
  {
    NumberedText(model, ordinal);
    MiddleText(ordinal);
    EndText();
    hide LineOf, Numbered, Middle, End;
    MiddleFlat(Middle(ordinal), ordinal + End());
    var tail := ordinal + End();
    var rest := "\"},\"k\":\"comp_hash\",\"ordinal\":" + tail;
    assert ['\"'] + Middle(ordinal) == rest;
    FrontFlat(model + rest);
  }

  lemma MiddleFlat(middle: string, tail: string)
    requires middle == "},\"k\":" + (['\"'] + ("comp_hash" + (['\"'] + (",\"ordinal\"" + ([':'] + ("" + tail))))))
    ensures ['\"'] + middle == "\"},\"k\":\"comp_hash\",\"ordinal\":" + tail
  {
  }

  lemma FrontFlat(rest: string)
    ensures "{\"payload\":{" + (['\"'] + ("model" + (['\"'] + ("" + ([':'] + ("" + (['\"'] + rest))))))) == "{\"payload\":{\"model\":\"" + rest
  {
  }

  lemma EndText()
    ensures End() == ",\"type\":\"turn_context\"}"
  {
    hide PutMembers, Put;
    LastText("type", Str("turn_context"), "");
    ClosedString("turn_context");
    TypeGlue(Put(Str("turn_context"), ['}'] + ""));
    assert ",\"type\":" + ("\"turn_context" + "\"}") == ",\"type\":\"turn_context\"}";
  }

  lemma ClosedString(body: string)
    ensures Put(Str(body), ['}'] + "") == "\"" + body + "\"}"
  {
    assert "\"" + body + "\"}" == ['\"'] + (body + (['\"'] + (['}'] + "")));
  }

  lemma TypeGlue(rest: string)
    ensures [','] + (['\"'] + ("type" + (['\"'] + ([':'] + rest)))) == ",\"type\":" + rest
  {
  }

  lemma NumberedOutside(model: string, ordinal: string)
    requires '\n' !in model && '\n' !in ordinal
    ensures '\n' !in LineOf(Numbered(model, ordinal))
  {
    NumberedLine(model, ordinal);
    hide LineOf, Numbered;
    assert '\n' !in "{\"payload\":{\"model\":\"";
    assert '\n' !in "\"},\"k\":\"comp_hash\",\"ordinal\":";
    assert '\n' !in ",\"type\":\"turn_context\"}";
  }

  const NUMBERED_POLICY := Policy("new", [], false)

  lemma NumberedContext()
    ensures CleanContext(LineOf(Numbered("foreign", "7")), NUMBERED_POLICY) == Patched(LineOf(Numbered("new", "null")))
  {
    hide Numbered, MapOf, Parse, Find, PatchText, CleanContext, LineOf, StringOf, Get, TrimNewline, EnvelopeOf, LegalMembers, OneLine;
    NumberedLegal("foreign", "7");
    NumberedFields("foreign", "7");
    NumberedOutside("foreign", "7");
    LineReads(Numbered("foreign", "7"));
    NumberedMentions();
    NumberedPatch();
    ContextIsPatched(LineOf(Numbered("foreign", "7")), Numbered("foreign", "7"), One("model", Str("foreign"), NoMembers),
      NUMBERED_POLICY, LineOf(Numbered("new", "null")));
  }

  lemma NumberedPatch()
    ensures PatchText(LineOf(Numbered("foreign", "7")), "new") == Some(LineOf(Numbered("new", "null")))
  {
    NumberedModel();
    NumberedHash();
    hide LineOf, Numbered, ReplaceStringField, ReplaceRawField;
  }

  lemma NumberedMentions()
    ensures Find(LineOf(Numbered("foreign", "7")), "turn_context", 0).Some?
  {
    NumberedLine("foreign", "7");
    hide Find, Numbered, LineOf;
    var front := "{\"payload\":{\"model\":\"" + ("foreign" + ("\"},\"k\":\"comp_hash\",\"ordinal\":" + "7"));
    var end := ",\"type\":\"turn_context\"}";
    var line := LineOf(Numbered("foreign", "7"));
    assert line == front + end;
    assert line[|front| + 9..|front| + 21] == end[9..21] == "turn_context";
    Found(line, "turn_context", 0, |front| + 9);
  }

  lemma OrdinalAt(model: string, ordinal: string)
    requires Plain(model) && (ordinal == "7" || ordinal == "null")
    ensures OrdinalOf(LineOf(Numbered(model, ordinal))) == Some(Lit(ordinal))
  {
    hide Numbered, MapOf, Parse, LineOf, LegalMembers;
    assert '\n' !in model;
    NumberedLegal(model, ordinal);
    NumberedFields(model, ordinal);
    NumberedOutside(model, ordinal);
    LineReads(Numbered(model, ordinal));
  }

  /** Under the policy for the model "new" a record with the ordinal 7 is accepted, in either
      mode, and written with the ordinal null. */
  lemma OrdinalIsLost(mode: bool)
    ensures var line := LineOf(Numbered("foreign", "7"));
      var r := ScanRecord(line, mode, NUMBERED_POLICY);
      r.Record? && r.changed && OrdinalOf(line) == Some(Lit("7")) && OrdinalOf(r.bytes) == Some(Lit("null"))
  {
    hide Numbered, MapOf, Parse, LineOf, LegalMembers, CleanContext, SanitizeLine, OrdinalOf, PadTo, OneLine;
    var line, text := LineOf(Numbered("foreign", "7")), LineOf(Numbered("new", "null"));
    NumberedContext();
    OrdinalAt("foreign", "7");
    OrdinalAt("new", "null");
    NumberedLegal("new", "null");
    NumberedFields("new", "null");
    NumberedOutside("new", "null");
    LineReads(Numbered("new", "null"));
    FastRefinesSlow(text, mode);
    assert SanitizeLine(text, mode) == Sanitize.Line(text, false, 0, 0);
    Shorter();
    PadOrdinal(text, |line|);
  }

  lemma Shorter()
    ensures |LineOf(Numbered("new", "null"))| < |LineOf(Numbered("foreign", "7"))|
  {
    NumberedLine("foreign", "7");
    NumberedLine("new", "null");
    hide LineOf, Numbered;
  }

  lemma PadOrdinal(text: string, size: nat)
    requires |text| <= size && Parse(TrimNewline(text)).Got? && OneLine(text) && text != ""
    ensures OrdinalOf(PadTo(text, size)) == OrdinalOf(text)
  {
    hide Parse, PadTo, FieldsOf, OneLine;
    PadReads(text, size);
    LineValue(text);
    LineValue(PadTo(text, size));
  }
}
