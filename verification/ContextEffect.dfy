/** What the textual context patch does to the decoded record (internal/rollout/context.go).
    The patch edits the first place where the key's text occurs.  When that place is the
    payload's own scalar field, its value is on the same line after blanks, and its raw text
    does not end in a backslash, the patched text is the text of the same tree with that value
    replaced: the context then names the target's model, every other field is as it was, and
    a second patch finds nothing to do. */
module ContextEffect {
  import opened Wrappers
  import opened JsonText
  import opened GoJson
  import opened Sanitize
  import opened SanitizedRecord
  import opened ContextPatch

  // ---------------------------------------------------------------- a place in a tree

  /** A member without its value, with what comes before and after it in its object. */
  datatype Spot = Spot(front: Members, before: string, key: string, mid: string, lead: string, after: string, back: Members)

  function Join(front: Members, ms: Members): Members {
    match front
    case NoMembers => ms
    case Member(before, key, mid, lead, value, after, rest) => Member(before, key, mid, lead, value, after, Join(rest, ms))
  }

  function Fill(s: Spot, v: Value): Members { Join(s.front, Member(s.before, s.key, s.mid, s.lead, v, s.after, s.back)) }

  /** The text in front of the key's opening quote. */
  function KeyText(front: Members, before: string): string {
    match front
    case NoMembers => before
    case Member(b, key, mid, lead, value, after, rest) =>
      b + (['\"'] + (key + (['\"'] + (mid + ([':'] + (lead + Put(value, after + ([','] + KeyText(rest, before)))))))))
  }

  function ColonText(s: Spot): string { ['\"'] + (s.key + (['\"'] + (s.mid + ([':'] + s.lead)))) }

  function Rest(s: Spot, rest: string): string {
    s.after + (if s.back.NoMembers? then ['}'] + rest else [','] + PutMembers(s.back, rest))
  }

  lemma {:induction false} FillText(front: Members, before: string, m: Members, rest: string, tail: string)
    requires m.Member? && m.before == before && PutMembers(m, rest) == before + tail
    ensures PutMembers(Join(front, m), rest) == KeyText(front, before) + tail
    decreases front
  {
    hide Put;
    if front.Member? {
      var more := Join(front.rest, m);
      assert more.Member?;
      FillText(front.rest, before, m, rest, tail);
      var k := KeyText(front.rest, before);
      assert PutMembers(more, rest) == k + tail;
      Regroup([','], k, tail);
      Regroup(front.after, [','] + k, tail);
      PutAppend(front.value, front.after + ([','] + k), tail);
      KeyAppend(front.before, front.key, front.mid, front.lead, Put(front.value, front.after + ([','] + k)), tail);
    }
  }

  /** The text of an object with a value in the spot. */
  lemma SpotText(s: Spot, v: Value, rest: string)
    ensures PutMembers(Fill(s, v), rest) == KeyText(s.front, s.before) + (ColonText(s) + Put(v, Rest(s, rest)))
  {
    hide Put, KeyText, Join;
    var m := Member(s.before, s.key, s.mid, s.lead, v, s.after, s.back);
    var p := Put(v, Rest(s, rest));
    OneMember(m, rest);
    var tail := ColonText(s) + p;
    KeyAppend("", s.key, s.mid, s.lead, "", p);
    assert "" + p == p && s.lead + "" == s.lead;
    assert "" + ColonText(s) == ColonText(s);
    assert tail == ['\"'] + (s.key + (['\"'] + (s.mid + ([':'] + (s.lead + p)))));
    FillText(s.front, s.before, m, rest, tail);
  }

  lemma OneMember(m: Members, rest: string)
    requires m.Member?
    ensures PutMembers(m, rest) ==
      m.before + (['\"'] + (m.key + (['\"'] + (m.mid + ([':'] + (m.lead + Put(m.value,
        m.after + (if m.rest.NoMembers? then ['}'] + rest else [','] + PutMembers(m.rest, rest)))))))))
  {
    hide Put;
  }

  /** A scalar of the payload of a record. */
  datatype Place = Place(before: string, outer: Spot, inner: Spot, after: string)

  function DocAt(p: Place, v: Value): Doc { Doc(p.before, Obj("", Fill(p.outer, Obj("", Fill(p.inner, v)))), p.after) }

  function KeyAt(p: Place): string {
    p.before + (['{'] + (KeyText(p.outer.front, p.outer.before) + (ColonText(p.outer) + (['{'] + KeyText(p.inner.front, p.inner.before)))))
  }

  function TailAt(p: Place): string { Rest(p.inner, Rest(p.outer, p.after)) }

  lemma PlaceText(p: Place, v: Value)
    ensures DocText(DocAt(p, v)) == KeyAt(p) + (ColonText(p.inner) + Put(v, TailAt(p)))
  {
    hide KeyText, ColonText, Rest, Fill;
    var tail := ColonText(p.inner) + Put(v, TailAt(p));
    SpotText(p.inner, v, Rest(p.outer, p.after));
    var inner := Obj("", Fill(p.inner, v));
    SpotText(p.outer, inner, p.after);
    FilledMembers(p.inner, v);
    FilledMembers(p.outer, inner);
    var k := KeyText(p.inner.front, p.inner.before);
    assert Put(inner, Rest(p.outer, p.after)) == ['{'] + (k + tail) by { hide Put; ObjectText(Fill(p.inner, v), Rest(p.outer, p.after)); }
    assert Put(Obj("", Fill(p.outer, inner)), p.after) == ['{'] + PutMembers(Fill(p.outer, inner), p.after) by { hide Put; ObjectText(Fill(p.outer, inner), p.after); }
    hide Put, PutMembers;
    Regroup(['{'], k, tail);
    Regroup(ColonText(p.outer), ['{'] + k, tail);
    Regroup(KeyText(p.outer.front, p.outer.before), ColonText(p.outer) + (['{'] + k), tail);
    Regroup(['{'], KeyText(p.outer.front, p.outer.before) + (ColonText(p.outer) + (['{'] + k)), tail);
    Regroup(p.before, ['{'] + (KeyText(p.outer.front, p.outer.before) + (ColonText(p.outer) + (['{'] + k))), tail);
  }

  lemma ObjectText(ms: Members, rest: string)
    requires ms.Member?
    ensures Put(Obj("", ms), rest) == ['{'] + PutMembers(ms, rest)
  {
  }

  lemma FilledMembers(s: Spot, v: Value)
    ensures Fill(s, v).Member?
  {
  }

  // ---------------------------------------------------------------- the string replacement

  /** Nothing but blanks, as the patch skips them. */
  predicate Blanks(s: string) { forall c <- s :: c == ' ' || c == '\t' }

  lemma {:induction false} ColonFound(line: string, from: nat, mid: string, rest: string)
    requires from <= |line| && line[from..] == mid + ([':'] + rest) && ':' !in mid
    ensures FindByte(line, ':', from) == Some(from + |mid|)
    decreases |mid|
  {
    if mid == "" {
      assert line[from..][0] == ':';
    } else {
      assert line[from..][0] == mid[0] && mid[0] in mid;
      assert line[from + 1..] == line[from..][1..] == mid[1..] + ([':'] + rest);
      ColonFound(line, from + 1, mid[1..], rest);
    }
  }

  lemma {:induction false} BlanksSkipped(line: string, from: nat, lead: string, rest: string)
    requires from <= |line| && line[from..] == lead + rest && Blanks(lead)
    requires rest != "" && rest[0] != ' ' && rest[0] != '\t'
    ensures SkipBlanks(line, from) == from + |lead|
    decreases |lead|
  {
    if lead == "" {
      assert line[from..][0] == rest[0];
    } else {
      assert line[from..][0] == lead[0] && lead[0] in lead;
      assert line[from + 1..] == line[from..][1..] == lead[1..] + rest;
      assert forall c <- lead[1..] :: c in lead;
      BlanksSkipped(line, from + 1, lead[1..], rest);
    }
  }

  /** Every quote of a raw string follows a backslash, and the string does not end in one. */
  predicate QuotesEscaped(body: string) {
    && (forall i :: 0 <= i < |body| && body[i] == '\"' ==> i > 0 && body[i - 1] == '\\')
    && (body != "" ==> body[|body| - 1] != '\\')
  }

  lemma {:induction false} QuoteFound(line: string, start: nat, body: string, rest: string, k: nat)
    requires 0 < start <= |line| && line[start..] == body + (['\"'] + rest) && line[start - 1] == '\"'
    requires QuotesEscaped(body) && k <= |body|
    ensures start + |body| < |line| && StringEnd(line, start + k) == start + |body|
    decreases |body| - k
  {
    hide QuotesEscaped;
    assert line[start + k] == line[start..][k];
    if k == |body| {
      LastPlain(line, start, body, rest);
    } else {
      assert line[start + k] == body[k];
      InnerQuote(line, start, body, rest, k);
      QuoteFound(line, start, body, rest, k + 1);
    }
  }

  lemma LastPlain(line: string, start: nat, body: string, rest: string)
    requires 0 < start <= |line| && line[start..] == body + (['\"'] + rest) && line[start - 1] == '\"' && QuotesEscaped(body)
    ensures line[start + |body| - 1] != '\\' && line[start + |body|] == '\"'
  {
    assert line[start + |body|] == line[start..][|body|];
    if body != "" { assert line[start + |body| - 1] == line[start..][|body| - 1]; }
  }

  lemma InnerQuote(line: string, start: nat, body: string, rest: string, k: nat)
    requires 0 < start <= |line| && line[start..] == body + (['\"'] + rest) && QuotesEscaped(body) && k < |body|
    ensures line[start + k] == '\"' ==> line[start + k - 1] == '\\'
  {
    assert line[start + k] == line[start..][k] == body[k];
    if k > 0 { assert line[start + k - 1] == line[start..][k - 1] == body[k - 1]; }
  }

  /** Where the value starts after a key whose text occurs first at a known place. */
  lemma ValueStartsAt(front: string, key: string, mid: string, lead: string, rest: string)
    requires ':' !in mid && Blanks(lead) && rest != "" && rest[0] != ' ' && rest[0] != '\t'
    requires var line := front + (['\"'] + (key + (['\"'] + (mid + ([':'] + (lead + rest))))));
      Find(line, Quoted(key), 0) == Some(|front|)
    ensures var line := front + (['\"'] + (key + (['\"'] + (mid + ([':'] + (lead + rest))))));
      var start := |front| + |key| + 2 + |mid| + 1 + |lead|;
      start <= |line| && ValueStart(line, key) == Some(start) && line[start..] == rest
  {
    hide *;
    var tail := mid + ([':'] + (lead + rest));
    var line := front + (['\"'] + (key + (['\"'] + tail)));
    NeedleText(front, key, tail);
    DropFront(front + (Quoted(key)), tail);
    StartFrom(line, key, |front|, mid, lead, rest);
  }

  lemma StartFrom(line: string, key: string, found: nat, mid: string, lead: string, rest: string)
    requires ':' !in mid && Blanks(lead) && rest != "" && rest[0] != ' ' && rest[0] != '\t'
    requires Find(line, Quoted(key), 0) == Some(found) && found + |key| + 2 <= |line|
    requires line[found + |key| + 2..] == mid + ([':'] + (lead + rest))
    ensures var start := found + |key| + 2 + |mid| + 1 + |lead|;
      start <= |line| && ValueStart(line, key) == Some(start) && line[start..] == rest
  {
    hide *;
    var at := found + |key| + 2;
    AfterColon(line, at, mid, lead + rest);
    AfterBlanks(line, at + |mid| + 1, lead, rest);
    ValueStartIs(line, key, found, at + |mid|, at + |mid| + 1 + |lead|);
  }

  lemma AfterColon(line: string, at: nat, mid: string, rest: string)
    requires at <= |line| && line[at..] == mid + ([':'] + rest) && ':' !in mid
    ensures FindByte(line, ':', at) == Some(at + |mid|) && at + |mid| + 1 <= |line| && line[at + |mid| + 1..] == rest
  {
    hide *;
    ColonFound(line, at, mid, rest);
    DropMore(line, at, mid, [':'] + rest);
    DropMore(line, at + |mid|, [':'], rest);
  }

  lemma AfterBlanks(line: string, at: nat, lead: string, rest: string)
    requires at <= |line| && line[at..] == lead + rest && Blanks(lead)
    requires rest != "" && rest[0] != ' ' && rest[0] != '\t'
    ensures SkipBlanks(line, at) == at + |lead| <= |line| && line[at + |lead|..] == rest
  {
    hide *;
    BlanksSkipped(line, at, lead, rest);
    DropMore(line, at, lead, rest);
  }

  lemma ValueStartIs(line: string, key: string, found: nat, colon: nat, start: nat)
    requires Find(line, Quoted(key), 0) == Some(found) && found + |key| + 2 <= |line|
    requires FindByte(line, ':', found + |key| + 2) == Some(colon) && SkipBlanks(line, colon + 1) == start
    ensures ValueStart(line, key) == Some(start)
  {
    hide *;
    UnfoldColon(line, key, found, found + |key| + 2);
    UnfoldStart(line, key, colon);
  }

  lemma UnfoldColon(line: string, key: string, found: nat, at: nat)
    requires Find(line, Quoted(key), 0) == Some(found) && at == found + |Quoted(key)|
    ensures at <= |line| && ColonAfter(line, key) == FindByte(line, ':', at)
  {
    hide Find, FindByte, Quoted;
  }

  lemma UnfoldStart(line: string, key: string, colon: nat)
    requires ColonAfter(line, key) == Some(colon)
    ensures colon < |line| && ValueStart(line, key) == Some(SkipBlanks(line, colon + 1))
  {
    hide ColonAfter, SkipBlanks;
  }

  lemma NeedleText(front: string, key: string, tail: string)
    ensures front + (['\"'] + (key + (['\"'] + tail))) == (front + (Quoted(key))) + tail
  {
    Regroup(key, ['\"'], tail);
    Regroup(['\"'], key + ['\"'], tail);
    Regroup(front, ['\"'] + (key + ['\"']), tail);
    assert ['\"'] + (key + ['\"']) == Quoted(key);
  }

  lemma DropFront(a: string, b: string)
    ensures (a + b)[|a|..] == b && (a + b)[..|a|] == a
  {
  }

  lemma DropMore(line: string, at: nat, a: string, b: string)
    requires at <= |line| && line[at..] == a + b
    ensures at + |a| <= |line| && line[at + |a|..] == b
  {
    assert line[at + |a|..] == line[at..][|a|..];
  }

  /** The value the patch writes for a model. */
  function ModelValue(model: string): Value { Str(EscapeHtml(Quote(model))) }

  /** The key's text occurs first at the place, with a string on the key's line whose
      raw text does not end in a backslash. */
  predicate OwnString(p: Place, key: string, body: string) {
    && p.inner.key == key && AllWs(p.inner.mid) && Blanks(p.inner.lead) && LegalBody(body)
    && (body != "" ==> body[|body| - 1] != '\\')
    && Find(DocText(DocAt(p, Str(body))), Quoted(key), 0) == Some(|KeyAt(p)|)
  }

  /** In a legal string every quote follows a backslash. */
  lemma {:induction false} LegalQuotes(body: string)
    requires LegalBody(body)
    ensures forall i :: 0 <= i < |body| && body[i] == '\"' ==> i > 0 && body[i - 1] == '\\'
  {
    if body != "" {
      var n := UnitLength(body);
      LegalQuotes(body[n..]);
      UnitQuotes(body);
      hide UnitLength;
      assert forall i :: n <= i < |body| ==> body[i] == body[n..][i - n];
    }
  }

  lemma UnitQuotes(body: string)
    requires UnitLength(body) != 0
    ensures forall i :: 0 <= i < UnitLength(body) && body[i] == '\"' ==> i > 0 && body[i - 1] == '\\'
  {
  }

  lemma WsNoColon(w: string)
    requires AllWs(w)
    ensures ':' !in w
  {
  }

  /** The string replacement replaces the value at the place and nothing else. */
  lemma StringReplaced(p: Place, key: string, body: string, model: string)
    requires OwnString(p, key, body)
    ensures ReplaceStringField(DocText(DocAt(p, Str(body))), key, model) == Some(DocText(DocAt(p, ModelValue(model))))
  {
    hide Find, KeyAt, TailAt, LegalBody, DocAt, StringEnd, ValueStart, EscapeHtml, Quote, UnitLength, ColonText;
    LegalQuotes(body);
    WsNoColon(p.inner.mid);
    PlaceText(p, Str(body));
    PlaceText(p, ModelValue(model));
    var tail := TailAt(p);
    var rest := ['\"'] + (body + (['\"'] + tail));
    FlatKey(p.inner, key, rest);
    ValueStartsAt(KeyAt(p), key, p.inner.mid, p.inner.lead, rest);
    var line := DocText(DocAt(p, Str(body)));
    var front := KeyAt(p) + ColonText(p.inner);
    Regroup(KeyAt(p), ColonText(p.inner), rest);
    DropFront(front, rest);
    ColonLength(p.inner);
    StringSplice(line, key, |front|, body, tail, model);
    Regroup(KeyAt(p), ColonText(p.inner), MarshalString(model) + tail);
    MarshalText(model, tail);
  }

  lemma ColonLength(s: Spot)
    ensures |ColonText(s)| == |s.key| + 2 + |s.mid| + 1 + |s.lead|
  {
  }

  lemma MarshalText(model: string, tail: string)
    ensures MarshalString(model) + tail == ['\"'] + (EscapeHtml(Quote(model)) + (['\"'] + tail))
  {
    hide EscapeHtml, Quote;
    var encoded := EscapeHtml(Quote(model));
    Regroup(encoded, ['\"'], tail);
    Regroup(['\"'], encoded + ['\"'], tail);
    assert MarshalString(model) == ['\"'] + (encoded + ['\"']);
  }

  lemma StringSplice(line: string, key: string, start: nat, body: string, tail: string, model: string)
    requires start <= |line| && ValueStart(line, key) == Some(start)
    requires line[start..] == ['\"'] + (body + (['\"'] + tail)) && QuotesEscaped(body)
    ensures ReplaceStringField(line, key, model) == Some(line[..start] + (MarshalString(model) + tail))
  {
    hide StringEnd, ValueStart, MarshalString;
    assert line[start] == line[start..][0] == '\"';
    DropMore(line, start, ['\"'], body + (['\"'] + tail));
    QuoteFound(line, start + 1, body, tail, 0);
    DropMore(line, start + 1, body, ['\"'] + tail);
    DropMore(line, start + 1 + |body|, ['\"'], tail);
    Regroup(line[..start], MarshalString(model), tail);
  }

  /** The raw replacement nulls a string at the place and nothing else. */
  lemma RawReplaced(p: Place, key: string, body: string)
    requires OwnString(p, key, body)
    ensures ReplaceRawField(DocText(DocAt(p, Str(body))), key, "null") == Some(DocText(DocAt(p, Lit("null"))))
  {
    hide Find, KeyAt, TailAt, LegalBody, DocAt, StringEnd, ValueStart, UnitLength, ColonText;
    LegalQuotes(body);
    WsNoColon(p.inner.mid);
    PlaceText(p, Str(body));
    PlaceText(p, Lit("null"));
    var tail := TailAt(p);
    var rest := ['\"'] + (body + (['\"'] + tail));
    FlatKey(p.inner, key, rest);
    ValueStartsAt(KeyAt(p), key, p.inner.mid, p.inner.lead, rest);
    var line := DocText(DocAt(p, Str(body)));
    var front := KeyAt(p) + ColonText(p.inner);
    Regroup(KeyAt(p), ColonText(p.inner), rest);
    DropFront(front, rest);
    ColonLength(p.inner);
    RawSplice(line, key, |front|, body, tail);
    Regroup(KeyAt(p), ColonText(p.inner), "null" + tail);
  }

  lemma RawSplice(line: string, key: string, start: nat, body: string, tail: string)
    requires start <= |line| && ValueStart(line, key) == Some(start)
    requires line[start..] == ['\"'] + (body + (['\"'] + tail)) && QuotesEscaped(body)
    ensures ReplaceRawField(line, key, "null") == Some(line[..start] + ("null" + tail))
  {
    hide StringEnd, ValueStart, BareEnd;
    assert line[start] == line[start..][0] == '\"';
    DropMore(line, start, ['\"'], body + (['\"'] + tail));
    QuoteFound(line, start + 1, body, tail, 0);
    DropMore(line, start + 1, body, ['\"'] + tail);
    DropMore(line, start + 1 + |body|, ['\"'], tail);
    Regroup(line[..start], "null", tail);
  }

  /** The hash's text occurs first at the place, as a number or a word on the key's line. */
  predicate OwnLiteral(p: Place, key: string, raw: string) {
    && p.inner.key == key && AllWs(p.inner.mid) && Blanks(p.inner.lead) && (IsWord(raw) || NumberToken(raw))
    && AllWs(p.inner.after)
    && Find(DocText(DocAt(p, Lit(raw))), Quoted(key), 0) == Some(|KeyAt(p)|)
  }

  /** A text from its first newline on. */
  function FromNewline(s: string): (t: string)
    ensures |t| <= |s|
  {
    if s == "" || s[0] == '\n' then s else FromNewline(s[1..])
  }

  /** A place whose value is followed by no blanks: the raw replacement of a bare value
      takes the blanks up to the next comma, brace or newline with it. */
  function Bare(p: Place): Place { p.(inner := p.inner.(after := FromNewline(p.inner.after))) }

  lemma {:induction false} BareSkips(line: string, from: nat, raw: string, rest: string)
    requires from <= |line| && line[from..] == raw + rest
    requires ',' !in raw && '}' !in raw && '\n' !in raw
    ensures from + |raw| <= |line| && BareEnd(line, from) == BareEnd(line, from + |raw|) && line[from + |raw|..] == rest
    decreases |raw|
  {
    if raw == "" {
    } else {
      assert line[from..][0] == raw[0] && raw[0] in raw;
      assert line[from + 1..] == line[from..][1..] == raw[1..] + rest;
      assert forall c <- raw[1..] :: c in raw;
      BareSkips(line, from + 1, raw[1..], rest);
    }
  }

  lemma {:induction false} BareStops(line: string, from: nat, after: string, rest: string)
    requires from <= |line| && line[from..] == after + rest && AllWs(after)
    requires rest != "" && (rest[0] == ',' || rest[0] == '}')
    ensures BareEnd(line, from) <= |line| && line[BareEnd(line, from)..] == FromNewline(after) + rest
    decreases |after|
  {
    if after == "" {
      assert line[from..][0] == rest[0];
    } else {
      assert line[from..][0] == after[0] && IsWs(after[0]);
      if after[0] != '\n' {
        assert line[from + 1..] == line[from..][1..] == after[1..] + rest;
        BareStops(line, from + 1, after[1..], rest);
      }
    }
  }

  /** What a literal is made of. */
  lemma LiteralBytes(raw: string)
    requires IsWord(raw) || NumberToken(raw)
    ensures raw != "" && raw[0] != ' ' && raw[0] != '\t' && raw[0] != '\"'
    ensures ',' !in raw && '}' !in raw && '\n' !in raw
  {
    hide IsNumber;
    if NumberToken(raw) {
      assert forall c <- raw :: NumberChar(c);
    }
  }

  /** What follows the value in a place. */
  function Close(s: Spot, rest: string): string { if s.back.NoMembers? then ['}'] + rest else [','] + PutMembers(s.back, rest) }

  lemma TailSplit(p: Place)
    ensures var close := Close(p.inner, Rest(p.outer, p.after));
      TailAt(p) == p.inner.after + close && TailAt(Bare(p)) == FromNewline(p.inner.after) + close &&
      close != "" && (close[0] == ',' || close[0] == '}')
  {
    hide PutMembers, FromNewline;
  }

  /** The raw replacement nulls a number or a word at the place, takes the blanks behind it,
      and does nothing else. */
  lemma LiteralReplaced(p: Place, key: string, raw: string)
    requires OwnLiteral(p, key, raw)
    ensures ReplaceRawField(DocText(DocAt(p, Lit(raw))), key, "null") == Some(DocText(DocAt(Bare(p), Lit("null"))))
  {
    hide Find, KeyAt, TailAt, DocAt, BareEnd, ValueStart, ColonText, NumberToken, IsWord, FromNewline, Close;
    LiteralBytes(raw);
    WsNoColon(p.inner.mid);
    PlaceText(p, Lit(raw));
    PlaceText(Bare(p), Lit("null"));
    SameFront(p);
    TailSplit(p);
    var tail := TailAt(p);
    var rest := raw + tail;
    FlatKey(p.inner, key, rest);
    ValueStartsAt(KeyAt(p), key, p.inner.mid, p.inner.lead, rest);
    var line := DocText(DocAt(p, Lit(raw)));
    var front := KeyAt(p) + ColonText(p.inner);
    Regroup(KeyAt(p), ColonText(p.inner), rest);
    DropFront(front, rest);
    ColonLength(p.inner);
    BareSplice(line, key, |front|, raw, p.inner.after, Close(p.inner, Rest(p.outer, p.after)));
    Regroup(KeyAt(p), ColonText(p.inner), "null" + TailAt(Bare(p)));
  }

  lemma SameFront(p: Place)
    ensures KeyAt(Bare(p)) == KeyAt(p) && ColonText(Bare(p).inner) == ColonText(p.inner)
  {
    hide KeyText, FromNewline;
  }

  lemma BareSplice(line: string, key: string, start: nat, raw: string, after: string, close: string)
    requires start <= |line| && ValueStart(line, key) == Some(start) && line[start..] == raw + (after + close)
    requires raw != "" && raw[0] != '\"' && ',' !in raw && '}' !in raw && '\n' !in raw && AllWs(after)
    requires close != "" && (close[0] == ',' || close[0] == '}')
    ensures ReplaceRawField(line, key, "null") == Some(line[..start] + ("null" + (FromNewline(after) + close)))
  {
    hide BareEnd, ValueStart, FromNewline, AllWs;
    assert line[start] == line[start..][0] == raw[0];
    BareSkips(line, start, raw, after + close);
    BareStops(line, start + |raw|, after, close);
    Regroup(line[..start], "null", FromNewline(after) + close);
  }

  lemma FlatKey(s: Spot, key: string, rest: string)
    requires s.key == key
    ensures ColonText(s) + rest == ['\"'] + (key + (['\"'] + (s.mid + ([':'] + (s.lead + rest)))))
  {
    KeyAppend("", key, s.mid, s.lead, "", rest);
    assert "" + rest == rest && s.lead + "" == s.lead;
    assert "" + ColonText(s) == ColonText(s);
  }

  // ---------------------------------------------------------------- the written model reads back

  lemma {:induction false} EscapeConcat(a: string, b: string)
    ensures EscapeHtml(a + b) == EscapeHtml(a) + EscapeHtml(b)
  {
    if a == "" {
      assert a + b == b;
    } else {
      assert (a + b)[1..] == a[1..] + b;
      EscapeConcat(a[1..], b);
    }
  }

  /** Escaping the HTML characters of a written string changes its bytes, not its meaning. */
  lemma {:induction false} EscapedQuote(k: string)
    ensures LegalBody(EscapeHtml(Quote(k))) && Unquote(EscapeHtml(Quote(k))) == k
  {
    hide LegalBody, Unquote, Quote, EscapeHtml, UnitLength;
    if k == "" {
      EscapedNothing();
    } else if LineSeparator(k) {
      EscapedQuote(k[3..]);
      var digit := if k[2] == 0xA8 as char then '8' else '9';
      SeparatorUnit(digit, EscapeHtml(Quote(k[3..])));
      QuoteSeparator(k);
      EscapeConcat("\\u202" + [digit], Quote(k[3..]));
      PlainEscape("\\u202" + [digit]);
      assert k == [k[0], k[1], k[2]] + k[3..];
    } else {
      EscapedQuote(k[1..]);
      QuoteStep(k);
      EscapeConcat(QuoteChar(k[0]), Quote(k[1..]));
      EscapedChar(k[0], EscapeHtml(Quote(k[1..])));
      assert k == [k[0]] + k[1..];
    }
  }

  lemma EscapedNothing()
    ensures LegalBody(EscapeHtml(Quote(""))) && Unquote(EscapeHtml(Quote(""))) == ""
  {
  }

  lemma QuoteSeparator(k: string)
    requires LineSeparator(k)
    ensures Quote(k) == "\\u202" + [if k[2] == 0xA8 as char then '8' else '9'] + Quote(k[3..])
  {
  }

  lemma EscapedChar(c: char, rest: string)
    requires LegalBody(rest)
    ensures LegalBody(EscapeHtml(QuoteChar(c)) + rest) && Unquote(EscapeHtml(QuoteChar(c)) + rest) == [c] + Unquote(rest)
  {
    hide LegalBody, Unquote, UnitLength;
    if c == '<' || c == '>' || c == '&' {
      assert QuoteChar(c) == [c] && [c][1..] == "";
      HtmlUnit(c, rest);
    } else {
      assert '<' !in QuoteChar(c) && '>' !in QuoteChar(c) && '&' !in QuoteChar(c) by { QuoteCharPlain(c); }
      PlainEscape(QuoteChar(c));
      CharReadsBack(c, rest);
    }
  }

  lemma QuoteCharPlain(c: char)
    requires c != '<' && c != '>' && c != '&'
    ensures '<' !in QuoteChar(c) && '>' !in QuoteChar(c) && '&' !in QuoteChar(c)
  {
  }

  lemma HtmlUnit(c: char, rest: string)
    requires LegalBody(rest) && (c == '<' || c == '>' || c == '&')
    ensures EscapeHtml([c]) == (if c == '<' then "\\u003c" else if c == '>' then "\\u003e" else "\\u0026")
    ensures LegalBody(EscapeHtml([c]) + rest) && Unquote(EscapeHtml([c]) + rest) == [c] + Unquote(rest)
  {
    hide LegalBody;
    assert [c][1..] == "";
    assert EscapeHtml([c][1..]) == "";
    var unit := EscapeHtml([c]);
    assert unit == (if c == '<' then "\\u003c" else if c == '>' then "\\u003e" else "\\u0026") + "";
    var b := unit + rest;
    assert b[6..] == rest;
    assert forall i :: 0 <= i < 6 ==> b[i] == unit[i];
    assert UnitLength(b) == 6;
    assert EscapeCode(b) == c as int;
    OneUnit(unit, rest);
  }

  // ---------------------------------------------------------------- the decoded record

  /** The value in a spot is what a lookup of its key finds, unless the key comes again
      later; every other lookup is the same whatever the value. */
  lemma {:induction false} FillLookup(front: Members, m: Members, n: Members, q: string)
    requires m.Member? && n.Member? && n.key == m.key && n.rest == m.rest
    ensures Get(MapOf(Join(front, n)), q) ==
      if q == Unquote(m.key) && Get(MapOf(m.rest), q).None? then Some(n.value) else Get(MapOf(Join(front, m)), q)
    decreases front
  {
    hide Unquote, Less;
    if front.NoMembers? {
      GetSet(MapOf(m.rest), Unquote(m.key), m.value, q);
      GetSet(MapOf(m.rest), Unquote(m.key), n.value, q);
    } else {
      var key := Unquote(front.key);
      FillLookup(front.rest, m, n, q);
      FillLookup(front.rest, m, n, key);
      LaterKey(front.rest, m);
      GetSet(MapOf(Join(front.rest, n)), key, front.value, q);
      GetSet(MapOf(Join(front.rest, m)), key, front.value, q);
    }
  }

  /** The key of a member is found in any object that ends with it. */
  lemma {:induction false} LaterKey(front: Members, m: Members)
    requires m.Member?
    ensures Get(MapOf(Join(front, m)), Unquote(m.key)).Some?
  {
    hide Unquote, Less;
    if front.NoMembers? {
      GetSet(MapOf(m.rest), Unquote(m.key), m.value, Unquote(m.key));
    } else {
      LaterKey(front.rest, m);
      GetSet(MapOf(Join(front.rest, m)), Unquote(front.key), front.value, Unquote(m.key));
    }
  }

  /** The fields of a record with a value at a place, and those of its payload. */
  function EnvelopeAt(p: Place, v: Value): Fields { MapOf(Fill(p.outer, Obj("", Fill(p.inner, v)))) }

  function ContextOf(p: Place, v: Value): Fields { MapOf(Fill(p.inner, v)) }

  /** The same place, but for the whitespace behind the value. */
  predicate Alike(p: Place, r: Place) { r == p.(inner := p.inner.(after := r.inner.after)) && AllWs(r.inner.after) }

  /** The replacement sets the field and leaves every other field of the payload alone. */
  lemma ContextSet(p: Place, v: Value, r: Place, w: Value, q: string)
    requires Alike(p, r) && Get(MapOf(p.inner.back), Unquote(p.inner.key)).None?
    ensures Get(ContextOf(r, w), q) == if q == Unquote(p.inner.key) then Some(w) else Get(ContextOf(p, v), q)
  {
    hide Unquote, Join, MapOf;
    var s, t := p.inner, r.inner;
    FillLookup(s.front, Member(s.before, s.key, s.mid, s.lead, v, s.after, s.back),
      Member(t.before, t.key, t.mid, t.lead, w, t.after, t.back), q);
  }

  /** Where the payload is the last one, replacing a value in it leaves every other field
      of the record alone. */
  lemma EnvelopeKept(p: Place, v: Value, r: Place, w: Value, q: string)
    requires Alike(p, r) && Unquote(p.outer.key) == "payload" && q != "payload"
    ensures Get(EnvelopeAt(r, w), q) == Get(EnvelopeAt(p, v), q)
  {
    hide MapOf, Unquote, Join;
    var s := p.outer;
    FillLookup(s.front, Member(s.before, s.key, s.mid, s.lead, Obj("", Fill(p.inner, v)), s.after, s.back),
      Member(s.before, s.key, s.mid, s.lead, Obj("", Fill(r.inner, w)), s.after, s.back), q);
  }

  /** The place is the field of the context record that the decoder sees: the payload is the
      last one, and the field the last of its payload. */
  predicate LastPlace(p: Place) {
    && Unquote(p.outer.key) == "payload" && Get(MapOf(p.outer.back), "payload").None?
    && Get(MapOf(p.inner.back), Unquote(p.inner.key)).None?
  }

  lemma {:induction false} LegalFill(front: Members, m: Members, n: Members)
    requires m.Member? && n.Member? && LegalMembers(Join(front, m)) && Legal(n.value) && n == m.(value := n.value, after := n.after) && AllWs(n.after)
    ensures LegalMembers(Join(front, n)) && Legal(m.value)
    decreases front
  {
    hide Legal, LegalBody, AllWs;
    if front.Member? { LegalFill(front.rest, m, n); }
  }

  lemma LegalAt(p: Place, v: Value, r: Place, w: Value)
    requires Alike(p, r) && LegalDoc(DocAt(p, v)) && Legal(w)
    ensures LegalDoc(DocAt(r, w))
  {
    hide LegalBody, Join, LegalMembers, AllWs;
    var s, t, u := p.outer, p.inner, r.inner;
    var inner := Obj("", Fill(t, v));
    var m := Member(s.before, s.key, s.mid, s.lead, inner, s.after, s.back);
    var n := Member(t.before, t.key, t.mid, t.lead, v, t.after, t.back);
    FilledMembers(t, v);
    FilledMembers(u, w);
    FilledMembers(s, inner);
    FilledMembers(s, Obj("", Fill(u, w)));
    EmptyLegal();
    OuterAfter(s, inner);
    LegalFill(s.front, m, m.(value := Lit("null"))) by { assert Legal(Lit("null")) by { hide NumberToken; } }
    LegalFill(t.front, n, Member(u.before, u.key, u.mid, u.lead, w, u.after, u.back));
    LegalFill(s.front, m, m.(value := Obj("", Fill(u, w))));
  }

  lemma OuterAfter(s: Spot, v: Value)
    requires LegalMembers(Fill(s, v))
    ensures AllWs(s.after)
  {
    JoinAfter(s.front, Member(s.before, s.key, s.mid, s.lead, v, s.after, s.back));
  }

  lemma {:induction false} JoinAfter(front: Members, m: Members)
    requires m.Member? && LegalMembers(Join(front, m))
    ensures AllWs(m.after)
    decreases front
  {
    hide Legal, LegalBody, AllWs;
    if front.Member? { JoinAfter(front.rest, m); }
  }

  /** The text of a document at a place reads back as the document. */
  lemma ReadsAt(p: Place, v: Value)
    requires LegalDoc(DocAt(p, v)) && LastPlace(p)
    ensures Parse(DocText(DocAt(p, v))) == Got(DocAt(p, v), "")
    ensures FieldsOf(Some(DocAt(p, v).value)) == Some(EnvelopeAt(p, v))
    ensures FieldsOf(Get(EnvelopeAt(p, v), "payload")) == Some(ContextOf(p, v))
  {
    hide Parse, MapOf, Fill, Unquote;
    DocParses(DocAt(p, v));
    PayloadLookup(p, v);
  }

  lemma PayloadLookup(p: Place, v: Value)
    requires LastPlace(p)
    ensures Get(EnvelopeAt(p, v), "payload") == Some(Obj("", Fill(p.inner, v)))
  {
    hide MapOf, Unquote, Join;
    var s := p.outer;
    var m := Member(s.before, s.key, s.mid, s.lead, Obj("", Fill(p.inner, v)), s.after, s.back);
    FillLookup(s.front, m, m, "payload");
  }

  // ---------------------------------------------------------------- the two replacements together

  /** Where the compatibility hash of a context is: nowhere in the text, or at a place. */
  datatype Hash = NoHash | HashAt(place: Place, value: Value)

  /** The first text of the model's key is the payload's own string. */
  predicate OwnModel(p: Place, body: string) {
    OwnString(p, "model", body) && LegalDoc(DocAt(p, Str(body))) && LastPlace(p)
  }

  /** Once the model is replaced, the first text of the hash's key, if there is one, is the
      payload's own: a string, a number or a word. */
  predicate OwnHash(p: Place, model: string, h: Hash) {
    match h
    case NoHash => Find(DocText(DocAt(p, ModelValue(model))), Quoted("comp_hash"), 0).None?
    case HashAt(q, value) =>
      && DocAt(q, value) == DocAt(p, ModelValue(model)) && LastPlace(q)
      && (match value case Str(hash) => OwnString(q, "comp_hash", hash) case Lit(raw) => OwnLiteral(q, "comp_hash", raw) case _ => false)
  }

  /** The place of the hash after the patch. */
  function NulledAt(q: Place, value: Value): Place { if value.Lit? then Bare(q) else q }

  /** The record after the patch. */
  function PatchedDoc(p: Place, model: string, h: Hash): Doc {
    match h
    case NoHash => DocAt(p, ModelValue(model))
    case HashAt(q, value) => DocAt(NulledAt(q, value), Lit("null"))
  }

  function PatchedEnvelope(p: Place, model: string, h: Hash): Fields {
    match h
    case NoHash => EnvelopeAt(p, ModelValue(model))
    case HashAt(q, value) => EnvelopeAt(NulledAt(q, value), Lit("null"))
  }

  function PatchedFields(p: Place, model: string, h: Hash): Fields {
    match h
    case NoHash => ContextOf(p, ModelValue(model))
    case HashAt(q, value) => ContextOf(NulledAt(q, value), Lit("null"))
  }

  /** The patched record reads back as its fields. */
  ghost predicate PatchReads(d: Doc, envelope: Fields, context: Fields) {
    && Parse(DocText(d)) == Got(d, "")
    && FieldsOf(Some(d.value)) == Some(envelope) && FieldsOf(Get(envelope, "payload")) == Some(context)
  }

  lemma {:induction false} NewlineWs(s: string)
    requires AllWs(s)
    ensures AllWs(FromNewline(s))
  {
    if s != "" { NewlineWs(s[1..]); }
  }

  lemma LegalObject(q: Place, value: Value)
    requires LegalDoc(DocAt(q, value))
    ensures LegalMembers(Fill(q.outer, Obj("", Fill(q.inner, value))))
  {
    hide LegalMembers;
  }

  lemma LegalInside(ms: Members)
    requires Legal(Obj("", ms))
    ensures LegalMembers(ms)
  {
    hide LegalMembers;
  }

  lemma {:induction false} InnerLegal(front: Members, m: Members)
    requires m.Member? && LegalMembers(Join(front, m))
    ensures Legal(m.value)
    decreases front
  {
    hide Legal, LegalBody, AllWs;
    if front.Member? { InnerLegal(front.rest, m); }
  }

  lemma InnerAfter(p: Place, v: Value)
    requires LegalDoc(DocAt(p, v))
    ensures AllWs(p.inner.after)
  {
    hide LegalMembers, Legal, AllWs;
    var s, t := p.outer, p.inner;
    FilledMembers(s, Obj("", Fill(t, v)));
    FilledMembers(t, v);
    InnerLegal(s.front, Member(s.before, s.key, s.mid, s.lead, Obj("", Fill(t, v)), s.after, s.back)) by { LegalObject(p, v); }
    assert LegalMembers(Fill(t, v)) by { LegalInside(Fill(t, v)); }
    OuterAfter(t, v);
  }

  lemma NulledAlike(q: Place, value: Value)
    requires LegalDoc(DocAt(q, value))
    ensures Alike(q, NulledAt(q, value))
  {
    hide LegalDoc, DocAt, FromNewline;
    InnerAfter(q, value);
    NewlineWs(q.inner.after);
  }

  /** The model's replacement: the text, and the fields it leaves. */
  lemma ModelStep(p: Place, body: string, model: string)
    requires OwnModel(p, body)
    ensures var was, now := Str(body), ModelValue(model);
      && ReplaceStringField(DocText(DocAt(p, was)), "model", model) == Some(DocText(DocAt(p, now)))
      && LegalDoc(DocAt(p, now))
      && PatchReads(DocAt(p, was), EnvelopeAt(p, was), ContextOf(p, was))
      && PatchReads(DocAt(p, now), EnvelopeAt(p, now), ContextOf(p, now))
      && StringOf(Get(ContextOf(p, now), "model")) == Some(model)
      && (forall k :: k != "model" ==> Get(ContextOf(p, now), k) == Get(ContextOf(p, was), k))
      && (forall k :: k != "payload" ==> Get(EnvelopeAt(p, now), k) == Get(EnvelopeAt(p, was), k))
  {
    hide Parse, Find, MapOf, Fill, Unquote, LegalDoc, DocAt, ReplaceStringField, EscapeHtml, Quote, LegalBody, ContextOf, EnvelopeAt, AllWs, FieldsOf;
    var was, now := Str(body), ModelValue(model);
    StringReplaced(p, "model", body, model);
    EscapedQuote(model);
    assert Legal(now) by { hide *; LegalString(EscapeHtml(Quote(model))); }
    assert Alike(p, p) by { InnerAfter(p, was); }
    LegalAt(p, was, p, now);
    ReadsAt(p, was);
    ReadsAt(p, now);
    PlainKeys();
    forall k
      ensures Get(ContextOf(p, now), k) == if k == "model" then Some(now) else Get(ContextOf(p, was), k)
    {
      ContextSet(p, was, p, now, k);
    }
    forall k | k != "payload"
      ensures Get(EnvelopeAt(p, now), k) == Get(EnvelopeAt(p, was), k)
    {
      EnvelopeKept(p, was, p, now, k);
    }
  }

  lemma LegalString(body: string)
    requires LegalBody(body)
    ensures Legal(Str(body))
  {
  }

  lemma PlainKeys()
    ensures Unquote("model") == "model" && Unquote("comp_hash") == "comp_hash"
  {
    hide Unquote, LegalBody;
    PlainReads("model");
    PlainReads("comp_hash");
  }

  lemma {:induction false} PlainReads(b: string)
    requires Plain(b)
    ensures LegalBody(b) && Unquote(b) == b
  {
    if b != "" {
      assert b[0] in b;
      assert forall c <- b[1..] :: c in b;
      assert b == [b[0]] + b[1..];
      PlainReads(b[1..]);
    }
  }

  /** The hash's replacement: the text, and the fields it leaves. */
  lemma HashStep(q: Place, value: Value)
    requires LegalDoc(DocAt(q, value)) && LastPlace(q) && q.inner.key == "comp_hash"
    requires match value case Str(hash) => OwnString(q, "comp_hash", hash) case Lit(raw) => OwnLiteral(q, "comp_hash", raw) case _ => false
    ensures var r := NulledAt(q, value);
      && ReplaceRawField(DocText(DocAt(q, value)), "comp_hash", "null") == Some(DocText(DocAt(r, Lit("null"))))
      && PatchReads(DocAt(r, Lit("null")), EnvelopeAt(r, Lit("null")), ContextOf(r, Lit("null")))
      && Get(ContextOf(r, Lit("null")), "comp_hash") == Some(Lit("null"))
      && (forall k :: k != "comp_hash" ==> Get(ContextOf(r, Lit("null")), k) == Get(ContextOf(q, value), k))
      && (forall k :: k != "payload" ==> Get(EnvelopeAt(r, Lit("null")), k) == Get(EnvelopeAt(q, value), k))
  {
    hide Parse, Find, MapOf, Fill, Unquote, LegalDoc, DocAt, ReplaceRawField, LegalBody, ContextOf, EnvelopeAt, AllWs, FieldsOf, FromNewline, NumberToken;
    var r, now := NulledAt(q, value), Lit("null");
    if value.Str? { RawReplaced(q, "comp_hash", value.body); } else { LiteralReplaced(q, "comp_hash", value.raw); }
    NulledAlike(q, value);
    assert Legal(now);
    LegalAt(q, value, r, now);
    ReadsAt(r, now);
    PlainKeys();
    forall k
      ensures Get(ContextOf(r, now), k) == if k == "comp_hash" then Some(now) else Get(ContextOf(q, value), k)
    {
      ContextSet(q, value, r, now, k);
    }
    forall k | k != "payload"
      ensures Get(EnvelopeAt(r, now), k) == Get(EnvelopeAt(q, value), k)
    {
      EnvelopeKept(q, value, r, now, k);
    }
  }

  /** The fields of a document do not depend on the place it is looked at from. */
  lemma SameDocument(p: Place, v: Value, q: Place, w: Value)
    requires LastPlace(p) && LastPlace(q) && DocAt(p, v) == DocAt(q, w)
    ensures EnvelopeAt(p, v) == EnvelopeAt(q, w) && ContextOf(p, v) == ContextOf(q, w)
  {
    hide MapOf, Unquote, Join;
    PayloadLookup(p, v);
    PayloadLookup(q, w);
  }

  /** The patch of a foreign context: the record still reads, its context names the target's
      model, a compatibility hash is null, every other field of the context and every other
      field of the record is as it was, and a second patch finds nothing to do. */
  lemma PatchSetsTheModel(p: Place, body: string, policy: Policy, h: Hash)
    requires OwnModel(p, body) && CleanContext(DocText(DocAt(p, Str(body))), policy).Patched? && OwnHash(p, policy.model, h)
    ensures CleanContext(DocText(DocAt(p, Str(body))), policy) == Patched(DocText(PatchedDoc(p, policy.model, h)))
    ensures PatchReads(DocAt(p, Str(body)), EnvelopeAt(p, Str(body)), ContextOf(p, Str(body)))
    ensures var envelope, context := PatchedEnvelope(p, policy.model, h), PatchedFields(p, policy.model, h);
      && PatchReads(PatchedDoc(p, policy.model, h), envelope, context)
      && StringOf(Get(context, "model")) == Some(policy.model)
      && (h.HashAt? ==> Get(context, "comp_hash") == Some(Lit("null")))
      && (forall k :: k != "model" && (k != "comp_hash" || h.NoHash?) ==> Get(context, k) == Get(ContextOf(p, Str(body)), k))
      && (forall k :: k != "payload" ==> Get(envelope, k) == Get(EnvelopeAt(p, Str(body)), k))
    ensures CleanContext(DocText(PatchedDoc(p, policy.model, h)), policy) == Untouched
  {
    hide Parse, Find, MapOf, Fill, LegalDoc, DocAt, ReplaceStringField, ReplaceRawField, LastPlace, ContextOf, EnvelopeAt, ModelValue, CleanContext, FieldsOf, OwnString, OwnLiteral, NulledAt, PatchReads, DocText;
    var was, now := DocAt(p, Str(body)), PatchedDoc(p, policy.model, h);
    ModelStep(p, body, policy.model);
    match h
    case NoHash =>
      NoHashText(DocText(DocAt(p, ModelValue(policy.model))));
      WholePatch(was, now, EnvelopeAt(p, Str(body)), ContextOf(p, Str(body)), EnvelopeAt(p, ModelValue(policy.model)), ContextOf(p, ModelValue(policy.model)), policy);
    case HashAt(q, value) =>
      var r := NulledAt(q, value);
      SameDocument(p, ModelValue(policy.model), q, value);
      assert q.inner.key == "comp_hash" by { hide *; OwnKey(q, value); }
      HashStep(q, value);
      WholePatch(was, now, EnvelopeAt(p, Str(body)), ContextOf(p, Str(body)), EnvelopeAt(r, Lit("null")), ContextOf(r, Lit("null")), policy);
  }

  lemma OwnKey(q: Place, value: Value)
    requires match value case Str(hash) => OwnString(q, "comp_hash", hash) case Lit(raw) => OwnLiteral(q, "comp_hash", raw) case _ => false
    ensures q.inner.key == "comp_hash"
  {
  }

  lemma NoHashText(text: string)
    requires Find(text, Quoted("comp_hash"), 0).None?
    ensures ReplaceRawField(text, "comp_hash", "null").None?
  {
    hide Find;
  }

  /** A patched text that reads as a context with the target's model needs no second patch. */
  lemma WholePatch(was: Doc, now: Doc, e: Fields, context: Fields, after: Fields, patched: Fields, policy: Policy)
    requires CleanContext(DocText(was), policy).Patched?
    requires PatchReads(was, e, context) && PatchReads(now, after, patched)
    requires PatchText(DocText(was), policy.model) == Some(DocText(now))
    requires Get(after, "type") == Get(e, "type") && StringOf(Get(patched, "model")) == Some(policy.model)
    ensures CleanContext(DocText(was), policy) == Patched(DocText(now))
    ensures CleanContext(DocText(now), policy) == Untouched
  {
    hide Parse, Find, FieldsOf, PatchText, DocText;
  }
}
