/** The provider-context patch (internal/rollout/context.go): a textual edit of one
    turn_context record, and the proof that whenever the edited line is still JSON the
    edit has kept it on its own line. */
module ContextPatch {
  import opened Wrappers
  import opened JsonText
  import opened GoJson
  import opened Sanitize
  import SanitizedRecord

  /** An empty model means that contexts are left alone. */
  datatype Policy = Policy(model: string, compatible: seq<string>, preserveOffsets: bool)

  datatype Patch = PatchError | Untouched | Patched(bytes: string)

  // ---------------------------------------------------------------- searching

  predicate OccursAt(s: string, needle: string, at: nat) {
    at + |needle| <= |s| && s[at..at + |needle|] == needle
  }

  /** The first occurrence of needle at or after from. */
  function Find(s: string, needle: string, from: nat): (at: Option<nat>)
    requires from <= |s|
    decreases |s| - from
    ensures at.Some? ==> from <= at.value && OccursAt(s, needle, at.value)
  {
    if OccursAt(s, needle, from) then Some(from)
    else if from == |s| then None
    else Find(s, needle, from + 1)
  }

  function FindByte(s: string, c: char, from: nat): (at: Option<nat>)
    requires from <= |s|
    decreases |s| - from
    ensures at.Some? ==> from <= at.value < |s| && s[at.value] == c
  {
    if from == |s| then None
    else if s[from] == c then Some(from)
    else FindByte(s, c, from + 1)
  }

  function SkipBlanks(s: string, from: nat): (to: nat)
    requires from <= |s|
    decreases |s| - from
    ensures from <= to <= |s| && (to == from || s[to - 1] == ' ' || s[to - 1] == '\t')
  {
    if from < |s| && (s[from] == ' ' || s[from] == '\t') then SkipBlanks(s, from + 1) else from
  }

  /** The first quote at or after from whose preceding byte is no backslash, or the end. */
  function StringEnd(s: string, from: nat): (to: nat)
    requires 0 < from <= |s|
    decreases |s| - from
    ensures from <= to <= |s| && (to < |s| ==> s[to] == '\"')
  {
    if from == |s| then |s|
    else if s[from] == '\"' && s[from - 1] != '\\' then from
    else StringEnd(s, from + 1)
  }

  function BareEnd(s: string, from: nat): (to: nat)
    requires from <= |s|
    decreases |s| - from
    ensures from <= to <= |s| && '\n' !in s[from..to]
  {
    if from == |s| || s[from] == ',' || s[from] == '}' || s[from] == '\n' then
      assert s[from..from] == "";
      from
    else
      var to := BareEnd(s, from + 1);
      assert s[from..to] == [s[from]] + s[from + 1..to];
      to
  }

  /** A key with its quotes. */
  function Quoted(key: string): (needle: string)
    ensures |needle| == |key| + 2
  {
    "\"" + key + "\""
  }

  /** The first colon after the first occurrence of the quoted key. */
  function ColonAfter(line: string, key: string): (colon: Option<nat>)
    ensures colon.Some? ==> colon.value < |line|
  {
    match Find(line, Quoted(key), 0)
    case None => None
    case Some(at) => FindByte(line, ':', at + |Quoted(key)|)
  }

  /** Where the value after the first occurrence of the quoted key starts. */
  function ValueStart(line: string, key: string): (start: Option<nat>)
    ensures start.Some? ==> 0 < start.value <= |line|
  {
    match ColonAfter(line, key)
    case None => None
    case Some(colon) => Some(SkipBlanks(line, colon + 1))
  }

  /** A value comes after a colon and blanks. */
  lemma StartAfterColon(line: string, key: string)
    requires ValueStart(line, key).Some?
    ensures var start := ValueStart(line, key).value; ':' in line[..start] && line[start - 1] != '\n'
  {
    hide Find, FindByte, SkipBlanks, Quoted;
    var at := Find(line, Quoted(key), 0).value;
    var colon := FindByte(line, ':', at + |Quoted(key)|).value;
    var start := SkipBlanks(line, colon + 1);
    assert line[..start][colon] == ':';
  }

  // ---------------------------------------------------------------- the two replacements

  /** A string as json.Marshal writes it: the key spelling, with the HTML characters escaped. */
  function MarshalString(value: string): string { "\"" + EscapeHtml(Quote(value)) + "\"" }

  function EscapeHtml(b: string): string {
    if b == "" then ""
    else (if b[0] == '<' then "\\u003c" else if b[0] == '>' then "\\u003e" else if b[0] == '&' then "\\u0026" else [b[0]])
         + EscapeHtml(b[1..])
  }

  function ReplaceStringField(line: string, key: string, value: string): Option<string> {
    match ValueStart(line, key)
    case None => None
    case Some(start) =>
      if start == |line| || line[start] != '\"' then None
      else
        var end := StringEnd(line, start + 1);
        if end == |line| then None
        else Some(line[..start] + MarshalString(value) + line[end + 1..])
  }

  function RawEnd(line: string, start: nat): (end: nat)
    requires start <= |line|
    ensures start <= end <= |line|
  {
    if start < |line| && line[start] == '\"' then
      var end := StringEnd(line, start + 1);
      if end < |line| then end + 1 else end
    else BareEnd(line, start)
  }

  function ReplaceRawField(line: string, key: string, value: string): Option<string> {
    match ValueStart(line, key)
    case None => None
    case Some(start) => Some(line[..start] + value + line[RawEnd(line, start)..])
  }

  function PatchText(line: string, model: string): Option<string> {
    match ReplaceStringField(line, "model", model)
    case None => None
    case Some(text) =>
      match ReplaceRawField(text, "comp_hash", "null")
      case None => Some(text)
      case Some(again) => Some(again)
  }

  /** Whether a context names a model that the target provider cannot continue with. */
  predicate ForeignModel(context: Fields, p: Policy) {
    var model := StringOf(Get(context, "model"));
    model.Some? && model.value != "" && model.value != p.model && model.value !in p.compatible
  }

  function CleanContext(line: string, p: Policy): Patch {
    if p.model == "" || Find(line, "turn_context", 0).None? then Untouched
    else match Parse(line)
      case Bad => PatchError
      case Got(doc, _) =>
        match FieldsOf(Some(doc.value))
        case None => PatchError
        case Some(envelope) =>
          if StringOf(Get(envelope, "type")) != Some("turn_context") then Untouched
          else match FieldsOf(Get(envelope, "payload"))
            case None => PatchError
            case Some(context) =>
              if !ForeignModel(context, p) then Untouched
              else match PatchText(line, p.model)
                case None => PatchError
                case Some(bytes) => Patched(bytes)
  }

  // ---------------------------------------------------------------- plain strings

  /** Lower-case letters, digits and underscores, which are written as they are. */
  predicate Plain(k: string) { forall c <- k :: c == '_' || 'a' <= c <= 'z' || '0' <= c <= '9' }

  lemma {:induction false} PlainQuote(k: string)
    requires Plain(k)
    ensures Quote(k) == k
  {
    hide Quote;
    if k == "" {
      assert Quote("") == "" by { QuoteEmpty(); }
    } else {
      assert k[0] in k;
      assert forall c <- k[1..] :: c in k;
      PlainQuote(k[1..]);
      QuoteStep(k);
      assert k == [k[0]] + k[1..];
    }
  }

  lemma QuoteEmpty()
    ensures Quote("") == ""
  {
  }

  lemma {:induction false} PlainEscape(b: string)
    requires '<' !in b && '>' !in b && '&' !in b
    ensures EscapeHtml(b) == b
  {
    if b != "" {
      assert b[0] in b;
      PlainEscape(b[1..]);
      assert b == [b[0]] + b[1..];
    }
  }

  lemma MarshalPlain(k: string)
    requires Plain(k)
    ensures MarshalString(k) == ['\"'] + (k + ['\"'])
  {
    PlainQuote(k);
    PlainEscape(k);
    hide Quote, EscapeHtml;
  }

  // ---------------------------------------------------------------- the patch stays on its line

  predicate OneLine(line: string) { '\n' !in TrimNewline(line) }

  lemma {:induction false} EscapedOneLine(b: string)
    requires '\n' !in b
    ensures '\n' !in EscapeHtml(b)
  {
    if b != "" {
      assert b == [b[0]] + b[1..];
      EscapedOneLine(b[1..]);
    }
  }

  lemma MarshalOneLine(value: string)
    ensures '\n' !in MarshalString(value)
  {
    QuoteReadsBack(value);
    BodyOneLine(Quote(value));
    EscapedOneLine(Quote(value));
    hide Quote, EscapeHtml, LegalBody, Unquote;
  }

  /** Replacing a stretch without newlines by text without newlines, before the end of the line. */
  lemma SpliceOneLine(line: string, start: nat, text: string, end: nat)
    requires OneLine(line) && start <= end <= |line| && '\n' !in text && '\n' !in line[start..end]
    requires EndsInNewline(line) ==> end < |line|
    ensures var out := line[..start] + text + line[end..];
      OneLine(out) && EndsInNewline(out) == EndsInNewline(line)
  {
    var out := line[..start] + text + line[end..];
    var body := TrimNewline(line);
    if EndsInNewline(line) {
      assert out[|out| - 1] == line[|line| - 1];
      assert line[end..] == body[end..] + "\n";
      assert TrimNewline(out) == line[..start] + text + body[end..];
      assert line[..start] == body[..start];
    } else {
      assert body == line;
      assert '\n' !in out;
      assert TrimNewline(out) == out;
    }
  }

  lemma StretchOneLine(line: string, start: nat, end: nat)
    requires OneLine(line) && start <= end <= |line| && (EndsInNewline(line) ==> end < |line|)
    ensures '\n' !in line[start..end]
  {
    var body := TrimNewline(line);
    forall k | 0 <= k < end - start
      ensures line[start..end][k] != '\n'
    {
      assert body[start + k] == line[start + k];
      assert body[start + k] in body;
    }
  }

  lemma ReplaceStringOneLine(line: string, key: string, value: string)
    requires OneLine(line) && ReplaceStringField(line, key, value).Some?
    ensures var out := ReplaceStringField(line, key, value).value;
      OneLine(out) && EndsInNewline(out) == EndsInNewline(line)
  {
    hide ValueStart, MarshalString, OneLine;
    var start := ValueStart(line, key).value;
    var end := StringEnd(line, start + 1);
    hide StringEnd;
    MarshalOneLine(value);
    StretchOneLine(line, start, end + 1);
    SpliceOneLine(line, start, MarshalString(value), end + 1);
  }

  /** The last byte of a value tells what it is. */
  lemma {:induction false} LastByte(v: Value, rest: string)
    requires Legal(v) && Text(v) != ""
    ensures Text(v)[|Text(v)| - 1] == 'l' ==> v == Lit("null")
    decreases v
  {
    hide LegalBody, LegalElems, LegalMembers, IsNumber, PutElems, PutMembers;
    match v
    case Lit(raw) => assert raw + "" == raw;
    case Str(body) => assert Text(v) == (['\"'] + body) + ['\"'];
    case Arr(gap, elems) =>
      if elems.NoElems? {
        assert Text(v) == (['['] + gap) + [']'];
      } else {
        ElemsEnd(elems);
      }
    case Obj(gap, members) =>
      if members.NoMembers? {
        assert Text(v) == (['{'] + gap) + ['}'];
      } else {
        MembersEnd(members);
      }
  }

  lemma ElemsEnd(es: Elems)
    requires es.Elem?
    ensures var t := PutElems(es, ""); t != "" && t[|t| - 1] == ']'
  {
    if es.rest.Elem? { ElemsEnd(es.rest); }
    var tail := if es.rest.NoElems? then [']'] + "" else [','] + PutElems(es.rest, "");
    SanitizedRecord.PutAppend(es.value, "", es.after + tail);
    assert "" + (es.after + tail) == es.after + tail;
  }

  lemma MembersEnd(ms: Members)
    requires ms.Member?
    ensures var t := PutMembers(ms, ""); t != "" && t[|t| - 1] == '}'
  {
    if ms.rest.Member? { MembersEnd(ms.rest); }
    var tail := if ms.rest.NoMembers? then ['}'] + "" else [','] + PutMembers(ms.rest, "");
    SanitizedRecord.PutAppend(ms.value, "", ms.after + tail);
    assert "" + (ms.after + tail) == ms.after + tail;
    hide Put;
  }

  /** A JSON text that ends in the letters of null is nothing but null. */
  lemma EndsInNull(front: string)
    requires Parse(front + "null").Got?
    ensures AllWs(front)
  {
    hide Parse, Put, Legal, AllWs, IsWs;
    var s := front + "null";
    ParseSound(s);
    var d := Parse(s).value;
    SanitizedRecord.PutAppend(d.value, "", d.after);
    assert "" + d.after == d.after;
    FirstByte(d.value, "");
    LastByte(d.value, "");
    NullText();
    DocEnd(front, d.before, Text(d.value), d.after);
  }

  lemma DocEnd(front: string, before: string, text: string, after: string)
    requires front + "null" == before + (text + after) && AllWs(before) && AllWs(after) && text != ""
    requires text[|text| - 1] == 'l' ==> text == "null"
    ensures front == before
  {
    var s := front + "null";
    assert s[|s| - 1] == 'l';
    assert after == "";
    assert text + after == text;
    assert s[|s| - 1] == text[|text| - 1];
    assert front == s[..|s| - 4] == before;
  }

  lemma NullText()
    ensures Text(Lit("null")) == "null"
  {
    assert "null" + "" == "null";
  }

  lemma ReplaceRawOneLine(line: string, key: string)
    requires OneLine(line) && ReplaceRawField(line, key, "null").Some?
    requires Parse(TrimNewline(ReplaceRawField(line, key, "null").value)).Got?
    ensures var out := ReplaceRawField(line, key, "null").value;
      OneLine(out) && EndsInNewline(out) == EndsInNewline(line)
  {
    hide ValueStart, OneLine, Parse, StringEnd, BareEnd;
    var start := ValueStart(line, key).value;
    var end := RawEnd(line, start);
    var out := line[..start] + "null" + line[end..];
    StartAfterColon(line, key);
    RawStretch(line, start);
    if end == |line| {
      EndCut(line, start);
    }
    hide RawEnd;
    SpliceOneLine(line, start, "null", end);
  }

  /** A replacement that ran to the end of the line left no JSON, so the line had no newline to lose. */
  lemma EndCut(line: string, start: nat)
    requires start <= |line| && ':' in line[..start]
    ensures Parse(TrimNewline(line[..start] + "null" + line[|line|..])).Bad?
  {
    var out := line[..start] + "null";
    assert out + line[|line|..] == out;
    assert out[|out| - 1] == 'l';
    if Parse(out).Got? {
      EndsInNull(line[..start]);
    }
  }

  /** What the raw replacement removes has no newline unless it runs to the end of the line. */
  lemma RawStretch(line: string, start: nat)
    requires OneLine(line) && 0 < start <= |line| && line[start - 1] != '\n'
    ensures var end := RawEnd(line, start);
      end < |line| ==> '\n' !in line[start..end]
  {
    var end := RawEnd(line, start);
    hide StringEnd, OneLine;
    if end < |line| {
      StretchOneLine(line, start, end);
    }
  }
}
