/** JSON text (RFC 8259) as a concrete syntax tree that keeps every byte: the
    whitespace, the raw spelling of strings and numbers, the order of the members
    and repeated keys.  A byte is modelled by the character with its code.

    Text renders a tree, Parse reads one, and the two are inverse on legal trees,
    so every later statement about a tree is a statement about bytes. */
module JsonText {

  datatype Value =
    | Lit(raw: string)                        // null, true, false or a number
    | Str(body: string)                       // the raw text between the quotes
    | Arr(gap: string, elems: Elems)          // gap: the whitespace of an empty array
    | Obj(gap: string, members: Members)

  datatype Elems =
    | NoElems
    | Elem(before: string, value: Value, after: string, rest: Elems)

  datatype Members =
    | NoMembers
    | Member(before: string, key: string, mid: string, lead: string, value: Value, after: string, rest: Members)

  /** A whole text: a value between optional whitespace. */
  datatype Doc = Doc(before: string, value: Value, after: string)

  // ---------------------------------------------------------------- text

  /** The text of v followed by rest.  Carrying the rest along keeps every
      concatenation nested to the right, so no proof has to re-associate one. */
  function Put(v: Value, rest: string): string {
    match v
    case Lit(raw) => raw + rest
    case Str(body) => ['\"'] + (body + (['\"'] + rest))
    case Arr(gap, elems) => ['['] + (if elems.NoElems? then gap + ([']'] + rest) else PutElems(elems, rest))
    case Obj(gap, members) => ['{'] + (if members.NoMembers? then gap + (['}'] + rest) else PutMembers(members, rest))
  }

  /** The elements and the closing bracket, followed by rest. */
  function PutElems(es: Elems, rest: string): string {
    match es
    case NoElems => [']'] + rest
    case Elem(before, value, after, more) =>
      before + Put(value, after + (if more.NoElems? then [']'] + rest else [','] + PutElems(more, rest)))
  }

  /** The members and the closing brace, followed by rest. */
  function PutMembers(ms: Members, rest: string): string {
    match ms
    case NoMembers => ['}'] + rest
    case Member(before, key, mid, lead, value, after, more) =>
      before + (['\"'] + (key + (['\"'] + (mid + ([':'] + (lead +
      Put(value, after + (if more.NoMembers? then ['}'] + rest else [','] + PutMembers(more, rest)))))))))
  }

  function Text(v: Value): string { Put(v, "") }

  function DocText(d: Doc): string { d.before + Put(d.value, d.after) }

  // ---------------------------------------------------------------- legality

  predicate IsWs(c: char) { c == ' ' || c == '\t' || c == '\r' || c == '\n' }

  predicate AllWs(s: string) { forall i :: 0 <= i < |s| ==> IsWs(s[i]) }

  predicate IsDigit(c: char) { '0' <= c <= '9' }

  predicate IsHex(c: char) { IsDigit(c) || 'a' <= c <= 'f' || 'A' <= c <= 'F' }

  predicate NumberChar(c: char) { IsDigit(c) || c == '+' || c == '-' || c == '.' || c == 'e' || c == 'E' }

  /** The text of a string body: no raw quote, no control character, and only the escapes of section 7. */
  predicate LegalBody(b: string) {
    b == "" || (UnitLength(b) != 0 && LegalBody(b[UnitLength(b)..]))
  }

  /** The length of the first character or escape of a string body; zero if there is none. */
  function UnitLength(b: string): (n: nat)
    ensures n <= |b|
  {
    if b == "" || b[0] == '\"' || b[0] < ' ' then 0
    else if b[0] != '\\' then 1
    else if |b| < 2 then 0
    else if b[1] in "\"\\/bfnrt" then 2
    else if b[1] == 'u' && |b| >= 6 && IsHex(b[2]) && IsHex(b[3]) && IsHex(b[4]) && IsHex(b[5]) then 6
    else 0
  }

  predicate AllDigits(s: string) { forall c <- s :: IsDigit(c) }

  function Digits(s: string): (n: nat)
    ensures n <= |s|
  {
    if s != "" && IsDigit(s[0]) then 1 + Digits(s[1..]) else 0
  }

  /** number = [ "-" ] int [ frac ] [ exp ] */
  predicate IsNumber(s: string) {
    var t := if s != "" && s[0] == '-' then s[1..] else s;
    var n := Digits(t);
    n > 0 && (n == 1 || t[0] != '0') && FractionThenExponent(t[n..])
  }

  predicate FractionThenExponent(s: string) {
    if s != "" && s[0] == '.' then
      var n := Digits(s[1..]);
      n > 0 && Exponent(s[1 + n..])
    else Exponent(s)
  }

  predicate Exponent(s: string) {
    s == "" ||
    ((s[0] == 'e' || s[0] == 'E') &&
     var t := if |s| > 1 && (s[1] == '+' || s[1] == '-') then s[2..] else s[1..];
     t != "" && Digits(t) == |t|)
  }

  predicate IsWord(s: string) { s == "null" || s == "true" || s == "false" }

  predicate NumberToken(s: string) {
    s != "" && (s[0] == '-' || IsDigit(s[0])) && (forall i :: 0 <= i < |s| ==> NumberChar(s[i])) && IsNumber(s)
  }

  predicate Legal(v: Value) {
    match v
    case Lit(raw) => IsWord(raw) || NumberToken(raw)
    case Str(body) => LegalBody(body)
    case Arr(gap, elems) => AllWs(gap) && (elems.Elem? ==> gap == "") && LegalElems(elems)
    case Obj(gap, members) => AllWs(gap) && (members.Member? ==> gap == "") && LegalMembers(members)
  }

  predicate LegalElems(es: Elems) {
    match es
    case NoElems => true
    case Elem(before, value, after, rest) => AllWs(before) && Legal(value) && AllWs(after) && LegalElems(rest)
  }

  predicate LegalMembers(ms: Members) {
    match ms
    case NoMembers => true
    case Member(before, key, mid, lead, value, after, rest) =>
      AllWs(before) && LegalBody(key) && AllWs(mid) && AllWs(lead) && Legal(value) && AllWs(after) && LegalMembers(rest)
  }

  predicate LegalDoc(d: Doc) { AllWs(d.before) && Legal(d.value) && AllWs(d.after) }

  // ---------------------------------------------------------------- parsing

  datatype Parsed<+T> = Bad | Got(value: T, rest: string)

  /** The leading whitespace of s. */
  function Ws(s: string): (w: string)
    ensures AllWs(w) && |w| <= |s| && w + s[|w|..] == s
    ensures s[|w|..] == "" || !IsWs(s[|w|])
  {
    if s != "" && IsWs(s[0]) then
      var w := Ws(s[1..]);
      assert ([s[0]] + w)[1..] == w && s[1..][|w|..] == s[1 + |w|..];
      [s[0]] + w
    else ""
  }

  /** The leading number characters of s. */
  function NumberRun(s: string): (n: string)
    ensures |n| <= |s| && n + s[|n|..] == s
    ensures forall i :: 0 <= i < |n| ==> NumberChar(n[i])
    ensures s[|n|..] == "" || !NumberChar(s[|n|])
  {
    if s != "" && NumberChar(s[0]) then
      var n := NumberRun(s[1..]);
      assert s[1..][|n|..] == s[1 + |n|..];
      [s[0]] + n
    else ""
  }

  /** Reads a string body and the closing quote. */
  function ParseBody(s: string): (p: Parsed<string>)
    ensures p.Got? ==> |p.rest| < |s|
  {
    if s == "" then Bad
    else if s[0] == '\"' then Got("", s[1..])
    else
      var n := UnitLength(s);
      if n == 0 then Bad
      else match ParseBody(s[n..])
        case Bad => Bad
        case Got(body, rest) => Got(s[..n] + body, rest)
  }

  function ParseValue(s: string): (p: Parsed<Value>)
    decreases |s|, 0
    ensures p.Got? ==> |p.rest| < |s|
  {
    if s == "" then Bad
    else if s[0] == '\"' then
      match ParseBody(s[1..])
      case Bad => Bad
      case Got(body, rest) => Got(Str(body), rest)
    else if s[0] == '[' then
      var gap := Ws(s[1..]);
      var after := s[1..][|gap|..];
      if after != "" && after[0] == ']' then Got(Arr(gap, NoElems), after[1..])
      else match ParseElems(s[1..])
        case Bad => Bad
        case Got(es, rest) => Got(Arr("", es), rest)
    else if s[0] == '{' then
      var gap := Ws(s[1..]);
      var after := s[1..][|gap|..];
      if after != "" && after[0] == '}' then Got(Obj(gap, NoMembers), after[1..])
      else match ParseMembers(s[1..])
        case Bad => Bad
        case Got(ms, rest) => Got(Obj("", ms), rest)
    else ParseLit(s)
  }

  function ParseLit(s: string): (p: Parsed<Value>)
    requires s != ""
    ensures p.Got? ==> |p.rest| < |s|
  {
    if s[0] == '-' || IsDigit(s[0]) then
      var run := NumberRun(s);
      if run != "" && IsNumber(run) then Got(Lit(run), s[|run|..]) else Bad
    else if "null" <= s then Got(Lit("null"), s[4..])
    else if "true" <= s then Got(Lit("true"), s[4..])
    else if "false" <= s then Got(Lit("false"), s[5..])
    else Bad
  }

  /** Reads one or more elements and the closing bracket. */
  function ParseElems(s: string): (p: Parsed<Elems>)
    decreases |s|, 1
    ensures p.Got? ==> |p.rest| < |s|
  {
    var before := Ws(s);
    match ParseValue(s[|before|..])
    case Bad => Bad
    case Got(value, r) =>
      var after := Ws(r);
      var t := r[|after|..];
      if t == "" then Bad
      else if t[0] == ']' then Got(Elem(before, value, after, NoElems), t[1..])
      else if t[0] != ',' then Bad
      else match ParseElems(t[1..])
        case Bad => Bad
        case Got(more, u) => Got(Elem(before, value, after, more), u)
  }

  /** Reads one or more members and the closing brace. */
  function ParseMembers(s: string): (p: Parsed<Members>)
    decreases |s|, 1
    ensures p.Got? ==> |p.rest| < |s|
  {
    var before := Ws(s);
    match ParseKey(s[|before|..])
    case Bad => Bad
    case Got((key, mid, lead), v) =>
      match ParseValue(v)
      case Bad => Bad
      case Got(value, r) =>
        var after := Ws(r);
        var t := r[|after|..];
        if t == "" then Bad
        else if t[0] == '}' then Got(Member(before, key, mid, lead, value, after, NoMembers), t[1..])
        else if t[0] != ',' then Bad
        else match ParseMembers(t[1..])
          case Bad => Bad
          case Got(more, u) => Got(Member(before, key, mid, lead, value, after, more), u)
  }

  /** Reads a key, the colon and the whitespace around it. */
  function ParseKey(q: string): (p: Parsed<(string, string, string)>)
    ensures p.Got? ==> |p.rest| < |q|
  {
    if q == "" || q[0] != '\"' then Bad
    else match ParseBody(q[1..])
      case Bad => Bad
      case Got(key, k) =>
        var mid := Ws(k);
        var c := k[|mid|..];
        if c == "" || c[0] != ':' then Bad
        else
          var lead := Ws(c[1..]);
          Got((key, mid, lead), c[1..][|lead|..])
  }

  /** A whole text, as encoding/json accepts one: a value, with nothing but whitespace around it. */
  function Parse(s: string): (p: Parsed<Doc>) {
    var before := Ws(s);
    match ParseValue(s[|before|..])
    case Bad => Bad
    case Got(value, r) => if Ws(r) == r then Got(Doc(before, value, r), "") else Bad
  }

  // ---------------------------------------------------------------- what is read is what was there

  /** The first unit of a body does not depend on what follows it. */
  lemma UnitLengthLocal(unit: string, a: string, b: string)
    requires |unit| == UnitLength(unit + a) != 0
    ensures UnitLength(unit + b) == |unit|
  {
    var s, t := unit + a, unit + b;
    assert forall i :: 0 <= i < |unit| ==> s[i] == t[i] == unit[i];
  }

  lemma {:induction false} ParseBodySound(s: string)
    requires ParseBody(s).Got?
    ensures LegalBody(ParseBody(s).value)
    ensures s == ParseBody(s).value + (['\"'] + ParseBody(s).rest)
  {
    hide UnitLength;
    if s[0] == '\"' {
      assert s == [] + (['\"'] + s[1..]);
    } else {
      var n := UnitLength(s);
      ParseBodySound(s[n..]);
      var Got(body, rest) := ParseBody(s[n..]);
      assert s == s[..n] + s[n..];
      ExtendBody(s[..n], s[n..], body, rest);
    }
  }

  lemma ExtendBody(unit: string, t: string, body: string, rest: string)
    requires |unit| == UnitLength(unit + t) != 0
    requires LegalBody(body)
    requires t == body + (['\"'] + rest)
    ensures LegalBody(unit + body) && unit + t == unit + body + (['\"'] + rest)
  {
    UnitLengthLocal(unit, t, body);
    hide UnitLength;
    assert (unit + body)[|unit|..] == body;
  }

  lemma {:induction false} ParseValueSound(s: string)
    requires ParseValue(s).Got?
    decreases |s|, 0
    ensures Legal(ParseValue(s).value)
    ensures s == Put(ParseValue(s).value, ParseValue(s).rest)
  {
    hide ParseBody, ParseElems, ParseMembers, LegalBody, ParseLit, PutElems, PutMembers, LegalElems, LegalMembers, AllWs, IsWs, Ws, NumberToken;
    assert s == [s[0]] + s[1..];
    if s[0] == '\"' {
      ParseBodySound(s[1..]);
    } else if s[0] == '[' {
      var gap := Ws(s[1..]);
      var after := s[1..][|gap|..];
      EmptyLegal();
      if after != "" && after[0] == ']' {
        assert after == [']'] + after[1..];
      } else {
        ParseElemsSound(s[1..]);
      }
    } else if s[0] == '{' {
      var gap := Ws(s[1..]);
      var after := s[1..][|gap|..];
      EmptyLegal();
      if after != "" && after[0] == '}' {
        assert after == ['}'] + after[1..];
      } else {
        ParseMembersSound(s[1..]);
      }
    } else {
      ParseLitSound(s);
    }
  }

  lemma ParseLitSound(s: string)
    requires s != "" && ParseLit(s).Got?
    ensures ParseLit(s).value.Lit? && Legal(ParseLit(s).value)
    ensures s == ParseLit(s).value.raw + ParseLit(s).rest
  {
    hide IsNumber, NumberRun;
    if s[0] == '-' || IsDigit(s[0]) {
      var run := NumberRun(s);
    } else {
      var n := if s[0] == 'f' then 5 else 4;
      assert s == s[..n] + s[n..];
    }
  }

  lemma EmptyLegal()
    ensures LegalElems(NoElems) && LegalMembers(NoMembers) && AllWs("")
  {
  }

  lemma {:induction false} ParseElemsSound(s: string)
    requires ParseElems(s).Got?
    decreases |s|, 1
    ensures ParseElems(s).value.Elem? && LegalElems(ParseElems(s).value)
    ensures s == PutElems(ParseElems(s).value, ParseElems(s).rest)
  {
    hide ParseBody, LegalBody, UnitLength, NumberRun, Put, ParseValue, Legal, AllWs, Ws;
    var before := Ws(s);
    ParseValueSound(s[|before|..]);
    var Got(value, r) := ParseValue(s[|before|..]);
    var after := Ws(r);
    var t := r[|after|..];
    assert t == [t[0]] + t[1..];
    if t[0] == ',' {
      ParseElemsSound(t[1..]);
    }
  }

  lemma ParseKeySound(q: string)
    requires ParseKey(q).Got?
    ensures var Got((key, mid, lead), rest) := ParseKey(q);
      LegalBody(key) && AllWs(mid) && AllWs(lead) &&
      q == ['\"'] + (key + (['\"'] + (mid + ([':'] + (lead + rest)))))
  {
    hide ParseBody, LegalBody, UnitLength;
    ParseBodySound(q[1..]);
    var Got(key, k) := ParseBody(q[1..]);
    var mid := Ws(k);
    var c := k[|mid|..];
    assert k == mid + c;
    assert c == [':'] + c[1..];
    assert q == ['\"'] + q[1..];
  }

  lemma {:induction false} ParseMembersSound(s: string)
    requires ParseMembers(s).Got?
    decreases |s|, 1
    ensures ParseMembers(s).value.Member? && LegalMembers(ParseMembers(s).value)
    ensures s == PutMembers(ParseMembers(s).value, ParseMembers(s).rest)
  {
    hide ParseBody, ParseKey, LegalBody, UnitLength, NumberRun, Put, ParseValue, Legal, AllWs;
    var before := Ws(s);
    ParseKeySound(s[|before|..]);
    var Got((key, mid, lead), v) := ParseKey(s[|before|..]);
    ParseValueSound(v);
    var Got(value, r) := ParseValue(v);
    var after := Ws(r);
    var t := r[|after|..];
    assert t == [t[0]] + t[1..];
    if t[0] == ',' {
      ParseMembersSound(t[1..]);
    }
  }

  /** Reading loses nothing: the tree renders to exactly the bytes that were read. */
  lemma ParseSound(s: string)
    requires Parse(s).Got?
    ensures LegalDoc(Parse(s).value) && DocText(Parse(s).value) == s
  {
    hide ParseValue, Put, Legal;
    ParseValueSound(s[|Ws(s)|..]);
  }

  // ---------------------------------------------------------------- what is rendered is read back

  /** A number ends before rest: nothing there continues it. */
  predicate Stops(rest: string) { rest == "" || !NumberChar(rest[0]) }

  predicate StartsDark(r: string) { r == "" || !IsWs(r[0]) }

  lemma WsUnique(w: string, r: string)
    requires AllWs(w) && StartsDark(r)
    ensures Ws(w + r) == w && (w + r)[|w|..] == r
  {
    var s := w + r;
    var x := Ws(s);
    assert s[|w|..] == r;
    assert forall i :: 0 <= i < |w| ==> s[i] == w[i];
    assert forall i :: 0 <= i < |x| ==> s[i] == x[i];
    assert |w| < |s| ==> s[|w|] == r[0];
    assert |x| == |w|;
    assert x == s[..|x|] && w == s[..|w|];
  }

  lemma NumberRunUnique(n: string, r: string)
    requires (forall i :: 0 <= i < |n| ==> NumberChar(n[i])) && Stops(r)
    ensures NumberRun(n + r) == n && (n + r)[|n|..] == r
  {
    var s := n + r;
    var x := NumberRun(s);
    assert s[|n|..] == r;
    assert forall i :: 0 <= i < |n| ==> s[i] == n[i];
    assert forall i :: 0 <= i < |x| ==> s[i] == x[i];
    assert |n| < |s| ==> s[|n|] == r[0];
    assert |x| == |n|;
    assert x == s[..|x|] && n == s[..|n|];
  }

  lemma {:induction false} BodyParses(b: string, rest: string)
    requires LegalBody(b)
    ensures ParseBody(b + (['\"'] + rest)) == Got(b, rest)
  {
    if b == "" {
      assert b + (['\"'] + rest) == ['\"'] + rest;
    } else {
      var n := UnitLength(b);
      FirstUnit(b, ['\"'] + rest);
      hide UnitLength;
      BodyParses(b[n..], rest);
      SkipUnit(b, n, ['\"'] + rest);
    }
  }

  lemma SkipUnit(b: string, n: nat, r: string)
    requires n <= |b|
    ensures (b + r)[n..] == b[n..] + r && (b + r)[..n] == b[..n] && b[..n] + b[n..] == b
  {
  }

  lemma FirstUnit(b: string, r: string)
    requires UnitLength(b) != 0
    ensures UnitLength(b + r) == UnitLength(b) && (b + r)[0] == b[0] != '\"'
  {
    var n := UnitLength(b);
    UnitLengthLocal(b[..n], b[n..], b[n..] + r) by {
      assert b[..n] + b[n..] == b;
    }
    assert b[..n] + (b[n..] + r) == b + r;
  }

  /** The first byte of a value is neither whitespace nor a closing bracket. */
  lemma FirstByte(v: Value, rest: string)
    requires Legal(v)
    ensures Put(v, rest) != "" && Put(v, rest)[0] == Text(v)[0]
    ensures !IsWs(Put(v, rest)[0]) && Put(v, rest)[0] !in "]},:"
    ensures Put(v, rest)[0] == '\"' <==> v.Str?
    ensures Put(v, rest)[0] == '[' <==> v.Arr?
    ensures Put(v, rest)[0] == '{' <==> v.Obj?
  {
    hide PutElems, PutMembers, LegalElems, LegalMembers, LegalBody, IsNumber;
    match v
    case Lit(raw) => assert (raw + rest)[0] == raw[0];
    case _ =>
  }

  lemma {:induction false} ValueParses(v: Value, rest: string)
    requires Legal(v) && Stops(rest)
    ensures ParseValue(Put(v, rest)) == Got(v, rest)
    decreases v, 1
  {
    FirstByte(v, rest);
    hide ParseBody, LegalBody, ParseElems, ParseMembers, ParseLit, PutElems, PutMembers, LegalElems, LegalMembers;
    var s := Put(v, rest);
    match v
    case Lit(raw) => LitParses(raw, rest);
    case Str(body) =>
      BodyParses(body, rest);
      assert s[1..] == body + (['\"'] + rest);
    case Arr(gap, elems) =>
      if elems.NoElems? {
        assert s[1..] == gap + ([']'] + rest);
        WsUnique(gap, [']'] + rest);
      } else {
        assert s[1..] == PutElems(elems, rest);
        ElemsParse(elems, rest);
      }
    case Obj(gap, members) =>
      if members.NoMembers? {
        assert s[1..] == gap + (['}'] + rest);
        WsUnique(gap, ['}'] + rest);
      } else {
        assert s[1..] == PutMembers(members, rest);
        MembersParse(members, rest);
      }
  }

  lemma LitParses(raw: string, rest: string)
    requires (IsWord(raw) || NumberToken(raw)) && Stops(rest)
    ensures raw != "" && ParseLit(raw + rest) == Got(Lit(raw), rest)
  {
    hide IsNumber, NumberRun;
    assert (raw + rest)[0] == raw[0];
    if NumberToken(raw) && !IsWord(raw) {
      NumberRunUnique(raw, rest);
    } else {
      assert (raw + rest)[..|raw|] == raw && (raw + rest)[|raw|..] == rest;
      assert raw <= raw + rest;
    }
  }

  lemma {:induction false} ElemsParse(es: Elems, rest: string)
    requires es.Elem? && LegalElems(es)
    ensures ParseElems(PutElems(es, rest)) == Got(es, rest)
    ensures var s := PutElems(es, rest); s[|Ws(s)|..] != "" && s[|Ws(s)|] != ']'
    decreases es, 0
  {
    hide Legal, Put, ParseValue, NumberChar;
    var Elem(before, value, after, more) := es;
    var tail := if more.NoElems? then [']'] + rest else [','] + PutElems(more, rest);
    assert Stops(after + tail) by { BracketStops(after, tail); }
    ValueParses(value, after + tail);
    FirstByte(value, after + tail);
    WsUnique(before, Put(value, after + tail));
    WsUnique(after, tail);
    if more.Elem? {
      ElemsParse(more, rest);
      assert tail[1..] == PutElems(more, rest);
    }
  }

  lemma BracketStops(after: string, tail: string)
    requires AllWs(after) && tail != "" && tail[0] in "]},"
    ensures Stops(after + tail) && StartsDark(tail)
  {
    assert (after + tail)[0] == if after == "" then tail[0] else after[0];
  }

  lemma {:induction false} MembersParse(ms: Members, rest: string)
    requires ms.Member? && LegalMembers(ms)
    ensures ParseMembers(PutMembers(ms, rest)) == Got(ms, rest)
    ensures var s := PutMembers(ms, rest); s[|Ws(s)|..] != "" && s[|Ws(s)|] != '}'
    decreases ms, 0
  {
    hide Legal, Put, ParseValue, ParseKey, NumberChar, LegalBody, AllWs;
    var Member(before, key, mid, lead, value, after, more) := ms;
    var tail := if more.NoMembers? then ['}'] + rest else [','] + PutMembers(more, rest);
    assert Stops(after + tail) by { BracketStops(after, tail); }
    BracketStops(after, tail);
    ValueParses(value, after + tail);
    FirstByte(value, after + tail);
    var v := Put(value, after + tail);
    KeyParses(key, mid, lead, v);
    var q := ['\"'] + (key + (['\"'] + (mid + ([':'] + (lead + v)))));
    assert q[0] == '\"';
    WsUnique(before, q);
    WsUnique(after, tail);
    if more.Member? {
      MembersParse(more, rest);
      assert tail[1..] == PutMembers(more, rest);
    }
  }

  lemma KeyParses(key: string, mid: string, lead: string, v: string)
    requires LegalBody(key) && AllWs(mid) && AllWs(lead) && StartsDark(v)
    ensures ParseKey(['\"'] + (key + (['\"'] + (mid + ([':'] + (lead + v)))))) == Got((key, mid, lead), v)
  {
    hide ParseBody, LegalBody, AllWs;
    var c := [':'] + (lead + v);
    var k := mid + c;
    var q := ['\"'] + (key + (['\"'] + k));
    assert q[1..] == key + (['\"'] + k);
    BodyParses(key, k);
    WsUnique(mid, c);
    assert c[1..] == lead + v;
    WsUnique(lead, v);
  }

  /** A legal tree is the only reading of its own text. */
  lemma DocParses(d: Doc)
    requires LegalDoc(d)
    ensures Parse(DocText(d)) == Got(d, "")
  {
    hide ParseValue, Put, Legal;
    var Doc(before, value, after) := d;
    FirstByte(value, after);
    ValueParses(value, after);
    WsUnique(before, Put(value, after));
    assert after + "" == after;
    WsUnique(after, "");
  }
}
