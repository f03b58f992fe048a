/** The two ways encoding/json reads an object and the one way it writes a map.

    Reading into a map keeps the last value of each exact key.  Reading into a struct
    matches keys up to letter case and merges repeated members.  Writing a map sorts
    its keys and drops the whitespace of the values. */
module GoJson {
  import opened Wrappers
  import opened JsonText

  // ---------------------------------------------------------------- strings

  function HexValue(c: char): (n: nat)
    requires IsHex(c)
    ensures n < 16
  {
    if IsDigit(c) then c as int - '0' as int
    else if 'a' <= c <= 'f' then c as int - 'a' as int + 10
    else c as int - 'A' as int + 10
  }

  function HexDigit(n: nat): (c: char)
    requires n < 16
    ensures IsHex(c) && HexValue(c) == n
  {
    if n < 10 then ('0' as int + n) as char else ('a' as int + n - 10) as char
  }

  /** The code of a four-digit escape at the front of b. */
  function EscapeCode(b: string): (n: nat)
    requires UnitLength(b) == 6
    ensures n < 0x1_0000
  {
    HexValue(b[2]) * 4096 + HexValue(b[3]) * 256 + HexValue(b[4]) * 16 + HexValue(b[5])
  }

  function Utf8(code: nat): string
    requires code < 0x11_0000
  {
    if code < 0x80 then [code as char]
    else if code < 0x800 then [(0xC0 + code / 64) as char, (0x80 + code % 64) as char]
    else if code < 0x1_0000 then
      [(0xE0 + code / 4096) as char, (0x80 + code / 64 % 64) as char, (0x80 + code % 64) as char]
    else
      [(0xF0 + code / 262144) as char, (0x80 + code / 4096 % 64) as char,
       (0x80 + code / 64 % 64) as char, (0x80 + code % 64) as char]
  }

  function SimpleEscape(c: char): char {
    match c
    case 'b' => 8 as char
    case 'f' => 12 as char
    case 'n' => '\n'
    case 'r' => '\r'
    case 't' => '\t'
    case _ => c
  }

  /** The string a body denotes: escapes are replaced, a surrogate pair is one code, a
      lone surrogate is the replacement character. */
  function Unquote(b: string): string {
    var n := UnitLength(b);
    if n == 0 then ""
    else if n == 1 then [b[0]] + Unquote(b[1..])
    else if n == 2 then [SimpleEscape(b[1])] + Unquote(b[2..])
    else
      var code := EscapeCode(b);
      if 0xD800 <= code < 0xE000 then
        if code < 0xDC00 && UnitLength(b[6..]) == 6 && 0xDC00 <= EscapeCode(b[6..]) < 0xE000 then
          Utf8(0x1_0000 + (code - 0xD800) * 1024 + (EscapeCode(b[6..]) - 0xDC00)) + Unquote(b[12..])
        else Utf8(0xFFFD) + Unquote(b[6..])
      else Utf8(code) + Unquote(b[6..])
  }

  /** The body written for a map key: the short escapes, other control characters in
      hexadecimal, and the two line separators of JavaScript. */
  function Quote(k: string): string {
    if k == "" then ""
    else if LineSeparator(k) then "\\u202" + [if k[2] == 0xA8 as char then '8' else '9'] + Quote(k[3..])
    else QuoteChar(k[0]) + Quote(k[1..])
  }

  predicate LineSeparator(k: string) {
    |k| >= 3 && k[0] == 0xE2 as char && k[1] == 0x80 as char && (k[2] == 0xA8 as char || k[2] == 0xA9 as char)
  }

  function QuoteChar(c: char): string {
    if c == '\"' || c == '\\' then ['\\', c]
    else if c == 8 as char then "\\b"
    else if c == 12 as char then "\\f"
    else if c == '\n' then "\\n"
    else if c == '\r' then "\\r"
    else if c == '\t' then "\\t"
    else if c < ' ' then "\\u00" + [HexDigit(c as int / 16), HexDigit(c as int % 16)]
    else [c]
  }

  /** Letter case folding of a key, as far as it can reach an ASCII field name: the ASCII
      capitals, the long s (U+017F) and the Kelvin sign (U+212A). */
  function Fold(k: string): string {
    if k == "" then ""
    else if |k| >= 2 && k[0] == 0xC5 as char && k[1] == 0xBF as char then "s" + Fold(k[2..])
    else if |k| >= 3 && k[0] == 0xE2 as char && k[1] == 0x84 as char && k[2] == 0xAA as char then "k" + Fold(k[3..])
    else [if 'A' <= k[0] <= 'Z' then (k[0] as int + 32) as char else k[0]] + Fold(k[1..])
  }

  // ---------------------------------------------------------------- what a written key reads back as

  lemma OneUnit(unit: string, rest: string)
    requires unit != "" && UnitLength(unit + rest) == |unit|
    ensures LegalBody(unit + rest) <==> LegalBody(rest)
  {
    assert (unit + rest)[|unit|..] == rest;
  }

  lemma {:induction false} QuoteReadsBack(k: string)
    ensures LegalBody(Quote(k)) && Unquote(Quote(k)) == k
  {
    hide LegalBody, Unquote, Quote;
    if k == "" {
      assert LegalBody(Quote(k)) && Unquote(Quote(k)) == k by { QuoteNothing(); }
    } else if LineSeparator(k) {
      QuoteReadsBack(k[3..]);
      SeparatorReadsBack(k);
    } else {
      QuoteReadsBack(k[1..]);
      CharReadsBack(k[0], Quote(k[1..]));
      QuoteStep(k);
      assert k == [k[0]] + k[1..];
    }
  }

  lemma QuoteNothing()
    ensures LegalBody(Quote("")) && Unquote(Quote("")) == ""
  {
  }

  lemma QuoteStep(k: string)
    requires k != "" && !LineSeparator(k)
    ensures Quote(k) == QuoteChar(k[0]) + Quote(k[1..])
  {
  }

  lemma CharReadsBack(c: char, rest: string)
    requires LegalBody(rest)
    ensures LegalBody(QuoteChar(c) + rest)
    ensures Unquote(QuoteChar(c) + rest) == [c] + Unquote(rest)
  {
    hide LegalBody, Unquote, UnitLength;
    if |QuoteChar(c)| == 2 {
      ShortUnit(c, rest);
    } else if |QuoteChar(c)| == 6 {
      HexUnit(c, rest);
    } else {
      ByteUnit(c, rest);
    }
  }

  lemma ByteUnit(c: char, rest: string)
    requires LegalBody(rest) && |QuoteChar(c)| != 2 && |QuoteChar(c)| != 6
    ensures LegalBody(QuoteChar(c) + rest) && Unquote(QuoteChar(c) + rest) == [c] + Unquote(rest)
  {
    hide LegalBody;
    var b := [c] + rest;
    assert QuoteChar(c) == [c] && b[1..] == rest && b[0] == c;
    assert UnitLength(b) == 1;
    OneUnit([c], rest);
  }

  lemma ShortUnit(c: char, rest: string)
    requires LegalBody(rest) && |QuoteChar(c)| == 2
    ensures LegalBody(QuoteChar(c) + rest) && Unquote(QuoteChar(c) + rest) == [c] + Unquote(rest)
  {
    hide LegalBody;
    var unit := QuoteChar(c);
    var b := unit + rest;
    assert b[2..] == rest && b[0] == unit[0] && b[1] == unit[1];
    assert UnitLength(b) == 2;
    OneUnit(unit, rest);
  }

  lemma HexUnit(c: char, rest: string)
    requires LegalBody(rest) && |QuoteChar(c)| == 6
    ensures LegalBody(QuoteChar(c) + rest) && Unquote(QuoteChar(c) + rest) == [c] + Unquote(rest)
  {
    hide LegalBody;
    var unit := QuoteChar(c);
    var b := unit + rest;
    assert b[6..] == rest && forall i :: 0 <= i < 6 ==> b[i] == unit[i];
    assert UnitLength(b) == 6;
    assert EscapeCode(b) == c as int;
    OneUnit(unit, rest);
  }

  lemma SeparatorReadsBack(k: string)
    requires LineSeparator(k) && LegalBody(Quote(k[3..])) && Unquote(Quote(k[3..])) == k[3..]
    ensures LegalBody(Quote(k)) && Unquote(Quote(k)) == k
  {
    var digit := if k[2] == 0xA8 as char then '8' else '9';
    SeparatorUnit(digit, Quote(k[3..]));
    hide LegalBody, Unquote, UnitLength;
    assert k == [k[0], k[1], k[2]] + k[3..];
  }

  lemma SeparatorUnit(digit: char, rest: string)
    requires LegalBody(rest) && (digit == '8' || digit == '9')
    ensures LegalBody("\\u202" + [digit] + rest)
    ensures Unquote("\\u202" + [digit] + rest) == [0xE2 as char, 0x80 as char, if digit == '8' then 0xA8 as char else 0xA9 as char] + Unquote(rest)
  {
    hide LegalBody;
    var unit := "\\u202" + [digit];
    var b := unit + rest;
    assert b[|unit|..] == rest;
    assert forall i :: 0 <= i < 6 ==> b[i] == unit[i];
    assert UnitLength(b) == 6;
    assert EscapeCode(b) == if digit == '8' then 0x2028 else 0x2029;
    OneUnit(unit, rest);
  }

  // ---------------------------------------------------------------- maps

  /** A map from decoded keys to values, in ascending order of its keys. */
  datatype Fields = Nil | Field(name: string, value: Value, more: Fields)

  predicate Less(a: string, b: string) {
    b != "" && (a == "" || a[0] < b[0] || (a[0] == b[0] && Less(a[1..], b[1..])))
  }

  predicate Sorted(m: Fields) {
    m.Field? ==> Sorted(m.more) && (m.more.Field? ==> Less(m.name, m.more.name))
  }

  function Get(m: Fields, k: string): Option<Value> {
    match m
    case Nil => None
    case Field(name, value, more) => if name == k then Some(value) else Get(more, k)
  }

  function Set(m: Fields, k: string, v: Value): Fields {
    match m
    case Nil => Field(k, v, Nil)
    case Field(name, value, more) =>
      if name == k then Field(k, v, more)
      else if Less(k, name) then Field(k, v, m)
      else Field(name, value, Set(more, k, v))
  }

  function Delete(m: Fields, k: string): Fields {
    match m
    case Nil => Nil
    case Field(name, value, more) => if name == k then Delete(more, k) else Field(name, value, Delete(more, k))
  }

  /** Reading an object into a map: each key is unquoted and its last value wins. */
  function MapOf(ms: Members): Fields {
    match ms
    case NoMembers => Nil
    case Member(_, key, _, _, value, _, rest) =>
      var m := MapOf(rest);
      if Get(m, Unquote(key)).Some? then m else Set(m, Unquote(key), value)
  }

  /** Writing a map: its keys in order, its values without whitespace. */
  function MembersOf(m: Fields): Members {
    match m
    case Nil => NoMembers
    case Field(name, value, more) => Member("", Quote(name), "", "", Compact(value), "", MembersOf(more))
  }

  function ObjectOf(m: Fields): Value { Obj("", MembersOf(m)) }

  function Compact(v: Value): Value {
    match v
    case Lit(_) => v
    case Str(_) => v
    case Arr(_, elems) => Arr("", CompactElems(elems))
    case Obj(_, members) => Obj("", CompactMembers(members))
  }

  function CompactElems(es: Elems): Elems {
    match es
    case NoElems => NoElems
    case Elem(_, value, _, rest) => Elem("", Compact(value), "", CompactElems(rest))
  }

  function CompactMembers(ms: Members): Members {
    match ms
    case NoMembers => NoMembers
    case Member(_, key, _, _, value, _, rest) => Member("", key, "", "", Compact(value), "", CompactMembers(rest))
  }

  function CompactOption(v: Option<Value>): Option<Value> {
    match v case None => None case Some(x) => Some(Compact(x))
  }

  lemma {:induction false} LessTotal(a: string, b: string)
    ensures Less(a, b) || a == b || Less(b, a)
    ensures !(Less(a, b) && a == b) && !(Less(a, b) && Less(b, a))
  {
    if a != "" && b != "" {
      LessTotal(a[1..], b[1..]);
      if a[0] == b[0] && a[1..] == b[1..] {
        assert a == [a[0]] + a[1..] && b == [b[0]] + b[1..];
      }
    }
  }

  lemma {:induction false} LessTransitive(a: string, b: string, c: string)
    requires Less(a, b) && Less(b, c)
    ensures Less(a, c)
  {
    if a != "" && a[0] == b[0] == c[0] {
      LessTransitive(a[1..], b[1..], c[1..]);
    }
  }

  lemma {:induction false} GetSet(m: Fields, k: string, v: Value, q: string)
    ensures Get(Set(m, k, v), q) == if q == k then Some(v) else Get(m, q)
  {
    if m.Field? {
      GetSet(m.more, k, v, q);
    }
  }

  lemma {:induction false} GetDelete(m: Fields, k: string, q: string)
    ensures Get(Delete(m, k), q) == if q == k then None else Get(m, q)
  {
    if m.Field? {
      GetDelete(m.more, k, q);
    }
  }

  lemma {:induction false} SetSorted(m: Fields, k: string, v: Value)
    requires Sorted(m)
    ensures Sorted(Set(m, k, v))
    ensures var s := Set(m, k, v); s.Field? && (s.name == k || (m.Field? && s.name == m.name))
  {
    hide Less;
    if m.Field? {
      SetSorted(m.more, k, v);
      LessTotal(k, m.name);
    }
  }

  lemma {:induction false} DeleteSorted(m: Fields, k: string)
    requires Sorted(m)
    ensures Sorted(Delete(m, k))
    ensures var d := Delete(m, k); d.Field? ==> m.Field? && (d.name == m.name || Less(m.name, d.name))
  {
    hide Less;
    if m.Field? {
      DeleteSorted(m.more, k);
      var d := Delete(m.more, k);
      if d.Field? && d.name != m.more.name {
        LessTransitive(m.name, m.more.name, d.name);
      }
    }
  }

  lemma {:induction false} MapSorted(ms: Members)
    ensures Sorted(MapOf(ms))
  {
    if ms.Member? {
      MapSorted(ms.rest);
      SetSorted(MapOf(ms.rest), Unquote(ms.key), ms.value);
    }
  }

  /** A key below the first key of a sorted map is absent from it. */
  lemma {:induction false} GetBelow(m: Fields, k: string)
    requires Sorted(m) && (m.Field? ==> Less(k, m.name))
    ensures Get(m, k) == None
  {
    hide Less;
    if m.Field? {
      LessTotal(k, m.name);
      if m.more.Field? {
        LessTransitive(k, m.name, m.more.name);
      }
      GetBelow(m.more, k);
    }
  }

  /** A written map reads back as the same map, its values compacted. */
  lemma {:induction false} MapReadsBack(m: Fields, k: string)
    requires Sorted(m)
    ensures Get(MapOf(MembersOf(m)), k) == CompactOption(Get(m, k))
  {
    if m.Field? {
      MapReadsBack(m.more, k);
      MapReadsBack(m.more, m.name);
      QuoteReadsBack(m.name);
      GetBelow(m.more, m.name);
      hide Less, Quote, Unquote, Compact;
      GetSet(MapOf(MembersOf(m.more)), m.name, Compact(m.value), k);
    }
  }

  lemma {:induction false} MapCompact(ms: Members, k: string)
    ensures Get(MapOf(CompactMembers(ms)), k) == CompactOption(Get(MapOf(ms), k))
  {
    if ms.Member? {
      MapCompact(ms.rest, k);
      MapCompact(ms.rest, Unquote(ms.key));
      hide Unquote, Compact;
      GetSet(MapOf(ms.rest), Unquote(ms.key), ms.value, k);
      GetSet(MapOf(CompactMembers(ms.rest)), Unquote(ms.key), Compact(ms.value), k);
    }
  }

  // ---------------------------------------------------------------- what is written is JSON without newlines

  lemma {:induction false} CompactLegal(v: Value)
    requires Legal(v)
    ensures Legal(Compact(v))
    decreases v
  {
    hide LegalBody, LegalElems, LegalMembers, CompactElems, CompactMembers;
    match v
    case Lit(_) =>
    case Str(_) =>
    case Arr(_, elems) => CompactElemsLegal(elems);
    case Obj(_, members) => CompactMembersLegal(members);
  }

  lemma {:induction false} CompactElemsLegal(es: Elems)
    requires LegalElems(es)
    ensures LegalElems(CompactElems(es))
    decreases es
  {
    if es.Elem? {
      CompactLegal(es.value);
      CompactElemsLegal(es.rest);
      hide Legal;
    }
  }

  lemma {:induction false} CompactMembersLegal(ms: Members)
    requires LegalMembers(ms)
    ensures LegalMembers(CompactMembers(ms))
    decreases ms
  {
    if ms.Member? {
      CompactLegal(ms.value);
      CompactMembersLegal(ms.rest);
      hide Legal, LegalBody;
    }
  }

  predicate LegalFields(m: Fields) { m.Field? ==> Legal(m.value) && LegalFields(m.more) }

  lemma {:induction false} MapLegal(ms: Members)
    requires LegalMembers(ms)
    ensures LegalFields(MapOf(ms))
  {
    if ms.Member? {
      MapLegal(ms.rest);
      SetLegal(MapOf(ms.rest), Unquote(ms.key), ms.value);
    }
  }

  lemma {:induction false} SetLegal(m: Fields, k: string, v: Value)
    requires LegalFields(m) && Legal(v)
    ensures LegalFields(Set(m, k, v))
  {
    hide Less, Legal;
    if m.Field? {
      SetLegal(m.more, k, v);
    }
  }

  lemma {:induction false} DeleteLegal(m: Fields, k: string)
    requires LegalFields(m)
    ensures LegalFields(Delete(m, k))
  {
    hide Legal;
    if m.Field? {
      DeleteLegal(m.more, k);
    }
  }

  lemma {:induction false} GetLegal(m: Fields, k: string)
    requires LegalFields(m) && Get(m, k).Some?
    ensures Legal(Get(m, k).value)
  {
    hide Legal;
    if m.name != k {
      GetLegal(m.more, k);
    }
  }

  lemma {:induction false} ObjectLegal(m: Fields)
    requires LegalFields(m)
    ensures LegalMembers(MembersOf(m)) && Legal(ObjectOf(m))
  {
    if m.Field? {
      ObjectLegal(m.more);
      QuoteReadsBack(m.name);
      CompactLegal(m.value);
      hide Legal, LegalBody, Quote, Compact;
      assert LegalMembers(MembersOf(m));
    }
  }

  /** Nothing in a compact value is a newline, so a written record stays on its line. */
  lemma {:induction false} BodyOneLine(b: string)
    requires LegalBody(b)
    ensures '\n' !in b
  {
    if b != "" {
      var n := UnitLength(b);
      BodyOneLine(b[n..]);
      assert forall i :: 0 <= i < n ==> b[i] != '\n';
      assert b == b[..n] + b[n..];
    }
  }

  lemma {:induction false} CompactOneLine(v: Value, rest: string)
    requires Legal(v) && '\n' !in rest
    ensures '\n' !in Put(Compact(v), rest)
    decreases v
  {
    hide LegalBody, IsNumber, LegalElems, LegalMembers, CompactElems, CompactMembers, PutElems, PutMembers;
    match v
    case Lit(raw) =>
    case Str(body) => BodyOneLine(body);
    case Arr(_, elems) =>
      ElemsShape(elems);
      if elems.Elem? { CompactElemsOneLine(elems, rest); }
    case Obj(_, members) =>
      MembersShape(members);
      if members.Member? { CompactMembersOneLine(members, rest); }
  }

  lemma ElemsShape(es: Elems)
    ensures CompactElems(es).Elem? <==> es.Elem?
  {
  }

  lemma MembersShape(ms: Members)
    ensures CompactMembers(ms).Member? <==> ms.Member?
  {
  }

  lemma {:induction false} CompactElemsOneLine(es: Elems, rest: string)
    requires LegalElems(es) && es.Elem? && '\n' !in rest
    ensures '\n' !in PutElems(CompactElems(es), rest)
    decreases es
  {
    hide Legal, Put, Compact;
    var tail := if es.rest.NoElems? then [']'] + rest else [','] + PutElems(CompactElems(es.rest), rest);
    ElemsShape(es.rest);
    if es.rest.Elem? { CompactElemsOneLine(es.rest, rest); }
    CompactOneLine(es.value, "" + tail);
  }

  lemma {:induction false} CompactMembersOneLine(ms: Members, rest: string)
    requires LegalMembers(ms) && ms.Member? && '\n' !in rest
    ensures '\n' !in PutMembers(CompactMembers(ms), rest)
    decreases ms
  {
    hide Legal, Put, Compact, LegalBody;
    var tail := if ms.rest.NoMembers? then ['}'] + rest else [','] + PutMembers(CompactMembers(ms.rest), rest);
    MembersShape(ms.rest);
    BodyOneLine(ms.key);
    if ms.rest.Member? { CompactMembersOneLine(ms.rest, rest); }
    CompactOneLine(ms.value, "" + tail);
  }

  lemma {:induction false} FieldsOneLine(m: Fields, rest: string)
    requires LegalFields(m) && m.Field? && '\n' !in rest
    ensures '\n' !in PutMembers(MembersOf(m), rest)
  {
    QuoteReadsBack(m.name);
    BodyOneLine(Quote(m.name));
    hide Legal, Put, Compact, LegalBody, Quote, Unquote;
    var tail := if m.more.Nil? then ['}'] + rest else [','] + PutMembers(MembersOf(m.more), rest);
    assert MembersOf(m.more).Member? <==> m.more.Field?;
    if m.more.Field? { FieldsOneLine(m.more, rest); }
    CompactOneLine(m.value, "" + tail);
  }

  lemma ObjectOneLine(m: Fields)
    requires LegalFields(m)
    ensures '\n' !in Text(ObjectOf(m))
  {
    hide PutMembers, LegalFields, Compact, Quote;
    if m.Field? { FieldsOneLine(m, ""); }
  }
}
