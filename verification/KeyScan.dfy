/** The byte scanner that decides whether a line may take the fast path
    (internal/rollout/sanitize.go, canonicalJSONKeys), and the proof that it is
    exact: on the text of any JSON value it answers true precisely when every key at
    every depth is unescaped lower-case ASCII and no object repeats a routing key. */
module KeyScan {
  import opened Wrappers
  import opened JsonText

  // ---------------------------------------------------------------- what the scanner is for

  /** The four keys the sanitizer routes on; the scanner has one bit for each. */
  const ROUTING_KEYS: set<string> := {"type", "id", "payload", "replacement_history"}

  predicate PlainChar(c: char) { c != '\\' && c < 128 as char && !('A' <= c <= 'Z') }

  predicate PlainKey(k: string) { forall i :: 0 <= i < |k| ==> PlainChar(k[i]) }

  function KeysOf(ms: Members): seq<string> {
    match ms
    case NoMembers => []
    case Member(_, key, _, _, _, _, rest) => [key] + KeysOf(rest)
  }

  /** The key lists of all objects in a value, at every depth. */
  function Objects(v: Value): seq<seq<string>> {
    match v
    case Lit(_) => []
    case Str(_) => []
    case Arr(_, elems) => ElemObjects(elems)
    case Obj(_, members) => [KeysOf(members)] + MemberObjects(members)
  }

  function ElemObjects(es: Elems): seq<seq<string>> {
    match es
    case NoElems => []
    case Elem(_, value, _, rest) => Objects(value) + ElemObjects(rest)
  }

  function MemberObjects(ms: Members): seq<seq<string>> {
    match ms
    case NoMembers => []
    case Member(_, _, _, _, value, _, rest) => Objects(value) + MemberObjects(rest)
  }

  predicate CanonicalObject(keys: seq<string>) {
    (forall i :: 0 <= i < |keys| ==> PlainKey(keys[i])) &&
    (forall i, j :: 0 <= i < j < |keys| && keys[i] == keys[j] ==> keys[i] !in ROUTING_KEYS)
  }

  predicate Canonical(v: Value) { forall i :: 0 <= i < |Objects(v)| ==> CanonicalObject(Objects(v)[i]) }

  // ---------------------------------------------------------------- the scanner, as a function on bytes

  /** The offset of the first quote that an even number of backslashes precedes. */
  function Close(s: string, escaped: bool): (n: Option<nat>)
    ensures n.Some? ==> n.value < |s| && s[n.value] == '\"'
  {
    if s == "" then None
    else if s[0] == '\"' && !escaped then Some(0)
    else match Close(s[1..], s[0] == '\\' && !escaped)
      case None => None
      case Some(n) => Some(n + 1)
  }

  /** What a byte outside a string does to the stack of open brackets; None if it closes one too many. */
  function Bracket(c: char, stack: seq<set<string>>): Option<seq<set<string>>> {
    if c == '{' || c == '[' then Some(stack + [{}])
    else if c == '}' || c == ']' then if stack == [] then None else Some(stack[..|stack| - 1])
    else Some(stack)
  }

  /** What a key does to the stack; None if the scanner gives up on it. */
  function Enter(key: string, stack: seq<set<string>>): Option<seq<set<string>>> {
    if key in ROUTING_KEYS && (stack == [] || key in stack[|stack| - 1]) then None
    else if !PlainKey(key) then None
    else if key in ROUTING_KEYS then Some(stack[|stack| - 1 := stack[|stack| - 1] + {key}])
    else Some(stack)
  }

  predicate Scan(line: string, stack: seq<set<string>>)
    decreases |line|
  {
    if '\"' !in line then true
    else if line[0] != '\"' then
      match Bracket(line[0], stack)
      case None => false
      case Some(next) => Scan(line[1..], next)
    else
      match Close(line[1..], false)
      case None => false
      case Some(n) =>
        var key := line[1..][..n];
        var tail := line[1..][n + 1..];
        var after := tail[|Ws(tail)|..];
        if after != "" && after[0] == ':' then
          match Enter(key, stack)
          case None => false
          case Some(next) => Scan(after, next)
        else Scan(after, stack)
  }

  // ---------------------------------------------------------------- one step of the scanner

  lemma SkipByte(c: char, s: string, stack: seq<set<string>>)
    requires c != '\"' && Bracket(c, stack).Some?
    ensures Scan([c] + s, stack) == Scan(s, Bracket(c, stack).value)
  {
    assert ([c] + s)[1..] == s;
    if '\"' !in s {
      assert '\"' !in [c] + s;
    } else {
      assert '\"' in [c] + s;
    }
  }

  lemma {:induction false} SkipQuiet(w: string, s: string, stack: seq<set<string>>)
    requires forall i :: 0 <= i < |w| ==> w[i] !in "\"[]{}"
    ensures Scan(w + s, stack) == Scan(s, stack)
  {
    if w == "" {
      assert w + s == s;
    } else {
      assert w + s == [w[0]] + (w[1..] + s);
      SkipByte(w[0], w[1..] + s, stack);
      SkipQuiet(w[1..], s, stack);
    }
  }

  lemma {:induction false} CloseBody(b: string, rest: string)
    requires LegalBody(b)
    ensures Close(b + (['\"'] + rest), false) == Some(|b|)
  {
    var s := b + (['\"'] + rest);
    if b == "" {
      assert s == ['\"'] + rest;
    } else {
      var n := UnitLength(b);
      CloseBody(b[n..], rest);
      CloseUnit(b, ['\"'] + rest);
    }
  }

  lemma CloseUnit(b: string, r: string)
    requires UnitLength(b) != 0
    requires Close(b[UnitLength(b)..] + r, false) == Some(|b| - UnitLength(b))
    ensures Close(b + r, false) == Some(|b|)
  {
    var n := UnitLength(b);
    var s := b + r;
    assert s[n..] == b[n..] + r;
    assert forall i :: 0 <= i < n ==> s[i] == b[i];
    if n == 1 {
    } else if n == 2 {
      assert s[1..][1..] == s[2..];
      assert s[1..][0] == b[1];
    } else {
      ClosePlain(s[2..], 4);
      assert s[2..][4..] == s[6..];
      assert s[1..][1..] == s[2..];
      assert s[1..][0] == 'u';
    }
  }

  lemma {:induction false} ClosePlain(s: string, n: nat)
    requires n <= |s| && forall i :: 0 <= i < n ==> s[i] != '\"' && s[i] != '\\'
    requires Close(s[n..], false).Some?
    ensures Close(s, false) == Some(n + Close(s[n..], false).value)
  {
    if n == 0 {
      assert s[0..] == s;
    } else {
      assert s[1..][n - 1..] == s[n..];
      ClosePlain(s[1..], n - 1);
    }
  }

  /** A string outside key position is skipped. */
  lemma SkipString(body: string, rest: string, stack: seq<set<string>>)
    requires LegalBody(body)
    requires var w := Ws(rest); rest[|w|..] == "" || rest[|w|] != ':'
    ensures Scan(['\"'] + (body + (['\"'] + rest)), stack) == Scan(rest, stack)
  {
    hide *;
    var line := ['\"'] + (body + (['\"'] + rest));
    StringAt(body, rest);
    UnfoldQuote(line, stack);
    var w := Ws(rest);
    QuietWs(w);
    SkipQuiet(w, rest[|w|..], stack);
  }

  /** A string followed by a colon is entered as a key. */
  lemma EnterKey(key: string, mid: string, rest: string, stack: seq<set<string>>)
    requires LegalBody(key) && AllWs(mid)
    ensures Scan(['\"'] + (key + (['\"'] + (mid + ([':'] + rest)))), stack)
         == (Enter(key, stack).Some? && Scan(rest, Enter(key, stack).value))
  {
    hide *;
    var tail := mid + ([':'] + rest);
    var line := ['\"'] + (key + (['\"'] + tail));
    StringAt(key, tail);
    UnfoldQuote(line, stack);
    assert !IsWs(':') by { ColonIsQuiet(stack); }
    WsUnique(mid, [':'] + rest);
    assert tail[|mid|..] == [':'] + rest;
    if Enter(key, stack).Some? {
      ColonIsQuiet(Enter(key, stack).value);
      SkipByte(':', rest, Enter(key, stack).value);
    }
  }

  lemma ColonIsQuiet(stack: seq<set<string>>)
    ensures !IsWs(':') && Bracket(':', stack) == Some(stack)
  {
  }

  lemma StringAt(body: string, tail: string)
    requires LegalBody(body)
    ensures var line := ['\"'] + (body + (['\"'] + tail));
      Close(line[1..], false) == Some(|body|) && line[1..][..|body|] == body && line[1..][|body| + 1..] == tail
  {
    CloseBody(body, tail);
    hide LegalBody, Close;
    var line := ['\"'] + (body + (['\"'] + tail));
    assert line[1..] == body + (['\"'] + tail);
  }

  // ---------------------------------------------------------------- the scanner on a value

  predicate Canon(v: Value) {
    match v
    case Lit(_) => true
    case Str(_) => true
    case Arr(_, elems) => CanonElems(elems)
    case Obj(_, members) => CanonMembers(members, {})
  }

  predicate CanonElems(es: Elems) {
    match es
    case NoElems => true
    case Elem(_, value, _, rest) => Canon(value) && CanonElems(rest)
  }

  /** The members are canonical in an object that has already shown the routing keys in seen. */
  predicate CanonMembers(ms: Members, seen: set<string>) {
    match ms
    case NoMembers => true
    case Member(_, key, _, _, value, _, rest) =>
      PlainKey(key) && (key in ROUTING_KEYS ==> key !in seen) && Canon(value) &&
      CanonMembers(rest, if key in ROUTING_KEYS then seen + {key} else seen)
  }

  lemma {:induction false} ScanValue(v: Value, rest: string, stack: seq<set<string>>)
    requires Legal(v)
    requires var w := Ws(rest); rest[|w|..] == "" || rest[|w|] != ':'
    ensures Scan(Put(v, rest), stack) == (Canon(v) && Scan(rest, stack))
    decreases v
  {
    hide Scan, LegalBody, IsNumber, PutElems, PutMembers, LegalElems, LegalMembers, CanonElems, CanonMembers;
    match v
    case Lit(raw) => SkipQuiet(raw, rest, stack);
    case Str(body) => SkipString(body, rest, stack);
    case Arr(gap, elems) =>
      EmptyCanon();
      if elems.NoElems? {
        ScanGap('[', gap, ']', rest, stack);
      } else {
        SkipByte('[', PutElems(elems, rest), stack);
        ScanElems(elems, rest, stack, {});
      }
    case Obj(gap, members) =>
      EmptyCanon();
      if members.NoMembers? {
        ScanGap('{', gap, '}', rest, stack);
      } else {
        SkipByte('{', PutMembers(members, rest), stack);
        ScanMembers(members, rest, stack, {});
      }
  }

  lemma EmptyCanon()
    ensures CanonElems(NoElems) && forall seen :: CanonMembers(NoMembers, seen)
  {
  }

  /** An empty array or object. */
  lemma ScanGap(open: char, gap: string, close: char, rest: string, stack: seq<set<string>>)
    requires (open == '[' && close == ']') || (open == '{' && close == '}')
    requires AllWs(gap)
    ensures Scan([open] + (gap + ([close] + rest)), stack) == Scan(rest, stack)
  {
    hide Scan;
    SkipByte(open, gap + ([close] + rest), stack);
    SkipQuiet(gap, [close] + rest, stack + [{}]);
    SkipByte(close, rest, stack + [{}]);
    assert (stack + [{}])[..|stack|] == stack;
  }

  /** The bytes that follow a value: whitespace, then a comma or a closing bracket. */
  lemma ScanEnd(after: string, c: char, rest: string, stack: seq<set<string>>)
    requires AllWs(after) && (c == ',' || ((c == ']' || c == '}') && stack != []))
    ensures Scan(after + ([c] + rest), stack) == Scan(rest, if c == ',' then stack else stack[..|stack| - 1])
    ensures var t := after + ([c] + rest); var w := Ws(t); t[|w|..] == "" || t[|w|] != ':'
  {
    hide Scan;
    SkipQuiet(after, [c] + rest, stack);
    SkipByte(c, rest, stack);
    WsUnique(after, [c] + rest);
  }

  lemma {:induction false} ScanElems(es: Elems, rest: string, stack: seq<set<string>>, top: set<string>)
    requires es.Elem? && LegalElems(es)
    ensures Scan(PutElems(es, rest), stack + [top]) == (CanonElems(es) && Scan(rest, stack))
    decreases es
  {
    hide Scan, Put, Legal, Canon, AllWs;
    var Elem(before, value, after, more) := es;
    var tail := if more.NoElems? then [']'] + rest else [','] + PutElems(more, rest);
    QuietWs(before);
    SkipQuiet(before, Put(value, after + tail), stack + [top]);
    assert (stack + [top])[..|stack|] == stack;
    if more.NoElems? {
      ScanEnd(after, ']', rest, stack + [top]);
    } else {
      ScanEnd(after, ',', PutElems(more, rest), stack + [top]);
      ScanElems(more, rest, stack, top);
    }
    ScanValue(value, after + tail, stack + [top]);
  }

  lemma QuietWs(w: string)
    requires AllWs(w)
    ensures forall i :: 0 <= i < |w| ==> w[i] !in "\"[]{}"
  {
  }

  lemma {:induction false} ScanMembers(ms: Members, rest: string, stack: seq<set<string>>, seen: set<string>)
    requires ms.Member? && LegalMembers(ms)
    ensures Scan(PutMembers(ms, rest), stack + [seen]) == (CanonMembers(ms, seen) && Scan(rest, stack))
    decreases ms
  {
    hide Scan, Put, Legal, Canon, AllWs, LegalBody, PlainKey;
    var Member(before, key, mid, lead, value, after, more) := ms;
    var tail := if more.NoMembers? then ['}'] + rest else [','] + PutMembers(more, rest);
    var v := Put(value, after + tail);
    QuietWs(before);
    QuietWs(lead);
    SkipQuiet(before, ['\"'] + (key + (['\"'] + (mid + ([':'] + (lead + v))))), stack + [seen]);
    EnterKey(key, mid, lead + v, stack + [seen]);
    if Enter(key, stack + [seen]).Some? {
      var now := if key in ROUTING_KEYS then seen + {key} else seen;
      assert Enter(key, stack + [seen]).value == stack + [now];
      SkipQuiet(lead, v, stack + [now]);
      assert (stack + [now])[..|stack|] == stack;
      if more.NoMembers? {
        ScanEnd(after, '}', rest, stack + [now]);
      } else {
        ScanEnd(after, ',', PutMembers(more, rest), stack + [now]);
        ScanMembers(more, rest, stack, now);
      }
      ScanValue(value, after + tail, stack + [now]);
    }
  }

  // ---------------------------------------------------------------- exactness

  predicate AllCanonical(os: seq<seq<string>>) { forall i :: 0 <= i < |os| ==> CanonicalObject(os[i]) }

  lemma AllCanonicalConcat(a: seq<seq<string>>, b: seq<seq<string>>)
    ensures AllCanonical(a + b) <==> AllCanonical(a) && AllCanonical(b)
  {
    hide CanonicalObject;
    if AllCanonical(a + b) {
      assert forall i :: 0 <= i < |a| ==> a[i] == (a + b)[i];
      assert forall i :: 0 <= i < |b| ==> b[i] == (a + b)[|a| + i];
    }
  }

  lemma {:induction false} CanonIsCanonical(v: Value)
    ensures Canon(v) <==> AllCanonical(Objects(v))
    decreases v
  {
    hide CanonMembers, CanonElems, CanonicalObject;
    match v
    case Lit(_) =>
    case Str(_) =>
    case Arr(_, elems) => CanonElemsExact(elems);
    case Obj(_, members) =>
      CanonMembersExact(members, {});
      AllCanonicalConcat([KeysOf(members)], MemberObjects(members));
      assert AllCanonical([KeysOf(members)]) <==> CanonicalObject(KeysOf(members)) by {
        assert [KeysOf(members)][0] == KeysOf(members);
      }
  }

  lemma {:induction false} CanonElemsExact(es: Elems)
    ensures CanonElems(es) <==> AllCanonical(ElemObjects(es))
    decreases es
  {
    hide Canon, CanonicalObject;
    if es.Elem? {
      CanonIsCanonical(es.value);
      CanonElemsExact(es.rest);
      AllCanonicalConcat(Objects(es.value), ElemObjects(es.rest));
    }
  }

  predicate Unseen(keys: seq<string>, seen: set<string>) {
    forall i :: 0 <= i < |keys| && keys[i] in ROUTING_KEYS ==> keys[i] !in seen
  }

  lemma {:induction false} CanonMembersExact(ms: Members, seen: set<string>)
    ensures CanonMembers(ms, seen) <==>
      CanonicalObject(KeysOf(ms)) && Unseen(KeysOf(ms), seen) && AllCanonical(MemberObjects(ms))
    decreases ms
  {
    if ms.Member? {
      var now := if ms.key in ROUTING_KEYS then seen + {ms.key} else seen;
      CanonIsCanonical(ms.value);
      CanonMembersExact(ms.rest, now);
      AllCanonicalConcat(Objects(ms.value), MemberObjects(ms.rest));
      hide Canon, CanonMembers, AllCanonical, PlainKey;
      ConsCanonical(ms.key, KeysOf(ms.rest), seen);
      UnfoldMembers(ms, seen);
    }
  }

  lemma UnfoldMembers(ms: Members, seen: set<string>)
    requires ms.Member?
    ensures CanonMembers(ms, seen) <==> (PlainKey(ms.key) && (ms.key in ROUTING_KEYS ==> ms.key !in seen) && Canon(ms.value) &&
      CanonMembers(ms.rest, if ms.key in ROUTING_KEYS then seen + {ms.key} else seen))
  {
  }

  lemma ConsCanonical(key: string, keys: seq<string>, seen: set<string>)
    ensures CanonicalObject([key] + keys) && Unseen([key] + keys, seen) <==>
      PlainKey(key) && (key in ROUTING_KEYS ==> key !in seen) &&
      CanonicalObject(keys) && Unseen(keys, if key in ROUTING_KEYS then seen + {key} else seen)
  {
    hide PlainKey;
    var all := [key] + keys;
    assert all[0] == key;
    assert forall i :: 0 <= i < |keys| ==> keys[i] == all[i + 1];
    if CanonicalObject(all) && Unseen(all, seen) {
      forall i, j | 0 <= i < j < |keys| && keys[i] == keys[j]
        ensures keys[i] !in ROUTING_KEYS
      {
        assert all[i + 1] == all[j + 1];
      }
    }
  }

  /** The scanner is exact on every JSON text, whatever its whitespace and escapes. */
  lemma ScannerExact(d: Doc)
    requires LegalDoc(d)
    ensures Scan(DocText(d), []) <==> Canonical(d.value)
  {
    hide Scan, Put, Canon, CanonicalObject, Legal;
    QuietWs(d.before);
    SkipQuiet(d.before, Put(d.value, d.after), []);
    assert d.after + "" == d.after;
    WsUnique(d.after, "");
    ScanValue(d.value, d.after, []);
    QuietWs(d.after);
    SkipQuiet(d.after, "", []);
    assert Scan("", []) by { ScanNothing(); }
    CanonIsCanonical(d.value);
  }

  lemma ScanNothing()
    ensures Scan("", [])
  {
  }

  // ---------------------------------------------------------------- the scanner, as the source runs it

  /** Whether the bytes line[start..end] leave the next byte escaped. */
  predicate Escaped(line: string, start: nat, end: nat)
    requires start <= end <= |line|
    decreases end
  {
    end > start && line[end - 1] == '\\' && !Escaped(line, start, end - 1)
  }

  function Shift(n: Option<nat>, d: nat): Option<nat> {
    match n case None => None case Some(k) => Some(k + d)
  }

  lemma CloseStep(line: string, p: nat, escaped: bool)
    requires p < |line| && !(line[p] == '\"' && !escaped)
    ensures Close(line[p..], escaped) == Shift(Close(line[p + 1..], line[p] == '\\' && !escaped), 1)
  {
    assert line[p..][1..] == line[p + 1..];
  }

  method IndexByte(line: string, from: nat, c: char) returns (at: int)
    requires from <= |line|
    ensures at < 0 ==> c !in line[from..]
    ensures at >= 0 ==> from <= at < |line| && line[at] == c && c !in line[from..at]
  {
    at := from;
    while at < |line|
      invariant from <= at <= |line| && c !in line[from..at]
    {
      if line[at] == c { return; }
      assert line[from..at + 1] == line[from..at] + [line[at]];
      at := at + 1;
    }
    return -1;
  }

  /** Finds the quote that closes the string starting at start by looking at each
      quote in turn and counting the backslashes before it. */
  method FindClose(line: string, start: nat) returns (end: int)
    requires start <= |line|
    ensures Close(line[start..], false) == if end < 0 then None else Some(end - start)
    ensures end >= 0 ==> start <= end < |line|
  {
    hide Close;
    assert Close("", false) == None && Close("", true) == None by { CloseNothing(); }
    end := start;
    assert !Escaped(line, start, start);
    hide Escaped;
    while true
      invariant start <= end <= |line|
      invariant Close(line[start..], false) == Shift(Close(line[end..], Escaped(line, start, end)), end - start)
      decreases |line| - end
    {
      var at := IndexByte(line, end, '\"');
      SkipToQuote(line, start, end, if at < 0 then |line| else at);
      if at < 0 {
        assert line[|line|..] == "";
        return -1;
      }
      CloseHere(line, at);
      end := at;
      var slashes := CountSlashes(line, start, end);
      if slashes % 2 == 0 {
        return;
      }
      CloseStep(line, end, true);
      QuoteUnescapes(line, start, end);
      end := end + 1;
    }
  }

  lemma CloseNothing()
    ensures Close("", false) == None && Close("", true) == None
  {
  }

  lemma CloseHere(line: string, at: nat)
    requires at < |line| && line[at] == '\"'
    ensures Close(line[at..], false) == Some(0)
  {
  }

  lemma QuoteUnescapes(line: string, start: nat, end: nat)
    requires start <= end < |line| && line[end] == '\"'
    ensures !Escaped(line, start, end + 1)
  {
  }

  method CountSlashes(line: string, start: nat, end: nat) returns (slashes: nat)
    requires start <= end <= |line|
    ensures slashes % 2 == 1 <==> Escaped(line, start, end)
  {
    slashes := 0;
    var i: int := end - 1;
    while i >= start && line[i] == '\\'
      invariant start - 1 <= i < end && slashes == end - 1 - i
      invariant Escaped(line, start, end) == (if slashes % 2 == 0 then Escaped(line, start, i + 1) else !Escaped(line, start, i + 1))
    {
      slashes := slashes + 1;
      i := i - 1;
    }
  }

  lemma EscapedStep(line: string, start: nat, p: nat)
    requires start <= p < |line|
    ensures Escaped(line, start, p + 1) == (line[p] == '\\' && !Escaped(line, start, p))
  {
    hide Close;
  }

  /** Bytes that are not quotes only move the escape state along. */
  lemma {:induction false} SkipToQuote(line: string, start: nat, from: nat, at: nat)
    requires start <= from <= at <= |line| && '\"' !in line[from..at]
    ensures Close(line[from..], Escaped(line, start, from)) == Shift(Close(line[at..], Escaped(line, start, at)), at - from)
    decreases at - from
  {
    hide Close, Escaped;
    if from < at {
      EscapedStep(line, start, from);
      assert line[from] == line[from..at][0];
      assert line[from + 1..at] == line[from..at][1..];
      CloseStep(line, from, Escaped(line, start, from));
      SkipToQuote(line, start, from + 1, at);
    }
  }

  /** The brackets between two strings. */
  method ScanBrackets(line: string, from: nat, to: nat, stack: seq<set<string>>) returns (objects: Option<seq<set<string>>>)
    requires from <= to < |line| && line[to] == '\"' && '\"' !in line[from..to]
    ensures Scan(line[from..], stack) == (objects.Some? && Scan(line[to..], objects.value))
  {
    hide Scan;
    objects := Some(stack);
    var i := from;
    while i < to
      invariant from <= i <= to
      invariant objects.Some? && Scan(line[from..], stack) == Scan(line[i..], objects.value)
    {
      BracketStep(line, i, to, objects.value) by {
        assert line[i] == line[from..to][i - from];
      }
      objects := Bracket(line[i], objects.value);
      if objects.None? { return; }
      i := i + 1;
    }
  }

  lemma BracketStep(line: string, i: nat, to: nat, stack: seq<set<string>>)
    requires i < to < |line| && line[to] == '\"' && line[i] != '\"'
    ensures Scan(line[i..], stack) == (Bracket(line[i], stack).Some? && Scan(line[i + 1..], Bracket(line[i], stack).value))
  {
    assert '\"' in line[i..] by { assert line[i..][to - i] == '\"'; }
    hide Bracket;
    assert line[i..][1..] == line[i + 1..];
  }

  method SkipSpace(line: string, from: nat) returns (to: nat)
    requires from <= |line|
    ensures from <= to <= |line| && line[to..] == line[from..][|Ws(line[from..])|..]
  {
    to := from;
    while to < |line| && IsWs(line[to])
      invariant from <= to <= |line|
      invariant forall i :: from <= i < to ==> IsWs(line[i])
    {
      to := to + 1;
    }
    SpaceSkipped(line, from, to);
  }

  lemma SpaceSkipped(line: string, from: nat, to: nat)
    requires from <= to <= |line| && (forall i :: from <= i < to ==> IsWs(line[i]))
    requires to == |line| || !IsWs(line[to])
    ensures line[to..] == line[from..][|Ws(line[from..])|..]
  {
    WsUnique(line[from..to], line[to..]);
    hide Ws, AllWs;
    assert line[from..to] + line[to..] == line[from..];
  }

  /** What follows the closing quote at end, once the whitespace is skipped. */
  lemma QuoteStep(line: string, at: nat, end: nat, next: nat, stack: seq<set<string>>)
    requires at < end < next <= |line| && line[at] == '\"'
    requires Close(line[at + 1..], false) == Some(end - at - 1)
    requires line[next..] == line[end + 1..][|Ws(line[end + 1..])|..]
    ensures Scan(line[at..], stack) ==
      if next < |line| && line[next] == ':' then
        Enter(line[at + 1..end], stack).Some? && Scan(line[next..], Enter(line[at + 1..end], stack).value)
      else Scan(line[next..], stack)
  {
    hide *;
    var s := line[at..];
    var t := line[at + 1..];
    assert s[1..] == t by { DropDrop(line, at, 1); }
    assert t[..end - at - 1] == line[at + 1..end] by { TakeDrop(line, at + 1, end - at - 1); }
    assert t[end - at..] == line[end + 1..] by { DropDrop(line, at + 1, end - at); }
    UnfoldQuote(s, stack);
  }

  lemma DropDrop(s: string, a: nat, b: nat)
    requires a + b <= |s|
    ensures s[a..][b..] == s[a + b..]
  {
  }

  lemma TakeDrop(s: string, a: nat, n: nat)
    requires a + n <= |s|
    ensures s[a..][..n] == s[a..a + n]
  {
  }

  lemma UnfoldQuote(s: string, stack: seq<set<string>>)
    requires s != "" && s[0] == '\"' && Close(s[1..], false).Some?
    ensures Scan(s, stack) ==
      var n := Close(s[1..], false).value;
      var after := s[1..][n + 1..][|Ws(s[1..][n + 1..])|..];
      if after != "" && after[0] == ':' then
        Enter(s[1..][..n], stack).Some? && Scan(after, Enter(s[1..][..n], stack).value)
      else Scan(after, stack)
  {
    hide Close, Enter, Ws;
  }

  lemma NotClosed(line: string, at: nat, stack: seq<set<string>>)
    requires at < |line| && line[at] == '\"' && Close(line[at + 1..], false) == None
    ensures !Scan(line[at..], stack)
  {
    hide Close;
    assert line[at..][0] == '\"' && '\"' in line[at..];
    assert line[at..][1..] == line[at + 1..];
  }

  lemma NoQuoteLeft(s: string, stack: seq<set<string>>)
    requires '\"' !in s
    ensures Scan(s, stack)
  {
  }

  /** The scanner of the source: brackets up to the next quote, then the closing
      quote, then the key if a colon follows. */
  method CanonicalJsonKeys(line: string) returns (canonical: bool)
    ensures canonical <==> Scan(line, [])
  {
    hide Scan, Close, Escaped, PlainKey, Ws, Enter, Bracket;
    var objects: seq<set<string>> := [];
    var offset := 0;
    assert line[0..] == line;
    while offset < |line|
      invariant 0 <= offset <= |line|
      invariant Scan(line, []) == Scan(line[offset..], objects)
      decreases |line| - offset
    {
      var at := IndexByte(line, offset, '\"');
      if at < 0 {
        NoQuoteLeft(line[offset..], objects);
        return true;
      }
      var scanned := ScanBrackets(line, offset, at, objects);
      if scanned.None? { return false; }
      objects := scanned.value;
      var end := FindClose(line, at + 1);
      if end < 0 {
        NotClosed(line, at, objects);
        return false;
      }
      offset := SkipSpace(line, end + 1);
      QuoteStep(line, at, end, offset, objects);
      if offset < |line| && line[offset] == ':' {
        var entered := Enter(line[at + 1..end], objects);
        if entered.None? { return false; }
        objects := entered.value;
      }
    }
    NoQuoteLeft(line[|line|..], objects);
    return true;
  }
}
