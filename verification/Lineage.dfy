/** Cleaning the histories a fork shares (internal/rollout/lineage.go, SanitizeAncestors):
    a walk up the recorded bases, then a rewrite of each ancestor, oldest first, that keeps
    every byte offset other files have recorded. */
module Lineage {
  import opened Wrappers
  import opened JsonText
  import opened GoJson
  import opened Sanitize
  import opened ContextPatch
  import opened ScanJsonl
  import opened RolloutProofs
  import opened SecondRewrite
  import opened Certificate

  const MAX_DEPTH: nat := 32

  const MAX_HEADER: nat := 0x10_0000

  // ---------------------------------------------------------------- the recorded base

  datatype Base = Base(thread: string, endOrdinal: Option<int>, endByte: Option<int>)

  datatype History = History(base: Option<Base>, mode: string)

  /** A JSON number that fits int64: no fraction, no exponent. */
  function Int64Of(raw: string): Option<int> {
    var negative := raw != "" && raw[0] == '-';
    var digits := if negative then raw[1..] else raw;
    if digits == "" || !AllDigits(digits) then None
    else
      var m: int := Decimal(digits);
      var n := if negative then -m else m;
      if -0x8000_0000_0000_0000 <= n < 0x8000_0000_0000_0000 then Some(n) else None
  }

  function DecodeInt(v: Value, prev: Option<int>): Decoded<Option<int>> {
    if IsNull(v) then Decoded(None, true)
    else if v.Lit? && Int64Of(v.raw).Some? then Decoded(Int64Of(v.raw), true)
    else Decoded(prev, false)
  }

  function DecodeBase(ms: Members, b: Base): Decoded<Base> {
    match ms
    case NoMembers => Decoded(b, true)
    case Member(_, key, _, _, value, _, rest) =>
      var field := Fold(Unquote(key));
      var thread := if field == "thread_id" then DecodeString(value, b.thread) else Decoded(b.thread, true);
      var ordinal := if field == "end_ordinal_exclusive" then DecodeInt(value, b.endOrdinal) else Decoded(b.endOrdinal, true);
      var byte := if field == "end_byte_offset" then DecodeInt(value, b.endByte) else Decoded(b.endByte, true);
      var others := DecodeBase(rest, Base(thread.value, ordinal.value, byte.value));
      Decoded(others.value, thread.ok && ordinal.ok && byte.ok && others.ok)
  }

  function DecodeBasePointer(v: Value, prev: Option<Base>): Decoded<Option<Base>> {
    match v
    case Obj(_, members) =>
      var d := DecodeBase(members, if prev.Some? then prev.value else Base("", None, None));
      Decoded(Some(d.value), d.ok)
    case _ => if IsNull(v) then Decoded(None, true) else Decoded(prev, false)
  }

  function DecodeHistory(ms: Members, h: History): Decoded<History> {
    match ms
    case NoMembers => Decoded(h, true)
    case Member(_, key, _, _, value, _, rest) =>
      var field := Fold(Unquote(key));
      var base := if field == "history_base" then DecodeBasePointer(value, h.base) else Decoded(h.base, true);
      var mode := if field == "history_mode" then DecodeString(value, h.mode) else Decoded(h.mode, true);
      var others := DecodeHistory(rest, History(base.value, mode.value));
      Decoded(others.value, base.ok && mode.ok && others.ok)
  }

  function DecodeMetaHistory(ms: Members, h: History): Decoded<History> {
    match ms
    case NoMembers => Decoded(h, true)
    case Member(_, key, _, _, value, _, rest) =>
      var first := if Fold(Unquote(key)) != "payload" then Decoded(h, true)
        else match value
          case Obj(_, members) => DecodeHistory(members, h)
          case _ => Decoded(h, IsNull(value));
      var others := DecodeMetaHistory(rest, first.value);
      Decoded(others.value, first.ok && others.ok)
  }

  /** What the first record of a rollout says about its base; None if it does not read. */
  function ReadHistoryBase(content: string, thread: string): Option<History> {
    var line := FirstLine(content);
    if !EndsInNewline(line) || |line| > MAX_HEADER || !SessionMeta(line, thread) then None
    else
      match Parse(line)
      case Got(Doc(_, Obj(_, members), _), _) =>
        var d := DecodeMetaHistory(members, History(None, ""));
        if d.ok then Some(d.value) else None
      case _ => None
  }

  predicate SafeThread(id: string) {
    0 < |id| <= 256 && forall c <- id :: 'a' <= c <= 'z' || 'A' <= c <= 'Z' || '0' <= c <= '9' || c == '-' || c == '_'
  }

  // ---------------------------------------------------------------- a lineage

  datatype Ancestor = Ancestor(id: string, path: string)

  /** The histories as readers see them, and where each thread's rollout is, if it is
      found and not ambiguous. */
  datatype Archive = Archive(files: map<string, string>, located: map<string, string>)

  predicate Readable(a: Archive, at: Ancestor) {
    at.path in a.files && ReadHistoryBase(a.files[at.path], at.id).Some?
  }

  function HistoryAt(a: Archive, at: Ancestor): History
    requires Readable(a, at)
  {
    ReadHistoryBase(a.files[at.path], at.id).value
  }

  /** The second is the recorded base of the first, with a cutoff inside its file. */
  predicate BaseOf(a: Archive, at: Ancestor, base: Ancestor) {
    Readable(a, at) &&
    (var h := HistoryAt(a, at);
     h.base.Some? && h.base.value.thread == base.id && base.id != at.id && SafeThread(base.id) &&
     h.base.value.endOrdinal.Some? && 0 <= h.base.value.endOrdinal.value &&
     h.base.value.endByte.Some? && base.path in a.files && 0 <= h.base.value.endByte.value <= |a.files[base.path]|)
  }

  /** No base is recorded, or a paginated rollout continues itself. */
  predicate Original(a: Archive, at: Ancestor) {
    Readable(a, at) && (var h := HistoryAt(a, at); h.base.None? || (h.base.value.thread == at.id && h.mode == "paginated"))
  }

  function From(start: Ancestor, ancestors: seq<Ancestor>, i: nat): Ancestor
    requires i <= |ancestors|
  {
    if i == 0 then start else ancestors[i - 1]
  }

  predicate Linked(a: Archive, start: Ancestor, ancestors: seq<Ancestor>) {
    forall i :: 0 <= i < |ancestors| ==> BaseOf(a, From(start, ancestors, i), ancestors[i])
  }

  predicate Distinct(start: Ancestor, ancestors: seq<Ancestor>) {
    && (forall i :: 0 <= i < |ancestors| ==> ancestors[i].id != start.id)
    && (forall i, j :: 0 <= i < j < |ancestors| ==> ancestors[i].id != ancestors[j].id)
  }

  predicate Located(a: Archive, ancestors: seq<Ancestor>) {
    forall i :: 0 <= i < |ancestors| ==> ancestors[i].id in a.located && a.located[ancestors[i].id] == ancestors[i].path
  }

  /** A walk up the recorded bases, without repetition. */
  predicate Walked(a: Archive, start: Ancestor, ancestors: seq<Ancestor>) {
    Linked(a, start, ancestors) && Distinct(start, ancestors) && Located(a, ancestors)
  }

  /** Where a walk has come to. */
  function End(start: Ancestor, ancestors: seq<Ancestor>): Ancestor { From(start, ancestors, |ancestors|) }

  datatype Walk = WalkFailed | Missing | Whole(ancestors: seq<Ancestor>)

  /** The chain walk.  An ancestor that cannot be located ends it without an error. */
  method WalkAncestors(a: Archive, start: Ancestor) returns (w: Walk)
    ensures w.Whole? ==>
      (Walked(a, start, w.ancestors) && |w.ancestors| < MAX_DEPTH && Original(a, End(start, w.ancestors)))
    ensures w.Missing? ==>
      (exists ancestors :: (Walked(a, start, ancestors) && |ancestors| < MAX_DEPTH && Dangling(a, End(start, ancestors))))
  {
    hide ReadHistoryBase, SafeThread, Walked;
    StartWalk(a, start);
    var ancestors: seq<Ancestor> := [];
    var seen := {start.id};
    var at := start;
    var depth := 0;
    while true
      invariant depth == |ancestors| <= MAX_DEPTH && at == End(start, ancestors)
      invariant Walked(a, start, ancestors)
      invariant seen == {start.id} + Ids(ancestors)
      decreases MAX_DEPTH - depth
    {
      var proceed: bool := *;
      if !proceed || depth >= MAX_DEPTH || !Readable(a, at) { return WalkFailed; }
      var h := HistoryAt(a, at);
      if h.base.None? { return Whole(ancestors); }
      var base := h.base.value;
      if base.thread == at.id { return if h.mode == "paginated" then Whole(ancestors) else WalkFailed; }
      if !SafeThread(base.thread) || base.thread in seen || base.endOrdinal.None? || base.endByte.None?
         || base.endOrdinal.value < 0 || base.endByte.value < 0 {
        return WalkFailed;
      }
      if base.thread !in a.located { return Missing; }
      var next := Ancestor(base.thread, a.located[base.thread]);
      var prepared: bool := *;
      if !prepared || next.path !in a.files || base.endByte.value > |a.files[next.path]| { return WalkFailed; }
      WalkOn(a, start, ancestors, next);
      seen := seen + {base.thread};
      ancestors := ancestors + [next];
      at := next;
      depth := depth + 1;
    }
  }

  function Ids(ancestors: seq<Ancestor>): set<string> { set i | 0 <= i < |ancestors| :: ancestors[i].id }

  /** A base is recorded that cannot be located. */
  predicate Dangling(a: Archive, at: Ancestor) {
    Readable(a, at) && HistoryAt(a, at).base.Some? && HistoryAt(a, at).base.value.thread !in a.located
  }

  lemma StartWalk(a: Archive, start: Ancestor)
    ensures Walked(a, start, []) && Ids([]) == {} && End(start, []) == start
  {
  }

  lemma WalkOn(a: Archive, start: Ancestor, ancestors: seq<Ancestor>, next: Ancestor)
    requires Walked(a, start, ancestors) && BaseOf(a, End(start, ancestors), next)
    requires next.id !in {start.id} + Ids(ancestors) && next.id in a.located && a.located[next.id] == next.path
    ensures Walked(a, start, ancestors + [next]) && Ids(ancestors + [next]) == Ids(ancestors) + {next.id}
    ensures End(start, ancestors + [next]) == next
  {
    hide BaseOf;
    LinkOn(a, start, ancestors, next);
    IdsOn(start, ancestors, next);
    hide Linked, Distinct, Ids;
  }

  lemma LinkOn(a: Archive, start: Ancestor, ancestors: seq<Ancestor>, next: Ancestor)
    requires Linked(a, start, ancestors) && BaseOf(a, End(start, ancestors), next)
    ensures Linked(a, start, ancestors + [next])
  {
    hide BaseOf;
    var more := ancestors + [next];
    forall i | 0 <= i < |more|
      ensures BaseOf(a, From(start, more, i), more[i])
    {
      assert From(start, more, i) == From(start, ancestors, i);
      if i < |ancestors| { assert BaseOf(a, From(start, ancestors, i), ancestors[i]); }
    }
  }

  lemma IdsOn(start: Ancestor, ancestors: seq<Ancestor>, next: Ancestor)
    requires Distinct(start, ancestors) && next.id !in {start.id} + Ids(ancestors)
    ensures Distinct(start, ancestors + [next]) && Ids(ancestors + [next]) == Ids(ancestors) + {next.id}
  {
    var more := ancestors + [next];
    forall i | 0 <= i < |ancestors|
      ensures ancestors[i].id != next.id
    {
      assert ancestors[i].id in Ids(ancestors);
    }
    assert forall i :: 0 <= i < |ancestors| ==> more[i] == ancestors[i];
    forall id
      ensures id in Ids(more) <==> id in Ids(ancestors) + {next.id}
    {
      if id in Ids(ancestors) {
        var i :| 0 <= i < |ancestors| && ancestors[i].id == id;
        assert more[i].id == id;
      }
      if id == next.id { assert more[|ancestors|].id == id; }
    }
  }

  // ---------------------------------------------------------------- cleaning

  /** Ancestors are cleaned without a context policy, every offset kept. */
  const SHARED: Policy := Policy("", [], true)

  /** The text after a successful cleaning of a shared history. */
  predicate CleanedText(before: string, after: string, thread: string) {
    Rewrite(before, thread, SHARED).Scanned? && Rewrite(before, thread, SHARED).output == after
  }

  /** The same record boundaries, and with them every cutoff. */
  ghost predicate SameOffsets(before: string, after: string) {
    |before| == |after| && forall k: nat :: Boundary(before, k) <==> Boundary(after, k)
  }

  /** No shared history is patched, so every record keeps its ordinal. */
  lemma CleaningKeepsOrdinals(before: string, after: string, thread: string)
    requires CleanedText(before, after, thread)
    ensures |Lines(after)| == |Lines(before)|
    ensures forall i :: 0 <= i < |Lines(before)| ==> OrdinalOf(Lines(after)[i]) == OrdinalOf(Lines(before)[i])
  {
    hide Lines, ScanFrom, OrdinalOf, PatchedInPlace;
    OrdinalsKept(before, thread, SHARED);
  }

  lemma CleaningKeepsOffsets(before: string, after: string, thread: string)
    requires CleanedText(before, after, thread)
    ensures SameOffsets(before, after)
  {
    hide Boundary, SameShape, Lines, ScanFrom;
    ShapeKept(before, thread, SHARED);
    forall k: nat
      ensures |before| == |after| && (Boundary(before, k) <==> Boundary(after, k))
    {
      ShapeKeepsBoundaries(before, after, k);
    }
    ShapeKeepsBoundaries(before, after, 0);
  }

  /** A cleaned history is one that cleaning leaves alone. */
  lemma CleanedOnce(before: string, after: string, thread: string)
    requires CleanedText(before, after, thread)
    ensures CleanedText(after, after, thread) && !Rewrite(after, thread, SHARED).result.changed
  {
    hide ScanFrom;
    RewriteIsIdempotent(before, thread, SHARED);
  }

  class Histories {
    const located: map<string, string>
    var files: map<string, string>
    ghost var cleaned: seq<string>

    constructor (files: map<string, string>, located: map<string, string>)
      ensures this.files == files && this.located == located && cleaned == []
    {
      this.files, this.located, cleaned := files, located, [];
    }

    /** SanitizeFile on a shared history: left alone if a certificate or a scan finds nothing
        to do, replaced in one step otherwise.  The lock, the staging file and the syncs may
        fail; a failed sync of the directory is reported after the replacement. */
    method SanitizeFile(at: Ancestor) returns (ok: bool)
      requires at.path in files
      modifies this`files, this`cleaned
      ensures cleaned == old(cleaned) + [at.id]
      ensures files.Keys == old(files).Keys
      ensures ok ==> CleanedText(old(files[at.path]), files[at.path], at.id)
      ensures files == old(files) || (CleanedText(old(files[at.path]), files[at.path], at.id) && files == old(files)[at.path := files[at.path]])
    {
      hide ScanFrom;
      cleaned := cleaned + [at.id];
      var content := files[at.path];
      var preview := Inspect(content, at.id, SHARED);
      if preview.Failed? { return false; }
      if !preview.result.changed {
        CleanRewrite(content, at.id, SHARED);
        return true;
      }
      var locked: bool := *;
      if !locked { return false; }
      var o := Rewrite(content, at.id, SHARED);
      if o.Failed? { return false; }
      var staged: bool := *;
      if !staged { return false; }
      files := files[at.path := o.output];
      ok := *;
    }

    /** SanitizeAncestors: walk, then clean from the oldest ancestor down. */
    method SanitizeAncestors(start: Ancestor) returns (ok: bool, ghost walked: Walk)
      modifies this`files, this`cleaned
      ensures files.Keys == old(files).Keys
      ensures forall p :: p in files ==> SameOffsets(old(files)[p], files[p])
      ensures !walked.Whole? ==> (files == old(files) && cleaned == old(cleaned) && (ok <==> walked.Missing?))
      ensures walked.Whole? ==> (Walked(Archive(old(files), located), start, walked.ancestors) && |walked.ancestors| < MAX_DEPTH)
      ensures walked.Whole? ==> CleanedUpTo(old(cleaned), cleaned, walked.ancestors, ok)
      ensures walked.Whole? ==> OthersSame(old(files), files, walked.ancestors)
      ensures walked.Whole? && ok ==> CleanFrom(files, walked.ancestors, 0)
    {
      hide ScanFrom, Distinct, CleanFrom, SameOffsets, ReadHistoryBase, Walked, SafeThread, CleanedText, OthersSame, Dangling, Original, Readable;
      var w := WalkAncestors(Archive(files, located), start);
      walked := w;
      SameAll(files);
      if w.WalkFailed? { return false, w; }
      if w.Missing? { return true, w; }
      var ancestors := w.ancestors;
      WalkedPaths(Archive(files, located), start, ancestors);
      PathsDistinct(Archive(files, located), start, ancestors);
      NothingElse(files, ancestors);
      NoneClean(files, ancestors);
      var i := |ancestors|;
      assert cleaned == old(cleaned) + OldestFirst(ancestors, 0);
      ok := true;
      while i > 0 && ok
        invariant 0 <= i <= |ancestors| && files.Keys == old(files).Keys
        invariant forall p :: p in files ==> SameOffsets(old(files)[p], files[p])
        invariant OthersSame(old(files), files, ancestors)
        invariant ok ==> CleanFrom(files, ancestors, i)
        invariant cleaned == old(cleaned) + OldestFirst(ancestors, |ancestors| - i)
        decreases i
      {
        var proceed: bool := *;
        if !proceed { return false, w; }
        i := i - 1;
        ghost var before := files;
        ok := SanitizeFile(ancestors[i]);
        OneCleaned(old(files), before, files, ancestors, i);
        if ok { MoreClean(before, files, ancestors, i); }
      }
      return ok, w;
    }
  }

  /** Some of the ancestors were cleaned, oldest first; all of them on success. */
  ghost predicate CleanedUpTo(before: seq<string>, cleaned: seq<string>, ancestors: seq<Ancestor>, ok: bool) {
    exists n :: 0 <= n <= |ancestors| && cleaned == before + OldestFirst(ancestors, n) && (ok ==> n == |ancestors|)
  }

  ghost predicate OthersSame(before: map<string, string>, files: map<string, string>, ancestors: seq<Ancestor>) {
    files.Keys == before.Keys &&
    forall p :: p in files && (forall i :: 0 <= i < |ancestors| ==> ancestors[i].path != p) ==> files[p] == before[p]
  }

  /** The ancestors from the i-th on are settled: cleaning them again would change nothing. */
  ghost predicate CleanFrom(files: map<string, string>, ancestors: seq<Ancestor>, i: nat) {
    forall j :: i <= j < |ancestors| ==>
      ancestors[j].path in files && SettledText(files[ancestors[j].path], ancestors[j].id)
  }

  predicate SettledText(text: string, thread: string) {
    CleanedText(text, text, thread) && !Rewrite(text, thread, SHARED).result.changed
  }

  lemma NoneClean(files: map<string, string>, ancestors: seq<Ancestor>)
    ensures CleanFrom(files, ancestors, |ancestors|)
  {
  }

  lemma MoreClean(before: map<string, string>, files: map<string, string>, ancestors: seq<Ancestor>, i: nat)
    requires i < |ancestors| && ancestors[i].path in before && before.Keys == files.Keys
    requires CleanFrom(before, ancestors, i + 1)
    requires forall j, k :: 0 <= j < k < |ancestors| ==> ancestors[j].path != ancestors[k].path
    requires CleanedText(before[ancestors[i].path], files[ancestors[i].path], ancestors[i].id)
    requires files == before || files == before[ancestors[i].path := files[ancestors[i].path]]
    ensures CleanFrom(files, ancestors, i)
  {
    hide CleanedText, Rewrite;
    CleanedOnce(before[ancestors[i].path], files[ancestors[i].path], ancestors[i].id);
    assert SettledText(files[ancestors[i].path], ancestors[i].id);
    hide SettledText;
  }

  /** A rollout says whose it is, so distinct threads have distinct files. */
  lemma PathsDistinct(a: Archive, start: Ancestor, ancestors: seq<Ancestor>)
    requires Walked(a, start, ancestors) && Original(a, End(start, ancestors))
    ensures forall j, k :: 0 <= j < k < |ancestors| ==> ancestors[j].path != ancestors[k].path
  {
    hide Walked, Original, Readable;
    forall j, k | 0 <= j < k < |ancestors|
      ensures ancestors[j].path != ancestors[k].path
    {
      AncestorReadable(a, start, ancestors, j);
      AncestorReadable(a, start, ancestors, k);
      AncestorsDiffer(a, start, ancestors, j, k);
      TwoOwners(a, ancestors[j], ancestors[k]);
    }
  }

  lemma AncestorReadable(a: Archive, start: Ancestor, ancestors: seq<Ancestor>, i: nat)
    requires i < |ancestors| && Walked(a, start, ancestors) && Original(a, End(start, ancestors))
    ensures Readable(a, ancestors[i])
  {
    hide ReadHistoryBase, SafeThread;
    if i + 1 < |ancestors| { assert BaseOf(a, From(start, ancestors, i + 1), ancestors[i + 1]); }
  }

  lemma AncestorsDiffer(a: Archive, start: Ancestor, ancestors: seq<Ancestor>, j: nat, k: nat)
    requires j < k < |ancestors| && Walked(a, start, ancestors)
    ensures ancestors[j].id != ancestors[k].id
  {
    hide Linked, Located;
  }

  lemma TwoOwners(a: Archive, x: Ancestor, y: Ancestor)
    requires Readable(a, x) && Readable(a, y) && x.id != y.id
    ensures x.path != y.path
  {
    hide ReadHistoryBase;
    if x.path == y.path { OneOwner(a.files[x.path], x.id, y.id); }
  }

  lemma OneOwner(content: string, x: string, y: string)
    requires ReadHistoryBase(content, x).Some? && ReadHistoryBase(content, y).Some?
    ensures x == y
  {
    hide FirstLine, Parse, DecodeMeta, DecodeMetaHistory;
  }

  lemma NothingElse(files: map<string, string>, ancestors: seq<Ancestor>)
    ensures OthersSame(files, files, ancestors)
  {
  }

  lemma WalkedPaths(a: Archive, start: Ancestor, ancestors: seq<Ancestor>)
    requires Walked(a, start, ancestors)
    ensures forall i :: 0 <= i < |ancestors| ==> ancestors[i].path in a.files
  {
    hide ReadHistoryBase;
    forall i | 0 <= i < |ancestors|
      ensures ancestors[i].path in a.files
    {
      assert BaseOf(a, From(start, ancestors, i), ancestors[i]);
    }
  }

  lemma OneCleaned(original: map<string, string>, before: map<string, string>, files: map<string, string>,
                   ancestors: seq<Ancestor>, i: nat)
    requires i < |ancestors| && ancestors[i].path in before && original.Keys == before.Keys == files.Keys
    requires forall p :: p in before ==> SameOffsets(original[p], before[p])
    requires OthersSame(original, before, ancestors)
    requires files == before || (CleanedText(before[ancestors[i].path], files[ancestors[i].path], ancestors[i].id)
                                 && files == before[ancestors[i].path := files[ancestors[i].path]])
    ensures forall p :: p in files ==> SameOffsets(original[p], files[p])
    ensures OthersSame(original, files, ancestors)
  {
    hide SameOffsets, CleanedText;
    if files != before {
      var path := ancestors[i].path;
      CleaningKeepsOffsets(before[path], files[path], ancestors[i].id);
      assert SameOffsets(original[path], before[path]);
      OffsetsTransitive(original[path], before[path], files[path]);
    }
  }

  lemma OffsetsTransitive(a: string, b: string, c: string)
    requires SameOffsets(a, b) && SameOffsets(b, c)
    ensures SameOffsets(a, c)
  {
    hide Boundary;
    forall k: nat
      ensures Boundary(a, k) <==> Boundary(c, k)
    {
      assert Boundary(a, k) <==> Boundary(b, k);
    }
  }

  /** The n oldest ancestors, oldest first. */
  function OldestFirst(ancestors: seq<Ancestor>, n: nat): seq<string>
    requires n <= |ancestors|
  {
    if n == 0 then [] else OldestFirst(ancestors, n - 1) + [ancestors[|ancestors| - n].id]
  }

  lemma SameAll(files: map<string, string>)
    ensures forall p :: p in files ==> SameOffsets(files[p], files[p])
  {
  }

  /** A cutoff recorded in a descendant is still on the same boundary and inside the file. */
  lemma CutoffStays(a: Archive, at: Ancestor, base: Ancestor, after: string)
    requires BaseOf(a, at, base) && SameOffsets(a.files[base.path], after)
    ensures var cutoff := HistoryAt(a, at).base.value.endByte.value;
      0 <= cutoff <= |after| && (Boundary(a.files[base.path], cutoff) <==> Boundary(after, cutoff))
  {
    hide ReadHistoryBase, Boundary, SafeThread;
  }
}
