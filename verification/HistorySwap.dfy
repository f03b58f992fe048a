/** The plain and the compressed copy of a history (internal/rollout/compression.go,
    ResolvePath and PreparePlain; scripts/history-maintenance.py, eligible and
    compress_one) as a crash-safe store with two representations.  A directory entry
    changes at once for running processes but only survives a crash for certain after the
    directory was synced, so an entry carries what a crash may leave of it.  Any call may
    fail between any two steps, which is also what a crash does. */
module HistorySwap {
  import opened Wrappers

  /** A directory entry: what it names now, and everything a crash may leave there. */
  datatype Entry = Entry(now: Option<string>, may: set<Option<string>>)

  datatype Snapshot = Snapshot(plain: Entry, packed: Entry)

  /** The plain copy wins; the compressed copy is decoded. */
  function Resolve(decode: string -> Option<string>, plain: Option<string>, packed: Option<string>): Option<string> {
    if plain.Some? then plain
    else if packed.Some? then decode(packed.value)
    else None
  }

  /** Readers see the history, and a crash leaves one of the acceptable histories. */
  ghost predicate Safe(decode: string -> Option<string>, s: Snapshot, history: string, acceptable: set<string>) {
    && s.plain.now in s.plain.may && s.packed.now in s.packed.may
    && Resolve(decode, s.plain.now, s.packed.now) == Some(history)
    && forall p, c :: p in s.plain.may && c in s.packed.may ==>
         var r := Resolve(decode, p, c); r.Some? && r.value in acceptable
  }

  function Put(e: Entry, content: Option<string>): Entry { Entry(content, e.may + {content}) }

  function Synced(e: Entry): Entry { Entry(e.now, {e.now}) }

  /** What a crash may leave of a write that was not flushed. */
  function Torn(content: string): set<Option<string>> {
    set n | 0 <= n <= |content| :: Some(content[..n])
  }

  /** A staged file, not yet published under a name. */
  datatype Staged = Staged(content: string, flushed: bool)

  datatype Prepared = Failure | Path(plain: bool)

  class HistoryStore {
    const decode: string -> Option<string>
    var plain: Entry
    var packed: Entry
    ghost var history: string
    ghost var acceptable: set<string>
    ghost var trace: seq<Snapshot>

    ghost predicate Valid()
      reads this
    {
      Safe(decode, Snapshot(plain, packed), history, acceptable)
    }

    /** Every state between two lengths of the trace was safe. */
    ghost predicate SafeSince(n: nat)
      reads this
      requires n <= |trace|
    {
      forall i :: n <= i < |trace| ==> Safe(decode, trace[i], history, acceptable)
    }

    constructor (decode: string -> Option<string>, text: string)
      ensures Valid() && history == text && acceptable == {text} && this.decode == decode
      ensures plain == Entry(Some(text), {Some(text)}) && packed == Entry(None, {None}) && trace == []
    {
      this.decode := decode;
      plain, packed := Entry(Some(text), {Some(text)}), Entry(None, {None});
      history, acceptable, trace := text, {text}, [];
    }

    // -------------------------------------------------------------- system calls

    /** Publishing a staged file under the plain name; fails if the name exists. */
    method LinkPlain(staged: Staged) returns (ok: bool)
      modifies this`plain, this`trace
      ensures ok ==> old(plain.now).None?
      ensures plain == if !ok then old(plain)
        else Entry(Some(staged.content), old(plain.may) + (if staged.flushed then {Some(staged.content)} else Torn(staged.content)))
      ensures trace == old(trace) + [Snapshot(plain, packed)]
    {
      ok := *;
      if plain.now.Some? { ok := false; }
      if ok {
        plain := Entry(Some(staged.content), plain.may + (if staged.flushed then {Some(staged.content)} else Torn(staged.content)));
      }
      trace := trace + [Snapshot(plain, packed)];
    }

    method LinkPacked(staged: Staged) returns (ok: bool)
      modifies this`packed, this`trace
      ensures ok ==> old(packed.now).None?
      ensures packed == if !ok then old(packed)
        else Entry(Some(staged.content), old(packed.may) + (if staged.flushed then {Some(staged.content)} else Torn(staged.content)))
      ensures trace == old(trace) + [Snapshot(plain, packed)]
    {
      ok := *;
      if packed.now.Some? { ok := false; }
      if ok {
        packed := Entry(Some(staged.content), packed.may + (if staged.flushed then {Some(staged.content)} else Torn(staged.content)));
      }
      trace := trace + [Snapshot(plain, packed)];
    }

    method UnlinkPlain() returns (ok: bool)
      modifies this`plain, this`trace
      ensures plain == if ok then Put(old(plain), None) else old(plain)
      ensures trace == old(trace) + [Snapshot(plain, packed)]
    {
      ok := *;
      if ok { plain := Put(plain, None); }
      trace := trace + [Snapshot(plain, packed)];
    }

    method UnlinkPacked() returns (ok: bool)
      modifies this`packed, this`trace
      ensures packed == if ok then Put(old(packed), None) else old(packed)
      ensures trace == old(trace) + [Snapshot(plain, packed)]
    {
      ok := *;
      if ok { packed := Put(packed, None); }
      trace := trace + [Snapshot(plain, packed)];
    }

    /** After a successful sync of the directory a crash leaves what is there now. */
    method SyncDir() returns (ok: bool)
      modifies this`plain, this`packed, this`trace
      ensures plain == if ok then Synced(old(plain)) else old(plain)
      ensures packed == if ok then Synced(old(packed)) else old(packed)
      ensures trace == old(trace) + [Snapshot(plain, packed)]
    {
      ok := *;
      if ok { plain, packed := Synced(plain), Synced(packed); }
      trace := trace + [Snapshot(plain, packed)];
    }

    // -------------------------------------------------------------- restoring

    /** PreparePlain: decode into a staged file, flush it, publish it, sync, and only then
        remove the compressed copy. */
    method PreparePlain() returns (r: Prepared)
      requires Valid()
      modifies this`plain, this`packed, this`trace
      ensures Valid() && |old(trace)| <= |trace| && trace[..|old(trace)|] == old(trace) && SafeSince(|old(trace)|)
      ensures r.Path? ==> r.plain && plain.now == Some(history)
      ensures old(plain.now).Some? ==> r == Path(true) && plain == old(plain) && packed == old(packed)
      ensures old(plain.now).None? && r.Path? ==>
        plain == Synced(Entry(Some(history), {})) && packed == Synced(Entry(None, {}))
    {
      if plain.now.Some? { return Path(true); }
      // Both locks, the staging file, the decoder and the flush may fail; nothing is published yet.
      var ready: bool := *;
      if !ready || packed.now.None? || decode(packed.now.value).None? { return Failure; }
      var staged := Staged(decode(packed.now.value).value, true);
      var ok := LinkPlain(staged);
      if !ok { return Failure; }
      ok := SyncDir();
      if !ok { return Failure; }
      ok := UnlinkPacked();
      if !ok { return Failure; }
      ok := SyncDir();
      if !ok { return Failure; }
      return Path(true);
    }

    // -------------------------------------------------------------- compressing

    /** compress_one: encode and verify, publish beside the plain copy, sync, recheck, and
        only then remove the plain copy.  encoded is whatever the encoder wrote; eligible and
        same stand for the checks of age, size, metadata and access. */
    method CompressOne(encoded: string) returns (saved: nat)
      requires Valid()
      modifies this`plain, this`packed, this`trace
      ensures Valid() && |old(trace)| <= |trace| && trace[..|old(trace)|] == old(trace) && SafeSince(|old(trace)|)
      ensures saved > 0 ==> plain == Synced(Entry(None, {})) && packed == Synced(packed) && packed.now.Some?
      ensures saved > 0 ==> decode(packed.now.value) == Some(history) && saved + |packed.now.value| == |history|
      ensures old(packed.now).Some? || old(plain.now).None? ==> saved == 0 && plain == old(plain) && packed == old(packed)
    {
      var eligible: bool := *;
      if !eligible || plain.now.None? || packed.now.Some? { return 0; }
      var before := plain.now.value;
      if decode(encoded) != Some(before) || |encoded| >= |before| { return 0; }
      var flushed: bool, same: bool := *, *;
      if !flushed || !same { return 0; }
      var ok := LinkPacked(Staged(encoded, true));
      if !ok { return 0; }
      ok := SyncDir();
      if !ok { return 0; }
      same := *;
      if !same {
        ok := UnlinkPacked();
        if ok { ok := SyncDir(); }
        return 0;
      }
      ok := UnlinkPlain();
      if !ok { return 0; }
      ok := SyncDir();
      if !ok { return 0; }
      return |before| - |encoded|;
    }

    // -------------------------------------------------------------- what happens between maintenance

    /** A writer appends to the plain copy; until it is flushed a crash may tear the write. */
    method Append(text: string)
      requires Valid() && plain.now.Some?
      modifies this`plain, this`history, this`acceptable, this`trace
      ensures Valid() && history == old(history) + text && plain.now == Some(history)
      ensures acceptable == old(acceptable) + set n | 0 <= n <= |text| :: old(history) + text[..n]
      ensures trace == old(trace) + [Snapshot(plain, packed)]
    {
      var was := plain.now.value;
      ghost var torn := set n | 0 <= n <= |text| :: was + text[..n];
      assert text[..|text|] == text && text[..0] == "" && was + "" == was;
      plain := Entry(Some(was + text), plain.may + set n | 0 <= n <= |text| :: Some(was + text[..n]));
      history := was + text;
      acceptable := acceptable + torn;
      forall p, c | p in plain.may && c in packed.may
        ensures var r := Resolve(decode, p, c); r.Some? && r.value in acceptable
      {
        if p !in old(plain.may) {
          var n :| 0 <= n <= |text| && p == Some(was + text[..n]);
          assert was + text[..n] in torn;
        }
      }
      trace := trace + [Snapshot(plain, packed)];
    }

    /** The plain copy and its directory are flushed: only the current history is acceptable. */
    method Flush()
      requires Valid()
      modifies this`plain, this`packed, this`acceptable, this`trace
      ensures Valid() && acceptable == {history}
      ensures plain == Synced(old(plain)) && packed == Synced(old(packed))
      ensures trace == old(trace) + [Snapshot(plain, packed)]
    {
      plain, packed, acceptable := Synced(plain), Synced(packed), {history};
      trace := trace + [Snapshot(plain, packed)];
    }

    /** A crash leaves any combination of what it may leave of the two entries. */
    method Crash()
      requires Valid()
      modifies this`plain, this`packed, this`history, this`acceptable, this`trace
      ensures Valid() && history in old(acceptable) && acceptable == {history}
      ensures plain.now in old(plain.may) && packed.now in old(packed.may)
      ensures trace == old(trace) + [Snapshot(plain, packed)]
    {
      var p :| p in plain.may;
      var c :| c in packed.may;
      plain, packed := Entry(p, {p}), Entry(c, {c});
      history := Resolve(decode, p, c).value;
      acceptable := {history};
      trace := trace + [Snapshot(plain, packed)];
    }
  }

  // ---------------------------------------------------------------- whole runs

  datatype Op = Restore | Compress(encoded: string) | Write(text: string) | Sync | PowerLoss

  /** What readers must find after the operations, as long as no power is lost. */
  function Written(history: string, ops: seq<Op>): string
    decreases |ops|
  {
    if ops == [] then history
    else Written(if ops[0].Write? then history + ops[0].text else history, ops[1..])
  }

  /** The texts of the writes since the last sync may be lost with the power, nothing else:
      what may remain after the operations, starting from the histories that may remain now. */
  ghost predicate MayRemain(history: string, acceptable: set<string>, ops: seq<Op>, result: string)
    decreases |ops|
  {
    if ops == [] then result == history
    else
      match ops[0]
      case Write(text) => MayRemain(history + text, acceptable + set n | 0 <= n <= |text| :: history + text[..n], ops[1..], result)
      case Sync => MayRemain(history, {history}, ops[1..], result)
      case PowerLoss => exists h :: h in acceptable && MayRemain(h, {h}, ops[1..], result)
      case _ => MayRemain(history, acceptable, ops[1..], result)
  }

  /** Any sequence of restorations, compressions, writes, syncs and power losses, each
      maintenance step failing wherever it likes.  A write first restores the plain copy and
      is refused when that fails. */
  method Live(store: HistoryStore, ops: seq<Op>) returns (done: seq<Op>)
    requires store.Valid()
    modifies store
    ensures store.Valid() && |done| == |ops|
    ensures forall i :: 0 <= i < |ops| ==> done[i] == ops[i] || (ops[i].Write? && done[i] == Restore)
    ensures Resolve(store.decode, store.plain.now, store.packed.now) == Some(store.history)
    ensures MayRemain(old(store.history), old(store.acceptable), done, store.history)
    ensures PowerLoss !in ops ==> store.history == Written(old(store.history), done)
  {
    ghost var history0, acceptable0 := store.history, store.acceptable;
    done := [];
    var i := 0;
    ReachedStart(history0, acceptable0);
    while i < |ops|
      invariant 0 <= i <= |ops| && |done| == i && store.Valid()
      invariant forall j :: 0 <= j < i ==> done[j] == ops[j] || (ops[j].Write? && done[j] == Restore)
      invariant Reached(history0, acceptable0, done, store.history, store.acceptable)
      invariant PowerLoss !in ops ==> store.history == Written(history0, done)
    {
      ghost var history, acceptable, before := store.history, store.acceptable, done;
      var op := ops[i];
      match op {
        case Restore => var _ := store.PreparePlain();
        case Compress(encoded) => var _ := store.CompressOne(encoded);
        case Write(text) =>
          var r := store.PreparePlain();
          if r.Path? { store.Append(text); } else { op := Restore; }
        case Sync => store.Flush();
        case PowerLoss => store.Crash();
      }
      done := done + [op];
      i := i + 1;
      ReachedStep(history0, acceptable0, before, op, history, acceptable, store.history, store.acceptable);
      WrittenStep(history0, before, op);
    }
    ReachedRemains(history0, acceptable0, done, store.history, store.acceptable);
  }

  /** The operations lead from one pair of history and acceptable histories to another. */
  ghost predicate Reached(h0: string, a0: set<string>, done: seq<Op>, h: string, a: set<string>) {
    forall more, result :: MayRemain(h, a, more, result) ==> MayRemain(h0, a0, done + more, result)
  }

  lemma ReachedStart(h: string, a: set<string>)
    ensures Reached(h, a, [], h, a)
  {
    forall more, result | MayRemain(h, a, more, result)
      ensures MayRemain(h, a, [] + more, result)
    {
      assert [] + more == more;
    }
  }

  lemma ReachedRemains(h0: string, a0: set<string>, done: seq<Op>, h: string, a: set<string>)
    requires Reached(h0, a0, done, h, a)
    ensures MayRemain(h0, a0, done, h)
  {
    assert MayRemain(h, a, [], h);
    assert done + [] == done;
  }

  lemma ReachedStep(h0: string, a0: set<string>, done: seq<Op>, op: Op, h: string, a: set<string>, h2: string, a2: set<string>)
    requires Reached(h0, a0, done, h, a)
    requires match op
      case Write(text) => h2 == h + text && a2 == a + set n | 0 <= n <= |text| :: h + text[..n]
      case Sync => h2 == h && a2 == {h}
      case PowerLoss => h2 in a && a2 == {h2}
      case _ => h2 == h && a2 == a
    ensures Reached(h0, a0, done + [op], h2, a2)
  {
    forall more, result | MayRemain(h2, a2, more, result)
      ensures MayRemain(h0, a0, (done + [op]) + more, result)
    {
      assert ([op] + more)[1..] == more;
      assert MayRemain(h, a, [op] + more, result);
      assert (done + [op]) + more == done + ([op] + more);
    }
  }

  lemma {:induction false} WrittenStep(h: string, done: seq<Op>, op: Op)
    ensures Written(h, done + [op]) == var w := Written(h, done); if op.Write? then w + op.text else w
    decreases |done|
  {
    if done == [] {
      assert [op][1..] == [];
    } else {
      assert (done + [op])[1..] == done[1..] + [op];
      WrittenStep(if done[0].Write? then h + done[0].text else h, done[1..], op);
    }
  }

  // ---------------------------------------------------------------- why the order matters

  /** Removing the compressed copy before the directory was synced would let a crash lose both. */
  lemma SyncBeforeUnlinkMatters(decode: string -> Option<string>, z: string, history: string)
    requires decode(z) == Some(history)
    ensures var s := Snapshot(Entry(None, {None}), Entry(Some(z), {Some(z)}));
      var t := s.(plain := Put(s.plain, Some(history)), packed := Put(s.packed, None));
      Safe(decode, s, history, {history}) && !Safe(decode, t, history, {history}) &&
      Resolve(decode, t.plain.now, t.packed.now) == Some(history)
  {
    var s := Snapshot(Entry(None, {None}), Entry(Some(z), {Some(z)}));
    var t := s.(plain := Put(s.plain, Some(history)), packed := Put(s.packed, None));
    assert Safe(decode, s, history, {history});
    assert None in t.plain.may && None in t.packed.may;
    assert Resolve(decode, None, None).None?;
  }
}
