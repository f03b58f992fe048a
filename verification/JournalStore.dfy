/** The durable recovery journals (internal/recovery/store.go): the check with loops before a
    journal is saved and after it is loaded, the limit on its encoding, and the store as one
    durable cell for each root thread. */
module JournalStore {
  import opened Wrappers
  import opened JournalRecord
  import Handlers
  import ThreadState
  import Subtree

  method ValidateJournal(j: Record) returns (ok: bool)
    ensures ok <==> ValidRecord(j)
  {
    if !ValidHeader(j) || |j.threads| == 0 || |j.threads| > Subtree.MAX_THREADS || |j.remaining| > |j.threads| { return false; }
    hide ValidHeader;
    var seen: set<string> := {};
    var i := 0;
    while i < |j.threads|
      invariant 0 <= i <= |j.threads|
      invariant forall k :: 0 <= k < i ==> 0 < |j.threads[k]| <= MAX_ID
      invariant forall id :: id in seen <==> exists k :: 0 <= k < i && j.threads[k] == id
      invariant forall k, l :: 0 <= k < l < i ==> j.threads[k] != j.threads[l]
    {
      var id := j.threads[i];
      if id == "" || |id| > MAX_ID || id in seen { return false; }
      seen := seen + {id};
      i := i + 1;
    }
    if j.threads[|j.threads| - 1] != j.root { return false; }
    var offset := |j.threads| - |j.remaining|;
    i := 0;
    while i < |j.remaining|
      invariant 0 <= i <= |j.remaining|
      invariant forall k :: 0 <= k < i ==> j.remaining[k] == j.threads[offset + k]
    {
      if j.remaining[i] != j.threads[offset + i] {
        assert j.threads[offset..][i] != j.remaining[i];
        return false;
      }
      i := i + 1;
    }
    return true;
  }

  /** The store.  A file holds the encoding of a journal; replacing it is one step, and an
      error may be reported after it. */
  class Store {
    var disk: map<string, Record>

    /** Every journal on disk is valid, fits the limit and is filed under its root. */
    ghost predicate Valid()
      reads this
    {
      forall root :: root in disk ==> disk[root].root == root && Storable(disk[root])
    }

    constructor ()
      ensures Valid() && disk == map[]
    {
      disk := map[];
    }

    method Load(root: string) returns (ok: bool, journal: Option<Record>)
      requires Valid()
      ensures ok ==> root != "" && journal == if root in disk then Some(disk[root]) else None
      ensures ok && journal.Some? ==> journal.value.root == root && Storable(journal.value)
    {
      if root == "" { return false, None; }
      if root !in disk { return true, None; }
      var readable: bool := *;
      if !readable || |Encode(disk[root])| > MAX_SIZE { return false, None; }
      ok := ValidateJournal(disk[root]);
      return ok && disk[root].root == root, Some(disk[root]);
    }

    method Save(j: Record) returns (ok: bool)
      requires Valid()
      modifies this
      ensures Valid()
      ensures ok ==> Storable(j) && disk == old(disk)[j.root := j]
      ensures disk == old(disk) || (Storable(j) && disk == old(disk)[j.root := j])
    {
      var valid := ValidateJournal(j);
      if !valid || |Encode(j)| > MAX_SIZE { return false; }
      var staged: bool := *;
      if !staged { return false; }
      disk := disk[j.root := j];
      ok := *;
    }

    method Clear(root: string) returns (ok: bool)
      requires Valid()
      modifies this
      ensures Valid()
      ensures ok ==> root != "" && disk == old(disk) - {root}
      ensures disk == old(disk) || disk == old(disk) - {root}
    {
      if root == "" { return false; }
      var removed: bool := *;
      if !removed { return false; }
      disk := disk - {root};
      ok := *;
    }
  }

  // ---------------------------------------------------------------- what recovery builds on

  /** The journal as the protocol sees it, and back. */
  function View(j: Record): ThreadState.Journal {
    ThreadState.Journal(Handlers.Route(j.provider, j.model),
      if j.phase == "prepared" then ThreadState.JournalPrepared else ThreadState.JournalRestoring, j.fingerprint, j.threads, j.remaining)
  }

  /** What the store accepts is what the protocol assumes of a journal. */
  lemma RecordsAreJournals(j: Record)
    requires ValidRecord(j)
    ensures ThreadState.RecordOf(j.root, View(j)) == j && ThreadState.ValidJournal(j.root, View(j))
  {
    hide ValidProvider;
    ThreadState.StoredIsValid(j.root, View(j));
  }

  /** The first journal of a recovery. */
  function FirstJournal(root: string, provider: string, model: string, ids: seq<string>): Record {
    Record(if model == "" then 1 else 2, root, provider, model, "prepared", "", ids, ids)
  }

  /** A complete enumeration of the subtree can be recovered if and only if every id and the
      encoding, in which every id stands twice, fit the store's limits. */
  lemma EnumerationIsStorable(root: string, pages: seq<Option<Subtree.Page>>, ids: seq<string>, provider: string, model: string)
    requires Subtree.Complete(root, pages)
    requires Subtree.DeepestFirst(root, Subtree.Parents(Subtree.Entries(pages, Subtree.LastPage(pages, 0).value + 1)), ids)
    requires root != "" && ValidProvider(provider) && (model != "" ==> ValidModel(model))
    ensures Storable(FirstJournal(root, provider, model, ids)) <==>
      (forall id <- ids :: |id| <= MAX_ID) && |EncodeHeader(FirstJournal(root, provider, model, ids))| + 2 * |EncodeList(ids)| + 25 <= MAX_SIZE
  {
    hide Subtree.Complete, Subtree.DeepestFirst, Subtree.Parents, Subtree.Entries, Subtree.LastPage, ValidRecord, ValidProvider, ValidModel, EncodeHeader, EncodeList, Encode;
    Subtree.ListIsJournalReady(root, pages, ids);
    FirstRecord(root, ids, provider, model);
    EncodedSize(FirstJournal(root, provider, model, ids));
  }

  lemma FirstRecord(root: string, ids: seq<string>, provider: string, model: string)
    requires root != "" && ValidProvider(provider) && (model != "" ==> ValidModel(model))
    requires 0 < |ids| <= Subtree.MAX_THREADS && ids[|ids| - 1] == root && "" !in ids
    requires forall i, j :: 0 <= i < j < |ids| ==> ids[i] != ids[j]
    ensures ValidRecord(FirstJournal(root, provider, model, ids)) <==> forall id <- ids :: |id| <= MAX_ID
  {
    hide ValidProvider, ValidModel;
    assert ids[0..] == ids;
    assert root in ids;
    assert forall i :: 0 <= i < |ids| ==> ids[i] in ids;
  }
}
