/** One recovery journal (internal/recovery/store.go): what it must look like, the bytes it
    is stored as, and how their number changes while a recovery works the journal off. */
module JournalRecord {
  import opened GoJson
  import opened ContextPatch
  import Subtree

  const MAX_ID: nat := 1024

  const MAX_FINGERPRINT: nat := 128

  /** No journal file is longer than 16 KiB. */
  const MAX_SIZE: nat := 0x4000

  datatype Record = Record(version: int, root: string, provider: string, model: string, phase: string,
                           fingerprint: string, threads: seq<string>, remaining: seq<string>)

  predicate ProviderChar(c: char) {
    'A' <= c <= 'Z' || 'a' <= c <= 'z' || '0' <= c <= '9' || c == '.' || c == '_' || c == '-'
  }

  predicate ValidProvider(name: string) { name != "" && forall c <- name :: ProviderChar(c) }

  /** A model name as far as ASCII goes: no white space and no control character. */
  predicate ValidModel(model: string) { 0 < |model| <= 256 && forall c <- model :: ' ' < c && c != 127 as char }

  predicate ValidHeader(j: Record) {
    && ((j.version == 1 && j.model == "") || (j.version == 2 && ValidModel(j.model)))
    && 0 < |j.root| <= MAX_ID && ValidProvider(j.provider)
    && (j.phase == "prepared" || j.phase == "restoring") && |j.fingerprint| <= MAX_FINGERPRINT
  }

  /** Distinct ids, the root last, and the remaining ones a suffix. */
  predicate ValidRecord(j: Record) {
    && ValidHeader(j)
    && 0 < |j.threads| <= Subtree.MAX_THREADS && |j.remaining| <= |j.threads|
    && (forall i :: 0 <= i < |j.threads| ==> 0 < |j.threads[i]| <= MAX_ID)
    && (forall i, k :: 0 <= i < k < |j.threads| ==> j.threads[i] != j.threads[k])
    && j.threads[|j.threads| - 1] == j.root
    && j.remaining == j.threads[|j.threads| - |j.remaining|..]
  }

  // ---------------------------------------------------------------- the stored bytes

  /** A list as json.Marshal writes it; the list that is used up has become nil. */
  function EncodeList(ids: seq<string>): string { if ids == [] then "null" else "[" + EncodeItems(ids) }

  function EncodeItems(ids: seq<string>): string
    requires ids != []
  {
    MarshalString(ids[0]) + (if |ids| == 1 then "]" else "," + EncodeItems(ids[1..]))
  }

  function EncodeHeader(j: Record): string {
    "{\"version\":" + (if j.version == 1 then "1" else "2") + ",\"rootId\":" + MarshalString(j.root)
      + ",\"provider\":" + MarshalString(j.provider)
      + (if j.model == "" then "" else ",\"model\":" + MarshalString(j.model))
      + ",\"phase\":" + MarshalString(j.phase)
      + (if j.fingerprint == "" then "" else ",\"sanitizedFingerprint\":" + MarshalString(j.fingerprint))
  }

  function Encode(j: Record): string {
    EncodeHeader(j) + ",\"threads\":" + EncodeList(j.threads) + ",\"remaining\":" + EncodeList(j.remaining) + "}"
  }

  /** What the store writes: a valid journal that fits the file. */
  predicate Storable(j: Record) { ValidRecord(j) && |Encode(j)| <= MAX_SIZE }

  // ---------------------------------------------------------------- its size

  lemma {:induction false} QuoteGrows(k: string)
    ensures |Quote(k)| >= |k|
  {
    hide QuoteChar;
    if k == "" {
    } else if LineSeparator(k) {
      QuoteGrows(k[3..]);
    } else {
      QuoteGrows(k[1..]);
      QuoteCharGrows(k[0]);
    }
  }

  lemma QuoteCharGrows(c: char)
    ensures |QuoteChar(c)| >= 1
  {
  }

  lemma {:induction false} EscapeGrows(b: string)
    ensures |EscapeHtml(b)| >= |b|
  {
    if b != "" { EscapeGrows(b[1..]); }
  }

  lemma MarshalGrows(s: string)
    ensures |MarshalString(s)| >= |s| + 2
  {
    hide Quote, EscapeHtml;
    QuoteGrows(s);
    EscapeGrows(Quote(s));
  }

  /** The phases as they are written; the later one is a byte longer. */
  lemma PhaseSizes()
    ensures |MarshalString("prepared")| == 10 && |MarshalString("restoring")| == 11
  {
    hide MarshalString;
    MarshalPlain("prepared");
    MarshalPlain("restoring");
  }

  /** Taking the first id off shortens a list, also when it was the last. */
  lemma ListShrinks(ids: seq<string>)
    requires ids != [] && ids[0] != ""
    ensures |EncodeList(ids[1..])| < |EncodeList(ids)|
  {
    hide MarshalString;
    MarshalGrows(ids[0]);
    if |ids| > 1 { assert ids[1..] != []; }
  }

  /** The size of a journal, part by part. */
  lemma EncodedSize(j: Record)
    ensures |Encode(j)| == |EncodeHeader(j)| + |EncodeList(j.threads)| + |EncodeList(j.remaining)| + 25
  {
    hide EncodeHeader, EncodeList;
    assert |",\"threads\":"| == 11 && |",\"remaining\":"| == 13;
  }

  /** A journal that is worked off by one more thread still fits. */
  lemma NextFits(j: Record)
    requires Storable(j) && j.remaining != []
    ensures Storable(j.(phase := "restoring", remaining := j.remaining[1..]))
  {
    hide EncodeHeader, EncodeList, MarshalString, Encode, ValidHeader;
    var next := j.(phase := "restoring", remaining := j.remaining[1..]);
    var n := |j.threads| - |j.remaining|;
    assert j.threads[n..][1..] == j.threads[n + 1..];
    assert j.remaining[0] == j.threads[n];
    ListShrinks(j.remaining);
    HeaderGrows(j);
    EncodedSize(j);
    EncodedSize(next);
    assert ValidHeader(j) ==> ValidHeader(next) by { HeaderStays(j); }
  }

  lemma HeaderStays(j: Record)
    ensures ValidHeader(j) ==> ValidHeader(j.(phase := "restoring", remaining := []))
    ensures forall ids :: ValidHeader(j) ==> ValidHeader(j.(phase := "restoring", remaining := ids))
  {
    hide ValidProvider, ValidModel;
  }

  /** Only the phase and the fingerprint change the front of a journal. */
  lemma HeaderGrows(j: Record)
    requires ValidHeader(j)
    ensures forall ids :: |EncodeHeader(j.(phase := "restoring", remaining := ids))| <= |EncodeHeader(j)| + 1
  {
    hide MarshalString, ValidProvider, ValidModel;
    PhaseSizes();
  }

  /** Saying that the threads are being brought back, before any of them is, may be a byte
      too much. */
  lemma RestoringFits(j: Record)
    requires ValidRecord(j) && j.phase == "prepared"
    ensures Storable(j.(phase := "restoring")) <==> |Encode(j)| < MAX_SIZE
  {
    hide MarshalString, ValidProvider, ValidModel, EncodeList;
    PhaseSizes();
  }

  /** Every id is written twice, so long ids fill the file well below their own limit. */
  lemma {:induction false} ItemsSize(ids: seq<string>)
    requires ids != [] && forall id <- ids :: |id| >= 130
    ensures |EncodeItems(ids)| >= 133 * |ids|
  {
    hide MarshalString;
    assert ids[0] in ids;
    MarshalGrows(ids[0]);
    if |ids| > 1 {
      assert forall id <- ids[1..] :: id in ids;
      ItemsSize(ids[1..]);
    }
  }

  /** 64 threads whose ids are 130 bytes long cannot be recovered. */
  lemma LongIdsDoNotFit(j: Record)
    requires |j.threads| == Subtree.MAX_THREADS && j.remaining == j.threads && forall id <- j.threads :: |id| >= 130
    ensures !Storable(j)
  {
    hide EncodeHeader, EncodeItems, ValidRecord;
    EncodedSize(j);
    ItemsSize(j.threads);
  }
}
