/** The certificate that lets a scan be skipped (internal/rollout/cache.go and the cached
    path of SanitizeFile in sanitize.go), as a machine whose steps any number of scans,
    writers and replacements interleave.  Inodes are append-only and a stamp never recurs:
    every change of an inode gives it a version of its own.  The theorem: whatever the
    run, an answer "cached" and a stored certificate are about a file version that a full
    scan with the same policy and thread accepts and leaves as it is. */
module Certificate {
  import opened Wrappers
  import opened JsonText
  import opened Sanitize
  import opened ContextPatch
  import opened ScanJsonl
  import opened RolloutProofs
  import opened RewriteLoops

  // ---------------------------------------------------------------- policy keys

  /** What a policy is known by on disk: its models sorted, nothing for no policy. */
  datatype Key = NoKey | Key(model: string, compatible: multiset<string>, preserveOffsets: bool)

  function KeyOf(p: Policy): Key {
    if p.model == "" && !p.preserveOffsets then NoKey else Key(p.model, multiset(p.compatible), p.preserveOffsets)
  }

  /** Policies that name the same models in some order. */
  ghost predicate Alike(p: Policy, q: Policy) {
    p.model == q.model && p.preserveOffsets == q.preserveOffsets &&
    (p.model != "" ==> forall m :: m in p.compatible <==> m in q.compatible)
  }

  lemma KeyTells(p: Policy, q: Policy)
    requires KeyOf(p) == KeyOf(q)
    ensures Alike(p, q)
  {
    forall m
      ensures KeyOf(p) != NoKey ==> (m in p.compatible <==> m in q.compatible)
    {
      assert m in p.compatible <==> m in multiset(p.compatible);
      assert m in q.compatible <==> m in multiset(q.compatible);
    }
  }

  lemma AlikeCleans(line: string, p: Policy, q: Policy)
    requires Alike(p, q)
    ensures CleanContext(line, p) == CleanContext(line, q)
  {
    hide Parse, FieldsOf, Find, PatchText;
  }

  lemma AlikeRecord(line: string, mode: bool, p: Policy, q: Policy)
    requires Alike(p, q)
    ensures CleanRecord(line, mode, p) == CleanRecord(line, mode, q)
    ensures ScanRecord(line, mode, p) == ScanRecord(line, mode, q)
  {
    AlikeCleans(line, p, q);
    hide CleanContext, SanitizeLine, Alike, PadTo;
    assert p.preserveOffsets == q.preserveOffsets by { assert Alike(p, q); AlikeOffsets(p, q); }
  }

  lemma AlikeOffsets(p: Policy, q: Policy)
    requires Alike(p, q)
    ensures p.preserveOffsets == q.preserveOffsets
  {
  }

  lemma {:induction false} AlikeLines(s: string, mode: bool, p: Policy, q: Policy, stop: bool)
    requires Alike(p, q)
    ensures ScanLines(s, mode, p, stop) == ScanLines(s, mode, q, stop)
    decreases |s|
  {
    hide ScanRecord, FirstLine, AfterLine, Alike;
    if s != "" {
      AlikeRecord(FirstLine(s), mode, p, q);
      LinesSplit(s);
      AlikeLines(AfterLine(s), mode, p, q, stop);
    }
  }

  /** A scan depends on the policy only through its key. */
  lemma SameKeySameScan(s: string, thread: string, header: bool, mode: bool, p: Policy, q: Policy, stop: bool)
    requires KeyOf(p) == KeyOf(q)
    ensures ScanFrom(s, thread, header, mode, p, stop) == ScanFrom(s, thread, header, mode, q, stop)
  {
    hide FirstLine, AfterLine, HeaderMode, SessionMeta, CleanRecord, ScanLines, Alike, KeyOf, PadTo;
    KeyTells(p, q);
    AlikeOffsets(p, q);
    if s != "" {
      var m := if header then HeaderMode(FirstLine(s)) else Some(mode);
      if m.Some? {
        AlikeRecord(FirstLine(s), m.value, p, q);
        AlikeLines(AfterLine(s), m.value, p, q, stop);
      }
    }
  }

  // ---------------------------------------------------------------- what a clean verdict means

  /** A full scan of the text raises no error and changes nothing. */
  predicate Clean(s: string, thread: string, p: Policy) {
    Inspect(s, thread, p).Scanned? && !Inspect(s, thread, p).result.changed
  }

  lemma {:induction false} CleanLines(s: string, mode: bool, p: Policy)
    requires ScanLines(s, mode, p, true).Scanned? && !ScanLines(s, mode, p, true).result.changed
    ensures ScanLines(s, mode, p, false).Scanned? && ScanLines(s, mode, p, false).output == s
    ensures !ScanLines(s, mode, p, false).result.changed
    decreases |s|
  {
    hide ScanRecord, FirstLine, AfterLine, CleanRecord, PadTo;
    if s != "" {
      ScanLinesStep(s, mode, p, true);
      Split(s);
      LinesSplit(s);
      CleanLines(AfterLine(s), mode, p);
      KeptRecord(FirstLine(s), mode, p);
    }
  }

  lemma KeptRecord(line: string, mode: bool, p: Policy)
    requires ScanRecord(line, mode, p).Record? && !ScanRecord(line, mode, p).changed
    ensures ScanRecord(line, mode, p).bytes == line
  {
    hide CleanRecord, PadTo;
    UnchangedBytes(line, mode, p);
  }

  /** A clean verdict is about the rewrite too: it would succeed and write the same bytes. */
  lemma CleanRewrite(s: string, thread: string, p: Policy)
    requires Clean(s, thread, p)
    ensures Rewrite(s, thread, p).Scanned? && Rewrite(s, thread, p).output == s && !Rewrite(s, thread, p).result.changed
  {
    hide FirstLine, AfterLine, HeaderMode, SessionMeta, CleanRecord, PadTo, ScanLines;
    if s != "" {
      ScanFromStep(s, thread, true, false, p, true);
      Split(s);
      var mode := HeaderMode(FirstLine(s)).value;
      CleanLines(AfterLine(s), mode, p);
      KeptRecord(FirstLine(s), mode, p);
    }
  }

  // ---------------------------------------------------------------- the state

  type Inode = nat

  type Pid = nat

  /** A file version: its inode and the version its last change gave it. */
  datatype Version = Version(inode: Inode, number: nat)

  datatype Identity = Identity(path: string, thread: string, inode: Inode)

  datatype Stamp = Stamp(identity: Identity, size: nat, number: nat)

  datatype Cert = Cert(key: Key, stamp: Stamp, identity: Identity, size: nat, paginated: bool, endsInNewline: bool)

  datatype Cell = Cell(lock: string, key: Key)

  datatype File = File(content: string, number: nat)

  datatype Job = Job(path: string, lock: string, thread: string, policy: Policy)

  /** Where a call of SanitizeFile is.  What happens after a change was found is a
      replacement of the file, which any process may do. */
  datatype Scan =
    | Began(job: Job, stamp: Stamp)
    | Looked(job: Job, stamp: Stamp, cert: Option<Cert>)
    | Cached(job: Job, stamp: Stamp)
    | Missed(job: Job, stamp: Stamp, cert: Option<Cert>)
    | Opened(job: Job, stamp: Stamp, cert: Option<Cert>, inode: Inode)
    | Measured(job: Job, stamp: Stamp, cert: Option<Cert>, version: Version, size: nat)
    | Inspected(job: Job, stamp: Stamp, outcome: Outcome, next: Cert)
    | Agreed(job: Job, next: Cert)
    | Over

  /** The file system, the certificates and the running calls; past remembers what every
      version of every inode held. */
  datatype World = World(files: map<Inode, File>, paths: map<string, Inode>, cells: map<Cell, Cert>,
                         scans: map<Pid, Scan>, clock: nat, past: map<Version, string>)

  datatype Event =
    | Create(path: string, inode: Inode, text: string)
    | Append(inode: Inode, text: string)
    | Move(path: string, inode: Inode)
    | Unlink(path: string)
    | Forget(cell: Cell)
    | Begin(pid: Pid, job: Job)
    | Lookup(pid: Pid)
    | Confirm(pid: Pid)
    | Open(pid: Pid)
    | Measure(pid: Pid)
    | Read(pid: Pid)
    | Recheck(pid: Pid)
    | Remember(pid: Pid)

  const EMPTY := World(map[], map[], map[], map[], 0, map[])

  // ---------------------------------------------------------------- the steps

  /** The inode gets new content and, with it, a version of its own. */
  function Write(w: World, inode: Inode, content: string): World {
    w.(files := w.files[inode := File(content, w.clock)],
       past := w.past[Version(inode, w.clock) := content],
       clock := w.clock + 1)
  }

  predicate Exists(w: World, path: string) { path in w.paths && w.paths[path] in w.files }

  function StampOf(w: World, path: string, thread: string): Stamp
    requires Exists(w, path)
  {
    var inode := w.paths[path];
    Stamp(Identity(path, thread, inode), |w.files[inode].content|, w.files[inode].number)
  }

  /** The stored certificate, if there is a lock to keep it beside and it is for this policy. */
  function Stored(w: World, job: Job): Option<Cert> {
    var cell := Cell(job.lock, KeyOf(job.policy));
    if job.lock != "" && cell in w.cells && w.cells[cell].key == KeyOf(job.policy) then Some(w.cells[cell]) else None
  }

  /** How much of the opened file the certificate lets the scan skip. */
  function Skipped(cert: Option<Cert>, identity: Identity, size: nat): (n: nat)
    ensures n <= size
  {
    if cert.Some? && cert.value.identity == identity && cert.value.endsInNewline && 0 < cert.value.size < size
    then cert.value.size else 0
  }

  function InspectFrom(content: string, identity: Identity, cert: Option<Cert>, policy: Policy): Outcome {
    var skip := Skipped(cert, identity, |content|);
    if skip > 0 then ScanFrom(content[skip..], "", false, cert.value.paginated, policy, true)
    else ScanFrom(content, identity.thread, true, false, policy, true)
  }

  function NextCert(content: string, stamp: Stamp, outcome: Outcome, policy: Policy): Cert {
    Cert(KeyOf(policy), stamp, stamp.identity, |content|,
      outcome.Scanned? && outcome.result.paginated, EndsInNewline(content))
  }

  function SetScan(w: World, pid: Pid, scan: Scan): World { w.(scans := w.scans[pid := scan]) }

  /** The scan of what was measured: the descriptor may have grown since, but the reading
      stops at the measured size. */
  function ReadScan(job: Job, stamp: Stamp, cert: Option<Cert>, version: Version, content: string): Scan {
    var identity := Identity(job.path, job.thread, version.inode);
    var outcome := InspectFrom(content, identity, cert, job.policy);
    Inspected(job, stamp, outcome, NextCert(content, Stamp(identity, |content|, version.number), outcome, job.policy))
  }

  function Advance(w: World, pid: Pid, e: Event): World
    requires pid in w.scans
  {
    match (w.scans[pid], e)
    case (Began(job, stamp), Lookup(_)) => SetScan(w, pid, Looked(job, stamp, Stored(w, job)))
    case (Looked(job, stamp, cert), Confirm(_)) =>
      if cert.Some? && cert.value.stamp == stamp && Exists(w, job.path) && StampOf(w, job.path, job.thread) == stamp
      then SetScan(w, pid, Cached(job, stamp))
      else SetScan(w, pid, Missed(job, stamp, cert))
    case (Missed(job, stamp, cert), Open(_)) =>
      if Exists(w, job.path) then SetScan(w, pid, Opened(job, stamp, cert, w.paths[job.path])) else SetScan(w, pid, Over)
    case (Opened(job, stamp, cert, inode), Measure(_)) =>
      if inode in w.files
      then SetScan(w, pid, Measured(job, stamp, cert, Version(inode, w.files[inode].number), |w.files[inode].content|))
      else w
    case (Measured(job, stamp, cert, version, size), Read(_)) =>
      if version.inode in w.files && size <= |w.files[version.inode].content|
      then SetScan(w, pid, ReadScan(job, stamp, cert, version, w.files[version.inode].content[..size]))
      else w
    case (Inspected(job, stamp, outcome, next), Recheck(_)) =>
      if outcome.Scanned? && !outcome.result.changed && Exists(w, job.path) && StampOf(w, job.path, job.thread) == stamp
      then SetScan(w, pid, Agreed(job, next))
      else SetScan(w, pid, Over)
    case (Agreed(job, next), Remember(_)) =>
      if job.lock == "" then SetScan(w, pid, Over)
      else SetScan(w, pid, Over).(cells := w.cells[Cell(job.lock, KeyOf(job.policy)) := next])
    case _ => w
  }

  /** One step.  A step that is not possible leaves the world as it is. */
  function Step(w: World, e: Event): World {
    match e
    case Create(path, inode, text) =>
      if inode in w.files then w
      else var v := Write(w, inode, text); v.(paths := v.paths[path := inode])
    case Append(inode, text) =>
      if inode in w.files then Write(w, inode, w.files[inode].content + text) else w
    case Move(path, inode) =>
      if inode in w.files then var v := Write(w, inode, w.files[inode].content); v.(paths := v.paths[path := inode]) else w
    case Unlink(path) => w.(paths := map p | p in w.paths && p != path :: w.paths[p])
    case Forget(cell) => w.(cells := map c | c in w.cells && c != cell :: w.cells[c])
    case Begin(pid, job) =>
      if Exists(w, job.path) then SetScan(w, pid, Began(job, StampOf(w, job.path, job.thread))) else w
    case _ => if e.pid in w.scans then Advance(w, e.pid, e) else w
  }

  function Run(w: World, events: seq<Event>): World
    decreases |events|
  {
    if events == [] then w else Run(Step(w, events[0]), events[1..])
  }

  // ---------------------------------------------------------------- the invariant

  /** Versions are known, and every version of an inode is a prefix of what it holds now. */
  ghost predicate Consistent(files: map<Inode, File>, past: map<Version, string>, clock: nat) {
    (forall i :: i in files ==> files[i].number < clock && Version(i, files[i].number) in past
                                && past[Version(i, files[i].number)] == files[i].content) &&
    (forall v :: v in past ==> v.number < clock && v.inode in files && past[v] <= files[v.inode].content)
  }

  predicate StampKnown(past: map<Version, string>, stamp: Stamp) {
    var v := Version(stamp.identity.inode, stamp.number);
    v in past && |past[v]| == stamp.size
  }

  function ContentOf(past: map<Version, string>, stamp: Stamp): string
    requires StampKnown(past, stamp)
  {
    past[Version(stamp.identity.inode, stamp.number)]
  }

  /** The certificate tells the truth about the file version it names. */
  ghost predicate Sound(past: map<Version, string>, cert: Cert) {
    && StampKnown(past, cert.stamp) && cert.identity == cert.stamp.identity && cert.size == cert.stamp.size
    && cert.endsInNewline == EndsInNewline(ContentOf(past, cert.stamp))
    && forall p :: KeyOf(p) == cert.key ==>
         Clean(ContentOf(past, cert.stamp), cert.identity.thread, p) &&
         Inspect(ContentOf(past, cert.stamp), cert.identity.thread, p).result.paginated == cert.paginated
  }

  ghost predicate SoundIfAny(past: map<Version, string>, cert: Option<Cert>, key: Key) {
    cert.Some? ==> Sound(past, cert.value) && cert.value.key == key
  }

  predicate StampFor(past: map<Version, string>, stamp: Stamp, job: Job) {
    StampKnown(past, stamp) && stamp.identity.path == job.path && stamp.identity.thread == job.thread
  }

  /** The file version is one a full scan leaves as it is. */
  ghost predicate CleanVersion(past: map<Version, string>, stamp: Stamp, job: Job) {
    StampFor(past, stamp, job) && Clean(ContentOf(past, stamp), job.thread, job.policy)
  }

  ghost predicate ScanSound(past: map<Version, string>, scan: Scan) {
    match scan
    case Began(job, stamp) => StampFor(past, stamp, job)
    case Looked(job, stamp, cert) => StampFor(past, stamp, job) && SoundIfAny(past, cert, KeyOf(job.policy))
    case Cached(job, stamp) => CleanVersion(past, stamp, job)
    case Missed(job, stamp, cert) => SoundIfAny(past, cert, KeyOf(job.policy))
    case Opened(job, stamp, cert, _) => SoundIfAny(past, cert, KeyOf(job.policy))
    case Measured(job, stamp, cert, version, size) =>
      SoundIfAny(past, cert, KeyOf(job.policy)) && version in past && |past[version]| == size
    case Inspected(job, _, outcome, next) =>
      next.key == KeyOf(job.policy) && (outcome.Scanned? && !outcome.result.changed ==> Sound(past, next))
    case Agreed(job, next) => next.key == KeyOf(job.policy) && Sound(past, next)
    case Over => true
  }

  ghost predicate Inv(w: World) {
    && Consistent(w.files, w.past, w.clock)
    && (forall c :: c in w.cells ==> w.cells[c].key == c.key && Sound(w.past, w.cells[c]))
    && (forall pid :: pid in w.scans ==> ScanSound(w.past, w.scans[pid]))
  }

  // ---------------------------------------------------------------- the scan tells the truth

  /** The scan of a file version, whatever it may skip, decides as the full scan does. */
  lemma InspectFromExact(past: map<Version, string>, content: string, identity: Identity, cert: Option<Cert>, policy: Policy)
    requires SoundIfAny(past, cert, KeyOf(policy))
    requires cert.Some? && cert.value.identity == identity && cert.value.size <= |content| ==>
      content[..cert.value.size] == ContentOf(past, cert.value.stamp)
    ensures SameVerdict(InspectFrom(content, identity, cert, policy), Inspect(content, identity.thread, policy))
  {
    hide KeyOf, ScanFrom, EndsInNewline;
    var skip := Skipped(cert, identity, |content|);
    if skip > 0 {
      var prefix := content[..skip];
      assert prefix + content[skip..] == content;
      IncrementalIsFull(prefix, content[skip..], identity.thread, policy);
    }
  }

  /** The certificate of a version whose scan changed nothing is sound. */
  lemma NextIsSound(past: map<Version, string>, stamp: Stamp, outcome: Outcome, policy: Policy)
    requires StampKnown(past, stamp) && outcome.Scanned? && !outcome.result.changed
    requires SameVerdict(outcome, Inspect(ContentOf(past, stamp), stamp.identity.thread, policy))
    ensures Sound(past, NextCert(ContentOf(past, stamp), stamp, outcome, policy))
  {
    hide KeyOf, ScanFrom, EndsInNewline;
    var s := ContentOf(past, stamp);
    forall p | KeyOf(p) == KeyOf(policy)
      ensures Inspect(s, stamp.identity.thread, p) == Inspect(s, stamp.identity.thread, policy)
    {
      SameKeySameScan(s, stamp.identity.thread, true, false, p, policy, true);
    }
  }

  lemma PastIsPrefix(files: map<Inode, File>, past: map<Version, string>, clock: nat, v: Version)
    requires Consistent(files, past, clock) && v in past
    ensures v.inode in files && |past[v]| <= |files[v.inode].content|
    ensures files[v.inode].content[..|past[v]|] == past[v]
  {
  }

  lemma ReadIsSound(w: World, scan: Scan)
    requires Consistent(w.files, w.past, w.clock) && scan.Measured? && ScanSound(w.past, scan)
    ensures scan.version in w.past && scan.version.inode in w.files && scan.size <= |w.files[scan.version.inode].content|
    ensures var content := w.files[scan.version.inode].content[..scan.size];
      ScanSound(w.past, ReadScan(scan.job, scan.stamp, scan.cert, scan.version, content))
  {
    hide KeyOf, InspectFrom, EndsInNewline, Sound, Clean, Consistent;
    PastIsPrefix(w.files, w.past, w.clock, scan.version);
    var content := w.files[scan.version.inode].content[..scan.size];
    if scan.cert.Some? && scan.cert.value.identity.inode == scan.version.inode {
      SoundPrefix(w, scan.cert.value, content);
    }
    ScanIsSound(w.past, scan, content);
  }

  /** The scan of a known version yields a certificate that is sound if nothing is changed. */
  lemma ScanIsSound(past: map<Version, string>, scan: Scan, content: string)
    requires scan.Measured? && scan.version in past && past[scan.version] == content
    requires SoundIfAny(past, scan.cert, KeyOf(scan.job.policy))
    requires scan.cert.Some? && scan.cert.value.identity.inode == scan.version.inode && scan.cert.value.size <= |content| ==>
      content[..scan.cert.value.size] == ContentOf(past, scan.cert.value.stamp)
    ensures ScanSound(past, ReadScan(scan.job, scan.stamp, scan.cert, scan.version, content))
  {
    hide KeyOf, InspectFrom, EndsInNewline, Sound, Clean, NextCert, SoundIfAny, SameVerdict, ScanFrom, Inspect;
    var identity := Identity(scan.job.path, scan.job.thread, scan.version.inode);
    var stamp := Stamp(identity, |content|, scan.version.number);
    var outcome := InspectFrom(content, identity, scan.cert, scan.job.policy);
    InspectFromExact(past, content, identity, scan.cert, scan.job.policy);
    NextKey(content, stamp, outcome, scan.job.policy);
    if outcome.Scanned? && !outcome.result.changed {
      NextIsSound(past, stamp, outcome, scan.job.policy);
    }
  }

  lemma NextKey(content: string, stamp: Stamp, outcome: Outcome, policy: Policy)
    ensures NextCert(content, stamp, outcome, policy).key == KeyOf(policy)
  {
  }

  /** What a certificate is about is a prefix of any longer version of the same inode. */
  lemma SoundPrefix(w: World, cert: Cert, content: string)
    requires Consistent(w.files, w.past, w.clock) && Sound(w.past, cert) && cert.identity.inode in w.files && content <= w.files[cert.identity.inode].content
    ensures StampKnown(w.past, cert.stamp) && cert.size == |ContentOf(w.past, cert.stamp)|
    ensures cert.size <= |content| ==> content[..cert.size] == ContentOf(w.past, cert.stamp)
  {
    hide KeyOf, Inspect, Clean, EndsInNewline;
  }

  // ---------------------------------------------------------------- every step keeps the invariant

  ghost predicate Extends(more: map<Version, string>, past: map<Version, string>) {
    forall v :: v in past ==> v in more && more[v] == past[v]
  }

  lemma SoundStays(past: map<Version, string>, more: map<Version, string>, cert: Cert)
    requires Sound(past, cert) && Extends(more, past)
    ensures Sound(more, cert)
  {
    hide KeyOf, Inspect, Clean, EndsInNewline;
  }

  lemma ScanStays(past: map<Version, string>, more: map<Version, string>, scan: Scan)
    requires ScanSound(past, scan) && Extends(more, past)
    ensures ScanSound(more, scan)
  {
    hide KeyOf, Sound, Clean;
    if (scan.Looked? || scan.Missed? || scan.Opened? || scan.Measured?) && scan.cert.Some? {
      SoundStays(past, more, scan.cert.value);
    } else if (scan.Inspected? || scan.Agreed?) && Sound(past, scan.next) {
      SoundStays(past, more, scan.next);
    }
  }

  lemma WriteKeeps(w: World, inode: Inode, content: string)
    requires Inv(w) && (inode in w.files ==> w.files[inode].content <= content)
    ensures Inv(Write(w, inode, content))
  {
    hide Sound, ScanSound, EndsInNewline;
    var v := Write(w, inode, content);
    assert Version(inode, w.clock) !in w.past;
    assert Extends(v.past, w.past);
    assert Consistent(v.files, v.past, v.clock) by { WriteConsistent(w, inode, content); }
    hide Consistent, Extends, Write;
    assert v.cells == w.cells && v.scans == w.scans by { assert v == Write(w, inode, content); WriteFrame(w, inode, content); }
    forall c | c in v.cells
      ensures Sound(v.past, v.cells[c])
    {
      SoundStays(w.past, v.past, w.cells[c]);
    }
    forall pid | pid in v.scans
      ensures ScanSound(v.past, v.scans[pid])
    {
      ScanStays(w.past, v.past, w.scans[pid]);
    }
  }

  lemma WriteFrame(w: World, inode: Inode, content: string)
    ensures Write(w, inode, content).cells == w.cells && Write(w, inode, content).scans == w.scans
  {
  }

  lemma WriteConsistent(w: World, inode: Inode, content: string)
    requires Consistent(w.files, w.past, w.clock) && (inode in w.files ==> w.files[inode].content <= content)
    ensures var v := Write(w, inode, content); Consistent(v.files, v.past, v.clock)
  {
  }

  /** A scan that moved on soundly. */
  lemma SetScanKeeps(w: World, pid: Pid, scan: Scan)
    requires Inv(w) && ScanSound(w.past, scan)
    ensures Inv(SetScan(w, pid, scan))
  {
    hide Sound, ScanSound;
  }

  lemma StampIsKnown(w: World, path: string, thread: string)
    requires Consistent(w.files, w.past, w.clock) && Exists(w, path)
    ensures StampKnown(w.past, StampOf(w, path, thread))
  {
  }

  lemma AdvanceKeeps(w: World, pid: Pid, e: Event)
    requires Inv(w) && pid in w.scans
    ensures Inv(Advance(w, pid, e))
  {
    hide Inv, Stored, ReadScan, StampOf, Exists, KeyOf;
    match (w.scans[pid], e)
    case (Began(job, stamp), Lookup(_)) => LookupKeeps(w, pid);
    case (Looked(job, stamp, cert), Confirm(_)) => ConfirmKeeps(w, pid);
    case (Missed(job, stamp, cert), Open(_)) => OpenKeeps(w, pid);
    case (Opened(job, stamp, cert, inode), Measure(_)) => MeasureKeeps(w, pid);
    case (Measured(job, stamp, cert, version, size), Read(_)) => ReadKeeps(w, pid);
    case (Inspected(job, stamp, outcome, next), Recheck(_)) => RecheckKeeps(w, pid);
    case (Agreed(job, next), Remember(_)) => RememberKeeps(w, pid);
    case _ =>
  }

  lemma LookupKeeps(w: World, pid: Pid)
    requires Inv(w) && pid in w.scans && w.scans[pid].Began?
    ensures Inv(SetScan(w, pid, Looked(w.scans[pid].job, w.scans[pid].stamp, Stored(w, w.scans[pid].job))))
  {
    hide Sound, KeyOf, Consistent;
    assert ScanSound(w.past, w.scans[pid]);
    SetScanKeeps(w, pid, Looked(w.scans[pid].job, w.scans[pid].stamp, Stored(w, w.scans[pid].job)));
  }

  lemma ConfirmKeeps(w: World, pid: Pid)
    requires Inv(w) && pid in w.scans && w.scans[pid].Looked?
    ensures var scan := w.scans[pid];
      (scan.cert.Some? && scan.cert.value.stamp == scan.stamp ==> Inv(SetScan(w, pid, Cached(scan.job, scan.stamp)))) &&
      Inv(SetScan(w, pid, Missed(scan.job, scan.stamp, scan.cert)))
  {
    hide Sound, KeyOf, Clean, Consistent;
    var scan := w.scans[pid];
    assert ScanSound(w.past, scan);
    if scan.cert.Some? && scan.cert.value.stamp == scan.stamp {
      CachedIsClean(w.past, scan.cert.value, scan.job, scan.stamp);
      SetScanKeeps(w, pid, Cached(scan.job, scan.stamp));
    }
    SetScanKeeps(w, pid, Missed(scan.job, scan.stamp, scan.cert));
  }

  lemma OpenKeeps(w: World, pid: Pid)
    requires Inv(w) && pid in w.scans && w.scans[pid].Missed?
    ensures Inv(Advance(w, pid, Open(pid)))
  {
    hide Sound, KeyOf, Consistent;
    var scan := w.scans[pid];
    assert ScanSound(w.past, scan);
    SetScanKeeps(w, pid, Over);
    if Exists(w, scan.job.path) { SetScanKeeps(w, pid, Opened(scan.job, scan.stamp, scan.cert, w.paths[scan.job.path])); }
  }

  lemma RecheckKeeps(w: World, pid: Pid)
    requires Inv(w) && pid in w.scans && w.scans[pid].Inspected?
    ensures Inv(Advance(w, pid, Recheck(pid)))
  {
    hide Sound, KeyOf, Consistent;
    var scan := w.scans[pid];
    assert ScanSound(w.past, scan);
    SetScanKeeps(w, pid, Over);
    if scan.outcome.Scanned? && !scan.outcome.result.changed { SetScanKeeps(w, pid, Agreed(scan.job, scan.next)); }
  }

  lemma CachedIsClean(past: map<Version, string>, cert: Cert, job: Job, stamp: Stamp)
    requires Sound(past, cert) && cert.key == KeyOf(job.policy) && cert.stamp == stamp && StampFor(past, stamp, job)
    ensures CleanVersion(past, stamp, job)
  {
    hide KeyOf, Clean, EndsInNewline;
  }

  lemma MeasureKeeps(w: World, pid: Pid)
    requires Inv(w) && pid in w.scans && w.scans[pid].Opened?
    ensures Inv(Advance(w, pid, Measure(pid)))
  {
    hide Sound, KeyOf;
    var scan := w.scans[pid];
    assert ScanSound(w.past, scan);
    if scan.inode in w.files {
      var version := Version(scan.inode, w.files[scan.inode].number);
      SetScanKeeps(w, pid, Measured(scan.job, scan.stamp, scan.cert, version, |w.files[scan.inode].content|));
    }
  }

  lemma ReadKeeps(w: World, pid: Pid)
    requires Inv(w) && pid in w.scans && w.scans[pid].Measured?
    ensures Inv(Advance(w, pid, Read(pid)))
  {
    hide Sound, KeyOf, InspectFrom, EndsInNewline, ScanSound, Consistent, ReadScan;
    var scan := w.scans[pid];
    ReadIsSound(w, scan);
    SetScanKeeps(w, pid, ReadScan(scan.job, scan.stamp, scan.cert, scan.version, w.files[scan.version.inode].content[..scan.size]));
  }

  lemma RememberKeeps(w: World, pid: Pid)
    requires Inv(w) && pid in w.scans && w.scans[pid].Agreed?
    ensures Inv(Advance(w, pid, Remember(pid)))
  {
    hide Sound, KeyOf, Consistent;
    assert ScanSound(w.past, w.scans[pid]);
    SetScanKeeps(w, pid, Over);
  }

  lemma StepKeeps(w: World, e: Event)
    requires Inv(w)
    ensures Inv(Step(w, e))
  {
    hide Sound, ScanSound, Advance, Consistent, EndsInNewline;
    match e
    case Create(path, inode, text) => if inode !in w.files { WriteKeeps(w, inode, text); PathsAside(Write(w, inode, text), path, inode); }
    case Append(inode, text) => if inode in w.files { WriteKeeps(w, inode, w.files[inode].content + text); }
    case Move(path, inode) => if inode in w.files { WriteKeeps(w, inode, w.files[inode].content); PathsAside(Write(w, inode, w.files[inode].content), path, inode); }
    case Unlink(path) => PathsGone(w, path);
    case Forget(cell) =>
    case Begin(pid, job) =>
      if Exists(w, job.path) {
        StampIsKnown(w, job.path, job.thread);
        assert ScanSound(w.past, Began(job, StampOf(w, job.path, job.thread))) by { BeganSound(w, job); }
        SetScanKeeps(w, pid, Began(job, StampOf(w, job.path, job.thread)));
      }
    case _ => if e.pid in w.scans { AdvanceKeeps(w, e.pid, e); }
  }

  lemma BeganSound(w: World, job: Job)
    requires Exists(w, job.path) && StampKnown(w.past, StampOf(w, job.path, job.thread))
    ensures ScanSound(w.past, Began(job, StampOf(w, job.path, job.thread)))
  {
  }

  lemma PathsAside(w: World, path: string, inode: Inode)
    requires Inv(w)
    ensures Inv(w.(paths := w.paths[path := inode]))
  {
    hide Sound, ScanSound;
  }

  lemma PathsGone(w: World, path: string)
    requires Inv(w)
    ensures Inv(Step(w, Unlink(path)))
  {
    hide Sound, ScanSound;
  }

  lemma {:induction false} RunKeeps(w: World, events: seq<Event>)
    requires Inv(w)
    ensures Inv(Run(w, events))
    decreases |events|
  {
    hide Inv, Step;
    if events != [] {
      StepKeeps(w, events[0]);
      RunKeeps(Step(w, events[0]), events[1..]);
    }
  }

  /** Certificate soundness over all runs: an answer "cached" is about a version of the
      file that a full scan with the same thread and policy accepts, and that a rewrite
      would leave byte for byte as it is; every stored certificate is sound. */
  lemma CertificatesAreSound(events: seq<Event>, pid: Pid, cell: Cell)
    ensures var w := Run(EMPTY, events);
      pid in w.scans && w.scans[pid].Cached? ==>
        var scan := w.scans[pid];
        CleanVersion(w.past, scan.stamp, scan.job) &&
        (var s := ContentOf(w.past, scan.stamp);
         var o := Rewrite(s, scan.job.thread, scan.job.policy);
         o.Scanned? && o.output == s && !o.result.changed)
    ensures var w := Run(EMPTY, events);
      cell in w.cells ==> w.cells[cell].key == cell.key && Sound(w.past, w.cells[cell])
  {
    RunKeeps(EMPTY, events);
    var w := Run(EMPTY, events);
    hide Sound, Run, Rewrite, Consistent, Clean;
    if pid in w.scans && w.scans[pid].Cached? {
      var scan := w.scans[pid];
      assert ScanSound(w.past, scan);
      CleanRewrite(ContentOf(w.past, scan.stamp), scan.job.thread, scan.job.policy);
    }
  }

  // ---------------------------------------------------------------- the inspection as it runs

  /** inspectSanitation over an opened file: seek past what the certificate vouches for,
      scan the rest, and make the certificate of this version. */
  method InspectSanitation(content: string, stamp: Stamp, previous: Option<Cert>, policy: Policy)
    returns (outcome: Outcome, next: Cert, cached: nat)
    requires stamp.size == |content|
    ensures cached == Skipped(previous, stamp.identity, |content|)
    ensures outcome == InspectFrom(content, stamp.identity, previous, policy)
    ensures next == NextCert(content, stamp, outcome, policy)
  {
    hide ScanFrom, KeyOf;
    cached := 0;
    if previous.Some? && previous.value.identity == stamp.identity && previous.value.endsInNewline
       && 0 < previous.value.size < |content| {
      cached := previous.value.size;
    }
    var reader := new LineReader(content[cached..], 64 * 1024);
    assert content[cached..][0..] == content[cached..] && content[0..] == content;
    outcome := ScanJsonlFrom(reader, if cached > 0 then "" else stamp.identity.thread, true, cached == 0,
      cached > 0 && previous.value.paginated, policy);
    var last := if cached < |content| then content[|content| - 1] else 0 as char;
    next := Cert(KeyOf(policy), stamp, stamp.identity, |content|,
      outcome.Scanned? && outcome.result.paginated, last == '\n');
  }
}
