/** What the live sessions of one thread share (internal/handoff/coordinator.go,
    internal/recovery/store.go, internal/transport/session.go): the sessions themselves, the
    thread lock, the dirty marker and the journal on disk, and the app-server.  Every
    method is one observable step; between two steps of a job anything may happen that the
    lock does not exclude.  A session that dies takes its lock with it, and the rest of its
    job has no effect.  Valid() is therefore a statement about every state of every run. */
module ThreadState {
  import opened Wrappers
  import opened Handlers
  import JournalRecord

  type Sid = nat

  datatype Stage = Prepared | Detached | ResumeMismatch | Recovering | Resubscribing | Unreadable

  datatype Phase = JournalPrepared | JournalRestoring

  /** The durable record of a recovery. */
  datatype Journal = Journal(route: Route, phase: Phase, fingerprint: string, threads: seq<string>, remaining: seq<string>)

  /** The journal of a root as the store has it. */
  function RecordOf(root: string, j: Journal): JournalRecord.Record {
    JournalRecord.Record(if j.route.model == "" then 1 else 2, root, j.route.provider, j.route.model,
      if j.phase == JournalPrepared then "prepared" else "restoring", j.fingerprint, j.threads, j.remaining)
  }

  /** What the store accepts: a valid journal that fits its file. */
  predicate Stored(root: string, j: Journal) { JournalRecord.Storable(RecordOf(root, j)) }

  predicate Suffix(s: seq<string>, t: seq<string>) { |s| <= |t| && s == t[|t| - |s|..] }

  /** What the protocol needs of a journal: distinct ids ending with the root, the remaining
      ones last. */
  predicate ValidJournal(root: string, j: Journal) {
    && ValidIds(root, j.threads) && j.threads[|j.threads| - 1] == root && Suffix(j.remaining, j.threads)
  }

  lemma StoredIsValid(root: string, j: Journal)
    requires JournalRecord.ValidRecord(RecordOf(root, j))
    ensures ValidJournal(root, j)
  {
    hide JournalRecord.ValidHeader;
    assert root != "" by { NamedRoot(RecordOf(root, j)); }
    assert forall i :: 0 <= i < |j.threads| ==> j.threads[i] != "";
    assert j.threads[|j.threads| - 1] in j.threads;
  }

  lemma NamedRoot(j: JournalRecord.Record)
    requires JournalRecord.ValidHeader(j)
    ensures j.root != ""
  {
  }

  /** loaded is the route the app-server has the thread loaded with, which no session can
      see; unanswered are the sessions, dead ones too, whose turn it has not answered.  Since
      the lock was taken: ready are the sessions that answered ready, joined those that came
      later, observed the routes the holder saw; closed are the sessions the app-server
      closed the thread on. */
  datatype Shared = Shared(
    live: map<Sid, Sess>, subs: set<Sid>, known: set<Sid>, loaded: Option<Route>,
    dirty: Option<Stage>, journal: Option<Journal>, archived: set<string>,
    holder: Option<Sid>, outstanding: Option<Sid>, unanswered: set<Sid>,
    ready: set<Sid>, joined: set<Sid>, observed: set<Route>, closed: set<Sid>)

  /** A user turn that was written, or a switch that was saved, with the shared state at
      that moment. */
  datatype Record =
    | TurnWritten(sid: Sid, target: Route, observed: Route, at: Shared)
    | SwitchSaved(sid: Sid, target: Route, observed: Route, at: Shared)

  /** Nothing stands in the way of a turn: the session holds the lock with no turn unanswered,
      nothing is left to repair, every peer is ready, and the route was seen under the lock. */
  predicate Safe(w: Shared, me: Sid, observed: Route) {
    w.holder == Some(me) && w.outstanding.None? && w.dirty.None? && w.journal.None? && AllReady(w) && observed in w.observed
  }

  /** The thread is loaded with the provider, if the session is attached to it. */
  predicate OnRoute(w: Shared, me: Sid, provider: string) {
    me in w.live && me in w.subs && !w.live[me].detached ==> w.loaded.Some? && w.loaded.value.provider == provider
  }

  /** At that moment everything was settled, a subscribed session's thread was really loaded
      with the target's provider, and no other live session's turn was unanswered. */
  predicate SafeRecord(r: Record) {
    && Safe(r.at, r.sid, r.observed)
    && (r.sid in r.at.subs ==> r.at.loaded.Some? && r.at.loaded.value.provider == r.target.provider)
    && r.at.unanswered !! r.at.live.Keys
    && match r
    case TurnWritten(_, target, observed, _) => observed.provider == target.provider
    case SwitchSaved(_, target, observed, _) => RouteMatches(observed, target)
  }

  // ---------------------------------------------------------------- the invariant

  predicate SessionsKnown(w: Shared) { w.live.Keys <= w.known && w.subs <= w.live.Keys && w.joined <= w.known }

  /** A session detached by the coordinator is covered by the dirty marker. */
  predicate DetachedIsDirty(w: Shared) { w.dirty.None? ==> forall s :: s in w.live ==> !w.live[s].detached }

  /** Suppressed notifications are covered by a journal. */
  predicate SuppressedIsJournaled(w: Shared) { w.journal.None? ==> forall s :: s in w.live ==> !w.live[s].suppressed }

  /** What is archived and not yet brought back is in the durable journal. */
  predicate ArchivedIsJournaled(w: Shared) {
    if w.journal.None? then w.archived == {} else forall id :: id in w.archived ==> id in w.journal.value.remaining
  }

  /** A thread that somebody is subscribed to is loaded. */
  predicate SubscribedIsLoaded(w: Shared) { w.subs != {} ==> w.loaded.Some? }

  /** What an attached session remembers of the provider is true. */
  predicate CacheIsTrue(w: Shared) {
    forall s :: s in w.live && s in w.subs && !w.live[s].detached && w.live[s].effective.Some? ==>
      w.loaded.Some? && w.loaded.value.provider == w.live[s].effective.value.provider
  }

  /** Of the live sessions only the one with the outstanding turn awaits an answer. */
  predicate UnansweredTrue(w: Shared) {
    w.unanswered <= w.known && forall s :: s in w.live ==> (s in w.unanswered <==> w.outstanding == Some(s))
  }

  predicate LockTrue(w: Shared) {
    (w.holder.Some? ==> w.holder.value in w.live) && (w.outstanding.Some? ==> w.holder == w.outstanding)
  }

  predicate Inv(root: string, w: Shared) {
    && SessionsKnown(w) && DetachedIsDirty(w) && SuppressedIsJournaled(w) && ArchivedIsJournaled(w) && LockTrue(w)
    && SubscribedIsLoaded(w) && CacheIsTrue(w) && UnansweredTrue(w)
    && (w.journal.Some? ==> Stored(root, w.journal.value))
  }

  /** Every live session answered ready since the lock was taken, or came later. */
  predicate AllReady(w: Shared) { forall s :: s in w.live ==> s in w.ready || s in w.joined }

  predicate Holds(w: Shared, me: Sid) { me in w.live ==> w.holder == Some(me) && w.outstanding.None? }

  // ---------------------------------------------------------------- what may happen meanwhile

  predicate SameProviders(a: Option<Route>, b: Option<Route>) {
    a.Some? == b.Some? && (a.Some? ==> a.value.provider == b.value.provider)
  }

  /** What other processes and notifications may change of a session. */
  predicate SessDrift(a: Sess, b: Sess) {
    && (b.effective == a.effective || b.effective.None?) && (b.detached ==> a.detached) && b.suppressed == a.suppressed
  }

  /** What may have changed while me holds the lock and takes no step. */
  predicate Drift(me: Sid, a: Shared, b: Shared) {
    && b.dirty == a.dirty && b.journal == a.journal && b.archived == a.archived
    && a.known <= b.known && a.ready <= b.ready && a.joined <= b.joined && a.closed <= b.closed && b.observed == a.observed
    && (a.holder == Some(me) && me in b.live ==> b.holder == a.holder && b.outstanding == a.outstanding)
    && (forall s :: s in b.live && s in a.live ==> SessDrift(a.live[s], b.live[s]))
    && (forall s :: s in b.live && s in a.live && b.live[s].detached != a.live[s].detached ==> s in b.closed && s !in b.subs)
    && (forall s :: s in b.live && s in a.subs ==> s in b.subs || s in b.closed)
    && (forall s :: s in b.live && s !in a.live ==> s !in a.known && s in b.joined && IsNew(b.live[s]))
    && (forall s :: s in b.subs ==> s in a.subs && SameProviders(a.loaded, b.loaded))
    && me in a.known
  }

  /** A session without anything to give up. */
  predicate IsNew(s: Sess) { s.effective.None? && !s.detached && !s.suppressed }

  lemma DriftTransitive(me: Sid, a: Shared, b: Shared, c: Shared)
    requires Drift(me, a, b) && Drift(me, b, c) && SessionsKnown(a)
    ensures Drift(me, a, c)
  {
    forall s | s in c.live
      ensures s in b.live && s in a.live ==> SessDrift(a.live[s], c.live[s])
      ensures s in b.live ==> (s in a.live || s !in a.known)
      ensures s in a.live ==> s in b.live
    {
      if s in b.live { assert s in c.live; }
    }
  }

  // ---------------------------------------------------------------- what a job keeps

  /** What every step of a job by me keeps: the lock, and what was learnt since it was taken. */
  predicate Kept(me: Sid, a: Shared, b: Shared) {
    && a.known <= b.known && a.ready <= b.ready && a.joined <= b.joined && a.closed <= b.closed && a.observed <= b.observed
    && (a.holder == Some(me) && me in b.live ==> b.holder == a.holder && b.outstanding == a.outstanding)
    && (forall s :: s in b.live && s !in a.live ==> s !in a.known && s in b.joined)
    && me in a.known && a.live.Keys <= a.known
  }

  /** The files of the thread are as they were. */
  predicate SameFiles(a: Shared, b: Shared) { b.dirty == a.dirty && b.journal == a.journal && b.archived == a.archived }

  lemma DriftKeeps(me: Sid, a: Shared, b: Shared)
    requires Drift(me, a, b) && SessionsKnown(a)
    ensures Kept(me, a, b) && SameFiles(a, b)
  {
  }

  lemma KeptReady(me: Sid, a: Shared, b: Shared)
    requires Kept(me, a, b)
    ensures AllReady(a) ==> AllReady(b)
    ensures Holds(a, me) ==> Holds(b, me)
  {
  }

  /** The sessions only drifted; the files of the thread may have changed. */
  predicate Steady(me: Sid, a: Shared, b: Shared) {
    && Kept(me, a, b)
    && (forall s :: s in b.live && s in a.live ==> SessDrift(a.live[s], b.live[s]))
    && (forall s :: s in b.live && s in a.live && b.live[s].detached != a.live[s].detached ==> s in b.closed && s !in b.subs)
    && (forall s :: s in b.live && s in a.subs ==> s in b.subs || s in b.closed)
    && (forall s :: s in b.subs ==> s in a.subs && SameProviders(a.loaded, b.loaded))
    && (forall s :: s in b.live && s !in a.live ==> IsNew(b.live[s]))
  }

  lemma DriftSteady(me: Sid, a: Shared, b: Shared)
    requires Drift(me, a, b) && SessionsKnown(a)
    ensures Steady(me, a, b) && SameFiles(a, b)
  {
  }

  /** Nobody is detached; nobody's notifications are suppressed; nobody remembers a route. */
  predicate NoneDetached(w: Shared) { forall s :: s in w.live ==> !w.live[s].detached }

  predicate NoneSuppressed(w: Shared) { forall s :: s in w.live ==> !w.live[s].suppressed }

  lemma SteadyStays(me: Sid, a: Shared, b: Shared, owed: set<Sid>, target: Route)
    requires Steady(me, a, b) && owed <= a.known && SessionsKnown(a)
    ensures Owed(a, owed) ==> Owed(b, owed)
    ensures Marked(a, owed) ==> Marked(b, owed)
    ensures Matching(a, target) ==> Matching(b, target)
    ensures OnRoute(a, me, target.provider) ==> OnRoute(b, me, target.provider)
    ensures Blank(a, me) ==> Blank(b, me)
    ensures NoneDetached(a) ==> NoneDetached(b)
    ensures NoneSuppressed(a) ==> NoneSuppressed(b)
    ensures AllReady(a) ==> AllReady(b)
    ensures Holds(a, me) ==> Holds(b, me)
  {
  }

  /** Every session that is owed a subscription has it, or is marked to get it back, or gave
      it up because the thread was closed. */
  predicate Owed(w: Shared, owed: set<Sid>) {
    forall s :: s in owed && s in w.live ==> s in w.subs || w.live[s].detached || s in w.closed
  }

  predicate Marked(w: Shared, owed: set<Sid>) {
    forall s :: s in owed && s in w.live ==> w.live[s].detached || s in w.closed
  }

  /** No session remembers a route other than the target. */
  predicate Matching(w: Shared, target: Route) {
    forall s :: s in w.live && w.live[s].effective.Some? ==> RouteMatches(w.live[s].effective.value, target)
  }

  /** The session itself remembers no route. */
  predicate Blank(w: Shared, me: Sid) { me in w.live ==> w.live[me].effective.None? }

  // ---------------------------------------------------------------- one call of a peer

  /** A resume of a loaded thread reports, and keeps, the route it is loaded with. */
  predicate Truthful(w: Shared, rpc: Rpc) { w.loaded.Some? ==> rpc.route == w.loaded.value }

  /** A peer p handled a request: its session, its subscription and, if it answered that it
      is ready, the readiness changed. */
  function Served(w: Shared, p: Sid, h: Handled, ready: bool): Shared {
    w.(live := w.live[p := h.sess], subs := if h.subscribed then w.subs + {p} else w.subs - {p},
       ready := if ready then w.ready + {p} else w.ready)
  }

  /** What a visit that was accepted leaves of a session. */
  predicate Visited(request: Request, s: Sess) {
    match request
    case BeginRecovery(_) => s.suppressed
    case EndRecovery => !s.suppressed
    case Unsubscribe => s.effective.None?
    case Resubscribe(_) => !s.detached
    case _ => true
  }

  /** Calls that need a marker: unsubscribing the dirty marker, suppressing the journal. */
  predicate Covered(w: Shared, request: Request) {
    (request == Unsubscribe ==> w.dirty.Some?) && (request.BeginRecovery? ==> w.journal.Some?)
  }

  function Answer(root: string, w: Shared, p: Sid, request: Request, rpc: Rpc, ready: bool): Shared
    requires p in w.live
  {
    Served(w, p, Handle(root, request, w.live[p], p in w.subs, rpc), ready)
      .(loaded := if Resumes(request, w.live[p]) && Applied(rpc) then Some(rpc.route) else w.loaded)
  }

  predicate Accepted(root: string, w: Shared, p: Sid, request: Request, rpc: Rpc)
    requires p in w.live
  {
    var status := Handle(root, request, w.live[p], p in w.subs, rpc).status;
    status.Some? && Accepts(request, status.value)
  }

  lemma ServedKeeps(root: string, me: Sid, w: Shared, p: Sid, request: Request, rpc: Rpc, ready: bool)
    requires Inv(root, w) && p in w.live && Covered(w, request) && me in w.known && Truthful(w, rpc)
    ensures var v := Answer(root, w, p, request, rpc, ready); Inv(root, v) && Kept(me, w, v) && SameFiles(w, v)
  {
    hide Stored, ValidIds, DetachedIsDirty, SuppressedIsJournaled, CacheIsTrue;
    ServedMarks(root, w, p, request, rpc, ready);
    ServedCache(root, w, p, request, rpc, ready);
  }

  lemma ServedMarks(root: string, w: Shared, p: Sid, request: Request, rpc: Rpc, ready: bool)
    requires p in w.live && Covered(w, request) && DetachedIsDirty(w) && SuppressedIsJournaled(w)
    ensures var v := Answer(root, w, p, request, rpc, ready); DetachedIsDirty(v) && SuppressedIsJournaled(v)
  {
    hide ValidIds;
    var v := Answer(root, w, p, request, rpc, ready);
    assert forall s :: s in w.live && s != p ==> s in v.live && v.live[s] == w.live[s];
  }

  lemma ServedCache(root: string, w: Shared, p: Sid, request: Request, rpc: Rpc, ready: bool)
    requires p in w.live && Truthful(w, rpc) && CacheIsTrue(w) && SubscribedIsLoaded(w)
    ensures CacheIsTrue(Answer(root, w, p, request, rpc, ready))
  {
    hide ValidIds;
    var v := Answer(root, w, p, request, rpc, ready);
    assert forall s :: s in w.live && s != p ==> s in v.live && v.live[s] == w.live[s];
  }

  /** A call that takes effect late, after its sender died or gave up and whatever happened
      since, leaves a detached session without a marker if and only if it is an unsubscription
      of a resting session that knows itself subscribed, or is told so, and the marker is gone
      by then. */
  lemma LateCall(root: string, w: Shared, p: Sid, request: Request, rpc: Rpc)
    requires Inv(root, w) && p in w.live
    ensures DetachedIsDirty(Answer(root, w, p, request, rpc, false)) <==>
      request != Unsubscribe || w.dirty.Some? || w.live[p].active ||
      (w.live[p].effective.None? && !(rpc.answered && p in w.subs))
  {
    hide Stored, ValidIds;
    var v := Answer(root, w, p, request, rpc, false);
    assert p in v.live;
    assert forall s :: s in w.live && s != p ==> s in v.live && v.live[s] == w.live[s];
  }

  /** Owed subscriptions survive every call but an unsubscribe that was not answered. */
  lemma ServedOwes(root: string, w: Shared, p: Sid, request: Request, rpc: Rpc, ready: bool, owed: set<Sid>)
    requires p in w.live && Owed(w, owed)
    ensures var v := Answer(root, w, p, request, rpc, ready);
      (request != Unsubscribe || Accepted(root, w, p, request, rpc) ==> Owed(v, owed)) &&
      (request == Unsubscribe && Accepted(root, w, p, request, rpc) && p in owed ==> v.live[p].detached || p in v.closed)
  {
  }

  lemma ServedMatches(root: string, w: Shared, p: Sid, request: Request, rpc: Rpc, ready: bool, target: Route)
    requires p in w.live && Matching(w, target) && Towards(request, target)
    ensures Matching(Answer(root, w, p, request, rpc, ready), target)
  {
  }

  /** A resume verified against a route, or any other call, keeps the thread on the route
      as far as the session me is concerned. */
  lemma ServedRoute(root: string, me: Sid, w: Shared, p: Sid, request: Request, rpc: Rpc, ready: bool, target: Route)
    requires p in w.live && Truthful(w, rpc) && SubscribedIsLoaded(w) && Towards(request, target)
    ensures OnRoute(w, me, target.provider) ==> OnRoute(Answer(root, w, p, request, rpc, ready), me, target.provider)
    ensures Blank(w, me) && Neutral(request) ==> Blank(Answer(root, w, p, request, rpc, ready), me)
  {
    hide ValidIds;
  }

  lemma DriftOwes(me: Sid, a: Shared, b: Shared, owed: set<Sid>, target: Route)
    requires Drift(me, a, b) && SessionsKnown(a) && owed <= a.known
    ensures Owed(a, owed) ==> Owed(b, owed)
    ensures Marked(a, owed) ==> Marked(b, owed)
    ensures Matching(a, target) ==> Matching(b, target)
    ensures OnRoute(a, me, target.provider) ==> OnRoute(b, me, target.provider)
    ensures Blank(a, me) ==> Blank(b, me)
  {
  }

  // ---------------------------------------------------------------- a visit of all peers

  predicate VisitedIn(request: Request, w: Shared, s: Sid, owed: set<Sid>)
    requires s in w.live
  {
    && Visited(request, w.live[s]) && (request == Prepare ==> s in w.ready)
    && (request == Unsubscribe && s in owed ==> w.live[s].detached || s in w.closed)
  }

  /** How far a visit has come: the sessions that were there and are not to be visited any
      more have been, unless a call failed; the others are new. */
  predicate Progress(request: Request, start: Shared, w: Shared, todo: set<Sid>, owed: set<Sid>, clean: bool) {
    && (clean ==> forall s :: s in w.live && s in start.live && s !in todo ==> VisitedIn(request, w, s, owed))
    && (forall s :: s in w.live && s !in start.live ==> IsNew(w.live[s]) && s in w.joined && s !in start.known)
  }

  lemma ProgressDrift(me: Sid, request: Request, start: Shared, a: Shared, b: Shared, todo: set<Sid>, owed: set<Sid>, clean: bool)
    requires Progress(request, start, a, todo, owed, clean) && Drift(me, a, b) && SessionsKnown(a) && start.known <= a.known
    requires start.live.Keys <= start.known
    ensures Progress(request, start, b, todo, owed, clean)
  {
    forall s | s in b.live && s in start.live && s !in todo && clean
      ensures VisitedIn(request, b, s, owed)
    {
      assert s in a.live;
    }
  }

  lemma ProgressAnswer(root: string, request: Request, start: Shared, a: Shared, p: Sid, rpc: Rpc, ready: bool,
                       todo: set<Sid>, owed: set<Sid>, clean: bool, ok: bool)
    requires p in a.live && p in start.live && Progress(request, start, a, todo, owed, clean)
    requires ok ==> Accepted(root, a, p, request, rpc) && ready == (request == Prepare)
    requires clean && request == Unsubscribe ==> Owed(a, owed)
    ensures Progress(request, start, Answer(root, a, p, request, rpc, ready), todo - {p}, owed, clean && ok)
  {
    if ok && clean && request == Unsubscribe { ServedOwes(root, a, p, request, rpc, ready, owed); }
  }

  /** What a visit that succeeded says about every live session, the new ones included. */
  predicate AllVisited(request: Request, w: Shared) {
    match request
    case Prepare => AllReady(w)
    case Unsubscribe => forall s :: s in w.live ==> w.live[s].effective.None?
    case Resubscribe(_) => NoneDetached(w)
    case EndRecovery => NoneSuppressed(w)
    case _ => true
  }

  /** The calls that detach nobody and attach nobody. */
  predicate Neutral(request: Request) {
    request == Prepare || request == ReconcileIdle || request.BeginRecovery? || request == EndRecovery
  }

  /** The calls that attach nobody but under the target. */
  predicate Towards(request: Request, target: Route) { request != Restore && (request.Resubscribe? ==> request.route == target) }

  lemma NeutralMarks(root: string, w: Shared, p: Sid, request: Request, rpc: Rpc, ready: bool, owed: set<Sid>)
    requires p in w.live && Marked(w, owed) && Neutral(request)
    ensures Marked(Answer(root, w, p, request, rpc, ready), owed)
  {
  }

  lemma NeutralLoads(root: string, w: Shared, p: Sid, request: Request, rpc: Rpc)
    requires p in w.live && Neutral(request)
    ensures forall ready :: Answer(root, w, p, request, rpc, ready).loaded == w.loaded
  {
  }

  /** No session has a running turn. */
  predicate Resting(w: Shared) { forall s :: s in w.live ==> !w.live[s].active }

  /** Every live session would accept the request, whatever the app-server does. */
  predicate Welcome(root: string, request: Request, w: Shared) {
    Resting(w) && match request
      case Prepare => true
      case BeginRecovery(ids) => ValidIds(root, ids)
      case EndRecovery => true
      case _ => false
  }

  lemma StaysWelcome(root: string, w: Shared, p: Sid, request: Request, rpc: Rpc)
    requires Welcome(root, request, w) && p in w.live
    ensures Accepted(root, w, p, request, rpc)
    ensures forall ready :: Welcome(root, request, Answer(root, w, p, request, rpc, ready)) && Answer(root, w, p, request, rpc, ready).live.Keys == w.live.Keys
  {
  }

  lemma WelcomeRests(root: string, request: Request, w: Shared)
    ensures Welcome(root, request, w) ==> Resting(w)
  {
  }

  lemma KnownSessions(root: string, w: Shared)
    requires Inv(root, w)
    ensures SessionsKnown(w) && SubscribedIsLoaded(w)
  {
  }

  lemma StartVisit(me: Sid, request: Request, w: Shared, owed: set<Sid>)
    requires SessionsKnown(w) && me in w.known
    ensures Progress(request, w, w, w.live.Keys, owed, true) && Kept(me, w, w) && SameFiles(w, w)
  {
  }

  lemma StillCovered(me: Sid, a: Shared, b: Shared, request: Request)
    requires SameFiles(a, b) && Kept(me, a, b) && (me in a.live ==> Covered(a, request))
    ensures me in b.live ==> Covered(b, request)
  {
  }

  lemma KnownHere(me: Sid, a: Shared, b: Shared)
    requires Kept(me, a, b)
    ensures me in b.known
  {
  }

  lemma KeptKnown(me: Sid, a: Shared, b: Shared, c: Shared)
    requires Kept(me, a, b) && Kept(me, b, c) && SameFiles(a, b) && SameFiles(b, c)
    ensures Kept(me, a, c) && a.known <= c.known && SameFiles(a, c)
  {
  }

  /** One call of a visit: first what happened meanwhile, then the peer. */
  lemma VisitStep(root: string, me: Sid, request: Request, start: Shared, a: Shared, mid: Shared, b: Shared, p: Sid, rpc: Rpc,
                  todo: set<Sid>, owed: set<Sid>, target: Route, clean: bool, stale: bool, ok: bool)
    requires SessionsKnown(start) && SessionsKnown(a) && SessionsKnown(mid) && start.known <= a.known && owed <= start.known
    requires SubscribedIsLoaded(mid) && Truthful(mid, rpc)
    requires Drift(me, a, mid) && p in todo && todo <= start.live.Keys && Progress(request, start, a, todo, owed, clean)
    requires b == mid || (p in mid.live && (b == Answer(root, mid, p, request, rpc, false) || b == Answer(root, mid, p, request, rpc, true)))
    requires stale ==> p !in mid.live && b == mid
    requires ok ==> !stale && p in mid.live && Accepted(root, mid, p, request, rpc) && b == Answer(root, mid, p, request, rpc, request == Prepare)
    requires Owed(start, owed) && (request != Unsubscribe || clean) ==> Owed(a, owed)
    requires clean && request == Unsubscribe ==> Owed(start, owed)
    ensures Progress(request, start, b, todo - {p}, owed, clean && (stale || ok))
    ensures Owed(start, owed) && (request != Unsubscribe || (clean && (stale || ok))) ==> Owed(b, owed)
    ensures Marked(a, owed) && Neutral(request) ==> Marked(b, owed)
    ensures Matching(a, target) && Towards(request, target) ==> Matching(b, target)
    ensures OnRoute(a, me, target.provider) && Towards(request, target) ==>
      OnRoute(b, me, target.provider)
    ensures Blank(a, me) && Neutral(request) ==> Blank(b, me)
  {
    hide Drift, Owed, Marked, Matching, Progress, Accepted, Answer, SessionsKnown, OnRoute, Blank, Truthful, SubscribedIsLoaded;
    assert start.live.Keys <= start.known by { assert SessionsKnown(start); KnownKeys(start); }
    ProgressDrift(me, request, start, a, mid, todo, owed, clean);
    DriftOwes(me, a, mid, owed, target);
    if b == mid {
      if stale || !ok { ProgressSkip(request, start, mid, p, todo, owed, clean, stale); }
    }
    if p in mid.live {
      forall ready | b == Answer(root, mid, p, request, rpc, ready) && (ok ==> ready == (request == Prepare))
        ensures Progress(request, start, b, todo - {p}, owed, clean && ok)
        ensures Owed(start, owed) && (request != Unsubscribe || (clean && ok)) ==> Owed(b, owed)
        ensures Marked(a, owed) && Neutral(request) ==> Marked(b, owed)
        ensures Matching(a, target) && Towards(request, target) ==> Matching(b, target)
        ensures OnRoute(a, me, target.provider) && Towards(request, target) ==>
          OnRoute(b, me, target.provider)
        ensures Blank(a, me) && Neutral(request) ==> Blank(b, me)
      {
        if Towards(request, target) {
          ServedRoute(root, me, mid, p, request, rpc, ready, target);
        }
        ProgressAnswer(root, request, start, mid, p, rpc, ready, todo, owed, clean, ok);
        if Owed(mid, owed) { ServedOwes(root, mid, p, request, rpc, ready, owed); }
        if Neutral(request) && Marked(mid, owed) { NeutralMarks(root, mid, p, request, rpc, ready, owed); }
        if Matching(mid, target) && Towards(request, target) {
          ServedMatches(root, mid, p, request, rpc, ready, target);
        }
      }
    }
  }

  lemma KnownKeys(w: Shared)
    requires SessionsKnown(w)
    ensures w.live.Keys <= w.known
  {
  }

  /** A peer that is gone needs no visit; after a failure nothing is claimed. */
  lemma ProgressSkip(request: Request, start: Shared, w: Shared, p: Sid, todo: set<Sid>, owed: set<Sid>, clean: bool, stale: bool)
    requires Progress(request, start, w, todo, owed, clean) && (stale ==> p !in w.live)
    ensures Progress(request, start, w, todo - {p}, owed, clean && stale)
  {
  }

  lemma VisitDone(me: Sid, request: Request, start: Shared, w: Shared, owed: set<Sid>)
    requires Progress(request, start, w, {}, owed, true) && owed <= start.known
    ensures AllVisited(request, w) && (request == Unsubscribe ==> Marked(w, owed))
  {
  }

  // ---------------------------------------------------------------- the app-server's own moves

  /** What happens unasked.  A session dies: its lock is released and its subscription gone,
      but its turn, if one is out, stays unanswered.  A session joins.  A session is notified
      that a turn started or completed, or that the thread was closed.  And the app-server and
      its other clients go on: a thread nobody is subscribed to is unloaded, one that is not
      loaded is loaded under any route, a thread is closed, its model is changed, a dead
      session's turn is answered to nobody. */
  datatype Move =
    | Die(sid: Sid)
    | Join(sid: Sid)
    | Notify(sid: Sid, active: Option<bool>)
    | Unload
    | Load(route: Route)
    | Close
    | SetModel(model: string)
    | AnswerDead(sid: Sid)

  function Moved(w: Shared, m: Move): Shared {
    match m
    case Die(s) =>
      var freed := w.holder == Some(s);
      if s !in w.live then w
      else w.(live := w.live - {s}, subs := w.subs - {s},
              holder := if freed then None else w.holder, outstanding := if freed then None else w.outstanding)
    case Join(s) =>
      if s in w.known then w
      else w.(live := w.live[s := NEW_SESS], known := w.known + {s}, joined := w.joined + {s})
    case Notify(s, active) =>
      if s !in w.live then w
      else if active.Some? then w.(live := w.live[s := w.live[s].(active := active.value)])
      else if w.live[s].suppressed then w
      else w.(live := w.live[s := Closed(w.live[s])], subs := w.subs - {s}, closed := w.closed + {s})
    case Unload => if w.subs == {} then w.(loaded := None) else w
    case Load(route) => if w.loaded.None? then w.(loaded := Some(route)) else w
    case Close => w.(loaded := None, subs := {}, closed := w.closed + w.subs)
    case SetModel(model) => if w.loaded.Some? then w.(loaded := Some(w.loaded.value.(model := model))) else w
    case AnswerDead(s) => if s in w.live then w else w.(unanswered := w.unanswered - {s})
  }

  lemma MovedKeeps(root: string, w: Shared, m: Move)
    requires Inv(root, w)
    ensures Inv(root, Moved(w, m))
  {
    hide Inv, Moved;
    if m.Die? {
      DeathKeeps(root, w, m);
    } else if m.Join? {
      JoinKeeps(root, w, m);
    } else if m.Notify? {
      NoticeKeeps(root, w, m);
    } else {
      ServerMoveKeeps(root, w, m);
    }
  }

  lemma DeathKeeps(root: string, w: Shared, m: Move)
    requires Inv(root, w) && m.Die?
    ensures Inv(root, Moved(w, m))
  {
    hide Stored;
  }

  lemma JoinKeeps(root: string, w: Shared, m: Move)
    requires Inv(root, w) && m.Join?
    ensures Inv(root, Moved(w, m))
  {
    hide Stored;
  }

  lemma NoticeKeeps(root: string, w: Shared, m: Move)
    requires Inv(root, w) && m.Notify?
    ensures Inv(root, Moved(w, m))
  {
    hide Stored;
  }

  lemma ServerMoveKeeps(root: string, w: Shared, m: Move)
    requires Inv(root, w) && !m.Die? && !m.Join? && !m.Notify?
    ensures Inv(root, Moved(w, m))
  {
    hide Stored, SuppressedIsJournaled, DetachedIsDirty, LockTrue;
    var v := Moved(w, m);
    assert v.live == w.live && v.dirty == w.dirty && v.journal == w.journal && v.holder == w.holder && v.outstanding == w.outstanding;
    assert SuppressedIsJournaled(v) && DetachedIsDirty(v) && LockTrue(v) by { SameSessions(w, v); }
  }

  lemma SameSessions(w: Shared, v: Shared)
    requires v.live == w.live && v.dirty == w.dirty && v.journal == w.journal && v.holder == w.holder && v.outstanding == w.outstanding
    ensures SuppressedIsJournaled(v) == SuppressedIsJournaled(w) && DetachedIsDirty(v) == DetachedIsDirty(w) && LockTrue(v) == LockTrue(w)
  {
  }

  lemma MovedDrifts(root: string, w: Shared, m: Move)
    requires Inv(root, w)
    ensures forall me :: me in w.known ==> Drift(me, w, Moved(w, m))
  {
    hide Stored, Drift, Moved, Inv;
    forall me | me in w.known
      ensures Drift(me, w, Moved(w, m))
    {
      MoveDrifts(root, w, m, me);
    }
  }

  lemma MoveDrifts(root: string, w: Shared, m: Move, me: Sid)
    requires Inv(root, w) && me in w.known
    ensures Drift(me, w, Moved(w, m))
  {
    hide Drift, Moved, Inv;
    if m.Die? {
      DeathDrifts(root, w, m, me);
    } else if m.Join? {
      JoinDrifts(root, w, m, me);
    } else if m.Notify? {
      NoticeDrifts(root, w, m, me);
    } else {
      ServerDrifts(root, w, m, me);
    }
  }

  lemma DeathDrifts(root: string, w: Shared, m: Move, me: Sid)
    requires Inv(root, w) && me in w.known && m.Die?
    ensures Drift(me, w, Moved(w, m))
  {
    hide Stored, SuppressedIsJournaled, ArchivedIsJournaled, DetachedIsDirty, CacheIsTrue, UnansweredTrue, SubscribedIsLoaded;
  }

  lemma JoinDrifts(root: string, w: Shared, m: Move, me: Sid)
    requires Inv(root, w) && me in w.known && m.Join?
    ensures Drift(me, w, Moved(w, m))
  {
    hide Stored, SuppressedIsJournaled, ArchivedIsJournaled, DetachedIsDirty, CacheIsTrue, UnansweredTrue, SubscribedIsLoaded, LockTrue;
  }

  lemma NoticeDrifts(root: string, w: Shared, m: Move, me: Sid)
    requires Inv(root, w) && me in w.known && m.Notify?
    ensures Drift(me, w, Moved(w, m))
  {
    hide Stored, SuppressedIsJournaled, ArchivedIsJournaled, DetachedIsDirty, CacheIsTrue, UnansweredTrue, SubscribedIsLoaded, LockTrue;
    if m.sid in w.live && (m.active.Some? || !w.live[m.sid].suppressed) {
      NoticeHits(w, m.sid, m.active, me);
    } else {
      assert Moved(w, m) == w;
    }
  }

  lemma NoticeHits(w: Shared, s: Sid, active: Option<bool>, me: Sid)
    requires SessionsKnown(w) && me in w.known && s in w.live && (active.Some? || !w.live[s].suppressed)
    ensures Drift(me, w, Moved(w, Notify(s, active)))
  {
    var v := Moved(w, Notify(s, active));
    assert v.live.Keys == w.live.Keys && v.subs <= w.subs && (forall t :: t in w.subs && t != s ==> t in v.subs);
    assert forall t :: t in w.live && t != s ==> v.live[t] == w.live[t];
    if active.Some? { assert v.subs == w.subs; } else { assert s in v.closed; }
  }

  lemma ServerDrifts(root: string, w: Shared, m: Move, me: Sid)
    requires Inv(root, w) && me in w.known && !m.Die? && !m.Join? && !m.Notify?
    ensures Drift(me, w, Moved(w, m))
  {
    hide Stored, SuppressedIsJournaled, ArchivedIsJournaled, DetachedIsDirty, CacheIsTrue, UnansweredTrue;
  }

  /** A listing: the route of a loaded thread, or what is recorded, seen and remembered. */
  function Listed(w: Shared, me: Sid, recorded: Route): Shared
    requires me in w.live
  {
    var route := if w.loaded.Some? then w.loaded.value else recorded;
    w.(live := w.live[me := w.live[me].(effective := Some(route))], observed := w.observed + {route})
  }

  /** A verified resume under the route would succeed on a responsive app-server. */
  predicate Resumable(w: Shared, target: Route) { w.loaded.None? || RouteMatches(w.loaded.value, target) }

  /** What makes a turn safe lasts while the session that holds the lock takes no step. */
  lemma StillSafe(me: Sid, a: Shared, b: Shared, target: Route, observed: Route)
    requires Steady(me, a, b) && SameFiles(a, b) && SessionsKnown(a) && me in b.live
    requires Safe(a, me, observed) && OnRoute(a, me, target.provider)
    ensures Safe(b, me, observed) && OnRoute(b, me, target.provider)
  {
    SteadyStays(me, a, b, {}, target);
    hide Matching, Owed, Marked;
  }

  lemma WrittenIsSafe(root: string, w: Shared, me: Sid, target: Route)
    requires Inv(root, w) && me in w.live && w.dirty.None? && w.outstanding.None? && OnRoute(w, me, target.provider)
    ensures me in w.subs ==> w.loaded.Some? && w.loaded.value.provider == target.provider
    ensures w.unanswered !! w.live.Keys
  {
    hide Stored;
  }

  // ---------------------------------------------------------------- a step of the session itself

  /** A session changes what it remembers, its subscription and with it the loaded route:
      nothing but the mark of an attached session is given up, and what it remembers while
      subscribed is the loaded provider. */
  predicate OwnStep(me: Sid, w: Shared, v: Shared) {
    && me in w.live && me in v.live
    && v == w.(live := w.live[me := v.live[me]], subs := v.subs, loaded := v.loaded, observed := v.observed)
    && (v.subs == w.subs || v.subs == w.subs + {me} || v.subs == w.subs - {me}) && w.observed <= v.observed
    && (v.live[me].detached ==> w.live[me].detached) && v.live[me].suppressed == w.live[me].suppressed
    && (w.loaded.Some? || v.subs != {} ==> v.loaded.Some?)
    && (w.loaded.Some? ==> SameProviders(w.loaded, v.loaded))
    && (me in v.subs && !v.live[me].detached && v.live[me].effective.Some? ==> SameProviders(v.loaded, v.live[me].effective))
  }

  lemma OwnStepKeeps(root: string, me: Sid, w: Shared, v: Shared)
    requires Inv(root, w) && OwnStep(me, w, v)
    ensures Inv(root, v) && Kept(me, w, v) && SameFiles(w, v)
  {
    hide Stored;
    assert forall s :: s in w.live <==> s in v.live;
    assert forall s :: s in w.live && s != me ==> v.live[s] == w.live[s];
  }

  /** What the other sessions are owed does not change; the session itself loses its mark only
      to a subscription. */
  lemma OwnStepOwes(me: Sid, w: Shared, v: Shared, owed: set<Sid>)
    requires OwnStep(me, w, v)
    ensures Owed(w, owed) && me in v.subs ==> Owed(v, owed)
    ensures Marked(w, owed) && v.live[me].detached == w.live[me].detached ==> Marked(v, owed)
    ensures v == w ==> (Owed(w, owed) ==> Owed(v, owed))
  {
  }

  lemma OwnStepMatches(me: Sid, w: Shared, v: Shared, target: Route)
    requires OwnStep(me, w, v) && (v.live[me].effective.Some? ==> RouteMatches(v.live[me].effective.value, target))
    ensures Matching(w, target) ==> Matching(v, target)
  {
  }

  /** A resume on the session's own connection, verified against the target. */
  function ResumedUnder(w: Shared, me: Sid, target: Route, rpc: Rpc): Shared
    requires me in w.live
  {
    var h := Resumed(w.live[me], me in w.subs, Some(target), rpc, Resubscribed);
    w.(live := w.live[me := h.sess], subs := if h.subscribed then w.subs + {me} else w.subs,
       loaded := if Applied(rpc) then Some(rpc.route) else w.loaded,
       observed := if rpc.answered && rpc.readable then w.observed + {rpc.route} else w.observed)
  }

  lemma ResumeIsOwnStep(root: string, me: Sid, w: Shared, target: Route, rpc: Rpc)
    requires Inv(root, w) && me in w.live && Blank(w, me) && Truthful(w, rpc)
    ensures var v := ResumedUnder(w, me, target, rpc);
      var ok := rpc.answered && rpc.readable && RouteMatches(rpc.route, target);
      && OwnStep(me, w, v) && me in v.live && (v == w || me in v.subs)
      && (if ok then me in v.subs && v.loaded == Some(rpc.route) && rpc.route in v.observed && v.live[me].effective == Some(rpc.route)
          else v.live[me] == w.live[me])
  {
    hide Stored;
    assert w.subs == w.subs + {me} || me !in w.subs;
  }

  lemma OwnStepDrifts(me: Sid, a: Shared, w: Shared, v: Shared)
    requires Steady(me, a, w) && OwnStep(me, w, v) && v == w.(live := w.live[me := v.live[me]])
    requires v.live[me] == w.live[me].(effective := None)
    ensures Steady(me, a, v)
  {
    assert forall s :: s in w.live <==> s in v.live;
  }

  /** The turn is out, or was not. */
  function Wrote(w: Shared, me: Sid): Shared
    requires me in w.live
  {
    w.(live := w.live[me := w.live[me].(active := true)], outstanding := Some(me), unanswered := w.unanswered + {me})
  }

  function NotWritten(w: Shared, me: Sid): Shared
    requires me in w.live
  {
    w.(live := w.live[me := w.live[me].(active := false)], holder := None)
  }

  lemma WriteKeeps(root: string, w: Shared, me: Sid)
    requires Inv(root, w) && me in w.live && w.holder == Some(me) && w.outstanding.None?
    ensures Inv(root, Wrote(w, me)) && Inv(root, NotWritten(w, me))
    ensures forall s :: s in w.unanswered ==> s !in w.live
  {
    hide Stored;
  }

  /** The threads that are archived; with the root go its subscriptions and the loaded route. */
  function ArchivedTo(w: Shared, gone: set<string>, root: bool): Shared {
    var v := w.(archived := w.archived + gone);
    if root then v.(subs := {}, loaded := None) else v
  }

  lemma ArchiveKeeps(root: string, me: Sid, w: Shared, gone: set<string>, applied: bool)
    requires Inv(root, w) && me in w.known && w.journal.Some? && forall id :: id in gone ==> id in w.journal.value.remaining
    ensures var v := ArchivedTo(w, gone, applied);
      && Inv(root, v) && Kept(me, w, v) && v.dirty == w.dirty && v.journal == w.journal && v.live == w.live
      && (applied ==> v.loaded.None? && v.subs == {})
      && (forall owed: set<Sid> :: Marked(w, owed) ==> Marked(v, owed))
      && (forall target :: Matching(w, target) ==> Matching(v, target)) && (Blank(w, me) ==> Blank(v, me))
  {
    hide Stored;
  }

  lemma FilesAre(a: Shared, b: Shared)
    requires SameFiles(a, b)
    ensures b.dirty == a.dirty && b.journal == a.journal && b.archived == a.archived
  {
  }

  lemma KeptArchive(me: Sid, a: Shared, b: Shared, c: Shared)
    requires Kept(me, a, b) && Kept(me, b, c) && SameFiles(a, b)
    ensures Kept(me, a, c) && b.dirty == a.dirty && b.journal == a.journal
  {
  }

  // ---------------------------------------------------------------- how far a remembered route is true

  lemma SeenIsOwnStep(root: string, me: Sid, w: Shared)
    requires Inv(root, w) && me in w.live && w.live[me].effective.Some?
    ensures var v := w.(observed := w.observed + {w.live[me].effective.value});
      OwnStep(me, w, v) && OnRoute(v, me, w.live[me].effective.value.provider)
  {
    hide Stored;
    assert w.live[me := w.live[me]] == w.live;
  }

  lemma ListedIsOwnStep(root: string, me: Sid, w: Shared, recorded: Route)
    requires Inv(root, w) && me in w.live
    ensures var v := Listed(w, me, recorded);
      && OwnStep(me, w, v) && me in v.live && v.live[me].effective.Some?
      && v.live[me].effective.value in v.observed && OnRoute(v, me, v.live[me].effective.value.provider)
  {
    hide Stored;
  }

  /** A resume on another connection, which the session remembers if it is verified. */
  function ResumedAside(w: Shared, me: Sid, target: Route, rpc: Rpc): Shared
    requires me in w.live
  {
    var v := if Applied(rpc) then w.(loaded := Some(rpc.route)) else w;
    if rpc.answered && rpc.readable && RouteMatches(rpc.route, target)
    then v.(live := v.live[me := v.live[me].(effective := Some(rpc.route))]) else v
  }

  lemma AsideIsOwnStep(root: string, me: Sid, w: Shared, target: Route, rpc: Rpc)
    requires Inv(root, w) && me in w.live && Truthful(w, rpc)
    ensures var v := ResumedAside(w, me, target, rpc);
      && OwnStep(me, w, v) && me in v.live && (Resting(w) ==> Resting(v))
      && (rpc.answered && rpc.readable && RouteMatches(rpc.route, target) ==> v.live[me].effective == Some(rpc.route))
  {
    hide Stored;
    assert w.live[me := w.live[me]] == w.live;
  }

  /** Desktop's own resume or unsubscription, applied; a resume that is answered is
      remembered. */
  function Forwarded(w: Shared, me: Sid, resume: bool, rpc: Rpc): Shared
    requires me in w.live
  {
    if !resume then w.(subs := w.subs - {me})
    else
      var sess := if rpc.answered && rpc.readable then w.live[me].(effective := Some(rpc.route), detached := false) else w.live[me];
      w.(live := w.live[me := sess], subs := w.subs + {me}, loaded := Some(rpc.route))
  }

  lemma ForwardIsOwnStep(root: string, me: Sid, w: Shared, resume: bool, rpc: Rpc)
    requires Inv(root, w) && me in w.live && Blank(w, me) && Truthful(w, rpc)
    ensures OwnStep(me, w, Forwarded(w, me, resume, rpc))
  {
    hide Stored;
    assert w.live[me := w.live[me]] == w.live;
  }

  /** Forgetting the route, and the mark with it or not. */
  lemma ForgetIsOwnStep(root: string, me: Sid, w: Shared, v: Shared)
    requires Inv(root, w) && me in w.live && me in v.live && v == w.(live := w.live[me := v.live[me]])
    requires v.live[me].effective.None? && (v.live[me].detached ==> w.live[me].detached) && v.live[me].suppressed == w.live[me].suppressed
    ensures OwnStep(me, w, v)
  {
    hide Stored;
  }

  lemma BlankFact(w: Shared, me: Sid)
    requires me in w.live
    ensures Blank(w, me) <==> w.live[me].effective.None?
  {
  }

  /** Before a step of its own nothing but drift happened to the session. */
  lemma SteadyMeanwhile(root: string, me: Sid, a: Shared, b: Shared, target: Route)
    requires Inv(root, a) && Inv(root, b) && Drift(me, a, b)
    ensures Steady(me, a, b) && Kept(me, a, b) && SameFiles(a, b) && SessionsKnown(a)
    ensures (Matching(a, target) ==> Matching(b, target)) && (Blank(a, me) ==> Blank(b, me))
    ensures a.known <= b.known && me in b.known && (me in b.live ==> me in a.live)
    ensures b.holder == Some(me) ==> me in b.live
  {
    hide Stored, Owed, Marked;
    DriftSteady(me, a, b);
    SteadyStays(me, a, b, {}, target);
  }

  lemma SteadyOwes(root: string, me: Sid, a: Shared, b: Shared, owed: set<Sid>)
    requires Inv(root, a) && Steady(me, a, b) && owed <= a.known
    ensures Owed(a, owed) ==> Owed(b, owed)
    ensures Marked(a, owed) ==> Marked(b, owed)
  {
    hide Stored;
  }

  /** Two worlds that a session cannot tell apart: its own state, its subscription and the
      files are the same. */
  predicate LooksSame(me: Sid, a: Shared, b: Shared) {
    && me in a.live && me in b.live && a.live[me] == b.live[me] && (me in a.subs <==> me in b.subs) && SameFiles(a, b)
  }

  /** What an attached session remembers is sure to be true if and only if it is subscribed:
      in every world that looks like this one to it the thread is loaded with the provider. */
  lemma CacheIsSure(root: string, w: Shared, me: Sid)
    requires Inv(root, w) && me in w.live && !w.live[me].detached && w.live[me].effective.Some?
    ensures (forall v: Shared :: Inv(root, v) && LooksSame(me, w, v) ==>
        v.loaded.Some? && v.loaded.value.provider == w.live[me].effective.value.provider) <==>
      me in w.subs
  {
    hide Stored;
    if me !in w.subs {
      var v := w.(subs := {}, loaded := None);
      assert Inv(root, v) && LooksSame(me, w, v);
    }
  }

  /** A session that is not subscribed remembers what was recorded, another client loads the
      thread under another provider, and nothing else keeps the session from sending a turn. */
  lemma StaleTurn(root: string, recorded: Route, other: Route)
    requires root != "" && recorded.provider != other.provider
    ensures var me: Sid := 0;
      var w := Shared(map[me := NEW_SESS], {}, {me}, None, None, None, {}, Some(me), None, {}, {me}, {}, {}, {});
      var v := Moved(Listed(w, me, recorded), Load(other));
      Inv(root, w) && Inv(root, v) && SafeRecord(TurnWritten(me, recorded, recorded, v)) &&
      me !in v.subs && v.loaded == Some(other) && v.live[me].effective == Some(recorded)
  {
  }

  /** A turn of a session that died stays unanswered, and the next holder of the lock writes
      another. */
  lemma TwoTurns(root: string, route: Route)
    requires root != ""
    ensures var dead: Sid, me: Sid := 0, 1;
      var w := Shared(map[me := NEW_SESS.(effective := Some(route))], {me}, {dead, me}, Some(route), None, None, {}, Some(me), None, {dead}, {me}, {}, {route}, {});
      Inv(root, w) && SafeRecord(TurnWritten(me, route, route, w)) && |w.unanswered + {me}| == 2
  {
  }

  // ---------------------------------------------------------------- the steps

  /** The shared state of one thread, and the steps on it. */
  class Thread {
    const root: string
    /** A calm thread is one where nothing happens meanwhile and every call and every file
        operation succeeds; nothing is assumed of the others. */
    const calm: bool
    var w: Shared
    ghost var log: seq<Record>

    ghost predicate Valid()
      reads this
    {
      Inv(root, w) && forall i :: 0 <= i < |log| ==> SafeRecord(log[i])
    }

    constructor (root: string, calm: bool, first: Sid, route: Route)
      requires root != ""
      ensures Valid() && this.root == root && this.calm == calm && log == []
      ensures w.live == map[first := NEW_SESS.(effective := Some(route))] && w.subs == {first} && w.loaded == Some(route)
      ensures w.dirty.None? && w.journal.None? && w.holder.None?
    {
      this.root, this.calm := root, calm;
      w := Shared(map[first := NEW_SESS.(effective := Some(route))], {first}, {first}, Some(route), None, None, {}, None, None, {}, {}, {}, {}, {});
      log := [];
    }

    // -------------------------------------------------------------- the environment

    method Happen(m: Move)
      requires Valid()
      modifies this`w
      ensures Valid() && w == Moved(old(w), m)
      ensures forall me :: me in old(w).known ==> Drift(me, old(w), w)
    {
      hide Inv, Drift, Moved;
      MovedKeeps(root, w, m);
      MovedDrifts(root, w, m);
      w := Moved(w, m);
    }

    /** Anything that may happen between two steps of the session me. */
    method Meanwhile(ghost me: Sid)
      requires Valid() && me in w.known
      modifies this`w
      ensures Valid() && Drift(me, old(w), w) && (calm ==> w == old(w))
    {
      hide Stored;
      ghost var start := w;
      var more: bool := *;
      var rounds: nat := *;
      while more && rounds > 0 && !calm
        invariant Valid() && Drift(me, start, w) && (calm ==> w == start)
        decreases rounds
      {
        var m: Move := *;
        ghost var before := w;
        Happen(m);
        DriftTransitive(me, start, before, w);
        more, rounds := *, rounds - 1;
      }
    }

    // -------------------------------------------------------------- peers

    /** Calling one peer: it may be gone, not reached, or reached with its answer lost. */
    method CallPeer(me: Sid, p: Sid, request: Request)
      returns (stale: bool, ok: bool, ghost mid: Shared, ghost rpc: Rpc)
      requires Valid() && me in w.known && (me in w.live ==> Covered(w, request))
      modifies this`w
      ensures Valid() && Drift(me, old(w), mid) && SessionsKnown(mid) && SubscribedIsLoaded(mid) && Truthful(mid, rpc)
      ensures w == mid || (p in mid.live && (w == Answer(root, mid, p, request, rpc, false) || w == Answer(root, mid, p, request, rpc, true)))
      ensures stale ==> p !in mid.live && w == mid
      ensures Kept(me, old(w), w) && SameFiles(old(w), w)
      ensures ok ==> !stale && me in w.live && p in mid.live && Accepted(root, mid, p, request, rpc)
      ensures ok ==> w == Answer(root, mid, p, request, rpc, request == Prepare)
      ensures calm ==> mid == old(w) && (me in mid.live && p in mid.live && Accepted(root, mid, p, request, rpc) ==> ok)
    {
      hide Drift, Kept, SameFiles, Covered, Inv, Handle, Accepts, SubscribedIsLoaded, Resumes;
      ghost var start := w;
      Meanwhile(me);
      mid := w;
      var went: Rpc := *;
      if w.loaded.Some? { went := went.(route := w.loaded.value); }
      rpc := went;
      KnownSessions(root, start);
      KnownSessions(root, w);
      DriftKeeps(me, start, w);
      StillCovered(me, start, w, request);
      if me !in w.live { return false, false, mid, rpc; }
      if p !in w.live { return true, false, mid, rpc; }
      var reached: bool, lost: bool := *, *;
      if !reached && !calm { return false, false, mid, rpc; }
      var h := Handle(root, request, w.live[p], p in w.subs, went);
      ok := (!lost || calm) && h.status.Some? && Accepts(request, h.status.value);
      KnownHere(me, start, w);
      ServedKeeps(root, me, w, p, request, went, ok && request == Prepare);
      w := Answer(root, w, p, request, went, ok && request == Prepare);
      KeptKnown(me, start, mid, w);
      stale := false;
    }

    /** Visiting every peer endpoint there is, in some order.  A peer that is gone is skipped;
        the first one that is not reached, or answers otherwise than expected, ends the
        visit unless every peer is to be tried. */
    method VisitPeers(me: Sid, request: Request, bestEffort: bool, ghost owed: set<Sid>, ghost target: Route) returns (ok: bool)
      requires Valid() && me in w.known && owed <= w.known && (me in w.live ==> Covered(w, request))
      requires request == Unsubscribe ==> Owed(w, owed)
      modifies this`w
      ensures Valid() && Kept(me, old(w), w) && SameFiles(old(w), w)
      ensures ok ==> me in w.live && AllVisited(request, w)
      ensures Owed(old(w), owed) && request != Unsubscribe ==> Owed(w, owed)
      ensures request == Unsubscribe && ok ==> Marked(w, owed)
      ensures Marked(old(w), owed) && Neutral(request) ==> Marked(w, owed)
      ensures Matching(old(w), target) && Towards(request, target) ==> Matching(w, target)
      ensures OnRoute(old(w), me, target.provider) && Towards(request, target) ==>
        OnRoute(w, me, target.provider)
      ensures Blank(old(w), me) && Neutral(request) ==> Blank(w, me)
      ensures calm && me in old(w).live && Welcome(root, request, old(w)) ==> ok && Resting(w)
      ensures calm && Neutral(request) ==> w.loaded == old(w).loaded
    {
      hide Welcome, Resting, Drift, Kept, Progress, Owed, Marked, Matching, Answer, Accepted, Inv, SameFiles, AllVisited, OnRoute, Blank, Truthful, SubscribedIsLoaded, Towards, Neutral, SessionsKnown;
      ghost var start := w;
      assert SessionsKnown(w) by { KnownSessions(root, w); }
      StartVisit(me, request, start, owed);
      var todo := w.live.Keys;
      var failed := false;
      while todo != {}
        invariant Valid() && SessionsKnown(w) && Kept(me, start, w) && SameFiles(start, w) && todo <= start.live.Keys
        invariant start.known <= w.known && Progress(request, start, w, todo, owed, !failed)
        invariant calm && me in start.live && Welcome(root, request, start) ==> !failed && Welcome(root, request, w) && w.live.Keys == start.live.Keys
        invariant Owed(start, owed) && (request != Unsubscribe || !failed) ==> Owed(w, owed)
        invariant Marked(start, owed) && Neutral(request) ==> Marked(w, owed)
        invariant Matching(start, target) && Towards(request, target) ==> Matching(w, target)
        invariant OnRoute(start, me, target.provider) && Towards(request, target) ==>
          OnRoute(w, me, target.provider)
        invariant Blank(start, me) && Neutral(request) ==> Blank(w, me)
        invariant calm && Neutral(request) ==> w.loaded == start.loaded
        decreases todo
      {
        var p :| p in todo;
        ghost var before := w;
        StillCovered(me, start, w, request);
        var stale, accepted, mid, rpc := CallPeer(me, p, request);
        if Neutral(request) && p in mid.live { NeutralLoads(root, mid, p, request, rpc); }
        if calm && Welcome(root, request, before) && p in mid.live { StaysWelcome(root, before, p, request, rpc); }
        VisitStep(root, me, request, start, before, mid, w, p, rpc, todo, owed, target, !failed, stale, accepted);
        KeptKnown(me, start, before, w);
        KnownSessions(root, w);
        todo := todo - {p};
        if !stale && !accepted {
          failed := true;
          if !bestEffort { return false; }
        }
      }
      ok := !failed && me in w.live;
      if ok { VisitDone(me, request, start, w, owed); }
      WelcomeRests(root, request, w);
    }

    // -------------------------------------------------------------- the lock

    /** Taking the thread lock; what was learnt under an earlier lock is forgotten. */
    method LockThread(me: Sid) returns (ok: bool)
      requires Valid() && me in w.known
      modifies this`w
      ensures Valid() && old(w).known <= w.known
      ensures ok ==> me in w.live && Holds(w, me) && w.observed == {} && w.closed == {}
    {
      hide Stored;
      Meanwhile(me);
      var granted: bool := *;
      ok := granted && me in w.live && w.holder.None?;
      if ok { w := w.(holder := Some(me), ready := {}, joined := {}, observed := {}, closed := {}); }
    }

    /** Giving the lock back.  A session that died has given it back already. */
    method ReleaseThread(me: Sid)
      requires Valid() && me in w.known && Holds(w, me)
      modifies this`w
      ensures Valid() && old(w).known <= w.known && w.holder != Some(me)
    {
      hide Stored;
      Meanwhile(me);
      if me in w.live { w := w.(holder := None); }
    }

    // -------------------------------------------------------------- the files

    /** Writing the dirty stage: a failure may leave the old stage or the new one. */
    method SetDirtyStage(me: Sid, stage: Stage) returns (ok: bool)
      requires Valid() && me in w.known
      modifies this`w
      ensures Valid() && Steady(me, old(w), w) && w.journal == old(w).journal && w.archived == old(w).archived
      ensures w.dirty == old(w).dirty || w.dirty == Some(stage)
      ensures ok ==> me in w.live && w.dirty == Some(stage)
    {
      hide Stored;
      Meanwhile(me);
      DriftSteady(me, old(w), w);
      var applied: bool := *;
      if me !in w.live || !applied { return false; }
      w := w.(dirty := Some(stage));
      ok := *;
    }

    /** Removing the marker, which only the caller knows to be right. */
    method ClearDirty(me: Sid) returns (ok: bool)
      requires Valid() && me in w.known && (me in w.live ==> NoneDetached(w))
      modifies this`w
      ensures Valid() && Steady(me, old(w), w) && w.journal == old(w).journal && w.archived == old(w).archived
      ensures ok ==> me in w.live && w.dirty.None?
      ensures !ok ==> w.dirty == old(w).dirty
    {
      hide Stored;
      Meanwhile(me);
      DriftSteady(me, old(w), w);
      var removed: bool := *;
      ok := removed && me in w.live;
      if ok { w := w.(dirty := None); }
    }

    /** Saving a journal: refused if it is not valid or too long; a failure may come after the
        replacement. */
    method SaveJournal(me: Sid, j: Journal) returns (ok: bool)
      requires Valid() && me in w.known
      requires me in w.live ==> forall id :: id in w.archived ==> id in j.remaining
      modifies this`w
      ensures Valid() && Steady(me, old(w), w) && w.dirty == old(w).dirty && w.archived == old(w).archived
      ensures w.journal == old(w).journal || w.journal == Some(j)
      ensures ok ==> me in w.live && w.journal == Some(j)
      ensures ok ==> Stored(root, j)
      ensures calm ==> w.live == old(w).live && w.loaded == old(w).loaded && (me in w.live && Stored(root, j) ==> ok)
    {
      hide Stored;
      Meanwhile(me);
      DriftSteady(me, old(w), w);
      var applied: bool, synced: bool := *, *;
      if me !in w.live || (!applied && !calm) || !Stored(root, j) { return false; }
      w := w.(journal := Some(j));
      ok := synced || calm;
    }

    method ClearJournal(me: Sid) returns (ok: bool)
      requires Valid() && me in w.known && (me in w.live ==> NoneSuppressed(w) && w.archived == {})
      modifies this`w
      ensures Valid() && Steady(me, old(w), w) && w.dirty == old(w).dirty && w.archived == old(w).archived
      ensures w.journal == old(w).journal || w.journal.None?
      ensures ok ==> me in w.live && w.journal.None?
      ensures calm && me in old(w).live ==> ok
    {
      hide Stored;
      Meanwhile(me);
      DriftSteady(me, old(w), w);
      var removed: bool, synced: bool := *, *;
      if me !in w.live || (!removed && !calm) { return false; }
      w := w.(journal := None);
      ok := synced || calm;
    }

    /** Loading the journal, which may fail. */
    method LoadJournal(me: Sid) returns (ok: bool, journal: Option<Journal>)
      requires Valid() && me in w.known
      modifies this`w
      ensures Valid() && Steady(me, old(w), w) && SameFiles(old(w), w)
      ensures ok ==> me in w.live && journal == w.journal
      ensures calm ==> w == old(w) && (me in w.live ==> ok)
    {
      hide Stored;
      Meanwhile(me);
      DriftSteady(me, old(w), w);
      var readable: bool := *;
      return (readable || calm) && me in w.live, w.journal;
    }

    /** Looking for the marker, where any error counts as a marker, and reading its stage. */
    method ReadDirty(me: Sid) returns (dirty: bool, stage: Option<Stage>)
      requires Valid() && me in w.known
      modifies this`w
      ensures Valid() && Steady(me, old(w), w) && SameFiles(old(w), w)
      ensures !dirty && me in w.live ==> w.dirty.None?
      ensures stage.Some? ==> dirty && stage == w.dirty && stage != Some(Unreadable)
    {
      hide Stored;
      Meanwhile(me);
      DriftSteady(me, old(w), w);
      var error: bool, readable: bool := *, *;
      dirty := error || w.dirty.Some? || me !in w.live;
      stage := if dirty && readable && w.dirty != Some(Unreadable) then w.dirty else None;
    }

    // -------------------------------------------------------------- the app-server

    /** Archiving the root takes some of the listed threads with it, even if it fails; once the
        root is archived it is not loaded any more and every subscription has ended. */
    method Archive(me: Sid, ids: seq<string>) returns (ok: bool)
      requires Valid() && me in w.known
      requires me in w.live ==> w.journal.Some? && forall id :: id in ids ==> id in w.journal.value.remaining
      modifies this`w
      ensures Valid() && Kept(me, old(w), w) && w.dirty == old(w).dirty && w.journal == old(w).journal
      ensures forall owed: set<Sid> :: owed <= old(w).known && Marked(old(w), owed) ==> Marked(w, owed)
      ensures forall target :: Matching(old(w), target) ==> Matching(w, target)
      ensures Blank(old(w), me) ==> Blank(w, me)
      ensures ok ==> me in w.live && w.loaded.None? && w.subs == {}
    {
      hide Inv, Drift, Kept, SameFiles, Steady, Owed, Marked, Matching, Blank, ArchivedTo;
      Meanwhile(me);
      ghost var mid := w;
      SteadyMeanwhile(root, me, old(w), mid, Route("", ""));
      forall owed: set<Sid> | owed <= old(w).known
        ensures Marked(old(w), owed) ==> Marked(mid, owed)
      {
        SteadyOwes(root, me, old(w), mid, owed);
      }
      forall target
        ensures Matching(old(w), target) ==> Matching(mid, target)
      {
        SteadyMeanwhile(root, me, old(w), mid, target);
      }
      FilesAre(old(w), mid);
      if me !in w.live { return false; }
      var cascade: set<string> := *;
      var applied: bool, answered: bool := *, *;
      var gone := set id | id in cascade && id in ids;
      w := ArchivedTo(w, gone, applied);
      ArchiveKeeps(root, me, mid, gone, applied);
      KeptArchive(me, old(w), mid, w);
      ok := applied && answered;
    }

    /** Bringing one thread back.  The app-server says truthfully that it was not archived. */
    method Unarchive(me: Sid, id: string) returns (done: bool, already: bool)
      requires Valid() && me in w.known
      modifies this`w
      ensures Valid() && Steady(me, old(w), w) && w.dirty == old(w).dirty && w.journal == old(w).journal
      ensures w.archived == old(w).archived || w.archived == old(w).archived - {id}
      ensures done || already ==> me in w.live && id !in w.archived
      ensures calm ==> w.live == old(w).live && w.loaded == old(w).loaded && (me in w.live ==> done || already)
    {
      hide Stored;
      Meanwhile(me);
      DriftSteady(me, old(w), w);
      if me !in w.live { return false, false; }
      var applied: bool, answered: bool := *, *;
      if id !in w.archived { return false, answered || calm; }
      if !applied && !calm { return false, false; }
      w := w.(archived := w.archived - {id});
      return answered || calm, false;
    }

    /** An internal resume on the session's own connection, verified against the target. */
    method InternalResume(me: Sid, target: Route) returns (ok: bool, mismatch: bool, ghost route: Route)
      requires Valid() && me in w.known && Blank(w, me)
      modifies this`w
      ensures Valid() && Kept(me, old(w), w) && SameFiles(old(w), w)
      ensures ok ==> me in w.live && me in w.subs && w.loaded == Some(route) && route in w.observed && RouteMatches(route, target)
      ensures ok ==> OnRoute(w, me, target.provider)
      ensures forall owed: set<Sid> :: owed <= old(w).known && Owed(old(w), owed) ==> Owed(w, owed)
      ensures !ok ==> Blank(w, me) && forall owed: set<Sid> :: owed <= old(w).known && Marked(old(w), owed) ==> Marked(w, owed)
      ensures Matching(old(w), target) ==> Matching(w, target)
    {
      hide Inv, Drift, Kept, SameFiles, Owed, Marked, Matching, Blank, OwnStep, ResumedUnder, Steady;
      var rpc: Rpc := *;
      route := target;
      Meanwhile(me);
      ghost var mid := w;
      SteadyMeanwhile(root, me, old(w), mid, target);
      forall owed: set<Sid> | owed <= old(w).known
        ensures Owed(old(w), owed) ==> Owed(mid, owed)
        ensures Marked(old(w), owed) ==> Marked(mid, owed)
      {
        SteadyOwes(root, me, old(w), mid, owed);
      }
      if me !in w.live { return false, false, route; }
      if w.loaded.Some? { rpc := rpc.(route := w.loaded.value); }
      ResumeIsOwnStep(root, me, w, target, rpc);
      w := ResumedUnder(w, me, target, rpc);
      OwnStepKeeps(root, me, mid, w);
      KeptKnown(me, old(w), mid, w);
      forall owed: set<Sid> | owed <= old(w).known
        ensures Owed(old(w), owed) ==> Owed(w, owed)
        ensures Marked(old(w), owed) && w.live[me].detached == mid.live[me].detached ==> Marked(w, owed)
      {
        OwnStepOwes(me, mid, w, owed);
      }
      ok := rpc.answered && rpc.readable && RouteMatches(rpc.route, target);
      BlankFact(mid, me);
      BlankFact(w, me);
      OwnStepMatches(me, mid, w, target);
      if ok { return true, false, rpc.route; }
      mismatch := rpc.answered && rpc.readable;
      return false, mismatch, route;
    }

    /** The route the session works with: the one it remembers, or the one the app-server
        lists, which it then remembers.  The listing gives the route of a loaded thread and
        recorded metadata of one that is not loaded. */
    method EffectiveRoute(me: Sid) returns (ok: bool, route: Option<Route>)
      requires Valid() && me in w.known
      modifies this`w
      ensures Valid() && Kept(me, old(w), w) && SameFiles(old(w), w)
      ensures ok ==> me in w.live && (route.Some? ==> route.value in w.observed && OnRoute(w, me, route.value.provider))
    {
      hide Inv, Drift, Kept, SameFiles, OwnStep, Listed, Steady, CacheIsTrue, OnRoute;
      Meanwhile(me);
      ghost var mid := w;
      SteadyMeanwhile(root, me, old(w), mid, Route("", ""));
      if me !in w.live { return false, None; }
      if w.live[me].effective.Some? {
        w := w.(observed := w.observed + {w.live[me].effective.value});
        SeenIsOwnStep(root, me, mid);
        OwnStepKeeps(root, me, mid, w);
        KeptKnown(me, old(w), mid, w);
        return true, w.live[me].effective;
      }
      var listed: bool := *;
      var runtime: Option<Route> := *;
      match runtime
      case None => return listed, None;
      case Some(recorded) =>
        if !listed { return false, None; }
        w := Listed(w, me, recorded);
        ListedIsOwnStep(root, me, mid, recorded);
        OwnStepKeeps(root, me, mid, w);
        KeptKnown(me, old(w), mid, w);
        return true, w.live[me].effective;
    }

    /** The cached route is dropped. */
    method ClearEffective(me: Sid)
      requires Valid() && me in w.known
      modifies this`w
      ensures Valid() && Steady(me, old(w), w) && SameFiles(old(w), w)
    {
      hide Inv, Drift, Kept, SameFiles, OwnStep, Steady;
      Meanwhile(me);
      ghost var mid := w;
      SteadyMeanwhile(root, me, old(w), mid, Route("", ""));
      if me in w.live {
        w := w.(live := w.live[me := w.live[me].(effective := None)]);
        ForgetIsOwnStep(root, me, mid, w);
        OwnStepKeeps(root, me, mid, w);
        KeptKnown(me, old(w), mid, w);
        OwnStepDrifts(me, old(w), mid, w);
      }
    }

    /** Whether the session itself has a running turn. */
    method IsActive(me: Sid) returns (active: bool)
      requires Valid() && me in w.known
      modifies this`w
      ensures Valid() && Steady(me, old(w), w) && SameFiles(old(w), w)
      ensures !active ==> me in w.live
    {
      hide Stored;
      Meanwhile(me);
      DriftSteady(me, old(w), w);
      return me !in w.live || w.live[me].active;
    }

    /** Whether the session remembers a route. */
    method Remembers(me: Sid) returns (known: bool)
      requires Valid() && me in w.known
      modifies this`w
      ensures Valid() && Steady(me, old(w), w) && SameFiles(old(w), w)
      ensures known <==> me in w.live && w.live[me].effective.Some?
    {
      hide Stored;
      Meanwhile(me);
      DriftSteady(me, old(w), w);
      return me in w.live && w.live[me].effective.Some?;
    }

    /** The repair resumes and unsubscribes on a connection of its own, and the session
        remembers the route it saw. */
    method ResumeElsewhere(me: Sid, target: Route) returns (ok: bool)
      requires Valid() && me in w.known
      modifies this`w
      ensures Valid() && Kept(me, old(w), w) && SameFiles(old(w), w)
      ensures ok ==> me in w.live && w.live[me].effective.Some? && RouteMatches(w.live[me].effective.value, target)
      ensures calm && me in old(w).live ==> (ok <==> Resumable(old(w), target)) && (Resting(old(w)) ==> Resting(w))
    {
      hide Inv, Drift, Kept, SameFiles, OwnStep, Steady, ResumedAside;
      Meanwhile(me);
      ghost var mid := w;
      SteadyMeanwhile(root, me, old(w), mid, target);
      if me !in w.live { return false; }
      var rpc: Rpc := *;
      if calm { rpc := Rpc(true, true, true, target); }
      if w.loaded.Some? { rpc := rpc.(route := w.loaded.value); }
      w := ResumedAside(w, me, target, rpc);
      AsideIsOwnStep(root, me, mid, target, rpc);
      OwnStepKeeps(root, me, mid, w);
      KeptKnown(me, old(w), mid, w);
      ok := rpc.answered && rpc.readable && RouteMatches(rpc.route, target);
    }

    /** Before Desktop's own resume or unsubscribe is forwarded, the cache and the mark go. */
    method DropSubscription(me: Sid)
      requires Valid() && me in w.known
      modifies this`w
      ensures Valid() && Kept(me, old(w), w) && SameFiles(old(w), w)
      ensures me in w.live ==> !w.live[me].detached
      ensures Blank(w, me)
    {
      hide Inv, Drift, Kept, SameFiles, OwnStep, Steady;
      Meanwhile(me);
      ghost var mid := w;
      SteadyMeanwhile(root, me, old(w), mid, Route("", ""));
      if me in w.live {
        w := w.(live := w.live[me := w.live[me].(effective := None, detached := false)]);
        ForgetIsOwnStep(root, me, mid, w);
        OwnStepKeeps(root, me, mid, w);
        KeptKnown(me, old(w), mid, w);
      }
    }

    /** The forwarded request and its answer; a resume reports the route that is loaded. */
    method ForwardSubscription(me: Sid, resume: bool)
      requires Valid() && me in w.known && Blank(w, me)
      modifies this`w
      ensures Valid() && Kept(me, old(w), w) && SameFiles(old(w), w)
    {
      hide Inv, Drift, Kept, SameFiles, OwnStep, Steady, Forwarded, Blank;
      Meanwhile(me);
      ghost var mid := w;
      SteadyMeanwhile(root, me, old(w), mid, Route("", ""));
      var rpc: Rpc := *;
      if w.loaded.Some? { rpc := rpc.(route := w.loaded.value); }
      if me in w.live && Applied(rpc) {
        w := Forwarded(w, me, resume, rpc);
        ForwardIsOwnStep(root, me, mid, resume, rpc);
        OwnStepKeeps(root, me, mid, w);
        KeptKnown(me, old(w), mid, w);
      }
    }

    // -------------------------------------------------------------- what a job is for

    /** Writing a user turn upstream.  The lock stays with the turn until it is answered; the
        other turns still unanswered are those of sessions that died. */
    method WriteTurn(me: Sid, target: Route, ghost observed: Route) returns (ok: bool)
      requires Valid() && me in w.known
      requires me in w.live ==> Safe(w, me, observed) && observed.provider == target.provider && OnRoute(w, me, target.provider)
      modifies this`w, this`log
      ensures Valid() && old(w).known <= w.known
      ensures if ok then me in w.live && w.holder == Some(me) == w.outstanding else w.holder != Some(me)
      ensures (|log| == |old(log)| + 1 && old(log) <= log && log[|old(log)|].TurnWritten? && log[|old(log)|].sid == me
        && log[|old(log)|].target == target) || (!ok && log == old(log))
      ensures ok ==> w.unanswered == log[|old(log)|].at.unanswered + {me} && (forall s :: s in w.unanswered && s != me ==> s !in w.live)
      ensures ok ==> (w.unanswered == {me} <==> log[|old(log)|].at.unanswered == {})
    {
      hide Inv, Drift, Kept, Steady, AllReady, Matching, Owed, Marked;
      Meanwhile(me);
      SteadyMeanwhile(root, me, old(w), w, target);
      if me !in w.live { return false; }
      StillSafe(me, old(w), w, target, observed);
      WrittenIsSafe(root, w, me, target);
      WriteKeeps(root, w, me);
      log := log + [TurnWritten(me, target, observed, w)];
      ok := *;
      w := if ok then Wrote(w, me) else NotWritten(w, me);
    }

    /** Saving the selection of a switch command, before it is reported. */
    method SaveSwitch(me: Sid, target: Route, ghost observed: Route) returns (ok: bool)
      requires Valid() && me in w.known
      requires me in w.live ==> Safe(w, me, observed) && RouteMatches(observed, target) && OnRoute(w, me, target.provider)
      modifies this`w, this`log
      ensures Valid() && Kept(me, old(w), w)
      ensures log == old(log) || (|log| == |old(log)| + 1 && old(log) <= log && log[|old(log)|].SwitchSaved? && log[|old(log)|].target == target)
    {
      hide Inv, Drift, Kept, Steady, AllReady, Matching, Owed, Marked;
      Meanwhile(me);
      SteadyMeanwhile(root, me, old(w), w, target);
      if me !in w.live { return false; }
      StillSafe(me, old(w), w, target, observed);
      WrittenIsSafe(root, w, me, target);
      log := log + [SwitchSaved(me, target, observed, w)];
      ok := *;
    }

    /** The answer to an outstanding turn releases its lock.  An accepted turn may have
        updated the model, never the provider, of the thread and of the route the session
        remembers. */
    method AnswerTurn(s: Sid, accepted: bool, target: Route)
      requires Valid()
      modifies this`w
      ensures Valid() && old(w).known <= w.known
      ensures old(w).outstanding == Some(s) ==> w.holder.None? && w.outstanding.None? && s !in w.unanswered
      ensures old(w).outstanding != Some(s) ==> w == old(w)
      ensures forall p :: p in w.live ==> p in old(w).live && SameProviders(old(w).live[p].effective, w.live[p].effective)
      ensures SameProviders(old(w).loaded, w.loaded)
    {
      hide Stored;
      if w.outstanding == Some(s) && s in w.live {
        var sess := w.live[s];
        var effective := if accepted && SameProvider(sess.effective, target) then Some(target) else sess.effective;
        var loaded := if accepted && SameProvider(w.loaded, target) then Some(target) else w.loaded;
        w := w.(live := w.live[s := sess.(active := sess.active && accepted, effective := effective)], loaded := loaded,
                outstanding := None, unanswered := w.unanswered - {s}, holder := None);
      }
    }
  }
}
