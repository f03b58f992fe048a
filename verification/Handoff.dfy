/** The protocol that moves a thread between providers (internal/transport/session.go,
    handleTurnStart, prepareTurnPeers, handoff, repairSameProviderDirty,
    recoverProviderMismatch, repairRecoveryJournal), step by step over the shared state.
    Any step may fail, be applied without an answer, or come after the session died. */
module Handoff {
  import opened Wrappers
  import opened Handlers
  import opened ThreadState
  import JournalRecord

  /** What a failed sanitation of the rollout was. */
  datatype Sanitation = Clean | ActiveWriter | Unsanitized

  /** RestoreAll after a failure: every peer is tried, the outcome is ignored. */
  method RestoreAfterFailure(t: Thread, me: Sid)
    requires t.Valid() && me in t.w.known
    modifies t`w
    ensures t.Valid() && Kept(me, old(t.w), t.w) && SameFiles(old(t.w), t.w)
  {
    hide Kept, SameFiles;
    var _ := t.VisitPeers(me, Restore, true, {}, Route("", ""));
  }

  /** The deferred end of the suppression after a failed recovery. */
  method EndSuppression(t: Thread, me: Sid)
    requires t.Valid() && me in t.w.known
    modifies t`w
    ensures t.Valid() && Kept(me, old(t.w), t.w) && SameFiles(old(t.w), t.w)
  {
    hide Kept, SameFiles;
    var _ := t.VisitPeers(me, EndRecovery, true, {}, Route("", ""));
  }

  /** BeginRecoveryAll, with its rollback. */
  method BeginRecoveryAll(t: Thread, me: Sid, ids: seq<string>, ghost owed: set<Sid>, ghost target: Route) returns (ok: bool)
    requires t.Valid() && me in t.w.known && owed <= t.w.known && (me in t.w.live ==> t.w.journal.Some?)
    modifies t`w
    ensures t.Valid() && Kept(me, old(t.w), t.w) && SameFiles(old(t.w), t.w)
    ensures ok ==> me in t.w.live
    ensures Marked(old(t.w), owed) ==> Marked(t.w, owed)
    ensures Matching(old(t.w), target) ==> Matching(t.w, target)
    ensures Blank(old(t.w), me) ==> Blank(t.w, me)
    ensures t.calm && me in old(t.w).live && Resting(old(t.w)) && ValidIds(t.root, ids) ==> ok && Resting(t.w)
    ensures t.calm ==> t.w.loaded == old(t.w).loaded
  {
    hide Inv, ValidIds, Resting, AllVisited, Marked, Matching, Owed, Kept, SameFiles, OnRoute, Blank, Stored;
    if !ValidIds(t.root, ids) { NothingDone(t.root, me, t.w); return false; }
    ok := t.VisitPeers(me, BeginRecovery(ids), false, owed, target);
    if !ok {
      ghost var before := t.w;
      KeptMore(me, old(t.w), t.w);
      var _ := t.VisitPeers(me, EndRecovery, true, owed, target);
      KeptOn(me, old(t.w), before, t.w);
    }
  }

  lemma NothingDone(root: string, me: Sid, w: Shared)
    requires Inv(root, w) && me in w.known
    ensures Kept(me, w, w) && SameFiles(w, w)
  {
    hide Stored;
  }

  lemma KeptMore(me: Sid, a: Shared, b: Shared)
    requires Kept(me, a, b)
    ensures a.known <= b.known && me in b.known && (me in b.live ==> me in a.live)
    ensures a.observed <= b.observed && a.closed <= b.closed
  {
  }

  lemma KeptOn(me: Sid, a: Shared, b: Shared, c: Shared)
    requires Kept(me, a, b) && Kept(me, b, c)
    ensures Kept(me, a, c)
    ensures SameFiles(a, b) && SameFiles(b, c) ==> SameFiles(a, c)
  {
  }

  // ---------------------------------------------------------------- the journaled recovery

  /** What a recovery needs and keeps while the session lives: the dirty marker, the listeners
      either marked or given up, and nothing remembered that a resume could contradict. */
  ghost predicate InRecovery(me: Sid, start: Shared, w: Shared, owed: set<Sid>, target: Option<Route>) {
    && Kept(me, start, w) && owed <= w.known && (start.dirty.Some? ==> w.dirty.Some?)
    && Marked(w, owed) && (target.Some? ==> Matching(w, target.value) && Blank(w, me))
  }

  lemma SteadyRecovery(me: Sid, start: Shared, a: Shared, b: Shared, owed: set<Sid>, target: Option<Route>)
    requires InRecovery(me, start, a, owed, target) && Steady(me, a, b) && SessionsKnown(a)
    requires a.dirty.Some? ==> b.dirty.Some?
    ensures InRecovery(me, start, b, owed, target)
  {
    hide Steady, Marked, Matching, Kept, OnRoute, Blank, Stored;
    SteadyStays(me, a, b, owed, if target.Some? then target.value else Route("", ""));
    SteadyKept(me, a, b);
    KeptOn(me, start, a, b);
    KeptMore(me, a, b);
  }

  lemma SteadyKept(me: Sid, a: Shared, b: Shared)
    requires Steady(me, a, b)
    ensures Kept(me, a, b)
  {
  }

  lemma StartRecovery(root: string, me: Sid, w: Shared, owed: set<Sid>, target: Route)
    requires Inv(root, w) && me in w.known && owed <= w.known && Marked(w, owed) && Matching(w, target) && Blank(w, me)
    ensures InRecovery(me, w, w, owed, Some(target))
  {
  }

  /** Facts about a recovery that a proof step may need without looking inside. */
  lemma RecoveryFacts(me: Sid, start: Shared, w: Shared, owed: set<Sid>, target: Option<Route>)
    requires InRecovery(me, start, w, owed, target)
    ensures Kept(me, start, w) && owed <= w.known && (start.dirty.Some? ==> w.dirty.Some?)
    ensures Marked(w, owed) && (target.Some? ==> Matching(w, target.value) && Blank(w, me))
    ensures me in w.known && (me in w.live ==> me in start.live)
  {
  }

  lemma KeptRecovery(me: Sid, start: Shared, a: Shared, b: Shared, owed: set<Sid>, target: Option<Route>)
    requires InRecovery(me, start, a, owed, target) && Kept(me, a, b) && b.dirty == a.dirty
    requires Marked(b, owed) && (target.Some? ==> Matching(b, target.value) && Blank(b, me))
    ensures InRecovery(me, start, b, owed, target)
  {
    hide Marked, Matching, Kept, OnRoute, Blank, Stored;
    KeptOn(me, start, a, b);
    KeptMore(me, a, b);
  }

  /** Unarchiving the remaining threads one after the other, the journal saved after each.
      A repair also accepts the app-server's word that a thread is not archived. */
  method UnarchiveRemaining(t: Thread, me: Sid, first: Journal, repair: bool, ghost start: Shared, ghost owed: set<Sid>, ghost target: Option<Route>)
    returns (ok: bool, journal: Journal)
    requires t.Valid() && InRecovery(me, start, t.w, owed, target)
    requires me in t.w.live ==> t.w.journal.Some? && t.w.journal.value.remaining == first.remaining
    modifies t`w
    ensures t.Valid() && InRecovery(me, start, t.w, owed, target)
    ensures ok ==> me in t.w.live && t.w.journal.Some? && t.w.journal.value.remaining == [] && t.w.archived == {}
    ensures ok ==> journal.remaining == [] && journal == first.(phase := journal.phase, remaining := [])
    ensures t.calm && repair && me in old(t.w).live && Stored(t.root, first) ==> ok
    ensures t.calm ==> t.w.live == old(t.w).live && t.w.loaded == old(t.w).loaded
  {
    hide InRecovery, Steady, Inv, Stored, OnRoute, Blank;
    journal := first;
    while |journal.remaining| > 0
      invariant t.Valid() && InRecovery(me, start, t.w, owed, target)
      invariant me in t.w.live ==> t.w.journal.Some? && t.w.journal.value.remaining == journal.remaining
      invariant journal == first.(phase := journal.phase, remaining := journal.remaining)
      invariant t.calm ==> t.w.live == old(t.w).live && t.w.loaded == old(t.w).loaded
      invariant Stored(t.root, first) ==> Stored(t.root, journal)
      decreases |journal.remaining|
    {
      var id := journal.remaining[0];
      RecoveryFacts(me, start, t.w, owed, target);
      InvFacts(t.root, t.w);
      ghost var before := t.w;
      var done, already := t.Unarchive(me, id);
      SteadyRecovery(me, start, before, t.w, owed, target);
      if !done {
        // The repair believes the exact error only if the thread can then be read.
        var read: bool := *;
        if !repair || !already || !(read || t.calm) { return false, journal; }
      }
      SteadyLives(me, before, t.w);
      InvFacts(t.root, t.w);
      NextIsStored(t.root, journal);
      journal := journal.(phase := JournalRestoring, remaining := journal.remaining[1..]);
      RecoveryFacts(me, start, t.w, owed, target);
      ghost var mid := t.w;
      var saved := t.SaveJournal(me, journal);
      SteadyRecovery(me, start, mid, t.w, owed, target);
      SteadyLives(me, mid, t.w);
      if !saved { return false, journal; }
    }
    InvFacts(t.root, t.w);
    ok := me in t.w.live;
  }

  /** The journal after one more thread is stored as the one before was. */
  lemma NextIsStored(root: string, j: Journal)
    requires j.remaining != []
    ensures Stored(root, j) ==> Stored(root, j.(phase := JournalRestoring, remaining := j.remaining[1..]))
  {
    hide JournalRecord.Storable;
    if Stored(root, j) { JournalRecord.NextFits(RecordOf(root, j)); }
  }

  lemma SteadyLives(me: Sid, a: Shared, b: Shared)
    requires Steady(me, a, b)
    ensures me in b.live ==> me in a.live
    ensures me in a.known && me in b.known && a.known <= b.known && a.observed <= b.observed
  {
  }

  /** What Valid says that the recovery uses. */
  lemma InvFacts(root: string, w: Shared)
    requires Inv(root, w)
    ensures SessionsKnown(w)
    ensures w.journal.Some? ==> forall id :: id in w.archived ==> id in w.journal.value.remaining
    ensures w.journal.Some? && w.journal.value.remaining == [] ==> w.archived == {}
    ensures w.journal.None? ==> w.archived == {}
  {
    assert w.archived == {} || exists id :: id in w.archived;
  }

  /** recoverProviderMismatch: unload the thread with its descendants by archiving them, bring
      them back one by one, and resume under the target, every step journaled first. */
  method RecoverProviderMismatch(t: Thread, me: Sid, target: Route, ghost owed: set<Sid>) returns (ok: bool, ghost route: Route)
    requires t.Valid() && me in t.w.known && owed <= t.w.known
    requires me in t.w.live ==> t.w.dirty.Some? && t.w.journal.None?
    requires Marked(t.w, owed) && Matching(t.w, target) && Blank(t.w, me)
    modifies t`w
    ensures t.Valid() && Kept(me, old(t.w), t.w) && (old(t.w).dirty.Some? ==> t.w.dirty.Some?)
    ensures ok ==> me in t.w.live && t.w.journal.None? && route in t.w.observed && RouteMatches(route, target)
    ensures ok ==> Owed(t.w, owed) && Matching(t.w, target) && OnRoute(t.w, me, target.provider)
  {
    hide InRecovery, Steady, Inv, Kept, Marked, Matching, Owed, OnRoute, Blank, Stored;
    ghost var start := t.w;
    route := target;
    StartRecovery(t.root, me, t.w, owed, target);
    NothingDone(t.root, me, t.w) by { assert Inv(t.root, t.w); }
    InvFacts(t.root, t.w);
    // Connecting and enumerating the subtree may fail; the enumeration ends with the root.
    var connected: bool := *;
    var ids: seq<string> := *;
    if !connected { return false, route; }
    var staged := t.SetDirtyStage(me, Recovering);
    SteadyRecovery(me, start, start, t.w, owed, Some(target));
    RecoveryFacts(me, start, t.w, owed, Some(target));
    if !staged { return false, route; }
    SteadyLives(me, start, t.w);
    InvFacts(t.root, t.w);
    var journal := Journal(target, JournalPrepared, "", ids, ids);
    ghost var w1 := t.w;
    var saved := t.SaveJournal(me, journal);
    SteadyRecovery(me, start, w1, t.w, owed, Some(target));
    RecoveryFacts(me, start, t.w, owed, Some(target));
    if !saved { return false, route; }
    var suspended, begun := RecoverSuspended(t, me, journal, start, owed, target);
    if !suspended {
      ghost var w2 := t.w;
      RecoveryFacts(me, start, t.w, owed, Some(target));
      if begun {
        EndSuppression(t, me);
        KeptOn(me, start, w2, t.w);
      }
      return false, route;
    }
    ghost var w3 := t.w;
    RecoveryFacts(me, start, t.w, owed, Some(target));
    InvFacts(t.root, t.w);
    var resumed, mismatch, seen := t.InternalResume(me, target);
    KeptOn(me, start, w3, t.w);
    KeptMore(me, w3, t.w);
    MarkedIsOwed(w3, owed);
    ghost var w4 := t.w;
    if !resumed {
      EndSuppression(t, me);
      KeptOn(me, start, w4, t.w);
      return false, route;
    }
    route := seen;
    ok := FinishRecovery(t, me, target, start, owed, seen);
  }

  lemma MarkedIsOwed(w: Shared, owed: set<Sid>)
    requires Marked(w, owed)
    ensures Owed(w, owed)
  {
  }

  /** From the suppression to the sanitized, unarchived rollout. */
  method RecoverSuspended(t: Thread, me: Sid, journal: Journal, ghost start: Shared, ghost owed: set<Sid>, ghost target: Route)
    returns (ok: bool, begun: bool)
    requires t.Valid() && InRecovery(me, start, t.w, owed, Some(target))
    requires me in t.w.live ==> t.w.journal == Some(journal) && journal.remaining == journal.threads
    modifies t`w
    ensures t.Valid() && InRecovery(me, start, t.w, owed, Some(target))
    ensures ok ==> me in t.w.live && t.w.archived == {} && t.w.journal.Some?
  {
    hide InRecovery, Steady, Inv, Kept, Marked, Matching, Owed, OnRoute, Blank, Stored;
    RecoveryFacts(me, start, t.w, owed, Some(target));
    ghost var w0 := t.w;
    begun := BeginRecoveryAll(t, me, journal.threads, owed, target);
    KeptRecovery(me, start, w0, t.w, owed, Some(target));
    KeptMore(me, w0, t.w);
    if !begun { return false, false; }
    ghost var w1 := t.w;
    var archived := t.Archive(me, journal.threads);
    KeptMore(me, w1, t.w);
    KeptRecovery(me, start, w1, t.w, owed, Some(target));
    if !archived { return false, true; }
    InvFacts(t.root, t.w);
    var restoring := journal.(phase := JournalRestoring);
    RecoveryFacts(me, start, t.w, owed, Some(target));
    ghost var w2 := t.w;
    var saved := t.SaveJournal(me, restoring);
    SteadyRecovery(me, start, w2, t.w, owed, Some(target));
    SteadyLives(me, w2, t.w);
    if !saved { return false, true; }
    var unarchived, left := UnarchiveRemaining(t, me, restoring, false, start, owed, Some(target));
    if !unarchived { return false, true; }
    // Sanitation and the fingerprint of its result, if there is one to record.
    var sanitized: bool := *;
    var fingerprint: Option<string> := *;
    if !sanitized { return false, true; }
    if fingerprint.Some? {
      RecoveryFacts(me, start, t.w, owed, Some(target));
      ghost var w3 := t.w;
      InvFacts(t.root, t.w);
      var recorded := t.SaveJournal(me, left.(fingerprint := fingerprint.value));
      SteadyRecovery(me, start, w3, t.w, owed, Some(target));
      SteadyLives(me, w3, t.w);
      if !recorded { return false, true; }
    }
    ok := true;
  }

  /** Ending the suppression everywhere and clearing the journal. */
  method FinishRecovery(t: Thread, me: Sid, target: Route, ghost start: Shared, ghost owed: set<Sid>, ghost seen: Route)
    returns (ok: bool)
    requires t.Valid() && Kept(me, start, t.w) && owed <= t.w.known && me in t.w.known && (start.dirty.Some? ==> t.w.dirty.Some?)
    requires me in t.w.live ==> t.w.archived == {}
    requires Owed(t.w, owed) && Matching(t.w, target) && OnRoute(t.w, me, target.provider) && seen in t.w.observed
    modifies t`w
    ensures t.Valid() && Kept(me, start, t.w) && (start.dirty.Some? ==> t.w.dirty.Some?)
    ensures ok ==> me in t.w.live && t.w.journal.None? && Owed(t.w, owed) && Matching(t.w, target)
    ensures ok ==> OnRoute(t.w, me, target.provider) && seen in t.w.observed
  {
    hide Steady, Inv, Kept, Matching, Owed, OnRoute, Blank, Stored;
    ghost var w0 := t.w;
    var ended := t.VisitPeers(me, EndRecovery, true, owed, target);
    KeptOn(me, start, w0, t.w);
    KeptMore(me, w0, t.w);
    ghost var w1 := t.w;
    if !ended {
      EndSuppression(t, me);
      KeptOn(me, start, w1, t.w);
      return false;
    }
    InvFacts(t.root, t.w);
    ok := t.ClearJournal(me);
    SteadyStays(me, w1, t.w, owed, target);
    SteadyKept(me, w1, t.w);
    KeptOn(me, start, w1, t.w);
    KeptMore(me, w1, t.w);
  }

  // ---------------------------------------------------------------- the handoff

  /** What a handoff achieves: nobody is detached, nobody remembers another provider, nothing
      is left to repair, and whoever was subscribed is subscribed or saw the thread closed. */
  ghost predicate HandedOff(w: Shared, owed: set<Sid>, target: Route) {
    && w.dirty.None? && w.journal.None? && NoneDetached(w) && Matching(w, target)
    && forall s :: s in owed && s in w.live ==> s in w.subs || s in w.closed
  }

  /** handoff: mark dirty, unsubscribe everyone, resume under the target, recovering if the
      old runtime is still loaded, resubscribe everyone, clear the marker.  Every failure after
      the marker restores what it can and leaves the marker. */
  method HandOff(t: Thread, me: Sid, target: Route) returns (ok: bool, ghost route: Route)
    requires t.Valid() && me in t.w.known && (me in t.w.live ==> t.w.journal.None?)
    modifies t`w
    ensures t.Valid() && Kept(me, old(t.w), t.w)
    ensures ok ==> me in t.w.live && HandedOff(t.w, old(t.w).subs, target) && route in t.w.observed && RouteMatches(route, target)
    ensures ok ==> OnRoute(t.w, me, target.provider)
  {
    hide Steady, Inv, Kept, Matching, Owed, Marked, HandedOff, OnRoute, Blank, Stored;
    ghost var start := t.w;
    ghost var owed := t.w.subs;
    route := target;
    StartHandoff(t.root, me, t.w);
    ok := PrepareHandoff(t, me);
    KeptMore(me, start, t.w);
    if !ok { return false, route; }
    ghost var w0 := t.w;
    ok := UnsubscribeAll(t, me, owed, target);
    KeptOn(me, start, w0, t.w);
    KeptMore(me, w0, t.w);
    ghost var w1 := t.w;
    if ok {
      ok, route := ResumeUnderTarget(t, me, target, owed);
      KeptOn(me, start, w1, t.w);
      KeptMore(me, w1, t.w);
    }
    ghost var w2 := t.w;
    if ok {
      ok := ResubscribeAll(t, me, target, owed, route);
      KeptOn(me, start, w2, t.w);
      KeptMore(me, w2, t.w);
    }
    if !ok {
      ghost var w3 := t.w;
      RestoreAfterFailure(t, me);
      KeptOn(me, start, w3, t.w);
    }
  }

  lemma StartHandoff(root: string, me: Sid, w: Shared)
    requires Inv(root, w) && me in w.known
    ensures Kept(me, w, w) && w.subs <= w.known && Owed(w, w.subs)
  {
  }

  /** The capability checks and the marker; nothing is unsubscribed yet. */
  method PrepareHandoff(t: Thread, me: Sid) returns (ok: bool)
    requires t.Valid() && me in t.w.known
    modifies t`w
    ensures t.Valid() && Kept(me, old(t.w), t.w) && t.w.journal == old(t.w).journal && t.w.archived == old(t.w).archived
    ensures ok ==> me in t.w.live && t.w.dirty.Some?
    ensures Owed(old(t.w), old(t.w).subs) ==> Owed(t.w, old(t.w).subs)
  {
    hide Steady, Inv, Kept, Matching, Owed, Marked, OnRoute, Blank, Stored;
    ghost var owed := t.w.subs;
    ghost var start := t.w;
    StartHandoff(t.root, me, t.w);
    ok := t.VisitPeers(me, Prepare, false, owed, Route("", ""));
    KeptMore(me, start, t.w);
    if !ok { return; }
    ghost var w1 := t.w;
    ok := t.VisitPeers(me, Prepare, false, owed, Route("", ""));
    KeptOn(me, start, w1, t.w);
    KeptMore(me, w1, t.w);
    if !ok { return; }
    ghost var w2 := t.w;
    InvFacts(t.root, t.w);
    ok := t.SetDirtyStage(me, Prepared);
    SteadyStays(me, w2, t.w, owed, Route("", ""));
    SteadyKept(me, w2, t.w);
    KeptOn(me, start, w2, t.w);
  }

  /** Unsubscribing everyone marks whoever was subscribed and forgets every cached route. */
  method UnsubscribeAll(t: Thread, me: Sid, ghost owed: set<Sid>, ghost target: Route) returns (ok: bool)
    requires t.Valid() && me in t.w.known && owed <= t.w.known && Owed(t.w, owed) && (me in t.w.live ==> t.w.dirty.Some?)
    modifies t`w
    ensures t.Valid() && Kept(me, old(t.w), t.w) && t.w.journal == old(t.w).journal
    ensures ok ==> me in t.w.live && t.w.dirty.Some? && Marked(t.w, owed) && Matching(t.w, target) && Blank(t.w, me)
  {
    hide Steady, Inv, Kept, Owed, Marked;
    ghost var start := t.w;
    ok := t.VisitPeers(me, Unsubscribe, false, owed, target);
    KeptMore(me, start, t.w);
    if !ok { return; }
    NobodyRemembers(t.w, me, target);
    ghost var w1 := t.w;
    InvFacts(t.root, t.w);
    ok := t.SetDirtyStage(me, Detached);
    SteadyStays(me, w1, t.w, owed, target);
    SteadyKept(me, w1, t.w);
    KeptOn(me, start, w1, t.w);
  }

  lemma NobodyRemembers(w: Shared, me: Sid, target: Route)
    requires AllVisited(Unsubscribe, w)
    ensures Matching(w, target) && Blank(w, me)
  {
  }

  /** Sanitation and the verified resume, through the journaled recovery where needed. */
  method ResumeUnderTarget(t: Thread, me: Sid, target: Route, ghost owed: set<Sid>) returns (ok: bool, ghost route: Route)
    requires t.Valid() && me in t.w.known && owed <= t.w.known
    requires me in t.w.live ==> t.w.dirty.Some? && t.w.journal.None?
    requires Marked(t.w, owed) && Matching(t.w, target) && Blank(t.w, me)
    modifies t`w
    ensures t.Valid() && Kept(me, old(t.w), t.w)
    ensures ok ==> me in t.w.live && t.w.dirty.Some? && t.w.journal.None? && Owed(t.w, owed) && Matching(t.w, target)
    ensures ok ==> route in t.w.observed && RouteMatches(route, target) && OnRoute(t.w, me, target.provider)
  {
    hide Steady, Inv, Kept, Matching, Owed, Marked, OnRoute, Blank, Stored;
    ghost var start := t.w;
    route := target;
    NothingDone(t.root, me, t.w) by { assert Inv(t.root, t.w); }
    var sanitation: Sanitation := *;
    if sanitation == ActiveWriter {
      ok, route := RecoverProviderMismatch(t, me, target, owed);
      KeptMore(me, start, t.w);
      return;
    }
    if sanitation != Clean { return false, route; }
    var resumed, mismatch, seen := t.InternalResume(me, target);
    KeptMore(me, start, t.w);
    MarkedIsOwed(start, owed);
    if resumed { return true, seen; }
    if !mismatch { return false, route; }
    ghost var w1 := t.w;
    InvFacts(t.root, t.w);
    ok := t.SetDirtyStage(me, ResumeMismatch);
    SteadyStays(me, w1, t.w, owed, target);
    SteadyKept(me, w1, t.w);
    KeptOn(me, start, w1, t.w);
    KeptMore(me, w1, t.w);
    if !ok { return false, route; }
    ghost var w2 := t.w;
    ok, route := RecoverProviderMismatch(t, me, target, owed);
    KeptOn(me, start, w2, t.w);
    KeptMore(me, w2, t.w);
  }

  /** Resubscribing everyone under the verified route and clearing the marker. */
  method ResubscribeAll(t: Thread, me: Sid, target: Route, ghost owed: set<Sid>, ghost route: Route) returns (ok: bool)
    requires t.Valid() && me in t.w.known && owed <= t.w.known && (me in t.w.live ==> t.w.journal.None?)
    requires Owed(t.w, owed) && Matching(t.w, target) && OnRoute(t.w, me, target.provider) && route in t.w.observed
    modifies t`w
    ensures t.Valid() && Kept(me, old(t.w), t.w)
    ensures ok ==> me in t.w.live && HandedOff(t.w, owed, target) && route in t.w.observed && OnRoute(t.w, me, target.provider)
  {
    hide Steady, Inv, Kept, Matching, Owed, Marked, OnRoute, Blank, Stored;
    ghost var start := t.w;
    InvFacts(t.root, t.w);
    ok := t.SetDirtyStage(me, Resubscribing);
    SteadyStays(me, start, t.w, owed, target);
    SteadyKept(me, start, t.w);
    KeptMore(me, start, t.w);
    if !ok { return; }
    ghost var w1 := t.w;
    ok := t.VisitPeers(me, Resubscribe(target), false, owed, target);
    KeptOn(me, start, w1, t.w);
    KeptMore(me, w1, t.w);
    ghost var w2 := t.w;
    if !ok {
      t.ClearEffective(me);
      SteadyKept(me, w2, t.w);
      KeptOn(me, start, w2, t.w);
      return;
    }
    InvFacts(t.root, t.w);
    ok := t.ClearDirty(me);
    SteadyStays(me, w2, t.w, owed, target);
    SteadyKept(me, w2, t.w);
    KeptOn(me, start, w2, t.w);
    KeptMore(me, w2, t.w);
    SubscribedAgain(t.w, owed);
  }

  lemma SubscribedAgain(w: Shared, owed: set<Sid>)
    requires Owed(w, owed) && NoneDetached(w)
    ensures forall s :: s in owed && s in w.live ==> s in w.subs || s in w.closed
  {
  }

  // ---------------------------------------------------------------- the repairs

  /** repairSameProviderDirty: the marker of a handoff that stopped after unsubscribing is
      worked off by resubscribing under the provider that was found loaded. */
  method RepairSameProvider(t: Thread, me: Sid, provider: string) returns (ok: bool)
    requires t.Valid() && me in t.w.known
    modifies t`w
    ensures t.Valid() && Kept(me, old(t.w), t.w) && t.w.journal == old(t.w).journal
    ensures ok ==> me in t.w.live && t.w.dirty.None? && NoneDetached(t.w)
    ensures ok && OnRoute(old(t.w), me, provider) ==> OnRoute(t.w, me, provider)
  {
    hide Steady, Inv, Kept, Matching, Owed, Marked, OnRoute, Blank, Stored;
    ghost var start := t.w;
    var route := Route(provider, "");
    ok := t.VisitPeers(me, Prepare, false, {}, route);
    KeptMore(me, start, t.w);
    if !ok { return; }
    ghost var w1 := t.w;
    ok := t.VisitPeers(me, Resubscribe(route), false, {}, route);
    KeptOn(me, start, w1, t.w);
    KeptMore(me, w1, t.w);
    ghost var w2 := t.w;
    if !ok {
      RestoreAfterFailure(t, me);
      KeptOn(me, start, w2, t.w);
      return;
    }
    InvFacts(t.root, t.w);
    ok := t.ClearDirty(me);
    SteadyStays(me, w2, t.w, {}, route);
    SteadyKept(me, w2, t.w);
    KeptOn(me, start, w2, t.w);
  }

  /** On a responsive app-server with every session at rest a journal can be repaired if and
      only if its route can still be verified and the fingerprint, where the sanitized rollout
      is found, fits into it. */
  predicate Repairable(root: string, w: Shared, j: Journal, fingerprint: Option<string>) {
    && Resumable(w, j.route)
    && (fingerprint.Some? ==> Stored(root, j.(phase := JournalRestoring, remaining := [], fingerprint := fingerprint.value)))
  }

  /** repairRecoveryJournal: before anything else is done with a thread, a recovery that was
      cut short is taken to its end.  Only a thread that is no longer archived leaves the
      journal. */
  method RepairRecoveryJournal(t: Thread, me: Sid, fingerprint: Option<string>) returns (ok: bool)
    requires t.Valid() && me in t.w.known
    modifies t`w
    ensures t.Valid() && Kept(me, old(t.w), t.w)
    ensures ok ==> me in t.w.live && t.w.journal.None? && t.w.archived == {}
    ensures t.calm && me in old(t.w).live && Resting(old(t.w)) ==> t.w.archived == {}
    ensures t.calm && me in old(t.w).live && Resting(old(t.w)) ==>
      (ok <==> old(t.w).journal.None? || Repairable(t.root, old(t.w), old(t.w).journal.value, fingerprint))
  {
    hide Steady, Inv, Kept, Matching, Owed, Marked, InRecovery, Resting, ValidIds, Suffix, OnRoute, Blank, Stored;
    ghost var start := t.w;
    JournalIsStored(t.root, t.w) by { assert Inv(t.root, t.w); }
    var loaded, found := t.LoadJournal(me);
    SteadyLives(me, start, t.w);
    SteadyKept(me, start, t.w);
    InvFacts(t.root, t.w);
    if !loaded { return false; }
    if found.None? { return true; }
    ghost var w1 := t.w;
    ok := t.VisitPeers(me, Prepare, false, {}, found.value.route);
    KeptOn(me, start, w1, t.w);
    KeptMore(me, w1, t.w);
    if !ok { return; }
    ghost var w2 := t.w;
    if found.value.route.model != "" {
      ok := t.VisitPeers(me, Prepare, false, {}, found.value.route);
      KeptOn(me, start, w2, t.w);
      KeptMore(me, w2, t.w);
      if !ok { return; }
    }
    ghost var w3 := t.w;
    var connected: bool := *;
    if !connected && !t.calm { return false; }
    var begun;
    ok, begun := RepairSuspended(t, me, found.value, fingerprint);
    KeptOn(me, start, w3, t.w);
    KeptMore(me, w3, t.w);
    ghost var w4 := t.w;
    if ok {
      ok := FinishRepair(t, me);
      KeptOn(me, start, w4, t.w);
    } else if begun {
      EndSuppression(t, me);
      KeptOn(me, start, w4, t.w);
    }
  }

  /** From the suppression to the verified resume of a repair. */
  method RepairSuspended(t: Thread, me: Sid, journal: Journal, fingerprint: Option<string>) returns (ok: bool, begun: bool)
    requires t.Valid() && me in t.w.known && (me in t.w.live ==> t.w.journal == Some(journal))
    modifies t`w
    ensures t.Valid() && Kept(me, old(t.w), t.w)
    ensures ok ==> me in t.w.live && t.w.archived == {}
    ensures t.calm && me in old(t.w).live && Resting(old(t.w)) && Stored(t.root, journal) ==> t.w.archived == {} && Resting(t.w)
    ensures t.calm && me in old(t.w).live && Resting(old(t.w)) && Stored(t.root, journal) ==>
      (ok <==> Repairable(t.root, old(t.w), journal, fingerprint))
  {
    hide Steady, Inv, Kept, Matching, Owed, Marked, InRecovery, ValidIds, Suffix, OnRoute, Blank, Stored, Resumable;
    ghost var start := t.w;
    NothingDone(t.root, me, t.w) by { assert Inv(t.root, t.w); }
    if Stored(t.root, journal) { StoredIds(t.root, journal); }
    begun := BeginRecoveryAll(t, me, journal.threads, {}, journal.route);
    ok := begun;
    KeptMore(me, start, t.w);
    if !ok { return; }
    ghost var w1 := t.w;
    StartRepair(t.root, me, t.w);
    var left: Journal;
    ok, left := UnarchiveRemaining(t, me, journal, true, w1, {}, None);
    RecoveryFacts(me, w1, t.w, {}, None);
    KeptOn(me, start, w1, t.w);
    if t.calm { RestingLive(w1, t.w); }
    if !ok { return; }
    // Sanitation again, and its fingerprint, where the rollout is found.
    var searched: bool, sanitized: bool := *, *;
    if !searched && !t.calm { return false, true; }
    if fingerprint.Some? {
      if !sanitized && !t.calm { return false, true; }
      ghost var w2 := t.w;
      InvFacts(t.root, t.w);
      ok := t.SaveJournal(me, left.(phase := JournalRestoring, fingerprint := fingerprint.value));
      SteadyKept(me, w2, t.w);
      KeptOn(me, start, w2, t.w);
      KeptMore(me, w2, t.w);
      if t.calm { RestingLive(w2, t.w); }
      if !ok { return; }
    }
    ghost var w3 := t.w;
    SameLoaded(start, w3, journal.route);
    ok := t.ResumeElsewhere(me, journal.route);
    KeptOn(me, start, w3, t.w);
  }

  lemma SameLoaded(a: Shared, b: Shared, target: Route)
    ensures a.loaded == b.loaded ==> (Resumable(a, target) <==> Resumable(b, target))
  {
  }

  lemma StoredIds(root: string, j: Journal)
    requires Stored(root, j)
    ensures ValidIds(root, j.threads)
  {
    hide ValidIds, JournalRecord.ValidRecord, JournalRecord.Encode;
    StoredIsValid(root, j);
  }

  lemma RestingLive(a: Shared, b: Shared)
    ensures a.live == b.live ==> (Resting(a) <==> Resting(b))
  {
  }

  lemma StartRepair(root: string, me: Sid, w: Shared)
    requires Inv(root, w) && me in w.known
    ensures InRecovery(me, w, w, {}, None)
  {
  }

  lemma JournalIsStored(root: string, w: Shared)
    requires Inv(root, w)
    ensures w.journal.Some? ==> Stored(root, w.journal.value)
  {
  }

  method FinishRepair(t: Thread, me: Sid) returns (ok: bool)
    requires t.Valid() && me in t.w.known && (me in t.w.live ==> t.w.archived == {})
    modifies t`w
    ensures t.Valid() && Kept(me, old(t.w), t.w)
    ensures ok ==> me in t.w.live && t.w.journal.None? && t.w.archived == {}
    ensures t.calm && me in old(t.w).live && Resting(old(t.w)) ==> ok
  {
    hide Steady, Inv, Kept, Matching, Owed, Marked, OnRoute, Blank, Stored;
    ghost var start := t.w;
    ok := t.VisitPeers(me, EndRecovery, true, {}, Route("", ""));
    KeptMore(me, start, t.w);
    ghost var w1 := t.w;
    if !ok {
      EndSuppression(t, me);
      KeptOn(me, start, w1, t.w);
      return;
    }
    InvFacts(t.root, t.w);
    ok := t.ClearJournal(me);
    SteadyKept(me, w1, t.w);
    KeptOn(me, start, w1, t.w);
  }

  // ---------------------------------------------------------------- the jobs

  /** prepareTurnPeers: every peer must be ready; a peer that seems busy while the app-server
      says the thread rests is reconciled once. */
  method PrepareTurnPeers(t: Thread, me: Sid) returns (ok: bool)
    requires t.Valid() && me in t.w.known
    modifies t`w
    ensures t.Valid() && Kept(me, old(t.w), t.w)
    ensures ok ==> me in t.w.live && AllReady(t.w)
  {
    hide Steady, Inv, Kept, Matching, Owed, Marked, AllReady, OnRoute, Blank, Stored;
    ghost var start := t.w;
    var active := t.IsActive(me);
    SteadyLives(me, start, t.w);
    SteadyKept(me, start, t.w);
    if active { return false; }
    ghost var w1 := t.w;
    ok := t.VisitPeers(me, Prepare, false, {}, Route("", ""));
    KeptOn(me, start, w1, t.w);
    KeptMore(me, w1, t.w);
    if ok { return; }
    var resting: bool := *;
    if !resting { return false; }
    ghost var w2 := t.w;
    ok := t.VisitPeers(me, ReconcileIdle, false, {}, Route("", ""));
    KeptOn(me, start, w2, t.w);
    KeptMore(me, w2, t.w);
    if !ok { return; }
    ghost var w3 := t.w;
    ok := t.VisitPeers(me, Prepare, false, {}, Route("", ""));
    KeptOn(me, start, w3, t.w);
  }

  /** A turn as Desktop sends it: the status command, the switch command, or a user turn with
      the selected route, if one is saved, and the model it asks for. */
  datatype Turn = Status | Switch(target: Route) | User(selected: Option<Route>, model: string)

  datatype TurnResult = Refused | Reported | Written

  /** What stands behind a turn that goes out: no marker, no journal, a route that was seen. */
  ghost predicate Cleared(me: Sid, w: Shared, seen: Route) {
    me in w.live && w.dirty.None? && w.journal.None? && seen in w.observed
  }

  /** Getting the thread onto the target: the marker first, then the observed route decides. */
  method Settle(t: Thread, me: Sid, command: bool, resolved: Option<Route>, target: Route) returns (ok: bool, ghost seen: Route)
    requires t.Valid() && me in t.w.known && (me in t.w.live ==> t.w.journal.None?)
    requires me in t.w.live && resolved.Some? ==> resolved.value in t.w.observed && OnRoute(t.w, me, resolved.value.provider)
    modifies t`w
    ensures t.Valid() && Kept(me, old(t.w), t.w)
    ensures ok ==> Cleared(me, t.w, seen) && seen.provider == target.provider && (command ==> RouteMatches(seen, target))
    ensures ok ==> OnRoute(t.w, me, target.provider)
  {
    hide Steady, Inv, Kept, Matching, Owed, Marked, OnRoute, Blank, Stored;
    ghost var start := t.w;
    seen := target;
    InvFacts(t.root, t.w);
    var dirty, stage := t.ReadDirty(me);
    SteadyLives(me, start, t.w);
    SteadyKept(me, start, t.w);
    if resolved.Some? { SteadyStays(me, start, t.w, {}, resolved.value); }
    var full := dirty && (command || stage != Some(Detached));
    var effective := resolved;
    if !full && resolved.None? {
      ghost var w1 := t.w;
      ok, effective := t.EffectiveRoute(me);
      KeptOn(me, start, w1, t.w);
      KeptMore(me, w1, t.w);
      if !ok { return; }
    }
    ghost var w2 := t.w;
    if dirty && !full && SameProvider(effective, target) {
      ok := RepairSameProvider(t, me, target.provider);
      KeptOn(me, start, w2, t.w);
      KeptMore(me, w2, t.w);
      if ok { seen := effective.value; }
    } else if !dirty && (if command then effective.Some? && RouteMatches(effective.value, target) else SameProvider(effective, target)) {
      ok := me in t.w.live;
      seen := effective.value;
    } else {
      ok, seen := HandOff(t, me, target);
      KeptOn(me, start, w2, t.w);
      KeptMore(me, w2, t.w);
    }
  }
}
