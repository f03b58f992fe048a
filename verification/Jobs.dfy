/** What a session does with Desktop's requests about a thread (internal/transport/session.go,
    handleTurnStart, handleThreadResume, handleThreadUnsubscribe), and any number of sessions
    doing so, dying, joining and being notified, in any order. */
module Jobs {
  import opened Wrappers
  import opened Handlers
  import opened ThreadState
  import opened Handoff

  datatype Planned = Rejected | Planned(target: Route, resolved: Option<Route>)

  /** The route a turn wants: the target of a switch; else the saved selection; else the
      provider that is loaded.  A requested model changes the model only. */
  method PlanRoute(t: Thread, me: Sid, turn: Turn) returns (p: Planned)
    requires t.Valid() && me in t.w.known && !turn.Status?
    modifies t`w
    ensures t.Valid() && Kept(me, old(t.w), t.w) && SameFiles(old(t.w), t.w)
    ensures p.Planned? && p.resolved.Some? && me in t.w.live ==>
      p.resolved.value in t.w.observed && OnRoute(t.w, me, p.resolved.value.provider)
    ensures p.Planned? && turn.Switch? ==> p.target == turn.target
    ensures p.Planned? && turn.User? ==>
      if turn.selected.Some? then p.target.provider == turn.selected.value.provider
      else p.resolved.Some? && p.target.provider == p.resolved.value.provider
  {
    NothingDone(t.root, me, t.w);
    if turn.Switch? { return Planned(turn.target, None); }
    var readable: bool, allowed: bool := *, *;
    if !readable { return Rejected; }
    var target: Route;
    var resolved: Option<Route> := None;
    if turn.selected.Some? {
      target := turn.selected.value;
    } else {
      hide Kept, SameFiles, OnRoute;
      var ok;
      ok, resolved := t.EffectiveRoute(me);
      if !ok || resolved.None? { return Rejected; }
      var model: string := *;
      target := Route(resolved.value.provider, model);
    }
    if turn.model != "" && allowed { target := target.(model := turn.model); }
    return Planned(target, resolved);
  }

  /** What must hold before a turn goes out or a switch is saved: the lock is held, every
      peer was ready under it, nothing is left to repair, and the session saw the target's
      provider, or the whole route for a switch. */
  lemma ReadyToWrite(t: Thread, me: Sid, locked: Shared, prepared: Shared, w: Shared, seen: Route)
    requires Kept(me, locked, prepared) && Kept(me, prepared, w) && Holds(locked, me) && AllReady(prepared)
    requires Cleared(me, w, seen)
    ensures Safe(w, me, seen) && Holds(w, me)
  {
    KeptOn(me, locked, prepared, w);
    KeptReady(me, locked, w);
    KeptReady(me, prepared, w);
    hide AllReady;
    KeptMore(me, prepared, w);
    KeptMore(me, locked, w);
  }

  lemma StillHolds(me: Sid, a: Shared, b: Shared)
    requires Holds(a, me) && Kept(me, a, b)
    ensures Holds(b, me) && me in b.known && a.known <= b.known
  {
  }

  /** handleTurnStart. */
  method TurnStart(t: Thread, me: Sid, turn: Turn, fingerprint: Option<string>) returns (r: TurnResult)
    requires t.Valid() && me in t.w.known
    modifies t`w, t`log
    ensures t.Valid() && old(t.w).known <= t.w.known
    ensures r == Written ==> turn.User? && t.w.holder == Some(me) == t.w.outstanding
    ensures t.log == old(t.log) || (|t.log| == |old(t.log)| + 1 && old(t.log) <= t.log)
    ensures r == Written ==> t.log != old(t.log) && t.log[|old(t.log)|].TurnWritten? && t.log[|old(t.log)|].sid == me
    ensures r == Written ==> (t.w.unanswered == {me} <==> t.log[|old(t.log)|].at.unanswered == {})
  {
    hide Steady, Inv, Kept, Matching, Owed, Marked, AllReady, Holds, SameFiles, OnRoute, Blank, Stored;
    ghost var log0 := t.log;
    var locked := t.LockThread(me);
    if !locked { return Refused; }
    ghost var w0 := t.w;
    var ok := PrepareTurnPeers(t, me);
    StillHolds(me, w0, t.w);
    if !ok { t.ReleaseThread(me); return Refused; }
    ghost var w1 := t.w;
    ok := RepairRecoveryJournal(t, me, fingerprint);
    KeptOn(me, w0, w1, t.w);
    StillHolds(me, w0, t.w);
    if !ok || turn.Status? {
      r := if ok then Reported else Refused;
      t.ReleaseThread(me);
      return;
    }
    ghost var w2 := t.w;
    var plan := PlanRoute(t, me, turn);
    KeptOn(me, w1, w2, t.w);
    KeptOn(me, w0, w1, t.w);
    StillHolds(me, w0, t.w);
    SameJournal(me, w2, t.w);
    if plan.Rejected? { t.ReleaseThread(me); return Refused; }
    ghost var w3 := t.w;
    ghost var seen;
    ok, seen := Settle(t, me, turn.Switch?, plan.resolved, plan.target);
    KeptOn(me, w1, w3, t.w);
    KeptOn(me, w0, w1, t.w);
    StillHolds(me, w0, t.w);
    if !ok { t.ReleaseThread(me); return Refused; }
    ReadyToWrite(t, me, w0, w1, t.w, seen);
    ghost var w4 := t.w;
    if turn.Switch? {
      ok := t.SaveSwitch(me, plan.target, seen);
      StillHolds(me, w4, t.w);
      t.ReleaseThread(me);
      return if ok then Reported else Refused;
    }
    // Saving a requested model and rewriting the request may fail.
    var saved: bool, rewritten: bool := *, *;
    if !saved || !rewritten { t.ReleaseThread(me); return Refused; }
    ok := t.WriteTurn(me, plan.target, seen);
    r := if ok then Written else Refused;
  }

  lemma SameJournal(me: Sid, a: Shared, b: Shared)
    requires Kept(me, a, b) && SameFiles(a, b) && a.journal.None?
    ensures b.journal.None?
  {
  }

  datatype Resumption = NotForwarded | Forwarded(handedOff: bool)

  /** What stands behind a resume that is forwarded: under the lock the journal was repaired
      first, and then, exactly if sanitation met an active writer on a thread the session
      knows loaded, the thread was handed off. */
  ghost predicate ResumedSafely(r: Resumption, me: Sid, target: Route, sanitation: Sanitation, repaired: Shared, at: Shared) {
    r.Forwarded? ==>
      && me in at.live && at.holder == Some(me) && repaired.journal.None? && repaired.archived == {}
      && at.journal.None? && at.archived == {} && Kept(me, repaired, at) && sanitation != Unsanitized
      && (r.handedOff <==> sanitation == ActiveWriter && me in repaired.live && repaired.live[me].effective.Some?)
      && (if r.handedOff then HandedOff(at, repaired.subs, target) else at == repaired)
  }

  /** handleThreadResume: a cut-short recovery is repaired first, and a rollout that needs
      sanitation while the thread is loaded goes through a handoff. */
  method ThreadResume(t: Thread, me: Sid, target: Route, sanitation: Sanitation, fingerprint: Option<string>)
    returns (r: Resumption, ghost repaired: Shared, ghost at: Shared)
    requires t.Valid() && me in t.w.known
    modifies t`w
    ensures t.Valid() && old(t.w).known <= t.w.known
    ensures ResumedSafely(r, me, target, sanitation, repaired, at)
  {
    hide Steady, Inv, Kept, Matching, Owed, Marked, AllReady, Holds, SameFiles, HandedOff, OnRoute, Blank, Stored, ResumedSafely;
    r, repaired, at := NotForwarded, t.w, t.w;
    NotForwardedIsSafe(me, target, sanitation, repaired, at);
    var locked := t.LockThread(me);
    if !locked { return; }
    ghost var w0 := t.w;
    var ok := RepairRecoveryJournal(t, me, fingerprint);
    StillHolds(me, w0, t.w);
    ghost var w1 := t.w;
    var loaded := t.Remembers(me);
    SteadyKept(me, w1, t.w);
    KeptOn(me, w0, w1, t.w);
    StillHolds(me, w0, t.w);
    if !ok || sanitation == Unsanitized { t.ReleaseThread(me); return; }
    repaired := t.w;
    SameFilesHere(w1, repaired);
    NothingDone(t.root, me, t.w);
    if sanitation == ActiveWriter && loaded {
      ghost var route;
      ok, route := HandOff(t, me, target);
      KeptOn(me, w0, repaired, t.w);
      StillHolds(me, w0, t.w);
    } else {
      ok := me in t.w.live;
    }
    if !ok { t.ReleaseThread(me); return; }
    r, at := Forwarded(sanitation == ActiveWriter && loaded), t.w;
    ForwardedIsSafe(t.root, r, me, target, sanitation, repaired, at);
    t.DropSubscription(me);
    StillHolds(me, at, t.w);
    ghost var w3 := t.w;
    t.ForwardSubscription(me, true);
    StillHolds(me, w3, t.w);
    t.ReleaseThread(me);
  }

  lemma NotForwardedIsSafe(me: Sid, target: Route, sanitation: Sanitation, repaired: Shared, at: Shared)
    ensures ResumedSafely(NotForwarded, me, target, sanitation, repaired, at)
    ensures forall a, b :: ResumedSafely(NotForwarded, me, target, sanitation, a, b)
  {
  }

  lemma SameFilesHere(a: Shared, b: Shared)
    requires SameFiles(a, b)
    ensures b.journal == a.journal && b.archived == a.archived
  {
  }

  lemma ForwardedIsSafe(root: string, r: Resumption, me: Sid, target: Route, sanitation: Sanitation, repaired: Shared, at: Shared)
    requires r.Forwarded? && Inv(root, at) && me in at.live && Holds(at, me) && Kept(me, repaired, at) && sanitation != Unsanitized
    requires repaired.journal.None? && repaired.archived == {}
    requires r.handedOff <==> sanitation == ActiveWriter && me in repaired.live && repaired.live[me].effective.Some?
    requires if r.handedOff then HandedOff(at, repaired.subs, target) else at == repaired
    ensures ResumedSafely(r, me, target, sanitation, repaired, at)
  {
    hide Kept, Stored, Matching, NoneDetached, CacheIsTrue, UnansweredTrue, SessionsKnown, DetachedIsDirty, SuppressedIsJournaled, SubscribedIsLoaded;
  }

  method ThreadUnsubscribe(t: Thread, me: Sid)
    requires t.Valid() && me in t.w.known
    modifies t`w
    ensures t.Valid() && old(t.w).known <= t.w.known
  {
    hide Steady, Inv, Kept, Holds, SameFiles, Blank, Stored;
    var locked := t.LockThread(me);
    if !locked { return; }
    ghost var w0 := t.w;
    t.DropSubscription(me);
    StillHolds(me, w0, t.w);
    ghost var w1 := t.w;
    t.ForwardSubscription(me, false);
    StillHolds(me, w1, t.w);
    t.ReleaseThread(me);
  }

  datatype Event =
    | StartTurn(sid: Sid, turn: Turn, fingerprint: Option<string>)
    | AnswerTurn(sid: Sid, accepted: bool, target: Route)
    | Resume(sid: Sid, target: Route, sanitation: Sanitation, fingerprint: Option<string>)
    | Unsubscribed(sid: Sid)
    | Unasked(move: Move)

  /** Any run: every turn that was ever written, and every switch that was ever saved, was
      safe at that moment, a subscribed session's thread really being loaded with the target's
      provider, and every state on the way keeps the invariant. */
  method Live(t: Thread, events: seq<Event>)
    requires t.Valid()
    modifies t
    ensures t.Valid()
    ensures forall i :: 0 <= i < |t.log| ==> SafeRecord(t.log[i])
    ensures old(t.log) <= t.log
  {
    hide Inv;
    var k := 0;
    while k < |events|
      invariant 0 <= k <= |events| && t.Valid() && old(t.log) <= t.log
    {
      match events[k] {
        case StartTurn(s, turn, f) => if s in t.w.known { var _ := TurnStart(t, s, turn, f); }
        case AnswerTurn(s, accepted, target) => t.AnswerTurn(s, accepted, target);
        case Resume(s, target, sanitation, f) =>
          if s in t.w.known { var _, _, _ := ThreadResume(t, s, target, sanitation, f); }
        case Unsubscribed(s) => if s in t.w.known { ThreadUnsubscribe(t, s); }
        case Unasked(m) => t.Happen(m);
      }
      k := k + 1;
    }
  }
}
