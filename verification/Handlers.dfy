/** What one proxy session does when a peer asks it to (internal/transport/session.go,
    Prepare to Restore, internalResumeWithRoute, suppressRecoveryNotification): the handlers
    for one thread as functions, and the session with its maps, updated in place, that
    computes them and leaves every other thread alone. */
module Handlers {
  import opened Wrappers

  datatype Route = Route(provider: string, model: string)

  /** The actual route meets an expected one; an expected route may leave the model open. */
  predicate RouteMatches(actual: Route, expected: Route) {
    actual.provider == expected.provider && (expected.model == "" || actual.model == expected.model)
  }

  predicate SameProvider(actual: Option<Route>, expected: Route) {
    actual.Some? && actual.value.provider == expected.provider
  }

  /** A session's state for one thread.  effective is the provider and model it last saw. */
  datatype Sess = Sess(effective: Option<Route>, detached: bool, active: bool, suppressed: bool)

  const NEW_SESS := Sess(None, false, false, false)

  datatype Status = Ready | Busy | Unsubscribed | NotSubscribed | Resubscribed | Restored | RecoveryReady | RecoveryEnded

  /** How a call to the app-server went.  It may be applied although the answer is lost.  The
      route is the one the thread is loaded with after a resume that was applied; an answer
      that makes sense reports it. */
  datatype Rpc = Rpc(answered: bool, applied: bool, readable: bool, route: Route)

  const NO_CALL := Rpc(false, false, false, Route("", ""))

  predicate Applied(rpc: Rpc) { rpc.answered || rpc.applied }

  /** The session and its subscription afterwards, and the answer to the peer, if any. */
  datatype Handled = Handled(sess: Sess, subscribed: bool, status: Option<Status>)

  datatype Request =
    | Prepare
    | ReconcileIdle
    | BeginRecovery(ids: seq<string>)
    | EndRecovery
    | Unsubscribe
    | Resubscribe(route: Route)
    | Restore

  /** Ids of a recovery: not empty, no repetition, at most 64, the thread among them. */
  predicate ValidIds(thread: string, ids: seq<string>) {
    thread != "" && 0 < |ids| <= 64 && "" !in ids && thread in ids &&
    forall i, j :: 0 <= i < j < |ids| ==> ids[i] != ids[j]
  }

  function HandleUnsubscribe(s: Sess, subscribed: bool, rpc: Rpc): Handled {
    if s.active then Handled(s, subscribed, Some(Busy))
    else
      var known := s.effective.Some? || s.detached;
      var t := s.(effective := None, detached := known);
      if rpc.answered
      then Handled(t.(detached := known || subscribed), false, Some(if subscribed then Unsubscribed else NotSubscribed))
      else Handled(t, subscribed && !rpc.applied, None)
  }

  /** A resume that is verified against the route, if one is expected. */
  function Resumed(s: Sess, subscribed: bool, expected: Option<Route>, rpc: Rpc, status: Status): Handled {
    if rpc.answered && rpc.readable && (expected.None? || RouteMatches(rpc.route, expected.value))
    then Handled(s.(effective := Some(rpc.route), detached := false), true, Some(status))
    else Handled(s, subscribed || Applied(rpc), None)
  }

  function Handle(thread: string, request: Request, s: Sess, subscribed: bool, rpc: Rpc): Handled {
    match request
    case Prepare => Handled(s, subscribed, Some(if s.active then Busy else Ready))
    case ReconcileIdle => Handled(s.(active := false), subscribed, Some(Ready))
    case BeginRecovery(ids) =>
      if s.active || !ValidIds(thread, ids) then Handled(s, subscribed, Some(Busy))
      else Handled(s.(suppressed := true), subscribed, Some(RecoveryReady))
    case EndRecovery => Handled(s.(suppressed := false), subscribed, Some(RecoveryEnded))
    case Unsubscribe => HandleUnsubscribe(s, subscribed, rpc)
    case Resubscribe(route) =>
      if s.detached then Resumed(s, subscribed, Some(route), rpc, Resubscribed) else Handled(s, subscribed, Some(NotSubscribed))
    case Restore =>
      if s.detached then Resumed(s, subscribed, None, rpc, Restored) else Handled(s, subscribed, Some(NotSubscribed))
  }

  /** Whether a request makes the session call thread/resume. */
  predicate Resumes(request: Request, s: Sess) { (request.Resubscribe? || request == Restore) && s.detached }

  predicate Accepts(request: Request, status: Status) {
    match request
    case Prepare => status == Ready
    case ReconcileIdle => status == Ready
    case BeginRecovery(_) => status == RecoveryReady
    case EndRecovery => status == RecoveryEnded
    case Unsubscribe => status == Unsubscribed || status == NotSubscribed
    case Resubscribe(_) => status == Resubscribed || status == NotSubscribed
    case Restore => status == Restored || status == NotSubscribed
  }

  /** A notification that the thread was closed. */
  function Closed(s: Sess): Sess { if s.suppressed then s else s.(effective := None, detached := false) }

  // ---------------------------------------------------------------- the session

  /** A session with its maps over all threads. */
  class Session {
    var effective: map<string, string>
    var effectiveModel: map<string, string>
    var detached: set<string>
    var active: set<string>
    var recovery: map<string, set<string>>

    function View(thread: string): Sess
      reads this
    {
      Sess(if thread in effective then Some(Route(effective[thread], if thread in effectiveModel then effectiveModel[thread] else "")) else None,
        thread in detached, thread in active, thread in recovery)
    }

    constructor ()
      ensures forall t :: View(t) == NEW_SESS
    {
      effective, effectiveModel, detached, active, recovery := map[], map[], {}, {}, map[];
    }

    method ClearEffectiveProvider(thread: string)
      modifies this`effective, this`effectiveModel
      ensures forall t :: View(t) == if t == thread then old(View(t)).(effective := None) else old(View(t))
    {
      effective, effectiveModel := effective - {thread}, effectiveModel - {thread};
    }

    method SetEffective(thread: string, route: Route)
      modifies this`effective, this`effectiveModel, this`detached
      ensures forall t :: View(t) == if t == thread then old(View(t)).(effective := Some(route), detached := false) else old(View(t))
    {
      effective, effectiveModel := effective[thread := route.provider], effectiveModel[thread := route.model];
      detached := detached - {thread};
    }

    method Prepare(thread: string) returns (status: Status)
      ensures Some(status) == Handle(thread, Request.Prepare, View(thread), false, NO_CALL).status
    {
      return if thread in active then Busy else Ready;
    }

    method ReconcileIdle(thread: string) returns (status: Status)
      modifies this`active
      ensures forall t :: View(t) == if t == thread then old(View(t)).(active := false) else old(View(t))
      ensures status == Ready
    {
      active := active - {thread};
      status := Ready;
    }

    /** Suppression starts only for a valid set of ids that holds the thread itself. */
    method BeginRecovery(thread: string, ids: seq<string>) returns (status: Status)
      modifies this`recovery
      ensures Handle(thread, Request.BeginRecovery(ids), old(View(thread)), false, NO_CALL) == Handled(View(thread), false, Some(status))
      ensures forall t :: t != thread ==> View(t) == old(View(t))
    {
      if thread == "" || |ids| == 0 || |ids| > 64 || thread in active { return Busy; }
      var seen: set<string> := {};
      var i := 0;
      while i < |ids|
        invariant 0 <= i <= |ids| && recovery == old(recovery)
        invariant seen == (set j | 0 <= j < i :: ids[j])
        invariant "" !in ids[..i] && forall j, k :: 0 <= j < k < i ==> ids[j] != ids[k]
      {
        if ids[i] == "" || ids[i] in seen {
          assert ids[i] in ids;
          return Busy;
        }
        assert ids[..i + 1] == ids[..i] + [ids[i]];
        seen := seen + {ids[i]};
        i := i + 1;
      }
      assert ids[..i] == ids;
      assert forall id :: id in seen <==> id in ids;
      if thread !in seen { return Busy; }
      recovery := recovery[thread := seen];
      status := RecoveryReady;
    }

    method EndRecovery(thread: string) returns (status: Status)
      modifies this`recovery
      ensures forall t :: View(t) == if t == thread then old(View(t)).(suppressed := false) else old(View(t))
      ensures status == RecoveryEnded
    {
      recovery := recovery - {thread};
      status := RecoveryEnded;
    }

    /** Unsubscribe, with the app-server's answer; subscribed is what the app-server knows. */
    method Unsubscribe(thread: string, subscribed: bool, rpc: Rpc) returns (status: Option<Status>)
      modifies this
      ensures Handle(thread, Request.Unsubscribe, old(View(thread)), subscribed, rpc) ==
        Handled(View(thread), Handle(thread, Request.Unsubscribe, old(View(thread)), subscribed, rpc).subscribed, status)
      ensures forall t :: t != thread ==> View(t) == old(View(t))
    {
      if thread in active { return Some(Busy); }
      var wasSubscribed := thread in effective || thread in detached;
      ClearEffectiveProvider(thread);
      if wasSubscribed { detached := detached + {thread}; }
      if !rpc.answered { return None; }
      if subscribed { detached := detached + {thread}; }
      return Some(if subscribed then Unsubscribed else NotSubscribed);
    }

    method Resubscribe(thread: string, route: Route, subscribed: bool, rpc: Rpc) returns (status: Option<Status>)
      modifies this
      ensures Handle(thread, Request.Resubscribe(route), old(View(thread)), subscribed, rpc) ==
        Handled(View(thread), Handle(thread, Request.Resubscribe(route), old(View(thread)), subscribed, rpc).subscribed, status)
      ensures forall t :: t != thread ==> View(t) == old(View(t))
    {
      if thread !in detached { return Some(NotSubscribed); }
      if !rpc.answered || !rpc.readable || !RouteMatches(rpc.route, route) { return None; }
      SetEffective(thread, rpc.route);
      return Some(Resubscribed);
    }

    method Restore(thread: string, subscribed: bool, rpc: Rpc) returns (status: Option<Status>)
      modifies this
      ensures Handle(thread, Request.Restore, old(View(thread)), subscribed, rpc) ==
        Handled(View(thread), Handle(thread, Request.Restore, old(View(thread)), subscribed, rpc).subscribed, status)
      ensures forall t :: t != thread ==> View(t) == old(View(t))
    {
      if thread !in detached { return Some(NotSubscribed); }
      if !rpc.answered || !rpc.readable { return None; }
      SetEffective(thread, rpc.route);
      return Some(Restored);
    }

    /** Whether a lifecycle notification about a thread is dropped: some recovery lists it. */
    method Suppressed(thread: string) returns (dropped: bool)
      ensures dropped <==> exists root :: root in recovery && thread in recovery[root]
    {
      var roots := recovery.Keys;
      while roots != {}
        invariant roots <= recovery.Keys
        invariant forall root :: root in recovery && root !in roots ==> thread !in recovery[root]
        decreases roots
      {
        var root :| root in roots;
        if thread in recovery[root] { return true; }
        roots := roots - {root};
      }
      return false;
    }
  }

  // ---------------------------------------------------------------- what the handlers guarantee

  /** An unsubscribe that was answered leaves no cached route, and remembers to resubscribe
      every session that was subscribed. */
  lemma UnsubscribedIsRemembered(thread: string, s: Sess, subscribed: bool, rpc: Rpc)
    ensures var h := Handle(thread, Unsubscribe, s, subscribed, rpc);
      h.status.Some? && Accepts(Unsubscribe, h.status.value) ==>
        h.sess.effective.None? && !h.subscribed && (subscribed || s.detached || s.effective.Some? <==> h.sess.detached)
  {
  }

  /** A session that resubscribed, or had nothing to resubscribe, is attached; whoever was
      detached is subscribed under the expected route. */
  lemma ResubscribedIsAttached(thread: string, s: Sess, subscribed: bool, route: Route, rpc: Rpc)
    ensures var h := Handle(thread, Resubscribe(route), s, subscribed, rpc);
      h.status.Some? && Accepts(Resubscribe(route), h.status.value) ==>
        !h.sess.detached && (s.detached ==> h.subscribed && h.sess.effective.Some? && RouteMatches(h.sess.effective.value, route)) &&
        (!s.detached ==> h.sess == s && h.subscribed == subscribed)
  {
  }

  /** A handler never loses a listener silently: only an unsubscribe whose answer is lost,
      on a session that does not know it is subscribed, leaves it neither subscribed nor
      marked for resubscription. */
  lemma ListenerLostOnlyIf(thread: string, request: Request, s: Sess, subscribed: bool, rpc: Rpc)
    ensures var h := Handle(thread, request, s, subscribed, rpc);
      (subscribed || s.detached) && !(h.subscribed || h.sess.detached) <==>
        request == Unsubscribe && subscribed && !s.active && s.effective.None? && !s.detached && !rpc.answered && rpc.applied
  {
  }
}
