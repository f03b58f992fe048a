/** Two conversations over one connection (internal/transport/session.go, callUpstream,
    trackDesktopRequest, handleUpstreamText, closeState): Desktop's own requests and the
    proxy's internal calls share one app-server, and every response must find its asker.
    The tables are the fields of the session; the machine around them is Desktop, the
    app-server and the request handlers, in any interleaving. */
module Multiplex {
  import opened Wrappers

  /** A request id as it is written: one of the session's own, with its random prefix and
      a sequence number, or any other. */
  datatype Key = Own(number: nat) | Other(id: string)

  type Call = nat

  type Serial = nat

  // ---------------------------------------------------------------- the tables

  /** internal maps a key to its waiting call, or to None once the call gave up. */
  datatype Tables = Tables(internal: map<Key, Option<Call>>, desktop: map<Key, Serial>)

  function Remove<K, V>(m: map<K, V>, k: K): map<K, V> { map x | x in m && x != k :: m[x] }

  predicate InUse(t: Tables, key: Key) { key in t.desktop || key in t.internal }

  function Track(t: Tables, key: Key, n: Serial): Tables { if InUse(t, key) then t else t.(desktop := t.desktop[key := n]) }

  function Untrack(t: Tables, key: Key): Tables { t.(desktop := Remove(t.desktop, key)) }

  function Await(t: Tables, key: Key, c: Call): Tables { t.(internal := t.internal[key := Some(c)]) }

  function Forget(t: Tables, key: Key): Tables { t.(internal := Remove(t.internal, key)) }

  function Abandon(t: Tables, key: Key): Tables {
    if key in t.internal then t.(internal := t.internal[key := None]) else t
  }

  /** Where a response goes.  Passed is a response nobody is known to wait for: it is
      passed on to Desktop like a tracked one. */
  datatype Destination = Waiter(call: Call) | Dropped | ToDesktop(n: Serial) | Passed

  function Destine(t: Tables, key: Key): Destination {
    if key in t.internal then (match t.internal[key] case Some(c) => Waiter(c) case None => Dropped)
    else if key in t.desktop then ToDesktop(t.desktop[key])
    else Passed
  }

  function Settle(t: Tables, key: Key): Tables {
    if key in t.internal then Forget(t, key) else Untrack(t, key)
  }

  /** Only the given id is affected: every other response goes where it went before. */
  ghost predicate OthersKept(before: Tables, after: Tables, key: Key) {
    forall k :: k != key ==> Destine(after, k) == Destine(before, k) && (InUse(after, k) <==> InUse(before, k))
  }

  /** The session's two tables, updated in place. */
  class Router {
    var internal: map<Key, Option<Call>>
    var desktop: map<Key, Serial>

    function State(): Tables
      reads this
    {
      Tables(internal, desktop)
    }

    /** No id is in both tables. */
    ghost predicate Valid()
      reads this
    {
      internal.Keys !! desktop.Keys
    }

    constructor ()
      ensures Valid() && forall k :: !InUse(State(), k)
    {
      internal, desktop := map[], map[];
    }

    /** An id is given to a request exactly if nobody waits under it, and the answer will
        then go to that request. */
    method TrackDesktopRequest(key: Key, n: Serial) returns (ok: bool)
      requires Valid()
      modifies this
      ensures Valid() && State() == Track(old(State()), key, n) && OthersKept(old(State()), State(), key)
      ensures ok <==> !InUse(old(State()), key)
      ensures Destine(State(), key) == if ok then ToDesktop(n) else Destine(old(State()), key)
    {
      if key in desktop { return false; }
      if key in internal { return false; }
      desktop := desktop[key := n];
      ok := true;
    }

    /** A call waits under an id of its own. */
    method AwaitResponse(key: Key, c: Call)
      requires Valid() && !InUse(State(), key)
      modifies this`internal
      ensures Valid() && State() == Await(old(State()), key, c) && OthersKept(old(State()), State(), key)
      ensures Destine(State(), key) == Waiter(c)
    {
      internal := internal[key := Some(c)];
    }

    /** A request that was not written frees its id, and no other. */
    method RemoveDesktopRequest(key: Key)
      requires Valid()
      modifies this`desktop
      ensures Valid() && State() == Untrack(old(State()), key) && OthersKept(old(State()), State(), key)
      ensures InUse(State(), key) <==> key in old(internal)
      ensures !Destine(State(), key).ToDesktop?
    {
      desktop := map k | k in desktop && k != key :: desktop[k];
    }

    /** A call that gave up keeps its id: no request can take it, and its answer is dropped. */
    method AbandonInternalRequest(key: Key)
      requires Valid()
      modifies this`internal
      ensures Valid() && State() == Abandon(old(State()), key) && OthersKept(old(State()), State(), key)
      ensures InUse(State(), key) <==> InUse(old(State()), key)
      ensures Destine(State(), key) == if key in old(internal) then Dropped else Destine(old(State()), key)
      ensures forall n :: key in old(internal) ==> Track(State(), key, n) == State()
    {
      if key in internal { internal := internal[key := None]; }
    }

    /** A response goes to the one who waits under its id; an internal id, abandoned or not,
        never lets it through to Desktop.  The id is free afterwards. */
    method HandleResponse(key: Key) returns (to: Destination)
      requires Valid()
      modifies this
      ensures Valid() && State() == Settle(old(State()), key) && OthersKept(old(State()), State(), key)
      ensures key in old(internal) ==> !to.ToDesktop? && !to.Passed?
      ensures to.Waiter? <==> key in old(internal) && old(internal)[key].Some?
      ensures to.Waiter? ==> old(internal)[key] == Some(to.call)
      ensures to.ToDesktop? <==> key in old(desktop)
      ensures to.ToDesktop? ==> old(desktop)[key] == to.n
      ensures to.Passed? <==> !InUse(old(State()), key)
      ensures !InUse(State(), key) && Destine(State(), key) == Passed
    {
      if key in internal {
        var waiter := internal[key];
        internal := map k | k in internal && k != key :: internal[k];
        return match waiter case Some(c) => Waiter(c) case None => Dropped;
      }
      if key in desktop {
        to := ToDesktop(desktop[key]);
        desktop := map k | k in desktop && k != key :: desktop[k];
      } else {
        to := Passed;
        assert Remove(desktop, key) == desktop;
      }
    }

    /** Closing hands back every tracked request and leaves every id free. */
    method CloseState() returns (requests: map<Key, Serial>)
      modifies this
      ensures requests == old(desktop) && Valid() && forall k :: !InUse(State(), k)
    {
      requests := desktop;
      internal, desktop := map[], map[];
    }
  }

  /** What an abandoned id goes through: refused to Desktop as long as the answer is out, the
      answer swallowed, and only then free again. */
  lemma AbandonedIsSwallowed(t: Tables, key: Key, n: Serial)
    requires key in t.internal && key !in t.desktop
    ensures var a := Abandon(t, key);
      Track(a, key, n) == a && Destine(a, key) == Dropped && !InUse(Settle(a, key), key) &&
      Destine(Track(Settle(a, key), key, n), key) == ToDesktop(n)
  {
  }

  // ---------------------------------------------------------------- the machine

  datatype CallStatus = Asked | Answered | GivenUp

  datatype Internal = Internal(key: Key, status: CallStatus)

  /** A Desktop request: tracked, holding the thread lock, written upstream, or over. */
  datatype Stage = Tracked | Locked | Sent | Over

  datatype Request = Request(key: Key, stage: Stage, replies: nat, taken: nat, released: nat)

  datatype Origin = FromCall(c: Call) | FromDesktop(n: Serial)

  /** asked is what the app-server has received and not answered.  leaked counts internal
      responses that reached Desktop, clashes counts ids given to a second request while the
      first was unanswered, astray counts responses that reached the wrong asker. */
  datatype World = World(tables: Tables, calls: map<Call, Internal>, requests: map<Serial, Request>,
                         asked: map<Key, Origin>, sequence: nat, closed: bool, leaked: nat, clashes: nat, astray: nat)

  datatype Event =
    | Arrive(n: Serial, key: Key)
    | TakeLock(n: Serial)
    | Reply(n: Serial)
    | Forward(n: Serial)
    | FailWrite(n: Serial)
    | StartCall(c: Call)
    | FailEncode(c: Call)
    | FailCallWrite(c: Call)
    | GiveUp(c: Call)
    | Answer(key: Key)
    | Close

  const FRESH := World(Tables(map[], map[]), map[], map[], map[], 0, false, 0, 0, 0)

  predicate Running(s: Stage) { s == Tracked || s == Locked }

  /** The request is over: one more reply or none, and one more release of its lock if it has
      taken it.  Finishing a request twice would release twice. */
  function Finish(r: Request, replies: nat): Request {
    r.(stage := Over, replies := r.replies + replies, released := r.released + r.taken)
  }

  function Write(w: World, key: Key, origin: Origin): World {
    w.(asked := w.asked[key := origin], clashes := w.clashes + if key in w.asked then 1 else 0)
  }

  function StepRequest(w: World, e: Event): World
    requires (e.TakeLock? || e.Reply? || e.Forward? || e.FailWrite?) && e.n in w.requests
  {
    var r := w.requests[e.n];
    if !Running(r.stage) then w
    else
      match e
      case TakeLock(n) => if r.stage == Tracked then w.(requests := w.requests[n := r.(stage := Locked, taken := r.taken + 1)]) else w
      case Reply(n) =>
        // After the connection is closed nothing reaches Desktop any more.
        w.(requests := w.requests[n := Finish(r, if w.closed then 0 else 1)], tables := Untrack(w.tables, r.key))
      case Forward(n) =>
        if w.closed then w else Write(w, r.key, FromDesktop(n)).(requests := w.requests[n := r.(stage := Sent)])
      case FailWrite(n) => w.(requests := w.requests[n := Finish(r, 0)], tables := Untrack(w.tables, r.key))
  }

  function StepCall(w: World, e: Event): World
    requires e.StartCall? || e.FailEncode? || e.FailCallWrite? || e.GiveUp?
  {
    match e
    case StartCall(c) =>
      if c in w.calls || w.closed then w
      else
        var key := Own(w.sequence);
        Write(w, key, FromCall(c)).(tables := Await(w.tables, key, c), calls := w.calls[c := Internal(key, Asked)], sequence := w.sequence + 1)
    case FailEncode(c) =>
      if c in w.calls then w
      else w.(calls := w.calls[c := Internal(Own(w.sequence), GivenUp)], sequence := w.sequence + 1)
    case FailCallWrite(c) =>
      if c in w.calls || w.closed then w
      else w.(tables := Abandon(Await(w.tables, Own(w.sequence), c), Own(w.sequence)),
              calls := w.calls[c := Internal(Own(w.sequence), GivenUp)], sequence := w.sequence + 1)
    case GiveUp(c) =>
      if c in w.calls && w.calls[c].status == Asked
      then w.(calls := w.calls[c := w.calls[c].(status := GivenUp)], tables := Abandon(w.tables, w.calls[c].key))
      else w
  }

  function StepAnswer(w: World, key: Key): World
    requires key in w.asked
  {
    var origin := w.asked[key];
    var v := w.(asked := Remove(w.asked, key));
    if w.closed then v
    else
      var u := v.(tables := Settle(w.tables, key));
      match Destine(w.tables, key)
      case Waiter(c) =>
        var t := if c in w.calls then u.(calls := w.calls[c := w.calls[c].(status := Answered)]) else u;
        if origin == FromCall(c) then t else t.(astray := t.astray + 1)
      case Dropped => if origin.FromCall? then u else u.(astray := u.astray + 1)
      case ToDesktop(n) =>
        var t := if n in w.requests then u.(requests := w.requests[n := Finish(w.requests[n], 1)]) else u;
        if origin == FromDesktop(n) then t else if origin.FromCall? then t.(leaked := t.leaked + 1) else t.(astray := t.astray + 1)
      case Passed =>
        if origin.FromCall? then u.(leaked := u.leaked + 1) else u.(astray := u.astray + 1)
  }

  /** The sockets are closed first, so nothing is delivered after this step. */
  function StepClose(w: World): World {
    w.(closed := true, tables := Tables(map[], map[]),
       requests := map n | n in w.requests :: if w.requests[n].stage == Sent then Finish(w.requests[n], 0) else w.requests[n])
  }

  /** One step.  Desktop may use any id but one the session has not given out yet. */
  function Step(w: World, e: Event): World {
    match e
    case Arrive(n, key) =>
      if n in w.requests || w.closed || (key.Own? && key.number >= w.sequence) then w
      else if InUse(w.tables, key) then w.(requests := w.requests[n := Request(key, Over, 1, 0, 0)])
      else w.(tables := Track(w.tables, key, n), requests := w.requests[n := Request(key, Tracked, 0, 0, 0)])
    case StartCall(_) => StepCall(w, e)
    case FailEncode(_) => StepCall(w, e)
    case FailCallWrite(_) => StepCall(w, e)
    case GiveUp(_) => StepCall(w, e)
    case Answer(key) => if key in w.asked then StepAnswer(w, key) else w
    case Close => StepClose(w)
    case _ => if e.n in w.requests then StepRequest(w, e) else w
  }

  function Run(w: World, events: seq<Event>): World
    decreases |events|
  {
    if events == [] then w else Run(Step(w, events[0]), events[1..])
  }

  // ---------------------------------------------------------------- the invariant

  predicate KeyKnown(key: Key, sequence: nat) { key.Own? ==> key.number < sequence }

  /** What holds of every key: an id in use was given out, no id is in both tables, the
      tables know who waits, and an unanswered request is in the table of its asker unless
      the session is closed. */
  predicate KeyTrue(w: World, k: Key) {
    && (k in w.tables.internal || k in w.tables.desktop || k in w.asked ==> KeyKnown(k, w.sequence))
    && (k in w.tables.internal ==> k !in w.tables.desktop)
    && (k in w.tables.internal && w.tables.internal[k].Some? ==>
          w.tables.internal[k].value in w.calls && w.calls[w.tables.internal[k].value] == Internal(k, Asked))
    && (k in w.tables.desktop ==>
          w.tables.desktop[k] in w.requests && w.requests[w.tables.desktop[k]].key == k && w.requests[w.tables.desktop[k]].stage != Over)
    && (k in w.asked && !w.closed ==>
          match w.asked[k]
          case FromCall(c) => k in w.tables.internal && (w.tables.internal[k] == Some(c) || w.tables.internal[k] == None)
          case FromDesktop(n) => k in w.tables.desktop && w.tables.desktop[k] == n && n in w.requests && w.requests[n].stage == Sent)
  }

  /** A request has no reply until it is over, and its lock is held while it is written and
      unanswered and released once it is over. */
  predicate RequestTrue(w: World, n: Serial)
    requires n in w.requests
  {
    var r := w.requests[n];
    && KeyKnown(r.key, w.sequence)
    && r.replies <= (if r.stage == Over then 1 else 0) && r.taken <= 1
    && r.released == (if r.stage == Over then r.taken else 0)
    && (r.stage == Tracked ==> r.taken == 0) && (r.stage == Locked ==> r.taken == 1)
    && (w.closed ==> r.stage != Sent)
    && (!w.closed && r.stage != Over ==> r.key in w.tables.desktop && w.tables.desktop[r.key] == n)
    && (r.stage == Sent ==> r.key in w.asked && w.asked[r.key] == FromDesktop(n))
  }

  /** A call that waits has its id in the table, and the app-server has its request. */
  predicate CallTrue(w: World, c: Call)
    requires c in w.calls
  {
    var key := w.calls[c].key;
    w.calls[c].status == Asked && !w.closed ==>
      key in w.tables.internal && w.tables.internal[key] == Some(c) && key in w.asked && w.asked[key] == FromCall(c)
  }

  ghost predicate CallsTrue(w: World) { forall c :: c in w.calls ==> CallTrue(w, c) }

  ghost predicate KeysTrue(w: World) { forall k :: KeyTrue(w, k) }

  ghost predicate RequestsTrue(w: World) { forall n :: n in w.requests ==> RequestTrue(w, n) }

  predicate Quiet(w: World) {
    (w.closed ==> w.tables == Tables(map[], map[])) && w.leaked == 0 && w.clashes == 0 && w.astray == 0
  }

  ghost predicate Inv(w: World) { KeysTrue(w) && RequestsTrue(w) && CallsTrue(w) && Quiet(w) }

  // ---------------------------------------------------------------- every step keeps it

  lemma ArriveKeeps(w: World, n: Serial, key: Key)
    requires Inv(w)
    ensures Inv(Step(w, Arrive(n, key)))
  {
    if n !in w.requests && !w.closed && KeyKnown(key, w.sequence) {
      if InUse(w.tables, key) { RefusedKeeps(w, n, key); } else { TrackedKeeps(w, n, key); }
    }
    hide Inv;
  }

  lemma RefusedKeeps(w: World, n: Serial, key: Key)
    requires Inv(w) && n !in w.requests && KeyKnown(key, w.sequence)
    ensures Inv(w.(requests := w.requests[n := Request(key, Over, 1, 0, 0)]))
  {
    var v := w.(requests := w.requests[n := Request(key, Over, 1, 0, 0)]);
    forall k
      ensures KeyTrue(v, k)
    {
      assert KeyTrue(w, k);
    }
    hide KeysTrue;
    forall m | m in v.requests
      ensures RequestTrue(v, m)
    {
      assert m in w.requests ==> RequestTrue(w, m);
    }
    forall c | c in v.calls
      ensures CallTrue(v, c)
    {
      assert c in w.calls ==> CallTrue(w, c);
    }
  }

  lemma TrackedKeeps(w: World, n: Serial, key: Key)
    requires Inv(w) && n !in w.requests && KeyKnown(key, w.sequence) && !InUse(w.tables, key) && !w.closed
    ensures Inv(w.(tables := Track(w.tables, key, n), requests := w.requests[n := Request(key, Tracked, 0, 0, 0)]))
  {
    var v := w.(tables := Track(w.tables, key, n), requests := w.requests[n := Request(key, Tracked, 0, 0, 0)]);
    forall k
      ensures KeyTrue(v, k)
    {
      assert KeyTrue(w, k);
    }
    assert KeyTrue(w, key);
    hide KeysTrue;
    forall m | m in v.requests
      ensures RequestTrue(v, m)
    {
      assert m in w.requests ==> RequestTrue(w, m);
    }
    forall c | c in v.calls
      ensures CallTrue(v, c)
    {
      assert c in w.calls ==> CallTrue(w, c);
    }
  }

  /** A request that gets its lock. */
  lemma LockKeeps(w: World, n: Serial)
    requires Inv(w) && n in w.requests
    ensures Inv(StepRequest(w, TakeLock(n)))
  {
    var v := StepRequest(w, TakeLock(n));
    assert RequestTrue(w, n);
    forall k
      ensures KeyTrue(v, k)
    {
      assert KeyTrue(w, k);
    }
    hide KeysTrue;
    forall m | m in v.requests
      ensures RequestTrue(v, m)
    {
      assert RequestTrue(w, m);
    }
    forall c | c in v.calls
      ensures CallTrue(v, c)
    {
      assert c in w.calls ==> CallTrue(w, c);
    }
  }

  /** A request that ends without being written. */
  lemma EndKeeps(w: World, n: Serial, replies: nat)
    requires Inv(w) && n in w.requests && Running(w.requests[n].stage) && replies <= 1
    ensures var r := w.requests[n];
      Inv(w.(requests := w.requests[n := Finish(r, replies)], tables := Untrack(w.tables, r.key)))
  {
    var r := w.requests[n];
    var v := w.(requests := w.requests[n := Finish(r, replies)], tables := Untrack(w.tables, r.key));
    assert RequestTrue(w, n) && KeyTrue(w, r.key);
    forall k
      ensures KeyTrue(v, k)
    {
      assert KeyTrue(w, k);
    }
    forall m | m in v.requests
      ensures RequestTrue(v, m)
    {
      assert RequestTrue(w, m);
    }
    if w.closed { assert v.tables == Tables(map[], map[]); }
    forall c | c in v.calls
      ensures CallTrue(v, c)
    {
      assert c in w.calls ==> CallTrue(w, c);
    }
  }

  /** A tracked request is written under an id nobody else waits for. */
  lemma ForwardKeeps(w: World, n: Serial)
    requires Inv(w) && n in w.requests
    ensures Inv(StepRequest(w, Forward(n)))
  {
    var v := StepRequest(w, Forward(n));
    var r := w.requests[n];
    assert RequestTrue(w, n) && KeyTrue(w, r.key);
    if Running(r.stage) && !w.closed {
      assert r.key !in w.asked;
      forall k
        ensures KeyTrue(v, k)
      {
        assert KeyTrue(w, k);
      }
      hide KeysTrue;
      forall m | m in v.requests
        ensures RequestTrue(v, m)
      {
        assert RequestTrue(w, m);
      }
      forall c | c in v.calls
        ensures CallTrue(v, c)
      {
        assert CallTrue(w, c);
      }
    }
  }

  /** A new call gets an id of its own. */
  lemma NewCallKeeps(w: World, e: Event)
    requires Inv(w) && (e.StartCall? || e.FailEncode? || e.FailCallWrite?)
    ensures Inv(StepCall(w, e))
  {
    var v := StepCall(w, e);
    assert KeyTrue(w, Own(w.sequence));
    forall k
      ensures KeyTrue(v, k)
    {
      assert KeyTrue(w, k);
    }
    forall m | m in v.requests
      ensures RequestTrue(v, m)
    {
      assert RequestTrue(w, m);
    }
    forall c | c in v.calls
      ensures CallTrue(v, c)
    {
      assert c in w.calls ==> CallTrue(w, c);
    }
  }

  /** A call that gives up leaves its id in the table. */
  lemma GiveUpKeeps(w: World, c: Call)
    requires Inv(w)
    ensures Inv(StepCall(w, GiveUp(c)))
  {
    var v := StepCall(w, GiveUp(c));
    if c in w.calls { assert KeyTrue(w, w.calls[c].key); }
    forall k
      ensures KeyTrue(v, k)
    {
      assert KeyTrue(w, k);
    }
    forall m | m in v.requests
      ensures RequestTrue(v, m)
    {
      assert RequestTrue(w, m);
    }
    forall d | d in v.calls
      ensures CallTrue(v, d)
    {
      assert CallTrue(w, d);
    }
  }

  /** An answer to a call: it goes to the call or, if that gave up, nowhere. */
  lemma CallAnswerKeeps(w: World, key: Key)
    requires Inv(w) && key in w.asked && w.asked[key].FromCall?
    ensures Inv(StepAnswer(w, key))
  {
    var v := StepAnswer(w, key);
    assert KeyTrue(w, key);
    forall k
      ensures KeyTrue(v, k)
    {
      assert KeyTrue(w, k);
    }
    forall m | m in v.requests
      ensures RequestTrue(v, m)
    {
      assert RequestTrue(w, m);
    }
    forall c | c in v.calls
      ensures CallTrue(v, c)
    {
      assert c in w.calls ==> CallTrue(w, c);
    }
  }

  /** An answer to a Desktop request: it goes to Desktop and ends the request. */
  lemma DesktopAnswerKeeps(w: World, key: Key)
    requires Inv(w) && key in w.asked && w.asked[key].FromDesktop?
    ensures Inv(StepAnswer(w, key))
  {
    var v := StepAnswer(w, key);
    var n := w.asked[key].n;
    assert KeyTrue(w, key);
    assert n in w.requests ==> RequestTrue(w, n);
    forall k
      ensures KeyTrue(v, k)
    {
      assert KeyTrue(w, k);
    }
    forall m | m in v.requests
      ensures RequestTrue(v, m)
    {
      assert RequestTrue(w, m);
    }
    forall c | c in v.calls
      ensures CallTrue(v, c)
    {
      assert c in w.calls ==> CallTrue(w, c);
    }
  }

  lemma CloseKeeps(w: World)
    requires Inv(w)
    ensures Inv(StepClose(w))
  {
    var v := StepClose(w);
    forall k
      ensures KeyTrue(v, k)
    {
      assert KeyTrue(w, k);
    }
    forall n | n in v.requests
      ensures RequestTrue(v, n)
    {
      assert RequestTrue(w, n);
    }
    forall c | c in v.calls
      ensures CallTrue(v, c)
    {
      assert c in w.calls ==> CallTrue(w, c);
    }
  }

  lemma RequestKeeps(w: World, e: Event)
    requires Inv(w) && (e.TakeLock? || e.Reply? || e.Forward? || e.FailWrite?) && e.n in w.requests
    ensures Inv(StepRequest(w, e))
  {
    hide Inv, Finish, Untrack, Write;
    if Running(w.requests[e.n].stage) {
      match e
      case TakeLock(n) => LockKeeps(w, n);
      case Reply(n) => EndKeeps(w, n, if w.closed then 0 else 1);
      case Forward(n) => ForwardKeeps(w, n);
      case FailWrite(n) => EndKeeps(w, n, 0);
    }
  }

  lemma StepKeeps(w: World, e: Event)
    requires Inv(w)
    ensures Inv(Step(w, e))
  {
    hide Inv, StepRequest, StepCall, StepAnswer, StepClose, InUse, Track;
    match e
    case Arrive(n, key) => ArriveKeeps(w, n, key);
    case Answer(key) =>
      if key in w.asked {
        if w.asked[key].FromCall? { CallAnswerKeeps(w, key); } else { DesktopAnswerKeeps(w, key); }
      }
    case Close => CloseKeeps(w);
    case StartCall(_) => NewCallKeeps(w, e);
    case FailEncode(_) => NewCallKeeps(w, e);
    case FailCallWrite(_) => NewCallKeeps(w, e);
    case GiveUp(c) => GiveUpKeeps(w, c);
    case _ => if e.n in w.requests { RequestKeeps(w, e); }
  }

  lemma {:induction false} RunKeeps(w: World, events: seq<Event>)
    requires Inv(w)
    ensures Inv(Run(w, events))
    decreases |events|
  {
    hide Inv, Step;
    if events != [] {
      StepKeeps(w, events[0]);
      RunKeeps(Step(w, events[0]), events[1..]);
    }
  }

  /** Request multiplexing over all runs: no internal response reaches Desktop, even after
      its caller gave up; no id in use is given to a second request; no response reaches the
      wrong asker; and each Desktop request gets at most one reply. */
  lemma ResponsesFindTheirAsker(events: seq<Event>, n: Serial)
    ensures var w := Run(FRESH, events);
      w.leaked == 0 && w.clashes == 0 && w.astray == 0 &&
      (n in w.requests ==> w.requests[n].replies <= 1)
  {
    RunKeeps(FRESH, events);
    hide Run;
    var w := Run(FRESH, events);
    assert n in w.requests ==> RequestTrue(w, n);
  }

  /** Every thread lock a request took is held until the request is over, by an answer, a
      local reply, a failed write or the end of the connection, and is then released once. */
  lemma LocksAreReleasedOnce(events: seq<Event>, n: Serial)
    requires n in Run(FRESH, events).requests
    ensures var r := Run(FRESH, events).requests[n];
      r.taken <= 1 && r.released == (if r.stage == Over then r.taken else 0)
    ensures var w := Run(FRESH, events);
      w.requests[n].stage == Sent ==> !w.closed && w.requests[n].key in w.asked && w.asked[w.requests[n].key] == FromDesktop(n)
  {
    RunKeeps(FRESH, events);
    hide Run;
    assert RequestTrue(Run(FRESH, events), n);
  }

  /** A call that waits is unanswered, and the answer to it will reach it. */
  lemma AnswersReachTheCall(events: seq<Event>, c: Call)
    requires var w := Run(FRESH, events); !w.closed && c in w.calls && w.calls[c].status == Asked
    ensures var w := Run(FRESH, events);
      w.calls[c].key in w.asked && Step(w, Answer(w.calls[c].key)).calls[c].status == Answered
  {
    RunKeeps(FRESH, events);
    hide Run;
    var w := Run(FRESH, events);
    assert CallTrue(w, c);
  }
}
