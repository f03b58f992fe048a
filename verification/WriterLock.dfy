/** The unlink-on-release writer lock (internal/rollout/sanitize.go, acquireWriterLock, and
    the same protocol in scripts/history-maintenance.py, writer_lock), as interleaved system
    calls of any number of processes over inodes.  A flock belongs to an inode, not to a
    path, so a holder is safe only while the path still names its inode; the coordination
    lock is what makes that so. */
module WriterLock {
  import opened Wrappers

  type Pid = nat

  type Inode = nat

  // ---------------------------------------------------------------- the state

  /** openLockFile: look, then create exclusively or open and compare; three attempts. */
  datatype Opening =
    | Looking(tries: nat)
    | Absent(tries: nat)
    | Seen(inode: Inode, tries: nat)
    | Opened(seen: Inode, inode: Inode, tries: nat)

  /** Where a process is.  coord is the coordination inode it has locked, if it uses one;
      held is the lock inode it is about to release. */
  datatype Pc =
    | Idle
    | OpenCoord(op: Opening, held: Option<Inode>)
    | ReadyCoord(inode: Inode, held: Option<Inode>)
    | OpenLock(op: Opening, coord: Option<Inode>)
    | ReadyLock(inode: Inode, coord: Option<Inode>)
    | Locked(inode: Inode, coord: Option<Inode>)
    | Holding(inode: Inode)
    | Releasing(inode: Inode, coord: Option<Inode>)
    | Unlocked(inode: Inode, coord: Option<Inode>)
    | Backing(coord: Option<Inode>)
    | Dropping(inode: Inode)

  /** The two directory entries, the owner of every locked inode, and the processes. */
  datatype World = World(coordinated: bool, coordPath: Option<Inode>, lockPath: Option<Inode>,
                         owner: map<Inode, Pid>, pcs: map<Pid, Pc>, next: Inode)

  datatype Event =
    | Begin(pid: Pid)
    | Release(pid: Pid)
    | Look(pid: Pid)
    | Make(pid: Pid)
    | OpenSeen(pid: Pid)
    | Compare(pid: Pid)
    | OpenOrCreate(pid: Pid)
    | Flock(pid: Pid)
    | Unlock(pid: Pid)
    | Unlink(pid: Pid)
    | LeaveIt(pid: Pid)
    | LetGo(pid: Pid)
    | GiveUp(pid: Pid)
    | Crash(pid: Pid)

  const START := World(true, None, None, map[], map[], 0)

  function At(w: World, p: Pid): Pc { if p in w.pcs then w.pcs[p] else Idle }

  function Go(w: World, p: Pid, pc: Pc): World { w.(pcs := w.pcs[p := pc]) }

  // ---------------------------------------------------------------- the steps

  /** What opening a lock file becomes. */
  datatype OpenResult = Going(op: Opening) | Ready(inode: Inode, made: bool) | Failure

  function Retry(tries: nat): OpenResult { if tries + 1 < 3 then Going(Looking(tries + 1)) else Failure }

  function OpenStep(op: Opening, path: Option<Inode>, next: Inode, e: Event): Option<OpenResult> {
    match (op, e)
    case (Looking(t), Look(_)) => Some(Going(if path.Some? then Seen(path.value, t) else Absent(t)))
    case (Looking(t), OpenOrCreate(_)) => Some(if path.Some? then Ready(path.value, false) else Ready(next, true))
    case (Absent(t), Make(_)) => Some(if path.Some? then Retry(t) else Ready(next, true))
    case (Seen(i, t), OpenSeen(_)) => Some(if path.Some? then Going(Opened(i, path.value, t)) else Failure)
    case (Opened(seen, i, t), Compare(_)) => Some(if seen == i then Ready(i, false) else Retry(t))
    case _ => None
  }

  function Free(owner: map<Inode, Pid>, inode: Option<Inode>): map<Inode, Pid> {
    if inode.None? then owner else map i | i in owner && i != inode.value :: owner[i]
  }

  function StepOpenCoord(w: World, p: Pid, op: Opening, held: Option<Inode>, e: Event): World {
    var r := OpenStep(op, w.coordPath, w.next, e);
    if e.GiveUp? || r == Some(Failure) then Go(w, p, if held.Some? then Dropping(held.value) else Idle)
    else match r
      case None => w
      case Some(Going(more)) => Go(w, p, OpenCoord(more, held))
      case Some(Ready(i, made)) =>
        var v := Go(w, p, ReadyCoord(i, held));
        if made then v.(coordPath := Some(i), next := w.next + 1) else v
      case Some(Failure) => w
  }

  function StepOpenLock(w: World, p: Pid, op: Opening, coord: Option<Inode>, e: Event): World {
    var r := OpenStep(op, w.lockPath, w.next, e);
    if e.GiveUp? || r == Some(Failure) then Go(w, p, Backing(coord))
    else match r
      case None => w
      case Some(Going(more)) => Go(w, p, OpenLock(more, coord))
      case Some(Ready(i, made)) =>
        var v := Go(w, p, ReadyLock(i, coord));
        if made then v.(lockPath := Some(i), next := w.next + 1) else v
      case Some(Failure) => w
  }

  function StepAt(w: World, p: Pid, e: Event): World {
    match (At(w, p), e)
    case (Idle, Begin(_)) => Go(w, p, if w.coordinated then OpenCoord(Looking(0), None) else OpenLock(Looking(0), None))
    case (Holding(i), Release(_)) => Go(w, p, if w.coordinated then OpenCoord(Looking(0), Some(i)) else Releasing(i, None))
    case (OpenCoord(op, held), _) => StepOpenCoord(w, p, op, held, e)
    case (ReadyCoord(c, held), Flock(_)) =>
      // Acquiring does not wait for the coordination lock; releasing does.
      if c in w.owner then (if held.None? then Go(w, p, Idle) else w)
      else Go(w, p, if held.None? then OpenLock(Looking(0), Some(c)) else Releasing(held.value, Some(c))).(owner := w.owner[c := p])
    case (ReadyCoord(_, held), GiveUp(_)) => Go(w, p, if held.Some? then Dropping(held.value) else Idle)
    case (OpenLock(op, coord), _) => StepOpenLock(w, p, op, coord, e)
    case (ReadyLock(i, coord), Flock(_)) =>
      if i in w.owner then Go(w, p, Backing(coord)) else Go(w, p, Locked(i, coord)).(owner := w.owner[i := p])
    case (ReadyLock(_, coord), GiveUp(_)) => Go(w, p, Backing(coord))
    case (Locked(i, coord), LetGo(_)) => Go(w, p, Holding(i)).(owner := Free(w.owner, coord))
    case (Releasing(i, coord), Unlock(_)) => Go(w, p, Unlocked(i, coord)).(owner := Free(w.owner, Some(i)))
    case (Unlocked(_, coord), Unlink(_)) => Go(w, p, Backing(coord)).(lockPath := None)
    case (Unlocked(_, coord), LeaveIt(_)) => Go(w, p, Backing(coord))
    case (Backing(coord), LetGo(_)) => Go(w, p, Idle).(owner := Free(w.owner, coord))
    case (Dropping(i), Unlock(_)) => Go(w, p, Idle).(owner := Free(w.owner, Some(i)))
    case _ => w
  }

  /** A dying process loses its descriptors and with them its locks; the files stay. */
  function Die(w: World, p: Pid): World {
    Go(w, p, Idle).(owner := map i | i in w.owner && w.owner[i] != p :: w.owner[i])
  }

  function Step(w: World, e: Event): World {
    if e.Crash? then Die(w, e.pid) else StepAt(w, e.pid, e)
  }

  function Run(w: World, events: seq<Event>): World
    decreases |events|
  {
    if events == [] then w else Run(Step(w, events[0]), events[1..])
  }

  // ---------------------------------------------------------------- who has what

  /** The lock inode a process has locked, from its flock to its unlock. */
  function Held(pc: Pc): Option<Inode> {
    match pc
    case Locked(i, _) => Some(i)
    case Holding(i) => Some(i)
    case OpenCoord(_, held) => held
    case ReadyCoord(_, held) => held
    case Releasing(i, _) => Some(i)
    case Dropping(i) => Some(i)
    case _ => None
  }

  /** The coordination inode a process has locked. */
  function Coord(pc: Pc): Option<Inode> {
    match pc
    case OpenLock(_, coord) => coord
    case ReadyLock(_, coord) => coord
    case Locked(_, coord) => coord
    case Releasing(_, coord) => coord
    case Unlocked(_, coord) => coord
    case Backing(coord) => coord
    case _ => None
  }

  predicate InCoord(pc: Pc) {
    pc.OpenLock? || pc.ReadyLock? || pc.Locked? || pc.Releasing? || pc.Unlocked? || pc.Backing?
  }

  /** What an opener has seen is still what the path names. */
  predicate OpeningTrue(op: Opening, path: Option<Inode>) {
    match op
    case Looking(_) => true
    case Absent(_) => true
    case Seen(i, _) => path == Some(i)
    case Opened(seen, i, _) => path == Some(seen) == Some(i)
  }

  predicate PcTrue(w: World, p: Pid) {
    var pc := At(w, p);
    && (InCoord(pc) ==> Coord(pc).Some?)
    && (Coord(pc).Some? ==> Coord(pc) == w.coordPath && Coord(pc).value in w.owner && w.owner[Coord(pc).value] == p)
    && (Held(pc).Some? ==> Held(pc) == w.lockPath && Held(pc).value in w.owner && w.owner[Held(pc).value] == p)
    && (match pc
        case OpenCoord(op, _) => OpeningTrue(op, w.coordPath)
        case ReadyCoord(c, _) => w.coordPath == Some(c)
        case OpenLock(op, _) => OpeningTrue(op, w.lockPath)
        case ReadyLock(i, _) => w.lockPath == Some(i)
        case Unlocked(i, _) => w.lockPath == Some(i) && i !in w.owner
        case _ => true)
  }

  predicate Inodes(w: World) {
    && (w.coordPath.Some? ==> w.coordPath.value < w.next)
    && (w.lockPath.Some? ==> w.lockPath.value < w.next && w.lockPath != w.coordPath)
    && (forall i :: i in w.owner ==> i < w.next)
  }

  /** Every lock belongs to a process that knows it has it. */
  predicate Owners(w: World) {
    forall i :: i in w.owner ==> Held(At(w, w.owner[i])) == Some(i) || Coord(At(w, w.owner[i])) == Some(i)
  }

  ghost predicate Inv(w: World) {
    w.coordinated && Inodes(w) && Owners(w) && forall p: Pid :: PcTrue(w, p)
  }

  // ---------------------------------------------------------------- every step keeps the invariant

  lemma StepKeeps(w: World, e: Event)
    requires Inv(w)
    ensures Inv(Step(w, e))
  {
    var p := e.pid;
    assert PcTrue(w, p);
    if e.Crash? {
      CrashKeeps(w, p);
    } else {
      match At(w, p)
      case OpenCoord(op, held) => OpenCoordKeeps(w, p, op, held, e);
      case OpenLock(op, coord) => OpenLockKeeps(w, p, op, coord, e);
      case ReadyCoord(c, held) => ReadyCoordKeeps(w, p, e);
      case ReadyLock(i, coord) => ReadyLockKeeps(w, p, e);
      case Idle => SimpleKeeps(w, p, e);
      case Holding(_) => SimpleKeeps(w, p, e);
      case _ => ReleaseKeeps(w, p, e);
    }
  }

  lemma CrashKeeps(w: World, p: Pid)
    requires Inv(w)
    ensures Inv(Die(w, p))
  {
    var v := Die(w, p);
    forall q: Pid
      ensures PcTrue(v, q)
    {
      assert PcTrue(w, q);
    }
  }

  lemma SimpleKeeps(w: World, p: Pid, e: Event)
    requires Inv(w) && !e.Crash? && (At(w, p).Idle? || At(w, p).Holding?)
    ensures Inv(StepAt(w, p, e))
  {
    var v := StepAt(w, p, e);
    assert PcTrue(w, p);
    forall q: Pid
      ensures PcTrue(v, q)
    {
      assert PcTrue(w, q);
    }
  }

  /** A step that changes no lock and no path. */
  lemma GoKeeps(w: World, p: Pid, pc: Pc)
    requires Inv(w) && Held(pc) == Held(At(w, p)) && Coord(pc) == Coord(At(w, p))
    requires PcTrue(Go(w, p, pc), p)
    ensures Inv(Go(w, p, pc))
  {
    var v := Go(w, p, pc);
    forall q: Pid
      ensures PcTrue(v, q)
    {
      assert PcTrue(w, q);
    }
  }

  lemma OpenCoordKeeps(w: World, p: Pid, op: Opening, held: Option<Inode>, e: Event)
    requires Inv(w) && At(w, p) == OpenCoord(op, held)
    ensures Inv(StepOpenCoord(w, p, op, held, e))
  {
    assert PcTrue(w, p);
    var r := OpenStep(op, w.coordPath, w.next, e);
    if r.Some? && r.value.Ready? && r.value.made && !e.GiveUp? {
      MadeCoord(w, p, held);
    } else {
      hide Inv;
      var v := StepOpenCoord(w, p, op, held, e);
      if v != w { GoKeeps(w, p, At(v, p)); }
    }
  }

  /** The coordination file is created at most once, before anyone has its lock. */
  lemma MadeCoord(w: World, p: Pid, held: Option<Inode>)
    requires Inv(w) && At(w, p).OpenCoord? && At(w, p).held == held && w.coordPath.None?
    ensures Inv(Go(w, p, ReadyCoord(w.next, held)).(coordPath := Some(w.next), next := w.next + 1))
  {
    var v := Go(w, p, ReadyCoord(w.next, held)).(coordPath := Some(w.next), next := w.next + 1);
    assert PcTrue(w, p);
    forall q: Pid
      ensures PcTrue(v, q)
    {
      assert PcTrue(w, q);
    }
  }

  lemma OpenLockKeeps(w: World, p: Pid, op: Opening, coord: Option<Inode>, e: Event)
    requires Inv(w) && At(w, p) == OpenLock(op, coord)
    ensures Inv(StepOpenLock(w, p, op, coord, e))
  {
    assert PcTrue(w, p);
    var r := OpenStep(op, w.lockPath, w.next, e);
    if r.Some? && r.value.Ready? && r.value.made && !e.GiveUp? {
      MadeLock(w, p, coord);
    } else {
      hide Inv;
      var v := StepOpenLock(w, p, op, coord, e);
      if v != w { GoKeeps(w, p, At(v, p)); }
    }
  }

  /** The lock file is created only under the coordination lock, while nobody holds one. */
  lemma MadeLock(w: World, p: Pid, coord: Option<Inode>)
    requires Inv(w) && At(w, p).OpenLock? && At(w, p).coord == coord && w.lockPath.None?
    ensures Inv(Go(w, p, ReadyLock(w.next, coord)).(lockPath := Some(w.next), next := w.next + 1))
  {
    var v := Go(w, p, ReadyLock(w.next, coord)).(lockPath := Some(w.next), next := w.next + 1);
    assert PcTrue(w, p);
    forall q: Pid
      ensures PcTrue(v, q)
    {
      assert PcTrue(w, q);
    }
  }

  lemma ReadyCoordKeeps(w: World, p: Pid, e: Event)
    requires Inv(w) && !e.Crash? && At(w, p).ReadyCoord?
    ensures Inv(StepAt(w, p, e))
  {
    var v := StepAt(w, p, e);
    assert PcTrue(w, p);
    forall q: Pid
      ensures PcTrue(v, q)
    {
      assert PcTrue(w, q);
    }
  }

  lemma ReadyLockKeeps(w: World, p: Pid, e: Event)
    requires Inv(w) && !e.Crash? && At(w, p).ReadyLock?
    ensures Inv(StepAt(w, p, e))
  {
    var v := StepAt(w, p, e);
    assert PcTrue(w, p);
    forall q: Pid
      ensures PcTrue(v, q)
    {
      assert PcTrue(w, q);
    }
  }

  /** Letting go of the coordination lock. */
  lemma LetGoKeeps(w: World, p: Pid, e: Event)
    requires Inv(w) && !e.Crash? && (At(w, p).Locked? || At(w, p).Backing?)
    ensures Inv(StepAt(w, p, e))
  {
    var v := StepAt(w, p, e);
    assert PcTrue(w, p);
    forall q: Pid
      ensures PcTrue(v, q)
    {
      assert PcTrue(w, q);
    }
  }

  /** Unlocking the lock's inode. */
  lemma UnlockKeeps(w: World, p: Pid, e: Event)
    requires Inv(w) && !e.Crash? && (At(w, p).Releasing? || At(w, p).Dropping?)
    ensures Inv(StepAt(w, p, e))
  {
    var v := StepAt(w, p, e);
    assert PcTrue(w, p);
    forall q: Pid
      ensures PcTrue(v, q)
    {
      assert PcTrue(w, q);
    }
  }

  /** Unlinking the path: only the process that has the coordination lock does it. */
  lemma UnlinkKeeps(w: World, p: Pid, e: Event)
    requires Inv(w) && !e.Crash? && At(w, p).Unlocked?
    ensures Inv(StepAt(w, p, e))
  {
    var v := StepAt(w, p, e);
    assert PcTrue(w, p);
    forall q: Pid
      ensures PcTrue(v, q)
    {
      assert PcTrue(w, q);
    }
  }

  lemma ReleaseKeeps(w: World, p: Pid, e: Event)
    requires Inv(w) && !e.Crash?
    requires var pc := At(w, p); pc.Locked? || pc.Releasing? || pc.Unlocked? || pc.Backing? || pc.Dropping?
    ensures Inv(StepAt(w, p, e))
  {
    hide Inv, StepAt;
    match At(w, p)
    case Locked(_, _) => LetGoKeeps(w, p, e);
    case Backing(_) => LetGoKeeps(w, p, e);
    case Unlocked(_, _) => UnlinkKeeps(w, p, e);
    case _ => UnlockKeeps(w, p, e);
  }

  lemma {:induction false} RunKeeps(w: World, events: seq<Event>)
    requires Inv(w)
    ensures Inv(Run(w, events))
    decreases |events|
  {
    hide Inv, Step;
    if events != [] {
      StepKeeps(w, events[0]);
      RunKeeps(Step(w, events[0]), events[1..]);
    }
  }

  /** Mutual exclusion: whatever the interleaving and whoever dies, at most one process
      has the writer lock, and its inode is the one the path names. */
  lemma MutualExclusion(events: seq<Event>, p: Pid, q: Pid)
    ensures var w := Run(START, events);
      (Held(At(w, p)).Some? && Held(At(w, q)).Some? ==> p == q) &&
      (Held(At(w, p)).Some? ==> Held(At(w, p)) == w.lockPath)
  {
    RunKeeps(START, events);
    var w := Run(START, events);
    hide Run;
    assert PcTrue(w, p) && PcTrue(w, q);
  }

  // ---------------------------------------------------------------- nothing is wedged

  /** The calls of an undisturbed acquisition, with and without the coordination lock. */
  function Acquire(p: Pid): seq<Event> { Calls(Begin(p), OpenOrCreate(p), Flock(p), OpenOrCreate(p)) + [Flock(p), LetGo(p)] }

  function AcquireAlone(p: Pid): seq<Event> { Calls(Begin(p), OpenOrCreate(p), Flock(p), LetGo(p)) }

  function Calls(a: Event, b: Event, c: Event, d: Event): seq<Event> { [a, b, c, d] }

  lemma {:induction false} RunConcat(w: World, a: seq<Event>, b: seq<Event>)
    ensures Run(w, a + b) == Run(Run(w, a), b)
    decreases |a|
  {
    hide Step;
    if a == [] {
      assert a + b == b;
    } else {
      assert (a + b)[1..] == a[1..] + b;
      RunConcat(Step(w, a[0]), a[1..], b);
    }
  }

  lemma RunOne(w: World, a: Event)
    ensures Run(w, [a]) == Step(w, a)
  {
    hide Step;
    assert [a][1..] == [];
  }

  lemma RunTwo(w: World, a: Event, b: Event)
    ensures Run(w, [a, b]) == Step(Step(w, a), b)
  {
    hide Step;
    RunOne(Step(w, a), b);
    assert [a, b][1..] == [b];
  }

  lemma RunFour(w: World, a: Event, b: Event, c: Event, d: Event)
    ensures Run(w, Calls(a, b, c, d)) == Step(Step(Step(Step(w, a), b), c), d)
  {
    RunTwo(w, a, b);
    RunTwo(Step(Step(w, a), b), c, d);
    hide Step, Run;
    RunConcat(w, [a, b], [c, d]);
    assert [a, b] + [c, d] == [a, b, c, d];
  }

  /** After any run, once every process is gone or idle, the lock can be taken: no crash
      leaves it locked. */
  lemma NothingIsWedged(events: seq<Event>, p: Pid)
    requires forall q: Pid :: At(Run(START, events), q) == Idle
    ensures var v := Run(START, events + Acquire(p)); At(v, p).Holding? && Held(At(v, p)) == v.lockPath
  {
    hide Step, Acquire;
    assert Inv(START);
    hide Inv;
    RunKeeps(START, events);
    LockCanBeTaken(Run(START, events), p);
    hide Run;
    RunConcat(START, events, Acquire(p));
  }

  lemma LockCanBeTaken(w: World, p: Pid)
    requires Inv(w) && forall q: Pid :: At(w, q) == Idle
    ensures var v := Run(w, Acquire(p)); At(v, p).Holding? && Held(At(v, p)) == v.lockPath
  {
    hide Run, Calls, Step, Inodes;
    assert w.owner == map[] by { IdleOwnsNothing(w); }
    hide Inv;
    var w4 := Step(Step(Step(Step(w, Begin(p)), OpenOrCreate(p)), Flock(p)), OpenOrCreate(p));
    TakeCoord(w, p);
    RunFour(w, Begin(p), OpenOrCreate(p), Flock(p), OpenOrCreate(p));
    RunConcat(w, Calls(Begin(p), OpenOrCreate(p), Flock(p), OpenOrCreate(p)), [Flock(p), LetGo(p)]);
    RunTwo(w4, Flock(p), LetGo(p));
    TakeLast(w4, p);
  }

  lemma IdleOwnsNothing(w: World)
    requires Owners(w) && forall q: Pid :: At(w, q) == Idle
    ensures w.owner == map[]
  {
    assert forall i :: i !in w.owner;
  }

  lemma TakeLast(w: World, p: Pid)
    requires At(w, p).ReadyLock? && w.lockPath == Some(At(w, p).inode) && w.lockPath.value !in w.owner
    ensures var v := Step(Step(w, Flock(p)), LetGo(p)); At(v, p).Holding? && Held(At(v, p)) == v.lockPath
  {
  }

  lemma TakeCoord(w: World, p: Pid)
    requires w.coordinated && Inodes(w) && w.owner == map[] && At(w, p) == Idle
    ensures var v := Step(Step(Step(Step(w, Begin(p)), OpenOrCreate(p)), Flock(p)), OpenOrCreate(p));
      At(v, p).ReadyLock? && v.lockPath == Some(At(v, p).inode) && v.lockPath.value !in v.owner
  {
    var w2 := Step(Step(w, Begin(p)), OpenOrCreate(p));
    assert At(w2, p).ReadyCoord? && w2.owner == map[] && w2.lockPath == w.lockPath && w2.next > At(w2, p).inode;
    assert w2.lockPath != Some(At(w2, p).inode) && At(w2, p).held == None;
    TakeLockFile(w2, p, At(w2, p).inode);
  }

  lemma TakeLockFile(w: World, p: Pid, c: Inode)
    requires At(w, p) == ReadyCoord(c, None) && w.owner == map[] && c < w.next && w.lockPath != Some(c)
    ensures var v := Step(Step(w, Flock(p)), OpenOrCreate(p));
      At(v, p).ReadyLock? && v.lockPath == Some(At(v, p).inode) && v.lockPath.value !in v.owner
  {
    var w1 := Step(w, Flock(p));
    assert At(w1, p) == OpenLock(Looking(0), Some(c)) && w1.owner == map[c := p];
  }

  // ---------------------------------------------------------------- without coordination

  /** The same calls without the coordination lock: the second process locks the inode the
      first is about to unlink, and the third creates another. */
  function Collision(): seq<Event> {
    AcquireAlone(0) + (Calls(Begin(1), OpenOrCreate(1), Release(0), Unlock(0)) + ([Flock(1), LetGo(1)] + ([Unlink(0)] + AcquireAlone(2))))
  }

  lemma UncoordinatedIsUnsafe()
    ensures var w := Run(START.(coordinated := false), Collision());
      At(w, 1).Holding? && At(w, 2).Holding? && Held(At(w, 1)) != w.lockPath
  {
    hide Run, Step, AcquireAlone, Calls;
    var w0 := START.(coordinated := false);
    var w1 := World(false, None, Some(0), map[0 := 0], map[0 := Holding(0)], 1);
    var w2 := World(false, None, Some(0), map[], map[0 := Unlocked(0, None), 1 := ReadyLock(0, None)], 1);
    var w3 := World(false, None, Some(0), map[0 := 1], map[0 := Unlocked(0, None), 1 := Holding(0)], 1);
    var w4 := World(false, None, None, map[0 := 1], map[0 := Backing(None), 1 := Holding(0)], 1);
    Alone(w0, 0, 0);
    assert Run(w0, AcquireAlone(0)) == w1;
    SecondOpens(w1, w2);
    SecondLocks(w2, w3);
    FirstUnlinks(w3, w4);
    Alone(w4, 2, 1);
    RunConcat(w3, [Unlink(0)], AcquireAlone(2));
    RunConcat(w2, [Flock(1), LetGo(1)], [Unlink(0)] + AcquireAlone(2));
    RunConcat(w1, Calls(Begin(1), OpenOrCreate(1), Release(0), Unlock(0)), [Flock(1), LetGo(1)] + ([Unlink(0)] + AcquireAlone(2)));
    RunConcat(w0, AcquireAlone(0), Calls(Begin(1), OpenOrCreate(1), Release(0), Unlock(0)) + ([Flock(1), LetGo(1)] + ([Unlink(0)] + AcquireAlone(2))));
  }

  lemma Alone(w: World, p: Pid, i: Inode)
    requires !w.coordinated && At(w, p) == Idle && w.lockPath == None && w.next == i && i !in w.owner
    ensures Run(w, AcquireAlone(p)) == w.(lockPath := Some(i), owner := w.owner[i := p], pcs := w.pcs[p := Holding(i)], next := i + 1)
  {
    hide Run, Step;
    var w2 := w.(lockPath := Some(i), pcs := w.pcs[p := ReadyLock(i, None)], next := i + 1);
    AloneOpens(w, p, i);
    AloneLocks(w2, p, i);
    RunFour(w, Begin(p), OpenOrCreate(p), Flock(p), LetGo(p));
    assert w2.pcs[p := Holding(i)] == w.pcs[p := Holding(i)];
  }

  lemma AloneOpens(w: World, p: Pid, i: Inode)
    requires !w.coordinated && At(w, p) == Idle && w.lockPath == None && w.next == i
    ensures Step(Step(w, Begin(p)), OpenOrCreate(p)) == w.(lockPath := Some(i), pcs := w.pcs[p := ReadyLock(i, None)], next := i + 1)
  {
    var w1 := Step(w, Begin(p));
    assert w1.pcs[p := ReadyLock(i, None)] == w.pcs[p := ReadyLock(i, None)];
  }

  lemma AloneLocks(w: World, p: Pid, i: Inode)
    requires At(w, p) == ReadyLock(i, None) && i !in w.owner
    ensures Step(Step(w, Flock(p)), LetGo(p)) == w.(owner := w.owner[i := p], pcs := w.pcs[p := Holding(i)])
  {
    var w1 := Step(w, Flock(p));
    assert w1.pcs[p := Holding(i)] == w.pcs[p := Holding(i)];
  }

  lemma SecondOpens(w: World, v: World)
    requires w == World(false, None, Some(0), map[0 := 0], map[0 := Holding(0)], 1)
    requires v == World(false, None, Some(0), map[], map[0 := Unlocked(0, None), 1 := ReadyLock(0, None)], 1)
    ensures Run(w, Calls(Begin(1), OpenOrCreate(1), Release(0), Unlock(0))) == v
  {
    hide Run;
    RunFour(w, Begin(1), OpenOrCreate(1), Release(0), Unlock(0));
    var w2 := Step(Step(w, Begin(1)), OpenOrCreate(1));
    assert w2 == w.(pcs := map[0 := Holding(0), 1 := ReadyLock(0, None)]);
    assert Step(Step(w2, Release(0)), Unlock(0)) == v;
  }

  lemma SecondLocks(w: World, v: World)
    requires w == World(false, None, Some(0), map[], map[0 := Unlocked(0, None), 1 := ReadyLock(0, None)], 1)
    requires v == World(false, None, Some(0), map[0 := 1], map[0 := Unlocked(0, None), 1 := Holding(0)], 1)
    ensures Run(w, [Flock(1), LetGo(1)]) == v
  {
    hide Run;
    RunTwo(w, Flock(1), LetGo(1));
    assert Step(Step(w, Flock(1)), LetGo(1)) == v;
  }

  lemma FirstUnlinks(w: World, v: World)
    requires w == World(false, None, Some(0), map[0 := 1], map[0 := Unlocked(0, None), 1 := Holding(0)], 1)
    requires v == World(false, None, None, map[0 := 1], map[0 := Backing(None), 1 := Holding(0)], 1)
    ensures Run(w, [Unlink(0)]) == v
  {
    hide Run;
    RunOne(w, Unlink(0));
    assert v.pcs == w.pcs[0 := Backing(None)];
  }
}
