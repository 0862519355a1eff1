/**
 The single-instance guard (crates/termland-client/src/single_instance.rs) as
 the interleaved steps of any number of processes.

 A process opens the lock file, tries the lock, and as the holder removes the
 socket file, binds and listens; otherwise it connects and has the holder
 show its window. It may crash between any two steps: the kernel then
 drops its lock and closes its socket, and the socket file stays.
 */
module SingleInstance {
  import opened Prelude

  type Pid = nat
  /** A bound socket; every bind makes a new one. */
  type Sock = nat

  datatype Pc =
    | Starting                   // before opening the lock file
    | Locking                    // lock file open, lock not tried
    | Locked                     // holds the lock
    | Cleared                    // has removed the socket file, or found none
    | Bound(sock: Sock)          // socket file created, not listening yet
    | Serving(sock: Sock)        // primary
    | Asking                     // secondary, in the retry loop
    | Connected(sock: Sock)      // its connection was accepted by the kernel
    | Asked(sock: Sock)          // wrote "show"
    | Failed                     // returned an error
    | Dead

  datatype World = World(
    procs: map<Pid, Pc>,
    lock: Option<Pid>,            // holder of the flock
    path: Option<Sock>,           // what the socket file leads to
    owner: map<Sock, Pid>,        // every socket ever bound
    listening: set<Sock>,         // sockets that accept connections
    inbox: map<Sock, seq<Pid>>,   // requests written and not yet read
    shown: seq<(Pid, Pid)>)       // (primary, asker) for every window shown

  const BOOT := World(map[], None, None, map[], {}, map[], [])

  datatype Step =
    | Launch(p: Pid)
    | OpenLock(p: Pid)
    | TryLock(p: Pid)
    | RemoveSocket(p: Pid)
    | Bind(p: Pid, sock: Sock)
    | Listen(p: Pid)
    | Connect(p: Pid)
    | Retry(p: Pid)
    | GiveUp(p: Pid)
    | Write(p: Pid)
    | Serve(p: Pid)
    | OsError(p: Pid)
    | Crash(p: Pid)

  function At(w: World, p: Pid): Pc {
    if p in w.procs then w.procs[p] else Dead
  }

  /** Everything the kernel takes back when a process gives up its lock and socket. */
  function Release(w: World, p: Pid, pc: Pc): World {
    w.(procs := w.procs[p := pc],
       lock := if w.lock == Some(p) then None else w.lock,
       listening := set s | s in w.listening && !(s in w.owner && w.owner[s] == p))
  }

  /** Still acquiring: an error makes `acquire` return and drop the lock file. */
  predicate Acquiring(pc: Pc) {
    pc.Starting? || pc.Locking? || pc.Locked? || pc.Cleared? || pc.Bound?
  }

  function Move(w: World, p: Pid, pc: Pc): World {
    w.(procs := w.procs[p := pc])
  }

  /** The step can be taken. */
  predicate Enabled(w: World, s: Step) {
    match s
    case Launch(p) => p !in w.procs
    case OpenLock(p) => At(w, p).Starting?
    case TryLock(p) => At(w, p).Locking?
    case RemoveSocket(p) => At(w, p).Locked?
    case Bind(p, sock) => At(w, p).Cleared? && sock !in w.owner
    case Listen(p) => At(w, p).Bound?
    case Connect(p) => At(w, p).Asking? && w.path.Some? && w.path.value in w.listening
    case Retry(p) => At(w, p).Asking? && (w.path.None? || w.path.value !in w.listening)
    case GiveUp(p) => At(w, p).Asking? && (w.path.None? || w.path.value !in w.listening)
    case Write(p) => At(w, p).Connected?
    case Serve(p) =>
      var pc := At(w, p);
      pc.Serving? && pc.sock in w.inbox && w.inbox[pc.sock] != []
    case OsError(p) => Acquiring(At(w, p)) || At(w, p).Connected? || At(w, p).Asking?
    case Crash(p) => p in w.procs && !At(w, p).Dead?
  }

  function Do(w: World, s: Step): World
    requires Enabled(w, s)
  {
    match s
    case Launch(p) => Move(w, p, Starting)
    case OpenLock(p) => Move(w, p, Locking)
    // flock(LOCK_EX | LOCK_NB): EWOULDBLOCK makes a secondary.
    case TryLock(p) => if w.lock.None? then Move(w, p, Locked).(lock := Some(p)) else Move(w, p, Asking)
    // NotFound is not an error.
    case RemoveSocket(p) => Move(w, p, Cleared).(path := None)
    // An existing file makes bind fail.
    case Bind(p, sock) =>
      if w.path.Some? then Release(w, p, Failed)
      else Move(w, p, Bound(sock)).(path := Some(sock), owner := w.owner[sock := p], inbox := w.inbox[sock := []])
    case Listen(p) =>
      var sock := At(w, p).sock;
      Move(w, p, Serving(sock)).(listening := w.listening + {sock})
    case Connect(p) => Move(w, p, Connected(w.path.value))
    // NotFound or ConnectionRefused: sleep and try again, until the deadline.
    case Retry(p) => w
    case GiveUp(p) => Move(w, p, Failed)
    // To a socket that has been closed the write fails.
    case Write(p) =>
      var sock := At(w, p).sock;
      if sock in w.listening && sock in w.inbox then
        Move(w, p, Asked(sock)).(inbox := w.inbox[sock := w.inbox[sock] + [p]])
      else
        Move(w, p, Failed)
    case Serve(p) =>
      var sock := At(w, p).sock;
      w.(inbox := w.inbox[sock := w.inbox[sock][1..]], shown := w.shown + [(p, w.inbox[sock][0])])
    case OsError(p) => Release(w, p, Failed)
    case Crash(p) => Release(w, p, Dead)
  }

  /** Steps that cannot be taken change nothing. */
  function Next(w: World, s: Step): World {
    if Enabled(w, s) then Do(w, s) else w
  }

  function After(w: World, steps: seq<Step>): World {
    if |steps| == 0 then w else Next(After(w, steps[..|steps| - 1]), steps[|steps| - 1])
  }

  // ----- Invariant -----

  predicate HoldsLock(pc: Pc) {
    pc.Locked? || pc.Cleared? || pc.Bound? || pc.Serving?
  }

  /** Has not written a request (yet, or ever). */
  predicate Silent(w: World, p: Pid) {
    p !in w.procs || HoldsLock(w.procs[p])
    || w.procs[p].Starting? || w.procs[p].Locking? || w.procs[p].Asking? || w.procs[p].Connected?
  }

  /** The lock, the socket file and the listening sockets agree with what processes are doing. */
  ghost predicate Consistent(w: World) {
    && (forall p :: p in w.procs ==> (HoldsLock(w.procs[p]) <==> w.lock == Some(p)))
    && (w.lock.Some? ==> w.lock.value in w.procs)
    && (forall p :: p in w.procs && w.procs[p].Cleared? ==> w.path.None?)
    && (forall p :: p in w.procs && (w.procs[p].Bound? || w.procs[p].Serving?) ==>
          w.path == Some(w.procs[p].sock) && w.procs[p].sock in w.owner && w.owner[w.procs[p].sock] == p)
    && (forall s :: s in w.listening ==> s in w.owner && At(w, w.owner[s]) == Serving(s))
    && (forall p :: p in w.procs && w.procs[p].Serving? ==> w.procs[p].sock in w.listening)
    && (w.path.Some? ==> w.path.value in w.owner)
    && w.inbox.Keys == w.owner.Keys
  }

  /** `p` asked through the `i`-th unread request on socket `s`. */
  ghost predicate Unread(w: World, s: Sock, i: nat, p: Pid) {
    s in w.inbox && i < |w.inbox[s]| && w.inbox[s][i] == p
  }

  /** `p` was the asker for the `i`-th window shown. */
  ghost predicate ShownTo(w: World, i: nat, p: Pid) {
    i < |w.shown| && w.shown[i].1 == p
  }

  /** No process has two requests unread or answered, and a silent one has none. */
  ghost predicate AskedOnce(w: World) {
    && (forall p, s, i :: Unread(w, s, i, p) ==> !Silent(w, p))
    && (forall p, i :: ShownTo(w, i, p) ==> !Silent(w, p))
    && (forall p, s, i, t, j :: Unread(w, s, i, p) && Unread(w, t, j, p) ==> s == t && i == j)
    && (forall p, i, j :: ShownTo(w, i, p) && ShownTo(w, j, p) ==> i == j)
    && (forall p, s, i, j :: Unread(w, s, i, p) ==> !ShownTo(w, j, p))
  }

  lemma ReleaseConsistent(w: World, p: Pid, pc: Pc)
    requires Consistent(w) && p in w.procs && (pc.Failed? || pc.Dead?)
    ensures Consistent(Release(w, p, pc))
  {
    var after := Release(w, p, pc);
    forall s | s in after.listening ensures s in after.owner && At(after, after.owner[s]) == Serving(s) {
      assert s in w.listening;
    }
    forall q | q in after.procs && after.procs[q].Serving? ensures after.procs[q].sock in after.listening {
      assert w.procs[q].sock in w.listening;
    }
  }

  /** A move between states that neither hold the lock nor the socket. */
  lemma MoveConsistent(w: World, p: Pid, pc: Pc)
    requires Consistent(w) && !HoldsLock(pc) && w.lock != Some(p)
    ensures Consistent(Move(w, p, pc))
  {
    var after := Move(w, p, pc);
    assert forall q :: q in w.procs && q != p ==> after.procs[q] == w.procs[q];
    forall s | s in after.listening ensures s in after.owner && At(after, after.owner[s]) == Serving(s) {
      assert At(w, w.owner[s]) == Serving(s);
    }
  }

  lemma HolderStepConsistent(w: World, s: Step)
    requires Consistent(w) && Enabled(w, s) && (s.RemoveSocket? || s.Bind? || s.Listen?)
    ensures Consistent(Do(w, s))
  {
    var after := Do(w, s);
    assert forall q :: q in w.procs && q != s.p ==> after.procs[q] == w.procs[q] && !HoldsLock(w.procs[q]);
    ListenersHoldTheLock(w);
    assert w.listening == {};
  }

  lemma ListenersHoldTheLock(w: World)
    requires Consistent(w)
    ensures forall t :: t in w.listening ==>
              t in w.owner && w.owner[t] in w.procs && w.procs[w.owner[t]].Serving? && HoldsLock(w.procs[w.owner[t]])
  {
  }

  lemma TryLockConsistent(w: World, p: Pid)
    requires Consistent(w) && Enabled(w, TryLock(p))
    ensures Consistent(Do(w, TryLock(p)))
  {
    var after := Do(w, TryLock(p));
    assert forall q :: q in w.procs && q != p ==> after.procs[q] == w.procs[q];
    forall s | s in after.listening ensures At(after, after.owner[s]) == Serving(s) {
      assert At(w, w.owner[s]) == Serving(s);
    }
  }

  lemma WriteConsistent(w: World, p: Pid)
    requires Consistent(w) && Enabled(w, Write(p))
    ensures Consistent(Do(w, Write(p)))
  {
    var sock := At(w, p).sock;
    MoveConsistent(w, p, Failed);
    MoveConsistent(w, p, Asked(sock));
    if sock in w.listening && sock in w.inbox {
      InboxConsistent(Move(w, p, Asked(sock)), w.inbox[sock := w.inbox[sock] + [p]], w.shown);
    }
  }

  /** The requests in transit play no part in consistency. */
  lemma InboxConsistent(w: World, inbox: map<Sock, seq<Pid>>, shown: seq<(Pid, Pid)>)
    requires Consistent(w) && inbox.Keys == w.inbox.Keys
    ensures Consistent(w.(inbox := inbox, shown := shown))
  {
    var after := w.(inbox := inbox, shown := shown);
    forall s | s in after.listening ensures s in after.owner && At(after, after.owner[s]) == Serving(s) {
      assert At(w, w.owner[s]) == Serving(s);
    }
  }

  lemma ServeConsistent(w: World, p: Pid)
    requires Consistent(w) && Enabled(w, Serve(p))
    ensures Consistent(Do(w, Serve(p)))
  {
    var sock := At(w, p).sock;
    InboxConsistent(w, w.inbox[sock := w.inbox[sock][1..]], w.shown + [(p, w.inbox[sock][0])]);
  }

  lemma StepConsistent(w: World, s: Step)
    requires Consistent(w)
    ensures Consistent(Next(w, s))
  {
    if Enabled(w, s) {
      match s {
        case Launch(p) => MoveConsistent(w, p, Starting);
        case OpenLock(p) => MoveConsistent(w, p, Locking);
        case TryLock(p) => TryLockConsistent(w, p);
        case RemoveSocket(p) => HolderStepConsistent(w, s);
        case Bind(p, sock) => HolderStepConsistent(w, s);
        case Listen(p) => HolderStepConsistent(w, s);
        case Connect(p) => MoveConsistent(w, p, Connected(w.path.value));
        case Retry(p) =>
        case GiveUp(p) => MoveConsistent(w, p, Failed);
        case Write(p) => WriteConsistent(w, p);
        case Serve(p) => ServeConsistent(w, p);
        case OsError(p) => ReleaseConsistent(w, p, Failed);
        case Crash(p) => ReleaseConsistent(w, p, Dead);
      }
    }
  }

  lemma {:induction false} RunConsistent(steps: seq<Step>)
    ensures Consistent(After(BOOT, steps))
  {
    if |steps| > 0 {
      RunConsistent(steps[..|steps| - 1]);
      StepConsistent(After(BOOT, steps[..|steps| - 1]), steps[|steps| - 1]);
    }
  }

  // ----- The claims -----

  /** At most one process holds the lock, and hence at most one is primary. */
  lemma OneHolder(steps: seq<Step>, p: Pid, q: Pid)
    requires var w := After(BOOT, steps); HoldsLock(At(w, p)) && HoldsLock(At(w, q))
    ensures p == q
  {
    RunConsistent(steps);
  }

  /** Once a holder has bound, no step of another process unlinks or rebinds the path, or closes its socket. */
  lemma PathIsSafe(w: World, s: Step, p: Pid)
    requires Consistent(w) && s.p != p
    requires At(w, p).Bound? || At(w, p).Serving?
    ensures var after := Next(w, s);
            && after.path == w.path == Some(At(w, p).sock) && At(after, p) == At(w, p)
            && (At(w, p).Serving? ==> At(w, p).sock in after.listening)
  {
    OthersStay(w, s, p);
    StepConsistent(w, s);
    hide Do, Enabled, Next;
  }

  /** A step moves no process but its own. */
  lemma OthersStay(w: World, s: Step, p: Pid)
    requires s.p != p
    ensures At(Next(w, s), p) == At(w, p)
  {
  }

  /** Every successful connect reaches the lock holder, which is serving on that socket. */
  lemma ConnectReachesHolder(w: World, q: Pid)
    requires Consistent(w) && Enabled(w, Connect(q))
    ensures var sock := w.path.value;
            && sock in w.owner && w.lock == Some(w.owner[sock]) && At(w, w.owner[sock]) == Serving(sock)
            && At(Do(w, Connect(q)), q) == Connected(sock)
  {
    var sock := w.path.value;
    assert At(w, w.owner[sock]) == Serving(sock);
  }

  /** A window is shown only by the lock holder. */
  lemma OnlyHolderShows(w: World, p: Pid)
    requires Consistent(w) && Enabled(w, Serve(p))
    ensures w.lock == Some(p)
  {
  }

  /** Without an error from the system, acquiring never fails: the bind finds no file in its way. */
  lemma AcquireFailsOnlyOnError(w: World, s: Step, p: Pid)
    requires Consistent(w) && Acquiring(At(w, p)) && At(Next(w, s), p).Failed?
    ensures s == OsError(p)
  {
  }

  /** How far a lock holder is from serving. */
  function Distance(pc: Pc): nat {
    if pc.Locked? then 3 else if pc.Cleared? then 2 else if pc.Bound? then 1 else 0
  }

  /** The next step of a lock holder on its way to serving. */
  function Onward(pc: Pc, p: Pid, sock: Sock): Step {
    if pc.Locked? then RemoveSocket(p) else if pc.Cleared? then Bind(p, sock) else Listen(p)
  }

  /** From any state a lock holder's next step can be taken and brings it one step nearer to serving. */
  lemma HolderAdvances(w: World, p: Pid, sock: Sock)
    requires Consistent(w) && sock !in w.owner
    requires HoldsLock(At(w, p)) && !At(w, p).Serving?
    ensures var s := Onward(At(w, p), p, sock);
            Enabled(w, s) && HoldsLock(At(Do(w, s), p)) && Distance(At(Do(w, s), p)) == Distance(At(w, p)) - 1
  {
  }

  /** Steps of other processes neither delay the holder nor disable its next step. */
  lemma OthersDoNotDelay(w: World, s: Step, p: Pid)
    requires Consistent(w) && HoldsLock(At(w, p)) && s.p != p
    ensures At(Next(w, s), p) == At(w, p) && Next(w, s).lock == Some(p)
  {
  }

  /** With the lock free, a new process gets it in three steps. */
  lemma Claim(w: World, p: Pid)
    requires w.lock.None? && p !in w.procs
    ensures var after := After(w, [Launch(p), OpenLock(p), TryLock(p)]);
            At(after, p) == Locked && after.owner == w.owner
  {
    AfterMore(w, [], Launch(p));
    AfterMore(w, [Launch(p)], OpenLock(p));
    AfterMore(w, [Launch(p), OpenLock(p)], TryLock(p));
    assert [] + [Launch(p)] == [Launch(p)];
    assert [Launch(p)] + [OpenLock(p)] == [Launch(p), OpenLock(p)];
    assert [Launch(p), OpenLock(p)] + [TryLock(p)] == [Launch(p), OpenLock(p), TryLock(p)];
  }

  /** From the lock to serving in three more, whatever file is in the way. */
  lemma Install(w: World, p: Pid, sock: Sock)
    requires At(w, p) == Locked && sock !in w.owner
    ensures var after := After(w, [RemoveSocket(p), Bind(p, sock), Listen(p)]);
            At(after, p) == Serving(sock) && after.path == Some(sock) && sock in after.listening
  {
    AfterMore(w, [], RemoveSocket(p));
    AfterMore(w, [RemoveSocket(p)], Bind(p, sock));
    AfterMore(w, [RemoveSocket(p), Bind(p, sock)], Listen(p));
    assert [] + [RemoveSocket(p)] == [RemoveSocket(p)];
    assert [RemoveSocket(p)] + [Bind(p, sock)] == [RemoveSocket(p), Bind(p, sock)];
    assert [RemoveSocket(p), Bind(p, sock)] + [Listen(p)] == [RemoveSocket(p), Bind(p, sock), Listen(p)];
  }

  /**
   A stale socket file never keeps the next process from becoming primary:
   whenever the lock is free, a new process that runs undisturbed ends up serving.
   */
  lemma TakeOver(w: World, p: Pid, sock: Sock)
    requires w.lock.None? && p !in w.procs && sock !in w.owner
    ensures var claimed := After(w, [Launch(p), OpenLock(p), TryLock(p)]);
            var after := After(claimed, [RemoveSocket(p), Bind(p, sock), Listen(p)]);
            At(after, p) == Serving(sock) && after.path == Some(sock) && sock in after.listening
  {
    Claim(w, p);
    Install(After(w, [Launch(p), OpenLock(p), TryLock(p)]), p, sock);
  }

  lemma AfterMore(w: World, steps: seq<Step>, s: Step)
    ensures After(w, steps + [s]) == Next(After(w, steps), s)
  {
    assert (steps + [s])[..|steps|] == steps;
  }

  lemma StepAskedOnce(w: World, s: Step)
    requires Consistent(w) && AskedOnce(w)
    ensures AskedOnce(Next(w, s))
  {
    if Enabled(w, s) {
      match s {
        case Write(p) => WriteAsksOnce(w, p);
        case Serve(p) => ServeAsksOnce(w, p);
        case Bind(p, sock) => BindAsksOnce(w, p, sock);
        case _ => QuietStep(w, s);
      }
    }
  }

  /** Steps that leave the requests alone and let no process fall silent again. */
  lemma QuietStep(w: World, s: Step)
    requires Consistent(w) && AskedOnce(w) && Enabled(w, s) && !s.Write? && !s.Serve? && !s.Bind?
    ensures AskedOnce(Do(w, s))
  {
    var after := Do(w, s);
    assert after.inbox == w.inbox && after.shown == w.shown;
    assert forall q :: Silent(after, q) ==> Silent(w, q);
    assert forall p, t, i :: Unread(after, t, i, p) ==> Unread(w, t, i, p);
    assert forall p, i :: ShownTo(after, i, p) ==> ShownTo(w, i, p);
  }

  lemma BindAsksOnce(w: World, p: Pid, sock: Sock)
    requires Consistent(w) && AskedOnce(w) && Enabled(w, Bind(p, sock))
    ensures AskedOnce(Do(w, Bind(p, sock)))
  {
    var after := Do(w, Bind(p, sock));
    assert forall q :: Silent(after, q) ==> Silent(w, q);
    assert forall q, t, i :: Unread(after, t, i, q) ==> Unread(w, t, i, q);
    assert forall q, i :: ShownTo(after, i, q) ==> ShownTo(w, i, q);
  }

  lemma WriteAsksOnce(w: World, p: Pid)
    requires Consistent(w) && AskedOnce(w) && Enabled(w, Write(p))
    ensures AskedOnce(Do(w, Write(p)))
  {
    var after, sock := Do(w, Write(p)), At(w, p).sock;
    assert Silent(w, p);
    assert forall q :: Silent(after, q) ==> Silent(w, q) && q != p;
    assert forall q, i :: ShownTo(after, i, q) ==> ShownTo(w, i, q);
    forall q, t, i | Unread(after, t, i, q)
      ensures if q == p then t == sock && i == |w.inbox[sock]| else Unread(w, t, i, q)
    {
      if !(t == sock && i == |w.inbox[sock]|) {
        assert Unread(w, t, i, q);
      }
    }
  }

  lemma ServeAsksOnce(w: World, p: Pid)
    requires Consistent(w) && AskedOnce(w) && Enabled(w, Serve(p))
    ensures AskedOnce(Do(w, Serve(p)))
  {
    var after, sock := Do(w, Serve(p)), At(w, p).sock;
    var asker := w.inbox[sock][0];
    assert Unread(w, sock, 0, asker);
    forall q, t, i: nat | Unread(after, t, i, q)
      ensures Unread(w, t, if t == sock then i + 1 else i, q) && q != asker
    {
      var was: nat := if t == sock then i + 1 else i;
      assert Unread(w, t, was, q);
    }
    forall q, i | ShownTo(after, i, q) ensures if i == |w.shown| then q == asker else ShownTo(w, i, q) {
    }
    assert forall q :: Silent(after, q) ==> Silent(w, q);
  }

  /** Over every interleaving each process that asks is answered at most once. */
  lemma {:induction false} ShownAtMostOnce(steps: seq<Step>)
    ensures AskedOnce(After(BOOT, steps))
    ensures var shown := After(BOOT, steps).shown;
            forall i, j :: 0 <= i < j < |shown| ==> shown[i].1 != shown[j].1
  {
    if |steps| > 0 {
      var front := steps[..|steps| - 1];
      ShownAtMostOnce(front);
      RunConsistent(front);
      StepAskedOnce(After(BOOT, front), steps[|steps| - 1]);
    }
    var w := After(BOOT, steps);
    forall i, j | 0 <= i < j < |w.shown| ensures w.shown[i].1 != w.shown[j].1 {
      assert ShownTo(w, i, w.shown[i].1) && ShownTo(w, j, w.shown[j].1);
    }
  }

  // ----- Nothing asked is lost -----

  /** `p`'s request on socket `s` has yet to be read there, or the process that bound `s` showed a window for it. */
  ghost predicate Heeded(w: World, s: Sock, p: Pid) {
    s in w.owner && ((exists i: nat :: Unread(w, s, i, p)) || (exists i: nat :: ShownBy(w, i, w.owner[s], p)))
  }

  ghost predicate ShownBy(w: World, i: nat, primary: Pid, p: Pid) {
    i < |w.shown| && w.shown[i] == (primary, p)
  }

  /** What was written stays unread until its primary shows a window for it. */
  lemma HeededStays(w: World, s: Step, sock: Sock, p: Pid)
    requires Consistent(w) && Heeded(w, sock, p)
    ensures Heeded(Next(w, s), sock, p)
  {
    var after := Next(w, s);
    OwnersStay(w, s, sock);
    if i: nat :| ShownBy(w, i, w.owner[sock], p) {
      assert ShownBy(after, i, w.owner[sock], p);
    } else {
      var i: nat :| Unread(w, sock, i, p);
      if s.Serve? && Enabled(w, s) && At(w, s.p).sock == sock {
        ServeHeeds(w, s.p, i, p);
      } else {
        assert Unread(after, sock, i, p);
      }
    }
  }

  lemma OwnersStay(w: World, s: Step, sock: Sock)
    requires sock in w.owner
    ensures var after := Next(w, s);
            && sock in after.owner && after.owner[sock] == w.owner[sock]
            && w.shown <= after.shown
  {
  }

  /** Serving shows the oldest request and moves the others up. */
  lemma ServeHeeds(w: World, primary: Pid, i: nat, p: Pid)
    requires Consistent(w) && Enabled(w, Serve(primary)) && Unread(w, At(w, primary).sock, i, p)
    ensures var after, sock := Do(w, Serve(primary)), At(w, primary).sock;
            if i == 0 then ShownBy(after, |w.shown|, primary, p) else Unread(after, sock, i - 1, p)
  {
  }

  /** A write to a socket that listens is a request in its inbox. */
  lemma WriteIsHeeded(w: World, p: Pid)
    requires Consistent(w) && Enabled(w, Write(p)) && At(w, p).sock in w.listening
    ensures Do(w, Write(p)).procs[p] == Asked(At(w, p).sock) && Heeded(Do(w, Write(p)), At(w, p).sock, p)
  {
    var sock := At(w, p).sock;
    assert Unread(Do(w, Write(p)), sock, |w.inbox[sock]|, p);
  }

  /** Everyone who has asked. */
  ghost predicate AllHeeded(w: World) {
    forall p :: At(w, p).Asked? ==> Heeded(w, At(w, p).sock, p)
  }

  lemma StepHeeds(w: World, s: Step)
    requires Consistent(w) && AllHeeded(w)
    ensures AllHeeded(Next(w, s))
  {
    var after := Next(w, s);
    forall p | At(after, p).Asked?
      ensures Heeded(after, At(after, p).sock, p)
    {
      if At(w, p) == At(after, p) {
        HeededStays(w, s, At(w, p).sock, p);
      } else {
        assert s == Write(p) && Enabled(w, s);
        WriteIsHeeded(w, p);
      }
    }
  }

  /** Over every interleaving each process that has asked is still in its primary's inbox, or was shown a window. */
  lemma {:induction false} NothingIsLost(steps: seq<Step>)
    ensures AllHeeded(After(BOOT, steps))
  {
    if |steps| > 0 {
      var front := steps[..|steps| - 1];
      NothingIsLost(front);
      RunConsistent(front);
      StepHeeds(After(BOOT, front), steps[|steps| - 1]);
    }
  }

  function Serves(primary: Pid, n: nat): seq<Step> {
    seq(n, _ => Serve(primary))
  }

  /** Reading goes on in turn: the request at position `i` is answered by the primary's `i + 1`st. */
  lemma {:induction false} AnsweredInTurn(w: World, primary: Pid, i: nat, p: Pid)
    requires Consistent(w) && At(w, primary).Serving? && Unread(w, At(w, primary).sock, i, p)
    ensures ShownBy(After(w, Serves(primary, i + 1)), |w.shown| + i, primary, p)
    decreases i
  {
    hide Consistent;
    var sock := At(w, primary).sock;
    var next := Do(w, Serve(primary));
    StepConsistent(w, Serve(primary));
    ServeHeeds(w, primary, i, p);
    FirstThen(w, Serve(primary), Serves(primary, i));
    assert Serves(primary, i + 1) == [Serve(primary)] + Serves(primary, i);
    if i > 0 {
      AnsweredInTurn(next, primary, i - 1, p);
    }
  }

  lemma {:induction false} FirstThen(w: World, s: Step, steps: seq<Step>)
    ensures After(w, [s] + steps) == After(Next(w, s), steps)
  {
    if |steps| == 0 {
      assert [s] + steps == [s] && [s][..0] == [];
    } else {
      var front := steps[..|steps| - 1];
      FirstThen(w, s, front);
      assert ([s] + steps)[..|steps|] == [s] + front;
    }
  }

  /** Who has asked a primary that is still serving gets a window, once it has read what came before. */
  lemma AskerIsShown(w: World, p: Pid) returns (n: nat)
    requires Consistent(w) && AllHeeded(w) && At(w, p).Asked? && At(w, p).sock in w.listening
    ensures var primary := w.owner[At(w, p).sock];
            exists i: nat :: ShownBy(After(w, Serves(primary, n)), i, primary, p)
  {
    var sock := At(w, p).sock;
    var primary := w.owner[sock];
    assert At(w, primary) == Serving(sock);
    if i: nat :| ShownBy(w, i, primary, p) {
      n := 0;
      assert After(w, Serves(primary, 0)) == w;
    } else {
      var i: nat :| Unread(w, sock, i, p);
      AnsweredInTurn(w, primary, i, p);
      n := i + 1;
      assert ShownBy(After(w, Serves(primary, n)), |w.shown| + i, primary, p);
    }
  }

  // ----- A second launch -----

  /** What a launch does that finds the lock held: it asks. */
  function AskSteps(p: Pid): seq<Step> {
    [Launch(p), OpenLock(p), TryLock(p), Connect(p), Write(p)]
  }

  /** Whoever loses the lock goes on to ask the one that holds it, and keeps asking until that one listens. */
  lemma LoserAsks(w: World, p: Pid)
    requires At(w, p).Locking? && w.lock.Some?
    ensures At(Next(w, TryLock(p)), p) == Asking && Next(w, TryLock(p)).lock == w.lock
    ensures forall v :: At(v, p) == Asking ==> Enabled(v, Connect(p)) != Enabled(v, Retry(p))
    ensures forall v :: At(v, p) == Asking ==> At(Next(v, Retry(p)), p) == Asking
  {
  }

  lemma ServesUnderLock(w: World, primary: Pid)
    requires Consistent(w) && At(w, primary).Serving?
    ensures var sock := At(w, primary).sock;
            && w.lock == Some(primary) && w.path == Some(sock) && sock in w.listening && sock in w.inbox
            && sock in w.owner && w.owner[sock] == primary
  {
  }

  /** Launch, open the lock file, lose: the process asks, and the rest of the world is as it was. */
  lemma LosesTheLock(w: World, p: Pid)
    requires w.lock.Some? && p !in w.procs
    ensures After(w, [Launch(p), OpenLock(p), TryLock(p)]) == Move(w, p, Asking)
  {
    AfterMore(w, [], Launch(p));
    AfterMore(w, [Launch(p)], OpenLock(p));
    AfterMore(w, [Launch(p), OpenLock(p)], TryLock(p));
    assert [] + [Launch(p)] == [Launch(p)];
    assert [Launch(p)] + [OpenLock(p)] == [Launch(p), OpenLock(p)];
    assert [Launch(p), OpenLock(p)] + [TryLock(p)] == [Launch(p), OpenLock(p), TryLock(p)];
    assert w.procs[p := Starting][p := Locking][p := Asking] == w.procs[p := Asking];
  }

  /** And is heard: its request is the last in the primary's inbox. */
  lemma AsksThePrimary(w: World, p: Pid, primary: Pid)
    requires Consistent(w) && At(w, primary).Serving? && p !in w.procs
    ensures var asked, sock := After(w, AskSteps(p)), At(w, primary).sock;
            && At(asked, p) == Asked(sock) && At(asked, primary) == At(w, primary) && asked.shown == w.shown
            && sock in w.inbox && Unread(asked, sock, |w.inbox[sock]|, p)
  {
    ServesUnderLock(w, primary);
    LosesTheLock(w, p);
    assert primary != p;
    hide After, Next, Consistent;
    var lost := [Launch(p), OpenLock(p), TryLock(p)];
    AfterMore(w, lost, Connect(p));
    AfterMore(w, lost + [Connect(p)], Write(p));
    assert lost + [Connect(p)] + [Write(p)] == AskSteps(p);
    ConnectsAndWrites(Move(w, p, Asking), p, At(w, primary).sock);
  }

  lemma ConnectsAndWrites(w: World, p: Pid, sock: Sock)
    requires At(w, p) == Asking && w.path == Some(sock) && sock in w.listening && sock in w.inbox
    ensures var after := Next(Next(w, Connect(p)), Write(p));
            && At(after, p) == Asked(sock) && (forall q :: q != p ==> At(after, q) == At(w, q))
            && after.shown == w.shown && Unread(after, sock, |w.inbox[sock]|, p)
  {
    var connected := Next(w, Connect(p));
    assert connected == Move(w, p, Connected(sock));
  }

  lemma {:induction false} AfterConsistent(w: World, steps: seq<Step>)
    requires Consistent(w)
    ensures Consistent(After(w, steps))
  {
    hide Consistent;
    if |steps| > 0 {
      AfterConsistent(w, steps[..|steps| - 1]);
      StepConsistent(After(w, steps[..|steps| - 1]), steps[|steps| - 1]);
    }
  }

  /**
   With a primary serving, a new process that runs undisturbed has asked it, and
   once the primary has read what came before and then this request, a window
   has been shown for it.
   */
  lemma SecondLaunchIsShown(w: World, p: Pid, primary: Pid)
    requires Consistent(w) && At(w, primary).Serving? && p !in w.procs
    ensures var asked, sock := After(w, AskSteps(p)), At(w, primary).sock;
            && At(asked, p) == Asked(sock) && sock in w.inbox
            && var unread := |w.inbox[sock]|;
               ShownBy(After(asked, Serves(primary, unread + 1)), |w.shown| + unread, primary, p)
  {
    hide Consistent, AskSteps;
    AsksThePrimary(w, p, primary);
    AfterConsistent(w, AskSteps(p));
    AnsweredInTurn(After(w, AskSteps(p)), primary, |w.inbox[At(w, primary).sock]|, p);
  }

  // ----- Ends -----

  /** A process that dies lets go of its lock and its sockets, and leaves the socket file behind. */
  lemma CrashLetsGo(w: World, p: Pid)
    requires Consistent(w) && Enabled(w, Crash(p))
    ensures var after := Next(w, Crash(p));
            && At(after, p) == Dead && after.path == w.path && after.shown == w.shown
            && (w.lock == Some(p) ==> after.lock == None && after.listening == {})
            && (w.lock != Some(p) ==> after.lock == w.lock && after.listening == w.listening)
  {
    ListenersHoldTheLock(w);
  }

  /** An error while acquiring or asking, a file in the way of the bind, and giving up are reported, and nothing is kept. */
  lemma ErrorsAreReported(w: World, s: Step)
    requires Consistent(w) && Enabled(w, s)
    requires s.OsError? || s.GiveUp? || (s.Bind? && w.path.Some?)
    ensures var after := Next(w, s);
            && At(after, s.p) == Failed && after.lock != Some(s.p) && after.path == w.path && after.shown == w.shown
            && forall t :: t in after.listening ==> after.owner[t] != s.p
  {
    ListenersHoldTheLock(w);
    StepConsistent(w, s);
    ListenersHoldTheLock(Next(w, s));
  }

  /** After a primary crashed, its stale socket file does not keep a new process from taking its place. */
  lemma RestartAfterCrash(w: World, primary: Pid, p: Pid, sock: Sock)
    requires Consistent(w) && At(w, primary).Serving? && p !in w.procs && sock !in w.owner
    ensures var crashed := Next(w, Crash(primary));
            var claimed := After(crashed, [Launch(p), OpenLock(p), TryLock(p)]);
            var after := After(claimed, [RemoveSocket(p), Bind(p, sock), Listen(p)]);
            crashed.path.Some? && At(after, p) == Serving(sock) && after.path == Some(sock) && sock in after.listening
  {
    CrashLetsGo(w, primary);
    TakeOver(Next(w, Crash(primary)), p, sock);
  }
}
