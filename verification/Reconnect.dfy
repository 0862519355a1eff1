/**
 The client's reconnect engine (`connect`, `run_with_reconnect` and the exits of
 `session_loop` in crates/termland-client/src/connection.rs).

 The class `Client` is the engine, driven by a script of everything the outside
 world does to it. What it must do is said over the log of a run: `Next` gives
 the one event of its own that the log so far calls for, or nothing while it
 waits. Commands arrive at any moment, and once the client has found its channel
 empty and turned to the stream (`Polled`), the stream may win against commands
 that arrived since. The grammar of runs is then proved from the log alone.
 */
module Reconnect {
  import opened Prelude

  /** What the window asks of the connection; everything but the two ways to stop is input. */
  datatype Command = Disconnect | EndSession | Input(payload: nat)

  /** A command in the channel, known by its place in the log. */
  datatype Item = Item(at: nat, cmd: Command)

  datatype Params = Params(attach: Option<string>, reconnect: bool)

  datatype Why = ByServer(reason: string) | ByUser(closed: string) | ReconnectDisabled

  datatype Event =
    // the outside world
    | Opened | OpenFailed                  // the answer to opening a transport
    | Greeted                              // handshake and authentication went through
    | Ready(id: string)                    // SessionReady
    | Closed                               // error, or end of stream with no SessionEnd
    | ServerEnded(reason: string)          // SessionEnd from the server
    | Message                              // anything else on the stream, or its 100 ms tick
    | Arrived(cmd: Command)                // the window queues a command
    // the client
    | Opening(mayPrompt: bool)
    | Requested(attach: Option<string>)    // SessionAttach, or SessionCreate
    | Sent(item: Item)
    | Polled                               // found the channel empty, and now waits for whichever comes first
    | Drained
    | Reconnecting(attempt: nat)
    | Slept(secs: nat)
    | Quit
    | SessionEnded(why: Why)
    | ConnectFailed

  /** One thing the outside world does; all but a queued command mean what the client waits for. */
  datatype Happening = Accept | Refuse | SessionReady(id: string) | End(reason: string) | Other | Queue(cmd: Command)

  // ----- Backoff -----

  function Shifted(shift: nat): (secs: nat)
    ensures secs > 0
  {
    if shift == 0 then 1 else 2 * Shifted(shift - 1)
  }

  /** Seconds before the given 1-based attempt. */
  function Backoff(attempt: nat): nat {
    var retries := if attempt > 0 then attempt - 1 else 0;
    var secs := Shifted(if retries < 5 then retries else 5);
    if secs < 30 then secs else 30
  }

  /** Never shorter on a later attempt, between 1 and 30 s, 30 s from the sixth attempt on and not before. */
  lemma BackoffGrows(attempt: nat, later: nat)
    requires 1 <= attempt <= later
    ensures 1 <= Backoff(attempt) <= Backoff(later) <= 30
    ensures Backoff(attempt) == 30 <==> attempt >= 6
    ensures attempt < 6 ==> Backoff(attempt) == Shifted(attempt - 1)
  {
    assert Shifted(2) == 4 && Shifted(3) == 8;
    assert Shifted(4) == 16 && Shifted(5) == 32;
  }

  /** The documented table (1, 2, 4, 8, then 30) misses a step: the fifth wait is 16 s. */
  lemma FifthWait()
    ensures Backoff(4) == 8 && Backoff(5) == 16 && Backoff(6) == 30
  {
    assert Shifted(3) == 8;
    assert Shifted(4) == 2 * Shifted(3) && Shifted(5) == 2 * Shifted(4);
  }

  // ----- What a log says -----

  predicate IsEnd(e: Event) {
    e.Quit? || e.SessionEnded? || e.ConnectFailed?
  }

  /** The latest event other than the arrival of a command. */
  function Last(log: seq<Event>): Option<Event> {
    if |log| == 0 then None
    else if log[|log| - 1].Arrived? then Last(log[..|log| - 1])
    else Some(log[|log| - 1])
  }

  predicate Ended(log: seq<Event>) {
    |log| > 0 && IsEnd(log[|log| - 1])
  }

  predicate EverReady(log: seq<Event>) {
    exists k :: 0 <= k < |log| && log[k].Ready?
  }

  /** Attempts announced since the last SessionReady. */
  function Attempts(log: seq<Event>): nat {
    if |log| == 0 then 0
    else match log[|log| - 1]
      case Ready(_) => 0
      case Reconnecting(_) => Attempts(log[..|log| - 1]) + 1
      case _ => Attempts(log[..|log| - 1])
  }

  /** The latest session id the server gave; an empty one says nothing. */
  function LatestId(log: seq<Event>): Option<string> {
    if |log| == 0 then None
    else match log[|log| - 1]
      case Ready(id) => if id != "" then Some(id) else LatestId(log[..|log| - 1])
      case _ => LatestId(log[..|log| - 1])
  }

  /** The session a connection should ask for. */
  function Target(params: Params, log: seq<Event>): Option<string> {
    if LatestId(log).Some? then LatestId(log) else params.attach
  }

  /** Commands queued and neither sent nor dropped, oldest first. */
  function Waiting(log: seq<Event>): seq<Item> {
    if |log| == 0 then [] else WaitingAfter(Waiting(log[..|log| - 1]), |log| - 1, log[|log| - 1])
  }

  /** One event's effect on what waits. */
  function WaitingAfter(before: seq<Item>, at: nat, e: Event): seq<Item> {
    match e
    case Arrived(cmd) => before + [Item(at, cmd)]
    case Drained => []
    case Sent(_) => if before == [] then [] else before[1..]
    case _ => before
  }

  /** The client's own next event, or nothing when it can only wait for the outside world. */
  function Next(params: Params, log: seq<Event>): Option<Event> {
    match Last(log)
    case None => Some(Opening(true))
    case Some(e) =>
      match e
      case OpenFailed => Some(if EverReady(log) then Reconnecting(Attempts(log) + 1) else ConnectFailed)
      case Greeted => Some(Requested(Target(params, log)))
      case Ready(_) => Some(NextSend(log))
      case Message => Some(NextSend(log))
      case Polled => if Waiting(log) == [] then None else Some(NextSend(log))
      case Sent(item) =>
        (match item.cmd
         case Disconnect => Some(Quit)
         case EndSession => Some(SessionEnded(ByUser(IdOrEmpty(LatestId(log)))))
         case Input(_) => Some(NextSend(log)))
      case ServerEnded(reason) => Some(SessionEnded(ByServer(reason)))
      case Closed =>
        Some(if !EverReady(log) then ConnectFailed
             else if !params.reconnect then SessionEnded(ReconnectDisabled)
             else Drained)
      case Drained => Some(Reconnecting(Attempts(log) + 1))
      case Reconnecting(n) => Some(Slept(Backoff(n)))
      case Slept(_) => Some(Opening(false))
      case _ => None
  }

  function IdOrEmpty(id: Option<string>): string {
    if id.Some? then id.value else ""
  }

  /** Commands go out before the stream is looked at again. */
  function NextSend(log: seq<Event>): Event {
    if Waiting(log) == [] then Polled else Sent(Waiting(log)[0])
  }

  /** The client looks at its transport: only then can anything but a command reach it. */
  predicate Listening(log: seq<Event>) {
    match Last(log)
    case Some(e) => e.Opening? || e.Opened? || e.Requested? || e.Polled?
    case None => false
  }

  /** What a happening amounts to after `log`. */
  function Hears(log: seq<Event>, h: Happening): Event {
    if h.Queue? then Arrived(h.cmd)
    else match Last(log)
      case Some(Opening(_)) => if h.Accept? then Opened else OpenFailed
      case Some(Opened) => if h.Accept? then Greeted else Closed
      case Some(Requested(_)) => if h.SessionReady? then Ready(h.id) else Closed
      case _ => if h.End? then ServerEnded(h.reason) else if h.Refuse? then Closed else Message
  }

  /** It can happen now: a command at any moment of a run, the rest while the client listens. */
  predicate CanHappen(log: seq<Event>, h: Happening) {
    !Ended(log) && (h.Queue? || Listening(log))
  }

  /** Comes from outside. */
  predicate External(e: Event) {
    e.Opened? || e.OpenFailed? || e.Greeted? || e.Ready? || e.Closed? || e.ServerEnded? || e.Message? || e.Arrived?
  }

  /** `log` is one thing the client can make of `script`: what it owes, what happens to it, and nothing else. */
  predicate IsRun(params: Params, log: seq<Event>, script: seq<Happening>) {
    if |log| == 0 then script == []
    else
      var before, e := log[..|log| - 1], log[|log| - 1];
      if External(e) then
        && script != []
        && CanHappen(before, script[|script| - 1]) && e == Hears(before, script[|script| - 1])
        && IsRun(params, before, script[..|script| - 1])
      else
        Next(params, before) == Some(e) && IsRun(params, before, script)
  }

  /** One event added. */
  lemma Grown(log: seq<Event>, e: Event)
    ensures Last(log + [e]) == if e.Arrived? then Last(log) else Some(e)
    ensures Ended(log + [e]) == IsEnd(e)
    ensures EverReady(log + [e]) == (EverReady(log) || e.Ready?)
    ensures Attempts(log + [e]) ==
            if e.Ready? then 0 else if e.Reconnecting? then Attempts(log) + 1 else Attempts(log)
    ensures LatestId(log + [e]) == if e.Ready? && e.id != "" then Some(e.id) else LatestId(log)
  {
    var more := log + [e];
    assert more[..|more| - 1] == log && more[|more| - 1] == e;
    if k :| 0 <= k < |log| && log[k].Ready? {
      assert more[k].Ready?;
    }
  }

  lemma GrownWaiting(log: seq<Event>, e: Event)
    ensures Waiting(log + [e]) == WaitingAfter(Waiting(log), |log|, e)
  {
    var more := log + [e];
    assert more[..|more| - 1] == log && more[|more| - 1] == e;
  }

  lemma RunDoes(params: Params, log: seq<Event>, script: seq<Happening>, e: Event)
    requires IsRun(params, log, script) && Next(params, log) == Some(e)
    ensures IsRun(params, log + [e], script)
  {
    Owed(params, log, e);
    var more := log + [e];
    assert more[..|more| - 1] == log && more[|more| - 1] == e;
  }

  lemma RunHears(params: Params, log: seq<Event>, script: seq<Happening>, h: Happening)
    requires IsRun(params, log, script) && CanHappen(log, h)
    ensures IsRun(params, log + [Hears(log, h)], script + [h])
  {
    HearsExternal(log, h);
    var more, longer := log + [Hears(log, h)], script + [h];
    assert more[..|more| - 1] == log && longer[..|longer| - 1] == script;
  }

  lemma HearsExternal(log: seq<Event>, h: Happening)
    ensures External(Hears(log, h)) && (Hears(log, h).Arrived? <==> h.Queue?)
  {
  }

  /** What is owed never comes from outside, and a command is sent only if one is waiting. */
  lemma Owed(params: Params, log: seq<Event>, e: Event)
    requires Next(params, log) == Some(e)
    ensures !External(e) && !Ended(log)
    ensures e.Sent? ==> Waiting(log) != [] && e.item == Waiting(log)[0]
  {
  }

  // ----- The engine -----

  /** How one connection ended. */
  datatype Exit = ClientQuit | Over(why: Why) | Lost | Waits

  class Client {
    const params: Params
    const script: seq<Happening>
    var used: nat              // happenings so far
    var log: seq<Event>
    var queue: seq<Item>       // the command channel
    var sessionId: Option<string>

    constructor (params: Params, script: seq<Happening>)
      ensures this.params == params && this.script == script
      ensures used == 0 && log == [] && queue == [] && sessionId == None
    {
      this.params, this.script := params, script;
      used, log, queue, sessionId := 0, [], [], None;
    }

    ghost predicate Valid()
      reads this
    {
      used <= |script| && IsRun(params, log, script[..used]) && sessionId == LatestId(log)
    }

    /** Everything that could be done was done: over, or waiting with nothing left to happen. */
    ghost predicate Settled()
      reads this
    {
      Ended(log) || (used == |script| && Next(params, log) == None)
    }

    method Emit(e: Event)
      requires Valid() && Next(params, log) == Some(e)
      modifies this`log
      ensures Valid() && log == old(log) + [e]
      ensures Last(log) == Some(e) && Ended(log) == IsEnd(e)
      ensures EverReady(log) == old(EverReady(log))
      ensures Attempts(log) == old(Attempts(log)) + if e.Reconnecting? then 1 else 0
      ensures Waiting(log) == if e.Drained? then [] else if e.Sent? then old(Waiting(log))[1..] else old(Waiting(log))
    {
      RunDoes(params, log, script[..used], e);
      Owed(params, log, e);
      Grown(log, e);
      GrownWaiting(log, e);
      log := log + [e];
    }

    /** Hear one thing; nothing is returned when the script is at its end. */
    method Listen() returns (e: Option<Event>)
      requires Valid() && Listening(log) && !Ended(log)
      modifies this`used, this`log, this`queue, this`sessionId
      ensures Valid()
      ensures e == None ==> used == old(used) == |script| && log == old(log) && queue == old(queue)
      ensures e.Some? ==> used == old(used) + 1
      ensures old(sessionId).Some? ==> sessionId.Some?
      ensures e.Some? ==> log == old(log) + [e.value] && exists h :: e.value == Hears(old(log), h)
      ensures e.Some? ==> queue == if e.value.Arrived? then old(queue) + [Item(|old(log)|, e.value.cmd)] else old(queue)
    {
      if used == |script| {
        return None;
      }
      hide IsRun, Waiting, Attempts, LatestId, EverReady, Last;
      var h := script[used];
      var event := Hears(log, h);
      RunHears(params, log, script[..used], h);
      Grown(log, event);
      assert script[..used + 1] == script[..used] + [h];
      if event.Arrived? {
        queue := queue + [Item(|log|, event.cmd)];
      }
      if event.Ready? && event.id != "" {
        sessionId := Some(event.id);
      }
      log := log + [event];
      used := used + 1;
      e := Some(event);
    }

    /** Whatever the client is at, the window may queue commands; how many get in now is not its choice. */
    method Arrive() returns (ghost late: seq<Item>)
      requires Valid() && !Ended(log)
      modifies this`used, this`log, this`queue
      ensures Valid() && !Ended(log)
      ensures Last(log) == old(Last(log)) && EverReady(log) == old(EverReady(log))
      ensures Attempts(log) == old(Attempts(log)) && LatestId(log) == old(LatestId(log))
      ensures queue == old(queue) + late && Waiting(log) == old(Waiting(log)) + late
      ensures used == old(used) + |late|
    {
      hide IsRun, Waiting, Attempts, LatestId, EverReady, Last;
      late := [];
      var more: bool := *;
      while more && used < |script| && script[used].Queue?
        invariant Valid() && !Ended(log)
        invariant Last(log) == old(Last(log)) && EverReady(log) == old(EverReady(log))
        invariant Attempts(log) == old(Attempts(log)) && LatestId(log) == old(LatestId(log))
        invariant queue == old(queue) + late && Waiting(log) == old(Waiting(log)) + late
        invariant used == old(used) + |late|
        modifies this`used, this`log, this`queue
        decreases |script| - used
      {
        var h := script[used];
        var item := Item(|log|, h.cmd);
        RunHears(params, log, script[..used], h);
        Grown(log, Arrived(h.cmd));
        GrownWaiting(log, Arrived(h.cmd));
        assert script[..used + 1] == script[..used] + [h];
        log, queue, used := log + [Arrived(h.cmd)], queue + [item], used + 1;
        late := late + [item];
        more := *;
      }
    }

    /** One event of the client's own that no arriving command can change. */
    method Do(e: Event)
      requires Valid() && Next(params, log) == Some(e) && queue == Waiting(log)
      requires !e.Sent? && !e.Polled? && !e.Drained?
      modifies this`used, this`log, this`queue
      ensures Valid() && queue == Waiting(log) && used >= old(used)
      ensures Last(log) == Some(e) && Ended(log) == IsEnd(e)
      ensures EverReady(log) == old(EverReady(log)) && LatestId(log) == old(LatestId(log))
      ensures Attempts(log) == old(Attempts(log)) + if e.Reconnecting? then 1 else 0
    {
      hide IsRun, Waiting, Attempts, LatestId, EverReady, Last;
      Owed(params, log, e);
      ghost var _ := Arrive();
      Emit(e);
    }

    /** Wait for the answer to what the client just did, while commands go on arriving. */
    method Await() returns (e: Option<Event>)
      requires Valid() && queue == Waiting(log)
      requires Last(log).Some? && (Last(log).value.Opening? || Last(log).value.Opened? || Last(log).value.Requested?)
      requires !Ended(log)
      modifies this`used, this`log, this`queue, this`sessionId
      ensures Valid() && queue == Waiting(log)
      ensures used >= old(used) && (e.Some? ==> used > old(used))
      ensures old(sessionId).Some? ==> sessionId.Some?
      ensures e == None ==> Settled()
      ensures e.Some? ==> Last(log) == e && !Ended(log)
      ensures e.Some? && old(Last(log)).value.Opening? ==> e.value in {Opened, OpenFailed}
      ensures e.Some? && old(Last(log)).value.Opened? ==> e.value in {Greeted, Closed}
      ensures e.Some? && old(Last(log)).value.Requested? ==> e.value.Ready? || e.value.Closed?
      ensures !(e.Some? && e.value.Ready?) ==>
                EverReady(log) == old(EverReady(log)) && Attempts(log) == old(Attempts(log))
                && LatestId(log) == old(LatestId(log))
      ensures e.Some? && e.value.Ready? ==> EverReady(log) && Attempts(log) == 0
    {
      hide IsRun, Waiting, Attempts, LatestId, EverReady;
      ghost var asked := Last(log);
      e := None;
      while e == None || e.value.Arrived?
        invariant Valid() && queue == Waiting(log) && !Ended(log)
        invariant used >= old(used) && (e.Some? ==> used > old(used))
        invariant old(sessionId).Some? ==> sessionId.Some?
        invariant Last(log) == if e == None || e.value.Arrived? then asked else e
        invariant e.Some? && !e.value.Arrived? && asked.value.Opening? ==> e.value in {Opened, OpenFailed}
        invariant e.Some? && !e.value.Arrived? && asked.value.Opened? ==> e.value in {Greeted, Closed}
        invariant e.Some? && !e.value.Arrived? && asked.value.Requested? ==> e.value.Ready? || e.value.Closed?
        invariant e.Some? && e.value.Ready? ==> EverReady(log) && Attempts(log) == 0
        invariant !(e.Some? && e.value.Ready?) ==>
                    EverReady(log) == old(EverReady(log)) && Attempts(log) == old(Attempts(log))
                    && LatestId(log) == old(LatestId(log))
        modifies this`used, this`log, this`queue, this`sessionId
        decreases |script| - used
      {
        ghost var before := log;
        e := Listen();
        if e == None {
          return;
        }
        Grown(before, e.value);
        GrownWaiting(before, e.value);
      }
    }

    /** One connection, from an open transport to the reason it ended. */
    method SessionLoop(attach: Option<string>) returns (exit: Exit, ready: bool)
      requires Valid() && queue == Waiting(log) && Last(log) == Some(Opened) && !Ended(log)
      requires attach == Target(params, log)
      modifies this
      ensures Valid()
      ensures EverReady(log) == (old(EverReady(log)) || ready)
      ensures Attempts(log) == if ready then 0 else old(Attempts(log))
      ensures used >= old(used)
      ensures old(sessionId).Some? ==> sessionId.Some?
      ensures exit.Waits? ==> Settled()
      ensures exit.ClientQuit? || exit.Over? ==> queue == Waiting(log)
      ensures exit.ClientQuit? ==> Next(params, log) == Some(Quit)
      ensures exit.Over? ==> Next(params, log) == Some(SessionEnded(exit.why))
      ensures exit.Lost? ==> Last(log) == Some(Closed) && !Ended(log) && queue == Waiting(log)
    {
      ready := false;
      var e := Await();
      if e == None {
        return Waits, ready;
      }
      if e.value.Closed? {
        return Lost, ready;
      }
      Do(Requested(attach));
      e := Await();
      if e == None {
        return Waits, ready;
      }
      if e.value.Closed? {
        return Lost, ready;
      }
      ready := true;
      exit := Stream();
    }

    /** Commands first, then whatever happens next, until the connection is over. */
    method Stream() returns (exit: Exit)
      requires Valid() && queue == Waiting(log) && !Ended(log)
      requires Last(log).Some? && Last(log).value.Ready?
      modifies this
      ensures Valid() && used >= old(used)
      ensures old(sessionId).Some? ==> sessionId.Some?
      ensures EverReady(log) == old(EverReady(log)) && Attempts(log) == old(Attempts(log))
      ensures exit.Waits? ==> Settled()
      ensures exit.ClientQuit? || exit.Over? ==> queue == Waiting(log)
      ensures exit.ClientQuit? ==> Next(params, log) == Some(Quit)
      ensures exit.Over? ==> Next(params, log) == Some(SessionEnded(exit.why))
      ensures exit.Lost? ==> Last(log) == Some(Closed) && !Ended(log) && queue == Waiting(log)
    {
      var nextCmd: Option<Item> := None;
      while true
        invariant Valid() && !Ended(log) && used >= old(used)
        invariant Sending(log) || (Last(log) == Some(Polled) && nextCmd.Some?)
        invariant old(sessionId).Some? ==> sessionId.Some?
        invariant Waiting(log) == (if nextCmd.Some? then [nextCmd.value] else []) + queue
        invariant EverReady(log) == old(EverReady(log)) && Attempts(log) == old(Attempts(log))
        decreases |script| - used
      {
        var stop := SendQueued(nextCmd);
        if stop.Some? {
          return stop.value;
        }
        stop, nextCmd := Select();
        if stop.Some? {
          return stop.value;
        }
      }
    }

    /**
     The `select!`: something on the stream, or a command to be sent on the next
     turn. When both are there either may be taken.
     */
    method Select() returns (stop: Option<Exit>, taken: Option<Item>)
      requires Valid() && !Ended(log) && Last(log) == Some(Polled) && queue == Waiting(log) == []
      modifies this`used, this`log, this`queue, this`sessionId
      ensures Valid()
      ensures EverReady(log) == old(EverReady(log)) && Attempts(log) == old(Attempts(log))
      ensures used >= old(used)
      ensures old(sessionId).Some? ==> sessionId.Some?
      ensures stop == None ==> used > old(used) && !Ended(log)
      ensures stop == None ==> Last(log) == if taken.Some? then Some(Polled) else Some(Message)
      ensures stop == None ==> Waiting(log) == (if taken.Some? then [taken.value] else []) + queue
      ensures stop != Some(ClientQuit)
      ensures stop == Some(Waits) ==> Settled()
      ensures stop.Some? && stop.value.Over? ==> Next(params, log) == Some(SessionEnded(stop.value.why))
      ensures stop.Some? && stop.value.Over? ==> queue == Waiting(log)
      ensures stop == Some(Lost) ==> Last(log) == Some(Closed) && !Ended(log) && queue == Waiting(log)
    {
      hide IsRun, Waiting, Attempts, LatestId, EverReady, Last;
      stop, taken := None, None;
      while true
        invariant Valid() && !Ended(log) && Last(log) == Some(Polled) && queue == Waiting(log)
        invariant EverReady(log) == old(EverReady(log)) && Attempts(log) == old(Attempts(log))
        invariant used >= old(used) && (queue != [] ==> used > old(used))
        invariant old(sessionId).Some? ==> sessionId.Some?
        decreases |script| - used
      {
        var choose: bool := *;
        if queue != [] && (choose || used == |script|) {
          taken, queue := Some(queue[0]), queue[1..];
          return;
        }
        ghost var before := log;
        var e := Listen();
        if e == None {
          return Some(Waits), None;
        }
        Grown(before, e.value);
        GrownWaiting(before, e.value);
        match e.value {
          case ServerEnded(reason) =>
            return Some(Over(ByServer(reason))), None;
          case Closed =>
            return Some(Lost), None;
          case Message =>
            return;
          case _ =>
        }
      }
    }

    /** Everything queued goes out, until the channel is found empty or a command ends it all. */
    method SendQueued(taken: Option<Item>) returns (stop: Option<Exit>)
      requires Valid() && !Ended(log)
      requires Sending(log) || (Last(log) == Some(Polled) && taken.Some?)
      requires Waiting(log) == (if taken.Some? then [taken.value] else []) + queue
      modifies this`used, this`log, this`queue
      ensures Valid() && used >= old(used)
      ensures EverReady(log) == old(EverReady(log)) && Attempts(log) == old(Attempts(log))
      ensures stop.Some? ==> (stop.value.ClientQuit? || stop.value.Over?) && queue == Waiting(log)
      ensures stop == Some(ClientQuit) ==> Next(params, log) == Some(Quit)
      ensures stop.Some? && stop.value.Over? ==> Next(params, log) == Some(SessionEnded(stop.value.why))
      ensures stop == None ==> Last(log) == Some(Polled) && !Ended(log) && queue == Waiting(log) == []
    {
      hide IsRun, Waiting, Attempts, LatestId, EverReady, Last, Next, Sending;
      var nextCmd := taken;
      while true
        invariant Valid() && !Ended(log) && used >= old(used)
        invariant Sending(log) || (Last(log) == Some(Polled) && nextCmd.Some?)
        invariant Waiting(log) == (if nextCmd.Some? then [nextCmd.value] else []) + queue
        invariant EverReady(log) == old(EverReady(log)) && Attempts(log) == old(Attempts(log))
        modifies this`used, this`log, this`queue
        decreases |script| - used + |Waiting(log)|
      {
        ghost var before := log;
        ghost var late := Arrive();
        SendingByLast(before, log);
        var sent;
        sent, stop := SendOne(nextCmd);
        if stop.Some? || !sent {
          return;
        }
        nextCmd := None;
      }
    }

    /** One turn: the command set aside or the oldest queued goes out; without either, on to the select. */
    method SendOne(nextCmd: Option<Item>) returns (sent: bool, stop: Option<Exit>)
      requires Valid() && !Ended(log)
      requires Sending(log) || (Last(log) == Some(Polled) && nextCmd.Some?)
      requires Waiting(log) == (if nextCmd.Some? then [nextCmd.value] else []) + queue
      modifies this`log, this`queue
      ensures Valid() && !Ended(log) && queue == Waiting(log)
      ensures EverReady(log) == old(EverReady(log)) && Attempts(log) == old(Attempts(log))
      ensures !sent ==> stop == None && Last(log) == Some(Polled) && queue == []
      ensures sent ==> |queue| < |old(Waiting(log))|
      ensures sent && stop == None ==> Sending(log)
      ensures stop.Some? ==> stop.value.ClientQuit? || stop.value.Over?
      ensures stop == Some(ClientQuit) ==> Next(params, log) == Some(Quit)
      ensures stop.Some? && stop.value.Over? ==> Next(params, log) == Some(SessionEnded(stop.value.why))
    {
      hide IsRun, Waiting, Attempts, LatestId, EverReady, Last, Next, Sending;
      OwesSend(params, log);
      if nextCmd == None && queue == [] {
        Emit(Polled);
        return false, None;
      }
      var item;
      if nextCmd.Some? {
        item := nextCmd.value;
      } else {
        item, queue := queue[0], queue[1..];
      }
      Emit(Sent(item));
      SentOwes(params, log, item);
      match item.cmd {
        case Disconnect => return true, Some(ClientQuit);
        case EndSession => return true, Some(Over(ByUser(IdOrEmpty(sessionId))));
        case Input(_) => return true, None;
      }
    }

    /** Input aimed at a connection that is gone is not for the next one. */
    method DrainQueue()
      requires Valid() && Next(params, log) == Some(Drained) && Last(log) == Some(Closed)
      modifies this`used, this`log, this`queue
      ensures Valid() && queue == Waiting(log) == [] && used >= old(used)
      ensures Last(log) == Some(Drained) && !Ended(log)
      ensures EverReady(log) == old(EverReady(log)) && Attempts(log) == old(Attempts(log))
      ensures LatestId(log) == old(LatestId(log))
    {
      Owed(params, log, Drained);
      ghost var late := Arrive();
      while queue != []
        invariant Valid() && !Ended(log) && Last(log) == Some(Closed) && used >= old(used)
        invariant EverReady(log) == old(EverReady(log)) && Attempts(log) == old(Attempts(log))
        invariant LatestId(log) == old(LatestId(log))
        modifies this`used, this`log, this`queue
        decreases |script| - used + |queue|
      {
        queue := queue[1..];
        late := Arrive();
      }
      Emit(Drained);
    }

    method AnnounceAndWait(attempt: nat)
      requires Valid() && Next(params, log) == Some(Reconnecting(attempt)) && queue == Waiting(log)
      modifies this`used, this`log, this`queue
      ensures Valid() && queue == Waiting(log) && used >= old(used)
      ensures Last(log) == Some(Opening(false)) && !Ended(log)
      ensures EverReady(log) == old(EverReady(log)) && Attempts(log) == old(Attempts(log)) + 1
      ensures LatestId(log) == old(LatestId(log))
    {
      hide IsRun, Waiting, Attempts, LatestId, EverReady;
      Do(Reconnecting(attempt));
      Do(Slept(Backoff(attempt)));
      Do(Opening(false));
    }

    /** Retry, with growing waits, until a transport opens. */
    method Reopen(attempts: nat) returns (open: bool, attempt: nat)
      requires Valid() && queue == Waiting(log) && Last(log) == Some(Drained)
      requires EverReady(log) && attempts == Attempts(log)
      modifies this`log, this`used, this`queue, this`sessionId
      ensures Valid()
      ensures !open ==> Settled()
      ensures open ==> Last(log) == Some(Opened) && !Ended(log) && queue == Waiting(log) && used > old(used)
      ensures open ==> EverReady(log) && attempt == Attempts(log) && LatestId(log) == old(LatestId(log))
    {
      attempt := attempts;
      while true
        invariant Valid() && queue == Waiting(log) && used >= old(used)
        invariant Last(log) in {Some(Drained), Some(OpenFailed)}
        invariant EverReady(log) && attempt == Attempts(log) && LatestId(log) == old(LatestId(log))
        modifies this`log, this`used, this`queue, this`sessionId
        decreases |script| - used
      {
        attempt := attempt + 1;
        AnnounceAndWait(attempt);
        var e := Await();
        if e == None {
          return false, attempt;
        }
        if e.value.Opened? {
          return true, attempt;
        }
      }
    }

    method RunWithReconnect()
      requires Valid() && queue == Waiting(log) && Last(log) == Some(Opened) && !Ended(log)
      requires !EverReady(log) && Attempts(log) == 0 && LatestId(log) == None
      modifies this
      ensures Valid() && Settled()
    {
      var attempt, everReady, attach := 0, false, params.attach;
      while true
        invariant Valid() && queue == Waiting(log) && Last(log) == Some(Opened) && !Ended(log)
        invariant everReady == EverReady(log) && attempt == Attempts(log)
        invariant attach == Target(params, log)
        decreases |script| - used
      {
        var exit, ready := SessionLoop(attach);
        everReady := everReady || ready;
        if ready {
          attempt := 0;
        }
        match exit {
          case Waits =>
            return;
          case ClientQuit =>
            Do(Quit);
            return;
          case Over(why) =>
            Do(SessionEnded(why));
            return;
          case Lost =>
        }
        if !everReady {
          Do(ConnectFailed);
          return;
        }
        if !params.reconnect {
          Do(SessionEnded(ReconnectDisabled));
          return;
        }
        if sessionId.Some? {
          attach := Some(sessionId.value);
        }
        DrainQueue();
        var open: bool;
        open, attempt := Reopen(attempt);
        if !open {
          return;
        }
      }
    }

    /** The whole run, the first connection included. */
    method Connect()
      requires used == 0 && log == [] && queue == [] && sessionId == None
      modifies this
      ensures used <= |script| && IsRun(params, log, script[..used])
      ensures Settled()
      // It has ended, or it waits for its transport or its stream and nothing more happens.
      ensures Ended(log) || (used == |script| && Listening(log))
    {
      Do(Opening(true));
      var e := Await();
      if e == None {
        SettledListens(params, log, script[..used]);
        return;
      }
      if e.value.OpenFailed? {
        Do(ConnectFailed);
        return;
      }
      RunWithReconnect();
      SettledListens(params, log, script[..used]);
    }
  }

  /** The session is up, and the client is to look into its channel before anything else. */
  predicate Sending(log: seq<Event>) {
    match Last(log)
    case Some(Ready(_)) => true
    case Some(Message) => true
    case Some(Sent(item)) => item.cmd.Input?
    case _ => false
  }

  lemma SendingByLast(log: seq<Event>, more: seq<Event>)
    requires Last(log) == Last(more)
    ensures Sending(log) == Sending(more)
  {
  }

  /** Between turns of the loop, and after a command was set aside, the oldest command waiting is owed. */
  lemma OwesSend(params: Params, log: seq<Event>)
    requires Sending(log) || (Last(log) == Some(Polled) && Waiting(log) != [])
    ensures Next(params, log) == Some(NextSend(log))
  {
  }

  /** What a command obliges the client to do once it is sent. */
  lemma SentOwes(params: Params, log: seq<Event>, item: Item)
    requires Last(log) == Some(Sent(item))
    ensures match item.cmd
            case Disconnect => Next(params, log) == Some(Quit)
            case EndSession => Next(params, log) == Some(SessionEnded(ByUser(IdOrEmpty(LatestId(log)))))
            case Input(_) => Sending(log)
  {
  }

  // ----- The grammar of runs -----

  /** `e` may follow `log`: the client owes it, or it comes from outside at a moment it can. */
  ghost predicate Follows(params: Params, log: seq<Event>, e: Event) {
    if External(e) then exists h :: CanHappen(log, h) && e == Hears(log, h) else Next(params, log) == Some(e)
  }

  ghost predicate Lawful(params: Params, log: seq<Event>) {
    forall k :: 0 <= k < |log| ==> Follows(params, log[..k], log[k])
  }

  lemma LawfulMore(params: Params, log: seq<Event>, e: Event)
    requires Lawful(params, log) && Follows(params, log, e)
    ensures Lawful(params, log + [e])
  {
    hide Follows;
    var more := log + [e];
    forall k | 0 <= k < |more|
      ensures Follows(params, more[..k], more[k])
    {
      assert more[..k] == log[..k];
      assert k == |log| ==> log[..k] == log;
    }
  }

  /** Every run of the engine, at every point of it, is lawful. */
  lemma {:induction false} RunsAreLawful(params: Params, log: seq<Event>, script: seq<Happening>)
    requires IsRun(params, log, script)
    ensures Lawful(params, log)
  {
    if |log| > 0 {
      var before, e := log[..|log| - 1], log[|log| - 1];
      RunsAreLawful(params, before, if External(e) then script[..|script| - 1] else script);
      LawfulMore(params, before, e);
      assert log == before + [e];
    }
  }

  /** And every lawful log is a run, for a script the outside world can come up with. */
  lemma {:induction false} LawfulIsRun(params: Params, log: seq<Event>) returns (script: seq<Happening>)
    requires Lawful(params, log)
    ensures IsRun(params, log, script)
  {
    script := [];
    if |log| > 0 {
      var before, e := log[..|log| - 1], log[|log| - 1];
      LawfulPrefix(params, log, |log| - 1);
      WasOwed(params, log, |log| - 1);
      script := LawfulIsRun(params, before);
      if External(e) {
        var h :| CanHappen(before, h) && e == Hears(before, h);
        script := script + [h];
        assert script[..|script| - 1] == script[..|script| - 1];
      }
    }
  }

  /** The log up to and including entry `k`. */
  lemma Through(log: seq<Event>, k: nat)
    requires k < |log|
    ensures log[..k + 1] == log[..k] + [log[k]]
  {
  }

  /** What the client did at `k`, it owed; what it did not owe came from outside. */
  lemma WasOwed(params: Params, log: seq<Event>, k: nat)
    requires Lawful(params, log) && k < |log|
    ensures Follows(params, log[..k], log[k])
    ensures if External(log[k]) then !Ended(log[..k]) && (log[k].Arrived? || Listening(log[..k]))
            else Next(params, log[..k]) == Some(log[k])
  {
    assert Follows(params, log[..k], log[k]);
    if External(log[k]) {
      var h :| CanHappen(log[..k], h) && log[k] == Hears(log[..k], h);
      HearsExternal(log[..k], h);
    }
  }

  /** An end is the last thing in a log: nothing is said after it, and it is said once. */
  lemma EndIsLast(params: Params, log: seq<Event>, k: nat)
    requires Lawful(params, log) && k < |log| && IsEnd(log[k])
    ensures k == |log| - 1
  {
    if k + 1 < |log| {
      Through(log, k);
      Grown(log[..k], log[k]);
      WasOwed(params, log, k + 1);
    }
  }

  /** The latest event before `k` that is no arrival, and only arrivals came between. */
  lemma {:induction false} LastHappened(log: seq<Event>, k: nat) returns (at: nat)
    requires k <= |log| && Last(log[..k]).Some?
    ensures at < k && log[at] == Last(log[..k]).value && !log[at].Arrived?
    ensures forall j :: at < j < k ==> log[j].Arrived?
  {
    at := k - 1;
    if log[at].Arrived? {
      assert log[..k][..at] == log[..at];
      at := LastHappened(log, at);
    }
  }

  /** `ConnectFailed` means no session ever started; `Reconnecting` means one did. */
  lemma FailedOrReconnecting(params: Params, log: seq<Event>, k: nat)
    requires Lawful(params, log) && k < |log|
    ensures log[k].ConnectFailed? ==> forall j :: 0 <= j < |log| ==> !log[j].Ready?
    ensures log[k].Reconnecting? ==> exists j :: 0 <= j < k && log[j].Ready?
  {
    hide Lawful, Follows;
    if log[k].ConnectFailed? {
      EndIsLast(params, log, k);
      ConnectFailedNeverReady(params, log, k);
      assert forall j :: 0 <= j < k ==> log[..k][j] == log[j];
    } else if log[k].Reconnecting? {
      ReconnectingWasReady(params, log, k);
      var j :| 0 <= j < |log[..k]| && log[..k][j].Ready?;
      assert log[j].Ready?;
    }
  }

  lemma ConnectFailedNeverReady(params: Params, log: seq<Event>, k: nat)
    requires Lawful(params, log) && k < |log| && log[k].ConnectFailed?
    ensures !EverReady(log[..k])
  {
    WasOwed(params, log, k);
  }

  lemma ReconnectingWasReady(params: Params, log: seq<Event>, k: nat)
    requires Lawful(params, log) && k < |log| && log[k].Reconnecting?
    ensures EverReady(log[..k])
  {
    WasOwed(params, log, k);
    var before := log[..k];
    if Last(before) == Some(Drained) {
      var at := LastHappened(log, k);
      WasOwed(params, log, at);
      ReadyStays(log, at, k);
    }
  }

  lemma ReadyStays(log: seq<Event>, i: nat, j: nat)
    requires i <= j <= |log| && EverReady(log[..i])
    ensures EverReady(log[..j])
  {
    var k :| 0 <= k < i && log[..i][k].Ready?;
    assert log[..j][k].Ready?;
  }

  /** Attempts are numbered 1, 2, 3, … and start again at 1 only after a SessionReady. */
  lemma AttemptsAreNumbered(params: Params, log: seq<Event>, i: nat, j: nat)
    requires Lawful(params, log) && i < j < |log| && log[j].Reconnecting?
    requires forall k :: i < k < j ==> !log[k].Reconnecting?
    ensures log[i].Reconnecting? && (forall k :: i < k < j ==> !log[k].Ready?) ==>
              log[j].attempt == log[i].attempt + 1
    ensures (exists k :: i < k < j && log[k].Ready?) ==> log[j].attempt == 1
  {
    AttemptIsNext(params, log, j);
    Through(log, i);
    Grown(log[..i], log[i]);
    if log[i].Reconnecting? {
      AttemptIsNext(params, log, i);
    }
    AttemptsCount(log, i + 1, j);
  }

  lemma AttemptIsNext(params: Params, log: seq<Event>, j: nat)
    requires Lawful(params, log) && j < |log| && log[j].Reconnecting?
    ensures log[j].attempt == Attempts(log[..j]) + 1
  {
    WasOwed(params, log, j);
  }

  lemma FirstAttemptIsOne(params: Params, log: seq<Event>, j: nat)
    requires Lawful(params, log) && j < |log| && log[j].Reconnecting?
    requires forall k :: 0 <= k < j ==> !log[k].Reconnecting?
    ensures log[j].attempt == 1
  {
    WasOwed(params, log, j);
    AttemptsCount(log, 0, j);
    assert Attempts(log[..0]) == 0;
  }

  lemma {:induction false} AttemptsCount(log: seq<Event>, i: nat, j: nat)
    requires i <= j <= |log| && forall k :: i <= k < j ==> !log[k].Reconnecting?
    ensures (forall k :: i <= k < j ==> !log[k].Ready?) ==> Attempts(log[..j]) == Attempts(log[..i])
    ensures (exists k :: i <= k < j && log[k].Ready?) ==> Attempts(log[..j]) == 0
  {
    if i < j {
      Through(log, j - 1);
      Grown(log[..j - 1], log[j - 1]);
      AttemptsCount(log, i, j - 1);
    }
  }

  lemma {:induction false} AttemptsGrow(log: seq<Event>, i: nat, j: nat)
    requires i <= j <= |log| && forall k :: i <= k < j ==> !log[k].Ready?
    ensures Attempts(log[..i]) <= Attempts(log[..j])
  {
    if i < j {
      Through(log, j - 1);
      Grown(log[..j - 1], log[j - 1]);
      AttemptsGrow(log, i, j - 1);
    }
  }

  /** Each wait follows its announcement, commands apart, and is as long as the backoff says. */
  lemma WaitFollowsAnnouncement(params: Params, log: seq<Event>, k: nat) returns (at: nat)
    requires Lawful(params, log) && k < |log| && log[k].Slept?
    ensures at < k && log[at].Reconnecting? && forall j :: at < j < k ==> log[j].Arrived?
    ensures log[k].secs == Backoff(log[at].attempt) && log[at].attempt == Attempts(log[..k]) >= 1
  {
    SleptIsOwed(params, log, k);
    at := LastHappened(log, k);
    AttemptIsNext(params, log, at);
    Through(log, at);
    Grown(log[..at], log[at]);
    AttemptsCount(log, at + 1, k);
  }

  lemma SleptIsOwed(params: Params, log: seq<Event>, k: nat)
    requires Lawful(params, log) && k < |log| && log[k].Slept?
    ensures Last(log[..k]).Some? && Last(log[..k]).value.Reconnecting?
    ensures log[k].secs == Backoff(Last(log[..k]).value.attempt)
  {
    WasOwed(params, log, k);
  }

  /** Waits lie between 1 and 30 s and do not shrink until a session is up again. */
  lemma WaitsGrow(params: Params, log: seq<Event>, i: nat, j: nat)
    requires Lawful(params, log) && i <= j < |log| && log[i].Slept? && log[j].Slept?
    requires forall k :: i <= k < j ==> !log[k].Ready?
    ensures 1 <= log[i].secs <= log[j].secs <= 30
  {
    var _ := WaitFollowsAnnouncement(params, log, i);
    var _ := WaitFollowsAnnouncement(params, log, j);
    AttemptsGrow(log, i, j);
    BackoffGrows(Attempts(log[..i]), Attempts(log[..j]));
  }

  lemma {:induction false} LatestIdIs(log: seq<Event>) returns (at: nat)
    ensures LatestId(log) == None ==> forall j :: 0 <= j < |log| && log[j].Ready? ==> log[j].id == ""
    ensures LatestId(log).Some? ==>
              at < |log| && log[at] == Ready(LatestId(log).value) && log[at].id != ""
              && forall j :: at < j < |log| && log[j].Ready? ==> log[j].id == ""
  {
    at := 0;
    if |log| > 0 {
      if log[|log| - 1].Ready? && log[|log| - 1].id != "" {
        at := |log| - 1;
      } else {
        at := LatestIdIs(log[..|log| - 1]);
        assert forall j :: 0 <= j < |log| - 1 ==> log[j] == log[..|log| - 1][j];
      }
    }
  }

  /** Every connection resumes the latest session the server named, and the caller's choice before that. */
  lemma AttachesToLatest(params: Params, log: seq<Event>, i: nat, k: nat)
    requires Lawful(params, log) && i < k < |log| && log[k].Requested?
    requires log[i].Ready? && log[i].id != ""
    requires forall j :: i < j < k && log[j].Ready? ==> log[j].id == ""
    ensures log[k].attach == Some(log[i].id)
  {
    WasOwed(params, log, k);
    var at := LatestIdIs(log[..k]);
    assert log[..k][i] == log[i];
    assert at < k ==> log[..k][at] == log[at];
  }

  lemma AttachesAsAsked(params: Params, log: seq<Event>, k: nat)
    requires Lawful(params, log) && k < |log| && log[k].Requested?
    requires forall j :: 0 <= j < k && log[j].Ready? ==> log[j].id == ""
    ensures log[k].attach == params.attach
  {
    WasOwed(params, log, k);
    var at := LatestIdIs(log[..k]);
    assert at < k ==> log[..k][at] == log[at];
  }

  // ----- Commands -----

  /** The command arrived, and since then it was neither sent nor dropped with the rest. */
  ghost predicate Pending(log: seq<Event>, item: Item) {
    && item.at < |log| && log[item.at] == Arrived(item.cmd)
    && forall j :: item.at < j < |log| ==> log[j] != Drained && log[j] != Sent(item)
  }

  ghost predicate InOrder(items: seq<Item>) {
    forall i, j :: 0 <= i < j < |items| ==> items[i].at < items[j].at
  }

  /** What waits is exactly what is pending, in order of arrival. */
  lemma {:induction false} WaitingIsPending(params: Params, log: seq<Event>)
    requires Lawful(params, log)
    ensures IsPending(Waiting(log), log)
  {
    if |log| > 0 {
      var before, e := log[..|log| - 1], log[|log| - 1];
      assert log == before + [e];
      forall k | 0 <= k < |before|
        ensures Follows(params, before[..k], before[k])
      {
        WasOwed(params, log, k);
        assert before[..k] == log[..k];
      }
      WaitingIsPending(params, before);
      WasOwed(params, log, |before|);
      if e.Sent? {
        Owed(params, before, e);
      }
      PendingStep(before, e);
    }
  }

  /** `waiting` is what is pending, in order. */
  ghost predicate IsPending(waiting: seq<Item>, log: seq<Event>) {
    && InOrder(waiting)
    && (forall k :: 0 <= k < |waiting| ==> Pending(log, waiting[k]))
    && (forall item :: Pending(log, item) ==> item in waiting)
  }

  lemma PendingStep(before: seq<Event>, e: Event)
    requires IsPending(Waiting(before), before)
    requires e.Sent? ==> Waiting(before) != [] && e.item == Waiting(before)[0]
    ensures IsPending(Waiting(before + [e]), before + [e])
  {
    var waiting := Waiting(before);
    GrownWaiting(before, e);
    match e
    case Arrived(cmd) => PendingArrived(before, waiting, cmd);
    case Drained => PendingDrained(before);
    case Sent(item) => PendingSent(before, waiting);
    case _ => PendingOther(before, waiting, e);
  }

  lemma StillPending(before: seq<Event>, e: Event, item: Item)
    ensures Pending(before + [e], item) <==>
            if item == Item(|before|, item.cmd) then e == Arrived(item.cmd)
            else Pending(before, item) && e != Drained && e != Sent(item)
  {
    var log := before + [e];
    assert log[|before|] == e;
    assert forall j :: 0 <= j < |before| ==> log[j] == before[j];
  }

  lemma PendingArrived(before: seq<Event>, waiting: seq<Item>, cmd: Command)
    requires IsPending(waiting, before)
    ensures IsPending(waiting + [Item(|before|, cmd)], before + [Arrived(cmd)])
  {
    forall item
      ensures Pending(before + [Arrived(cmd)], item) <==> item == Item(|before|, cmd) || Pending(before, item)
    {
      StillPending(before, Arrived(cmd), item);
    }
  }

  lemma PendingDrained(before: seq<Event>)
    ensures IsPending([], before + [Drained])
  {
    forall item
      ensures !Pending(before + [Drained], item)
    {
      StillPending(before, Drained, item);
    }
  }

  lemma PendingSent(before: seq<Event>, waiting: seq<Item>)
    requires IsPending(waiting, before) && waiting != []
    ensures IsPending(waiting[1..], before + [Sent(waiting[0])])
  {
    forall item
      ensures Pending(before + [Sent(waiting[0])], item) <==> Pending(before, item) && item != waiting[0]
    {
      StillPending(before, Sent(waiting[0]), item);
    }
  }

  lemma PendingOther(before: seq<Event>, waiting: seq<Item>, e: Event)
    requires IsPending(waiting, before) && !e.Arrived? && !e.Drained? && !e.Sent?
    ensures IsPending(waiting, before + [e])
  {
    forall item
      ensures Pending(before + [e], item) <==> Pending(before, item)
    {
      StillPending(before, e, item);
    }
  }

  lemma LawfulPrefix(params: Params, log: seq<Event>, k: nat)
    requires Lawful(params, log) && k <= |log|
    ensures Lawful(params, log[..k])
  {
    forall j | 0 <= j < k
      ensures Follows(params, log[..k][..j], log[..k][j])
    {
      WasOwed(params, log, j);
      assert log[..k][..j] == log[..j];
    }
  }

  /** A command is sent after it was queued, at most once, and never past a drop's drain. */
  lemma SentWasQueued(params: Params, log: seq<Event>, k: nat)
    requires Lawful(params, log) && k < |log| && log[k].Sent?
    ensures Pending(log[..k], log[k].item)
  {
    hide Next, Waiting, Follows, Lawful, Pending;
    WasOwed(params, log, k);
    Owed(params, log[..k], log[k]);
    LawfulPrefix(params, log, k);
    WaitingIsPending(params, log[..k]);
  }

  /** Nothing is lost or overtaken: a command queued earlier was sent or drained before. */
  lemma SentInOrder(params: Params, log: seq<Event>, k: nat, a: nat)
    requires Lawful(params, log) && k < |log| && log[k].Sent?
    requires a < log[k].item.at && a < k && log[a].Arrived?
    ensures exists j :: a < j < k && (log[j] == Drained || log[j] == Sent(Item(a, log[a].cmd)))
  {
    hide Next, Waiting, Follows, Lawful;
    var before, item := log[..k], Item(a, log[a].cmd);
    WasOwed(params, log, k);
    Owed(params, before, log[k]);
    LawfulPrefix(params, log, k);
    WaitingIsPending(params, before);
    assert !Pending(before, item);
    assert before[a] == log[a];
    var j :| a < j < k && (before[j] == Drained || before[j] == Sent(item));
    assert log[j] == before[j];
  }

  /** Nothing queued before a drain is sent after it. */
  lemma DrainedIsNotSent(params: Params, log: seq<Event>, d: nat, k: nat)
    requires Lawful(params, log) && d < k < |log| && log[d].Drained? && log[k].Sent?
    ensures log[k].item.at > d
  {
    SentWasQueued(params, log, k);
    assert log[..k][d] == log[d] && log[..k][log[k].item.at].Arrived?;
  }

  /**
   What reaches a connection was queued after the drain that followed the loss
   of the one before: neither input queued while that one was up nor input
   queued between its loss and the drain.
   */
  lemma StaleInputIsDropped(params: Params, log: seq<Event>, c: nat, k: nat) returns (d: nat)
    requires Lawful(params, log) && c < k < |log| && log[c].Closed? && log[k].Sent?
    ensures c < d < k && log[d].Drained? && log[k].item.at > d
  {
    hide Lawful, Follows;
    d := NextAfter(log, c, k);
    LostIsFollowedUp(params, log, c, d);
    if log[d] != Drained {
      EndIsLast(params, log, d);
    }
    DrainedIsNotSent(params, log, d, k);
  }

  /** The first event after `c` that is no arrival. */
  lemma NextAfter(log: seq<Event>, c: nat, k: nat) returns (d: nat)
    requires c < k < |log| && !log[k].Arrived?
    ensures c < d <= k && !log[d].Arrived? && forall j :: c < j < d ==> log[j].Arrived?
  {
    d := c + 1;
    while log[d].Arrived?
      invariant c < d <= k && forall j :: c < j < d ==> log[j].Arrived?
      decreases k - d
    {
      d := d + 1;
    }
  }

  lemma {:induction false} LastStays(log: seq<Event>, c: nat, d: nat)
    requires c < d <= |log| && !log[c].Arrived? && forall j :: c < j < d ==> log[j].Arrived?
    ensures Last(log[..d]) == Some(log[c])
  {
    Through(log, d - 1);
    Grown(log[..d - 1], log[d - 1]);
    if d > c + 1 {
      LastStays(log, c, d - 1);
    }
  }

  lemma LostIsFollowedUp(params: Params, log: seq<Event>, c: nat, d: nat)
    requires Lawful(params, log) && c < d < |log| && log[c].Closed?
    requires !log[d].Arrived? && forall j :: c < j < d ==> log[j].Arrived?
    ensures log[d] == Drained || IsEnd(log[d])
  {
    LastStays(log, c, d);
    WasOwed(params, log, d);
  }

  /**
   The drain has work to do. From any point of a run at which a session is up
   and the client waits on its stream, a command may arrive and the connection
   be lost before it is sent; it is then dropped and never sent at all.
   */
  lemma LossMayBeatInput(params: Params, log: seq<Event>, cmd: Command)
    requires Lawful(params, log) && Last(log) == Some(Polled) && params.reconnect
    ensures Lawful(params, log + [Arrived(cmd)] + [Closed] + [Drained])
    ensures Item(|log|, cmd) in Waiting(log + [Arrived(cmd)] + [Closed])
    ensures forall after :: Lawful(params, log + [Arrived(cmd)] + [Closed] + [Drained] + after) ==>
              Sent(Item(|log|, cmd)) !in after
  {
    StreamWasReady(params, log);
    NotEndedYet(log);
    QueuedThenLost(params, log, cmd);
    hide Lawful, Waiting;
    var lost := log + [Arrived(cmd)] + [Closed];
    forall after | Lawful(params, lost + [Drained] + after)
      ensures Sent(Item(|log|, cmd)) !in after
    {
      NotSentAfterDrain(params, lost, after, Item(|log|, cmd));
    }
  }

  lemma QueuedThenLost(params: Params, log: seq<Event>, cmd: Command)
    requires Lawful(params, log) && Last(log) == Some(Polled) && !Ended(log) && EverReady(log) && params.reconnect
    ensures Lawful(params, log + [Arrived(cmd)] + [Closed] + [Drained])
    ensures Item(|log|, cmd) in Waiting(log + [Arrived(cmd)] + [Closed])
  {
    hide Lawful, Waiting, EverReady, Last, Ended;
    var queued := log + [Arrived(cmd)];
    Grown(log, Arrived(cmd));
    GrownWaiting(log, Arrived(cmd));
    Heard(params, log, Queue(cmd));
    LawfulMore(params, log, Arrived(cmd));
    var lost := queued + [Closed];
    Grown(queued, Closed);
    GrownWaiting(queued, Closed);
    Heard(params, queued, Refuse);
    LawfulMore(params, queued, Closed);
    LawfulMore(params, lost, Drained);
  }

  lemma Heard(params: Params, log: seq<Event>, h: Happening)
    requires CanHappen(log, h)
    ensures Follows(params, log, Hears(log, h))
  {
    HearsExternal(log, h);
  }

  lemma NotSentAfterDrain(params: Params, lost: seq<Event>, after: seq<Event>, item: Item)
    requires Lawful(params, lost + [Drained] + after) && item.at < |lost|
    ensures Sent(item) !in after
  {
    hide Lawful;
    var log := lost + [Drained] + after;
    if k :| 0 <= k < |after| && after[k] == Sent(item) {
      assert log[|lost|] == Drained && log[|lost| + 1 + k] == Sent(item);
      DrainedIsNotSent(params, log, |lost|, |lost| + 1 + k);
    }
  }

  lemma NotEndedYet(log: seq<Event>)
    requires Last(log) == Some(Polled)
    ensures !Ended(log)
  {
  }

  /** The stream is only looked at while a session is up. */
  lemma {:induction false} StreamWasReady(params: Params, log: seq<Event>)
    requires Lawful(params, log)
    requires Last(log) == Some(Polled) || Sending(log)
    ensures EverReady(log)
    decreases |log|
  {
    assert log[..|log|] == log;
    var at := LastHappened(log, |log|);
    if !log[at].Ready? {
      WasOwed(params, log, at);
      LawfulPrefix(params, log, at);
      CameFromStream(params, log, at);
      StreamWasReady(params, log[..at]);
      var r :| 0 <= r < at && log[..at][r].Ready?;
      assert log[r].Ready?;
    }
  }

  lemma CameFromStream(params: Params, log: seq<Event>, at: nat)
    requires Lawful(params, log) && at < |log| && (log[at].Polled? || log[at].Message? || log[at].Sent?)
    ensures Last(log[..at]) == Some(Polled) || Sending(log[..at])
  {
    WasOwed(params, log, at);
    assert Follows(params, log[..at], log[at]);
  }

  /** There is such a point: a first connection whose session starts with nothing queued. */
  lemma SessionComesUp(params: Params, id: string) returns (log: seq<Event>)
    ensures Lawful(params, log) && Last(log) == Some(Polled) && Waiting(log) == []
  {
    log := TransportComesUp(params);
    hide Lawful, Waiting, Last, Ended, Target;
    log := Then(params, log, Greeted, Accept);
    log := Then(params, log, Requested(Target(params, log)), Other);
    log := Then(params, log, Ready(id), SessionReady(id));
    log := Then(params, log, Polled, Other);
  }

  lemma TransportComesUp(params: Params) returns (log: seq<Event>)
    ensures Lawful(params, log) && Last(log) == Some(Opened) && Waiting(log) == [] && !Ended(log)
  {
    assert Lawful(params, []) && Waiting([]) == [] && !Ended([]) && Last([]) == None;
    hide Lawful, Waiting, Last, Ended;
    log := Then(params, [], Opening(true), Other);
    log := Then(params, log, Opened, Accept);
  }

  /** One event more, heard or owed. */
  lemma Then(params: Params, log: seq<Event>, e: Event, h: Happening) returns (more: seq<Event>)
    requires Lawful(params, log) && Waiting(log) == [] && !Ended(log)
    requires if External(e) then CanHappen(log, h) && e == Hears(log, h) else Next(params, log) == Some(e)
    requires !e.Arrived? && !IsEnd(e)
    ensures more == log + [e] && Lawful(params, more) && !Ended(more)
    ensures Last(more) == Some(e) && Waiting(more) == []
  {
    more := log + [e];
    if External(e) {
      Heard(params, log, h);
    }
    LawfulMore(params, log, e);
    Grown(log, e);
    GrownWaiting(log, e);
  }

  // ----- What comes after what -----

  /** A session had started before entry `k`. */
  ghost predicate ReadyBefore(log: seq<Event>, k: nat) {
    exists r :: 0 <= r < k && r < |log| && log[r].Ready?
  }

  /** The entries of a log in their order, commands that arrive in between apart. */
  ghost predicate Sequel(params: Params, log: seq<Event>, c: nat, e: Event)
    requires c < |log|
  {
    match log[c]
    case Opening(_) => e == Opened || e == OpenFailed
    case OpenFailed => if ReadyBefore(log, c) then e.Reconnecting? else e == ConnectFailed
    case Opened => e == Greeted || e == Closed
    case Greeted => e.Requested?
    case Requested(_) => e.Ready? || e == Closed
    case Ready(_) => e.Sent? || e == Polled
    case Message => e.Sent? || e == Polled
    case Polled => e.Sent? || e == Message || e == Closed || e.ServerEnded?
    case Sent(item) =>
      (match item.cmd
       case Disconnect => e == Quit
       case EndSession => e.SessionEnded? && e.why.ByUser?
       case Input(_) => e.Sent? || e == Polled)
    case ServerEnded(reason) => e == SessionEnded(ByServer(reason))
    case Closed =>
      if !ReadyBefore(log, c) then e == ConnectFailed
      else if params.reconnect then e == Drained
      else e == SessionEnded(ReconnectDisabled)
    case Drained => e.Reconnecting?
    case Reconnecting(n) => e == Slept(Backoff(n))
    case Slept(_) => e == Opening(false)
    case _ => false
  }

  /** Over every run: whatever happened, the next entry is one of those that may follow it. */
  lemma WhatFollows(params: Params, log: seq<Event>, c: nat, d: nat)
    requires Lawful(params, log) && c < d < |log| && !log[c].Arrived? && !log[d].Arrived?
    requires forall j :: c < j < d ==> log[j].Arrived?
    ensures Sequel(params, log, c, log[d])
  {
    LastStays(log, c, d);
    WasOwed(params, log, d);
    ReadyThen(log, c, d);
    if External(log[d]) {
      hide Waiting, Attempts, LatestId, EverReady;
      var h :| CanHappen(log[..d], h) && log[d] == Hears(log[..d], h);
    }
  }

  lemma ReadyThen(log: seq<Event>, c: nat, d: nat)
    requires c < d <= |log| && forall j :: c < j < d ==> log[j].Arrived?
    ensures EverReady(log[..d]) <==> ReadyBefore(log, c) || log[c].Ready?
  {
    assert forall r :: 0 <= r < d ==> log[..d][r] == log[r];
    if ReadyBefore(log, c) {
      var r :| 0 <= r < c && log[r].Ready?;
      assert log[..d][r].Ready?;
    }
    if log[c].Ready? {
      assert log[..d][c].Ready?;
    }
  }

  /** Every answer of the outside world is possible where it is waited for. */
  lemma OutsideMay(params: Params, log: seq<Event>, e: Event)
    requires Lawful(params, log) && Last(log).Some?
    requires match Last(log).value
             case Opening(_) => e == Opened || e == OpenFailed
             case Opened => e == Greeted || e == Closed
             case Requested(_) => e.Ready? || e == Closed
             case Polled => e == Message || e == Closed || e.ServerEnded?
             case _ => false
    ensures Lawful(params, log + [e])
  {
    var h := match e
             case Opened => Accept
             case Greeted => Accept
             case Ready(id) => SessionReady(id)
             case ServerEnded(reason) => End(reason)
             case Message => Other
             case _ => Refuse;
    Heard(params, log, h);
    assert e == Hears(log, h);
    LawfulMore(params, log, e);
  }

  /** The first thing a client does is to open a transport, and it may prompt for that one only. */
  lemma FirstEntry(params: Params, log: seq<Event>, d: nat)
    requires Lawful(params, log) && d < |log| && !log[d].Arrived?
    requires forall j :: 0 <= j < d ==> log[j].Arrived?
    ensures log[d] == Opening(true)
  {
    OnlyArrivals(log, d);
    WasOwed(params, log, d);
  }

  lemma {:induction false} OnlyArrivals(log: seq<Event>, d: nat)
    requires d <= |log| && forall j :: 0 <= j < d ==> log[j].Arrived?
    ensures Last(log[..d]) == None
  {
    if d > 0 {
      Through(log, d - 1);
      Grown(log[..d - 1], log[d - 1]);
      OnlyArrivals(log, d - 1);
    }
  }

  /**
   Once a session started, and reconnecting is on, a run ends for one of three
   reasons and names it: the server ended the session and gave that reason, or
   the user disconnected, or asked for the latest session to be ended.
   */
  lemma NeverGivesUp(params: Params, log: seq<Event>, k: nat, r: nat) returns (at: nat)
    requires Lawful(params, log) && params.reconnect
    requires r < k < |log| && log[r].Ready? && IsEnd(log[k])
    ensures at < k && forall j :: at < j < k ==> log[j].Arrived?
    ensures match log[k]
            case Quit => log[at].Sent? && log[at].item.cmd.Disconnect?
            case SessionEnded(ByServer(reason)) => log[at] == ServerEnded(reason)
            case SessionEnded(ByUser(id)) =>
              log[at].Sent? && log[at].item.cmd.EndSession? && id == IdOrEmpty(LatestId(log[..k]))
            case _ => false
  {
    assert log[..k][r] == log[r];
    WasOwed(params, log, k);
    at := LastHappened(log, k);
  }

  /** A retry that fails is followed by another, and a lost session by a drain and a first one. */
  lemma RetriesGoOn(params: Params, log: seq<Event>, c: nat, d: nat)
    requires Lawful(params, log) && params.reconnect && ReadyBefore(log, c) && c < d < |log|
    requires !log[d].Arrived? && forall j :: c < j < d ==> log[j].Arrived?
    ensures log[c] == OpenFailed ==> log[d] == Reconnecting(Attempts(log[..c]) + 1)
    ensures log[c] == Closed ==> log[d] == Drained
    ensures log[c] == Drained ==> log[d] == Reconnecting(Attempts(log[..c]) + 1)
  {
    hide Lawful, Follows, Attempts;
    if log[c] == OpenFailed || log[c] == Closed || log[c] == Drained {
      WhatFollows(params, log, c, d);
      if log[d].Reconnecting? {
        AttemptIsNext(params, log, d);
        SameAttempts(log, c, d);
      }
    }
  }

  lemma SameAttempts(log: seq<Event>, c: nat, d: nat)
    requires c < d <= |log| && (log[c] == OpenFailed || log[c] == Drained)
    requires forall j :: c < j < d ==> log[j].Arrived?
    ensures Attempts(log[..d]) == Attempts(log[..c])
  {
    AttemptsCount(log, c, d);
  }

  /** The stream is looked at only when every command that arrived was sent or drained. */
  lemma PolledWhenEmpty(params: Params, log: seq<Event>, k: nat, item: Item)
    requires Lawful(params, log) && k < |log| && log[k] == Polled
    ensures !Pending(log[..k], item)
  {
    WasOwed(params, log, k);
    hide Lawful, Follows, Pending;
    LawfulPrefix(params, log, k);
    WaitingIsPending(params, log[..k]);
    PolledOwed(params, log[..k]);
  }

  lemma PolledOwed(params: Params, log: seq<Event>)
    requires Next(params, log) == Some(Polled)
    ensures Waiting(log) == []
  {
    hide Waiting;
  }

  lemma SettledListens(params: Params, log: seq<Event>, script: seq<Happening>)
    requires IsRun(params, log, script)
    ensures Next(params, log) == None ==> Ended(log) || Listening(log)
  {
    RunsAreLawful(params, log, script);
    if Next(params, log) == None {
      NeverStuck(params, log);
    }
  }

  /** A client that has nothing of its own to do has ended, or waits for its transport or its stream. */
  lemma NeverStuck(params: Params, log: seq<Event>)
    requires Lawful(params, log) && Next(params, log) == None
    ensures Ended(log) || Listening(log)
  {
    hide Waiting, Attempts, LatestId, EverReady;
    if Last(log).Some? {
      assert log[..|log|] == log;
      var at := LastHappened(log, |log|);
      if IsEnd(log[at]) {
        EndIsLast(params, log, at);
      }
    }
  }

  /** With reconnecting off there is one transport and no retry. */
  lemma NoRetryWhenOff(params: Params, log: seq<Event>, k: nat)
    requires Lawful(params, log) && !params.reconnect && k < |log|
    ensures !log[k].Drained? && !log[k].Reconnecting? && !log[k].Slept?
    ensures log[k] != Opening(false)
  {
    WasOwed(params, log, k);
    if log[k].Reconnecting? && Last(log[..k]) == Some(OpenFailed) {
      var o := RetryFailed(params, log, k);
      NoRetryWhenOff(params, log, o);
    } else if log[k].Reconnecting? || log[k].Slept? || log[k] == Opening(false) {
      var at := LastHappened(log, k);
      NoRetryWhenOff(params, log, at);
    }
  }

  /** A transport that fails to open once a session started is one of the unprompted retries. */
  lemma RetryFailed(params: Params, log: seq<Event>, k: nat) returns (o: nat)
    requires Lawful(params, log) && k <= |log|
    requires Last(log[..k]) == Some(OpenFailed) && EverReady(log[..k])
    ensures o < k && log[o] == Opening(false)
  {
    var at := LastHappened(log, k);
    OpenFailedAnswers(params, log, at);
    o := LastHappened(log, at);
    if log[o] == Opening(true) {
      FirstOpening(params, log, o);
      ReadyEarlier(log, o, at, k);
      NothingReady(log[..o]);
    }
  }

  lemma ReadyEarlier(log: seq<Event>, o: nat, at: nat, k: nat)
    requires o < at < k <= |log| && EverReady(log[..k])
    requires !log[o].Ready? && !log[at].Ready?
    requires forall j :: o < j < at ==> log[j].Arrived?
    requires forall j :: at < j < k ==> log[j].Arrived?
    ensures EverReady(log[..o])
  {
    var r :| 0 <= r < k && log[..k][r].Ready?;
    assert !log[r].Arrived?;
    assert log[..o][r] == log[r];
  }

  lemma OpenFailedAnswers(params: Params, log: seq<Event>, k: nat)
    requires Lawful(params, log) && k < |log| && log[k] == OpenFailed
    ensures Last(log[..k]).Some? && Last(log[..k]).value.Opening?
  {
    WasOwed(params, log, k);
  }

  /** Only the first transport may prompt for a password or a host key. */
  lemma FirstOpening(params: Params, log: seq<Event>, k: nat)
    requires Lawful(params, log) && k < |log| && log[k] == Opening(true)
    ensures Last(log[..k]) == None
  {
    WasOwed(params, log, k);
  }

  lemma {:induction false} NothingReady(log: seq<Event>)
    requires Last(log) == None
    ensures !EverReady(log)
  {
    if |log| > 0 {
      NothingReady(log[..|log| - 1]);
      assert forall k :: 0 <= k < |log| - 1 ==> log[k] == log[..|log| - 1][k];
    }
  }
}
