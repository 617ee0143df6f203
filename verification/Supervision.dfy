/** The pairing gate and the supervisor of the Soloist process, as the code runs
    them (internal/soloist/pair.go:57-171, supervisor.go:73-334, connector.go and
    cmd/shim/main.go:225-267), over a world that chooses exits, dial results,
    write failures, published ports and cancellation, and in which command
    senders write at any moment. Every method keeps the log conforming to module
    Protocol, so the lemmas there hold of every run. */
module Supervision {
  import opened Backoff
  import opened Logs
  import opened Protocol
  import opened Wrappers

  datatype Reason = NoReason | SoloistExpired

  // ---- The port discovery ---------------------------------------------------------

  /** A ready case of waitWSAddr's select; Tick says whether ws.port is there. */
  datatype Poll = ContextDone | ProcessExit(code: int) | PortTimeout | Tick(port: bool)

  /** What waitWSAddr returns: an address (empty or published) with a nil error,
      or an error. */
  datatype Discovery = Address(published: bool) | Cancelled | TimedOut | Exited(code: int)

  /** An exit with code 0 carries a nil error, so it reads as success. */
  function Decide(poll: Poll): Option<Discovery> {
    match poll
    case ContextDone => Some(Discovery.Cancelled)
    case ProcessExit(code) => Some(if code == 0 then Address(false) else Exited(code))
    case PortTimeout => Some(TimedOut)
    case Tick(port) => if port then Some(Address(true)) else None
  }

  function Discover(polls: seq<Poll>): Option<Discovery> {
    if polls == [] then None
    else if Decide(polls[0]).Some? then Decide(polls[0])
    else Discover(polls[1..])
  }

  /** The polls before the first decisive one: nothing but ticks without a port. */
  function IdlePolls(polls: seq<Poll>): (n: nat)
    ensures n <= |polls|
    ensures forall i :: 0 <= i < n ==> polls[i] == Tick(false)
    ensures n < |polls| ==> polls[n] != Tick(false)
  {
    if polls != [] && polls[0] == Tick(false) then 1 + IdlePolls(polls[1..]) else 0
  }

  /** The process exits with code 0 before anything else decides. */
  predicate ExitsQuietly(polls: seq<Poll>) {
    var n := IdlePolls(polls);
    n < |polls| && polls[n] == ProcessExit(0)
  }

  /** The discovery returns a nil error without an address exactly when the
      process exits with code 0 before anything else decides: the exit is then
      consumed, and nobody handles it. Every other exit is reported as such. */
  lemma {:induction false} SwallowedExit(polls: seq<Poll>)
    ensures
      var n := IdlePolls(polls);
      && (Discover(polls) == Some(Address(false)) <==> ExitsQuietly(polls))
      && (forall code :: Discover(polls) == Some(Exited(code)) <==>
           n < |polls| && polls[n] == ProcessExit(code) && code != 0)
  {
    if polls != [] && polls[0] == Tick(false) {
      SwallowedExit(polls[1..]);
    }
  }

  // ---- The world --------------------------------------------------------------------

  /** The fields show the monitor's state. */
  ghost predicate Shows(
      m: Monitor, cfg: Config, started: nat, exitTaken: bool, dialled: nat, open: bool, conn: Option<nat>)
  {
    && m.proc.started == started && m.proc.exitSeen == exitTaken
    && m.conn.dialled == dialled && m.conn.open == open && m.conn.attached == conn.Some?
    && (conn.Some? ==> cfg.commands && LastConnection(m.conn, conn.value))
    && (open ==> dialled > 0)
  }

  class CommandConnector {
    var conn: Option<nat>

    constructor ()
      ensures conn == None
    {
      conn := None;
    }

    method Attach(c: nat)
      modifies this
      ensures conn == Some(c)
    {
      conn := Some(c);
    }

    method Detach()
      modifies this
      ensures conn == None
    {
      conn := None;
    }
  }

  class World {
    const cfg: Config
    const connector: CommandConnector
    var cancelled: bool
    var started: nat
    var dialled: nat
    var open: bool // the last connection
    var exitTaken: bool // the one-shot exit channel of the last process is empty
    ghost var log: seq<Entry>

    ghost var m: Monitor // what the log amounts to

    ghost predicate Logged()
      reads this
    {
      Amounts(RulesOf(cfg), log, m)
    }

    ghost predicate Valid()
      reads this, connector
    {
      && Logged()
      && Shows(m, cfg, started, exitTaken, dialled, open, connector.conn)
    }

    constructor (cfg: Config, connector: CommandConnector)
      requires connector.conn == None
      ensures Valid() && Idle(m) && !m.exp.expired && log == []
      ensures this.cfg == cfg && this.connector == connector
    {
      this.cfg, this.connector := cfg, connector;
      cancelled, started, dialled, open, exitTaken, log, m := false, 0, 0, false, false, [], START;
    }

    /** Adds an entry to the log. */
    ghost method Emit(e: Entry)
      requires Logged() && Allowed(cfg, m, e)
      modifies this`log, this`m
      ensures Logged() && log == old(log) + [e]
      ensures m == After(old(m), e)
    {
      AmountsExtends(RulesOf(cfg), log, m, e);
      log, m := log + [e], After(m, e);
    }

    /** Command senders write whatever they like through the connector, and the
        context may be cancelled. */
    method Meanwhile()
      requires Valid()
      modifies this`cancelled, this`log, this`m
      ensures Valid() && old(log) <= log && m == old(m)
      ensures old(cancelled) ==> cancelled
    {
      var writes: nat := *;
      var i := 0;
      while i < writes
        invariant Valid() && old(log) <= log && m == old(m)
        invariant cancelled == old(cancelled)
      {
        if cfg.commands {
          var name: string := *;
          var _ := SendCommand(name);
        }
        i := i + 1;
      }
      var cancel: bool := *;
      cancelled := cancelled || cancel;
    }

    /** CommandConnector.write for a sender's command: refused without a
        connection, else written to it. */
    method SendCommand(name: string) returns (ok: bool)
      requires Valid() && cfg.commands
      modifies this`log, this`m
      ensures Valid() && m == old(m)
      ensures log == old(log) + [
        if connector.conn == None then Refused(Command(name)) else Wrote(connector.conn.value, Command(name), ok)]
      ensures connector.conn == None ==> !ok
    {
      ok := false;
      if connector.conn == None {
        Emit(Refused(Command(name)));
      } else {
        ok := Accepts();
        Emit(Wrote(connector.conn.value, Command(name), ok));
      }
    }

    /** Whether a write succeeds; one to a closed connection does not. */
    method Accepts() returns (ok: bool)
      ensures ok ==> open
    {
      ok := *;
      ok := ok && open;
    }

    method StartProcess() returns (ok: bool)
      requires Valid() && Idle(m) && !m.proc.called && !m.exp.expired && !m.debts.retry
      modifies this
      ensures Valid() && old(log) <= log && (old(cancelled) ==> cancelled)
      ensures !ok ==> m == old(m)
      ensures ok ==> |log| > |old(log)|
      ensures ok ==> m == After(old(m), Started(old(started))) && started == old(started) + 1
    {
      Meanwhile();
      ok := *;
      if ok {
        Emit(Started(started));
        started := started + 1;
        exitTaken := false;
      }
    }

    /** Killing is always possible, also after an exit. */
    method Kill()
      requires Valid() && started > 0
      modifies this`cancelled, this`log, this`m
      ensures Valid() && old(log) <= log && (old(cancelled) ==> cancelled)
      ensures m == old(m).(proc := old(m).proc.(live := false))
    {
      Meanwhile();
      Emit(Killed(started - 1));
    }

    /** A receive from the exit channel, if it is ready. */
    method PollExit() returns (code: Option<int>)
      requires Valid() && started > 0 && Unconnected(m) && !m.exp.expired
      requires m.proc.called && (m.call.code.Some? ==> exitTaken) && !m.call.stored
      modifies this`cancelled, this`log, this`m, this`exitTaken
      ensures Valid() && old(log) <= log && (old(cancelled) ==> cancelled)
      ensures code.None? ==> m == old(m) && exitTaken == old(exitTaken)
      ensures code.Some? ==>
        && !old(exitTaken) && exitTaken && ExitSeen(started - 1, code.value) in log
        && m == After(old(m), ExitSeen(started - 1, code.value))
    {
      Meanwhile();
      var exited: bool := *;
      code := None;
      if exited && !exitTaken {
        var c: int := *;
        code := Some(c);
        Emit(ExitSeen(started - 1, c));
        exitTaken := true;
      }
    }

    /** Looks for the published port. */
    method PollPort() returns (found: bool)
      requires Valid() && started > 0 && Allowed(cfg, m, ReadPort(started - 1, true))
      modifies this`log, this`m
      ensures Valid() && log == old(log) + [ReadPort(started - 1, found)]
      ensures m == old(m).(proc := old(m).proc.(located := found))
    {
      found := *;
      Emit(ReadPort(started - 1, found));
    }

    /** Looks for the stored session. */
    method CheckSession() returns (stored: bool)
      requires Valid() && Allowed(cfg, m, CheckedSession(true))
      modifies this`log, this`m
      ensures Valid() && log == old(log) + [CheckedSession(stored)]
      ensures m == old(m).(call := old(m).call.(stored := old(m).call.stored || stored))
    {
      stored := *;
      Emit(CheckedSession(stored));
    }

    /** Dialling an empty address never succeeds. */
    method Dial(published: bool) returns (c: Option<nat>)
      requires Valid() && Unconnected(m) && !m.exp.expired && !m.debts.redial
      requires published ==> m.proc.live && m.proc.located
      modifies this`cancelled, this`log, this`m, this`dialled, this`open
      ensures Valid() && old(log) <= log && (old(cancelled) ==> cancelled)
      ensures c.None? ==> m == old(m).(debts := old(m).debts.(redial := true)) && !open
      ensures |log| > |old(log)|
      ensures c.Some? ==> published && open && dialled == c.value + 1 && m == After(old(m), Dialled(c.value))
    {
      Meanwhile();
      var ok: bool := *;
      if published && ok {
        c := Some(dialled);
        Emit(Dialled(dialled));
        open, dialled := true, dialled + 1;
      } else {
        c := None;
        Emit(DialFailed);
      }
    }

    method Close(c: nat)
      requires Valid() && dialled == c + 1 && (open ==> Used(cfg, m.conn))
      modifies this`cancelled, this`log, this`m, this`open
      ensures Valid() && old(log) <= log && (old(cancelled) ==> cancelled)
      ensures !open && m == old(m).(conn := old(m).conn.(open := false))
    {
      Meanwhile();
      Emit(Closed(c));
      open := false;
    }

    method Sleep(kind: Waiting, d: Duration) returns (slept: bool)
      requires Valid() && Allowed(cfg, m, Slept(kind, d))
      modifies this`cancelled, this`log, this`m
      ensures Valid() && old(log) <= log && (old(cancelled) ==> cancelled)
      ensures m == old(m).(
        waits := AfterWaits(old(m).waits, Slept(kind, d)), debts := AfterDebts(old(m).debts, Slept(kind, d)))
      ensures !slept ==> cancelled
    {
      Emit(Slept(kind, d));
      Meanwhile();
      var timer: bool := *;
      slept := !cancelled || timer;
    }

    /** Writes through the connector when there is one, else to the connection;
        a write may fail at any time. */
    method Write(c: nat, msg: Message) returns (ok: bool)
      requires Valid() && open && MayWrite(cfg, m.conn, c, msg, true)
      modifies this`cancelled, this`log, this`m
      ensures Valid() && old(log) <= log && (old(cancelled) ==> cancelled)
      ensures m == old(m).(conn := AfterConnection(old(m).conn, Wrote(c, msg, ok)))
    {
      Meanwhile();
      ok := *;
      Emit(Wrote(c, msg, ok));
    }

    /** writeSetVolume: zero and negative volumes are not sent. */
    method WriteSetVolume(c: nat)
      requires Valid() && open && (cfg.volume > 0 ==> MayWrite(cfg, m.conn, c, SetVolume, true))
      modifies this`cancelled, this`log, this`m
      ensures Valid() && old(log) <= log && (old(cancelled) ==> cancelled)
      ensures m == old(m).(conn := old(m).conn.(volumeSent := old(m).conn.volumeSent || cfg.volume > 0))
    {
      if cfg.volume > 0 {
        var _ := Write(c, SetVolume);
      }
    }

    /** wsConsume: reads until the connection breaks; on cancellation its own
        goroutine closes the connection. */
    method Consume(c: nat)
      requires Valid() && dialled == c + 1 && (open ==> Used(cfg, m.conn))
      modifies this`cancelled, this`log, this`m, this`open
      ensures Valid() && old(log) <= log && (old(cancelled) ==> cancelled)
      ensures m == old(m).(conn := old(m).conn.(open := open))
    {
      Meanwhile();
      if cancelled {
        Close(c);
      }
    }

    method Attach(c: nat)
      requires Valid() && cfg.commands && dialled == c + 1 && open && connector.conn == None
      modifies this`log, this`m, connector
      ensures Valid() && old(log) <= log && connector.conn == Some(c)
      ensures m == old(m).(conn := old(m).conn.(attached := true))
    {
      connector.Attach(c);
      Emit(Attached(c));
    }

    method Detach()
      requires Valid() && cfg.commands
      modifies this`cancelled, this`log, this`m, connector
      ensures Valid() && old(log) <= log && (old(cancelled) ==> cancelled)
      ensures connector.conn == None && m == old(m).(conn := old(m).conn.(attached := false))
    {
      Meanwhile();
      connector.Detach();
      Emit(Detached);
    }
  }

  // ---- Supervisor.runOnce -------------------------------------------------------------

  /** What ended a call of runOnce: not counting what the exit code says. */
  datatype Cause = StartFailure | ContextCancelled | NoPort | ProcessExited(code: int) | Unfinished

  /** The log only grows, a cancelled context stays so, and no restart or pairing
      was waited for. */
  twostate predicate Onward(w: World)
    reads w
  {
    && old(w.log) <= w.log && (old(w.cancelled) ==> w.cancelled)
    && w.m.waits.restarts == old(w.m.waits.restarts) && w.m.waits.retries == old(w.m.waits.retries)
  }

  /** Nor is it done yet, or the call over. */
  twostate predicate Within(w: World)
    reads w
  {
    && Onward(w) && w.m.debts.retry == old(w.m.debts.retry) && w.m.proc.called == old(w.m.proc.called)
    && w.m.call.paired == old(w.m.call.paired)
  }

  /** Every observation that a poll stands for is in the log. */
  ghost predicate PollsLogged(polls: seq<Poll>, p: nat, log: seq<Entry>) {
    && (forall code :: ProcessExit(code) in polls ==> ExitSeen(p, code) in log)
    && (Tick(true) in polls ==> ReadPort(p, true) in log)
    && (PortTimeout in polls ==> PortTimedOut(p) in log)
  }

  /** What a result of the discovery says of the log. */
  ghost predicate Announced(r: Option<Discovery>, p: nat, log: seq<Entry>) {
    && (r == Some(Address(false)) ==> ExitSeen(p, 0) in log)
    && (r.Some? && r.value.Exited? ==> r.value.code != 0 && ExitSeen(p, r.value.code) in log)
    && (r == Some(TimedOut) ==> PortTimedOut(p) in log)
    && (r == Some(Address(true)) ==> ReadPort(p, true) in log)
  }

  /** The call has seen nothing of its process yet. */
  predicate NothingSeen(x: Call) {
    x.code.None? && !x.stored && !x.timedOut
  }

  /** The process runs, its port is not found yet, and no exit of it was seen. */
  ghost predicate Searching(w: World)
    reads w, w.connector
  {
    && w.Valid() && w.started > 0 && Unconnected(w.m)
    && !w.m.exp.expired && !w.m.exp.deleted && !w.m.exp.reported
    && w.m.waits.dialFailures == 0 && w.m.debts == Debts(false, false)
    && !w.exitTaken && w.m.proc.live && !w.m.proc.located && w.m.proc.called && NothingSeen(w.m.call)
  }

  /** What the discovery leaves behind. */
  ghost predicate Discovered(w: World, found: Discovery)
    reads w, w.connector
  {
    && w.Valid() && w.started > 0 && Unconnected(w.m)
    && !w.m.exp.deleted && !w.m.exp.reported && w.m.waits.dialFailures == 0 && w.m.debts == Debts(false, false)
    && (w.exitTaken <==> found.Exited? || found == Address(false)) && w.m.proc.live == !w.exitTaken
    && w.m.proc.located == (found == Address(true))
    && (w.m.exp.expired <==> found == Exited(EXPIRED_CODE))
    && (found == Discovery.Cancelled ==> w.cancelled)
    && Announced(Some(found), w.started - 1, w.log)
    && w.m.proc.called && !w.m.call.stored && w.m.call.timedOut == found.TimedOut?
    && w.m.call.code == (if found.Exited? then Some(found.code) else if found == Address(false) then Some(0) else None)
  }

  /** waitWSAddr, watched for at most `budget` polls. */
  method WaitWSAddr(w: World, budget: nat) returns (r: Option<Discovery>, ghost polls: seq<Poll>)
    requires Searching(w)
    modifies w
    ensures w.Valid() && Within(w) && w.started == old(w.started)
    ensures w.m == old(w.m).(proc := w.m.proc, exp := w.m.exp, call := w.m.call)
    ensures r == Discover(polls) && PollsLogged(polls, w.started - 1, w.log)
    ensures r.None? ==> Searching(w) && |polls| == budget && |w.log| >= |old(w.log)| + budget
    ensures r.Some? ==> Discovered(w, r.value)
  {
    polls := [];
    assert forall more: seq<Poll> :: [] + more == more;
    var left := budget;
    while left > 0
      invariant Searching(w) && Within(w) && w.started == old(w.started) && w.m == old(w.m)
      invariant |polls| == budget - left && |w.log| >= |old(w.log)| + budget - left
      invariant forall more :: Discover(polls + more) == Discover(more)
      invariant PollsLogged(polls, w.started - 1, w.log)
    {
      left := left - 1;
      ghost var before := w.log;
      var poll := PollOnce(w);
      Decided(polls, poll);
      OneMoreLogged(polls, poll, w.started - 1, before, w.log);
      polls := polls + [poll];
      r := Decide(poll);
      if r.Some? {
        return;
      }
    }
    r := None;
    assert polls + [] == polls;
  }

  lemma OneMoreLogged(polls: seq<Poll>, poll: Poll, p: nat, before: seq<Entry>, log: seq<Entry>)
    requires PollsLogged(polls, p, before) && before <= log && PollsLogged([poll], p, log)
    ensures PollsLogged(polls + [poll], p, log)
  {
    assert [poll][0] == poll;
  }

  /** One ready case of waitWSAddr's select. */
  method PollOnce(w: World) returns (poll: Poll)
    requires Searching(w)
    modifies w
    ensures w.Valid() && Within(w) && w.started == old(w.started)
    ensures w.m == old(w.m).(proc := w.m.proc, exp := w.m.exp, call := w.m.call)
    ensures PollsLogged([poll], w.started - 1, w.log)
    ensures Decide(poll).None? ==> Searching(w) && w.m == old(w.m) && |w.log| > |old(w.log)|
    ensures Decide(poll).Some? ==> Discovered(w, Decide(poll).value)
  {
    var pick: int := *;
    var exit := LookForExit(w);
    if exit.Some? {
      poll := ProcessExit(exit.value);
    } else if w.cancelled && pick == 0 {
      poll := ContextDone;
    } else if pick == 1 {
      poll := PortTimeout;
      GiveUpSearch(w);
    } else {
      var found := LookForPort(w);
      poll := Tick(found);
    }
    PollLogged(poll, w.started - 1, w.log);
  }

  lemma PollLogged(poll: Poll, p: nat, log: seq<Entry>)
    requires poll.ProcessExit? ==> ExitSeen(p, poll.code) in log
    requires poll == Tick(true) ==> ReadPort(p, true) in log
    requires poll.PortTimeout? ==> PortTimedOut(p) in log
    ensures PollsLogged([poll], p, log)
  {}

  method LookForExit(w: World) returns (exit: Option<int>)
    requires Searching(w)
    modifies w
    ensures Within(w) && w.started == old(w.started)
    ensures w.m == old(w.m).(proc := w.m.proc, exp := w.m.exp, call := w.m.call)
    ensures exit.None? ==> Searching(w) && w.m == old(w.m)
    ensures exit.Some? ==>
      && ExitSeen(w.started - 1, exit.value) in w.log
      && Discovered(w, if exit.value == 0 then Address(false) else Exited(exit.value))
  {
    exit := w.PollExit();
  }

  method GiveUpSearch(w: World)
    requires Searching(w)
    modifies w
    ensures Within(w) && w.started == old(w.started) && w.cancelled == old(w.cancelled)
    ensures w.m == old(w.m).(call := old(w.m).call.(timedOut := true))
    ensures Discovered(w, TimedOut) && PortTimedOut(w.started - 1) in w.log
  {
    w.Emit(PortTimedOut(w.started - 1));
    assert w.log[|w.log| - 1] == PortTimedOut(w.started - 1);
  }

  method LookForPort(w: World) returns (found: bool)
    requires Searching(w)
    modifies w
    ensures Within(w) && w.started == old(w.started) && w.m == old(w.m).(proc := w.m.proc)
    ensures |w.log| > |old(w.log)| && w.cancelled == old(w.cancelled)
    ensures if found then Discovered(w, Address(true)) && ReadPort(w.started - 1, true) in w.log
      else Searching(w) && w.m == old(w.m)
  {
    found := w.PollPort();
    assert w.log[|w.log| - 1] == ReadPort(w.started - 1, found);
  }

  lemma Decided(polls: seq<Poll>, poll: Poll)
    requires forall more :: Discover(polls + more) == Discover(more)
    ensures Discover(polls + [poll]) == Decide(poll)
    ensures Decide(poll).None? ==> forall more :: Discover(polls + [poll] + more) == Discover(more)
  {
    assert Discover([poll]) == Decide(poll);
    if Decide(poll).None? {
      forall more ensures Discover(polls + [poll] + more) == Discover(more) {
        assert polls + [poll] + more == polls + ([poll] + more);
        assert ([poll] + more)[1..] == more;
      }
    }
  }

  /** handleExit: only code 10 is final. */
  method HandleExit(w: World, code: int) returns (reason: Reason, restart: bool)
    requires w.Valid() && Idle(w.m) && !w.m.exp.deleted && (w.m.exp.expired <==> code == EXPIRED_CODE)
    modifies w
    ensures w.Valid() && Within(w)
    ensures w.m == old(w.m).(exp := old(w.m).exp.(deleted := w.m.exp.deleted))
    ensures reason == (if code == 10 then SoloistExpired else NoReason) && restart == (code != 10)
    ensures w.m.exp.deleted <==> w.cfg.binaryManager && code == 10
    ensures w.cancelled == old(w.cancelled)
  {
    if code == EXPIRED_CODE {
      if w.cfg.binaryManager {
        w.Emit(DeletedBinary);
      }
      return SoloistExpired, false;
    }
    return NoReason, true;
  }

  /** One connection: attach, activate, serve, take down. Once activated, the
      session is served: health is reported, and the volume sent if there is one. */
  method Session(w: World, c: nat) returns (activated: bool)
    requires w.Valid() && w.dialled == c + 1 && w.open && w.connector.conn == None
    requires !w.m.exp.expired && !w.m.conn.activated && !w.m.conn.volumeSent
    modifies w, w.connector
    ensures w.Valid() && Within(w)
    ensures w.m == old(w.m).(conn := w.m.conn) && Unconnected(w.m)
    ensures w.m.conn.activated && w.m.conn.ready == activated
    ensures w.m.conn.volumeSent == (activated && w.cfg.volume > 0)
    ensures activated ==> ReportedHealthy in w.log[|old(w.log)|..]
    ensures w.started == old(w.started) && w.exitTaken == old(w.exitTaken)
  {
    activated := Activation(w, c);
    if activated {
      Serve(w, c);
    }
    TakeDown(w, c);
  }

  /** Attaches the connection and sends activate on it. */
  method Activation(w: World, c: nat) returns (activated: bool)
    requires w.Valid() && w.dialled == c + 1 && w.open && w.connector.conn == None && !w.m.conn.activated
    modifies w`cancelled, w`log, w`m, w.connector
    ensures w.Valid() && Within(w) && (w.cfg.commands ==> w.connector.conn == Some(c))
    ensures w.m == old(w.m).(conn :=
      old(w.m).conn.(attached := w.cfg.commands, activated := true, ready := activated))
  {
    if w.cfg.commands {
      w.Attach(c);
    }
    activated := w.Write(c, Activate);
  }

  method TakeDown(w: World, c: nat)
    requires w.Valid() && w.dialled == c + 1 && (w.open ==> Used(w.cfg, w.m.conn))
    modifies w, w.connector
    ensures w.Valid() && Within(w)
    ensures w.m == old(w.m).(conn := old(w.m).conn.(attached := false, open := false))
    ensures w.started == old(w.started) && w.exitTaken == old(w.exitTaken)
  {
    if w.cfg.commands {
      w.Detach();
    }
    w.Close(c);
  }

  /** Reports health, sends the volume, and reads until the connection breaks. */
  method Serve(w: World, c: nat)
    requires w.Valid() && w.dialled == c + 1 && w.open && (w.cfg.commands ==> w.connector.conn == Some(c))
    requires !w.m.exp.expired && w.m.conn.activated && w.m.conn.ready && !w.m.conn.volumeSent
    modifies w
    ensures w.Valid() && Within(w)
    ensures w.m == old(w.m).(conn := old(w.m).conn.(
      open := w.open, served := true, volumeSent := w.cfg.volume > 0))
    ensures ReportedHealthy in w.log[|old(w.log)|..]
    ensures w.started == old(w.started) && w.exitTaken == old(w.exitTaken) && w.dialled == old(w.dialled)
  {
    w.Emit(ReportedHealthy);
    assert w.log[|old(w.log)|] == ReportedHealthy;
    w.WriteSetVolume(c);
    w.Consume(c);
  }

  /** The world as runOnce and Pair find it and leave it. */
  ghost predicate Ready(w: World)
    reads w, w.connector
  {
    && w.Valid() && Idle(w.m) && !w.m.exp.expired && !w.m.exp.deleted && !w.m.exp.reported
    && BetweenCalls(w.m)
  }

  predicate BetweenCalls(m: Monitor) {
    !m.proc.called && NothingSeen(m.call)
  }

  predicate Consistent(cause: Cause, reason: Reason, restart: bool) {
    match cause
    case StartFailure => reason == NoReason && restart
    case ContextCancelled => reason == NoReason && !restart
    case NoPort => reason == NoReason && restart
    case ProcessExited(code) =>
      if code == 10 then reason == SoloistExpired && !restart else reason == NoReason && restart
    case Unfinished => false
  }

  /** How a call ends: nothing of Soloist is left, the cause decides the result,
      the binary is deleted exactly on expiry, and an exit that ended the call was
      seen of this process, with this code. */
  ghost predicate Finished(w: World, cause: Cause, reason: Reason, restart: bool)
    reads w, w.connector
  {
    && w.Valid() && Idle(w.m) && !w.m.exp.reported
    && Consistent(cause, reason, restart)
    && (w.m.exp.expired <==> reason == SoloistExpired)
    && (w.m.exp.deleted <==> w.cfg.binaryManager && w.m.exp.expired)
    && (cause == ContextCancelled ==> w.cancelled)
    && (cause.ProcessExited? ==> w.started > 0 && w.exitTaken && ExitSeen(w.started - 1, cause.code) in w.log)
  }

  /** And before it returns: what it has seen of its process asks for that. */
  ghost predicate Leaving(w: World, cause: Cause, reason: Reason, restart: bool)
    reads w, w.connector
  {
    Finished(w, cause, reason, restart) && restart == RunAgain(w.m)
  }

  /** What the discovery's result means for the call that goes on with it. After
      a quiet exit there is no address to dial and no exit left to receive. */
  predicate Decides(found: Option<Discovery>, cause: Cause) {
    match found
    case None => cause == Unfinished
    case Some(Cancelled) => cause == ContextCancelled
    case Some(TimedOut) => cause == NoPort
    case Some(Exited(code)) => cause == ProcessExited(code)
    case Some(Address(published)) =>
      cause == Unfinished || cause == ContextCancelled || (published && cause.ProcessExited?)
  }

  /** An exit of the last process was seen, and the call ended without handling
      it. */
  ghost predicate LeavesExit(w: World, cause: Cause)
    reads w
  {
    w.started > 0 && SawExit(w.log, w.started - 1) && !cause.ProcessExited?
  }

  /** In the log: process p exited with code 0 before its port was found. */
  ghost predicate ExitedQuietly(log: seq<Entry>, p: nat) {
    ExitSeen(p, 0) in log && ReadPort(p, true) !in log
  }

  /** An exit that was seen is left unhandled if and only if the process exited
      with code 0 before its port was found, which is what the polls say too; and
      then only cancellation has ended the call. */
  ghost predicate ExitAccounted(w: World, cause: Cause, polls: seq<Poll>)
    reads w
  {
    && w.started > 0
    && (LeavesExit(w, cause) <==> ExitedQuietly(w.log, w.started - 1))
    && (LeavesExit(w, cause) <==> ExitsQuietly(polls))
    && (LeavesExit(w, cause) ==> cause == ContextCancelled)
    && (cause == NoPort ==> PortTimedOut(w.started - 1) in w.log)
  }

  /** And afterwards. */
  ghost predicate Returned(w: World, cause: Cause, reason: Reason, restart: bool)
    reads w, w.connector
  {
    && Finished(w, cause, reason, restart) && w.m.debts.retry == restart
    && BetweenCalls(w.m) && !w.m.call.wasPair
  }

  /** runOnce, watched for at most `budget` rounds of each loop. An exit that was
      seen is left unhandled if and only if the process exited with code 0 before
      its port was found, and then only cancellation ends the call. A call that is
      unfinished has left a trace of every round. */
  method RunOnce(w: World, budget: nat)
    returns (reason: Reason, restart: bool, cause: Cause, ghost polls: seq<Poll>)
    requires Ready(w) && !w.m.debts.retry
    modifies w, w.connector
    ensures w.Valid() && Onward(w)
    ensures cause != Unfinished ==> Returned(w, cause, reason, restart)
    ensures cause == Unfinished ==> w.m.proc.called && |w.log| >= |old(w.log)| + budget
    ensures cause == StartFailure <==> w.started == old(w.started)
    ensures cause != StartFailure ==> w.started == old(w.started) + 1
    ensures cause != StartFailure ==> Decides(Discover(polls), cause) && PollsLogged(polls, w.started - 1, w.log)
    ensures cause != StartFailure && cause != Unfinished ==> ExitAccounted(w, cause, polls)
    ensures |w.log| > |old(w.log)|
  {
    var ok := w.StartProcess();
    polls := [];
    if !ok {
      reason, restart, cause := NoReason, true, StartFailure;
      Return(w, cause, reason, restart);
      return;
    }
    reason, restart, cause, polls := Attend(w, budget);
    if cause != Unfinished {
      Conclude(w, cause, reason, restart, polls);
    }
  }

  /** The call returns, and its log tells what became of the exit. */
  method Conclude(w: World, cause: Cause, reason: Reason, restart: bool, ghost polls: seq<Poll>)
    requires Leaving(w, cause, reason, restart) && !w.m.debts.retry && cause != StartFailure
    requires Decides(Discover(polls), cause) && Concluded(w, Discover(polls), cause)
    requires PollsLogged(polls, w.started - 1, w.log)
    modifies w`log, w`m
    ensures Returned(w, cause, reason, restart) && Onward(w)
    ensures PollsLogged(polls, w.started - 1, w.log) && ExitAccounted(w, cause, polls)
    ensures |w.log| > |old(w.log)|
  {
    ghost var before := w.log;
    Return(w, cause, reason, restart);
    StillLogged(polls, Discover(polls), w.started - 1, before, w.log);
    LeftExactly(w, cause, polls);
  }

  /** An exit taken from the channel is one seen in the log, and the only one. */
  lemma LeftExactly(w: World, cause: Cause, polls: seq<Poll>)
    requires w.Valid() && cause != Unfinished && cause != StartFailure
    requires Concluded(w, Discover(polls), cause) && Decides(Discover(polls), cause)
    ensures ExitAccounted(w, cause, polls)
  {
    var p, found := w.started - 1, Discover(polls);
    SwallowedExit(polls);
    RememberedExit(w.cfg, w.log, p);
    if ExitedQuietly(w.log, p) {
      SeenIsSaw(w.log, p, 0);
      if found.Some? && found.value.Exited? {
        OneExitCode(w.cfg, w.log, p, 0, found.value.code);
      }
    }
  }

  lemma SeenIsSaw(log: seq<Entry>, p: nat, code: int)
    requires ExitSeen(p, code) in log
    ensures SawExit(log, p)
  {
    var i :| 0 <= i < |log| && log[i] == ExitSeen(p, code);
    assert log[i].ExitSeen? && log[i].p == p;
  }

  /** The call returns. */
  method Return(w: World, cause: Cause, reason: Reason, restart: bool)
    requires Leaving(w, cause, reason, restart) && !w.m.debts.retry
    modifies w`log, w`m
    ensures Returned(w, cause, reason, restart) && Onward(w)
    ensures w.log == old(w.log) + [RunReturned(restart)] && w.m.proc == old(w.m).proc.(called := false)
  {
    w.Emit(RunReturned(restart));
  }

  /** Everything runOnce does with the process it started. */
  method Attend(w: World, budget: nat)
    returns (reason: Reason, restart: bool, cause: Cause, ghost polls: seq<Poll>)
    requires Searching(w)
    modifies w, w.connector
    ensures w.Valid() && Within(w) && w.started == old(w.started)
    ensures cause != Unfinished ==> Leaving(w, cause, reason, restart)
    ensures cause == Unfinished ==> |w.log| >= |old(w.log)| + budget
    ensures Decides(Discover(polls), cause) && PollsLogged(polls, w.started - 1, w.log)
    ensures Concluded(w, Discover(polls), cause)
  {
    var found;
    found, polls := WaitWSAddr(w, budget);
    ghost var before := w.log;
    if found.Some? {
      reason, restart, cause := Proceed(w, found.value, budget);
    } else {
      reason, restart, cause := NoReason, false, Unfinished;
    }
    StillLogged(polls, found, w.started - 1, before, w.log);
  }

  lemma StillLogged(polls: seq<Poll>, r: Option<Discovery>, p: nat, before: seq<Entry>, log: seq<Entry>)
    requires before <= log && PollsLogged(polls, p, before) && Announced(r, p, before)
    ensures PollsLogged(polls, p, log) && Announced(r, p, log)
  {}

  /** What a call that is over has made of the discovery's result. */
  ghost predicate Concluded(w: World, found: Option<Discovery>, cause: Cause)
    reads w
  {
    && w.started > 0 && w.m.proc.located == (found == Some(Address(true))) && Announced(found, w.started - 1, w.log)
    && (cause != Unfinished ==> (w.exitTaken && !cause.ProcessExited? <==> found == Some(Address(false))))
  }

  /** The rest of the call, by what the discovery found. */
  method Proceed(w: World, found: Discovery, budget: nat) returns (reason: Reason, restart: bool, cause: Cause)
    requires Discovered(w, found)
    modifies w, w.connector
    ensures w.Valid() && Within(w) && w.started == old(w.started)
    ensures cause != Unfinished ==> Leaving(w, cause, reason, restart)
    ensures cause == Unfinished ==> |w.log| >= |old(w.log)| + budget
    ensures Decides(Some(found), cause) && Concluded(w, Some(found), cause)
  {
    match found
    case Cancelled =>
      w.Kill();
      return NoReason, false, ContextCancelled;
    case TimedOut =>
      w.Kill();
      return NoReason, true, NoPort;
    case Exited(code) =>
      w.Kill();
      reason, restart := HandleExit(w, code);
      cause := ProcessExited(code);
    case Address(published) =>
      reason, restart, cause := KeepConnected(w, published, budget);
  }

  /** What the dial loop knows each time around. */
  ghost predicate Looping(w: World, published: bool, dialBackoff: Duration)
    reads w, w.connector
  {
    && w.Valid() && w.started > 0 && Unconnected(w.m)
    && !w.m.exp.expired && !w.m.exp.deleted && !w.m.exp.reported
    && w.m.proc.live == !w.exitTaken
    && (published <==> !w.exitTaken) && (published <==> w.m.proc.located)
    && w.m.proc.called && !w.m.call.stored && !w.m.call.timedOut
    && w.m.call.code == (if w.exitTaken then Some(0) else None)
    && !w.m.debts.retry && dialBackoff == Delay(w.m.waits.dialFailures, DIAL_RETRY, DIAL_MAX_RETRY)
  }

  /** What can end the dial loop: cancellation, or an exit that nobody has taken
      yet, which there is only if an address was published. */
  ghost predicate EndsBy(w: World, published: bool, cause: Cause)
    reads w
  {
    && w.m.proc.located == published
    && (cause == Unfinished || cause == ContextCancelled || (published && cause.ProcessExited?))
    && (cause == ContextCancelled ==> w.exitTaken == !published)
  }

  /** The dial loop of runOnce: unless it finishes, every round dials. */
  method KeepConnected(w: World, published: bool, budget: nat) returns (reason: Reason, restart: bool, cause: Cause)
    requires Looping(w, published, DIAL_RETRY) && !w.m.debts.redial
    modifies w, w.connector
    ensures w.Valid() && Within(w) && w.started == old(w.started)
    ensures cause != Unfinished ==> Leaving(w, cause, reason, restart)
    ensures cause == Unfinished ==> |w.log| >= |old(w.log)| + budget
    ensures EndsBy(w, published, cause)
  {
    var dialBackoff := DIAL_RETRY;
    var left := budget;
    reason, restart, cause := NoReason, false, Unfinished;
    while left > 0 && cause == Unfinished
      invariant cause == Unfinished ==> Looping(w, published, dialBackoff) && !w.m.debts.redial
      invariant cause != Unfinished ==> Leaving(w, cause, reason, restart)
      invariant w.Valid() && Within(w) && w.started == old(w.started)
      invariant EndsBy(w, published, cause)
      invariant cause == Unfinished ==> |w.log| >= |old(w.log)| + budget - left
    {
      left := left - 1;
      var pick: bool := *;
      if w.cancelled && pick {
        reason, restart, cause := Abandon(w, published, dialBackoff);
      } else {
        reason, restart, cause := IfExited(w, published, dialBackoff, true);
        if cause == Unfinished {
          if w.cancelled {
            reason, restart, cause := Abandon(w, published, dialBackoff);
          } else {
            reason, restart, cause, dialBackoff := Connect(w, published, dialBackoff);
          }
        }
      }
    }
  }

  /** Kills the process and gives up because the context is cancelled. */
  method Abandon(w: World, ghost published: bool, ghost dialBackoff: Duration)
    returns (reason: Reason, restart: bool, cause: Cause)
    requires Looping(w, published, dialBackoff) && w.cancelled
    modifies w
    ensures Within(w) && w.started == old(w.started) && w.cancelled
    ensures cause == ContextCancelled && Leaving(w, cause, reason, restart) && EndsBy(w, published, cause)
  {
    w.Kill();
    return NoReason, false, ContextCancelled;
  }

  /** Handles the process exit if there is one, killing first when asked to. */
  method IfExited(w: World, ghost published: bool, ghost dialBackoff: Duration, kill: bool)
    returns (reason: Reason, restart: bool, cause: Cause)
    requires Looping(w, published, dialBackoff)
    modifies w
    ensures w.Valid() && Within(w) && w.started == old(w.started)
    ensures cause == Unfinished ==> Looping(w, published, dialBackoff) && w.m.debts == old(w.m.debts)
    ensures cause != Unfinished ==> Leaving(w, cause, reason, restart)
    ensures (cause == Unfinished || cause.ProcessExited?) && EndsBy(w, published, cause)
  {
    var exit := w.PollExit();
    if exit == None {
      return NoReason, false, Unfinished;
    }
    if kill {
      w.Kill();
    }
    reason, restart := HandleExit(w, exit.value);
    cause := ProcessExited(exit.value);
  }

  /** One dial, and the session or the wait that follows it. */
  method Connect(w: World, published: bool, dialBackoff: Duration)
    returns (reason: Reason, restart: bool, cause: Cause, next: Duration)
    requires Looping(w, published, dialBackoff) && !w.m.debts.redial
    modifies w, w.connector
    ensures w.Valid() && Within(w) && w.started == old(w.started)
    ensures cause == Unfinished ==> Looping(w, published, next) && !w.m.debts.redial
    ensures cause != Unfinished ==> Leaving(w, cause, reason, restart)
    ensures EndsBy(w, published, cause)
    ensures |w.log| > |old(w.log)|
  {
    var conn := w.Dial(published);
    if conn == None {
      reason, restart, cause, next := Redial(w, published, dialBackoff);
      return;
    }
    next := DIAL_RETRY;
    var activated := Session(w, conn.value);
    if !activated {
      return NoReason, false, Unfinished, next;
    }
    if w.cancelled {
      reason, restart, cause := Abandon(w, published, next);
    } else {
      reason, restart, cause := IfExited(w, published, next, false);
    }
  }

  /** After a failed dial: the process exit if there is one, else a longer wait. */
  method Redial(w: World, ghost published: bool, dialBackoff: Duration)
    returns (reason: Reason, restart: bool, cause: Cause, next: Duration)
    requires Looping(w, published, dialBackoff) && w.m.debts.redial
    modifies w
    ensures w.Valid() && Within(w) && w.started == old(w.started)
    ensures cause == Unfinished ==> Looping(w, published, next) && !w.m.debts.redial
    ensures cause != Unfinished ==> Leaving(w, cause, reason, restart)
    ensures EndsBy(w, published, cause)
  {
    next := dialBackoff;
    reason, restart, cause := IfExited(w, published, dialBackoff, false);
    if cause == Unfinished {
      var slept;
      slept, next := WaitToRedial(w, published, dialBackoff);
      if !slept {
        reason, restart, cause := Abandon(w, published, next);
      }
    }
  }

  method WaitToRedial(w: World, ghost published: bool, dialBackoff: Duration) returns (slept: bool, next: Duration)
    requires Looping(w, published, dialBackoff) && w.m.debts.redial
    modifies w
    ensures Looping(w, published, next) && !w.m.debts.redial && Within(w) && w.started == old(w.started)
    ensures !slept ==> w.cancelled
  {
    DelayStep(w.m.waits.dialFailures, DIAL_RETRY, DIAL_MAX_RETRY);
    slept := w.Sleep(Redialling, dialBackoff);
    next := NextBackoff(dialBackoff, DIAL_MAX_RETRY);
  }
}
