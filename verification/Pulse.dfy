/** What the supervisor of the PulseAudio daemon may do, as rules over the log of
    everything that happened, while nobody calls Stop
    (internal/audio/pulse.go:114-126, 166-291, 322-348). */
module PulseLog {
  import opened Backoff
  import opened Logs
  import opened Wrappers

  datatype Entry =
    | BringUp // startDaemon begins
    | EnvFailed
    | Launched
    | LaunchFailed
    | LauncherExited(code: int)
    | SocketSeen
    | SocketMissing // one look
    | SocketTimeout
    | SinkListed
    | SinkMissing // one failed try
    | SinkGivenUp
    | DefaultSet
    | DefaultRefused
    | AskedToExit // shutdownBestEffort
    | ReadySet(ready: bool)
    | Reported(healthy: bool)
    | Probed(alive: bool)
    | Slept(d: Duration)
    | Returned

  const SINK_TRIES: nat := 5

  /** How far the newest bring-up has come. */
  datatype Stage =
    | Begun
    | Spawned(exited: bool)
    | Reachable(misses: nat)
    | Sunk
    | Complete
    | Stuck // the daemon runs but is no use
    | Failed

  datatype Monitor = Monitor(
    attempts: nat,
    stage: Stage,
    dead: bool, // seen dead since that bring-up began
    ready: bool,
    healthy: Option<bool>, // the last report
    waits: nat)

  const START := Monitor(0, Failed, false, false, None, 0)

  /** What is published is what was reported. */
  predicate Agreed(m: Monitor) {
    m.healthy == Some(m.ready)
  }

  predicate Allowed(initial: Duration, max: Duration, m: Monitor, e: Entry) {
    match e
    case BringUp => m.attempts == m.waits && (m.attempts == 0 || (m.dead && !m.ready && Agreed(m)))
    case EnvFailed => m.stage == Begun
    case Launched => m.stage == Begun
    case LaunchFailed => m.stage == Begun
    case LauncherExited(_) => m.stage == Spawned(false)
    case SocketSeen => m.stage.Spawned?
    case SocketMissing => m.stage.Spawned?
    case SocketTimeout => m.stage.Spawned?
    case SinkListed => m.stage.Reachable? && m.stage.misses < SINK_TRIES
    case SinkMissing => m.stage.Reachable? && m.stage.misses < SINK_TRIES
    case SinkGivenUp => m.stage == Reachable(SINK_TRIES)
    case DefaultSet => m.stage == Sunk
    case DefaultRefused => m.stage == Sunk
    case AskedToExit => m.stage == Stuck
    case ReadySet(ready) =>
      if ready then m.stage == Complete && !m.dead else m.stage == Failed || (m.dead && m.stage != Stuck)
    case Reported(healthy) => healthy == m.ready
    case Probed(_) => m.attempts > 0 && !m.dead && Agreed(m) && m.stage == (if m.ready then Complete else Failed)
    case Slept(d) => m.attempts == m.waits + 1 && m.dead && !m.ready && Agreed(m) && d == Delay(m.waits, initial, max)
    case Returned => m.attempts == 0 || Agreed(m)
  }

  function AfterStage(stage: Stage, e: Entry): Stage {
    match e
    case BringUp => Begun
    case Launched => Spawned(false)
    case LauncherExited(code) => if code == 0 then Spawned(true) else Failed
    case SocketSeen => Reachable(0)
    case SinkMissing => if stage.Reachable? then Reachable(stage.misses + 1) else stage
    case SinkListed => Sunk
    case DefaultSet => Complete
    case EnvFailed => Failed
    case LaunchFailed => Failed
    case SocketTimeout => Failed
    case SinkGivenUp => Stuck
    case DefaultRefused => Stuck
    case AskedToExit => Failed
    case _ => stage
  }

  function After(m: Monitor, e: Entry): Monitor {
    Monitor(
      if e.BringUp? then m.attempts + 1 else m.attempts,
      AfterStage(m.stage, e),
      if e.BringUp? then false else m.dead || e == Probed(false),
      if e.ReadySet? then e.ready else m.ready,
      if e.Reported? then Some(e.healthy) else m.healthy,
      if e.Slept? then m.waits + 1 else m.waits)
  }

  function RulesOf(initial: Duration, max: Duration): Rules<Entry, Monitor> {
    Rules(START, (m, e) => Allowed(initial, max, m, e), After)
  }

  // ---- What the monitor remembers is what the log says ----------------------------

  function LastReport(log: seq<Entry>): Option<bool> {
    if log == [] then None
    else if log[|log| - 1].Reported? then Some(log[|log| - 1].healthy)
    else LastReport(log[..|log| - 1])
  }

  /** The ready flag. */
  function ReadyAfter(log: seq<Entry>): bool {
    if log == [] then false
    else if log[|log| - 1].ReadySet? then log[|log| - 1].ready
    else ReadyAfter(log[..|log| - 1])
  }

  /** The newest bring-up and what came after it. */
  function SinceBringUp(log: seq<Entry>): seq<Entry> {
    if log == [] || log[|log| - 1].BringUp? then []
    else SinceBringUp(log[..|log| - 1]) + [log[|log| - 1]]
  }

  lemma SinceBringUpLast(log: seq<Entry>, x: Entry)
    requires log != [] && !log[|log| - 1].BringUp?
    ensures x in SinceBringUp(log) <==> x in SinceBringUp(log[..|log| - 1]) || x == log[|log| - 1]
  {}

  /** The news since the newest bring-up. */
  datatype News =
    News(launched: bool, socket: bool, sink: bool, default_: bool, dead: bool, stuck: bool, asked: bool)

  function NewsOf(log: seq<Entry>): News {
    var s := SinceBringUp(log);
    News(Launched in s, SocketSeen in s, SinkListed in s, DefaultSet in s, Probed(false) in s,
         SinkGivenUp in s || DefaultRefused in s, AskedToExit in s)
  }

  function NextNews(n: News, e: Entry): News {
    if e.BringUp? then News(false, false, false, false, false, false, false)
    else
      News(n.launched || e.Launched?, n.socket || e.SocketSeen?, n.sink || e.SinkListed?,
           n.default_ || e.DefaultSet?, n.dead || e == Probed(false),
           n.stuck || e.SinkGivenUp? || e.DefaultRefused?, n.asked || e.AskedToExit?)
  }

  lemma NewsStep(log: seq<Entry>)
    requires log != []
    ensures NewsOf(log) == NextNews(NewsOf(log[..|log| - 1]), log[|log| - 1])
  {
    if !log[|log| - 1].BringUp? {
      SinceBringUpLast(log, Launched);
      SinceBringUpLast(log, SocketSeen);
      SinceBringUpLast(log, SinkListed);
      SinceBringUpLast(log, DefaultSet);
      SinceBringUpLast(log, Probed(false));
      SinceBringUpLast(log, SinkGivenUp);
      SinceBringUpLast(log, DefaultRefused);
      SinceBringUpLast(log, AskedToExit);
    }
  }

  predicate AsRemembered(m: Monitor, n: News) {
    && m.dead == n.dead
    && (m.stage.Spawned? ==> n.launched)
    && (m.stage.Reachable? ==> n.launched && n.socket)
    && (m.stage.Sunk? ==> n.launched && n.socket && n.sink)
    && (m.stage.Complete? ==> n.launched && n.socket && n.sink && n.default_)
    && (m.stage.Stuck? <==> n.stuck && !n.asked) && (n.asked ==> n.stuck)
    && (n.stuck ==> m.stage.Stuck? || m.stage.Failed?)
  }

  lemma {:induction false} Remembered(initial: Duration, max: Duration, log: seq<Entry>)
    requires Conforms(RulesOf(initial, max), log)
    ensures AsRemembered(Judge(RulesOf(initial, max), log), NewsOf(log))
    ensures Judge(RulesOf(initial, max), log).healthy == LastReport(log)
    ensures Judge(RulesOf(initial, max), log).ready == ReadyAfter(log)
    ensures Judge(RulesOf(initial, max), log).attempts == 0 <==> BringUp !in log
  {
    if log != [] {
      var n := |log| - 1;
      Remembered(initial, max, log[..n]);
      NewsStep(log);
      InLast(log, BringUp);
      RememberStep(initial, max, Judge(RulesOf(initial, max), log[..n]), log[n], NewsOf(log[..n]));
    }
  }

  lemma RememberStep(initial: Duration, max: Duration, m: Monitor, e: Entry, n: News)
    requires AsRemembered(m, n) && Allowed(initial, max, m, e)
    ensures AsRemembered(After(m, e), NextNews(n, e))
  {}

  // ---- What it means for whole runs --------------------------------------------------

  /** Before every bring-up but the first, the daemon was seen dead since the
      one before: a running daemon is never launched over. */
  lemma DeadBeforeRestart(initial: Duration, max: Duration, log: seq<Entry>, j: nat)
    requires Conforms(RulesOf(initial, max), log) && j < |log| && log[j] == BringUp && BringUp in log[..j]
    ensures Probed(false) in SinceBringUp(log[..j])
    ensures !ReadyAfter(log[..j])
  {
    AllowedAt(RulesOf(initial, max), log, j);
    Remembered(initial, max, log[..j]);
  }

  /** The daemon is declared ready only if in this very bring-up it was launched,
      its socket appeared, the sink was listed and made the default, and it has
      not been seen dead since. */
  lemma ReadyIsEarned(initial: Duration, max: Duration, log: seq<Entry>, j: nat)
    requires Conforms(RulesOf(initial, max), log) && j < |log| && log[j] == ReadySet(true)
    ensures NewsOf(log[..j]) == News(true, true, true, true, false, false, false)
  {
    AllowedAt(RulesOf(initial, max), log, j);
    Remembered(initial, max, log[..j]);
    EarnedStep(initial, max, Judge(RulesOf(initial, max), log[..j]), log[j], NewsOf(log[..j]));
  }

  lemma EarnedStep(initial: Duration, max: Duration, m: Monitor, e: Entry, n: News)
    requires Allowed(initial, max, m, e) && AsRemembered(m, n) && e == ReadySet(true)
    ensures n == News(true, true, true, true, false, false, false)
  {}

  function CountMissing(part: seq<Entry>): nat {
    if part == [] then 0
    else CountMissing(part[..|part| - 1]) + if part[|part| - 1].SinkMissing? then 1 else 0
  }

  lemma {:induction false} RememberedMisses(initial: Duration, max: Duration, log: seq<Entry>)
    requires Conforms(RulesOf(initial, max), log)
    ensures
      var m, misses := Judge(RulesOf(initial, max), log), CountMissing(SinceBringUp(log));
      && (m.stage.Reachable? ==> misses == m.stage.misses)
      && (m.stage.Begun? || m.stage.Spawned? ==> misses == 0) && (m.attempts == 0 ==> m.stage.Failed?)
  {
    if log != [] {
      var n := |log| - 1;
      RememberedMisses(initial, max, log[..n]);
      AllowedAt(RulesOf(initial, max), log, n);
      MissStep(initial, max, Judge(RulesOf(initial, max), log[..n]), log[n], CountMissing(SinceBringUp(log[..n])));
      CountedLast(log);
    }
  }

  lemma CountedLast(log: seq<Entry>)
    requires log != []
    ensures
      var e, before := log[|log| - 1], CountMissing(SinceBringUp(log[..|log| - 1]));
      CountMissing(SinceBringUp(log)) == if e.BringUp? then 0 else before + if e.SinkMissing? then 1 else 0
  {
    var e, part := log[|log| - 1], SinceBringUp(log[..|log| - 1]);
    assert (part + [e])[..|part|] == part;
  }

  lemma MissStep(initial: Duration, max: Duration, m: Monitor, e: Entry, misses: nat)
    requires Allowed(initial, max, m, e)
    requires m.stage.Reachable? ==> misses == m.stage.misses
    requires m.stage.Begun? || m.stage.Spawned? ==> misses == 0
    requires m.attempts == 0 ==> m.stage.Failed?
    ensures
      var m', misses' := After(m, e), if e.BringUp? then 0 else misses + if e.SinkMissing? then 1 else 0;
      && (m'.stage.Reachable? ==> misses' == m'.stage.misses)
      && (m'.stage.Begun? || m'.stage.Spawned? ==> misses' == 0) && (m'.attempts == 0 ==> m'.stage.Failed?)
  {}

  /** The sink is given up exactly at the fifth miss: no earlier, and no further try
      is made. */
  lemma FiveTries(initial: Duration, max: Duration, log: seq<Entry>, j: nat)
    requires Conforms(RulesOf(initial, max), log) && j < |log|
    ensures log[j] == SinkGivenUp ==> CountMissing(SinceBringUp(log[..j])) == 5
    ensures log[j] == SinkMissing || log[j] == SinkListed ==> CountMissing(SinceBringUp(log[..j])) < 5
  {
    AllowedAt(RulesOf(initial, max), log, j);
    RememberedMisses(initial, max, log[..j]);
  }

  /** A daemon whose sink is not listed, or cannot be made the default, is asked to
      exit before readiness or health is next set, and no other daemon is. */
  lemma UselessIsAskedToExit(initial: Duration, max: Duration, log: seq<Entry>, j: nat)
    requires Conforms(RulesOf(initial, max), log) && j < |log|
    ensures
      var s := SinceBringUp(log[..j]);
      && (log[j].ReadySet? && (SinkGivenUp in s || DefaultRefused in s) ==> AskedToExit in s)
      && (log[j] == AskedToExit ==> (SinkGivenUp in s || DefaultRefused in s) && AskedToExit !in s)
  {
    AllowedAt(RulesOf(initial, max), log, j);
    Remembered(initial, max, log[..j]);
    AskedStep(initial, max, Judge(RulesOf(initial, max), log[..j]), log[j], NewsOf(log[..j]));
  }

  lemma AskedStep(initial: Duration, max: Duration, m: Monitor, e: Entry, n: News)
    requires Allowed(initial, max, m, e) && AsRemembered(m, n)
    ensures e.ReadySet? && n.stuck ==> n.asked
    ensures e.AskedToExit? ==> n.stuck && !n.asked
  {}

  /** At every probe, during every wait and on return, the daemon counts as ready
      if and only if the last health report was the healthy one; while the
      supervisor waits to restart, it does not. */
  lemma ReadyAsReported(initial: Duration, max: Duration, log: seq<Entry>, j: nat)
    requires Conforms(RulesOf(initial, max), log) && j < |log| && BringUp in log[..j]
    requires log[j].Probed? || log[j].Slept? || log[j] == Returned
    ensures LastReport(log[..j]) == Some(ReadyAfter(log[..j]))
    ensures log[j].Slept? ==> !ReadyAfter(log[..j])
  {
    AllowedAt(RulesOf(initial, max), log, j);
    Remembered(initial, max, log[..j]);
    AgreedWhileWaiting(initial, max, Judge(RulesOf(initial, max), log[..j]), log[j]);
  }

  lemma AgreedWhileWaiting(initial: Duration, max: Duration, m: Monitor, e: Entry)
    requires Allowed(initial, max, m, e) && m.attempts > 0
    ensures e.Probed? || e.Slept? || e == Returned ==> Agreed(m)
    ensures e.Slept? ==> !m.ready
  {}

  function WaitsOf(log: seq<Entry>): nat {
    if log == [] then 0
    else WaitsOf(log[..|log| - 1]) + if log[|log| - 1].Slept? then 1 else 0
  }

  lemma {:induction false} RememberedWaits(initial: Duration, max: Duration, log: seq<Entry>)
    ensures Judge(RulesOf(initial, max), log).waits == WaitsOf(log)
    ensures Judge(RulesOf(initial, max), log).attempts == BringUpsOf(log)
  {
    if log != [] {
      RememberedWaits(initial, max, log[..|log| - 1]);
    }
  }

  function BringUpsOf(log: seq<Entry>): nat {
    if log == [] then 0
    else BringUpsOf(log[..|log| - 1]) + if log[|log| - 1].BringUp? then 1 else 0
  }

  /** Each bring-up but the first comes after exactly one wait more, and the
      waits double from the initial value up to the cap. */
  lemma WaitsDouble(initial: Duration, max: Duration, log: seq<Entry>, j: nat)
    requires 0 < initial <= max
    requires Conforms(RulesOf(initial, max), log) && j < |log|
    ensures log[j].BringUp? ==> BringUpsOf(log[..j]) == WaitsOf(log[..j])
    ensures log[j].Slept? ==> log[j].d == Min(initial * Pow2(WaitsOf(log[..j])), max)
  {
    AllowedAt(RulesOf(initial, max), log, j);
    RememberedWaits(initial, max, log[..j]);
    DelayClosedForm(WaitsOf(log[..j]), initial, max);
  }
}

/** PulseAudio.Run and what it calls, in a world where every subprocess, file and
    probe answers as it likes. Loops are watched for a number of rounds. */
module Pulse {
  import opened Backoff
  import opened Logs
  import opened PulseLog
  import opened Wrappers

  const DEFAULT_START_BACKOFF: Duration := 5 * SECOND
  const DEFAULT_MAX_BACKOFF: Duration := 60 * SECOND

  /** A setting, or its default when it is not positive. */
  function OrDefault(configured: Duration, fallback: Duration): Duration {
    if configured > 0 then configured else fallback
  }

  class PulseAudio {
    const startBackoff: Duration
    const maxBackoff: Duration
    var ready: bool
    var attempt: nat
    var cancelled: bool
    ghost var log: seq<Entry>
    ghost var m: Monitor // what the log amounts to

    ghost predicate Logged()
      reads this
    {
      Amounts(RulesOf(startBackoff, maxBackoff), log, m)
    }

    ghost predicate Valid()
      reads this
    {
      Logged() && ready == m.ready && attempt == m.attempts
    }

    constructor (startBackoff: Duration, maxBackoff: Duration)
      ensures Valid() && m == START && log == []
      ensures this.startBackoff == if startBackoff > 0 then startBackoff else 5 * SECOND
      ensures this.maxBackoff == if maxBackoff > 0 then maxBackoff else 60 * SECOND
    {
      this.startBackoff := OrDefault(startBackoff, DEFAULT_START_BACKOFF);
      this.maxBackoff := OrDefault(maxBackoff, DEFAULT_MAX_BACKOFF);
      ready, attempt, cancelled, log, m := false, 0, false, [], START;
    }

    ghost method Emit(e: Entry)
      requires Logged() && Allowed(startBackoff, maxBackoff, m, e)
      modifies this`log, this`m
      ensures Logged() && log == old(log) + [e] && m == After(old(m), e)
    {
      AmountsExtends(RulesOf(startBackoff, maxBackoff), log, m, e);
      log, m := log + [e], After(m, e);
    }

    twostate predicate Onward()
      reads this
    {
      old(log) <= log && (old(cancelled) ==> cancelled)
    }

    /** Time passes; the context may be cancelled. */
    method Tick()
      modifies this`cancelled
      ensures old(cancelled) ==> cancelled
    {
      var cancel: bool := *;
      cancelled := cancelled || cancel;
    }

    /** setReady, then setHealth. */
    method Announce(up: bool)
      requires Valid() && Allowed(startBackoff, maxBackoff, m, ReadySet(up))
      modifies this
      ensures Valid() && Onward() && Agreed(m) && m == old(m).(ready := up, healthy := Some(up))
    {
      Emit(ReadySet(up));
      ready := up;
      Emit(Reported(up));
      Tick();
    }

    /** waitForSocket: an exit of the launcher ends the wait only when it failed. */
    method WaitForSocket(budget: nat) returns (ok: Option<bool>)
      requires Valid() && m.stage == Spawned(false)
      modifies this
      ensures Valid() && Onward() && m == old(m).(stage := m.stage)
      ensures ok == Some(true) ==> m.stage == Reachable(0)
      ensures ok == Some(false) ==> m.stage == Failed
      ensures ok == None ==> m.stage.Spawned? && |log| == |old(log)| + budget
    {
      var left := budget;
      var exited := false;
      while left > 0
        invariant 0 <= left <= budget && |log| == |old(log)| + budget - left
        invariant Valid() && Onward() && m == old(m).(stage := Spawned(exited))
      {
        left := left - 1;
        Tick();
        ok, exited := PollSocket(exited);
        if ok.Some? {
          return;
        }
      }
      return None;
    }

    /** One ready case of its select. */
    method PollSocket(exited: bool) returns (ok: Option<bool>, exited': bool)
      requires Valid() && m.stage == Spawned(exited)
      modifies this`log, this`m
      ensures Valid() && old(log) <= log && |log| == |old(log)| + 1 && m == old(m).(stage := m.stage)
      ensures match ok
              case None => m.stage == Spawned(exited')
              case Some(up) => m.stage == if up then Reachable(0) else Failed
    {
      ok, exited' := None, exited;
      var pick: int := *;
      if pick == 0 && !exited {
        var code: int := *;
        Emit(LauncherExited(code));
        exited' := true;
        if code != 0 {
          ok := Some(false);
        }
      } else if pick == 1 {
        Emit(SocketTimeout);
        ok := Some(false);
      } else if pick == 2 {
        Emit(SocketSeen);
        ok := Some(true);
      } else {
        Emit(SocketMissing);
      }
    }

    /** waitSinkReady */
    method WaitSinkReady() returns (ok: bool)
      requires Valid() && m.stage == Reachable(0)
      modifies this
      ensures Valid() && Onward() && m == old(m).(stage := if ok then Sunk else Stuck)
    {
      var i := 0;
      while i < SINK_TRIES
        invariant i <= SINK_TRIES && Valid() && Onward() && m == old(m).(stage := Reachable(i))
      {
        ok := *;
        if ok {
          Emit(SinkListed);
          return;
        }
        Emit(SinkMissing);
        Tick();
        i := i + 1;
      }
      Emit(SinkGivenUp);
      ok := false;
    }

    /** startDaemon; None while it is still waiting for the socket. */
    method StartDaemon(budget: nat) returns (ok: Option<bool>)
      requires Valid() && m.stage == Begun
      modifies this
      ensures Valid() && Onward() && m == old(m).(stage := m.stage)
      ensures ok.Some? ==> m.stage == (if ok.value then Complete else Failed)
      ensures ok.None? ==> m.stage.Spawned? && |log| >= |old(log)| + budget
    {
      var env: bool, spawned: bool := *, *;
      if !env {
        Emit(EnvFailed);
        return Some(false);
      }
      if !spawned {
        Emit(LaunchFailed);
        return Some(false);
      }
      Emit(Launched);
      ok := WaitForSocket(budget);
      if ok == Some(true) {
        var verified := VerifySink();
        ok := Some(verified);
      }
    }

    /** The sink checks of startDaemon; what fails is asked to exit. */
    method VerifySink() returns (ok: bool)
      requires Valid() && m.stage == Reachable(0)
      modifies this
      ensures Valid() && Onward() && m == old(m).(stage := if ok then Complete else Failed)
    {
      ok := WaitSinkReady();
      if ok {
        ok := *;
        Emit(if ok then DefaultSet else DefaultRefused);
      }
      if !ok {
        Emit(AskedToExit);
      }
    }

    /** waitDaemonDown: done when the daemon was seen dead. */
    method WaitDaemonDown(budget: nat) returns (r: Progress)
      requires Valid() && Allowed(startBackoff, maxBackoff, m, Probed(true))
      modifies this
      ensures Valid() && Onward() && m == old(m).(dead := r == Done)
      ensures r == Cancelled ==> cancelled
      ensures r == Busy ==> |log| == |old(log)| + budget
    {
      var left := budget;
      while left > 0
        invariant Valid() && Onward() && m == old(m)
        invariant |log| == |old(log)| + budget - left
      {
        left := left - 1;
        Tick();
        var pick: bool, alive: bool := *, *;
        if cancelled && pick {
          return Cancelled;
        }
        Emit(Probed(alive));
        if !alive {
          return Done;
        }
      }
      return Busy;
    }

    /** A bring-up and its report, as PulseAudio.Start makes them too; false while
        it is still busy. */
    method Start(budget: nat) returns (announced: bool)
      requires Valid() && Allowed(startBackoff, maxBackoff, m, BringUp)
      modifies this
      ensures Valid() && Onward() && m.waits == old(m).waits
      ensures m.attempts == m.waits + 1
      ensures announced ==> !m.dead && Agreed(m) && m.stage == (if m.ready then Complete else Failed)
      ensures !announced ==> |log| >= |old(log)| + budget
    {
      attempt := attempt + 1;
      Emit(BringUp);
      var ok := StartDaemon(budget);
      announced := ok.Some?;
      if announced {
        Announce(ok.value);
      }
    }

    /** One round of Run's loop, up to the wait: done when the daemon is down and
        reported so. */
    method Round(budget: nat) returns (r: Progress)
      requires Valid() && Allowed(startBackoff, maxBackoff, m, BringUp)
      modifies this
      ensures Valid() && Onward() && m.waits == old(m).waits
      ensures r == Done ==> m.dead && !m.ready && Agreed(m)
      ensures r == Cancelled ==> cancelled && Allowed(startBackoff, maxBackoff, m, Returned)
      ensures r != Cancelled ==> m.attempts == m.waits + 1
      ensures r == Busy ==> |log| >= |old(log)| + budget
    {
      if cancelled {
        return Cancelled;
      }
      var announced := Start(budget);
      if !announced {
        return Busy;
      }
      r := WaitDaemonDown(budget);
      if r == Done {
        Announce(false);
      }
    }

    /** Run. It is left only by cancellation; otherwise a bring-up or the daemon
        it brought up is still being watched, or as many restarts were waited for
        as it was watched for. */
    method Run(budget: nat) returns (r: Watch)
      requires Valid() && m == START
      modifies this
      ensures Valid() && Onward()
      ensures r == Left ==> cancelled && log != [] && log[|log| - 1] == Returned
      ensures r == Blocked ==> m.attempts == m.waits + 1 && |log| >= |old(log)| + budget
      ensures r == Watched ==> m.waits == budget
    {
      var backoff := startBackoff;
      var left := budget;
      while left > 0
        invariant Valid() && Onward() && Allowed(startBackoff, maxBackoff, m, BringUp)
        invariant backoff == Delay(m.waits, startBackoff, maxBackoff)
        invariant 0 <= left <= budget && m.waits == budget - left
      {
        left := left - 1;
        var p;
        p, backoff := RoundAndWait(budget, backoff);
        if p == Cancelled {
          Emit(Returned);
          return Left;
        }
        if p == Busy {
          return Blocked;
        }
      }
      return Watched;
    }

    /** One round with its wait: done when the next bring-up is due. */
    method RoundAndWait(budget: nat, backoff: Duration) returns (r: Progress, next: Duration)
      requires Valid() && Allowed(startBackoff, maxBackoff, m, BringUp)
      requires backoff == Delay(m.waits, startBackoff, maxBackoff)
      modifies this
      ensures Valid() && Onward()
      ensures r == Done ==>
        && Allowed(startBackoff, maxBackoff, m, BringUp)
        && next == Delay(m.waits, startBackoff, maxBackoff) && m.waits == old(m).waits + 1
      ensures r == Busy ==> m.attempts == m.waits + 1 && |log| >= |old(log)| + budget
      ensures r == Cancelled ==> cancelled && Allowed(startBackoff, maxBackoff, m, Returned)
    {
      next := backoff;
      r := Round(budget);
      if r == Done {
        var slept;
        slept, next := SleepLonger(backoff);
        if !slept {
          r := Cancelled;
        }
      }
    }

    /** Waits, and doubles the next wait. */
    method SleepLonger(d: Duration) returns (slept: bool, next: Duration)
      requires Valid() && Allowed(startBackoff, maxBackoff, m, Slept(d))
      modifies this
      ensures Valid() && Onward() && m == old(m).(waits := old(m).waits + 1)
      ensures next == Delay(m.waits, startBackoff, maxBackoff)
      ensures !slept ==> cancelled
    {
      DelayStep(m.waits, startBackoff, maxBackoff);
      Emit(Slept(d));
      Tick();
      var timer: bool := *;
      slept := !cancelled || timer;
      next := NextBackoff(d, maxBackoff);
    }
  }
}
