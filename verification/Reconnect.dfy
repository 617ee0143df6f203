/** What the recorder loop may do with monitor streams, pumps and the slot that
    /stream handlers read, as a monitor over the log of everything that happened
    (cmd/shim/main.go:50-82 and 269-359, internal/audio/recorder.go:75-104,
    internal/audio/monitor.go:78-90). Attempt k opens stream k and starts
    recorder k on it. */
module CaptureLog {
  import opened Backoff
  import opened Logs
  import opened Wrappers

  datatype Entry =
    | Polled(ready: bool) // the daemon, before anything else
    | Opened(k: nat)
    | OpenFailed
    | PumpStarted(k: nat)
    | PumpEnded(k: nat)
    | SlotSet(k: nat)
    | SlotCleared
    | StopClosed(k: nat) // recorder k's stop channel is closed
    | Released(k: nat) // stream k's client and pipe are closed
    | Slept(d: Duration)
    | Returned

  const INITIAL_BACKOFF: Duration := 2 * SECOND
  const MAX_BACKOFF: Duration := 30 * SECOND

  /** The newest attempt, and the waits so far. */
  datatype Monitor = Monitor(
    attempts: nat,
    open: bool, // its stream
    started: bool, // its pump
    pumping: bool,
    told: bool, // its stop channel is closed
    slot: Option<nat>,
    waits: nat)

  const START := Monitor(0, false, false, false, false, None, 0)

  predicate Newest(m: Monitor, k: nat) {
    m.attempts == k + 1
  }

  /** Nothing is left of any attempt. */
  predicate Clear(m: Monitor) {
    !m.open && !m.pumping && m.slot == None && (m.attempts > 0 ==> m.told)
  }

  predicate Allowed(m: Monitor, e: Entry) {
    match e
    case Polled(_) => m.attempts == 0
    case Opened(k) => k == m.attempts == m.waits && Clear(m)
    case OpenFailed => m.attempts == m.waits && Clear(m)
    case PumpStarted(k) => Newest(m, k) && m.open && !m.started
    case PumpEnded(k) => Newest(m, k) && m.pumping
    case SlotSet(k) => Newest(m, k) && m.started && m.slot == None
    case SlotCleared => true
    case StopClosed(k) => Newest(m, k) && m.started && !m.told
    case Released(k) => Newest(m, k) && m.open
    case Slept(d) => m.attempts == m.waits + 1 && Clear(m) && d == Delay(m.waits, INITIAL_BACKOFF, MAX_BACKOFF)
    case Returned => !m.open && m.slot == None && (m.pumping ==> m.told)
  }

  function After(m: Monitor, e: Entry): Monitor {
    match e
    case Opened(k) => m.(attempts := k + 1, open := true, started := false, pumping := false, told := false)
    case PumpStarted(_) => m.(started := true, pumping := true)
    case PumpEnded(_) => m.(pumping := false)
    case SlotSet(k) => m.(slot := Some(k))
    case SlotCleared => m.(slot := None)
    case StopClosed(_) => m.(told := true)
    case Released(_) => m.(open := false)
    case Slept(_) => m.(waits := m.waits + 1)
    case _ => m
  }

  const RULES := Rules(START, Allowed, After)

  // ---- What the monitor remembers is what the log says ----------------------------

  /** What has happened to attempt k. */
  datatype Fate = Fate(begun: bool, released: bool, started: bool, ended: bool, told: bool)

  function FateOf(log: seq<Entry>, k: nat): Fate {
    Fate(Opened(k) in log, Released(k) in log, PumpStarted(k) in log, PumpEnded(k) in log, StopClosed(k) in log)
  }

  function NextFate(f: Fate, e: Entry, k: nat): Fate {
    Fate(f.begun || e == Opened(k), f.released || e == Released(k), f.started || e == PumpStarted(k),
         f.ended || e == PumpEnded(k), f.told || e == StopClosed(k))
  }

  lemma FateStep(log: seq<Entry>, k: nat)
    requires log != []
    ensures FateOf(log, k) == NextFate(FateOf(log[..|log| - 1], k), log[|log| - 1], k)
  {
    InLast(log, Opened(k));
    InLast(log, Released(k));
    InLast(log, PumpStarted(k));
    InLast(log, PumpEnded(k));
    InLast(log, StopClosed(k));
  }

  /** The newest attempt is as the monitor has it; of an older one nothing is
      left; a newer one does not exist yet. */
  predicate AsRemembered(m: Monitor, f: Fate, k: nat) {
    if k >= m.attempts then
      f == Fate(false, false, false, false, false)
    else
      && f.begun && (f.ended ==> f.started)
      && (Newest(m, k) ==>
        && m.open == !f.released && m.started == f.started
        && m.pumping == (f.started && !f.ended) && m.told == f.told)
      && (!Newest(m, k) ==> f.released && f.told && (f.started ==> f.ended))
  }

  lemma RememberStep(m: Monitor, e: Entry, f: Fate, k: nat)
    requires AsRemembered(m, f, k) && Allowed(m, e)
    ensures AsRemembered(After(m, e), NextFate(f, e, k), k)
  {}

  lemma {:induction false} Remembered(log: seq<Entry>, k: nat)
    requires Conforms(RULES, log)
    ensures AsRemembered(Judge(RULES, log), FateOf(log, k), k)
  {
    if log != [] {
      var n := |log| - 1;
      Remembered(log[..n], k);
      FateStep(log, k);
      RememberStep(Judge(RULES, log[..n]), log[n], FateOf(log[..n], k), k);
    }
  }

  // ---- What it means for whole runs --------------------------------------------------

  /** When a stream is opened, every earlier one has been released, every earlier
      pump has ended, and its recorder was told to stop: at most one stream is
      open and at most one pump alive at any time. */
  lemma OneAtATime(log: seq<Entry>, i: nat, j: nat)
    requires Conforms(RULES, log) && i < j < |log| && log[i].Opened? && log[j].Opened?
    ensures log[i].k < log[j].k && Released(log[i].k) in log[..j] && StopClosed(log[i].k) in log[..j]
    ensures PumpStarted(log[i].k) in log[..j] ==> PumpEnded(log[i].k) in log[..j]
  {
    AllowedAt(RULES, log, j);
    assert log[..j][i] == log[i];
    Remembered(log[..j], log[i].k);
  }

  /** A pump starts once per attempt, on that attempt's stream, while it is open
      and no other pump is alive. */
  lemma PumpHasItsStream(log: seq<Entry>, j: nat, k: nat)
    requires Conforms(RULES, log) && j < |log| && log[j].PumpStarted?
    ensures Opened(log[j].k) in log[..j] && Released(log[j].k) !in log[..j] && log[j] !in log[..j]
    ensures PumpStarted(k) in log[..j] ==> PumpEnded(k) in log[..j]
  {
    AllowedAt(RULES, log, j);
    Remembered(log[..j], log[j].k);
    Remembered(log[..j], k);
  }

  /** Neither Stop nor Close, called from the loop and from watchdogs that may be
      late, closes a channel or a stream twice, or one that does not exist. */
  lemma ClosedOnce(log: seq<Entry>, j: nat)
    requires Conforms(RULES, log) && j < |log|
    ensures log[j].Released? ==> Opened(log[j].k) in log[..j] && log[j] !in log[..j]
    ensures log[j].StopClosed? ==> PumpStarted(log[j].k) in log[..j] && log[j] !in log[..j]
  {
    AllowedAt(RULES, log, j);
    if log[j].Released? || log[j].StopClosed? {
      Remembered(log[..j], log[j].k);
    }
  }

  /** What handlers find in the slot. */
  function SlotOf(log: seq<Entry>): Option<nat> {
    if log == [] then None
    else
      match log[|log| - 1]
      case SlotSet(k) => Some(k)
      case SlotCleared => None
      case _ => SlotOf(log[..|log| - 1])
  }

  predicate NewestStarted(m: Monitor, k: nat) {
    Newest(m, k) && m.started
  }

  lemma {:induction false} RememberedSlot(log: seq<Entry>)
    requires Conforms(RULES, log)
    ensures Judge(RULES, log).slot == SlotOf(log)
    ensures SlotOf(log).Some? ==> NewestStarted(Judge(RULES, log), SlotOf(log).value)
  {
    if log != [] {
      RememberedSlot(log[..|log| - 1]);
    }
  }

  /** The slot holds nothing or the newest started recorder, so a handler never
      reads from one that was replaced. */
  lemma SlotIsNewest(log: seq<Entry>, k: nat)
    requires Conforms(RULES, log) && SlotOf(log).Some?
    ensures PumpStarted(SlotOf(log).value) in log
    ensures k > SlotOf(log).value ==> PumpStarted(k) !in log && Opened(k) !in log
  {
    RememberedSlot(log);
    Remembered(log, SlotOf(log).value);
    Remembered(log, k);
  }

  /** The slot is empty at every attempt to open a stream, during every wait and
      at the return; on return every stream is released, and a pump that is
      still alive has been told to stop. */
  lemma NothingLeft(log: seq<Entry>, j: nat, k: nat)
    requires Conforms(RULES, log) && j < |log|
    requires log[j].Opened? || log[j].OpenFailed? || log[j].Slept? || log[j].Returned?
    ensures SlotOf(log[..j]) == None
    ensures Opened(k) in log[..j] ==> Released(k) in log[..j]
    ensures PumpStarted(k) in log[..j] ==> PumpEnded(k) in log[..j] || (log[j].Returned? && StopClosed(k) in log[..j])
  {
    AllowedAt(RULES, log, j);
    RememberedSlot(log[..j]);
    Remembered(log[..j], k);
  }

  function WaitsOf(log: seq<Entry>): nat {
    if log == [] then 0
    else WaitsOf(log[..|log| - 1]) + if log[|log| - 1].Slept? then 1 else 0
  }

  lemma {:induction false} RememberedWaits(log: seq<Entry>)
    ensures Judge(RULES, log).waits == WaitsOf(log)
  {
    if log != [] {
      RememberedWaits(log[..|log| - 1]);
    }
  }

  /** Every attempt but the first comes after exactly one wait more, and the wait
      before the k-th reconnection is min(2 s * 2^k, 30 s), however long the
      streams in between lasted. */
  lemma WaitsDouble(log: seq<Entry>, j: nat)
    requires Conforms(RULES, log) && j < |log|
    ensures log[j].Opened? ==> log[j].k == WaitsOf(log[..j])
    ensures log[j].Slept? ==> log[j].d == Min(2 * SECOND * Pow2(WaitsOf(log[..j])), 30 * SECOND)
  {
    AllowedAt(RULES, log, j);
    RememberedWaits(log[..j]);
    DelayClosedForm(WaitsOf(log[..j]), INITIAL_BACKOFF, MAX_BACKOFF);
  }
}

/** runRecorder and its watchdogs, as the code runs them, in a world where pumps
    end at any moment, the daemon comes and goes, opening a stream may fail and
    the context may be cancelled. Loops are watched for a number of rounds. */
module Reconnect {
  import opened Backoff
  import opened Logs
  import opened Wrappers
  import opened CaptureLog

  /** Where an attempt's watchdog stands; it runs on after its attempt is lost
      until it notices. */
  datatype Watchdog = Absent | Watching | Stopping | Closing | Gone

  /** The recorder's stopped flag, the stream's closeOnce, whether the pump is
      alive, and whether lostDone is closed. */
  datatype Attempt = Attempt(stopped: bool, closed: bool, pumping: bool, lost: bool, watchdog: Watchdog)

  predicate Finished(a: Attempt) {
    a.stopped && a.closed && !a.pumping
  }

  predicate Shows(m: Monitor, a: Attempt) {
    && m.open == !a.closed && m.pumping == a.pumping && m.told == a.stopped
    && (!a.watchdog.Absent? ==> m.started)
  }

  /** Nothing is left of any attempt but the newest, which the monitor shows. */
  ghost predicate AllShow(m: Monitor, attempts: seq<Attempt>) {
    && |attempts| == m.attempts
    && (forall k :: 0 <= k < |attempts| - 1 ==> Finished(attempts[k]))
    && (attempts != [] ==> Shows(m, attempts[|attempts| - 1]))
  }

  lemma AllShowUpdated(m: Monitor, attempts: seq<Attempt>, k: nat, m': Monitor, a: Attempt)
    requires AllShow(m, attempts) && k < |attempts| && m'.attempts == m.attempts
    requires if Newest(m, k) then Shows(m', a) else m' == m && Finished(a)
    ensures AllShow(m', attempts[k := a])
  {}

  /** An old attempt has nothing left to be closed or ended. */
  lemma OldIsFinished(m: Monitor, attempts: seq<Attempt>, k: nat)
    requires AllShow(m, attempts) && k < |attempts|
    ensures if Newest(m, k) then Shows(m, attempts[k]) else Finished(attempts[k])
  {}

  /** One step of a watchdog: a tick, on which it goes on exactly while the daemon
      is ready, or the end of the context or of its attempt; and when the daemon is
      down it stops the recorder and closes the stream. */
  predicate WatchStep(a: Attempt, a': Attempt, cancelled: bool, daemonReady: bool) {
    match a.watchdog
    case Watching =>
      || a' == (if daemonReady then a else a.(watchdog := Stopping))
      || ((cancelled || a.lost) && a' == a.(watchdog := Gone))
    case Stopping => a' == a.(stopped := true, watchdog := Closing)
    case Closing => a' == a.(closed := true, watchdog := Gone)
    case _ => a' == a
  }

  class RecorderSlot {
    var src: Option<nat>

    constructor ()
      ensures src == None
    {
      src := None;
    }

    method Set(src: Option<nat>)
      modifies this
      ensures this.src == src
    {
      this.src := src;
    }
  }

  class World {
    const slot: RecorderSlot
    var cancelled: bool
    var daemonReady: bool // pa.Ready()
    var attempts: seq<Attempt>
    ghost var log: seq<Entry>
    ghost var m: Monitor // what the log amounts to

    ghost predicate Logged()
      reads this
    {
      Amounts(RULES, log, m)
    }

    ghost predicate Valid()
      reads this, slot
    {
      Logged() && m.slot == slot.src && AllShow(m, attempts)
    }

    constructor (slot: RecorderSlot)
      requires slot.src == None
      ensures Valid() && m == START && log == [] && this.slot == slot
    {
      this.slot := slot;
      cancelled, daemonReady, attempts, log, m := false, false, [], [], START;
    }

    ghost method Emit(e: Entry)
      requires Logged() && Allowed(m, e)
      modifies this`log, this`m
      ensures Logged() && log == old(log) + [e] && m == After(old(m), e)
    {
      AmountsExtends(RULES, log, m, e);
      log, m := log + [e], After(m, e);
    }

    /** What others may have done: ended a pump, told it to stop, closed its
        stream, cancelled the context. */
    twostate predicate Onward()
      reads this
    {
      && old(log) <= log && (old(cancelled) ==> cancelled) && |attempts| == |old(attempts)|
      && m == old(m).(open := m.open, pumping := m.pumping, told := m.told)
      && (m.open ==> old(m).open) && (m.pumping ==> old(m).pumping) && (old(m).told ==> m.told)
      && (forall k :: 0 <= k < |attempts| && old(attempts)[k].lost ==> attempts[k].lost)
    }

    /** Attempt k becomes a, and the monitor what the entry makes of it; for an
        old attempt nothing is logged. */
    method Update(k: nat, a: Attempt, ghost e: Option<Entry>)
      requires Valid() && k < |attempts| && (e.Some? ==> Newest(m, k) && Allowed(m, e.value))
      requires var m' := if e.Some? then After(m, e.value) else m;
        m'.attempts == m.attempts && m'.slot == m.slot && if Newest(m, k) then Shows(m', a) else Finished(a)
      modifies this`attempts, this`log, this`m
      ensures Valid() && attempts == old(attempts)[k := a]
      ensures log == old(log) + (if e.Some? then [e.value] else [])
      ensures m == if e.Some? then After(old(m), e.value) else old(m)
    {
      AllShowUpdated(m, attempts, k, if e.Some? then After(m, e.value) else m, a);
      attempts := attempts[k := a];
      if e.Some? {
        Emit(e.value);
      }
    }

    /** PulseRecorder.Stop */
    method Stop(k: nat)
      requires Valid() && k < |attempts| && (Newest(m, k) ==> m.started)
      modifies this`attempts, this`log, this`m
      ensures Valid() && Onward() && attempts == old(attempts)[k := old(attempts)[k].(stopped := true)]
      ensures !Newest(m, k) ==> log == old(log)
    {
      OldIsFinished(m, attempts, k);
      if !attempts[k].stopped {
        Update(k, attempts[k].(stopped := true), Some(StopClosed(k)));
      }
    }

    /** monitorStream.Close */
    method Close(k: nat)
      requires Valid() && k < |attempts|
      modifies this`attempts, this`log, this`m
      ensures Valid() && Onward() && attempts == old(attempts)[k := old(attempts)[k].(closed := true)]
      ensures !Newest(m, k) ==> log == old(log)
    {
      OldIsFinished(m, attempts, k);
      if !attempts[k].closed {
        Update(k, attempts[k].(closed := true), Some(Released(k)));
      }
    }

    /** One step of a watchdog, whose attempt may be long over: it touches no
        other attempt, and leaves no trace unless its attempt is the newest. */
    method Watch(k: nat)
      requires Valid() && k < |attempts|
      modifies this`attempts, this`log, this`m
      ensures Valid() && Onward()
      ensures attempts == old(attempts)[k := attempts[k]]
      ensures WatchStep(old(attempts)[k], attempts[k], cancelled, daemonReady)
      ensures !Newest(m, k) ==> log == old(log)
    {
      if attempts[k].watchdog.Watching? {
        Decide(k);
      } else if attempts[k].watchdog.Stopping? {
        StopAndTurn(k);
      } else if attempts[k].watchdog.Closing? {
        CloseAndTurn(k);
      }
    }

    /** The watchdog's select. */
    method Decide(k: nat)
      requires Valid() && k < |attempts| && attempts[k].watchdog.Watching?
      modifies this`attempts, this`log, this`m
      ensures Valid() && log == old(log) && m == old(m)
      ensures attempts == old(attempts)[k := attempts[k]]
      ensures WatchStep(old(attempts)[k], attempts[k], cancelled, daemonReady)
    {
      var tick: bool := *;
      if (cancelled || attempts[k].lost) && !tick {
        Turn(k, Gone);
      } else if !daemonReady {
        Turn(k, Stopping);
      }
    }

    method StopAndTurn(k: nat)
      requires Valid() && k < |attempts| && !attempts[k].watchdog.Absent?
      modifies this`attempts, this`log, this`m
      ensures Valid() && Onward() && (!Newest(m, k) ==> log == old(log))
      ensures attempts == old(attempts)[k := old(attempts)[k].(stopped := true, watchdog := Closing)]
    {
      OldIsFinished(m, attempts, k);
      Stop(k);
      Turn(k, Closing);
    }

    method CloseAndTurn(k: nat)
      requires Valid() && k < |attempts| && !attempts[k].watchdog.Absent?
      modifies this`attempts, this`log, this`m
      ensures Valid() && Onward() && (!Newest(m, k) ==> log == old(log))
      ensures attempts == old(attempts)[k := old(attempts)[k].(closed := true, watchdog := Gone)]
    {
      Close(k);
      Turn(k, Gone);
    }

    method Turn(k: nat, watchdog: Watchdog)
      requires Valid() && k < |attempts| && !attempts[k].watchdog.Absent?
      modifies this`attempts, this`log, this`m
      ensures Valid() && attempts == old(attempts)[k := old(attempts)[k].(watchdog := watchdog)]
      ensures log == old(log) && m == old(m)
    {
      OldIsFinished(m, attempts, k);
      Update(k, attempts[k].(watchdog := watchdog), None);
    }

    /** A pump ends, on a read error, the end of its stream or a stop. */
    method EndPump(k: nat)
      requires Valid() && k < |attempts| && attempts[k].pumping
      modifies this`attempts, this`log, this`m
      ensures Valid() && Onward() && attempts == old(attempts)[k := old(attempts)[k].(pumping := false)]
    {
      OldIsFinished(m, attempts, k);
      Update(k, attempts[k].(pumping := false), Some(PumpEnded(k)));
    }

    /** An attempt without a watchdog is left to its pump. */
    twostate predicate LeavesUnwatched()
      reads this
    {
      && |attempts| == |old(attempts)|
      && forall k :: 0 <= k < |attempts| && old(attempts)[k].watchdog.Absent? ==>
        attempts[k] == old(attempts)[k].(pumping := attempts[k].pumping)
    }

    /** A pump ends, a watchdog takes a step, or the daemon comes or goes. */
    method SomeStep()
      requires Valid()
      modifies this`daemonReady, this`attempts, this`log, this`m
      ensures Valid() && Onward() && LeavesUnwatched()
    {
      var k: int, pump: bool := *, *;
      if 0 <= k < |attempts| {
        if pump && attempts[k].pumping {
          EndPump(k);
        } else {
          Watch(k);
        }
      } else {
        daemonReady := *;
      }
    }

    /** Pumps and watchdogs, new and old, run for a while, and the daemon comes and
        goes. */
    method Meanwhile()
      requires Valid()
      modifies this`cancelled, this`daemonReady, this`attempts, this`log, this`m
      ensures Valid() && Onward() && LeavesUnwatched()
    {
      var steps: int := *;
      while steps > 0
        invariant Valid() && Onward() && LeavesUnwatched()
        decreases steps
      {
        SomeStep();
        steps := steps - 1;
      }
      var cancel: bool := *;
      cancelled := cancelled || cancel;
    }

    /** openMonitorStream */
    method OpenStream(budget: nat) returns (r: Progress)
      requires Valid() && Clear(m) && m.attempts == m.waits
      modifies this`cancelled, this`daemonReady, this`attempts, this`log, this`m
      ensures Valid() && old(log) <= log && (old(cancelled) ==> cancelled) && m.waits == old(m).waits
      ensures r != Done ==> Clear(m)
      ensures r == Done ==> m.attempts == old(m).attempts + 1
      ensures r == Busy ==> |log| >= |old(log)| + budget
      ensures r == Cancelled ==> cancelled
      ensures r == Done ==> attempts != [] && m.open && !m.started && m.slot == None
      ensures r == Done ==> attempts[|attempts| - 1].watchdog.Absent?
    {
      var left := budget;
      r := Busy;
      while left > 0
        invariant Valid() && Onward() && Clear(m)
        invariant |log| >= |old(log)| + budget - left
      {
        left := left - 1;
        var opens: bool := *;
        if !cancelled && opens {
          Emit(Opened(|attempts|));
          attempts := attempts + [Attempt(false, false, false, false, Absent)];
          return Done;
        }
        Emit(OpenFailed);
        Meanwhile();
        var tick: bool := *;
        if cancelled && !tick {
          return Cancelled;
        }
      }
    }

    /** A fresh recorder is started on the new stream, published, and watched. Its
        pump, and old watchdogs, run from the start. */
    method StartRecorder() returns (k: nat)
      requires Valid() && attempts != [] && m.open && !m.started && m.slot == None
      requires attempts[|attempts| - 1].watchdog.Absent?
      modifies this`cancelled, this`daemonReady, this`attempts, this`log, this`m, slot
      ensures Valid() && |attempts| == |old(attempts)| == k + 1 && m.started && m.open && slot.src == Some(k)
      ensures old(log) + [PumpStarted(k)] <= log && log[|log| - 1] == SlotSet(k)
      ensures attempts[k] == old(attempts)[k].(pumping := attempts[k].pumping, watchdog := Watching)
      ensures m.waits == old(m).waits && m.attempts == old(m).attempts && (old(cancelled) ==> cancelled)
    {
      k := |attempts| - 1;
      Launch(k);
      slot.Set(Some(k));
      Emit(SlotSet(k));
      Update(k, attempts[k].(watchdog := Watching), None);
    }

    /** The pump of attempt k is started, and may have ended at once. */
    method Launch(k: nat)
      requires Valid() && k == |attempts| - 1 && m.open && !m.started && attempts[k].watchdog.Absent?
      modifies this`cancelled, this`daemonReady, this`attempts, this`log, this`m
      ensures Valid() && |attempts| == |old(attempts)| && (old(cancelled) ==> cancelled)
      ensures old(log) + [PumpStarted(k)] <= log
      ensures m == old(m).(started := true, pumping := m.pumping)
      ensures attempts[k] == old(attempts)[k].(pumping := attempts[k].pumping)
    {
      Update(k, attempts[k].(pumping := true), Some(PumpStarted(k)));
      Meanwhile();
    }

    /** Blocks until the context is cancelled or the pump has ended; if both,
        either is noticed. */
    method Await() returns (r: Progress)
      requires Valid() && attempts != [] && m.started
      modifies this`cancelled, this`daemonReady, this`attempts, this`log, this`m
      ensures Valid() && Onward()
      ensures r == Done ==> !m.pumping
      ensures r == Cancelled ==> cancelled
      ensures r == Busy ==> m.pumping && !cancelled
    {
      Meanwhile();
      var pick: bool := *;
      if cancelled && (pick || attempts[|attempts| - 1].pumping) {
        return Cancelled;
      }
      return if attempts[|attempts| - 1].pumping then Busy else Done;
    }

    /** Tells the watchdog that its attempt is over. */
    method CloseLostDone(k: nat)
      requires Valid() && k < |attempts|
      modifies this`attempts, this`log, this`m
      ensures Valid() && attempts == old(attempts)[k := old(attempts)[k].(lost := true)]
      ensures log == old(log) && m == old(m)
    {
      OldIsFinished(m, attempts, k);
      Update(k, attempts[k].(lost := true), None);
    }

    /** Stop, close, and empty the slot, while the watchdog may be doing the
        same. */
    method TakeDown(k: nat)
      requires Valid() && k == |attempts| - 1 && m.started
      modifies this`cancelled, this`daemonReady, this`attempts, this`log, this`m, slot
      ensures Valid() && old(log) <= log && (old(cancelled) ==> cancelled)
      ensures !m.open && m.told && m.slot == None && m.waits == old(m).waits && m.attempts == old(m).attempts
      ensures m.pumping ==> old(m).pumping
      ensures |attempts| == |old(attempts)| && (old(attempts)[k].lost ==> attempts[k].lost)
    {
      StopAndClose(k);
      slot.Set(None);
      Emit(SlotCleared);
    }

    method StopAndClose(k: nat)
      requires Valid() && k == |attempts| - 1 && m.started
      modifies this`cancelled, this`daemonReady, this`attempts, this`log, this`m
      ensures Valid() && Onward() && !m.open && m.told
    {
      Stop(k);
      assert m.told by { OldIsFinished(m, attempts, k); }
      Meanwhile();
      Close(k);
      assert !m.open by { OldIsFinished(m, attempts, k); }
      Meanwhile();
    }

    /** Waits, and doubles the next wait. */
    method SleepLonger(d: Duration) returns (slept: bool, next: Duration)
      requires Valid() && Allowed(m, Slept(d))
      modifies this`cancelled, this`daemonReady, this`attempts, this`log, this`m
      ensures Valid() && old(log) <= log && (old(cancelled) ==> cancelled)
      ensures Clear(m) && m.attempts == m.waits == old(m).waits + 1
      ensures next == Delay(m.waits, INITIAL_BACKOFF, MAX_BACKOFF)
      ensures !slept ==> cancelled
    {
      DelayStep(m.waits, INITIAL_BACKOFF, MAX_BACKOFF);
      Emit(Slept(d));
      Meanwhile();
      var timer: bool := *;
      slept := !cancelled || timer;
      next := NextBackoff(d, MAX_BACKOFF);
    }

    /** Polls until the daemon is ready or the context is cancelled. */
    method AwaitDaemon(budget: nat) returns (r: Progress)
      requires Valid() && Clear(m) && m.attempts == 0
      modifies this`cancelled, this`daemonReady, this`attempts, this`log, this`m
      ensures Valid() && Onward() && Clear(m)
      ensures r == Done ==> log != [] && log[|log| - 1] == Polled(true)
      ensures r == Cancelled ==> cancelled
      ensures r == Busy ==> |log| >= |old(log)| + budget
    {
      var left := budget;
      while left > 0
        invariant Valid() && Onward() && Clear(m)
        invariant |log| >= |old(log)| + budget - left
      {
        left := left - 1;
        Emit(Polled(daemonReady));
        if daemonReady {
          return Done;
        }
        Meanwhile();
        var tick: bool := *;
        if cancelled && !tick {
          return Cancelled;
        }
      }
      return Busy;
    }

    /** A published recorder's pump is alive, and nobody has cancelled. */
    ghost predicate Recording()
      reads this
    {
      m.pumping && m.slot.Some? && !cancelled
    }

    /** One round of runRecorder's loop, up to the wait: done when the stream was
        lost. */
    method Capture(budget: nat) returns (r: Progress)
      requires Valid() && Clear(m) && m.attempts == m.waits
      modifies this, slot
      ensures Valid() && old(log) <= log && (old(cancelled) ==> cancelled) && m.waits == old(m).waits
      ensures r == Done ==> Clear(m) && m.attempts == m.waits + 1
      ensures r == Done ==> |attempts| == m.attempts && attempts[m.attempts - 1].lost
      ensures r == Cancelled ==> cancelled && Allowed(m, Returned)
      ensures r == Busy ==> Recording() || |log| >= |old(log)| + budget
    {
      if cancelled {
        return Cancelled;
      }
      var stream := OpenStream(budget);
      if stream != Done {
        return stream;
      }
      var k := StartRecorder();
      r := Await();
      if r == Done {
        CloseLostDone(k);
      }
      if r != Busy {
        TakeDown(k);
      }
    }

    /** runRecorder. It is left only by cancellation; otherwise it waits for the
        end of a pump, polls or opens in vain, or has waited for as many
        reconnections as it was watched for. */
    method Run(budget: nat) returns (r: Watch)
      requires Valid() && m == START
      modifies this, slot
      ensures Valid() && old(log) <= log
      ensures r == Left ==> cancelled && log != [] && log[|log| - 1] == Returned
      ensures r == Blocked ==> Recording() || |log| >= |old(log)| + budget
      ensures r == Watched ==> m.waits == budget
    {
      var daemon := AwaitDaemon(budget);
      if daemon == Busy {
        return Blocked;
      }
      if daemon == Done {
        r := KeepRecording(budget);
      } else {
        r := Left;
      }
      if r == Left {
        Emit(Returned);
      }
    }

    /** Its loop, after the daemon was ready for the first time. */
    method KeepRecording(budget: nat) returns (r: Watch)
      requires Valid() && Clear(m) && m.waits == m.attempts == 0
      modifies this, slot
      ensures Valid() && old(log) <= log
      ensures r == Left ==> cancelled && Allowed(m, Returned)
      ensures r == Blocked ==> Recording() || |log| >= |old(log)| + budget
      ensures r == Watched ==> m.waits == budget
    {
      var backoff := INITIAL_BACKOFF;
      var left := budget;
      while left > 0
        invariant Valid() && old(log) <= log && Clear(m) && m.attempts == m.waits
        invariant backoff == Delay(m.waits, INITIAL_BACKOFF, MAX_BACKOFF)
        invariant 0 <= left <= budget && m.waits == budget - left
      {
        left := left - 1;
        var p := Capture(budget);
        if p == Busy {
          return Blocked;
        }
        if p == Cancelled {
          return Left;
        }
        var slept;
        slept, backoff := SleepLonger(backoff);
        if !slept {
          return Left;
        }
      }
      return Watched;
    }
  }
}
