/** What the shim may do to the Soloist process, its WebSocket connections and
    the health report, as a monitor over the log of everything that happened
    (internal/soloist/pair.go, supervisor.go and connector.go). A log conforms
    when each entry was allowed by the entries before it; the lemmas say what that
    means for whole logs. Module Supervision proves that the code only ever
    produces conforming logs. */
module Protocol {
  import opened Backoff
  import opened Logs
  import opened Wrappers

  /** Supervisor's own messages, and those of concurrent command senders. */
  datatype Message = Activate | SetVolume | Command(name: string)

  datatype Waiting = Restarting | Redialling | Pairing

  datatype Entry =
    | Started(p: nat)
    | Killed(p: nat)
    | ExitSeen(p: nat, code: int)
    | ReadPort(p: nat, found: bool)
    | PortTimedOut(p: nat)
    | CheckedSession(stored: bool)
    | Dialled(c: nat)
    | DialFailed
    | Attached(c: nat)
    | Detached
    | Wrote(c: nat, msg: Message, ok: bool)
    | Refused(msg: Message)
    | Closed(c: nat)
    | ReportedHealthy
    | ReportedExpired
    | DeletedBinary
    | Slept(kind: Waiting, d: Duration)
    | PairReturned(again: bool) // to be called again or not
    | RunReturned(again: bool) // runOnce, likewise

  predicate Returns(e: Entry) {
    e.PairReturned? || e.RunReturned?
  }

  /** The settings the log is judged by. */
  datatype Config = Config(
    commands: bool, // a CommandConnector is set
    binaryManager: bool,
    volume: int,
    startBackoff: Duration,
    maxBackoff: Duration,
    pairBackoff: Duration,
    pairMaxBackoff: Duration)

  const DIAL_RETRY: Duration := SECOND
  const DIAL_MAX_RETRY: Duration := 15 * SECOND
  const EXPIRED_CODE := 10

  /** The process started last: whether it is neither killed nor seen to exit,
      whether its exit was seen, whether its port was found, and whether the call
      that started it has yet to return. */
  datatype Process = Process(started: nat, live: bool, exitSeen: bool, located: bool, called: bool)

  /** The connection dialled last: whether it is open, in the connector, and what
      the supervisor sent on it. */
  datatype Connection = Connection(
    dialled: nat,
    open: bool,
    attached: bool,
    activated: bool,
    ready: bool, // activate succeeded
    served: bool, // health was reported on it
    volumeSent: bool)

  datatype Expiry = Expiry(expired: bool, reported: bool, deleted: bool)

  /** Restart and pairing waits so far, and redial waits in a row. */
  datatype Waits = Waits(restarts: nat, dialFailures: nat, retries: nat)

  /** Whether a wait is due before the next process, or the next dial. */
  datatype Debts = Debts(retry: bool, redial: bool)

  /** What the call of Pair or runOnce under way has seen of its process: its exit
      code, the session stored, the port not published in time. Then whether the
      call before was one of Pair, and whether pairing is over. */
  datatype Call = Call(code: Option<int>, stored: bool, timedOut: bool, wasPair: bool, paired: bool)

  /** What matters of a log for what may come next. */
  datatype Monitor = Monitor(proc: Process, conn: Connection, exp: Expiry, waits: Waits, debts: Debts, call: Call)

  const START := Monitor(
    Process(0, false, false, false, false),
    Connection(0, false, false, false, false, false, false),
    Expiry(false, false, false),
    Waits(0, 0, 0),
    Debts(false, false),
    Call(None, false, false, false, false))

  predicate Unconnected(m: Monitor) {
    !m.conn.open && !m.conn.attached
  }

  predicate Idle(m: Monitor) {
    !m.proc.live && Unconnected(m)
  }

  predicate LastProcess(x: Process, p: nat) {
    x.started == p + 1
  }

  predicate LastConnection(x: Connection, c: nat) {
    x.dialled == c + 1
  }

  /** Another attempt is due: no process could be started, or it failed. */
  predicate PairAgain(m: Monitor) {
    !m.proc.called || (m.call.code.Some? && m.call.code.value != 0 && m.call.code.value != EXPIRED_CODE)
  }

  /** A restart is due: no process could be started, its port was not published
      in time, or it exited, unless with code 10 or with code 0 and no port. */
  predicate RunAgain(m: Monitor) {
    || !m.proc.called || m.call.timedOut
    || (m.call.code.Some? && m.call.code.value != EXPIRED_CODE && (m.call.code.value != 0 || m.proc.located))
  }

  predicate MayReturn(cfg: Config, m: Monitor, again: bool) {
    Idle(m) && !m.debts.retry && (m.exp.expired ==> !again && (cfg.binaryManager ==> m.exp.deleted))
  }

  predicate Allowed(cfg: Config, m: Monitor, e: Entry) {
    match e
    case Started(p) => p == m.proc.started && !m.proc.called && Idle(m) && !m.exp.expired && !m.debts.retry
    case Killed(p) => p < m.proc.started
    case ExitSeen(p, _) =>
      && LastProcess(m.proc, p) && m.proc.called && !m.proc.exitSeen && m.call.code.None? && !m.call.stored
      && Unconnected(m) && !m.exp.expired
    case ReadPort(p, _) =>
      && LastProcess(m.proc, p) && m.proc.called && m.proc.live && !m.proc.located
      && Unconnected(m) && !m.exp.expired
    case PortTimedOut(p) => LastProcess(m.proc, p) && m.proc.called && m.proc.live && !m.proc.located
    case CheckedSession(_) =>
      m.proc.called && m.proc.live && m.call.code.None? && !m.call.paired && Unconnected(m) && !m.exp.expired
    case Dialled(c) =>
      && c == m.conn.dialled && m.proc.live && m.proc.located && Unconnected(m)
      && !m.exp.expired && !m.debts.redial
    case DialFailed => Unconnected(m) && !m.exp.expired && !m.debts.redial
    case Attached(c) => cfg.commands && LastConnection(m.conn, c) && m.conn.open && !m.conn.attached
    case Detached => true
    case Wrote(c, msg, ok) => MayWrite(cfg, m.conn, c, msg, ok)
    case Refused(msg) => cfg.commands && !m.conn.attached && msg.Command?
    case Closed(c) => c < m.conn.dialled && (LastConnection(m.conn, c) && m.conn.open ==> Used(cfg, m.conn))
    case ReportedHealthy => !m.exp.expired && m.conn.open && m.conn.ready
    case ReportedExpired => m.exp.expired && !m.exp.reported && Idle(m)
    case DeletedBinary => cfg.binaryManager && m.exp.expired && !m.exp.deleted
    case Slept(kind, d) => MaySleep(m, kind) && d == WaitDue(cfg, m.waits, kind)
    case PairReturned(again) => MayReturn(cfg, m, again) && !m.call.paired && again == PairAgain(m)
    case RunReturned(again) => MayReturn(cfg, m, again) && again == RunAgain(m)
  }

  /** Activate was sent, and where it succeeded, health reported and the volume
      sent. */
  predicate Used(cfg: Config, x: Connection) {
    x.activated && (x.ready ==> x.served && (cfg.volume > 0 ==> x.volumeSent))
  }

  /** Writes go to the last connection: through the connector only while it is
      attached, and successfully only while it is open. */
  predicate MayWrite(cfg: Config, x: Connection, c: nat, msg: Message, ok: bool) {
    && LastConnection(x, c) && (if cfg.commands then x.attached else x.open) && (ok ==> x.open)
    && (msg.Activate? ==> !x.activated)
    && (msg.SetVolume? ==> x.ready && !x.volumeSent && cfg.volume > 0)
    && (msg.Command? ==> cfg.commands)
  }

  /** Every wait answers one failure: a dial's, a pairing attempt's, a run's. */
  predicate MaySleep(m: Monitor, kind: Waiting) {
    && !m.exp.expired && Unconnected(m)
    && match kind
       case Redialling => m.debts.redial
       case Pairing => m.debts.retry && m.call.wasPair && !m.call.paired
       case Restarting => m.debts.retry && !m.call.wasPair
  }

  function WaitDue(cfg: Config, w: Waits, kind: Waiting): Duration {
    match kind
    case Restarting => Delay(w.restarts, cfg.startBackoff, cfg.maxBackoff)
    case Redialling => Delay(w.dialFailures, DIAL_RETRY, DIAL_MAX_RETRY)
    case Pairing => Delay(w.retries, cfg.pairBackoff, cfg.pairMaxBackoff)
  }

  function AfterProcess(x: Process, e: Entry): Process {
    if e.Started? then Process(e.p + 1, true, false, false, true)
    else if e.Killed? then x.(live := x.live && !LastProcess(x, e.p))
    else if e.ExitSeen? then x.(live := x.live && !LastProcess(x, e.p), exitSeen := true)
    else if e.ReadPort? then x.(located := x.located || e.found)
    else if Returns(e) then x.(called := false)
    else x
  }

  function AfterConnection(x: Connection, e: Entry): Connection {
    if e.Dialled? then Connection(e.c + 1, true, x.attached, false, false, false, false)
    else if e.Attached? then x.(attached := true)
    else if e.Detached? then x.(attached := false)
    else if e.Closed? then x.(open := x.open && !LastConnection(x, e.c))
    else if e.Wrote? && e.msg.Activate? then x.(activated := true, ready := e.ok)
    else if e.Wrote? && e.msg.SetVolume? then x.(volumeSent := true)
    else if e.ReportedHealthy? then x.(served := true)
    else x
  }

  function AfterExpiry(x: Expiry, e: Entry): Expiry {
    if e.ExitSeen? && e.code == EXPIRED_CODE then x.(expired := true)
    else if e.ReportedExpired? then x.(reported := true)
    else if e.DeletedBinary? then x.(deleted := true)
    else x
  }

  function AfterWaits(x: Waits, e: Entry): Waits {
    if e.Started? || e.Dialled? then x.(dialFailures := 0)
    else if !e.Slept? then x
    else if e.kind.Restarting? then x.(restarts := x.restarts + 1)
    else if e.kind.Redialling? then x.(dialFailures := x.dialFailures + 1)
    else x.(retries := x.retries + 1)
  }

  function AfterDebts(x: Debts, e: Entry): Debts {
    if Returns(e) then x.(retry := x.retry || e.again)
    else if e.DialFailed? then x.(redial := true)
    else if e.Started? then x.(redial := false)
    else if !e.Slept? then x
    else if e.kind.Redialling? then x.(redial := false)
    else x.(retry := false)
  }

  function AfterCall(x: Call, e: Entry): Call {
    if e.ExitSeen? then x.(code := Some(e.code))
    else if e.CheckedSession? then x.(stored := x.stored || e.stored)
    else if e.PortTimedOut? then x.(timedOut := true)
    else if Returns(e) then Call(None, false, false, e.PairReturned?, x.paired || e == PairReturned(false))
    else x
  }

  function After(m: Monitor, e: Entry): Monitor {
    Monitor(
      AfterProcess(m.proc, e), AfterConnection(m.conn, e), AfterExpiry(m.exp, e), AfterWaits(m.waits, e),
      AfterDebts(m.debts, e), AfterCall(m.call, e))
  }

  function RulesOf(cfg: Config): Rules<Entry, Monitor> {
    Rules(START, (m, e) => Allowed(cfg, m, e), After)
  }

  // ---- Processes -----------------------------------------------------------------

  predicate Ends(e: Entry, p: nat) {
    e == Killed(p) || (e.ExitSeen? && e.p == p)
  }

  /** Process p was killed or seen to exit between entries i and j. */
  predicate Ended(log: seq<Entry>, p: nat, i: nat, j: nat)
    requires j <= |log|
  {
    exists k :: i <= k < j && Ends(log[k], p)
  }

  predicate Lives(x: Process, p: nat) {
    x.live && LastProcess(x, p)
  }

  lemma LiveStep(x: Process, e: Entry, p: nat)
    requires Lives(x, p) && !e.Started?
    ensures Lives(AfterProcess(x, e), p) || Ends(e, p)
  {}

  /** Processes are numbered in order and started only when none is live. */
  lemma StartStep(cfg: Config, m: Monitor, e: Entry)
    requires Allowed(cfg, m, e)
    ensures e.Started? ==> !m.proc.live && e.p == m.proc.started
    ensures m.proc.started <= AfterProcess(m.proc, e).started
  {}

  /** A process that is no longer live was ended since it was started. */
  lemma {:induction false} LiveUntilEnded(cfg: Config, log: seq<Entry>, i: nat)
    requires Conforms(RulesOf(cfg), log) && i < |log| && log[i].Started?
    ensures log[i].p < Judge(RulesOf(cfg), log).proc.started
    ensures Lives(Judge(RulesOf(cfg), log).proc, log[i].p) || Ended(log, log[i].p, i + 1, |log|)
    decreases |log|
  {
    var n := |log| - 1;
    var before, p := log[..n], log[i].p;
    AllowedAt(RulesOf(cfg), log, n);
    StartStep(cfg, Judge(RulesOf(cfg), before), log[n]);
    if i < n {
      LiveUntilEnded(cfg, before, i);
      if Lives(Judge(RulesOf(cfg), before).proc, p) {
        LiveStep(Judge(RulesOf(cfg), before).proc, log[n], p);
      } else {
        var k :| i + 1 <= k < n && Ends(before[k], p);
        assert Ends(log[k], p);
      }
    }
  }

  /** Whenever a process is started, every earlier one has been killed or seen to
      exit. */
  lemma SingleInstance(cfg: Config, log: seq<Entry>, i: nat, j: nat)
    requires Conforms(RulesOf(cfg), log) && i < j < |log| && log[i].Started? && log[j].Started?
    ensures log[i].p != log[j].p && Ended(log, log[i].p, i + 1, j)
  {
    NothingLeftAt(cfg, log, i, j);
    NewNumber(cfg, log, i, j);
  }

  lemma NewNumber(cfg: Config, log: seq<Entry>, i: nat, j: nat)
    requires Conforms(RulesOf(cfg), log) && i < j < |log| && log[i].Started? && log[j].Started?
    ensures log[i].p != log[j].p
  {
    NumberAt(cfg, log, j);
    LiveUntilEnded(cfg, log[..j], i);
  }

  lemma NumberAt(cfg: Config, log: seq<Entry>, j: nat)
    requires Conforms(RulesOf(cfg), log) && j < |log| && log[j].Started?
    ensures Conforms(RulesOf(cfg), log[..j]) && log[j].p == Judge(RulesOf(cfg), log[..j]).proc.started
  {
    AllowedAt(RulesOf(cfg), log, j);
    StartStep(cfg, Judge(RulesOf(cfg), log[..j]), log[j]);
  }

  /** Every return from Pair and runOnce leaves no process behind. */
  lemma NothingLeftAtReturn(cfg: Config, log: seq<Entry>, i: nat, j: nat)
    requires Conforms(RulesOf(cfg), log) && i < j < |log| && log[i].Started? && Returns(log[j])
    ensures Ended(log, log[i].p, i + 1, j)
  {
    NothingLeftAt(cfg, log, i, j);
  }

  lemma IdleStep(cfg: Config, m: Monitor, e: Entry)
    requires Allowed(cfg, m, e) && (e.Started? || Returns(e))
    ensures Idle(m)
  {}

  lemma IdleAt(cfg: Config, log: seq<Entry>, j: nat)
    requires Conforms(RulesOf(cfg), log) && j < |log| && (log[j].Started? || Returns(log[j]))
    ensures Conforms(RulesOf(cfg), log[..j]) && Idle(Judge(RulesOf(cfg), log[..j]))
  {
    AllowedAt(RulesOf(cfg), log, j);
    IdleStep(cfg, Judge(RulesOf(cfg), log[..j]), log[j]);
  }

  lemma NothingLeftAt(cfg: Config, log: seq<Entry>, i: nat, j: nat)
    requires Conforms(RulesOf(cfg), log) && i < j < |log| && log[i].Started? && (log[j].Started? || Returns(log[j]))
    ensures Ended(log, log[i].p, i + 1, j)
  {
    var before := log[..j];
    IdleAt(cfg, log, j);
    LiveUntilEnded(cfg, before, i);
    var p := log[i].p;
    var k :| i + 1 <= k < j && Ends(before[k], p);
    assert Ends(log[k], p);
  }

  /** An exit of process p was seen. */
  predicate SawExit(log: seq<Entry>, p: nat) {
    exists i :: 0 <= i < |log| && log[i].ExitSeen? && log[i].p == p
  }

  lemma SawExitStep(log: seq<Entry>, e: Entry, p: nat)
    ensures SawExit(log + [e], p) <==> SawExit(log, p) || (e.ExitSeen? && e.p == p)
  {
    var all := log + [e];
    if SawExit(log, p) {
      var i :| 0 <= i < |log| && log[i].ExitSeen? && log[i].p == p;
      assert all[i] == log[i];
    }
    assert all[|log|] == e;
  }

  predicate ExitAsLogged(x: Process, seen: bool, located: bool, p: nat) {
    && (seen || located ==> p < x.started)
    && (LastProcess(x, p) ==> x.exitSeen == seen && x.located == located)
  }

  lemma ExitStep(cfg: Config, m: Monitor, e: Entry, seen: bool, located: bool, p: nat)
    requires ExitAsLogged(m.proc, seen, located, p) && Allowed(cfg, m, e)
    ensures ExitAsLogged(
      AfterProcess(m.proc, e), seen || (e.ExitSeen? && e.p == p), located || e == ReadPort(p, true), p)
  {}

  /** What the monitor remembers of an exit, and of a port, is what the log
      says. */
  lemma {:induction false} RememberedExit(cfg: Config, log: seq<Entry>, p: nat)
    requires Conforms(RulesOf(cfg), log)
    ensures ExitAsLogged(Judge(RulesOf(cfg), log).proc, SawExit(log, p), ReadPort(p, true) in log, p)
  {
    if log != [] {
      var n := |log| - 1;
      RememberedExit(cfg, log[..n], p);
      InitAndLast(log);
      SawExitStep(log[..n], log[n], p);
      InLast(log, ReadPort(p, true));
      ExitStep(cfg, Judge(RulesOf(cfg), log[..n]), log[n], SawExit(log[..n], p), ReadPort(p, true) in log[..n], p);
    }
  }

  /** A process is seen to exit once, with one code. */
  lemma OneExit(cfg: Config, log: seq<Entry>, i: nat, j: nat)
    requires Conforms(RulesOf(cfg), log) && i < j < |log|
    requires log[i].ExitSeen? && log[j].ExitSeen?
    ensures log[i].p != log[j].p
  {
    AllowedAt(RulesOf(cfg), log, j);
    RememberedExit(cfg, log[..j], log[j].p);
    assert log[..j][i] == log[i];
  }

  lemma OneExitCode(cfg: Config, log: seq<Entry>, p: nat, code: int, other: int)
    requires Conforms(RulesOf(cfg), log) && ExitSeen(p, code) in log && ExitSeen(p, other) in log
    ensures code == other
  {
    var i :| 0 <= i < |log| && log[i] == ExitSeen(p, code);
    var j :| 0 <= j < |log| && log[j] == ExitSeen(p, other);
    if i < j {
      OneExit(cfg, log, i, j);
    } else if j < i {
      OneExit(cfg, log, j, i);
    }
  }

  // ---- Connections ------------------------------------------------------------------

  lemma InitAndLast(log: seq<Entry>)
    requires log != []
    ensures log == log[..|log| - 1] + [log[|log| - 1]]
  {}

  predicate ExitedExpired(e: Entry) {
    e.ExitSeen? && e.code == 10
  }

  predicate SawExpiry(log: seq<Entry>) {
    exists i :: 0 <= i < |log| && ExitedExpired(log[i])
  }

  lemma SawExpiryStep(log: seq<Entry>, e: Entry)
    ensures SawExpiry(log + [e]) <==> SawExpiry(log) || ExitedExpired(e)
  {
    var all := log + [e];
    if SawExpiry(log) {
      var i :| 0 <= i < |log| && ExitedExpired(log[i]);
      assert ExitedExpired(all[i]);
    }
    assert all[|log|] == e;
  }

  /** What the monitor remembers of an expiry is what the log says. */
  lemma {:induction false} RememberedExpiry(cfg: Config, log: seq<Entry>)
    ensures Judge(RulesOf(cfg), log).exp.expired <==> SawExpiry(log)
    ensures Judge(RulesOf(cfg), log).exp.reported <==> ReportedExpired in log
    ensures Judge(RulesOf(cfg), log).exp.deleted <==> DeletedBinary in log
  {
    if log != [] {
      var n := |log| - 1;
      RememberedExpiry(cfg, log[..n]);
      InitAndLast(log);
      SawExpiryStep(log[..n], log[n]);
      InLast(log, ReportedExpired);
      InLast(log, DeletedBinary);
    }
  }

  predicate ActivationAsLogged(x: Connection, sent: bool, succeeded: bool, c: nat) {
    && (sent || succeeded ==> c < x.dialled)
    && (LastConnection(x, c) ==> x.activated == (sent || succeeded) && x.ready == succeeded)
  }

  /** What it remembers of the messages on a connection. */
  lemma {:induction false} RememberedActivation(cfg: Config, log: seq<Entry>, c: nat)
    requires Conforms(RulesOf(cfg), log)
    ensures
      var x := Judge(RulesOf(cfg), log).conn;
      ActivationAsLogged(x, Wrote(c, Activate, false) in log, Wrote(c, Activate, true) in log, c)
  {
    if log != [] {
      var n := |log| - 1;
      RememberedActivation(cfg, log[..n], c);
      InLast(log, Wrote(c, Activate, true));
      InLast(log, Wrote(c, Activate, false));
      ActivationStep(
        cfg, Judge(RulesOf(cfg), log[..n]), log[n],
        Wrote(c, Activate, false) in log[..n], Wrote(c, Activate, true) in log[..n], c);
    }
  }

  lemma ActivationStep(cfg: Config, m: Monitor, e: Entry, sent: bool, succeeded: bool, c: nat)
    requires ActivationAsLogged(m.conn, sent, succeeded, c) && Allowed(cfg, m, e)
    ensures ActivationAsLogged(
      AfterConnection(m.conn, e), sent || e == Wrote(c, Activate, false), succeeded || e == Wrote(c, Activate, true), c)
  {}

  predicate OpenAsLogged(x: Connection, dialled: bool, closed: bool, c: nat) {
    && (dialled <==> c < x.dialled)
    && (closed ==> dialled)
    && (dialled && !LastConnection(x, c) ==> closed)
    && (LastConnection(x, c) ==> x.open == !closed)
  }

  /** And of which connections are open. */
  lemma {:induction false} RememberedOpen(cfg: Config, log: seq<Entry>, c: nat)
    requires Conforms(RulesOf(cfg), log)
    ensures OpenAsLogged(Judge(RulesOf(cfg), log).conn, Dialled(c) in log, Closed(c) in log, c)
    ensures Judge(RulesOf(cfg), log).conn.open ==> Judge(RulesOf(cfg), log).conn.dialled > 0
  {
    if log != [] {
      var n := |log| - 1;
      RememberedOpen(cfg, log[..n], c);
      InLast(log, Dialled(c));
      InLast(log, Closed(c));
      OpenStep(cfg, Judge(RulesOf(cfg), log[..n]), log[n], Dialled(c) in log[..n], Closed(c) in log[..n], c);
    }
  }

  lemma OpenStep(cfg: Config, m: Monitor, e: Entry, dialled: bool, closed: bool, c: nat)
    requires OpenAsLogged(m.conn, dialled, closed, c) && Allowed(cfg, m, e)
    ensures OpenAsLogged(AfterConnection(m.conn, e), dialled || e == Dialled(c), closed || e == Closed(c), c)
  {}

  /** c has been attached since entry i of the log. */
  predicate AttachedSince(log: seq<Entry>, c: nat, i: nat) {
    i < |log| && log[i] == Attached(c) && forall k :: i < k < |log| ==> log[k] != Detached
  }

  lemma AttachedSinceKept(log: seq<Entry>, e: Entry, c: nat, i: nat)
    requires AttachedSince(log, c, i) && e != Detached
    ensures AttachedSince(log + [e], c, i)
  {}

  lemma {:induction false} RememberedWindow(cfg: Config, log: seq<Entry>) returns (i: nat)
    requires Conforms(RulesOf(cfg), log)
    ensures
      var x := Judge(RulesOf(cfg), log).conn;
      x.attached ==> x.dialled > 0 && AttachedSince(log, x.dialled - 1, i)
  {
    i := 0;
    if log != [] {
      var n := |log| - 1;
      i := RememberedWindow(cfg, log[..n]);
      InitAndLast(log);
      AttachedStep(cfg, Judge(RulesOf(cfg), log[..n]), log[n]);
      if log[n].Attached? {
        i := n;
      } else if Judge(RulesOf(cfg), log).conn.attached {
        AttachedSinceKept(log[..n], log[n], Judge(RulesOf(cfg), log).conn.dialled - 1, i);
      }
    }
  }

  lemma AttachedStep(cfg: Config, m: Monitor, e: Entry)
    requires Allowed(cfg, m, e)
    ensures
      var x := AfterConnection(m.conn, e);
      && x.attached == (if e.Attached? then true else if e == Detached then false else m.conn.attached)
      && (e.Attached? ==> LastConnection(m.conn, e.c))
      && (e.Attached? || m.conn.attached ==> x.dialled == m.conn.dialled)
  {}

  /** Every attachment is followed by a detachment. */
  predicate AllDetached(log: seq<Entry>) {
    forall k :: 0 <= k < |log| && log[k].Attached? ==> Detached in log[k..]
  }

  lemma AllDetachedStep(log: seq<Entry>, e: Entry)
    requires e == Detached || (AllDetached(log) && !e.Attached?)
    ensures AllDetached(log + [e])
  {
    var all := log + [e];
    forall k | 0 <= k < |all| && all[k].Attached? ensures Detached in all[k..] {
      assert all[k..] == log[k..] + [e];
    }
  }

  lemma {:induction false} RememberedDetached(cfg: Config, log: seq<Entry>)
    requires Conforms(RulesOf(cfg), log)
    ensures !Judge(RulesOf(cfg), log).conn.attached ==> AllDetached(log)
  {
    if log != [] {
      var n := |log| - 1;
      RememberedDetached(cfg, log[..n]);
      InitAndLast(log);
      AttachedStep(cfg, Judge(RulesOf(cfg), log[..n]), log[n]);
      if !Judge(RulesOf(cfg), log).conn.attached {
        AllDetachedStep(log[..n], log[n]);
      }
    }
  }

  /** Before the next dial, and before every return from runOnce, every
      connection made so far has been closed and none is attached. */
  lemma ConnectionsEnd(cfg: Config, log: seq<Entry>, i: nat, j: nat, c: nat)
    requires Conforms(RulesOf(cfg), log) && i < j < |log| && log[i] == Dialled(c)
    requires log[j].Dialled? || log[j].DialFailed? || Returns(log[j])
    ensures Closed(c) in log[..j]
    ensures AllDetached(log[..j])
  {
    var before := log[..j];
    UnconnectedAt(cfg, log, j);
    assert before[i] == Dialled(c);
    RememberedOpen(cfg, before, c);
    RememberedDetached(cfg, before);
  }

  lemma UnconnectedStep(cfg: Config, m: Monitor, e: Entry)
    requires Allowed(cfg, m, e) && (e.Dialled? || e.DialFailed? || Returns(e))
    ensures Unconnected(m)
  {}

  lemma UnconnectedAt(cfg: Config, log: seq<Entry>, j: nat)
    requires Conforms(RulesOf(cfg), log) && j < |log| && (log[j].Dialled? || log[j].DialFailed? || Returns(log[j]))
    ensures Conforms(RulesOf(cfg), log[..j]) && Unconnected(Judge(RulesOf(cfg), log[..j]))
  {
    AllowedAt(RulesOf(cfg), log, j);
    UnconnectedStep(cfg, Judge(RulesOf(cfg), log[..j]), log[j]);
  }

  /** A command that succeeds was written to the connection attached at that
      moment, which is still open; a refused one found no connection attached. */
  lemma CommandsLand(cfg: Config, log: seq<Entry>, j: nat)
    requires Conforms(RulesOf(cfg), log) && j < |log|
    requires (log[j].Wrote? && log[j].msg.Command?) || log[j].Refused?
    ensures log[j].Wrote? ==> exists i :: AttachedSince(log[..j], log[j].c, i)
    ensures log[j].Wrote? && log[j].ok ==> Dialled(log[j].c) in log[..j] && Closed(log[j].c) !in log[..j]
    ensures log[j].Refused? ==> AllDetached(log[..j])
  {
    var before := log[..j];
    CommandAt(cfg, log, j);
    if log[j].Wrote? {
      HasWindow(cfg, before, log[j].c);
      RememberedOpen(cfg, before, log[j].c);
    } else {
      RememberedDetached(cfg, before);
    }
  }

  lemma HasWindow(cfg: Config, log: seq<Entry>, c: nat)
    requires Conforms(RulesOf(cfg), log)
    requires var x := Judge(RulesOf(cfg), log).conn; x.attached && LastConnection(x, c)
    ensures exists i :: AttachedSince(log, c, i)
  {
    var i := RememberedWindow(cfg, log);
    assert AttachedSince(log, c, i);
  }

  predicate CommandFinds(x: Connection, e: Entry) {
    && (e.Wrote? && e.msg.Command? ==> x.attached && LastConnection(x, e.c) && (e.ok ==> x.open))
    && (e.Refused? ==> !x.attached)
  }

  lemma CommandStep(cfg: Config, m: Monitor, e: Entry)
    requires Allowed(cfg, m, e)
    ensures CommandFinds(m.conn, e)
  {}

  lemma CommandAt(cfg: Config, log: seq<Entry>, j: nat)
    requires Conforms(RulesOf(cfg), log) && j < |log|
    ensures Conforms(RulesOf(cfg), log[..j]) && CommandFinds(Judge(RulesOf(cfg), log[..j]).conn, log[j])
  {
    AllowedAt(RulesOf(cfg), log, j);
    CommandStep(cfg, Judge(RulesOf(cfg), log[..j]), log[j]);
  }

  /** On each connection activate is sent at most once, the supervisor's
      set_volume only after it succeeded, and health is reported only while a
      connection is open on which it succeeded. */
  lemma ActivateFirst(cfg: Config, log: seq<Entry>, j: nat)
    requires Conforms(RulesOf(cfg), log) && j < |log|
    ensures log[j].Wrote? && log[j].msg == Activate ==>
      Wrote(log[j].c, Activate, true) !in log[..j] && Wrote(log[j].c, Activate, false) !in log[..j]
    ensures log[j].Wrote? && log[j].msg == SetVolume ==> Wrote(log[j].c, Activate, true) in log[..j]
    ensures log[j] == ReportedHealthy ==>
      exists c :: Wrote(c, Activate, true) in log[..j] && Closed(c) !in log[..j]
  {
    var before := log[..j];
    var m := Judge(RulesOf(cfg), before);
    AllowedAt(RulesOf(cfg), log, j);
    if log[j].Wrote? {
      RememberedActivation(cfg, before, log[j].c);
    } else if log[j] == ReportedHealthy {
      RememberedOpen(cfg, before, 0);
      var c := m.conn.dialled - 1;
      RememberedActivation(cfg, before, c);
      RememberedOpen(cfg, before, c);
    }
  }

  // ---- What a call comes to ---------------------------------------------------------

  /** The call of Pair or runOnce under way: all since the last return. */
  function SinceReturn(log: seq<Entry>): seq<Entry> {
    if log == [] || Returns(log[|log| - 1]) then [] else SinceReturn(log[..|log| - 1]) + [log[|log| - 1]]
  }

  predicate Has(part: seq<Entry>, f: Entry -> bool) {
    exists k :: 0 <= k < |part| && f(part[k])
  }

  lemma HasOneMore(part: seq<Entry>, e: Entry, f: Entry -> bool)
    ensures Has(part + [e], f) <==> Has(part, f) || f(e)
  {
    if Has(part, f) {
      var k :| 0 <= k < |part| && f(part[k]);
      assert f((part + [e])[k]);
    }
    assert (part + [e])[|part|] == e;
  }

  predicate IsStart(e: Entry) {
    e.Started?
  }

  predicate IsFound(e: Entry) {
    e.ReadPort? && e.found
  }

  predicate IsTimeout(e: Entry) {
    e.PortTimedOut?
  }

  predicate IsStored(e: Entry) {
    e.CheckedSession? && e.stored
  }

  predicate IsCleanExit(e: Entry) {
    e.ExitSeen? && e.code == 0
  }

  predicate IsFailedExit(e: Entry) {
    e.ExitSeen? && e.code != 0 && e.code != 10
  }

  /** What one call has seen. */
  datatype Facts = Facts(started: bool, found: bool, timedOut: bool, stored: bool, clean: bool, failed: bool)

  function FactsOf(part: seq<Entry>): Facts {
    Facts(Has(part, IsStart), Has(part, IsFound), Has(part, IsTimeout), Has(part, IsStored),
          Has(part, IsCleanExit), Has(part, IsFailedExit))
  }

  function NextFacts(f: Facts, e: Entry): Facts {
    if Returns(e) then Facts(false, false, false, false, false, false)
    else
      Facts(f.started || IsStart(e), f.found || IsFound(e), f.timedOut || IsTimeout(e), f.stored || IsStored(e),
            f.clean || IsCleanExit(e), f.failed || IsFailedExit(e))
  }

  lemma FactsStep(log: seq<Entry>)
    requires log != []
    ensures FactsOf(SinceReturn(log)) == NextFacts(FactsOf(SinceReturn(log[..|log| - 1])), log[|log| - 1])
  {
    var part, e := SinceReturn(log[..|log| - 1]), log[|log| - 1];
    HasOneMore(part, e, IsStart);
    HasOneMore(part, e, IsFound);
    HasOneMore(part, e, IsTimeout);
    HasOneMore(part, e, IsStored);
    HasOneMore(part, e, IsCleanExit);
    HasOneMore(part, e, IsFailedExit);
  }

  predicate CallAsLogged(m: Monitor, f: Facts) {
    && m.proc.called == f.started && (m.proc.called && m.proc.located) == f.found
    && m.call.timedOut == f.timedOut && m.call.stored == f.stored
    && (m.call.code == Some(0)) == f.clean
    && (m.call.code.Some? && m.call.code.value != 0 && m.call.code.value != 10) == f.failed
    && (m.call.stored ==> m.call.code.None?)
    && (!m.proc.called ==> m.call.code.None? && !m.call.stored)
  }

  lemma CallStep(cfg: Config, m: Monitor, e: Entry, f: Facts)
    requires CallAsLogged(m, f) && Allowed(cfg, m, e)
    ensures CallAsLogged(After(m, e), NextFacts(f, e))
  {}

  /** What the monitor remembers of the call is what the log says. */
  lemma {:induction false} RememberedCall(cfg: Config, log: seq<Entry>)
    requires Conforms(RulesOf(cfg), log)
    ensures CallAsLogged(Judge(RulesOf(cfg), log), FactsOf(SinceReturn(log)))
  {
    if log == [] {
      assert FactsOf([]) == Facts(false, false, false, false, false, false);
    } else {
      var n := |log| - 1;
      RememberedCall(cfg, log[..n]);
      FactsStep(log);
      CallStep(cfg, Judge(RulesOf(cfg), log[..n]), log[n], FactsOf(SinceReturn(log[..n])));
    }
  }

  lemma ReturnStep(cfg: Config, m: Monitor, e: Entry, f: Facts)
    requires CallAsLogged(m, f) && Allowed(cfg, m, e)
    ensures e.PairReturned? ==> (e.again <==> !f.started || f.failed) && (f.stored || f.clean ==> !e.again)
    ensures e.RunReturned? ==> (e.again <==> !f.started || f.timedOut || f.failed || (f.clean && f.found))
  {}

  /** A pairing attempt is repeated if and only if its process could not be
      started, or exited with a code other than 0 and 10. After a stored session or
      an exit with code 0 it is not. */
  lemma PairingOutcome(cfg: Config, log: seq<Entry>, j: nat)
    requires Conforms(RulesOf(cfg), log) && j < |log| && log[j].PairReturned?
    ensures
      var own := SinceReturn(log[..j]);
      && (log[j].again <==> !Has(own, IsStart) || Has(own, IsFailedExit))
      && (Has(own, IsStored) || Has(own, IsCleanExit) ==> !log[j].again)
  {
    AllowedAt(RulesOf(cfg), log, j);
    RememberedCall(cfg, log[..j]);
    ReturnStep(cfg, Judge(RulesOf(cfg), log[..j]), log[j], FactsOf(SinceReturn(log[..j])));
  }

  /** A run of Soloist is repeated if and only if its process could not be started,
      published no port in time, exited with a code other than 0 and 10, or with 0
      after its port was found. */
  lemma RunOutcome(cfg: Config, log: seq<Entry>, j: nat)
    requires Conforms(RulesOf(cfg), log) && j < |log| && log[j].RunReturned?
    ensures
      var own := SinceReturn(log[..j]);
      log[j].again <==>
        || !Has(own, IsStart) || Has(own, IsTimeout) || Has(own, IsFailedExit)
        || (Has(own, IsCleanExit) && Has(own, IsFound))
  {
    AllowedAt(RulesOf(cfg), log, j);
    RememberedCall(cfg, log[..j]);
    ReturnStep(cfg, Judge(RulesOf(cfg), log[..j]), log[j], FactsOf(SinceReturn(log[..j])));
  }

  function LastReturn(log: seq<Entry>): Option<Entry> {
    if log == [] then None
    else if Returns(log[|log| - 1]) then Some(log[|log| - 1])
    else LastReturn(log[..|log| - 1])
  }

  lemma PairingStep(cfg: Config, m: Monitor, e: Entry)
    requires Allowed(cfg, m, e)
    ensures Returns(e) ==> After(m, e).debts.retry == e.again
    ensures !Returns(e) && After(m, e).debts.retry ==> m.debts.retry
  {}

  lemma {:induction false} RememberedPairing(cfg: Config, log: seq<Entry>)
    requires Conforms(RulesOf(cfg), log)
    ensures Judge(RulesOf(cfg), log).call.paired <==> PairReturned(false) in log
    ensures Judge(RulesOf(cfg), log).call.wasPair <==> LastReturn(log).Some? && LastReturn(log).value.PairReturned?
    ensures Judge(RulesOf(cfg), log).debts.retry ==> LastReturn(log).Some? && ToRepeat(LastReturn(log).value)
    ensures LastReturn(log).Some? ==> Returns(LastReturn(log).value)
  {
    if log != [] {
      var n := |log| - 1;
      RememberedPairing(cfg, log[..n]);
      InLast(log, PairReturned(false));
      PairingStep(cfg, Judge(RulesOf(cfg), log[..n]), log[n]);
    }
  }

  /** An entry of a pairing attempt that is to be repeated or to be decided. */
  predicate OfPairing(e: Entry) {
    e.PairReturned? || e.CheckedSession? || (e.Slept? && e.kind.Pairing?)
  }

  lemma PairingOverStep(cfg: Config, m: Monitor, e: Entry)
    requires Allowed(cfg, m, e)
    ensures OfPairing(e) ==> !m.call.paired
    ensures e.Slept? && e.kind.Pairing? ==> m.call.wasPair && m.debts.retry
    ensures e.Slept? && e.kind.Restarting? ==> !m.call.wasPair && m.debts.retry
  {}

  /** Pairing is over with the first attempt that is not repeated: none follows,
      nor a look for the session, nor a wait for another. */
  lemma PairingEndsOnce(cfg: Config, log: seq<Entry>, j: nat)
    requires Conforms(RulesOf(cfg), log) && j < |log| && PairReturned(false) in log[..j]
    ensures !log[j].PairReturned? && !log[j].CheckedSession? && !(log[j].Slept? && log[j].kind.Pairing?)
  {
    PairingAt(cfg, log, j);
  }

  lemma PairingAt(cfg: Config, log: seq<Entry>, j: nat)
    requires Conforms(RulesOf(cfg), log) && j < |log|
    ensures OfPairing(log[j]) ==> PairReturned(false) !in log[..j]
    ensures log[j].Slept? && log[j].kind.Pairing? ==> LastReturn(log[..j]) == Some(PairReturned(true))
    ensures log[j].Slept? && log[j].kind.Restarting? ==> LastReturn(log[..j]) == Some(RunReturned(true))
  {
    AllowedAt(RulesOf(cfg), log, j);
    RememberedPairing(cfg, log[..j]);
    PairingOverStep(cfg, Judge(RulesOf(cfg), log[..j]), log[j]);
  }

  /** A wait for another attempt, or another run, comes after a return of that
      kind which asked for it. */
  lemma WaitsFollowReturns(cfg: Config, log: seq<Entry>, j: nat)
    requires Conforms(RulesOf(cfg), log) && j < |log| && log[j].Slept?
    ensures log[j].kind.Pairing? ==> LastReturn(log[..j]) == Some(PairReturned(true))
    ensures log[j].kind.Restarting? ==> LastReturn(log[..j]) == Some(RunReturned(true))
  {
    PairingAt(cfg, log, j);
  }

  /** What came after the newest connection was made. */
  function SinceDial(log: seq<Entry>): seq<Entry> {
    if log == [] || log[|log| - 1].Dialled? then [] else SinceDial(log[..|log| - 1]) + [log[|log| - 1]]
  }

  predicate IsVolume(e: Entry) {
    e.Wrote? && e.msg.SetVolume?
  }

  predicate IsActivation(e: Entry) {
    e.Wrote? && e.msg.Activate?
  }

  predicate IsSuccess(e: Entry) {
    e.Wrote? && e.msg.Activate? && e.ok
  }

  predicate IsHealthy(e: Entry) {
    e.ReportedHealthy?
  }

  /** What was done with it. */
  datatype Use = Use(activated: bool, ready: bool, served: bool, volumeSent: bool)

  function UseOf(part: seq<Entry>): Use {
    Use(Has(part, IsActivation), Has(part, IsSuccess), Has(part, IsHealthy), Has(part, IsVolume))
  }

  function NextUse(u: Use, e: Entry): Use {
    if e.Dialled? then Use(false, false, false, false)
    else
      Use(u.activated || IsActivation(e), u.ready || IsSuccess(e), u.served || IsHealthy(e),
          u.volumeSent || IsVolume(e))
  }

  lemma UseStep(log: seq<Entry>)
    requires log != []
    ensures UseOf(SinceDial(log)) == NextUse(UseOf(SinceDial(log[..|log| - 1])), log[|log| - 1])
  {
    var part, e := SinceDial(log[..|log| - 1]), log[|log| - 1];
    HasOneMore(part, e, IsActivation);
    HasOneMore(part, e, IsSuccess);
    HasOneMore(part, e, IsHealthy);
    HasOneMore(part, e, IsVolume);
  }

  predicate UseAsLogged(x: Connection, u: Use) {
    && x.activated == u.activated && x.ready == u.ready && x.served == u.served && x.volumeSent == u.volumeSent
    && (u.ready ==> u.activated)
  }

  predicate UseRemembered(x: Connection, u: Use) {
    (x.dialled > 0 ==> UseAsLogged(x, u)) && (x.open ==> x.dialled > 0)
  }

  lemma UsedByWrite(cfg: Config, x: Connection, e: Entry, u: Use)
    requires UseRemembered(x, u) && e.Wrote? && MayWrite(cfg, x, e.c, e.msg, e.ok)
    ensures UseRemembered(AfterConnection(x, e), NextUse(u, e))
  {}

  lemma UsedOtherwise(x: Connection, e: Entry, u: Use)
    requires UseRemembered(x, u) && !e.Wrote? && (e.ReportedHealthy? ==> x.open)
    ensures UseRemembered(AfterConnection(x, e), NextUse(u, e))
  {}

  lemma UsedStep(cfg: Config, m: Monitor, e: Entry, u: Use)
    requires Allowed(cfg, m, e) && UseRemembered(m.conn, u)
    ensures UseRemembered(AfterConnection(m.conn, e), NextUse(u, e))
  {
    if e.Wrote? {
      UsedByWrite(cfg, m.conn, e, u);
    } else {
      UsedOtherwise(m.conn, e, u);
    }
  }

  lemma {:induction false} RememberedUse(cfg: Config, log: seq<Entry>)
    requires Conforms(RulesOf(cfg), log)
    ensures UseRemembered(Judge(RulesOf(cfg), log).conn, UseOf(SinceDial(log)))
  {
    if log != [] {
      var n := |log| - 1;
      RememberedUse(cfg, log[..n]);
      UseStep(log);
      UsedStep(cfg, Judge(RulesOf(cfg), log[..n]), log[n], UseOf(SinceDial(log[..n])));
    }
  }

  /** No connection is closed unused: activate was sent on it, and where that
      succeeded, health was reported and the volume sent if there is one. */
  lemma NoneClosedUnused(cfg: Config, log: seq<Entry>, j: nat, c: nat)
    requires Conforms(RulesOf(cfg), log) && j < |log| && log[j] == Closed(c) && Closed(c) !in log[..j]
    ensures
      var part := SinceDial(log[..j]);
      && Has(part, IsActivation)
      && (Has(part, IsSuccess) ==> Has(part, IsHealthy) && (cfg.volume > 0 ==> Has(part, IsVolume)))
  {
    OpenAt(cfg, log, j, c);
    RememberedUse(cfg, log[..j]);
  }

  lemma OpenAt(cfg: Config, log: seq<Entry>, j: nat, c: nat)
    requires Conforms(RulesOf(cfg), log) && j < |log| && log[j] == Closed(c) && Closed(c) !in log[..j]
    ensures Conforms(RulesOf(cfg), log[..j])
    ensures var x := Judge(RulesOf(cfg), log[..j]).conn; LastConnection(x, c) && x.open && Used(cfg, x)
  {
    AllowedAt(RulesOf(cfg), log, j);
    RememberedOpen(cfg, log[..j], c);
    ClosedAt(cfg, Judge(RulesOf(cfg), log[..j]), c, Dialled(c) in log[..j]);
  }

  lemma ClosedAt(cfg: Config, m: Monitor, c: nat, dialled: bool)
    requires Allowed(cfg, m, Closed(c)) && OpenAsLogged(m.conn, dialled, false, c)
    ensures LastConnection(m.conn, c) && m.conn.open && Used(cfg, m.conn)
  {}

  // ---- Expiry ----------------------------------------------------------------------

  /** An entry that needs a usable binary. */
  predicate NeedsBinary(e: Entry) {
    || e.Started? || e.ReadPort? || e.CheckedSession? || e.Dialled? || e.DialFailed?
    || e.Slept? || e.ExitSeen? || e.ReportedHealthy?
  }

  /** Exit code 10 is the end: no process, connection, wait or healthy report
      follows it. The expired report and the deletion happen only after it and at
      most once, so the health trace is any number of healthy reports and then at
      most one expired one; and no call returns before the deletion. */
  lemma ExpiryIsTerminal(cfg: Config, log: seq<Entry>, j: nat)
    requires Conforms(RulesOf(cfg), log) && j < |log|
    ensures SawExpiry(log[..j]) ==> !NeedsBinary(log[j])
    ensures log[j] == ReportedExpired ==> SawExpiry(log[..j]) && ReportedExpired !in log[..j]
    ensures log[j] == DeletedBinary ==>
      cfg.binaryManager && SawExpiry(log[..j]) && DeletedBinary !in log[..j]
    ensures Returns(log[j]) && SawExpiry(log[..j]) && cfg.binaryManager ==> DeletedBinary in log[..j]
  {
    ExpiryAt(cfg, log, j);
    RememberedExpiry(cfg, log[..j]);
  }

  predicate ExpiryObeyed(cfg: Config, x: Expiry, e: Entry) {
    && (x.expired ==> !NeedsBinary(e))
    && (e == ReportedExpired ==> x.expired && !x.reported)
    && (e == DeletedBinary ==> cfg.binaryManager && x.expired && !x.deleted)
    && (Returns(e) && x.expired && cfg.binaryManager ==> x.deleted)
  }

  lemma ExpiryStep(cfg: Config, m: Monitor, e: Entry)
    requires Allowed(cfg, m, e)
    ensures ExpiryObeyed(cfg, m.exp, e)
  {}

  lemma ExpiryAt(cfg: Config, log: seq<Entry>, j: nat)
    requires Conforms(RulesOf(cfg), log) && j < |log|
    ensures ExpiryObeyed(cfg, Judge(RulesOf(cfg), log[..j]).exp, log[j])
  {
    AllowedAt(RulesOf(cfg), log, j);
    ExpiryStep(cfg, Judge(RulesOf(cfg), log[..j]), log[j]);
  }

  // ---- Waiting ----------------------------------------------------------------------

  /** A return after which the caller calls again. */
  predicate ToRepeat(e: Entry) {
    Returns(e) && e.again
  }

  /** A wait that a retry, or a redial, waits for. */
  predicate Pays(e: Entry, redial: bool) {
    e.Slept? && e.kind.Redialling? == redial
  }

  lemma {:induction false} DebtStands(cfg: Config, log: seq<Entry>, i: nat, redial: bool)
    requires i < |log| && forall k :: i < k < |log| ==> !Pays(log[k], redial) && !log[k].Started?
    requires if redial then log[i].DialFailed? else ToRepeat(log[i])
    ensures var x := Judge(RulesOf(cfg), log).debts; if redial then x.redial else x.retry
    decreases |log|
  {
    if i < |log| - 1 {
      DebtStands(cfg, log[..|log| - 1], i, redial);
      assert !Pays(log[|log| - 1], redial);
    }
  }

  /** After a pairing attempt or a run of Soloist that is to be repeated, the next
      process is started only after a wait; after a failed dial, so is the next
      dial of the same process. */
  lemma WaitBeforeRetry(cfg: Config, log: seq<Entry>, i: nat, j: nat)
    requires Conforms(RulesOf(cfg), log) && i < j < |log|
    ensures ToRepeat(log[i]) && log[j].Started? ==> exists k :: i < k < j && Pays(log[k], false)
    ensures log[i].DialFailed? && (log[j].Dialled? || log[j].DialFailed?) ==>
      exists k :: i < k < j && (Pays(log[k], true) || log[k].Started?)
  {
    if ToRepeat(log[i]) && log[j].Started? {
      FirstStart(cfg, log, i, j);
    } else if log[i].DialFailed? && (log[j].Dialled? || log[j].DialFailed?) {
      AllowedAt(RulesOf(cfg), log, j);
      if forall k :: i < k < j ==> !Pays(log[k], true) && !log[k].Started? {
        DebtStands(cfg, log[..j], i, true);
      }
    }
  }

  /** By induction over the starts after i: the first of them was waited for. */
  lemma {:induction false} FirstStart(cfg: Config, log: seq<Entry>, i: nat, j: nat)
    requires Conforms(RulesOf(cfg), log) && i < j < |log| && ToRepeat(log[i]) && log[j].Started?
    ensures exists k :: i < k < j && Pays(log[k], false)
    decreases j
  {
    if k :| i < k < j && log[k].Started? {
      FirstStart(cfg, log, i, k);
    } else {
      AllowedAt(RulesOf(cfg), log, j);
      if forall k :: i < k < j ==> !Pays(log[k], false) {
        DebtStands(cfg, log[..j], i, false);
      }
    }
  }

  function WaitsOf(log: seq<Entry>, kind: Waiting): nat {
    if log == [] then 0
    else
      WaitsOf(log[..|log| - 1], kind) +
      if log[|log| - 1].Slept? && log[|log| - 1].kind == kind then 1 else 0
  }

  /** Failed dials waited out since the last start or success. */
  function FailuresInARow(log: seq<Entry>): nat {
    if log == [] then 0
    else
      var e := log[|log| - 1];
      if e.Started? || e.Dialled? then 0
      else FailuresInARow(log[..|log| - 1]) + if e.Slept? && e.kind == Redialling then 1 else 0
  }

  lemma {:induction false} RememberedWaits(cfg: Config, log: seq<Entry>)
    ensures Judge(RulesOf(cfg), log).waits ==
      Waits(WaitsOf(log, Restarting), FailuresInARow(log), WaitsOf(log, Pairing))
  {
    if log != [] {
      RememberedWaits(cfg, log[..|log| - 1]);
    }
  }

  /** Every wait in closed form: the k-th restart and pairing waits double from
      their initial value up to the cap, and so do the redial waits, counted anew
      after every success. */
  lemma WaitsDouble(cfg: Config, log: seq<Entry>, j: nat)
    requires Conforms(RulesOf(cfg), log) && j < |log| && log[j].Slept?
    requires 0 < cfg.startBackoff <= cfg.maxBackoff && 0 < cfg.pairBackoff <= cfg.pairMaxBackoff
    ensures log[j].d ==
      match log[j].kind
      case Restarting => Min(cfg.startBackoff * Pow2(WaitsOf(log[..j], Restarting)), cfg.maxBackoff)
      case Pairing => Min(cfg.pairBackoff * Pow2(WaitsOf(log[..j], Pairing)), cfg.pairMaxBackoff)
      case Redialling => Min(SECOND * Pow2(FailuresInARow(log[..j])), 15 * SECOND)
  {
    AllowedAt(RulesOf(cfg), log, j);
    RememberedWaits(cfg, log[..j]);
    match log[j].kind
    case Restarting => DelayClosedForm(WaitsOf(log[..j], Restarting), cfg.startBackoff, cfg.maxBackoff);
    case Pairing => DelayClosedForm(WaitsOf(log[..j], Pairing), cfg.pairBackoff, cfg.pairMaxBackoff);
    case Redialling => DelayClosedForm(FailuresInARow(log[..j]), DIAL_RETRY, DIAL_MAX_RETRY);
  }
}
