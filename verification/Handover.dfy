/** Whole runs of the Soloist lifecycle: pairing, its retries, and the supervisor
    that takes over (internal/soloist/pair.go:57-171, supervisor.go:73-102,
    cmd/shim/main.go:225-267), in the world of module Supervision. Loops are
    watched for a number of rounds; when it runs out there is no result yet. */
module Handover {
  import opened Backoff
  import opened Logs
  import opened Protocol
  import opened Supervision
  import opened Wrappers

  datatype PairOutcome = PairDone | PairRetry | PairCanceled | PairExpired

  /** What ends a pairing attempt. */
  datatype PairEnd = NotStarted | PairingCancelled | PairExited(code: int) | SessionStored

  /** What it means for the attempt: the stored session and exit code 0 are both
      success. */
  function OutcomeOf(end: PairEnd): PairOutcome {
    match end
    case NotStarted => PairRetry
    case PairingCancelled => PairCanceled
    case PairExited(code) => if code == 0 then PairDone else if code == EXPIRED_CODE then PairExpired else PairRetry
    case SessionStored => PairDone
  }

  /** The binary is known to be expired, and gone if that is anyone's job,
      exactly when `expired`; the report is still to come. */
  ghost predicate Settled(w: World, expired: bool)
    reads w, w.connector
  {
    && w.Valid() && Idle(w.m) && !w.m.exp.reported
    && w.m.exp.expired == expired && w.m.exp.deleted == (w.cfg.binaryManager && expired)
  }

  ghost predicate Paired(w: World, end: PairEnd)
    reads w, w.connector
  {
    && Settled(w, OutcomeOf(end).PairExpired?)
    && (end.PairingCancelled? ==> w.cancelled)
    && (end.PairExited? ==> w.started > 0 && ExitSeen(w.started - 1, end.code) in w.log)
    && (end.PairingCancelled? || end.SessionStored? ==> !w.exitTaken)
    && (end.SessionStored? ==> CheckedSession(true) in w.log)
  }

  /** Pairing has succeeded with entry j: the attempt that returned there had
      found a stored session, or seen its process exit with code 0. */
  ghost predicate SucceededAt(log: seq<Entry>, j: nat) {
    && j < |log| && log[j] == PairReturned(false)
    && (Has(SinceReturn(log[..j]), IsStored) || Has(SinceReturn(log[..j]), IsCleanExit))
  }

  ghost predicate Succeeded(log: seq<Entry>) {
    exists j: nat :: SucceededAt(log, j)
  }

  lemma StillSucceeded(log: seq<Entry>, more: seq<Entry>)
    requires log <= more
    ensures Succeeded(log) ==> Succeeded(more)
    ensures Succeeded(more) && (forall k :: |log| <= k < |more| ==> more[k] != PairReturned(false)) ==> Succeeded(log)
  {
    if j: nat :| SucceededAt(log, j) {
      assert log[..j] == more[..j] && SucceededAt(more, j);
    }
    if j: nat :| SucceededAt(more, j) && j < |log| {
      assert log[..j] == more[..j] && SucceededAt(log, j);
    }
  }

  /** What the attempt has seen when it is about to return. */
  ghost predicate Attempted(w: World, end: PairEnd)
    reads w, w.connector
  {
    && Paired(w, end)
    && w.m.proc.called == !end.NotStarted? && w.m.call.stored == end.SessionStored?
    && w.m.call.code == (if end.PairExited? then Some(end.code) else None)
  }

  /** How an attempt that is over stands in the log: it is repeated if and only if
      its process could not be started or exited with a code other than 0 and 10,
      and it is a success if and only if the session was found stored or the
      process exited with code 0. */
  ghost predicate Told(log: seq<Entry>, outcome: PairOutcome) {
    && log != [] && log[|log| - 1] == PairReturned(outcome.PairRetry?)
    && var own := SinceReturn(log[..|log| - 1]);
       && (outcome.PairRetry? <==> !Has(own, IsStart) || Has(own, IsFailedExit))
       && (outcome.PairDone? <==> Has(own, IsStored) || Has(own, IsCleanExit))
  }

  lemma AttemptIsTold(cfg: Config, log: seq<Entry>, m: Monitor, end: PairEnd)
    requires Amounts(RulesOf(cfg), log, m) && OutcomeOf(end).PairRetry? == PairAgain(m)
    requires m.proc.called == !end.NotStarted? && m.call.stored == end.SessionStored?
    requires m.call.code == (if end.PairExited? then Some(end.code) else None)
    ensures Told(log + [PairReturned(OutcomeOf(end).PairRetry?)], OutcomeOf(end))
  {
    assert Conforms(RulesOf(cfg), log);
    RememberedCall(cfg, log);
    assert (log + [PairReturned(OutcomeOf(end).PairRetry?)])[..|log|] == log;
  }

  /** Pairer.Pair. The outcome is that of what the attempt has seen; None is an
      attempt still under way after a trace of every round. */
  method Pair(w: World, budget: nat) returns (end: Option<PairEnd>)
    requires Ready(w) && !w.m.debts.retry && !w.m.call.paired
    modifies w
    ensures w.Valid() && Onward(w)
    ensures end.Some? ==> Paired(w, end.value) && w.m.debts.retry == OutcomeOf(end.value).PairRetry?
    ensures end.Some? ==> Told(w.log, OutcomeOf(end.value)) && BetweenCalls(w.m) && w.m.call.wasPair
    ensures end.None? ==> w.m.proc.called && |w.log| >= |old(w.log)| + budget
    ensures w.m.call.paired == (end.Some? && !OutcomeOf(end.value).PairRetry?)
    ensures w.started == old(w.started) + (if end == Some(NotStarted) then 0 else 1)
  {
    var ok := w.StartProcess();
    if ok {
      end := AwaitSession(w, budget);
    } else {
      end := Some(NotStarted);
    }
    if end.Some? {
      EndAttempt(w, end.value);
    }
  }

  /** The attempt returns. */
  method EndAttempt(w: World, end: PairEnd)
    requires Attempted(w, end) && !w.m.debts.retry && !w.m.call.paired
    modifies w`log, w`m
    ensures Paired(w, end) && Onward(w) && w.m.debts.retry == OutcomeOf(end).PairRetry?
    ensures Told(w.log, OutcomeOf(end)) && BetweenCalls(w.m) && w.m.call.wasPair
    ensures w.m.call.paired == !OutcomeOf(end).PairRetry?
  {
    AttemptIsTold(w.cfg, w.log, w.m, end);
    w.Emit(PairReturned(OutcomeOf(end).PairRetry?));
  }

  /** The pairing process runs, and no exit of it was seen. */
  ghost predicate InPairing(w: World)
    reads w, w.connector
  {
    && w.Valid() && w.started > 0 && !w.exitTaken && w.m.proc.live && w.m.proc.called && Unconnected(w.m)
    && NothingSeen(w.m.call) && !w.m.call.paired && !w.m.exp.expired && !w.m.exp.deleted && !w.m.exp.reported
  }

  /** Waits for the end of the pairing process, or ends it. */
  method AwaitSession(w: World, budget: nat) returns (end: Option<PairEnd>)
    requires InPairing(w)
    modifies w
    ensures w.Valid() && Within(w) && w.started == old(w.started)
    ensures end.Some? ==> Attempted(w, end.value) && !end.value.NotStarted?
    ensures end.None? ==> InPairing(w) && |w.log| >= |old(w.log)| + budget
  {
    end := None;
    var left := budget;
    while left > 0
      invariant InPairing(w) && Within(w) && w.started == old(w.started) && end.None?
      invariant |w.log| >= |old(w.log)| + budget - left
    {
      left := left - 1;
      end := Look(w);
      if end.Some? {
        return;
      }
    }
  }

  /** One ready case of Pair's select; a tick ends the attempt only if it finds
      the session stored. */
  method Look(w: World) returns (end: Option<PairEnd>)
    requires InPairing(w)
    modifies w
    ensures w.Valid() && Within(w) && w.started == old(w.started)
    ensures end.None? ==> InPairing(w) && |w.log| > |old(w.log)|
    ensures end.Some? ==> Attempted(w, end.value) && !end.value.NotStarted?
  {
    var pick: bool := *;
    if w.cancelled && pick {
      w.Kill();
      return Some(PairingCancelled);
    }
    var exit := w.PollExit();
    if exit.Some? {
      DeleteExpired(w, exit.value);
      return Some(PairExited(exit.value));
    }
    var stored := w.CheckSession();
    if stored {
      assert w.log[|w.log| - 1] == CheckedSession(true);
      w.Kill();
      return Some(SessionStored);
    }
    return None;
  }

  /** Deletes the binary after exit code 10. */
  method DeleteExpired(w: World, code: int)
    requires w.Valid() && Idle(w.m) && !w.m.exp.deleted && !w.m.exp.reported
    requires w.m.exp.expired <==> code == EXPIRED_CODE
    modifies w`log, w`m
    ensures Settled(w, code == EXPIRED_CODE) && Within(w)
    ensures w.m == old(w.m).(exp := w.m.exp)
  {
    if code == EXPIRED_CODE && w.cfg.binaryManager {
      w.Emit(DeletedBinary);
    }
  }

  /** The pairing attempt that Drive is given; None while it is under way. */
  method TryPairing(w: World, budget: nat) returns (outcome: Option<PairOutcome>)
    requires Ready(w) && !w.m.debts.retry && !w.m.call.paired
    modifies w
    ensures w.Valid() && Onward(w)
    ensures outcome.Some? ==>
      && Settled(w, outcome.value.PairExpired?) && w.m.debts.retry == outcome.value.PairRetry?
      && Told(w.log, outcome.value) && BetweenCalls(w.m) && w.m.call.wasPair
    ensures w.m.call.paired == (outcome.Some? && !outcome.value.PairRetry?)
    ensures outcome == Some(PairRetry) ==> Ready(w)
    ensures outcome.None? ==> w.m.proc.called && |w.log| >= |old(w.log)| + budget
    ensures outcome == Some(PairCanceled) ==> w.cancelled
  {
    var end := Pair(w, budget);
    outcome := if end == None then None else Some(OutcomeOf(end.value));
  }

  /** No attempt has ended pairing, so none has succeeded. */
  lemma NotOver(w: World)
    requires w.Valid() && !w.m.call.paired
    ensures !Succeeded(w.log)
  {
    assert Conforms(RulesOf(w.cfg), w.log);
    RememberedPairing(w.cfg, w.log);
  }

  /** The attempt that ends pairing decides whether it has succeeded. */
  lemma DecidedByLast(cfg: Config, log: seq<Entry>, outcome: PairOutcome)
    requires Conforms(RulesOf(cfg), log) && Told(log, outcome) && !outcome.PairRetry?
    ensures Succeeded(log) <==> outcome.PairDone?
  {
    var last := |log| - 1;
    if outcome.PairDone? {
      assert SucceededAt(log, last);
    }
    if j: nat :| SucceededAt(log, j) && j < last {
      assert log[..last][j] == PairReturned(false);
      PairingEndsOnce(cfg, log, last);
    }
  }

  lemma DecidedInWorld(w: World, outcome: PairOutcome)
    requires w.Valid() && Told(w.log, outcome) && !outcome.PairRetry?
    ensures Succeeded(w.log) <==> outcome.PairDone?
  {
    assert Conforms(RulesOf(w.cfg), w.log);
    DecidedByLast(w.cfg, w.log, outcome);
  }

  /** What the log and the cancellation never take back. */
  twostate predicate Grows(w: World)
    reads w
  {
    old(w.log) <= w.log && (old(w.cancelled) ==> w.cancelled)
  }

  /** Drive: attempts until one is decisive, each retry after a longer wait. It is
      left with an outcome, blocked in an attempt, or has made all the retries it
      was watched for; and it is left with success if and only if an attempt has
      succeeded, which is then the last one. */
  method Drive(w: World, budget: nat) returns (r: Watch, outcome: PairOutcome)
    requires Ready(w) && !w.m.debts.retry && !w.m.call.paired && w.m.waits.retries == 0
    modifies w
    ensures w.Valid() && Grows(w) && w.m.waits.restarts == old(w.m.waits.restarts)
    ensures r == Left ==> !outcome.PairRetry? && Settled(w, outcome.PairExpired?) && BetweenCalls(w.m)
    ensures r == Left && outcome.PairDone? ==> !w.m.debts.retry && Told(w.log, PairDone)
    ensures r == Left && outcome.PairCanceled? ==> w.cancelled
    ensures r == Blocked ==> w.m.proc.called && |w.log| >= |old(w.log)| + budget
    ensures r == Watched ==> w.m.waits.retries == budget
    ensures Succeeded(w.log) <==> r == Left && outcome.PairDone?
  {
    var backoff := w.cfg.pairBackoff;
    var left := budget;
    outcome := PairRetry;
    while left > 0
      invariant Ready(w) && !w.m.debts.retry && !w.m.call.paired && Grows(w)
      invariant w.m.waits.restarts == old(w.m.waits.restarts)
      invariant 0 <= left <= budget && w.m.waits.retries == budget - left
      invariant backoff == Delay(w.m.waits.retries, w.cfg.pairBackoff, w.cfg.pairMaxBackoff)
    {
      left := left - 1;
      outcome, r := AttemptAndWait(w, budget, backoff);
      if r != Watched {
        return;
      }
      backoff := NextBackoff(backoff, w.cfg.pairMaxBackoff);
    }
    NotOver(w);
    return Watched, PairRetry;
  }

  /** One round of it: Watched when the next attempt is due. */
  method AttemptAndWait(w: World, budget: nat, backoff: Duration) returns (outcome: PairOutcome, r: Watch)
    requires Ready(w) && !w.m.debts.retry && !w.m.call.paired
    requires backoff == Delay(w.m.waits.retries, w.cfg.pairBackoff, w.cfg.pairMaxBackoff)
    modifies w
    ensures w.Valid() && Grows(w) && w.m.waits.restarts == old(w.m.waits.restarts)
    ensures r == Left ==> !outcome.PairRetry? && Settled(w, outcome.PairExpired?) && BetweenCalls(w.m)
    ensures r == Left && outcome.PairDone? ==> !w.m.debts.retry && Told(w.log, PairDone)
    ensures r == Left && outcome.PairCanceled? ==> w.cancelled
    ensures r == Blocked ==> w.m.proc.called && |w.log| >= |old(w.log)| + budget
    ensures r == Watched ==>
      && Ready(w) && !w.m.debts.retry && !w.m.call.paired
      && w.m.waits.retries == old(w.m.waits.retries) + 1
      && NextBackoff(backoff, w.cfg.pairMaxBackoff) == Delay(w.m.waits.retries, w.cfg.pairBackoff, w.cfg.pairMaxBackoff)
    ensures r != Watched ==> (Succeeded(w.log) <==> r == Left && outcome.PairDone?)
  {
    var attempt := TryPairing(w, budget);
    if attempt == None {
      NotOver(w);
      return PairRetry, Blocked;
    }
    outcome := attempt.value;
    if !outcome.PairRetry? {
      DecidedInWorld(w, outcome);
      return outcome, Left;
    }
    DelayStep(w.m.waits.retries, w.cfg.pairBackoff, w.cfg.pairMaxBackoff);
    var slept := w.Sleep(Pairing, backoff);
    if slept {
      r := Watched;
    } else {
      NotOver(w);
      outcome, r := PairCanceled, Left;
    }
  }

  /** Nothing of Soloist is left, and expiry, its report and the deletion of the
      binary go together. */
  ghost predicate Over(w: World)
    reads w, w.connector
  {
    && w.Valid() && Idle(w.m)
    && w.m.exp.reported == w.m.exp.expired && w.m.exp.deleted == (w.cfg.binaryManager && w.m.exp.expired)
  }

  /** The log tells it: a process exit with code 10 was seen if and only if the
      expiry was reported, and the binary deleted if it can be. */
  ghost predicate Accounted(cfg: Config, log: seq<Entry>) {
    && (ReportedExpired in log <==> SawExpiry(log))
    && (DeletedBinary in log <==> cfg.binaryManager && SawExpiry(log))
  }

  lemma OverIsAccounted(w: World)
    requires Over(w)
    ensures Accounted(w.cfg, w.log)
  {
    RememberedExpiry(w.cfg, w.log);
  }

  /** Supervisor.Run. It is left only by cancellation or expiry; otherwise it is
      blocked in a run of Soloist, or has made all the restarts it was watched
      for. */
  method Run(w: World, budget: nat) returns (r: Watch)
    requires Ready(w) && !w.m.debts.retry && w.m.waits.restarts == 0
    modifies w, w.connector
    ensures w.Valid() && Grows(w)
    ensures r == Left ==> Over(w) && Accounted(w.cfg, w.log) && (w.cancelled || w.m.exp.expired)
    ensures r == Blocked ==> w.m.proc.called && |w.log| >= |old(w.log)| + budget
    ensures r == Watched ==> w.m.waits.restarts == budget
    ensures budget > 0 && !w.cancelled ==> |w.log| > |old(w.log)|
  {
    var backoff := w.cfg.startBackoff;
    var left := budget;
    while left > 0
      invariant Ready(w) && !w.m.debts.retry && Grows(w)
      invariant 0 <= left <= budget && w.m.waits.restarts == budget - left
      invariant left < budget && !w.cancelled ==> |w.log| > |old(w.log)|
      invariant backoff == Delay(w.m.waits.restarts, w.cfg.startBackoff, w.cfg.maxBackoff)
    {
      left := left - 1;
      var restart := RunAndReport(w, budget);
      if restart == None {
        return Blocked;
      }
      var again := restart.value;
      if again {
        again := w.Sleep(Restarting, backoff);
        backoff := NextBackoff(backoff, w.cfg.maxBackoff);
      }
      if !again {
        OverIsAccounted(w);
        return Left;
      }
    }
    return Watched;
  }

  /** One round of Run's loop, up to the wait; None while runOnce is under way. */
  method RunAndReport(w: World, budget: nat) returns (again: Option<bool>)
    requires Ready(w) && !w.m.debts.retry
    modifies w, w.connector
    ensures w.Valid() && Onward(w)
    ensures again == Some(true) ==> Ready(w) && w.m.debts.retry && !w.m.call.wasPair
    ensures again == Some(false) ==> Over(w) && (w.cancelled || w.m.exp.expired)
    ensures again == None ==> w.m.proc.called && |w.log| >= |old(w.log)| + budget
    ensures !w.cancelled ==> |w.log| > |old(w.log)|
  {
    if w.cancelled {
      return Some(false);
    }
    var reason, restart, cause, _ := RunOnce(w, budget);
    if cause == Unfinished {
      return None;
    }
    if reason == SoloistExpired {
      w.Emit(ReportedExpired);
    }
    return Some(restart && !w.cancelled);
  }

  /** pairThenSupervisor, from the start of the program to its end. Supervision
      begins if and only if an attempt at pairing has succeeded, right after that
      attempt's return. */
  method PairThenSupervisor(w: World, budget: nat) returns (r: Watch, ghost handed: Option<nat>)
    requires Ready(w) && !w.m.debts.retry && !w.m.call.paired
    requires w.m.waits.restarts == 0 && w.m.waits.retries == 0
    modifies w, w.connector
    ensures w.Valid() && Grows(w)
    ensures r == Left ==> Over(w) && Accounted(w.cfg, w.log) && (w.cancelled || w.m.exp.expired)
    ensures r == Blocked ==> w.m.proc.called && |w.log| >= |old(w.log)| + budget
    ensures r == Watched ==> if handed.Some? then w.m.waits.restarts == budget else w.m.waits.retries == budget
    ensures handed.None? ==> !Succeeded(w.log)
    ensures handed.Some? ==> HandedOver(w.log, handed.value)
    ensures handed.Some? && budget > 0 && !w.cancelled ==> |w.log| > handed.value
  {
    var outcome;
    r, outcome := Drive(w, budget);
    handed := None;
    if r != Left {
      return;
    }
    if outcome.PairDone? {
      r, handed := TakeOver(w, budget);
      return;
    }
    ghost var before := w.log;
    if outcome.PairExpired? {
      w.Emit(ReportedExpired);
    } else {
      assert outcome.PairCanceled?;
    }
    StillSucceeded(before, w.log);
    OverIsAccounted(w);
  }

  /** The first n entries end with the return of a successful attempt. */
  ghost predicate HandedOver(log: seq<Entry>, n: nat) {
    0 < n <= |log| && SucceededAt(log, n - 1)
  }

  /** The supervisor takes over from pairing. */
  method TakeOver(w: World, budget: nat) returns (r: Watch, ghost handed: Option<nat>)
    requires Ready(w) && !w.m.debts.retry && w.m.waits.restarts == 0 && Told(w.log, PairDone)
    modifies w, w.connector
    ensures w.Valid() && Grows(w)
    ensures r == Left ==> Over(w) && Accounted(w.cfg, w.log) && (w.cancelled || w.m.exp.expired)
    ensures r == Blocked ==> w.m.proc.called && |w.log| >= |old(w.log)| + budget
    ensures r == Watched ==> w.m.waits.restarts == budget
    ensures handed == Some(|old(w.log)|) && HandedOver(w.log, |old(w.log)|)
    ensures budget > 0 && !w.cancelled ==> |w.log| > |old(w.log)|
  {
    handed := Some(|w.log|);
    ghost var before := w.log;
    r := Run(w, budget);
    assert before[..|before| - 1] == w.log[..|before| - 1];
  }
}
