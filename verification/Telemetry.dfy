/** Rate telemetry over counters that restart at zero with every recorder
    (internal/telemetry/telemetry.go), and what its deltas are worth against
    the audio really produced. */
module Telemetry {
  import opened Backoff
  import opened Wrappers

  /** A Go uint64. */
  type Counter = n: int | 0 <= n < TWO_64

  /** Go's wrapping uint64 subtraction. */
  function Minus(a: Counter, b: Counter): Counter {
    (a - b) % TWO_64
  }

  lemma MinusIsDelta(a: Counter, b: Counter)
    requires b <= a
    ensures Minus(a, b) == a - b
  {}

  datatype Snapshot = Snapshot(chunks: Counter, dropped: Counter, delivered: Counter, streams: int)

  datatype Summary = Summary(
    chunksPerSec: real,
    droppedPerSec: real,
    dropRatio: real,
    deliveredKiBps: real,
    streams: int)

  /** A counter moved backwards: the baseline has to be rebuilt. */
  predicate WentBackwards(prev: Snapshot, cur: Snapshot) {
    cur.chunks < prev.chunks || cur.dropped < prev.dropped
  }

  /** time.Time.Sub saturates at the ends of int64. */
  function Elapsed(from: int, to: int): Duration {
    if to - from < -TWO_63 then -TWO_63
    else if to - from >= TWO_63 then TWO_63 - 1
    else to - from
  }

  function Seconds(dt: Duration): (r: real)
    ensures r > 0.0
  {
    (if dt <= 0 then SECOND else dt) as real / SECOND as real
  }

  class Sampler {
    var prev: Snapshot
    var prevT: int
    var baseline: bool

    constructor ()
      ensures !baseline
    {
      prev, prevT, baseline := Snapshot(0, 0, 0, 0), 0, false;
    }

    /** Every call moves the baseline to cur; rates are reported exactly when a
        baseline existed and no chunk counter moved backwards, and then measure the
        time since. */
    method Sample(now: int, cur: Snapshot) returns (sum: Summary)
      modifies this
      ensures prev == cur && prevT == now && baseline
      ensures sum == Summarise(old(baseline), old(prev), cur, Elapsed(old(prevT), now))
      ensures !old(baseline) || cur.chunks < old(prev).chunks || cur.dropped < old(prev).dropped ==>
        sum == Summary(0.0, 0.0, 0.0, 0.0, cur.streams)
      ensures old(baseline && cur.chunks >= prev.chunks && cur.dropped >= prev.dropped && now - prevT < TWO_63) ==>
        Measures(sum, old(prev), cur, Nanos(now - old(prevT)))
    {
      if !WentBackwards(prev, cur) {
        RatesMeasure(prev, cur, Elapsed(prevT, now));
      }
      if !baseline || cur.chunks < prev.chunks || cur.dropped < prev.dropped {
        prev, prevT, baseline := cur, now, true;
        return Summary(0.0, 0.0, 0.0, 0.0, cur.streams);
      }

      var dt := Elapsed(prevT, now);
      if dt <= 0 {
        dt := SECOND;
      }
      var sec := dt as real / SECOND as real;

      var chunks, dropped := Minus(cur.chunks, prev.chunks), Minus(cur.dropped, prev.dropped);
      MinusIsDelta(cur.chunks, prev.chunks);
      MinusIsDelta(cur.dropped, prev.dropped);
      sum := Summary(
        chunks as real / sec,
        dropped as real / sec,
        0.0,
        Minus(cur.delivered, prev.delivered) as real / 1024.0 / sec,
        cur.streams);

      var produced := dropped as int + chunks as int;
      if produced > 0 {
        sum := sum.(dropRatio := dropped as real / produced as real);
      }
      prev, prevT := cur, now;
    }
  }

  /** Rates when there is a baseline that no chunk counter has fallen below, else
      nothing. */
  function Summarise(baseline: bool, prev: Snapshot, cur: Snapshot, dt: Duration): Summary {
    if baseline && !WentBackwards(prev, cur) then Rates(prev, cur, dt) else Summary(0.0, 0.0, 0.0, 0.0, cur.streams)
  }

  function Rates(prev: Snapshot, cur: Snapshot, dt: Duration): (sum: Summary)
    requires !WentBackwards(prev, cur)
  {
    var sec := Seconds(dt);
    Summary(
      (cur.chunks - prev.chunks) as real / sec,
      (cur.dropped - prev.dropped) as real / sec,
      DropRatio(cur.chunks - prev.chunks, cur.dropped - prev.dropped),
      Minus(cur.delivered, prev.delivered) as real / 1024.0 / sec,
      cur.streams)
  }

  /** So much in ns nanoseconds, at this rate per second. */
  predicate RateIs(rate: real, ns: int, amount: real) {
    rate * ns as real == amount * 1000000000.0
  }

  predicate ShareIs(share: real, part: int, whole: int) {
    share * whole as real == part as real && (whole == 0 ==> share == 0.0)
  }

  /** What a summary over ns nanoseconds says: rates per second, KiB delivered, and
      the share of the produced chunks that was dropped. The delivered bytes are
      counted modulo 2^64. */
  predicate Measures(sum: Summary, prev: Snapshot, cur: Snapshot, ns: int) {
    var chunks, dropped, bytes := cur.chunks - prev.chunks, cur.dropped - prev.dropped, cur.delivered - prev.delivered;
    && RateIs(sum.chunksPerSec, ns, chunks as real)
    && RateIs(sum.droppedPerSec, ns, dropped as real)
    && RateIs(sum.deliveredKiBps * 1024.0, ns, (if bytes >= 0 then bytes else bytes + 18446744073709551616) as real)
    && ShareIs(sum.dropRatio, dropped, dropped + chunks)
    && sum.streams == cur.streams
  }

  /** An interval that is not positive counts as a second. */
  function Nanos(dt: int): int {
    if dt > 0 then dt else 1000000000
  }

  /** The rates of an interval are what they claim to be. */
  lemma RatesMeasure(prev: Snapshot, cur: Snapshot, dt: Duration)
    requires !WentBackwards(prev, cur)
    ensures Measures(Rates(prev, cur, dt), prev, cur, Nanos(dt))
  {
    SecondsOf((cur.chunks - prev.chunks) as real, dt);
    SecondsOf((cur.dropped - prev.dropped) as real, dt);
    MinusWraps(cur.delivered, prev.delivered);
    KibiPerSecond(Minus(cur.delivered, prev.delivered) as real, dt);
    ShareOf(cur.chunks - prev.chunks, cur.dropped - prev.dropped);
  }

  lemma MinusWraps(a: Counter, b: Counter)
    ensures Minus(a, b) == if a >= b then a - b else a - b + 18446744073709551616
  {}

  lemma SecondsOf(x: real, dt: Duration)
    ensures RateIs(x / Seconds(dt), Nanos(dt), x)
  {
    RateOf(x, Nanos(dt));
  }

  lemma KibiPerSecond(bytes: real, dt: Duration)
    ensures RateIs(bytes / 1024.0 / Seconds(dt) * 1024.0, Nanos(dt), bytes)
  {
    KibiRateOf(bytes, Nanos(dt));
  }

  lemma RateOf(x: real, ns: int)
    requires ns > 0
    ensures RateIs(x / (ns as real / SECOND as real), ns, x)
  {
    var sec := ns as real / SECOND as real;
    DivideBack(x, sec);
    assert ns as real == sec * 1000000000.0;
    Swap(x / sec, sec, 1000000000.0);
  }

  lemma Swap(a: real, b: real, c: real)
    ensures a * (b * c) == a * b * c
  {}

  lemma KibiRateOf(bytes: real, ns: int)
    requires ns > 0
    ensures RateIs(bytes / 1024.0 / (ns as real / SECOND as real) * 1024.0, ns, bytes)
  {
    var rate := bytes / 1024.0 / (ns as real / SECOND as real);
    RateOf(bytes / 1024.0, ns);
    Kibi(rate, ns as real, bytes);
  }

  lemma Kibi(rate: real, ns: real, bytes: real)
    requires rate * ns == bytes / 1024.0 * 1000000000.0
    ensures rate * 1024.0 * ns == bytes * 1000000000.0
  {
    assert rate * 1024.0 * ns == rate * ns * 1024.0;
  }

  lemma ShareOf(chunks: nat, dropped: nat)
    ensures ShareIs(DropRatio(chunks, dropped), dropped, dropped + chunks)
  {
    if dropped + chunks > 0 {
      DivideBack(dropped as real, (dropped + chunks) as real);
    }
  }

  /** A rate times its interval gives back the counter's delta, and the ratio
      is the share of the production that was discarded. */
  lemma RatesMeanDeltas(prev: Snapshot, cur: Snapshot, dt: Duration)
    requires !WentBackwards(prev, cur)
    ensures Rates(prev, cur, dt).chunksPerSec * Seconds(dt) == (cur.chunks - prev.chunks) as real
    ensures Rates(prev, cur, dt).droppedPerSec * Seconds(dt) == (cur.dropped - prev.dropped) as real
    ensures 0.0 <= Rates(prev, cur, dt).dropRatio <= 1.0
    ensures Rates(prev, cur, dt).dropRatio == 1.0 <==> cur.chunks == prev.chunks && cur.dropped > prev.dropped
  {
    DivideBack((cur.chunks - prev.chunks) as real, Seconds(dt));
    DivideBack((cur.dropped - prev.dropped) as real, Seconds(dt));
  }

  lemma DivideBack(x: real, sec: real)
    requires sec > 0.0
    ensures x / sec * sec == x
  {}

  /** The share of the produced chunks that was discarded. */
  function DropRatio(chunks: nat, dropped: nat): (r: real)
    ensures 0.0 <= r <= 1.0
    ensures r == 0.0 <==> dropped == 0
    ensures r == 1.0 <==> chunks == 0 && dropped > 0
  {
    if dropped + chunks == 0 then 0.0
    else
      var produced := (dropped + chunks) as real;
      RatioBounds(dropped as real, produced);
      dropped as real / produced
  }

  lemma RatioBounds(part: real, whole: real)
    requires 0.0 <= part <= whole && whole > 0.0
    ensures 0.0 <= part / whole <= 1.0
    ensures part / whole == 0.0 <==> part == 0.0
    ensures part / whole == 1.0 <==> part == whole
  {
    assert part / whole * whole == part;
  }

  // ---- The recorder epochs being sampled --------------------------------

  datatype Epoch = Epoch(sent: Counter, dropped: Counter)

  /** Every recorder ever started, newest last, and the one in the slot. */
  datatype Pipeline = Pipeline(epochs: seq<Epoch>, slot: Option<nat>)

  datatype Event = Begin | Publish | Withdraw | Sent | Lost

  /** Only the newest recorder pumps, and a recorder is created only while the
      slot is empty (module Epochs proves both of runRecorder). */
  predicate Enabled(p: Pipeline, e: Event) {
    match e
    case Begin => p.slot.None?
    case Publish => p.slot.None? && p.epochs != []
    case Withdraw => true
    case Sent => p.epochs != [] && p.epochs[|p.epochs| - 1].sent < TWO_64 - 1
    case Lost => p.epochs != [] && p.epochs[|p.epochs| - 1].dropped < TWO_64 - 1
  }

  function Apply(p: Pipeline, e: Event): Pipeline
    requires Enabled(p, e)
  {
    var last := |p.epochs| - 1;
    match e
    case Begin => p.(epochs := p.epochs + [Epoch(0, 0)])
    case Publish => p.(slot := Some(last))
    case Withdraw => p.(slot := None)
    case Sent => p.(epochs := p.epochs[last := Epoch(p.epochs[last].sent + 1, p.epochs[last].dropped)])
    case Lost => p.(epochs := p.epochs[last := Epoch(p.epochs[last].sent, p.epochs[last].dropped + 1)])
  }

  predicate Valid(p: Pipeline) {
    p.slot.Some? ==> p.slot.value == |p.epochs| - 1
  }

  /** p1 is reached from p0 by the given events. */
  ghost predicate Evolves(p0: Pipeline, events: seq<Event>, p1: Pipeline)
    decreases |events|
  {
    if events == [] then
      p0 == p1
    else
      Enabled(p0, events[0]) && Evolves(Apply(p0, events[0]), events[1..], p1)
  }

  /** Chunks sent and chunks dropped since the process began. */
  function Total(epochs: seq<Epoch>): (nat, nat) {
    if epochs == [] then (0, 0)
    else
      var (s, d) := Total(epochs[..|epochs| - 1]);
      var e := epochs[|epochs| - 1];
      (s + e.sent, d + e.dropped)
  }

  /** What runTelemetry reads: the slot's counters, or zeros when it is empty. */
  function Observe(p: Pipeline): Epoch
    requires Valid(p)
  {
    if p.slot.None? then Epoch(0, 0) else p.epochs[p.slot.value]
  }

  function Newest(p: Pipeline): Epoch {
    if p.epochs == [] then Epoch(0, 0) else p.epochs[|p.epochs| - 1]
  }

  /** Counts the newest recorder had already made at p0, if it is still the
      newest at p1. */
  function Carried(p0: Pipeline, p1: Pipeline): Epoch {
    if |p1.epochs| == |p0.epochs| then Newest(p0) else Epoch(0, 0)
  }

  lemma {:induction false} Growth(p0: Pipeline, events: seq<Event>, p1: Pipeline)
    requires Valid(p0) && Evolves(p0, events, p1)
    ensures Valid(p1)
    ensures |p0.epochs| <= |p1.epochs|
    ensures Total(p1.epochs).0 - Total(p0.epochs).0 >= Newest(p1).sent - Carried(p0, p1).sent
    ensures Total(p1.epochs).1 - Total(p0.epochs).1 >= Newest(p1).dropped - Carried(p0, p1).dropped
    ensures |p1.epochs| == |p0.epochs| ==>
      && Total(p1.epochs).0 - Total(p0.epochs).0 == Newest(p1).sent - Newest(p0).sent
      && Total(p1.epochs).1 - Total(p0.epochs).1 == Newest(p1).dropped - Newest(p0).dropped
    ensures |p1.epochs| == |p0.epochs| ==>
      Newest(p0).sent <= Newest(p1).sent && Newest(p0).dropped <= Newest(p1).dropped
    decreases |events|
  {
    if events != [] {
      var p := Apply(p0, events[0]);
      assert Total(p.epochs[..|p.epochs|]) == Total(p.epochs) by { assert p.epochs[..|p.epochs|] == p.epochs; }
      if events[0].Begin? {
        assert p.epochs[..|p.epochs| - 1] == p0.epochs;
      } else if p0.epochs != [] {
        assert p.epochs[..|p.epochs| - 1] == p0.epochs[..|p0.epochs| - 1];
      }
      Growth(p, events[1..], p1);
    }
  }

  /** The chunks a recorder counted between rec.Start and slot.set, when the
      earlier reading fell in that window. */
  function HeadStart(p0: Pipeline, p1: Pipeline): Epoch {
    if p0.slot.None? && p1.slot.Some? then Carried(p0, p1) else Epoch(0, 0)
  }

  /** The deltas behind a summary against the true production of its interval:
      exact inside one epoch, and above the truth exactly when the earlier
      reading found the slot empty although the recorder it is compared with
      had already counted. */
  lemma DeltasAgainstTruth(p0: Pipeline, events: seq<Event>, p1: Pipeline)
    requires Valid(p0) && Evolves(p0, events, p1)
    ensures Valid(p1)
    ensures
      var sent := Total(p1.epochs).0 - Total(p0.epochs).0;
      var dropped := Total(p1.epochs).1 - Total(p0.epochs).1;
      var chunksDelta := Observe(p1).sent - Observe(p0).sent;
      var droppedDelta := Observe(p1).dropped - Observe(p0).dropped;
      && (p0.slot == p1.slot && p0.slot.Some? ==> chunksDelta == sent && droppedDelta == dropped)
      && chunksDelta <= sent + HeadStart(p0, p1).sent
      && droppedDelta <= dropped + HeadStart(p0, p1).dropped
      && (chunksDelta > sent <==> HeadStart(p0, p1).sent > 0)
      && (droppedDelta > dropped <==> HeadStart(p0, p1).dropped > 0)
  {
    Growth(p0, events, p1);
  }

  ghost predicate Later(p0: Pipeline, p1: Pipeline) {
    exists events :: Evolves(p0, events, p1)
  }

  /** A run of samples, in order. */
  ghost predicate Samples(ps: seq<Pipeline>) {
    && (forall i :: 0 <= i < |ps| ==> Valid(ps[i]))
    && (forall i :: 0 < i < |ps| ==> Later(ps[i - 1], ps[i]))
  }

  /** What runTelemetry hands to the sampler. */
  function SnapshotOf(p: Pipeline, delivered: Counter, streams: int): Snapshot
    requires Valid(p)
  {
    Snapshot(Observe(p).sent, Observe(p).dropped, delivered, streams)
  }

  /** The chunk and drop deltas behind a summary: none when the baseline is
      rebuilt. */
  function Reported(p0: Pipeline, p1: Pipeline): (nat, nat)
    requires Valid(p0) && Valid(p1)
  {
    var o0, o1 := Observe(p0), Observe(p1);
    if o1.sent < o0.sent || o1.dropped < o0.dropped then (0, 0) else (o1.sent - o0.sent, o1.dropped - o0.dropped)
  }

  lemma SummaryTimes(prev: Snapshot, cur: Snapshot, dt: Duration)
    ensures
      var sum, none := Summarise(true, prev, cur, dt), WentBackwards(prev, cur);
      && sum.chunksPerSec * Seconds(dt) == (if none then 0 else cur.chunks - prev.chunks) as real
      && sum.droppedPerSec * Seconds(dt) == (if none then 0 else cur.dropped - prev.dropped) as real
  {
    if !WentBackwards(prev, cur) {
      DivideBack((cur.chunks - prev.chunks) as real, Seconds(dt));
      DivideBack((cur.dropped - prev.dropped) as real, Seconds(dt));
    }
  }

  /** They are what the rates of Sample amount to over the interval. */
  lemma SampleReports(p0: Pipeline, p1: Pipeline, cur: Snapshot, prev: Snapshot, dt: Duration)
    requires Valid(p0) && prev == SnapshotOf(p0, prev.delivered, prev.streams)
    requires Valid(p1) && cur == SnapshotOf(p1, cur.delivered, cur.streams)
    ensures Summarise(true, prev, cur, dt).chunksPerSec * Seconds(dt) == Reported(p0, p1).0 as real
    ensures Summarise(true, prev, cur, dt).droppedPerSec * Seconds(dt) == Reported(p0, p1).1 as real
  {
    SummaryTimes(prev, cur, dt);
  }

  ghost function AllReported(ps: seq<Pipeline>): (nat, nat)
    requires Samples(ps)
  {
    if |ps| < 2 then (0, 0)
    else
      var before, last := AllReported(ps[..|ps| - 1]), Reported(ps[|ps| - 2], ps[|ps| - 1]);
      (before.0 + last.0, before.1 + last.1)
  }

  ghost function AllHeadStarts(ps: seq<Pipeline>): (nat, nat) {
    if |ps| < 2 then (0, 0)
    else
      var before, last := AllHeadStarts(ps[..|ps| - 1]), HeadStart(ps[|ps| - 2], ps[|ps| - 1]);
      (before.0 + last.sent, before.1 + last.dropped)
  }

  /** Chunks and drops of the pipeline between two samples. */
  function Produced(p0: Pipeline, p1: Pipeline): (int, int) {
    (Total(p1.epochs).0 - Total(p0.epochs).0, Total(p1.epochs).1 - Total(p0.epochs).1)
  }

  lemma ReportedAgainstTruth(p0: Pipeline, p1: Pipeline)
    requires Valid(p0) && Valid(p1) && Later(p0, p1)
    ensures Reported(p0, p1).0 <= Produced(p0, p1).0 + HeadStart(p0, p1).sent
    ensures Reported(p0, p1).1 <= Produced(p0, p1).1 + HeadStart(p0, p1).dropped
    ensures p0.slot.Some? && p1.slot == p0.slot ==> Reported(p0, p1) == Produced(p0, p1)
  {
    var events :| Evolves(p0, events, p1);
    DeltasAgainstTruth(p0, events, p1);
    Growth(p0, events, p1);
  }

  /** Over any number of samples and reconnects, what was reported, in chunks and
      in drops, stays within what was produced plus the head starts. */
  lemma {:induction false} ReportsNeverExceedProduction(ps: seq<Pipeline>)
    requires ps != [] && Samples(ps)
    ensures AllReported(ps).0 <= Produced(ps[0], ps[|ps| - 1]).0 + AllHeadStarts(ps).0
    ensures AllReported(ps).1 <= Produced(ps[0], ps[|ps| - 1]).1 + AllHeadStarts(ps).1
    decreases |ps|
  {
    if |ps| >= 2 {
      ReportsNeverExceedProduction(ps[..|ps| - 1]);
      ReportedAgainstTruth(ps[|ps| - 2], ps[|ps| - 1]);
    }
  }

  /** As long as the slot keeps one recorder, the reports add up to exactly what
      was produced between the first sample and the last. */
  lemma {:induction false} ReportsTelescope(ps: seq<Pipeline>)
    requires ps != [] && Samples(ps) && ps[0].slot.Some?
    requires forall i :: 0 <= i < |ps| ==> ps[i].slot == ps[0].slot
    ensures AllReported(ps) == Produced(ps[0], ps[|ps| - 1])
    decreases |ps|
  {
    if |ps| >= 2 {
      ReportsTelescope(ps[..|ps| - 1]);
      ReportedAgainstTruth(ps[|ps| - 2], ps[|ps| - 1]);
    }
  }

  /** The over-count is real: a chunk counted before the recorder is published
      shows up in an interval that produced nothing. */
  lemma HeadStartIsOverCounted() returns (p0: Pipeline, p1: Pipeline)
    ensures Valid(p0) && Evolves(p0, [Publish], p1) && Valid(p1)
    ensures Evolves(Pipeline([], None), [Begin, Sent], p0)
    ensures Total(p1.epochs) == Total(p0.epochs)
    ensures Observe(p1).sent - Observe(p0).sent == 1
  {
    p0 := Pipeline([Epoch(1, 0)], None);
    p1 := Pipeline([Epoch(1, 0)], Some(0));
    var begun := Apply(Pipeline([], None), Begin);
    assert begun == Pipeline([Epoch(0, 0)], None);
    assert Apply(begun, Sent) == p0;
    assert Evolves(p0, [], p0);
    assert [Begin, Sent][1..] == [Sent] && [Sent][1..] == [] && [Publish][1..] == [];
    assert Evolves(begun, [Sent], p0);
  }
}
