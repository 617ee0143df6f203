/** The recorder loop as telemetry sees it: every run of runRecorder, with its
    pumps counting chunks while they are alive, is a pipeline as module Telemetry
    takes it for granted (cmd/shim/main.go:178-199 over 269-359). */
module Epochs {
  import opened Wrappers
  import opened Backoff
  import opened Logs
  import opened CaptureLog
  import Telemetry

  /** An entry of the loop's log, or a chunk counted by the pump. */
  datatype Step = Did(e: Entry) | Counted(dropped: bool)

  function EntriesOf(steps: seq<Step>): seq<Entry> {
    if steps == [] then []
    else EntriesOf(steps[..|steps| - 1]) + if steps[|steps| - 1].Did? then [steps[|steps| - 1].e] else []
  }

  /** What the code can do: its log conforms, and only a live pump counts. */
  predicate Runs(steps: seq<Step>) {
    steps == [] || (
      var m := Judge(RULES, EntriesOf(steps[..|steps| - 1]));
      && Runs(steps[..|steps| - 1])
      && (if steps[|steps| - 1].Did? then Allowed(m, steps[|steps| - 1].e) else m.pumping))
  }

  function EventOf(s: Step): seq<Telemetry.Event> {
    match s
    case Counted(dropped) => [if dropped then Telemetry.Lost else Telemetry.Sent]
    case Did(e) =>
      match e
      case PumpStarted(_) => [Telemetry.Begin]
      case SlotSet(_) => [Telemetry.Publish]
      case SlotCleared => [Telemetry.Withdraw]
      case _ => []
  }

  function EventsOf(steps: seq<Step>): seq<Telemetry.Event> {
    if steps == [] then [] else EventsOf(steps[..|steps| - 1]) + EventOf(steps[|steps| - 1])
  }

  /** The pipeline and the loop agree on the slot and on there being a pump; no
      counter exceeds n. */
  predicate Matches(m: Monitor, p: Telemetry.Pipeline, n: nat) {
    && m.slot.Some? == p.slot.Some?
    && (m.slot.Some? ==> m.started) && (m.pumping ==> m.started)
    && (m.started ==> p.epochs != [])
    && Telemetry.Newest(p).sent <= n && Telemetry.Newest(p).dropped <= n
  }

  /** Whatever the loop and its pumps do next, the pipeline can follow. */
  lemma Follows(m: Monitor, s: Step, p: Telemetry.Pipeline, n: nat) returns (p': Telemetry.Pipeline)
    requires Matches(m, p, n) && n < TWO_64 - 1
    requires if s.Did? then Allowed(m, s.e) else m.pumping
    ensures Telemetry.Evolves(p, EventOf(s), p')
    ensures Matches(if s.Did? then After(m, s.e) else m, p', n + 1)
  {
    if EventOf(s) == [] {
      p' := p;
    } else {
      p' := Telemetry.Apply(p, EventOf(s)[0]);
      assert EventOf(s)[1..] == [];
      assert Telemetry.Evolves(p', [], p');
    }
  }

  lemma {:induction false} EvolvesOn(
      p0: Telemetry.Pipeline, a: seq<Telemetry.Event>, p1: Telemetry.Pipeline,
      b: seq<Telemetry.Event>, p2: Telemetry.Pipeline)
    requires Telemetry.Evolves(p0, a, p1) && Telemetry.Evolves(p1, b, p2)
    ensures Telemetry.Evolves(p0, a + b, p2)
    decreases |a|
  {
    if a == [] {
      assert a + b == b;
    } else {
      assert (a + b)[1..] == a[1..] + b;
      EvolvesOn(Telemetry.Apply(p0, a[0]), a[1..], p1, b, p2);
    }
  }

  /** So a whole run is an evolution of the pipeline, and all that is proved of
      telemetry holds of it. */
  lemma {:induction false} LoopIsPipeline(steps: seq<Step>) returns (p: Telemetry.Pipeline)
    requires Runs(steps) && |steps| < TWO_64
    ensures Telemetry.Evolves(Telemetry.Pipeline([], None), EventsOf(steps), p)
    ensures Conforms(RULES, EntriesOf(steps)) && Matches(Judge(RULES, EntriesOf(steps)), p, |steps|)
  {
    if steps == [] {
      p := Telemetry.Pipeline([], None);
    } else {
      var init, s := steps[..|steps| - 1], steps[|steps| - 1];
      var q := LoopIsPipeline(init);
      var m := Judge(RULES, EntriesOf(init));
      p := Follows(m, s, q, |init|);
      EvolvesOn(Telemetry.Pipeline([], None), EventsOf(init), q, EventOf(s), p);
      if s.Did? {
        AmountsExtends(RULES, EntriesOf(init), m, s.e);
      } else {
        assert EntriesOf(steps) == EntriesOf(init);
      }
    }
  }
}
