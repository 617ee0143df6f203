/** Dispatch of events to Soloist commands and the resubscription loop
    (internal/sselistener/listener.go:106-133 and 228-280). */
module Listener {
  import opened Backoff
  import opened Envelope
  import opened EventStream

  datatype Command = Play(uri: string) | Pause | SkipNext | SkipPrev

  /** The command an event stands for, if any. */
  function Dispatch(e: Event): seq<Command> {
    match e.name
    case "TagValid" => [Play("")]
    case "playback" => if WrappedValue(e.data) == "stopped" then [Pause] else []
    case "knock" =>
      var value := WrappedValue(e.data);
      if value == "forward" then [SkipNext] else if value == "backward" then [SkipPrev] else []
    case _ => []
  }

  function DispatchAll(events: seq<Event>): seq<Command> {
    FlatMap(Dispatch, events)
  }

  /** The commands a connection's whole text leads to. */
  function Commands(text: string): seq<Command> {
    DispatchAll(Events(EMPTY, text))
  }

  /** After a blank line the commands are those of the rest alone. */
  lemma CommandsResynchronised(p: string, r: string)
    requires AllFit(p) && EndsBlank(p)
    ensures Commands(p + r) == Commands(p) + Commands(r)
  {
    Resynchronised(p, r);
    FlatMapJoined(Dispatch, Events(EMPTY, p), Events(EMPTY, r));
  }

  // ---- The resubscription loop ------------------------------------------------

  /** One attempt: refused by dial or status, or a body with the number of lines
      after which the loop is interrupted. */
  datatype Attempt = Refused | Body(text: string, patience: nat)

  /** The events an attempt may lead to. */
  ghost predicate Heard(a: Attempt, events: seq<Event>) {
    match a
    case Refused => events == []
    case Body(text, patience) =>
      && events <= Events(EMPTY, text)
      && (|text| < patience ==> events == Events(EMPTY, text))
  }

  function Joined(heard: seq<seq<Event>>): seq<Event> {
    if heard == [] then [] else Joined(heard[..|heard| - 1]) + heard[|heard| - 1]
  }

  lemma DispatchJoined(heard: seq<seq<Event>>, events: seq<Event>)
    ensures DispatchAll(Joined(heard + [events])) == DispatchAll(Joined(heard)) + DispatchAll(events)
  {
    assert (heard + [events])[..|heard|] == heard;
    FlatMapJoined(Dispatch, Joined(heard), events);
  }

  /** The first attempts led to these events, and those to these commands. */
  ghost predicate Obeyed(attempts: seq<Attempt>, heard: seq<seq<Event>>, commands: seq<Command>) {
    && |heard| <= |attempts| && (forall i :: 0 <= i < |heard| ==> Heard(attempts[i], heard[i]))
    && commands == DispatchAll(Joined(heard))
  }

  lemma OneMoreObeyed(
      attempts: seq<Attempt>, heard: seq<seq<Event>>, commands: seq<Command>, events: seq<Event>, sent: seq<Command>)
    requires Obeyed(attempts, heard, commands) && |heard| < |attempts|
    requires Heard(attempts[|heard|], events) && sent == DispatchAll(events)
    ensures Obeyed(attempts, heard + [events], commands + sent)
  {
    DispatchJoined(heard, events);
  }

  /** The k-th wait is the k-th backoff delay. */
  ghost predicate Doubling(sleeps: seq<Duration>, initial: Duration, max: Duration) {
    forall k :: 0 <= k < |sleeps| ==> sleeps[k] == Delay(k, initial, max)
  }

  lemma OneMoreDoubling(sleeps: seq<Duration>, initial: Duration, max: Duration, backoff: Duration)
    requires Doubling(sleeps, initial, max) && backoff == Delay(|sleeps|, initial, max)
    ensures Doubling(sleeps + [backoff], initial, max)
    ensures NextBackoff(backoff, max) == Delay(|sleeps + [backoff]|, initial, max)
  {
    DelayStep(|sleeps|, initial, max);
  }

  /** Run, over the attempts made before ctx is cancelled. Nothing is carried from
      one connection to the next, and the waits double whether or not connections
      succeeded in between. */
  method Run(attempts: seq<Attempt>, initial: Duration, max: Duration)
    returns (commands: seq<Command>, sleeps: seq<Duration>, ghost heard: seq<seq<Event>>)
    ensures |heard| == |attempts| && Obeyed(attempts, heard, commands)
    ensures |sleeps| == |attempts| && Doubling(sleeps, initial, max)
  {
    commands, sleeps, heard := [], [], [];
    var backoff := initial;
    while |sleeps| < |attempts|
      invariant |heard| == |sleeps| <= |attempts|
      invariant Obeyed(attempts, heard, commands)
      invariant backoff == Delay(|sleeps|, initial, max) && Doubling(sleeps, initial, max)
    {
      var events := SubscribeOnce(attempts[|sleeps|]);
      var sent := DispatchEach(events);
      OneMoreObeyed(attempts, heard, commands, events, sent);
      OneMoreDoubling(sleeps, initial, max, backoff);
      heard := heard + [events];
      commands := commands + sent;
      sleeps := sleeps + [backoff];
      backoff := NextBackoff(backoff, max);
    }
  }

  /** subscribeOnce, up to the events it hands to dispatch. */
  method SubscribeOnce(attempt: Attempt) returns (events: seq<Event>)
    ensures Heard(attempt, events)
  {
    events := [];
    if attempt.Body? {
      var read, _ := ReadLoop(attempt.text, attempt.patience);
      events := read;
    }
  }

  method DispatchEach(events: seq<Event>) returns (commands: seq<Command>)
    ensures commands == DispatchAll(events)
  {
    commands := [];
    var i := 0;
    while i < |events|
      invariant i <= |events| && commands == DispatchAll(events[..i])
    {
      assert events[..i + 1] == events[..i] + [events[i]];
      DispatchOneMore(events[..i], events[i]);
      commands := commands + Dispatch(events[i]);
      i := i + 1;
    }
    assert events[..i] == events;
  }

  lemma DispatchOneMore(events: seq<Event>, e: Event)
    ensures DispatchAll(events + [e]) == DispatchAll(events) + Dispatch(e)
  {
    FlatMapOneMore(Dispatch, events, e);
  }
}
