/** In which order actions on the mock box reach Soloist, when their calls of
    trigger overlap and when they do not (cmd/mock-teddycloud/main.go:58-106). */
module Ordering {
  import opened EventStream
  import opened Frames
  import opened Gestures
  import opened Listener
  import Hub

  // ---- A true interleaving --------------------------------------------------------

  /** What action t has broadcast. */
  function SentBy(sent: seq<Signal>, origin: seq<nat>, t: nat): seq<Signal>
    requires |sent| == |origin|
  {
    if sent == [] then []
    else
      SentBy(sent[..|sent| - 1], origin[..|sent| - 1], t) +
      if origin[|sent| - 1] == t then [sent[|sent| - 1]] else []
  }

  /** Each action has broadcast a prefix of its own events, and nothing else was
      broadcast. */
  predicate Interleaved(uid: string, s: Hub.State) {
    && |s.sent| == |s.origin|
    && (forall k :: 0 <= k < |s.origin| ==> s.origin[k] < |s.triggers|)
    && (forall t :: 0 <= t < |s.triggers| ==> InStep(uid, s, t))
  }

  predicate InStep(uid: string, s: Hub.State, t: nat)
    requires t < |s.triggers| && |s.sent| == |s.origin|
  {
    && s.triggers[t].fired <= |Hub.Signals(uid, s.triggers[t].action)|
    && SentBy(s.sent, s.origin, t) == Fired(uid, s.triggers[t])
  }

  lemma SentByOneMore(sent: seq<Signal>, origin: seq<nat>, x: Signal, sender: nat, t: nat)
    requires |sent| == |origin|
    ensures SentBy(sent + [x], origin + [sender], t) == SentBy(sent, origin, t) + if sender == t then [x] else []
  {
    assert (sent + [x])[..|sent|] == sent && (origin + [sender])[..|sent|] == origin;
  }

  lemma {:induction false} SentByNone(sent: seq<Signal>, origin: seq<nat>, t: nat)
    requires |sent| == |origin|
    ensures SentBy(sent, origin, t) == [] <==> t !in origin
  {
    if sent != [] {
      var n := |sent| - 1;
      SentByNone(sent[..n], origin[..n], t);
      assert origin == origin[..n] + [origin[n]];
    }
  }

  lemma {:induction false} SentByJoined(
      sent: seq<Signal>, origin: seq<nat>, more: seq<Signal>, moreOrigin: seq<nat>, t: nat)
    requires |sent| == |origin| && |more| == |moreOrigin|
    ensures SentBy(sent + more, origin + moreOrigin, t) == SentBy(sent, origin, t) + SentBy(more, moreOrigin, t)
  {
    if more == [] {
      assert sent + more == sent && origin + moreOrigin == origin;
    } else {
      var n := |more| - 1;
      SentByJoined(sent, origin, more[..n], moreOrigin[..n], t);
      SentByOneMore(sent + more[..n], origin + moreOrigin[..n], more[n], moreOrigin[n], t);
      assert sent + more == sent + more[..n] + [more[n]];
      assert origin + moreOrigin == origin + moreOrigin[..n] + [moreOrigin[n]];
    }
  }

  lemma {:induction false} SentByIsPart(sent: seq<Signal>, origin: seq<nat>, t: nat)
    requires |sent| == |origin|
    ensures Hub.Subsequence(SentBy(sent, origin, t), sent)
  {
    if sent != [] {
      var n := |sent| - 1;
      var before := SentBy(sent[..n], origin[..n], t);
      SentByIsPart(sent[..n], origin[..n], t);
      if origin[n] == t {
        assert (before + [sent[n]])[..|before|] == before;
      } else {
        assert before + [] == before;
        Hub.SubsequenceDrop(before, sent);
      }
    }
  }

  /** Event n of the signals comes next. */
  lemma FiresNext(uid: string, t: Hub.Trigger)
    requires t.fired < |Hub.Signals(uid, t.action)|
    ensures Fired(uid, t.(fired := t.fired + 1)) == Fired(uid, t) + [Hub.Signals(uid, t.action)[t.fired]]
  {
    var n, signals := t.fired, Hub.Signals(uid, t.action);
    assert signals[..n + 1] == signals[..n] + [signals[n]];
  }

  lemma BroadcastInterleaved(uid: string, s: Hub.State, sender: nat)
    requires Interleaved(uid, s) && Hub.Enabled(uid, s, Hub.Broadcast(sender))
    ensures Interleaved(uid, Hub.Apply(uid, s, Hub.Broadcast(sender)))
  {
    var s' := Hub.Apply(uid, s, Hub.Broadcast(sender));
    FiresNext(uid, s.triggers[sender]);
    forall t | 0 <= t < |s'.triggers| ensures InStep(uid, s', t) {
      assert InStep(uid, s, t);
      SentByOneMore(s.sent, s.origin, Hub.Due(uid, s, sender), sender, t);
    }
  }

  lemma BeginInterleaved(uid: string, s: Hub.State, action: string)
    requires Interleaved(uid, s)
    ensures Interleaved(uid, Hub.Apply(uid, s, Hub.Begin(action)))
  {
    var s' := Hub.Apply(uid, s, Hub.Begin(action));
    SentByNone(s.sent, s.origin, |s.triggers|);
    forall t | 0 <= t < |s'.triggers| ensures InStep(uid, s', t) {
      assert t < |s.triggers| ==> InStep(uid, s, t);
    }
  }

  lemma SameInterleaving(uid: string, s: Hub.State, s': Hub.State)
    requires Interleaved(uid, s) && s' == s.(clients := s'.clients)
    ensures Interleaved(uid, s')
  {
    forall t | 0 <= t < |s'.triggers| ensures InStep(uid, s', t) {
      assert InStep(uid, s, t);
    }
  }

  lemma InterleavedStep(uid: string, s: Hub.State, step: Hub.Step)
    requires Interleaved(uid, s) && Hub.Enabled(uid, s, step)
    ensures Interleaved(uid, Hub.Apply(uid, s, step))
  {
    if step.Broadcast? {
      BroadcastInterleaved(uid, s, step.t);
    } else if step.Begin? {
      BeginInterleaved(uid, s, step.action);
    } else {
      ClientsOnly(uid, s, step);
      SameInterleaving(uid, s, Hub.Apply(uid, s, step));
    }
  }

  /** The broadcasts are an interleaving of the actions' own events: those of each
      action, in its order, with nothing lost, repeated or invented. */
  lemma {:induction false} TrueInterleaving(uid: string, run: seq<Hub.State>, i: nat)
    requires Hub.Behaviour(uid, run) && i < |run|
    ensures Interleaved(uid, run[i])
  {
    if i > 0 {
      TrueInterleaving(uid, run, i - 1);
      assert Hub.Next(uid, run[i - 1], run[i]);
      var step :| Hub.Enabled(uid, run[i - 1], step) && run[i] == Hub.Apply(uid, run[i - 1], step);
      InterleavedStep(uid, run[i - 1], step);
    }
  }

  // ---- Actions that do not overlap keep their order ----------------------------------

  /** Nothing broadcast is taken back, and no action changes. */
  predicate Grown(s: Hub.State, s': Hub.State) {
    && s.sent <= s'.sent && s.origin <= s'.origin && |s.triggers| <= |s'.triggers|
    && forall t :: 0 <= t < |s.triggers| ==> s'.triggers[t].action == s.triggers[t].action
  }

  lemma GrowStep(uid: string, s: Hub.State, step: Hub.Step)
    requires Hub.Enabled(uid, s, step)
    ensures Grown(s, Hub.Apply(uid, s, step))
  {}

  lemma {:induction false} Grows(uid: string, run: seq<Hub.State>, k: nat, i: nat)
    requires Hub.Behaviour(uid, run) && k <= i < |run|
    ensures Grown(run[k], run[i])
    decreases i
  {
    if k < i {
      Grows(uid, run, k, i - 1);
      assert Hub.Next(uid, run[i - 1], run[i]);
      var step :| Hub.Enabled(uid, run[i - 1], step) && run[i] == Hub.Apply(uid, run[i - 1], step);
      GrowStep(uid, run[i - 1], step);
    }
  }

  /** If action a is through before action b begins, all that a broadcasts comes
      before all that b does: in the events, and so in the commands, whatever
      other actions overlap with either. */
  lemma OrderKept(uid: string, run: seq<Hub.State>, k: nat, i: nat, a: nat, b: nat)
    requires Hub.Behaviour(uid, run) && k <= i < |run|
    requires a < |run[k].triggers| <= b < |run[i].triggers| && Through(uid, run[k].triggers[a])
    ensures run[k].sent <= run[i].sent && run[k].origin <= run[i].origin
    ensures forall p, q :: 0 <= p < |run[i].origin| && 0 <= q < |run[i].origin| ==>
      run[i].origin[p] == a && run[i].origin[q] == b ==> p < q
    ensures CommandsSplit(uid, run[k], run[i], run[k].triggers[a], run[i].triggers[b])
  {
    var s, s' := run[k], run[i];
    var n := |s.sent|;
    Grows(uid, run, k, i);
    TrueInterleaving(uid, run, k);
    TrueInterleaving(uid, run, i);
    var rest, restOrigin := s'.sent[n..], s'.origin[n..];
    assert s'.sent == s.sent + rest && s'.origin == s.origin + restOrigin;
    NoMoreOf(uid, s, s', rest, restOrigin, a);
    NoneBefore(uid, s, s', rest, restOrigin, b);
    AllBefore(s.origin, restOrigin, a, b);
    FlatMapJoined(Outcome, s.sent, rest);
    CommandsOf(uid, s.sent, s.origin, a);
    CommandsOf(uid, rest, restOrigin, b);
    ThroughMeans(uid, s.triggers[a]);
    assert InStep(uid, s, a);
  }

  /** The commands fall into those up to s, a's among them, and those after it,
      among them what b has led to. */
  predicate CommandsSplit(uid: string, s: Hub.State, s': Hub.State, a: Hub.Trigger, b: Hub.Trigger)
    requires s.sent <= s'.sent
  {
    var rest := s'.sent[|s.sent|..];
    && FlatMap(Outcome, s'.sent) == FlatMap(Outcome, s.sent) + FlatMap(Outcome, rest)
    && Hub.Subsequence(Meant(a.action), FlatMap(Outcome, s.sent))
    && Hub.Subsequence(FlatMap(Outcome, Fired(uid, b)), FlatMap(Outcome, rest))
  }

  lemma ThroughMeans(uid: string, t: Hub.Trigger)
    requires Through(uid, t)
    ensures FlatMap(Outcome, Fired(uid, t)) == Meant(t.action)
  {
    var signals := Hub.Signals(uid, t.action);
    assert signals[..|signals|] == signals;
    ActionOutcome(uid, t.action);
  }

  lemma CommandsOf(uid: string, sent: seq<Signal>, origin: seq<nat>, t: nat)
    requires |sent| == |origin|
    ensures Hub.Subsequence(FlatMap(Outcome, SentBy(sent, origin, t)), FlatMap(Outcome, sent))
  {
    SentByIsPart(sent, origin, t);
    FlatMapSubsequence(Outcome, SentBy(sent, origin, t), sent);
  }

  /** An action that is through broadcasts no more. */
  lemma NoMoreOf(uid: string, s: Hub.State, s': Hub.State, rest: seq<Signal>, restOrigin: seq<nat>, a: nat)
    requires Interleaved(uid, s) && Interleaved(uid, s') && Grown(s, s')
    requires s'.sent == s.sent + rest && s'.origin == s.origin + restOrigin
    requires a < |s.triggers| && Through(uid, s.triggers[a])
    ensures a !in restOrigin
  {
    assert InStep(uid, s, a) && InStep(uid, s', a);
    SentByJoined(s.sent, s.origin, rest, restOrigin, a);
    SentByNone(rest, restOrigin, a);
  }

  /** One that has not begun has broadcast nothing. */
  lemma NoneBefore(uid: string, s: Hub.State, s': Hub.State, rest: seq<Signal>, restOrigin: seq<nat>, b: nat)
    requires Interleaved(uid, s) && Interleaved(uid, s')
    requires s'.sent == s.sent + rest && s'.origin == s.origin + restOrigin
    requires |s.triggers| <= b < |s'.triggers|
    ensures b !in s.origin && SentBy(rest, restOrigin, b) == Fired(uid, s'.triggers[b])
  {
    assert InStep(uid, s', b);
    SentByJoined(s.sent, s.origin, rest, restOrigin, b);
    SentByNone(s.sent, s.origin, b);
  }

  lemma AllBefore(first: seq<nat>, second: seq<nat>, a: nat, b: nat)
    requires a !in second && b !in first
    ensures forall p, q :: 0 <= p < |first + second| && 0 <= q < |first + second| ==>
      (first + second)[p] == a && (first + second)[q] == b ==> p < q
  {
    forall p, q | 0 <= p < |first + second| && 0 <= q < |first + second|
      ensures (first + second)[p] == a && (first + second)[q] == b ==> p < q
    {
      assert p >= |first| ==> (first + second)[p] == second[p - |first|];
      assert q < |first| ==> (first + second)[q] == first[q];
    }
  }

  // ---- One action at a time -----------------------------------------------------------

  /** An action begins only when all earlier ones are through. */
  predicate OneAtATime(uid: string, run: seq<Hub.State>) {
    forall j :: 0 < j < |run| && |run[j - 1].triggers| < |run[j].triggers| ==> AllFired(uid, run[j - 1].triggers)
  }

  function FiredOf(uid: string): Hub.Trigger -> seq<Signal> {
    t => Fired(uid, t)
  }

  function ActionsOf(ts: seq<Hub.Trigger>): (r: seq<string>)
    ensures |r| == |ts| && forall i :: 0 <= i < |r| ==> r[i] == ts[i].action
  {
    seq(|ts|, i requires 0 <= i < |ts| => ts[i].action)
  }

  /** At most the newest action is under way, and the events are those of the
      actions one after the other. */
  predicate Successive(uid: string, s: Hub.State) {
    && s.sent == FlatMap(FiredOf(uid), s.triggers)
    && (s.triggers != [] ==> AllFired(uid, s.triggers[..|s.triggers| - 1]))
  }

  lemma EarlierThrough(uid: string, ts: seq<Hub.Trigger>, n: nat, t: nat)
    requires t < n <= |ts| && AllFired(uid, ts[..n])
    ensures Through(uid, ts[t])
  {
    assert ts[..n][t] == ts[t];
  }

  lemma SuccessiveBroadcast(uid: string, s: Hub.State, t: nat)
    requires Successive(uid, s) && Hub.Enabled(uid, s, Hub.Broadcast(t))
    ensures Successive(uid, Hub.Apply(uid, s, Hub.Broadcast(t)))
  {
    var n := |s.triggers| - 1;
    if t < n {
      EarlierThrough(uid, s.triggers, n, t);
    }
    FiresNext(uid, s.triggers[t]);
    var done := s.triggers[t].(fired := s.triggers[t].fired + 1);
    assert s.triggers[t := done][..n] == s.triggers[..n];
    LastGrows(FiredOf(uid), s.triggers, done, Hub.Due(uid, s, t));
  }

  lemma LastGrows<T, U>(f: T -> seq<U>, xs: seq<T>, x: T, more: U)
    requires xs != [] && f(x) == f(xs[|xs| - 1]) + [more]
    ensures FlatMap(f, xs[|xs| - 1 := x]) == FlatMap(f, xs) + [more]
  {
    var n := |xs| - 1;
    assert xs[n := x][..n] == xs[..n];
  }

  lemma SuccessiveBegin(uid: string, s: Hub.State, action: string)
    requires Successive(uid, s) && AllFired(uid, s.triggers)
    ensures Successive(uid, Hub.Apply(uid, s, Hub.Begin(action)))
  {
    var t := Hub.Trigger(action, 0);
    assert (s.triggers + [t])[..|s.triggers|] == s.triggers;
    FlatMapOneMore(FiredOf(uid), s.triggers, t);
    assert Fired(uid, t) == [];
  }

  lemma {:induction false} AlwaysSuccessive(uid: string, run: seq<Hub.State>, i: nat)
    requires Hub.Behaviour(uid, run) && i < |run| && OneAtATime(uid, run)
    ensures Successive(uid, run[i])
  {
    if i > 0 {
      AlwaysSuccessive(uid, run, i - 1);
      assert Hub.Next(uid, run[i - 1], run[i]);
      var step :| Hub.Enabled(uid, run[i - 1], step) && run[i] == Hub.Apply(uid, run[i - 1], step);
      if step.Broadcast? {
        SuccessiveBroadcast(uid, run[i - 1], step.t);
      } else if step.Begin? {
        SuccessiveBegin(uid, run[i - 1], step.action);
      } else {
        ClientsOnly(uid, run[i - 1], step);
      }
    }
  }

  /** When actions never overlap, the broadcasts are their events one after the
      other, and a client that misses nothing gets exactly the meant commands in
      the order of the actions. */
  lemma SeparateActions(uid: string, run: seq<Hub.State>, i: nat, c: nat, printed: seq<Signal>)
    requires UsableUid(uid) && Hub.Behaviour(uid, run) && OneAtATime(uid, run)
    requires i < |run| && AllFired(uid, run[i].triggers)
    requires c < |run[i].clients| && WithoutKeepAlives(printed) <= run[i].clients[c].received
    ensures run[i].sent == AllSignals(uid, ActionsOf(run[i].triggers))
    ensures Hub.Subsequence(Commands(Print(printed)), FlatMap(Meant, ActionsOf(run[i].triggers)))
    ensures Complete(run, i, c) && WithoutKeepAlives(printed) == run[i].clients[c].received ==>
      Commands(Print(printed)) == FlatMap(Meant, ActionsOf(run[i].triggers))
  {
    AlwaysSuccessive(uid, run, i);
    AllThrough(uid, run[i].triggers);
    ActionOutcomes(uid, ActionsOf(run[i].triggers));
    BoxToCommands(uid, run, i, c, printed);
  }

  lemma {:induction false} AllThrough(uid: string, ts: seq<Hub.Trigger>)
    requires AllFired(uid, ts)
    ensures FlatMap(FiredOf(uid), ts) == AllSignals(uid, ActionsOf(ts))
  {
    if ts != [] {
      var n := |ts| - 1;
      AllThrough(uid, ts[..n]);
      assert ActionsOf(ts)[..n] == ActionsOf(ts[..n]);
      FiredAll(uid, ts[n]);
    }
  }

  lemma FiredAll(uid: string, t: Hub.Trigger)
    requires Through(uid, t)
    ensures Fired(uid, t) == Hub.Signals(uid, t.action)
  {
    var signals := Hub.Signals(uid, t.action);
    assert signals[..|signals|] == signals;
  }
}
