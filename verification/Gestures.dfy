/** From an action on the mock box to the commands Soloist receives: the mock's
    events, its frames, and the listener's reader and dispatch, end to end. */
module Gestures {
  import opened Envelope
  import opened EventStream
  import opened Frames
  import opened Listener
  import Hub

  /** The command an action is meant to cause, if any. */
  function Meant(action: string): seq<Command> {
    match action
    case "figurine-placed" => [Play("")]
    case "figurine-lifted" => [Pause]
    case "knock-forward" => [SkipNext]
    case "knock-backward" => [SkipPrev]
    case _ => []
  }

  function AllSignals(uid: string, actions: seq<string>): seq<Signal> {
    FlatMap(a => Hub.Signals(uid, a), actions)
  }

  /** What the client loop prints between events. */
  const KEEP_ALIVE := Signal("keep-alive", "")

  function UnlessKeepAlive(s: Signal): seq<Signal> {
    if s == KEEP_ALIVE then [] else [s]
  }

  function WithoutKeepAlives(signals: seq<Signal>): seq<Signal> {
    FlatMap(UnlessKeepAlive, signals)
  }

  /** The command a signal stands for. */
  function Outcome(s: Signal): seq<Command> {
    match s.name
    case "TagValid" => [Play("")]
    case "playback" => if s.value == "stopped" then [Pause] else []
    case "knock" => if s.value == "forward" then [SkipNext] else if s.value == "backward" then [SkipPrev] else []
    case _ => []
  }

  /** A tag id the mock can put on one line. */
  predicate UsableUid(uid: string) {
    '\n' !in uid && !TooLong("data: " + Wrap("TagValid", uid))
  }

  /** A signal that survives the framing and whose value, if it matters, survives
      the envelope. */
  predicate Faithful(s: Signal) {
    Printable(s) && Plain(s.name) && (s.name == "TagValid" || Plain(s.value))
  }

  predicate AllFaithful(signals: seq<Signal>) {
    forall i :: 0 <= i < |signals| ==> Faithful(signals[i])
  }

  lemma FaithfulOutcome(s: Signal)
    requires Faithful(s)
    ensures Dispatch(Seen(s)) == Outcome(s)
  {
    if s.name != "TagValid" {
      UnwrapExactly(s.name, s.value);
    }
  }

  lemma FaithfulOutcomes(signals: seq<Signal>)
    requires AllFaithful(signals)
    ensures DispatchAll(AllSeen(signals)) == FlatMap(Outcome, signals)
  {
    forall i | 0 <= i < |signals| ensures Dispatch(AllSeen(signals)[i]) == Outcome(signals[i]) {
      FaithfulOutcome(signals[i]);
    }
    FlatMapAgrees(Dispatch, AllSeen(signals), Outcome, signals);
  }

  /** Printed and read back, faithful signals have exactly their outcomes,
      whatever follows them. */
  lemma FaithfulStream(signals: seq<Signal>, r: string)
    requires AllFaithful(signals)
    ensures Commands(Print(signals) + r) == FlatMap(Outcome, signals) + Commands(r)
  {
    RoundTrip(signals, r);
    FlatMapJoined(Dispatch, AllSeen(signals), Events(EMPTY, r));
    FaithfulOutcomes(signals);
  }

  // ---- The signals an action sends ---------------------------------------------

  lemma {:induction false} ShortFits(line: string)
    ensures Utf8Length(line) <= 4 * |line|
  {
    if line != "" { ShortFits(line[..|line| - 1]); }
  }

  /** A short printable-ASCII word. */
  predicate Word(w: string) {
    |w| <= 100 && forall i :: 0 <= i < |w| ==> '!' <= w[i] <= '~' && w[i] != '"' && w[i] != '\\'
  }

  lemma WordsAreFaithful(name: string, value: string)
    requires name != "" && Word(name) && Word(value)
    ensures Faithful(Signal(name, value))
  {
    ShortFits("event: " + name);
    ShortFits("data: " + Wrap(name, value));
  }

  lemma TagIsFaithful(uid: string)
    requires UsableUid(uid)
    ensures Faithful(Signal("TagValid", uid))
  {
    ShortFits("event: " + "TagValid");
  }

  predicate Worded(uid: string, s: Signal) {
    s == Signal("TagValid", uid) || (s.name != "" && Word(s.name) && Word(s.value))
  }

  predicate AllWorded(uid: string, signals: seq<Signal>) {
    forall i :: 0 <= i < |signals| ==> Worded(uid, signals[i])
  }

  lemma SignalsAreWorded(uid: string, action: string)
    ensures AllWorded(uid, Hub.Signals(uid, action))
  {
    var n := |Hub.Signals(uid, action)|;
    if n == 5 {
      PlacedIsWorded(uid);
    } else if n == 3 {
      EarIsWorded(uid, action);
    } else if n == 1 {
      OneIsWorded(uid, action);
    }
  }

  lemma OneIsWorded(uid: string, action: string)
    requires |Hub.Signals(uid, action)| == 1
    ensures Worded(uid, Hub.Signals(uid, action)[0])
  {}

  lemma EarIsWorded(uid: string, action: string)
    requires |Hub.Signals(uid, action)| == 3
    ensures AllWorded(uid, Hub.Signals(uid, action))
  {
    var signals := Hub.Signals(uid, action);
    VolumeIsWorded(uid, signals[0], signals[1], signals[2]);
  }

  lemma PlacedIsWorded(uid: string)
    ensures AllWorded(uid, Hub.Signals(uid, "figurine-placed"))
  {
    PlaybackIsWorded(uid);
    ContentIsWorded(uid);
  }

  lemma PlaybackIsWorded(uid: string)
    ensures Worded(uid, Signal("playback", "starting")) && Worded(uid, Signal("playback", "started"))
  {}

  lemma ContentIsWorded(uid: string)
    ensures Worded(uid, Signal("ContentAudioId", "436906887")) && Worded(uid, Signal("ContentTitle", "Unknown"))
  {}

  lemma VolumeIsWorded(uid: string, level: Signal, gain: Signal, ear: Signal)
    requires level.name == "VolumeLevel" && gain.name == "VolumedB" && ear.name == "pressed"
    requires Word(level.value) && Word(gain.value) && Word(ear.value)
    ensures AllWorded(uid, [level, gain, ear])
  {}

  lemma SignalsAreFaithful(uid: string, action: string)
    requires UsableUid(uid)
    ensures AllFaithful(Hub.Signals(uid, action))
  {
    SignalsAreWorded(uid, action);
    var signals := Hub.Signals(uid, action);
    forall i | 0 <= i < |signals| ensures Faithful(signals[i]) {
      WordedIsFaithful(uid, signals[i]);
    }
  }

  lemma WordedIsFaithful(uid: string, s: Signal)
    requires UsableUid(uid) && Worded(uid, s)
    ensures Faithful(s)
  {
    if s == Signal("TagValid", uid) {
      TagIsFaithful(uid);
    } else {
      WordsAreFaithful(s.name, s.value);
    }
  }

  lemma {:induction false} AllSignalsAreFaithful(uid: string, actions: seq<string>)
    requires UsableUid(uid)
    ensures AllFaithful(AllSignals(uid, actions))
  {
    if actions != [] {
      AllSignalsAreFaithful(uid, actions[..|actions| - 1]);
      SignalsAreFaithful(uid, actions[|actions| - 1]);
    }
  }

  // ---- Keep-alives -------------------------------------------------------------------

  lemma {:induction false} KeepAlivesAreFaithful(signals: seq<Signal>)
    requires AllFaithful(WithoutKeepAlives(signals))
    ensures AllFaithful(signals)
  {
    if signals != [] {
      var last := |signals| - 1;
      var rest, all := WithoutKeepAlives(signals[..last]), WithoutKeepAlives(signals);
      assert forall i :: 0 <= i < |rest| ==> all[i] == rest[i];
      KeepAlivesAreFaithful(signals[..last]);
      if signals[last] == KEEP_ALIVE {
        WordsAreFaithful("keep-alive", "");
      } else {
        assert all[|rest|] == signals[last];
      }
    }
  }

  lemma {:induction false} KeepAlivesHaveNoOutcome(signals: seq<Signal>)
    ensures FlatMap(Outcome, signals) == FlatMap(Outcome, WithoutKeepAlives(signals))
  {
    if signals != [] {
      var last := |signals| - 1;
      KeepAlivesHaveNoOutcome(signals[..last]);
      FlatMapJoined(Outcome, WithoutKeepAlives(signals[..last]), UnlessKeepAlive(signals[last]));
      FlatMapOne(Outcome, signals[last]);
    }
  }

  lemma FlatMapOne<T, U>(f: T -> seq<U>, x: T)
    ensures FlatMap(f, [x]) == f(x)
  {
    assert [x][..0] == [];
  }

  // ---- Actions -------------------------------------------------------------------------

  lemma FlatMapThree<T, U>(f: T -> seq<U>, a: T, b: T, c: T)
    ensures FlatMap(f, [a, b, c]) == f(a) + f(b) + f(c)
  {
    FlatMapOne(f, a);
    FlatMapOne(f, b);
    FlatMapOne(f, c);
    FlatMapJoined(f, [a], [b]);
    FlatMapJoined(f, [a] + [b], [c]);
    assert [a, b, c] == [a] + [b] + [c];
  }

  lemma PlacedOutcome(uid: string)
    ensures FlatMap(Outcome, Hub.Signals(uid, "figurine-placed")) == [Play("")]
  {
    var s := Hub.Signals(uid, "figurine-placed");
    FlatMapThree(Outcome, s[0], s[1], s[2]);
    FlatMapOne(Outcome, s[3]);
    FlatMapOne(Outcome, s[4]);
    FlatMapJoined(Outcome, [s[0], s[1], s[2]], [s[3]]);
    FlatMapJoined(Outcome, [s[0], s[1], s[2]] + [s[3]], [s[4]]);
    assert s == [s[0], s[1], s[2]] + [s[3]] + [s[4]];
  }

  lemma ActionOutcome(uid: string, action: string)
    ensures FlatMap(Outcome, Hub.Signals(uid, action)) == Meant(action)
  {
    var s := Hub.Signals(uid, action);
    if action == "figurine-placed" {
      PlacedOutcome(uid);
    } else if |s| == 3 {
      FlatMapThree(Outcome, s[0], s[1], s[2]);
    } else if |s| == 1 {
      FlatMapOne(Outcome, s[0]);
    }
  }

  lemma {:induction false} ActionOutcomes(uid: string, actions: seq<string>)
    ensures FlatMap(Outcome, AllSignals(uid, actions)) == FlatMap(Meant, actions)
  {
    if actions != [] {
      var last := |actions| - 1;
      ActionOutcomes(uid, actions[..last]);
      ActionOutcome(uid, actions[last]);
      FlatMapJoined(Outcome, AllSignals(uid, actions[..last]), Hub.Signals(uid, actions[last]));
    }
  }

  /** Whatever actions the box performs, if the hub drops nothing and whatever
      keep-alives the client loop prints in between, the listener sends exactly
      the meant commands, in order: play, pause and the two skips, and nothing for
      the ears. */
  lemma GesturesBecomeCommands(uid: string, actions: seq<string>, printed: seq<Signal>)
    requires UsableUid(uid)
    requires WithoutKeepAlives(printed) == AllSignals(uid, actions)
    ensures Commands(Print(printed)) == FlatMap(Meant, actions)
  {
    AllSignalsAreFaithful(uid, actions);
    PrintedCommands(printed);
    ActionOutcomes(uid, actions);
  }

  lemma PrintedCommands(printed: seq<Signal>)
    requires AllFaithful(WithoutKeepAlives(printed))
    ensures Commands(Print(printed)) == FlatMap(Outcome, WithoutKeepAlives(printed))
  {
    KeepAlivesAreFaithful(printed);
    FaithfulStream(printed, "");
    assert Print(printed) + "" == Print(printed);
    KeepAlivesHaveNoOutcome(printed);
  }

  /** The tag id on the figurine arrives: the first event of placing it is the tag's,
      and carries the id if and only if that is plain. */
  lemma TagArrives(uid: string)
    requires UsableUid(uid)
    ensures
      var events := Events(EMPTY, Print(Hub.Signals(uid, "figurine-placed")));
      |events| > 0 && events[0].name == "TagValid" && (WrappedValue(events[0].data) == uid <==> Plain(uid))
  {
    SignalsAreFaithful(uid, "figurine-placed");
    ValuesComeBack(Hub.Signals(uid, "figurine-placed"), 0);
  }

  /** When the connection breaks inside a frame, the frames before it take full
      effect and the broken one none. */
  lemma CutConnection(printed: seq<Signal>, s: Signal, k: nat)
    requires AllFaithful(printed) && Printable(s) && k < |Frame(s)|
    ensures Commands(Print(printed) + Frame(s)[..k]) == FlatMap(Outcome, printed)
  {
    FaithfulStream(printed, Frame(s)[..k]);
    CutFrameYieldsNothing(s, k);
  }

  // ---- Through a lossy hub -----------------------------------------------------------

  lemma {:induction false} SubsequenceLonger<T>(x: seq<T>, y: seq<T>, z: seq<T>)
    requires Hub.Subsequence(x, y)
    ensures Hub.Subsequence(x, y + z)
    ensures Hub.Subsequence(x + z, y + z)
    decreases |z|
  {
    if z == [] {
      assert x + z == x && y + z == y;
    } else {
      var last := |z| - 1;
      assert (y + z)[..|y + z| - 1] == y + z[..last];
      assert (x + z)[..|x + z| - 1] == x + z[..last];
      SubsequenceLonger(x, y, z[..last]);
      Hub.SubsequenceDrop(x, y + z);
    }
  }

  lemma {:induction false} FlatMapSubsequence<T, U>(f: T -> seq<U>, sub: seq<T>, s: seq<T>)
    requires Hub.Subsequence(sub, s)
    ensures Hub.Subsequence(FlatMap(f, sub), FlatMap(f, s))
    decreases |s|
  {
    if sub != [] {
      var n, m := |sub| - 1, |s| - 1;
      if sub[n] == s[m] && Hub.Subsequence(sub[..n], s[..m]) {
        FlatMapSubsequence(f, sub[..n], s[..m]);
        SubsequenceLonger(FlatMap(f, sub[..n]), FlatMap(f, s[..m]), f(s[m]));
      } else {
        FlatMapSubsequence(f, sub, s[..m]);
        SubsequenceLonger(FlatMap(f, sub), FlatMap(f, s[..m]), f(s[m]));
      }
    }
  }

  lemma {:induction false} SubsequenceFaithful(sub: seq<Signal>, s: seq<Signal>)
    requires Hub.Subsequence(sub, s) && AllFaithful(s)
    ensures AllFaithful(sub)
    decreases |s|
  {
    if sub != [] {
      var n, m := |sub| - 1, |s| - 1;
      if sub[n] == s[m] && Hub.Subsequence(sub[..n], s[..m]) {
        SubsequenceFaithful(sub[..n], s[..m]);
        assert forall i :: 0 <= i < n ==> sub[i] == sub[..n][i];
      } else {
        SubsequenceFaithful(sub, s[..m]);
      }
    }
  }

  lemma {:induction false} SubsequenceTransitive<T>(a: seq<T>, b: seq<T>, c: seq<T>)
    requires Hub.Subsequence(a, b) && Hub.Subsequence(b, c)
    ensures Hub.Subsequence(a, c)
    decreases |c|
  {
    if a != [] {
      var k, n, m := |a| - 1, |b| - 1, |c| - 1;
      if b[n] == c[m] && Hub.Subsequence(b[..n], c[..m]) {
        if a[k] == b[n] && Hub.Subsequence(a[..k], b[..n]) {
          SubsequenceTransitive(a[..k], b[..n], c[..m]);
        } else {
          SubsequenceTransitive(a, b[..n], c[..m]);
          Hub.SubsequenceDrop(a, c);
        }
      } else {
        SubsequenceTransitive(a, b, c[..m]);
        Hub.SubsequenceDrop(a, c);
      }
    }
  }

  lemma {:induction false} SubsequenceBag<T>(a: seq<T>, b: seq<T>)
    requires Hub.Subsequence(a, b)
    ensures multiset(a) <= multiset(b)
    decreases |b|
  {
    if a != [] {
      var k, n := |a| - 1, |b| - 1;
      assert b == b[..n] + [b[n]] && a == a[..k] + [a[k]];
      if a[k] == b[n] && Hub.Subsequence(a[..k], b[..n]) {
        SubsequenceBag(a[..k], b[..n]);
      } else {
        SubsequenceBag(a, b[..n]);
      }
    }
  }

  lemma PrefixIsSubsequence<T>(a: seq<T>, b: seq<T>)
    requires a <= b
    ensures Hub.Subsequence(a, b)
  {
    Hub.SubsequenceRefl(a);
    SubsequenceLonger(a, a, b[|a|..]);
    assert a + b[|a|..] == b;
  }

  // ---- Actions that overlap ------------------------------------------------------------

  /** What an action has broadcast so far. */
  function Fired(uid: string, t: Hub.Trigger): seq<Signal> {
    var signals := Hub.Signals(uid, t.action);
    if t.fired <= |signals| then signals[..t.fired] else signals
  }

  function Bag<T, U>(f: T -> multiset<U>, ts: seq<T>): multiset<U> {
    if ts == [] then multiset{} else Bag(f, ts[..|ts| - 1]) + f(ts[|ts| - 1])
  }

  lemma {:induction false} BagUpdated<T, U>(f: T -> multiset<U>, ts: seq<T>, t: nat, x: T, more: multiset<U>)
    requires t < |ts| && f(x) == f(ts[t]) + more
    ensures Bag(f, ts[t := x]) == Bag(f, ts) + more
  {
    var last := |ts| - 1;
    if t < last {
      assert ts[t := x][..last] == ts[..last][t := x];
      BagUpdated(f, ts[..last], t, x, more);
    } else {
      assert ts[t := x][..last] == ts[..last];
    }
  }

  lemma {:induction false} BagWithin<T, U>(f: T -> multiset<U>, g: T -> multiset<U>, ts: seq<T>)
    requires forall i :: 0 <= i < |ts| ==> f(ts[i]) <= g(ts[i])
    ensures Bag(f, ts) <= Bag(g, ts)
    ensures (forall i :: 0 <= i < |ts| ==> f(ts[i]) == g(ts[i])) ==> Bag(f, ts) == Bag(g, ts)
  {
    if ts != [] {
      BagWithin(f, g, ts[..|ts| - 1]);
    }
  }

  /** The commands that what an action has broadcast amounts to. */
  function LedOne(uid: string, t: Hub.Trigger): multiset<Command> {
    multiset(FlatMap(Outcome, Fired(uid, t)))
  }

  function LedBy(uid: string): Hub.Trigger -> multiset<Command> {
    t => LedOne(uid, t)
  }

  /** The commands an action means: at most one. */
  function OwedOne(t: Hub.Trigger): multiset<Command> {
    multiset(Meant(t.action))
  }

  function Owed(ts: seq<Hub.Trigger>): multiset<Command> {
    Bag(OwedOne, ts)
  }

  lemma FiredOneMore(uid: string, t: Hub.Trigger)
    requires t.fired < |Hub.Signals(uid, t.action)|
    ensures LedOne(uid, t.(fired := t.fired + 1)) ==
      LedOne(uid, t) + multiset(Outcome(Hub.Signals(uid, t.action)[t.fired]))
  {
    FlatMapPrefix(Outcome, Hub.Signals(uid, t.action), t.fired);
  }

  lemma FlatMapPrefix<T, U>(f: T -> seq<U>, xs: seq<T>, n: nat)
    requires n < |xs|
    ensures FlatMap(f, xs[..n + 1]) == FlatMap(f, xs[..n]) + f(xs[n])
  {
    assert xs[..n + 1] == xs[..n] + [xs[n]];
    FlatMapOneMore(f, xs[..n], xs[n]);
  }

  /** Actions under way have led to some of what they mean, finished ones to all. */
  lemma LedWithinOwed(uid: string, ts: seq<Hub.Trigger>)
    ensures Bag(LedBy(uid), ts) <= Owed(ts)
    ensures AllFired(uid, ts) ==> Bag(LedBy(uid), ts) == Owed(ts)
  {
    forall i | 0 <= i < |ts|
      ensures LedOne(uid, ts[i]) <= OwedOne(ts[i])
      ensures Through(uid, ts[i]) ==> LedOne(uid, ts[i]) == OwedOne(ts[i])
    {
      FiredWithinMeant(uid, ts[i]);
    }
    BagWithin(LedBy(uid), OwedOne, ts);
  }

  lemma FiredWithinMeant(uid: string, t: Hub.Trigger)
    ensures LedOne(uid, t) <= OwedOne(t)
    ensures Through(uid, t) ==> LedOne(uid, t) == OwedOne(t)
  {
    ActionOutcome(uid, t.action);
    FlatMapPart(Outcome, Hub.Signals(uid, t.action), |Fired(uid, t)|);
  }

  lemma FlatMapPart<T, U>(f: T -> seq<U>, xs: seq<T>, n: nat)
    requires n <= |xs|
    ensures multiset(FlatMap(f, xs[..n])) <= multiset(FlatMap(f, xs))
    ensures xs[..|xs|] == xs
  {
    FlatMapJoined(f, xs[..n], xs[n..]);
    assert xs[..n] + xs[n..] == xs;
    BagOfPart(FlatMap(f, xs[..n]), FlatMap(f, xs[n..]));
  }

  lemma BagOfPart<T>(a: seq<T>, b: seq<T>)
    ensures multiset(a) <= multiset(a + b)
  {}

  /** What the hub has broadcast is faithful, and accounted for by the actions. */
  predicate Accounted(uid: string, s: Hub.State) {
    AllFaithful(s.sent) && multiset(FlatMap(Outcome, s.sent)) == Bag(LedBy(uid), s.triggers)
  }

  lemma BroadcastAccounted(uid: string, s: Hub.State, t: nat)
    requires UsableUid(uid) && Accounted(uid, s) && Hub.Enabled(uid, s, Hub.Broadcast(t))
    ensures Accounted(uid, Hub.Apply(uid, s, Hub.Broadcast(t)))
  {
    SignalsAreFaithful(uid, s.triggers[t].action);
    FiredOneMore(uid, s.triggers[t]);
    OneMoreAccounted(
      LedBy(uid), s.sent, s.triggers, t, s.triggers[t].(fired := s.triggers[t].fired + 1), Hub.Due(uid, s, t));
  }

  lemma OneMoreAccounted(
      led: Hub.Trigger -> multiset<Command>, sent: seq<Signal>,
      ts: seq<Hub.Trigger>, t: nat, done: Hub.Trigger, x: Signal)
    requires AllFaithful(sent) && Faithful(x) && t < |ts|
    requires multiset(FlatMap(Outcome, sent)) == Bag(led, ts) && led(done) == led(ts[t]) + multiset(Outcome(x))
    ensures AllFaithful(sent + [x])
    ensures multiset(FlatMap(Outcome, sent + [x])) == Bag(led, ts[t := done])
  {
    BagUpdated(led, ts, t, done, multiset(Outcome(x)));
    FlatMapOneMore(Outcome, sent, x);
  }

  lemma BeginAccounted(uid: string, s: Hub.State, action: string)
    requires Accounted(uid, s)
    ensures Accounted(uid, Hub.Apply(uid, s, Hub.Begin(action)))
  {
    BagOneMore(LedBy(uid), s.triggers, Hub.Trigger(action, 0));
    NothingLedYet(uid, action);
  }

  lemma BagOneMore<T, U>(f: T -> multiset<U>, ts: seq<T>, x: T)
    ensures Bag(f, ts + [x]) == Bag(f, ts) + f(x)
  {
    assert (ts + [x])[..|ts|] == ts;
  }

  lemma NothingLedYet(uid: string, action: string)
    ensures LedBy(uid)(Hub.Trigger(action, 0)) == multiset{}
  {
    assert Fired(uid, Hub.Trigger(action, 0)) == [];
  }

  lemma {:induction false} AlwaysAccounted(uid: string, run: seq<Hub.State>, i: nat)
    requires UsableUid(uid) && Hub.Behaviour(uid, run) && i < |run|
    ensures Accounted(uid, run[i])
  {
    if i == 0 {
      InitiallyAccounted(uid);
    } else {
      AlwaysAccounted(uid, run, i - 1);
      AccountedNext(uid, run[i - 1], run[i]);
    }
  }

  lemma InitiallyAccounted(uid: string)
    ensures Accounted(uid, Hub.INITIAL)
  {}

  lemma AccountedNext(uid: string, s: Hub.State, s': Hub.State)
    requires UsableUid(uid) && Accounted(uid, s) && Hub.Next(uid, s, s')
    ensures Accounted(uid, s')
  {
    var step :| Hub.Enabled(uid, s, step) && s' == Hub.Apply(uid, s, step);
    AccountedStep(uid, s, step);
  }

  lemma AccountedStep(uid: string, s: Hub.State, step: Hub.Step)
    requires UsableUid(uid) && Accounted(uid, s) && Hub.Enabled(uid, s, step)
    ensures Accounted(uid, Hub.Apply(uid, s, step))
  {
    if step.Broadcast? {
      BroadcastAccounted(uid, s, step.t);
    } else if step.Begin? {
      BeginAccounted(uid, s, step.action);
    } else {
      ClientsOnly(uid, s, step);
    }
  }

  lemma ClientsOnly(uid: string, s: Hub.State, step: Hub.Step)
    requires Hub.Enabled(uid, s, step) && !step.Broadcast? && !step.Begin?
    ensures Hub.Apply(uid, s, step) == s.(clients := Hub.Apply(uid, s, step).clients)
  {}

  /** Every broadcast up to state i found the client subscribed with room in its
      channel, and it has taken everything out. */
  predicate Complete(run: seq<Hub.State>, i: nat, c: nat) {
    && i < |run| && c < |run[i].clients| && run[i].clients[c].buffer == []
    && forall j: nat :: j < i ==> !Hub.Missed(run, j, c)
  }

  /** The action has broadcast all its events. */
  predicate Through(uid: string, t: Hub.Trigger) {
    t.fired == |Hub.Signals(uid, t.action)|
  }

  predicate AllFired(uid: string, ts: seq<Hub.Trigger>) {
    forall i :: 0 <= i < |ts| ==> Through(uid, ts[i])
  }

  /** From the box through the hub to Soloist, in every interleaving of any number
      of actions and clients. What is broadcast amounts to the commands meant by
      the actions, each at most once, and to all of them once the actions are
      through. Whatever a client has printed so far leads, in the order of the
      broadcasts, to some of those commands, and to all of them if the client was
      subscribed throughout and nothing was dropped or is left unprinted. */
  lemma BoxToCommands(uid: string, run: seq<Hub.State>, i: nat, c: nat, printed: seq<Signal>)
    requires UsableUid(uid) && Hub.Behaviour(uid, run) && i < |run| && c < |run[i].clients|
    requires WithoutKeepAlives(printed) <= run[i].clients[c].received
    ensures multiset(FlatMap(Outcome, run[i].sent)) <= Owed(run[i].triggers)
    ensures AllFired(uid, run[i].triggers) ==> multiset(FlatMap(Outcome, run[i].sent)) == Owed(run[i].triggers)
    ensures Hub.Subsequence(Commands(Print(printed)), FlatMap(Outcome, run[i].sent))
    ensures multiset(Commands(Print(printed))) <= Owed(run[i].triggers)
    ensures Complete(run, i, c) && WithoutKeepAlives(printed) == run[i].clients[c].received ==>
      Commands(Print(printed)) == FlatMap(Outcome, run[i].sent)
  {
    AlwaysAccounted(uid, run, i);
    LedWithinOwed(uid, run[i].triggers);
    PrintedIsPart(uid, run, i, c, WithoutKeepAlives(printed));
    SubsequenceFaithful(WithoutKeepAlives(printed), run[i].sent);
    PrintedCommands(printed);
    FlatMapSubsequence(Outcome, WithoutKeepAlives(printed), run[i].sent);
    SubsequenceBag(Commands(Print(printed)), FlatMap(Outcome, run[i].sent));
  }

  lemma PrintedIsPart(uid: string, run: seq<Hub.State>, i: nat, c: nat, signals: seq<Signal>)
    requires Hub.Behaviour(uid, run) && i < |run| && c < |run[i].clients|
    requires signals <= run[i].clients[c].received
    ensures Hub.Subsequence(signals, run[i].sent)
    ensures Complete(run, i, c) ==> run[i].clients[c].received == run[i].sent
  {
    var x := run[i].clients[c];
    Hub.AlwaysServed(uid, run, i);
    assert Hub.Served(x, run[i].sent);
    if Complete(run, i, c) {
      Hub.NothingMissed(uid, run, i, c);
    }
    PrefixIsSubsequence(signals, x.received + x.buffer);
    SubsequenceTransitive(signals, x.received + x.buffer, x.offered);
    SubsequenceTransitive(signals, x.offered, run[i].sent);
    assert x.received + [] == x.received;
  }
}
