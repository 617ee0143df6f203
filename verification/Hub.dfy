/** The mock's fan-out (cmd/mock-teddycloud/main.go:32-106 and 146-168): actions
    that broadcast their events one by one, and a hub that offers each event to
    every subscribed client's 16-slot channel and drops it for the clients whose
    channel is full. First as a step relation in which any number of actions run
    at a time, then the hub's code, which makes only such steps. */
module Hub {
  import opened Frames

  const CLIENT_BUFFER: nat := 16

  // ---- One client, as a step relation ---------------------------------------

  /** A client's channel with its history: what was broadcast while it was
      subscribed and what it has received. */
  datatype Client = Client(
    subscribed: bool,
    buffer: seq<Signal>,
    offered: seq<Signal>,
    received: seq<Signal>,
    dropped: bool)

  const NEW_CLIENT := Client(false, [], [], [], false)

  function Offer(x: Client, s: Signal): Client {
    if !x.subscribed then x
    else if |x.buffer| < CLIENT_BUFFER then x.(buffer := x.buffer + [s], offered := x.offered + [s])
    else x.(offered := x.offered + [s], dropped := true)
  }

  /** sub is what is left of s after striking out some elements. */
  predicate Subsequence<T(==)>(sub: seq<T>, s: seq<T>)
    decreases |s|
  {
    if sub == [] then true
    else if s == [] then false
    else if sub[|sub| - 1] == s[|s| - 1] && Subsequence(sub[..|sub| - 1], s[..|s| - 1]) then true
    else Subsequence(sub, s[..|s| - 1])
  }

  ghost predicate ClientOk(x: Client) {
    && |x.buffer| <= CLIENT_BUFFER
    && Subsequence(x.received + x.buffer, x.offered)
    && (!x.dropped ==> x.received + x.buffer == x.offered)
    && (x.dropped ==> |x.received + x.buffer| < |x.offered|)
  }

  lemma {:induction false} SubsequenceRefl<T>(s: seq<T>)
    ensures Subsequence(s, s)
    decreases |s|
  {
    if s != [] { SubsequenceRefl(s[..|s| - 1]); }
  }

  lemma SubsequenceDrop<T>(sub: seq<T>, s: seq<T>)
    requires s != [] && Subsequence(sub, s[..|s| - 1])
    ensures Subsequence(sub, s)
  {}

  lemma OfferOk(x: Client, s: Signal)
    requires ClientOk(x)
    ensures ClientOk(Offer(x, s))
  {
    var taken := x.received + x.buffer;
    if x.subscribed {
      assert (x.offered + [s])[..|x.offered|] == x.offered;
      if |x.buffer| < CLIENT_BUFFER {
        assert x.received + (x.buffer + [s]) == taken + [s];
        assert (taken + [s])[..|taken|] == taken;
      }
    }
  }

  lemma ReceiveOk(x: Client)
    requires ClientOk(x) && x.buffer != []
    ensures ClientOk(x.(buffer := x.buffer[1..], received := x.received + [x.buffer[0]]))
  {
    assert x.received + [x.buffer[0]] + x.buffer[1..] == x.received + x.buffer;
  }

  // ---- Any number of clients and actions -----------------------------------------

  /** The events of an action (cmd/mock-teddycloud/main.go:74-106); none for an
      unknown one. */
  function Signals(uid: string, action: string): seq<Signal> {
    match action
    case "figurine-placed" => [
      Signal("TagValid", uid),
      Signal("playback", "starting"),
      Signal("playback", "started"),
      Signal("ContentAudioId", "436906887"),
      Signal("ContentTitle", "Unknown")]
    case "figurine-lifted" => [Signal("playback", "stopped")]
    case "ear-big" => [Signal("VolumeLevel", "12"), Signal("VolumedB", "-3"), Signal("pressed", "ear-big")]
    case "ear-small" => [Signal("VolumeLevel", "10"), Signal("VolumedB", "-9"), Signal("pressed", "ear-small")]
    case "ear-small-double" =>
      [Signal("VolumeLevel", "9"), Signal("VolumedB", "-12"), Signal("pressed", "ear-small-double")]
    case "knock-forward" => [Signal("knock", "forward")]
    case "knock-backward" => [Signal("knock", "backward")]
    case _ => []
  }

  /** A call of trigger, and how many of its events it has broadcast. */
  datatype Trigger = Trigger(action: string, fired: nat)

  /** The clients, the actions, everything broadcast so far, and by which
      action. */
  datatype State = State(clients: seq<Client>, triggers: seq<Trigger>, sent: seq<Signal>, origin: seq<nat>)

  const INITIAL := State([], [], [], [])

  datatype Step =
    | Join // a new channel
    | Subscribe(c: nat)
    | Unsubscribe(c: nat)
    | Receive(c: nat)
    | Begin(action: string)
    | Broadcast(t: nat) // the next event of action t, under the hub's lock

  predicate Enabled(uid: string, s: State, step: Step) {
    match step
    case Join => true
    case Subscribe(c) => c < |s.clients|
    case Unsubscribe(c) => c < |s.clients|
    case Receive(c) => c < |s.clients| && s.clients[c].buffer != []
    case Begin(_) => true
    case Broadcast(t) => t < |s.triggers| && s.triggers[t].fired < |Signals(uid, s.triggers[t].action)|
  }

  /** The event action t broadcasts next. */
  function Due(uid: string, s: State, t: nat): Signal
    requires Enabled(uid, s, Broadcast(t))
  {
    Signals(uid, s.triggers[t].action)[s.triggers[t].fired]
  }

  function OfferAll(cs: seq<Client>, x: Signal): (r: seq<Client>)
    ensures |r| == |cs| && forall c :: 0 <= c < |r| ==> r[c] == Offer(cs[c], x)
  {
    seq(|cs|, i requires 0 <= i < |cs| => Offer(cs[i], x))
  }

  function Apply(uid: string, s: State, step: Step): State
    requires Enabled(uid, s, step)
  {
    match step
    case Join => s.(clients := s.clients + [NEW_CLIENT])
    case Subscribe(c) => s.(clients := s.clients[c := s.clients[c].(subscribed := true)])
    case Unsubscribe(c) => s.(clients := s.clients[c := s.clients[c].(subscribed := false)])
    case Receive(c) =>
      var x := s.clients[c];
      s.(clients := s.clients[c := x.(buffer := x.buffer[1..], received := x.received + [x.buffer[0]])])
    case Begin(action) => s.(triggers := s.triggers + [Trigger(action, 0)])
    case Broadcast(t) =>
      var x := Due(uid, s, t);
      State(
        OfferAll(s.clients, x), s.triggers[t := s.triggers[t].(fired := s.triggers[t].fired + 1)],
        s.sent + [x], s.origin + [t])
  }

  ghost predicate Next(uid: string, s: State, s': State) {
    exists step :: Enabled(uid, s, step) && s' == Apply(uid, s, step)
  }

  ghost predicate Behaviour(uid: string, run: seq<State>) {
    run != [] && run[0] == INITIAL && forall i :: 0 < i < |run| ==> Next(uid, run[i - 1], run[i])
  }

  /** A client's ledger, which is also part of what was broadcast at all. */
  ghost predicate Served(x: Client, sent: seq<Signal>) {
    ClientOk(x) && Subsequence(x.offered, sent)
  }

  ghost predicate AllServed(s: State) {
    forall c :: 0 <= c < |s.clients| ==> Served(s.clients[c], s.sent)
  }

  lemma OfferServed(x: Client, sent: seq<Signal>, e: Signal)
    requires Served(x, sent)
    ensures Served(Offer(x, e), sent + [e])
  {
    OfferOk(x, e);
    assert (sent + [e])[..|sent|] == sent;
    if x.subscribed {
      assert (x.offered + [e])[..|x.offered|] == x.offered;
    }
  }

  lemma ServedStep(uid: string, s: State, step: Step)
    requires AllServed(s) && Enabled(uid, s, step)
    ensures AllServed(Apply(uid, s, step))
  {
    if step.Broadcast? {
      var x := Due(uid, s, step.t);
      forall c | 0 <= c < |s.clients| ensures Served(Offer(s.clients[c], x), s.sent + [x]) {
        OfferServed(s.clients[c], s.sent, x);
      }
    } else if step.Receive? {
      assert Served(s.clients[step.c], s.sent);
      ReceiveOk(s.clients[step.c]);
    }
  }

  /** What step j of the run broadcast while client c was subscribed: one event
      or nothing. */
  function OfferedAt(run: seq<State>, j: nat, c: nat): seq<Signal>
    requires j + 1 < |run|
  {
    if c < |run[j].clients| && run[j].clients[c].subscribed && |run[j].sent| < |run[j + 1].sent| then
      run[j + 1].sent[|run[j].sent|..]
    else
      []
  }

  /** All that was broadcast while client c was subscribed. */
  function WhileSubscribed(run: seq<State>, i: nat, c: nat): seq<Signal>
    requires i < |run|
  {
    if i == 0 then [] else WhileSubscribed(run, i - 1, c) + OfferedAt(run, i - 1, c)
  }

  /** Step j broadcast an event while client c was subscribed and had 16 events
      in its channel. */
  predicate FoundFull(run: seq<State>, j: nat, c: nat) {
    && j + 1 < |run| && c < |run[j].clients| && |run[j].sent| < |run[j + 1].sent|
    && run[j].clients[c].subscribed && |run[j].clients[c].buffer| == 16
  }

  /** Some broadcast before state i did. */
  predicate WasFull(run: seq<State>, i: nat, c: nat) {
    exists j: nat :: j < i && FoundFull(run, j, c)
  }

  lemma WasFullStep(run: seq<State>, i: nat, c: nat)
    requires i > 0
    ensures WasFull(run, i, c) <==> WasFull(run, i - 1, c) || FoundFull(run, i - 1, c)
  {}

  ghost predicate ClientAsRun(run: seq<State>, i: nat, c: nat)
    requires i < |run|
  {
    if c < |run[i].clients| then
      && run[i].clients[c].offered == WhileSubscribed(run, i, c)
      && (run[i].clients[c].dropped <==> WasFull(run, i, c))
    else
      WhileSubscribed(run, i, c) == [] && !WasFull(run, i, c)
  }

  /** One client's part of a step. */
  predicate ClientStep(s: State, s': State, c: nat) {
    && |s.clients| <= |s'.clients| && s.sent <= s'.sent
    && (c < |s.clients| ==>
      var x, x' := s.clients[c], s'.clients[c];
      && x'.offered == x.offered + (if x.subscribed then s'.sent[|s.sent|..] else [])
      && (x'.dropped <==> x.dropped || (|s.sent| < |s'.sent| && x.subscribed && |x.buffer| >= 16)))
    && (|s.clients| <= c < |s'.clients| ==> s'.clients[c] == NEW_CLIENT)
  }

  lemma StepOfClient(uid: string, s: State, step: Step, c: nat)
    requires Enabled(uid, s, step)
    ensures ClientStep(s, Apply(uid, s, step), c)
  {
    var s' := Apply(uid, s, step);
    if step.Broadcast? {
      assert s'.sent[|s.sent|..] == [Due(uid, s, step.t)];
    } else {
      assert s'.sent[|s.sent|..] == [];
    }
  }

  lemma NextOfClient(uid: string, s: State, s': State, c: nat)
    requires Next(uid, s, s')
    ensures ClientStep(s, s', c)
  {
    var step :| Enabled(uid, s, step) && s' == Apply(uid, s, step);
    StepOfClient(uid, s, step, c);
  }

  lemma ClientGoesOn(run: seq<State>, i: nat, c: nat)
    requires 0 < i < |run| && ClientAsRun(run, i - 1, c) && ClientStep(run[i - 1], run[i], c)
    requires c < |run[i - 1].clients| ==> |run[i - 1].clients[c].buffer| <= 16
    ensures ClientAsRun(run, i, c)
  {
    WasFullStep(run, i, c);
    if c < |run[i - 1].clients| {
      ClientOffered(run, i, c);
    }
  }

  lemma ClientOffered(run: seq<State>, i: nat, c: nat)
    requires 0 < i < |run| && c < |run[i - 1].clients| && ClientStep(run[i - 1], run[i], c)
    ensures run[i].clients[c].offered == run[i - 1].clients[c].offered + OfferedAt(run, i - 1, c)
  {}

  lemma {:induction false} AlwaysServed(uid: string, run: seq<State>, i: nat)
    requires Behaviour(uid, run) && i < |run|
    ensures AllServed(run[i])
  {
    if i > 0 {
      AlwaysServed(uid, run, i - 1);
      assert Next(uid, run[i - 1], run[i]);
      var step :| Enabled(uid, run[i - 1], step) && run[i] == Apply(uid, run[i - 1], step);
      ServedStep(uid, run[i - 1], step);
    }
  }

  /** A client was offered what was broadcast while it was subscribed, and one of
      these was dropped exactly when its channel held 16 events. */
  lemma {:induction false} ClientHistory(uid: string, run: seq<State>, i: nat, c: nat)
    requires Behaviour(uid, run) && i < |run|
    ensures ClientAsRun(run, i, c)
  {
    if i > 0 {
      ClientHistory(uid, run, i - 1, c);
      assert Next(uid, run[i - 1], run[i]);
      NextOfClient(uid, run[i - 1], run[i], c);
      NeverOver(uid, run, i - 1, c);
      ClientGoesOn(run, i, c);
    }
  }

  lemma NeverOver(uid: string, run: seq<State>, i: nat, c: nat)
    requires Behaviour(uid, run) && i < |run|
    ensures c < |run[i].clients| ==> |run[i].clients[c].buffer| <= 16
  {
    AlwaysServed(uid, run, i);
    assert c < |run[i].clients| ==> Served(run[i].clients[c], run[i].sent);
  }

  /** In every interleaving of actions, subscriptions and receives, what a client
      received and still has buffered is, in order, part of what was broadcast
      while it was subscribed, and all of it if and only if no broadcast found 16
      events in its channel. */
  lemma FanOut(uid: string, run: seq<State>, i: nat, c: nat)
    requires Behaviour(uid, run) && i < |run| && c < |run[i].clients|
    ensures
      var x := run[i].clients[c];
      && |x.buffer| <= 16
      && Subsequence(x.received + x.buffer, WhileSubscribed(run, i, c))
      && Subsequence(WhileSubscribed(run, i, c), run[i].sent)
      && (x.received + x.buffer == WhileSubscribed(run, i, c) <==> !WasFull(run, i, c))
  {
    AlwaysServed(uid, run, i);
    ClientHistory(uid, run, i, c);
    assert Served(run[i].clients[c], run[i].sent);
  }

  /** Step j broadcast an event that client c could not take: it was not
      subscribed, or had 16 events in its channel. */
  predicate Missed(run: seq<State>, j: nat, c: nat) {
    && j + 1 < |run| && |run[j].sent| < |run[j + 1].sent|
    && (c >= |run[j].clients| || !run[j].clients[c].subscribed || |run[j].clients[c].buffer| == 16)
  }

  /** A client that was subscribed with fewer than 16 events unreceived at every
      broadcast has got, or still has buffered, everything. */
  lemma NothingMissed(uid: string, run: seq<State>, i: nat, c: nat)
    requires Behaviour(uid, run) && i < |run| && c < |run[i].clients|
    requires forall j: nat :: j < i ==> !Missed(run, j, c)
    ensures run[i].clients[c].received + run[i].clients[c].buffer == run[i].sent
  {
    forall j: nat | j < i ensures !FoundFull(run, j, c) {
      assert !Missed(run, j, c);
    }
    FanOut(uid, run, i, c);
    OfferedEverything(uid, run, i, c);
  }

  lemma {:induction false} OfferedEverything(uid: string, run: seq<State>, i: nat, c: nat)
    requires Behaviour(uid, run) && i < |run|
    requires forall j: nat :: j < i ==> !Missed(run, j, c)
    ensures WhileSubscribed(run, i, c) == run[i].sent
  {
    if i > 0 {
      OfferedEverything(uid, run, i - 1, c);
      assert Next(uid, run[i - 1], run[i]) && !Missed(run, i - 1, c);
      NextOfClient(uid, run[i - 1], run[i], c);
    }
  }

  // ---- The hub's code -------------------------------------------------------------

  /** The subscribed channels by number, and the channels' contents. */
  class Broadcaster {
    const uid: string
    var clients: set<nat>
    var buffers: seq<seq<Signal>>

    /** The states of the whole so far. */
    ghost var run: seq<State>

    ghost function Now(): State
      requires run != []
      reads this
    {
      run[|run| - 1]
    }

    ghost predicate Valid()
      reads this
    {
      && Behaviour(uid, run)
      && |buffers| == |Now().clients|
      && (forall c :: 0 <= c < |buffers| ==> buffers[c] == Now().clients[c].buffer)
      && (forall c: nat :: c in clients <==> c < |Now().clients| && Now().clients[c].subscribed)
    }

    constructor (uid: string)
      ensures Valid() && this.uid == uid && run == [INITIAL]
    {
      this.uid := uid;
      clients, buffers, run := {}, [], [INITIAL];
    }

    ghost method Did(step: Step)
      requires Behaviour(uid, run) && Enabled(uid, Now(), step)
      modifies this`run
      ensures Behaviour(uid, run) && run == old(run) + [Apply(uid, old(Now()), step)]
    {
      assert Next(uid, Now(), Apply(uid, Now(), step));
      run := run + [Apply(uid, Now(), step)];
    }

    /** A client's channel is made, subscribed, and unsubscribed in the end. */
    method NewChannel() returns (c: nat)
      requires Valid()
      modifies this`buffers, this`run
      ensures Valid() && c == |old(buffers)| && run == old(run) + [Apply(uid, old(Now()), Join)]
    {
      c := |buffers|;
      buffers := buffers + [[]];
      Did(Join);
    }

    method Add(c: nat)
      requires Valid() && c < |buffers|
      modifies this`clients, this`run
      ensures Valid() && clients == old(clients) + {c} && run == old(run) + [Apply(uid, old(Now()), Subscribe(c))]
    {
      clients := clients + {c};
      Did(Subscribe(c));
    }

    method Remove(c: nat)
      requires Valid() && c < |buffers|
      modifies this`clients, this`run
      ensures Valid() && clients == old(clients) - {c} && run == old(run) + [Apply(uid, old(Now()), Unsubscribe(c))]
    {
      clients := clients - {c};
      Did(Unsubscribe(c));
    }

    /** One receive of a client's loop. */
    method Take(c: nat) returns (s: Signal)
      requires Valid() && c < |buffers| && buffers[c] != []
      modifies this`buffers, this`run
      ensures Valid() && s == old(buffers)[c][0] && run == old(run) + [Apply(uid, old(Now()), Receive(c))]
    {
      s := buffers[c][0];
      buffers := buffers[c := buffers[c][1..]];
      Did(Receive(c));
    }

    /** broadcast, for the event action t has to send: one atomic step, in
        whatever order the map yields the channels. */
    method Send(s: Signal, ghost t: nat)
      requires Valid() && Enabled(uid, Now(), Broadcast(t)) && s == Due(uid, Now(), t)
      modifies this`buffers, this`run
      ensures Valid() && run == old(run) + [Apply(uid, old(Now()), Broadcast(t))]
    {
      var left := clients;
      while left != {}
        invariant left <= clients && |buffers| == |old(buffers)| && run == old(run)
        invariant forall c: nat :: c < |buffers| ==>
          buffers[c] == if c in clients - left then Offered(old(buffers)[c], s) else old(buffers)[c]
        decreases left
      {
        var c :| c in left;
        if |buffers[c]| < CLIENT_BUFFER {
          buffers := buffers[c := buffers[c] + [s]];
        }
        left := left - {c};
      }
      AllOffered(s, t, old(buffers));
      Did(Broadcast(t));
    }

    /** What each channel then holds is what the step says. */
    lemma AllOffered(s: Signal, t: nat, before: seq<seq<Signal>>)
      requires run != [] && Enabled(uid, Now(), Broadcast(t)) && s == Due(uid, Now(), t)
      requires |before| == |Now().clients|
      requires forall c :: 0 <= c < |before| ==> before[c] == Now().clients[c].buffer
      ensures forall c :: 0 <= c < |before| ==>
        Apply(uid, Now(), Broadcast(t)).clients[c].buffer ==
          if Now().clients[c].subscribed then Offered(before[c], s) else before[c]
      ensures forall c :: 0 <= c < |before| ==>
        Apply(uid, Now(), Broadcast(t)).clients[c].subscribed == Now().clients[c].subscribed
    {}

    /** Others run for a while: clients, and other actions. This contract is all
        that callers know. */
    method Others(ghost t: nat)
      requires Valid() && t < |Now().triggers|
      modifies this
      ensures Valid() && old(run) <= run
      ensures t < |Now().triggers| && Now().triggers[t] == old(Now()).triggers[t]
    {
    }

    /** trigger: the action's events one after the other, others running in
        between. */
    method Fire(action: string) returns (ghost t: nat)
      requires Valid()
      modifies this
      ensures Valid() && old(run) <= run && t == |old(Now()).triggers| < |Now().triggers|
      ensures Now().triggers[t] == Trigger(action, |Signals(uid, action)|)
    {
      t := |Now().triggers|;
      Did(Begin(action));
      var signals := Signals(uid, action);
      var i := 0;
      while i < |signals|
        invariant Valid() && old(run) <= run
        invariant i <= |signals| && t < |Now().triggers| && Now().triggers[t] == Trigger(action, i)
      {
        Send(signals[i], t);
        Others(t);
        i := i + 1;
      }
    }
  }

  /** A channel after an offer. */
  function Offered(buffer: seq<Signal>, s: Signal): seq<Signal> {
    if |buffer| < CLIENT_BUFFER then buffer + [s] else buffer
  }
}
