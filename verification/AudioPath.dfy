/** The audio path as a concurrent system: the recorders of module Recording,
    any number of /stream handlers that flush, receive and write
    (internal/server/stream.go), and the one-slot protocol by which a new
    handler replaces the last. Every label is one atomic action of one
    goroutine, so a run of labels is an interleaving. */
module AudioPath {
  import opened Bytes
  import opened Batching
  import opened Recording
  import opened Wrappers

  datatype Phase =
    | Connected // before the slot's lock is taken
    | Flushing // registered, discarding the pre-fill
    | Ready // flushed; calls play and writes the header next
    | Headed // header counted into delivered
    | Streaming
    | Holding(chunk: Chunk) // received, not yet written
    | Closing // final flush done
    | Leaving // no longer active
    | Gone // slot cleaned up, context cancelled

  /** One /stream request, reading from recorder `src`. `edge` is the number of
      chunks that recorder had cut when this handler's flush found the queue
      empty; `received` and `w` are what it took and what became of it. */
  datatype Handler = Handler(
    src: nat,
    phase: Phase,
    id: nat,
    cancelled: bool,
    edge: nat,
    received: seq<Chunk>,
    w: Output)

  /** Server fields streamID, streamCancel (its owner), delivered and active. */
  datatype System = System(
    recs: seq<Recorder>,
    hs: seq<Handler>,
    streamID: nat,
    owner: Option<nat>,
    delivered: nat,
    active: int)

  const HEADER_SIZE: nat := 44
  const FLUSH_THRESHOLD: nat := 131072

  datatype Label =
    | NewRecorder(size: nat, cap: nat)
    | Pump(r: nat, op: RecOp)
    | Connect(src: nat)
    | Disconnect(h: nat) // the client goes away
    | Register(h: nat)
    | FlushTake(h: nat)
    | FlushDone(h: nat)
    | Header(h: nat)
    | Activate(h: nat)
    | Recv(h: nat)
    | Deliver(h: nat, w: Output, n: nat)
    | Finish(h: nat, w: Output)
    | Deactivate(h: nat)
    | Cleanup(h: nat)

  function Queue(s: System, h: nat): seq<Chunk>
    requires h < |s.hs|
  {
    if s.hs[h].src < |s.recs| then s.recs[s.hs[h].src].queue else []
  }

  ghost predicate Enabled(s: System, l: Label) {
    match l
    case NewRecorder(size, cap) => 0 < size
    case Pump(r, op) => r < |s.recs| && !op.Take? && RecEnabled(s.recs[r], op)
    case Connect(src) => src < |s.recs|
    case Disconnect(h) => h < |s.hs|
    case Register(h) => h < |s.hs| && s.hs[h].phase.Connected?
    case FlushTake(h) => h < |s.hs| && s.hs[h].phase.Flushing? && Queue(s, h) != []
    case FlushDone(h) => h < |s.hs| && s.hs[h].phase.Flushing? && Queue(s, h) == []
    case Header(h) => h < |s.hs| && s.hs[h].phase.Ready?
    case Activate(h) => h < |s.hs| && s.hs[h].phase.Headed?
    case Recv(h) => h < |s.hs| && s.hs[h].phase.Streaming? && Queue(s, h) != []
    case Deliver(h, w, n) =>
      && h < |s.hs| && s.hs[h].phase.Holding? && s.hs[h].w.Valid()
      && Wrote(s.hs[h].w, s.hs[h].phase.chunk.data, w, n)
    case Finish(h, w) =>
      h < |s.hs| && s.hs[h].phase.Streaming? && s.hs[h].cancelled && Batching.Flushed(s.hs[h].w, w)
    case Deactivate(h) => h < |s.hs| && s.hs[h].phase.Closing?
    case Cleanup(h) => h < |s.hs| && s.hs[h].phase.Leaving?
  }

  function SetHandler(s: System, h: nat, x: Handler): System
    requires h < |s.hs|
  {
    s.(hs := s.hs[h := x])
  }

  function SetPhase(s: System, h: nat, p: Phase): System
    requires h < |s.hs|
  {
    SetHandler(s, h, s.hs[h].(phase := p))
  }

  function TakeFrom(s: System, r: nat, fate: Fate): System
    requires r < |s.recs| && RecEnabled(s.recs[r], Take(fate))
  {
    s.(recs := s.recs[r := RecApply(s.recs[r], Take(fate))])
  }

  /** The handler at the head of the slot is told to stop. */
  function CancelOwner(s: System): seq<Handler> {
    if s.owner.Some? && s.owner.value < |s.hs| then
      s.hs[s.owner.value := s.hs[s.owner.value].(cancelled := true)]
    else
      s.hs
  }

  function NewHandler(src: nat): Handler {
    Handler(src, Connected, 0, false, 0, [], NewOutput(FLUSH_THRESHOLD))
  }

  ghost function Apply(s: System, l: Label): System
    requires Enabled(s, l)
  {
    match l
    case NewRecorder(size, cap) => s.(recs := s.recs + [Recording.NewRecorder(size, cap)])
    case Pump(r, op) => s.(recs := s.recs[r := RecApply(s.recs[r], op)])
    case Connect(src) =>
      s.(hs := s.hs + [NewHandler(src)])
    case Disconnect(h) => SetHandler(s, h, s.hs[h].(cancelled := true))
    case Register(h) =>
      var hs := CancelOwner(s);
      s.(hs := hs[h := hs[h].(phase := Flushing, id := s.streamID + 1)],
         streamID := s.streamID + 1,
         owner := Some(h))
    case FlushTake(h) => TakeFrom(s, s.hs[h].src, Fate.Flushed(h))
    case FlushDone(h) =>
      var cut := if s.hs[h].src < |s.recs| then |s.recs[s.hs[h].src].fates| else 0;
      SetHandler(s, h, s.hs[h].(phase := Ready, edge := cut))
    case Header(h) => SetPhase(s, h, Headed).(delivered := s.delivered + HEADER_SIZE)
    case Activate(h) => SetPhase(s, h, Streaming).(active := s.active + 1)
    case Recv(h) =>
      var chunk := Queue(s, h)[0];
      SetHandler(
        TakeFrom(s, s.hs[h].src, Received(h)), h,
        s.hs[h].(phase := Holding(chunk), received := s.hs[h].received + [chunk]))
    case Deliver(h, w, n) =>
      SetHandler(s, h, s.hs[h].(phase := Streaming, w := w)).(delivered := s.delivered + n)
    case Finish(h, w) => SetHandler(s, h, s.hs[h].(phase := Closing, w := w))
    case Deactivate(h) => SetPhase(s, h, Leaving).(active := s.active - 1)
    case Cleanup(h) =>
      SetHandler(s, h, s.hs[h].(phase := Gone, cancelled := true))
        .(owner := if s.streamID == s.hs[h].id then None else s.owner)
  }

  ghost predicate Next(s: System, s': System) {
    exists l :: Enabled(s, l) && s' == Apply(s, l)
  }

  const INITIAL := System([], [], 0, None, 0, 0)

  /** A finite interleaving of all goroutines from start-up. */
  ghost predicate Behaviour(run: seq<System>) {
    && run != [] && run[0] == INITIAL
    && forall i :: 0 < i < |run| ==> Next(run[i - 1], run[i])
  }

  // ---- The slot -------------------------------------------------------------

  predicate Registered(x: Handler) {
    !x.phase.Connected?
  }

  ghost predicate SlotOk(s: System) {
    && (forall h :: 0 <= h < |s.hs| ==> (s.hs[h].id > 0 <==> Registered(s.hs[h])) && s.hs[h].id <= s.streamID)
    && (forall g, h :: 0 <= g < h < |s.hs| && s.hs[g].id > 0 ==> s.hs[g].id != s.hs[h].id)
    && (s.owner.Some? ==>
      && s.owner.value < |s.hs|
      && s.hs[s.owner.value].id == s.streamID > 0
      && !s.hs[s.owner.value].phase.Gone?)
    && (forall h :: 0 <= h < |s.hs| && 0 < s.hs[h].id && !s.hs[h].phase.Gone? && s.owner != Some(h) ==>
      s.hs[h].cancelled && s.hs[h].id < s.streamID)
  }

  /** Nothing the slot depends on has changed, except that contexts may have
      been cancelled. */
  ghost predicate SameSlot(s: System, s': System) {
    && |s'.hs| == |s.hs| && s'.owner == s.owner && s'.streamID == s.streamID
    && forall h :: 0 <= h < |s.hs| ==>
      && s'.hs[h].id == s.hs[h].id
      && (s.hs[h].cancelled ==> s'.hs[h].cancelled)
      && (s'.hs[h].phase.Connected? <==> s.hs[h].phase.Connected?)
      && (s'.hs[h].phase.Gone? <==> s.hs[h].phase.Gone?)
  }

  lemma SlotFrame(s: System, s': System)
    requires SlotOk(s) && SameSlot(s, s')
    ensures SlotOk(s')
  {}

  lemma SlotAfterRegister(s: System, h: nat)
    requires SlotOk(s) && Enabled(s, Register(h))
    ensures SlotOk(Apply(s, Register(h)))
  {}

  lemma SlotAfterCleanup(s: System, h: nat)
    requires SlotOk(s) && Enabled(s, Cleanup(h))
    ensures SlotOk(Apply(s, Cleanup(h)))
  {}

  lemma SlotAfterConnect(s: System, src: nat)
    requires SlotOk(s) && Enabled(s, Connect(src))
    ensures SlotOk(Apply(s, Connect(src)))
  {}

  lemma SlotPreserved(s: System, l: Label)
    requires SlotOk(s) && Enabled(s, l)
    ensures SlotOk(Apply(s, l))
  {
    if l.Register? {
      SlotAfterRegister(s, l.h);
    } else if l.Cleanup? {
      SlotAfterCleanup(s, l.h);
    } else if l.Connect? {
      SlotAfterConnect(s, l.src);
    } else {
      SlotUntouched(s, l);
      SlotFrame(s, Apply(s, l));
    }
  }

  lemma SlotUntouched(s: System, l: Label)
    requires Enabled(s, l) && !l.Register? && !l.Cleanup? && !l.Connect?
    ensures SameSlot(s, Apply(s, l))
  {}

  // ---- Who has which chunk --------------------------------------------------

  predicate Flushes(x: Handler) {
    x.phase.Connected? || x.phase.Flushing?
  }

  predicate Streams(x: Handler) {
    !Flushes(x) && !x.phase.Ready? && !x.phase.Headed?
  }

  /** Handler h holds exactly the chunks its recorder records as received by h,
      in increasing order, all at or past its edge and older than anything still
      queued. */
  ghost predicate LinkOk(r: Recorder, h: nat, x: Handler) {
    && Increasing(x.received)
    && (forall i :: 0 <= i < |x.received| ==>
      x.edge <= x.received[i].index < |r.fates| && IsPiece(r.input, r.size, x.received[i]))
    && (forall k :: 0 <= k < |r.fates| ==> (r.fates[k] == Received(h) <==> Has(x.received, k)))
    && (forall i, j :: 0 <= i < |x.received| && 0 <= j < |r.queue| ==> x.received[i].index < r.queue[j].index)
    && x.edge <= |r.fates|
    && (!Flushes(x) ==> forall j :: 0 <= j < |r.queue| ==> x.edge <= r.queue[j].index)
    && (!Streams(x) ==> x.received == [])
    && (x.phase.Holding? ==> x.received != [] && x.received[|x.received| - 1] == x.phase.chunk)
  }

  lemma LinkAfterRead(r: Recorder, h: nat, x: Handler, bytes: seq<Byte>, err: bool)
    requires LinkOk(r, h, x) && RecEnabled(r, Read(bytes, err))
    ensures LinkOk(RecApply(r, Read(bytes, err)), h, x)
  {
    forall i | 0 <= i < |x.received| ensures IsPiece(r.input + bytes, r.size, x.received[i]) {
      PieceKept(r.input, bytes, r.size, x.received[i].index);
    }
  }

  lemma LinkAfterCut(r: Recorder, h: nat, x: Handler)
    requires LinkOk(r, h, x) && RecEnabled(r, Cut)
    ensures LinkOk(RecApply(r, Cut), h, x)
  {}

  lemma LinkAfterPump(r: Recorder, h: nat, x: Handler, op: RecOp)
    requires LinkOk(r, h, x) && RecEnabled(r, op) && !op.Take?
    ensures LinkOk(RecApply(r, op), h, x)
  {
    match op
    case Read(bytes, err) => LinkAfterRead(r, h, x, bytes, err);
    case Cut => LinkAfterCut(r, h, x);
    case _ =>
  }

  /** Somebody else takes the oldest chunk. */
  lemma LinkAfterOther(r: Recorder, h: nat, x: Handler, fate: Fate)
    requires LinkOk(r, h, x) && QueueOk(r) && RecEnabled(r, Take(fate)) && fate != Received(h)
    ensures LinkOk(RecApply(r, Take(fate)), h, x)
  {
    var k := r.queue[0].index;
    assert Has(r.queue, k) && r.fates[k].Queued?;
  }

  /** Handler h itself takes it. */
  lemma LinkAfterRecv(r: Recorder, h: nat, x: Handler)
    requires LinkOk(r, h, x) && QueueOk(r) && RecEnabled(r, Take(Received(h))) && x.phase.Streaming?
    ensures LinkOk(
      RecApply(r, Take(Received(h))), h,
      x.(phase := Holding(r.queue[0]), received := x.received + [r.queue[0]]))
  {
    var c := r.queue[0];
    var r' := RecApply(r, Take(Received(h)));
    assert Has(r.queue, c.index) && r.fates[c.index].Queued?;
    forall k | 0 <= k < |r'.fates| ensures r'.fates[k] == Received(h) <==> Has(x.received + [c], k) {
      HasAppended(x.received, c, k);
    }
  }

  ghost predicate LinkedAt(s: System, h: nat) {
    h < |s.hs| && s.hs[h].src < |s.recs| && LinkOk(s.recs[s.hs[h].src], h, s.hs[h])
  }

  ghost predicate LinksOk(s: System) {
    && (forall r :: 0 <= r < |s.recs| ==> BytesOk(s.recs[r]) && QueueOk(s.recs[r]))
    && (forall h :: 0 <= h < |s.hs| ==> s.hs[h].src < |s.recs| && LinkedAt(s, h))
    && (forall r :: 0 <= r < |s.recs| ==> NoStrangers(s.recs[r].fates, s.hs, r))
  }

  predicate Takes(fate: Fate, h: nat) {
    fate == Received(h) || fate == Fate.Flushed(h)
  }

  /** Whoever a recorder names as having taken a chunk reads from it. */
  ghost predicate NoStrangers(fates: seq<Fate>, hs: seq<Handler>, r: nat) {
    forall k: nat, h: nat {:trigger Takes(fates[k], h)} ::
      k < |fates| && Takes(fates[k], h) ==> h < |hs| && hs[h].src == r
  }

  lemma RecsPreserved(s: System, l: Label)
    requires LinksOk(s) && Enabled(s, l)
    ensures forall r :: 0 <= r < |Apply(s, l).recs| ==> BytesOk(Apply(s, l).recs[r]) && QueueOk(Apply(s, l).recs[r])
  {
    match l
    case Pump(r, op) =>
      BytesPreserved(s.recs[r], op);
      QueuePreserved(s.recs[r], op);
    case FlushTake(h) =>
      BytesPreserved(s.recs[s.hs[h].src], Take(Fate.Flushed(h)));
      QueuePreserved(s.recs[s.hs[h].src], Take(Fate.Flushed(h)));
    case Recv(h) =>
      BytesPreserved(s.recs[s.hs[h].src], Take(Received(h)));
      QueuePreserved(s.recs[s.hs[h].src], Take(Received(h)));
    case NewRecorder(size, cap) =>
      assert BytesOk(Recording.NewRecorder(size, cap)) && QueueOk(Recording.NewRecorder(size, cap));
    case _ =>
      assert Apply(s, l).recs == s.recs;
  }

  lemma StrangersPreserved(s: System, l: Label, r: nat)
    requires LinksOk(s) && Enabled(s, l) && r < |Apply(s, l).recs|
    ensures NoStrangers(Apply(s, l).recs[r].fates, Apply(s, l).hs, r)
  {
    if r < |s.recs| {
      assert NoStrangers(s.recs[r].fates, s.hs, r);
      OnlyReadersTake(s, l, r);
      HandlersStay(s, l);
      StrangersKept(s.recs[r].fates, Apply(s, l).recs[r].fates, s.hs, Apply(s, l).hs, r);
    } else {
      NewRecorderUntouched(s, l, r);
    }
  }

  lemma NewRecorderUntouched(s: System, l: Label, r: nat)
    requires Enabled(s, l) && |s.recs| <= r < |Apply(s, l).recs|
    ensures Apply(s, l).recs[r].fates == []
  {}

  /** Chunks are taken only by handlers that read from the recorder. */
  ghost predicate TakenByReaders(fates: seq<Fate>, fates': seq<Fate>, hs: seq<Handler>, r: nat) {
    forall k: nat, h: nat {:trigger Takes(fates'[k], h)} :: k < |fates'| && Takes(fates'[k], h) ==>
      (k < |fates| && Takes(fates[k], h)) || (h < |hs| && hs[h].src == r)
  }

  lemma OnlyReadersTake(s: System, l: Label, r: nat)
    requires Enabled(s, l) && r < |s.recs|
    ensures r < |Apply(s, l).recs|
    ensures TakenByReaders(s.recs[r].fates, Apply(s, l).recs[r].fates, s.hs, r)
  {
    if l.Pump? {
      PumpTakesNothing(s.recs[l.r], l.op, s.hs, l.r);
    } else if l.FlushTake? {
      ReaderTakes(s.recs[s.hs[l.h].src], Fate.Flushed(l.h), s.hs, l.h);
    } else if l.Recv? {
      ReaderTakes(s.recs[s.hs[l.h].src], Received(l.h), s.hs, l.h);
    }
  }

  lemma PumpTakesNothing(rec: Recorder, op: RecOp, hs: seq<Handler>, r: nat)
    requires RecEnabled(rec, op) && !op.Take?
    ensures TakenByReaders(rec.fates, RecApply(rec, op).fates, hs, r)
  {
    assert forall g :: !Takes(Queued, g) && !Takes(Dropped, g);
  }

  lemma ReaderTakes(rec: Recorder, fate: Fate, hs: seq<Handler>, h: nat)
    requires RecEnabled(rec, Take(fate)) && h < |hs| && (fate == Received(h) || fate == Fate.Flushed(h))
    ensures TakenByReaders(rec.fates, RecApply(rec, Take(fate)).fates, hs, hs[h].src)
  {
    assert forall g :: Takes(fate, g) ==> g == h;
  }

  lemma StrangersKept(fates: seq<Fate>, fates': seq<Fate>, hs: seq<Handler>, hs': seq<Handler>, r: nat)
    requires NoStrangers(fates, hs, r) && TakenByReaders(fates, fates', hs, r)
    requires |hs| <= |hs'| && forall h :: 0 <= h < |hs| ==> hs'[h].src == hs[h].src
    ensures NoStrangers(fates', hs', r)
  {}

  lemma HandlersStay(s: System, l: Label)
    requires Enabled(s, l)
    ensures |Apply(s, l).hs| == |s.hs| + if l.Connect? then 1 else 0
    ensures forall h :: 0 <= h < |s.hs| ==> Apply(s, l).hs[h].src == s.hs[h].src
    ensures l.Connect? ==>
      l.src < |s.recs| && Apply(s, l).recs == s.recs && Apply(s, l).hs[|s.hs|] == NewHandler(l.src)
  {}

  /** A step of handler x that takes no chunk and leaves its edge alone. */
  predicate QuietMove(x: Handler, x': Handler) {
    && x'.src == x.src && x'.received == x.received && x'.edge == x.edge
    && (Flushes(x') <==> Flushes(x))
    && (Streams(x) ==> Streams(x'))
    && (x'.phase.Holding? ==> x'.phase == x.phase)
  }

  predicate Quiet(l: Label) {
    !l.Pump? && !l.FlushTake? && !l.FlushDone? && !l.Recv?
  }

  lemma QuietLabels(s: System, l: Label, h: nat)
    requires Enabled(s, l) && Quiet(l) && h < |s.hs|
    ensures QuietMove(s.hs[h], Apply(s, l).hs[h])
    ensures s.recs <= Apply(s, l).recs
  {}

  lemma LinkAfterQuiet(r: Recorder, h: nat, x: Handler, x': Handler)
    requires LinkOk(r, h, x) && QuietMove(x, x')
    ensures LinkOk(r, h, x')
  {}

  lemma LinkPreserved(s: System, l: Label, h: nat)
    requires LinksOk(s) && Enabled(s, l) && h < |s.hs|
    ensures LinkedAt(Apply(s, l), h)
  {
    assert LinkedAt(s, h);
    if Quiet(l) {
      QuietLabels(s, l, h);
      LinkAfterQuiet(s.recs[s.hs[h].src], h, s.hs[h], Apply(s, l).hs[h]);
    } else if l.Pump? {
      LinkThroughPump(s, l.r, l.op, h);
    } else if l.FlushTake? {
      LinkThroughFlush(s, l.h, h);
    } else if l.Recv? {
      LinkThroughRecv(s, l.h, h);
    } else {
      LinkThroughFlushDone(s, l.h, h);
    }
  }

  lemma LinkThroughPump(s: System, r: nat, op: RecOp, h: nat)
    requires LinkedAt(s, h) && Enabled(s, Pump(r, op))
    ensures LinkedAt(Apply(s, Pump(r, op)), h)
  {
    if r == s.hs[h].src {
      LinkAfterPump(s.recs[r], h, s.hs[h], op);
    }
  }

  lemma LinkThroughFlush(s: System, g: nat, h: nat)
    requires LinksOk(s) && LinkedAt(s, h) && Enabled(s, FlushTake(g))
    ensures LinkedAt(Apply(s, FlushTake(g)), h)
  {
    if s.hs[g].src == s.hs[h].src {
      LinkAfterOther(s.recs[s.hs[h].src], h, s.hs[h], Fate.Flushed(g));
    }
  }

  lemma LinkThroughFlushDone(s: System, g: nat, h: nat)
    requires LinkedAt(s, h) && Enabled(s, FlushDone(g))
    ensures LinkedAt(Apply(s, FlushDone(g)), h)
  {}

  lemma LinkThroughRecv(s: System, g: nat, h: nat)
    requires LinksOk(s) && LinkedAt(s, h) && Enabled(s, Recv(g))
    ensures LinkedAt(Apply(s, Recv(g)), h)
  {
    if g == h {
      LinkAfterRecv(s.recs[s.hs[h].src], h, s.hs[h]);
    } else if s.hs[g].src == s.hs[h].src {
      LinkAfterOther(s.recs[s.hs[h].src], h, s.hs[h], Received(g));
    }
  }

  lemma LinksPreserved(s: System, l: Label)
    requires LinksOk(s) && Enabled(s, l)
    ensures LinksOk(Apply(s, l))
  {
    var s' := Apply(s, l);
    RecsPreserved(s, l);
    forall r | 0 <= r < |s'.recs| ensures NoStrangers(s'.recs[r].fates, s'.hs, r) {
      StrangersPreserved(s, l, r);
    }
    forall h | 0 <= h < |s'.hs| ensures s'.hs[h].src < |s'.recs| && LinkedAt(s', h) {
      LinkAt(s, l, h);
    }
  }

  lemma LinkAt(s: System, l: Label, h: nat)
    requires LinksOk(s) && Enabled(s, l) && h < |Apply(s, l).hs|
    ensures LinkedAt(Apply(s, l), h)
  {
    if h < |s.hs| {
      LinkPreserved(s, l, h);
    } else {
      HandlersStay(s, l);
      NewHandlerLink(s, l.src, h);
    }
  }

  lemma NewHandlerLink(s: System, src: nat, h: nat)
    requires LinksOk(s) && src < |s.recs| && h == |s.hs|
    ensures LinkOk(s.recs[src], h, NewHandler(src))
  {
    var fates := s.recs[src].fates;
    assert NoStrangers(fates, s.hs, src);
    forall k: nat | k < |fates| ensures fates[k] != Received(h) {
      assert Takes(fates[k], h) ==> h < |s.hs|;
    }
  }

  // ---- What the response holds ----------------------------------------------

  function Datas(chunks: seq<Chunk>): (r: seq<seq<Byte>>)
    ensures |r| == |chunks| && forall i :: 0 <= i < |r| ==> r[i] == chunks[i].data
  {
    seq(|chunks|, i requires 0 <= i < |chunks| => chunks[i].data)
  }

  /** The chunks already handed to the writer. */
  function HandedOver(x: Handler): seq<Chunk> {
    if x.phase.Holding? && x.received != [] then x.received[..|x.received| - 1] else x.received
  }

  /** The handler has made its final flush. */
  predicate Ending(x: Handler) {
    x.phase.Closing? || x.phase.Leaving? || x.phase.Gone?
  }

  ghost predicate PayloadOk(x: Handler) {
    && x.w.Valid() && x.w.size == FLUSH_THRESHOLD
    && x.w.Accepted() <= Concat(Datas(HandedOver(x)))
    && (!x.w.failed ==> x.w.Accepted() == Concat(Datas(HandedOver(x))))
    && (!Streams(x) ==> x.w == NewOutput(FLUSH_THRESHOLD))
    && (Ending(x) ==> x.w.failed || x.w.buf == [])
    && Large(x.w.batches, |x.w.batches| - (if Ending(x) then 1 else 0), FLUSH_THRESHOLD)
  }

  ghost predicate PayloadsOk(s: System) {
    forall h :: 0 <= h < |s.hs| ==> PayloadOk(s.hs[h])
  }

  lemma PayloadAfterDeliver(x: Handler, w: Output, n: nat)
    requires PayloadOk(x) && x.phase.Holding? && x.received != []
    requires x.received[|x.received| - 1] == x.phase.chunk
    requires Wrote(x.w, x.phase.chunk.data, w, n)
    ensures PayloadOk(x.(phase := Streaming, w := w))
  {
    var before, data := Datas(HandedOver(x)), x.phase.chunk.data;
    var after := Datas(x.received);
    assert after[..|after| - 1] == before;
    assert Concat(after) == Concat(before) + data;
    assert x.w.failed ==> w.Accepted() <= Concat(after);
    BatchedIsLarge(x.w, data);
    assert data[..|data|] == data;
  }

  /** A step of x that leaves the writer and its input alone. */
  predicate SameOutput(x: Handler, x': Handler) {
    && x'.w == x.w && HandedOver(x') == HandedOver(x)
    && (Streams(x) ==> Streams(x'))
    && Ending(x') == Ending(x)
  }

  predicate Writes(l: Label, h: nat) {
    (l.Deliver? || l.Finish?) && l.h == h
  }

  lemma OtherLabelsWriteNothing(s: System, l: Label, h: nat)
    requires Enabled(s, l) && h < |s.hs| && !Writes(l, h)
    ensures SameOutput(s.hs[h], Apply(s, l).hs[h])
  {
    if l.Recv? && l.h == h {
      var x := s.hs[h];
      assert (x.received + [Queue(s, h)[0]])[..|x.received|] == x.received;
    }
  }

  lemma PayloadAfterOther(x: Handler, x': Handler)
    requires PayloadOk(x) && SameOutput(x, x')
    ensures PayloadOk(x')
  {}

  lemma PayloadAfterFinish(x: Handler, w: Output)
    requires PayloadOk(x) && x.phase.Streaming? && Batching.Flushed(x.w, w)
    ensures PayloadOk(x.(phase := Closing, w := w))
  {
    assert |w.out| + |w.buf| == |w.Accepted()| == |x.w.Accepted()|;
  }

  lemma PayloadPreserved(s: System, l: Label, h: nat)
    requires LinksOk(s) && PayloadsOk(s) && Enabled(s, l) && h < |s.hs|
    ensures h < |Apply(s, l).hs| && PayloadOk(Apply(s, l).hs[h])
  {
    assert PayloadOk(s.hs[h]);
    HandlersStay(s, l);
    if !Writes(l, h) {
      OtherLabelsWriteNothing(s, l, h);
      PayloadAfterOther(s.hs[h], Apply(s, l).hs[h]);
    } else if l.Deliver? {
      assert LinkOk(s.recs[s.hs[h].src], h, s.hs[h]);
      PayloadThroughDeliver(s, h, l.w, l.n);
    } else {
      PayloadAfterFinish(s.hs[h], l.w);
    }
  }

  lemma PayloadThroughDeliver(s: System, h: nat, w: Output, n: nat)
    requires Enabled(s, Deliver(h, w, n)) && PayloadOk(s.hs[h])
    requires s.hs[h].received != [] && s.hs[h].received[|s.hs[h].received| - 1] == s.hs[h].phase.chunk
    ensures PayloadOk(Apply(s, Deliver(h, w, n)).hs[h])
  {
    PayloadAfterDeliver(s.hs[h], w, n);
  }

  lemma PayloadsPreserved(s: System, l: Label)
    requires LinksOk(s) && PayloadsOk(s) && Enabled(s, l)
    ensures PayloadsOk(Apply(s, l))
  {
    forall h | 0 <= h < |Apply(s, l).hs| ensures PayloadOk(Apply(s, l).hs[h]) {
      PayloadAt(s, l, h);
    }
  }

  lemma PayloadAt(s: System, l: Label, h: nat)
    requires LinksOk(s) && PayloadsOk(s) && Enabled(s, l) && h < |Apply(s, l).hs|
    ensures PayloadOk(Apply(s, l).hs[h])
  {
    if h < |s.hs| {
      PayloadPreserved(s, l, h);
    } else {
      HandlersStay(s, l);
      NewHandlerPayload(l.src);
    }
  }

  lemma NewHandlerPayload(src: nat)
    ensures PayloadOk(NewHandler(src))
  {
    assert Datas([]) == [];
  }

  // ---- The counters -----------------------------------------------------------

  function Sum(hs: seq<Handler>, f: Handler -> int): int {
    if hs == [] then 0 else Sum(hs[..|hs| - 1], f) + f(hs[|hs| - 1])
  }

  lemma SumUpdate(hs: seq<Handler>, f: Handler -> int, h: nat, x: Handler)
    requires h < |hs|
    ensures Sum(hs[h := x], f) == Sum(hs, f) - f(hs[h]) + f(x)
  {
    var last := |hs| - 1;
    if h < last {
      SumUpdate(hs[..last], f, h, x);
      assert hs[h := x][..last] == hs[..last][h := x];
    } else {
      assert hs[h := x][..last] == hs[..last];
    }
  }

  /** The bytes a handler has added to delivered. */
  function Counted(x: Handler): int {
    (if Streams(x) || x.phase.Headed? then HEADER_SIZE else 0) + |x.w.Accepted()|
  }

  function Counts(x: Handler): int {
    if Streams(x) && !x.phase.Leaving? && !x.phase.Gone? then 1 else 0
  }

  ghost predicate CountersOk(s: System) {
    && s.delivered == Sum(s.hs, Counted)
    && s.active == Sum(s.hs, Counts)
  }

  /** Cancelling the old owner changes no sum. */
  lemma SumsAfterRegister(s: System, h: nat, f: Handler -> int)
    requires Enabled(s, Register(h))
    requires forall x: Handler, c: bool {:trigger f(x.(cancelled := c))} :: f(x.(cancelled := c)) == f(x)
    ensures Sum(Apply(s, Register(h)).hs, f) == Sum(s.hs, f) - f(s.hs[h]) + f(Apply(s, Register(h)).hs[h])
    ensures f(CancelOwner(s)[h]) == f(s.hs[h])
  {
    if s.owner.Some? && s.owner.value < |s.hs| {
      SumUpdate(s.hs, f, s.owner.value, CancelOwner(s)[s.owner.value]);
    }
    SumUpdate(CancelOwner(s), f, h, Apply(s, Register(h)).hs[h]);
  }

  /** What a step of one handler adds to the counters is what it changes in
      that handler's share. */
  predicate Accounted(s: System, s': System, h: nat)
    requires h < |s.hs|
  {
    && |s'.hs| == |s.hs|
    && s'.hs == s.hs[h := s'.hs[h]]
    && s'.delivered - s.delivered == Counted(s'.hs[h]) - Counted(s.hs[h])
    && s'.active - s.active == Counts(s'.hs[h]) - Counts(s.hs[h])
  }

  predicate MovesOne(l: Label) {
    !l.NewRecorder? && !l.Pump? && !l.FlushTake? && !l.Connect? && !l.Register?
  }

  lemma OneHandlerAccounted(s: System, l: Label)
    requires PayloadsOk(s) && Enabled(s, l) && MovesOne(l) && !l.Deliver? && !l.Finish?
    ensures Accounted(s, Apply(s, l), l.h)
  {
    assert PayloadOk(s.hs[l.h]);
    if l.Header? {
      HeaderAccounted(s, l.h);
    } else if l.Activate? {
      ActivateAccounted(s, l.h);
    } else if l.Deactivate? {
      DeactivateAccounted(s, l.h);
    } else if l.Recv? {
      RecvAccounted(s, l.h);
    } else {
      QuietAccounted(s, l);
    }
  }

  lemma HeaderAccounted(s: System, h: nat)
    requires Enabled(s, Header(h)) && PayloadOk(s.hs[h])
    ensures Accounted(s, Apply(s, Header(h)), h)
  {}

  lemma ActivateAccounted(s: System, h: nat)
    requires Enabled(s, Activate(h)) && PayloadOk(s.hs[h])
    ensures Accounted(s, Apply(s, Activate(h)), h)
  {}

  lemma DeactivateAccounted(s: System, h: nat)
    requires Enabled(s, Deactivate(h))
    ensures Accounted(s, Apply(s, Deactivate(h)), h)
  {}

  lemma RecvAccounted(s: System, h: nat)
    requires Enabled(s, Recv(h))
    ensures Accounted(s, Apply(s, Recv(h)), h)
  {}

  lemma QuietAccounted(s: System, l: Label)
    requires Enabled(s, l) && (l.Disconnect? || l.FlushDone? || l.Cleanup?) && PayloadOk(s.hs[l.h])
    ensures Accounted(s, Apply(s, l), l.h)
  {}

  lemma WriteAccounted(s: System, l: Label)
    requires PayloadsOk(s) && Enabled(s, l) && (l.Deliver? || l.Finish?)
    ensures Accounted(s, Apply(s, l), l.h)
  {
    assert PayloadOk(s.hs[l.h]);
    if l.Deliver? {
      DeliverCounted(s.hs[l.h], l.w, l.n);
    } else {
      FinishCounted(s.hs[l.h], l.w);
    }
  }

  lemma DeliverCounted(x: Handler, w: Output, n: nat)
    requires x.phase.Holding? && x.w.Valid() && Wrote(x.w, x.phase.chunk.data, w, n)
    ensures Counted(x.(phase := Streaming, w := w)) == Counted(x) + n
    ensures Counts(x.(phase := Streaming, w := w)) == Counts(x)
  {
    assert |w.Accepted()| == |x.w.Accepted() + x.phase.chunk.data[..n]|;
  }

  lemma FinishCounted(x: Handler, w: Output)
    requires x.phase.Streaming? && Batching.Flushed(x.w, w)
    ensures Counted(x.(phase := Closing, w := w)) == Counted(x)
    ensures Counts(x.(phase := Closing, w := w)) == Counts(x)
  {
    assert |w.Accepted()| == |x.w.Accepted()|;
  }

  lemma CountersPreserved(s: System, l: Label)
    requires CountersOk(s) && PayloadsOk(s) && Enabled(s, l)
    ensures CountersOk(Apply(s, l))
  {
    var s' := Apply(s, l);
    if MovesOne(l) {
      if l.Deliver? || l.Finish? { WriteAccounted(s, l); } else { OneHandlerAccounted(s, l); }
      SumUpdate(s.hs, Counted, l.h, s'.hs[l.h]);
      SumUpdate(s.hs, Counts, l.h, s'.hs[l.h]);
    } else if l.Connect? {
      assert s'.hs[..|s.hs|] == s.hs;
    } else if l.Register? {
      RegisterCountsNothing(s, l.h);
    }
  }

  lemma RegisterCountsNothing(s: System, h: nat)
    requires PayloadsOk(s) && Enabled(s, Register(h))
    ensures Sum(Apply(s, Register(h)).hs, Counted) == Sum(s.hs, Counted)
    ensures Sum(Apply(s, Register(h)).hs, Counts) == Sum(s.hs, Counts)
  {
    SumsAfterRegister(s, h, Counted);
    SumsAfterRegister(s, h, Counts);
    assert PayloadOk(s.hs[h]);
  }

  // ---- Every reachable state ----------------------------------------------------

  ghost predicate Safe(s: System) {
    SlotOk(s) && LinksOk(s) && PayloadsOk(s) && CountersOk(s)
  }

  lemma SafeStep(s: System, s': System)
    requires Safe(s) && Next(s, s')
    ensures Safe(s')
  {
    var l :| Enabled(s, l) && s' == Apply(s, l);
    SlotPreserved(s, l);
    LinksPreserved(s, l);
    PayloadsPreserved(s, l);
    CountersPreserved(s, l);
  }

  lemma {:induction false} SystemSafety(run: seq<System>, i: nat)
    requires Behaviour(run) && i < |run|
    ensures Safe(run[i])
  {
    if i > 0 {
      SystemSafety(run, i - 1);
      SafeStep(run[i - 1], run[i]);
    }
  }
}
