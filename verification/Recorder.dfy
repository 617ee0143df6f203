/** The live recorder (internal/audio/recorder.go): a pump that re-cuts arbitrary
    reads into fixed-size chunks and offers them to a bounded queue, and the
    consumers that take them out. First the atomic actions as a step relation,
    then the recorder's own code, proved to make only such steps. */
module Recording {
  import opened Bytes

  /** A chunk with its ordinal among the chunks cut by its pump. */
  datatype Chunk = Chunk(index: nat, data: seq<Byte>)

  /** What became of a chunk. */
  datatype Fate = Queued | Dropped | Flushed(who: nat) | Received(who: nat)

  /** At the top of the loop, inside Source.Read, cutting what it read, or gone. */
  datatype Pump = Polling | Reading | Cutting(err: bool) | Ended

  /** One PulseRecorder. `input` (all bytes read), `readCount` and `fates` are history;
      `told` says that the stop channel its pump polls is closed, `cancelled` that
      its context is. */
  datatype Recorder = Recorder(
    size: nat,
    cap: nat,
    input: seq<Byte>,
    acc: seq<Byte>,
    queue: seq<Chunk>,
    sent: nat,
    dropped: nat,
    fates: seq<Fate>,
    pump: Pump,
    readCount: nat,
    told: bool,
    cancelled: bool)

  datatype RecOp =
    | Poll // neither ctx nor stop was ready at the top of the loop
    | Halt // one of them was
    | Read(bytes: seq<Byte>, err: bool) // Source.Read returned
    | Cut // one chunk cut and offered to the queue
    | Settle // fewer than size bytes left over
    | Take(fate: Fate) // a consumer received the oldest chunk
    | Tell // Stop closed the channel
    | Cancel // the context was cancelled

  /** The pump has been told to end, one way or the other. */
  predicate Dismissed(r: Recorder) {
    r.told || r.cancelled
  }

  predicate RecEnabled(r: Recorder, op: RecOp) {
    match op
    case Poll => r.pump.Polling? && !Dismissed(r)
    case Halt => r.pump.Polling? && Dismissed(r)
    case Read(bytes, _) => r.pump.Reading? && |bytes| <= r.size
    case Cut => r.pump.Cutting? && |r.acc| >= r.size
    case Settle => r.pump.Cutting? && |r.acc| < r.size
    case Take(fate) => r.queue != [] && (fate.Flushed? || fate.Received?)
    case Tell => !r.told
    case Cancel => !r.cancelled
  }

  function Mark(fates: seq<Fate>, k: nat, fate: Fate): seq<Fate> {
    if k < |fates| then fates[k := fate] else fates
  }

  function RecApply(r: Recorder, op: RecOp): Recorder
    requires RecEnabled(r, op)
  {
    match op
    case Poll => r.(pump := Reading)
    case Halt => r.(pump := Ended)
    case Read(bytes, err) =>
      r.(input := r.input + bytes, acc := r.acc + bytes, pump := Cutting(err), readCount := r.readCount + 1)
    case Cut =>
      var chunk := Chunk(|r.fates|, r.acc[..r.size]);
      var rest := r.(acc := r.acc[r.size..]);
      if |r.queue| < r.cap then
        rest.(queue := r.queue + [chunk], sent := r.sent + 1, fates := r.fates + [Queued])
      else
        rest.(dropped := r.dropped + 1, fates := r.fates + [Dropped])
    case Settle => r.(pump := if r.pump.err then Ended else Polling)
    case Take(fate) => r.(queue := r.queue[1..], fates := Mark(r.fates, r.queue[0].index, fate))
    case Tell => r.(told := true)
    case Cancel => r.(cancelled := true)
  }

  function NewRecorder(size: nat, cap: nat): Recorder {
    Recorder(size, cap, [], [], [], 0, 0, [], Polling, 0, false, false)
  }

  /** The k-th block of size bytes of the input. */
  function Piece(input: seq<Byte>, size: nat, k: nat): seq<Byte>
    requires (k + 1) * size <= |input|
  {
    assert k * size <= (k + 1) * size;
    input[k * size..(k + 1) * size]
  }

  predicate IsPiece(input: seq<Byte>, size: nat, c: Chunk) {
    (c.index + 1) * size <= |input| && c.data == Piece(input, size, c.index)
  }

  function CountDropped(fates: seq<Fate>): nat {
    if fates == [] then 0
    else CountDropped(fates[..|fates| - 1]) + if fates[|fates| - 1] == Dropped then 1 else 0
  }

  predicate Increasing(chunks: seq<Chunk>) {
    forall i, j :: 0 <= i < j < |chunks| ==> chunks[i].index < chunks[j].index
  }

  predicate Has(chunks: seq<Chunk>, k: nat) {
    exists i :: 0 <= i < |chunks| && chunks[i].index == k
  }

  /** The byte ledger: what was read is the chunks cut plus the accumulator. */
  ghost predicate BytesOk(r: Recorder) {
    && 0 < r.size
    && r.sent + r.dropped == |r.fates|
    && r.dropped == CountDropped(r.fates)
    && |r.input| == |r.fates| * r.size + |r.acc|
    && r.acc == r.input[|r.fates| * r.size..]
    && (!r.pump.Cutting? ==> |r.acc| < r.size)
  }

  /** The queue holds exactly the queued chunks, oldest first, within its
      capacity, each with its own block of the input. */
  ghost predicate QueueOk(r: Recorder) {
    && |r.queue| <= r.cap
    && Increasing(r.queue)
    && (forall i :: 0 <= i < |r.queue| ==> r.queue[i].index < |r.fates| && IsPiece(r.input, r.size, r.queue[i]))
    && (forall k :: 0 <= k < |r.fates| ==> (r.fates[k].Queued? <==> Has(r.queue, k)))
  }

  lemma PieceKept(input: seq<Byte>, more: seq<Byte>, size: nat, k: nat)
    requires (k + 1) * size <= |input|
    ensures (k + 1) * size <= |input + more|
    ensures Piece(input + more, size, k) == Piece(input, size, k)
  {}

  lemma CountDroppedKept(fates: seq<Fate>, k: nat, fate: Fate)
    requires k < |fates| && fates[k] != Dropped && fate != Dropped
    ensures CountDropped(fates[k := fate]) == CountDropped(fates)
  {
    var last := |fates| - 1;
    if k < last {
      CountDroppedKept(fates[..last], k, fate);
      assert fates[k := fate][..last] == fates[..last][k := fate];
    } else {
      assert fates[k := fate][..last] == fates[..last];
    }
  }

  lemma BytesAfterRead(r: Recorder, bytes: seq<Byte>, err: bool)
    requires BytesOk(r) && RecEnabled(r, Read(bytes, err))
    ensures BytesOk(RecApply(r, Read(bytes, err)))
  {
    var start := |r.fates| * r.size;
    assert (r.input + bytes)[start..] == r.input[start..] + bytes;
  }

  lemma BytesAfterCut(r: Recorder)
    requires BytesOk(r) && RecEnabled(r, Cut)
    ensures BytesOk(RecApply(r, Cut))
  {
    var r' := RecApply(r, Cut);
    assert r'.fates[..|r.fates|] == r.fates;
    RestOf(r.input, |r.fates|, r.size);
  }

  lemma RestOf(input: seq<Byte>, k: nat, size: nat)
    requires k * size + size <= |input|
    ensures k * size + size == (k + 1) * size
    ensures input[k * size..][size..] == input[(k + 1) * size..]
  {
    assert k * size + size == (k + 1) * size;
  }

  lemma BytesAfterTake(r: Recorder, fate: Fate)
    requires BytesOk(r) && QueueOk(r) && RecEnabled(r, Take(fate))
    ensures BytesOk(RecApply(r, Take(fate)))
  {
    var k := r.queue[0].index;
    assert Has(r.queue, k);
    CountDroppedKept(r.fates, k, fate);
  }

  lemma BytesPreserved(r: Recorder, op: RecOp)
    requires BytesOk(r) && QueueOk(r) && RecEnabled(r, op)
    ensures BytesOk(RecApply(r, op))
  {
    match op
    case Read(bytes, err) => BytesAfterRead(r, bytes, err);
    case Cut => BytesAfterCut(r);
    case Take(fate) => BytesAfterTake(r, fate);
    case _ =>
  }

  lemma QueueAfterRead(r: Recorder, bytes: seq<Byte>, err: bool)
    requires QueueOk(r) && RecEnabled(r, Read(bytes, err))
    ensures QueueOk(RecApply(r, Read(bytes, err)))
  {
    var r' := RecApply(r, Read(bytes, err));
    forall i | 0 <= i < |r.queue| ensures IsPiece(r'.input, r'.size, r.queue[i]) {
      PieceKept(r.input, bytes, r.size, r.queue[i].index);
    }
  }

  lemma HasAppended(chunks: seq<Chunk>, c: Chunk, k: nat)
    ensures Has(chunks + [c], k) <==> Has(chunks, k) || k == c.index
  {
    if Has(chunks, k) {
      var i :| 0 <= i < |chunks| && chunks[i].index == k;
      assert (chunks + [c])[i].index == k;
    }
    assert (chunks + [c])[|chunks|] == c;
  }

  lemma HasTail(chunks: seq<Chunk>, k: nat)
    requires chunks != []
    ensures Has(chunks, k) <==> Has(chunks[1..], k) || k == chunks[0].index
  {
    if Has(chunks, k) && k != chunks[0].index {
      var i :| 0 <= i < |chunks| && chunks[i].index == k;
      assert chunks[1..][i - 1].index == k;
    }
  }

  /** The block a cut takes off the accumulator. */
  lemma CutPiece(r: Recorder)
    requires BytesOk(r) && RecEnabled(r, Cut)
    ensures IsPiece(r.input, r.size, Chunk(|r.fates|, r.acc[..r.size]))
  {
    assert (|r.fates| + 1) * r.size == |r.fates| * r.size + r.size;
  }

  lemma QueueAfterCut(r: Recorder)
    requires BytesOk(r) && QueueOk(r) && RecEnabled(r, Cut)
    ensures QueueOk(RecApply(r, Cut))
  {
    var r' := RecApply(r, Cut);
    var chunk := Chunk(|r.fates|, r.acc[..r.size]);
    CutPiece(r);
    forall k | 0 <= k < |r'.fates| ensures r'.fates[k].Queued? <==> Has(r'.queue, k) {
      HasAppended(r.queue, chunk, k);
    }
  }

  lemma QueueAfterTake(r: Recorder, fate: Fate)
    requires QueueOk(r) && RecEnabled(r, Take(fate))
    ensures QueueOk(RecApply(r, Take(fate)))
  {
    var r' := RecApply(r, Take(fate));
    forall k | 0 <= k < |r'.fates| ensures r'.fates[k].Queued? <==> Has(r'.queue, k) {
      HasTail(r.queue, k);
      assert k == r.queue[0].index ==> !Has(r'.queue, k);
    }
  }

  lemma QueuePreserved(r: Recorder, op: RecOp)
    requires BytesOk(r) && QueueOk(r) && RecEnabled(r, op)
    ensures QueueOk(RecApply(r, op))
  {
    match op
    case Read(bytes, err) => QueueAfterRead(r, bytes, err);
    case Cut => QueueAfterCut(r);
    case Take(fate) => QueueAfterTake(r, fate);
    case _ =>
  }

  // ---- Behaviours ---------------------------------------------------------

  ghost predicate RecNext(r: Recorder, r': Recorder) {
    exists op :: RecEnabled(r, op) && r' == RecApply(r, op)
  }

  /** Every state of a recorder's life, in order. */
  ghost predicate RecBehaviour(history: seq<Recorder>) {
    && history != []
    && 0 < history[0].size
    && history[0] == NewRecorder(history[0].size, history[0].cap)
    && forall i :: 0 < i < |history| ==> RecNext(history[i - 1], history[i])
  }

  /** One receive of the Flush loop run for stream handler `who`. */
  ghost predicate Discards(r: Recorder, r': Recorder, who: nat) {
    RecEnabled(r, Take(Flushed(who))) && r' == RecApply(r, Take(Flushed(who)))
  }

  /** From state number `first` on, nothing else happened. */
  ghost predicate Discarded(history: seq<Recorder>, first: nat, who: nat) {
    forall i :: 0 < first <= i < |history| ==> Discards(history[i - 1], history[i], who)
  }

  lemma DiscardedOneMore(history: seq<Recorder>, first: nat, who: nat)
    requires history != [] && Discarded(history, first, who)
    requires RecEnabled(history[|history| - 1], Take(Flushed(who)))
    ensures Discarded(history + [RecApply(history[|history| - 1], Take(Flushed(who)))], first, who)
  {}

  lemma {:induction false} RecorderSafety(history: seq<Recorder>, i: nat)
    requires RecBehaviour(history) && i < |history|
    ensures BytesOk(history[i]) && QueueOk(history[i])
    ensures history[i].size == history[0].size && history[i].cap == history[0].cap
  {
    if i > 0 {
      RecorderSafety(history, i - 1);
      var op :| RecEnabled(history[i - 1], op) && history[i] == RecApply(history[i - 1], op);
      BytesPreserved(history[i - 1], op);
      QueuePreserved(history[i - 1], op);
    }
  }

  lemma BehaviourExtends(history: seq<Recorder>, op: RecOp)
    requires RecBehaviour(history) && RecEnabled(history[|history| - 1], op)
    ensures RecBehaviour(history + [RecApply(history[|history| - 1], op)])
  {
    var r := history[|history| - 1];
    assert RecNext(r, RecApply(r, op));
  }

  lemma NextInBehaviour(history: seq<Recorder>, j: nat)
    requires RecBehaviour(history) && 0 < j < |history|
    ensures RecNext(history[j - 1], history[j]) && 0 < history[j - 1].size
  {
    RecorderSafety(history, j - 1);
  }

  // ---- When a chunk is dropped ----------------------------------------------

  /** Chunk k is cut from r to r', and the channel holds all it can. */
  predicate CutWhileFull(r: Recorder, r': Recorder, k: nat) {
    |r.fates| == k && |r'.fates| == k + 1 && |r.queue| == r.cap
  }

  /** A cut drops its chunk exactly then, and no other step drops one. */
  lemma DropStep(r: Recorder, r': Recorder, k: nat)
    requires RecNext(r, r') && QueueOk(r) && k < |r'.fates|
    ensures k <= |r.fates|
    ensures r'.fates[k] == Dropped <==>
      if k < |r.fates| then r.fates[k] == Dropped else CutWhileFull(r, r', k)
  {
    var op :| RecEnabled(r, op) && r' == RecApply(r, op);
    if op.Take? {
      assert Has(r.queue, r.queue[0].index);
    }
  }

  /** Step j of the history cut chunk k while the channel was full. */
  predicate FullAt(history: seq<Recorder>, j: nat, k: nat) {
    j + 1 < |history| && CutWhileFull(history[j], history[j + 1], k)
  }

  /** And before state i of it. */
  predicate WasFull(history: seq<Recorder>, i: nat, k: nat) {
    exists j: nat :: j < i && FullAt(history, j, k)
  }

  lemma WasFullStep(history: seq<Recorder>, i: nat, k: nat)
    requires i > 0
    ensures WasFull(history, i, k) <==> WasFull(history, i - 1, k) || FullAt(history, i - 1, k)
  {}

  /** A chunk is dropped if and only if the channel was full when it was cut. */
  lemma {:induction false} DroppedExactlyWhenFull(history: seq<Recorder>, i: nat, k: nat)
    requires RecBehaviour(history) && i < |history| && k < |history[i].fates|
    ensures history[i].fates[k] == Dropped <==> WasFull(history, i, k)
  {
    if i > 0 {
      NextInBehaviour(history, i);
      RecorderSafety(history, i - 1);
      DropStep(history[i - 1], history[i], k);
      WasFullStep(history, i, k);
      if k < |history[i - 1].fates| {
        DroppedExactlyWhenFull(history, i - 1, k);
      } else {
        NotCutBefore(history, i - 1, k);
      }
    }
  }

  /** Chunks are cut in order, each once. */
  lemma {:induction false} NotCutBefore(history: seq<Recorder>, i: nat, k: nat)
    requires RecBehaviour(history) && i < |history| && |history[i].fates| <= k
    ensures !WasFull(history, i, k)
  {
    if i > 0 {
      NextInBehaviour(history, i);
      FatesGrow(history[i - 1], history[i]);
      NotCutBefore(history, i - 1, k);
      WasFullStep(history, i, k);
    }
  }

  lemma FatesGrow(r: Recorder, r': Recorder)
    requires RecNext(r, r')
    ensures |r.fates| <= |r'.fates|
  {}

  /** While the channel is never found full, nothing is dropped: every chunk cut
      is in it, was discarded by a flush, or was received. */
  lemma NeverFullNeverDropped(history: seq<Recorder>, i: nat)
    requires RecBehaviour(history) && i < |history|
    requires forall j :: 0 <= j < i ==> |history[j].queue| < history[j].cap
    ensures history[i].dropped == 0 && history[i].sent == |history[i].fates|
    ensures forall k :: 0 <= k < |history[i].fates| ==>
      history[i].fates[k].Flushed? || history[i].fates[k].Received? || Has(history[i].queue, k)
  {
    var fates := history[i].fates;
    RecorderSafety(history, i);
    forall k | 0 <= k < |fates| ensures fates[k] != Dropped {
      DroppedExactlyWhenFull(history, i, k);
    }
    NoneCounted(fates);
  }

  lemma {:induction false} NoneCounted(fates: seq<Fate>)
    requires forall k :: 0 <= k < |fates| ==> fates[k] != Dropped
    ensures CountDropped(fates) == 0
  {
    if fates != [] {
      NoneCounted(fates[..|fates| - 1]);
    }
  }

  // ---- How a pump ends ----------------------------------------------------

  /** An action of the pump itself. */
  predicate PumpActs(r: Recorder, r': Recorder) {
    r'.pump != r.pump || r'.acc != r.acc
  }

  function ActsBetween(history: seq<Recorder>, i: nat, j: nat): nat
    requires i <= j < |history|
  {
    if i == j then 0
    else ActsBetween(history, i, j - 1) + if PumpActs(history[j - 1], history[j]) then 1 else 0
  }

  /** The most actions a pump that is told to stop can still make: the read under
      way, the cuts of what it then holds, and the end. */
  function ActsLeft(r: Recorder): nat {
    match r.pump
    case Reading => 3 + |r.acc| + r.size
    case Cutting(_) => 2 + |r.acc|
    case Polling => 1
    case Ended => 0
  }

  function ReadsLeft(r: Recorder): nat {
    if r.pump.Reading? then 1 else 0
  }

  lemma ToldStep(r: Recorder, r': Recorder)
    requires RecNext(r, r') && Dismissed(r) && 0 < r.size
    ensures Dismissed(r') && r'.size == r.size
    ensures r'.readCount + ReadsLeft(r') <= r.readCount + ReadsLeft(r)
    ensures ActsLeft(r') + (if PumpActs(r, r') then 1 else 0) <= ActsLeft(r)
  {
    var op :| RecEnabled(r, op) && r' == RecApply(r, op);
  }

  /** Once the channel its pump polls is closed or the context cancelled,
      whatever else happens, the pump finishes at most the read already under way, makes no other, and is gone
      after a bounded number of its own actions. */
  lemma {:induction false} StopIsPrompt(history: seq<Recorder>, i: nat, j: nat)
    requires RecBehaviour(history) && i <= j < |history| && Dismissed(history[i])
    ensures Dismissed(history[j])
    ensures history[j].readCount + ReadsLeft(history[j]) <= history[i].readCount + ReadsLeft(history[i])
    ensures ActsBetween(history, i, j) + ActsLeft(history[j]) <= ActsLeft(history[i])
    ensures ActsBetween(history, i, j) == ActsLeft(history[i]) ==> history[j].pump.Ended?
    decreases j
  {
    if i < j {
      StopIsPrompt(history, i, j - 1);
      NextInBehaviour(history, j);
      ToldStep(history[j - 1], history[j]);
    }
  }

  /** A read failed before entry n of the history. */
  predicate FailedBefore(history: seq<Recorder>, n: nat) {
    exists i :: 0 <= i < n <= |history| && history[i].pump == Cutting(true)
  }

  /** A pump ends for no other reason: its channel was closed, its context
      cancelled, or a read failed. */
  lemma {:induction false} EndsForAReason(history: seq<Recorder>, j: nat)
    requires RecBehaviour(history) && j < |history| && history[j].pump.Ended?
    ensures Dismissed(history[j]) || FailedBefore(history, j)
  {
    if j > 0 {
      var r := history[j - 1];
      NextInBehaviour(history, j);
      if r.pump.Ended? {
        EndsForAReason(history, j - 1);
        if Dismissed(r) {
          DismissedStays(r, history[j]);
        } else {
          var i :| 0 <= i < j - 1 <= |history| && history[i].pump == Cutting(true);
        }
      } else {
        EndStep(r, history[j]);
      }
    }
  }

  lemma DismissedStays(r: Recorder, r': Recorder)
    requires RecNext(r, r') && Dismissed(r)
    ensures Dismissed(r')
  {}

  lemma EndStep(r: Recorder, r': Recorder)
    requires RecNext(r, r') && r'.pump.Ended? && !r.pump.Ended?
    ensures Dismissed(r') || r.pump == Cutting(true)
  {}

  /** And after a failed read it makes no other, and is gone once what it has read
      is cut. */
  lemma {:induction false} FailedReadIsLast(history: seq<Recorder>, i: nat, j: nat)
    requires RecBehaviour(history) && i <= j < |history| && history[i].pump == Cutting(true)
    ensures history[j].readCount == history[i].readCount
    ensures history[j].pump == Cutting(true) || history[j].pump == Ended
    decreases j
  {
    if i < j {
      FailedReadIsLast(history, i, j - 1);
      NextInBehaviour(history, j);
      FailedStep(history[j - 1], history[j]);
    }
  }

  lemma FailedStep(r: Recorder, r': Recorder)
    requires RecNext(r, r') && (r.pump == Cutting(true) || r.pump == Ended)
    ensures r'.readCount == r.readCount && (r'.pump == Cutting(true) || r'.pump == Ended)
  {}

  // ---- Start and Stop -----------------------------------------------------

  datatype Call = Start | Stop

  /** The recorder's control fields: whether the stop channel exists and is
      closed, the stopped flag, and whether the pump was spawned. */
  datatype Control = Control(exists_: bool, closed: bool, stopped: bool, spawned: bool)

  const FRESH_CONTROL := Control(false, false, false, false)

  function AfterCall(c: Control, call: Call): Control {
    match call
    case Start => if c.spawned then c else Control(true, false, c.stopped, true)
    case Stop => if c.stopped then c else c.(exists_ := true, closed := true, stopped := true)
  }

  function AfterCalls(calls: seq<Call>): Control {
    if calls == [] then FRESH_CONTROL
    else AfterCall(AfterCalls(calls[..|calls| - 1]), calls[|calls| - 1])
  }

  /** The first call is a Start, and a Stop comes later. */
  predicate StartedBeforeStop(calls: seq<Call>) {
    calls != [] && calls[0] == Start && Stop in calls
  }

  /** Stop reaches the pump exactly when the first Stop comes after a Start: an
      earlier one closes a channel that Start then replaces, and no later one
      closes the replacement. */
  lemma {:induction false} StopEndsThePump(calls: seq<Call>)
    ensures AfterCalls(calls).spawned <==> Start in calls
    ensures AfterCalls(calls).stopped <==> Stop in calls
    ensures AfterCalls(calls).spawned && AfterCalls(calls).closed <==> StartedBeforeStop(calls)
  {
    if calls != [] {
      var init, call := calls[..|calls| - 1], calls[|calls| - 1];
      StopEndsThePump(init);
      ClosedMeansStopped(init);
      OneMoreCall(init, call);
      assert calls == init + [call];
    }
  }

  lemma OneMoreCall(init: seq<Call>, call: Call)
    ensures Start in init + [call] <==> Start in init || call == Start
    ensures Stop in init + [call] <==> Stop in init || call == Stop
    ensures StartedBeforeStop(init + [call]) <==>
      StartedBeforeStop(init) || (call == Stop && Start in init && Stop !in init)
  {
    assert (init + [call])[|init|] == call;
    if call == Stop && Start in init && Stop !in init {
      assert (init + [call])[0] == init[0];
    }
  }

  lemma {:induction false} ClosedMeansStopped(calls: seq<Call>)
    ensures AfterCalls(calls).closed ==> AfterCalls(calls).stopped
    ensures AfterCalls(calls).stopped && !AfterCalls(calls).spawned ==> AfterCalls(calls).closed
  {
    if calls != [] {
      ClosedMeansStopped(calls[..|calls| - 1]);
    }
  }

  // ---- The recorder's code ------------------------------------------------

  /** A channel that is only ever closed; closing it twice panics. */
  class Signal {
    var closed: bool

    constructor ()
      ensures !closed
    {
      closed := false;
    }

    method Close()
      requires !closed
      modifies this
      ensures closed
    {
      closed := true;
    }
  }

  /** The buffered chunk channel. */
  class ChunkChannel {
    const cap: nat
    var buffer: seq<Chunk>

    constructor (cap: nat)
      ensures this.cap == cap && buffer == []
    {
      this.cap := cap;
      buffer := [];
    }
  }

  const DEFAULT_CHUNK_SIZE: nat := 4096
  const DEFAULT_BUFFER_LEN: nat := 256

  /** Nothing happened to the pump. */
  predicate SameWork(r: Recorder, r': Recorder) {
    r'.pump == r.pump && r'.acc == r.acc && r'.readCount == r.readCount
  }

  class PulseRecorder {
    const chunkSize: nat
    const bufferLen: nat

    var chunksSent: nat
    var dropped: nat
    var chunkCh: ChunkChannel?
    var stop: Signal?
    var done: Signal?
    var stopped: bool
    var started: bool // sync.Once has fired
    var cancelled: bool // the context that Start is given

    /** The states this recorder went through, and the calls made, so far. */
    ghost var history: seq<Recorder>
    ghost var calls: seq<Call>

    ghost function View(): Recorder
      requires history != []
      reads this
    {
      history[|history| - 1]
    }

    ghost function Controls(): Control
      reads this, stop
    {
      Control(stop != null, stop != null && stop.closed, stopped, started)
    }

    ghost predicate Valid()
      reads this, chunkCh, stop, done
    {
      Shown() && Controls() == AfterCalls(calls)
    }

    /** The fields show the last state of a behaviour of the step relation. */
    ghost predicate Shown()
      reads this, chunkCh, stop, done
    {
      && RecBehaviour(history)
      && View().size == chunkSize && View().cap == bufferLen
      && View().sent == chunksSent && View().dropped == dropped
      && View().queue == (if chunkCh == null then [] else chunkCh.buffer)
      && (chunkCh != null ==> chunkCh.cap == bufferLen)
      && (stop != null ==> stop != done)
      && (started ==> chunkCh != null && stop != null && done != null)
      && (started ==> (done.closed <==> View().pump.Ended?))
      && (started ==> (stop.closed <==> View().told))
      && View().cancelled == cancelled
      && (!started ==> View() == NewRecorder(chunkSize, bufferLen).(cancelled := cancelled))
      && (stop != null && stop.closed ==> stopped)
      && (stopped ==> stop != null)
      && 0 < chunkSize
    }

    constructor (chunkSize: int, bufferLen: int)
      ensures Valid() && calls == [] && !cancelled
      ensures this.chunkSize == if chunkSize > 0 then chunkSize else 4096
      ensures this.bufferLen == if bufferLen > 0 then bufferLen else 256
    {
      this.chunkSize := if chunkSize > 0 then chunkSize else DEFAULT_CHUNK_SIZE;
      this.bufferLen := if bufferLen > 0 then bufferLen else DEFAULT_BUFFER_LEN;
      chunksSent, dropped, chunkCh, stop, done, stopped, started := 0, 0, null, null, null, false, false;
      calls, cancelled := [], false;
      history := [NewRecorder(
        if chunkSize > 0 then chunkSize else DEFAULT_CHUNK_SIZE,
        if bufferLen > 0 then bufferLen else DEFAULT_BUFFER_LEN)];
    }

    /** Returns the one channel, creating it on first use. */
    method Chunks() returns (ch: ChunkChannel)
      requires Valid()
      modifies this`chunkCh
      ensures Valid() && ch == chunkCh && (old(chunkCh) == null || ch == old(chunkCh))
    {
      if chunkCh == null {
        chunkCh := new ChunkChannel(bufferLen);
      }
      return chunkCh;
    }

    /** Spawns the pump on the first call only. */
    method Start() returns (spawn: bool)
      requires Valid()
      modifies this
      ensures Valid() && started && spawn == !old(started)
      ensures calls == old(calls) + [Call.Start] && history == old(history)
      ensures old(started) ==> stop == old(stop) && done == old(done) && chunkCh == old(chunkCh)
      ensures cancelled == old(cancelled)
    {
      var ch := Chunks();
      spawn := !started;
      if spawn {
        Spawn();
      }
      Called(Call.Start);
    }

    method Spawn()
      requires Shown() && !started && chunkCh != null
      modifies this`started, this`stop, this`done
      ensures Shown() && started && Controls() == AfterCall(old(Controls()), Call.Start)
    {
      started := true;
      stop := new Signal();
      done := new Signal();
    }

    /** Closes the stop channel at most once, before or after Start. The pump, if
        there is one, is told exactly when this call closed its channel. */
    method Stop()
      requires Valid()
      modifies this`stop, this`stopped, this`calls, this`history, stop
      ensures Valid() && stopped && calls == old(calls) + [Call.Stop]
      ensures history ==
        if old(started && !stopped) then old(history) + [RecApply(old(View()), Tell)] else old(history)
      ensures old(stop) != null ==> stop == old(stop)
    {
      Called(Call.Stop);
      if stop == null {
        stop := new Signal();
      }
      if !stopped {
        CloseStop();
      }
    }

    method CloseStop()
      requires Shown() && stop != null && !stop.closed && !stopped
      modifies this`stopped, this`history, stop
      ensures Shown() && stopped && stop.closed
      ensures history == if started then old(history) + [RecApply(old(View()), Tell)] else old(history)
    {
      stop.Close();
      stopped := true;
      if started {
        Did(Tell);
      }
    }

    ghost method Called(call: Call)
      modifies this`calls
      ensures calls == old(calls) + [call] && AfterCalls(calls) == AfterCall(AfterCalls(old(calls)), call)
    {
      calls := calls + [call];
      assert calls[..|calls| - 1] == old(calls);
    }

    /** The context is cancelled. */
    method Cancel()
      requires Valid()
      modifies this`cancelled, this`history
      ensures Valid() && cancelled
      ensures history == if old(cancelled) then old(history) else old(history) + [RecApply(old(View()), RecOp.Cancel)]
    {
      if !cancelled {
        cancelled := true;
        Did(RecOp.Cancel);
      }
    }

    /** The pump's channel is closed exactly when the first call was a Start and a
        Stop has followed; it polls on exactly while neither this nor cancellation
        has happened. */
    lemma ToldExactly()
      requires Valid()
      ensures View().told <==> StartedBeforeStop(calls)
      ensures View().pump.Polling? ==> (RecEnabled(View(), Poll) <==> !StartedBeforeStop(calls) && !cancelled)
      ensures View().pump.Polling? ==> (RecEnabled(View(), Halt) <==> StartedBeforeStop(calls) || cancelled)
    {
      StopEndsThePump(calls);
    }

    /** Records one atomic action in the history. */
    ghost method Did(op: RecOp)
      requires RecBehaviour(history) && RecEnabled(View(), op)
      modifies this`history
      ensures RecBehaviour(history) && history == old(history) + [RecApply(old(View()), op)]
    {
      BehaviourExtends(history, op);
      history := history + [RecApply(View(), op)];
    }

    /** One receive from the non-empty channel. */
    method Receive(ghost fate: Fate) returns (chunk: Chunk)
      requires Valid() && chunkCh != null && chunkCh.buffer != []
      requires fate.Flushed? || fate.Received?
      modifies this`history, chunkCh
      ensures Valid() && chunk == old(chunkCh.buffer[0]) && chunkCh.buffer == old(chunkCh.buffer[1..])
      ensures history == old(history) + [RecApply(old(View()), Take(fate))]
    {
      chunk := chunkCh.buffer[0];
      chunkCh.buffer := chunkCh.buffer[1..];
      Did(Take(fate));
    }

    /** Any consumers run: they only ever take chunks out. */
    method Consumers()
      requires Valid() && chunkCh != null
      modifies this`history, chunkCh
      ensures Valid() && old(history) <= history
      ensures SameWork(old(View()), View()) && View().told == old(View().told)
    {
      var takes: nat :| takes <= |chunkCh.buffer|;
      var i := 0;
      while i < takes
        invariant Valid() && i <= takes && takes - i <= |chunkCh.buffer|
        invariant old(history) <= history
        invariant SameWork(old(View()), View()) && View().told == old(View().told)
      {
        assert Fate.Flushed(0).Flushed?;
        ghost var fate: Fate :| fate.Flushed? || fate.Received?;
        var _ := Receive(fate);
        i := i + 1;
      }
    }

    /** Anybody else runs: consumers, callers of Stop, whoever cancels. */
    method Meanwhile()
      requires Valid() && started
      modifies this`stop, this`stopped, this`cancelled, this`calls, this`history, stop, chunkCh
      ensures Valid() && old(history) <= history && stop == old(stop)
      ensures SameWork(old(View()), View())
      ensures (old(stop.closed) ==> stop.closed) && (old(cancelled) ==> cancelled)
    {
      Consumers();
      MayStop();
      MayCancel();
    }

    method MayStop()
      requires Valid() && started
      modifies this`stop, this`stopped, this`calls, this`history, stop
      ensures Valid() && old(history) <= history && stop == old(stop)
      ensures SameWork(old(View()), View()) && (old(stop.closed) ==> stop.closed)
    {
      var stops: bool := *;
      if stops {
        Stop();
      }
    }

    method MayCancel()
      requires Valid()
      modifies this`cancelled, this`history
      ensures Valid() && old(history) <= history
      ensures SameWork(old(View()), View()) && (old(cancelled) ==> cancelled)
    {
      var cancels: bool := *;
      if cancels {
        Cancel();
      }
    }

    /** Discards everything buffered, oldest first, for stream handler `who`. */
    method Flush(ghost who: nat)
      requires Valid()
      modifies this`history, chunkCh
      ensures Valid() && old(history) <= history
      ensures chunkCh != null ==> chunkCh.buffer == []
      ensures |history| == |old(history)| + |old(View()).queue|
      ensures Discarded(history, |old(history)|, who)
    {
      if chunkCh == null {
        return;
      }
      while chunkCh.buffer != []
        invariant Valid() && old(history) <= history
        invariant |history| + |chunkCh.buffer| == |old(history)| + |old(View()).queue|
        invariant Discarded(history, |old(history)|, who)
        decreases |chunkCh.buffer|
      {
        DiscardedOneMore(history, |old(history)|, who);
        var _ := Receive(Flushed(who));
      }
    }

    /** What Source.Read may return for a buffer of n bytes. */
    method ReadSource(n: nat) returns (bytes: seq<Byte>, err: bool)
      ensures |bytes| <= n
    {
      bytes :| |bytes| <= n;
      err := *;
    }

    /** The pump goroutine, watched for up to `rounds` reads while others run at
        any point and may stop it. It ends on cancellation, stop or a read error and
        for no other reason, having offered every whole chunk it read; until then
        every round reads. */
    method Pump(rounds: nat)
      requires Valid() && started && View().pump.Polling? && View().acc == []
      modifies this`stop, this`stopped, this`cancelled, this`calls, this`history, stop
      modifies this`chunksSent, this`dropped, chunkCh, done
      ensures Valid() && old(history) <= history && stop == old(stop)
      ensures View().pump.Ended? || (View().pump.Polling? && View().readCount == old(View().readCount) + rounds)
      ensures View().pump.Ended? ==> stop.closed || cancelled || FailedBefore(history, |history| - 1)
      ensures old(stop.closed || cancelled) && rounds > 0 ==>
        View().pump.Ended? && View().readCount == old(View().readCount)
    {
      var acc: seq<Byte> := [];
      var left := rounds;
      while left > 0
        invariant Valid() && old(history) <= history && stop == old(stop)
        invariant View().pump.Polling? && View().acc == acc
        invariant 0 <= left <= rounds && View().readCount == old(View().readCount) + rounds - left
        invariant old(stop.closed || cancelled) ==> left == rounds && (stop.closed || cancelled)
      {
        left := left - 1;
        acc := Round(acc);
        if done.closed {
          EndsForAReason(history, |history| - 1);
          return;
        }
      }
    }

    /** One round of the loop: the poll, and unless it ends the pump, a read. */
    method Round(acc: seq<Byte>) returns (rest: seq<Byte>)
      requires Valid() && started && View().pump.Polling? && View().acc == acc
      modifies this`stop, this`stopped, this`cancelled, this`calls, this`history, stop
      modifies this`chunksSent, this`dropped, chunkCh, done
      ensures Valid() && old(history) <= history && stop == old(stop)
      ensures View().pump.Ended? ||
        (View().pump.Polling? && View().acc == rest && View().readCount == old(View()).readCount + 1)
      ensures old(stop.closed || cancelled) ==> View().pump.Ended? && View().readCount == old(View()).readCount
    {
      rest := acc;
      Meanwhile();
      if cancelled || stop.closed {
        Did(Halt);
        done.Close();
        return;
      }
      Did(Poll);
      rest := ReadChunks(acc);
    }

    /** One read, and the chunks it completes. */
    method ReadChunks(acc: seq<Byte>) returns (rest: seq<Byte>)
      requires Valid() && started && View().pump.Reading? && View().acc == acc
      modifies this`stop, this`stopped, this`cancelled, this`calls, this`history, stop
      modifies this`chunksSent, this`dropped, chunkCh, done
      ensures Valid() && old(history) <= history && stop == old(stop)
      ensures View().pump.Ended? || View().pump.Polling?
      ensures View().acc == rest && View().readCount == old(View().readCount) + 1
    {
      var bytes, err := ReadSource(chunkSize);
      Meanwhile();
      Did(Read(bytes, err));
      rest := Offer(acc + bytes);
      Finish(err);
    }

    /** All that was read is cut; after a read error the pump ends. */
    method Finish(err: bool)
      requires Valid() && started && View().pump == Cutting(err) && |View().acc| < chunkSize
      modifies this`history, done
      ensures Valid() && history == old(history) + [RecApply(old(View()), Settle)]
    {
      Did(Settle);
      if err {
        done.Close();
      }
    }

    /** Cuts and offers whole chunks while the accumulator holds one. */
    method Offer(acc: seq<Byte>) returns (rest: seq<Byte>)
      requires Valid() && started && View().pump.Cutting? && View().acc == acc
      modifies this`stop, this`stopped, this`cancelled, this`calls, this`history, stop
      modifies this`chunksSent, this`dropped, chunkCh
      ensures Valid() && old(history) <= history && stop == old(stop)
      ensures View().pump == old(View().pump) && View().acc == rest && |rest| < chunkSize
      ensures View().readCount == old(View().readCount)
    {
      rest := acc;
      while |rest| >= chunkSize
        invariant Valid() && old(history) <= history && stop == old(stop)
        invariant View().pump == old(View().pump) && View().acc == rest && View().readCount == old(View().readCount)
        decreases |rest|
      {
        Meanwhile();
        OfferOne(rest[..chunkSize]);
        rest := rest[chunkSize..];
      }
    }

    /** Queues a chunk if there is room, and counts it as sent or dropped. */
    method OfferOne(chunk: seq<Byte>)
      requires Valid() && started && View().pump.Cutting? && |View().acc| >= chunkSize
      requires chunk == View().acc[..chunkSize]
      modifies this`history, this`chunksSent, this`dropped, chunkCh
      ensures Valid() && history == old(history) + [RecApply(old(View()), Cut)]
    {
      assert chunksSent + dropped == |View().fates| by {
        RecorderSafety(history, |history| - 1);
      }
      if |chunkCh.buffer| < chunkCh.cap {
        chunkCh.buffer := chunkCh.buffer + [Chunk(chunksSent + dropped, chunk)];
        chunksSent := chunksSent + 1;
      } else {
        dropped := dropped + 1;
      }
      Did(Cut);
    }
  }
}
