/** What the audio path promises in every reachable state of every
    interleaving. */
module AudioGuarantees {
  import opened Bytes
  import opened Batching
  import opened Recording
  import opened AudioPath
  import opened Wrappers

  ghost predicate Reachable(s: System) {
    exists run :: Behaviour(run) && run[|run| - 1] == s
  }

  lemma ReachableIsSafe(s: System)
    requires Reachable(s)
    ensures Safe(s)
  {
    var run :| Behaviour(run) && run[|run| - 1] == s;
    SystemSafety(run, |run| - 1);
  }

  lemma SlotIsSafe(s: System)
    requires Reachable(s)
    ensures SlotOk(s)
  {
    ReachableIsSafe(s);
  }

  lemma RecorderIsSafe(s: System, r: nat)
    requires Reachable(s) && r < |s.recs|
    ensures BytesOk(s.recs[r]) && QueueOk(s.recs[r]) && NoStrangers(s.recs[r].fates, s.hs, r)
  {
    ReachableIsSafe(s);
  }

  lemma HandlerIsSafe(s: System, h: nat)
    requires Reachable(s) && h < |s.hs|
    ensures s.hs[h].src < |s.recs| && LinkOk(s.recs[s.hs[h].src], h, s.hs[h]) && PayloadOk(s.hs[h])
  {
    ReachableIsSafe(s);
  }

  // ---- Hot swap ---------------------------------------------------------------

  predicate Live(x: Handler) {
    Registered(x) && !x.phase.Gone? && !x.cancelled
  }

  /** At most one handler streams uncancelled, it is the newest, and it owns the
      slot; every older one is cancelled or gone; and the slot is empty exactly
      when the newest handler has cleaned up. */
  lemma HotSwap(s: System)
    requires Reachable(s)
    ensures forall g, h :: 0 <= g < |s.hs| && 0 <= h < |s.hs| && Live(s.hs[g]) && Live(s.hs[h]) ==> g == h
    ensures forall h :: 0 <= h < |s.hs| && Live(s.hs[h]) ==> s.owner == Some(h) && s.hs[h].id == s.streamID
    ensures forall h :: 0 <= h < |s.hs| && Registered(s.hs[h]) && s.hs[h].id < s.streamID ==>
      s.hs[h].cancelled || s.hs[h].phase.Gone?
    ensures forall g, h :: 0 <= g < h < |s.hs| && Registered(s.hs[g]) && Registered(s.hs[h]) ==>
      s.hs[g].id != s.hs[h].id
    ensures forall h :: 0 <= h < |s.hs| && Registered(s.hs[h]) && s.hs[h].id == s.streamID ==>
      (s.owner == None <==> s.hs[h].phase.Gone?)
  {
    SlotIsSafe(s);
  }

  /** A handler gets an id above every id given out before. */
  lemma IdsIncrease(s: System, s': System, h: nat)
    requires Reachable(s) && Next(s, s')
    requires h < |s.hs| && !Registered(s.hs[h]) && h < |s'.hs| && Registered(s'.hs[h])
    ensures forall g :: 0 <= g < |s.hs| ==> s.hs[g].id < s'.hs[h].id
    ensures s'.owner == Some(h) && s'.streamID == s'.hs[h].id
  {
    SlotIsSafe(s);
    var l :| Enabled(s, l) && s' == Apply(s, l);
    OnlyRegisterRegisters(s, l, h);
  }

  lemma OnlyRegisterRegisters(s: System, l: Label, h: nat)
    requires Enabled(s, l) && h < |s.hs| && !Registered(s.hs[h])
    requires h < |Apply(s, l).hs| && Registered(Apply(s, l).hs[h])
    ensures l == Register(h)
  {}

  /** A handler's context is cancelled only by its client, by the handler that
      takes the slot from it, or by its own end. */
  lemma CancelledBy(s: System, l: Label, h: nat)
    requires Enabled(s, l) && h < |s.hs|
    ensures h < |Apply(s, l).hs|
    ensures Apply(s, l).hs[h].cancelled <==>
      s.hs[h].cancelled || l == Disconnect(h) || (l.Register? && s.owner == Some(h)) || l == Cleanup(h)
  {
    HandlersStay(s, l);
  }

  /** A stream ends only after its context was cancelled. */
  lemma {:induction false} EndsOnlyCancelled(run: seq<System>, i: nat, h: nat)
    requires Behaviour(run) && i < |run| && h < |run[i].hs| && Ending(run[i].hs[h])
    ensures run[i].hs[h].cancelled
  {
    if i > 0 {
      assert Next(run[i - 1], run[i]);
      var l :| Enabled(run[i - 1], l) && run[i] == Apply(run[i - 1], l);
      if h < |run[i - 1].hs| && Ending(run[i - 1].hs[h]) {
        EndsOnlyCancelled(run, i - 1, h);
      }
      EndStep(run[i - 1], l, h);
    }
  }

  lemma EndStep(s: System, l: Label, h: nat)
    requires Enabled(s, l) && h < |Apply(s, l).hs| && Ending(Apply(s, l).hs[h])
    requires h < |s.hs| && Ending(s.hs[h]) ==> s.hs[h].cancelled
    ensures Apply(s, l).hs[h].cancelled
  {}

  // ---- The chunk ledger ---------------------------------------------------------

  /** A recorder's bytes and chunks all add up, whatever its consumers do. */
  lemma ByteLedger(s: System, r: nat)
    requires Reachable(s) && r < |s.recs|
    ensures
      var x := s.recs[r];
      var cut := x.sent + x.dropped;
      && |x.input| == cut * x.size + |x.acc|
      && x.acc == x.input[cut * x.size..]
      && (!x.pump.Cutting? ==> |x.acc| < x.size)
      && |x.queue| <= x.cap
      && x.dropped == CountDropped(x.fates)
  {
    RecorderIsSafe(s, r);
  }

  predicate HeldBy(s: System, r: nat, k: nat, h: nat) {
    h < |s.hs| && s.hs[h].src == r && Has(s.hs[h].received, k)
  }

  lemma HeldMeansReceived(s: System, r: nat, k: nat, h: nat)
    requires Reachable(s) && r < |s.recs| && k < |s.recs[r].fates|
    ensures HeldBy(s, r, k, h) <==> s.recs[r].fates[k] == Received(h)
  {
    if s.recs[r].fates[k] == Received(h) {
      RecorderIsSafe(s, r);
      assert Takes(s.recs[r].fates[k], h);
    }
    if h < |s.hs| {
      HandlerIsSafe(s, h);
    }
  }

  /** A chunk's whereabouts are its recorded fate: queued chunks are in the
      queue and nowhere else, a received one is with its receiver and nobody
      else, dropped and flushed ones are nowhere. So every chunk ever cut is in
      exactly one place, and no list holds it twice. */
  lemma ChunkLedger(s: System, r: nat, k: nat)
    requires Reachable(s) && r < |s.recs| && k < |s.recs[r].fates|
    ensures
      var x := s.recs[r];
      match x.fates[k]
      case Queued => Has(x.queue, k) && forall h :: !HeldBy(s, r, k, h)
      case Received(g) => !Has(x.queue, k) && forall h :: HeldBy(s, r, k, h) <==> h == g
      case _ => !Has(x.queue, k) && forall h :: !HeldBy(s, r, k, h)
    ensures Increasing(s.recs[r].queue)
    ensures forall h :: 0 <= h < |s.hs| ==> Increasing(s.hs[h].received)
  {
    RecorderIsSafe(s, r);
    forall h: nat ensures HeldBy(s, r, k, h) <==> s.recs[r].fates[k] == Received(h) {
      HeldMeansReceived(s, r, k, h);
    }
    forall h | 0 <= h < |s.hs| ensures Increasing(s.hs[h].received) {
      HandlerIsSafe(s, h);
    }
  }

  /** Step j of the run cut chunk k of recorder r while its channel was full. */
  predicate FoundFull(run: seq<System>, j: nat, r: nat, k: nat) {
    && j + 1 < |run| && r < |run[j].recs| && r < |run[j + 1].recs|
    && CutWhileFull(run[j].recs[r], run[j + 1].recs[r], k)
  }

  predicate WasFoundFull(run: seq<System>, i: nat, r: nat, k: nat) {
    exists j: nat :: j < i && FoundFull(run, j, r, k)
  }

  lemma FoundFullStep(run: seq<System>, i: nat, r: nat, k: nat)
    requires i > 0
    ensures WasFoundFull(run, i, r, k) <==> WasFoundFull(run, i - 1, r, k) || FoundFull(run, i - 1, r, k)
  {}

  /** A recorder takes a step of its own, or none. */
  predicate RecorderStays(s: System, s': System, r: nat) {
    r < |s.recs| <= |s'.recs| && s'.recs[r] == s.recs[r]
  }

  lemma RecorderMoves(s: System, l: Label, r: nat)
    requires Enabled(s, l) && r < |Apply(s, l).recs|
    ensures |s.recs| <= |Apply(s, l).recs|
    ensures if r < |s.recs| then RecorderStays(s, Apply(s, l), r) || RecNext(s.recs[r], Apply(s, l).recs[r])
      else Apply(s, l).recs[r].fates == []
  {
    if l.Pump? && l.r == r {
      assert RecNext(s.recs[r], RecApply(s.recs[r], l.op));
    } else if l.FlushTake? && s.hs[l.h].src == r {
      assert RecNext(s.recs[r], RecApply(s.recs[r], Take(Fate.Flushed(l.h))));
    } else if l.Recv? && s.hs[l.h].src == r {
      assert RecNext(s.recs[r], RecApply(s.recs[r], Take(Received(l.h))));
    }
  }

  lemma RecorderNext(s: System, s': System, r: nat)
    requires Next(s, s') && r < |s'.recs|
    ensures |s.recs| <= |s'.recs|
    ensures if r < |s.recs| then RecorderStays(s, s', r) || RecNext(s.recs[r], s'.recs[r]) else s'.recs[r].fates == []
  {
    var l :| Enabled(s, l) && s' == Apply(s, l);
    RecorderMoves(s, l, r);
  }

  /** In every interleaving a chunk is dropped if and only if its recorder's
      channel was full at the moment it was cut. */
  lemma {:induction false} DroppedOnlyWhenFull(run: seq<System>, i: nat, r: nat, k: nat)
    requires Behaviour(run) && i < |run| && r < |run[i].recs| && k < |run[i].recs[r].fates|
    ensures run[i].recs[r].fates[k] == Dropped <==> WasFoundFull(run, i, r, k)
    decreases i
  {
    if i > 0 {
      RecorderAt(run, i, r);
      FoundFullStep(run, i, r, k);
      DropMove(run[i - 1].recs[r], run[i].recs[r], k);
      if k < |run[i - 1].recs[r].fates| {
        DroppedOnlyWhenFull(run, i - 1, r, k);
      } else {
        CutNotBefore(run, i - 1, r, k);
      }
    }
  }

  lemma DropMove(r: Recorder, r': Recorder, k: nat)
    requires QueueOk(r) && (r' == r || RecNext(r, r')) && k < |r'.fates|
    ensures k <= |r.fates|
    ensures r'.fates[k] == Dropped <==>
      if k < |r.fates| then r.fates[k] == Dropped else CutWhileFull(r, r', k)
    ensures k < |r.fates| ==> !CutWhileFull(r, r', k)
  {
    if r' != r {
      DropStep(r, r', k);
    }
  }

  /** A recorder that has cut something was there before, and in order. */
  lemma RecorderAt(run: seq<System>, i: nat, r: nat)
    requires Behaviour(run) && 0 < i < |run| && r < |run[i].recs| && run[i].recs[r].fates != []
    ensures r < |run[i - 1].recs| && QueueOk(run[i - 1].recs[r])
    ensures run[i].recs[r] == run[i - 1].recs[r] || RecNext(run[i - 1].recs[r], run[i].recs[r])
  {
    assert Next(run[i - 1], run[i]);
    RecorderNext(run[i - 1], run[i], r);
    PrefixReachable(run, i - 1);
    RecorderIsSafe(run[i - 1], r);
  }

  lemma {:induction false} CutNotBefore(run: seq<System>, i: nat, r: nat, k: nat)
    requires Behaviour(run) && i < |run| && r < |run[i].recs| && |run[i].recs[r].fates| <= k
    ensures !WasFoundFull(run, i, r, k)
  {
    if i > 0 {
      assert Next(run[i - 1], run[i]);
      RecorderNext(run[i - 1], run[i], r);
      FoundFullStep(run, i, r, k);
      if r < |run[i - 1].recs| {
        FewerBefore(run[i - 1], run[i], r);
        CutNotBefore(run, i - 1, r, k);
      } else {
        NoRecorderBefore(run, i - 1, r);
      }
    }
  }

  lemma FewerBefore(s: System, s': System, r: nat)
    requires r < |s.recs| <= |s'.recs| && (RecorderStays(s, s', r) || RecNext(s.recs[r], s'.recs[r]))
    ensures |s.recs[r].fates| <= |s'.recs[r].fates|
  {
    if !RecorderStays(s, s', r) {
      FatesGrow(s.recs[r], s'.recs[r]);
    }
  }

  lemma {:induction false} NoRecorderBefore(run: seq<System>, i: nat, r: nat)
    requires Behaviour(run) && i < |run| && |run[i].recs| <= r
    ensures forall j: nat :: j <= i ==> |run[j].recs| <= r
  {
    if i > 0 {
      assert Next(run[i - 1], run[i]);
      RecordersStay(run[i - 1], run[i]);
      NoRecorderBefore(run, i - 1, r);
    }
  }

  lemma RecordersStay(s: System, s': System)
    requires Next(s, s')
    ensures |s.recs| <= |s'.recs|
  {}

  // ---- The live edge ------------------------------------------------------------

  lemma {:induction false} HandlerPersists(run: seq<System>, i: nat, j: nat, h: nat)
    requires Behaviour(run) && i <= j < |run| && h < |run[i].hs|
    ensures h < |run[j].hs| && run[j].hs[h].src == run[i].hs[h].src
    ensures !Flushes(run[i].hs[h]) ==> !Flushes(run[j].hs[h]) && run[j].hs[h].edge == run[i].hs[h].edge
    decreases j
  {
    if i < j {
      HandlerPersists(run, i, j - 1, h);
      var s := run[j - 1];
      var l :| Enabled(s, l) && run[j] == Apply(s, l);
      EdgeFixed(s, l, h);
    }
  }

  lemma EdgeFixed(s: System, l: Label, h: nat)
    requires Enabled(s, l) && h < |s.hs|
    ensures h < |Apply(s, l).hs| && Apply(s, l).hs[h].src == s.hs[h].src
    ensures !Flushes(s.hs[h]) ==> !Flushes(Apply(s, l).hs[h]) && Apply(s, l).hs[h].edge == s.hs[h].edge
  {
    HandlersStay(s, l);
    if Quiet(l) { QuietLabels(s, l, h); }
  }

  /** From the moment a handler's flush finds the queue empty, everything it
      ever takes was cut after that moment, whatever the pump and the other
      handlers do. */
  lemma LiveEdge(run: seq<System>, i: nat, j: nat, h: nat, n: nat)
    requires Behaviour(run) && i + 1 <= j < |run|
    requires h < |run[i].hs| && run[i].hs[h].phase.Flushing?
    requires h < |run[i + 1].hs| && run[i + 1].hs[h].phase.Ready?
    requires h < |run[j].hs| && n < |run[j].hs[h].received|
    ensures run[i].hs[h].src < |run[i].recs|
    ensures run[i].recs[run[i].hs[h].src].queue == []
    ensures run[j].hs[h].received[n].index >= |run[i].recs[run[i].hs[h].src].fates|
  {
    PrefixReachable(run, i);
    PrefixReachable(run, j);
    HandlerIsSafe(run[i], h);
    HandlerIsSafe(run[j], h);
    assert Next(run[i], run[i + 1]);
    var l :| Enabled(run[i], l) && run[i + 1] == Apply(run[i], l);
    FlushEndsOnlyEmpty(run[i], l, h);
    HandlerPersists(run, i + 1, j, h);
  }

  lemma PrefixReachable(run: seq<System>, i: nat)
    requires Behaviour(run) && i < |run|
    ensures Reachable(run[i])
  {
    var prefix := run[..i + 1];
    assert Behaviour(prefix) && prefix[|prefix| - 1] == run[i];
  }

  lemma FlushEndsOnlyEmpty(s: System, l: Label, h: nat)
    requires Enabled(s, l) && h < |s.hs| && s.hs[h].src < |s.recs|
    requires s.hs[h].phase.Flushing? && h < |Apply(s, l).hs| && Apply(s, l).hs[h].phase.Ready?
    ensures l == FlushDone(h)
    ensures s.recs[s.hs[h].src].queue == []
    ensures Apply(s, l).hs[h].edge == |s.recs[s.hs[h].src].fates|
  {
    if Quiet(l) { QuietLabels(s, l, h); }
  }

  // ---- Stereo alignment ---------------------------------------------------------

  lemma {:induction false} ConcatEqualSized(parts: seq<seq<Byte>>, size: nat)
    requires forall j :: 0 <= j < |parts| ==> |parts[j]| == size
    ensures |Concat(parts)| == |parts| * size
  {
    if parts != [] {
      ConcatEqualSized(parts[..|parts| - 1], size);
      assert |parts| * size == (|parts| - 1) * size + size;
    }
  }

  lemma {:induction false} ConcatAt(parts: seq<seq<Byte>>, size: nat, i: nat)
    requires 0 < size && forall j :: 0 <= j < |parts| ==> |parts[j]| == size
    requires i < |Concat(parts)|
    ensures i / size < |parts| && Concat(parts)[i] == parts[i / size][i % size]
  {
    var n := |parts| - 1;
    ConcatEqualSized(parts[..n], size);
    ConcatEqualSized(parts, size);
    assert |parts| * size == n * size + size;
    if i < n * size {
      ConcatAt(parts[..n], size, i);
    } else {
      DivisionOfBlock(n, size, i);
    }
  }

  lemma DivisionOfBlock(n: nat, size: nat, i: nat)
    requires 0 < size && n * size <= i < n * size + size
    ensures i / size == n && i % size == i - n * size
  {
    var d := i / size - n;
    assert i / size * size + i % size == i;
    assert d * size == i / size * size - n * size;
    assert d >= 1 ==> d * size >= size;
    assert d <= -1 ==> d * size + size <= 0;
  }

  /** In block k of the input, the place of byte i of a payload of such blocks. */
  function InBlock(k: nat, size: nat, i: nat): nat
    requires 0 < size
  {
    k * size + i % size
  }

  /** The same byte of a frame: left or right, low or high. */
  predicate SamePlace(a: nat, b: nat) {
    a % 4 == b % 4
  }

  /** Blocks of whole frames keep a byte in its place in the frame. */
  lemma ChannelKept(k: nat, size: nat, i: nat)
    requires 0 < size && size % 4 == 0
    ensures SamePlace(InBlock(k, size, i), i)
  {
    var block, rest := BlockAndRest(i, size);
    WholeFrames(k, size, rest);
    WholeFrames(block, size, rest);
  }

  lemma BlockAndRest(i: nat, size: nat) returns (block: nat, rest: nat)
    requires 0 < size
    ensures i == block * size + rest && rest == i % size
  {
    block, rest := i / size, i % size;
  }

  lemma WholeFrames(k: nat, size: nat, r: nat)
    requires size % 4 == 0
    ensures SamePlace(k * size + r, r)
  {
    FramesBefore(k, size / 4, r);
  }

  lemma FramesBefore(k: nat, frames: nat, r: nat)
    ensures SamePlace(k * (4 * frames) + r, r)
  {
    MultipleOfFour(k, frames);
    AddFours(k * frames, r);
  }

  lemma MultipleOfFour(k: nat, q: nat)
    ensures k * (4 * q) == 4 * (k * q)
  {}

  lemma AddFours(n: nat, r: nat)
    ensures (4 * n + r) % 4 == r % 4
  {}

  /** The place in the recorder's input of byte i of a handler's payload. */
  function SourceOffset(x: Handler, size: nat, i: nat): nat
    requires 0 < size && i / size < |x.received|
  {
    InBlock(x.received[i / size].index, size, i)
  }

  /** Byte i of x's payload was read from SourceOffset: from block
      received[i / size] of the recorder's input, at the same position in the
      block. The blocks are whole, in increasing order and past the handler's
      edge, and when the chunk size is a multiple of 4 the byte keeps its place
      in the stereo frame. */
  ghost predicate ByteAligned(r: Recorder, x: Handler, i: nat)
    requires i < |x.w.out|
  {
    && 0 < r.size && i / r.size < |x.received| && Increasing(x.received)
    && x.edge <= x.received[i / r.size].index < |r.fates|
    && SourceOffset(x, r.size, i) < |r.input|
    && x.w.out[i] == r.input[SourceOffset(x, r.size, i)]
    && (r.size % 4 == 0 ==> SamePlace(SourceOffset(x, r.size, i), i))
  }

  lemma StereoAlignment(s: System, h: nat, i: nat)
    requires Reachable(s) && h < |s.hs| && i < |s.hs[h].w.out|
    ensures s.hs[h].src < |s.recs| && ByteAligned(s.recs[s.hs[h].src], s.hs[h], i)
  {
    HandlerIsSafe(s, h);
    RecorderIsSafe(s, s.hs[h].src);
    OutputByte(s.recs[s.hs[h].src], h, s.hs[h], i);
  }

  lemma OutputByte(r: Recorder, h: nat, x: Handler, i: nat)
    requires 0 < r.size && LinkOk(r, h, x) && PayloadOk(x) && i < |x.w.out|
    ensures ByteAligned(r, x, i)
  {
    OutputAt(r, h, x, i);
    ReceivedAt(r, h, x, i / r.size);
    ChunkByteAligned(r, x, i);
  }

  lemma ReceivedAt(r: Recorder, h: nat, x: Handler, j: nat)
    requires LinkOk(r, h, x) && j < |x.received|
    ensures Increasing(x.received) && x.edge <= x.received[j].index < |r.fates|
  {}

  /** A byte of a received chunk comes from the chunk's block of the input. */
  lemma ChunkByteAligned(r: Recorder, x: Handler, i: nat)
    requires 0 < r.size && i < |x.w.out| && i / r.size < |x.received|
    requires Increasing(x.received) && x.edge <= x.received[i / r.size].index < |r.fates|
    requires IsPiece(r.input, r.size, x.received[i / r.size])
    requires i % r.size < |x.received[i / r.size].data| && x.w.out[i] == x.received[i / r.size].data[i % r.size]
    ensures ByteAligned(r, x, i)
  {
    BlockByte(r, x.received[i / r.size], i % r.size);
    if r.size % 4 == 0 {
      ChannelKept(x.received[i / r.size].index, r.size, i);
    }
  }

  /** A byte of the output is one of a received chunk. */
  lemma OutputAt(r: Recorder, h: nat, x: Handler, i: nat)
    requires 0 < r.size && LinkOk(r, h, x) && PayloadOk(x) && i < |x.w.out|
    ensures 0 <= i / r.size < |x.received| && IsPiece(r.input, r.size, x.received[i / r.size])
    ensures i % r.size < |x.received[i / r.size].data| && x.w.out[i] == x.received[i / r.size].data[i % r.size]
  {
    PartsAreBlocks(r, h, x);
    PayloadAt(x.w.out, x.w.buf, Datas(HandedOver(x)), r.size, i);
  }

  lemma PayloadAt(out: seq<Byte>, buf: seq<Byte>, parts: seq<seq<Byte>>, size: nat, i: nat)
    requires 0 < size && forall j :: 0 <= j < |parts| ==> |parts[j]| == size
    requires out + buf <= Concat(parts) && i < |out|
    ensures 0 <= i / size < |parts| && i % size < |parts[i / size]|
    ensures out[i] == parts[i / size][i % size]
  {
    ConcatAt(parts, size, i);
    assert out[i] == (out + buf)[i] == Concat(parts)[i];
  }

  lemma BlockByte(r: Recorder, c: Chunk, k: nat)
    requires IsPiece(r.input, r.size, c) && k < r.size
    ensures |c.data| == r.size && c.index * r.size + k < |r.input|
    ensures c.data[k] == r.input[c.index * r.size + k]
  {
    PieceSize(r.input, r.size, c.index);
  }

  lemma PartsAreBlocks(r: Recorder, h: nat, x: Handler)
    requires LinkOk(r, h, x)
    ensures forall j :: 0 <= j < |HandedOver(x)| ==>
      && HandedOver(x)[j] == x.received[j]
      && IsPiece(r.input, r.size, x.received[j])
      && |Datas(HandedOver(x))[j]| == r.size
  {
    forall j | 0 <= j < |HandedOver(x)| ensures |Datas(HandedOver(x))[j]| == r.size {
      assert IsPiece(r.input, r.size, x.received[j]);
      PieceSize(r.input, r.size, x.received[j].index);
    }
  }

  lemma PieceSize(input: seq<Byte>, size: nat, k: nat)
    requires (k + 1) * size <= |input|
    ensures k * size + size <= |input|
    ensures |Piece(input, size, k)| == size
    ensures forall i :: 0 <= i < size ==> Piece(input, size, k)[i] == input[k * size + i]
  {
    assert (k + 1) * size == k * size + size;
  }

  // ---- Batching and counting --------------------------------------------------

  /** The response is fed the received chunks in order with nothing skipped or
      repeated: all of them when no write failed, else a prefix. All writes
      before the final flush have at least 131072 bytes, the flush
      itself is at most one more, and never more than that stays unwritten; a
      finished handler whose writes all succeeded has left nothing behind. */
  lemma ResponsePayload(s: System, h: nat)
    requires Reachable(s) && h < |s.hs|
    ensures
      var x := s.hs[h];
      && x.w.Accepted() <= Concat(Datas(HandedOver(x)))
      && (!x.w.failed ==> x.w.Accepted() == Concat(Datas(HandedOver(x))))
      && |x.w.buf| <= 131072
      && Large(x.w.batches, |x.w.batches| - (if Ending(x) then 1 else 0), 131072)
      && (x.phase.Gone? && !x.w.failed ==> x.w.out == Concat(Datas(x.received)))
  {
    HandlerIsSafe(s, h);
    assert s.hs[h].w.buf == [] ==> s.hs[h].w.out + [] == s.hs[h].w.out;
  }

  /** Whether the handler's header has been counted. */
  function PastHeader(x: Handler): int {
    if Streams(x) || x.phase.Headed? then 1 else 0
  }

  function PayloadBytes(x: Handler): int {
    |x.w.out| + |x.w.buf|
  }

  /** delivered is 44 bytes for every header sent and all payload bytes accepted;
      active is the number of handlers between their header and their end. */
  lemma CountersExact(s: System)
    requires Reachable(s)
    ensures s.delivered == 44 * Sum(s.hs, PastHeader) + Sum(s.hs, PayloadBytes)
    ensures s.active == Sum(s.hs, Counts)
  {
    ReachableIsSafe(s);
    HeadersAndPayload(s.hs);
  }

  lemma {:induction false} HeadersAndPayload(hs: seq<Handler>)
    ensures Sum(hs, Counted) == 44 * Sum(hs, PastHeader) + Sum(hs, PayloadBytes)
  {
    if hs != [] {
      HeadersAndPayload(hs[..|hs| - 1]);
    }
  }
}
