/** The stream handler's own code (internal/server/stream.go) over the Server's
    fields, with everybody else running between its steps. Every method below
    makes exactly the step of module AudioPath it is named after, so whatever the
    handlers do together is a behaviour of that system. */
module StreamServer {
  import opened Bytes
  import opened Batching
  import opened Recording
  import opened AudioPath
  import opened AudioGuarantees
  import opened Wrappers

  /** What an output looks like behind the bytes already in the response. */
  function Behind(prefix: seq<Byte>, w: Output): Output {
    w.(out := prefix + w.out)
  }

  lemma Uncovered(prefix: seq<Byte>, w: Output, w1: Output) returns (w': Output)
    requires prefix + w.out <= w1.out
    ensures w' == w1.(out := w'.out) && w1 == Behind(prefix, w')
    ensures w.out <= w'.out && w1.Accepted() == prefix + w'.Accepted()
  {
    w' := w1.(out := w1.out[|prefix|..]);
    assert w1.out[..|prefix| + |w.out|] == prefix + w.out;
    assert w1.out == prefix + w'.out;
    assert w1.Accepted() == prefix + w'.Accepted();
  }

  lemma SameRest(prefix: seq<Byte>, a: seq<Byte>, b: seq<Byte>)
    requires prefix + a == prefix + b
    ensures a == b
  {
    assert a == (prefix + a)[|prefix|..];
    assert b == (prefix + b)[|prefix|..];
  }

  lemma WroteBehind(prefix: seq<Byte>, w: Output, p: seq<Byte>, w1: Output, n: nat) returns (w': Output)
    requires w.Valid() && Behind(prefix, w).Valid() && Wrote(Behind(prefix, w), p, w1, n)
    ensures Wrote(w, p, w', n) && w1 == Behind(prefix, w')
  {
    w' := Uncovered(prefix, w, w1);
    assert Behind(prefix, w).Accepted() + p[..n] == prefix + (w.Accepted() + p[..n]);
    SameRest(prefix, w'.Accepted(), w.Accepted() + p[..n]);
    if w1.failed {
      if w.failed { SameRest(prefix, w'.out, w.out); }
    } else {
      BatchedBehind(prefix, w, p);
      SameRest(prefix, w'.out, Batched(w, p).out);
    }
  }

  lemma BatchedBehind(prefix: seq<Byte>, w: Output, p: seq<Byte>)
    requires w.Valid()
    ensures Batched(Behind(prefix, w), p) == Behind(prefix, Batched(w, p))
  {
    var k := w.size - |w.buf|;
    if |p| > k && w.buf != [] {
      assert prefix + w.out + (w.buf + p[..k]) == prefix + (w.out + (w.buf + p[..k]));
      assert prefix + w.out + (w.buf + p[..k]) + p[k..] == prefix + (w.out + (w.buf + p[..k]) + p[k..]);
    } else {
      assert prefix + w.out + p == prefix + (w.out + p);
    }
  }

  lemma FlushedBehind(prefix: seq<Byte>, w: Output, w1: Output) returns (w': Output)
    requires Batching.Flushed(Behind(prefix, w), w1)
    ensures Batching.Flushed(w, w') && w1 == Behind(prefix, w')
  {
    w' := Uncovered(prefix, w, w1);
    assert Behind(prefix, w).Accepted() == prefix + w.Accepted();
    SameRest(prefix, w'.Accepted(), w.Accepted());
    if w.failed { SameRest(prefix, w'.out, w.out); }
  }

  lemma BehaviourGrows(run: seq<System>, l: Label)
    requires Behaviour(run) && Enabled(run[|run| - 1], l)
    ensures Behaviour(run + [Apply(run[|run| - 1], l)])
  {
    assert Next(run[|run| - 1], Apply(run[|run| - 1], l));
  }

  /** Taking the slot cancels its owner and nobody else. */
  lemma RegisterCancels(s: System, h: nat)
    requires Enabled(s, Label.Register(h)) && (s.owner.Some? ==> s.owner.value < |s.hs|)
    ensures
      var s' := Apply(s, Label.Register(h));
      && |s'.hs| == |s.hs| && s'.recs == s.recs && s'.delivered == s.delivered && s'.active == s.active
      && s'.streamID == s'.hs[h].id == s.streamID + 1 && s'.owner == Some(h)
      && forall g :: 0 <= g < |s.hs| ==> s'.hs[g].cancelled == (s.hs[g].cancelled || s.owner == Some(g))
  {}

  class Server {
    var streamID: nat
    var streamCancel: Option<nat> // the request whose context it cancels
    var delivered: nat
    var active: int

    /** Per request, whether its context is cancelled; per recorder, its queue. */
    var cancelled: seq<bool>
    var queues: seq<seq<Chunk>>

    /** The states of the system so far. */
    ghost var run: seq<System>

    ghost function State(): System
      requires run != []
      reads this
    {
      run[|run| - 1]
    }

    ghost predicate Valid()
      reads this
    {
      && Behaviour(run)
      && streamID == State().streamID && streamCancel == State().owner
      && delivered == State().delivered && active == State().active
      && |cancelled| == |State().hs| && |queues| == |State().recs|
      && (forall h :: 0 <= h < |cancelled| ==> cancelled[h] == State().hs[h].cancelled)
      && (forall r :: 0 <= r < |queues| ==> queues[r] == State().recs[r].queue)
    }

    constructor ()
      ensures Valid() && run == [INITIAL]
    {
      streamID, streamCancel, delivered, active := 0, None, 0, 0;
      cancelled, queues, run := [], [], [INITIAL];
    }

    ghost method Did(l: Label)
      requires Behaviour(run) && Enabled(State(), l)
      modifies this`run
      ensures Behaviour(run) && run == old(run) + [Apply(old(State()), l)]
    {
      BehaviourGrows(run, l);
      run := run + [Apply(State(), l)];
    }

    /** The history and the numbers of requests and recorders only grow. */
    twostate predicate Onwards()
      reads this
    {
      && old(run) <= run
      && |old(cancelled)| <= |cancelled|
      && |old(queues)| <= |queues|
    }

    /** Any other goroutines run for a while. They may do everything except move
        handler h; they may cancel it. This contract is all that callers know, so
        what they prove holds whatever steps are taken here. */
    method Others(ghost h: nat)
      requires Valid() && h < |cancelled|
      modifies this
      ensures Valid() && Onwards()
      ensures State().hs[h] == old(State()).hs[h].(cancelled := State().hs[h].cancelled)
      ensures old(State()).hs[h].cancelled ==> State().hs[h].cancelled
    {
    }

    method Connect(src: nat) returns (h: nat)
      requires Valid() && src < |queues|
      modifies this
      ensures Valid() && run == old(run) + [Apply(old(State()), Label.Connect(src))]
      ensures h == |old(cancelled)| && |cancelled| == h + 1
    {
      h := |cancelled|;
      cancelled := cancelled + [false];
      Did(Label.Connect(src));
    }

    /** The section under streamMu that takes the slot. */
    method Register(h: nat) returns (myID: nat)
      requires Valid() && h < |cancelled| && State().hs[h].phase.Connected?
      modifies this
      ensures Valid() && run == old(run) + [Apply(old(State()), Label.Register(h))]
      ensures myID == State().hs[h].id
    {
      assert streamCancel.Some? ==> streamCancel.value < |cancelled| by {
        SystemSafety(run, |run| - 1);
      }
      RegisterCancels(State(), h);
      myID := TakeSlot(h);
      Did(Label.Register(h));
    }

    /** The fields alone: the owner's context is cancelled, and h is the owner. */
    method TakeSlot(h: nat) returns (myID: nat)
      requires streamCancel.Some? ==> streamCancel.value < |cancelled|
      modifies this`streamID, this`streamCancel, this`cancelled
      ensures myID == streamID == old(streamID) + 1 && streamCancel == Some(h) && |cancelled| == |old(cancelled)|
      ensures forall g :: 0 <= g < |cancelled| ==>
        cancelled[g] == (old(cancelled)[g] || old(streamCancel) == Some(g))
    {
      if streamCancel.Some? {
        cancelled := cancelled[streamCancel.value := true];
      }
      streamID := streamID + 1;
      myID := streamID;
      streamCancel := Some(h);
    }

    /** One receive from recorder src's queue, for the label l. */
    method Receive(h: nat, src: nat, ghost l: Label) returns (chunk: Chunk)
      requires Valid() && h < |cancelled| && src < |queues| && queues[src] != []
      requires l == FlushTake(h) || l == Recv(h)
      requires State().hs[h].src == src && Enabled(State(), l)
      modifies this`run, this`queues
      ensures Valid() && run == old(run) + [Apply(old(State()), l)]
      ensures chunk == Queue(old(State()), h)[0]
    {
      chunk := queues[src][0];
      queues := queues[src := queues[src][1..]];
      Did(l);
    }

    /** A handler-only step: the phase moves and the counters follow. */
    method CountHeader(h: nat)
      requires Valid() && h < |cancelled| && State().hs[h].phase.Ready?
      modifies this`run, this`delivered
      ensures Valid() && run == old(run) + [Apply(old(State()), Header(h))]
    {
      delivered := delivered + HEADER_SIZE;
      Did(Header(h));
    }

    method Activate(h: nat)
      requires Valid() && h < |cancelled| && State().hs[h].phase.Headed?
      modifies this`run, this`active
      ensures Valid() && run == old(run) + [Apply(old(State()), Label.Activate(h))]
    {
      active := active + 1;
      Did(Label.Activate(h));
    }

    method Deactivate(h: nat)
      requires Valid() && h < |cancelled| && State().hs[h].phase.Closing?
      modifies this`run, this`active
      ensures Valid() && run == old(run) + [Apply(old(State()), Label.Deactivate(h))]
    {
      active := active - 1;
      Did(Label.Deactivate(h));
    }

    /** The deferred section under streamMu, and the final cancel. */
    method Cleanup(h: nat, myID: nat)
      requires Valid() && h < |cancelled| && State().hs[h].phase.Leaving? && myID == State().hs[h].id
      modifies this`run, this`streamCancel, this`cancelled
      ensures Valid() && run == old(run) + [Apply(old(State()), Label.Cleanup(h))]
    {
      if streamID == myID {
        streamCancel := None;
      }
      cancelled := cancelled[h := true];
      Did(Label.Cleanup(h));
    }

    /** flushStalePreFill, watched for at most `budget` receives. */
    method FlushPreFill(h: nat, src: nat, budget: nat) returns (left: nat)
      requires Valid() && h < |cancelled| && src < |queues|
      requires State().hs[h].phase.Flushing? && State().hs[h].src == src
      modifies this
      ensures Valid() && Onwards() && left <= budget
      ensures State().hs[h].src == src && State().hs[h].id == old(State()).hs[h].id
      ensures if left > 0 then State().hs[h].phase.Ready? else State().hs[h].phase.Flushing?
      ensures |run| >= |old(run)| + budget - left
    {
      left := budget;
      while left > 0 && queues[src] != []
        invariant Valid() && Onwards() && left <= budget
        invariant State().hs[h].phase.Flushing? && State().hs[h].src == src
        invariant |run| >= |old(run)| + budget - left
        invariant State().hs[h].id == old(State()).hs[h].id
      {
        left := left - 1;
        var _ := Receive(h, src, FlushTake(h));
        Others(h);
      }
      if left > 0 {
        Did(FlushDone(h));
      }
    }

    /** streamChunks, watched for at most `budget` rounds of its select. Each
        round takes whichever ready case the runtime picks; others run for as long
        as they like before it. If none is ready by then the select blocks, and
        nothing more is watched. */
    method StreamChunks(h: nat, src: nat, bw: BufferedWriter, ghost prefix: seq<Byte>, budget: nat) returns (r: Watch)
      requires Valid() && h < |cancelled| && src < |queues|
      requires State().hs[h].phase.Streaming? && State().hs[h].src == src
      requires bw.Valid() && State().hs[h].w.Valid() && bw.View() == Behind(prefix, State().hs[h].w)
      modifies this, bw, bw.buf, bw.wr
      ensures Valid() && Onwards() && bw.Valid()
      ensures State().hs[h].id == old(State()).hs[h].id && State().hs[h].src == src
      ensures bw.View() == Behind(prefix, State().hs[h].w)
      ensures r == Left ==> State().hs[h].phase.Closing? && cancelled[h]
      ensures r == Blocked ==> State().hs[h].phase.Streaming? && !cancelled[h] && queues[src] == []
      ensures r == Watched ==>
        State().hs[h].phase.Streaming? && |State().hs[h].received| == |old(State()).hs[h].received| + budget
      ensures old(bw.wr.writes) <= bw.wr.writes
    {
      var left := budget;
      while left > 0
        invariant Valid() && Onwards() && bw.Valid()
        invariant State().hs[h].phase.Streaming? && State().hs[h].src == src
        invariant State().hs[h].id == old(State()).hs[h].id
        invariant State().hs[h].w.Valid() && bw.View() == Behind(prefix, State().hs[h].w)
        invariant 0 <= left <= budget && |State().hs[h].received| == |old(State()).hs[h].received| + budget - left
        invariant old(bw.wr.writes) <= bw.wr.writes
      {
        left := left - 1;
        Others(h);
        var pickCancel: bool := *;
        if cancelled[h] && (pickCancel || queues[src] == []) {
          FlushOut(h, bw, prefix);
          return Left;
        } else if queues[src] == [] {
          return Blocked;
        }
        WriteOne(h, src, bw, prefix);
      }
      return Watched;
    }

    /** The final flush. */
    method FlushOut(h: nat, bw: BufferedWriter, ghost prefix: seq<Byte>)
      requires Valid() && h < |cancelled| && State().hs[h].phase.Streaming? && cancelled[h]
      requires bw.Valid() && State().hs[h].w.Valid() && bw.View() == Behind(prefix, State().hs[h].w)
      modifies this`run, bw, bw.buf, bw.wr
      ensures Valid() && Onwards() && bw.Valid()
      ensures State().hs[h].phase.Closing? && cancelled == old(cancelled)
      ensures State().hs[h].id == old(State()).hs[h].id && State().hs[h].src == old(State()).hs[h].src
      ensures bw.View() == Behind(prefix, State().hs[h].w)
      ensures old(bw.wr.writes) <= bw.wr.writes
    {
      bw.Flush();
      ghost var w := FlushedBehind(prefix, State().hs[h].w, bw.View());
      Did(Finish(h, w));
    }

    /** One received chunk: written, then counted. */
    method WriteOne(h: nat, src: nat, bw: BufferedWriter, ghost prefix: seq<Byte>)
      requires Valid() && h < |cancelled| && src < |queues| && queues[src] != []
      requires State().hs[h].phase.Streaming? && State().hs[h].src == src
      requires bw.Valid() && State().hs[h].w.Valid() && bw.View() == Behind(prefix, State().hs[h].w)
      modifies this, bw, bw.buf, bw.wr
      ensures Valid() && Onwards() && bw.Valid()
      ensures State().hs[h].phase.Streaming? && State().hs[h].src == src
      ensures State().hs[h].id == old(State()).hs[h].id
      ensures State().hs[h].w.Valid() && bw.View() == Behind(prefix, State().hs[h].w)
      ensures |State().hs[h].received| == |old(State()).hs[h].received| + 1
      ensures old(bw.wr.writes) <= bw.wr.writes
    {
      var chunk := Receive(h, src, Recv(h));
      Others(h);
      DeliverChunk(h, src, chunk, bw, prefix);
    }

    /** The write of a received chunk. */
    method DeliverChunk(h: nat, ghost src: nat, chunk: Chunk, bw: BufferedWriter, ghost prefix: seq<Byte>)
      requires Valid() && h < |cancelled|
      requires State().hs[h].phase == Holding(chunk) && State().hs[h].src == src
      requires bw.Valid() && State().hs[h].w.Valid() && bw.View() == Behind(prefix, State().hs[h].w)
      modifies this`run, this`delivered, bw, bw.buf, bw.wr
      ensures Valid() && Onwards() && bw.Valid()
      ensures State().hs[h].phase.Streaming? && State().hs[h].src == src
      ensures State().hs[h].id == old(State()).hs[h].id
      ensures State().hs[h].w.Valid() && bw.View() == Behind(prefix, State().hs[h].w)
      ensures State().hs[h].received == old(State()).hs[h].received
      ensures old(bw.wr.writes) <= bw.wr.writes
    {
      var n := bw.Write(chunk.data);
      ghost var w := WroteBehind(prefix, State().hs[h].w, chunk.data, bw.View(), n);
      delivered := delivered + n;
      Did(Deliver(h, w, n));
    }

    /** Takes the slot and flushes; if the watch ends before, so be it. */
    method Enter(src: nat, budget: nat) returns (h: nat, myID: nat, ready: bool)
      requires Valid() && src < |queues|
      modifies this
      ensures Valid() && Onwards() && h == |old(cancelled)| < |cancelled|
      ensures State().hs[h].src == src && State().hs[h].id == myID
      ensures ready ==> State().hs[h].phase.Ready? && Unanswered(State().hs[h])
      ensures !ready ==> State().hs[h].phase.Flushing? && |run| >= |old(run)| + budget
    {
      h := Connect(src);
      Others(h);
      myID := Register(h);
      Others(h);
      var left := FlushPreFill(h, src, budget);
      ready := left > 0;
      if ready {
        NothingWrittenYet(h);
        Others(h); // play runs here, outside every lock
      }
    }

    lemma NothingWrittenYet(h: nat)
      requires Valid() && h < |cancelled| && State().hs[h].phase.Ready?
      ensures Unanswered(State().hs[h])
    {
      SystemSafety(run, |run| - 1);
      assert LinkedAt(State(), h) && PayloadOk(State().hs[h]);
    }

    /** Header, then chunks until cancelled. */
    method Respond(h: nat, src: nat, header: seq<Byte>, resp: Response, budget: nat) returns (r: Watch)
      requires Valid() && h < |cancelled| && src < |queues| && |header| == 44
      requires State().hs[h].phase.Ready? && State().hs[h].src == src && Unanswered(State().hs[h])
      modifies this, resp
      ensures Valid() && Onwards()
      ensures State().hs[h].id == old(State()).hs[h].id && State().hs[h].src == src
      ensures r == Left ==> State().hs[h].phase.Closing? && cancelled[h]
      ensures r == Blocked ==> State().hs[h].phase.Streaming? && !cancelled[h] && queues[src] == []
      ensures r == Watched ==> State().hs[h].phase.Streaming? && |State().hs[h].received| == budget
      ensures Answered(old(resp.body), |old(resp.writes)|, header, State().hs[h].w.out, resp.body, resp.writes)
      ensures Tallied(State().hs[h].w, resp.writes[|old(resp.writes)| + 1..])
    {
      SendHeader(h, src, header, resp);
      var bw := new BufferedWriter(resp, FLUSH_THRESHOLD);
      ghost var prefix := resp.body;
      assert prefix + [] == prefix;
      r := StreamChunks(h, src, bw, prefix, budget);
      assert resp.body == bw.View().out == prefix + State().hs[h].w.out;
    }

    /** The header is written and counted, and the handler counted active. */
    method SendHeader(h: nat, ghost src: nat, header: seq<Byte>, resp: Response)
      requires Valid() && h < |cancelled| && |header| == 44
      requires State().hs[h].phase.Ready? && State().hs[h].src == src && Unanswered(State().hs[h])
      modifies this, resp
      ensures Valid() && Onwards() && State().hs[h].phase.Streaming?
      ensures State().hs[h].id == old(State()).hs[h].id && State().hs[h].src == src && Unanswered(State().hs[h])
      ensures Answered(old(resp.body), |old(resp.writes)|, header, [], resp.body, resp.writes)
      ensures |resp.writes| == |old(resp.writes)| + 1
    {
      var sent, _ := resp.Write(header);
      CountHeader(h);
      Others(h);
      Activate(h);
    }

    /** Leaves the active count, then the slot. */
    method Leave(h: nat, myID: nat)
      requires Valid() && h < |cancelled| && State().hs[h].phase.Closing? && State().hs[h].id == myID
      modifies this
      ensures Valid() && Onwards()
      ensures State().hs[h].phase.Gone? && State().hs[h].w == old(State()).hs[h].w
      ensures State().hs[h].src == old(State()).hs[h].src
    {
      Deactivate(h);
      Others(h);
      Cleanup(h, myID);
    }

    /** A /stream request, watched for at most `budget` rounds of each loop. A
        request that is refused changes nothing. Any other is left only when the
        slot is: its response then holds what its writes took of the header,
        followed by the recorder's own bytes. If it is not left it waits for a
        chunk, or has flushed or sent as many chunks as it was watched for. */
    method HandleStream(validURI: bool, source: Option<nat>, header: seq<Byte>, resp: Response, budget: nat)
      returns (status: int, h: nat, r: Watch)
      requires Valid() && |header| == 44
      requires source.Some? ==> source.value < |queues|
      modifies this, resp
      ensures Valid() && Onwards()
      ensures status == (if !validURI then 400 else if source.None? then 503 else 200)
      ensures status != 200 ==> run == old(run) && resp.body == old(resp.body) && resp.writes == old(resp.writes)
      ensures status == 200 ==> h == |old(cancelled)| < |cancelled| && State().hs[h].src == source.value
      ensures status == 200 && r == Left ==>
        Completed(State(), h, old(resp.body), |old(resp.writes)|, header, resp.body, resp.writes)
      ensures status == 200 && r == Blocked ==>
        State().hs[h].phase.Streaming? && !cancelled[h] && queues[source.value] == []
      ensures status == 200 && r == Watched ==>
        || (State().hs[h].phase.Flushing? && |run| >= |old(run)| + budget)
        || (State().hs[h].phase.Streaming? && |State().hs[h].received| == budget)
    {
      h, r := 0, Left;
      if !validURI {
        status := 400;
        return;
      }
      if source.None? {
        status := 503;
        return;
      }
      status := 200;
      var myID, ready;
      h, myID, ready := Enter(source.value, budget);
      if !ready {
        r := Watched;
        return;
      }
      r := Respond(h, source.value, header, resp, budget);
      if r == Left {
        Depart(h, myID, old(resp.body), |old(resp.writes)|, header, resp);
      }
    }

    /** The end of a request that has made its final flush. */
    method Depart(
        h: nat, myID: nat, ghost before: seq<Byte>, ghost first: nat, ghost header: seq<Byte>, ghost resp: Response)
      requires Valid() && h < |cancelled| && State().hs[h].phase.Closing? && State().hs[h].id == myID
      requires Answered(before, first, header, State().hs[h].w.out, resp.body, resp.writes)
      requires Tallied(State().hs[h].w, resp.writes[first + 1..])
      modifies this
      ensures Valid() && Onwards() && State().hs[h].src == old(State()).hs[h].src
      ensures Completed(State(), h, before, first, header, resp.body, resp.writes)
    {
      Others(h);
      Leave(h, myID);
      FromRecorder(State(), h, before, first, header, resp.body, resp.writes);
    }
  }

  /** Handler h is gone, and its response is as it should be. */
  ghost predicate Completed(
      s: System, h: nat, before: seq<Byte>, first: nat, header: seq<Byte>, after: seq<Byte>, writes: seq<Sent>)
  {
    && h < |s.hs| && s.hs[h].phase.Gone?
    && Answered(before, first, header, s.hs[h].w.out, after, writes)
    && Recorded(s, h, |before| + writes[first].taken, after, writes[first + 1..])
  }

  /** Nothing received, and nothing written. */
  predicate Unanswered(x: Handler) {
    x.w == NewOutput(FLUSH_THRESHOLD) && x.received == []
  }

  /** These are the writes that the handler's output stands for. */
  predicate Tallied(w: Output, writes: seq<Sent>) {
    (w.failed <==> Refused(writes)) && w.batches == Sizes(writes)
  }

  /** From position `first` on, the body is what the recorder read: each byte
      comes from a block cut after the handler's flush, at its place in the block
      and, when chunks are whole frames, in the stereo frame. Unless the response
      refused one of the payload's writes, the blocks received are all there. All
      these writes but the last are of 128 KiB or more. */
  ghost predicate Recorded(s: System, h: nat, first: nat, body: seq<Byte>, writes: seq<Sent>)
    requires h < |s.hs|
  {
    var x := s.hs[h];
    && x.src < |s.recs| && |body| == first + |x.w.out|
    && (forall i {:trigger ByteAligned(s.recs[x.src], x, i)} :: 0 <= i < |x.w.out| ==>
      && ByteAligned(s.recs[x.src], x, i)
      && body[first + i] == s.recs[x.src].input[SourceOffset(x, s.recs[x.src].size, i)])
    && (!Refused(writes) ==> body[first..] == Concat(Datas(x.received)))
    && (forall i :: 0 <= i < |writes| - 1 ==> writes[i].asked >= 131072)
  }

  lemma FromRecorder(
      s: System, h: nat, before: seq<Byte>, first: nat, header: seq<Byte>, after: seq<Byte>, writes: seq<Sent>)
    requires Reachable(s) && h < |s.hs| && s.hs[h].phase.Gone?
    requires Answered(before, first, header, s.hs[h].w.out, after, writes)
    requires Tallied(s.hs[h].w, writes[first + 1..])
    ensures Completed(s, h, before, first, header, after, writes)
  {
    var x, base := s.hs[h], |before| + writes[first].taken;
    assert after[base..] == x.w.out;
    assert x.src < |s.recs| by {
      HandlerIsSafe(s, h);
    }
    forall i | 0 <= i < |x.w.out|
      ensures ByteAligned(s.recs[x.src], x, i)
      ensures after[base + i] == s.recs[x.src].input[SourceOffset(x, s.recs[x.src].size, i)]
    {
      StereoAlignment(s, h, i);
    }
    ResponsePayload(s, h);
    TalliedIsLarge(x.w, writes[first + 1..]);
  }

  lemma TalliedIsLarge(w: Output, writes: seq<Sent>)
    requires Tallied(w, writes) && Large(w.batches, |w.batches| - 1, 131072)
    ensures forall i :: 0 <= i < |writes| - 1 ==> writes[i].asked >= 131072
  {
    assert forall i :: 0 <= i < |writes| ==> w.batches[i] == writes[i].asked;
  }

  /** The response went from `before` to `after`: all of the header unless its
      write, the one with number `first`, took less, and then the payload. */
  predicate Answered(
      before: seq<Byte>, first: nat, header: seq<Byte>, payload: seq<Byte>, after: seq<Byte>, writes: seq<Sent>)
  {
    && first < |writes| && writes[first].asked == |header| && writes[first].taken <= |header|
    && after == before + header[..writes[first].taken] + payload
  }
}
