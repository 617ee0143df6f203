/** Bytes, and the sequence facts the audio path needs. */
module Bytes {
  newtype Byte = b: int | 0 <= b < 256

  function Concat<T>(parts: seq<seq<T>>): seq<T> {
    if parts == [] then [] else Concat(parts[..|parts| - 1]) + parts[|parts| - 1]
  }
}

/** The buffered response writer of streamChunks
    (internal/server/stream.go:110-126): Go's bufio.Writer over a response that
    may accept less than it is given. */
module Batching {
  import opened Bytes

  /** What a response has been given. `out` are the bytes the response accepted,
      `buf` the bytes still buffered, `failed` whether it has refused any,
      `batches` the sizes of the writes made to it. */
  datatype Output = Output(
    size: nat,
    out: seq<Byte>,
    buf: seq<Byte>,
    failed: bool,
    batches: seq<nat>)
  {
    function Accepted(): seq<Byte> { out + buf }

    predicate Valid() {
      0 < size && |buf| <= size
    }
  }

  function NewOutput(size: nat): Output {
    Output(size, [], [], false, [])
  }

  /** A write of p in which the response accepts everything: fill the buffer,
      pass it on when full, and send a remainder larger than the buffer
      directly. */
  function Batched(w: Output, p: seq<Byte>): Output
    requires w.Valid()
  {
    if |p| <= w.size - |w.buf| then
      w.(buf := w.buf + p)
    else if w.buf == [] then
      w.(out := w.out + p, batches := w.batches + [|p|])
    else
      var k := w.size - |w.buf|;
      var full := w.(out := w.out + (w.buf + p[..k]), buf := [], batches := w.batches + [w.size]);
      if |p| - k <= w.size then
        full.(buf := p[k..])
      else
        full.(out := full.out + p[k..], batches := full.batches + [|p| - k])
  }

  /** All of the first n batches are at least of the given size. */
  predicate Large(batches: seq<nat>, n: int, size: nat) {
    forall i :: 0 <= i < n && i < |batches| ==> batches[i] >= size
  }

  /** Only full buffers and remainders larger than one are passed on. */
  lemma BatchedIsLarge(w: Output, p: seq<Byte>)
    requires w.Valid()
    ensures w.batches <= Batched(w, p).batches
    ensures forall i :: |w.batches| <= i < |Batched(w, p).batches| ==> Batched(w, p).batches[i] >= w.size
  {}

  /** Every outcome of writing p that reports n accepted bytes. When the response
      fails, the writes made are the first of those of an unhindered run. */
  ghost predicate Wrote(w: Output, p: seq<Byte>, w': Output, n: nat)
    requires w.Valid()
  {
    && n <= |p|
    && w'.Valid()
    && w'.size == w.size
    && w.out <= w'.out
    && w'.Accepted() == w.Accepted() + p[..n]
    && w.batches <= w'.batches <= Batched(w, p).batches
    && (w.failed ==> w' == w && n == 0)
    && (!w'.failed ==> n == |p| && w' == Batched(w, p))
  }

  /** Every outcome of a flush. */
  ghost predicate Flushed(w: Output, w': Output) {
    && w'.size == w.size
    && w'.batches == w.batches + (if w.failed || w.buf == [] then [] else [|w.buf|])
    && w.out <= w'.out
    && w'.Accepted() == w.Accepted()
    && (w.failed ==> w' == w)
    && (!w'.failed ==> w'.buf == [])
  }

  /** A write to the response: the bytes it was given and how many it took. */
  datatype Sent = Sent(asked: nat, taken: nat)

  /** The response has taken less than it was given. */
  predicate Refused(writes: seq<Sent>) {
    exists i :: 0 <= i < |writes| && writes[i].taken < writes[i].asked
  }

  lemma RefusedJoined(first: seq<Sent>, second: seq<Sent>)
    ensures Refused(first + second) <==> Refused(first) || Refused(second)
  {
    var all := first + second;
    if Refused(first) {
      var i :| 0 <= i < |first| && first[i].taken < first[i].asked;
      assert all[i] == first[i];
    }
    if Refused(second) {
      var i :| 0 <= i < |second| && second[i].taken < second[i].asked;
      assert all[|first| + i] == second[i];
    }
  }

  lemma RefusedOneMore(writes: seq<Sent>, s: Sent)
    ensures Refused(writes + [s]) <==> Refused(writes) || s.taken < s.asked
  {
    RefusedJoined(writes, [s]);
    assert [s][0] == s;
  }

  function Sizes(writes: seq<Sent>): (r: seq<nat>)
    ensures |r| == |writes| && forall i :: 0 <= i < |r| ==> r[i] == writes[i].asked
  {
    seq(|writes|, i requires 0 <= i < |writes| => writes[i].asked)
  }

  /** A flush of which the response takes the first m bytes. */
  function AfterFlush(w: Output, m: nat): Output
    requires m <= |w.buf|
  {
    w.(out := w.out + w.buf[..m], buf := w.buf[m..], failed := m < |w.buf|, batches := w.batches + [|w.buf|])
  }

  lemma FlushedPart(w: Output, m: nat)
    requires !w.failed && w.buf != [] && m <= |w.buf|
    ensures Flushed(w, AfterFlush(w, m))
  {
    assert w.out + w.buf == w.out + w.buf[..m] + w.buf[m..];
  }

  /** The HTTP response: it accepts any prefix of what it is given, and reports
      an error when that is not everything. */
  class Response {
    var body: seq<Byte>
    ghost var writes: seq<Sent>

    constructor ()
      ensures body == [] && writes == []
    {
      body, writes := [], [];
    }

    method Write(p: seq<Byte>) returns (n: nat, failed: bool)
      modifies this
      ensures n <= |p| && (failed <==> n < |p|)
      ensures body == old(body) + p[..n] && writes == old(writes) + [Sent(|p|, n)]
    {
      var room: int := *;
      n := if 0 <= room < |p| then room else |p|;
      failed := n < |p|;
      body := body + p[..n];
      writes := writes + [Sent(|p|, n)];
    }
  }

  /** bufio.Writer: the first n bytes of buf are buffered, err is sticky. */
  class BufferedWriter {
    const wr: Response
    const buf: array<Byte>
    var n: nat
    var err: bool
    ghost const start: nat // the writes the response had seen before

    ghost predicate Valid()
      reads this, buf, wr
    {
      && 0 < buf.Length && n <= buf.Length && start <= |wr.writes|
      && (err <==> Refused(wr.writes[start..]))
    }

    ghost function View(): Output
      requires n <= buf.Length && start <= |wr.writes|
      reads this, buf, wr
    {
      Output(buf.Length, wr.body, buf[..n], Refused(wr.writes[start..]), Sizes(wr.writes[start..]))
    }

    constructor (wr: Response, size: nat)
      requires 0 < size
      ensures Valid() && fresh(buf) && this.wr == wr && start == |wr.writes|
      ensures View() == NewOutput(size).(out := wr.body)
    {
      this.wr := wr;
      buf := new Byte[size];
      n, err, start := 0, false, |wr.writes|;
    }

    /** A write to the response, whose error sticks. */
    method Send(p: seq<Byte>) returns (m: nat)
      requires Valid() && !err
      modifies wr, this`err
      ensures Valid() && m <= |p| && (err <==> m < |p|)
      ensures View() == old(View()).(
        out := old(View()).out + p[..m], failed := err, batches := old(View()).batches + [|p|])
      ensures wr.writes == old(wr.writes) + [Sent(|p|, m)]
    {
      m, err := wr.Write(p);
      RefusedOneMore(old(wr.writes[start..]), Sent(|p|, m));
      assert wr.writes[start..] == old(wr.writes[start..]) + [Sent(|p|, m)];
    }

    /** The writer fails exactly when the response refuses something. */
    twostate predicate Blamed()
      requires |old(wr.writes)| <= |wr.writes|
      reads this, wr
    {
      err <==> old(err) || Refused(wr.writes[|old(wr.writes)|..])
    }

    twostate lemma BlamedSince()
      requires old(Valid()) && Valid() && old(wr.writes) <= wr.writes
      ensures Blamed()
    {
      RefusedJoined(old(wr.writes[start..]), wr.writes[|old(wr.writes)|..]);
      assert wr.writes[start..] == old(wr.writes[start..]) + wr.writes[|old(wr.writes)|..];
    }

    method Flush()
      requires Valid()
      modifies this`n, this`err, buf, wr
      ensures Valid() && Flushed(old(View()), View()) && old(wr.writes) <= wr.writes
      ensures Blamed()
    {
      if !err && n > 0 {
        FlushAll();
      }
      BlamedSince();
    }

    /** The response is given all that is buffered, and what it leaves stays. */
    method FlushAll()
      requires Valid() && !err && n > 0
      modifies this`n, this`err, buf, wr
      ensures Valid() && Flushed(old(View()), View()) && old(wr.writes) <= wr.writes
      ensures !err ==> n == 0
    {
      ghost var w := View();
      var m := Send(buf[..n]);
      FlushedPart(w, m);
      if err {
        ShiftDown(m);
        n := n - m;
      } else {
        n := 0;
      }
      assert View() == AfterFlush(w, m);
    }

    /** Moves the unwritten rest of the buffer to its front. */
    method ShiftDown(m: nat)
      requires m <= n <= buf.Length
      modifies buf
      ensures buf[..n - m] == old(buf[m..n])
    {
      var i := 0;
      while i < n - m
        invariant 0 <= i <= n - m
        invariant buf[..i] == old(buf[m..m + i])
        invariant forall j :: m + i <= j < n ==> buf[j] == old(buf[j])
      {
        buf[i] := buf[m + i];
        i := i + 1;
      }
    }

    /** Copies as much of p as fits behind the buffered bytes. */
    method Append(p: seq<Byte>) returns (k: nat)
      requires Valid()
      modifies this`n, buf
      ensures k == if |p| < buf.Length - old(n) then |p| else buf.Length - old(n)
      ensures n == old(n) + k
      ensures buf[..n] == old(buf[..n]) + p[..k]
    {
      k := if |p| < buf.Length - n then |p| else buf.Length - n;
      var i := 0;
      while i < k
        invariant 0 <= i <= k && n == old(n)
        invariant buf[..n + i] == old(buf[..n]) + p[..i]
      {
        buf[n + i] := p[i];
        i := i + 1;
      }
      n := n + k;
    }

    /** The first nn bytes of p have been written since the state was w. */
    ghost predicate WrittenSince(w: Output, p: seq<Byte>, nn: nat)
      reads this, buf, wr
    {
      Valid() && w.Valid() && nn <= |p| && Underway(w, p, View(), nn)
    }

    /** What p adds to the response's record are writes of a buffer's size or
        more, and the writer fails exactly when one of them is refused. */
    method Write(p: seq<Byte>) returns (nn: nat)
      requires Valid()
      modifies this, buf, wr
      ensures Valid() && Wrote(old(View()), p, View(), nn) && old(wr.writes) <= wr.writes
      ensures forall i :: |old(wr.writes)| <= i < |wr.writes| ==> wr.writes[i].asked >= buf.Length
      ensures Blamed()
    {
      nn := WriteAll(p);
      BatchedIsLarge(old(View()), p);
      BlamedSince();
    }

    method WriteAll(p: seq<Byte>) returns (nn: nat)
      requires Valid()
      modifies this, buf, wr
      ensures Valid() && Wrote(old(View()), p, View(), nn) && old(wr.writes) <= wr.writes
    {
      UnderwayStart(View(), p);
      nn := PassOnAll(View(), p);
      if !err {
        var k := KeepRest(old(View()), p, nn);
        nn := nn + k;
      } else {
        UnderwayFailed(old(View()), p, View(), nn);
      }
    }

    /** The write loop. */
    method PassOnAll(ghost w: Output, p: seq<Byte>) returns (nn: nat)
      requires WrittenSince(w, p, 0)
      modifies this, buf, wr
      ensures WrittenSince(w, p, nn) && old(wr.writes) <= wr.writes
      ensures err || |p| - nn <= buf.Length - n
    {
      nn := 0;
      while |p| - nn > buf.Length - n && !err
        invariant WrittenSince(w, p, nn) && old(wr.writes) <= wr.writes
        decreases !err, |p| - nn, n
      {
        var m := PassOnMore(w, p, nn);
        nn := nn + m;
      }
    }

    method PassOnMore(ghost w: Output, p: seq<Byte>, nn: nat) returns (m: nat)
      requires WrittenSince(w, p, nn) && !err && |p| - nn > buf.Length - n
      modifies this, buf, wr
      ensures WrittenSince(w, p, nn + m) && old(wr.writes) <= wr.writes
      ensures !err ==> m > 0 || n < old(n)
    {
      ghost var before := View();
      m := PassOn(p[nn..]);
      UnderwayTransitive(w, p, before, nn, View(), m);
    }

    method KeepRest(ghost w: Output, p: seq<Byte>, nn: nat) returns (k: nat)
      requires WrittenSince(w, p, nn) && !err && |p| - nn <= buf.Length - n
      modifies this`n, buf
      ensures Valid() && k == |p| - nn && Wrote(w, p, View(), |p|)
    {
      ghost var before := View();
      k := Keep(p[nn..]);
      UnderwayTransitive(w, p, before, nn, View(), k);
      UnderwayComplete(w, p, View());
    }

    /** The last round: the rest fits behind the buffered bytes. */
    method Keep(rest: seq<Byte>) returns (k: nat)
      requires Valid() && !err && |rest| <= buf.Length - n
      modifies this`n, buf
      ensures k == |rest| && Valid() && !err && Underway(old(View()), rest, View(), k)
    {
      k := Append(rest);
      assert View() == old(View()).(buf := old(View()).buf + rest);
      assert Progressed(old(View()), rest, View(), k);
    }

    /** One round of the write loop: the rest does not fit behind the buffered
        bytes, so either all of it or a full buffer goes to the response. */
    method PassOn(rest: seq<Byte>) returns (m: nat)
      requires Valid() && !err && |rest| > buf.Length - n
      modifies this, buf, wr
      ensures m <= |rest| && Valid() && Underway(old(View()), rest, View(), m)
      ensures old(wr.writes) <= wr.writes
      ensures !err ==> m > 0 || n < old(n)
    {
      ghost var w := View();
      if n == 0 {
        m := Send(rest);
        SentDirectly(w, rest, View(), m);
      } else {
        m := Append(rest);
        ghost var full := View();
        FlushAll();
        SentFull(w, rest, full, View(), m);
      }
    }
  }

  /** w' is what w has become after the first nn bytes of p, with the rest
      still to be written. */
  ghost predicate Underway(w: Output, p: seq<Byte>, w': Output, nn: nat)
    requires w.Valid() && w'.Valid() && nn <= |p|
  {
    forall whole :: whole == p ==> Progressed(w, whole, w', nn)
  }

  /** Kept behind a quantifier, out of proofs that only pass it on. */
  ghost predicate Progressed(w: Output, p: seq<Byte>, w': Output, nn: nat)
    requires w.Valid() && w'.Valid() && nn <= |p|
  {
    && w'.size == w.size
    && w.out <= w'.out
    && w'.Accepted() == w.Accepted() + p[..nn]
    && w.batches <= w'.batches <= Batched(w, p).batches
    && (w.failed ==> w' == w && nn == 0)
    && (!w'.failed ==> Batched(w', p[nn..]) == Batched(w, p))
  }

  /** A remainder over an empty buffer goes to the response as it is. */
  lemma SentDirectly(w: Output, p: seq<Byte>, w': Output, m: nat)
    requires w.Valid() && !w.failed && w.buf == [] && |p| > w.size && m <= |p|
    requires w' == w.(out := w.out + p[..m], failed := m < |p|, batches := w.batches + [|p|])
    ensures w'.Valid() && Underway(w, p, w', m)
  {
    assert p[m..] == [] || w'.failed;
    assert Progressed(w, p, w', m);
  }

  /** A buffer that is filled up goes to the response. */
  lemma SentFull(w: Output, p: seq<Byte>, full: Output, w': Output, m: nat)
    requires w.Valid() && !w.failed && w.buf != [] && |p| > w.size - |w.buf| == m
    requires full == w.(buf := w.buf + p[..m]) && w'.Valid() && Flushed(full, w')
    ensures Underway(w, p, w', m)
  {
    assert Progressed(w, p, w', m);
  }

  lemma UnderwayStart(w: Output, p: seq<Byte>)
    requires w.Valid()
    ensures Underway(w, p, w, 0)
  {
    assert p[0..] == p && w.Accepted() + p[..0] == w.Accepted();
    assert Progressed(w, p, w, 0);
  }

  lemma UnderwayComplete(w: Output, p: seq<Byte>, w': Output)
    requires w.Valid() && w'.Valid() && Underway(w, p, w', |p|) && !w'.failed
    ensures Wrote(w, p, w', |p|)
  {
    assert Progressed(w, p, w', |p|);
    assert p[|p|..] == [] && w'.buf + [] == w'.buf;
  }

  lemma UnderwayFailed(w: Output, p: seq<Byte>, w': Output, nn: nat)
    requires w.Valid() && w'.Valid() && nn <= |p| && Underway(w, p, w', nn) && w'.failed
    ensures Wrote(w, p, w', nn)
  {
    assert Progressed(w, p, w', nn);
  }

  lemma UnderwayTransitive(w: Output, p: seq<Byte>, w1: Output, n1: nat, w2: Output, m: nat)
    requires w.Valid() && w1.Valid() && w2.Valid() && n1 <= |p| && m <= |p| - n1
    requires Underway(w, p, w1, n1) && Underway(w1, p[n1..], w2, m)
    ensures Underway(w, p, w2, n1 + m)
  {
    assert Progressed(w, p, w1, n1) && Progressed(w1, p[n1..], w2, m);
    ProgressedTransitive(w, p, w1, n1, w2, m);
  }

  lemma ProgressedTransitive(w: Output, p: seq<Byte>, w1: Output, n1: nat, w2: Output, m: nat)
    requires w.Valid() && w1.Valid() && w2.Valid() && n1 <= |p| && m <= |p| - n1
    requires Progressed(w, p, w1, n1) && Progressed(w1, p[n1..], w2, m)
    ensures Progressed(w, p, w2, n1 + m)
  {
    assert p[n1..][m..] == p[n1 + m..];
    assert p[..n1 + m] == p[..n1] + p[n1..][..m];
  }
}
