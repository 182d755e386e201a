/** futures-util/src/io/line_writer.rs: a BufWriter that writes completed lines through. */
module LineWriters {
  import opened Runs
  import opened BufWriters

  const NEWLINE: Byte := 10

  predicate HasNewline(data: seq<Byte>) { NEWLINE in data }

  /** The buffered bytes end a line, or hold no newline at all. */
  predicate EndsLineOrNone(held: seq<Byte>) {
    HasNewline(held) ==> held[|held| - 1] == NEWLINE
  }

  /** ... and hold no newline before the last byte. */
  predicate OneLine(held: seq<Byte>) {
    forall i :: 0 <= i < |held| - 1 ==> held[i] != NEWLINE
  }

  /** The last newline among the first n bytes. */
  function LastNewlineBefore(data: seq<Byte>, n: nat): (r: Option<nat>)
    requires n <= |data|
    ensures r == None <==> forall i :: 0 <= i < n ==> data[i] != NEWLINE
    ensures r.Some? ==> r.value < n && data[r.value] == NEWLINE && forall i :: r.value < i < n ==> data[i] != NEWLINE
  {
    if n == 0 then None else if data[n - 1] == NEWLINE then Some(n - 1) else LastNewlineBefore(data, n - 1)
  }

  /** `memchr::memrchr(b'\n', data)`. */
  function LastNewline(data: seq<Byte>): (r: Option<nat>)
    ensures r == None <==> !HasNewline(data)
    ensures r.Some? ==> r.value < |data| && data[r.value] == NEWLINE && forall i :: r.value < i < |data| ==> data[i] != NEWLINE
  {
    LastNewlineBefore(data, |data|)
  }

  /** What poll_write buffers after the inner writer took `flushed` of the bytes up to newlineIndex. */
  function Tail(data: seq<Byte>, newlineIndex: nat, flushed: nat, capacity: nat): seq<Byte>
    requires newlineIndex <= |data| && flushed <= |data|
  {
    if flushed >= newlineIndex then data[flushed..]
    else if newlineIndex - flushed <= capacity then data[flushed..newlineIndex]
    else
      var scanArea := data[flushed..][..capacity];
      match LastNewline(scanArea)
      case Some(i) => scanArea[..i + 1]
      case None => scanArea
  }

  /** `write_to_buf` on an empty buffer. */
  function Buffered(data: seq<Byte>, newlineIndex: nat, flushed: nat, capacity: nat): seq<Byte>
    requires newlineIndex <= |data| && flushed <= |data|
  {
    var tail := Tail(data, newlineIndex, flushed, capacity);
    if |tail| <= capacity then tail else tail[..capacity]
  }

  lemma TailIsNext(data: seq<Byte>, newlineIndex: nat, flushed: nat, capacity: nat)
    requires flushed <= newlineIndex <= |data|
    ensures var b := Buffered(data, newlineIndex, flushed, capacity);
            |b| <= capacity && flushed + |b| <= |data| && b == data[flushed..flushed + |b|]
  {
    if flushed < newlineIndex && newlineIndex - flushed > capacity {
      assert data[flushed..][..capacity] == data[flushed..flushed + capacity];
    }
  }

  lemma TailEndsLine(data: seq<Byte>, newlineIndex: nat, flushed: nat, capacity: nat)
    requires flushed <= newlineIndex <= |data|
    requires 1 <= newlineIndex && data[newlineIndex - 1] == NEWLINE
    requires forall i :: newlineIndex <= i < |data| ==> data[i] != NEWLINE
    ensures EndsLineOrNone(Buffered(data, newlineIndex, flushed, capacity))
  {
    var b := Buffered(data, newlineIndex, flushed, capacity);
    if flushed >= newlineIndex {
      TailIsNext(data, newlineIndex, flushed, capacity);
      assert forall i :: 0 <= i < |b| ==> b[i] == data[flushed + i];
    } else if newlineIndex - flushed <= capacity {
      assert b[|b| - 1] == data[newlineIndex - 1];
    }
  }

  /** What is buffered follows what was flushed, and ends a line or holds no newline. */
  lemma BufferedIsNext(data: seq<Byte>, flushed: nat, capacity: nat)
    requires HasNewline(data) && flushed <= LastNewline(data).value + 1
    ensures var b := Buffered(data, LastNewline(data).value + 1, flushed, capacity);
            && |b| <= capacity && flushed + |b| <= |data| && b == data[flushed..flushed + |b|]
            && EndsLineOrNone(b)
  {
    var newlineIndex := LastNewline(data).value + 1;
    assert data[newlineIndex - 1] == NEWLINE;
    TailIsNext(data, newlineIndex, flushed, capacity);
    TailEndsLine(data, newlineIndex, flushed, capacity);
  }

  // ----- "no newline except as the last byte" -----

  /** Two newlines, not counting the first byte, in the span of one buffer. */
  ghost predicate TwoNewlinesWithin(data: seq<Byte>, capacity: nat) {
    exists p, q :: 1 <= p < q < |data| && q - p < capacity && data[p] == NEWLINE && data[q] == NEWLINE
  }

  ghost predicate OneLineAfter(data: seq<Byte>, flushed: nat, capacity: nat)
    requires HasNewline(data) && flushed <= LastNewline(data).value + 1
  {
    OneLine(Buffered(data, LastNewline(data).value + 1, flushed, capacity))
  }

  /** Whatever the inner writer takes, at least one byte, what is buffered is at most one line ... */
  ghost predicate AlwaysOneLine(data: seq<Byte>, capacity: nat)
    requires HasNewline(data)
  {
    forall flushed: nat :: 1 <= flushed <= LastNewline(data).value + 1 ==> OneLineAfter(data, flushed, capacity)
  }

  lemma SpanBuffersTwo(data: seq<Byte>, capacity: nat, p: nat, q: nat)
    requires HasNewline(data) && 1 <= p < q < |data| && q - p < capacity && data[p] == NEWLINE && data[q] == NEWLINE
    ensures q <= LastNewline(data).value && !OneLineAfter(data, p, capacity)
  {
    var newlineIndex := LastNewline(data).value + 1;
    var tail := Tail(data, newlineIndex, p, capacity);
    if newlineIndex - p > capacity {
      var scanArea := data[p..][..capacity];
      assert scanArea[q - p] == NEWLINE;
    }
    assert |tail| > q - p && tail[0] == NEWLINE;
  }

  lemma OneLineIfApart(data: seq<Byte>, flushed: nat, capacity: nat)
    requires HasNewline(data) && !TwoNewlinesWithin(data, capacity) && 1 <= flushed <= LastNewline(data).value + 1
    ensures OneLineAfter(data, flushed, capacity)
  {
    BufferedIsNext(data, flushed, capacity);
    var b := Buffered(data, LastNewline(data).value + 1, flushed, capacity);
    forall i | 0 <= i < |b| - 1 ensures b[i] != NEWLINE {
      assert b[i] == data[flushed + i] && b[|b| - 1] == data[flushed + |b| - 1];
    }
  }

  /** ... exactly when no two newlines after the first byte are that close. */
  lemma AlwaysOneLineIff(data: seq<Byte>, capacity: nat)
    requires HasNewline(data)
    ensures AlwaysOneLine(data, capacity) <==> !TwoNewlinesWithin(data, capacity)
  {
    if p, q :| 1 <= p < q < |data| && q - p < capacity && data[p] == NEWLINE && data[q] == NEWLINE {
      SpanBuffersTwo(data, capacity, p, q);
    } else {
      forall flushed: nat | 1 <= flushed <= LastNewline(data).value + 1 ensures OneLineAfter(data, flushed, capacity) {
        OneLineIfApart(data, flushed, capacity);
      }
    }
  }

  /** What is buffered after the inner writer, with its script before it, was offered the lines
      of data up to newlineIndex. */
  function BufferedBy(script: seq<Reply>, data: seq<Byte>, newlineIndex: nat, capacity: nat): (r: seq<Byte>)
    requires newlineIndex <= |data|
  {
    var answer := AnswerOf(script, newlineIndex);
    if answer.Ready? && answer.value.Ok? && answer.value.value > 0
    then Buffered(data, newlineIndex, answer.value.value, capacity)
    else []
  }

  lemma BufferedByIsOneLine(script: seq<Reply>, data: seq<Byte>, newlineIndex: nat, capacity: nat)
    requires HasNewline(data) && newlineIndex == LastNewline(data).value + 1
    ensures EndsLineOrNone(BufferedBy(script, data, newlineIndex, capacity))
    ensures !TwoNewlinesWithin(data, capacity) ==> OneLine(BufferedBy(script, data, newlineIndex, capacity))
  {
    var answer := AnswerOf(script, newlineIndex);
    if answer.Ready? && answer.value.Ok? && answer.value.value > 0 {
      var flushed := answer.value.value;
      BufferedIsNext(data, flushed, capacity);
      if !TwoNewlinesWithin(data, capacity) { OneLineIfApart(data, flushed, capacity); }
    }
  }

  // ----- the object -----

  lemma RestEndsLine(later: seq<Byte>, earlier: seq<Byte>)
    requires IsRest(later, earlier) && EndsLineOrNone(earlier)
    ensures EndsLineOrNone(later)
  {
    if later != [] {
      assert later[|later| - 1] == earlier[|earlier| - 1];
      if HasNewline(later) {
        var i :| 0 <= i < |later| && later[i] == NEWLINE;
        assert earlier[|earlier| - |later| + i] == NEWLINE;
      }
    }
  }

  lemma RestOneLine(later: seq<Byte>, earlier: seq<Byte>)
    requires IsRest(later, earlier) && OneLine(earlier)
    ensures OneLine(later)
  {
    forall i | 0 <= i < |later| - 1 ensures later[i] != NEWLINE {
      assert later[i] == earlier[|earlier| - |later| + i];
    }
  }

  /** What is left of bytes without a newline, after some of data without one was appended. */
  lemma NoNewlineAppended(later: seq<Byte>, held: seq<Byte>, p: Poll<Result<nat, IoError>>, data: seq<Byte>)
    requires !HasNewline(held) && !HasNewline(data) && AcceptsPrefix(p, data) && IsRest(later, held + Accepted(p, data))
    ensures EndsLineOrNone(later) && OneLine(later)
  {
    var all := held + Accepted(p, data);
    assert !HasNewline(all);
    RestEndsLine(later, all);
    RestOneLine(later, all);
  }

  predicate EndsLine(buf: seq<Byte>) { buf != [] && buf[|buf| - 1] == NEWLINE }

  /** What poll_write answers when the inner writer has answered `a` to the lines up to
      newlineIndex: the bytes it took, and those that have been buffered behind them. */
  predicate Lines(p: Poll<Result<nat, IoError>>, a: Poll<Result<nat, IoError>>, data: seq<Byte>, newlineIndex: nat, capacity: nat, buf: seq<Byte>)
    requires newlineIndex <= |data|
  {
    && a.Ready? && a.value.Ok? && a.value.value <= newlineIndex
    && var flushed := a.value.value;
       if flushed == 0 then p == a && buf == []
       else buf == Buffered(data, newlineIndex, flushed, capacity) && p == Ready(Ok(flushed + |buf|))
  }

  /** And poll_write_vectored, for `lines` and the slices behind them. */
  predicate LineSlices(p: Poll<Result<nat, IoError>>, a: Poll<Result<nat, IoError>>, lines: seq<Byte>, tail: seq<Byte>, capacity: nat, buf: seq<Byte>)
  {
    && a.Ready? && a.value.Ok? && a.value.value <= |lines|
    && var flushed := a.value.value;
       if flushed < |lines| || flushed == 0 then p == a && buf == []
       else buf == (if |tail| <= capacity then tail else tail[..capacity]) && p == Ready(Ok(flushed + |buf|))
  }

  predicate LastLineSlice(bufs: seq<seq<Byte>>, i: int) {
    0 <= i < |bufs| && HasNewline(bufs[i]) && forall k :: i < k < |bufs| ==> !HasNewline(bufs[k])
  }

  class LineWriter {
    const bufWriter: BufWriter

    ghost predicate Valid()
      reads this, bufWriter, bufWriter.inner
    {
      bufWriter.Valid() && EndsLineOrNone(bufWriter.Held())
    }

    constructor (capacity: nat, w: Writer)
      ensures Valid() && fresh(bufWriter) && bufWriter.inner == w && bufWriter.cap == capacity
      ensures bufWriter.buf == [] && bufWriter.accepted == w.taken
    {
      bufWriter := new BufWriter(capacity, w);
    }

    lemma FlushedRest(earlier: seq<Byte>)
      requires bufWriter.written <= |bufWriter.buf| && IsRest(bufWriter.Held(), earlier) && EndsLineOrNone(earlier)
      ensures EndsLineOrNone(bufWriter.Held())
      ensures OneLine(earlier) ==> OneLine(bufWriter.Held())
    {
      RestEndsLine(bufWriter.Held(), earlier);
      if OneLine(earlier) { RestOneLine(bufWriter.Held(), earlier); }
    }

    /** Flushes if the last buffered byte is a newline. */
    method FlushIfCompletedLine() returns (p: Poll<Result<(), IoError>>)
      requires Valid()
      modifies bufWriter, bufWriter.inner
      ensures Valid() && bufWriter.accepted == old(bufWriter.accepted) && IsRest(bufWriter.Held(), old(bufWriter.Held()))
      ensures p.Ready? && p.value.Ok? ==> !HasNewline(bufWriter.Held())
      ensures OneLine(old(bufWriter.Held())) ==> OneLine(bufWriter.Held())
      ensures Blames(p, old(bufWriter.inner.answers), bufWriter.inner.answers)
      ensures !EndsLine(old(bufWriter.buf)) ==>
                p == Ready(Ok(())) && bufWriter.buf == old(bufWriter.buf) && bufWriter.written == old(bufWriter.written)
                && bufWriter.inner.answers == old(bufWriter.inner.answers)
    {
      if bufWriter.buf != [] && bufWriter.buf[|bufWriter.buf| - 1] == NEWLINE {
        p := bufWriter.FlushBuf();
        FlushedRest(old(bufWriter.Held()));
      } else {
        p := Ready(Ok(()));
      }
    }

    /** The buffered bytes hold at most one line, if they did before and no two newlines of the
        data are within one capacity.  On an empty buffer the inner writer's answers to the
        flush and to the write decide what is buffered. */
    method PollWrite(data: seq<Byte>) returns (p: Poll<Result<nat, IoError>>)
      requires Valid()
      modifies bufWriter, bufWriter.inner
      ensures Valid() && AcceptsPrefix(p, data)
      ensures bufWriter.accepted == old(bufWriter.accepted) + Accepted(p, data)
      ensures OneLine(old(bufWriter.Held())) && !TwoNewlinesWithin(data, bufWriter.cap) ==> OneLine(bufWriter.Held())
      ensures HasNewline(data) && old(bufWriter.buf) == [] && GoesOn(old(bufWriter.inner.script)) ==>
                bufWriter.Held() == BufferedBy(Later(old(bufWriter.inner.script)), data, LastNewline(data).value + 1, bufWriter.cap)
      ensures Blames(p, old(bufWriter.inner.answers), bufWriter.inner.answers)
      ensures !HasNewline(data) && !EndsLine(old(bufWriter.buf)) && |old(bufWriter.buf)| + |data| <= bufWriter.cap && |data| < bufWriter.cap ==>
                p == Ready(Ok(|data|)) && bufWriter.buf == old(bufWriter.buf) + data && bufWriter.inner.answers == old(bufWriter.inner.answers)
      ensures HasNewline(data) && p.Ready? && p.value.Ok? ==>
                |bufWriter.inner.answers| > 0
                && Lines(p, bufWriter.inner.answers[|bufWriter.inner.answers| - 1], data, LastNewline(data).value + 1, bufWriter.cap, bufWriter.buf)
    {
      match LastNewline(data)
      case None => p := WriteWithoutNewline(data);
      case Some(i) => p := WriteUpToNewline(data, i + 1);
    }

    method WriteUpToNewline(data: seq<Byte>, newlineIndex: nat) returns (p: Poll<Result<nat, IoError>>)
      requires Valid() && HasNewline(data) && newlineIndex == LastNewline(data).value + 1
      modifies bufWriter, bufWriter.inner
      ensures Valid() && AcceptsPrefix(p, data)
      ensures bufWriter.accepted == old(bufWriter.accepted) + Accepted(p, data)
      ensures OneLine(old(bufWriter.Held())) && !TwoNewlinesWithin(data, bufWriter.cap) ==> OneLine(bufWriter.Held())
      ensures old(bufWriter.buf) == [] && GoesOn(old(bufWriter.inner.script)) ==>
                bufWriter.Held() == BufferedBy(Later(old(bufWriter.inner.script)), data, newlineIndex, bufWriter.cap)
      ensures Blames(p, old(bufWriter.inner.answers), bufWriter.inner.answers)
      ensures p.Ready? && p.value.Ok? ==>
                |bufWriter.inner.answers| > 0
                && Lines(p, bufWriter.inner.answers[|bufWriter.inner.answers| - 1], data, newlineIndex, bufWriter.cap, bufWriter.buf)
    {
      var f := bufWriter.PollFlush();
      FlushedRest(old(bufWriter.Held()));
      if f.Pending? {
        return Pending;
      }
      if f.value.Err? {
        return Ready(Err(f.value.error));
      }
      BufferedByIsOneLine(bufWriter.inner.script, data, newlineIndex, bufWriter.cap);
      ghost var before := bufWriter.inner.answers;
      p := WriteLines(data, newlineIndex);
      BlamesSince(p, old(bufWriter.inner.answers), before, bufWriter.inner.answers);
    }

    method WriteWithoutNewline(data: seq<Byte>) returns (p: Poll<Result<nat, IoError>>)
      requires Valid() && !HasNewline(data)
      modifies bufWriter, bufWriter.inner
      ensures Valid() && AcceptsPrefix(p, data)
      ensures bufWriter.accepted == old(bufWriter.accepted) + Accepted(p, data)
      ensures OneLine(old(bufWriter.Held())) ==> OneLine(bufWriter.Held())
      ensures Blames(p, old(bufWriter.inner.answers), bufWriter.inner.answers)
      ensures !EndsLine(old(bufWriter.buf)) && |old(bufWriter.buf)| + |data| <= bufWriter.cap && |data| < bufWriter.cap ==>
                p == Ready(Ok(|data|)) && bufWriter.buf == old(bufWriter.buf) + data && bufWriter.inner.answers == old(bufWriter.inner.answers)
    {
      var f := FlushIfCompletedLine();
      if f.Pending? {
        return Pending;
      }
      if f.value.Err? {
        return Ready(Err(f.value.error));
      }
      ghost var held, before := bufWriter.Held(), bufWriter.inner.answers;
      p := bufWriter.PollWrite(data);
      NoNewlineAppended(bufWriter.Held(), held, p, data);
      BlamesSince(p, old(bufWriter.inner.answers), before, bufWriter.inner.answers);
    }

    /** The lines go to the inner writer, and what follows what it took into the buffer. */
    method WriteLines(data: seq<Byte>, newlineIndex: nat) returns (p: Poll<Result<nat, IoError>>)
      requires Valid() && bufWriter.buf == [] && HasNewline(data) && newlineIndex == LastNewline(data).value + 1
      modifies bufWriter, bufWriter.inner
      ensures Valid() && AcceptsPrefix(p, data)
      ensures bufWriter.accepted == old(bufWriter.accepted) + Accepted(p, data)
      ensures bufWriter.Held() == BufferedBy(old(bufWriter.inner.script), data, newlineIndex, bufWriter.cap)
      ensures Blames(p, old(bufWriter.inner.answers), bufWriter.inner.answers)
      ensures p.Ready? && p.value.Ok? ==>
                |bufWriter.inner.answers| > 0
                && Lines(p, bufWriter.inner.answers[|bufWriter.inner.answers| - 1], data, newlineIndex, bufWriter.cap, bufWriter.buf)
    {
      var q := bufWriter.PollWriteInner(data[..newlineIndex]);
      if q.Pending? || q.value.Err? {
        return q;
      }
      var flushed := q.value.value;
      if flushed == 0 {
        return Ready(Ok(0));
      }
      assert data[..newlineIndex][..flushed] == data[..flushed];
      BufferedIsNext(data, flushed, bufWriter.cap);
      var buffered := BufferRest(data, newlineIndex, flushed);
      assert data[..flushed] + data[flushed..flushed + buffered] == data[..flushed + buffered];
      p := Ready(Ok(flushed + buffered));
    }

    /** Chooses the tail and puts what fits of it into the buffer. */
    method BufferRest(data: seq<Byte>, newlineIndex: nat, flushed: nat) returns (buffered: nat)
      requires bufWriter.Valid() && bufWriter.buf == [] && flushed <= newlineIndex <= |data|
      modifies bufWriter
      ensures bufWriter.Valid() && bufWriter.written == 0
      ensures bufWriter.buf == Buffered(data, newlineIndex, flushed, bufWriter.cap) && buffered == |bufWriter.buf|
      ensures bufWriter.accepted == old(bufWriter.accepted) + bufWriter.buf
    {
      var tail := Tail(data, newlineIndex, flushed, bufWriter.cap);
      buffered := bufWriter.WriteToBuf(tail);
      assert [] + tail[..buffered] == tail[..buffered];
    }

    /** `poll_flush` and `poll_close`. */
    method PollFlush() returns (p: Poll<Result<(), IoError>>)
      requires Valid()
      modifies bufWriter, bufWriter.inner
      ensures Valid() && bufWriter.accepted == old(bufWriter.accepted)
      ensures p.Ready? && p.value.Ok? ==> bufWriter.inner.taken == bufWriter.accepted
      ensures Blames(p, old(bufWriter.inner.answers), bufWriter.inner.answers)
    {
      p := bufWriter.PollFlush();
      RestEndsLine(bufWriter.Held(), old(bufWriter.Held()));
    }

    /** The last slice that holds a newline. */
    method LastSliceWithNewline(bufs: seq<seq<Byte>>) returns (r: Option<nat>)
      ensures r == None <==> forall k :: 0 <= k < |bufs| ==> !HasNewline(bufs[k])
      ensures r.Some? ==> r.value < |bufs| && HasNewline(bufs[r.value]) && forall k :: r.value < k < |bufs| ==> !HasNewline(bufs[k])
    {
      var i := |bufs|;
      while i > 0
        invariant 0 <= i <= |bufs| && forall k :: i <= k < |bufs| ==> !HasNewline(bufs[k])
      {
        i := i - 1;
        if HasNewline(bufs[i]) {
          return Some(i);
        }
      }
      r := None;
    }

    method PollWriteVectored(bufs: seq<seq<Byte>>) returns (p: Poll<Result<nat, IoError>>)
      requires Valid()
      modifies bufWriter, bufWriter.inner
      ensures Valid() && AcceptsPrefix(p, Concat(bufs))
      ensures bufWriter.accepted == old(bufWriter.accepted) + Accepted(p, Concat(bufs))
      ensures OneLine(old(bufWriter.Held())) ==> OneLine(bufWriter.Held())
      ensures Blames(p, old(bufWriter.inner.answers), bufWriter.inner.answers)
      ensures (forall k :: 0 <= k < |bufs| ==> !HasNewline(bufs[k]))
              && !EndsLine(old(bufWriter.buf)) && |old(bufWriter.buf)| + |Concat(bufs)| <= bufWriter.cap && |Concat(bufs)| < bufWriter.cap ==>
                p == Ready(Ok(|Concat(bufs)|)) && bufWriter.buf == old(bufWriter.buf) + Concat(bufs)
                && bufWriter.inner.answers == old(bufWriter.inner.answers)
      ensures forall i :: LastLineSlice(bufs, i) && p.Ready? && p.value.Ok? ==>
                |bufWriter.inner.answers| > 0
                && LineSlices(p, bufWriter.inner.answers[|bufWriter.inner.answers| - 1], Concat(bufs[..i + 1]), Concat(bufs[i + 1..]), bufWriter.cap, bufWriter.buf)
    {
      var last := LastSliceWithNewline(bufs);
      match last
      case None => p := WriteSlicesWithoutNewline(bufs);
      case Some(i) => p := WriteSlicesUpToNewline(bufs, i);
    }

    method WriteSlicesWithoutNewline(bufs: seq<seq<Byte>>) returns (p: Poll<Result<nat, IoError>>)
      requires Valid() && forall k :: 0 <= k < |bufs| ==> !HasNewline(bufs[k])
      modifies bufWriter, bufWriter.inner
      ensures Valid() && AcceptsPrefix(p, Concat(bufs))
      ensures bufWriter.accepted == old(bufWriter.accepted) + Accepted(p, Concat(bufs))
      ensures OneLine(old(bufWriter.Held())) ==> OneLine(bufWriter.Held())
      ensures Blames(p, old(bufWriter.inner.answers), bufWriter.inner.answers)
      ensures !EndsLine(old(bufWriter.buf)) && |old(bufWriter.buf)| + |Concat(bufs)| <= bufWriter.cap && |Concat(bufs)| < bufWriter.cap ==>
                p == Ready(Ok(|Concat(bufs)|)) && bufWriter.buf == old(bufWriter.buf) + Concat(bufs)
                && bufWriter.inner.answers == old(bufWriter.inner.answers)
    {
      ghost var data := Concat(bufs);
      NoNewlines(bufs);
      var f := FlushIfCompletedLine();
      if f.Pending? {
        return Pending;
      }
      if f.value.Err? {
        return Ready(Err(f.value.error));
      }
      ghost var held, before := bufWriter.Held(), bufWriter.inner.answers;
      p := bufWriter.PollWriteVectored(bufs);
      NoNewlineAppended(bufWriter.Held(), held, p, data);
      BlamesSince(p, old(bufWriter.inner.answers), before, bufWriter.inner.answers);
    }

    method WriteSlicesUpToNewline(bufs: seq<seq<Byte>>, i: nat) returns (p: Poll<Result<nat, IoError>>)
      requires Valid() && LastLineSlice(bufs, i)
      modifies bufWriter, bufWriter.inner
      ensures Valid() && AcceptsPrefix(p, Concat(bufs))
      ensures bufWriter.accepted == old(bufWriter.accepted) + Accepted(p, Concat(bufs))
      ensures OneLine(old(bufWriter.Held())) ==> OneLine(bufWriter.Held())
      ensures Blames(p, old(bufWriter.inner.answers), bufWriter.inner.answers)
      ensures p.Ready? && p.value.Ok? ==>
                |bufWriter.inner.answers| > 0
                && LineSlices(p, bufWriter.inner.answers[|bufWriter.inner.answers| - 1], Concat(bufs[..i + 1]), Concat(bufs[i + 1..]), bufWriter.cap, bufWriter.buf)
    {
      var f := bufWriter.PollFlush();
      FlushedRest(old(bufWriter.Held()));
      if f.Pending? {
        return Pending;
      }
      if f.value.Err? {
        return Ready(Err(f.value.error));
      }
      ghost var before := bufWriter.inner.answers;
      assert bufs[..i + 1] + bufs[i + 1..] == bufs;
      p := WriteLinesVectored(bufs[..i + 1], bufs[i + 1..]);
      BlamesSince(p, old(bufWriter.inner.answers), before, bufWriter.inner.answers);
    }

    method WriteLinesVectored(lines: seq<seq<Byte>>, tail: seq<seq<Byte>>) returns (p: Poll<Result<nat, IoError>>)
      requires Valid() && bufWriter.buf == [] && forall k :: 0 <= k < |tail| ==> !HasNewline(tail[k])
      modifies bufWriter, bufWriter.inner
      ensures Valid() && AcceptsPrefix(p, Concat(lines + tail))
      ensures bufWriter.accepted == old(bufWriter.accepted) + Accepted(p, Concat(lines + tail))
      ensures !HasNewline(bufWriter.Held())
      ensures Blames(p, old(bufWriter.inner.answers), bufWriter.inner.answers)
      ensures p.Ready? && p.value.Ok? ==>
                |bufWriter.inner.answers| > 0
                && LineSlices(p, bufWriter.inner.answers[|bufWriter.inner.answers| - 1], Concat(lines), Concat(tail), bufWriter.cap, bufWriter.buf)
    {
      ConcatSplit(lines, tail);
      var q := bufWriter.PollWriteVectoredInner(lines);
      if q.Pending? || q.value.Err? {
        return q;
      }
      var flushed := q.value.value;
      TakeOfAppend(Concat(lines), Concat(tail), flushed);
      if flushed == 0 {
        return Ready(Ok(0));
      }
      var linesLen := bufWriter.TotalLen(lines);
      if flushed < linesLen {
        return Ready(Ok(flushed));
      }
      var buffered := BufferTail(tail);
      AppendTake(old(bufWriter.accepted), Concat(lines), Concat(tail), buffered);
      p := Ready(Ok(flushed + buffered));
    }

    /** Buffers slice after slice, as long as any of it fits. */
    method BufferTail(tail: seq<seq<Byte>>) returns (buffered: nat)
      requires Valid() && bufWriter.buf == [] && forall k :: 0 <= k < |tail| ==> !HasNewline(tail[k])
      modifies bufWriter
      ensures Valid() && buffered <= |Concat(tail)|
      ensures bufWriter.buf == Concat(tail)[..buffered]
      ensures bufWriter.accepted == old(bufWriter.accepted) + Concat(tail)[..buffered]
      ensures !HasNewline(bufWriter.Held()) && bufWriter.written == 0
      ensures buffered == |Concat(tail)| || buffered == bufWriter.cap
    {
      buffered := 0;
      var i := 0;
      NoNewlines(tail);
      assert tail[..|tail|] == tail;
      while i < |tail|
        invariant 0 <= i <= |tail| && bufWriter.Valid() && bufWriter.written == 0
        invariant buffered <= |Concat(tail)| && bufWriter.buf == Concat(tail)[..buffered]
        invariant bufWriter.accepted == old(bufWriter.accepted) + Concat(tail)[..buffered]
        invariant buffered == |Concat(tail[..i])| || buffered == bufWriter.cap
      {
        ConcatAt(tail, i);
        if tail[i] != [] {
          var n := bufWriter.WriteToBuf(tail[i]);
          if n == 0 {
            assert buffered == bufWriter.cap;
            break;
          }
          assert Concat(tail)[..buffered] + tail[i][..n] == Concat(tail)[..buffered + n];
          buffered := buffered + n;
        }
        i := i + 1;
      }
    }
  }

  lemma BufferedByOne(data: seq<Byte>, newlineIndex: nat, capacity: nat, n: nat)
    requires 1 <= n <= newlineIndex <= |data|
    ensures BufferedBy([Takes(n)], data, newlineIndex, capacity) == Buffered(data, newlineIndex, n, capacity)
  {
    assert AnswerOf([Takes(n)], newlineIndex) == Ready(Ok(n));
  }

  /** A first write whose inner writer takes n bytes. */
  method WriteOnce(data: seq<Byte>, newlineIndex: nat, capacity: nat, n: nat) returns (writer: LineWriter)
    requires HasNewline(data) && 1 <= n <= newlineIndex == LastNewline(data).value + 1
    ensures fresh(writer) && writer.Valid() && writer.bufWriter.cap == capacity && writer.bufWriter.accepted <= data
    ensures writer.bufWriter.Held() == Buffered(data, newlineIndex, n, capacity)
  {
    var inner := new Writer([Takes(0), Takes(n)]);
    assert Later(inner.script) == [Takes(n)];
    writer := new LineWriter(capacity, inner);
    BufferedByOne(data, newlineIndex, capacity, n);
    var answer := writer.PollWrite(data);
    assert writer.bufWriter.accepted == Accepted(answer, data);
  }

  /** Whenever two newlines after the first byte of the data are within one capacity, an inner
      writer that takes what is before the first of them makes LineWriter hold a newline that
      is not the last byte. */
  method TwoLinesBuffered(data: seq<Byte>, capacity: nat) returns (writer: LineWriter)
    requires TwoNewlinesWithin(data, capacity)
    ensures fresh(writer) && writer.Valid() && writer.bufWriter.cap == capacity && writer.bufWriter.accepted <= data
    ensures !OneLine(writer.bufWriter.Held())
  {
    var p, q :| 1 <= p < q < |data| && q - p < capacity && data[p] == NEWLINE && data[q] == NEWLINE;
    SpanBuffersTwo(data, capacity, p, q);
    writer := WriteOnce(data, LastNewline(data).value + 1, capacity, p);
  }

  lemma TakeOfAppend<T>(a: seq<T>, b: seq<T>, n: nat)
    requires n <= |a|
    ensures (a + b)[..n] == a[..n]
  {
  }

  lemma AppendTake<T>(before: seq<T>, a: seq<T>, b: seq<T>, n: nat)
    requires n <= |b|
    ensures before + a[..|a|] + b[..n] == before + (a + b)[..|a| + n]
  {
    assert (a + b)[..|a| + n] == a[..|a|] + b[..n];
  }

  lemma ConcatAt(bufs: seq<seq<Byte>>, i: nat)
    requires i < |bufs|
    ensures Concat(bufs[..i + 1]) == Concat(bufs[..i]) + bufs[i]
    ensures Concat(bufs) == Concat(bufs[..i + 1]) + Concat(bufs[i + 1..])
  {
    ConcatNext(bufs, i);
    ConcatSplit(bufs[..i + 1], bufs[i + 1..]);
    TakeNext(bufs, i);
  }

  lemma {:induction false} NoNewlines(bufs: seq<seq<Byte>>)
    requires forall k :: 0 <= k < |bufs| ==> !HasNewline(bufs[k])
    ensures !HasNewline(Concat(bufs))
  {
    if bufs != [] {
      NoNewlines(bufs[1..]);
    }
  }
}
