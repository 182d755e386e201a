/** futures-util/src/io/buf_writer.rs: the buffer loses, repeats and reorders nothing, whatever
    the inner writer does. */
module BufWriters {
  import opened Runs

  newtype Byte = x: int | 0 <= x < 256

  datatype IoError = WriteZero | Failed(code: nat)

  function Concat(bufs: seq<seq<Byte>>): seq<Byte> {
    if bufs == [] then [] else bufs[0] + Concat(bufs[1..])
  }

  lemma {:induction false} ConcatSplit(a: seq<seq<Byte>>, b: seq<seq<Byte>>)
    ensures Concat(a + b) == Concat(a) + Concat(b)
  {
    if a == [] {
      assert a + b == b;
    } else {
      ConcatSplit(a[1..], b);
      assert (a + b)[1..] == a[1..] + b;
      assert Concat(a) + Concat(b) == a[0] + (Concat(a[1..]) + Concat(b));
    }
  }

  lemma TakeNext<T>(a: seq<T>, i: nat)
    requires i < |a|
    ensures a[..i] + [a[i]] == a[..i + 1] && a[..i + 1] + a[i + 1..] == a
  {
  }

  lemma ConcatNext(bufs: seq<seq<Byte>>, i: nat)
    requires i < |bufs|
    ensures Concat(bufs[..i + 1]) == Concat(bufs[..i]) + bufs[i]
  {
    ConcatSplit(bufs[..i], [bufs[i]]);
    TakeNext(bufs, i);
    assert Concat([bufs[i]]) == bufs[i];
  }

  /** Bytes taken from the front of what is held. */
  lemma TakeMore(taken: seq<Byte>, buf: seq<Byte>, written: nat, n: nat)
    requires written + n <= |buf|
    ensures taken + buf[written..][..n] + buf[written + n..] == taken + buf[written..]
  {
    assert buf[written..] == buf[written..][..n] + buf[written + n..];
  }

  /** An answer of the inner writer: it pends, fails, or takes up to n bytes. */
  datatype Reply = Pends | Fails(code: nat) | Takes(n: nat)

  /** What a call offering `size` bytes returns; a writer whose script has run out pends. */
  function AnswerOf(script: seq<Reply>, size: nat): Poll<Result<nat, IoError>> {
    if script == [] then Pending
    else match script[0]
         case Pends => Pending
         case Fails(code) => Ready(Err(Failed(code)))
         case Takes(n) => Ready(Ok(if n <= size then n else size))
  }

  /** The next answer is neither Pending nor an error. */
  predicate GoesOn(script: seq<Reply>) { script != [] && script[0].Takes? }

  function Later(script: seq<Reply>): seq<Reply> { if script == [] then [] else script[1..] }

  /** The inner writer: whatever its script says, call by call, it pends, fails, or takes a
      prefix, also an empty one, of what it is given.  Results hold for every script. */
  class Writer {
    var script: seq<Reply>
    var taken: seq<Byte>
    ghost var answers: seq<Poll<Result<nat, IoError>>>    // what its calls have returned so far

    constructor (replies: seq<Reply>)
      ensures taken == [] && script == replies && answers == []
    {
      script, taken, answers := replies, [], [];
    }

    method PollWrite(data: seq<Byte>) returns (p: Poll<Result<nat, IoError>>)
      modifies this
      ensures p == AnswerOf(old(script), |data|) && script == Later(old(script))
      ensures AcceptsPrefix(p, data) && taken == old(taken) + Accepted(p, data)
      ensures answers == old(answers) + [p]
    {
      p := AnswerOf(script, |data|);
      script := Later(script);
      taken := taken + Accepted(p, data);
      answers := answers + [p];
    }

    method PollWriteVectored(bufs: seq<seq<Byte>>) returns (p: Poll<Result<nat, IoError>>)
      modifies this
      ensures p == AnswerOf(old(script), |Concat(bufs)|) && script == Later(old(script))
      ensures AcceptsPrefix(p, Concat(bufs)) && taken == old(taken) + Accepted(p, Concat(bufs))
      ensures answers == old(answers) + [p]
    {
      p := PollWrite(Concat(bufs));
    }

    /** `poll_flush` or `poll_close`. */
    method PollDone() returns (p: Poll<Result<(), IoError>>)
      modifies this
      ensures taken == old(taken) && script == Later(old(script))
      ensures GoesOn(old(script)) ==> p == Ready(Ok(()))
      ensures |answers| == |old(answers)| + 1 && Blames(p, old(answers), answers)
    {
      var answer := AnswerOf(script, 0);
      script := Later(script);
      answers := answers + [answer];
      match answer
      case Pending => p := Pending;
      case Ready(Err(e)) => p := Ready(Err(e));
      case Ready(Ok(_)) => p := Ready(Ok(()));
    }
  }

  /** The answer p is the inner writer's fault: it pends because the last call of the inner writer
      did, and fails with the error of that call, or because that call took nothing. */
  predicate Blames<T>(p: Poll<Result<T, IoError>>, before: seq<Poll<Result<nat, IoError>>>, after: seq<Poll<Result<nat, IoError>>>) {
    && |before| <= |after| && before == after[..|before|]
    && (p.Pending? ==> |before| < |after| && after[|after| - 1] == Pending)
    && (p.Ready? && p.value.Err? ==>
          && |before| < |after|
          && (after[|after| - 1] == Ready(Err(p.value.error)) || (p.value.error == WriteZero && after[|after| - 1] == Ready(Ok(0)))))
  }

  lemma BlamesSince<T>(
    p: Poll<Result<T, IoError>>, first: seq<Poll<Result<nat, IoError>>>, before: seq<Poll<Result<nat, IoError>>>, after: seq<Poll<Result<nat, IoError>>>)
    requires |first| <= |before| && first == before[..|first|] && Blames(p, before, after)
    ensures Blames(p, first, after)
  {
    assert after[..|first|] == after[..|before|][..|first|];
  }

  /** What a call that answers p has accepted of data. */
  function Accepted(p: Poll<Result<nat, IoError>>, data: seq<Byte>): seq<Byte>
    requires p.Ready? && p.value.Ok? ==> p.value.value <= |data|
  {
    if p.Ready? && p.value.Ok? then data[..p.value.value] else []
  }

  predicate AcceptsPrefix(p: Poll<Result<nat, IoError>>, data: seq<Byte>) {
    p.Ready? && p.value.Ok? ==> p.value.value <= |data|
  }

  /** later is what is left of earlier after some of its front has gone. */
  predicate IsRest(later: seq<Byte>, earlier: seq<Byte>) {
    |later| <= |earlier| && later == earlier[|earlier| - |later|..]
  }

  class BufWriter {
    const inner: Writer
    const cap: nat                  // the capacity of the vector
    var buf: seq<Byte>
    var written: nat
    ghost var accepted: seq<Byte>   // the concatenation of all accepted prefixes

    /** Accepted bytes that the inner writer has not taken. */
    function Held(): seq<Byte>
      requires written <= |buf|
      reads this
    {
      buf[written..]
    }

    ghost predicate Valid()
      reads this, inner
    {
      && written <= |buf| <= cap
      && inner.taken + Held() == accepted
      && (buf == [] ==> written == 0)
    }

    constructor (capacity: nat, w: Writer)
      ensures Valid() && inner == w && cap == capacity && buf == [] && accepted == w.taken
    {
      inner, cap, buf, written, accepted := w, capacity, [], 0, w.taken;
    }

    /** Moves what it can to the inner writer.  When it is interrupted, `written` remembers how
        far it came; otherwise what has gone is drained from the buffer. */
    method FlushBuf() returns (p: Poll<Result<(), IoError>>)
      requires Valid()
      modifies this, inner
      ensures Valid() && accepted == old(accepted) && IsRest(Held(), old(Held()))
      ensures p.Pending? ==> buf == old(buf) && written < |buf|
      ensures p.Ready? && p.value.Ok? ==> buf == []
      ensures p.Ready? && p.value.Err? ==> buf != [] && written == 0
      ensures old(buf) == [] ==> inner.script == old(inner.script)
      ensures Blames(p, old(inner.answers), inner.answers)
    {
      var len := |buf|;
      var ret: Result<(), IoError> := Ok(());
      while written < len
        invariant buf == old(buf) && len == |buf| && old(written) <= written <= len && ret == Ok(())
        invariant inner.taken + Held() == accepted == old(accepted)
        invariant len == 0 ==> inner.script == old(inner.script)
        invariant |old(inner.answers)| <= |inner.answers| && inner.answers[..|old(inner.answers)|] == old(inner.answers)
        decreases len - written
      {
        ghost var was := inner.taken;
        var q := inner.PollWrite(buf[written..]);
        if q.Pending? {
          return Pending;
        }
        match q.value
        case Err(e) =>
          ret := Err(e);
          break;
        case Ok(n) =>
          if n == 0 {
            ret := Err(WriteZero);
            break;
          }
          TakeMore(was, buf, written, n);
          written := written + n;
      }
      if written > 0 {
        buf := buf[written..];
      }
      written := 0;
      p := Ready(ret);
    }

    /** Truncates to the spare capacity. */
    method WriteToBuf(data: seq<Byte>) returns (n: nat)
      requires Valid()
      modifies this
      ensures Valid() && n == (if |data| <= cap - |old(buf)| then |data| else cap - |old(buf)|)
      ensures buf == old(buf) + data[..n] && written == old(written) && accepted == old(accepted) + data[..n]
    {
      var available := cap - |buf|;
      n := if available <= |data| then available else |data|;
      assert (buf + data[..n])[written..] == buf[written..] + data[..n];
      assert inner.taken + (Held() + data[..n]) == (inner.taken + Held()) + data[..n];
      buf := buf + data[..n];
      accepted := accepted + data[..n];
    }

    method PollWrite(data: seq<Byte>) returns (p: Poll<Result<nat, IoError>>)
      requires Valid()
      modifies this, inner
      ensures Valid() && AcceptsPrefix(p, data) && accepted == old(accepted) + Accepted(p, data)
      ensures IsRest(Held(), old(Held()) + Accepted(p, data))
      ensures Blames(p, old(inner.answers), inner.answers)
      ensures |old(buf)| + |data| <= cap && |data| < cap ==>
                p == Ready(Ok(|data|)) && buf == old(buf) + data && inner.answers == old(inner.answers) && inner.script == old(inner.script)
      ensures p.Ready? && p.value.Ok? ==>
                if |data| < cap then p.value.value == |data|
                else buf == [] && |old(inner.answers)| < |inner.answers| && inner.answers[|inner.answers| - 1] == p
    {
      if |buf| + |data| > cap {
        var f := FlushBuf();
        if f.Pending? {
          assert old(Held()) + [] == old(Held());
          return Pending;
        }
        if f.value.Err? {
          assert old(Held()) + [] == old(Held());
          return Ready(Err(f.value.error));
        }
      }
      if |data| >= cap {
        p := PollWriteInner(data);
      } else {
        ghost var h := Held();
        var n := WriteToBuf(data);
        assert data[..n] == data;
        assert Held() == h + data;
        p := Ready(Ok(n));
      }
    }

    /** `inner_poll_write`: past the buffer, which must be empty for the order to be kept. */
    method PollWriteInner(data: seq<Byte>) returns (p: Poll<Result<nat, IoError>>)
      requires Valid() && buf == []
      modifies this, inner
      ensures Valid() && AcceptsPrefix(p, data) && accepted == old(accepted) + Accepted(p, data)
      ensures buf == [] && written == old(written)
      ensures p == AnswerOf(old(inner.script), |data|) && inner.script == Later(old(inner.script))
      ensures inner.answers == old(inner.answers) + [p]
    {
      p := inner.PollWrite(data);
      accepted := accepted + Accepted(p, data);
    }

    method PollWriteVectoredInner(bufs: seq<seq<Byte>>) returns (p: Poll<Result<nat, IoError>>)
      requires Valid() && buf == []
      modifies this, inner
      ensures Valid() && AcceptsPrefix(p, Concat(bufs)) && accepted == old(accepted) + Accepted(p, Concat(bufs))
      ensures buf == [] && written == old(written)
      ensures inner.answers == old(inner.answers) + [p]
    {
      p := inner.PollWriteVectored(bufs);
      accepted := accepted + Accepted(p, Concat(bufs));
    }

    method TotalLen(bufs: seq<seq<Byte>>) returns (total: nat)
      ensures total == |Concat(bufs)|
    {
      total := 0;
      var i := 0;
      while i < |bufs|
        invariant 0 <= i <= |bufs| && total == |Concat(bufs[..i])|
      {
        ConcatNext(bufs, i);
        total := total + |bufs[i]|;
        i := i + 1;
      }
      assert bufs[..|bufs|] == bufs;
    }

    method PollWriteVectored(bufs: seq<seq<Byte>>) returns (p: Poll<Result<nat, IoError>>)
      requires Valid()
      modifies this, inner
      ensures Valid() && AcceptsPrefix(p, Concat(bufs)) && accepted == old(accepted) + Accepted(p, Concat(bufs))
      ensures IsRest(Held(), old(Held()) + Accepted(p, Concat(bufs)))
      ensures Blames(p, old(inner.answers), inner.answers)
      ensures |old(buf)| + |Concat(bufs)| <= cap && |Concat(bufs)| < cap ==>
                p == Ready(Ok(|Concat(bufs)|)) && buf == old(buf) + Concat(bufs)
                && inner.answers == old(inner.answers) && inner.script == old(inner.script)
      ensures p.Ready? && p.value.Ok? ==>
                if |Concat(bufs)| < cap then p.value.value == |Concat(bufs)|
                else buf == [] && |old(inner.answers)| < |inner.answers| && inner.answers[|inner.answers| - 1] == p
    {
      var totalLen := TotalLen(bufs);
      ghost var data := Concat(bufs);
      if |buf| + totalLen > cap {
        var f := FlushBuf();
        if f.Pending? {
          assert old(Held()) + [] == old(Held());
          return Pending;
        }
        if f.value.Err? {
          assert old(Held()) + [] == old(Held());
          return Ready(Err(f.value.error));
        }
      }
      if totalLen >= cap {
        p := PollWriteVectoredInner(bufs);
      } else {
        ghost var h := Held();
        var n := WriteToBuf(Concat(bufs));
        assert data[..n] == data;
        assert Held() == h + data;
        p := Ready(Ok(n));
      }
    }

    /** `poll_flush` and `poll_close`: Ready only when the inner writer has taken everything accepted. */
    method PollFlush() returns (p: Poll<Result<(), IoError>>)
      requires Valid()
      modifies this, inner
      ensures Valid() && accepted == old(accepted) && IsRest(Held(), old(Held()))
      ensures p.Ready? && p.value.Ok? ==> buf == [] && inner.taken == accepted
      ensures old(buf) == [] ==> inner.script == Later(old(inner.script))
      ensures old(buf) == [] && GoesOn(old(inner.script)) ==> p == Ready(Ok(()))
      ensures Blames(p, old(inner.answers), inner.answers)
    {
      p := FlushBuf();
      if p.Ready? && p.value.Ok? {
        p := inner.PollDone();
      }
    }
  }
}
