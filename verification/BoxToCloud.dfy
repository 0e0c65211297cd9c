/**
 The loop that forwards what the Box sends to the cloud. Which frames are
 answered by an injected Setting is up to setting delivery; here it is any
 predicate on the running number of the frame. Writes do not fail.
 */
module BoxToCloud {
  import opened Options
  import opened Crc
  import opened Frame

  /** buf: received but incomplete; written: sent to the cloud; seen: frames extracted so far. */
  datatype Pipe = Pipe(buf: Bytes, written: Bytes, forwarded: nat, seen: nat)

  const IDLE := Pipe([], [], 0, 0)

  predicate AnyInjected(injected: nat -> bool, from: nat, count: nat) {
    exists n: nat :: from <= n < from + count && injected(n)
  }

  /** One read: a read with an injection is dropped, one without a frame is passed on raw. */
  function OnRead(p: Pipe, data: Bytes, injected: nat -> bool): Pipe {
    var (frames, left) := Drain(p.buf + data);
    var seen := p.seen + |frames|;
    if AnyInjected(injected, p.seen, |frames|) then Pipe(left, p.written, p.forwarded, seen)
    else if frames != [] then Pipe(left, p.written + Concat(frames), p.forwarded + |frames|, seen)
    else Pipe(left, p.written + data, p.forwarded, seen)
  }

  function OnReads(input: seq<Bytes>, injected: nat -> bool): Pipe {
    if input == [] then IDLE
    else OnRead(OnReads(input[..|input| - 1], injected), input[|input| - 1], injected)
  }

  /** The reads before the first empty one, which is the end of the stream. */
  function UpToEof(input: seq<Bytes>): seq<Bytes> {
    if input == [] || input[0] == [] then [] else [input[0]] + UpToEof(input[1..])
  }

  class Forwarder {
    const buffer: FrameBuffer
    var written: Bytes
    var framesForwarded: nat
    var framesSeen: nat

    constructor ()
      ensures fresh(buffer) && View() == IDLE
    {
      buffer := new FrameBuffer();
      written, framesForwarded, framesSeen := [], 0, 0;
    }

    ghost function View(): Pipe
      reads this, buffer
    {
      Pipe(buffer.data, written, framesForwarded, framesSeen)
    }

    /** The inner loop: take out all complete frames and set aside those to forward. */
    method TakeFrames(injected: nat -> bool) returns (chunks: seq<Bytes>, withheld: bool)
      modifies this`framesSeen, buffer
      ensures buffer.data == Drain(old(buffer.data)).1
      ensures framesSeen == old(framesSeen) + |Drain(old(buffer.data)).0|
      ensures withheld == AnyInjected(injected, old(framesSeen), |Drain(old(buffer.data)).0|)
      ensures !withheld ==> chunks == Drain(old(buffer.data)).0
    {
      ghost var start, first := buffer.data, framesSeen;
      ghost var done: seq<Bytes> := [];
      chunks, withheld := [], false;
      var more := true;
      ProgressStart(start);
      while more
        invariant Progress(start, done, buffer.data)
        invariant !more ==> Extract(buffer.data).0.None?
        invariant Taken(injected, first, done, framesSeen, chunks, withheld)
        decreases more, |buffer.data|
      {
        ghost var rest := buffer.data;
        var frame := buffer.ExtractFrame();
        if frame.None? {
          more := false;
        } else {
          ProgressStep(start, done, rest);
          TakenStep(injected, first, done, framesSeen, chunks, withheld, frame.value);
          done := done + [frame.value];
          if injected(framesSeen) {
            withheld := true;
          } else {
            chunks := chunks + [frame.value];
          }
          framesSeen := framesSeen + 1;
        }
      }
      ProgressEnd(start, done, buffer.data);
    }

    method OnData(data: Bytes, injected: nat -> bool)
      modifies this, buffer
      ensures View() == OnRead(old(View()), data, injected)
    {
      buffer.Extend(data);
      var chunks, withheld := TakeFrames(injected);
      if withheld { return; }
      if chunks != [] {
        written := written + Concat(chunks);
        framesForwarded := framesForwarded + |chunks|;
      } else {
        written := written + data;
      }
    }

    method PipeBoxToCloud(input: seq<Bytes>, injected: nat -> bool)
      requires View() == IDLE
      modifies this, buffer
      ensures View() == OnReads(UpToEof(input), injected)
    {
      var i := 0;
      AtReadStart(input);
      while i < |input| && input[i] != []
        invariant i <= |input| && AtRead(input, i)
        invariant View() == OnReads(input[..i], injected)
      {
        AtReadStep(input, i);
        NextRead(input, i, injected);
        OnData(input[i], injected);
        i := i + 1;
      }
      AtReadEnd(input, i);
    }
  }

  /** The stream up to its end begins with the first i reads. */
  ghost predicate AtRead(input: seq<Bytes>, i: nat)
    requires i <= |input|
  {
    UpToEof(input) == input[..i] + UpToEof(input[i..])
  }

  lemma AtReadStart(input: seq<Bytes>)
    ensures AtRead(input, 0)
  {
    assert input[0..] == input;
  }

  lemma AtReadEnd(input: seq<Bytes>, i: nat)
    requires i <= |input| && AtRead(input, i) && (i < |input| ==> input[i] == [])
    ensures UpToEof(input) == input[..i]
  {
  }

  /** Draining the start gives the frames done and then what draining the rest gives. */
  ghost predicate Progress(start: Bytes, done: seq<Bytes>, rest: Bytes) {
    Drain(start) == (done + Drain(rest).0, Drain(rest).1)
  }

  /** What the inner loop knows after the frames done. */
  predicate Taken(injected: nat -> bool, first: nat, done: seq<Bytes>, seen: nat, chunks: seq<Bytes>, withheld: bool) {
    && seen == first + |done|
    && withheld == AnyInjected(injected, first, |done|)
    && (!withheld ==> chunks == done)
  }

  lemma TakenStep(injected: nat -> bool, first: nat, done: seq<Bytes>, seen: nat, chunks: seq<Bytes>,
                  withheld: bool, frame: Bytes)
    requires Taken(injected, first, done, seen, chunks, withheld)
    ensures injected(seen) ==> Taken(injected, first, done + [frame], seen + 1, chunks, true)
    ensures !injected(seen) ==> Taken(injected, first, done + [frame], seen + 1, chunks + [frame], withheld)
  {
    NextInjected(injected, first, |done|);
  }

  lemma ProgressStart(start: Bytes)
    ensures Progress(start, [], start)
  {
    assert [] + Drain(start).0 == Drain(start).0;
  }

  lemma ProgressEnd(start: Bytes, done: seq<Bytes>, rest: Bytes)
    requires Progress(start, done, rest) && Extract(rest).0.None?
    ensures Drain(start) == (done, rest)
  {
    assert done + [] == done;
  }

  lemma ProgressStep(start: Bytes, done: seq<Bytes>, rest: Bytes)
    requires Progress(start, done, rest) && Extract(rest).0.Some?
    ensures Progress(start, done + [Extract(rest).0.value], Extract(rest).1)
  {
    var (f, left) := Extract(rest);
    assert done + ([f.value] + Drain(left).0) == done + [f.value] + Drain(left).0;
  }

  lemma AtReadStep(input: seq<Bytes>, i: nat)
    requires i < |input| && input[i] != [] && AtRead(input, i)
    ensures AtRead(input, i + 1)
  {
    var rest := UpToEof(input[i + 1..]);
    assert input[i..][1..] == input[i + 1..];
    assert UpToEof(input[i..]) == [input[i]] + rest;
    assert input[..i + 1] == input[..i] + [input[i]];
    assert input[..i] + ([input[i]] + rest) == input[..i + 1] + rest;
  }

  lemma NextRead(input: seq<Bytes>, i: nat, injected: nat -> bool)
    requires i < |input|
    ensures OnReads(input[..i + 1], injected) == OnRead(OnReads(input[..i], injected), input[i], injected)
  {
    assert input[..i + 1][..i] == input[..i];
  }

  lemma NextInjected(injected: nat -> bool, from: nat, count: nat)
    ensures AnyInjected(injected, from, count + 1) <==> AnyInjected(injected, from, count) || injected(from + count)
  {
  }

  // ---- Conservation ----

  /** Read k completes a frame. */
  predicate Completes(input: seq<Bytes>, k: nat)
    requires k < |input|
  {
    Drain(FeedAll(input[..k]).1 + input[k]).0 != []
  }

  /** The bytes of the reads that complete no frame. */
  function Echoed(input: seq<Bytes>): nat {
    if input == [] then 0
    else
      var n := |input| - 1;
      Echoed(input[..n]) + if Completes(input, n) then 0 else |input[n]|
  }

  lemma CompletesEarlier(input: seq<Bytes>, k: nat)
    requires k < |input| - 1
    ensures Completes(input, k) <==> Completes(input[..|input| - 1], k)
  {
    assert input[..|input| - 1][..k] == input[..k];
  }

  /** The buffer and the frame count follow the byte stream, whatever is injected. */
  lemma {:induction false} BufferFollowsStream(input: seq<Bytes>, injected: nat -> bool)
    ensures OnReads(input, injected).buf == FeedAll(input).1
    ensures OnReads(input, injected).seen == |FeedAll(input).0|
  {
    if input != [] { BufferFollowsStream(input[..|input| - 1], injected); }
  }

  predicate NothingInjected(injected: nat -> bool, count: nat) {
    forall n :: 0 <= n < count ==> !injected(n)
  }

  /** One read without injection: frames go on, or the raw read goes on and stays buffered too. */
  lemma CleanRead(p: Pipe, data: Bytes, injected: nat -> bool)
    requires NothingInjected(injected, p.seen + |Drain(p.buf + data).0|)
    ensures var r := OnRead(p, data, injected);
            var frames := Drain(p.buf + data).0;
            && r.forwarded == p.forwarded + |frames|
            && (frames != [] ==> r.written == p.written + Concat(frames)
                                 && r.written + r.buf == (p.written + p.buf) + data)
            && (frames == [] ==> |r.written| + |r.buf| == |p.written| + |p.buf| + 2 * |data|)
  {
    var (frames, left) := Drain(p.buf + data);
    DrainCuts(p.buf + data);
    if frames != [] {
      ConcatAssoc(p.written, Concat(frames), left);
      ConcatAssoc(p.written, p.buf, data);
    } else {
      assert Concat(frames) + left == left;
    }
  }

  /** Without injections the cloud gets every byte once, plus once more each read without a frame. */
  lemma {:induction false} EveryByteIsAccounted(input: seq<Bytes>, injected: nat -> bool)
    requires NothingInjected(injected, |FeedAll(input).0|)
    ensures var p := OnReads(input, injected);
            && p.forwarded == |FeedAll(input).0|
            && |p.written| + |p.buf| == |Concat(input)| + Echoed(input)
  {
    if input != [] {
      var n := |input| - 1;
      var before := OnReads(input[..n], injected);
      EveryByteIsAccounted(input[..n], injected);
      BufferFollowsStream(input[..n], injected);
      CleanRead(before, input[n], injected);
      ConcatInit(input);
      DrainCuts(before.buf + input[n]);
    }
  }

  /** When every read completes a frame, written bytes plus buffer are the stream itself. */
  lemma {:induction false} CompleteReadsConserve(input: seq<Bytes>, injected: nat -> bool)
    requires NothingInjected(injected, |FeedAll(input).0|)
    requires AllComplete(input)
    ensures OnReads(input, injected).written + OnReads(input, injected).buf == Concat(input)
    ensures OnReads(input, injected).written == Concat(FeedAll(input).0)
  {
    if input != [] {
      var n := |input| - 1;
      var before := OnReads(input[..n], injected);
      AllCompleteInit(input);
      CompleteReadsConserve(input[..n], injected);
      BufferFollowsStream(input[..n], injected);
      assert Completes(input, n);
      CleanRead(before, input[n], injected);
      ConcatInit(input);
      ConcatAppend(FeedAll(input[..n]).0, Drain(before.buf + input[n]).0);
    }
  }

  predicate AllComplete(input: seq<Bytes>) {
    forall k :: 0 <= k < |input| ==> Completes(input, k)
  }

  lemma AllCompleteInit(input: seq<Bytes>)
    requires input != []
    ensures AllComplete(input) <==> AllComplete(input[..|input| - 1]) && Completes(input, |input| - 1)
  {
    var before := input[..|input| - 1];
    forall k | 0 <= k < |input| - 1 ensures Completes(input, k) <==> Completes(before, k) {
      CompletesEarlier(input, k);
    }
    if AllComplete(before) && Completes(input, |input| - 1) {
      forall k | 0 <= k < |input| ensures Completes(input, k) {
        if k < |before| { assert Completes(before, k); }
      }
    }
  }

  lemma {:induction false} EchoedIsZero(input: seq<Bytes>)
    requires forall k :: 0 <= k < |input| ==> input[k] != []
    ensures Echoed(input) == 0 <==> AllComplete(input)
  {
    if input != [] {
      EchoedIsZero(input[..|input| - 1]);
      AllCompleteInit(input);
    }
  }

  /** Without injections the bytes are conserved exactly when every read completes a frame. */
  lemma ConservedIffReadsComplete(input: seq<Bytes>, injected: nat -> bool)
    requires NothingInjected(injected, |FeedAll(input).0|)
    requires forall k :: 0 <= k < |input| ==> input[k] != []
    ensures OnReads(input, injected).written + OnReads(input, injected).buf == Concat(input)
            <==> AllComplete(input)
  {
    EveryByteIsAccounted(input, injected);
    EchoedIsZero(input);
    if AllComplete(input) { CompleteReadsConserve(input, injected); }
  }

  /** The frames of read k, and whether one of them was answered by an injection. */
  function FramesOf(input: seq<Bytes>, k: nat): seq<Bytes>
    requires k < |input|
  {
    Drain(FeedAll(input[..k]).1 + input[k]).0
  }

  predicate Withheld(input: seq<Bytes>, k: nat, injected: nat -> bool)
    requires k < |input|
  {
    AnyInjected(injected, |FeedAll(input[..k]).0|, |FramesOf(input, k)|)
  }

  /** The frames of the reads in which nothing was injected. */
  function PassedOn(input: seq<Bytes>, n: nat, injected: nat -> bool): seq<Bytes>
    requires n <= |input|
  {
    if n == 0 then []
    else PassedOn(input, n - 1, injected)
         + if Withheld(input, n - 1, injected) then [] else FramesOf(input, n - 1)
  }

  lemma FramesPrefix(input: seq<Bytes>, k: nat, injected: nat -> bool)
    requires k < |input| - 1
    ensures FramesOf(input[..|input| - 1], k) == FramesOf(input, k)
    ensures Withheld(input[..|input| - 1], k, injected) == Withheld(input, k, injected)
  {
    assert input[..|input| - 1][..k] == input[..k];
  }

  lemma {:induction false} PassedOnPrefix(input: seq<Bytes>, n: nat, injected: nat -> bool)
    requires n < |input|
    ensures PassedOn(input[..|input| - 1], n, injected) == PassedOn(input, n, injected)
    decreases n
  {
    if n > 0 {
      PassedOnPrefix(input, n - 1, injected);
      FramesPrefix(input, n - 1, injected);
    }
  }

  /**
   With injections, when every read completes a frame, the cloud gets in order
   exactly the frames of the reads in which nothing was injected, and the
   counter counts them.
   */
  lemma {:induction false} WrittenArePassedOn(input: seq<Bytes>, injected: nat -> bool)
    requires AllComplete(input)
    ensures OnReads(input, injected).written == Concat(PassedOn(input, |input|, injected))
    ensures OnReads(input, injected).forwarded == |PassedOn(input, |input|, injected)|
  {
    if input != [] {
      var n := |input| - 1;
      AllCompleteInit(input);
      WrittenArePassedOn(input[..n], injected);
      BufferFollowsStream(input[..n], injected);
      PassedOnPrefix(input, n, injected);
      assert Completes(input, n);
      ConcatAppend(PassedOn(input, n, injected), FramesOf(input, n));
      ConcatAppend(PassedOn(input, n, injected), []);
    }
  }
}
