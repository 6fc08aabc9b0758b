/** The capture buffer of audio_hw.c: get_next_buffer, release_buffer and read_frames turn whole periods
    read from the kernel into reads of any length. One element stands for one frame. */
module CaptureBuffer {
  import opened Options

  const ENODEV := 19
  const EINVAL := 22

  // What successive calls to pcm_read give: a whole period, or an error code other than 0.
  datatype Outcome<F> = Period(frames: seq<F>) | Failed(code: int)

  type Script<!F> = nat -> Outcome<F>

  ghost predicate Proper<F(!new)>(script: Script<F>, period: nat) {
    && period > 0
    && (forall i {:trigger script(i)} :: script(i).Period? ==> |script(i).frames| == period)
    && (forall i {:trigger script(i)} :: script(i).Failed? ==> script(i).code != 0)
  }

  // All frames of the first n calls, in order.
  function Stream<F>(script: Script<F>, n: nat): seq<F> {
    if n == 0 then []
    else Stream(script, n - 1) + (match script(n - 1) case Period(frames) => frames case Failed(_) => [])
  }

  // The buffer since the stream started: `calls` reads made, `consumed` the frames given back by
  // release_buffer, `tail` the unread end of read_buf, `granted` what the client may still release.
  datatype Buffer<F> = Buffer(calls: nat, consumed: seq<F>, tail: seq<F>, granted: nat, status: int)

  function Min(a: nat, b: nat): nat { if a <= b then a else b }

  // One read of the kernel, when nothing is left.
  function Refilled<F>(script: Script<F>, b: Buffer<F>): (r: Buffer<F>)
    requires b.tail == []
    ensures r.granted == 0 && (script(b.calls).Failed? ==> r.tail == [])
  {
    match script(b.calls)
    case Failed(code) => b.(calls := b.calls + 1, granted := 0, status := code)
    case Period(frames) => b.(calls := b.calls + 1, tail := frames, granted := 0, status := 0)
  }

  function GetNext<F>(script: Script<F>, b: Buffer<F>, request: nat): (r: Buffer<F>)
    ensures r.granted <= |r.tail|
  {
    if b.tail != [] then b.(granted := Min(request, |b.tail|))
    else
      var c := Refilled(script, b);
      if script(b.calls).Failed? then c else c.(granted := Min(request, |c.tail|))
  }

  function GiveBack<F>(b: Buffer<F>, count: nat): Buffer<F>
    requires count <= b.granted <= |b.tail|
  {
    b.(consumed := b.consumed + b.tail[..count], tail := b.tail[count..], granted := b.granted - count)
  }

  // Nothing the kernel gave is lost, repeated or out of order.
  ghost predicate Faithful<F>(script: Script<F>, b: Buffer<F>) {
    && b.consumed + b.tail == Stream(script, b.calls)
    && b.granted <= |b.tail|
    && (b.tail != [] ==> b.status == 0)
  }

  lemma GetNextIsFaithful<F(!new)>(script: Script<F>, b: Buffer<F>, request: nat)
    requires Faithful(script, b) && forall i {:trigger script(i)} :: script(i).Failed? ==> script(i).code != 0
    ensures Faithful(script, GetNext(script, b, request))
    ensures var c := GetNext(script, b, request);
      c.consumed == b.consumed && (c.status == 0 ==> c.granted == Min(request, |c.tail|))
  {
    if b.tail == [] {
      assert b.consumed + b.tail == b.consumed;
    }
  }

  lemma GiveBackIsFaithful<F>(script: Script<F>, b: Buffer<F>, count: nat)
    requires Faithful(script, b) && count <= b.granted
    ensures Faithful(script, GiveBack(b, count))
  {
    assert b.tail == b.tail[..count] + b.tail[count..];
  }

  lemma GiveBackNothing<F>(b: Buffer<F>)
    ensures b.granted <= |b.tail| ==> GiveBack(b, 0) == b
  {
    assert b.consumed + b.tail[..0] == b.consumed;
    assert b.tail[0..] == b.tail;
  }

  /* ---- Any client of the provider ---- */

  datatype ClientOp = Get(request: nat) | Release(count: nat)

  // The client releases no more than it was granted.
  predicate Honest<F>(script: Script<F>, b: Buffer<F>, ops: seq<ClientOp>)
    requires b.granted <= |b.tail|
    decreases |ops|
  {
    if ops == [] then true
    else
      match ops[0]
      case Get(request) => Honest(script, GetNext(script, b, request), ops[1..])
      case Release(count) => count <= b.granted && Honest(script, GiveBack(b, count), ops[1..])
  }

  function Serve<F>(script: Script<F>, b: Buffer<F>, ops: seq<ClientOp>): Buffer<F>
    requires b.granted <= |b.tail| && Honest(script, b, ops)
    decreases |ops|
  {
    if ops == [] then b
    else
      match ops[0]
      case Get(request) => Serve(script, GetNext(script, b, request), ops[1..])
      case Release(count) => Serve(script, GiveBack(b, count), ops[1..])
  }

  // Main result: whatever an honest client asks for and releases, what it consumed followed by the unread
  // tail is exactly what the kernel gave.
  lemma {:induction false} ServiceIsFaithful<F(!new)>(script: Script<F>, b: Buffer<F>, ops: seq<ClientOp>)
    requires Faithful(script, b) && Honest(script, b, ops)
    requires forall i {:trigger script(i)} :: script(i).Failed? ==> script(i).code != 0
    ensures Faithful(script, Serve(script, b, ops))
    decreases |ops|
  {
    if ops == [] {
    } else {
      match ops[0] {
        case Get(request) =>
          GetNextIsFaithful(script, b, request);
          ServiceIsFaithful(script, GetNext(script, b, request), ops[1..]);
        case Release(count) =>
          GiveBackIsFaithful(script, b, count);
          ServiceIsFaithful(script, GiveBack(b, count), ops[1..]);
      }
    }
  }

  /* ---- read_frames ---- */

  // The buffer after read_frames, and the frames it delivers; None when a read of the kernel fails.
  function ReadFrames<F(!new)>(script: Script<F>, period: nat, b: Buffer<F>, frames: nat): (r: (Buffer<F>, Option<seq<F>>))
    requires Proper(script, period) && b.granted <= |b.tail|
    ensures r.0.granted <= |r.0.tail|
    decreases frames
  {
    if frames == 0 then (b, Some([]))
    else
      var c := GetNext(script, b, frames);
      if c.status != 0 then (c, None)
      else
        var d := GiveBack(c, c.granted);
        var (e, rest) := ReadFrames(script, period, d, frames - c.granted);
        (e, if rest.None? then None else Some(c.tail[..c.granted] + rest.value))
  }

  lemma ReadUnfolds<F(!new)>(script: Script<F>, period: nat, b: Buffer<F>, frames: nat)
    requires Proper(script, period) && b.granted <= |b.tail| && frames > 0
    ensures var c := GetNext(script, b, frames);
      && (c.status != 0 ==> ReadFrames(script, period, b, frames) == (c, None))
      && (c.status == 0 ==>
            && 0 < c.granted <= frames
            && var (e, rest) := ReadFrames(script, period, GiveBack(c, c.granted), frames - c.granted);
               ReadFrames(script, period, b, frames)
                 == (e, if rest.None? then None else Some(c.tail[..c.granted] + rest.value)))
  {
  }

  // A read of n frames went from b to e: it delivers exactly n frames, namely the next ones of the stream;
  // when it fails, the frames it took before the error are gone, and they are fewer than n.
  ghost predicate Delivers<F>(b: Buffer<F>, e: Buffer<F>, out: Option<seq<F>>, n: nat) {
    && (out.Some? ==> |out.value| == n && e.consumed == b.consumed + out.value)
    && (out.None? ==> b.consumed <= e.consumed && |e.consumed| < |b.consumed| + n && e.tail == [])
  }

  lemma DeliversTurn<F>(b: Buffer<F>, d: Buffer<F>, mid: seq<F>, e: Buffer<F>, rest: Option<seq<F>>, n: nat)
    requires d.consumed == b.consumed + mid && |mid| <= n && Delivers(d, e, rest, n - |mid|)
    ensures Delivers(b, e, if rest.None? then None else Some(mid + rest.value), n)
  {
    if rest.Some? {
      assert b.consumed + (mid + rest.value) == d.consumed + rest.value;
    } else {
      assert b.consumed <= d.consumed <= e.consumed;
    }
  }

  lemma DeliversNothing<F>(b: Buffer<F>, c: Buffer<F>, n: nat)
    requires c.consumed == b.consumed
    ensures Delivers(b, b, Some([]), 0)
    ensures c.tail == [] && n > 0 ==> Delivers(b, c, None, n)
  {
    assert b.consumed + [] == b.consumed;
  }

  // Main result: every read delivers, from every faithful buffer, and leaves it faithful.
  lemma {:induction false} ReadDelivers<F(!new)>(script: Script<F>, period: nat, b: Buffer<F>, frames: nat)
    requires Proper(script, period) && Faithful(script, b)
    ensures var (e, out) := ReadFrames(script, period, b, frames);
      Faithful(script, e) && Delivers(b, e, out, frames)
    decreases frames
  {
    hide Delivers;
    GetNextIsFaithful(script, b, frames);
    var c := GetNext(script, b, frames);
    DeliversNothing(b, c, frames);
    if frames > 0 {
      assert c.status != 0 ==> c.tail == [];
      ReadUnfolds(script, period, b, frames);
      hide GetNext, ReadFrames, Faithful, Stream;
      if c.status == 0 {
        GiveBackIsFaithful(script, c, c.granted);
        var d := GiveBack(c, c.granted);
        ReadDelivers(script, period, d, frames - c.granted);
        var (e, rest) := ReadFrames(script, period, d, frames - c.granted);
        DeliversTurn(b, d, c.tail[..c.granted], e, rest, frames);
      }
    }
  }

  /* ---- When a read fails, and what it loses ---- */

  // The least number of periods that hold n frames.
  function Periods(period: nat, n: nat): nat
    requires period > 0
    decreases n
  {
    if n == 0 then 0 else if n <= period then 1 else Periods(period, n - period) + 1
  }

  lemma {:induction false} PeriodsIsLeast(period: nat, n: nat, p: nat)
    requires period > 0
    ensures n <= p * period <==> Periods(period, n) <= p
    decreases n
  {
    if n == 0 {
    } else if n <= period {
      assert p > 0 ==> p * period >= period;
    } else if p == 0 {
    } else {
      assert p * period == (p - 1) * period + period;
      PeriodsIsLeast(period, n - period, p - 1);
    }
  }

  // The kernel reads it takes to have n frames when `have` are left.
  function Needed(period: nat, have: nat, n: nat): nat
    requires period > 0
  {
    if n <= have then 0 else Periods(period, n - have)
  }

  // The frames of k periods.
  function Frames(period: nat, k: nat): nat {
    if k == 0 then 0 else period + Frames(period, k - 1)
  }

  // The kernel reads of a read of n frames that went from b to e are periods up to the first that fails,
  // which is number k.
  ghost predicate StopsAt<F>(script: Script<F>, period: nat, b: Buffer<F>, n: nat, e: Buffer<F>, failed: bool, k: nat)
    requires period > 0
  {
    var need := Needed(period, |b.tail|, n);
    && k <= need
    && (forall m :: b.calls <= m < b.calls + k ==> script(m).Period?)
    && (k < need ==> script(b.calls + k).Failed?)
    && (failed <==> k < need)
    && e.calls == b.calls + (if failed then k + 1 else need)
    && (failed ==> |e.consumed| == |b.consumed| + |b.tail| + Frames(period, k))
  }

  lemma {:induction false} ReadStopsAt<F(!new)>(script: Script<F>, period: nat, b: Buffer<F>, frames: nat) returns (k: nat)
    requires Proper(script, period) && Faithful(script, b)
    ensures var (e, out) := ReadFrames(script, period, b, frames);
      StopsAt(script, period, b, frames, e, out.None?, k)
    decreases frames
  {
    if frames == 0 {
      k := 0;
    } else {
      GetNextIsFaithful(script, b, frames);
      ReadUnfolds(script, period, b, frames);
      var c := GetNext(script, b, frames);
      GotNext(script, period, b, frames);
      hide ReadFrames, GetNext;
      if c.status != 0 {
        k := 0;
      } else {
        GiveBackIsFaithful(script, c, c.granted);
        var d := GiveBack(c, c.granted);
        hide Faithful, Proper;
        assert d.calls == c.calls && d.tail == c.tail[c.granted..] && d.consumed == b.consumed + c.tail[..c.granted];
        hide GiveBack;
        k := ReadStopsAt(script, period, d, frames - c.granted);
        var (e, rest) := ReadFrames(script, period, d, frames - c.granted);
        k := StopsAtTurn(script, period, b, c, d, frames, e, rest.None?, k);
      }
    }
  }

  lemma StopsAtTurn<F>(script: Script<F>, period: nat, b: Buffer<F>, c: Buffer<F>, d: Buffer<F>, n: nat, e: Buffer<F>,
                       failed: bool, was: nat) returns (k: nat)
    requires period > 0 && n > 0 && c.granted <= |c.tail|
    requires d.calls == c.calls && d.tail == c.tail[c.granted..] && d.consumed == b.consumed + c.tail[..c.granted]
    requires b.tail != [] ==> c.calls == b.calls && c.tail == b.tail && c.granted == Min(n, |b.tail|)
    requires b.tail == [] ==>
      c.calls == b.calls + 1 && script(b.calls).Period? && |c.tail| == period && c.granted == Min(n, period)
    requires StopsAt(script, period, d, n - c.granted, e, failed, was)
    ensures StopsAt(script, period, b, n, e, failed, k)
  {
    k := if b.tail == [] then was + 1 else was;
  }

  // One turn reads the kernel exactly when nothing is left, and then gets a period or the error.
  lemma GotNext<F(!new)>(script: Script<F>, period: nat, b: Buffer<F>, request: nat)
    requires Proper(script, period) && Faithful(script, b) && request > 0
    ensures var c := GetNext(script, b, request);
      && c.consumed == b.consumed
      && (b.tail != [] ==> c.status == 0 && c.calls == b.calls && c.tail == b.tail && c.granted == Min(request, |b.tail|))
      && (b.tail == [] ==> c.calls == b.calls + 1 && (c.status != 0 <==> script(b.calls).Failed?))
      && (b.tail == [] && c.status == 0 ==> |c.tail| == period && c.granted == Min(request, period))
      && (c.status != 0 ==> c.tail == [])
  {
  }

  // Main result: a read fails exactly when one of the kernel reads it needs fails.
  lemma ReadFailsIff<F(!new)>(script: Script<F>, period: nat, b: Buffer<F>, frames: nat)
    requires Proper(script, period) && Faithful(script, b)
    ensures ReadFrames(script, period, b, frames).1.None?
       <==> exists m :: b.calls <= m < b.calls + Needed(period, |b.tail|, frames) && script(m).Failed?
  {
    var k := ReadStopsAt(script, period, b, frames);
    hide ReadFrames, Faithful;
    if k < Needed(period, |b.tail|, frames) {
      assert script(b.calls + k).Failed?;
    }
  }

  // A read that fails loses nothing exactly when the buffer was empty and its first kernel read failed.
  lemma FailedReadLosesIff<F(!new)>(script: Script<F>, period: nat, b: Buffer<F>, frames: nat)
    requires Proper(script, period) && Faithful(script, b)
    ensures var (e, out) := ReadFrames(script, period, b, frames);
      out.None? ==> (e.consumed == b.consumed <==> b.tail == [] && script(b.calls).Failed?)
  {
    var k := ReadStopsAt(script, period, b, frames);
    ReadDelivers(script, period, b, frames);
    hide ReadFrames, Faithful;
  }

  // It does lose frames: one more than a period is asked for, and the second kernel read fails.
  lemma FailedReadCanLose<F(!new)>(script: Script<F>, period: nat, b: Buffer<F>)
    requires Proper(script, period) && Faithful(script, b) && b.tail == []
    requires script(b.calls).Period? && script(b.calls + 1).Failed?
    ensures var (e, out) := ReadFrames(script, period, b, period + 1);
      out.None? && |e.consumed| == |b.consumed| + period
  {
    var k := ReadStopsAt(script, period, b, period + 1);
    hide ReadFrames, Faithful;
    assert Periods(period, period + 1) == Periods(period, 1) + 1 == 2;
    assert k == 1;
    assert Frames(period, 1) == period + Frames(period, 0);
  }

  // Every read of a run, as long as none fails.
  function ReadAll<F(!new)>(script: Script<F>, period: nat, b: Buffer<F>, lengths: seq<nat>): (Buffer<F>, Option<seq<F>>)
    requires Proper(script, period) && b.granted <= |b.tail|
    decreases |lengths|
  {
    if lengths == [] then (b, Some([]))
    else
      var (c, out) := ReadFrames(script, period, b, lengths[0]);
      if out.None? then (c, None)
      else
        var (e, rest) := ReadAll(script, period, c, lengths[1..]);
        (e, if rest.None? then None else Some(out.value + rest.value))
  }

  // Main result: until the first error, the frames handed out by any sequence of reads of any lengths,
  // followed by the unread tail, are the concatenation of all periods the kernel gave since the start.
  lemma {:induction false} CaptureFidelity<F(!new)>(script: Script<F>, period: nat, b: Buffer<F>, lengths: seq<nat>)
    requires Proper(script, period) && Faithful(script, b)
    ensures var (e, out) := ReadAll(script, period, b, lengths);
      out.Some? ==>
        && Faithful(script, e)
        && e.consumed == b.consumed + out.value
        && b.consumed + out.value + e.tail == Stream(script, e.calls)
    decreases |lengths|
  {
    if lengths == [] {
      assert b.consumed + [] == b.consumed;
    } else {
      ReadDelivers(script, period, b, lengths[0]);
      var (c, first) := ReadFrames(script, period, b, lengths[0]);
      if first.Some? {
        CaptureFidelity(script, period, c, lengths[1..]);
        var (e, rest) := ReadAll(script, period, c, lengths[1..]);
        hide Stream, ReadFrames, Proper;
        if rest.Some? {
          Regroup(b.consumed, first.value, rest.value);
        }
      }
    }
  }

  /* ---- The stream, updated in place ---- */

  // The kernel's end of the PCM device, which answers call after call.
  class Pcm<F(!new, 0)> {
    const script: Script<F>
    const period: nat
    var calls: nat

    constructor (script: Script<F>, period: nat)
      requires Proper(script, period)
      ensures this.script == script && this.period == period && calls == 0
    {
      this.script, this.period, calls := script, period, 0;
    }

    // pcm_read: fills the front of the buffer with a period, or fails and may leave anything in it.
    method Read(buffer: array<F>) returns (status: int)
      requires Proper(script, period) && buffer.Length >= period
      modifies `calls, buffer
      ensures calls == old(calls) + 1
      ensures var outcome := script(old(calls));
        if outcome.Failed? then status == outcome.code
        else status == 0 && buffer[..period] == outcome.frames
    {
      var outcome := script(calls);
      calls := calls + 1;
      if outcome.Failed? {
        modify buffer;
        return outcome.code;
      }
      for i := 0 to period
        modifies buffer
        invariant buffer[..i] == outcome.frames[..i]
      {
        buffer[i] := outcome.frames[i];
      }
      status := 0;
    }
  }

  // The fields of struct stream_in that capture uses. `device` is NULL while its list of PCM devices is
  // empty.
  class StreamIn<F(!new, 0)> {
    var device: Pcm?<F>
    var periodSize: nat
    var readBuf: array<F>
    var readBufSize: nat
    var readBufFrames: nat
    var readStatus: int
    ghost var consumed: seq<F>
    ghost var granted: nat

    ghost predicate Valid()
      reads this, device
    {
      && device != null && Proper(device.script, periodSize) && device.period == periodSize
      && readBufFrames <= periodSize
      && (readBufFrames > 0 ==> readBuf.Length >= periodSize)
      && (readBufSize >= periodSize ==> readBuf.Length >= periodSize)
      && granted <= readBufFrames
      && (readBufFrames > 0 ==> readStatus == 0)
    }

    ghost function Tail(): seq<F>
      requires Valid()
      reads this, device, readBuf
    {
      if readBufFrames == 0 then [] else readBuf[periodSize - readBufFrames..periodSize]
    }

    ghost function Value(): (b: Buffer<F>)
      requires Valid()
      reads this, device, readBuf
      ensures b.granted <= |b.tail|
    {
      Buffer(device.calls, consumed, Tail(), granted, readStatus)
    }

    // The end of start_input_stream: whatever the buffer held before, the next read refills it.
    constructor (device: Pcm<F>)
      requires Proper(device.script, device.period)
      ensures Valid() && fresh(readBuf) && this.device == device
      ensures Value() == Buffer(device.calls, [], [], 0, 0)
    {
      this.device, periodSize := device, device.period;
      readBuf := new F[0];
      readBufSize, readBufFrames, readStatus := 0, 0, 0;
      consumed, granted := [], 0;
    }

    // The part of get_next_buffer that reads a period when nothing is left of the last one.
    method Refill()
      requires Valid() && readBufFrames == 0
      modifies this, device, readBuf
      ensures Valid() && device == old(device) && periodSize == old(periodSize)
      ensures readBuf == old(readBuf) || fresh(readBuf)
      ensures Value() == Refilled(device.script, old(Value()))
      ensures readStatus == 0 <==> device.script(old(device.calls)).Period?
    {
      if readBufSize < periodSize {
        readBufSize := periodSize;
        readBuf := new F[periodSize];
      }
      readStatus := device.Read(readBuf);
      if readStatus == 0 {
        readBufFrames := periodSize;
      }
    }

    // The grant: the front of what is left.
    method Grant(request: nat) returns (start: nat, count: nat)
      requires Valid() && readBufFrames > 0
      modifies `granted
      ensures Valid() && Value() == old(Value()).(granted := Min(request, |old(Value()).tail|))
      ensures count == granted <= readBufFrames && start + count <= readBuf.Length
      ensures readBuf[start..start + count] == Tail()[..count]
    {
      count := if request > readBufFrames then readBufFrames else request;
      granted := count;
      start := periodSize - readBufFrames;
      SliceOfSlice(readBuf[..], start, periodSize, count);
    }

    // get_next_buffer: where the granted frames start in read_buf, and how many there are; None for a
    // NULL buffer.
    method GetNextBuffer(request: nat) returns (rc: int, start: Option<nat>, count: nat)
      requires device != null ==> Valid()
      modifies this, device, readBuf
      ensures old(device) == null ==> rc == -ENODEV && readStatus == rc && start.None? && count == 0
      ensures device == old(device) && (readBuf == old(readBuf) || fresh(readBuf))
      ensures old(device) != null ==>
        && Valid() && periodSize == old(periodSize)
        && Value() == GetNext(device.script, old(Value()), request)
        && rc == readStatus
        && (readStatus == 0 ==>
              && start.Some? && count == granted <= readBufFrames
              && start.value + count <= readBuf.Length
              && readBuf[start.value..start.value + count] == Tail()[..count])
        && (readStatus != 0 ==> start.None? && count == 0)
    {
      if device == null {
        readStatus := -ENODEV;
        return -ENODEV, None, 0;
      }
      hide Refilled;
      if readBufFrames == 0 {
        Refill();
        if readStatus != 0 {
          return readStatus, None, 0;
        }
      }
      var at;
      at, count := Grant(request);
      start, rc := Some(at), readStatus;
    }

    // release_buffer. Releasing more than was granted would wrap the unsigned count.
    method ReleaseBuffer(count: nat)
      requires Valid() && count <= granted
      modifies this
      ensures Valid() && device == old(device) && readBuf == old(readBuf) && periodSize == old(periodSize)
      ensures Value() == GiveBack(old(Value()), count)
    {
      consumed := consumed + Tail()[..count];
      readBufFrames := readBufFrames - count;
      granted := granted - count;
    }

    // read_frames without a resampler.
    method Read(buffer: array<F>, frames: nat) returns (r: int)
      requires device != null ==> Valid()
      requires frames <= buffer.Length && buffer != readBuf
      modifies this, device, readBuf, buffer
      ensures old(device) == null ==> r == -EINVAL && buffer[..] == old(buffer[..])
      ensures old(device) != null ==>
        && device == old(device) && Valid() && periodSize == old(periodSize)
        && var (e, out) := ReadFrames(device.script, periodSize, old(Value()), frames);
           && Value() == e
           && (out.Some? ==> r == frames && buffer[..] == out.value + old(buffer[..])[frames..])
           && (out.None? ==> r == readStatus != 0)
      ensures old(device) != null ==> Took(old(consumed), consumed, old(buffer[..]), buffer[..])
    {
      if device == null {
        return -EINVAL;
      }
      r := FillFrom(buffer, frames);
    }

    // The loop of read_frames.
    method FillFrom(buffer: array<F>, frames: nat) returns (r: int)
      requires device != null && Valid()
      requires frames <= buffer.Length && buffer != readBuf
      modifies this, device, readBuf, buffer
      ensures device == old(device) && Valid() && periodSize == old(periodSize)
      ensures var (e, out) := ReadFrames(device.script, periodSize, old(Value()), frames);
        && Value() == e
        && (out.Some? ==> r == frames && buffer[..] == out.value + old(buffer[..])[frames..])
        && (out.None? ==> r == readStatus != 0)
      ensures Took(old(consumed), consumed, old(buffer[..]), buffer[..])
    {
      hide ReadFrames, GetNext, GiveBack, Continues, Splice;
      ghost var script := device.script;
      ghost var goal := ReadFrames(script, periodSize, Value(), frames);
      var written := 0;
      ContinuesStart(goal);
      while written < frames
        invariant device == old(device) && Valid() && periodSize == old(periodSize)
        invariant (readBuf == old(readBuf) || fresh(readBuf)) && buffer != readBuf
        invariant written <= frames && buffer[..][written..] == old(buffer[..])[written..]
        invariant consumed == old(consumed) + buffer[..][..written]
        invariant Continues(goal, buffer[..][..written], ReadFrames(script, periodSize, Value(), frames - written))
        decreases frames - written
      {
        ghost var now := buffer[..];
        ghost var c := GetNext(script, Value(), frames - written);
        ContinuesTurn(script, periodSize, goal, now[..written], Value(), frames - written);
        TurnTakes(script, Value(), frames - written);
        var count := Turn(buffer, written, frames - written);
        if readStatus != 0 {
          return readStatus;
        }
        SpliceParts(now, written, c.tail[..count]);
        written := written + count;
      }
      ContinuesEnd(script, periodSize, goal, buffer[..][..frames], Value());
      r := written;
    }

    // One turn of the loop: the frames that are there go to the buffer, and all of them are released.
    method Turn(buffer: array<F>, at: nat, request: nat) returns (count: nat)
      requires device != null && Valid()
      requires at + request <= buffer.Length && buffer != readBuf
      modifies this, device, readBuf, buffer
      ensures device == old(device) && Valid() && periodSize == old(periodSize)
      ensures (readBuf == old(readBuf) || fresh(readBuf)) && buffer != readBuf
      ensures var c := GetNext(device.script, old(Value()), request);
        && readStatus == c.status
        && (c.status != 0 ==> Value() == c && buffer[..] == old(buffer[..]))
        && (c.status == 0 ==>
              && count == c.granted <= request
              && Value() == GiveBack(c, count)
              && buffer[..] == Splice(old(buffer[..]), at, c.tail[..count]))
    {
      var rc, start;
      rc, start, count := GetNextBuffer(request);
      hide GetNext, GiveBack, Splice;
      ghost var c := Value();
      if start.Some? {
        CopyFrames(readBuf, start.value, buffer, at, count);
        assert Value() == c;
      }
      ReleaseBuffer(count);
      GiveBackNothing(c);
    }

    // memcpy of whole frames.
    method CopyFrames(src: array<F>, from: nat, dst: array<F>, to: nat, count: nat)
      requires src != dst && from + count <= src.Length && to + count <= dst.Length
      modifies dst
      ensures dst[..] == Splice(old(dst[..]), to, src[from..from + count])
    {
      for i := 0 to count
        invariant dst[..] == old(dst[..to]) + src[from..from + i] + old(dst[to + i..])
      {
        dst[to + i] := src[from + i];
      }
    }
  }

  // The sequence with the part from `at` on replaced by `mid`.
  function Splice<F>(s: seq<F>, at: nat, mid: seq<F>): seq<F>
    requires at + |mid| <= |s|
  {
    s[..at] + mid + s[at + |mid|..]
  }

  lemma SpliceParts<F>(s: seq<F>, at: nat, mid: seq<F>)
    requires at + |mid| <= |s|
    ensures var t := Splice(s, at, mid);
      |t| == |s| && t[..at + |mid|] == s[..at] + mid && t[at + |mid|..] == s[at + |mid|..]
  {
  }

  // The frames taken out of the stream buffer are the ones in front of the caller's buffer, and the rest of
  // that is untouched.
  predicate Took<F(==)>(was: seq<F>, consumed: seq<F>, before: seq<F>, after: seq<F>) {
    && was <= consumed
    && var took := consumed[|was|..];
       |took| <= |before| && after == took + before[|took|..]
  }

  // The goal is what was delivered so far and then the rest.
  ghost predicate Continues<F>(goal: (Buffer<F>, Option<seq<F>>), sofar: seq<F>, rest: (Buffer<F>, Option<seq<F>>)) {
    && goal.0 == rest.0
    && (goal.1.Some? <==> rest.1.Some?)
    && (rest.1.Some? ==> goal.1.value == sofar + rest.1.value)
  }

  lemma ContinuesStart<F>(goal: (Buffer<F>, Option<seq<F>>))
    ensures Continues(goal, [], goal)
  {
    if goal.1.Some? {
      assert [] + goal.1.value == goal.1.value;
    }
  }

  // What one turn takes out of the stream buffer.
  lemma TurnTakes<F(!new)>(script: Script<F>, b: Buffer<F>, n: nat)
    ensures var c := GetNext(script, b, n);
      && c.consumed == b.consumed
      && GiveBack(c, c.granted).consumed == b.consumed + c.tail[..c.granted]
  {
  }

  lemma ContinuesTurn<F(!new)>(script: Script<F>, period: nat, goal: (Buffer<F>, Option<seq<F>>), sofar: seq<F>,
                               b: Buffer<F>, n: nat)
    requires Proper(script, period) && b.granted <= |b.tail| && n > 0
    requires Continues(goal, sofar, ReadFrames(script, period, b, n))
    ensures var c := GetNext(script, b, n);
      && (c.status != 0 ==> goal == (c, None))
      && (c.status == 0 ==>
            && 0 < c.granted <= n
            && Continues(goal, sofar + c.tail[..c.granted], ReadFrames(script, period, GiveBack(c, c.granted), n - c.granted)))
  {
    ReadUnfolds(script, period, b, n);
    var c := GetNext(script, b, n);
    hide ReadFrames, GetNext, GiveBack;
    if c.status == 0 {
      var rest := ReadFrames(script, period, GiveBack(c, c.granted), n - c.granted);
      if rest.1.Some? {
        Regroup(sofar, c.tail[..c.granted], rest.1.value);
      }
    }
  }

  lemma SliceOfSlice<F>(s: seq<F>, from: nat, to: nat, count: nat)
    requires from + count <= to <= |s|
    ensures s[from..to][..count] == s[from..from + count]
  {
  }

  lemma Regroup<F>(a: seq<F>, b: seq<F>, c: seq<F>)
    ensures a + (b + c) == a + b + c
  {
  }

  lemma ContinuesEnd<F(!new)>(script: Script<F>, period: nat, goal: (Buffer<F>, Option<seq<F>>), sofar: seq<F>, b: Buffer<F>)
    requires Proper(script, period) && b.granted <= |b.tail|
    requires Continues(goal, sofar, ReadFrames(script, period, b, 0))
    ensures goal == (b, Some(sofar))
  {
    assert sofar + [] == sofar;
  }
}
