/** The sleeps of out_write and in_read: a stream whose device fails takes as long as one that works. Times
    and durations are microseconds. */
module Pacing {

  // The time in which `bytes` are played or recorded.
  function Duration(bytes: nat, frameSize: nat, rate: nat): nat
    requires frameSize > 0 && rate > 0
  {
    bytes * 1000000 / frameSize / rate
  }

  function Max(a: int, b: int): int { if a >= b then a else b }

  class StreamOut {
    const frameSize: nat
    const sampleRate: nat
    var lastWriteTimeUs: int

    // The end of an out_write that failed, at clock time `now`.
    method PaceFailedWrite(bytes: nat, now: int) returns (sleep: nat)
      requires frameSize > 0 && sampleRate > 0
      modifies this
      ensures lastWriteTimeUs == Max(now, old(lastWriteTimeUs) + Duration(bytes, frameSize, sampleRate))
      ensures lastWriteTimeUs == now + sleep
    {
      var elapsed := now - lastWriteTimeUs;
      var sleepTime := bytes * 1000000 / frameSize / sampleRate - elapsed;
      sleep := if sleepTime > 0 then sleepTime else 0;
      lastWriteTimeUs := now + sleep;
    }
  }

  class StreamIn {
    const frameSize: nat
    const sampleRate: nat
    var lastReadTimeUs: int

    // The end of an in_read that failed. A stream that had been running goes to standby on the way,
    // which clears the stored time; 0 means that none is stored.
    method PaceFailedRead(bytes: nat, now: int, wasRunning: bool) returns (sleep: nat)
      requires frameSize > 0 && sampleRate > 0
      modifies this
      ensures lastReadTimeUs
           == AfterFailedRead(old(lastReadTimeUs), FailedRead(now, Duration(bytes, frameSize, sampleRate), wasRunning))
      ensures lastReadTimeUs == now + sleep
    {
      if wasRunning {
        lastReadTimeUs := 0;
      }
      var elapsed := if lastReadTimeUs == 0 then 0 else now - lastReadTimeUs;
      var sleepTime := bytes * 1000000 / frameSize / sampleRate - elapsed;
      sleep := if sleepTime > 0 then sleepTime else 0;
      lastReadTimeUs := now + sleep;
    }
  }

  /* ---- Failed writes ---- */

  datatype FailedWrite = FailedWrite(now: int, d: nat)

  function LastWrite(last: int, writes: seq<FailedWrite>): int {
    if writes == [] then last
    else
      var n := |writes| - 1;
      Max(writes[n].now, LastWrite(last, writes[..n]) + writes[n].d)
  }

  function Total(writes: seq<FailedWrite>): nat {
    if writes == [] then 0 else Total(writes[..|writes| - 1]) + writes[|writes| - 1].d
  }

  // The time n failed writes would be done had they started from a full buffer at the k-th, or from the
  // stored time.
  function Candidate(last: int, writes: seq<FailedWrite>, k: int): int
    requires -1 <= k < |writes|
  {
    if k == -1 then last + Total(writes) else writes[k].now + Total(writes[k + 1..])
  }

  lemma CandidateStep(last: int, writes: seq<FailedWrite>, k: int)
    requires -1 <= k < |writes| - 1
    ensures Candidate(last, writes, k) == Candidate(last, writes[..|writes| - 1], k) + writes[|writes| - 1].d
  {
    var n := |writes| - 1;
    if k >= 0 {
      assert writes[k + 1..][..n - k - 1] == writes[..n][k + 1..];
    }
  }

  // Main result: the stored time after any failed writes is the greatest candidate, so the time at which
  // the last of them returns is at least the stored time before plus all their durations.
  lemma {:induction false} WritesKeepPace(last: int, writes: seq<FailedWrite>) returns (best: int)
    ensures -1 <= best < |writes| && LastWrite(last, writes) == Candidate(last, writes, best)
    ensures forall k :: -1 <= k < |writes| ==> Candidate(last, writes, k) <= LastWrite(last, writes)
    decreases |writes|
  {
    if writes == [] {
      best := -1;
    } else {
      var n := |writes| - 1;
      var before := WritesKeepPace(last, writes[..n]);
      forall k | -1 <= k < n
        ensures Candidate(last, writes, k) == Candidate(last, writes[..n], k) + writes[n].d
      {
        CandidateStep(last, writes, k);
      }
      best := if LastWrite(last, writes) == writes[n].now then n else before;
    }
  }

  /* ---- Failed reads ---- */

  datatype FailedRead = FailedRead(now: int, d: nat, wasRunning: bool)

  function AfterFailedRead(last: int, r: FailedRead): int {
    if r.wasRunning || last == 0 then r.now + r.d else Max(r.now, last + r.d)
  }

  function LastRead(last: int, fails: seq<FailedRead>): int {
    if fails == [] then last else AfterFailedRead(LastRead(last, fails[..|fails| - 1]), fails[|fails| - 1])
  }

  function ReadTotal(fails: seq<FailedRead>): nat {
    if fails == [] then 0 else ReadTotal(fails[..|fails| - 1]) + fails[|fails| - 1].d
  }

  // A read begins after the one before has slept.
  predicate Sequential(last: int, fails: seq<FailedRead>) {
    forall k :: 0 < k < |fails| ==> LastRead(last, fails[..k]) <= fails[k].now
  }

  // Main result: consecutive failed reads take, from the first on, at least their durations after it; and
  // its own too when the stream was running or no time was stored, for then it sleeps a full buffer.
  lemma {:induction false} ReadsKeepPace(last: int, fails: seq<FailedRead>)
    requires fails != [] && Sequential(last, fails)
    ensures LastRead(last, fails) >= fails[0].now + ReadTotal(fails) - fails[0].d
    ensures fails[0].wasRunning || last == 0 ==> LastRead(last, fails) >= fails[0].now + ReadTotal(fails)
    decreases |fails|
  {
    var n := |fails| - 1;
    if n == 0 {
      assert fails[..0] == [];
      assert ReadTotal(fails) == fails[0].d;
    } else {
      assert forall k :: 0 < k < n ==> fails[..n][..k] == fails[..k];
      ReadsKeepPace(last, fails[..n]);
      assert LastRead(last, fails[..n]) <= fails[n].now;
    }
  }

  // A failed read as a failed write, which is what it is when a time is stored and the stream is in standby.
  function AsWrites(fails: seq<FailedRead>): seq<FailedWrite> {
    seq(|fails|, k requires 0 <= k < |fails| => FailedWrite(fails[k].now, fails[k].d))
  }

  // Main result: after the first failed read, which sleeps a full buffer when the stream was running or no
  // time was stored, the others pace exactly as failed writes do.
  lemma {:induction false} ReadsPaceAsWrites(last: int, fails: seq<FailedRead>)
    requires fails != [] && (forall k :: 0 <= k < |fails| ==> fails[k].now > 0)
    requires forall k :: 0 < k < |fails| ==> !fails[k].wasRunning
    ensures var first := fails[0];
      var stored := if first.wasRunning || last == 0 then first.now + first.d else Max(first.now, last + first.d);
      LastRead(last, fails) == LastWrite(stored, AsWrites(fails[1..])) > 0
    decreases |fails|
  {
    var n := |fails| - 1;
    var rest := AsWrites(fails[1..]);
    if n == 0 {
      assert fails[..0] == [];
    } else {
      ReadsPaceAsWrites(last, fails[..n]);
      assert fails[..n][1..] == fails[1..][..n - 1];
      assert AsWrites(fails[..n][1..]) == rest[..n - 1];
      assert rest[n - 1] == FailedWrite(fails[n].now, fails[n].d);
    }
  }

  lemma TimesMonotone(a: nat, b: nat, f: nat)
    requires a <= b
    ensures a * f <= b * f
  {
  }

  // The duration is the time of the bytes at the rate of the stream, rounded down once.
  lemma DurationIsFloor(bytes: nat, frameSize: nat, rate: nat)
    requires frameSize > 0 && rate > 0
    ensures var d := Duration(bytes, frameSize, rate);
      d * rate * frameSize <= bytes * 1000000 < (d + 1) * rate * frameSize
  {
    var x := bytes * 1000000;
    var q := x / frameSize;
    var d := q / rate;
    assert d * rate <= q < (d + 1) * rate;
    TimesMonotone(d * rate, q, frameSize);
    TimesMonotone(q + 1, (d + 1) * rate, frameSize);
    assert q * frameSize <= x < (q + 1) * frameSize;
  }
}
