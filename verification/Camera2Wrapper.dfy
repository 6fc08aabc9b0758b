/** The preview state of camera/Camera2Wrapper.cpp: a preview that is started before it has a window is
    started at the vendor when the window comes. */
module Camera2Wrapper {
  import opened Options

  // What the client does and what reaches the vendor module, in order. A window is named by a number.
  datatype Event =
    | ClientStart
    | VendorOpen | VendorClose | VendorRelease
    | VendorWindow(w: nat) | VendorStart | VendorStop

  // The globals gPreviewWindow and gPreviewStartDeferred, the one device, and the log.
  datatype Wrapper = Wrapper(open: bool, released: bool, window: Option<nat>, deferred: bool, log: seq<Event>)

  const INITIAL := Wrapper(false, false, None, false, [])

  datatype Call = Open | SetPreviewWindow(w: Option<nat>) | StartPreview | StopPreview | Release | Close

  // The camera service opens a device once and calls it only while it is open.
  predicate Legal(s: Wrapper, c: Call) { s.open <==> c != Open }

  function Step(s: Wrapper, c: Call): Wrapper
    requires Legal(s, c)
  {
    match c
    case Open => s.(open := true, released := false, log := s.log + [VendorOpen])
    case SetPreviewWindow(w) =>
      if w.None? then s.(window := w)
      else if s.deferred then s.(window := w, deferred := false, log := s.log + [VendorWindow(w.value)] + [VendorStart])
      else s.(window := w, log := s.log + [VendorWindow(w.value)])
    case StartPreview =>
      if s.window.Some? then s.(log := s.log + [ClientStart] + [VendorStart])
      else s.(deferred := true, log := s.log + [ClientStart])
    case StopPreview => s.(log := s.log + [VendorStop])
    case Release => s.(released := true, log := s.log + [VendorRelease])
    case Close =>
      var log := if s.released then s.log else s.log + [VendorRelease];
      Wrapper(false, true, None, false, log + [VendorClose])
  }

  predicate LegalRun(s: Wrapper, calls: seq<Call>)
    decreases |calls|
  {
    calls == [] || (Legal(s, calls[0]) && LegalRun(Step(s, calls[0]), calls[1..]))
  }

  function Run(s: Wrapper, calls: seq<Call>): Wrapper
    requires LegalRun(s, calls)
    decreases |calls|
  {
    if calls == [] then s else Run(Step(s, calls[0]), calls[1..])
  }

  /* ---- Properties of the log ---- */

  // The starts the client has asked for since the device was opened, less those the vendor was given.
  function Owed(log: seq<Event>): int {
    if log == [] || log[|log| - 1] == VendorOpen then 0
    else
      Owed(log[..|log| - 1])
      + (match log[|log| - 1] case ClientStart => 1 case VendorStart => -1 case _ => 0)
  }

  // A window has been forwarded since the device was opened.
  predicate Shown(log: seq<Event>) {
    log != [] && (log[|log| - 1].VendorWindow? || (log[|log| - 1] != VendorOpen && Shown(log[..|log| - 1])))
  }

  // At every vendor start a window has been forwarded in the session, and the client has asked in the
  // session for more starts than the vendor has been given.
  predicate Proper(log: seq<Event>) {
    log == [] ||
    (var before := log[..|log| - 1];
     && Proper(before)
     && (log[|log| - 1] == VendorStart ==> Shown(before) && Owed(before) > 0))
  }

  lemma LogStep(log: seq<Event>, e: Event)
    ensures Owed(log + [e])
         == if e == VendorOpen then 0
            else Owed(log) + (if e == ClientStart then 1 else if e == VendorStart then -1 else 0)
    ensures Shown(log + [e]) <==> e.VendorWindow? || (e != VendorOpen && Shown(log))
    ensures Proper(log + [e])
       <==> Proper(log) && (e == VendorStart ==> Shown(log) && Owed(log) > 0)
  {
    assert (log + [e])[..|log|] == log;
  }

  ghost predicate Invariant(s: Wrapper) {
    && (s.deferred ==> s.window.None?)
    && (!s.open ==> s.window.None? && !s.deferred)
    && (s.window.Some? ==> Shown(s.log))
    && Owed(s.log) >= (if s.deferred then 1 else 0)
    && Proper(s.log)
  }

  lemma StepInvariant(s: Wrapper, c: Call)
    requires Invariant(s) && Legal(s, c)
    ensures Invariant(Step(s, c))
  {
    match c {
      case Open => LogStep(s.log, VendorOpen);
      case SetPreviewWindow(w) =>
        if w.Some? {
          LogStep(s.log, VendorWindow(w.value));
          LogStep(s.log + [VendorWindow(w.value)], VendorStart);
        }
      case StartPreview =>
        LogStep(s.log, ClientStart);
        LogStep(s.log + [ClientStart], VendorStart);
      case StopPreview => LogStep(s.log, VendorStop);
      case Release => LogStep(s.log, VendorRelease);
      case Close =>
        LogStep(s.log, VendorRelease);
        LogStep(s.log, VendorClose);
        LogStep(s.log + [VendorRelease], VendorClose);
    }
  }

  lemma {:induction false} RunKeepsInvariant(s: Wrapper, calls: seq<Call>)
    requires Invariant(s) && LegalRun(s, calls)
    ensures Invariant(Run(s, calls))
    decreases |calls|
  {
    if calls == [] {
    } else {
      StepInvariant(s, calls[0]);
      RunKeepsInvariant(Step(s, calls[0]), calls[1..]);
    }
  }

  // Main result: in every run a deferred start means that there is no window; the vendor is started only
  // after a window was forwarded in the session, and in no session more often than the client asked in it.
  lemma PreviewDeferral(calls: seq<Call>)
    requires LegalRun(INITIAL, calls)
    ensures var s := Run(INITIAL, calls);
      && (s.deferred ==> s.window.None?)
      && Proper(s.log)
      && Owed(s.log) >= 0
  {
    RunKeepsInvariant(INITIAL, calls);
  }

  predicate OnlyStops(calls: seq<Call>) { forall i :: 0 <= i < |calls| ==> calls[i] == StopPreview }

  // A stop does not take a deferred start back: after any number of stops, the window that comes starts
  // the vendor exactly when a start was deferred before them.
  lemma {:induction false} StopsDoNotCancel(s: Wrapper, stops: seq<Call>, w: nat)
    requires s.open && OnlyStops(stops)
    ensures LegalRun(s, stops) && Run(s, stops).open && Run(s, stops).deferred == s.deferred
    ensures var log := Step(Run(s, stops), SetPreviewWindow(Some(w))).log;
      log[|log| - 1] == VendorStart <==> s.deferred
    decreases |stops|
  {
    if stops == [] {
    } else {
      StopsDoNotCancel(Step(s, stops[0]), stops[1..], w);
    }
  }

  /* ---- The log, told by the calls ---- */

  // The window of the last SetPreviewWindow since the device was opened.
  function WindowAfter(calls: seq<Call>): Option<nat> {
    if calls == [] then None
    else
      match calls[|calls| - 1]
      case Open => None
      case Close => None
      case SetPreviewWindow(w) => w
      case _ => WindowAfter(calls[..|calls| - 1])
  }

  // A start came without a window in the session, and no window has come since.
  predicate StartWaits(calls: seq<Call>) {
    calls != [] &&
    var before := calls[..|calls| - 1];
    match calls[|calls| - 1]
    case Open => false
    case Close => false
    case SetPreviewWindow(w) => w.None? && StartWaits(before)
    case StartPreview => WindowAfter(before).None? || StartWaits(before)
    case _ => StartWaits(before)
  }

  predicate ReleasedInSession(calls: seq<Call>) {
    calls != [] && calls[|calls| - 1] != Open && (calls[|calls| - 1] == Release || ReleasedInSession(calls[..|calls| - 1]))
  }

  // What reaches the vendor when c is called after the calls before.
  function Reaches(before: seq<Call>, c: Call): seq<Event> {
    match c
    case Open => [VendorOpen]
    case SetPreviewWindow(w) =>
      if w.None? then [] else if StartWaits(before) then [VendorWindow(w.value), VendorStart] else [VendorWindow(w.value)]
    case StartPreview => if WindowAfter(before).Some? then [ClientStart, VendorStart] else [ClientStart]
    case StopPreview => [VendorStop]
    case Release => [VendorRelease]
    case Close => if ReleasedInSession(before) then [VendorClose] else [VendorRelease, VendorClose]
  }

  function Trace(calls: seq<Call>): seq<Event> {
    if calls == [] then [] else Trace(calls[..|calls| - 1]) + Reaches(calls[..|calls| - 1], calls[|calls| - 1])
  }

  lemma {:induction false} RunOneMore(s: Wrapper, calls: seq<Call>, c: Call)
    requires LegalRun(s, calls + [c])
    ensures LegalRun(s, calls) && Legal(Run(s, calls), c)
    ensures Run(s, calls + [c]) == Step(Run(s, calls), c)
    decreases |calls|
  {
    if calls == [] {
      assert ([] + [c])[1..] == [];
    } else {
      assert (calls + [c])[1..] == calls[1..] + [c];
      RunOneMore(Step(s, calls[0]), calls[1..], c);
    }
  }

  // The state is the one the calls tell of.
  predicate Tells(calls: seq<Call>, s: Wrapper) {
    && s.log == Trace(calls)
    && s.window == WindowAfter(calls)
    && s.deferred == StartWaits(calls)
    && (s.open ==> s.released == ReleasedInSession(calls))
  }

  lemma OneMoreCall(before: seq<Call>, c: Call)
    ensures var calls := before + [c];
      && Trace(calls) == Trace(before) + Reaches(before, c)
      && WindowAfter(calls) == (match c case Open => None case Close => None case SetPreviewWindow(w) => w case _ => WindowAfter(before))
      && (StartWaits(calls) <==>
            match c
            case Open => false
            case Close => false
            case SetPreviewWindow(w) => w.None? && StartWaits(before)
            case StartPreview => WindowAfter(before).None? || StartWaits(before)
            case _ => StartWaits(before))
      && (ReleasedInSession(calls) <==> c == Release || (c != Open && ReleasedInSession(before)))
  {
    assert (before + [c])[..|before|] == before;
  }

  lemma StepTells(s: Wrapper, before: seq<Call>, c: Call)
    requires Tells(before, s) && Legal(s, c) && (s.deferred ==> s.window.None?) && (!s.open ==> s.window.None? && !s.deferred)
    ensures Tells(before + [c], Step(s, c))
  {
    OneMoreCall(before, c);
    hide Trace, WindowAfter, StartWaits, ReleasedInSession;
    assert s.log + [] == s.log;
    if c.SetPreviewWindow? && c.w.Some? {
      assert s.log + [VendorWindow(c.w.value)] + [VendorStart] == s.log + [VendorWindow(c.w.value), VendorStart];
    }
    assert s.log + [ClientStart] + [VendorStart] == s.log + [ClientStart, VendorStart];
    assert s.log + [VendorRelease] + [VendorClose] == s.log + [VendorRelease, VendorClose];
  }

  // Main result: in every legal run the log is what the calls say should reach the vendor: a start is
  // forwarded exactly when the last window of the session is one, and otherwise waits for the next window,
  // which is forwarded with one start; stops and releases are forwarded; and a close releases the device
  // exactly when the client has not.
  lemma {:induction false} LogIsTrace(calls: seq<Call>)
    requires LegalRun(INITIAL, calls)
    ensures Tells(calls, Run(INITIAL, calls))
    decreases |calls|
  {
    if calls == [] {
    } else {
      var before, c := calls[..|calls| - 1], calls[|calls| - 1];
      assert calls == before + [c];
      RunOneMore(INITIAL, before, c);
      LogIsTrace(before);
      RunKeepsInvariant(INITIAL, before);
      hide Tells, Proper, Owed, Shown, Step;
      StepTells(Run(INITIAL, before), before, c);
    }
  }

  // No start of the session came without a window.
  predicate EveryStartHadWindow(calls: seq<Call>) {
    calls == [] || calls[|calls| - 1] == Open ||
    (var before := calls[..|calls| - 1];
     (calls[|calls| - 1] == StartPreview ==> WindowAfter(before).Some?) && EveryStartHadWindow(before))
  }

  lemma {:induction false} NothingWaits(calls: seq<Call>)
    requires EveryStartHadWindow(calls)
    ensures !StartWaits(calls)
    decreases |calls|
  {
    if calls == [] || calls[|calls| - 1] == Open {
    } else {
      NothingWaits(calls[..|calls| - 1]);
    }
  }

  // Main result: in a session in which no start came without a window, the vendor was started as often as
  // the client asked.
  lemma {:induction false} NothingIsOwed(calls: seq<Call>)
    requires LegalRun(INITIAL, calls) && EveryStartHadWindow(calls)
    ensures Owed(Run(INITIAL, calls).log) == 0
    decreases |calls|
  {
    if calls == [] {
    } else {
      var before, c := calls[..|calls| - 1], calls[|calls| - 1];
      assert calls == before + [c];
      RunOneMore(INITIAL, before, c);
      LogIsTrace(before);
      var log := Run(INITIAL, before).log;
      if c == Open {
        LogStep(log, VendorOpen);
      } else {
        NothingIsOwed(before);
        NothingWaits(before);
        OwedAfterCall(log, c);
      }
    }
  }

  lemma OwedAfterCall(log: seq<Event>, c: Call)
    ensures c.SetPreviewWindow? && c.w.Some? ==> Owed(log + [VendorWindow(c.w.value)]) == Owed(log)
    ensures Owed(log + [ClientStart] + [VendorStart]) == Owed(log)
    ensures Owed(log + [VendorStop]) == Owed(log) == Owed(log + [VendorRelease]) == Owed(log + [VendorClose])
    ensures Owed(log + [VendorRelease] + [VendorClose]) == Owed(log)
  {
    if c.SetPreviewWindow? && c.w.Some? {
      LogStep(log, VendorWindow(c.w.value));
    }
    LogStep(log, ClientStart);
    LogStep(log + [ClientStart], VendorStart);
    LogStep(log, VendorStop);
    LogStep(log, VendorRelease);
    LogStep(log, VendorClose);
    LogStep(log + [VendorRelease], VendorClose);
  }

  /* ---- The globals, updated in place ---- */

  class Camera {
    var open: bool
    var released: bool
    var window: Option<nat>
    var deferred: bool
    ghost var log: seq<Event>

    ghost function Value(): Wrapper
      reads this
    {
      Wrapper(open, released, window, deferred, log)
    }

    constructor ()
      ensures Value() == INITIAL
    {
      open, released, window, deferred, log := false, false, None, false, [];
    }

    method DeviceOpen()
      requires !open
      modifies this
      ensures Value() == Step(old(Value()), Open)
    {
      log := log + [VendorOpen];
      open, released := true, false;
    }

    method SetWindow(w: Option<nat>)
      requires open
      modifies this
      ensures Value() == Step(old(Value()), SetPreviewWindow(w))
    {
      window := w;
      if w.Some? {
        log := log + [VendorWindow(w.value)];
        if deferred {
          deferred := false;
          log := log + [VendorStart];
        }
      }
    }

    method Start()
      requires open
      modifies this
      ensures Value() == Step(old(Value()), StartPreview)
    {
      log := log + [ClientStart];
      if window.Some? {
        log := log + [VendorStart];
      } else {
        deferred := true;
      }
    }

    method Stop()
      requires open
      modifies this
      ensures Value() == Step(old(Value()), StopPreview)
    {
      log := log + [VendorStop];
    }

    method ReleaseDevice()
      requires open
      modifies this
      ensures Value() == Step(old(Value()), Release)
    {
      log := log + [VendorRelease];
      released := true;
    }

    method DeviceClose()
      requires open
      modifies this
      ensures Value() == Step(old(Value()), Close)
    {
      if !released {
        log := log + [VendorRelease];
        released := true;
      }
      log := log + [VendorClose];
      open := false;
      window, deferred := None, false;
    }
  }
}
