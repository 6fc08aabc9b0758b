/** The lock protocol of audio_hw.c: the order in which every entry point takes and gives back its
    mutexes, any number of threads that run them on any streams, and the absence of deadlock. */
module Locks {
  import opened Options

  // The mutexes: those of the device, and two for each input and each output stream.
  datatype Lock = LockInputs | InPre(i: nat) | InLock(i: nat) | OutPre(o: nat) | OutLock(o: nat) | DeviceLock

  // The order documented beside the structures: lock_inputs, stream_in, stream_out, audio_device, and a
  // stream's pre_lock before its lock.
  function Rank(l: Lock): nat {
    match l
    case LockInputs => 0
    case InPre(_) => 1
    case InLock(_) => 2
    case OutPre(_) => 3
    case OutLock(_) => 4
    case DeviceLock => 5
  }

  datatype Action = Acquire(l: Lock) | Release(l: Lock)

  /* ---- The entry points ---- */

  function LockInputStream(i: nat): seq<Action> {
    [Acquire(InPre(i)), Acquire(InLock(i)), Release(InPre(i))]
  }

  function LockOutputStream(o: nat): seq<Action> {
    [Acquire(OutPre(o)), Acquire(OutLock(o)), Release(OutPre(o))]
  }

  const DEVICE_SECTION: seq<Action> := [Acquire(DeviceLock), Release(DeviceLock)]

  function When(b: bool, p: seq<Action>): seq<Action> { if b then p else [] }

  // The calls that take a lock, with the conditions their bodies test on the way.
  datatype Call =
    | OutStandby(o: nat, running: bool)
    | OutSetParameters(o: nat)
    | OutWrite(o: nat, standby: bool, failed: bool, running: bool)
    | OutGetPresentationPosition(o: nat)
    | InStandby(i: nat, running: bool)
    | InSetParameters(i: nat)
    | InRead(i: nat, standby: bool, stillStandby: bool, failed: bool, running: bool)
    | InGetCapturePosition(i: nat)
    | CloseInputStream(i: nat, running: bool)
    | CloseOutputStream(o: nat, running: bool)
    | DeviceCall

  function OutStandbyPath(o: nat, running: bool): seq<Action> {
    LockOutputStream(o) + When(running, DEVICE_SECTION) + [Release(OutLock(o))]
  }

  // in_standby_l, which runs with lock_inputs held.
  function InStandbyLockedPath(i: nat, running: bool): seq<Action> {
    LockInputStream(i) + When(running, DEVICE_SECTION) + [Release(InLock(i))]
  }

  function InStandbyPath(i: nat, running: bool): seq<Action> {
    [Acquire(LockInputs)] + InStandbyLockedPath(i, running) + [Release(LockInputs)]
  }

  // in_read lets go of the stream to take lock_inputs first, then looks at standby again.
  function InReadStartPath(i: nat, stillStandby: bool): seq<Action> {
    [Release(InLock(i)), Acquire(LockInputs)] + LockInputStream(i) + When(stillStandby, DEVICE_SECTION) + [Release(LockInputs)]
  }

  function Path(c: Call): seq<Action> {
    match c
    case OutStandby(o, running) => OutStandbyPath(o, running)
    case OutSetParameters(o) =>
      [Acquire(LockInputs)] + LockOutputStream(o) + DEVICE_SECTION + [Release(OutLock(o)), Release(LockInputs)]
    case OutWrite(o, standby, failed, running) =>
      LockOutputStream(o) + When(standby, DEVICE_SECTION) + [Release(OutLock(o))]
      + When(failed, OutStandbyPath(o, running))
    case OutGetPresentationPosition(o) => LockOutputStream(o) + [Release(OutLock(o))]
    case InStandby(i, running) => InStandbyPath(i, running)
    case InSetParameters(i) =>
      [Acquire(LockInputs)] + LockInputStream(i) + DEVICE_SECTION + [Release(InLock(i)), Release(LockInputs)]
    case InRead(i, standby, stillStandby, failed, running) =>
      LockInputStream(i) + When(standby, InReadStartPath(i, stillStandby)) + [Release(InLock(i))]
      + When(failed, InStandbyPath(i, running))
    case InGetCapturePosition(i) => [Acquire(InLock(i)), Release(InLock(i))]
    case CloseInputStream(i, running) => InStandbyPath(i, running)
    case CloseOutputStream(o, running) => OutStandbyPath(o, running)
    case DeviceCall => DEVICE_SECTION
  }

  /* ---- The discipline ---- */

  predicate Below(held: set<Lock>, r: nat) { forall h :: h in held ==> Rank(h) < r }

  // What is held after the path, when it takes each lock above all it holds and gives back only what it
  // holds; None when it breaks that rule.
  function After(p: seq<Action>, held: set<Lock>): Option<set<Lock>> {
    if p == [] then Some(held)
    else
      match p[0]
      case Acquire(l) => if Below(held, Rank(l)) then After(p[1..], held + {l}) else None
      case Release(l) => if l in held then After(p[1..], held - {l}) else None
  }

  lemma {:induction false} AfterConcat(p: seq<Action>, q: seq<Action>, held: set<Lock>)
    ensures After(p + q, held) == var m := After(p, held); if m.None? then None else After(q, m.value)
  {
    if p == [] {
      assert p + q == q;
    } else {
      assert (p + q)[1..] == p[1..] + q;
      match p[0] {
        case Acquire(l) => AfterConcat(p[1..], q, held + {l});
        case Release(l) => AfterConcat(p[1..], q, held - {l});
      }
    }
  }

  lemma AfterOne(a: Action, held: set<Lock>)
    ensures After([a], held)
         == if a.Acquire? then (if Below(held, Rank(a.l)) then Some(held + {a.l}) else None)
            else (if a.l in held then Some(held - {a.l}) else None)
  {
  }

  /* ---- What is held where ---- */

  // A lock that is taken, with what the thread holds at that point.
  datatype Grant = Grant(l: Lock, held: set<Lock>)

  function Grants(p: seq<Action>, held: set<Lock>): seq<Grant> {
    if p == [] then []
    else
      match p[0]
      case Acquire(l) => [Grant(l, held)] + Grants(p[1..], held + {l})
      case Release(l) => Grants(p[1..], held - {l})
  }

  lemma {:induction false} GrantsConcat(p: seq<Action>, q: seq<Action>, held: set<Lock>)
    requires After(p, held).Some?
    ensures Grants(p + q, held) == Grants(p, held) + Grants(q, After(p, held).value)
  {
    if p == [] {
      assert p + q == q;
    } else {
      assert (p + q)[1..] == p[1..] + q;
      match p[0] {
        case Acquire(l) => GrantsConcat(p[1..], q, held + {l});
        case Release(l) => GrantsConcat(p[1..], q, held - {l});
      }
    }
  }

  // The locks of the stream and of the inputs that an entry point holds when it takes the device lock.
  function Guard(c: Call): set<Lock> {
    match c
    case OutStandby(o, _) => {OutLock(o)}
    case OutSetParameters(o) => {LockInputs, OutLock(o)}
    case OutWrite(o, _, _, _) => {OutLock(o)}
    case OutGetPresentationPosition(o) => {}
    case InStandby(i, _) => {LockInputs, InLock(i)}
    case InSetParameters(i) => {LockInputs, InLock(i)}
    case InRead(i, _, _, _, _) => {LockInputs, InLock(i)}
    case InGetCapturePosition(i) => {}
    case CloseInputStream(i, _) => {LockInputs, InLock(i)}
    case CloseOutputStream(o, _) => {OutLock(o)}
    case DeviceCall => {}
  }

  // How often an entry point works on the device: once for each start, stop, reroute or mode change.
  function Sections(c: Call): nat {
    match c
    case OutStandby(_, running) => if running then 1 else 0
    case OutSetParameters(_) => 1
    case OutWrite(_, standby, failed, running) => (if standby then 1 else 0) + (if failed && running then 1 else 0)
    case OutGetPresentationPosition(_) => 0
    case InStandby(_, running) => if running then 1 else 0
    case InSetParameters(_) => 1
    case InRead(_, standby, still, failed, running) =>
      (if standby && still then 1 else 0) + (if failed && running then 1 else 0)
    case InGetCapturePosition(_) => 0
    case CloseInputStream(_, running) => if running then 1 else 0
    case CloseOutputStream(_, running) => if running then 1 else 0
    case DeviceCall => 1
  }

  // How often an entry point takes the lock of its stream.
  function Entries(c: Call): nat {
    match c
    case OutWrite(_, _, failed, _) => if failed then 2 else 1
    case InRead(_, standby, _, failed, _) => (if standby then 2 else 1) + (if failed then 1 else 0)
    case DeviceCall => 0
    case _ => 1
  }

  predicate InOrder(g: Grant, c: Call) {
    match g.l
    case LockInputs => g.held == {}
    case InPre(_) => g.held <= {LockInputs}
    case InLock(i) => InPre(i) in g.held || c == InGetCapturePosition(i)
    case OutPre(_) => g.held <= {LockInputs}
    case OutLock(o) => OutPre(o) in g.held
    case DeviceLock => g.held == Guard(c)
  }

  function Taken(gs: seq<Grant>, l: Lock): nat {
    if gs == [] then 0 else (if gs[0].l == l then 1 else 0) + Taken(gs[1..], l)
  }

  lemma {:induction false} TakenConcat(a: seq<Grant>, b: seq<Grant>, l: Lock)
    ensures Taken(a + b, l) == Taken(a, l) + Taken(b, l)
  {
    if a == [] {
      assert a + b == b;
    } else {
      assert (a + b)[1..] == a[1..] + b;
      TakenConcat(a[1..], b, l);
    }
  }

  // The lock of the stream an entry point works on.
  function StreamLock(c: Call): Lock {
    match c
    case OutStandby(o, _) => OutLock(o)
    case OutSetParameters(o) => OutLock(o)
    case OutWrite(o, _, _, _) => OutLock(o)
    case OutGetPresentationPosition(o) => OutLock(o)
    case CloseOutputStream(o, _) => OutLock(o)
    case InStandby(i, _) => InLock(i)
    case InSetParameters(i) => InLock(i)
    case InRead(i, _, _, _, _) => InLock(i)
    case InGetCapturePosition(i) => InLock(i)
    case CloseInputStream(i, _) => InLock(i)
    case DeviceCall => DeviceLock
  }

  // The path p of c leads from held to out, takes every lock in order, the device `sections` times and the
  // stream `entries` times.
  ghost predicate Does(p: seq<Action>, held: set<Lock>, out: set<Lock>, c: Call, sections: nat, entries: nat) {
    && After(p, held) == Some(out)
    && (forall g :: g in Grants(p, held) ==> InOrder(g, c))
    && Taken(Grants(p, held), DeviceLock) == sections
    && (StreamLock(c) != DeviceLock ==> Taken(Grants(p, held), StreamLock(c)) == entries)
  }

  lemma DoesThen(p: seq<Action>, q: seq<Action>, held: set<Lock>, mid: set<Lock>, out: set<Lock>, c: Call,
                 s: nat, e: nat, s': nat, e': nat)
    requires Does(p, held, mid, c, s, e) && Does(q, mid, out, c, s', e')
    ensures Does(p + q, held, out, c, s + s', e + e')
  {
    AfterConcat(p, q, held);
    GrantsConcat(p, q, held);
    TakenConcat(Grants(p, held), Grants(q, mid), DeviceLock);
    TakenConcat(Grants(p, held), Grants(q, mid), StreamLock(c));
  }

  lemma DoesAcquire(l: Lock, held: set<Lock>, c: Call)
    requires Below(held, Rank(l)) && InOrder(Grant(l, held), c)
    ensures Does([Acquire(l)], held, held + {l}, c, if l == DeviceLock then 1 else 0, if l == StreamLock(c) then 1 else 0)
  {
    AfterOne(Acquire(l), held);
    assert Grants([Acquire(l)], held) == [Grant(l, held)];
    assert [Grant(l, held)][1..] == [];
  }

  lemma DoesRelease(l: Lock, held: set<Lock>, c: Call)
    requires l in held
    ensures Does([Release(l)], held, held - {l}, c, 0, 0)
  {
    AfterOne(Release(l), held);
    assert Grants([Release(l)], held) == [];
  }

  lemma DoesNothing(held: set<Lock>, c: Call)
    ensures Does([], held, held, c, 0, 0)
  {
  }

  lemma DoesEnter(pre: Lock, lock: Lock, held: set<Lock>, c: Call)
    requires Below(held, Rank(pre)) && Rank(pre) < Rank(lock) < 5 && lock == StreamLock(c)
    requires InOrder(Grant(pre, held), c) && InOrder(Grant(lock, held + {pre}), c)
    ensures Does([Acquire(pre), Acquire(lock), Release(pre)], held, held + {lock}, c, 0, 1)
  {
    DoesAcquire(pre, held, c);
    DoesAcquire(lock, held + {pre}, c);
    DoesRelease(pre, held + {pre} + {lock}, c);
    assert held + {pre} + {lock} - {pre} == held + {lock};
    hide Does;
    DoesThen([Acquire(lock)], [Release(pre)], held + {pre}, held + {pre} + {lock}, held + {lock}, c, 0, 1, 0, 0);
    DoesThen([Acquire(pre)], [Acquire(lock)] + [Release(pre)], held, held + {pre}, held + {lock}, c, 0, 0, 0, 1);
    assert [Acquire(pre), Acquire(lock), Release(pre)] == [Acquire(pre)] + ([Acquire(lock)] + [Release(pre)]);
  }

  lemma DoesSection(b: bool, held: set<Lock>, c: Call)
    requires b ==> held == Guard(c) && Below(held, 5)
    ensures Does(When(b, DEVICE_SECTION), held, held, c, if b then 1 else 0, 0)
  {
    DoesNothing(held, c);
    if b {
      DoesAcquire(DeviceLock, held, c);
      DoesRelease(DeviceLock, held + {DeviceLock}, c);
      assert held + {DeviceLock} - {DeviceLock} == held;
      DoesThen([Acquire(DeviceLock)], [Release(DeviceLock)], held, held + {DeviceLock}, held, c, 1, 0, 0, 0);
      assert DEVICE_SECTION == [Acquire(DeviceLock)] + [Release(DeviceLock)];
    }
  }

  // Enter a stream, perhaps work on the device, and leave.
  lemma DoesVisit(pre: Lock, lock: Lock, b: bool, held: set<Lock>, c: Call)
    requires Below(held, Rank(pre)) && Rank(pre) < Rank(lock) < 5 && lock == StreamLock(c)
    requires InOrder(Grant(pre, held), c) && InOrder(Grant(lock, held + {pre}), c)
    requires b ==> held + {lock} == Guard(c)
    ensures Does([Acquire(pre), Acquire(lock), Release(pre)] + When(b, DEVICE_SECTION) + [Release(lock)], held, held, c,
                 if b then 1 else 0, 1)
  {
    var enter := [Acquire(pre), Acquire(lock), Release(pre)];
    var s := if b then 1 else 0;
    DoesEnter(pre, lock, held, c);
    DoesSection(b, held + {lock}, c);
    DoesRelease(lock, held + {lock}, c);
    assert held + {lock} - {lock} == held;
    hide Does;
    DoesThen(enter, When(b, DEVICE_SECTION), held, held + {lock}, held + {lock}, c, 0, 1, s, 0);
    DoesThen(enter + When(b, DEVICE_SECTION), [Release(lock)], held, held + {lock}, held, c, s, 1, 0, 0);
  }

  lemma DoesInStandby(i: nat, running: bool, c: Call)
    requires StreamLock(c) == InLock(i) && (running ==> Guard(c) == {LockInputs, InLock(i)})
    ensures Does(InStandbyPath(i, running), {}, {}, c, if running then 1 else 0, 1)
  {
    var s := if running then 1 else 0;
    var h: set<Lock> := {LockInputs};
    DoesAcquire(LockInputs, {}, c);
    assert {} + {LockInputs} == h && h + {InLock(i)} == {LockInputs, InLock(i)};
    DoesVisit(InPre(i), InLock(i), running, h, c);
    DoesRelease(LockInputs, h, c);
    assert h - {LockInputs} == {};
    hide Does;
    DoesThen([Acquire(LockInputs)], InStandbyLockedPath(i, running), {}, h, h, c, 0, 0, s, 1);
    DoesThen([Acquire(LockInputs)] + InStandbyLockedPath(i, running), [Release(LockInputs)], {}, h, {}, c, s, 1, 0, 0);
  }

  lemma DoesSetParameters(pre: Lock, lock: Lock, c: Call)
    requires 0 < Rank(pre) < Rank(lock) < 5 && lock == StreamLock(c) && Guard(c) == {LockInputs, lock}
    requires InOrder(Grant(pre, {LockInputs}), c) && InOrder(Grant(lock, {LockInputs, pre}), c)
    ensures Does([Acquire(LockInputs)] + [Acquire(pre), Acquire(lock), Release(pre)] + DEVICE_SECTION
                 + [Release(lock), Release(LockInputs)], {}, {}, c, 1, 1)
  {
    var visit := [Acquire(pre), Acquire(lock), Release(pre)] + When(true, DEVICE_SECTION) + [Release(lock)];
    var h: set<Lock> := {LockInputs};
    DoesAcquire(LockInputs, {}, c);
    assert {} + {LockInputs} == h && h + {pre} == {LockInputs, pre} && h + {lock} == {LockInputs, lock};
    DoesVisit(pre, lock, true, h, c);
    DoesRelease(LockInputs, h, c);
    assert h - {LockInputs} == {};
    hide Does;
    DoesThen(visit, [Release(LockInputs)], h, h, {}, c, 1, 1, 0, 0);
    DoesThen([Acquire(LockInputs)], visit + [Release(LockInputs)], {}, h, {}, c, 0, 0, 1, 1);
    assert [Acquire(LockInputs)] + [Acquire(pre), Acquire(lock), Release(pre)] + DEVICE_SECTION + [Release(lock), Release(LockInputs)]
        == [Acquire(LockInputs)] + (visit + [Release(LockInputs)]);
  }

  // in_read in standby: it leaves the stream, takes the locks in order, and starts the stream if it still is.
  lemma DoesReadStart(i: nat, still: bool, c: Call)
    requires StreamLock(c) == InLock(i) && Guard(c) == {LockInputs, InLock(i)}
    ensures Does(InReadStartPath(i, still), {InLock(i)}, {InLock(i)}, c, if still then 1 else 0, 1)
  {
    var s := if still then 1 else 0;
    var h: set<Lock> := {LockInputs};
    var both: set<Lock> := {LockInputs, InLock(i)};
    var own: set<Lock> := {InLock(i)};
    DoesRelease(InLock(i), own, c);
    assert own - {InLock(i)} == {};
    DoesAcquire(LockInputs, {}, c);
    assert {} + {LockInputs} == h && h + {InLock(i)} == both;
    DoesEnter(InPre(i), InLock(i), h, c);
    DoesSection(still, both, c);
    DoesRelease(LockInputs, both, c);
    assert both - {LockInputs} == own;
    hide Does;
    var head := [Release(InLock(i)), Acquire(LockInputs)];
    assert head == [Release(InLock(i))] + [Acquire(LockInputs)];
    DoesThen([Release(InLock(i))], [Acquire(LockInputs)], own, {}, h, c, 0, 0, 0, 0);
    DoesThen(head, LockInputStream(i), own, h, both, c, 0, 0, 0, 1);
    DoesThen(head + LockInputStream(i), When(still, DEVICE_SECTION), own, both, both, c, 0, 1, s, 0);
    DoesThen(head + LockInputStream(i) + When(still, DEVICE_SECTION), [Release(LockInputs)], own, both, own, c, s, 1, 0, 0);
  }

  lemma DoesRead(i: nat, standby: bool, still: bool, failed: bool, running: bool)
    ensures var c := InRead(i, standby, still, failed, running);
      Does(Path(c), {}, {}, c, Sections(c), Entries(c))
  {
    var c := InRead(i, standby, still, failed, running);
    var own: set<Lock> := {InLock(i)};
    var s, e := if standby && still then 1 else 0, if standby then 2 else 1;
    DoesEnter(InPre(i), InLock(i), {}, c);
    assert {} + {InLock(i)} == own;
    DoesReadStart(i, still, c);
    DoesNothing(own, c);
    DoesRelease(InLock(i), own, c);
    assert own - {InLock(i)} == {};
    DoesInStandby(i, running, c);
    DoesNothing({}, c);
    hide Does;
    var p := LockInputStream(i) + When(standby, InReadStartPath(i, still));
    DoesThen(LockInputStream(i), When(standby, InReadStartPath(i, still)), {}, own, own, c, 0, 1, s, e - 1);
    DoesThen(p, [Release(InLock(i))], {}, own, {}, c, s, e, 0, 0);
    DoesThen(p + [Release(InLock(i))], When(failed, InStandbyPath(i, running)), {}, {}, {}, c, s, e,
             if failed && running then 1 else 0, if failed then 1 else 0);
  }

  lemma DoesWrite(o: nat, standby: bool, failed: bool, running: bool)
    ensures var c := OutWrite(o, standby, failed, running);
      Does(Path(c), {}, {}, c, Sections(c), Entries(c))
  {
    var c := OutWrite(o, standby, failed, running);
    assert {} + {OutLock(o)} == {OutLock(o)};
    DoesVisit(OutPre(o), OutLock(o), standby, {}, c);
    DoesVisit(OutPre(o), OutLock(o), running, {}, c);
    DoesNothing({}, c);
    hide Does;
    DoesThen(OutStandbyPath(o, standby), When(failed, OutStandbyPath(o, running)), {}, {}, {}, c,
             if standby then 1 else 0, 1, if failed && running then 1 else 0, if failed then 1 else 0);
  }

  // Main result: every entry point takes the device lock as often as it works on the device, each time with
  // exactly the locks that guard what it changes; it takes the lock of its stream once for each visit, always
  // through its pre_lock but for get_capture_position; and it takes lock_inputs first.
  lemma EveryPathIsGuarded(c: Call)
    ensures Does(Path(c), {}, {}, c, Sections(c), Entries(c))
  {
    match c {
      case OutStandby(o, running) =>
        assert {} + {OutLock(o)} == {OutLock(o)};
        DoesVisit(OutPre(o), OutLock(o), running, {}, c);
      case CloseOutputStream(o, running) =>
        assert {} + {OutLock(o)} == {OutLock(o)};
        DoesVisit(OutPre(o), OutLock(o), running, {}, c);
      case OutSetParameters(o) => DoesSetParameters(OutPre(o), OutLock(o), c);
      case OutWrite(o, standby, failed, running) => DoesWrite(o, standby, failed, running);
      case OutGetPresentationPosition(o) =>
        DoesVisit(OutPre(o), OutLock(o), false, {}, c);
        assert Path(c) == OutStandbyPath(o, false);
      case InStandby(i, running) => DoesInStandby(i, running, c);
      case InSetParameters(i) => DoesSetParameters(InPre(i), InLock(i), c);
      case InRead(i, standby, still, failed, running) => DoesRead(i, standby, still, failed, running);
      case InGetCapturePosition(i) =>
        DoesAcquire(InLock(i), {}, c);
        DoesRelease(InLock(i), {} + {InLock(i)}, c);
        assert {} + {InLock(i)} - {InLock(i)} == {};
        DoesThen([Acquire(InLock(i))], [Release(InLock(i))], {}, {} + {InLock(i)}, {}, c, 0, 1, 0, 0);
        assert Path(c) == [Acquire(InLock(i))] + [Release(InLock(i))];
      case CloseInputStream(i, running) => DoesInStandby(i, running, c);
      case DeviceCall => DoesSection(true, {}, c);
    }
  }

  // Every path of every entry point takes its locks in strictly increasing rank and gives all of them back.
  lemma EveryPathIsDisciplined(c: Call)
    ensures After(Path(c), {}) == Some({})
  {
    EveryPathIsGuarded(c);
  }

  /* ---- Threads ---- */

  datatype Thread = Thread(todo: seq<Action>, held: set<Lock>)

  type System = seq<Thread>

  ghost predicate Free(s: System, l: Lock) {
    forall t :: 0 <= t < |s| ==> l !in s[t].held
  }

  // A mutex is not recursive: a thread waits for one it holds itself, too.
  ghost predicate CanAct(s: System, t: nat) {
    t < |s| && s[t].todo != [] && (s[t].todo[0].Acquire? ==> Free(s, s[t].todo[0].l))
  }

  function Act(s: System, t: nat): System
    requires t < |s| && s[t].todo != []
  {
    var rest := s[t].todo[1..];
    match s[t].todo[0]
    case Acquire(l) => s[t := Thread(rest, s[t].held + {l})]
    case Release(l) => s[t := Thread(rest, s[t].held - {l})]
  }

  datatype Step = Spawn | Begin(t: nat, call: Call) | Do(t: nat)

  ghost predicate Enabled(s: System, step: Step) {
    match step
    case Spawn => true
    case Begin(t, _) => t < |s| && s[t].todo == []
    case Do(t) => CanAct(s, t)
  }

  ghost function Next(s: System, step: Step): System
    requires Enabled(s, step)
  {
    match step
    case Spawn => s + [Thread([], {})]
    case Begin(t, c) => s[t := Thread(Path(c), s[t].held)]
    case Do(t) => Act(s, t)
  }

  ghost predicate Reaches(s: System, steps: seq<Step>, s': System)
    decreases |steps|
  {
    if steps == [] then s == s'
    else Enabled(s, steps[0]) && Reaches(Next(s, steps[0]), steps[1..], s')
  }

  // Every thread can still finish by the rule, and no lock has two holders.
  ghost predicate Orderly(s: System) {
    && (forall t :: 0 <= t < |s| ==> After(s[t].todo, s[t].held) == Some({}))
    && (forall t, u :: 0 <= t < u < |s| ==> s[t].held !! s[u].held)
  }

  lemma StepIsOrderly(s: System, step: Step)
    requires Orderly(s) && Enabled(s, step)
    ensures Orderly(Next(s, step))
  {
    if step.Begin? {
      EveryPathIsDisciplined(step.call);
      assert s[step.t].held == {};
    }
  }

  lemma {:induction false} RunIsOrderly(s: System, steps: seq<Step>, s': System)
    requires Orderly(s) && Reaches(s, steps, s')
    ensures Orderly(s')
    decreases |steps|
  {
    if steps == [] {
    } else {
      StepIsOrderly(s, steps[0]);
      RunIsOrderly(Next(s, steps[0]), steps[1..], s');
    }
  }

  // Following who waits for whom climbs the ranks, so it ends at a thread that can act.
  lemma {:induction false} SomeoneCanAct(s: System, t: nat) returns (u: nat)
    requires Orderly(s) && t < |s| && s[t].todo != []
    ensures CanAct(s, u)
    decreases if s[t].todo[0].Acquire? then 6 - Rank(s[t].todo[0].l) else 0
  {
    if CanAct(s, t) {
      u := t;
    } else {
      var l := s[t].todo[0].l;
      var holder :| 0 <= holder < |s| && l in s[holder].held;
      assert s[holder].todo != [] by {
        assert After(s[holder].todo, s[holder].held) == Some({});
      }
      u := SomeoneCanAct(s, holder);
    }
  }

  // Main result: in every state any number of threads can reach, an unfinished thread means that some
  // thread can take its next step.
  lemma DeadlockFree(steps: seq<Step>, s: System, t: nat) returns (u: nat)
    requires Reaches([], steps, s) && t < |s| && s[t].todo != []
    ensures CanAct(s, u)
  {
    RunIsOrderly([], steps, s);
    u := SomeoneCanAct(s, t);
  }

  /* ---- Every call finishes ---- */

  function Work(s: System): nat {
    if s == [] then 0 else |s[0].todo| + Work(s[1..])
  }

  lemma {:induction false} WorkUpdate(s: System, t: nat, th: Thread)
    requires t < |s|
    ensures Work(s[t := th]) == Work(s) - |s[t].todo| + |th.todo|
  {
    if t == 0 {
      assert s[t := th][1..] == s[1..];
    } else {
      assert s[t := th][1..] == s[1..][t - 1 := th];
      WorkUpdate(s[1..], t - 1, th);
    }
  }

  lemma {:induction false} WorkLeft(s: System)
    ensures Work(s) == 0 <==> forall t :: 0 <= t < |s| ==> s[t].todo == []
  {
    if s == [] {
    } else {
      WorkLeft(s[1..]);
      assert forall t :: 0 < t < |s| ==> s[t] == s[1..][t - 1];
    }
  }

  ghost predicate Schedules(s: System, turns: seq<nat>, s': System)
    decreases |turns|
  {
    if turns == [] then s == s'
    else CanAct(s, turns[0]) && Schedules(Act(s, turns[0]), turns[1..], s')
  }

  // Main result: once no new call begins, every schedule does one unit of work a turn, and a schedule
  // that can go no further has finished every call and freed every lock.
  lemma {:induction false} SchedulesFinish(s: System, turns: seq<nat>, s': System)
    requires Orderly(s) && Schedules(s, turns, s')
    ensures Orderly(s') && Work(s') == Work(s) - |turns|
    ensures (forall t :: !CanAct(s', t)) ==> |turns| == Work(s) && forall l :: Free(s', l)
    decreases |turns|
  {
    if turns != [] {
      var t := turns[0];
      assert Act(s, t) == Next(s, Do(t));
      StepIsOrderly(s, Do(t));
      WorkUpdate(s, t, Act(s, t)[t]);
      assert Act(s, t) == s[t := Act(s, t)[t]];
      SchedulesFinish(Act(s, t), turns[1..], s');
    } else {
      WorkLeft(s);
      if Work(s) > 0 {
        var t :| 0 <= t < |s| && s[t].todo != [];
        var u := SomeoneCanAct(s, t);
      } else {
        forall l: Lock ensures Free(s, l) {
          forall t | 0 <= t < |s| ensures l !in s[t].held {
            assert After(s[t].todo, s[t].held) == Some({});
          }
        }
      }
    }
  }
}
