/** Routing during a voice call: from a start that succeeds until it stops, everything active follows the
    devices of the call, unless an earlier start failed. */
module HalCallRouting {
  import opened Options
  import opened SndDevices
  import opened Board
  import opened BoardProperties
  import opened PcmProfiles
  import opened CallSession
  import opened Hal
  import opened HalProperties
  import opened HalCards
  import opened HalMixer

  // The entry is where a call on the pair (out, inp) wants it.
  predicate Follows(u: Usecase, out: int, inp: int) {
    match KindOf(u.id)
    case VoiceCall => u.out == out && u.inp == inp
    case Playback => u.out == out
    case Capture => u.inp == inp
  }

  predicate AllFollow(list: seq<Usecase>, out: int, inp: int) {
    forall i :: 0 <= i < |list| ==> Follows(list[i], out, inp)
  }

  predicate AllFollowExcept(list: seq<Usecase>, id: UsecaseId, out: int, inp: int) {
    forall i :: 0 <= i < |list| && list[i].id != id ==> Follows(list[i], out, inp)
  }

  predicate OneCallAtMost(list: seq<Usecase>) {
    forall i, j :: 0 <= i < j < |list| ==> !(list[i].id == ID_VOICE_CALL && list[j].id == ID_VOICE_CALL)
  }

  // A call that is up is the only one listed, while none is up none is listed; and, when it is routed,
  // everything follows it if it is on a device at all.
  predicate CallOk(list: seq<Usecase>, up: bool, routed: bool) {
    && OneCallAtMost(list)
    && var v := FromId(list, ID_VOICE_CALL);
       && (up <==> v.Some?)
       && (routed && v.Some? && list[v.value].out != NONE ==>
             list[v.value].inp != NONE && AllFollow(list, list[v.value].out, list[v.value].inp))
  }

  predicate CallState(h: Hal, routed: bool) {
    CallOk(h.board.list, h.session.inCall, routed) && (routed ==> h.mode == InCall)
  }

  // The entries of calls are as they were.
  predicate SameCalls(a: seq<Usecase>, b: seq<Usecase>) {
    SameIds(a, b) && forall i :: 0 <= i < |a| && a[i].id == ID_VOICE_CALL ==> a[i] == b[i]
  }

  lemma SameCallsFound(a: seq<Usecase>, b: seq<Usecase>)
    requires SameCalls(a, b)
    ensures FromId(a, ID_VOICE_CALL) == FromId(b, ID_VOICE_CALL)
    ensures var v := FromId(a, ID_VOICE_CALL); v.Some? ==> a[v.value] == b[v.value]
  {
  }

  lemma AssignSameCalls(b: Board, i: nat, out: int, inp: int)
    requires |b.cnt| == SND_DEVICE_MAX && UniqueStreams(b.list) && i < |b.list| && b.list[i].id != ID_VOICE_CALL
    ensures SameCalls(Assign(b, i, out, inp).list, b.list)
  {
    if !(out == b.list[i].out && inp == b.list[i].inp) {
      AssignList(b, i, out, inp);
    }
  }

  // Selecting a stream never moves a call.
  lemma {:induction false} SelectSameCalls(h: Hal, id: UsecaseId, junk: InView)
    requires Sound(h.board) && id != ID_VOICE_CALL
    ensures SameCalls(SelectDevices(h, id, junk).list, h.board.list)
    decreases if KindOf(id) == Playback then 1 else 0
  {
    var found := FromId(h.board.list, id);
    if found.Some? {
      var i := found.value;
      if KindOf(id) == Capture {
        var inp := if CallDevices(h).1 != NONE then CallDevices(h).1 else CaptureDevice(h, junk);
        AssignSameCalls(h.board, i, NONE, inp);
      } else if CallDevices(h).0 != NONE {
        AssignSameCalls(h.board, i, CallDevices(h).0, NONE);
      } else if TakesCaptureAlong(h, id) {
        SelectSameCalls(h, ID_CAPTURE, junk);
        SelectSound(h, ID_CAPTURE, junk);
        AssignSameCalls(SelectDevices(h, ID_CAPTURE, junk), i, GetOutputSndDevice(Tune(h), OutDevices(h, id)), NONE);
      } else {
        AssignSameCalls(h.board, i, GetOutputSndDevice(Tune(h), OutDevices(h, id)), NONE);
      }
    }
  }

  lemma AssignFollows(b: Board, i: nat, out: int, inp: int, callOut: int, callIn: int)
    requires Sound(b) && i < |b.list| && Fits(b.list[i].id, out, inp)
    requires AllFollowExcept(b.list, b.list[i].id, callOut, callIn)
    requires b.list[i].id != ID_VOICE_CALL
    requires Follows(b.list[i].(out := out, inp := inp), callOut, callIn)
    ensures AllFollow(Assign(b, i, out, inp).list, callOut, callIn)
  {
    if !(out == b.list[i].out && inp == b.list[i].inp) {
      AssignList(b, i, out, inp);
      assert forall j :: 0 <= j < |b.list| && j != i ==> b.list[j].id != b.list[i].id;
    } else {
      assert forall j :: 0 <= j < |b.list| && j != i ==> b.list[j].id != b.list[i].id;
      assert b.list[i].(out := out, inp := inp) == b.list[i];
    }
  }

  // While a call is up, the stream that is selected joins the call and nobody leaves it.
  lemma SelectFollows(h: Hal, id: UsecaseId, junk: InView)
    requires Sound(h.board) && id != ID_VOICE_CALL && FromId(h.board.list, id).Some?
    requires CallDevices(h).0 != NONE && CallDevices(h).1 != NONE
    requires AllFollowExcept(h.board.list, id, CallDevices(h).0, CallDevices(h).1)
    ensures AllFollow(SelectDevices(h, id, junk).list, CallDevices(h).0, CallDevices(h).1)
  {
    var i := FromId(h.board.list, id).value;
    CallDevicesFit(h);
    if KindOf(id) == Capture {
      AssignFollows(h.board, i, NONE, CallDevices(h).1, CallDevices(h).0, CallDevices(h).1);
    } else {
      AssignFollows(h.board, i, CallDevices(h).0, NONE, CallDevices(h).0, CallDevices(h).1);
    }
  }

  // Selecting a stream that may not follow yet.
  lemma SelectCallState(h: Hal, id: UsecaseId, junk: InView, routed: bool)
    requires Sound(h.board) && id != ID_VOICE_CALL && CallOk(h.board.list, h.session.inCall, false)
    requires routed ==> h.mode == InCall
    requires routed && CallDevices(h).0 != NONE ==>
      CallDevices(h).1 != NONE && AllFollowExcept(h.board.list, id, CallDevices(h).0, CallDevices(h).1)
    ensures CallOk(SelectDevices(h, id, junk).list, h.session.inCall, routed)
  {
    var list := SelectDevices(h, id, junk).list;
    SelectSameCalls(h, id, junk);
    SameCallsFound(list, h.board.list);
    if routed && CallDevices(h).0 != NONE {
      if FromId(h.board.list, id).Some? {
        SelectFollows(h, id, junk);
      }
    }
  }

  /* ---- Starting and stopping streams ---- */

  lemma FoundAfterWithout(list: seq<Usecase>, i: nat)
    requires i < |list| && list[i].id != ID_VOICE_CALL
    ensures var v, w := FromId(list, ID_VOICE_CALL), FromId(Without(list, i), ID_VOICE_CALL);
      (v.Some? <==> w.Some?) && (v.Some? ==> Without(list, i)[w.value] == list[v.value])
  {
    var w := Without(list, i);
    assert forall j :: 0 <= j < |w| ==> w[j] == list[if j < i then j else j + 1];
    var v := FromId(list, ID_VOICE_CALL);
    if v.Some? {
      var at := if v.value < i then v.value else v.value - 1;
      assert w[at] == list[v.value];
      assert FromId(w, ID_VOICE_CALL) == Some(at);
    }
  }

  lemma WithoutCallOk(list: seq<Usecase>, i: nat, up: bool, routed: bool)
    requires i < |list| && CallOk(list, up, routed)
    ensures CallOk(Without(list, i), up && list[i].id != ID_VOICE_CALL, routed)
  {
    var w := Without(list, i);
    assert forall j :: 0 <= j < |w| ==> w[j] == list[if j < i then j else j + 1];
    if list[i].id != ID_VOICE_CALL {
      FoundAfterWithout(list, i);
    } else {
      assert forall j :: 0 <= j < |w| ==> w[j].id != ID_VOICE_CALL;
    }
  }

  lemma StopCallState(b: Board, id: UsecaseId, up: bool, routed: bool)
    requires Sound(b) && CallOk(b.list, up, routed)
    ensures CallOk(StopStream(b, id).list, up && id != ID_VOICE_CALL, routed)
  {
    var found := FromId(b.list, id);
    if found.Some? {
      DropKeepsSound(b, found.value);
      WithoutCallOk(b.list, found.value, up, routed);
    }
  }

  // A stream that is listed, selected, and perhaps stopped again.
  lemma StartCallState(h: Hal, id: UsecaseId, card: bool, junk: InView, routed: bool)
    requires Sound(h.board) && CallState(h, routed) && id != ID_VOICE_CALL && FromId(h.board.list, id).None?
    ensures var b := SelectDevices(h.(board := Append(h.board, id, card)), id, junk);
      CallOk(b.list, h.session.inCall, routed) && CallOk(StopStream(b, id).list, h.session.inCall, routed)
  {
    AppendKeepsSound(h.board, id, card);
    var u := Usecase(id, NONE, NONE, card);
    var h1 := h.(board := Append(h.board, id, card));
    FoundAfterAppend(h.board.list, u, ID_VOICE_CALL);
    assert CallDevices(h1) == CallDevices(h);
    SelectCallState(h1, id, junk, routed);
    SelectSound(h1, id, junk);
    StopCallState(SelectDevices(h1, id, junk), id, h.session.inCall, routed);
  }

  lemma ReselectCallState(h: Hal, id: UsecaseId, junk: InView, routed: bool)
    requires Sound(h.board) && CallState(h, routed) && id != ID_VOICE_CALL
    ensures CallOk(SelectDevices(h, id, junk).list, h.session.inCall, routed)
  {
    SelectCallState(h, id, junk, routed);
  }

  /* ---- Starting and stopping the call ---- */

  // Main result: a start that finds no call listed puts everything active on the call's devices.
  lemma CallStartRoutes(h: Hal, r: Ready, junk: InView)
    requires Invariant(h) && h.mode == InCall && !h.session.inCall && r.voiceTx && r.voiceRx
    requires FromId(h.board.list, ID_VOICE_CALL).None?
    ensures CallState(StartCall(h, r, junk), true) && StartCall(h, r, junk).session.inCall
    ensures CallDevices(StartCall(h, r, junk)).0 == GetOutputSndDevice(Tune(h), PrimaryDevices(h))
  {
    StartCallInvariant(h, r, junk);
    AppendKeepsSound(h.board, ID_VOICE_CALL, true);
    var u := Usecase(ID_VOICE_CALL, NONE, NONE, true);
    var h1 := h.(board := Append(h.board, ID_VOICE_CALL, true));
    FoundAfterAppend(h.board.list, u, ID_VOICE_CALL);
    var n := |h.board.list|;
    var out := GetOutputSndDevice(Tune(h), PrimaryDevices(h));
    var inp := GetInputSndDevice(Tune(h), ActiveInput(h1, junk), PrimaryDevices(h));
    var g := StartCall(h, r, junk);
    assert g.board == Assign(h1.board, n, out, inp);
    CallListAfterAssign(h1.board, n, out, inp);
  }

  lemma CallListAfterAssign(b: Board, n: nat, out: int, inp: int)
    requires Sound(b) && n < |b.list| && b.list[n].id == ID_VOICE_CALL && FromId(b.list, ID_VOICE_CALL) == Some(n)
    requires b.list[n].out == NONE && b.list[n].inp == NONE && Fits(ID_VOICE_CALL, out, inp)
    requires forall j :: 0 <= j < |b.list| && j != n ==> b.list[j].id != ID_VOICE_CALL
    requires out != NONE ==> inp != NONE
    ensures var l := Assign(b, n, out, inp).list;
      && FromId(l, ID_VOICE_CALL) == Some(n) && l[n].out == out && l[n].inp == inp
      && OneCallAtMost(l)
      && (out != NONE ==> AllFollow(l, out, inp))
  {
    AssignSound(b, n, out, inp);
    AssignFrame(b, n, out, inp, n);
    if out != NONE {
      AssignList(b, n, out, inp);
    }
  }

  lemma StopCallIsDown(h: Hal, routed: bool)
    requires Invariant(h) && CallState(h, routed) && h.session.inCall
    ensures Invariant(StopCall(h)) && CallState(StopCall(h), routed) && !StopCall(h).session.inCall
    ensures StopCall(h).mode == h.mode
  {
    StopCallInvariant(h);
    StopCallState(h.board, ID_VOICE_CALL, true, routed);
  }

  /* ---- Steps ---- */

  // The step starts a call whose devices do not both open.
  predicate StartFails(h: Hal, op: Op) {
    op.OpOutSetParameters? && StartsCall(h, op.id, op.devices) && !(op.luck.call.voiceTx && op.luck.call.voiceRx)
  }

  // The step starts a call, and its devices open.
  predicate CallStarts(h: Hal, op: Op) {
    op.OpOutSetParameters? && StartsCall(h, op.id, op.devices) && !StartFails(h, op)
  }

  predicate StaysInCall(op: Op) { op.OpSetMode? ==> op.mode == InCall }

  lemma UpdateCallState(h: Hal, id: UsecaseId, changed: bool, luck: Luck, routed: bool)
    requires Invariant(h) && CallState(h, routed)
    requires StartsAgain(h, id, changed) ==> luck.call.voiceTx && luck.call.voiceRx
    ensures CallState(UpdateCall(h, id, changed, luck), routed || StartsAgain(h, id, changed))
  {
    hide StartCall, StopCall;
    if StartsAgain(h, id, changed) {
      if h.session.inCall {
        StopCallIsDown(h, routed);
      }
      CallStartRoutes(if h.session.inCall then StopCall(h) else h, luck.call, luck.junk2);
    }
  }

  lemma RouteCallState(h: Hal, id: UsecaseId, devices: Mask, luck: Luck, routed: bool)
    requires Invariant(h) && CallState(h, routed) && !StartFails(h, OpOutSetParameters(id, devices, luck))
    ensures CallState(OutSetParameters(h, id, devices, luck), routed || StartsCall(h, id, devices))
  {
    if id in h.outs && devices != {} {
      var changed := h.outs[id].devices != devices;
      var h1 := h.(outs := h.outs[id := h.outs[id].(devices := devices)]);
      SetOutDevicesInvariant(h, id, devices);
      RerouteInvariant(h1, id, changed, luck.junk1);
      var h2 := Reroute(h1, id, changed, luck.junk1);
      ScoLegInvariant(h2, devices, luck);
      SetScoLegMatched(h2, devices, luck);
      ReroutedBoard(h, id, devices, luck);
      RouteUnfolds(h, id, devices, luck);
      StopCallState(h.board, id, h.session.inCall, routed);
      ReselectCallState(h, id, luck.junk1, routed);
      hide SelectDevices, StopStream, Reroute, UpdateCall, OutSetParameters, SetScoLeg, CallOk, Invariant;
      UpdateCallState(Rerouted(h, id, devices, luck), id, changed, luck, routed);
    }
  }

  lemma WriteCallState(h: Hal, id: UsecaseId, ready: bool, written: bool, junk: InView, routed: bool)
    requires Invariant(h) && CallState(h, routed)
    ensures CallState(OutWrite(h, id, ready, written, junk), routed)
  {
    if id in h.outs {
      WriteBoard(h, id, ready, written, junk);
      StopCallState(h.board, id, h.session.inCall, routed);
      if !Running(h, id) {
        assert FromId(h.board.list, id).None?;
        StartCallState(h, id, CardFor(h, id), junk, routed);
      }
    }
    hide OutWrite, CallOk;
    if id !in h.outs {
      assert OutWrite(h, id, ready, written, junk) == h;
    }
  }

  lemma ReadCallState(h: Hal, ready: bool, got: bool, junk: InView, routed: bool)
    requires Invariant(h) && CallState(h, routed)
    ensures CallState(InRead(h, ready, got, junk), routed)
  {
    StopCallState(h.board, ID_CAPTURE, h.session.inCall, routed);
    if h.capture.standby {
      assert FromId(h.board.list, ID_CAPTURE).None?;
      StartCallState(h, ID_CAPTURE, true, junk, routed);
    }
    hide SelectDevices, StopStream, Served, CallOk, Invariant;
  }

  lemma InSetParametersCallState(h: Hal, source: Option<Source>, devices: Option<Mask>, junk: InView, routed: bool)
    requires Invariant(h) && CallState(h, routed)
    ensures CallState(InSetParameters(h, source, devices, junk), routed)
  {
    var g := InSetParametersBoard(h, source, devices, junk);
    StopCallState(h.board, ID_CAPTURE, h.session.inCall, routed);
    ReselectCallState(g, ID_CAPTURE, junk, routed);
    hide InSetParameters, SelectDevices, StopStream, CallOk;
  }

  lemma SetModeCallState(h: Hal, mode: Mode, routed: bool)
    requires Invariant(h) && CallState(h, routed) && (routed ==> mode == InCall)
    ensures CallState(SetMode(h, mode), routed)
  {
    if mode == Normal && h.session.inCall {
      assert Invariant(h.(mode := mode));
      StopCallIsDown(h.(mode := mode), routed);
    }
  }

  lemma StepCallState(h: Hal, op: Op, routed: bool)
    requires Invariant(h) && CallState(h, routed) && !StartFails(h, op) && (routed ==> StaysInCall(op))
    ensures CallState(Step(h, op), routed || CallStarts(h, op))
  {
    hide CallState, StartsCall;
    match op {
      case OpOutWrite(id, ready, written, junk) => WriteCallState(h, id, ready, written, junk, routed);
      case OpOutStandby(id) => StandbyCallState(h, id, routed);
      case OpOutSetParameters(id, devices, luck) => RouteCallState(h, id, devices, luck, routed);
      case OpInRead(ready, got, junk) => ReadCallState(h, ready, got, junk, routed);
      case OpInStandby => StandbyCallState(h, ID_CAPTURE, routed);
      case OpInSetParameters(source, devices, junk) => InSetParametersCallState(h, source, devices, junk, routed);
      case OpSetMode(mode) => SetModeCallState(h, mode, routed);
      case OpSetBand(wideband, btWideband) => BandCallState(h, wideband, btWideband, routed);
    }
  }

  lemma StandbyCallState(h: Hal, id: UsecaseId, routed: bool)
    requires Invariant(h) && CallState(h, routed)
    ensures CallState(OutStandby(h, id), routed) && CallState(InStandby(h), routed)
  {
    if Running(h, id) {
      StopCallState(h.board, id, h.session.inCall, routed);
    }
    StopCallState(h.board, ID_CAPTURE, h.session.inCall, routed);
  }

  lemma BandCallState(h: Hal, wideband: bool, btWideband: bool, routed: bool)
    requires CallState(h, routed)
    ensures CallState(h.(wideband := wideband, btWideband := btWideband), routed)
  {
  }

  /* ---- Runs ---- */

  predicate NoStartFails(h: Hal, ops: seq<Op>)
    requires |h.board.cnt| == SND_DEVICE_MAX
    decreases |ops|
  {
    ops == [] || (!StartFails(h, ops[0]) && NoStartFails(Step(h, ops[0]), ops[1..]))
  }

  lemma {:induction false} RunCallState(h: Hal, ops: seq<Op>, routed: bool)
    requires Invariant(h) && CallState(h, routed) && NoStartFails(h, ops)
    requires routed ==> forall i :: 0 <= i < |ops| ==> StaysInCall(ops[i])
    ensures Invariant(Run(h, ops)) && CallState(Run(h, ops), routed)
    decreases |ops|
  {
    if ops == [] {
    } else {
      hide CallState, Invariant, StartFails, CallStarts;
      StepCallState(h, ops[0], routed);
      StepInvariant(h, ops[0]);
      hide Step;
      WeakerCallState(Step(h, ops[0]), routed || CallStarts(h, ops[0]), routed);
      RunCallState(Step(h, ops[0]), ops[1..], routed);
    }
  }

  lemma WeakerCallState(h: Hal, has: bool, wants: bool)
    requires CallState(h, has) && (wants ==> has)
    ensures CallState(h, wants)
  {
  }

  // Main result: in every run in which no start of a call has failed, in whatever modes, a call is listed
  // exactly when it is up, and then once.
  lemma CallIsListedOnce(h: Hal, ops: seq<Op>)
    requires Fresh(h) && NoStartFails(h, ops)
    ensures CallState(Run(h, ops), false)
  {
    FreshInvariant(h);
    RunCallState(h, ops, false);
  }

  // The call that is up is on a pair of devices that everything active follows, unless it is on no device.
  predicate CallIsFollowed(h: Hal) {
    h.session.inCall ==>
      var v := FromId(h.board.list, ID_VOICE_CALL);
      v.Some? &&
      (h.board.list[v.value].out != NONE ==> AllFollow(h.board.list, h.board.list[v.value].out, h.board.list[v.value].inp))
  }

  lemma StateIsFollowed(h: Hal)
    requires CallState(h, true)
    ensures CallIsFollowed(h)
  {
  }

  // Main result: take any run of the device after it was opened in which no start of a call fails. From a
  // step that starts a call on, as long as the mode stays IN_CALL, everything active is on the devices of
  // the call whenever a call is up and on a device.
  lemma CallRunRoutes(h: Hal, before: seq<Op>, ops: seq<Op>)
    requires Fresh(h) && NoStartFails(h, before)
    requires ops != [] && CallStarts(Run(h, before), ops[0]) && NoStartFails(Run(h, before), ops)
    requires forall i :: 0 <= i < |ops| ==> StaysInCall(ops[i])
    ensures CallIsFollowed(Run(Run(h, before), ops))
  {
    FreshInvariant(h);
    assert CallState(h, false);
    hide Step, Invariant, CallState, CallIsFollowed, StartFails, CallStarts, StaysInCall;
    RunCallState(h, before, false);
    var g := Run(h, before);
    StepCallState(g, ops[0], false);
    StepInvariant(g, ops[0]);
    RunCallState(Step(g, ops[0]), ops[1..], true);
    assert Run(g, ops) == Run(Step(g, ops[0]), ops[1..]);
    StateIsFollowed(Run(g, ops));
  }

  /* ---- After a failed start ---- */

  // A start that failed before left its entry at the front of the calls. The next start routes through
  // that entry, and select_devices returns early when the entry already has the pair it selects.
  predicate StaleAtTarget(h: Hal) {
    var v := FromId(h.board.list, ID_VOICE_CALL);
    v.Some? &&
    h.board.list[v.value].out == GetOutputSndDevice(Tune(h), PrimaryDevices(h)) &&
    h.board.list[v.value].inp == InCallInput(Tune(h), PrimaryDevices(h))
  }

  predicate StreamsFollow(list: seq<Usecase>, out: int, inp: int) {
    forall i :: 0 <= i < |list| && list[i].id != ID_VOICE_CALL ==> Follows(list[i], out, inp)
  }

  // Exactly then the start may leave a stream off the call's devices: every stream follows the call after
  // a start exactly when the stale entry is not at the target or the streams were on it already.
  lemma CallStartRoutesIff(h: Hal, r: Ready, junk: InView)
    requires Invariant(h) && h.mode == InCall && !h.session.inCall && r.voiceTx && r.voiceRx
    requires GetOutputSndDevice(Tune(h), PrimaryDevices(h)) != NONE
    ensures var g := StartCall(h, r, junk);
      var (out, inp) := CallDevices(g);
      && out == GetOutputSndDevice(Tune(h), PrimaryDevices(h))
      && (StreamsFollow(g.board.list, out, inp) <==> !StaleAtTarget(h) || StreamsFollow(h.board.list, out, inp))
  {
    StartCallInvariant(h, r, junk);
    AppendKeepsSound(h.board, ID_VOICE_CALL, true);
    var u := Usecase(ID_VOICE_CALL, NONE, NONE, true);
    var h1 := h.(board := Append(h.board, ID_VOICE_CALL, true));
    FoundAfterAppend(h.board.list, u, ID_VOICE_CALL);
    var v := FromId(h1.board.list, ID_VOICE_CALL).value;
    var out := GetOutputSndDevice(Tune(h), PrimaryDevices(h));
    var inp := GetInputSndDevice(Tune(h), ActiveInput(h1, junk), PrimaryDevices(h));
    CallInputIs(Tune(h), ActiveInput(h1, junk), PrimaryDevices(h));
    assert StartCall(h, r, junk).board == Assign(h1.board, v, out, inp);
    CallEntryAfterAssign(h1.board, v, out, inp);
    if StaleAtTarget(h) {
      assert StartCall(h, r, junk).board == h1.board;
      AppendFollows(h.board.list, u, out, inp);
    } else {
      RoutedStreamsFollow(h1.board, v, out, inp);
    }
  }

  lemma AppendFollows(list: seq<Usecase>, u: Usecase, out: int, inp: int)
    requires u.id == ID_VOICE_CALL
    ensures StreamsFollow(list + [u], out, inp) <==> StreamsFollow(list, out, inp)
  {
    assert forall i :: 0 <= i < |list| ==> (list + [u])[i] == list[i];
  }

  lemma RoutedStreamsFollow(b: Board, v: nat, out: int, inp: int)
    requires |b.cnt| == SND_DEVICE_MAX && UniqueStreams(b.list) && v < |b.list| && b.list[v].id == ID_VOICE_CALL
    requires !(b.list[v].out == out && b.list[v].inp == inp) && out != NONE && inp != NONE
    ensures StreamsFollow(Assign(b, v, out, inp).list, out, inp)
  {
    AssignList(b, v, out, inp);
  }

  lemma CallEntryAfterAssign(b: Board, v: nat, out: int, inp: int)
    requires Sound(b) && FromId(b.list, ID_VOICE_CALL) == Some(v) && Fits(ID_VOICE_CALL, out, inp)
    ensures var l := Assign(b, v, out, inp).list;
      FromId(l, ID_VOICE_CALL) == Some(v) && l[v].out == out && l[v].inp == inp
  {
    AssignSound(b, v, out, inp);
    AssignFrame(b, v, out, inp, v);
  }
}
