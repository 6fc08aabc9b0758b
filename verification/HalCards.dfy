/** A running output stream is always on a PCM device that was chosen for the devices it is set to. */
module HalCards {
  import opened Options
  import opened SndDevices
  import opened Board
  import opened BoardProperties
  import opened PcmProfiles
  import opened Hal
  import opened HalProperties

  // Calls and capture streams have the mixer card; a playback stream has it exactly when a profile serves
  // the devices it is set to now.
  predicate CardFor(h: Hal, id: UsecaseId) {
    KindOf(id) == Playback ==> Served(Playback, OutDevices(h, id))
  }

  predicate CardsCurrent(h: Hal) {
    forall i :: 0 <= i < |h.board.list| ==> (h.board.list[i].card <==> CardFor(h, h.board.list[i].id))
  }

  predicate SameCards(a: seq<Usecase>, b: seq<Usecase>) {
    |a| == |b| && forall i :: 0 <= i < |a| ==> a[i].id == b[i].id && a[i].card == b[i].card
  }

  lemma AssignCards(b: Board, i: nat, out: int, inp: int)
    requires |b.cnt| == SND_DEVICE_MAX && UniqueStreams(b.list) && i < |b.list|
    ensures SameCards(Assign(b, i, out, inp).list, b.list)
  {
    forall j | 0 <= j < |b.list|
      ensures Assign(b, i, out, inp).list[j].id == b.list[j].id && Assign(b, i, out, inp).list[j].card == b.list[j].card
    {
      AssignFrame(b, i, out, inp, j);
    }
  }

  lemma {:induction false} SelectCards(h: Hal, id: UsecaseId, junk: InView)
    requires Sound(h.board)
    ensures SameCards(SelectDevices(h, id, junk).list, h.board.list)
    decreases if KindOf(id) == Playback then 1 else 0
  {
    hide Assign;
    var found := FromId(h.board.list, id);
    if found.Some? {
      var i := found.value;
      match KindOf(id) {
        case VoiceCall =>
          AssignCards(h.board, i, GetOutputSndDevice(Tune(h), PrimaryDevices(h)),
                      GetInputSndDevice(Tune(h), ActiveInput(h, junk), PrimaryDevices(h)));
        case Playback =>
          if CallDevices(h).0 != NONE {
            AssignCards(h.board, i, CallDevices(h).0, NONE);
          } else {
            if TakesCaptureAlong(h, id) {
              SelectCards(h, ID_CAPTURE, junk);
              SelectSound(h, ID_CAPTURE, junk);
            }
            var b := if TakesCaptureAlong(h, id) then SelectDevices(h, ID_CAPTURE, junk) else h.board;
            AssignCards(b, i, GetOutputSndDevice(Tune(h), OutDevices(h, id)), NONE);
          }
        case Capture =>
          AssignCards(h.board, i, NONE, if CallDevices(h).1 != NONE then CallDevices(h).1 else CaptureDevice(h, junk));
      }
    }
  }

  lemma StopEntries(b: Board, id: UsecaseId)
    requires Sound(b)
    ensures forall u :: u in StopStream(b, id).list ==> u in b.list
  {
    StopSound(b, id, id);
  }

  // The predicate on entries, which forgets their positions.
  ghost predicate CardsFit(list: seq<Usecase>, h: Hal) {
    forall u :: u in list ==> (u.card <==> CardFor(h, u.id))
  }

  lemma CardsAsFit(h: Hal)
    ensures CardsCurrent(h) <==> CardsFit(h.board.list, h)
  {
  }

  lemma SameCardsFit(a: seq<Usecase>, b: seq<Usecase>, h: Hal)
    requires SameCards(a, b) && CardsFit(b, h)
    ensures CardsFit(a, h)
  {
    forall u | u in a ensures u.card <==> CardFor(h, u.id) {
      var i :| 0 <= i < |a| && a[i] == u;
      assert b[i] in b;
    }
  }

  lemma StartFits(h: Hal, id: UsecaseId, card: bool, ready: bool, junk: InView)
    requires Sound(h.board) && CardsFit(h.board.list, h)
    requires id == ID_VOICE_CALL || FromId(h.board.list, id).None?
    requires card <==> CardFor(h, id)
    ensures var b := SelectDevices(h.(board := Append(h.board, id, card)), id, junk);
      CardsFit(b.list, h) && CardsFit(StartStream(h, id, card, ready, junk).0.board.list, h)
  {
    AppendKeepsSound(h.board, id, card);
    var h1 := h.(board := Append(h.board, id, card));
    assert CardsFit(h1.board.list, h);
    SelectCards(h1, id, junk);
    SelectSound(h1, id, junk);
    var b := SelectDevices(h1, id, junk);
    SameCardsFit(b.list, h1.board.list, h);
    StopEntries(b, id);
  }

  lemma StopFits(b: Board, id: UsecaseId, h: Hal)
    requires Sound(b) && CardsFit(b.list, h)
    ensures CardsFit(StopStream(b, id).list, h)
  {
    StopEntries(b, id);
  }

  lemma SelectFits(h: Hal, id: UsecaseId, junk: InView)
    requires Sound(h.board) && CardsFit(h.board.list, h)
    ensures CardsFit(SelectDevices(h, id, junk).list, h)
  {
    SelectCards(h, id, junk);
    SameCardsFit(SelectDevices(h, id, junk).list, h.board.list, h);
  }

  predicate SameDevices(h: Hal, g: Hal) {
    h.outs.Keys == g.outs.Keys && forall id :: id in h.outs ==> h.outs[id].devices == g.outs[id].devices
  }

  lemma SameDevicesFit(list: seq<Usecase>, h: Hal, g: Hal)
    requires SameDevices(h, g) && CardsFit(list, h)
    ensures CardsFit(list, g)
  {
    assert forall id :: OutDevices(h, id) == OutDevices(g, id);
  }

  lemma OutStandbyFits(h: Hal, id: UsecaseId)
    requires Sound(h.board) && CardsFit(h.board.list, h)
    ensures CardsFit(OutStandby(h, id).board.list, OutStandby(h, id))
  {
    hide StopStream;
    StopFits(h.board, id, h);
    SameDevicesFit(OutStandby(h, id).board.list, h, OutStandby(h, id));
  }

  lemma OutStartFits(h: Hal, id: UsecaseId, ready: bool, junk: InView)
    requires Invariant(h) && CardsFit(h.board.list, h) && id in h.outs && !Running(h, id)
    ensures var h1 := StartOutput(h, id, ready, junk).0;
      Sound(h1.board) && CardsFit(h1.board.list, h)
  {
    hide StartStream, SelectDevices, Served;
    assert KindOf(id) == Playback && FromId(h.board.list, id).None?;
    var served := Served(Playback, OutDevices(h, id));
    StartFits(h, id, served, ready || !served, junk);
    StartSound(h, id, served, ready || !served, junk, id);
  }

  lemma OutWriteFits(h: Hal, id: UsecaseId, ready: bool, written: bool, junk: InView)
    requires Invariant(h) && CardsFit(h.board.list, h)
    ensures var g := OutWrite(h, id, ready, written, junk); CardsFit(g.board.list, g)
  {
    hide StartOutput, OutStandby, CardsFit;
    if id in h.outs {
      if !Running(h, id) {
        OutStartFits(h, id, ready, junk);
      }
      var (h1, started) := if Running(h, id) then (h, true) else StartOutput(h, id, ready, junk);
      assert Sound(h1.board) && CardsFit(h1.board.list, h);
      var h2 := if started then h1.(outs := h1.outs[id := h1.outs[id].(standby := false)]) else h1;
      SameDevicesFit(h1.board.list, h, h2);
      OutStandbyFits(h2, id);
    }
  }

  // A running stream whose devices change stops, so no entry of it is listed on the old ones.
  lemma RerouteFits(h: Hal, id: UsecaseId, devices: Mask, junk: InView)
    requires Invariant(h) && CardsFit(h.board.list, h) && id in h.outs
    ensures var h1 := h.(outs := h.outs[id := h.outs[id].(devices := devices)]);
      var g := Reroute(h1, id, h.outs[id].devices != devices, junk);
      Invariant(g) && CardsFit(g.board.list, g)
  {
    var changed := h.outs[id].devices != devices;
    var h1 := h.(outs := h.outs[id := h.outs[id].(devices := devices)]);
    SetOutDevicesInvariant(h, id, devices);
    RerouteInvariant(h1, id, changed, junk);
    hide SelectDevices, OutStandby, Invariant, CardsFit;
    if changed {
      StandbyForgetsDevices(h, id, devices);
    } else {
      assert h1 == h;
      RerouteSameFits(h, id, junk);
    }
  }

  lemma RerouteSameFits(h: Hal, id: UsecaseId, junk: InView)
    requires Invariant(h) && CardsFit(h.board.list, h)
    ensures var g := Reroute(h, id, false, junk); CardsFit(g.board.list, g)
  {
    SelectFits(h, id, junk);
    hide SelectDevices, Invariant, CardsFit;
    SameDevicesFit(Reroute(h, id, false, junk).board.list, h, Reroute(h, id, false, junk));
  }

  lemma OthersStillFit(list: seq<Usecase>, was: seq<Usecase>, h: Hal, g: Hal, id: UsecaseId)
    requires CardsFit(was, h) && !Listed(list, id) && forall u :: u in list ==> u in was
    requires forall o: UsecaseId :: o != id ==> OutDevices(g, o) == OutDevices(h, o)
    ensures CardsFit(list, g)
  {
    forall u | u in list ensures u.card <==> CardFor(g, u.id) {
      assert Listed(list, u.id);
      assert OutDevices(g, u.id) == OutDevices(h, u.id);
      assert u in was;
    }
  }

  lemma StandbyForgetsDevices(h: Hal, id: UsecaseId, devices: Mask)
    requires Invariant(h) && CardsFit(h.board.list, h) && id in h.outs
    ensures var h1 := h.(outs := h.outs[id := h.outs[id].(devices := devices)]);
      var g := OutStandby(h1, id);
      CardsFit((if Running(h1, id) then g else h1).board.list, if Running(h1, id) then g else h1)
  {
    var h1 := h.(outs := h.outs[id := h.outs[id].(devices := devices)]);
    SetOutDevicesInvariant(h, id, devices);
    StopEntries(h1.board, id);
    OutStandbyInvariant(h1, id);
    hide StopStream, SelectDevices, Sound, CardsFit;
    var g := OutStandby(h1, id);
    assert !Running(g, id) && !Listed(g.board.list, id);
    OthersStillFit(g.board.list, h.board.list, h, g, id);
  }

  lemma UpdateCallFits(h: Hal, id: UsecaseId, changed: bool, luck: Luck)
    requires Sound(h.board) && CardsFit(h.board.list, h)
    ensures var g := UpdateCall(h, id, changed, luck); CardsFit(g.board.list, g)
  {
    StopSound(h.board, ID_VOICE_CALL, ID_VOICE_CALL);
    StopFits(h.board, ID_VOICE_CALL, h);
    var s := StopCall(h);
    SameDevicesFit(s.board.list, h, s);
    StartFits(h, ID_VOICE_CALL, true, true, luck.junk2);
    StartFits(s, ID_VOICE_CALL, true, true, luck.junk2);
    var g := UpdateCall(h, id, changed, luck);
    SameDevicesFit(g.board.list, h, g);
  }

  lemma OutSetParametersFits(h: Hal, id: UsecaseId, devices: Mask, luck: Luck)
    requires Invariant(h) && CardsFit(h.board.list, h)
    ensures var g := OutSetParameters(h, id, devices, luck); CardsFit(g.board.list, g)
  {
    hide Reroute, UpdateCall;
    if id in h.outs && devices != {} {
      var changed := h.outs[id].devices != devices;
      var h1 := h.(outs := h.outs[id := h.outs[id].(devices := devices)]);
      RerouteFits(h, id, devices, luck.junk1);
      var h2 := Reroute(h1, id, changed, luck.junk1);
      var h3 := h2.(session := SetScoLeg(h2, devices, luck));
      SameDevicesFit(h2.board.list, h2, h3);
      UpdateCallFits(h3, id, changed, luck);
    }
  }

  lemma InStandbyFits(h: Hal)
    requires Sound(h.board) && CardsFit(h.board.list, h)
    ensures CardsFit(InStandby(h).board.list, InStandby(h))
  {
    hide StopStream;
    StopFits(h.board, ID_CAPTURE, h);
    SameDevicesFit(InStandby(h).board.list, h, InStandby(h));
  }

  lemma InStartFits(h: Hal, ready: bool, junk: InView)
    requires Invariant(h) && CardsFit(h.board.list, h) && h.capture.standby
    ensures var h1 := StartInput(h, ready, junk).0;
      Sound(h1.board) && CardsFit(h1.board.list, h)
  {
    hide StartStream, SelectDevices, Served;
    assert FromId(h.board.list, ID_CAPTURE).None?;
    StartFits(h, ID_CAPTURE, true, ready, junk);
    StartSound(h, ID_CAPTURE, true, ready, junk, ID_CAPTURE);
  }

  lemma InReadFits(h: Hal, ready: bool, got: bool, junk: InView)
    requires Invariant(h) && CardsFit(h.board.list, h)
    ensures var g := InRead(h, ready, got, junk); CardsFit(g.board.list, g)
  {
    hide StartInput, InStandby, CardsFit;
    if h.capture.standby {
      InStartFits(h, ready, junk);
    }
    var (h1, started) := if h.capture.standby then StartInput(h, ready, junk) else (h, true);
    assert Sound(h1.board) && CardsFit(h1.board.list, h);
    var h2 := if started then h1.(capture := h1.capture.(standby := false)) else h1;
    SameDevicesFit(h1.board.list, h, h2);
    InStandbyFits(h2);
  }

  lemma InSetParametersFits(h: Hal, source: Option<Source>, devices: Option<Mask>, junk: InView)
    requires Sound(h.board) && CardsFit(h.board.list, h)
    ensures var g := InSetParameters(h, source, devices, junk); CardsFit(g.board.list, g)
  {
    hide SelectDevices, InStandby, CardsFit;
    var h1 := if source.Some? && source.value != SourceDefault then h.(capture := h.capture.(source := source.value)) else h;
    SameDevicesFit(h.board.list, h, h1);
    if devices.Some? {
      var h2 := h1.(capture := h1.capture.(devices := devices.value));
      SameDevicesFit(h.board.list, h, h2);
      InStandbyFits(h2);
      SelectFits(h2, ID_CAPTURE, junk);
      SameDevicesFit(SelectDevices(h2, ID_CAPTURE, junk).list, h2, h2.(board := SelectDevices(h2, ID_CAPTURE, junk)));
    }
  }

  lemma StepFits(h: Hal, op: Op)
    requires Invariant(h) && CardsFit(h.board.list, h)
    ensures var g := Step(h, op); CardsFit(g.board.list, g)
  {
    match op {
      case OpOutWrite(id, ready, written, junk) => OutWriteFits(h, id, ready, written, junk);
      case OpOutStandby(id) => OutStandbyFits(h, id);
      case OpOutSetParameters(id, devices, luck) => OutSetParametersFits(h, id, devices, luck);
      case OpSetMode(mode) =>
        StopFits(h.board, ID_VOICE_CALL, h);
        SameDevicesFit(Step(h, op).board.list, h, Step(h, op));
      case OpSetBand(wideband, btWideband) => SameDevicesFit(h.board.list, h, Step(h, op));
      case OpInRead(ready, got, junk) => InReadFits(h, ready, got, junk);
      case OpInStandby => InStandbyFits(h);
      case OpInSetParameters(source, devices, junk) => InSetParametersFits(h, source, devices, junk);
    }
  }

  lemma {:induction false} RunFits(h: Hal, ops: seq<Op>)
    requires Invariant(h) && CardsFit(h.board.list, h)
    ensures CardsFit(Run(h, ops).board.list, Run(h, ops))
    decreases |ops|
  {
    if ops == [] {
    } else {
      StepFits(h, ops[0]);
      StepInvariant(h, ops[0]);
      RunFits(Step(h, ops[0]), ops[1..]);
    }
  }

  // Main result: in every reachable state a listed playback stream was started on the devices it is set
  // to: a change of devices always stops it first. Everything else listed has the card.
  lemma CardsAreCurrent(h: Hal, ops: seq<Op>)
    requires Fresh(h)
    ensures CardsCurrent(Run(h, ops))
  {
    FreshInvariant(h);
    RunFits(h, ops);
    CardsAsFit(Run(h, ops));
  }

  /* ---- Capture ---- */

  // A running capture stream has a device that the capture profile has, too.
  predicate CaptureOnProfile(h: Hal) { h.capture.standby || CaptureProfileShares(h.capture.devices) }

  lemma ServedSharesProfile(devices: Mask)
    requires Served(Capture, devices)
    ensures CaptureProfileShares(devices)
  {
    var p := GetPcmDevice(Capture, devices, CAPTURE_PERIOD_SIZE).value;
    assert p == PcmDevices(CAPTURE_PERIOD_SIZE)[1];
    var d :| d in devices - {BIT_IN};
    assert d in p.devices * devices - {BIT_IN};
  }

  lemma StepCaptureOnProfile(h: Hal, op: Op)
    requires Invariant(h) && CaptureOnProfile(h)
    ensures CaptureOnProfile(Step(h, op))
  {
    hide SelectDevices, StopStream, StartStream, CaptureProfileShares, Served;
    match op {
      case OpInRead(ready, got, junk) =>
        if Served(Capture, h.capture.devices) {
          ServedSharesProfile(h.capture.devices);
        }
      case OpInSetParameters(source, devices, junk) =>
        assert h.capture.standby || FromId(h.board.list, ID_CAPTURE).Some?;
      case _ =>
    }
  }

  lemma {:induction false} RunCaptureOnProfile(h: Hal, ops: seq<Op>)
    requires Invariant(h) && CaptureOnProfile(h)
    ensures CaptureOnProfile(Run(h, ops))
    decreases |ops|
  {
    if ops == [] {
    } else {
      StepCaptureOnProfile(h, ops[0]);
      StepInvariant(h, ops[0]);
      RunCaptureOnProfile(Step(h, ops[0]), ops[1..]);
    }
  }

  // Main result: in every reachable state a running capture stream shares a device with its profile.
  lemma CaptureIsOnProfile(h: Hal, ops: seq<Op>)
    requires Fresh(h)
    ensures var c := Run(h, ops).capture; !c.standby ==> CaptureProfileShares(c.devices)
  {
    FreshInvariant(h);
    RunCaptureOnProfile(h, ops);
  }
}
