/** What each entry point of the audio HAL leaves behind, told by the fields of the state and the outcomes of
    the kernel calls. */
module HalOutcomes {
  import opened Options
  import opened SndDevices
  import opened Board
  import opened BoardProperties
  import opened PcmProfiles
  import opened CallSession
  import opened Hal
  import opened HalProperties
  import opened HalSelection

  // The masks a profile serves, and those that share a device with the capture profile.
  predicate PlaybackServed(devices: Mask) { devices - {BIT_IN} != {} && devices - {BIT_IN} <= {0, 1, 2, 3, 4, 5, 6} }

  predicate CaptureServed(devices: Mask) { devices - {BIT_IN} != {} && devices - {BIT_IN} <= {2, 3, 4, 7} }

  predicate SharesMicrophone(devices: Mask) { 2 in devices || 3 in devices || 4 in devices || 7 in devices }

  predicate HasBluetooth(devices: Mask) { 4 in devices || 5 in devices || 6 in devices }

  // The use cases listed are the same but for id, which is listed exactly when `now`.
  ghost predicate ListsOnly(was: seq<Usecase>, list: seq<Usecase>, id: UsecaseId, now: bool) {
    forall other: UsecaseId :: Listed(list, other) <==> if other == id then now else Listed(was, other)
  }

  /* ---- Streams ---- */

  // Main result: after a write the stream runs exactly when the write succeeded and the stream had been
  // running, or its device opened, or there was no device to open; nothing else changes but the board.
  lemma WriteOutcome(h: Hal, id: UsecaseId, ready: bool, written: bool, junk: InView)
    requires Invariant(h) && id in h.outs
    ensures var g := OutWrite(h, id, ready, written, junk);
      var running := written && (!h.outs[id].standby || ready || !PlaybackServed(h.outs[id].devices));
      && g == h.(board := g.board, outs := h.outs[id := Out(h.outs[id].devices, !running)])
      && ListsOnly(h.board.list, g.board.list, id, running)
  {
    ServedIff(h.outs[id].devices);
    WriteState(h, id, ready, written, junk);
    OutWriteInvariant(h, id, ready, written, junk);
    hide OutWrite, Served, Sound;
    var g := OutWrite(h, id, ready, written, junk);
    MapUpdated(h.outs, g.outs, id);
    assert Running(g, id) <==> Listed(g.board.list, id);
    forall other: UsecaseId | other != id ensures Listed(g.board.list, other) <==> Listed(h.board.list, other) {
      WriteListsOthers(h, id, ready, written, junk, other);
    }
  }

  lemma MapUpdated(was: map<UsecaseId, Out>, now: map<UsecaseId, Out>, id: UsecaseId)
    requires was.Keys == now.Keys && id in was && forall o :: o in was && o != id ==> now[o] == was[o]
    ensures now == was[id := now[id]]
  {
  }

  lemma WriteState(h: Hal, id: UsecaseId, ready: bool, written: bool, junk: InView)
    requires |h.board.cnt| == SND_DEVICE_MAX && id in h.outs
    ensures var g := OutWrite(h, id, ready, written, junk);
      var running := written && (!h.outs[id].standby || ready || !Served(Playback, h.outs[id].devices));
      && g.outs[id] == Out(h.outs[id].devices, !running)
      && forall o :: o in h.outs && o != id ==> g.outs[o] == h.outs[o]
  {
    hide StartStream, StopStream, Served;
  }

  lemma WriteListsOthers(h: Hal, id: UsecaseId, ready: bool, written: bool, junk: InView, other: UsecaseId)
    requires Invariant(h) && id in h.outs && other != id
    ensures Listed(OutWrite(h, id, ready, written, junk).board.list, other) <==> Listed(h.board.list, other)
  {
    var served := Served(Playback, OutDevices(h, id));
    if !Running(h, id) {
      StartSound(h, id, served, ready || !served, junk, other);
      var h1 := StartOutput(h, id, ready, junk).0;
      StopSound(h1.board, id, other);
    } else {
      StopSound(h.board, id, other);
    }
    hide StartStream, StopStream, Served, Listed;
  }

  // Main result: after a read the stream runs exactly when the read succeeded and the stream had been running,
  // or a profile serves its devices and its device opened: a read that fails ends in standby.
  lemma ReadOutcome(h: Hal, ready: bool, got: bool, junk: InView)
    requires Invariant(h)
    ensures var g := InRead(h, ready, got, junk);
      var running := got && (!h.capture.standby || (CaptureServed(h.capture.devices) && ready));
      && g == h.(board := g.board, capture := h.capture.(standby := !running))
      && ListsOnly(h.board.list, g.board.list, ID_CAPTURE, running)
  {
    ServedIff(h.capture.devices);
    ReadState(h, ready, got, junk);
    InReadInvariant(h, ready, got, junk);
    var g := InRead(h, ready, got, junk);
    hide InRead, Served;
    assert !g.capture.standby <==> Listed(g.board.list, ID_CAPTURE);
    forall other: UsecaseId | other != ID_CAPTURE ensures Listed(g.board.list, other) <==> Listed(h.board.list, other) {
      ReadListsOthers(h, ready, got, junk, other);
    }
  }

  lemma ReadState(h: Hal, ready: bool, got: bool, junk: InView)
    requires |h.board.cnt| == SND_DEVICE_MAX
    ensures var g := InRead(h, ready, got, junk);
      var running := got && (!h.capture.standby || (Served(Capture, h.capture.devices) && ready));
      g == h.(board := g.board, capture := h.capture.(standby := !running))
  {
    hide StartStream, StopStream, Served;
  }

  lemma ReadListsOthers(h: Hal, ready: bool, got: bool, junk: InView, other: UsecaseId)
    requires Invariant(h) && other != ID_CAPTURE
    ensures Listed(InRead(h, ready, got, junk).board.list, other) <==> Listed(h.board.list, other)
  {
    if h.capture.standby {
      StartSound(h, ID_CAPTURE, true, ready, junk, other);
      StopSound(StartInput(h, ready, junk).0.board, ID_CAPTURE, other);
    } else {
      StopSound(h.board, ID_CAPTURE, other);
    }
    hide StartStream, StopStream, Served, Listed;
  }

  // Standby stops the stream and nothing else.
  lemma StandbyOutcome(h: Hal, id: UsecaseId)
    requires Invariant(h) && id in h.outs
    ensures var g := OutStandby(h, id);
      && g == h.(board := g.board, outs := h.outs[id := Out(h.outs[id].devices, true)])
      && ListsOnly(h.board.list, g.board.list, id, false)
  {
    hide StopStream;
    assert h.outs[id := h.outs[id]] == h.outs;
    forall other: UsecaseId ensures other != id ==> (Listed(StopStream(h.board, id).list, other) <==> Listed(h.board.list, other)) {
      StopSound(h.board, id, other);
    }
    StopSound(h.board, id, id);
  }

  lemma InStandbyOutcome(h: Hal)
    requires Invariant(h)
    ensures var g := InStandby(h);
      && g == h.(board := g.board, capture := h.capture.(standby := true))
      && ListsOnly(h.board.list, g.board.list, ID_CAPTURE, false)
  {
    hide StopStream;
    forall other: UsecaseId
      ensures other != ID_CAPTURE ==> (Listed(StopStream(h.board, ID_CAPTURE).list, other) <==> Listed(h.board.list, other))
    {
      StopSound(h.board, ID_CAPTURE, other);
    }
    StopSound(h.board, ID_CAPTURE, ID_CAPTURE);
  }

  lemma SharesIff(devices: Mask)
    ensures CaptureProfileShares(devices) <==> SharesMicrophone(devices)
  {
    var ps := PcmDevices(CAPTURE_PERIOD_SIZE);
    var both := ps[1].devices * devices - {BIT_IN};
    assert ps[1].devices == {2, 3, 4, 7, BIT_IN};
    if both != {} {
      var d :| d in both;
    } else {
      assert 2 !in both && 3 !in both && 4 !in both && 7 !in both;
    }
  }

  // Main result: what in_set_parameters stores, and that the stream stops exactly when it runs and its new
  // devices have no microphone of the profile.
  lemma InParametersOutcome(h: Hal, source: Option<Source>, devices: Option<Mask>, junk: InView)
    requires Invariant(h)
    ensures var g := InSetParameters(h, source, devices, junk);
      var newSource := if source.Some? && source.value != SourceDefault then source.value else h.capture.source;
      var newDevices := if devices.Some? && devices.value != {} then devices.value else h.capture.devices;
      var stops := newDevices != h.capture.devices && !SharesMicrophone(newDevices);
      g == h.(board := g.board, capture := In(newDevices, newSource, h.capture.standby || stops))
  {
    if devices.Some? {
      SharesIff(devices.value);
    }
    hide SelectDevices, StopStream, CaptureProfileShares;
    assert !h.capture.standby ==> FromId(h.board.list, ID_CAPTURE).Some?;
  }

  // A running stream whose new devices still have one goes to its target, by its new source and devices.
  lemma InParametersRoute(h: Hal, source: Option<Source>, devices: Mask, junk: InView, i: nat, a: nat)
    requires Invariant(h) && !h.capture.standby && devices != {} && devices != h.capture.devices && SharesMicrophone(devices)
    requires FromId(h.board.list, ID_CAPTURE) == Some(i) && IsActiveInput(h.board.list, a)
    ensures var g := InSetParameters(h, source, Some(devices), junk);
      && |g.board.list| == |h.board.list|
      && g.board.list[i].inp == CaptureTarget(g.(board := h.board), InputSeen(g.(board := h.board), a, junk))
  {
    SharesIff(devices);
    var newSource := if source.Some? && source.value != SourceDefault then source.value else h.capture.source;
    var h2 := h.(capture := In(devices, newSource, false));
    hide SelectDevices, CaptureProfileShares, CaptureTarget, IsActiveInput, Sound;
    assert InSetParameters(h, source, Some(devices), junk) == h2.(board := SelectDevices(h2, ID_CAPTURE, junk));
    CaptureIsRouted(h2, junk, i, a, i);
  }

  /* ---- Mode, SCO leg and call ---- */

  // Main result: a change to normal mode brings a call down, with every handle closed and its use case
  // unlisted; any other change of mode touches nothing but the mode.
  lemma ModeOutcome(h: Hal, mode: Mode)
    requires Invariant(h)
    ensures var g := SetMode(h, mode);
      if mode == Normal && h.session.inCall then
        && g == h.(mode := mode, board := g.board, session := g.session)
        && !g.session.inCall && !g.session.inCallSco && g.session.pcms.Keys == {}
        && g.session.inCommSco == h.session.inCommSco
        && g.board == Drop(h.board, FromId(h.board.list, ID_VOICE_CALL).value)
      else g == h.(mode := mode)
  {
    if mode == Normal && h.session.inCall {
      assert Invariant(h.(mode := mode));
      StopCallInvariant(h.(mode := mode));
      StopVoiceMatchedIff(h.session, true);
      ClosePcmsKeepsComm(h.session);
      hide Drop, ClosePcms;
    }
  }

  lemma ClosePcmsKeepsComm(s: Session)
    ensures ClosePcms(s).inCommSco == s.inCommSco
  {
  }

  // Main result: the SCO leg after out_set_parameters, outside a call mode: it is up exactly when the devices
  // have a Bluetooth bit and it was up, or the mode is communication, no leg was asked for yet and both of
  // its devices opened. Its handles follow, and the call is untouched.
  lemma ScoOutcome(h: Hal, id: UsecaseId, devices: Mask, luck: Luck)
    requires Invariant(h) && id in h.outs && devices != {} && h.mode != InCall
    ensures var g := OutSetParameters(h, id, devices, luck);
      var asks := HasBluetooth(devices) && h.mode == InCommunication && !h.session.inCallSco && !h.session.inCommSco;
      && (g.session.inCallSco <==> (HasBluetooth(devices) && h.session.inCallSco) || (asks && luck.scoTx && luck.scoRx))
      && (g.session.inCommSco <==> asks || (h.session.inCommSco && !(h.session.inCallSco && !HasBluetooth(devices))))
      && (ScoRx in g.session.pcms <==> g.session.inCallSco) && (ScoTx in g.session.pcms <==> g.session.inCallSco)
      && g.session.inCall == h.session.inCall
  {
    OutSetParametersInvariant(h, id, devices, luck);
    var g := OutSetParameters(h, id, devices, luck);
    assert Matched(g.session);
    OutsideCallSession(h, id, devices, luck);
    LegOutcome(h, devices, luck);
  }

  lemma OutsideCallSession(h: Hal, id: UsecaseId, devices: Mask, luck: Luck)
    requires |h.board.cnt| == SND_DEVICE_MAX && id in h.outs && devices != {} && h.mode != InCall
    ensures OutSetParameters(h, id, devices, luck).session == SetScoLeg(h, devices, luck)
  {
    hide Reroute, StartSco, StopSco;
    var changed := h.outs[id].devices != devices;
    var h1 := h.(outs := h.outs[id := h.outs[id].(devices := devices)]);
    var h2 := Reroute(h1, id, changed, luck.junk1);
    assert SetScoLeg(h2, devices, luck) == SetScoLeg(h, devices, luck);
  }

  lemma BluetoothBits(devices: Mask)
    ensures devices * OUT_ALL_SCO != {} <==> HasBluetooth(devices)
  {
    var both := devices * OUT_ALL_SCO;
    if both != {} {
      var d :| d in both;
    } else {
      assert 4 !in both && 5 !in both && 6 !in both;
    }
  }

  lemma LegOutcome(h: Hal, devices: Mask, luck: Luck)
    requires Matched(h.session)
    ensures var s := SetScoLeg(h, devices, luck);
      var asks := HasBluetooth(devices) && h.mode == InCommunication && !h.session.inCallSco && !h.session.inCommSco;
      && (s.inCallSco <==> (HasBluetooth(devices) && h.session.inCallSco) || (asks && luck.scoTx && luck.scoRx))
      && (s.inCommSco <==> asks || (h.session.inCommSco && !(h.session.inCallSco && !HasBluetooth(devices))))
      && s.inCall == h.session.inCall && Matched(s)
  {
    BluetoothBits(devices);
    SetScoLegMatched(h, devices, luck);
    StartScoKeepsComm(h.session.(inCommSco := true), luck.scoTx, luck.scoRx);
    StopScoKeepsComm(h.session.(inCommSco := false));
    hide Tracks;
  }

  lemma StopScoKeepsComm(s: Session)
    ensures StopSco(s).inCommSco == s.inCommSco
  {
  }

  // Main result: in IN_CALL mode. Routing the primary output starts a call that is not up, and starts one that
  // is up again when the devices change: it is up afterwards exactly when both voice devices opened, with its
  // SCO leg exactly when the devices have a Bluetooth bit and the leg was left up or opened. Otherwise the
  // call is untouched, and a leg that is up stays exactly when the devices have a Bluetooth bit.
  lemma CallOutcome(h: Hal, id: UsecaseId, devices: Mask, luck: Luck)
    requires Invariant(h) && id in h.outs && devices != {} && h.mode == InCall
    ensures var g := OutSetParameters(h, id, devices, luck);
      var starts := h.primary == Some(id) && (!h.session.inCall || h.outs[id].devices != devices);
      var opens := luck.call.voiceTx && luck.call.voiceRx;
      var legLeft := h.session.inCallSco && HasBluetooth(devices);
      if starts then
        && g.session.inCall == opens
        && (g.session.inCallSco <==>
              opens && ((legLeft && !h.session.inCall) || (HasBluetooth(devices) && luck.call.scoTx && luck.call.scoRx)))
      else
        && g.session.inCall == h.session.inCall
        && g.session.inCallSco == legLeft
  {
    var changed := h.outs[id].devices != devices;
    var h1 := h.(outs := h.outs[id := h.outs[id].(devices := devices)]);
    SetOutDevicesInvariant(h, id, devices);
    RerouteInvariant(h1, id, changed, luck.junk1);
    RerouteKeepsDevices(h1, id, changed, luck.junk1);
    var h2 := Reroute(h1, id, changed, luck.junk1);
    if h2.session.inCall {
      CallIsFound(h2);
    }
    hide Reroute, SetScoLeg, UpdateCall, StandbyMatches, Sound, Tracks;
    LegOutcome(h2, devices, luck);
    BluetoothBits(devices);
    CallRestart(h2.(session := SetScoLeg(h2, devices, luck)), id, changed, luck);
  }

  lemma CallIsFound(h: Hal)
    requires Invariant(h) && h.session.inCall
    ensures FromId(h.board.list, ID_VOICE_CALL).Some?
  {
  }

  lemma RerouteKeepsDevices(h: Hal, id: UsecaseId, changed: bool, junk: InView)
    requires |h.board.cnt| == SND_DEVICE_MAX && id in h.outs
    ensures id in Reroute(h, id, changed, junk).outs && Reroute(h, id, changed, junk).outs[id].devices == h.outs[id].devices
  {
    hide SelectDevices, StopStream;
  }

  lemma CallRestart(h: Hal, id: UsecaseId, changed: bool, luck: Luck)
    requires |h.board.cnt| == SND_DEVICE_MAX && Matched(h.session) && h.mode == InCall && id in h.outs
    requires h.session.inCall ==> FromId(h.board.list, ID_VOICE_CALL).Some?
    ensures var g := UpdateCall(h, id, changed, luck);
      var bluetooth := h.outs[id].devices * OUT_ALL_SCO != {};
      var opens := luck.call.voiceTx && luck.call.voiceRx;
      if h.primary == Some(id) && (!h.session.inCall || changed) then
        && g.session.inCall == opens
        && (g.session.inCallSco <==>
              opens && ((h.session.inCallSco && !h.session.inCall) || (bluetooth && luck.call.scoTx && luck.call.scoRx)))
      else g.session == h.session
  {
    var bluetooth := h.outs[id].devices * OUT_ALL_SCO != {};
    StopVoiceMatchedIff(h.session, true);
    var s := if h.session.inCall then StopVoice(h.session, true) else h.session;
    assert !s.inCall && Matched(s);
    StartVoiceMatched(s, bluetooth, luck.call);
    StartVoiceLeg(s, bluetooth, luck.call);
    hide StartVoice, StopVoice, SelectDevices, StopStream, Tracks;
  }

  /* ---- Routing a playback stream again ---- */

  // Main result: out_set_parameters stores the devices, and stops a running stream exactly when they change.
  lemma OutParametersOutcome(h: Hal, id: UsecaseId, devices: Mask, luck: Luck)
    requires Invariant(h)
    ensures var g := OutSetParameters(h, id, devices, luck);
      if id in h.outs && devices != {} then
        var stops := h.outs[id].devices != devices;
        g == h.(board := g.board, session := g.session, outs := h.outs[id := Out(devices, h.outs[id].standby || stops)])
      else g == h
  {
    hide SelectDevices, StopStream, UpdateCall, SetScoLeg;
  }

  // A running stream that keeps its devices is selected again, unless a call then takes over.
  lemma OutParametersRoute(h: Hal, id: UsecaseId, luck: Luck, i: nat)
    requires Invariant(h) && Running(h, id) && h.outs[id].devices != {} && h.mode != InCall
    requires FromId(h.board.list, id) == Some(i)
    ensures var g := OutSetParameters(h, id, h.outs[id].devices, luck);
      && |g.board.list| == |h.board.list|
      && g.board.list[i].out == PlaybackTarget(h, id)
  {
    var devices := h.outs[id].devices;
    assert h.outs[id := h.outs[id].(devices := devices)] == h.outs;
    PlaybackIsRouted(h, id, luck.junk1, i, i);
    hide SelectDevices, SetScoLeg, PlaybackTarget, FromId, Sound;
  }

  // A stream that starts and stays is on its target.
  lemma StartedPlaybackIsRouted(h: Hal, id: UsecaseId, ready: bool, junk: InView)
    requires Invariant(h) && id in h.outs && h.outs[id].standby && (ready || !PlaybackServed(h.outs[id].devices))
    ensures var g := OutWrite(h, id, ready, true, junk);
      && |g.board.list| == |h.board.list| + 1
      && g.board.list[|h.board.list|].id == id
      && g.board.list[|h.board.list|].out == PlaybackTarget(h, id)
  {
    ServedIff(h.outs[id].devices);
    var served := Served(Playback, OutDevices(h, id));
    var u := Usecase(id, NONE, NONE, served);
    var h1 := h.(board := Append(h.board, id, served));
    assert FromId(h.board.list, id).None?;
    AppendKeepsSound(h.board, id, served);
    FoundAfterAppend(h.board.list, u, id);
    FoundAfterAppend(h.board.list, u, ID_VOICE_CALL);
    assert PlaybackTarget(h1, id) == PlaybackTarget(h, id);
    PlaybackIsRouted(h1, id, junk, |h.board.list|, |h.board.list|);
    hide SelectDevices, Served, PlaybackTarget, FromId, StopStream, Sound;
  }

  // So is a capture stream, which is its own active input unless a capture or a call was listed before it.
  lemma StartedCaptureIsRouted(h: Hal, junk: InView, a: nat)
    requires Invariant(h) && h.capture.standby && CaptureServed(h.capture.devices)
    requires IsActiveInput(h.board.list + [Usecase(ID_CAPTURE, NONE, NONE, true)], a)
    ensures var g := InRead(h, true, true, junk);
      var list := h.board.list + [Usecase(ID_CAPTURE, NONE, NONE, true)];
      && |g.board.list| == |list|
      && g.board.list[|h.board.list|].id == ID_CAPTURE
      && g.board.list[|h.board.list|].inp
           == CaptureTarget(h, if KindOf(list[a].id) == Capture then InView(h.capture.source, h.capture.devices) else junk)
  {
    ServedIff(h.capture.devices);
    var u := Usecase(ID_CAPTURE, NONE, NONE, true);
    var h1 := h.(board := Append(h.board, ID_CAPTURE, true));
    assert FromId(h.board.list, ID_CAPTURE).None?;
    AppendKeepsSound(h.board, ID_CAPTURE, true);
    FoundAfterAppend(h.board.list, u, ID_CAPTURE);
    FoundAfterAppend(h.board.list, u, ID_VOICE_CALL);
    var seen := InputSeen(h1, a, junk);
    assert CaptureTarget(h1, seen) == CaptureTarget(h, seen);
    CaptureIsRouted(h1, junk, |h.board.list|, a, |h.board.list|);
    hide SelectDevices, Served, CaptureTarget, FromId, StopStream, Sound, IsActiveInput;
  }
}
