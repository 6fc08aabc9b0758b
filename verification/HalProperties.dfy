/** What every run of the audio HAL keeps. */
module HalProperties {
  import opened Options
  import opened SndDevices
  import opened Board
  import opened BoardProperties
  import opened PcmProfiles
  import opened CallSession
  import opened Hal

  ghost predicate Listed(list: seq<Usecase>, id: UsecaseId) {
    exists i :: 0 <= i < |list| && list[i].id == id
  }

  predicate SameIds(a: seq<Usecase>, b: seq<Usecase>) {
    |a| == |b| && forall i :: 0 <= i < |a| ==> a[i].id == b[i].id
  }

  // A stream is out of standby exactly when its use case is listed, and nothing else is listed but calls.
  ghost predicate StandbyMatches(h: Hal) {
    && (forall id :: id in h.outs ==> (Running(h, id) <==> Listed(h.board.list, id)))
    && (!h.capture.standby <==> Listed(h.board.list, ID_CAPTURE))
    && (forall i :: 0 <= i < |h.board.list| && KindOf(h.board.list[i].id) == Playback ==> h.board.list[i].id in h.outs)
  }

  predicate WellWired(h: Hal) {
    && (forall id :: id in h.outs ==> KindOf(id) == Playback)
    && (h.primary.Some? ==> h.primary.value in h.outs)
  }

  // What holds whenever the device lock is free.
  ghost predicate Invariant(h: Hal) {
    && Sound(h.board)
    && Matched(h.session)
    && WellWired(h)
    && StandbyMatches(h)
    && (h.session.inCall ==> Listed(h.board.list, ID_VOICE_CALL))
  }

  lemma SameIdsListed(a: seq<Usecase>, b: seq<Usecase>, id: UsecaseId)
    requires SameIds(a, b)
    ensures Listed(a, id) <==> Listed(b, id)
  {
    if Listed(a, id) {
      var i :| 0 <= i < |a| && a[i].id == id;
      assert b[i].id == id;
    }
    if Listed(b, id) {
      var i :| 0 <= i < |b| && b[i].id == id;
      assert a[i].id == id;
    }
  }

  /* ---- One select_devices ---- */

  lemma AssignSound(b: Board, i: nat, out: int, inp: int)
    requires Sound(b) && i < |b.list| && Fits(b.list[i].id, out, inp)
    ensures Sound(Assign(b, i, out, inp)) && SameIds(Assign(b, i, out, inp).list, b.list)
  {
    AssignKeepsSound(b, i, out, inp);
    forall j | 0 <= j < |b.list|
      ensures Assign(b, i, out, inp).list[j].id == b.list[j].id
    {
      AssignFrame(b, i, out, inp, j);
    }
  }

  lemma CallDevicesFit(h: Hal)
    requires AllShaped(h.board.list)
    ensures CallDevices(h).0 == NONE || IsOut(CallDevices(h).0)
    ensures CallDevices(h).1 == NONE || IsIn(CallDevices(h).1)
  {
    if FromId(h.board.list, ID_VOICE_CALL).Some? {
      assert Shaped(h.board.list[FromId(h.board.list, ID_VOICE_CALL).value]);
    }
  }

  // Main result: whatever use case is selected, in whatever state, the board stays sound.
  lemma {:induction false} SelectSound(h: Hal, id: UsecaseId, junk: InView)
    requires Sound(h.board)
    ensures Sound(SelectDevices(h, id, junk))
    ensures SameIds(SelectDevices(h, id, junk).list, h.board.list)
    decreases if KindOf(id) == Playback then 1 else 0
  {
    var found := FromId(h.board.list, id);
    if found.Some? {
      var i := found.value;
      CallDevicesFit(h);
      match KindOf(id) {
        case VoiceCall =>
          AssignSound(h.board, i, GetOutputSndDevice(Tune(h), PrimaryDevices(h)),
                      GetInputSndDevice(Tune(h), ActiveInput(h, junk), PrimaryDevices(h)));
        case Playback =>
          if CallDevices(h).0 != NONE {
            AssignSound(h.board, i, CallDevices(h).0, NONE);
          } else {
            if TakesCaptureAlong(h, id) {
              SelectSound(h, ID_CAPTURE, junk);
            }
            var b := if TakesCaptureAlong(h, id) then SelectDevices(h, ID_CAPTURE, junk) else h.board;
            AssignSound(b, i, GetOutputSndDevice(Tune(h), OutDevices(h, id)), NONE);
          }
        case Capture =>
          var inp := if CallDevices(h).1 != NONE then CallDevices(h).1 else CaptureDevice(h, junk);
          AssignSound(h.board, i, NONE, inp);
      }
    }
  }

  /* ---- Starting and stopping a use case ---- */

  lemma AppendLists(b: Board, id: UsecaseId, card: bool, other: UsecaseId)
    ensures Listed(Append(b, id, card).list, other) <==> Listed(b.list, other) || other == id
  {
    var l := Append(b, id, card).list;
    assert l[|b.list|].id == id;
    if Listed(b.list, other) {
      var i :| 0 <= i < |b.list| && b.list[i].id == other;
      assert l[i].id == other;
    }
  }

  lemma FoundAfterAppend(list: seq<Usecase>, u: Usecase, id: UsecaseId)
    ensures FromId(list + [u], id)
         == if FromId(list, id).Some? then FromId(list, id) else if u.id == id then Some(|list|) else None
  {
    var l := list + [u];
    assert forall j :: 0 <= j < |list| ==> l[j] == list[j];
    var r := FromId(l, id);
    var was := FromId(list, id);
    if was.Some? {
      assert l[was.value].id == id;
    } else if u.id == id {
      assert l[|list|].id == id;
    }
  }

  lemma WithoutLists(list: seq<Usecase>, i: nat, other: UsecaseId)
    requires i < |list| && UniqueStreams(list)
    ensures other != list[i].id ==> (Listed(Without(list, i), other) <==> Listed(list, other))
    ensures other == list[i].id && other != ID_VOICE_CALL ==> !Listed(Without(list, i), other)
  {
    var w := Without(list, i);
    assert forall j :: 0 <= j < |w| ==> w[j] == list[if j < i then j else j + 1];
    if Listed(list, other) && other != list[i].id {
      var j :| 0 <= j < |list| && list[j].id == other;
      assert w[if j < i then j else j - 1].id == other;
    }
    if Listed(w, other) {
      var j :| 0 <= j < |w| && w[j].id == other;
      assert list[if j < i then j else j + 1].id == other;
    }
  }

  lemma StopSound(b: Board, id: UsecaseId, other: UsecaseId)
    requires Sound(b)
    ensures Sound(StopStream(b, id))
    ensures other != id ==> (Listed(StopStream(b, id).list, other) <==> Listed(b.list, other))
    ensures id != ID_VOICE_CALL ==> !Listed(StopStream(b, id).list, id)
    ensures forall j :: 0 <= j < |StopStream(b, id).list| ==> StopStream(b, id).list[j] in b.list
  {
    var found := FromId(b.list, id);
    if found.Some? {
      DropKeepsSound(b, found.value);
      WithoutLists(b.list, found.value, other);
      WithoutLists(b.list, found.value, id);
    }
  }

  // A start lists the use case exactly when it succeeds, and no other entry comes or goes.
  lemma StartSound(h: Hal, id: UsecaseId, card: bool, ready: bool, junk: InView, other: UsecaseId)
    requires Sound(h.board) && !Listed(h.board.list, id) && id != ID_VOICE_CALL
    ensures var (h1, started) := StartStream(h, id, card, ready, junk);
      && started == ready
      && h1 == h.(board := h1.board)
      && Sound(h1.board)
      && (Listed(h1.board.list, id) <==> started)
      && (other != id ==> (Listed(h1.board.list, other) <==> Listed(h.board.list, other)))
  {
    AppendKeepsSound(h.board, id, card);
    var h1 := h.(board := Append(h.board, id, card));
    SelectSound(h1, id, junk);
    var b := SelectDevices(h1, id, junk);
    AppendLists(h.board, id, card, other);
    AppendLists(h.board, id, card, id);
    SameIdsListed(b.list, h1.board.list, other);
    SameIdsListed(b.list, h1.board.list, id);
    if !ready {
      StopSound(b, id, other);
    }
  }

  /* ---- The entry points ---- */

  // Playback entries are listed only for streams that exist.
  lemma ListedInOuts(h: Hal)
    ensures (forall i :: 0 <= i < |h.board.list| && KindOf(h.board.list[i].id) == Playback ==> h.board.list[i].id in h.outs)
      <==> forall id: UsecaseId :: Listed(h.board.list, id) && KindOf(id) == Playback ==> id in h.outs
  {
    if forall id: UsecaseId :: Listed(h.board.list, id) && KindOf(id) == Playback ==> id in h.outs {
      forall i | 0 <= i < |h.board.list| && KindOf(h.board.list[i].id) == Playback
        ensures h.board.list[i].id in h.outs
      {
        assert Listed(h.board.list, h.board.list[i].id);
      }
    }
  }

  lemma SelectInvariant(h: Hal, id: UsecaseId, junk: InView)
    requires Invariant(h)
    ensures Invariant(h.(board := SelectDevices(h, id, junk)))
  {
    SelectSound(h, id, junk);
    var g := h.(board := SelectDevices(h, id, junk));
    forall other: UsecaseId ensures Listed(g.board.list, other) <==> Listed(h.board.list, other) {
      SameIdsListed(g.board.list, h.board.list, other);
    }
    ListedInOuts(h);
    ListedInOuts(g);
  }

  lemma OutStandbyInvariant(h: Hal, id: UsecaseId)
    requires Invariant(h)
    ensures Invariant(OutStandby(h, id))
    ensures !Running(OutStandby(h, id), id)
  {
    if Running(h, id) {
      var g := OutStandby(h, id);
      StopSound(h.board, id, id);
      forall other: UsecaseId
        ensures Listed(g.board.list, other) <==> Listed(h.board.list, other) && other != id
      {
        StopSound(h.board, id, other);
      }
      ListedInOuts(h);
      ListedInOuts(g);
    }
  }

  lemma InStandbyInvariant(h: Hal)
    requires Invariant(h)
    ensures Invariant(InStandby(h))
    ensures InStandby(h).capture.standby
  {
    if !h.capture.standby {
      var g := InStandby(h);
      StopSound(h.board, ID_CAPTURE, ID_CAPTURE);
      forall other: UsecaseId
        ensures Listed(g.board.list, other) <==> Listed(h.board.list, other) && other != ID_CAPTURE
      {
        StopSound(h.board, ID_CAPTURE, other);
      }
      ListedInOuts(h);
      ListedInOuts(g);
    }
  }

  // The part of out_write that starts the stream.
  lemma OutStartInvariant(h: Hal, id: UsecaseId, ready: bool, junk: InView)
    requires Invariant(h) && id in h.outs && !Running(h, id)
    ensures var (h1, started) := StartOutput(h, id, ready, junk);
      && id in h1.outs
      && Invariant(if started then h1.(outs := h1.outs[id := h1.outs[id].(standby := false)]) else h1)
  {
    hide StartStream;
    var served := Served(Playback, OutDevices(h, id));
    var (h1, started) := StartOutput(h, id, ready, junk);
    StartSound(h, id, served, ready || !served, junk, id);
    forall other: UsecaseId
      ensures Listed(h1.board.list, other) <==> Listed(h.board.list, other) || (other == id && started)
    {
      StartSound(h, id, served, ready || !served, junk, other);
    }
    ListedInOuts(h);
    ListedInOuts(if started then h1.(outs := h1.outs[id := h1.outs[id].(standby := false)]) else h1);
  }

  lemma OutWriteInvariant(h: Hal, id: UsecaseId, ready: bool, written: bool, junk: InView)
    requires Invariant(h)
    ensures Invariant(OutWrite(h, id, ready, written, junk))
  {
    if id in h.outs && !Running(h, id) {
      OutStartInvariant(h, id, ready, junk);
      var (h1, started) := StartOutput(h, id, ready, junk);
      OutStandbyInvariant(if started then h1.(outs := h1.outs[id := h1.outs[id].(standby := false)]) else h1, id);
    } else if id in h.outs {
      assert h.outs[id := h.outs[id].(standby := false)] == h.outs;
      OutStandbyInvariant(h, id);
    }
  }

  lemma InReadInvariant(h: Hal, ready: bool, got: bool, junk: InView)
    requires Invariant(h)
    ensures Invariant(InRead(h, ready, got, junk))
  {
    if h.capture.standby && Served(Capture, h.capture.devices) {
      var (h1, started) := StartInput(h, ready, junk);
      forall other: UsecaseId
        ensures Sound(h1.board) && started == ready && h1 == h.(board := h1.board)
        ensures Listed(h1.board.list, other) <==> Listed(h.board.list, other) || (other == ID_CAPTURE && started)
      {
        StartSound(h, ID_CAPTURE, true, ready, junk, other);
      }
      ListedInOuts(h);
      var h2 := if started then h1.(capture := h1.capture.(standby := false)) else h1;
      ListedInOuts(h2);
      assert Invariant(h2);
      InStandbyInvariant(h2);
    } else if !h.capture.standby {
      assert h.capture.(standby := false) == h.capture;
      InStandbyInvariant(h);
    }
  }

  lemma InSetParametersInvariant(h: Hal, source: Option<Source>, devices: Option<Mask>, junk: InView)
    requires Invariant(h)
    ensures Invariant(InSetParameters(h, source, devices, junk))
  {
    hide SelectDevices, InStandby;
    var h1 :=
      if source.Some? && source.value != SourceDefault
      then h.(capture := h.capture.(source := source.value)) else h;
    assert Invariant(h1);
    if !(devices.None? || devices.value == h1.capture.devices || devices.value == {}) {
      var h2 := h1.(capture := h1.capture.(devices := devices.value));
      assert Invariant(h2);
      InStandbyInvariant(h2);
      SelectInvariant(h2, ID_CAPTURE, junk);
    }
  }

  /* ---- Calls ---- */

  // stop_voice_call called while in_call always finds its use case.
  lemma StopCallInvariant(h: Hal)
    requires Invariant(h) && h.session.inCall
    ensures FromId(h.board.list, ID_VOICE_CALL).Some?
    ensures Invariant(StopCall(h)) && !StopCall(h).session.inCall
  {
    var i :| 0 <= i < |h.board.list| && h.board.list[i].id == ID_VOICE_CALL;
    var g := StopCall(h);
    StopVoiceMatchedIff(h.session, true);
    forall other: UsecaseId | other != ID_VOICE_CALL
      ensures Listed(g.board.list, other) <==> Listed(h.board.list, other)
    {
      StopSound(h.board, ID_VOICE_CALL, other);
    }
    StopSound(h.board, ID_VOICE_CALL, ID_CAPTURE);
    ListedInOuts(h);
    ListedInOuts(g);
  }

  lemma StartCallInvariant(h: Hal, r: Ready, junk: InView)
    requires Invariant(h) && !h.session.inCall
    ensures Invariant(StartCall(h, r, junk))
    ensures StartCall(h, r, junk).session.inCall <==> r.voiceTx && r.voiceRx
    ensures Listed(StartCall(h, r, junk).board.list, ID_VOICE_CALL)
  {
    hide SelectDevices, StartVoice;
    AppendKeepsSound(h.board, ID_VOICE_CALL, true);
    var h1 := h.(board := Append(h.board, ID_VOICE_CALL, true));
    SelectSound(h1, ID_VOICE_CALL, junk);
    StartVoiceMatched(h.session, PrimaryDevices(h) * OUT_ALL_SCO != {}, r);
    var g := StartCall(h, r, junk);
    forall other: UsecaseId
      ensures Listed(g.board.list, other) <==> Listed(h.board.list, other) || other == ID_VOICE_CALL
    {
      AppendLists(h.board, ID_VOICE_CALL, true, other);
      SameIdsListed(g.board.list, h1.board.list, other);
    }
    ListedInOuts(h);
    ListedInOuts(g);
  }

  lemma SetScoLegMatched(h: Hal, devices: Mask, luck: Luck)
    requires Matched(h.session)
    ensures Matched(SetScoLeg(h, devices, luck)) && SetScoLeg(h, devices, luck).inCall == h.session.inCall
  {
    assert Matched(h.session.(inCommSco := true)) && Matched(h.session.(inCommSco := false));
    StartScoMatched(h.session.(inCommSco := true), luck.scoTx, luck.scoRx);
    StopScoMatched(h.session.(inCommSco := false));
  }

  lemma UpdateCallInvariant(h: Hal, id: UsecaseId, changed: bool, luck: Luck)
    requires Invariant(h)
    ensures Invariant(UpdateCall(h, id, changed, luck))
  {
    if h.mode == InCall && !h.session.inCall && h.primary == Some(id) {
      StartCallInvariant(h, luck.call, luck.junk2);
    } else if h.mode == InCall && changed && h.session.inCall && h.primary == Some(id) {
      StopCallInvariant(h);
      StartCallInvariant(StopCall(h), luck.call, luck.junk2);
    }
  }

  lemma SetOutDevicesInvariant(h: Hal, id: UsecaseId, devices: Mask)
    requires Invariant(h) && id in h.outs
    ensures Invariant(h.(outs := h.outs[id := h.outs[id].(devices := devices)]))
  {
    var h1 := h.(outs := h.outs[id := h.outs[id].(devices := devices)]);
    assert forall o :: Running(h1, o) <==> Running(h, o);
  }

  lemma RerouteInvariant(h: Hal, id: UsecaseId, changed: bool, junk: InView)
    requires Invariant(h)
    ensures Invariant(Reroute(h, id, changed, junk))
  {
    OutStandbyInvariant(h, id);
    SelectInvariant(h, id, junk);
  }

  lemma ScoLegInvariant(h: Hal, devices: Mask, luck: Luck)
    requires Invariant(h)
    ensures Invariant(h.(session := SetScoLeg(h, devices, luck)))
  {
    SetScoLegMatched(h, devices, luck);
  }

  lemma OutSetParametersInvariant(h: Hal, id: UsecaseId, devices: Mask, luck: Luck)
    requires Invariant(h)
    ensures Invariant(OutSetParameters(h, id, devices, luck))
  {
    if id in h.outs && devices != {} {
      var changed := h.outs[id].devices != devices;
      var h1 := h.(outs := h.outs[id := h.outs[id].(devices := devices)]);
      SetOutDevicesInvariant(h, id, devices);
      RerouteInvariant(h1, id, changed, luck.junk1);
      var h2 := Reroute(h1, id, changed, luck.junk1);
      ScoLegInvariant(h2, devices, luck);
      UpdateCallInvariant(h2.(session := SetScoLeg(h2, devices, luck)), id, changed, luck);
    }
  }

  lemma SetModeInvariant(h: Hal, mode: Mode)
    requires Invariant(h)
    ensures Invariant(SetMode(h, mode))
  {
    var h1 := h.(mode := mode);
    assert Invariant(h1);
    if mode == Normal && h.session.inCall {
      StopCallInvariant(h1);
    }
  }

  /* ---- Every run ---- */

  lemma StepInvariant(h: Hal, op: Op)
    requires Invariant(h)
    ensures Invariant(Step(h, op))
  {
    match op {
      case OpOutWrite(id, ready, written, junk) => OutWriteInvariant(h, id, ready, written, junk);
      case OpOutStandby(id) => OutStandbyInvariant(h, id);
      case OpOutSetParameters(id, devices, luck) => OutSetParametersInvariant(h, id, devices, luck);
      case OpInRead(ready, got, junk) => InReadInvariant(h, ready, got, junk);
      case OpInStandby => InStandbyInvariant(h);
      case OpInSetParameters(source, devices, junk) => InSetParametersInvariant(h, source, devices, junk);
      case OpSetMode(mode) => SetModeInvariant(h, mode);
      case OpSetBand(wideband, btWideband) =>
    }
  }

  lemma {:induction false} RunInvariant(h: Hal, ops: seq<Op>)
    requires Invariant(h)
    ensures Invariant(Run(h, ops))
    decreases |ops|
  {
    if ops == [] {
    } else {
      StepInvariant(h, ops[0]);
      RunInvariant(Step(h, ops[0]), ops[1..]);
    }
  }

  lemma FreshInvariant(h: Hal)
    requires Fresh(h)
    ensures Invariant(h)
  {
    assert h.session.pcms.Values == {};
  }

  /* ---- Streams follow their devices ---- */

  // Outside a call, selecting a playback stream puts it on the device its own mask selects; when that is a
  // device, and not the one it was on, every other listed playback stream goes there too.
  lemma PlaybackGoesWhereAsked(h: Hal, id: UsecaseId, junk: InView, j: nat)
    requires Sound(h.board) && KindOf(id) == Playback && FromId(h.board.list, id).Some? && CallDevices(h).0 == NONE
    requires j < |h.board.list| && KindOf(h.board.list[j].id) == Playback
    ensures var out := GetOutputSndDevice(Tune(h), OutDevices(h, id));
      var l := SelectDevices(h, id, junk).list;
      && |l| == |h.board.list| && l[FromId(h.board.list, id).value].out == out
      && (out != NONE && h.board.list[FromId(h.board.list, id).value].out != out ==> l[j].out == out)
      && (out == NONE && h.board.list[j].id != id ==> l[j].out == h.board.list[j].out)
  {
    var i := FromId(h.board.list, id).value;
    var out := GetOutputSndDevice(Tune(h), OutDevices(h, id));
    var b := if TakesCaptureAlong(h, id) then SelectDevices(h, ID_CAPTURE, junk) else h.board;
    if TakesCaptureAlong(h, id) {
      SelectSound(h, ID_CAPTURE, junk);
      CaptureLeavesPlayback(h, junk, j);
      CaptureLeavesPlayback(h, junk, i);
    }
    SelectSound(h, id, junk);
    AssignFrame(b, i, out, NONE, j);
    if !(out == b.list[i].out && NONE == b.list[i].inp) {
      AssignList(b, i, out, NONE);
    }
  }

  lemma CaptureLeavesPlayback(h: Hal, junk: InView, j: nat)
    requires Sound(h.board) && j < |h.board.list| && KindOf(h.board.list[j].id) == Playback
    ensures SelectDevices(h, ID_CAPTURE, junk).list[j] == h.board.list[j]
  {
    var found := FromId(h.board.list, ID_CAPTURE);
    if found.Some? {
      var inp := if CallDevices(h).1 != NONE then CallDevices(h).1 else CaptureDevice(h, junk);
      if !(NONE == h.board.list[found.value].out && inp == h.board.list[found.value].inp) {
        AssignList(h.board, found.value, NONE, inp);
      }
    }
  }

  /* ---- What a reader of a reachable state gets ---- */

  // Reference counts: in every reachable state a device is counted once for each listed use case on it.
  lemma CountsAreExact(h: Hal, ops: seq<Op>, d: int)
    requires Fresh(h) && Named(d)
    ensures var b := Run(h, ops).board;
      b.cnt[d] == if d == NONE then 0 else Users(b.list, d)
  {
    FreshInvariant(h);
    RunInvariant(h, ops);
  }

  // Shared backend: the playback use cases that are on a device at all are on the same one.
  lemma BackendIsShared(h: Hal, ops: seq<Op>)
    requires Fresh(h)
    ensures SharedBackend(Run(h, ops).board.list)
  {
    FreshInvariant(h);
    RunInvariant(h, ops);
  }

  ghost predicate ListedOnce(list: seq<Usecase>, id: UsecaseId) {
    Listed(list, id) && forall i, j :: 0 <= i < |list| && 0 <= j < |list| && list[i].id == id == list[j].id ==> i == j
  }

  ghost predicate RunsWhenListed(g: Hal, id: UsecaseId) {
    var running := if id == ID_CAPTURE then !g.capture.standby else Running(g, id);
    (running <==> Listed(g.board.list, id)) && (running <==> ListedOnce(g.board.list, id))
  }

  // Standby: a stream runs exactly when its use case is listed, and it is then listed once.
  lemma StandbyIsListing(h: Hal, ops: seq<Op>, id: UsecaseId)
    requires Fresh(h) && (id in h.outs || id == ID_CAPTURE)
    ensures RunsWhenListed(Run(h, ops), id)
  {
    FreshInvariant(h);
    RunInvariant(h, ops);
    RunKeepsStreams(h, ops);
    var g := Run(h, ops);
    if Listed(g.board.list, id) {
      UniqueListedOnce(g.board.list, id);
    }
  }

  lemma UniqueListedOnce(list: seq<Usecase>, id: UsecaseId)
    requires UniqueStreams(list) && Listed(list, id) && id != ID_VOICE_CALL
    ensures ListedOnce(list, id)
  {
  }

  lemma {:induction false} RunKeepsStreams(h: Hal, ops: seq<Op>)
    requires |h.board.cnt| == SND_DEVICE_MAX
    ensures Run(h, ops).outs.Keys == h.outs.Keys
    decreases |ops|
  {
    if ops == [] {
    } else {
      StepKeepsStreams(h, ops[0]);
      RunKeepsStreams(Step(h, ops[0]), ops[1..]);
    }
  }

  lemma StepKeepsStreams(h: Hal, op: Op)
    requires |h.board.cnt| == SND_DEVICE_MAX
    ensures Step(h, op).outs.Keys == h.outs.Keys
  {
  }

  // Conservation: when every stream is back in standby and no call is listed, every count is 0.
  lemma QuietCountsNothing(h: Hal, ops: seq<Op>, d: int)
    requires Fresh(h) && Named(d)
    requires var g := Run(h, ops);
      g.capture.standby && (forall id :: id in g.outs ==> g.outs[id].standby) && FromId(g.board.list, ID_VOICE_CALL).None?
    ensures Run(h, ops).board.cnt[d] == 0
  {
    FreshInvariant(h);
    RunInvariant(h, ops);
    NothingRunsNothingListed(Run(h, ops));
    EmptyListCountsNothing(Run(h, ops).board);
  }

  lemma FirstIsListed(list: seq<Usecase>)
    ensures list != [] ==> Listed(list, list[0].id)
  {
  }

  lemma NothingRunsNothingListed(g: Hal)
    requires StandbyMatches(g) && g.capture.standby && FromId(g.board.list, ID_VOICE_CALL).None?
    requires forall id :: id in g.outs ==> g.outs[id].standby
    ensures g.board.list == []
  {
    FirstIsListed(g.board.list);
  }

  // Call handles: in every reachable state the flags tell exactly which handles are open, no handle was
  // lost or closed twice on the way, and a call that is up has its use case.
  lemma HandlesMatchFlags(h: Hal, ops: seq<Op>)
    requires Fresh(h)
    ensures var s := Run(h, ops).session;
      && Proper(s.log) && ClosedOnce(s.log) && OpenIn(s.log) == s.pcms.Values
      && (s.inCall <==> VoiceRx in s.pcms) && (s.inCall <==> VoiceTx in s.pcms)
      && (s.inCallSco <==> ScoRx in s.pcms) && (s.inCallSco <==> ScoTx in s.pcms)
      && (s.inCall ==> FromId(Run(h, ops).board.list, ID_VOICE_CALL).Some?)
  {
    FreshInvariant(h);
    RunInvariant(h, ops);
    assert Matched(Run(h, ops).session);
    ProperClosesOnce(Run(h, ops).session.log);
  }

  /* ---- Calls and the mode ---- */

  // A call is up only outside normal mode, and only for a primary output.
  predicate CallFitsMode(h: Hal) { h.session.inCall ==> h.mode != Normal && h.primary.Some? }

  lemma UpdateCallFitsMode(h: Hal, id: UsecaseId, changed: bool, luck: Luck)
    requires |h.board.cnt| == SND_DEVICE_MAX && CallFitsMode(h)
    ensures CallFitsMode(UpdateCall(h, id, changed, luck))
  {
    hide StartVoice, StopVoice, SelectDevices, StopStream;
  }

  lemma OutSetParametersFitsMode(h: Hal, id: UsecaseId, devices: Mask, luck: Luck)
    requires Invariant(h) && CallFitsMode(h)
    ensures CallFitsMode(OutSetParameters(h, id, devices, luck))
  {
    if id in h.outs && devices != {} {
      var changed := h.outs[id].devices != devices;
      var h1 := h.(outs := h.outs[id := h.outs[id].(devices := devices)]);
      hide Reroute, UpdateCall, SetScoLeg;
      var h2 := Reroute(h1, id, changed, luck.junk1);
      SetScoLegMatched(h2, devices, luck);
      UpdateCallFitsMode(h2.(session := SetScoLeg(h2, devices, luck)), id, changed, luck);
    }
  }

  lemma SetModeFitsMode(h: Hal, mode: Mode)
    requires Invariant(h) && CallFitsMode(h)
    ensures CallFitsMode(SetMode(h, mode))
  {
    if mode == Normal && h.session.inCall {
      assert Invariant(h.(mode := mode));
      StopCallInvariant(h.(mode := mode));
    }
  }

  lemma OtherStepsKeepCalls(h: Hal, op: Op)
    requires |h.board.cnt| == SND_DEVICE_MAX && !op.OpOutSetParameters? && !op.OpSetMode?
    ensures var g := Step(h, op); g.session == h.session && g.mode == h.mode && g.primary == h.primary
  {
    hide StartOutput, StartInput, OutStandby, InStandby, SelectDevices, CaptureProfileShares, FromId;
    match op {
      case OpOutWrite(_, _, _, _) =>
      case OpInRead(_, _, _) =>
      case OpInSetParameters(_, _, _) =>
      case _ =>
    }
  }

  lemma StepCallFitsMode(h: Hal, op: Op)
    requires Invariant(h) && CallFitsMode(h)
    ensures CallFitsMode(Step(h, op))
  {
    if op.OpOutSetParameters? {
      OutSetParametersFitsMode(h, op.id, op.devices, op.luck);
    } else if op.OpSetMode? {
      SetModeFitsMode(h, op.mode);
    } else {
      OtherStepsKeepCalls(h, op);
    }
  }

  lemma {:induction false} RunCallFitsMode(h: Hal, ops: seq<Op>)
    requires Invariant(h) && CallFitsMode(h)
    ensures CallFitsMode(Run(h, ops))
    decreases |ops|
  {
    if ops == [] {
    } else {
      StepCallFitsMode(h, ops[0]);
      StepInvariant(h, ops[0]);
      RunCallFitsMode(Step(h, ops[0]), ops[1..]);
    }
  }

  // In every reachable state in normal mode both voice handles are closed: the mode change closed them.
  lemma NormalModeHasNoCall(h: Hal, ops: seq<Op>)
    requires Fresh(h) && Run(h, ops).mode == Normal
    ensures var s := Run(h, ops).session;
      !s.inCall && VoiceRx !in s.pcms && VoiceTx !in s.pcms
  {
    FreshInvariant(h);
    RunCallFitsMode(h, ops);
    HandlesMatchFlags(h, ops);
  }
}
