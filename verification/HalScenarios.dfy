/** Runs of the audio HAL that end where the code falls short of what it is for. */
module HalScenarios {
  import opened Options
  import opened SndDevices
  import opened Board
  import opened BoardProperties
  import opened PcmProfiles
  import opened CallSession
  import opened Hal
  import opened HalProperties
  import opened HalCards
  import opened MixerPaths
  import opened HalMixer
  import opened HalCallRouting

  // A device that no profile has.
  const OUT_AUX_DIGITAL := 10

  predicate WithMask(h: Hal, id: UsecaseId, devices: Mask) { id in h.outs && h.outs[id].devices == devices }

  // A stream that starts outside a call, opens and plays.
  lemma PlayedList(h: Hal, id: UsecaseId, junk: InView)
    requires Invariant(h) && id in h.outs && !Running(h, id)
    requires CallDevices(h).0 == NONE && h.capture.source != SourceVoiceCommunication && StartDevice(h, id) != NONE
    ensures var g := OutWrite(h, id, true, true, junk);
      && g == h.(board := g.board, outs := h.outs[id := h.outs[id].(standby := false)])
      && g.board.list == Reassigned(h.board.list + [Usecase(id, NONE, NONE, CardFor(h, id))], |h.board.list|, StartDevice(h, id), NONE)
  {
    assert FromId(h.board.list, id).None?;
    WriteBoard(h, id, true, true, junk);
    var u := Usecase(id, NONE, NONE, CardFor(h, id));
    var h1 := h.(board := Append(h.board, id, CardFor(h, id)));
    AppendKeepsSound(h.board, id, CardFor(h, id));
    FoundAfterAppend(h.board.list, u, id);
    FoundAfterAppend(h.board.list, u, ID_VOICE_CALL);
    assert SelectDevices(h1, id, junk) == Assign(h1.board, |h.board.list|, StartDevice(h, id), NONE);
    AssignList(h1.board, |h.board.list|, StartDevice(h, id), NONE);
    hide SelectDevices, Assign, StopStream, Served;
  }

  // A stream that starts outside a call, opens and plays.
  lemma Plays(h: Hal, id: UsecaseId, junk: InView, card: bool, d: int)
    requires Invariant(h) && id in h.outs && !Running(h, id)
    requires CallDevices(h).0 == NONE && h.capture.source == SourceMic && StartDevice(h, id) == d != NONE
    requires card <==> CardFor(h, id)
    ensures var l := h.board.list + [Usecase(id, NONE, NONE, card)];
      var play := OpOutWrite(id, true, true, junk);
      var g := Step(h, play);
      && (StepMisses(h, play) <==> MissesPath(l, |h.board.list|, d))
      && g.board.list == Reassigned(l, |h.board.list|, d, NONE)
      && g == h.(board := g.board, outs := h.outs[id := h.outs[id].(standby := false)])
  {
    hide MissesPath, OutWrite, SelectDevices, StartDevice, CardFor;
    PlayedList(h, id, junk);
  }

  lemma PlayedAlone(u: Usecase, d: int)
    requires KindOf(u.id) == Playback
    ensures Reassigned([] + [u], 0, d, NONE) == [u.(out := d, inp := NONE)]
  {
  }

  // The opened device in another mode than normal.
  lemma ModeIsSet(h: Hal, mode: Mode)
    requires Fresh(h) && mode != Normal
    ensures var g := h.(mode := mode);
      Step(h, OpSetMode(mode)) == g && MixerGood(g) && g.board.list == [] && CallDevices(g) == (NONE, NONE)
  {
    FreshIsGood(h);
    assert Invariant(h.(mode := mode));
  }

  // The first playback stream, on the earpiece and a device that no profile has.
  lemma SilentStart(h: Hal, junk: InView)
    requires MixerGood(h) && h.board.list == [] && h.mode == InCommunication && CallDevices(h) == (NONE, NONE)
    requires WithMask(h, ID_PLAYBACK, {OUT_EARPIECE, OUT_AUX_DIGITAL}) && h.capture.source == SourceMic
    ensures var start := OpOutWrite(ID_PLAYBACK, true, true, junk);
      && StepMisses(h, start)
      && Step(h, start).board.list == [Usecase(ID_PLAYBACK, DEV_OUT_COMM_EARPIECE, NONE, false)]
  {
    EarpieceUnserved(h);
    assert !Running(h, ID_PLAYBACK) && Invariant(h);
    hide Step, StepMisses, Served, MixerGood, StartDevice, Invariant, CardFor, MissesPath;
    Plays(h, ID_PLAYBACK, junk, false, DEV_OUT_COMM_EARPIECE);
    AloneMissesIff(Usecase(ID_PLAYBACK, NONE, NONE, false), DEV_OUT_COMM_EARPIECE);
    PlayedAlone(Usecase(ID_PLAYBACK, NONE, NONE, false), DEV_OUT_COMM_EARPIECE);
  }

  lemma EarpieceUnserved(h: Hal)
    requires h.mode == InCommunication && CallDevices(h) == (NONE, NONE)
    requires WithMask(h, ID_PLAYBACK, {OUT_EARPIECE, OUT_AUX_DIGITAL})
    ensures StartDevice(h, ID_PLAYBACK) == DEV_OUT_COMM_EARPIECE && !CardFor(h, ID_PLAYBACK)
  {
    UnservedMask({OUT_EARPIECE, OUT_AUX_DIGITAL});
  }

  // The only entry misses its path exactly when it lacks the card.
  lemma AloneMissesIff(u: Usecase, d: int)
    requires KindOf(u.id) == Playback && u.out == NONE && d != NONE
    ensures MissesPath([] + [u], 0, d) <==> !u.card
  {
    assert [] + [u] == [u];
    assert FirstIsBare([u], 0) <==> !u.card;
    assert forall e :: NONE < e < IN_BEGIN ==> !LeftByBare([u], 0, e);
  }

  // A path that is never applied: in communication mode a stream starts on such devices, and its sound
  // device counts one user while no path is live.
  lemma UnservedStartIsSilent(h: Hal, junk: InView)
    requires Fresh(h) && WithMask(h, ID_PLAYBACK, {OUT_EARPIECE, OUT_AUX_DIGITAL}) && h.capture.source == SourceMic
    ensures var ops := [OpSetMode(InCommunication), OpOutWrite(ID_PLAYBACK, true, true, junk)];
      var b := Run(h, ops).board;
      b.cnt[DEV_OUT_COMM_EARPIECE] == 1 && !Agrees(b)
  {
    var mode, start := OpSetMode(InCommunication), OpOutWrite(ID_PLAYBACK, true, true, junk);
    ModeIsSet(h, InCommunication);
    var h1 := Step(h, mode);
    RunTwo(h, mode, start);
    hide Run, Step, Agrees, Fresh, StepMisses;
    SilentStart(h1, junk);
    StepAgreesIff(h1, start);
    StepInvariant(h1, start);
    CountOfOne(Step(h1, start).board, Usecase(ID_PLAYBACK, DEV_OUT_COMM_EARPIECE, NONE, false));
  }

  lemma CountOfOne(b: Board, u: Usecase)
    requires Exact(b) && b.list == [u] && IsOut(u.out) && u.inp == NONE
    ensures b.cnt[u.out] == 1
  {
    assert b.list[1..] == [];
    assert Users(b.list, u.out) == Uses(u, u.out) + Users([], u.out);
  }

  lemma UnservedMask(devices: Mask)
    requires OUT_AUX_DIGITAL in devices
    ensures !Served(Playback, devices)
  {
    assert OUT_AUX_DIGITAL in devices - {BIT_IN};
  }

  lemma RunTwo(h: Hal, a: Op, b: Op)
    requires |h.board.cnt| == SND_DEVICE_MAX
    ensures Run(h, [a, b]) == Step(Step(h, a), b)
  {
    assert [a, b][1..] == [b] && [b][1..] == [];
    assert Run(Step(h, a), [b]) == Run(Step(Step(h, a), b), []);
  }

  predicate Opened(h: Hal, first: Mask, second: Mask) {
    && WithMask(h, ID_PLAYBACK, first) && WithMask(h, ID_PLAYBACK_DEEP_BUFFER, second)
    && h.capture.source == SourceMic
  }

  const FIRST_ON_SPEAKER := Usecase(ID_PLAYBACK, DEV_OUT_COMM_SPEAKER, NONE, true)
  const SECOND_ON_SPEAKER := Usecase(ID_PLAYBACK_DEEP_BUFFER, DEV_OUT_COMM_SPEAKER, NONE, false)

  // In communication mode two streams play on the speaker, the second of them without the card.
  predicate TwoOnSpeaker(h: Hal) {
    && h.mode == InCommunication && CallDevices(h) == (NONE, NONE)
    && Opened(h, {OUT_SPEAKER}, {OUT_SPEAKER, OUT_AUX_DIGITAL})
  }

  lemma SpeakerServed()
    ensures Served(Playback, {OUT_SPEAKER})
  {
    assert OUT_SPEAKER in {OUT_SPEAKER} - {BIT_IN};
    assert {OUT_SPEAKER} - {BIT_IN} == {OUT_SPEAKER};
  }

  lemma SpeakerDevices(h: Hal)
    requires TwoOnSpeaker(h)
    ensures StartDevice(h, ID_PLAYBACK) == DEV_OUT_COMM_SPEAKER == StartDevice(h, ID_PLAYBACK_DEEP_BUFFER)
    ensures CardFor(h, ID_PLAYBACK) && !CardFor(h, ID_PLAYBACK_DEEP_BUFFER)
  {
    SpeakerServed();
    UnservedMask({OUT_SPEAKER, OUT_AUX_DIGITAL});
  }

  lemma FirstPlays(h: Hal, junk: InView)
    requires MixerGood(h) && h.board.list == [] && TwoOnSpeaker(h)
    ensures var play := OpOutWrite(ID_PLAYBACK, true, true, junk);
      var g := Step(h, play);
      && !StepMisses(h, play) && g.board.list == [FIRST_ON_SPEAKER] && TwoOnSpeaker(g)
      && Running(g, ID_PLAYBACK) && !Running(g, ID_PLAYBACK_DEEP_BUFFER)
  {
    SpeakerDevices(h);
    assert !Running(h, ID_PLAYBACK) && !Running(h, ID_PLAYBACK_DEEP_BUFFER) && Invariant(h);
    hide Step, StepMisses, MixerGood, StartDevice, CardFor, Invariant, MissesPath;
    Plays(h, ID_PLAYBACK, junk, true, DEV_OUT_COMM_SPEAKER);
    AloneMissesIff(Usecase(ID_PLAYBACK, NONE, NONE, true), DEV_OUT_COMM_SPEAKER);
    PlayedAlone(Usecase(ID_PLAYBACK, NONE, NONE, true), DEV_OUT_COMM_SPEAKER);
  }

  lemma SecondPlays(h: Hal, junk: InView)
    requires MixerGood(h) && h.board.list == [FIRST_ON_SPEAKER] && TwoOnSpeaker(h)
    requires Running(h, ID_PLAYBACK) && !Running(h, ID_PLAYBACK_DEEP_BUFFER)
    ensures var play := OpOutWrite(ID_PLAYBACK_DEEP_BUFFER, true, true, junk);
      var g := Step(h, play);
      && !StepMisses(h, play) && g.board.list == [FIRST_ON_SPEAKER, SECOND_ON_SPEAKER]
      && Running(g, ID_PLAYBACK) && Running(g, ID_PLAYBACK_DEEP_BUFFER)
  {
    SpeakerDevices(h);
    Plays(h, ID_PLAYBACK_DEEP_BUFFER, junk, false, DEV_OUT_COMM_SPEAKER);
    hide Step, StepMisses, MixerGood, StartDevice, CardFor;
    var u := Usecase(ID_PLAYBACK_DEEP_BUFFER, NONE, NONE, false);
    assert [FIRST_ON_SPEAKER] + [u] == [FIRST_ON_SPEAKER, u];
    NewcomerJoins([FIRST_ON_SPEAKER, u], DEV_OUT_COMM_SPEAKER);
    assert Reassigned([FIRST_ON_SPEAKER, u], 1, DEV_OUT_COMM_SPEAKER, NONE) == [FIRST_ON_SPEAKER, SECOND_ON_SPEAKER];
  }

  // A newcomer that goes where the only other playback stream is already misses nothing.
  lemma NewcomerJoins(list: seq<Usecase>, d: int)
    requires |list| == 2 && list[1].out == NONE && list[0].out == d != NONE
    ensures !MissesPath(list, 1, d)
  {
  }

  lemma FoundInTurn()
    ensures FromId([FIRST_ON_SPEAKER, SECOND_ON_SPEAKER], ID_PLAYBACK) == Some(0)
    ensures !StopMisses([FIRST_ON_SPEAKER, SECOND_ON_SPEAKER], ID_PLAYBACK)
    ensures Without([FIRST_ON_SPEAKER, SECOND_ON_SPEAKER], 0) == [SECOND_ON_SPEAKER]
    ensures StopMisses([SECOND_ON_SPEAKER], ID_PLAYBACK_DEEP_BUFFER)
  {
    assert FromId([SECOND_ON_SPEAKER], ID_PLAYBACK_DEEP_BUFFER) == Some(0);
    assert Vacant([SECOND_ON_SPEAKER], 0, DEV_OUT_COMM_SPEAKER);
  }

  lemma StoppedInTurn(h: Hal)
    requires MixerGood(h) && Running(h, ID_PLAYBACK) && Running(h, ID_PLAYBACK_DEEP_BUFFER)
    requires h.board.list == [FIRST_ON_SPEAKER, SECOND_ON_SPEAKER]
    ensures !StepMisses(h, OpOutStandby(ID_PLAYBACK))
    ensures StepMisses(Step(h, OpOutStandby(ID_PLAYBACK)), OpOutStandby(ID_PLAYBACK_DEEP_BUFFER))
  {
    FoundInTurn();
    DropKeepsSound(h.board, 0);
    hide Drop, MixerGood, StopMisses, FromId, Sound;
    var g := Step(h, OpOutStandby(ID_PLAYBACK));
    assert g.board.list == [SECOND_ON_SPEAKER];
    assert Running(g, ID_PLAYBACK_DEEP_BUFFER);
  }

  // A path that is never reset: a stream without the card is the last to stop. Everything agrees before.
  lemma BareLastStopLeavesPath(h: Hal, junk: InView)
    requires Fresh(h) && Opened(h, {OUT_SPEAKER}, {OUT_SPEAKER, OUT_AUX_DIGITAL})
    ensures var mode := OpSetMode(InCommunication);
      var play0, play2 := OpOutWrite(ID_PLAYBACK, true, true, junk), OpOutWrite(ID_PLAYBACK_DEEP_BUFFER, true, true, junk);
      var stop0, stop2 := OpOutStandby(ID_PLAYBACK), OpOutStandby(ID_PLAYBACK_DEEP_BUFFER);
      var g := Step(Step(Step(Step(h, mode), play0), play2), stop0);
      && g == Run(h, [mode, play0, play2, stop0])
      && MixerGood(g) && !Agrees(Step(g, stop2).board)
  {
    var mode := OpSetMode(InCommunication);
    var play0, play2 := OpOutWrite(ID_PLAYBACK, true, true, junk), OpOutWrite(ID_PLAYBACK_DEEP_BUFFER, true, true, junk);
    var stop0, stop2 := OpOutStandby(ID_PLAYBACK), OpOutStandby(ID_PLAYBACK_DEEP_BUFFER);
    ModeIsSet(h, InCommunication);
    var h1 := Step(h, mode);
    FirstPlays(h1, junk);
    var h2 := Step(h1, play0);
    hide Step, StepMisses, MixerGood, Run, Agrees, TwoOnSpeaker;
    GoodStep(h1, play0);
    SecondPlays(h2, junk);
    GoodStep(h2, play2);
    var h3 := Step(h2, play2);
    StoppedInTurn(h3);
    GoodStep(h3, stop0);
    var h4 := Step(h3, stop0);
    StepAgreesIff(h4, stop2);
    RunFour(h, mode, play0, play2, stop0);
  }

  lemma GoodStep(h: Hal, op: Op)
    requires MixerGood(h) && !StepMisses(h, op)
    ensures MixerGood(Step(h, op))
  {
    StepAgreesIff(h, op);
    StepInvariant(h, op);
    StepFits(h, op);
  }

  lemma RunFour(h: Hal, a: Op, b: Op, c: Op, d: Op)
    requires |h.board.cnt| == SND_DEVICE_MAX
    ensures Run(h, [a, b, c, d]) == Step(Step(Step(Step(h, a), b), c), d)
  {
    assert [a, b, c, d][1..] == [b, c, d] && [b, c, d][1..] == [c, d];
    RunTwo(Step(Step(h, a), b), c, d);
    assert Run(Step(h, a), [b, c, d]) == Run(Step(Step(h, a), b), [c, d]);
  }

  /* ---- A stale call ---- */

  // Routing a stream that is in standby to the devices it has already concerns the call alone.
  lemma RouteConcernsCall(h: Hal, luck: Luck)
    requires Invariant(h) && h.mode == InCall && !h.session.inCall && !h.session.inCallSco && h.primary == Some(ID_PLAYBACK)
    requires WithMask(h, ID_PLAYBACK, {OUT_EARPIECE}) && !Running(h, ID_PLAYBACK)
    ensures OutSetParameters(h, ID_PLAYBACK, {OUT_EARPIECE}, luck) == StartCall(h, luck.call, luck.junk2)
  {
    RouteUnfolds(h, ID_PLAYBACK, {OUT_EARPIECE}, luck);
    hide StartCall, OutSetParameters;
    assert h.outs[ID_PLAYBACK := h.outs[ID_PLAYBACK].(devices := {OUT_EARPIECE})] == h.outs;
  }

  function CallOnEarpiece(t: Tuning): Usecase {
    Usecase(ID_VOICE_CALL, GetOutputSndDevice(t, {OUT_EARPIECE}), InCallInput(t, {OUT_EARPIECE}), true)
  }

  lemma EarpieceAndSpeaker(t: Tuning)
    requires t.mode == InCall
    ensures var ear, loud := GetOutputSndDevice(t, {OUT_EARPIECE}), GetOutputSndDevice(t, {OUT_SPEAKER});
      ear != NONE && loud != NONE && ear != loud && InCallInput(t, {OUT_EARPIECE}) != NONE
  {
  }

  // The start of a call that fails leaves its entry, on the devices of the earpiece.
  lemma FailedStartList(h: Hal, r: Ready, junk: InView)
    requires MixerGood(h) && h.board.list == [] && h.mode == InCall && !h.session.inCall && !r.voiceTx
    requires PrimaryDevices(h) == {OUT_EARPIECE}
    ensures var g := StartCall(h, r, junk);
      && g.board.list == [CallOnEarpiece(Tune(h))] && !g.session.inCall && !g.session.inCallSco
      && g == h.(board := g.board, session := g.session)
  {
    EarpieceAndSpeaker(Tune(h));
    StartCallInvariant(h, r, junk);
    StartVoiceMatched(h.session, PrimaryDevices(h) * OUT_ALL_SCO != {}, r);
    hide GetOutputSndDevice, InCallInput, StartVoice, SelectDevices, Agrees, Fits, Tracks;
    assert OthersCarded(h.board.list);
    var v, inp := CallAssigned(h, r, junk);
    var b := Append(h.board, ID_VOICE_CALL, true);
    AssignedAlone(b, v, GetOutputSndDevice(Tune(h), {OUT_EARPIECE}), inp);
  }

  lemma AssignedAlone(b: Board, v: nat, out: int, inp: int)
    requires |b.cnt| == SND_DEVICE_MAX && b.list == [Usecase(ID_VOICE_CALL, NONE, NONE, true)] && v == 0 && out != NONE
    ensures Assign(b, v, out, inp).list == [Usecase(ID_VOICE_CALL, out, inp, true)]
  {
    AssignList(b, v, out, inp);
  }

  // A playback stream that starts on the speaker while no call is up goes there, whatever call is listed.
  lemma SecondBesideStale(h: Hal, call: Usecase, junk: InView)
    requires Invariant(h) && h.mode == InCall && !h.session.inCall && h.board.list == [call] && call.id == ID_VOICE_CALL
    requires Opened(h, {OUT_EARPIECE}, {OUT_SPEAKER}) && !Running(h, ID_PLAYBACK_DEEP_BUFFER)
    ensures var play := OpOutWrite(ID_PLAYBACK_DEEP_BUFFER, true, true, junk);
      var g := Step(h, play);
      && g.board.list[0] == call && |g.board.list| == 2
      && g.board.list[1].id == ID_PLAYBACK_DEEP_BUFFER
      && g.board.list[1].out == GetOutputSndDevice(Tune(h), {OUT_SPEAKER})
      && g == h.(board := g.board, outs := h.outs[ID_PLAYBACK_DEEP_BUFFER := Out({OUT_SPEAKER}, false)])
  {
    var d := GetOutputSndDevice(Tune(h), {OUT_SPEAKER});
    EarpieceAndSpeaker(Tune(h));
    hide GetOutputSndDevice;
    assert StartDevice(h, ID_PLAYBACK_DEEP_BUFFER) == d;
    Plays(h, ID_PLAYBACK_DEEP_BUFFER, junk, CardFor(h, ID_PLAYBACK_DEEP_BUFFER), d);
    hide Step, Invariant, CardFor, StartDevice;
    var l := [call] + [Usecase(ID_PLAYBACK_DEEP_BUFFER, NONE, NONE, CardFor(h, ID_PLAYBACK_DEEP_BUFFER))];
    assert Reassigned(l, 1, d, NONE)[0] == l[0];
  }

  // The next start succeeds, finds the stale entry where it wants it, and leaves the stream on the speaker.
  lemma NextStartMisses(h: Hal, r: Ready, junk: InView)
    requires Invariant(h) && h.mode == InCall && !h.session.inCall && r.voiceTx && r.voiceRx
    requires PrimaryDevices(h) == {OUT_EARPIECE} && |h.board.list| == 2 && h.board.list[0] == CallOnEarpiece(Tune(h))
    requires h.board.list[1].id == ID_PLAYBACK_DEEP_BUFFER
    requires h.board.list[1].out == GetOutputSndDevice(Tune(h), {OUT_SPEAKER})
    ensures var g := StartCall(h, r, junk);
      && g.session.inCall && CallDevices(g).0 != NONE && StaleAtTarget(h)
      && !StreamsFollow(g.board.list, CallDevices(g).0, CallDevices(g).1)
  {
    EarpieceAndSpeaker(Tune(h));
    assert FromId(h.board.list, ID_VOICE_CALL) == Some(0);
    hide GetOutputSndDevice, InCallInput, StartCall, CallDevices, Invariant;
    StartCallInvariant(h, r, junk);
    CallStartRoutesIff(h, r, junk);
    var out := GetOutputSndDevice(Tune(h), {OUT_EARPIECE});
    forall inp ensures !StreamsFollow(h.board.list, out, inp) {
      assert !Follows(h.board.list[1], out, inp);
    }
  }

  // After a start that failed: set the mode to IN_CALL, start a call that fails, play on the speaker, start
  // the call again. It is up, on the earpiece, and the stream is still on the speaker.
  lemma StaleCallMissesStream(h: Hal, failing: Luck, working: Luck, junk: InView)
    requires Fresh(h) && h.primary == Some(ID_PLAYBACK) && Opened(h, {OUT_EARPIECE}, {OUT_SPEAKER})
    requires !failing.call.voiceTx && working.call.voiceTx && working.call.voiceRx
    ensures var mode, play := OpSetMode(InCall), OpOutWrite(ID_PLAYBACK_DEEP_BUFFER, true, true, junk);
      var try1 := OpOutSetParameters(ID_PLAYBACK, {OUT_EARPIECE}, failing);
      var try2 := OpOutSetParameters(ID_PLAYBACK, {OUT_EARPIECE}, working);
      var g := Run(h, [mode, try1, play, try2]);
      && g.session.inCall && CallDevices(g).0 != NONE
      && !StreamsFollow(g.board.list, CallDevices(g).0, CallDevices(g).1)
  {
    var mode, play := OpSetMode(InCall), OpOutWrite(ID_PLAYBACK_DEEP_BUFFER, true, true, junk);
    var try1 := OpOutSetParameters(ID_PLAYBACK, {OUT_EARPIECE}, failing);
    var try2 := OpOutSetParameters(ID_PLAYBACK, {OUT_EARPIECE}, working);
    ModeIsSet(h, InCall);
    var h1 := h.(mode := InCall);
    assert !Running(h1, ID_PLAYBACK) && !Running(h1, ID_PLAYBACK_DEEP_BUFFER);
    assert !h1.session.inCall && !h1.session.inCallSco && PrimaryDevices(h1) == {OUT_EARPIECE};
    hide MixerGood, Fresh, Run, StartCall, CallDevices, StreamsFollow;
    StaleAfter(h1, failing, working, junk);
    RunFour(h, mode, try1, play, try2);
  }

  lemma StaleAfter(h: Hal, failing: Luck, working: Luck, junk: InView)
    requires MixerGood(h) && h.board.list == [] && h.mode == InCall && !h.session.inCall && !h.session.inCallSco
    requires h.primary == Some(ID_PLAYBACK) && Opened(h, {OUT_EARPIECE}, {OUT_SPEAKER})
    requires !Running(h, ID_PLAYBACK) && !Running(h, ID_PLAYBACK_DEEP_BUFFER)
    requires !failing.call.voiceTx && working.call.voiceTx && working.call.voiceRx
    ensures var play := OpOutWrite(ID_PLAYBACK_DEEP_BUFFER, true, true, junk);
      var try1 := OpOutSetParameters(ID_PLAYBACK, {OUT_EARPIECE}, failing);
      var try2 := OpOutSetParameters(ID_PLAYBACK, {OUT_EARPIECE}, working);
      var g := Step(Step(Step(h, try1), play), try2);
      && g.session.inCall && CallDevices(g).0 != NONE
      && !StreamsFollow(g.board.list, CallDevices(g).0, CallDevices(g).1)
  {
    var play := OpOutWrite(ID_PLAYBACK_DEEP_BUFFER, true, true, junk);
    assert Invariant(h);
    hide OutSetParameters, OutWrite, StartCall, CallDevices, StreamsFollow, Invariant, MixerGood, StaleAtTarget;
    RouteConcernsCall(h, failing);
    FailedStartList(h, failing.call, failing.junk2);
    var h2 := StartCall(h, failing.call, failing.junk2);
    StepInvariant(h, OpOutSetParameters(ID_PLAYBACK, {OUT_EARPIECE}, failing));
    SecondBesideStale(h2, CallOnEarpiece(Tune(h2)), junk);
    var h3 := Step(h2, play);
    StepInvariant(h2, play);
    RouteConcernsCall(h3, working);
    NextStartMisses(h3, working.call, working.junk2);
  }

  // Such runs exist: set the mode to IN_CALL and route the primary output, and a call starts.
  lemma CallCanStart(h: Hal, working: Luck)
    requires Fresh(h) && h.primary == Some(ID_PLAYBACK) && WithMask(h, ID_PLAYBACK, {OUT_EARPIECE})
    requires working.call.voiceTx && working.call.voiceRx
    ensures var start := OpOutSetParameters(ID_PLAYBACK, {OUT_EARPIECE}, working);
      NoStartFails(h, [OpSetMode(InCall)]) && CallStarts(Run(h, [OpSetMode(InCall)]), start)
  {
    ModeIsSet(h, InCall);
    assert [OpSetMode(InCall)][1..] == [];
    assert Run(h, [OpSetMode(InCall)]) == Step(h, OpSetMode(InCall));
  }
}
