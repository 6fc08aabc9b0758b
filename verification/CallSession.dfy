/** The PCM handles of a voice call and of its Bluetooth SCO leg: start_voice_call, stop_voice_call and
    the two SCO session functions of audio_hw.c, without their routing. */
module CallSession {

  // The four handle fields of struct audio_device.
  datatype Slot = VoiceRx | VoiceTx | ScoRx | ScoTx

  datatype PcmEvent = Open(h: nat) | Close(h: nat) | CloseNull

  // `pcms` maps the fields that are not NULL to their handles. pcm_open never returns NULL and gives a
  // new handle each time; a device that cannot be opened shows as a handle that is not ready.
  datatype Session = Session(
    inCall: bool, inCallSco: bool, inCommSco: bool,
    pcms: map<Slot, nat>, issued: nat, log: seq<PcmEvent>)

  // Which of the four opens of one call to start_voice_call give a ready handle.
  datatype Ready = Ready(scoTx: bool, scoRx: bool, voiceTx: bool, voiceRx: bool)

  function OpenInto(s: Session, slot: Slot): (r: Session)
    ensures r.pcms.Keys == s.pcms.Keys + {slot}
  {
    s.(pcms := s.pcms[slot := s.issued], issued := s.issued + 1, log := s.log + [Open(s.issued)])
  }

  // pcm_close on a field, then NULL. The failure path of start_voice_call closes fields that are NULL.
  function CloseAt(s: Session, slot: Slot): (r: Session)
    ensures r.pcms.Keys == s.pcms.Keys - {slot}
  {
    if slot in s.pcms then s.(pcms := s.pcms - {slot}, log := s.log + [Close(s.pcms[slot])])
    else s.(log := s.log + [CloseNull])
  }

  function CloseIfOpen(s: Session, slot: Slot): (r: Session)
    ensures r.pcms.Keys == s.pcms.Keys - {slot}
  {
    if slot in s.pcms then CloseAt(s, slot) else s
  }

  function StopSco(s: Session): (r: Session)
    ensures r.pcms.Keys == s.pcms.Keys - {ScoRx, ScoTx}
    ensures r.inCall == s.inCall && !r.inCallSco
  {
    CloseIfOpen(CloseIfOpen(s, ScoRx), ScoTx).(inCallSco := false)
  }

  function StartSco(s: Session, txReady: bool, rxReady: bool): (r: Session)
    ensures r.inCall == s.inCall
    ensures s.inCallSco || ScoRx in s.pcms || ScoTx in s.pcms ==> r == s
    ensures !(s.inCallSco || ScoRx in s.pcms || ScoTx in s.pcms) ==>
              && r.inCallSco == (txReady && rxReady)
              && r.pcms.Keys == s.pcms.Keys + (if r.inCallSco then {ScoRx, ScoTx} else {})
  {
    if s.inCallSco || ScoRx in s.pcms || ScoTx in s.pcms then s
    else
      var s1 := (if s.inCommSco then StopSco(s) else s).(inCallSco := true);
      var s2 := OpenInto(s1, ScoTx);
      if !txReady then CloseAt(s2, ScoTx).(inCallSco := false)
      else
        var s3 := OpenInto(s2, ScoRx);
        if !rxReady then CloseAt(CloseAt(s3, ScoRx), ScoTx).(inCallSco := false)
        else s3
  }

  // start_voice_call from the point where in_call is set.
  function StartVoice(s: Session, sco: bool, r: Ready): Session {
    var s1 := s.(inCall := true);
    if VoiceRx in s.pcms || VoiceTx in s.pcms then s1
    else OpenVoice(if sco then StartSco(s1, r.scoTx, r.scoRx) else s1, r)
  }

  function OpenVoice(s: Session, r: Ready): (t: Session)
    ensures t.inCall == (s.inCall && r.voiceTx && r.voiceRx)
    ensures t.inCallSco == (s.inCallSco && r.voiceTx && r.voiceRx)
    ensures t.pcms.Keys == if r.voiceTx && r.voiceRx then s.pcms.Keys + {VoiceTx, VoiceRx}
                           else s.pcms.Keys - {VoiceRx, VoiceTx} - (if s.inCallSco then {ScoRx, ScoTx} else {})
  {
    var s1 := OpenInto(s, VoiceTx);
    if !r.voiceTx then Abort(s1)
    else
      var s2 := OpenInto(s1, VoiceRx);
      if !r.voiceRx then Abort(s2) else s2
  }

  // The exit label of start_voice_call.
  function Abort(s: Session): (r: Session)
    ensures r.pcms.Keys == s.pcms.Keys - {VoiceRx, VoiceTx} - (if s.inCallSco then {ScoRx, ScoTx} else {})
    ensures !r.inCall && !r.inCallSco
  {
    var s1 := CloseAt(CloseAt(s, VoiceRx), VoiceTx);
    (if s1.inCallSco then StopSco(s1) else s1).(inCall := false)
  }

  // stop_voice_call; `listed`: the voice-call use case is found.
  function StopVoice(s: Session, listed: bool): (r: Session)
    ensures !r.inCallSco && r.inCall == (s.inCall && !listed)
  {
    if listed then ClosePcms(s).(inCall := false) else ClosePcms(s)
  }

  function ClosePcms(s: Session): (r: Session)
    ensures r.pcms.Keys == s.pcms.Keys - {VoiceRx, VoiceTx} - (if s.inCallSco then {ScoRx, ScoTx} else {})
    ensures !r.inCallSco && r.inCall == s.inCall
  {
    CloseIfOpen(CloseIfOpen(if s.inCallSco then StopSco(s) else s, VoiceRx), VoiceTx)
  }

  /* ---- Properties ---- */

  function OpenStep(open: set<nat>, e: PcmEvent): set<nat> {
    match e
    case Open(h) => open + {h}
    case Close(h) => open - {h}
    case CloseNull => open
  }

  // The handles opened and not closed since.
  function OpenIn(log: seq<PcmEvent>): set<nat> {
    if log == [] then {} else OpenStep(OpenIn(log[..|log| - 1]), log[|log| - 1])
  }

  predicate ProperStep(log: seq<PcmEvent>, e: PcmEvent) {
    match e
    case Open(h) => Open(h) !in log
    case Close(h) => h in OpenIn(log)
    case CloseNull => true
  }

  // Every open gives a new handle, and every close is of a handle that is open at that point.
  predicate Proper(log: seq<PcmEvent>) {
    log == [] || (Proper(log[..|log| - 1]) && ProperStep(log[..|log| - 1], log[|log| - 1]))
  }

  lemma LogAfter(log: seq<PcmEvent>, e: PcmEvent)
    ensures OpenIn(log + [e]) == OpenStep(OpenIn(log), e)
    ensures Proper(log + [e]) <==> Proper(log) && ProperStep(log, e)
  {
    assert (log + [e])[..|log|] == log;
  }

  predicate ClosedOnce(log: seq<PcmEvent>) {
    forall i, j :: 0 <= i < j < |log| && log[i].Close? ==> log[i] != log[j]
  }

  // A handle that was closed was opened before, and is not open any more.
  lemma {:induction false} ProperClosesOnce(log: seq<PcmEvent>)
    requires Proper(log)
    ensures ClosedOnce(log)
    ensures forall h: nat :: h in OpenIn(log) ==> Open(h) in log && Close(h) !in log
    ensures forall h: nat :: Close(h) in log ==> Open(h) in log
  {
    if log == [] {
    } else {
      var before, last := log[..|log| - 1], log[|log| - 1];
      ProperClosesOnce(before);
      assert log == before + [last];
      assert forall e :: e in log <==> e in before || e == last;
      assert forall i :: 0 <= i < |before| ==> log[i] == before[i] && before[i] in before;
    }
  }

  // The open handles are exactly those in the four fields: none leaked, overwritten or closed twice.
  ghost predicate Tracks(s: Session) { TracksLog(s.log, s.pcms, s.issued) }

  ghost predicate TracksLog(log: seq<PcmEvent>, pcms: map<Slot, nat>, issued: nat) {
    && Proper(log)
    && OpenIn(log) == pcms.Values
    && (forall h :: h in pcms.Values ==> h < issued)
    && (forall h: nat :: Open(h) in log ==> h < issued)
    && (forall a, b :: a in pcms && b in pcms && pcms[a] == pcms[b] ==> a == b)
  }

  lemma OpenTracks(s: Session, slot: Slot)
    requires Tracks(s) && slot !in s.pcms
    ensures Tracks(OpenInto(s, slot))
  {
    LogAfter(s.log, Open(s.issued));
    var r := OpenInto(s, slot);
    assert r.pcms.Values == s.pcms.Values + {s.issued} by {
      assert s.issued in r.pcms.Values by { assert r.pcms[slot] == s.issued; }
      forall h | h in s.pcms.Values ensures h in r.pcms.Values {
        var a :| a in s.pcms && s.pcms[a] == h;
        assert r.pcms[a] == h;
      }
    }
  }

  lemma CloseTracks(s: Session, slot: Slot)
    requires Tracks(s)
    ensures Tracks(CloseAt(s, slot))
  {
    if slot in s.pcms {
      var h := s.pcms[slot];
      LogAfter(s.log, Close(h));
      var r := CloseAt(s, slot);
      assert r.pcms.Values == s.pcms.Values - {h} by {
        forall g | g in s.pcms.Values && g != h ensures g in r.pcms.Values {
          var a :| a in s.pcms && s.pcms[a] == g;
          assert r.pcms[a] == g;
        }
      }
    } else {
      LogAfter(s.log, CloseNull);
    }
  }

  lemma StopScoTracks(s: Session)
    requires Tracks(s)
    ensures Tracks(StopSco(s))
  {
    CloseTracks(s, ScoRx);
    CloseTracks(CloseIfOpen(s, ScoRx), ScoTx);
  }

  // At every API boundary the flags say exactly which handles are open.
  ghost predicate Matched(s: Session) { Tracks(s) && FlagsMatch(s) }

  predicate FlagsMatch(s: Session) {
    (s.inCall <==> VoiceRx in s.pcms) && (s.inCall <==> VoiceTx in s.pcms) && ScoMatches(s)
  }

  predicate ScoMatches(s: Session) { (s.inCallSco <==> ScoRx in s.pcms) && (s.inCallSco <==> ScoTx in s.pcms) }

  lemma StopScoMatched(s: Session)
    requires Matched(s)
    ensures Matched(StopSco(s)) && !StopSco(s).inCallSco
  {
    StopScoTracks(s);
  }

  // The SCO flag holds afterwards exactly when it held before or both devices opened.
  lemma StartScoMatched(s: Session, txReady: bool, rxReady: bool)
    requires Tracks(s) && ScoMatches(s)
    ensures var r := StartSco(s, txReady, rxReady);
      && (r.inCallSco <==> s.inCallSco || (txReady && rxReady))
      && ScoMatches(r) && Tracks(r)
  {
    if !s.inCallSco {
      StopScoTracks(s);
      var s1 := (if s.inCommSco then StopSco(s) else s).(inCallSco := true);
      OpenTracks(s1, ScoTx);
      var s2 := OpenInto(s1, ScoTx);
      if txReady {
        OpenTracks(s2, ScoRx);
        CloseTracks(OpenInto(s2, ScoRx), ScoRx);
        CloseTracks(CloseAt(OpenInto(s2, ScoRx), ScoRx), ScoTx);
      } else {
        CloseTracks(s2, ScoTx);
      }
    }
  }

  lemma AbortTracks(s: Session)
    requires Tracks(s)
    ensures Tracks(Abort(s))
  {
    CloseTracks(s, VoiceRx);
    CloseTracks(CloseAt(s, VoiceRx), VoiceTx);
    StopScoTracks(CloseAt(CloseAt(s, VoiceRx), VoiceTx));
  }

  lemma OpenVoiceTracks(s: Session, r: Ready)
    requires Tracks(s) && VoiceRx !in s.pcms && VoiceTx !in s.pcms
    ensures Tracks(OpenVoice(s, r))
  {
    OpenTracks(s, VoiceTx);
    var s1 := OpenInto(s, VoiceTx);
    if r.voiceTx {
      OpenTracks(s1, VoiceRx);
      AbortTracks(OpenInto(s1, VoiceRx));
    } else {
      AbortTracks(s1);
    }
  }

  lemma OpenVoiceFlags(s: Session, r: Ready)
    requires s.inCall && VoiceRx !in s.pcms && VoiceTx !in s.pcms
    requires ScoMatches(s)
    ensures FlagsMatch(OpenVoice(s, r))
    ensures !OpenVoice(s, r).inCall ==> OpenVoice(s, r).pcms.Keys == {}
  {
    var t := OpenVoice(s, r);
    if !t.inCall {
      forall x: Slot ensures x !in t.pcms.Keys {
        match x { case VoiceRx => case VoiceTx => case ScoRx => case ScoTx => }
      }
    }
  }

  // Main result: a call that starts while none is up is up afterwards exactly when both voice devices
  // opened, and a failure closes whatever had been opened, the SCO leg included.
  lemma StartVoiceMatched(s: Session, sco: bool, r: Ready)
    requires Matched(s) && !s.inCall
    ensures Matched(StartVoice(s, sco, r))
    ensures StartVoice(s, sco, r).inCall <==> r.voiceTx && r.voiceRx
    ensures !StartVoice(s, sco, r).inCall ==> StartVoice(s, sco, r).pcms.Keys == {}
  {
    var s1 := s.(inCall := true);
    assert Tracks(s1);
    StartScoMatched(s1, r.scoTx, r.scoRx);
    var s2 := if sco then StartSco(s1, r.scoTx, r.scoRx) else s1;
    assert VoiceRx !in s2.pcms && VoiceTx !in s2.pcms;
    assert ScoMatches(s2);
    OpenVoiceTracks(s2, r);
    OpenVoiceFlags(s2, r);
  }

  // A call that starts has its SCO leg exactly when the leg was up before, or is wanted and opened too.
  lemma StartVoiceLeg(s: Session, sco: bool, r: Ready)
    requires FlagsMatch(s) && !s.inCall
    ensures StartVoice(s, sco, r).inCallSco <==>
      r.voiceTx && r.voiceRx && (s.inCallSco || (sco && r.scoTx && r.scoRx))
    ensures StartVoice(s, sco, r).inCommSco == s.inCommSco
  {
    hide OpenInto, CloseAt;
    var s1 := s.(inCall := true);
    StartScoKeepsComm(s1, r.scoTx, r.scoRx);
    var s2 := if sco then StartSco(s1, r.scoTx, r.scoRx) else s1;
    hide StartSco;
    OpenVoiceKeepsComm(s2, r);
  }

  lemma StartScoKeepsComm(s: Session, txReady: bool, rxReady: bool)
    ensures StartSco(s, txReady, rxReady).inCommSco == s.inCommSco
  {
  }

  lemma OpenVoiceKeepsComm(s: Session, r: Ready)
    ensures OpenVoice(s, r).inCommSco == s.inCommSco
  {
  }

  lemma StartScoClosesNoNull(s: Session, txReady: bool, rxReady: bool)
    requires CloseNull !in s.log
    ensures CloseNull !in StartSco(s, txReady, rxReady).log
  {
  }

  lemma AbortClosesNullIff(s: Session)
    requires CloseNull !in s.log && VoiceTx in s.pcms
    ensures CloseNull in Abort(s).log <==> VoiceRx !in s.pcms
  {
    var s1 := CloseAt(s, VoiceRx);
    assert CloseNull in s1.log <==> VoiceRx !in s.pcms by {
      assert s1.log[|s1.log| - 1] == CloseNull || CloseNull !in s1.log;
    }
    var s2 := CloseAt(s1, VoiceTx);
    assert s2.log == s1.log + [Close(s1.pcms[VoiceTx])];
    var s3 := CloseIfOpen(s2, ScoRx);
    assert CloseNull in s3.log <==> CloseNull in s2.log;
    assert CloseNull in CloseIfOpen(s3, ScoTx).log <==> CloseNull in s3.log;
  }

  lemma OpenVoiceClosesNullIff(s: Session, r: Ready)
    requires CloseNull !in s.log && VoiceRx !in s.pcms
    ensures CloseNull in OpenVoice(s, r).log <==> !r.voiceTx
  {
    var s1 := OpenInto(s, VoiceTx);
    AbortClosesNullIff(s1);
    AbortClosesNullIff(OpenInto(s1, VoiceRx));
    hide Abort;
  }

  // The only close of a NULL field is that of the rx handle after the tx device failed to open.
  lemma StartVoiceClosesNullIff(s: Session, sco: bool, r: Ready)
    requires Matched(s) && !s.inCall && CloseNull !in s.log
    ensures CloseNull in StartVoice(s, sco, r).log <==> !r.voiceTx
  {
    var s1 := s.(inCall := true);
    StartScoClosesNoNull(s1, r.scoTx, r.scoRx);
    hide StartSco, OpenVoice, Tracks;
    OpenVoiceClosesNullIff(if sco then StartSco(s1, r.scoTx, r.scoRx) else s1, r);
  }

  lemma StopVoiceTracks(s: Session, listed: bool)
    requires Tracks(s)
    ensures Tracks(StopVoice(s, listed))
  {
    StopScoTracks(s);
    var s1 := if s.inCallSco then StopSco(s) else s;
    CloseTracks(s1, VoiceRx);
    CloseTracks(CloseIfOpen(s1, VoiceRx), VoiceTx);
  }

  // stop_voice_call closes everything, and leaves flags and handles matched exactly when its use case is
  // listed or no call was up.
  lemma StopVoiceMatchedIff(s: Session, listed: bool)
    requires Matched(s)
    ensures Matched(StopVoice(s, listed)) <==> listed || !s.inCall
    ensures StopVoice(s, listed).pcms.Keys == {}
  {
    StopVoiceTracks(s, listed);
    var t := StopVoice(s, listed);
    forall x: Slot ensures x !in t.pcms.Keys {
      match x { case VoiceRx => case VoiceTx => case ScoRx => case ScoTx => }
    }
  }
}
