/** Where select_devices puts a use case, and what it moves along, told by the fields of the state. */
module HalSelection {
  import opened Options
  import opened SndDevices
  import opened Board
  import opened BoardProperties
  import opened Hal
  import opened HalProperties

  // The call that streams follow: one that is up, in IN_CALL mode, is the first call listed.
  function LeadingCall(h: Hal): Option<nat> {
    if h.session.inCall && h.mode == InCall then FromId(h.board.list, ID_VOICE_CALL) else None
  }

  // The first capture stream or call in the list.
  predicate IsActiveInput(list: seq<Usecase>, i: nat) {
    && i < |list| && KindOf(list[i].id) != Playback
    && forall j :: 0 <= j < i ==> KindOf(list[j].id) == Playback
  }

  // PCM_CAPTURE | VOICE_CALL finds exactly that one.
  lemma ActiveInputIsFirst(list: seq<Usecase>, i: nat)
    ensures FromType(list, CAPTURE_OR_CALL) == Some(i) <==> IsActiveInput(list, i)
  {
    var f := FromType(list, CAPTURE_OR_CALL);
    assert forall j :: 0 <= j < |list| ==> (Selects(CAPTURE_OR_CALL, list[j]) <==> KindOf(list[j].id) != Playback);
    if IsActiveInput(list, i) {
      assert Selects(CAPTURE_OR_CALL, list[i]);
    }
  }

  // What the selectors see of the stream of entry i: the capture stream itself, or junk through a call.
  function InputSeen(h: Hal, i: nat, junk: InView): InView
    requires i < |h.board.list|
  {
    if KindOf(h.board.list[i].id) == Capture then InView(h.capture.source, h.capture.devices) else junk
  }

  // The microphone of a capture stream that follows no call: chosen beside the primary output if that runs
  // and the source is a voice communication, and beside no output otherwise.
  function OwnMicrophone(h: Hal, seen: InView): int {
    var beside :=
      match h.primary
      case Some(p) =>
        if seen.source == SourceVoiceCommunication && p in h.outs && !h.outs[p].standby then h.outs[p].devices else {}
      case None => {};
    GetInputSndDevice(Tuning(h.mode, h.wideband, h.btWideband), Some(seen), beside)
  }

  // Where a capture stream goes.
  function CaptureTarget(h: Hal, seen: InView): int {
    match LeadingCall(h)
    case Some(v) => if h.board.list[v].inp != NONE then h.board.list[v].inp else OwnMicrophone(h, seen)
    case None => OwnMicrophone(h, seen)
  }

  // Where a playback stream goes.
  function PlaybackTarget(h: Hal, id: UsecaseId): int
    requires id in h.outs
  {
    var own := GetOutputSndDevice(Tuning(h.mode, h.wideband, h.btWideband), h.outs[id].devices);
    match LeadingCall(h)
    case Some(v) => if h.board.list[v].out != NONE then h.board.list[v].out else own
    case None => own
  }

  // A playback stream that is the primary output and follows no call takes a running voice-communication
  // capture with it, when that is the active input.
  predicate CaptureGoesAlong(h: Hal, id: UsecaseId) {
    && h.primary == Some(id)
    && (LeadingCall(h).Some? ==> h.board.list[LeadingCall(h).value].out == NONE)
    && h.capture.source == SourceVoiceCommunication
    && exists i :: 0 <= i < |h.board.list| && IsActiveInput(h.board.list, i) && KindOf(h.board.list[i].id) == Capture
  }

  lemma CallDevicesAre(h: Hal)
    ensures CallDevices(h) == match LeadingCall(h)
                              case Some(v) => (h.board.list[v].out, h.board.list[v].inp)
                              case None => (NONE, NONE)
  {
  }

  // Main result: a capture stream that is selected goes to its target, and no other entry moves.
  lemma CaptureIsRouted(h: Hal, junk: InView, i: nat, a: nat, j: nat)
    requires Sound(h.board) && FromId(h.board.list, ID_CAPTURE) == Some(i) && IsActiveInput(h.board.list, a) && j < |h.board.list|
    ensures var l := SelectDevices(h, ID_CAPTURE, junk).list;
      && |l| == |h.board.list|
      && l[i] == h.board.list[i].(inp := CaptureTarget(h, InputSeen(h, a, junk)))
      && (j != i ==> l[j] == h.board.list[j])
  {
    ActiveInputIsFirst(h.board.list, a);
    CallDevicesAre(h);
    var inp := CaptureTarget(h, InputSeen(h, a, junk));
    hide GetInputSndDevice;
    assert SelectDevices(h, ID_CAPTURE, junk) == Assign(h.board, i, NONE, inp);
    assert Shaped(h.board.list[i]);
    if inp != h.board.list[i].inp {
      AssignList(h.board, i, NONE, inp);
    }
  }

  // The two things a selected playback stream does: it goes to its target, and it may take the capture
  // stream along, which then goes to its own.
  lemma PlaybackBoard(h: Hal, id: UsecaseId, junk: InView) returns (b: Board)
    requires Sound(h.board) && id in h.outs && KindOf(id) == Playback && FromId(h.board.list, id).Some?
    ensures b == if CaptureGoesAlong(h, id) then SelectDevices(h, ID_CAPTURE, junk) else h.board
    ensures |b.cnt| == SND_DEVICE_MAX && |b.list| == |h.board.list|
    ensures SelectDevices(h, id, junk) == Assign(b, FromId(h.board.list, id).value, PlaybackTarget(h, id), NONE)
  {
    CallDevicesAre(h);
    var f := FromType(h.board.list, CAPTURE_OR_CALL);
    if f.Some? {
      ActiveInputIsFirst(h.board.list, f.value);
    }
    if CaptureGoesAlong(h, id) {
      var i: nat :| i < |h.board.list| && IsActiveInput(h.board.list, i) && KindOf(h.board.list[i].id) == Capture;
      ActiveInputIsFirst(h.board.list, i);
    }
    hide GetOutputSndDevice, Assign;
    b := if CaptureGoesAlong(h, id) then SelectDevices(h, ID_CAPTURE, junk) else h.board;
  }

  // The entry at position j after stream id, at position i, was selected.
  function AfterPlayback(h: Hal, id: UsecaseId, i: nat, j: nat): Usecase
    requires i < |h.board.list| && j < |h.board.list| && id in h.outs
  {
    var was, target := h.board.list, PlaybackTarget(h, id);
    if j == i then was[j].(out := target)
    else
      match KindOf(was[j].id)
      case Playback => if target != NONE && was[i].out != target then was[j].(out := target) else was[j]
      case Capture =>
        if CaptureGoesAlong(h, id) then was[j].(inp := CaptureTarget(h, InView(h.capture.source, h.capture.devices)))
        else was[j]
      case VoiceCall => was[j]
  }

  // Main result: a playback stream that is selected goes to its target. The capture stream goes to its own
  // target exactly when it is taken along; otherwise no capture entry moves. A call never moves, and the
  // other playback streams follow when the target is a device and the stream was not on it.
  lemma PlaybackIsRouted(h: Hal, id: UsecaseId, junk: InView, i: nat, j: nat)
    requires Sound(h.board) && id in h.outs && KindOf(id) == Playback && FromId(h.board.list, id) == Some(i)
    requires j < |h.board.list|
    ensures |SelectDevices(h, id, junk).list| == |h.board.list|
    ensures SelectDevices(h, id, junk).list[j] == AfterPlayback(h, id, i, j)
  {
    var b := PlaybackBoard(h, id, junk);
    assert Shaped(h.board.list[i]);
    if CaptureGoesAlong(h, id) {
      AlongBoard(h, junk, id, i, j);
      SelectSound(h, ID_CAPTURE, junk);
    }
    hide SelectDevices, CaptureGoesAlong, CaptureTarget, PlaybackTarget, FromId;
    AssignedPlayback(b, i, PlaybackTarget(h, id), j);
  }

  // The board after the capture stream was taken along.
  lemma AlongBoard(h: Hal, junk: InView, id: UsecaseId, i: nat, j: nat)
    requires Sound(h.board) && CaptureGoesAlong(h, id) && i < |h.board.list| && j < |h.board.list|
    requires KindOf(h.board.list[i].id) == Playback
    ensures var l := SelectDevices(h, ID_CAPTURE, junk).list;
      && |l| == |h.board.list| && l[i] == h.board.list[i]
      && l[j] == if KindOf(h.board.list[j].id) == Capture
                 then h.board.list[j].(inp := CaptureTarget(h, InView(h.capture.source, h.capture.devices)))
                 else h.board.list[j]
  {
    var a: nat :| a < |h.board.list| && IsActiveInput(h.board.list, a) && KindOf(h.board.list[a].id) == Capture;
    OnlyCapture(h.board.list, a);
    CaptureIsRouted(h, junk, a, a, i);
    CaptureIsRouted(h, junk, a, a, j);
  }

  lemma AssignedPlayback(b: Board, i: nat, out: int, j: nat)
    requires |b.cnt| == SND_DEVICE_MAX && UniqueStreams(b.list) && i < |b.list| && j < |b.list|
    requires KindOf(b.list[i].id) == Playback && b.list[i].inp == NONE
    ensures var l := Assign(b, i, out, NONE).list;
      && |l| == |b.list|
      && l[j] == if j == i || (KindOf(b.list[j].id) == Playback && out != NONE && b.list[i].out != out)
                 then b.list[j].(out := out) else b.list[j]
  {
    if out != b.list[i].out {
      AssignList(b, i, out, NONE);
    }
  }

  // There is one capture stream.
  lemma OnlyCapture(list: seq<Usecase>, a: nat)
    requires UniqueStreams(list) && a < |list| && KindOf(list[a].id) == Capture
    ensures FromId(list, ID_CAPTURE) == Some(a)
    ensures forall j :: 0 <= j < |list| && KindOf(list[j].id) == Capture ==> j == a
  {
  }

  // Main result: the first call listed goes to the devices of the primary output, whatever call it is.
  lemma CallIsRouted(h: Hal, junk: InView, v: nat, a: nat)
    requires Sound(h.board) && FromId(h.board.list, ID_VOICE_CALL) == Some(v) && IsActiveInput(h.board.list, a)
    requires h.primary.Some? && h.primary.value in h.outs
    ensures var l, t := SelectDevices(h, ID_VOICE_CALL, junk).list, Tuning(h.mode, h.wideband, h.btWideband);
      var devices := h.outs[h.primary.value].devices;
      && |l| == |h.board.list|
      && l[v].out == GetOutputSndDevice(t, devices)
      && l[v].inp == GetInputSndDevice(t, Some(InputSeen(h, a, junk)), devices)
  {
    ActiveInputIsFirst(h.board.list, a);
    var out := GetOutputSndDevice(Tune(h), PrimaryDevices(h));
    var inp := GetInputSndDevice(Tune(h), Some(InputSeen(h, a, junk)), PrimaryDevices(h));
    hide GetOutputSndDevice, GetInputSndDevice;
    assert SelectDevices(h, ID_VOICE_CALL, junk) == Assign(h.board, v, out, inp);
    AssignFrame(h.board, v, out, inp, v);
  }
}
