/** The audio HAL on values: the streams, the mode, the call and the board, and one step for each entry
    point of audio_hw.c that changes routing. A step is the work done under the device lock. */
module Hal {
  import opened Options
  import opened SndDevices
  import opened Board
  import opened PcmProfiles
  import opened CallSession

  // struct stream_out and struct stream_in, as far as routing reads them.
  datatype Out = Out(devices: Mask, standby: bool)
  datatype In = In(devices: Mask, source: Source, standby: bool)

  // `outs` holds the output stream of each playback use case; there is at most one for an id.
  datatype Hal = Hal(
    board: Board, session: Session,
    mode: Mode, wideband: bool, btWideband: bool,
    outs: map<UsecaseId, Out>, capture: In, primary: Option<UsecaseId>)

  function Tune(h: Hal): Tuning { Tuning(h.mode, h.wideband, h.btWideband) }

  function OutDevices(h: Hal, id: UsecaseId): Mask {
    if id in h.outs then h.outs[id].devices else {}
  }

  function PrimaryDevices(h: Hal): Mask {
    if h.primary.Some? then OutDevices(h, h.primary.value) else {}
  }

  predicate Running(h: Hal, id: UsecaseId) { id in h.outs && !h.outs[id].standby }

  // The stream behind the first capture or voice-call use case. That of a voice call is an output stream
  // read as an input stream: what is read through it is `junk`, any value.
  function ActiveInput(h: Hal, junk: InView): Option<InView> {
    match FromType(h.board.list, CAPTURE_OR_CALL)
    case None => None
    case Some(i) =>
      if KindOf(h.board.list[i].id) == Capture then Some(InView(h.capture.source, h.capture.devices))
      else Some(junk)
  }

  // The devices every other use case follows while a call is up.
  function CallDevices(h: Hal): (int, int) {
    if h.session.inCall && h.mode == InCall then
      match FromId(h.board.list, ID_VOICE_CALL)
      case Some(v) => (h.board.list[v].out, h.board.list[v].inp)
      case None => (NONE, NONE)
    else (NONE, NONE)
  }

  // A primary output that moves takes a running voice-communication capture with it.
  predicate TakesCaptureAlong(h: Hal, id: UsecaseId) {
    && h.primary == Some(id)
    && h.capture.source == SourceVoiceCommunication
    && var i := FromType(h.board.list, CAPTURE_OR_CALL);
       i.Some? && KindOf(h.board.list[i.value].id) == Capture
  }

  function CaptureDevice(h: Hal, junk: InView): int {
    var input := ActiveInput(h, junk);
    var beside :=
      if input.Some? && input.value.source == SourceVoiceCommunication
        && h.primary.Some? && Running(h, h.primary.value)
      then PrimaryDevices(h) else {};
    GetInputSndDevice(Tune(h), input, beside)
  }

  function SelectDevices(h: Hal, id: UsecaseId, junk: InView): (r: Board)
    requires |h.board.cnt| == SND_DEVICE_MAX
    ensures |r.cnt| == SND_DEVICE_MAX && |r.list| == |h.board.list|
    decreases if KindOf(id) == Playback then 1 else 0
  {
    match FromId(h.board.list, id)
    case None => h.board
    case Some(i) =>
      match KindOf(id)
      case VoiceCall =>
        Assign(h.board, i, GetOutputSndDevice(Tune(h), PrimaryDevices(h)),
               GetInputSndDevice(Tune(h), ActiveInput(h, junk), PrimaryDevices(h)))
      case Playback =>
        if CallDevices(h).0 != NONE then Assign(h.board, i, CallDevices(h).0, NONE)
        else
          var b := if TakesCaptureAlong(h, id) then SelectDevices(h, ID_CAPTURE, junk) else h.board;
          Assign(b, i, GetOutputSndDevice(Tune(h), OutDevices(h, id)), NONE)
      case Capture =>
        var inp := if CallDevices(h).1 != NONE then CallDevices(h).1 else CaptureDevice(h, junk);
        Assign(h.board, i, NONE, inp)
  }

  // disable_output_path_l and stop_input_stream: nothing happens when the use case is not listed.
  function StopStream(b: Board, id: UsecaseId): (r: Board)
    requires |b.cnt| == SND_DEVICE_MAX
    ensures |r.cnt| == SND_DEVICE_MAX
  {
    match FromId(b.list, id)
    case None => b
    case Some(i) => Drop(b, i)
  }

  // List the use case, route it, open its device; undo the first two when the open fails.
  function StartStream(h: Hal, id: UsecaseId, card: bool, ready: bool, junk: InView): (r: (Hal, bool))
    requires |h.board.cnt| == SND_DEVICE_MAX
    ensures |r.0.board.cnt| == SND_DEVICE_MAX
    ensures r.0 == h.(board := r.0.board) && r.1 == ready
  {
    var h1 := h.(board := Append(h.board, id, card));
    var b := SelectDevices(h1, id, junk);
    if ready then (h.(board := b), true) else (h.(board := StopStream(b, id)), false)
  }

  // A stream whose devices no profile serves has no PCM device to open.
  function StartOutput(h: Hal, id: UsecaseId, ready: bool, junk: InView): (r: (Hal, bool))
    requires |h.board.cnt| == SND_DEVICE_MAX
    ensures |r.0.board.cnt| == SND_DEVICE_MAX
    ensures r.0 == h.(board := r.0.board)
  {
    var served := Served(Playback, OutDevices(h, id));
    StartStream(h, id, served, ready || !served, junk)
  }

  function StartInput(h: Hal, ready: bool, junk: InView): (r: (Hal, bool))
    requires |h.board.cnt| == SND_DEVICE_MAX
    ensures |r.0.board.cnt| == SND_DEVICE_MAX
    ensures r.0 == h.(board := r.0.board)
  {
    if !Served(Capture, h.capture.devices) then (h, false)
    else StartStream(h, ID_CAPTURE, true, ready, junk)
  }

  function OutStandby(h: Hal, id: UsecaseId): (r: Hal)
    requires |h.board.cnt| == SND_DEVICE_MAX
    ensures |r.board.cnt| == SND_DEVICE_MAX
    ensures r.outs.Keys == h.outs.Keys
    ensures r == h.(board := r.board, outs := r.outs)
  {
    if !Running(h, id) then h
    else h.(outs := h.outs[id := h.outs[id].(standby := true)], board := StopStream(h.board, id))
  }

  function InStandby(h: Hal): (r: Hal)
    requires |h.board.cnt| == SND_DEVICE_MAX
    ensures |r.board.cnt| == SND_DEVICE_MAX
    ensures r.outs.Keys == h.outs.Keys
    ensures r == h.(board := r.board, capture := r.capture)
  {
    if h.capture.standby then h
    else h.(capture := h.capture.(standby := true), board := StopStream(h.board, ID_CAPTURE))
  }

  // out_write: `ready` is the outcome of pcm_open, `written` that of pcm_write.
  function OutWrite(h: Hal, id: UsecaseId, ready: bool, written: bool, junk: InView): (r: Hal)
    requires |h.board.cnt| == SND_DEVICE_MAX
    ensures |r.board.cnt| == SND_DEVICE_MAX
    ensures r.outs.Keys == h.outs.Keys
    ensures r == h.(board := r.board, outs := r.outs)
  {
    if id !in h.outs then h
    else
      var (h1, started) := if Running(h, id) then (h, true) else StartOutput(h, id, ready, junk);
      if !started then OutStandby(h1, id)
      else
        var h2 := h1.(outs := h1.outs[id := h1.outs[id].(standby := false)]);
        if written then h2 else OutStandby(h2, id)
  }

  // in_read: `ready` is the outcome of pcm_open, `got` that of pcm_read.
  function InRead(h: Hal, ready: bool, got: bool, junk: InView): (r: Hal)
    requires |h.board.cnt| == SND_DEVICE_MAX
    ensures |r.board.cnt| == SND_DEVICE_MAX
    ensures r.outs.Keys == h.outs.Keys
    ensures r == h.(board := r.board, capture := r.capture)
  {
    var (h1, started) := if h.capture.standby then StartInput(h, ready, junk) else (h, true);
    if !started then InStandby(h1)
    else
      var h2 := h1.(capture := h1.capture.(standby := false));
      if got then h2 else InStandby(h2)
  }

  // in_set_parameters. A running capture stops when the new devices share nothing with its profile.
  function InSetParameters(h: Hal, source: Option<Source>, devices: Option<Mask>, junk: InView): (r: Hal)
    requires |h.board.cnt| == SND_DEVICE_MAX
    ensures |r.board.cnt| == SND_DEVICE_MAX
    ensures r.outs.Keys == h.outs.Keys
    ensures r == h.(board := r.board, capture := r.capture)
  {
    var h1 :=
      if source.Some? && source.value != SourceDefault
      then h.(capture := h.capture.(source := source.value)) else h;
    if devices.None? || devices.value == h1.capture.devices || devices.value == {} then h1
    else
      var h2 := h1.(capture := h1.capture.(devices := devices.value));
      if h2.capture.standby then h2
      else if FromId(h2.board.list, ID_CAPTURE).Some? && !CaptureProfileShares(devices.value) then InStandby(h2)
      else h2.(board := SelectDevices(h2, ID_CAPTURE, junk))
  }

  // A running capture stream is always on the one capture profile.
  predicate CaptureProfileShares(devices: Mask) {
    PcmDevices(CAPTURE_PERIOD_SIZE)[1].devices * devices - {BIT_IN} != {}
  }

  function StartCall(h: Hal, r: Ready, junk: InView): (t: Hal)
    requires |h.board.cnt| == SND_DEVICE_MAX
    ensures |t.board.cnt| == SND_DEVICE_MAX
    ensures t.outs.Keys == h.outs.Keys
    ensures t == h.(board := t.board, session := t.session)
  {
    var h1 := h.(board := Append(h.board, ID_VOICE_CALL, true));
    h.(board := SelectDevices(h1, ID_VOICE_CALL, junk),
       session := StartVoice(h.session, PrimaryDevices(h) * OUT_ALL_SCO != {}, r))
  }

  function StopCall(h: Hal): (t: Hal)
    requires |h.board.cnt| == SND_DEVICE_MAX
    ensures |t.board.cnt| == SND_DEVICE_MAX
    ensures t.outs.Keys == h.outs.Keys
    ensures t == h.(board := t.board, session := t.session)
  {
    h.(board := StopStream(h.board, ID_VOICE_CALL),
       session := StopVoice(h.session, FromId(h.board.list, ID_VOICE_CALL).Some?))
  }

  // The outcomes one call to out_set_parameters may meet: two for the SCO leg outside a call, four for
  // the call, and what each of its two routings reads through a voice call's stream.
  datatype Luck = Luck(scoTx: bool, scoRx: bool, call: Ready, junk1: InView, junk2: InView)

  function SetScoLeg(h: Hal, devices: Mask, luck: Luck): Session {
    if h.mode == InCommunication && devices * OUT_ALL_SCO != {} && !h.session.inCallSco && !h.session.inCommSco
    then StartSco(h.session.(inCommSco := true), luck.scoTx, luck.scoRx)
    else if devices * OUT_ALL_SCO == {} && h.session.inCallSco then StopSco(h.session.(inCommSco := false))
    else h.session
  }

  // A running stream whose devices change stops, and the next write starts it on the new ones.
  function Reroute(h: Hal, id: UsecaseId, changed: bool, junk: InView): (r: Hal)
    requires |h.board.cnt| == SND_DEVICE_MAX
    ensures |r.board.cnt| == SND_DEVICE_MAX
    ensures r.outs.Keys == h.outs.Keys
    ensures r == h.(board := r.board, outs := r.outs)
  {
    if !Running(h, id) then h
    else if changed then OutStandby(h, id)
    else h.(board := SelectDevices(h, id, junk))
  }

  // out_set_parameters with a routing value.
  function OutSetParameters(h: Hal, id: UsecaseId, devices: Mask, luck: Luck): (r: Hal)
    requires |h.board.cnt| == SND_DEVICE_MAX
    ensures |r.board.cnt| == SND_DEVICE_MAX
    ensures r.outs.Keys == h.outs.Keys
    ensures r == h.(board := r.board, session := r.session, outs := r.outs)
  {
    if id !in h.outs || devices == {} then h
    else
      var changed := h.outs[id].devices != devices;
      var h1 := h.(outs := h.outs[id := h.outs[id].(devices := devices)]);
      var h2 := Reroute(h1, id, changed, luck.junk1);
      UpdateCall(h2.(session := SetScoLeg(h2, devices, luck)), id, changed, luck)
  }

  function UpdateCall(h: Hal, id: UsecaseId, changed: bool, luck: Luck): (r: Hal)
    requires |h.board.cnt| == SND_DEVICE_MAX
    ensures |r.board.cnt| == SND_DEVICE_MAX
    ensures r.outs.Keys == h.outs.Keys
    ensures r == h.(board := r.board, session := r.session)
  {
    if h.mode == InCall && !h.session.inCall && h.primary == Some(id) then StartCall(h, luck.call, luck.junk2)
    else if h.mode == InCall && changed && h.session.inCall && h.primary == Some(id) then
      StartCall(StopCall(h), luck.call, luck.junk2)
    else h
  }

  // When out_set_parameters starts a call, or starts it again.
  predicate StartsAgain(h: Hal, id: UsecaseId, changed: bool) {
    h.mode == InCall && h.primary == Some(id) && (!h.session.inCall || changed)
  }

  predicate StartsCall(h: Hal, id: UsecaseId, devices: Mask) {
    id in h.outs && devices != {} && StartsAgain(h, id, h.outs[id].devices != devices)
  }

  function SetMode(h: Hal, mode: Mode): (r: Hal)
    requires |h.board.cnt| == SND_DEVICE_MAX
    ensures |r.board.cnt| == SND_DEVICE_MAX
    ensures r.outs.Keys == h.outs.Keys
    ensures r == h.(board := r.board, session := r.session, mode := mode)
  {
    var h1 := h.(mode := mode);
    if mode == Normal && h.session.inCall then StopCall(h1) else h1
  }

  /* ---- Runs ---- */

  datatype Op =
    | OpOutWrite(id: UsecaseId, ready: bool, written: bool, junk: InView)
    | OpOutStandby(id: UsecaseId)
    | OpOutSetParameters(id: UsecaseId, devices: Mask, luck: Luck)
    | OpInRead(ready: bool, got: bool, junk: InView)
    | OpInStandby
    | OpInSetParameters(source: Option<Source>, inDevices: Option<Mask>, junk: InView)
    | OpSetMode(mode: Mode)
    | OpSetBand(wideband: bool, btWideband: bool)

  function Step(h: Hal, op: Op): (r: Hal)
    requires |h.board.cnt| == SND_DEVICE_MAX
    ensures |r.board.cnt| == SND_DEVICE_MAX
  {
    match op
    case OpOutWrite(id, ready, written, junk) => OutWrite(h, id, ready, written, junk)
    case OpOutStandby(id) => OutStandby(h, id)
    case OpOutSetParameters(id, devices, luck) => OutSetParameters(h, id, devices, luck)
    case OpInRead(ready, got, junk) => InRead(h, ready, got, junk)
    case OpInStandby => InStandby(h)
    case OpInSetParameters(source, devices, junk) => InSetParameters(h, source, devices, junk)
    case OpSetMode(mode) => SetMode(h, mode)
    case OpSetBand(wideband, btWideband) => h.(wideband := wideband, btWideband := btWideband)
  }

  function Run(h: Hal, ops: seq<Op>): (r: Hal)
    requires |h.board.cnt| == SND_DEVICE_MAX
    ensures |r.board.cnt| == SND_DEVICE_MAX
    decreases |ops|
  {
    if ops == [] then h else Run(Step(h, ops[0]), ops[1..])
  }

  // adev_open, with every stream opened and still in standby.
  predicate Fresh(h: Hal) {
    && h.board == Board(seq(SND_DEVICE_MAX, _ => 0), [], [])
    && h.session == Session(false, false, false, map[], 0, [])
    && h.mode == Normal
    && h.capture.standby
    && (forall id :: id in h.outs ==> KindOf(id) == Playback && h.outs[id].standby)
    && (h.primary.Some? ==> h.primary.value in h.outs)
  }
}
