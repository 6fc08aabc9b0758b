/** struct audio_device of audio_hw.c with its methods, updated in place and proved step by step against
    the functions on values. */
module AudioDevice {
  import opened Options
  import opened SndDevices
  import opened Board
  import opened BoardProperties
  import opened PcmProfiles
  import opened CallSession
  import opened HalProperties
  import H = Hal

  class AudioUsecase {
    const id: UsecaseId
    const card: bool
    var outSndDevice: int
    var inSndDevice: int

    ghost function Value(): Usecase
      reads this
    {
      Usecase(id, outSndDevice, inSndDevice, card)
    }

    constructor (id: UsecaseId, card: bool)
      ensures Value() == Usecase(id, NONE, NONE, card)
    {
      this.id, this.card := id, card;
      outSndDevice, inSndDevice := NONE, NONE;
    }

    method GetDevice(kind: Kind) returns (d: int)
      ensures d == DeviceOf(Value(), kind)
    {
      d := if kind == Playback then outSndDevice else inSndDevice;
    }

    method SetDevice(kind: Kind, d: int)
      modifies this
      ensures Value() == WithDevice(old(Value()), kind, d)
    {
      if kind == Playback {
        outSndDevice := d;
      } else {
        inSndDevice := d;
      }
    }
  }

  class StreamOut {
    const usecase: UsecaseId
    var devices: Mask
    var standby: bool

    ghost function Value(): H.Out
      reads this
    {
      H.Out(devices, standby)
    }

    constructor (usecase: UsecaseId, devices: Mask)
      ensures this.usecase == usecase && this.devices == devices && standby
    {
      this.usecase, this.devices, standby := usecase, devices, true;
    }
  }

  class StreamIn {
    var devices: Mask
    var source: Source
    var standby: bool

    ghost function Value(): H.In
      reads this
    {
      H.In(devices, source, standby)
    }

    constructor (devices: Mask, source: Source)
      ensures this.devices == devices && this.source == source && standby
    {
      this.devices, this.source, standby := devices, source, true;
    }
  }

  ghost function Values(list: seq<AudioUsecase>): (r: seq<Usecase>)
    reads list
    ensures |r| == |list| && forall i :: 0 <= i < |list| ==> r[i] == list[i].Value()
  {
    seq(|list|, i requires 0 <= i < |list| reads list => list[i].Value())
  }

  predicate Distinct<T(==)>(s: seq<T>) {
    forall i, j :: 0 <= i < j < |s| ==> s[i] != s[j]
  }

  class AudioDevice {
    var mode: Mode
    var wideband: bool
    var btWideband: bool
    var usecaseList: seq<AudioUsecase>
    const sndDevRefCnt: array<int>
    const outs: map<UsecaseId, StreamOut>
    const capture: StreamIn
    const primaryOutput: StreamOut?

    var inCall: bool
    var inCallSco: bool
    var inCommSco: bool
    var pcms: map<Slot, nat>

    // What the mixer and the kernel have seen.
    ghost var mixerLog: seq<MixerEvent>
    ghost var pcmLog: seq<PcmEvent>
    var issued: nat

    ghost predicate Valid()
      reads `usecaseList
    {
      && sndDevRefCnt.Length == SND_DEVICE_MAX
      && Distinct(usecaseList)
      && (forall id :: id in outs ==> outs[id].usecase == id)
      && (primaryOutput != null ==> primaryOutput.usecase in outs && outs[primaryOutput.usecase] == primaryOutput)
    }

    ghost function BoardValue(): Board
      reads `usecaseList, `mixerLog, sndDevRefCnt, usecaseList
    {
      Board(sndDevRefCnt[..], Values(usecaseList), mixerLog)
    }

    ghost function SessionValue(): Session
      reads `inCall, `inCallSco, `inCommSco, `pcms, `issued, `pcmLog
    {
      Session(inCall, inCallSco, inCommSco, pcms, issued, pcmLog)
    }

    ghost function OutsValue(): map<UsecaseId, H.Out>
      reads outs.Values
    {
      map id | id in outs :: outs[id].Value()
    }

    ghost function Value(): H.Hal
      reads this, sndDevRefCnt, usecaseList, outs.Values, capture
    {
      H.Hal(BoardValue(), SessionValue(), mode, wideband, btWideband, OutsValue(), capture.Value(), PrimaryId())
    }

    ghost function PrimaryId(): Option<UsecaseId> {
      if primaryOutput == null then None else Some(primaryOutput.usecase)
    }

    constructor (outs: map<UsecaseId, StreamOut>, capture: StreamIn, primaryOutput: StreamOut?)
      requires forall id :: id in outs ==> outs[id].usecase == id && KindOf(id) == Playback && outs[id].standby
      requires capture.standby
      requires primaryOutput != null ==> primaryOutput.usecase in outs && outs[primaryOutput.usecase] == primaryOutput
      ensures Valid() && H.Fresh(Value()) && fresh(sndDevRefCnt)
    {
      mode, wideband, btWideband := Normal, false, false;
      usecaseList, mixerLog := [], [];
      sndDevRefCnt := new int[SND_DEVICE_MAX](_ => 0);
      this.outs, this.capture, this.primaryOutput := outs, capture, primaryOutput;
      inCall, inCallSco, inCommSco := false, false, false;
      pcms, issued, pcmLog := map[], 0, [];
      new;
      assert sndDevRefCnt[..] == seq(SND_DEVICE_MAX, _ => 0);
    }

    /* ---- Lookups ---- */

    method GetUsecaseFromId(id: UsecaseId) returns (r: AudioUsecase?, ghost at: nat)
      ensures r == null ==> FromId(Values(usecaseList), id).None?
      ensures r != null ==> at < |usecaseList| && usecaseList[at] == r && FromId(Values(usecaseList), id) == Some(at)
    {
      var i := 0;
      at := 0;
      while i < |usecaseList|
        invariant 0 <= i <= |usecaseList|
        invariant forall j :: 0 <= j < i ==> usecaseList[j].id != id
      {
        if usecaseList[i].id == id {
          return usecaseList[i], i;
        }
        i := i + 1;
      }
      r := null;
    }

    method GetUsecaseFromType(mask: bv2) returns (r: AudioUsecase?, ghost at: nat)
      ensures r == null ==> FromType(Values(usecaseList), mask).None?
      ensures r != null ==> at < |usecaseList| && usecaseList[at] == r && FromType(Values(usecaseList), mask) == Some(at)
    {
      var i := 0;
      at := 0;
      while i < |usecaseList|
        invariant 0 <= i <= |usecaseList|
        invariant forall j :: 0 <= j < i ==> !Selects(mask, Values(usecaseList)[j])
      {
        assert Values(usecaseList)[i] == usecaseList[i].Value();
        if TypeBits(KindOf(usecaseList[i].id)) & mask != 0 {
          return usecaseList[i], i;
        }
        i := i + 1;
      }
      r := null;
    }

    /* ---- Devices ---- */

    method EnableSndDevice(u: AudioUsecase, d: int) returns (ok: bool)
      requires Valid()
      modifies sndDevRefCnt, `mixerLog
      ensures ok == Named(d)
      ensures BoardValue() == Enable(old(BoardValue()), u.card, d)
    {
      if !Named(d) {
        return false;
      }
      sndDevRefCnt[d] := sndDevRefCnt[d] + 1;
      if sndDevRefCnt[d] > 1 {
        return true;
      }
      if u.card {
        mixerLog := mixerLog + [Apply(d)];
      }
      ok := true;
    }

    // The lookup for PCM_PLAYBACK finds nothing, so no rx device is ever cycled here.
    method DisableSndDevice(u: AudioUsecase, d: int) returns (ok: bool)
      requires Valid()
      modifies sndDevRefCnt, `mixerLog
      ensures ok == (Named(d) && old(BoardValue()).cnt[d] > 0)
      ensures BoardValue() == Disable(old(BoardValue()), u.card, d)
    {
      var outUsecase, at := GetUsecaseFromType(TypeBits(Playback));
      PlaybackLookupFindsNothing(Values(usecaseList));
      assert outUsecase == null;
      if !Named(d) || sndDevRefCnt[d] <= 0 {
        return false;
      }
      sndDevRefCnt[d] := sndDevRefCnt[d] - 1;
      if sndDevRefCnt[d] == 0 {
        if u.card {
          mixerLog := mixerLog + [Reset(d)];
        }
      }
      ok := true;
    }

    // First pass of check_and_route_usecases.
    method MarkMisplaced(uc: AudioUsecase, ghost at: nat, kind: Kind, d: int, switchDevice: array<bool>)
      returns (needSwitch: bool)
      requires Valid() && at < |usecaseList| && usecaseList[at] == uc
      requires switchDevice.Length == USECASE_MAX && forall id: UsecaseId :: !switchDevice[id]
      modifies switchDevice
      ensures var ids := Marked(Values(usecaseList), |usecaseList|, at, kind, d);
        && (forall id: UsecaseId :: switchDevice[id] <==> id in ids)
        && (needSwitch <==> ids != {})
    {
      ghost var list := Values(usecaseList);
      ghost var ids: set<UsecaseId> := {};
      needSwitch := false;
      MarkedNone(list, at, kind, d);
      hide Marked;
      var i := 0;
      while i < |usecaseList|
        invariant 0 <= i <= |usecaseList|
        invariant ids == Marked(list, i, at, kind, d)
        invariant forall id: UsecaseId :: switchDevice[id] <==> id in ids
        invariant needSwitch <==> ids != {}
      {
        var u := usecaseList[i];
        var current := u.GetDevice(kind);
        MarkedStep(list, i, at, kind, d);
        ids := ids + (if Misplaced(list, i, at, kind, d) then {list[i].id} else {});
        assert Misplaced(list, i, at, kind, d) <==> KindOf(u.id) == kind && u != uc && current != d;
        if KindOf(u.id) == kind && u != uc && current != d {
          switchDevice[u.id] := true;
          needSwitch := true;
        }
        i := i + 1;
      }
    }

    method MoveUsecase(i: nat, kind: Kind, d: int)
      requires Valid() && i < |usecaseList|
      modifies sndDevRefCnt, usecaseList, `mixerLog
      ensures BoardValue() == Move(old(BoardValue()), i, kind, d)
    {
      var u := usecaseList[i];
      ghost var list := Values(usecaseList);
      var current := u.GetDevice(kind);
      var disabled := DisableSndDevice(u, current);
      var enabled := EnableSndDevice(u, d);
      u.SetDevice(kind, d);
      assert Values(usecaseList) == list[i := WithDevice(list[i], kind, d)];
    }

    // Second pass.
    method MoveMarkedUsecases(switchDevice: array<bool>, ghost ids: set<UsecaseId>, kind: Kind, d: int)
      requires Valid() && switchDevice.Length == USECASE_MAX && forall id: UsecaseId :: switchDevice[id] <==> id in ids
      modifies sndDevRefCnt, usecaseList, `mixerLog
      ensures BoardValue() == MoveMarked(old(BoardValue()), 0, ids, kind, d)
    {
      ghost var b0 := BoardValue();
      ghost var switched := switchDevice[..];
      var i := 0;
      while i < |usecaseList|
        invariant 0 <= i <= |usecaseList| && switchDevice[..] == switched
        invariant MoveMarked(BoardValue(), i, ids, kind, d) == MoveMarked(b0, 0, ids, kind, d)
      {
        var u := usecaseList[i];
        assert Values(usecaseList)[i].id == u.id;
        assert switchDevice[u.id] == switched[u.id];
        if switchDevice[u.id] {
          MoveUsecase(i, kind, d);
        }
        i := i + 1;
      }
    }

    method CheckAndRouteUsecases(uc: AudioUsecase, ghost at: nat, kind: Kind, d: int)
      requires Valid() && at < |usecaseList| && usecaseList[at] == uc
      modifies sndDevRefCnt, usecaseList, `mixerLog
      ensures BoardValue() == CheckAndRoute(old(BoardValue()), at, kind, d)
    {
      hide Marked, MoveMarked, Misplaced;
      ghost var ids := Marked(Values(usecaseList), |usecaseList|, at, kind, d);
      var switchDevice := new bool[USECASE_MAX](_ => false);
      var needSwitch := MarkMisplaced(uc, at, kind, d, switchDevice);
      if needSwitch {
        MoveMarkedUsecases(switchDevice, ids, kind, d);
      } else {
        MoveMarkedNone(BoardValue(), 0, ids, kind, d);
      }
    }

    method ReleaseDevices(uc: AudioUsecase, ghost at: nat)
      requires Valid() && at < |usecaseList| && usecaseList[at] == uc
      modifies sndDevRefCnt, `mixerLog
      ensures var b := old(BoardValue());
        BoardValue() == DisableIfSet(DisableIfSet(b, uc.card, b.list[at].out), uc.card, b.list[at].inp)
    {
      var ok: bool;
      if uc.outSndDevice != NONE {
        ok := DisableSndDevice(uc, uc.outSndDevice);
      }
      if uc.inSndDevice != NONE {
        ok := DisableSndDevice(uc, uc.inSndDevice);
      }
    }

    method SetDevices(uc: AudioUsecase, ghost at: nat, out: int, inp: int)
      requires Valid() && at < |usecaseList| && usecaseList[at] == uc
      modifies uc
      ensures var b := old(BoardValue());
        BoardValue() == b.(list := b.list[at := b.list[at].(out := out, inp := inp)])
    {
      ghost var list := Values(usecaseList);
      uc.inSndDevice := inp;
      uc.outSndDevice := out;
      assert Values(usecaseList) == list[at := list[at].(out := out, inp := inp)];
    }

    // select_devices from the point where the new pair is known.
    method AssignDevices(uc: AudioUsecase, ghost at: nat, out: int, inp: int)
      requires Valid() && at < |usecaseList| && usecaseList[at] == uc
      modifies sndDevRefCnt, usecaseList, `mixerLog
      ensures BoardValue() == Assign(old(BoardValue()), at, out, inp)
    {
      assert Values(usecaseList)[at] == uc.Value();
      if out == uc.outSndDevice && inp == uc.inSndDevice {
        return;
      }
      ReleaseDevices(uc, at);
      RouteAndEnableDevice(uc, at, Playback, out);
      RouteAndEnableDevice(uc, at, Capture, inp);
      SetDevices(uc, at, out, inp);
    }

    method RouteAndEnableDevice(uc: AudioUsecase, ghost at: nat, kind: Kind, d: int)
      requires Valid() && at < |usecaseList| && usecaseList[at] == uc
      modifies sndDevRefCnt, usecaseList, `mixerLog
      ensures BoardValue() == RouteAndEnable(old(BoardValue()), at, kind, d)
    {
      if d != NONE {
        assert Values(usecaseList)[at].card == uc.card;
        CheckAndRouteUsecases(uc, at, kind, d);
        var ok := EnableSndDevice(uc, d);
      }
    }

    function Tuned(): Tuning
      reads `mode, `wideband, `btWideband
    {
      Tuning(mode, wideband, btWideband)
    }

    // The stream pointer of the first capture or voice-call use case. A voice call's is an output stream
    // read as an input stream: what is read through it is `junk`.
    method FindActiveInput(junk: InView) returns (input: Option<InView>, genuine: bool)
      ensures input == H.ActiveInput(Value(), junk)
      ensures genuine <==> input.Some? && KindOf(BoardValue().list[FromType(BoardValue().list, CAPTURE_OR_CALL).value].id) == Capture
    {
      var u, at := GetUsecaseFromType(CAPTURE_OR_CALL);
      genuine := u != null && KindOf(u.id) == Capture;
      input := if u == null then None
               else if genuine then Some(InView(capture.source, capture.devices))
               else Some(junk);
    }

    method FindCallDevices() returns (out: int, inp: int)
      ensures (out, inp) == H.CallDevices(Value())
    {
      out, inp := NONE, NONE;
      if inCall && mode == InCall {
        var vc, at := GetUsecaseFromId(ID_VOICE_CALL);
        if vc != null {
          out, inp := vc.outSndDevice, vc.inSndDevice;
        }
      }
    }

    method SelectCaptureDevice(junk: InView) returns (d: int)
      requires Valid()
      ensures d == H.CaptureDevice(Value(), junk)
    {
      var input, genuine := FindActiveInput(junk);
      if input.Some? && input.value.source == SourceVoiceCommunication
        && primaryOutput != null && !primaryOutput.standby {
        d := GetInputSndDevice(Tuned(), input, primaryOutput.devices);
      } else {
        d := GetInputSndDevice(Tuned(), input, {});
      }
    }

    method SelectForCall(uc: AudioUsecase, ghost at: nat, junk: InView)
      requires Valid() && FromId(BoardValue().list, ID_VOICE_CALL) == Some(at) && usecaseList[at] == uc
      modifies sndDevRefCnt, usecaseList, `mixerLog
      ensures BoardValue() == H.SelectDevices(old(Value()), ID_VOICE_CALL, junk)
    {
      var input, genuine := FindActiveInput(junk);
      var devices := if primaryOutput == null then {} else primaryOutput.devices;
      AssignDevices(uc, at, GetOutputSndDevice(Tuned(), devices), GetInputSndDevice(Tuned(), input, devices));
    }

    method ChooseInput(junk: InView) returns (inp: int)
      requires Valid()
      ensures inp == if H.CallDevices(Value()).1 != NONE then H.CallDevices(Value()).1
                     else H.CaptureDevice(Value(), junk)
    {
      var out;
      out, inp := FindCallDevices();
      if inp == NONE {
        inp := SelectCaptureDevice(junk);
      }
    }

    method SelectForCapture(uc: AudioUsecase, ghost at: nat, junk: InView)
      requires Valid() && FromId(BoardValue().list, ID_CAPTURE) == Some(at) && usecaseList[at] == uc
      modifies sndDevRefCnt, usecaseList, `mixerLog
      ensures BoardValue() == H.SelectDevices(old(Value()), ID_CAPTURE, junk)
    {
      var inp := ChooseInput(junk);
      AssignDevices(uc, at, NONE, inp);
    }

    // A playback stream outside a call; the primary output may take the capture stream along.
    method ChooseOutput(id: UsecaseId, junk: InView) returns (out: int)
      requires Valid() && KindOf(id) == Playback
      modifies sndDevRefCnt, usecaseList, `mixerLog
      ensures out == GetOutputSndDevice(old(Tuned()), old(H.OutDevices(Value(), id)))
      ensures BoardValue() == if old(H.TakesCaptureAlong(Value(), id)) then H.SelectDevices(old(Value()), ID_CAPTURE, junk)
                              else old(BoardValue())
      decreases 1, 0
    {
      var input, genuine := FindActiveInput(junk);
      out := GetOutputSndDevice(Tuned(), if id in outs then outs[id].devices else {});
      if primaryOutput != null && primaryOutput.usecase == id && genuine && capture.source == SourceVoiceCommunication {
        var taken := SelectDevices(ID_CAPTURE, junk);
      }
    }

    method SelectForPlayback(uc: AudioUsecase, ghost at: nat, id: UsecaseId, junk: InView)
      requires Valid() && KindOf(id) == Playback && FromId(BoardValue().list, id) == Some(at) && usecaseList[at] == uc
      modifies sndDevRefCnt, usecaseList, `mixerLog
      ensures BoardValue() == H.SelectDevices(old(Value()), id, junk)
      decreases 1, 1
    {
      var out, inp := FindCallDevices();
      if out == NONE {
        out := ChooseOutput(id, junk);
      }
      AssignDevices(uc, at, out, NONE);
    }

    method SelectDevices(id: UsecaseId, junk: InView) returns (ok: bool)
      requires Valid()
      modifies sndDevRefCnt, usecaseList, `mixerLog
      ensures ok == FromId(old(BoardValue()).list, id).Some?
      ensures BoardValue() == H.SelectDevices(old(Value()), id, junk)
      decreases if KindOf(id) == Playback then 1 else 0, 2
    {
      var uc, at := GetUsecaseFromId(id);
      if uc == null {
        return false;
      }
      match KindOf(id) {
        case VoiceCall => SelectForCall(uc, at, junk);
        case Playback => SelectForPlayback(uc, at, id, junk);
        case Capture => SelectForCapture(uc, at, junk);
      }
      ok := true;
    }

    /* ---- Starting and stopping streams ---- */

    method ListUsecase(id: UsecaseId, card: bool) returns (u: AudioUsecase)
      requires Valid()
      modifies `usecaseList
      ensures Valid() && BoardValue() == Append(old(BoardValue()), id, card)
      ensures fresh(u) && usecaseList == old(usecaseList) + [u]
    {
      u := new AudioUsecase(id, card);
      ghost var list := Values(usecaseList);
      usecaseList := usecaseList + [u];
      assert Values(usecaseList) == list + [u.Value()];
    }

    method UnlistUsecase(uc: AudioUsecase, ghost at: nat)
      requires Valid() && at < |usecaseList| && usecaseList[at] == uc
      modifies `usecaseList
      ensures Valid() && BoardValue() == Remove(old(BoardValue()), at)
      ensures forall i :: 0 <= i < |usecaseList| ==> usecaseList[i] in old(usecaseList)
    {
      var i := 0;
      while usecaseList[i] != uc
        invariant 0 <= i <= at
        decreases at - i
      {
        i := i + 1;
      }
      ghost var list := Values(usecaseList);
      usecaseList := usecaseList[..i] + usecaseList[i + 1..];
      assert Values(usecaseList) == list[..i] + list[i + 1..];
    }

    // disable_output_path_l, stop_input_stream and the tail of stop_voice_call.
    method DropUsecase(id: UsecaseId) returns (ok: bool)
      requires Valid()
      modifies sndDevRefCnt, `usecaseList, `mixerLog
      ensures Valid() && ok == FromId(old(BoardValue()).list, id).Some?
      ensures BoardValue() == H.StopStream(old(BoardValue()), id)
      ensures forall i :: 0 <= i < |usecaseList| ==> usecaseList[i] in old(usecaseList)
    {
      var uc, at := GetUsecaseFromId(id);
      if uc == null {
        return false;
      }
      assert Values(usecaseList)[at] == uc.Value();
      if KindOf(id) != Capture {
        ok := DisableSndDevice(uc, uc.outSndDevice);
      }
      if KindOf(id) != Playback {
        ok := DisableSndDevice(uc, uc.inSndDevice);
      }
      UnlistUsecase(uc, at);
      ok := true;
    }

    method ListAndSelect(id: UsecaseId, card: bool, junk: InView)
      requires Valid()
      modifies sndDevRefCnt, usecaseList, `usecaseList, `mixerLog
      ensures Valid()
      ensures BoardValue() == H.SelectDevices(old(Value()).(board := Append(old(BoardValue()), id, card)), id, junk)
      ensures |usecaseList| == |old(usecaseList)| + 1 && usecaseList[..|old(usecaseList)|] == old(usecaseList)
      ensures fresh(usecaseList[|old(usecaseList)|])
    {
      var u := ListUsecase(id, card);
      var ok := SelectDevices(id, junk);
    }

    method StartStream(id: UsecaseId, card: bool, ready: bool, junk: InView)
      requires Valid()
      modifies sndDevRefCnt, usecaseList, `usecaseList, `mixerLog
      ensures Valid() && BoardValue() == H.StartStream(old(Value()), id, card, ready, junk).0.board
      ensures forall i :: 0 <= i < |usecaseList| ==> usecaseList[i] in old(usecaseList) || fresh(usecaseList[i])
    {
      ListAndSelect(id, card, junk);
      if !ready {
        var ok := DropUsecase(id);
      }
    }

    method StartOutputStream(out: StreamOut, ready: bool, junk: InView) returns (started: bool)
      requires Valid() && out.usecase in outs && outs[out.usecase] == out
      modifies sndDevRefCnt, usecaseList, `usecaseList, `mixerLog
      ensures Valid()
      ensures var g := H.StartOutput(old(Value()), out.usecase, ready, junk); BoardValue() == g.0.board && started == g.1
      ensures forall i :: 0 <= i < |usecaseList| ==> usecaseList[i] in old(usecaseList) || fresh(usecaseList[i])
    {
      hide H.StartStream;
      var served := Served(Playback, out.devices);
      started := ready || !served;
      StartStream(out.usecase, served, started, junk);
    }

    method StartInputStream(ready: bool, junk: InView) returns (started: bool)
      requires Valid()
      modifies sndDevRefCnt, usecaseList, `usecaseList, `mixerLog
      ensures Valid()
      ensures var g := H.StartInput(old(Value()), ready, junk); BoardValue() == g.0.board && started == g.1
      ensures forall i :: 0 <= i < |usecaseList| ==> usecaseList[i] in old(usecaseList) || fresh(usecaseList[i])
    {
      hide H.StartStream;
      if !Served(Capture, capture.devices) {
        return false;
      }
      StartStream(ID_CAPTURE, true, ready, junk);
      started := ready;
    }

    method SetOut(out: StreamOut, devices: Mask, standby: bool)
      requires Valid() && out.usecase in outs && outs[out.usecase] == out
      modifies out
      ensures out.devices == devices && out.standby == standby
      ensures OutsValue() == old(OutsValue())[out.usecase := H.Out(devices, standby)]
    {
      out.devices, out.standby := devices, standby;
    }

    method OutStandby(out: StreamOut)
      requires Valid() && out.usecase in outs && outs[out.usecase] == out
      modifies sndDevRefCnt, `usecaseList, `mixerLog, out
      ensures Valid()
      ensures Value() == H.OutStandby(old(Value()), out.usecase)
      ensures old(Invariant(Value())) ==> Invariant(Value())
    {
      ghost var was := Value();
      DoOutStandby(out);
      hide H.OutStandby, Invariant;
      assert Value() == H.OutStandby(was, out.usecase);
      if Invariant(was) {
        OutStandbyInvariant(was, out.usecase);
      }
    }

    // do_out_standby_l.
    method DoOutStandby(out: StreamOut)
      requires Valid() && out.usecase in outs && outs[out.usecase] == out
      modifies sndDevRefCnt, `usecaseList, `mixerLog, out
      ensures Valid()
      ensures var g := H.OutStandby(old(Value()), out.usecase); BoardValue() == g.board && OutsValue() == g.outs
      ensures forall i :: 0 <= i < |usecaseList| ==> usecaseList[i] in old(usecaseList)
    {
      hide H.StopStream;
      if !out.standby {
        ghost var h := Value();
        SetOut(out, out.devices, true);
        assert BoardValue() == h.board && OutsValue() == h.outs[out.usecase := h.outs[out.usecase].(standby := true)];
        var ok := DropUsecase(out.usecase);
      }
    }

    method InStandby()
      requires Valid()
      modifies sndDevRefCnt, `usecaseList, `mixerLog, capture
      ensures Valid()
      ensures Value() == H.InStandby(old(Value()))
      ensures old(Invariant(Value())) ==> Invariant(Value())
    {
      ghost var was := Value();
      DoInStandby();
      hide H.InStandby, Invariant;
      assert Value() == H.InStandby(was);
      if Invariant(was) {
        InStandbyInvariant(was);
      }
    }

    // do_in_standby_l.
    method DoInStandby()
      requires Valid()
      modifies sndDevRefCnt, `usecaseList, `mixerLog, capture
      ensures Valid()
      ensures var g := H.InStandby(old(Value())); BoardValue() == g.board && capture.Value() == g.capture
      ensures forall i :: 0 <= i < |usecaseList| ==> usecaseList[i] in old(usecaseList)
    {
      hide H.StopStream;
      if !capture.standby {
        var ok := DropUsecase(ID_CAPTURE);
        capture.standby := true;
      }
    }

    /* ---- Reading and writing ---- */

    // out_write, as far as it starts and stops the stream.
    method OutWrite(out: StreamOut, ready: bool, written: bool, junk: InView)
      requires Valid() && out.usecase in outs && outs[out.usecase] == out
      modifies sndDevRefCnt, usecaseList, `usecaseList, `mixerLog, out
      ensures Valid()
      ensures Value() == H.OutWrite(old(Value()), out.usecase, ready, written, junk)
      ensures old(Invariant(Value())) ==> Invariant(Value())
    {
      ghost var was := Value();
      StartAndWrite(out, ready, written, junk);
      hide H.OutWrite, Invariant;
      assert Value() == H.OutWrite(was, out.usecase, ready, written, junk);
      if Invariant(was) {
        OutWriteInvariant(was, out.usecase, ready, written, junk);
      }
    }

    method StartAndWrite(out: StreamOut, ready: bool, written: bool, junk: InView)
      requires Valid() && out.usecase in outs && outs[out.usecase] == out
      modifies sndDevRefCnt, usecaseList, `usecaseList, `mixerLog, out
      ensures Valid()
      ensures var g := H.OutWrite(old(Value()), out.usecase, ready, written, junk);
        BoardValue() == g.board && OutsValue() == g.outs
    {
      hide H.StartOutput, H.OutStandby;
      ghost var h := Value();
      if out.standby {
        ghost var (h1, ok) := H.StartOutput(h, out.usecase, ready, junk);
        var started := StartOutputStream(out, ready, junk);
        assert Value() == h1 && started == ok;
        if started {
          WriteStarted(out, written, h1);
        } else {
          DoOutStandby(out);
        }
      } else {
        WriteStarted(out, written, h);
      }
    }

    method WriteStarted(out: StreamOut, written: bool, ghost h: H.Hal)
      requires Valid() && out.usecase in outs && outs[out.usecase] == out && h == Value()
      modifies sndDevRefCnt, `usecaseList, `mixerLog, out
      ensures Valid()
      ensures var h2 := h.(outs := h.outs[out.usecase := h.outs[out.usecase].(standby := false)]);
        var g := if written then h2 else H.OutStandby(h2, out.usecase);
        BoardValue() == g.board && OutsValue() == g.outs
    {
      hide H.OutStandby;
      SetOut(out, out.devices, false);
      if !written {
        DoOutStandby(out);
      }
    }

    // in_read, as far as it starts and stops the stream.
    method InRead(ready: bool, got: bool, junk: InView)
      requires Valid()
      modifies sndDevRefCnt, usecaseList, `usecaseList, `mixerLog, capture
      ensures Valid()
      ensures Value() == H.InRead(old(Value()), ready, got, junk)
      ensures old(Invariant(Value())) ==> Invariant(Value())
    {
      ghost var was := Value();
      StartAndRead(ready, got, junk);
      hide H.InRead, Invariant;
      assert Value() == H.InRead(was, ready, got, junk);
      if Invariant(was) {
        InReadInvariant(was, ready, got, junk);
      }
    }

    method StartAndRead(ready: bool, got: bool, junk: InView)
      requires Valid()
      modifies sndDevRefCnt, usecaseList, `usecaseList, `mixerLog, capture
      ensures Valid()
      ensures var g := H.InRead(old(Value()), ready, got, junk); BoardValue() == g.board && capture.Value() == g.capture
    {
      hide H.StartInput, H.InStandby;
      var started := true;
      if capture.standby {
        started := StartInputStream(ready, junk);
      }
      if started {
        capture.standby := false;
      }
      if !started || !got {
        DoInStandby();
      }
    }

    method InSetParameters(source: Option<Source>, devices: Option<Mask>, junk: InView)
      requires Valid()
      modifies sndDevRefCnt, usecaseList, `usecaseList, `mixerLog, capture
      ensures Valid()
      ensures Value() == H.InSetParameters(old(Value()), source, devices, junk)
      ensures old(Invariant(Value())) ==> Invariant(Value())
    {
      ghost var was := Value();
      ApplyInParameters(source, devices, junk);
      hide H.InSetParameters, Invariant;
      assert Value() == H.InSetParameters(was, source, devices, junk);
      if Invariant(was) {
        InSetParametersInvariant(was, source, devices, junk);
      }
    }

    method ApplyInParameters(source: Option<Source>, devices: Option<Mask>, junk: InView)
      requires Valid()
      modifies sndDevRefCnt, usecaseList, `usecaseList, `mixerLog, capture
      ensures Valid()
      ensures var g := H.InSetParameters(old(Value()), source, devices, junk);
        BoardValue() == g.board && capture.Value() == g.capture
    {
      hide H.SelectDevices, H.InStandby;
      if source.Some? && source.value != SourceDefault {
        capture.source := source.value;
      }
      if devices.Some? && devices.value != capture.devices && devices.value != {} {
        capture.devices := devices.value;
        if !capture.standby {
          ApplyCaptureDevices(junk);
        }
      }
    }

    method ApplyCaptureDevices(junk: InView)
      requires Valid() && !capture.standby
      modifies sndDevRefCnt, usecaseList, `usecaseList, `mixerLog, capture
      ensures Valid()
      ensures var h := old(Value());
        var g := if FromId(h.board.list, ID_CAPTURE).Some? && !H.CaptureProfileShares(h.capture.devices) then H.InStandby(h)
                 else h.(board := H.SelectDevices(h, ID_CAPTURE, junk));
        BoardValue() == g.board && capture.Value() == g.capture
    {
      hide H.SelectDevices, H.InStandby;
      var uc, at := GetUsecaseFromId(ID_CAPTURE);
      if uc != null && !H.CaptureProfileShares(capture.devices) {
        DoInStandby();
      } else {
        var ok := SelectDevices(ID_CAPTURE, junk);
      }
    }

    /* ---- Voice calls ---- */

    method PcmOpen(slot: Slot, ready: bool) returns (ok: bool)
      modifies `pcms, `issued, `pcmLog
      ensures ok == ready && SessionValue() == OpenInto(old(SessionValue()), slot)
    {
      pcms := pcms[slot := issued];
      pcmLog := pcmLog + [Open(issued)];
      issued := issued + 1;
      ok := ready;
    }

    method PcmClose(slot: Slot)
      modifies `pcms, `pcmLog
      ensures SessionValue() == CloseAt(old(SessionValue()), slot)
    {
      pcmLog := pcmLog + [if slot in pcms then Close(pcms[slot]) else CloseNull];
      pcms := pcms - {slot};
    }

    method StopVoiceSessionBtSco()
      modifies `pcms, `pcmLog, `inCallSco
      ensures SessionValue() == StopSco(old(SessionValue()))
    {
      if ScoRx in pcms {
        PcmClose(ScoRx);
      }
      if ScoTx in pcms {
        PcmClose(ScoTx);
      }
      inCallSco := false;
    }

    method StartVoiceSessionBtSco(txReady: bool, rxReady: bool)
      modifies `pcms, `issued, `pcmLog, `inCallSco
      ensures SessionValue() == StartSco(old(SessionValue()), txReady, rxReady)
    {
      if inCallSco || ScoRx in pcms || ScoTx in pcms {
        return;
      }
      if inCommSco {
        StopVoiceSessionBtSco();
      }
      inCallSco := true;
      var ok := PcmOpen(ScoTx, txReady);
      if ok {
        ok := PcmOpen(ScoRx, rxReady);
        if ok {
          return;
        }
        PcmClose(ScoRx);
      }
      PcmClose(ScoTx);
      inCallSco := false;
    }

    // The exit label of start_voice_call.
    method AbandonVoicePcms()
      modifies `pcms, `pcmLog, `inCallSco, `inCall
      ensures SessionValue() == Abort(old(SessionValue()))
    {
      PcmClose(VoiceRx);
      PcmClose(VoiceTx);
      if inCallSco {
        StopVoiceSessionBtSco();
      }
      inCall := false;
    }

    // start_voice_call after the routing.
    method OpenVoicePcms(r: Ready)
      requires Valid()
      modifies `pcms, `issued, `pcmLog, `inCallSco, `inCall
      ensures SessionValue() == StartVoice(old(SessionValue()), old(H.PrimaryDevices(Value())) * OUT_ALL_SCO != {}, r)
    {
      hide StartSco, Abort, OpenInto;
      inCall := true;
      if VoiceRx in pcms || VoiceTx in pcms {
        return;
      }
      if primaryOutput != null && primaryOutput.devices * OUT_ALL_SCO != {} {
        StartVoiceSessionBtSco(r.scoTx, r.scoRx);
      }
      var ok := PcmOpen(VoiceTx, r.voiceTx);
      if ok {
        ok := PcmOpen(VoiceRx, r.voiceRx);
      }
      if !ok {
        AbandonVoicePcms();
      }
    }

    method StartVoiceCall(r: Ready, junk: InView)
      requires Valid()
      modifies sndDevRefCnt, usecaseList, `usecaseList, `mixerLog, `pcms, `issued, `pcmLog, `inCallSco, `inCall
      ensures Valid() && var g := H.StartCall(old(Value()), r, junk); BoardValue() == g.board && SessionValue() == g.session
    {
      hide H.SelectDevices, StartVoice;
      ListAndSelect(ID_VOICE_CALL, true, junk);
      OpenVoicePcms(r);
    }

    method StopVoicePcms()
      modifies `pcms, `pcmLog, `inCallSco
      ensures SessionValue() == ClosePcms(old(SessionValue()))
    {
      if inCallSco {
        StopVoiceSessionBtSco();
      }
      if VoiceRx in pcms {
        PcmClose(VoiceRx);
      }
      if VoiceTx in pcms {
        PcmClose(VoiceTx);
      }
    }

    method StopVoiceCall() returns (ok: bool)
      requires Valid()
      modifies sndDevRefCnt, `usecaseList, `mixerLog, `pcms, `pcmLog, `inCallSco, `inCall
      ensures Valid() && var g := H.StopCall(old(Value())); BoardValue() == g.board && SessionValue() == g.session
      ensures ok == FromId(old(BoardValue()).list, ID_VOICE_CALL).Some?
      ensures forall i :: 0 <= i < |usecaseList| ==> usecaseList[i] in old(usecaseList)
    {
      hide ClosePcms, H.StopStream;
      ghost var s := SessionValue();
      StopVoicePcms();
      ok := DropUsecase(ID_VOICE_CALL);
      assert SessionValue() == ClosePcms(s);
      if ok {
        inCall := false;
        assert SessionValue() == ClosePcms(s).(inCall := false);
      }
      assert SessionValue() == StopVoice(s, ok);
    }

    method UpdateScoLeg(devices: Mask, luck: H.Luck)
      modifies `pcms, `issued, `pcmLog, `inCallSco, `inCommSco
      ensures SessionValue() == H.SetScoLeg(old(Value()), devices, luck)
    {
      if mode == InCommunication && devices * OUT_ALL_SCO != {} && !inCallSco && !inCommSco {
        inCommSco := true;
        StartVoiceSessionBtSco(luck.scoTx, luck.scoRx);
      } else if devices * OUT_ALL_SCO == {} && inCallSco {
        inCommSco := false;
        StopVoiceSessionBtSco();
      }
    }

    method RestartVoiceCall(r: Ready, junk: InView)
      requires Valid()
      modifies sndDevRefCnt, usecaseList, `usecaseList, `mixerLog, `pcms, `issued, `pcmLog, `inCallSco, `inCall
      ensures Valid()
      ensures var g := H.StartCall(H.StopCall(old(Value())), r, junk); BoardValue() == g.board && SessionValue() == g.session
    {
      hide H.StartCall, H.StopCall;
      ghost var was := Value();
      var ok := StopVoiceCall();
      assert Value() == H.StopCall(was);
      StartVoiceCall(r, junk);
    }

    method UpdateCall(out: StreamOut, changed: bool, luck: H.Luck)
      requires Valid() && out.usecase in outs && outs[out.usecase] == out
      modifies sndDevRefCnt, usecaseList, `usecaseList, `mixerLog, `pcms, `issued, `pcmLog, `inCallSco, `inCall
      ensures Valid()
      ensures var g := H.UpdateCall(old(Value()), out.usecase, changed, luck); BoardValue() == g.board && SessionValue() == g.session
    {
      hide H.StartCall, H.StopCall;
      if mode == InCall && !inCall && out == primaryOutput {
        StartVoiceCall(luck.call, luck.junk2);
      } else if mode == InCall && changed && inCall && out == primaryOutput {
        RestartVoiceCall(luck.call, luck.junk2);
      }
    }

    method Reroute(out: StreamOut, changed: bool, junk: InView)
      requires Valid() && out.usecase in outs && outs[out.usecase] == out
      modifies sndDevRefCnt, usecaseList, `usecaseList, `mixerLog, out
      ensures Valid()
      ensures var g := H.Reroute(old(Value()), out.usecase, changed, junk); BoardValue() == g.board && OutsValue() == g.outs
      ensures forall i :: 0 <= i < |usecaseList| ==> usecaseList[i] in old(usecaseList)
    {
      hide H.OutStandby, H.SelectDevices;
      if !out.standby {
        if changed {
          DoOutStandby(out);
        } else {
          var ok := SelectDevices(out.usecase, junk);
        }
      }
    }

    method ApplyOutDevices(out: StreamOut, devices: Mask, junk: InView) returns (changed: bool)
      requires Valid() && out.usecase in outs && outs[out.usecase] == out
      modifies sndDevRefCnt, usecaseList, `usecaseList, `mixerLog, out
      ensures Valid() && changed == (old(out.devices) != devices)
      ensures var h := old(Value());
        var h1 := h.(outs := h.outs[out.usecase := h.outs[out.usecase].(devices := devices)]);
        var g := H.Reroute(h1, out.usecase, changed, junk);
        BoardValue() == g.board && OutsValue() == g.outs
      ensures forall i :: 0 <= i < |usecaseList| ==> usecaseList[i] in old(usecaseList)
    {
      hide H.Reroute;
      ghost var h := Value();
      changed := out.devices != devices;
      SetOut(out, devices, out.standby);
      assert Value() == h.(outs := h.outs[out.usecase := h.outs[out.usecase].(devices := devices)]);
      Reroute(out, changed, junk);
    }

    // out_set_parameters with a routing value.
    method OutSetParameters(out: StreamOut, devices: Mask, luck: H.Luck)
      requires Valid() && out.usecase in outs && outs[out.usecase] == out
      modifies sndDevRefCnt, usecaseList, `usecaseList, `mixerLog, out
      modifies `pcms, `issued, `pcmLog, `inCallSco, `inCommSco, `inCall
      ensures Valid()
      ensures Value() == H.OutSetParameters(old(Value()), out.usecase, devices, luck)
      ensures old(Invariant(Value())) ==> Invariant(Value())
    {
      ghost var was := Value();
      ApplyOutParameters(out, devices, luck);
      hide H.OutSetParameters, Invariant;
      assert Value() == H.OutSetParameters(was, out.usecase, devices, luck);
      if Invariant(was) {
        OutSetParametersInvariant(was, out.usecase, devices, luck);
      }
    }

    method ApplyOutParameters(out: StreamOut, devices: Mask, luck: H.Luck)
      requires Valid() && out.usecase in outs && outs[out.usecase] == out
      modifies sndDevRefCnt, usecaseList, `usecaseList, `mixerLog, out
      modifies `pcms, `issued, `pcmLog, `inCallSco, `inCommSco, `inCall
      ensures Valid()
      ensures var g := H.OutSetParameters(old(Value()), out.usecase, devices, luck);
        BoardValue() == g.board && SessionValue() == g.session && OutsValue() == g.outs
    {
      hide H.Reroute, H.UpdateCall, H.SetScoLeg;
      if devices != {} {
        ghost var h := Value();
        ghost var h1 := h.(outs := h.outs[out.usecase := h.outs[out.usecase].(devices := devices)]);
        var changed := ApplyOutDevices(out, devices, luck.junk1);
        assert Value() == H.Reroute(h1, out.usecase, changed, luck.junk1);
        UpdateSessions(out, devices, changed, luck);
      }
    }

    method UpdateSessions(out: StreamOut, devices: Mask, changed: bool, luck: H.Luck)
      requires Valid() && out.usecase in outs && outs[out.usecase] == out
      modifies sndDevRefCnt, usecaseList, `usecaseList, `mixerLog
      modifies `pcms, `issued, `pcmLog, `inCallSco, `inCommSco, `inCall
      ensures Valid()
      ensures var h := old(Value());
        var g := H.UpdateCall(h.(session := H.SetScoLeg(h, devices, luck)), out.usecase, changed, luck);
        BoardValue() == g.board && SessionValue() == g.session
    {
      hide H.UpdateCall, H.SetScoLeg;
      ghost var h := Value();
      UpdateScoLeg(devices, luck);
      assert Value() == h.(session := H.SetScoLeg(h, devices, luck));
      UpdateCall(out, changed, luck);
    }

    method SetMode(newMode: Mode)
      requires Valid()
      modifies sndDevRefCnt, `usecaseList, `mixerLog, `pcms, `pcmLog, `inCallSco, `inCall, `mode
      ensures Valid()
      ensures Value() == H.SetMode(old(Value()), newMode)
      ensures old(Invariant(Value())) ==> Invariant(Value())
    {
      ghost var was := Value();
      ChangeMode(newMode);
      hide H.SetMode, Invariant;
      assert Value() == H.SetMode(was, newMode);
      if Invariant(was) {
        SetModeInvariant(was, newMode);
      }
    }

    method ChangeMode(newMode: Mode)
      requires Valid()
      modifies sndDevRefCnt, `usecaseList, `mixerLog, `pcms, `pcmLog, `inCallSco, `inCall, `mode
      ensures Valid() && mode == newMode
      ensures var g := H.SetMode(old(Value()), newMode); BoardValue() == g.board && SessionValue() == g.session
    {
      if mode != newMode {
        mode := newMode;
      }
      if mode == Normal && inCall {
        var ok := StopVoiceCall();
      }
    }
  }

  lemma MarkedNone(list: seq<Usecase>, keep: nat, k: Kind, d: int)
    ensures Marked(list, 0, keep, k, d) == {}
  {
  }

  lemma MarkedStep(list: seq<Usecase>, i: nat, keep: nat, k: Kind, d: int)
    requires i < |list|
    ensures Marked(list, i + 1, keep, k, d)
         == Marked(list, i, keep, k, d) + (if Misplaced(list, i, keep, k, d) then {list[i].id} else {})
  {
  }
}
