/** The device vocabulary of audio/audio_hw.h and the two route selectors, which are the only parts of
    the audio HAL that compute without changing state. */
module SndDevices {
  import opened Options

  // An audio_devices_t is the set of the bit numbers that are 1 in it. The numbers are those of
  // Android's system/audio.h, which is not part of this repository.
  type Mask = set<nat>

  const OUT_EARPIECE := 0
  const OUT_SPEAKER := 1
  const OUT_WIRED_HEADSET := 2
  const OUT_WIRED_HEADPHONE := 3
  const OUT_BLUETOOTH_SCO_HEADSET := 5
  const OUT_ALL_SCO: Mask := {4, 5, 6}
  const IN_COMMUNICATION := 0
  const IN_BUILTIN_MIC := 2
  const IN_BLUETOOTH_SCO_HEADSET := 3
  const IN_WIRED_HEADSET := 4
  const IN_VOICE_CALL := 6
  const IN_BACK_MIC := 7
  const BIT_IN := 31

  datatype Mode = Normal | Ringtone | InCall | InCommunication

  // audio_source_t; the sources no branch asks about are one value.
  datatype Source = SourceDefault | SourceMic | SourceCamcorder | SourceVoiceRecognition
                  | SourceVoiceCommunication | SourceOther(code: nat)

  // snd_device_t, as numbered by the enumeration in audio_hw.h.
  const NONE := 0
  const DEV_OUT_EARPIECE := 1
  const DEV_OUT_SPEAKER := 2
  const DEV_OUT_HEADPHONES := 3
  const DEV_OUT_SPEAKER_AND_HEADPHONES := 4
  const DEV_OUT_BT_SCO := 5
  const DEV_OUT_INCALL_EARPIECE := 6
  const DEV_OUT_INCALL_EARPIECE_WB := 7
  const DEV_OUT_INCALL_SPEAKER := 8
  const DEV_OUT_INCALL_SPEAKER_WB := 9
  const DEV_OUT_INCALL_HEADPHONES := 10
  const DEV_OUT_INCALL_HEADPHONES_WB := 11
  const DEV_OUT_INCALL_BT_SCO := 12
  const DEV_OUT_INCALL_BT_SCO_WB := 13
  const DEV_OUT_COMM_EARPIECE := 14
  const DEV_OUT_COMM_SPEAKER := 15
  const DEV_OUT_COMM_HEADPHONES := 16
  const DEV_OUT_COMM_BT_SCO := 17
  const IN_BEGIN := 18
  const DEV_IN_EARPIECE_MIC := 18
  const DEV_IN_SPEAKER_MIC := 19
  const DEV_IN_HEADSET_MIC := 20
  const DEV_IN_BT_SCO_MIC := 21
  const DEV_IN_INCALL_EARPIECE_MIC := 22
  const DEV_IN_INCALL_EARPIECE_MIC_WB := 23
  const DEV_IN_INCALL_SPEAKER_MIC := 24
  const DEV_IN_INCALL_SPEAKER_MIC_WB := 25
  const DEV_IN_INCALL_HEADSET_MIC := 26
  const DEV_IN_INCALL_HEADSET_MIC_WB := 27
  const DEV_IN_INCALL_BT_SCO_MIC := 28
  const DEV_IN_INCALL_BT_SCO_MIC_WB := 29
  const DEV_IN_COMM_EARPIECE_MIC := 30
  const DEV_IN_COMM_SPEAKER_MIC := 31
  const DEV_IN_COMM_HEADSET_MIC := 32
  const DEV_IN_COMM_BT_SCO_MIC := 33
  const DEV_IN_CAMCORDER_MIC := 34
  const DEV_IN_CAMCORDER_HEADSET_MIC := 35
  const DEV_IN_VOICE_RECOGNITION_MIC := 36
  const DEV_IN_VOICE_RECOGNITION_HEADSET_MIC := 37
  const DEV_IN_VOICE_RECOGNITION_BT_SCO_MIC := 38
  const SND_DEVICE_MAX := 39

  // A device number whose entry in device_table is a name.
  predicate Named(d: int) { 0 <= d < SND_DEVICE_MAX }

  predicate IsOut(d: int) { NONE < d < IN_BEGIN }

  predicate IsIn(d: int) { IN_BEGIN <= d < SND_DEVICE_MAX }

  // What the selectors read of struct audio_device.
  datatype Tuning = Tuning(mode: Mode, wideband: bool, btWideband: bool)

  // What the selectors read through a struct stream_in pointer.
  datatype InView = InView(source: Source, devices: Mask)

  function GetOutputSndDevice(t: Tuning, devices: Mask): (d: int)
    ensures d == NONE || IsOut(d)
    ensures d != NONE ==> devices != {} && BIT_IN !in devices
  {
    if devices == {} || BIT_IN in devices then NONE
    else
      var wired := OUT_WIRED_HEADPHONE in devices || OUT_WIRED_HEADSET in devices;
      var special :=
        if t.mode == InCall then InCallOutput(t, devices, wired)
        else if t.mode == InCommunication then CommunicationOutput(devices, wired)
        else NONE;
      if special != NONE then special
      else if |devices| == 2 then
        if devices == {OUT_WIRED_HEADPHONE, OUT_SPEAKER} || devices == {OUT_WIRED_HEADSET, OUT_SPEAKER}
        then DEV_OUT_SPEAKER_AND_HEADPHONES
        else NONE
      else if |devices| != 1 then NONE
      else if wired then DEV_OUT_HEADPHONES
      else if OUT_SPEAKER in devices then DEV_OUT_SPEAKER
      else if devices * OUT_ALL_SCO != {} then DEV_OUT_BT_SCO
      else if OUT_EARPIECE in devices then DEV_OUT_EARPIECE
      else NONE
  }

  function InCallOutput(t: Tuning, devices: Mask, wired: bool): (d: int)
    ensures d == NONE || IsOut(d)
  {
    if devices * OUT_ALL_SCO != {} then
      if t.btWideband then DEV_OUT_INCALL_BT_SCO_WB else DEV_OUT_INCALL_BT_SCO
    else if wired then
      if t.wideband then DEV_OUT_INCALL_HEADPHONES_WB else DEV_OUT_INCALL_HEADPHONES
    else if OUT_SPEAKER in devices then
      if t.wideband then DEV_OUT_INCALL_SPEAKER_WB else DEV_OUT_INCALL_SPEAKER
    else if OUT_EARPIECE in devices then
      if t.wideband then DEV_OUT_INCALL_EARPIECE_WB else DEV_OUT_INCALL_EARPIECE
    else NONE
  }

  function CommunicationOutput(devices: Mask, wired: bool): (d: int)
    ensures d == NONE || IsOut(d)
  {
    if wired then DEV_OUT_COMM_HEADPHONES
    else if devices * OUT_ALL_SCO != {} then DEV_OUT_COMM_BT_SCO
    else if OUT_SPEAKER in devices then DEV_OUT_COMM_SPEAKER
    else if OUT_EARPIECE in devices then DEV_OUT_COMM_EARPIECE
    else NONE
  }

  // `input` is the stream of the first capture or voice-call use case, when one is listed.
  function GetInputSndDevice(t: Tuning, input: Option<InView>, outDevice: Mask): (d: int)
    ensures d == NONE || IsIn(d)
    ensures t.mode == InCall && outDevice != {} ==> d != NONE
  {
    var source := if input.None? then SourceDefault else input.value.source;
    var inDevice := if input.None? then {} else input.value.devices - {BIT_IN};
    if t.mode == InCall then
      if outDevice == {} then NONE
      else
        var d := InCallInput(t, outDevice);
        if d != NONE then d else FallbackInput(inDevice, outDevice)
    else if source == SourceVoiceCommunication || t.mode == InCommunication then
      var mic := if OUT_SPEAKER in outDevice then {IN_BACK_MIC, BIT_IN} else inDevice;
      var d := if input.None? then NONE else CommunicationInput(mic, outDevice);
      if d != NONE then d else FallbackInput(mic, outDevice)
    else if source == SourceCamcorder then
      if IN_WIRED_HEADSET in inDevice then DEV_IN_CAMCORDER_HEADSET_MIC else DEV_IN_CAMCORDER_MIC
    else if source == SourceVoiceRecognition then
      if IN_BUILTIN_MIC in inDevice then DEV_IN_VOICE_RECOGNITION_MIC
      else if IN_WIRED_HEADSET in inDevice then DEV_IN_VOICE_RECOGNITION_HEADSET_MIC
      else if IN_BLUETOOTH_SCO_HEADSET in inDevice then DEV_IN_VOICE_RECOGNITION_BT_SCO_MIC
      else FallbackInput(inDevice, outDevice)
    else if source == SourceMic then
      if OUT_WIRED_HEADSET in outDevice then DEV_IN_HEADSET_MIC
      else if OUT_EARPIECE in outDevice || OUT_WIRED_HEADPHONE in outDevice then DEV_IN_EARPIECE_MIC
      else if OUT_SPEAKER in outDevice then DEV_IN_SPEAKER_MIC
      else FallbackInput(inDevice, outDevice)
    else if source == SourceDefault then NONE
    else FallbackInput(inDevice, outDevice)
  }

  function InCallInput(t: Tuning, outDevice: Mask): (d: int)
    ensures d == NONE || IsIn(d)
  {
    if outDevice * OUT_ALL_SCO != {} then
      if t.btWideband then DEV_IN_INCALL_BT_SCO_MIC_WB else DEV_IN_INCALL_BT_SCO_MIC
    else if OUT_WIRED_HEADSET in outDevice then
      if t.wideband then DEV_IN_INCALL_HEADSET_MIC_WB else DEV_IN_INCALL_HEADSET_MIC
    else if OUT_EARPIECE in outDevice || OUT_WIRED_HEADPHONE in outDevice then
      if t.wideband then DEV_IN_INCALL_EARPIECE_MIC_WB else DEV_IN_INCALL_EARPIECE_MIC
    else if OUT_SPEAKER in outDevice then
      if t.wideband then DEV_IN_INCALL_SPEAKER_MIC_WB else DEV_IN_INCALL_SPEAKER_MIC
    else NONE
  }

  // The masks tested here carry BIT_IN, so a mask that kept BIT_IN answers every test.
  function CommunicationInput(mic: Mask, outDevice: Mask): (d: int)
    ensures d == NONE || IsIn(d)
  {
    if OUT_BLUETOOTH_SCO_HEADSET in outDevice then DEV_IN_COMM_BT_SCO_MIC
    else if mic * {IN_BACK_MIC, BIT_IN} != {} then DEV_IN_COMM_SPEAKER_MIC
    else if IN_BUILTIN_MIC in mic then
      if OUT_WIRED_HEADPHONE in outDevice then DEV_IN_COMM_SPEAKER_MIC else DEV_IN_COMM_EARPIECE_MIC
    else if IN_WIRED_HEADSET in mic then DEV_IN_COMM_HEADSET_MIC
    else NONE
  }

  function FallbackInput(mic: Mask, outDevice: Mask): (d: int)
    ensures IsIn(d)
  {
    if mic != {} && mic * {IN_VOICE_CALL, IN_COMMUNICATION, BIT_IN} == {} then
      if IN_BUILTIN_MIC in mic then DEV_IN_EARPIECE_MIC
      else if IN_BACK_MIC in mic then DEV_IN_SPEAKER_MIC
      else if IN_WIRED_HEADSET in mic then DEV_IN_HEADSET_MIC
      else if IN_BLUETOOTH_SCO_HEADSET in mic then DEV_IN_BT_SCO_MIC
      else DEV_IN_EARPIECE_MIC
    else if OUT_EARPIECE in outDevice then DEV_IN_EARPIECE_MIC
    else if OUT_WIRED_HEADSET in outDevice then DEV_IN_HEADSET_MIC
    else if OUT_SPEAKER in outDevice then DEV_IN_SPEAKER_MIC
    else if OUT_WIRED_HEADPHONE in outDevice then DEV_IN_EARPIECE_MIC
    else if OUT_BLUETOOTH_SCO_HEADSET in outDevice then DEV_IN_BT_SCO_MIC
    else DEV_IN_EARPIECE_MIC
  }

  // The in-call devices come in pairs, narrowband before wideband, and the Bluetooth pair is the last.
  predicate InCallOut(d: int) { DEV_OUT_INCALL_EARPIECE <= d <= DEV_OUT_INCALL_BT_SCO_WB }

  predicate InCallIn(d: int) { DEV_IN_INCALL_EARPIECE_MIC <= d <= DEV_IN_INCALL_BT_SCO_MIC_WB }

  predicate IsWideband(d: int) { (d - DEV_OUT_INCALL_EARPIECE) % 2 == 1 }

  // The two ends of a call agree: when the call has an output device at all, both devices are in-call
  // devices, of the same band, and both are Bluetooth or neither is.
  lemma CallEndsAgree(t: Tuning, input: Option<InView>, devices: Mask)
    requires t.mode == InCall && GetOutputSndDevice(t, devices) != NONE
    ensures var out, inp := GetOutputSndDevice(t, devices), GetInputSndDevice(t, input, devices);
      && InCallOut(out) && InCallIn(inp)
      && (IsWideband(out) <==> IsWideband(inp))
      && (out >= DEV_OUT_INCALL_BT_SCO <==> inp >= DEV_IN_INCALL_BT_SCO_MIC)
      && (IsWideband(out) <==> if devices * OUT_ALL_SCO != {} then t.btWideband else t.wideband)
  {
    hide FallbackInput;
    assert devices * OUT_ALL_SCO == {} ==> InCallInput(t, devices) < DEV_IN_INCALL_BT_SCO_MIC;
  }

  // The in device of a call that has an out device depends on the devices and the bands alone.
  lemma CallInputIs(t: Tuning, input: Option<InView>, devices: Mask)
    requires t.mode == InCall && GetOutputSndDevice(t, devices) != NONE
    ensures GetInputSndDevice(t, input, devices) == InCallInput(t, devices) != NONE
  {
  }

  // The devices the output selector has a sound device for.
  const OUT_KNOWN: Mask := {OUT_EARPIECE, OUT_SPEAKER, OUT_WIRED_HEADSET, OUT_WIRED_HEADPHONE} + OUT_ALL_SCO

  // Exactly which masks have a sound device: in a call or in communication mode one known bit is enough;
  // otherwise the mask is one known bit, or the speaker with a headset or headphones.
  lemma OutputChosenIff(t: Tuning, devices: Mask)
    ensures GetOutputSndDevice(t, devices) != NONE
       <==> && BIT_IN !in devices
            && if t.mode == InCall || t.mode == InCommunication then devices * OUT_KNOWN != {}
               else || (|devices| == 1 && devices <= OUT_KNOWN)
                    || devices == {OUT_SPEAKER, OUT_WIRED_HEADSET} || devices == {OUT_SPEAKER, OUT_WIRED_HEADPHONE}
  {
    if |devices| == 1 {
      var d :| d in devices;
      SingletonIs(devices, d);
    }
    assert {OUT_WIRED_HEADPHONE, OUT_SPEAKER} == {OUT_SPEAKER, OUT_WIRED_HEADPHONE};
    assert devices * OUT_ALL_SCO != {} <==> 4 in devices || 5 in devices || 6 in devices by {
      if devices * OUT_ALL_SCO != {} {
        var d :| d in devices * OUT_ALL_SCO;
      }
    }
    if devices * OUT_KNOWN != {} {
      var d :| d in devices * OUT_KNOWN;
    }
  }

  lemma SingletonIs(s: Mask, d: nat)
    requires |s| == 1 && d in s
    ensures s == {d}
  {
    assert |s - {d}| == 0;
  }

  // Exactly when a capture stream has no microphone: in a call without output devices, and outside calls
  // and communication mode when the source is the default one or there is no stream.
  lemma InputMissingIff(t: Tuning, input: Option<InView>, outDevice: Mask)
    ensures GetInputSndDevice(t, input, outDevice) == NONE
       <==> || (t.mode == InCall && outDevice == {})
            || (t.mode != InCall && t.mode != InCommunication && (input.None? || input.value.source == SourceDefault))
  {
  }
}
