/** Which sound device the two selectors pick, by the bits of the masks: a device is a place, in the group of
    a mode or a source, and the place is the first in an order that the masks have. */
module DeviceChoice {
  import opened Options
  import opened SndDevices

  /* ---- What the numbers stand for ---- */

  datatype Place = Earpiece | Speaker | Wired | SpeakerAndWired | Bluetooth

  datatype Group = Plain | Call | Communication

  datatype OutTag = OutTag(group: Group, place: Place, wide: bool)

  function OutTagOf(d: int): OutTag
    requires IsOut(d)
  {
    if d == DEV_OUT_EARPIECE then OutTag(Plain, Earpiece, false)
    else if d == DEV_OUT_SPEAKER then OutTag(Plain, Speaker, false)
    else if d == DEV_OUT_HEADPHONES then OutTag(Plain, Wired, false)
    else if d == DEV_OUT_SPEAKER_AND_HEADPHONES then OutTag(Plain, SpeakerAndWired, false)
    else if d == DEV_OUT_BT_SCO then OutTag(Plain, Bluetooth, false)
    else if d == DEV_OUT_INCALL_EARPIECE then OutTag(Call, Earpiece, false)
    else if d == DEV_OUT_INCALL_EARPIECE_WB then OutTag(Call, Earpiece, true)
    else if d == DEV_OUT_INCALL_SPEAKER then OutTag(Call, Speaker, false)
    else if d == DEV_OUT_INCALL_SPEAKER_WB then OutTag(Call, Speaker, true)
    else if d == DEV_OUT_INCALL_HEADPHONES then OutTag(Call, Wired, false)
    else if d == DEV_OUT_INCALL_HEADPHONES_WB then OutTag(Call, Wired, true)
    else if d == DEV_OUT_INCALL_BT_SCO then OutTag(Call, Bluetooth, false)
    else if d == DEV_OUT_INCALL_BT_SCO_WB then OutTag(Call, Bluetooth, true)
    else if d == DEV_OUT_COMM_EARPIECE then OutTag(Communication, Earpiece, false)
    else if d == DEV_OUT_COMM_SPEAKER then OutTag(Communication, Speaker, false)
    else if d == DEV_OUT_COMM_HEADPHONES then OutTag(Communication, Wired, false)
    else OutTag(Communication, Bluetooth, false)
  }

  datatype Mic = MainMic | EarpieceMic | SpeakerMic | HeadsetMic | BluetoothMic

  datatype Family = PlainMics | CallMics | CommunicationMics | CamcorderMics | RecognitionMics

  datatype MicTag = MicTag(family: Family, mic: Mic, wide: bool)

  function MicTagOf(d: int): MicTag
    requires IsIn(d)
  {
    if d == DEV_IN_EARPIECE_MIC then MicTag(PlainMics, EarpieceMic, false)
    else if d == DEV_IN_SPEAKER_MIC then MicTag(PlainMics, SpeakerMic, false)
    else if d == DEV_IN_HEADSET_MIC then MicTag(PlainMics, HeadsetMic, false)
    else if d == DEV_IN_BT_SCO_MIC then MicTag(PlainMics, BluetoothMic, false)
    else if d == DEV_IN_INCALL_EARPIECE_MIC then MicTag(CallMics, EarpieceMic, false)
    else if d == DEV_IN_INCALL_EARPIECE_MIC_WB then MicTag(CallMics, EarpieceMic, true)
    else if d == DEV_IN_INCALL_SPEAKER_MIC then MicTag(CallMics, SpeakerMic, false)
    else if d == DEV_IN_INCALL_SPEAKER_MIC_WB then MicTag(CallMics, SpeakerMic, true)
    else if d == DEV_IN_INCALL_HEADSET_MIC then MicTag(CallMics, HeadsetMic, false)
    else if d == DEV_IN_INCALL_HEADSET_MIC_WB then MicTag(CallMics, HeadsetMic, true)
    else if d == DEV_IN_INCALL_BT_SCO_MIC then MicTag(CallMics, BluetoothMic, false)
    else if d == DEV_IN_INCALL_BT_SCO_MIC_WB then MicTag(CallMics, BluetoothMic, true)
    else if d == DEV_IN_COMM_EARPIECE_MIC then MicTag(CommunicationMics, EarpieceMic, false)
    else if d == DEV_IN_COMM_SPEAKER_MIC then MicTag(CommunicationMics, SpeakerMic, false)
    else if d == DEV_IN_COMM_HEADSET_MIC then MicTag(CommunicationMics, HeadsetMic, false)
    else if d == DEV_IN_COMM_BT_SCO_MIC then MicTag(CommunicationMics, BluetoothMic, false)
    else if d == DEV_IN_CAMCORDER_MIC then MicTag(CamcorderMics, MainMic, false)
    else if d == DEV_IN_CAMCORDER_HEADSET_MIC then MicTag(CamcorderMics, HeadsetMic, false)
    else if d == DEV_IN_VOICE_RECOGNITION_MIC then MicTag(RecognitionMics, MainMic, false)
    else if d == DEV_IN_VOICE_RECOGNITION_HEADSET_MIC then MicTag(RecognitionMics, HeadsetMic, false)
    else MicTag(RecognitionMics, BluetoothMic, false)
  }

  // A tag names one device.
  lemma TagsAreDistinct(d: int, e: int)
    ensures IsOut(d) && IsOut(e) && OutTagOf(d) == OutTagOf(e) ==> d == e
    ensures IsIn(d) && IsIn(e) && MicTagOf(d) == MicTagOf(e) ==> d == e
  {
  }

  /* ---- Orders ---- */

  // What a rule asks of the masks: a bit of the input mask, of the output mask, of both, or nothing.
  datatype Test = InBit(i: nat) | OutBit(o: nat) | BothBits(i: nat, o: nat) | Always

  datatype Rule<T> = Rule(test: Test, gives: T)

  predicate Holds(test: Test, inMask: Mask, outMask: Mask) {
    match test
    case InBit(i) => i in inMask
    case OutBit(o) => o in outMask
    case BothBits(i, o) => i in inMask && o in outMask
    case Always => true
  }

  // The first rule whose test holds gives x.
  predicate FirstGives<T(==)>(rules: seq<Rule<T>>, inMask: Mask, outMask: Mask, x: T) {
    exists k :: 0 <= k < |rules| && rules[k].gives == x && IsFirst(rules, inMask, outMask, k)
  }

  predicate IsFirst<T>(rules: seq<Rule<T>>, inMask: Mask, outMask: Mask, k: nat)
    requires k < |rules|
  {
    Holds(rules[k].test, inMask, outMask) && forall j :: 0 <= j < k ==> !Holds(rules[j].test, inMask, outMask)
  }

  predicate NoneGives<T>(rules: seq<Rule<T>>, inMask: Mask, outMask: Mask) {
    forall k :: 0 <= k < |rules| ==> !Holds(rules[k].test, inMask, outMask)
  }

  /* ---- Output ---- */

  const CALL_ORDER: seq<Rule<Place>> := [
    Rule(OutBit(4), Bluetooth), Rule(OutBit(5), Bluetooth), Rule(OutBit(6), Bluetooth),
    Rule(OutBit(OUT_WIRED_HEADPHONE), Wired), Rule(OutBit(OUT_WIRED_HEADSET), Wired),
    Rule(OutBit(OUT_SPEAKER), Speaker), Rule(OutBit(OUT_EARPIECE), Earpiece)]

  const COMMUNICATION_ORDER: seq<Rule<Place>> := [
    Rule(OutBit(OUT_WIRED_HEADPHONE), Wired), Rule(OutBit(OUT_WIRED_HEADSET), Wired),
    Rule(OutBit(4), Bluetooth), Rule(OutBit(5), Bluetooth), Rule(OutBit(6), Bluetooth),
    Rule(OutBit(OUT_SPEAKER), Speaker), Rule(OutBit(OUT_EARPIECE), Earpiece)]

  // The place of a mask with one bit, or of the speaker with a wired device.
  predicate PlainPlace(devices: Mask, place: Place) {
    match place
    case Earpiece => devices == {OUT_EARPIECE}
    case Speaker => devices == {OUT_SPEAKER}
    case Wired => devices == {OUT_WIRED_HEADPHONE} || devices == {OUT_WIRED_HEADSET}
    case SpeakerAndWired => devices == {OUT_SPEAKER, OUT_WIRED_HEADPHONE} || devices == {OUT_SPEAKER, OUT_WIRED_HEADSET}
    case Bluetooth => devices == {4} || devices == {5} || devices == {6}
  }

  predicate ChosenOut(t: Tuning, devices: Mask, tag: OutTag) {
    BIT_IN !in devices &&
    match t.mode
    case InCall =>
      && tag.group == Call
      && FirstGives(CALL_ORDER, {}, devices, tag.place)
      && tag.wide == (if tag.place == Bluetooth then t.btWideband else t.wideband)
    case InCommunication =>
      tag.group == Communication && FirstGives(COMMUNICATION_ORDER, {}, devices, tag.place) && !tag.wide
    case _ =>
      tag.group == Plain && PlainPlace(devices, tag.place) && !tag.wide
  }

  predicate Fires<T>(rules: seq<Rule<T>>, k: nat, inMask: Mask, outMask: Mask) {
    k < |rules| && Holds(rules[k].test, inMask, outMask)
  }

  // The first rule, spelled out for orders of up to seven rules.
  function FirstOfSeven<T>(rules: seq<Rule<T>>, inMask: Mask, outMask: Mask): Option<T> {
    if Fires(rules, 0, inMask, outMask) then Some(rules[0].gives)
    else if Fires(rules, 1, inMask, outMask) then Some(rules[1].gives)
    else if Fires(rules, 2, inMask, outMask) then Some(rules[2].gives)
    else if Fires(rules, 3, inMask, outMask) then Some(rules[3].gives)
    else if Fires(rules, 4, inMask, outMask) then Some(rules[4].gives)
    else if Fires(rules, 5, inMask, outMask) then Some(rules[5].gives)
    else if Fires(rules, 6, inMask, outMask) then Some(rules[6].gives)
    else None
  }

  lemma FirstIsSpelledOut<T>(rules: seq<Rule<T>>, inMask: Mask, outMask: Mask, x: T)
    requires |rules| <= 7
    ensures FirstGives(rules, inMask, outMask, x) <==> FirstOfSeven(rules, inMask, outMask) == Some(x)
    ensures NoneGives(rules, inMask, outMask) <==> FirstOfSeven(rules, inMask, outMask).None?
  {
    var k := FirstIndex(rules, inMask, outMask);
    if k < |rules| {
      assert IsFirst(rules, inMask, outMask, k);
    }
  }

  function FirstIndex<T>(rules: seq<Rule<T>>, inMask: Mask, outMask: Mask): nat {
    if Fires(rules, 0, inMask, outMask) then 0
    else if Fires(rules, 1, inMask, outMask) then 1
    else if Fires(rules, 2, inMask, outMask) then 2
    else if Fires(rules, 3, inMask, outMask) then 3
    else if Fires(rules, 4, inMask, outMask) then 4
    else if Fires(rules, 5, inMask, outMask) then 5
    else if Fires(rules, 6, inMask, outMask) then 6
    else |rules|
  }

  lemma AnyBluetooth(devices: Mask)
    ensures devices * OUT_ALL_SCO != {} <==> 4 in devices || 5 in devices || 6 in devices
  {
    if devices * OUT_ALL_SCO != {} {
      var d :| d in devices * OUT_ALL_SCO;
    } else {
      assert forall d :: d in OUT_ALL_SCO ==> d !in devices by {
        forall d | d in OUT_ALL_SCO ensures d !in devices {
          assert d !in devices * OUT_ALL_SCO;
        }
      }
    }
  }

  lemma CallOrderIs(devices: Mask, place: Place)
    ensures FirstGives(CALL_ORDER, {}, devices, place)
       <==> if devices * OUT_ALL_SCO != {} then place == Bluetooth
            else if OUT_WIRED_HEADPHONE in devices || OUT_WIRED_HEADSET in devices then place == Wired
            else if OUT_SPEAKER in devices then place == Speaker
            else OUT_EARPIECE in devices && place == Earpiece
  {
    AnyBluetooth(devices);
    FirstIsSpelledOut(CALL_ORDER, {}, devices, place);
    hide FirstGives, NoneGives;
  }

  lemma CommunicationOrderIs(devices: Mask, place: Place)
    ensures FirstGives(COMMUNICATION_ORDER, {}, devices, place)
       <==> if OUT_WIRED_HEADPHONE in devices || OUT_WIRED_HEADSET in devices then place == Wired
            else if devices * OUT_ALL_SCO != {} then place == Bluetooth
            else if OUT_SPEAKER in devices then place == Speaker
            else OUT_EARPIECE in devices && place == Earpiece
  {
    AnyBluetooth(devices);
    FirstIsSpelledOut(COMMUNICATION_ORDER, {}, devices, place);
    hide FirstGives, NoneGives;
  }

  lemma OneBitOutputIs(t: Tuning, bit: nat, d: int)
    requires IsOut(d) && t.mode != InCall && t.mode != InCommunication
    ensures GetOutputSndDevice(t, {bit}) == d <==> ChosenOut(t, {bit}, OutTagOf(d))
  {
    AnyBluetooth({bit});
    assert forall b: nat :: {bit} == {b} <==> bit == b;
    assert |{bit}| == 1;
    assert forall a: nat, b: nat :: a != b ==> {bit} != {a, b} by {
      forall a: nat, b: nat | a != b ensures {bit} != {a, b} {
        assert |{a, b}| == 2;
      }
    }
  }

  lemma PlainOutputIs(t: Tuning, devices: Mask, d: int)
    requires IsOut(d) && t.mode != InCall && t.mode != InCommunication
    ensures GetOutputSndDevice(t, devices) == d <==> ChosenOut(t, devices, OutTagOf(d))
  {
    if |devices| == 1 {
      var bit :| bit in devices;
      SingletonIs(devices, bit);
      OneBitOutputIs(t, bit, d);
    } else {
      assert forall b: nat :: devices != {b} by {
        forall b: nat ensures devices != {b} {
          assert |{b}| == 1;
        }
      }
      PairOutputIs(t, devices, d);
    }
  }

  lemma PairOutputIs(t: Tuning, devices: Mask, d: int)
    requires IsOut(d) && t.mode != InCall && t.mode != InCommunication && |devices| != 1
    requires forall b: nat :: devices != {b}
    ensures GetOutputSndDevice(t, devices) == d <==> ChosenOut(t, devices, OutTagOf(d))
  {
    assert {OUT_WIRED_HEADPHONE, OUT_SPEAKER} == {OUT_SPEAKER, OUT_WIRED_HEADPHONE};
    assert {OUT_WIRED_HEADSET, OUT_SPEAKER} == {OUT_SPEAKER, OUT_WIRED_HEADSET};
    assert |{OUT_SPEAKER, OUT_WIRED_HEADPHONE}| == 2 && |{OUT_SPEAKER, OUT_WIRED_HEADSET}| == 2;
  }

  // Main result: for every mask, in every mode, the device that is picked is the one whose group is that of
  // the mode and whose place is the first in the order of the mode that the mask has; and none is picked
  // only when no device is chosen in this sense.
  lemma OutputIs(t: Tuning, devices: Mask, d: int)
    requires IsOut(d)
    ensures GetOutputSndDevice(t, devices) == d <==> ChosenOut(t, devices, OutTagOf(d))
  {
    hide FirstGives;
    if t.mode == InCall {
      CallOrderIs(devices, OutTagOf(d).place);
      InCallNeedsABit(devices);
    } else if t.mode == InCommunication {
      CommunicationOrderIs(devices, OutTagOf(d).place);
      InCallNeedsABit(devices);
    } else {
      PlainOutputIs(t, devices, d);
    }
  }

  // A mask without a known bit is no known mask.
  lemma InCallNeedsABit(devices: Mask)
    ensures devices * OUT_ALL_SCO == {} && OUT_WIRED_HEADPHONE !in devices && OUT_WIRED_HEADSET !in devices
            && OUT_SPEAKER !in devices ==>
      devices != {OUT_WIRED_HEADPHONE, OUT_SPEAKER} && devices != {OUT_WIRED_HEADSET, OUT_SPEAKER}
  {
  }

  /* ---- Input ---- */

  const CALL_MICS: seq<Rule<Mic>> := [
    Rule(OutBit(4), BluetoothMic), Rule(OutBit(5), BluetoothMic), Rule(OutBit(6), BluetoothMic),
    Rule(OutBit(OUT_WIRED_HEADSET), HeadsetMic), Rule(OutBit(OUT_EARPIECE), EarpieceMic),
    Rule(OutBit(OUT_WIRED_HEADPHONE), EarpieceMic), Rule(OutBit(OUT_SPEAKER), SpeakerMic)]

  const COMMUNICATION_MICS: seq<Rule<Mic>> := [
    Rule(OutBit(OUT_BLUETOOTH_SCO_HEADSET), BluetoothMic), Rule(OutBit(OUT_SPEAKER), SpeakerMic),
    Rule(InBit(IN_BACK_MIC), SpeakerMic), Rule(BothBits(IN_BUILTIN_MIC, OUT_WIRED_HEADPHONE), SpeakerMic),
    Rule(InBit(IN_BUILTIN_MIC), EarpieceMic), Rule(InBit(IN_WIRED_HEADSET), HeadsetMic)]

  const CAMCORDER_MICS: seq<Rule<Mic>> := [Rule(InBit(IN_WIRED_HEADSET), HeadsetMic), Rule(Always, MainMic)]

  const RECOGNITION_MICS: seq<Rule<Mic>> := [
    Rule(InBit(IN_BUILTIN_MIC), MainMic), Rule(InBit(IN_WIRED_HEADSET), HeadsetMic),
    Rule(InBit(IN_BLUETOOTH_SCO_HEADSET), BluetoothMic)]

  const MICS_BESIDE_OUTPUT: seq<Rule<Mic>> := [
    Rule(OutBit(OUT_WIRED_HEADSET), HeadsetMic), Rule(OutBit(OUT_EARPIECE), EarpieceMic),
    Rule(OutBit(OUT_WIRED_HEADPHONE), EarpieceMic), Rule(OutBit(OUT_SPEAKER), SpeakerMic)]

  // When the order of the mode or the source gives nothing.
  const DEFAULT_BY_INPUT: seq<Rule<Mic>> := [
    Rule(InBit(IN_BUILTIN_MIC), EarpieceMic), Rule(InBit(IN_BACK_MIC), SpeakerMic),
    Rule(InBit(IN_WIRED_HEADSET), HeadsetMic), Rule(InBit(IN_BLUETOOTH_SCO_HEADSET), BluetoothMic),
    Rule(Always, EarpieceMic)]

  const DEFAULT_BY_OUTPUT: seq<Rule<Mic>> := [
    Rule(OutBit(OUT_EARPIECE), EarpieceMic), Rule(OutBit(OUT_WIRED_HEADSET), HeadsetMic),
    Rule(OutBit(OUT_SPEAKER), SpeakerMic), Rule(OutBit(OUT_WIRED_HEADPHONE), EarpieceMic),
    Rule(OutBit(OUT_BLUETOOTH_SCO_HEADSET), BluetoothMic), Rule(Always, EarpieceMic)]

  datatype Preference = Preference(family: Family, order: seq<Rule<Mic>>)

  function SourceOf(input: Option<InView>): Source { if input.None? then SourceDefault else input.value.source }

  function InMaskOf(input: Option<InView>): Mask { if input.None? then {} else input.value.devices - {BIT_IN} }

  // The family and the order of a mode and a source; a call goes before the source, communication after it.
  function PreferenceOf(mode: Mode, input: Option<InView>): Preference {
    var source := SourceOf(input);
    if mode == InCall then Preference(CallMics, CALL_MICS)
    else if source == SourceVoiceCommunication || mode == InCommunication then
      Preference(CommunicationMics, if input.Some? then COMMUNICATION_MICS else [])
    else if source == SourceCamcorder then Preference(CamcorderMics, CAMCORDER_MICS)
    else if source == SourceVoiceRecognition then Preference(RecognitionMics, RECOGNITION_MICS)
    else if source == SourceMic then Preference(PlainMics, MICS_BESIDE_OUTPUT)
    else Preference(PlainMics, [])
  }

  // The capture mask decides the default unless it is empty or names a call or a communication device.
  predicate DefaultByInput(inMask: Mask) { inMask != {} && IN_VOICE_CALL !in inMask && IN_COMMUNICATION !in inMask }

  predicate NoMicWanted(mode: Mode, source: Source, outMask: Mask) {
    if mode == InCall then outMask == {} else mode != InCommunication && source == SourceDefault
  }

  predicate ChosenIn(t: Tuning, input: Option<InView>, outMask: Mask, tag: MicTag) {
    var p, inMask := PreferenceOf(t.mode, input), InMaskOf(input);
    && !NoMicWanted(t.mode, SourceOf(input), outMask)
    && if NoneGives(p.order, inMask, outMask) then
         && tag.family == PlainMics && !tag.wide
         && FirstGives(if DefaultByInput(inMask) then DEFAULT_BY_INPUT else DEFAULT_BY_OUTPUT, inMask, outMask, tag.mic)
       else
         && tag.family == p.family
         && FirstGives(p.order, inMask, outMask, tag.mic)
         && (tag.wide <==> tag.family == CallMics && if tag.mic == BluetoothMic then t.btWideband else t.wideband)
  }

  // The default, with any mask for which the bits say the same.
  lemma DefaultIs(mic: Mask, inMask: Mask, outMask: Mask, d: int)
    requires IsIn(d)
    requires (mic == inMask && BIT_IN !in inMask) || (inMask == {} && mic == {IN_BACK_MIC, BIT_IN})
    ensures FallbackInput(mic, outMask) == d
       <==> var tag := MicTagOf(d);
            && tag.family == PlainMics && !tag.wide
            && FirstGives(if DefaultByInput(inMask) then DEFAULT_BY_INPUT else DEFAULT_BY_OUTPUT, inMask, outMask, tag.mic)
  {
    var rules := if DefaultByInput(inMask) then DEFAULT_BY_INPUT else DEFAULT_BY_OUTPUT;
    FirstIsSpelledOut(rules, inMask, outMask, MicTagOf(d).mic);
    hide FirstGives, NoneGives;
    ForbiddenBits(mic);
  }

  lemma ForbiddenBits(mic: Mask)
    ensures mic * {IN_VOICE_CALL, IN_COMMUNICATION, BIT_IN} == {}
       <==> IN_VOICE_CALL !in mic && IN_COMMUNICATION !in mic && BIT_IN !in mic
  {
    var both := mic * {IN_VOICE_CALL, IN_COMMUNICATION, BIT_IN};
    if both != {} {
      var b :| b in both;
    } else {
      assert IN_VOICE_CALL !in both && IN_COMMUNICATION !in both && BIT_IN !in both;
    }
  }

  lemma CallInputChosen(t: Tuning, input: Option<InView>, outMask: Mask, d: int)
    requires IsIn(d) && t.mode == InCall
    ensures GetInputSndDevice(t, input, outMask) == d <==> ChosenIn(t, input, outMask, MicTagOf(d))
  {
    var inMask := InMaskOf(input);
    DefaultIs(inMask, inMask, outMask, d);
    FirstIsSpelledOut(CALL_MICS, inMask, outMask, MicTagOf(d).mic);
    AnyBluetooth(outMask);
    hide FallbackInput, FirstGives, NoneGives, DefaultByInput;
  }

  lemma CommunicationInputChosen(t: Tuning, input: Option<InView>, outMask: Mask, d: int)
    requires IsIn(d) && t.mode != InCall && (SourceOf(input) == SourceVoiceCommunication || t.mode == InCommunication)
    ensures GetInputSndDevice(t, input, outMask) == d <==> ChosenIn(t, input, outMask, MicTagOf(d))
  {
    var inMask := InMaskOf(input);
    var mic := if OUT_SPEAKER in outMask then {IN_BACK_MIC, BIT_IN} else inMask;
    FirstIsSpelledOut(PreferenceOf(t.mode, input).order, inMask, outMask, MicTagOf(d).mic);
    BackOrIn(mic);
    if input.None? || OUT_SPEAKER !in outMask {
      DefaultIs(mic, inMask, outMask, d);
    }
    hide FallbackInput, FirstGives, NoneGives, DefaultByInput;
  }

  lemma BackOrIn(mic: Mask)
    ensures mic * {IN_BACK_MIC, BIT_IN} != {} <==> IN_BACK_MIC in mic || BIT_IN in mic
  {
    var both := mic * {IN_BACK_MIC, BIT_IN};
    if both != {} {
      var b :| b in both;
    } else {
      assert IN_BACK_MIC !in both && BIT_IN !in both;
    }
  }

  lemma SourceInputChosen(t: Tuning, input: Option<InView>, outMask: Mask, d: int)
    requires IsIn(d) && t.mode != InCall && t.mode != InCommunication && SourceOf(input) != SourceVoiceCommunication
    ensures GetInputSndDevice(t, input, outMask) == d <==> ChosenIn(t, input, outMask, MicTagOf(d))
  {
    var inMask := InMaskOf(input);
    FirstIsSpelledOut(PreferenceOf(t.mode, input).order, inMask, outMask, MicTagOf(d).mic);
    DefaultIs(inMask, inMask, outMask, d);
    hide FallbackInput, FirstGives, NoneGives, DefaultByInput;
  }

  // Main result: for every mode, stream and pair of masks, the microphone that is picked is of the family of
  // the mode or the source and the first in its order that the masks have; or, when they have none of the
  // order, a plain one by the default order of the capture mask or of the output mask.
  lemma InputIs(t: Tuning, input: Option<InView>, outMask: Mask, d: int)
    requires IsIn(d)
    ensures GetInputSndDevice(t, input, outMask) == d <==> ChosenIn(t, input, outMask, MicTagOf(d))
  {
    if t.mode == InCall {
      CallInputChosen(t, input, outMask, d);
    } else if t.mode == InCommunication || SourceOf(input) == SourceVoiceCommunication {
      CommunicationInputChosen(t, input, outMask, d);
    } else {
      SourceInputChosen(t, input, outMask, d);
    }
  }
}
