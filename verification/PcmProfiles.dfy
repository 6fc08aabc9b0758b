/** The PCM device profiles of audio_hw.c: which profile serves a stream, and the capture buffer size that
    follows from it. */
module PcmProfiles {
  import opened Options
  import opened SndDevices
  import opened Board

  type Rate = r: int | 0 < r witness 1

  datatype Profile = Profile(kind: Kind, devices: Mask, periodSize: nat, rate: Rate)

  const PLAYBACK_PERIOD_SIZE := 256
  const CAPTURE_PERIOD_SIZE := 1024
  const CAPTURE_PERIOD_SIZE_LOW_LATENCY := 256
  const DEFAULT_SAMPLING_RATE: Rate := 48000

  // pcm_devices[]. Starting a fast capture stream lowers the period of the shared capture profile for
  // good, so that period is a parameter.
  function PcmDevices(capturePeriod: nat): seq<Profile> {
    [ Profile(Playback, {OUT_WIRED_HEADSET, OUT_WIRED_HEADPHONE, OUT_SPEAKER, OUT_EARPIECE} + OUT_ALL_SCO,
              PLAYBACK_PERIOD_SIZE, DEFAULT_SAMPLING_RATE),
      Profile(Capture, {IN_BUILTIN_MIC, IN_WIRED_HEADSET, IN_BACK_MIC, IN_BLUETOOTH_SCO_HEADSET, BIT_IN},
              capturePeriod, DEFAULT_SAMPLING_RATE),
      Profile(Playback, {OUT_SPEAKER, OUT_WIRED_HEADSET, OUT_WIRED_HEADPHONE},
              PLAYBACK_PERIOD_SIZE, DEFAULT_SAMPLING_RATE) ]
  }

  function GetPcmDevice(kind: Kind, devices: Mask, capturePeriod: nat): Option<Profile> {
    if devices - {BIT_IN} == {} then None
    else FirstServing(PcmDevices(capturePeriod), kind, devices - {BIT_IN})
  }

  predicate Serves(p: Profile, kind: Kind, devices: Mask) { p.kind == kind && devices <= p.devices }

  function FirstServing(profiles: seq<Profile>, kind: Kind, devices: Mask): (r: Option<Profile>)
    ensures r.Some? ==> r.value in profiles && Serves(r.value, kind, devices)
    ensures r.Some? ==> exists k :: 0 <= k < |profiles| && profiles[k] == r.value
                          && forall j :: 0 <= j < k ==> !Serves(profiles[j], kind, devices)
    ensures r.None? ==> forall p :: p in profiles ==> !Serves(p, kind, devices)
  {
    if profiles == [] then None
    else if Serves(profiles[0], kind, devices) then Some(profiles[0])
    else FirstServing(profiles[1..], kind, devices)
  }

  predicate Served(kind: Kind, devices: Mask) {
    GetPcmDevice(kind, devices, CAPTURE_PERIOD_SIZE).Some?
  }

  // By the bits: playback is served on earpiece, speaker, wired and Bluetooth devices, capture on the
  // built-in, headset, back and Bluetooth microphones, and on nothing else.
  lemma ServedIff(devices: Mask)
    ensures Served(Playback, devices) <==> devices - {BIT_IN} != {} && devices - {BIT_IN} <= {0, 1, 2, 3, 4, 5, 6}
    ensures Served(Capture, devices) <==> devices - {BIT_IN} != {} && devices - {BIT_IN} <= {2, 3, 4, 7}
    ensures !Served(VoiceCall, devices)
  {
    var d := devices - {BIT_IN};
    var ps := PcmDevices(CAPTURE_PERIOD_SIZE);
    assert ps[0] in ps && ps[1] in ps && ps[2] in ps;
    assert ps[0].devices == {0, 1, 2, 3, 4, 5, 6};
    assert ps[1].devices - {BIT_IN} == {2, 3, 4, 7};
    assert ps[2].devices <= ps[0].devices;
    assert forall p :: p in ps <==> p == ps[0] || p == ps[1] || p == ps[2];
  }

  predicate AcceptedInput(sampleRate: nat, pcm16: bool, channels: int) {
    && pcm16
    && 1 <= channels <= 2
    && sampleRate in {8000, 11025, 12000, 16000, 22050, 24000, 32000, 44100, 48000}
  }

  const TWO_TO_THE_32 := 0x1_0000_0000

  // Unsigned 32-bit products wrap.
  function GetInputBufferSize(sampleRate: nat, pcm16: bool, channels: int, kind: Kind, devices: Mask,
                              capturePeriod: nat): nat {
    if !AcceptedInput(sampleRate, pcm16, channels) then 0
    else
      match GetPcmDevice(kind, devices, capturePeriod)
      case None => 0
      case Some(profile) =>
        var size := ((profile.periodSize * sampleRate) % TWO_TO_THE_32) / profile.rate;
        RoundUp16(size) * channels * 2
  }

  function RoundUp16(size: nat): nat { ((size + 15) / 16) * 16 }

  predicate LeastMultipleOf16(frames: nat, low: nat) {
    frames % 16 == 0 && low <= frames && forall m: nat :: m % 16 == 0 && low <= m ==> frames <= m
  }

  lemma RoundUpIsLeast(low: nat)
    ensures LeastMultipleOf16(RoundUp16(low), low)
  {
    forall m: nat | m % 16 == 0 && low <= m
      ensures RoundUp16(low) <= m
    {
      assert m == (m / 16) * 16;
    }
  }

  lemma ServingProfile(kind: Kind, devices: Mask, capturePeriod: nat)
    requires GetPcmDevice(kind, devices, capturePeriod).Some?
    ensures var p := GetPcmDevice(kind, devices, capturePeriod).value;
      p.rate == DEFAULT_SAMPLING_RATE && p.periodSize in {PLAYBACK_PERIOD_SIZE, capturePeriod}
  {
    assert GetPcmDevice(kind, devices, capturePeriod).value in PcmDevices(capturePeriod);
  }

  lemma PeriodProduct(period: nat, sampleRate: nat)
    requires period == 256 || period == 1024
    requires 8000 <= sampleRate <= 48000
    ensures period * sampleRate < TWO_TO_THE_32
    ensures (period * sampleRate) / DEFAULT_SAMPLING_RATE > 0
  {
  }

  // The size in bytes is a least multiple of 16 frames that covers one kernel period at the stream's
  // rate, no product wraps, and a rejected request and only a rejected request gives 0.
  lemma InputBufferSize(sampleRate: nat, pcm16: bool, channels: int, kind: Kind, devices: Mask,
                        capturePeriod: nat) returns (frames: nat)
    requires capturePeriod == CAPTURE_PERIOD_SIZE || capturePeriod == CAPTURE_PERIOD_SIZE_LOW_LATENCY
    ensures var size := GetInputBufferSize(sampleRate, pcm16, channels, kind, devices, capturePeriod);
      var profile := GetPcmDevice(kind, devices, capturePeriod);
      if AcceptedInput(sampleRate, pcm16, channels) && profile.Some? then
        profile.value.periodSize * sampleRate < TWO_TO_THE_32 &&
        LeastMultipleOf16(frames, (profile.value.periodSize * sampleRate) / profile.value.rate) &&
        size == frames * channels * 2 && size > 0
      else
        size == 0
  {
    frames := 0;
    var profile := GetPcmDevice(kind, devices, capturePeriod);
    if AcceptedInput(sampleRate, pcm16, channels) && profile.Some? {
      ServingProfile(kind, devices, capturePeriod);
      var period := profile.value.periodSize;
      PeriodProduct(period, sampleRate);
      var low := (period * sampleRate) / DEFAULT_SAMPLING_RATE;
      frames := RoundUp16(low);
      RoundUpIsLeast(low);
      assert (period * sampleRate) % TWO_TO_THE_32 == period * sampleRate;
      assert frames * channels > 0;
    }
  }
}
