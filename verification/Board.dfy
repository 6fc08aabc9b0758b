/** The sound-device board of audio_hw.c on values: the reference counts, the listed use cases and the
    log of mixer updates, with the functions that enable, disable and route devices. */
module Board {
  import opened Options
  import opened SndDevices

  datatype Kind = Playback | Capture | VoiceCall

  // audio_usecase_t.
  type UsecaseId = i: int | 0 <= i < USECASE_MAX

  // The others are playback: 1 is multi-channel.
  const ID_PLAYBACK: UsecaseId := 0
  const ID_PLAYBACK_DEEP_BUFFER: UsecaseId := 2
  const ID_CAPTURE: UsecaseId := 3
  const ID_VOICE_CALL: UsecaseId := 4
  const USECASE_MAX := 5

  // Every use case is created with the type that goes with its id.
  function KindOf(id: UsecaseId): Kind {
    if id == ID_CAPTURE then Capture else if id == ID_VOICE_CALL then VoiceCall else Playback
  }

  // usecase_type_t. PCM_PLAYBACK is 0, so no mask can select a playback use case.
  function TypeBits(k: Kind): bv2 {
    match k
    case Playback => 0
    case Capture => 1
    case VoiceCall => 2
  }

  const CAPTURE_OR_CALL: bv2 := 3

  // struct audio_usecase. `card`: the mixer card is in its mixer_list. Its devices field is written and
  // never read after the entry is made, so it is not kept here.
  datatype Usecase = Usecase(id: UsecaseId, out: int, inp: int, card: bool)

  datatype MixerEvent = Apply(d: int) | Reset(d: int)

  datatype Board = Board(cnt: seq<int>, list: seq<Usecase>, log: seq<MixerEvent>)

  // The device a routing pass over use cases of kind k looks at, and writes.
  function DeviceOf(u: Usecase, k: Kind): int {
    if k == Playback then u.out else u.inp
  }

  function WithDevice(u: Usecase, k: Kind, d: int): Usecase {
    if k == Playback then u.(out := d) else u.(inp := d)
  }

  function FromId(list: seq<Usecase>, id: UsecaseId): (r: Option<nat>)
    ensures r.Some? ==> r.value < |list| && list[r.value].id == id
    ensures r.Some? ==> forall j :: 0 <= j < r.value ==> list[j].id != id
    ensures r.None? ==> forall j :: 0 <= j < |list| ==> list[j].id != id
  {
    FromIdAfter(list, id, 0)
  }

  function FromIdAfter(list: seq<Usecase>, id: UsecaseId, i: nat): (r: Option<nat>)
    requires i <= |list|
    requires forall j :: 0 <= j < i ==> list[j].id != id
    ensures r.Some? ==> r.value < |list| && list[r.value].id == id
    ensures r.Some? ==> forall j :: 0 <= j < r.value ==> list[j].id != id
    ensures r.None? ==> forall j :: 0 <= j < |list| ==> list[j].id != id
    decreases |list| - i
  {
    if i == |list| then None
    else if list[i].id == id then Some(i)
    else FromIdAfter(list, id, i + 1)
  }

  predicate Selects(mask: bv2, u: Usecase) { TypeBits(KindOf(u.id)) & mask != 0 }

  function FromType(list: seq<Usecase>, mask: bv2): (r: Option<nat>)
    ensures r.Some? ==> r.value < |list| && Selects(mask, list[r.value])
    ensures r.Some? ==> forall j :: 0 <= j < r.value ==> !Selects(mask, list[j])
    ensures r.None? ==> forall j :: 0 <= j < |list| ==> !Selects(mask, list[j])
  {
    FromTypeAfter(list, mask, 0)
  }

  function FromTypeAfter(list: seq<Usecase>, mask: bv2, i: nat): (r: Option<nat>)
    requires i <= |list|
    requires forall j :: 0 <= j < i ==> !Selects(mask, list[j])
    ensures r.Some? ==> r.value < |list| && Selects(mask, list[r.value])
    ensures r.Some? ==> forall j :: 0 <= j < r.value ==> !Selects(mask, list[j])
    ensures r.None? ==> forall j :: 0 <= j < |list| ==> !Selects(mask, list[j])
    decreases |list| - i
  {
    if i == |list| then None
    else if Selects(mask, list[i]) then Some(i)
    else FromTypeAfter(list, mask, i + 1)
  }

  /* ---- The operations ---- */

  function Enable(b: Board, card: bool, d: int): Board
    requires |b.cnt| == SND_DEVICE_MAX
  {
    if !Named(d) then b
    else
      var c := b.cnt[d := b.cnt[d] + 1];
      if c[d] > 1 || !card then b.(cnt := c)
      else b.(cnt := c, log := b.log + [Apply(d)])
  }

  function Disable(b: Board, card: bool, d: int): Board
    requires |b.cnt| == SND_DEVICE_MAX
  {
    if !Named(d) || b.cnt[d] <= 0 then b
    else
      var c := b.cnt[d := b.cnt[d] - 1];
      if c[d] == 0 && card then b.(cnt := c, log := b.log + [Reset(d)])
      else b.(cnt := c)
  }

  // First pass of check_and_route_usecases: the ids it marks among the first n entries.
  function Marked(list: seq<Usecase>, n: nat, keep: nat, k: Kind, d: int): (ids: set<UsecaseId>)
    requires n <= |list|
    ensures forall id :: id in ids <==>
              exists j :: 0 <= j < n && list[j].id == id && Misplaced(list, j, keep, k, d)
  {
    set j | 0 <= j < n && Misplaced(list, j, keep, k, d) :: list[j].id
  }

  predicate Misplaced(list: seq<Usecase>, j: nat, keep: nat, k: Kind, d: int)
    requires j < |list|
  {
    KindOf(list[j].id) == k && j != keep && DeviceOf(list[j], k) != d
  }

  function Move(b: Board, j: nat, k: Kind, d: int): (r: Board)
    requires |b.cnt| == SND_DEVICE_MAX && j < |b.list|
    ensures |r.cnt| == SND_DEVICE_MAX && |r.list| == |b.list|
  {
    var u := b.list[j];
    var b1 := Enable(Disable(b, u.card, DeviceOf(u, k)), u.card, d);
    b1.(list := b.list[j := WithDevice(u, k, d)])
  }

  // Second pass: moves every entry from position j on whose id is marked.
  function MoveMarked(b: Board, j: nat, ids: set<UsecaseId>, k: Kind, d: int): (r: Board)
    requires |b.cnt| == SND_DEVICE_MAX && j <= |b.list|
    ensures |r.cnt| == SND_DEVICE_MAX && |r.list| == |b.list|
    decreases |b.list| - j
  {
    if j == |b.list| then b
    else if b.list[j].id in ids then MoveMarked(Move(b, j, k, d), j + 1, ids, k, d)
    else MoveMarked(b, j + 1, ids, k, d)
  }

  function CheckAndRoute(b: Board, keep: nat, k: Kind, d: int): (r: Board)
    requires |b.cnt| == SND_DEVICE_MAX
    ensures |r.cnt| == SND_DEVICE_MAX && |r.list| == |b.list|
  {
    MoveMarked(b, 0, Marked(b.list, |b.list|, keep, k, d), k, d)
  }

  function DisableIfSet(b: Board, card: bool, d: int): (r: Board)
    requires |b.cnt| == SND_DEVICE_MAX
    ensures |r.cnt| == SND_DEVICE_MAX && r.list == b.list
  {
    if d != NONE then Disable(b, card, d) else b
  }

  function RouteAndEnable(b: Board, i: nat, k: Kind, d: int): (r: Board)
    requires |b.cnt| == SND_DEVICE_MAX && i < |b.list|
    ensures |r.cnt| == SND_DEVICE_MAX && |r.list| == |b.list|
  {
    if d != NONE then Enable(CheckAndRoute(b, i, k, d), b.list[i].card, d) else b
  }

  // The part of select_devices after the new pair of devices is known.
  function Assign(b: Board, i: nat, out: int, inp: int): (r: Board)
    requires |b.cnt| == SND_DEVICE_MAX && i < |b.list|
    ensures |r.cnt| == SND_DEVICE_MAX && |r.list| == |b.list|
  {
    var u := b.list[i];
    if out == u.out && inp == u.inp then b
    else
      var b1 := DisableIfSet(DisableIfSet(b, u.card, u.out), u.card, u.inp);
      var b2 := RouteAndEnable(RouteAndEnable(b1, i, Playback, out), i, Capture, inp);
      b2.(list := b2.list[i := b2.list[i].(out := out, inp := inp)])
  }

  // A new entry at the tail of the list, on no device.
  function Append(b: Board, id: UsecaseId, card: bool): Board {
    b.(list := b.list + [Usecase(id, NONE, NONE, card)])
  }

  function Remove(b: Board, i: nat): Board
    requires i < |b.list|
  {
    b.(list := b.list[..i] + b.list[i + 1..])
  }

  // disable_snd_device on the devices of entry i, then list_remove: stop_input_stream disables only the
  // in device, disable_output_path_l only the out device, stop_voice_call both.
  function Drop(b: Board, i: nat): Board
    requires |b.cnt| == SND_DEVICE_MAX && i < |b.list|
  {
    var u := b.list[i];
    var b1 := if KindOf(u.id) == Capture then b else Disable(b, u.card, u.out);
    var b2 := if KindOf(u.id) == Playback then b1 else Disable(b1, u.card, u.inp);
    Remove(b2, i)
  }
}
