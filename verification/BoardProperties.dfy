/** What every operation on the sound-device board keeps: exact reference counts, one device for the
    whole playback backend, and mixer paths that agree with the counts. */
module BoardProperties {
  import opened Options
  import opened SndDevices
  import opened Board

  /* ---- Counting the users of a device ---- */

  function Uses(u: Usecase, d: int): nat {
    (if u.out == d then 1 else 0) + (if u.inp == d then 1 else 0)
  }

  function Users(list: seq<Usecase>, d: int): nat {
    if list == [] then 0 else Uses(list[0], d) + Users(list[1..], d)
  }

  function Without(list: seq<Usecase>, i: nat): seq<Usecase>
    requires i < |list|
  {
    list[..i] + list[i + 1..]
  }

  lemma {:induction false} UsersConcat(a: seq<Usecase>, b: seq<Usecase>, d: int)
    ensures Users(a + b, d) == Users(a, d) + Users(b, d)
  {
    if a == [] {
      assert a + b == b;
    } else {
      assert (a + b)[1..] == a[1..] + b;
      UsersConcat(a[1..], b, d);
    }
  }

  lemma UsersSplit(list: seq<Usecase>, i: nat, d: int)
    requires i < |list|
    ensures Users(list, d) == Users(Without(list, i), d) + Uses(list[i], d)
  {
    assert list == list[..i] + ([list[i]] + list[i + 1..]);
    UsersConcat(list[..i], [list[i]] + list[i + 1..], d);
    UsersConcat([list[i]], list[i + 1..], d);
    assert Users([list[i]], d) == Uses(list[i], d);
    UsersConcat(list[..i], list[i + 1..], d);
  }

  lemma UsersUpdate(list: seq<Usecase>, i: nat, u: Usecase, d: int)
    requires i < |list|
    ensures Users(list[i := u], d) == Users(list, d) - Uses(list[i], d) + Uses(u, d)
  {
    UsersSplit(list, i, d);
    UsersSplit(list[i := u], i, d);
    assert Without(list[i := u], i) == Without(list, i);
  }

  /* ---- Exact reference counts ---- */

  ghost predicate Exact(b: Board) {
    && |b.cnt| == SND_DEVICE_MAX
    && b.cnt[NONE] == 0
    && forall d :: NONE < d < SND_DEVICE_MAX ==> b.cnt[d] == Users(b.list, d)
  }

  // The board with the entry at position i replaced by u. While select_devices runs, the counts are
  // exact for a list in which the entry it serves is already moved and its fields are not.
  function Shadow(b: Board, i: nat, u: Usecase): Board
    requires i < |b.list|
  {
    b.(list := b.list[i := u])
  }

  lemma DisableKeepsExact(b: Board, i: nat, u: Usecase, k: Kind, card: bool)
    requires i < |b.list| && Exact(Shadow(b, i, u)) && Named(DeviceOf(u, k))
    ensures Exact(Shadow(DisableIfSet(b, card, DeviceOf(u, k)), i, WithDevice(u, k, NONE)))
  {
    var d := DeviceOf(u, k);
    var was := b.list[i := u];
    var now := b.list[i := WithDevice(u, k, NONE)];
    forall e | NONE < e < SND_DEVICE_MAX
      ensures Users(now, e) == Users(was, e) - (if e == d then 1 else 0)
    {
      UsersUpdate(was, i, WithDevice(u, k, NONE), e);
      assert was[i := WithDevice(u, k, NONE)] == now;
    }
  }

  lemma EnableKeepsExact(b: Board, i: nat, u: Usecase, k: Kind, card: bool, d: int)
    requires i < |b.list| && Exact(Shadow(b, i, u)) && DeviceOf(u, k) == NONE && NONE < d < SND_DEVICE_MAX
    ensures Exact(Shadow(Enable(b, card, d), i, WithDevice(u, k, d)))
  {
    var was := b.list[i := u];
    var now := b.list[i := WithDevice(u, k, d)];
    forall e | NONE < e < SND_DEVICE_MAX
      ensures Users(now, e) == Users(was, e) + (if e == d then 1 else 0)
    {
      UsersUpdate(was, i, WithDevice(u, k, d), e);
      assert was[i := WithDevice(u, k, d)] == now;
    }
  }

  lemma MoveKeepsExact(b: Board, j: nat, k: Kind, d: int)
    requires j < |b.list| && Exact(b) && Named(DeviceOf(b.list[j], k)) && NONE < d < SND_DEVICE_MAX
    ensures Exact(Move(b, j, k, d))
  {
    var u := b.list[j];
    assert Shadow(b, j, u) == b by {
      assert b.list[j := u] == b.list;
    }
    DisableKeepsExact(b, j, u, k, u.card);
    var b1 := DisableIfSet(b, u.card, DeviceOf(u, k));
    EnableKeepsExact(b1, j, WithDevice(u, k, NONE), k, u.card, d);
    assert WithDevice(WithDevice(u, k, NONE), k, d) == WithDevice(u, k, d);
  }

  // No entry is on a device of the wrong direction, or on one without a name.
  predicate Shaped(u: Usecase) {
    && (u.out == NONE || IsOut(u.out))
    && (u.inp == NONE || IsIn(u.inp))
    && (KindOf(u.id) == Playback ==> u.inp == NONE)
    && (KindOf(u.id) == Capture ==> u.out == NONE)
  }

  predicate AllShaped(list: seq<Usecase>) {
    forall i :: 0 <= i < |list| ==> Shaped(list[i])
  }

  predicate AllNamed(list: seq<Usecase>) {
    forall i :: 0 <= i < |list| ==> Named(list[i].out) && Named(list[i].inp)
  }

  lemma {:induction false} MoveMarkedKeepsExact(b: Board, j: nat, ids: set<UsecaseId>, k: Kind, d: int)
    requires j <= |b.list| && Exact(b) && AllNamed(b.list) && NONE < d < SND_DEVICE_MAX
    ensures Exact(MoveMarked(b, j, ids, k, d))
    decreases |b.list| - j
  {
    if j == |b.list| {
    } else {
      if b.list[j].id in ids {
        MoveKeepsExact(b, j, k, d);
        MoveMarkedKeepsExact(Move(b, j, k, d), j + 1, ids, k, d);
      } else {
        MoveMarkedKeepsExact(b, j + 1, ids, k, d);
      }
    }
  }

  lemma {:induction false} MoveMarkedNone(b: Board, j: nat, ids: set<UsecaseId>, k: Kind, d: int)
    requires |b.cnt| == SND_DEVICE_MAX && j <= |b.list| && ids == {}
    ensures MoveMarked(b, j, ids, k, d) == b
    decreases |b.list| - j
  {
    if j == |b.list| {
    } else {
      MoveMarkedNone(b, j + 1, ids, k, d);
    }
  }

  lemma EnableOtherList(b: Board, list: seq<Usecase>, card: bool, d: int)
    requires |b.cnt| == SND_DEVICE_MAX
    ensures Enable(b.(list := list), card, d) == Enable(b, card, d).(list := list)
  {
  }

  lemma DisableOtherList(b: Board, list: seq<Usecase>, card: bool, d: int)
    requires |b.cnt| == SND_DEVICE_MAX
    ensures Disable(b.(list := list), card, d) == Disable(b, card, d).(list := list)
  {
  }

  lemma MoveShadow(b: Board, j: nat, k: Kind, d: int, i: nat, u: Usecase)
    requires |b.cnt| == SND_DEVICE_MAX && j < |b.list| && i < |b.list| && i != j
    ensures Move(Shadow(b, i, u), j, k, d) == Shadow(Move(b, j, k, d), i, u)
    ensures Move(b, j, k, d).list[i] == b.list[i]
  {
    var w := WithDevice(b.list[j], k, d);
    assert b.list[i := u][j := w] == b.list[j := w][i := u];
    DisableOtherList(b, b.list[i := u], b.list[j].card, DeviceOf(b.list[j], k));
    assert |Disable(b, b.list[j].card, DeviceOf(b.list[j], k)).cnt| == SND_DEVICE_MAX;
    hide Enable, Disable;
    EnableOtherList(Disable(b, b.list[j].card, DeviceOf(b.list[j], k)), b.list[i := u], b.list[j].card, d);
  }

  // Moving marked entries does not look at an entry that is not marked.
  lemma {:induction false} MoveMarkedShadow(b: Board, j: nat, ids: set<UsecaseId>, k: Kind, d: int, i: nat, u: Usecase)
    requires |b.cnt| == SND_DEVICE_MAX && j <= |b.list| && i < |b.list|
    requires u.id == b.list[i].id && u.id !in ids
    ensures MoveMarked(Shadow(b, i, u), j, ids, k, d) == Shadow(MoveMarked(b, j, ids, k, d), i, u)
    ensures MoveMarked(b, j, ids, k, d).list[i] == b.list[i]
    decreases |b.list| - j
  {
    hide Move;
    if j == |b.list| {
    } else {
      if b.list[j].id in ids {
        MoveShadow(b, j, k, d, i, u);
        MoveMarkedShadow(Move(b, j, k, d), j + 1, ids, k, d, i, u);
      } else {
        MoveMarkedShadow(b, j + 1, ids, k, d, i, u);
      }
    }
  }

  /* ---- What the two passes of check_and_route_usecases do to the list ---- */

  // No two entries share the id of a stream.
  predicate UniqueStreams(list: seq<Usecase>) {
    forall i, j :: 0 <= i < j < |list| && list[i].id == list[j].id ==> list[i].id == ID_VOICE_CALL
  }

  function Routed(list: seq<Usecase>, keep: nat, k: Kind, d: int): seq<Usecase> {
    seq(|list|, j requires 0 <= j < |list| =>
      if Misplaced(list, j, keep, k, d) then WithDevice(list[j], k, d) else list[j])
  }

  lemma {:induction false} MoveMarkedList(b: Board, j: nat, ids: set<UsecaseId>, k: Kind, d: int, m: nat)
    requires |b.cnt| == SND_DEVICE_MAX && j <= |b.list| && m < |b.list|
    ensures MoveMarked(b, j, ids, k, d).list[m]
         == if j <= m && b.list[m].id in ids then WithDevice(b.list[m], k, d) else b.list[m]
    decreases |b.list| - j
  {
    if j == |b.list| {
    } else {
      if b.list[j].id in ids {
        MoveMarkedList(Move(b, j, k, d), j + 1, ids, k, d, m);
      } else {
        MoveMarkedList(b, j + 1, ids, k, d, m);
      }
    }
  }

  lemma MarkedExactly(list: seq<Usecase>, keep: nat, k: Kind, d: int, m: nat)
    requires UniqueStreams(list) && k != VoiceCall && m < |list|
    ensures list[m].id in Marked(list, |list|, keep, k, d) <==> Misplaced(list, m, keep, k, d)
  {
    if list[m].id in Marked(list, |list|, keep, k, d) {
      var j :| 0 <= j < |list| && list[j].id == list[m].id && Misplaced(list, j, keep, k, d);
      assert j == m;
    }
  }

  // The two passes move every other entry of the kind that is elsewhere, and nothing else.
  lemma CheckAndRouteList(b: Board, keep: nat, k: Kind, d: int)
    requires |b.cnt| == SND_DEVICE_MAX && UniqueStreams(b.list) && k != VoiceCall
    ensures CheckAndRoute(b, keep, k, d).list == Routed(b.list, keep, k, d)
  {
    var ids := Marked(b.list, |b.list|, keep, k, d);
    forall m | 0 <= m < |b.list|
      ensures CheckAndRoute(b, keep, k, d).list[m] == Routed(b.list, keep, k, d)[m]
    {
      MoveMarkedList(b, 0, ids, k, d, m);
      MarkedExactly(b.list, keep, k, d, m);
    }
  }

  // Routing for an entry keeps the counts exact for the list in which that entry is already u.
  lemma CheckAndRouteKeepsExact(b: Board, i: nat, u: Usecase, k: Kind, d: int)
    requires i < |b.list| && u.id == b.list[i].id && UniqueStreams(b.list) && k != VoiceCall
    requires Exact(Shadow(b, i, u)) && AllNamed(Shadow(b, i, u).list) && NONE < d < SND_DEVICE_MAX
    ensures Exact(Shadow(CheckAndRoute(b, i, k, d), i, u))
  {
    var ids := Marked(b.list, |b.list|, i, k, d);
    MarkedExactly(b.list, i, k, d, i);
    MoveMarkedShadow(b, 0, ids, k, d, i, u);
    MoveMarkedKeepsExact(Shadow(b, i, u), 0, ids, k, d);
  }

  /* ---- What select_devices does ---- */

  // Where every entry is after entry i has been given the pair (out, inp).
  function Reassigned(list: seq<Usecase>, i: nat, out: int, inp: int): seq<Usecase>
    requires i < |list|
  {
    seq(|list|, j requires 0 <= j < |list| =>
      var u := list[j];
      if j == i then u.(out := out, inp := inp)
      else if KindOf(u.id) == Playback && out != NONE then u.(out := out)
      else if KindOf(u.id) == Capture && inp != NONE then u.(inp := inp)
      else u)
  }

  function MaybeRouted(list: seq<Usecase>, i: nat, k: Kind, d: int): seq<Usecase> {
    if d != NONE then Routed(list, i, k, d) else list
  }

  lemma RouteAndEnableList(b: Board, i: nat, k: Kind, d: int)
    requires |b.cnt| == SND_DEVICE_MAX && i < |b.list| && UniqueStreams(b.list) && k != VoiceCall
    ensures RouteAndEnable(b, i, k, d).list == MaybeRouted(b.list, i, k, d)
    ensures UniqueStreams(RouteAndEnable(b, i, k, d).list)
  {
    if d != NONE {
      CheckAndRouteList(b, i, k, d);
    }
  }

  lemma RoutedTwice(list: seq<Usecase>, i: nat, out: int, inp: int)
    requires i < |list|
    ensures var l := MaybeRouted(MaybeRouted(list, i, Playback, out), i, Capture, inp);
      |l| == |list| && l[i := l[i].(out := out, inp := inp)] == Reassigned(list, i, out, inp)
  {
    var l1 := MaybeRouted(list, i, Playback, out);
    assert |l1| == |list| && forall j :: 0 <= j < |l1| ==> l1[j].id == list[j].id;
  }

  lemma AssignList(b: Board, i: nat, out: int, inp: int)
    requires |b.cnt| == SND_DEVICE_MAX && i < |b.list| && UniqueStreams(b.list)
    requires !(out == b.list[i].out && inp == b.list[i].inp)
    ensures Assign(b, i, out, inp).list == Reassigned(b.list, i, out, inp)
  {
    var u := b.list[i];
    var b1 := DisableIfSet(DisableIfSet(b, u.card, u.out), u.card, u.inp);
    RouteAndEnableList(b1, i, Playback, out);
    RouteAndEnableList(RouteAndEnable(b1, i, Playback, out), i, Capture, inp);
    RoutedTwice(b.list, i, out, inp);
  }

  lemma RouteAndEnableKeepsExact(b: Board, i: nat, u: Usecase, k: Kind, d: int)
    requires i < |b.list| && u.id == b.list[i].id && UniqueStreams(b.list) && k != VoiceCall
    requires Exact(Shadow(b, i, u)) && AllNamed(Shadow(b, i, u).list) && Named(d) && DeviceOf(u, k) == NONE
    ensures Exact(Shadow(RouteAndEnable(b, i, k, d), i, WithDevice(u, k, d)))
    ensures UniqueStreams(RouteAndEnable(b, i, k, d).list)
    ensures RouteAndEnable(b, i, k, d).list[i] == b.list[i]
    ensures AllNamed(Shadow(RouteAndEnable(b, i, k, d), i, WithDevice(u, k, d)).list)
  {
    if d != NONE {
      CheckAndRouteKeepsExact(b, i, u, k, d);
      var r := CheckAndRoute(b, i, k, d);
      EnableKeepsExact(r, i, u, k, b.list[i].card, d);
      CheckAndRouteList(b, i, k, d);
      var s := Shadow(b, i, u).list;
      assert s[i] == u;
      forall m | 0 <= m < |b.list| && m != i
        ensures Named(r.list[m].out) && Named(r.list[m].inp)
      {
        assert s[m] == b.list[m];
      }
    } else {
      assert WithDevice(u, k, d) == u;
    }
  }

  // Main result: select_devices leaves the counts exact.
  lemma AssignKeepsExact(b: Board, i: nat, out: int, inp: int)
    requires i < |b.list| && Exact(b) && AllNamed(b.list) && UniqueStreams(b.list)
    requires Named(out) && Named(inp)
    ensures Exact(Assign(b, i, out, inp))
  {
    var u := b.list[i];
    if !(out == u.out && inp == u.inp) {
      assert b.list[i := u] == b.list;
      DisableKeepsExact(b, i, u, Playback, u.card);
      var v := u.(out := NONE);
      var b0 := DisableIfSet(b, u.card, u.out);
      DisableKeepsExact(b0, i, v, Capture, u.card);
      var w := u.(out := NONE, inp := NONE);
      assert WithDevice(v, Capture, NONE) == w;
      var b1 := DisableIfSet(b0, u.card, u.inp);
      RouteAndEnableKeepsExact(b1, i, w, Playback, out);
      var b2 := RouteAndEnable(b1, i, Playback, out);
      RouteAndEnableKeepsExact(b2, i, w.(out := out), Capture, inp);
      var b3 := RouteAndEnable(b2, i, Capture, inp);
      assert Assign(b, i, out, inp) == Shadow(b3, i, u.(out := out, inp := inp));
    }
  }

  /* ---- The shared playback backend ---- */

  predicate SharedBackend(list: seq<Usecase>) {
    forall i, j :: 0 <= i < j < |list|
      && KindOf(list[i].id) == Playback && KindOf(list[j].id) == Playback
      && list[i].out != NONE && list[j].out != NONE
      ==> list[i].out == list[j].out
  }

  // What holds of the board whenever the device lock is free.
  ghost predicate Sound(b: Board) {
    Exact(b) && UniqueStreams(b.list) && AllShaped(b.list) && SharedBackend(b.list)
  }

  predicate Fits(id: UsecaseId, out: int, inp: int) {
    && (out == NONE || IsOut(out))
    && (inp == NONE || IsIn(inp))
    && (KindOf(id) == Playback ==> inp == NONE)
    && (KindOf(id) == Capture ==> out == NONE)
  }

  lemma ReassignedKeepsShape(list: seq<Usecase>, i: nat, out: int, inp: int)
    requires i < |list| && Fits(list[i].id, out, inp) && UniqueStreams(list) && AllShaped(list)
    ensures UniqueStreams(Reassigned(list, i, out, inp)) && AllShaped(Reassigned(list, i, out, inp))
  {
  }

  lemma ReassignedKeepsShared(list: seq<Usecase>, i: nat, out: int, inp: int)
    requires i < |list| && Fits(list[i].id, out, inp) && SharedBackend(list)
    ensures SharedBackend(Reassigned(list, i, out, inp))
  {
  }

  // Main result: the new pair of devices reaches the entry, and the whole board stays sound.
  lemma AssignKeepsSound(b: Board, i: nat, out: int, inp: int)
    requires Sound(b) && i < |b.list| && Fits(b.list[i].id, out, inp)
    ensures Sound(Assign(b, i, out, inp))
  {
    AssignKeepsExact(b, i, out, inp);
    if !(out == b.list[i].out && inp == b.list[i].inp) {
      AssignList(b, i, out, inp);
      ReassignedKeepsShape(b.list, i, out, inp);
      ReassignedKeepsShared(b.list, i, out, inp);
    }
  }

  // The ids and the mixer cards stay as they were.
  lemma AssignFrame(b: Board, i: nat, out: int, inp: int, j: nat)
    requires |b.cnt| == SND_DEVICE_MAX && UniqueStreams(b.list) && i < |b.list| && j < |b.list|
    ensures Assign(b, i, out, inp).list[j].id == b.list[j].id
    ensures Assign(b, i, out, inp).list[j].card == b.list[j].card
    ensures Assign(b, i, out, inp).list[i].out == out && Assign(b, i, out, inp).list[i].inp == inp
  {
    if !(out == b.list[i].out && inp == b.list[i].inp) {
      AssignList(b, i, out, inp);
    }
  }

  lemma AppendKeepsSound(b: Board, id: UsecaseId, card: bool)
    requires Sound(b) && (id == ID_VOICE_CALL || FromId(b.list, id).None?)
    ensures Sound(Append(b, id, card))
  {
    var u := Usecase(id, NONE, NONE, card);
    forall d | NONE < d < SND_DEVICE_MAX
      ensures Users(b.list + [u], d) == Users(b.list, d)
    {
      UsersConcat(b.list, [u], d);
    }
  }

  // A disable of NONE, or of a device the kind never has, changes nothing.
  lemma DropAsDisables(b: Board, i: nat)
    requires Exact(b) && i < |b.list| && Shaped(b.list[i])
    ensures var u := b.list[i];
      Drop(b, i) == Remove(DisableIfSet(DisableIfSet(b, u.card, u.out), u.card, u.inp), i)
  {
    var u := b.list[i];
    var b1 := DisableIfSet(b, u.card, u.out);
    assert b1.cnt[NONE] == 0;
    assert b1 == if KindOf(u.id) == Capture then b else Disable(b, u.card, u.out);
    assert DisableIfSet(b1, u.card, u.inp) == if KindOf(u.id) == Playback then b1 else Disable(b1, u.card, u.inp);
  }

  lemma DropKeepsExact(b: Board, i: nat)
    requires Exact(b) && i < |b.list| && Shaped(b.list[i])
    ensures Exact(Drop(b, i))
  {
    var u := b.list[i];
    assert b.list[i := u] == b.list;
    DisableKeepsExact(b, i, u, Playback, u.card);
    var b1 := DisableIfSet(b, u.card, u.out);
    DisableKeepsExact(b1, i, u.(out := NONE), Capture, u.card);
    var b2 := DisableIfSet(b1, u.card, u.inp);
    var w := u.(out := NONE, inp := NONE);
    assert WithDevice(u.(out := NONE), Capture, NONE) == w;
    DropAsDisables(b, i);
    forall d | NONE < d < SND_DEVICE_MAX
      ensures b2.cnt[d] == Users(Without(b.list, i), d)
    {
      UsersSplit(b.list[i := w], i, d);
      assert Without(b.list[i := w], i) == Without(b.list, i);
    }
  }

  // Main result: stopping a use case gives back exactly its devices.
  lemma DropKeepsSound(b: Board, i: nat)
    requires Sound(b) && i < |b.list|
    ensures Sound(Drop(b, i))
    ensures Drop(b, i).list == Without(b.list, i)
  {
    DropAsDisables(b, i);
    DropKeepsExact(b, i);
    WithoutKeeps(b.list, i);
  }

  lemma WithoutKeeps(list: seq<Usecase>, i: nat)
    requires i < |list| && UniqueStreams(list) && AllShaped(list) && SharedBackend(list)
    ensures UniqueStreams(Without(list, i)) && AllShaped(Without(list, i)) && SharedBackend(Without(list, i))
  {
    var w := Without(list, i);
    assert forall j :: 0 <= j < |w| ==> w[j] == list[if j < i then j else j + 1];
  }

  // With nothing listed nothing is counted.
  lemma EmptyListCountsNothing(b: Board)
    requires Exact(b) && b.list == []
    ensures forall d :: 0 <= d < SND_DEVICE_MAX ==> b.cnt[d] == 0
  {
  }

  // PCM_PLAYBACK is 0: the lookup of disable_snd_device never finds an entry, so the branch that would
  // cycle the rx device is never taken.
  lemma PlaybackLookupFindsNothing(list: seq<Usecase>)
    ensures FromType(list, TypeBits(Playback)).None?
  {
  }

  /* ---- Mixer paths ---- */

  function LiveStep(live: set<int>, e: MixerEvent): set<int> {
    match e
    case Apply(d) => live + {d}
    case Reset(d) => live - {d}
  }

  // A path is applied only when it is not live, and reset only when it is.
  predicate PairedStep(live: set<int>, e: MixerEvent) {
    match e
    case Apply(d) => d !in live
    case Reset(d) => d in live
  }

  // The paths applied and not since reset.
  function Live(log: seq<MixerEvent>): set<int> {
    if log == [] then {} else LiveStep(Live(log[..|log| - 1]), log[|log| - 1])
  }

  predicate Paired(log: seq<MixerEvent>) {
    log == [] || (Paired(log[..|log| - 1]) && PairedStep(Live(log[..|log| - 1]), log[|log| - 1]))
  }

  // The live paths are those of the devices with a positive count.
  ghost predicate Agrees(b: Board) {
    && |b.cnt| == SND_DEVICE_MAX
    && Paired(b.log)
    && (forall d :: 0 <= d < SND_DEVICE_MAX ==> b.cnt[d] >= 0)
    && (forall d :: d in Live(b.log) <==> Named(d) && b.cnt[d] > 0)
  }

  lemma LiveAfter(log: seq<MixerEvent>, e: MixerEvent)
    ensures Live(log + [e]) == LiveStep(Live(log), e)
    ensures Paired(log + [e]) <==> Paired(log) && PairedStep(Live(log), e)
  {
    assert (log + [e])[..|log|] == log;
  }

  // Applying on 0 to 1 is right exactly when the entry has the mixer card or the device was in use.
  lemma EnableAgreesIff(b: Board, card: bool, d: int)
    requires Agrees(b) && Named(d)
    ensures Agrees(Enable(b, card, d)) <==> card || b.cnt[d] > 0
  {
    LiveAfter(b.log, Apply(d));
    var r := Enable(b, card, d);
    if !(card || b.cnt[d] > 0) {
      assert d !in Live(r.log) && r.cnt[d] > 0;
    }
  }

  // Resetting on 1 to 0 is right exactly when the entry has the card or is not the last user.
  lemma DisableAgreesIff(b: Board, card: bool, d: int)
    requires Agrees(b) && Named(d)
    ensures Agrees(Disable(b, card, d)) <==> card || b.cnt[d] != 1
  {
    LiveAfter(b.log, Reset(d));
    var r := Disable(b, card, d);
    if !(card || b.cnt[d] != 1) {
      assert d in Live(r.log) && r.cnt[d] == 0;
    }
  }

  predicate AllCards(list: seq<Usecase>) {
    forall i :: 0 <= i < |list| ==> list[i].card
  }

  lemma {:induction false} MoveMarkedAgrees(b: Board, j: nat, ids: set<UsecaseId>, k: Kind, d: int)
    requires Agrees(b) && j <= |b.list| && AllCards(b.list) && AllNamed(b.list) && Named(d)
    ensures Agrees(MoveMarked(b, j, ids, k, d))
    ensures AllCards(MoveMarked(b, j, ids, k, d).list) && AllNamed(MoveMarked(b, j, ids, k, d).list)
    decreases |b.list| - j
  {
    if j == |b.list| {
    } else {
      if b.list[j].id in ids {
        var u := b.list[j];
        DisableAgreesIff(b, true, DeviceOf(u, k));
        EnableAgreesIff(Disable(b, true, DeviceOf(u, k)), true, d);
        assert Agrees(Move(b, j, k, d));
        MoveMarkedAgrees(Move(b, j, k, d), j + 1, ids, k, d);
      } else {
        MoveMarkedAgrees(b, j + 1, ids, k, d);
      }
    }
  }

  lemma RouteAndEnableAgrees(b: Board, i: nat, k: Kind, d: int)
    requires Agrees(b) && i < |b.list| && AllCards(b.list) && AllNamed(b.list) && Named(d)
    ensures Agrees(RouteAndEnable(b, i, k, d))
    ensures AllCards(RouteAndEnable(b, i, k, d).list) && AllNamed(RouteAndEnable(b, i, k, d).list)
  {
    if d != NONE {
      MoveMarkedAgrees(b, 0, Marked(b.list, |b.list|, i, k, d), k, d);
      EnableAgreesIff(CheckAndRoute(b, i, k, d), true, d);
    }
  }

  // Main result: when every listed use case has the mixer card, select_devices keeps the agreement.
  lemma AssignAgrees(b: Board, i: nat, out: int, inp: int)
    requires Agrees(b) && i < |b.list| && AllCards(b.list) && AllNamed(b.list) && Named(out) && Named(inp)
    ensures Agrees(Assign(b, i, out, inp))
  {
    var u := b.list[i];
    if !(out == u.out && inp == u.inp) {
      DisableAgreesIff(b, true, u.out);
      var b1 := DisableIfSet(b, u.card, u.out);
      DisableAgreesIff(b1, true, u.inp);
      var b2 := DisableIfSet(b1, u.card, u.inp);
      RouteAndEnableAgrees(b2, i, Playback, out);
      RouteAndEnableAgrees(RouteAndEnable(b2, i, Playback, out), i, Capture, inp);
    }
  }
}
